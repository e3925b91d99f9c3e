/** JavaScript values as the dashboard pages see them in rows returned by the
    backend, with the truthiness, string conversion and ASCII case mapping the
    pages rely on. */
module Js {

  datatype Option<+T> = None | Some(value: T) {
    function GetOr(default: T): T {
      match this
      case Some(v) => v
      case None => default
    }
  }

  /** A JSON-ish JavaScript value. A number is carried by its canonical
      string form (what `Number.prototype.toString` prints), which is never
      empty; `0`, `-0` both print as "0". */
  datatype Value =
    | Undefined
    | Null
    | Str(s: string)
    | Num(text: string)
    | Bool(b: bool)

  /** A row of a table: column name to value. */
  type Row = map<string, Value>

  /** `row[key]`: a missing key reads as `undefined`. */
  function Get(row: Row, key: string): (v: Value)
    ensures key !in row ==> v == Undefined
    ensures key in row ==> v == row[key]
  {
    if key in row then row[key] else Undefined
  }

  /** JavaScript truthiness: `undefined`, `null`, `''`, `0`, `NaN` and
      `false` are falsy. */
  predicate Truthy(v: Value) {
    match v
    case Undefined => false
    case Null => false
    case Str(s) => s != ""
    case Num(t) => t != "0" && t != "NaN"
    case Bool(b) => b
  }

  /** `a || b` on values. */
  function Or(a: Value, b: Value): (r: Value)
    ensures Truthy(a) ==> r == a
    ensures !Truthy(a) ==> r == b
  {
    if Truthy(a) then a else b
  }

  /** `a ?? b`: only `null` and `undefined` fall through. */
  function Coalesce(a: Value, b: Value): (r: Value)
    ensures a != Null && a != Undefined ==> r == a
    ensures a == Null || a == Undefined ==> r == b
  {
    if a == Null || a == Undefined then b else a
  }

  /** `v.toString()` for a value that is neither null nor undefined. */
  function ToText(v: Value): (s: string)
    requires v != Null && v != Undefined
    ensures v.Str? ==> s == v.s
    ensures v.Num? ==> s == v.text
  {
    match v
    case Str(s) => s
    case Num(t) => t
    case Bool(b) => if b then "true" else "false"
  }

  predicate IsUpper(c: char) { 'A' <= c <= 'Z' }
  predicate IsLower(c: char) { 'a' <= c <= 'z' }

  function LowerChar(c: char): (d: char)
    ensures IsUpper(c) ==> d as int == c as int + 32
    ensures !IsUpper(c) ==> d == c
    ensures !IsUpper(d)
  {
    if IsUpper(c) then (c as int + 32) as char else c
  }

  function UpperChar(c: char): (d: char)
    ensures IsLower(c) ==> d as int == c as int - 32
    ensures !IsLower(c) ==> d == c
    ensures !IsLower(d)
  {
    if IsLower(c) then (c as int - 32) as char else c
  }

  /** `s.toLowerCase()`, over ASCII letters. */
  function Lower(s: string): (r: string)
    ensures |r| == |s|
    ensures forall i :: 0 <= i < |s| ==> r[i] == LowerChar(s[i])
  {
    if s == [] then [] else [LowerChar(s[0])] + Lower(s[1..])
  }

  lemma {:induction false} LowerIdempotent(s: string)
    ensures Lower(Lower(s)) == Lower(s)
  {
    if s != [] {
      LowerIdempotent(s[1..]);
      assert Lower(s)[1..] == Lower(s[1..]);
    }
  }

  /** `hay.includes(needle)`. */
  predicate Includes(hay: string, needle: string) {
    needle <= hay || (hay != [] && Includes(hay[1..], needle))
  }

  /** `needle` occurs in `hay` starting at index `i`. */
  predicate OccursAt(hay: string, needle: string, i: int) {
    0 <= i <= |hay| - |needle| && hay[i..i + |needle|] == needle
  }

  /** `includes` is substring membership: some window of `hay` equals `needle`. */
  lemma {:induction false} IncludesIsSubstring(hay: string, needle: string)
    ensures Includes(hay, needle) <==> exists i :: OccursAt(hay, needle, i)
  {
    if needle <= hay {
      assert OccursAt(hay, needle, 0);
    } else if hay == [] {
    } else {
      IncludesIsSubstring(hay[1..], needle);
      if exists i :: OccursAt(hay, needle, i) {
        var i :| OccursAt(hay, needle, i);
        assert i != 0;
        assert OccursAt(hay[1..], needle, i - 1);
      }
      if exists j :: OccursAt(hay[1..], needle, j) {
        var j :| OccursAt(hay[1..], needle, j);
        assert OccursAt(hay, needle, j + 1);
      }
    }
  }

  /** `a` is `b` with some elements dropped, order kept. */
  predicate Subsequence<T(==)>(a: seq<T>, b: seq<T>) {
    if a == [] then true
    else if b == [] then false
    else if a[0] == b[0] then Subsequence(a[1..], b[1..])
    else Subsequence(a, b[1..])
  }

  /** `xs.filter(keep)` where `keep` may throw: `keep(x) == None` is a throw,
      which aborts the whole filter. */
  function FilterOrThrow<T(==,!new)>(xs: seq<T>, keep: T -> Option<bool>): (r: Option<seq<T>>)
    ensures r.Some? <==> forall i :: 0 <= i < |xs| ==> keep(xs[i]).Some?
    ensures r.Some? ==> Subsequence(r.value, xs)
    ensures r.Some? ==> forall x :: x in r.value <==> x in xs && keep(x) == Some(true)
    ensures r.Some? ==> forall x :: multiset(r.value)[x] == if keep(x) == Some(true) then multiset(xs)[x] else 0
  {
    if xs == [] then Some([])
    else
      assert xs == [xs[0]] + xs[1..];
      match keep(xs[0])
      case None => None
      case Some(k) =>
        match FilterOrThrow(xs[1..], keep)
        case None => None
        case Some(rest) => Some(if k then [xs[0]] + rest else rest)
  }

  /** When nothing throws and every element is kept, the filter is the identity. */
  lemma {:induction false} FilterKeepingAll<T(!new)>(xs: seq<T>, keep: T -> Option<bool>)
    requires forall i :: 0 <= i < |xs| ==> keep(xs[i]) == Some(true)
    ensures FilterOrThrow(xs, keep) == Some(xs)
  {
    if xs != [] {
      FilterKeepingAll(xs[1..], keep);
      assert [xs[0]] + xs[1..] == xs;
    }
  }
}
