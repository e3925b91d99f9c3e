/** The mock verification API: GTIN cleaning, lookup with the 13-to-14
    digit zero-pad retry, and the two response shapes. The product list read
    from the data file is a parameter. */
module MockApi {

  datatype Option<+T> = None | Some(value: T)

  /** One record of the product data file, with the keys `verify` reads. */
  datatype Product = Product(
    gtin: string,
    productBrandName: string,
    genericName: string,
    dosageForm: string,
    dosageStrength: string,
    manufacturerName: string,
    manufacturerCountry: string,
    registrationNo: string,
    expiryDate: string)

  datatype Response =
    | Valid(gtin: string, product: string, genericName: string, dosageForm: string,
            strength: string, manufacturer: string, country: string,
            registrationNo: string, expiryDate: string)
    | Warning(gtin: string, message: string)

  datatype RootResponse = RootResponse(message: string, totalProducts: nat)

  const WelcomeMessage := "Welcome to MedGuard API"
  const NotFoundMessage :=
    "GTIN not found in RFDA register. Possible counterfeit or unregistered product."

  predicate IsDigit(c: char) { '0' <= c <= '9' }

  predicate AllDigits(s: string) { forall i :: 0 <= i < |s| ==> IsDigit(s[i]) }

  /** `"".join([c for c in code if c.isdigit()])`, over ASCII digits. */
  function Clean(code: string): (r: string)
    ensures AllDigits(r)
    ensures |r| <= |code|
  {
    if code == [] then []
    else (if IsDigit(code[0]) then [code[0]] else []) + Clean(code[1..])
  }

  /** The cleaned code holds each digit as many times as the input does,
      and nothing else. */
  lemma {:induction false} CleanCounts(code: string)
    ensures forall c :: multiset(Clean(code))[c] == if IsDigit(c) then multiset(code)[c] else 0
  {
    if code != [] {
      CleanCounts(code[1..]);
      assert code == [code[0]] + code[1..];
    }
  }

  /** A single character is kept when it is a digit and dropped otherwise. */
  lemma CleanSingle(c: char)
    ensures Clean([c]) == if IsDigit(c) then [c] else []
  {
    assert [c][1..] == [];
  }

  /** Cleaning distributes over concatenation; with CleanSingle this fixes
      the cleaned code as the input's digits in their original order. */
  lemma {:induction false} CleanAppend(a: string, b: string)
    ensures Clean(a + b) == Clean(a) + Clean(b)
  {
    if a == [] {
      assert a + b == b;
    } else {
      var head := if IsDigit(a[0]) then [a[0]] else [];
      assert (a + b)[0] == a[0] && (a + b)[1..] == a[1..] + b;
      CleanAppend(a[1..], b);
      calc {
        Clean(a + b);
        head + Clean(a[1..] + b);
        head + (Clean(a[1..]) + Clean(b));
        (head + Clean(a[1..])) + Clean(b);
      }
    }
  }

  /** A code made only of digits is left unchanged. */
  lemma {:induction false} CleanKeepsDigits(s: string)
    requires AllDigits(s)
    ensures Clean(s) == s
  {
    if s != [] {
      CleanKeepsDigits(s[1..]);
    }
  }

  /** Cleaning is idempotent. */
  lemma CleanIdempotent(code: string)
    ensures Clean(Clean(code)) == Clean(code)
  {
    CleanKeepsDigits(Clean(code));
  }

  /** Every digit of the input survives cleaning. */
  lemma {:induction false} CleanKeepsEveryDigit(code: string, i: nat)
    requires i < |code| && IsDigit(code[i])
    ensures code[i] in Clean(code)
  {
    if i > 0 {
      CleanKeepsEveryDigit(code[1..], i - 1);
    }
  }

  /** `next((p for p in data if p["gtin"] == key), None)`, as an index. */
  function FirstMatch(data: seq<Product>, key: string): (r: Option<nat>)
    ensures r.Some? ==> r.value < |data| && data[r.value].gtin == key
    ensures r.Some? ==> forall j :: 0 <= j < r.value ==> data[j].gtin != key
    ensures r.None? ==> forall j :: 0 <= j < |data| ==> data[j].gtin != key
  {
    if data == [] then None
    else if data[0].gtin == key then Some(0)
    else match FirstMatch(data[1..], key)
      case None => None
      case Some(i) => Some(i + 1)
  }

  /** The record `verify` answers with, if any: the direct match, or for a
      13-digit code the match under the key with a leading `'0'`. */
  function Lookup(data: seq<Product>, code: string): (r: Option<Product>)
    ensures r.Some? ==> r.value in data
  {
    match FirstMatch(data, code)
    case Some(i) => Some(data[i])
    case None =>
      if |code| == 13 then
        match FirstMatch(data, "0" + code)
        case Some(i) => Some(data[i])
        case None => None
      else None
  }

  /** `verify(code)` */
  function Verify(data: seq<Product>, code: string): (r: Response)
    ensures r.gtin == Clean(code)
    ensures r.Warning? ==> r.message == NotFoundMessage
  {
    var cleaned := Clean(code);
    match Lookup(data, cleaned)
    case Some(p) =>
      Valid(cleaned, p.productBrandName, p.genericName, p.dosageForm, p.dosageStrength,
            p.manufacturerName, p.manufacturerCountry, p.registrationNo, p.expiryDate)
    case None => Warning(cleaned, NotFoundMessage)
  }

  /** `root()` */
  function Root(data: seq<Product>): (r: RootResponse)
    ensures r.totalProducts == |data|
    ensures r.message == WelcomeMessage
  {
    RootResponse(WelcomeMessage, |data|)
  }

  /** The response carries every field of `p`, echoing `gtin` as given. */
  predicate Describes(r: Response, gtin: string, p: Product) {
    r == Valid(gtin, p.productBrandName, p.genericName, p.dosageForm, p.dosageStrength,
               p.manufacturerName, p.manufacturerCountry, p.registrationNo, p.expiryDate)
  }

  /** A direct match always wins, and among records sharing the GTIN the
      first in list order is returned. */
  lemma DirectMatchFirst(data: seq<Product>, code: string, i: nat)
    requires i < |data| && data[i].gtin == Clean(code)
    requires forall j :: 0 <= j < i ==> data[j].gtin != Clean(code)
    ensures Describes(Verify(data, code), Clean(code), data[i])
  {
    var m := FirstMatch(data, Clean(code));
    assert m == Some(i);
  }

  /** With no direct match, a 13-digit code is retried as `"0" + code`,
      whose record is answered while the echoed `gtin` stays the 13 digits. */
  lemma PaddedMatch(data: seq<Product>, code: string, i: nat)
    requires forall j :: 0 <= j < |data| ==> data[j].gtin != Clean(code)
    requires |Clean(code)| == 13
    requires i < |data| && data[i].gtin == "0" + Clean(code)
    requires forall j :: 0 <= j < i ==> data[j].gtin != "0" + Clean(code)
    ensures Describes(Verify(data, code), Clean(code), data[i])
    ensures |data[i].gtin| == 14 && AllDigits(data[i].gtin)
  {
    var key := "0" + Clean(code);
    var m := FirstMatch(data, key);
    assert m == Some(i);
    assert forall k :: 0 < k < |key| ==> key[k] == Clean(code)[k - 1];
  }

  /** The padded key is tried only for a 13-digit code: any other length
      without a direct match (a 14-digit one in particular, which is never
      un-padded) is answered with the warning. */
  lemma NoRetryUnless13(data: seq<Product>, code: string)
    requires forall j :: 0 <= j < |data| ==> data[j].gtin != Clean(code)
    requires |Clean(code)| != 13
    ensures Verify(data, code) == Warning(Clean(code), NotFoundMessage)
  {
  }

  /** `status` is valid exactly when some record holds the cleaned code, or,
      for a 13-digit code, the code with a leading zero. */
  lemma ValidIffFound(data: seq<Product>, code: string)
    ensures Verify(data, code).Valid? <==>
      (exists j :: 0 <= j < |data| && data[j].gtin == Clean(code)) ||
      (|Clean(code)| == 13 && exists j :: 0 <= j < |data| && data[j].gtin == "0" + Clean(code))
  {
    var c := Clean(code);
    if exists j :: 0 <= j < |data| && data[j].gtin == c {
      var j :| 0 <= j < |data| && data[j].gtin == c;
      assert FirstMatch(data, c).Some?;
    } else if |c| == 13 && exists j :: 0 <= j < |data| && data[j].gtin == "0" + c {
      var j :| 0 <= j < |data| && data[j].gtin == "0" + c;
      assert FirstMatch(data, "0" + c).Some?;
    }
  }
}
