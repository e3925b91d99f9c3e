/** How the product and pharmacy editors classify the settled result of a
    write: a returned error, a write that matched nothing, or a success. */
module Outcomes {
  import opened Js
  import opened Supabase

  /** What the alert after a failed write shows: the message (or a default),
      and the hint and code only when the error carries them. */
  datatype ErrorReport = ErrorReport(message: string, hint: Option<string>, code: Option<string>)

  datatype Outcome = Succeeded | NothingMatched | Failed(report: ErrorReport)

  const UnknownError := "Unknown error occurred"
  const RlsAdvice := "\n\nIf this persists, check your Supabase RLS policies."

  /** The catch block's reading of a thrown backend error. */
  function Report(e: BackendError): (r: ErrorReport)
    ensures r.message == (if e.message != "" then e.message else UnknownError)
    ensures r.hint == None <==> e.hint == ""
    ensures r.code == None <==> e.code == ""
    ensures r.hint.Some? ==> r.hint.value == e.hint
    ensures r.code.Some? ==> r.code.value == e.code
  {
    ErrorReport(
      if e.message != "" then e.message else UnknownError,
      if e.hint != "" then Some(e.hint) else None,
      if e.code != "" then Some(e.code) else None)
  }

  /** The alert text, e.g. `"Error saving product: " + message + hint + code + advice`. */
  function AlertText(prefix: string, r: ErrorReport): (text: string)
    ensures prefix + r.message <= text
    ensures |text| >= |prefix| + |r.message| + |RlsAdvice|
    ensures text[|text| - |RlsAdvice|..] == RlsAdvice
  {
    var head := prefix + r.message;
    var tail := Details(r) + RlsAdvice;
    ConcatParts(head, tail);
    ConcatParts(Details(r), RlsAdvice);
    SuffixOfConcat(head, tail, RlsAdvice);
    head + tail
  }

  /** The hint and code lines, each only when present. */
  function Details(r: ErrorReport): string {
    (match r.hint case Some(h) => "\n\nHint: " + h case None => "") +
    (match r.code case Some(c) => "\n\nError Code: " + c case None => "")
  }

  /** `a` is a prefix of `a + b`, and `b` is what follows it. */
  lemma ConcatParts(a: string, b: string)
    ensures a <= a + b
    ensures (a + b)[|a|..] == b
  {
  }

  /** A suffix of `b` is a suffix of `a + b`. */
  lemma SuffixOfConcat(a: string, b: string, c: string)
    requires |c| <= |b| && b[|b| - |c|..] == c
    ensures (a + b)[|a + b| - |c|..] == c
  {
    assert (a + b)[|a + b| - |c|..] == b[|b| - |c|..];
  }

  /** An insert: only a returned error fails it; the returned rows are not inspected. */
  function ClassifyInsert(result: RowsResult): (o: Outcome)
    ensures o.Failed? <==> result.error.Some?
    ensures !o.NothingMatched?
    ensures o.Failed? ==> o.report == Report(result.error.value)
  {
    match result.error
    case Some(e) => Failed(Report(e))
    case None => Succeeded
  }

  /** An update: no error but null or empty returned rows means nothing was updated. */
  function ClassifyUpdate(result: RowsResult): (o: Outcome)
    ensures o.Failed? <==> result.error.Some?
    ensures o.Failed? ==> o.report == Report(result.error.value)
    ensures o.NothingMatched? <==> result.error.None? && (result.data == None || result.data == Some([]))
    ensures o.Succeeded? <==> result.error.None? && result.data.Some? && result.data.value != []
  {
    match result.error
    case Some(e) => Failed(Report(e))
    case None =>
      if result.data == None || result.data == Some([]) then NothingMatched else Succeeded
  }

  /** A delete: only an empty array counts as nothing deleted; null rows are a success. */
  function ClassifyDelete(result: RowsResult): (o: Outcome)
    ensures o.Failed? <==> result.error.Some?
    ensures o.Failed? ==> o.report == Report(result.error.value)
    ensures o.NothingMatched? <==> result.error.None? && result.data == Some([])
    ensures o.Succeeded? <==> result.error.None? && result.data != Some([])
  {
    match result.error
    case Some(e) => Failed(Report(e))
    case None => if result.data == Some([]) then NothingMatched else Succeeded
  }

  /** The update and delete rules disagree exactly on an error-free result
      whose rows are null: the update reports nothing updated, the delete
      reports success. */
  lemma UpdateAndDeleteDisagreeOnNull(result: RowsResult)
    ensures ClassifyUpdate(result) != ClassifyDelete(result) <==>
      result.error.None? && result.data.None?
    ensures result.error.None? && result.data.None? ==>
      ClassifyUpdate(result) == NothingMatched && ClassifyDelete(result) == Succeeded
  {
  }
}
