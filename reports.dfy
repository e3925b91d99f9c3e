/** The counterfeit report review page: the status filter of its query, the
    pending-only review actions, the status update it sends, and the status
    badge. */
module Reports {
  import opened Js
  import opened Supabase

  // ---------------------------------------------------------------------
  // The review rule

  const Pending := "pending"
  const Resolved := "resolved"
  const Rejected := "rejected"

  /** The transitions a report offers, in the list and in the detail modal
      alike: resolve or reject, and only while `status === 'pending'`. */
  function ActionsOffered(status: Value): (r: seq<string>)
    ensures r != [] <==> status == Str(Pending)
    ensures forall t :: t in r <==> status == Str(Pending) && (t == Resolved || t == Rejected)
  {
    if status == Str(Pending) then [Resolved, Rejected] else []
  }

  /** Both statuses a review sets are terminal as displayed: they offer no
      transition. */
  lemma ReviewedIsTerminal(t: string)
    requires t in ActionsOffered(Str(Pending))
    ensures ActionsOffered(Str(t)) == []
  {
  }

  /** A sequence of statuses in which each one is offered by the previous. */
  predicate ReviewPath(path: seq<string>) {
    forall i :: 0 <= i < |path| - 1 ==> path[i + 1] in ActionsOffered(Str(path[i]))
  }

  /** Every review path takes at most one step, and a step always starts at
      pending and ends at resolved or rejected. */
  lemma {:induction false} ReviewPathsAreShort(path: seq<string>)
    requires ReviewPath(path)
    ensures |path| <= 2
    ensures |path| == 2 ==> path[0] == Pending && (path[1] == Resolved || path[1] == Rejected)
  {
    if |path| >= 2 {
      assert path[1] in ActionsOffered(Str(path[0]));
      assert path[0] == Pending;
    }
    if |path| >= 3 {
      assert path[2] in ActionsOffered(Str(path[1]));
      ReviewedIsTerminal(path[1]);
      assert false;
    }
  }

  // ---------------------------------------------------------------------
  // The query

  /** The query `fetchReports` builds: newest first, with a status equality
      only when the filter is not `'all'`. */
  function StatusQuery(filter: string): (q: Select)
    ensures q.table == "reports" && q.order == Order("created_at", false)
    ensures q.eq.None? <==> filter == "all"
    ensures q.eq.Some? ==> q.eq.value == ("status", filter)
  {
    var q := Select("reports", Order("created_at", false), None);
    if filter != "all" then q.(eq := Some(("status", filter))) else q
  }

  /** The rows a query's equality filter lets through. */
  predicate Admits(q: Select, row: Row) {
    q.eq.None? || Get(row, q.eq.value.0) == Str(q.eq.value.1)
  }

  /** `'all'` keeps every row; any other filter keeps exactly the rows whose
      status is that string. */
  lemma StatusFilterKeeps(filter: string, row: Row)
    ensures filter == "all" ==> Admits(StatusQuery(filter), row)
    ensures filter != "all" ==> (Admits(StatusQuery(filter), row) <==> Get(row, "status") == Str(filter))
  {
  }

  // ---------------------------------------------------------------------
  // The status badge

  datatype Style = PendingStyle | ResolvedStyle | RejectedStyle

  /** The badge style: the status's own entry of the style table, and the
      pending style for any other status. */
  function BadgeStyle(status: string): (s: Style)
    ensures status == Resolved <==> s == ResolvedStyle
    ensures status == Rejected <==> s == RejectedStyle
    ensures s == PendingStyle <==> status != Resolved && status != Rejected
  {
    if status == Resolved then ResolvedStyle
    else if status == Rejected then RejectedStyle
    else PendingStyle
  }

  /** The names every plain object inherits from `Object.prototype`. */
  predicate PrototypeMember(name: string) {
    name == "constructor" || name == "toString" || name == "toLocaleString" ||
    name == "valueOf" || name == "hasOwnProperty" || name == "isPrototypeOf" ||
    name == "propertyIsEnumerable" || name == "__proto__" ||
    name == "__defineGetter__" || name == "__defineSetter__" ||
    name == "__lookupGetter__" || name == "__lookupSetter__"
  }

  /** What `statusConfig[status] || statusConfig.pending` yields as written:
      an own entry, or an inherited member, which is truthy and so skips the
      fallback without carrying a color or an icon. */
  datatype ConfigEntry = Own(style: Style) | Inherited(member: string)

  function ConfigAsWritten(status: string): (c: ConfigEntry)
    ensures c.Inherited? <==> PrototypeMember(status)
    ensures c.Inherited? ==> c.member == status
  {
    if status == Pending then Own(PendingStyle)
    else if status == Resolved then Own(ResolvedStyle)
    else if status == Rejected then Own(RejectedStyle)
    else if PrototypeMember(status) then Inherited(status)
    else Own(PendingStyle)
  }

  /** Away from the inherited names the lookup as written is the badge
      style; on them it yields an entry with no icon, so the badge cannot
      render, where the pending style was evidently meant. */
  lemma ConfigAsWrittenAgrees(status: string)
    ensures !PrototypeMember(status) ==> ConfigAsWritten(status) == Own(BadgeStyle(status))
    ensures PrototypeMember(status) ==> ConfigAsWritten(status) != Own(BadgeStyle(status))
  {
  }

  /** A concrete status on which the lookup as written misses the fallback. */
  lemma ConstructorStatusMissesFallback()
    ensures ConfigAsWritten("constructor") == Inherited("constructor")
    ensures BadgeStyle("constructor") == PendingStyle
  {
  }

  /** `s.charAt(0).toUpperCase() + s.slice(1)`, with ASCII case mapping. */
  function Capitalize(s: string): (r: string)
    ensures |r| == |s|
    ensures s != [] ==> r[0] == UpperChar(s[0]) && r[1..] == s[1..]
  {
    if s == [] then [] else [UpperChar(s[0])] + s[1..]
  }

  /** Capitalizing changes at most the case of the first character: the
      label lower-cases back to the lower-cased status. */
  lemma CapitalizeKeepsLetters(s: string)
    ensures Lower(Capitalize(s)) == Lower(s)
  {
    if s != [] {
      var r := Capitalize(s);
      assert LowerChar(UpperChar(s[0])) == LowerChar(s[0]);
      assert forall i :: 1 <= i < |s| ==> Lower(r)[i] == Lower(s)[i];
    }
  }

  lemma CapitalizeIdempotent(s: string)
    ensures Capitalize(Capitalize(s)) == Capitalize(s)
  {
  }

  datatype Badge = Badge(style: Style, caption: string)

  /** `getStatusBadge` with the pending fallback for every unknown status.
      A status that is not a string has no `charAt`, so the call throws. */
  function StatusBadge(status: Value): (b: Option<Badge>)
    ensures b.Some? <==> status.Str?
    ensures b.Some? ==> b.value.style == BadgeStyle(status.s) && b.value.caption == Capitalize(status.s)
  {
    if status.Str? then Some(Badge(BadgeStyle(status.s), Capitalize(status.s))) else None
  }

  lemma KnownBadges()
    ensures StatusBadge(Str(Pending)) == Some(Badge(PendingStyle, "Pending"))
    ensures StatusBadge(Str(Resolved)) == Some(Badge(ResolvedStyle, "Resolved"))
    ensures StatusBadge(Str(Rejected)) == Some(Badge(RejectedStyle, "Rejected"))
    ensures StatusBadge(Str("escalated")) == Some(Badge(PendingStyle, "Escalated"))
  {
    CapitalizeFirstLetter("pending", 'P');
    assert "Pending" == ['P'] + "pending"[1..];
    CapitalizeFirstLetter("resolved", 'R');
    assert "Resolved" == ['R'] + "resolved"[1..];
    CapitalizeFirstLetter("rejected", 'R');
    assert "Rejected" == ['R'] + "rejected"[1..];
    CapitalizeFirstLetter("escalated", 'E');
    assert "Escalated" == ['E'] + "escalated"[1..];
  }

  lemma CapitalizeFirstLetter(s: string, c: char)
    requires s != [] && IsLower(s[0]) && c as int == s[0] as int - 32
    ensures Capitalize(s) == [c] + s[1..]
  {
  }

  // ---------------------------------------------------------------------
  // The status update

  /** The alert after a status update. */
  datatype Notice = Updated | UpdateFailed(message: string)

  /** `handleStatusUpdate`, given the error the update returned, if any: it
      sends the single field `status` for the one report, and only a
      success asks for a refetch. No page state changes here. */
  method HandleStatusUpdate(reportId: Value, newStatus: string, error: Option<BackendError>)
    returns (request: Write, notice: Notice, refetch: bool)
    ensures request == Update("reports", map["status" := Str(newStatus)], reportId)
    ensures request.patch.Keys == {"status"}
    ensures refetch <==> error.None?
    ensures notice == (if error.None? then Updated else UpdateFailed(error.value.message))
  {
    request := Update("reports", map["status" := Str(newStatus)], reportId);
    match error {
      case None =>
        notice := Updated;
        refetch := true;
      case Some(e) =>
        notice := UpdateFailed(e.message);
        refetch := false;
    }
  }

  /** A review action from the list: only offered transitions can be sent,
      so the patch always moves a pending report to resolved or rejected. */
  method ActFromList(report: Row, newStatus: string, error: Option<BackendError>)
    returns (request: Write, notice: Notice, refetch: bool)
    requires newStatus in ActionsOffered(Get(report, "status"))
    ensures Get(report, "status") == Str(Pending)
    ensures request == Update("reports", map["status" := Str(newStatus)], Get(report, "id"))
    ensures request.patch["status"] == Str(Resolved) || request.patch["status"] == Str(Rejected)
    ensures refetch <==> error.None?
  {
    request, notice, refetch := HandleStatusUpdate(Get(report, "id"), newStatus, error);
  }

  // ---------------------------------------------------------------------
  // Page state

  class Page {
    var reports: seq<Row>
    var loading: bool
    var selectedReport: Option<Row>
    var filterStatus: string

    constructor ()
      ensures reports == [] && loading && selectedReport == None && filterStatus == "all"
    {
      reports := [];
      loading := true;
      selectedReport := None;
      filterStatus := "all";
    }

    /** `fetchReports`, given the settled result of the query built from the
        current filter: the rows replace the list (null as empty), an error
        leaves it as it was, and loading ends false either way. */
    method FetchReports(result: RowsResult) returns (query: Select, failed: bool)
      modifies this`reports, this`loading
      ensures query == StatusQuery(filterStatus)
      ensures failed == result.error.Some?
      ensures reports == if failed then old(reports) else result.data.GetOr([])
      ensures !loading
    {
      query := StatusQuery(filterStatus);
      failed := result.error.Some?;
      if !failed {
        reports := result.data.GetOr([]);
      }
      loading := false;
    }

    /** Choosing a filter: the fetch effect re-runs exactly when the filter
        value changed. */
    method SetFilterStatus(filter: string) returns (refetch: bool)
      modifies this`filterStatus
      ensures filterStatus == filter
      ensures refetch <==> filter != old(filterStatus)
    {
      refetch := filter != filterStatus;
      filterStatus := filter;
    }

    /** The view details button. */
    method ViewDetails(report: Row)
      modifies this`selectedReport
      ensures selectedReport == Some(report)
    {
      selectedReport := Some(report);
    }

    /** The modal's close button. */
    method CloseDetails()
      modifies this`selectedReport
      ensures selectedReport == None
    {
      selectedReport := None;
    }

    /** A review action from the detail modal: the update is sent for the
        selected report and the modal closes whatever the update returns. */
    method ActFromModal(newStatus: string, error: Option<BackendError>)
      returns (request: Write, notice: Notice, refetch: bool)
      requires selectedReport.Some?
      requires newStatus in ActionsOffered(Get(selectedReport.value, "status"))
      modifies this`selectedReport
      ensures request == Update("reports", map["status" := Str(newStatus)], Get(old(selectedReport).value, "id"))
      ensures newStatus == Resolved || newStatus == Rejected
      ensures refetch <==> error.None?
      ensures selectedReport == None
    {
      request, notice, refetch := HandleStatusUpdate(Get(selectedReport.value, "id"), newStatus, error);
      selectedReport := None;
    }
  }
}
