/** The overview page: four counters folded from already-settled backend
    results, with a fallback when the verification view fails, a fatal path
    that zeroes everything, and the verification rate. */
module Dashboard {
  import opened Js
  import opened Supabase

  datatype Stats = Stats(
    totalUsers: nat,
    verifiedDrugs: nat,
    unverifiedDrugs: nat,
    totalReports: nat,
    loading: bool)

  /** The initial state: every counter zero, still loading. */
  const Initial := Stats(0, 0, 0, 0, true)

  /** The fatal path's state: every counter zero, loading done. */
  const Zeroed := Stats(0, 0, 0, 0, false)

  /** A query's outcome: the `{ data | count, error }` it returned, or a
      rejection, which makes the surrounding `Promise.all` reject. */
  datatype Settled<T> = Returned(value: T) | Threw

  /** The row of the `verification_stats` view; a missing or null column is `None`. */
  datatype ViewRow = ViewRow(totalVerified: Option<nat>, totalUnverified: Option<nat>)

  /** `{ data, error }` of `verification_stats.select('*').single()`. */
  datatype ViewResult = ViewResult(data: Option<ViewRow>, error: Option<BackendError>)

  /** The three queries run together first. */
  datatype FirstRound = FirstRound(
    users: Settled<CountResult>,
    view: Settled<ViewResult>,
    reports: Settled<CountResult>)

  /** The two `verification_events` counts run together after a view error. */
  datatype FallbackRound = FallbackRound(verified: Settled<CountResult>, unverified: Settled<CountResult>)

  /** The requests `fetchStats` issues. */
  datatype Query =
    | Count(table: string, eq: Option<(string, string)>)
    | SingleRow(table: string)

  const FirstQueries := [Count("user_sessions", None), SingleRow("verification_stats"), Count("reports", None)]
  const FallbackQueries := [
    Count("verification_events", Some(("verification_result", "verified"))),
    Count("verification_events", Some(("verification_result", "unverified")))]

  /** `count || 0` */
  function CountOrZero(c: Option<nat>): (n: nat)
    ensures c.None? ==> n == 0
    ensures c.Some? ==> n == c.value
  {
    c.GetOr(0)
  }

  /** `verificationStats?.total_verified || 0`, and likewise the unverified
      total: zero without a row or without the column. */
  function ViewVerified(data: Option<ViewRow>): (n: nat)
    ensures data.None? || data.value.totalVerified.None? ==> n == 0
    ensures data.Some? && data.value.totalVerified.Some? ==> n == data.value.totalVerified.value
  {
    if data.Some? then CountOrZero(data.value.totalVerified) else 0
  }

  function ViewUnverified(data: Option<ViewRow>): (n: nat)
    ensures data.None? || data.value.totalUnverified.None? ==> n == 0
    ensures data.Some? && data.value.totalUnverified.Some? ==> n == data.value.totalUnverified.value
  {
    if data.Some? then CountOrZero(data.value.totalUnverified) else 0
  }

  predicate FirstRoundThrew(first: FirstRound) {
    first.users.Threw? || first.view.Threw? || first.reports.Threw?
  }

  /** The view answered with an error, so the fallback round runs. */
  predicate FallsBack(first: FirstRound) {
    !FirstRoundThrew(first) && first.view.value.error.Some?
  }

  /** The state `fetchStats` leaves, as a function of what its queries
      settled to. A rejection in either round zeroes every counter; a view
      error takes the two fallback counts; otherwise the view's totals are
      used. A returned users or reports error only logs, its null count
      reading as zero. */
  function FoldStats(first: FirstRound, fallback: FallbackRound): (s: Stats)
    ensures !s.loading
  {
    if FirstRoundThrew(first) then Zeroed
    else if first.view.value.error.Some? then
      if fallback.verified.Threw? || fallback.unverified.Threw? then Zeroed
      else Stats(
        CountOrZero(first.users.value.count),
        CountOrZero(fallback.verified.value.count),
        CountOrZero(fallback.unverified.value.count),
        CountOrZero(first.reports.value.count),
        false)
    else Stats(
      CountOrZero(first.users.value.count),
      ViewVerified(first.view.value.data),
      ViewUnverified(first.view.value.data),
      CountOrZero(first.reports.value.count),
      false)
  }

  /** A rejected query, in either round, zeroes all four counters. */
  lemma ThrownQueryZeroesAll(first: FirstRound, fallback: FallbackRound)
    requires FirstRoundThrew(first) || (FallsBack(first) && (fallback.verified.Threw? || fallback.unverified.Threw?))
    ensures FoldStats(first, fallback) == Zeroed
  {
  }

  /** Without a view error the fallback results are never read. */
  lemma FallbackOnlyOnViewError(first: FirstRound, fallback: FallbackRound, other: FallbackRound)
    requires !FallsBack(first)
    ensures FoldStats(first, fallback) == FoldStats(first, other)
  {
  }

  /** A returned users error does not abort the rest: replacing the users
      result changes the users counter and nothing else. */
  lemma UsersResultIsolated(first: FirstRound, fallback: FallbackRound, users: CountResult)
    requires !FirstRoundThrew(first)
    requires !FallsBack(first) || (fallback.verified.Returned? && fallback.unverified.Returned?)
    ensures FoldStats(first.(users := Returned(users)), fallback) ==
            FoldStats(first, fallback).(totalUsers := CountOrZero(users.count))
  {
  }

  /** Likewise for the reports result. */
  lemma ReportsResultIsolated(first: FirstRound, fallback: FallbackRound, reports: CountResult)
    requires !FirstRoundThrew(first)
    requires !FallsBack(first) || (fallback.verified.Returned? && fallback.unverified.Returned?)
    ensures FoldStats(first.(reports := Returned(reports)), fallback) ==
            FoldStats(first, fallback).(totalReports := CountOrZero(reports.count))
  {
  }

  /** On a view error the users and reports counts of the first round are
      kept, and the drug counters come from the fallback counts. */
  lemma FallbackKeepsFirstRoundCounts(first: FirstRound, fallback: FallbackRound)
    requires FallsBack(first)
    requires fallback.verified.Returned? && fallback.unverified.Returned?
    ensures FoldStats(first, fallback) == Stats(
      CountOrZero(first.users.value.count),
      CountOrZero(fallback.verified.value.count),
      CountOrZero(fallback.unverified.value.count),
      CountOrZero(first.reports.value.count),
      false)
  {
  }

  /** When the view answers without an error, the drug counters are its
      two totals, each 0 when the row or its column is missing, and the
      users and reports counters are the first round's counts. */
  lemma ViewTotalsUsed(first: FirstRound, fallback: FallbackRound)
    requires !FirstRoundThrew(first) && first.view.value.error.None?
    ensures FoldStats(first, fallback) == Stats(
      CountOrZero(first.users.value.count),
      ViewVerified(first.view.value.data),
      ViewUnverified(first.view.value.data),
      CountOrZero(first.reports.value.count),
      false)
  {
  }

  /** The users and reports counters are the first round's counts on every
      path that does not reject, and 0 when a fallback count rejects. */
  lemma CountersComeFromResults(first: FirstRound, fallback: FallbackRound)
    requires !FirstRoundThrew(first)
    ensures FoldStats(first, fallback).totalUsers ==
      if FallsBack(first) && (fallback.verified.Threw? || fallback.unverified.Threw?) then 0
      else CountOrZero(first.users.value.count)
    ensures FoldStats(first, fallback).totalReports ==
      if FallsBack(first) && (fallback.verified.Threw? || fallback.unverified.Threw?) then 0
      else CountOrZero(first.reports.value.count)
  {
  }

  class Page {
    var stats: Stats

    constructor ()
      ensures stats == Initial
    {
      stats := Initial;
    }

    /** `fetchStats`, given what each query settles to: the first round of
        three queries, and the fallback round, run only on a view error. */
    method FetchStats(first: FirstRound, fallback: FallbackRound) returns (queries: seq<Query>)
      modifies this`stats
      ensures stats == FoldStats(first, fallback)
      ensures queries == FirstQueries + (if FallsBack(first) then FallbackQueries else [])
    {
      queries := FirstQueries;
      if first.users.Threw? || first.view.Threw? || first.reports.Threw? {
        stats := Zeroed;
        return;
      }
      var usersCount := first.users.value.count;
      var reportsCount := first.reports.value.count;
      if first.view.value.error.Some? {
        queries := queries + FallbackQueries;
        if fallback.verified.Threw? || fallback.unverified.Threw? {
          stats := Zeroed;
          return;
        }
        var verifiedCount := CountOrZero(fallback.verified.value.count);
        var unverifiedCount := CountOrZero(fallback.unverified.value.count);
        stats := Stats(CountOrZero(usersCount), verifiedCount, unverifiedCount, CountOrZero(reportsCount), false);
        return;
      }
      var data := first.view.value.data;
      var verifiedCount := if data.Some? then CountOrZero(data.value.totalVerified) else 0;
      var unverifiedCount := if data.Some? then CountOrZero(data.value.totalUnverified) else 0;
      stats := Stats(CountOrZero(usersCount), verifiedCount, unverifiedCount, CountOrZero(reportsCount), false);
    }
  }

  // ---------------------------------------------------------------------
  // The verification rate

  /** The percentage shown as the verification rate: computed only when
      some drug was verified, so the denominator is never zero; otherwise 0. */
  function RatePercent(verified: nat, unverified: nat): (r: real)
    ensures 0.0 <= r <= 100.0
    ensures r == 0.0 <==> verified == 0
    ensures r == 100.0 <==> verified > 0 && unverified == 0
    ensures verified > 0 ==> r * ((verified + unverified) as real) == 100.0 * (verified as real)
  {
    if verified > 0 then RatioPercent(verified, unverified) else 0.0
  }

  function RatioPercent(verified: nat, unverified: nat): (r: real)
    requires verified > 0
    ensures 0.0 < r <= 100.0
    ensures r == 100.0 <==> unverified == 0
    ensures r * ((verified + unverified) as real) == 100.0 * (verified as real)
  {
    var total := (verified + unverified) as real;
    var q := verified as real / total;
    QuotientTimesDivisor(verified as real, total);
    QuotientAtMostOne(verified as real, total);
    assert q == 1.0 ==> unverified == 0;
    assert (q * 100.0) * total == 100.0 * (q * total);
    q * 100.0
  }

  lemma QuotientTimesDivisor(a: real, b: real)
    requires b > 0.0
    ensures (a / b) * b == a
  {
  }

  lemma QuotientAtMostOne(a: real, b: real)
    requires 0.0 <= a <= b && b > 0.0
    ensures a / b <= 1.0
  {
    QuotientTimesDivisor(a, b);
    CancelPositiveFactor(a / b, 1.0, b);
  }

  lemma CancelPositiveFactor(x: real, y: real, b: real)
    requires b > 0.0 && x * b <= y * b
    ensures x <= y
  {
  }

  lemma RateExamples()
    ensures RatePercent(3, 1) == 75.0
    ensures RatePercent(7, 3) == 70.0
    ensures RatePercent(0, 5) == 0.0
  {
  }
}
