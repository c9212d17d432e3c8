/** GitHub's weekly commit statistics as they arrive, the defaulting transform the
    API routes and scripts apply to them, and weekly totals. */
module Commits {
  import opened Base
  import opened Types

  /** A week as the statistics endpoint sends it: `days` or `total` may be absent. */
  datatype RawWeek = RawWeek(week: int, days: Option<seq<int>>, total: Option<int>)

  /** The body of a commit-statistics reply: an array of weeks, or something else
      (GitHub answers `{}` while it is still computing the statistics). */
  datatype ActivityJson = NotArray | WeeksArray(weeks: seq<RawWeek>)

  /** What a statistics request yields: a body, or a failure (a non-OK status or a
      thrown error). */
  datatype ActivityFetch = FetchFailed | Fetched(body: ActivityJson)

  const ZeroDays: seq<int> := [0, 0, 0, 0, 0, 0, 0]

  /** The statistics request for the i-th repository; one never made counts as failed. */
  function FetchAt(fetches: seq<ActivityFetch>, i: nat): ActivityFetch
  {
    if i < |fetches| then fetches[i] else FetchFailed
  }

  /** The week transform: keep `week`, default `days` to seven zeros and `total` to 0. */
  function TransformWeeks(weeks: seq<RawWeek>): (r: seq<CommitWeek>)
    ensures |r| == |weeks|
    ensures forall i :: 0 <= i < |weeks| ==>
      r[i].week == weeks[i].week
      && r[i].days == (if weeks[i].days.Some? then weeks[i].days.value else ZeroDays)
      && r[i].total == (if weeks[i].total.Some? then weeks[i].total.value else 0)
  {
    if weeks == [] then []
    else
      var w := weeks[|weeks| - 1];
      TransformWeeks(weeks[..|weeks| - 1]) + [CommitWeek(w.week, w.days.GetOr(ZeroDays), w.total.GetOr(0))]
  }

  /** The transform commutes with concatenation, so it keeps the order of the weeks. */
  lemma TransformWeeksAppend(a: seq<RawWeek>, b: seq<RawWeek>)
    ensures TransformWeeks(a + b) == TransformWeeks(a) + TransformWeeks(b)
  {
  }

  /** The sum of the weekly `total`s (`reduce((sum, week) => sum + week.total, 0)`). */
  function WeeksTotal(weeks: seq<CommitWeek>): int
  {
    if weeks == [] then 0 else WeeksTotal(weeks[..|weeks| - 1]) + weeks[|weeks| - 1].total
  }

  lemma {:induction false} WeeksTotalAppend(a: seq<CommitWeek>, b: seq<CommitWeek>)
    ensures WeeksTotal(a + b) == WeeksTotal(a) + WeeksTotal(b)
    decreases |b|
  {
    if b == [] {
      assert a + b == a;
    } else {
      assert (a + b)[..|a + b| - 1] == a + b[..|b| - 1];
      WeeksTotalAppend(a, b[..|b| - 1]);
    }
  }

  /** A total of weeks whose totals are all at least zero is at least zero. */
  lemma {:induction false} WeeksTotalNonNegative(weeks: seq<CommitWeek>)
    requires forall i :: 0 <= i < |weeks| ==> weeks[i].total >= 0
    ensures WeeksTotal(weeks) >= 0
    decreases |weeks|
  {
    if weeks != [] {
      WeeksTotalNonNegative(weeks[..|weeks| - 1]);
    }
  }

  /** The total of transformed weeks counts a week without `total` as 0. */
  function RawTotal(weeks: seq<RawWeek>): int
  {
    if weeks == [] then 0 else RawTotal(weeks[..|weeks| - 1]) + weeks[|weeks| - 1].total.GetOr(0)
  }

  lemma {:induction false} TransformedTotal(weeks: seq<RawWeek>)
    ensures WeeksTotal(TransformWeeks(weeks)) == RawTotal(weeks)
    decreases |weeks|
  {
    if weeks != [] {
      var t := TransformWeeks(weeks);
      assert t[..|t| - 1] == TransformWeeks(weeks[..|weeks| - 1]);
      TransformedTotal(weeks[..|weeks| - 1]);
    }
  }

  /** `fetchCommitActivity` of the live-data route and script: null on a failed request,
      a non-array body or an empty array, otherwise the transformed weeks. */
  function ActivityOrNull(fetch: ActivityFetch): (r: Option<seq<CommitWeek>>)
    ensures r.None? <==> (fetch.FetchFailed? || fetch.body.NotArray? || fetch.body.weeks == [])
    ensures r.Some? ==> r.value != [] && r.value == TransformWeeks(fetch.body.weeks)
  {
    match fetch
    case FetchFailed => None
    case Fetched(NotArray) => None
    case Fetched(WeeksArray(weeks)) => if weeks == [] then None else Some(TransformWeeks(weeks))
  }
}
