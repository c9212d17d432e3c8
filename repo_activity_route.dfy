/** The per-repository commit statistics route the page calls when a repository card is
    expanded: validation, a rate-limit gate, the week transform and the total. */
module RepoActivityRoute {
  import opened Base
  import opened Types
  import opened Commits
  import opened RateLimit

  /** The statistics request: it failed with a message (a non-OK status or a thrown
      error), or it returned a body. */
  datatype StatsFetch = StatsFailed(message: string) | StatsBody(body: ActivityJson)

  datatype ActivityResponse =
    | MissingRepo
    | RateTooLow(remaining: int)
    | NoActivity(repoName: string, message: string)
    | Activity(repoName: string, commitActivity: seq<CommitWeek>, totalCommits: int, lastUpdated: int)
    | FetchError(message: string)

  const RateThreshold := 5

  function Status(r: ActivityResponse): int
  {
    match r
    case MissingRepo => 400
    case RateTooLow(_) => 429
    case NoActivity(_, _) => 200
    case Activity(_, _, _, _) => 200
    case FetchError(_) => 500
  }

  /** `GET`: the `repo` parameter (absent or empty is missing), the quota check, the
      statistics request; `now` stands for the current time. */
  function Get(repo: Option<string>, rate: RateCheck, fetch: StatsFetch, now: int): (r: ActivityResponse)
    ensures (repo.None? || repo.value == "") <==> r == MissingRepo
    ensures r.RateTooLow? <==> repo.Some? && repo.value != "" && RateLimited(rate, RateThreshold)
    ensures r.FetchError? <==> repo.Some? && repo.value != "" && !RateLimited(rate, RateThreshold) && fetch.StatsFailed?
    ensures r.NoActivity? <==>
      repo.Some? && repo.value != "" && !RateLimited(rate, RateThreshold) && fetch.StatsBody?
      && (fetch.body.NotArray? || fetch.body.weeks == [])
    ensures r.Activity? ==>
      r.repoName == repo.value && r.commitActivity == TransformWeeks(fetch.body.weeks)
      && r.totalCommits == RawTotal(fetch.body.weeks) && r.lastUpdated == now && r.commitActivity != []
  {
    if repo.None? || repo.value == "" then MissingRepo
    else if rate.Remaining? && rate.remaining < 5 then RateTooLow(rate.remaining)
    else match fetch
      case StatsFailed(message) => FetchError(message)
      case StatsBody(NotArray) => NoActivity(repo.value, "No commit activity data available")
      case StatsBody(WeeksArray(weeks)) =>
        if weeks == [] then NoActivity(repo.value, "No commit activity data available")
        else
          var transformed := TransformWeeks(weeks);
          TransformedTotal(weeks);
          Activity(repo.value, transformed, WeeksTotal(transformed), now)
  }

  /** The status-code table: 400 before anything else, then 429, then 500, otherwise 200. */
  lemma StatusTable(repo: Option<string>, rate: RateCheck, fetch: StatsFetch, now: int)
    ensures var s := Status(Get(repo, rate, fetch, now));
      (s == 400 <==> repo.None? || repo.value == "")
      && (s == 429 <==> repo.Some? && repo.value != "" && RateLimited(rate, RateThreshold))
      && (s == 500 <==> repo.Some? && repo.value != "" && !RateLimited(rate, RateThreshold) && fetch.StatsFailed?)
      && (s == 200 <==> repo.Some? && repo.value != "" && !RateLimited(rate, RateThreshold) && fetch.StatsBody?)
  {
  }
}
