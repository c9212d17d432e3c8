/** The live GitHub data route: a rate-limit gate, the six best-ranked repositories,
    commit statistics for the first three, and fixed single-page pagination. */
module GitHubDataRoute {
  import opened Base
  import opened Types
  import opened Commits
  import opened Ranking
  import opened RateLimit

  /** The repository list request: it failed with a message, or it returned the list. */
  datatype ListFetch = ListFailed(message: string) | ListFetched(repos: seq<RawRepo>)

  datatype LivePagination = LivePagination(currentPage: int, totalPages: int, hasMore: bool, totalRepos: int)

  /** The three answers of the route. */
  datatype LiveResponse =
    | RateTooLow(remaining: int)
    | LiveData(repos: seq<RawRepo>, pagination: LivePagination, lastUpdated: int, source: string)
    | FetchError(message: string)

  const RateThreshold := 10
  const RepoLimit: nat := 6
  const ActivityRepos: nat := 3

  function Status(r: LiveResponse): int
  {
    match r
    case RateTooLow(_) => 429
    case LiveData(_, _, _, _) => 200
    case FetchError(_) => 500
  }

  /** The i-th output repository: the input one, with `commitActivity` replaced only when
      it is among the first three and its statistics are not null. */
  function Processed(repo: RawRepo, i: nat, fetches: seq<ActivityFetch>): (r: RawRepo)
    ensures r.(commitActivity := repo.commitActivity) == repo
    ensures i >= ActivityRepos || ActivityOrNull(FetchAt(fetches, i)).None? ==> r == repo
    ensures i < ActivityRepos && ActivityOrNull(FetchAt(fetches, i)).Some? ==>
      r.commitActivity == ActivityOrNull(FetchAt(fetches, i))
  {
    if i < ActivityRepos && ActivityOrNull(FetchAt(fetches, i)).Some? then
      repo.(commitActivity := ActivityOrNull(FetchAt(fetches, i)))
    else repo
  }

  /** The loop pushing one processed repository per ranked repository. */
  method ProcessRepos(filteredRepos: seq<RawRepo>, fetches: seq<ActivityFetch>) returns (reposWithActivity: seq<RawRepo>)
    ensures |reposWithActivity| == |filteredRepos|
    ensures forall i :: 0 <= i < |filteredRepos| ==> reposWithActivity[i] == Processed(filteredRepos[i], i, fetches)
  {
    reposWithActivity := [];
    var i := 0;
    while i < |filteredRepos|
      invariant 0 <= i <= |filteredRepos|
      invariant |reposWithActivity| == i
      invariant forall k :: 0 <= k < i ==> reposWithActivity[k] == Processed(filteredRepos[k], k, fetches)
    {
      var repo := filteredRepos[i];
      var commitActivity: Option<seq<CommitWeek>> := None;
      if i < 3 {
        commitActivity := ActivityOrNull(FetchAt(fetches, i));
      }
      var processedRepo := if commitActivity.Some? then repo.(commitActivity := commitActivity) else repo;
      reposWithActivity := reposWithActivity + [processedRepo];
      i := i + 1;
    }
  }

  /** `GET`: 429 when the reported quota is below ten, 500 when the list fails, otherwise
      the processed ranking with one fixed page; `now` stands for the current time. */
  method Get(rate: RateCheck, list: ListFetch, fetches: seq<ActivityFetch>, now: int) returns (resp: LiveResponse)
    ensures RateLimited(rate, RateThreshold) ==> resp == RateTooLow(rate.remaining) && Status(resp) == 429
    ensures !RateLimited(rate, RateThreshold) && list.ListFailed? ==> resp == FetchError(list.message) && Status(resp) == 500
    ensures !RateLimited(rate, RateThreshold) && list.ListFetched? ==>
      var filtered := Ranked(list.repos, 0, RepoLimit);
      resp.LiveData? && Status(resp) == 200
      && |resp.repos| == |filtered|
      && (forall i :: 0 <= i < |filtered| ==> resp.repos[i] == Processed(filtered[i], i, fetches))
      && resp.pagination == LivePagination(1, 1, false, |filtered|)
      && resp.lastUpdated == now && resp.source == "github-api-live"
  {
    if rate.Remaining? && rate.remaining < 10 {
      return RateTooLow(rate.remaining);
    }
    match list
    case ListFailed(message) =>
      resp := FetchError(message);
    case ListFetched(repos) =>
      var filteredRepos := Ranked(repos, 0, RepoLimit);
      var reposWithActivity := ProcessRepos(filteredRepos, fetches);
      resp := LiveData(reposWithActivity, LivePagination(1, 1, false, |reposWithActivity|), now, "github-api-live");
  }

  /** Only the first three repositories can change, and one changes exactly when its
      statistics are not null; it then carries the transformed, non-empty weeks. */
  lemma ActivityOnlyForFirstThree(repo: RawRepo, i: nat, fetches: seq<ActivityFetch>)
    ensures i >= ActivityRepos ==> Processed(repo, i, fetches) == repo
    ensures i < ActivityRepos && FetchAt(fetches, i).Fetched? && FetchAt(fetches, i).body.WeeksArray?
            && FetchAt(fetches, i).body.weeks != [] ==>
      Processed(repo, i, fetches).commitActivity == Some(TransformWeeks(FetchAt(fetches, i).body.weeks))
    ensures Processed(repo, i, fetches).(commitActivity := repo.commitActivity) == repo
    ensures Processed(repo, i, fetches) != repo ==> Processed(repo, i, fetches).commitActivity.value != []
  {
  }

  /** The live data holds at most six repositories, each a non-fork from the list, in
      ranking order. */
  lemma LiveReposRanked(repos: seq<RawRepo>, fetches: seq<ActivityFetch>, i: nat, j: nat)
    requires i < j < |Ranked(repos, 0, RepoLimit)|
    ensures |Ranked(repos, 0, RepoLimit)| <= 6
    ensures var f := Ranked(repos, 0, RepoLimit);
      RanksBefore(Processed(f[i], i, fetches), Processed(f[j], j, fetches))
      && !Processed(f[i], i, fetches).fork
  {
    var f := Ranked(repos, 0, RepoLimit);
    assert f[i] in f;
  }
}
