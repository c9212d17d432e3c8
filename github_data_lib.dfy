/** The static-build GitHub loader: list the owner's repositories, keep the starred
    non-forks, rank them, keep twenty and attach each one's commit statistics. */
module GitHubDataLib {
  import opened Base
  import opened Types
  import opened Ranking

  /** The repository list request: a non-OK status, a thrown error, or the list. */
  datatype ListReply = ListNotOk | ListThrew | ListOk(repos: seq<RawRepo>)

  /** A statistics request for one repository: thrown, non-OK, or the body (taken here as
      already shaped commit weeks). */
  datatype StatsReply = StatsThrew | StatsNotOk | StatsOk(body: seq<CommitWeek>)

  /** The loader's result: raw repository records with their statistics attached. */
  datatype LoadedData = LoadedData(repos: seq<RawRepo>, user: Option<GitHubUser>, pagination: Pagination, lastUpdated: int)

  const FixedPagination: Pagination := Pagination(1, 30, 1, false)

  /** `getFallbackData`; `now` stands for the current time. */
  function FallbackData(now: int): (d: LoadedData)
    ensures d.repos == [] && d.user == None && d.lastUpdated == now
    ensures d.pagination.page == 1 && d.pagination.perPage == 30
    ensures d.pagination.totalPages == 1 && !d.pagination.hasMore
  {
    LoadedData([], None, FixedPagination, now)
  }

  /** The reply for the i-th kept repository; a missing one counts as a thrown request. */
  function ReplyAt(replies: seq<StatsReply>, i: nat): StatsReply
  {
    if i < |replies| then replies[i] else StatsThrew
  }

  /** One repository with its statistics: the body when OK, otherwise an empty list. */
  function WithActivity(repo: RawRepo, reply: StatsReply): (r: RawRepo)
    ensures r == repo.(commitActivity := r.commitActivity)
    ensures reply.StatsOk? ==> r.commitActivity == Some(reply.body)
    ensures !reply.StatsOk? ==> r.commitActivity == Some([])
  {
    repo.(commitActivity := Some(if reply.StatsOk? then reply.body else []))
  }

  /** `fetchGitHubDataStatic`: the fallback when the list fails, otherwise the top twenty
      repositories with at least one star, each with its statistics. */
  function FetchGitHubDataStatic(list: ListReply, replies: seq<StatsReply>, now: int): (d: LoadedData)
    ensures !list.ListOk? ==> d == FallbackData(now)
    ensures list.ListOk? ==>
      var kept := Ranked(list.repos, 1, 20);
      |d.repos| == |kept| <= 20 && d.user == None && d.pagination == FixedPagination && d.lastUpdated == now
      && forall i :: 0 <= i < |kept| ==> d.repos[i] == WithActivity(kept[i], ReplyAt(replies, i))
  {
    match list
    case ListNotOk => FallbackData(now)
    case ListThrew => FallbackData(now)
    case ListOk(repos) =>
      var kept := Ranked(repos, 1, 20);
      LoadedData(seq(|kept|, i requires 0 <= i < |kept| => WithActivity(kept[i], ReplyAt(replies, i))),
                 None, FixedPagination, now)
  }

  /** Every repository the loader returns has at least one star, is not a fork, came from
      the list, and carries statistics. */
  lemma LoadedReposKept(list: ListReply, replies: seq<StatsReply>, now: int, i: nat)
    requires i < |FetchGitHubDataStatic(list, replies, now).repos|
    ensures list.ListOk?
    ensures var r := FetchGitHubDataStatic(list, replies, now).repos[i];
      r.stargazers_count > 0 && !r.fork && r.commitActivity.Some?
      && r.(commitActivity := None) in seq(|list.repos|, k requires 0 <= k < |list.repos| => list.repos[k].(commitActivity := None))
  {
    var kept := Ranked(list.repos, 1, 20);
    assert kept[i] in kept;
    var k :| 0 <= k < |list.repos| && list.repos[k] == kept[i];
    var stripped := seq(|list.repos|, k requires 0 <= k < |list.repos| => list.repos[k].(commitActivity := None));
    assert stripped[k] == kept[i].(commitActivity := None);
  }
}
