/** The script that writes the bundled repository snapshot from the GitHub API: the
    ranked non-forks, the first three with their commit weeks (or a fixed two-week
    stand-in when the statistics are unusable), and a single fixed page. */
module GenerateScript {
  import opened Base
  import opened Types
  import opened Commits
  import opened Ranking
  import GitHubDataRoute

  const RepoLimit: nat := 20
  const ActivityRepos: nat := 3

  /** The stand-in activity: last week and the week before, relative to `now` (ms). */
  function FallbackWeeks(now: int): (r: seq<CommitWeek>)
    ensures |r| == 2
    ensures r[0].week == now / 1000 - 7 * 24 * 60 * 60 && r[1].week == now / 1000 - 14 * 24 * 60 * 60
  {
    [CommitWeek(now / 1000 - 7 * 24 * 60 * 60, [1, 2, 0, 1, 3, 0, 1], 8),
     CommitWeek(now / 1000 - 14 * 24 * 60 * 60, [0, 1, 1, 2, 1, 0, 0], 5)]
  }

  /** The stand-in weeks are consistent: seven days each, totals 8 and 5 the sums of their days. */
  lemma FallbackWeeksConsistent(now: int)
    ensures forall i :: 0 <= i < 2 ==>
      |FallbackWeeks(now)[i].days| == 7 && FallbackWeeks(now)[i].total == Sum(FallbackWeeks(now)[i].days)
    ensures FallbackWeeks(now)[0].total == 8 && FallbackWeeks(now)[1].total == 5
  {
    SumOfWeek(1, 2, 0, 1, 3, 0, 1);
    SumOfWeek(0, 1, 1, 2, 1, 0, 0);
  }

  lemma SumOfWeek(a: int, b: int, c: int, d: int, e: int, f: int, g: int)
    ensures Sum([a, b, c, d, e, f, g]) == a + b + c + d + e + f + g
  {
    assert [a][..0] == [];
    assert Sum([a]) == a;
    assert [a, b][..1] == [a];
    assert Sum([a, b]) == a + b;
    assert [a, b, c][..2] == [a, b];
    assert Sum([a, b, c]) == a + b + c;
    assert [a, b, c, d][..3] == [a, b, c];
    assert Sum([a, b, c, d]) == a + b + c + d;
    assert [a, b, c, d, e][..4] == [a, b, c, d];
    assert Sum([a, b, c, d, e]) == a + b + c + d + e;
    assert [a, b, c, d, e, f][..5] == [a, b, c, d, e];
    assert Sum([a, b, c, d, e, f]) == a + b + c + d + e + f;
    assert [a, b, c, d, e, f, g][..6] == [a, b, c, d, e, f];
  }

  /** The activity one of the first three repositories gets: the transformed weeks of an
      array reply (an empty array included), otherwise the stand-in. */
  function GeneratedActivity(fetch: ActivityFetch, now: int): (r: seq<CommitWeek>)
    ensures fetch.Fetched? && fetch.body.WeeksArray? ==> r == TransformWeeks(fetch.body.weeks)
    ensures !(fetch.Fetched? && fetch.body.WeeksArray?) ==> r == FallbackWeeks(now)
  {
    match fetch
    case Fetched(WeeksArray(weeks)) => TransformWeeks(weeks)
    case _ => FallbackWeeks(now)
  }

  /** The i-th written repository: unchanged from the fourth on. */
  function GeneratedRepo(repo: RawRepo, i: nat, fetches: seq<ActivityFetch>, now: int): (r: RawRepo)
    ensures i >= ActivityRepos ==> r == repo
    ensures i < ActivityRepos ==> r == repo.(commitActivity := Some(GeneratedActivity(FetchAt(fetches, i), now)))
  {
    if i < ActivityRepos then repo.(commitActivity := Some(GeneratedActivity(FetchAt(fetches, i), now)))
    else repo
  }

  datatype GeneratedData = GeneratedData(repos: seq<RawRepo>, pagination: GitHubDataRoute.LivePagination, lastUpdated: int)

  /** What the script does: writes the snapshot, or exits with status 1 when the list
      request fails. */
  datatype GenerateResult = Wrote(data: GeneratedData) | Exited(code: int)

  /** `fetchGitHubData`, with the upstream replies as inputs and `now` the current time. */
  method FetchGitHubData(list: GitHubDataRoute.ListFetch, fetches: seq<ActivityFetch>, now: int) returns (result: GenerateResult)
    ensures list.ListFailed? ==> result == Exited(1)
    ensures list.ListFetched? ==>
      var filtered := Ranked(list.repos, 0, RepoLimit);
      result.Wrote? && |result.data.repos| == |filtered|
      && (forall i :: 0 <= i < |filtered| ==> result.data.repos[i] == GeneratedRepo(filtered[i], i, fetches, now))
      && result.data.pagination == GitHubDataRoute.LivePagination(1, 1, false, |filtered|)
      && result.data.lastUpdated == now
  {
    if list.ListFailed? {
      return Exited(1);
    }
    var filteredRepos := Ranked(list.repos, 0, RepoLimit);
    var reposWithActivity := AttachActivity(filteredRepos, fetches, now);
    result := Wrote(GeneratedData(reposWithActivity, GitHubDataRoute.LivePagination(1, 1, false, |reposWithActivity|), now));
  }

  /** The loop over the ranked repositories: the first three get their activity. */
  method AttachActivity(filteredRepos: seq<RawRepo>, fetches: seq<ActivityFetch>, now: int) returns (reposWithActivity: seq<RawRepo>)
    ensures |reposWithActivity| == |filteredRepos|
    ensures forall i :: 0 <= i < |filteredRepos| ==> reposWithActivity[i] == GeneratedRepo(filteredRepos[i], i, fetches, now)
  {
    reposWithActivity := [];
    var i := 0;
    while i < |filteredRepos|
      invariant 0 <= i <= |filteredRepos|
      invariant |reposWithActivity| == i
      invariant forall k :: 0 <= k < i ==> reposWithActivity[k] == GeneratedRepo(filteredRepos[k], k, fetches, now)
    {
      var entry := WithActivity(filteredRepos[i], i, fetches, now);
      assert (reposWithActivity + [entry])[..i] == reposWithActivity;
      reposWithActivity := reposWithActivity + [entry];
      i := i + 1;
    }
  }

  /** One pass of the loop: the first three repositories get the transformed weeks of an
      array reply, or the stand-in. */
  method WithActivity(repo: RawRepo, i: nat, fetches: seq<ActivityFetch>, now: int) returns (entry: RawRepo)
    ensures entry == GeneratedRepo(repo, i, fetches, now)
  {
    entry := repo;
    if i < 3 {
      var commitActivity := FetchAt(fetches, i);
      if commitActivity.Fetched? && commitActivity.body.WeeksArray? {
        var transformedActivity := TransformWeeks(commitActivity.body.weeks);
        entry := repo.(commitActivity := Some(transformedActivity));
      } else {
        entry := repo.(commitActivity := Some(FallbackWeeks(now)));
      }
    }
  }

  /** The written repositories are at most twenty ranked non-forks from the list, in
      ranking order, each of the first three with activity whose weekly totals are those
      of the reply (missing ones as 0) or the stand-in's 8 and 5. */
  lemma GeneratedReposRanked(repos: seq<RawRepo>, fetches: seq<ActivityFetch>, now: int, i: nat)
    requires i < |Ranked(repos, 0, RepoLimit)|
    ensures |Ranked(repos, 0, RepoLimit)| <= RepoLimit
    ensures var f := Ranked(repos, 0, RepoLimit); var r := GeneratedRepo(f[i], i, fetches, now);
      r in repos || r.(commitActivity := f[i].commitActivity) in repos
    ensures var f := Ranked(repos, 0, RepoLimit); var r := GeneratedRepo(f[i], i, fetches, now);
      !r.fork
      && (i < ActivityRepos ==>
           r.commitActivity.Some? && WeeksTotal(r.commitActivity.value)
             == (if FetchAt(fetches, i).Fetched? && FetchAt(fetches, i).body.WeeksArray?
                 then RawTotal(FetchAt(fetches, i).body.weeks) else 13))
  {
    var f := Ranked(repos, 0, RepoLimit);
    assert f[i] in f;
    if i < ActivityRepos {
      var fetch := FetchAt(fetches, i);
      if fetch.Fetched? && fetch.body.WeeksArray? {
        TransformedTotal(fetch.body.weeks);
      } else {
        var w := FallbackWeeks(now);
        assert w[..1] == [w[0]];
        assert WeeksTotal(w) == WeeksTotal(w[..1]) + w[1].total;
      }
    }
  }
}
