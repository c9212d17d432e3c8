/** The repository ranking the data routes and scripts share: drop forks and repositories
    below a star threshold, sort by stars (most first) and then by last update (newest
    first), and keep the first few. */
module Ranking {
  import opened Base
  import opened Types

  /** `a` may stand before `b`: it has more stars, or as many and was updated no earlier
      (the comparator returns a non-positive number). */
  predicate RanksBefore(a: RawRepo, b: RawRepo)
  {
    a.stargazers_count > b.stargazers_count
    || (a.stargazers_count == b.stargazers_count && a.updated_at >= b.updated_at)
  }

  predicate Sorted(s: seq<RawRepo>)
  {
    forall i, j :: 0 <= i < j < |s| ==> RanksBefore(s[i], s[j])
  }

  /** The filter: not a fork and at least `minStars` stars (`>= 0` is `minStars == 0`,
      `> 0` is `minStars == 1`). */
  predicate Kept(r: RawRepo, minStars: int)
  {
    !r.fork && r.stargazers_count >= minStars
  }

  function Filter(s: seq<RawRepo>, minStars: int): (r: seq<RawRepo>)
    ensures |r| <= |s|
    ensures forall x :: x in r <==> x in s && Kept(x, minStars)
  {
    if s == [] then []
    else Filter(s[..|s| - 1], minStars) + (if Kept(s[|s| - 1], minStars) then [s[|s| - 1]] else [])
  }

  /** Filtering keeps the relative order: it commutes with concatenation. */
  lemma {:induction false} FilterAppend(a: seq<RawRepo>, b: seq<RawRepo>, minStars: int)
    ensures Filter(a + b, minStars) == Filter(a, minStars) + Filter(b, minStars)
    decreases |b|
  {
    if b == [] {
      assert a + b == a;
    } else {
      assert (a + b)[..|a + b| - 1] == a + b[..|b| - 1];
      FilterAppend(a, b[..|b| - 1], minStars);
    }
  }

  /** Inserting into a sorted list before the first element it may precede: the earlier
      of two equally ranked repositories stays first. */
  function Insert(x: RawRepo, s: seq<RawRepo>): (r: seq<RawRepo>)
    requires Sorted(s)
    ensures |r| == |s| + 1
    ensures multiset(r) == multiset(s) + multiset{x}
    ensures Sorted(r)
    decreases |s|
  {
    if s == [] then [x]
    else if RanksBefore(x, s[0]) then [x] + s
    else
      var rest := Insert(x, s[1..]);
      InsertHead(x, s, rest);
      [s[0]] + rest
  }

  lemma InsertHead(x: RawRepo, s: seq<RawRepo>, rest: seq<RawRepo>)
    requires s != [] && Sorted(s) && !RanksBefore(x, s[0])
    requires multiset(rest) == multiset(s[1..]) + multiset{x} && Sorted(rest)
    ensures Sorted([s[0]] + rest)
    ensures multiset([s[0]] + rest) == multiset(s) + multiset{x}
  {
    assert s == [s[0]] + s[1..];
    var r := [s[0]] + rest;
    forall j | 0 <= j < |rest|
      ensures RanksBefore(s[0], rest[j])
    {
      assert rest[j] in multiset(rest);
      if rest[j] != x {
        assert rest[j] in multiset(s[1..]);
        var k :| 0 <= k < |s[1..]| && s[1..][k] == rest[j];
        assert s[k + 1] == rest[j];
      }
    }
    forall i, j | 0 <= i < j < |r|
      ensures RanksBefore(r[i], r[j])
    {
      if i == 0 {
        assert r[j] == rest[j - 1];
      } else {
        assert r[i] == rest[i - 1] && r[j] == rest[j - 1];
      }
    }
  }

  /** `sort` with the comparator: an insertion sort, which keeps equally ranked
      repositories in their original order, as JavaScript's stable sort does. */
  function SortRepos(s: seq<RawRepo>): (r: seq<RawRepo>)
    ensures |r| == |s|
    ensures multiset(r) == multiset(s)
    ensures Sorted(r)
  {
    if s == [] then []
    else
      assert s == [s[0]] + s[1..];
      Insert(s[0], SortRepos(s[1..]))
  }

  /** `filter(...).sort(...).slice(0, limit)`. */
  function Ranked(repos: seq<RawRepo>, minStars: int, limit: nat): (r: seq<RawRepo>)
    ensures |r| == MinInt(|Filter(repos, minStars)|, limit)
    ensures r == SortRepos(Filter(repos, minStars))[..|r|]
    ensures Sorted(r)
    ensures forall x :: x in r ==> x in repos && Kept(x, minStars)
  {
    var sorted := SortRepos(Filter(repos, minStars));
    var r := Take(sorted, limit);
    forall x | x in r
      ensures x in repos && Kept(x, minStars)
    {
      assert x in multiset(sorted);
    }
    r
  }

  /** Every repository the truncation drops ranks after every one it keeps, and any
      kept repository outranking a dropped one is among those kept. */
  lemma RankedIsTop(repos: seq<RawRepo>, minStars: int, limit: nat, i: nat, j: nat)
    requires i < |Ranked(repos, minStars, limit)| <= j < |Filter(repos, minStars)|
    ensures RanksBefore(SortRepos(Filter(repos, minStars))[i], SortRepos(Filter(repos, minStars))[j])
  {
  }

  /** Every kept repository is in the ranking when there are at most `limit` of them. */
  lemma RankedComplete(repos: seq<RawRepo>, minStars: int, limit: nat, x: RawRepo)
    requires x in repos && Kept(x, minStars)
    requires |Filter(repos, minStars)| <= limit
    ensures x in Ranked(repos, minStars, limit)
  {
    var f := Filter(repos, minStars);
    assert x in multiset(f);
    assert x in multiset(SortRepos(f));
    assert Ranked(repos, minStars, limit) == SortRepos(f);
  }
}
