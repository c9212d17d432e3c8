/** The script that rewrites the commit activity of the snapshot's first three
    repositories with generated weeks that follow each repository's age: a new
    repository is quiet before its last two weeks, the main project follows the
    established pattern, and any other repository is moderately active. */
module AccurateScript {
  import opened Base
  import opened Types
  import opened Oracle
  import opened DataMappers
  import opened ManualScript

  /** The new-repository branch: the site's own repository, or one flagged as new. */
  predicate IsNewRepo(repoName: string, isNewRepo: bool)
  {
    repoName == "rusty-butter-website" || isNewRepo
  }

  predicate IsWeekend(day: int) { day == 0 || day == 6 }

  /** A new repository's day: nothing before its two newest weeks, then weekends 0 or 1
      and weekdays 0 or 1 to 3. */
  function NewRepoDay(week: int, day: int, d: Draw): (r: nat)
    ensures week >= 2 ==> r == 0
    ensures week < 2 && IsWeekend(day) ==> r <= 1
    ensures week < 2 && !IsWeekend(day) ==> r == 0 || 1 <= r <= 3
  {
    if week < 2 then (if IsWeekend(day) then Chance(d, 2, 0) else Chance(d, 3, 1)) else 0
  }

  /** Another established repository's day: weekends 0 or 1, weekdays 0 to 2 in the six
      newest weeks and 0 or 1 before. */
  function OtherRepoDay(week: int, day: int, d: Draw): (r: nat)
    ensures if IsWeekend(day) || week >= 6 then r <= 1 else r <= 2
  {
    if IsWeekend(day) then Chance(d, 2, 0)
    else if week < 6 then Chance(d, 3, 0)
    else Chance(d, 2, 0)
  }

  /** The commits of one generated day, by the kind of repository; the main project
      follows the established rule of the other generator. */
  function AccurateDay(repoName: string, isNewRepo: bool, week: int, day: int, d: Draw): (r: nat)
    ensures IsNewRepo(repoName, isNewRepo) ==> r <= 3
    ensures !IsNewRepo(repoName, isNewRepo) && repoName == "rusty-butter" ==> r <= 6
    ensures !IsNewRepo(repoName, isNewRepo) && repoName != "rusty-butter" ==> r <= 2
  {
    if IsNewRepo(repoName, isNewRepo) then NewRepoDay(week, day, d)
    else if repoName == "rusty-butter" then RealisticDay(week, day, d)
    else OtherRepoDay(week, day, d)
  }

  function AccurateDays(repoName: string, isNewRepo: bool, week: nat, draws: seq<Draw>): (r: seq<int>)
    requires week < YearWeeks
    ensures |r| == WeekDays
    ensures forall day :: 0 <= day < WeekDays ==>
      r[day] == AccurateDay(repoName, isNewRepo, week, day, DrawAt(draws, DrawIndex(week, day)))
  {
    seq(WeekDays, day requires 0 <= day < WeekDays =>
      AccurateDay(repoName, isNewRepo, week, day, DrawAt(draws, DrawIndex(week, day))) as int)
  }

  /** The week `week` weeks before now: its timestamp, seven non-negative days, and a
      total that is their sum. */
  function AccurateWeek(repoName: string, isNewRepo: bool, now: int, week: nat, draws: seq<Draw>): (w: CommitWeek)
    requires week < YearWeeks
    ensures w.week == WeekTimestamp(now, week) && |w.days| == WeekDays && w.total == Sum(w.days)
    ensures forall d :: 0 <= d < WeekDays ==> w.days[d] >= 0
  {
    var days := AccurateDays(repoName, isNewRepo, week, draws);
    CommitWeek(WeekTimestamp(now, week), days, Sum(days))
  }

  /** What `generateAccurateCommitActivity` returns: element i is the week i weeks before now. */
  function AccurateYear(repoName: string, isNewRepo: bool, now: int, draws: seq<Draw>): (r: seq<CommitWeek>)
    ensures |r| == YearWeeks
    ensures forall i :: 0 <= i < YearWeeks ==> r[i] == AccurateWeek(repoName, isNewRepo, now, i, draws)
  {
    seq(YearWeeks, i requires 0 <= i < YearWeeks => AccurateWeek(repoName, isNewRepo, now, i, draws))
  }

  /** The generator: for each week from the oldest to the newest, the days of the week
      (below), and the week put in front of the list. */
  method GenerateAccurateCommitActivity(repoName: string, isNewRepo: bool, now: int, draws: seq<Draw>)
      returns (activity: seq<CommitWeek>)
    ensures activity == AccurateYear(repoName, isNewRepo, now, draws)
  {
    activity := [];
    var week := 51;
    while week >= 0
      invariant -1 <= week <= 51
      invariant |activity| == 51 - week
      invariant forall k :: 0 <= k < |activity| ==> activity[k] == AccurateWeek(repoName, isNewRepo, now, week + 1 + k, draws)
    {
      var weekTimestamp := (now - week * WeekMs) / 1000;
      var days, weekTotal := GenerateAccurateDays(repoName, isNewRepo, week, draws);
      assert CommitWeek(weekTimestamp, days, weekTotal) == AccurateWeek(repoName, isNewRepo, now, week, draws);
      activity := [CommitWeek(weekTimestamp, days, weekTotal)] + activity;
      week := week - 1;
    }
  }

  /** The body of the week loop: the branch of the repository's kind pushes seven days
      with a running total (for the main project the day loop of the other generator),
      or seven zeros with total 0. */
  method GenerateAccurateDays(repoName: string, isNewRepo: bool, week: nat, draws: seq<Draw>)
      returns (days: seq<int>, weekTotal: int)
    requires week < YearWeeks
    ensures days == AccurateDays(repoName, isNewRepo, week, draws)
    ensures weekTotal == Sum(days)
  {
    if repoName == "rusty-butter-website" || isNewRepo {
      if week < 2 {
        days, weekTotal := NewRepoDays(week, draws);
      } else {
        days := [0, 0, 0, 0, 0, 0, 0];
        weekTotal := 0;
        ZeroSum(days);
      }
    } else if repoName == "rusty-butter" {
      days, weekTotal := GenerateRealisticDays(week, draws);
    } else {
      days, weekTotal := OtherRepoDays(week, draws);
    }
  }

  /** The day loop of a new repository's two newest weeks. */
  method NewRepoDays(week: nat, draws: seq<Draw>) returns (days: seq<int>, weekTotal: int)
    requires week < 2
    ensures |days| == WeekDays && weekTotal == Sum(days)
    ensures forall k :: 0 <= k < WeekDays ==> days[k] == NewRepoDay(week, k, DrawAt(draws, DrawIndex(week, k)))
  {
    days := [];
    weekTotal := 0;
    var day := 0;
    while day < 7
      invariant 0 <= day <= 7
      invariant |days| == day
      invariant forall k :: 0 <= k < day ==> days[k] == NewRepoDay(week, k, DrawAt(draws, DrawIndex(week, k)))
      invariant weekTotal == Sum(days)
    {
      var d := DrawAt(draws, DrawIndex(week, day));
      var commits := 0;
      if day == 0 || day == 6 {
        commits := if d.hit then d.pick % 2 else 0;
      } else {
        commits := if d.hit then d.pick % 3 + 1 else 0;
      }
      assert commits == NewRepoDay(week, day, d);
      assert (days + [commits])[..day] == days;
      days := days + [commits];
      weekTotal := weekTotal + commits;
      day := day + 1;
    }
  }

  /** The day loop of any other established repository. */
  method OtherRepoDays(week: nat, draws: seq<Draw>) returns (days: seq<int>, weekTotal: int)
    requires week < YearWeeks
    ensures |days| == WeekDays && weekTotal == Sum(days)
    ensures forall k :: 0 <= k < WeekDays ==> days[k] == OtherRepoDay(week, k, DrawAt(draws, DrawIndex(week, k)))
  {
    var isRecentWeek := week < 6;
    days := [];
    weekTotal := 0;
    var day := 0;
    while day < 7
      invariant 0 <= day <= 7
      invariant |days| == day
      invariant forall k :: 0 <= k < day ==> days[k] == OtherRepoDay(week, k, DrawAt(draws, DrawIndex(week, k)))
      invariant weekTotal == Sum(days)
    {
      var d := DrawAt(draws, DrawIndex(week, day));
      var commits := 0;
      if day == 0 || day == 6 {
        commits := if d.hit then d.pick % 2 else 0;
      } else if isRecentWeek {
        commits := if d.hit then d.pick % 3 else 0;
      } else {
        commits := if d.hit then d.pick % 2 else 0;
      }
      assert commits == OtherRepoDay(week, day, d);
      assert (days + [commits])[..day] == days;
      days := days + [commits];
      weekTotal := weekTotal + commits;
      day := day + 1;
    }
  }

  lemma {:induction false} ZeroSum(s: seq<int>)
    requires forall j :: 0 <= j < |s| ==> s[j] == 0
    ensures Sum(s) == 0
    decreases |s|
  {
    if s != [] {
      ZeroSum(s[..|s| - 1]);
    }
  }

  /** Every branch yields a year: 52 weeks of seven days, each total the sum of its days. */
  lemma AccurateYearShaped(repoName: string, isNewRepo: bool, now: int, draws: seq<Draw>)
    ensures YearShaped(now, AccurateYear(repoName, isNewRepo, now, draws))
  {
  }

  /** A new repository has no commits at all before its two newest weeks. */
  lemma NewRepoQuiet(repoName: string, isNewRepo: bool, now: int, draws: seq<Draw>, i: nat)
    requires IsNewRepo(repoName, isNewRepo)
    requires 2 <= i < YearWeeks
    ensures var w := AccurateYear(repoName, isNewRepo, now, draws)[i];
      w.total == 0 && forall day :: 0 <= day < WeekDays ==> w.days[day] == 0
  {
    var days := AccurateDays(repoName, isNewRepo, i, draws);
    ZeroSum(days);
  }

  // ---------------------------------------------------------------- the snapshot update

  function DrawsAt(oracles: seq<seq<Draw>>, i: nat): seq<Draw>
  {
    if i < |oracles| then oracles[i] else []
  }

  /** The activity the update gives the i-th repository: the site's own repository is
      generated as new, every other one as established. */
  function AccurateActivityFor(repo: StaticRepo, now: int, draws: seq<Draw>): seq<CommitWeek>
  {
    if repo.name == "rusty-butter-website" then AccurateYear(repo.name, true, now, draws)
    else AccurateYear(repo.name, false, now, draws)
  }

  /** `updateGitHubDataWithAccurateInfo`: the first three repositories get generated
      activity, the rest are kept, the pagination is kept and `lastUpdated` becomes now. */
  function UpdateGitHubDataWithAccurateInfo(existing: Option<StaticData>, now: int, oracles: seq<seq<Draw>>)
      : (r: ScriptResult)
    ensures existing.None? <==> r == Exited(1)
    ensures existing.Some? ==>
      r.Written? && |r.data.repos| == |existing.value.repos|
      && r.data.pagination == existing.value.pagination && r.data.lastUpdated == Some(now)
      && forall i :: 0 <= i < |r.data.repos| ==>
        r.data.repos[i] == (if i < ReplacedRepos
          then existing.value.repos[i].(commitActivity := Some(AccurateActivityFor(existing.value.repos[i], now, DrawsAt(oracles, i))))
          else existing.value.repos[i])
  {
    match existing
    case None => Exited(1)
    case Some(data) =>
      var repos := seq(|data.repos|, i requires 0 <= i < |data.repos| =>
        if i < ReplacedRepos
        then data.repos[i].(commitActivity := Some(AccurateActivityFor(data.repos[i], now, DrawsAt(oracles, i))))
        else data.repos[i]);
      Written(data.(repos := repos, lastUpdated := Some(now)))
  }

  /** Among the replaced repositories only the site's own one is generated as new: it is
      quiet before its two newest weeks, and the flag changes nothing for any other name
      except through that name. */
  lemma OnlySiteRepoIsNew(repo: StaticRepo, now: int, draws: seq<Draw>, i: nat)
    requires 2 <= i < YearWeeks
    ensures repo.name == "rusty-butter-website" ==>
      AccurateActivityFor(repo, now, draws)[i].total == 0
    ensures repo.name != "rusty-butter-website" ==>
      AccurateActivityFor(repo, now, draws) == AccurateYear(repo.name, false, now, draws)
      && !IsNewRepo(repo.name, false)
  {
    if repo.name == "rusty-butter-website" {
      NewRepoQuiet(repo.name, true, now, draws, i);
    }
  }
}
