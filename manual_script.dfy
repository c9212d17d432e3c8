/** The script that rewrites the commit activity of the snapshot's first three
    repositories with generated weeks: a year of plausible daily counts, boosted for the
    main project and scaled down for the memory project. */
module ManualScript {
  import opened Base
  import opened Types
  import opened Oracle
  import opened DataMappers
  import opened Commits

  /** The last eight weeks are recent; the two newest and the four oldest are holidays. */
  predicate IsRecentWeek(week: int) { week < 8 }

  predicate IsHolidayWeek(week: int) { week < 2 || (48 <= week <= 51) }

  /** The commits of one generated day: holidays 0 or 1, weekends 0 to 2, recent
      weekdays 0 or 1 to 6, older weekdays 0 to 3. */
  function RealisticDay(week: int, day: int, d: Draw): (r: nat)
    ensures IsHolidayWeek(week) ==> r <= 1
    ensures !IsHolidayWeek(week) && (day == 0 || day == 6) ==> r <= 2
    ensures !IsHolidayWeek(week) && day != 0 && day != 6 && IsRecentWeek(week) ==> r == 0 || 1 <= r <= 6
    ensures !IsHolidayWeek(week) && day != 0 && day != 6 && !IsRecentWeek(week) ==> r <= 3
    ensures !d.hit ==> r == 0
  {
    if IsHolidayWeek(week) then Chance(d, 2, 0)
    else if day == 0 || day == 6 then Chance(d, 3, 0)
    else if IsRecentWeek(week) then Chance(d, 6, 1)
    else Chance(d, 4, 0)
  }

  /** The seven days of the week `week` weeks before now. */
  function RealisticDays(week: nat, draws: seq<Draw>): (r: seq<int>)
    requires week < YearWeeks
    ensures |r| == WeekDays
    ensures forall day :: 0 <= day < WeekDays ==> r[day] == RealisticDay(week, day, DrawAt(draws, DrawIndex(week, day)))
  {
    seq(WeekDays, day requires 0 <= day < WeekDays => RealisticDay(week, day, DrawAt(draws, DrawIndex(week, day))) as int)
  }

  /** The week `week` weeks before now: its timestamp, seven non-negative days, and a
      total that is their sum. */
  function RealisticWeek(now: int, week: nat, draws: seq<Draw>): (w: CommitWeek)
    requires week < YearWeeks
    ensures w.week == WeekTimestamp(now, week) && |w.days| == WeekDays && w.total == Sum(w.days)
    ensures forall d :: 0 <= d < WeekDays ==> w.days[d] >= 0
  {
    CommitWeek(WeekTimestamp(now, week), RealisticDays(week, draws), Sum(RealisticDays(week, draws)))
  }

  /** What `generateRealisticCommitActivity` returns: element i is the week i weeks before now. */
  function RealisticYear(now: int, draws: seq<Draw>): (r: seq<CommitWeek>)
    ensures |r| == YearWeeks
    ensures forall i :: 0 <= i < YearWeeks ==> r[i] == RealisticWeek(now, i, draws)
  {
    seq(YearWeeks, i requires 0 <= i < YearWeeks => RealisticWeek(now, i, draws))
  }

  /** The generator: for each week from the oldest to the newest, its seven days (below),
      the week then put in front of the list. */
  method GenerateRealisticCommitActivity(now: int, draws: seq<Draw>) returns (activity: seq<CommitWeek>)
    ensures activity == RealisticYear(now, draws)
  {
    activity := [];
    var week := 51;
    while week >= 0
      invariant -1 <= week <= 51
      invariant |activity| == 51 - week
      invariant forall k :: 0 <= k < |activity| ==> activity[k] == RealisticWeek(now, week + 1 + k, draws)
    {
      var weekTimestamp := (now - week * WeekMs) / 1000;
      var days, weekTotal := GenerateRealisticDays(week, draws);
      assert CommitWeek(weekTimestamp, days, weekTotal) == RealisticWeek(now, week, draws);
      activity := [CommitWeek(weekTimestamp, days, weekTotal)] + activity;
      week := week - 1;
    }
  }

  /** The day loop of one week: each day's commits pushed and added to the week's total. */
  method GenerateRealisticDays(week: nat, draws: seq<Draw>) returns (days: seq<int>, weekTotal: int)
    requires week < YearWeeks
    ensures days == RealisticDays(week, draws)
    ensures weekTotal == Sum(days)
  {
    var isRecentWeek := week < 8;
    var isHolidayWeek := week < 2 || (week >= 48 && week <= 51);
    days := [];
    weekTotal := 0;
    var day := 0;
    while day < 7
      invariant 0 <= day <= 7
      invariant |days| == day
      invariant forall k :: 0 <= k < day ==> days[k] == RealisticDay(week, k, DrawAt(draws, DrawIndex(week, k)))
      invariant weekTotal == Sum(days)
    {
      var d := DrawAt(draws, DrawIndex(week, day));
      var commits := 0;
      if isHolidayWeek {
        commits := if d.hit then d.pick % 2 else 0;
      } else if day == 0 || day == 6 {
        commits := if d.hit then d.pick % 3 else 0;
      } else if isRecentWeek {
        commits := if d.hit then d.pick % 6 + 1 else 0;
      } else {
        commits := if d.hit then d.pick % 4 else 0;
      }
      assert commits == RealisticDay(week, day, d);
      assert (days + [commits])[..day] == days;
      days := days + [commits];
      weekTotal := weekTotal + commits;
      day := day + 1;
    }
  }

  /** A generated year is shaped as a year and keeps each day within its rule's bounds. */
  lemma RealisticYearShaped(now: int, draws: seq<Draw>)
    ensures YearShaped(now, RealisticYear(now, draws))
    ensures forall i, day :: 0 <= i < YearWeeks && 0 <= day < WeekDays ==>
      0 <= RealisticYear(now, draws)[i].days[day] <= 6
  {
    var year := RealisticYear(now, draws);
    forall i, day | 0 <= i < YearWeeks && 0 <= day < WeekDays
      ensures 0 <= year[i].days[day] <= 6
    {
      assert year[i].days[day] == RealisticDay(i, day, DrawAt(draws, DrawIndex(i, day)));
    }
  }

  // ---------------------------------------------------------------- per-repository variants

  /** `Math.min(day + Math.floor(Math.random() * 2), 8)`. */
  function BoostDay(day: int, pick: nat): (r: int)
    ensures r <= 8 && r <= day + 1
    ensures day <= 8 ==> day <= r
    ensures pick % 2 == 0 ==> r == MinInt(day, 8)
  {
    MinInt(day + pick % 2, 8)
  }

  /** Independently boosted days, reading picks from position `base` on. */
  function BoostDays(days: seq<int>, picks: seq<nat>, base: nat): (r: seq<int>)
    ensures |r| == |days|
    ensures forall j :: 0 <= j < |days| ==> r[j] == BoostDay(days[j], PickAt(picks, base + j))
  {
    seq(|days|, j requires 0 <= j < |days| => BoostDay(days[j], PickAt(picks, base + j)))
  }

  /** The main project's week: each day boosted by 0 or 1 and capped at 8; the total is a
      second, independent boost of the days, summed. */
  function BoostWeek(w: CommitWeek, dayPicks: seq<nat>, totalPicks: seq<nat>, base: nat): (r: CommitWeek)
    ensures r.week == w.week && |r.days| == |w.days|
    ensures forall j :: 0 <= j < |w.days| ==>
      r.days[j] <= 8 && r.days[j] <= w.days[j] + 1 && (w.days[j] <= 8 ==> w.days[j] <= r.days[j])
  {
    w.(days := BoostDays(w.days, dayPicks, base), total := Sum(BoostDays(w.days, totalPicks, base)))
  }

  function Boosted(activity: seq<CommitWeek>, dayPicks: seq<nat>, totalPicks: seq<nat>): (r: seq<CommitWeek>)
    ensures |r| == |activity|
    ensures forall i :: 0 <= i < |activity| ==> r[i] == BoostWeek(activity[i], dayPicks, totalPicks, WeekDays * i)
  {
    seq(|activity|, i requires 0 <= i < |activity| => BoostWeek(activity[i], dayPicks, totalPicks, WeekDays * i))
  }

  /** `Math.floor(x * 0.7)`, with 0.7 as the exact rational 7/10. */
  /** `Math.floor(x * 0.7)`: seven tenths, rounded down. */
  function ScaleDown(x: int): (r: int)
    ensures 10 * r <= 7 * x < 10 * r + 10
    ensures x >= 0 ==> 0 <= r <= x
  {
    (7 * x) / 10
  }

  function ScaleDays(days: seq<int>): (r: seq<int>)
    ensures |r| == |days|
    ensures forall j :: 0 <= j < |days| ==> r[j] == ScaleDown(days[j])
  {
    seq(|days|, j requires 0 <= j < |days| => ScaleDown(days[j]))
  }

  /** The memory project's week: days and total each scaled by 0.7 and rounded down. */
  function ScaleWeek(w: CommitWeek): (r: CommitWeek)
    ensures r.week == w.week && |r.days| == |w.days| && r.total == ScaleDown(w.total)
    ensures forall j :: 0 <= j < |w.days| && w.days[j] >= 0 ==> 0 <= r.days[j] <= w.days[j]
  {
    w.(days := ScaleDays(w.days), total := ScaleDown(w.total))
  }

  function Scaled(activity: seq<CommitWeek>): (r: seq<CommitWeek>)
    ensures |r| == |activity|
    ensures forall i :: 0 <= i < |activity| ==> r[i] == ScaleWeek(activity[i])
  {
    seq(|activity|, i requires 0 <= i < |activity| => ScaleWeek(activity[i]))
  }

  /** The oracle of one repository: the generator's draws and the two boost pick streams. */
  datatype RepoOracle = RepoOracle(draws: seq<Draw>, dayPicks: seq<nat>, totalPicks: seq<nat>)

  /** `generateRepoActivityData`: the main project boosted, the memory project scaled,
      any other name the plain generated year. */
  function RepoActivityData(repoName: string, now: int, o: RepoOracle): (r: seq<CommitWeek>)
    ensures |r| == YearWeeks
    ensures forall i :: 0 <= i < YearWeeks ==> r[i].week == WeekTimestamp(now, i) && |r[i].days| == WeekDays
    ensures repoName != "rusty-butter" && repoName != "semantic-memory" ==> r == RealisticYear(now, o.draws)
    ensures repoName == "rusty-butter" ==> forall i, j :: 0 <= i < YearWeeks && 0 <= j < WeekDays ==> r[i].days[j] <= 8
  {
    var year := RealisticYear(now, o.draws);
    if repoName == "rusty-butter-website" then year
    else if repoName == "rusty-butter" then Boosted(year, o.dayPicks, o.totalPicks)
    else if repoName == "semantic-memory" then Scaled(year)
    else year
  }

  /** Every name but the two special ones yields a year whose totals are the sums of its days. */
  lemma PlainRepoShaped(repoName: string, now: int, o: RepoOracle)
    requires repoName != "rusty-butter" && repoName != "semantic-memory"
    ensures YearShaped(now, RepoActivityData(repoName, now, o))
  {
    RealisticYearShaped(now, o.draws);
  }

  /** The boosted total is drawn independently of the boosted days, so it need not be
      their sum: a zero day that draws no boost for itself and one for the total. */
  lemma BoostedTotalMayDiffer()
    ensures var w := BoostWeek(CommitWeek(0, [0], 0), [0], [1], 0);
      Sum(w.days) == 0 && w.total == 1
  {
    var w := BoostWeek(CommitWeek(0, [0], 0), [0], [1], 0);
    assert w.days == [0];
    assert BoostDays([0], [1], 0) == [1];
  }

  /** Rounding each day down loses more than rounding the total once: the scaled days of
      a week never sum to more than its scaled total. */
  lemma {:induction false} ScaledDaysBelowTotal(days: seq<int>)
    ensures Sum(ScaleDays(days)) <= ScaleDown(Sum(days))
    decreases |days|
  {
    if days != [] {
      var init := days[..|days| - 1];
      ScaledDaysBelowTotal(init);
      assert ScaleDays(days)[..|days| - 1] == ScaleDays(init);
      ScaleDownSuperadditive(Sum(init), days[|days| - 1]);
    }
  }

  lemma ScaleDownSuperadditive(a: int, b: int)
    ensures ScaleDown(a) + ScaleDown(b) <= ScaleDown(a + b)
  {
    var qa, ra := (7 * a) / 10, (7 * a) % 10;
    var qb, rb := (7 * b) / 10, (7 * b) % 10;
    assert 7 * a == 10 * qa + ra;
    assert 7 * b == 10 * qb + rb;
    assert 7 * (a + b) == 10 * (qa + qb) + (ra + rb);
  }

  /** The two can differ: two single-commit days scale to zeros, their total of 2 to 1. */
  lemma ScaledTotalMayDiffer()
    ensures var w := ScaleWeek(CommitWeek(0, [1, 1], 2));
      Sum(w.days) == 0 && w.total == 1
  {
    var w := ScaleWeek(CommitWeek(0, [1, 1], 2));
    assert w.days == [0, 0];
    assert w.days[..1] == [0];
  }

  /** The memory project's year: its scaled days never sum to more than its scaled totals. */
  lemma MemoryRepoTotals(now: int, o: RepoOracle, i: nat)
    requires i < YearWeeks
    ensures var r := RepoActivityData("semantic-memory", now, o);
      Sum(r[i].days) <= r[i].total
  {
    var year := RealisticYear(now, o.draws);
    RealisticYearShaped(now, o.draws);
    ScaledDaysBelowTotal(year[i].days);
  }

  // ---------------------------------------------------------------- the snapshot update

  const ReplacedRepos: nat := 3

  function OracleAt(oracles: seq<RepoOracle>, i: nat): RepoOracle
  {
    if i < |oracles| then oracles[i] else RepoOracle([], [], [])
  }

  /** The snapshot written back, or the exit code when reading or parsing it failed. */
  datatype ScriptResult = Written(data: StaticData) | Exited(code: int)

  /** `updateGitHubData`: the first three repositories get generated activity, the rest are
      kept, the pagination is kept and `lastUpdated` becomes now. */
  function UpdateGitHubData(existing: Option<StaticData>, now: int, oracles: seq<RepoOracle>): (r: ScriptResult)
    ensures existing.None? <==> r == Exited(1)
    ensures existing.Some? ==>
      r.Written? && |r.data.repos| == |existing.value.repos|
      && r.data.pagination == existing.value.pagination && r.data.lastUpdated == Some(now)
      && forall i :: 0 <= i < |r.data.repos| ==>
        r.data.repos[i] == (if i < ReplacedRepos
          then existing.value.repos[i].(commitActivity := Some(RepoActivityData(existing.value.repos[i].name, now, OracleAt(oracles, i))))
          else existing.value.repos[i])
  {
    match existing
    case None => Exited(1)
    case Some(data) =>
      var repos := seq(|data.repos|, i requires 0 <= i < |data.repos| =>
        if i < ReplacedRepos
        then data.repos[i].(commitActivity := Some(RepoActivityData(data.repos[i].name, now, OracleAt(oracles, i))))
        else data.repos[i]);
      Written(data.(repos := repos, lastUpdated := Some(now)))
  }

  /** After the update, each of the first three repositories carries 52 weeks of seven
      days, and apart from `commitActivity` every repository is the one it replaced. */
  lemma UpdatedReposKeepFields(existing: StaticData, now: int, oracles: seq<RepoOracle>, i: nat)
    requires i < |existing.repos|
    ensures var r := UpdateGitHubData(Some(existing), now, oracles).data.repos[i];
      r.(commitActivity := existing.repos[i].commitActivity) == existing.repos[i]
      && (i < ReplacedRepos ==> r.commitActivity.Some? && |r.commitActivity.value| == YearWeeks)
  {
  }
}
