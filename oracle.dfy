/** The random choices of the fake-data generators, as an oracle: each generated day
    reads one recorded draw instead of calling `Math.random`. */
module Oracle {
  import opened Base
  import opened Types

  /** One `Math.random() < p ? Math.floor(Math.random() * k) + offset : 0` choice: `hit`
      says whether the first draw fell below p, and `pick` stands for the second draw,
      whose scaled floor is `pick % k`. */
  datatype Draw = Draw(hit: bool, pick: nat)

  /** The draw at position i; positions past the recorded ones read as misses. */
  function DrawAt(draws: seq<Draw>, i: nat): Draw
  {
    if i < |draws| then draws[i] else Draw(false, 0)
  }

  /** A plain `Math.floor(Math.random() * k)` draw at position i (0 past the recorded ones). */
  function PickAt(picks: seq<nat>, i: nat): nat
  {
    if i < |picks| then picks[i] else 0
  }

  /** The commits of one day: 0 on a miss, otherwise offset plus a value below k. */
  function Chance(d: Draw, k: nat, offset: nat): (r: nat)
    requires k > 0
    ensures !d.hit ==> r == 0
    ensures d.hit ==> offset <= r < offset + k
  {
    if d.hit then d.pick % k + offset else 0
  }

  /** Every value the source can produce is produced by some draw. */
  lemma ChanceCovers(k: nat, offset: nat, v: nat)
    requires k > 0
    requires v == 0 || offset <= v < offset + k
    ensures Chance(Draw(false, 0), k, offset) == 0
    ensures offset <= v ==> Chance(Draw(true, v - offset), k, offset) == v
  {
  }

  // ---------------------------------------------------------------- the year of weeks

  /** The generators build 52 weeks of seven days. */
  const YearWeeks: nat := 52
  const WeekDays: nat := 7
  const WeekMs: int := 7 * 24 * 60 * 60 * 1000

  /** `Math.floor((now - week * oneWeekMs) / 1000)`: the Unix second `week` weeks before `now`
      (Dafny's division by a positive number is the floor). */
  function WeekTimestamp(now: int, week: int): (r: int)
    ensures 1000 * r <= now - week * WeekMs < 1000 * r + 1000
  {
    (now - week * WeekMs) / 1000
  }

  /** A week earlier is 604800 seconds earlier, so timestamps fall along the array. */
  lemma WeekTimestampStep(now: int, week: int)
    ensures WeekTimestamp(now, week) == WeekTimestamp(now, 0) - 604800 * week
    ensures WeekTimestamp(now, week + 1) < WeekTimestamp(now, week)
  {
    var q := now / 1000;
    var r := now % 1000;
    assert now == 1000 * q + r;
    assert now - week * WeekMs == 1000 * (q - 604800 * week) + r;
    assert now - (week + 1) * WeekMs == 1000 * (q - 604800 * (week + 1)) + r;
  }

  /** The position of the draw for day `day` of the week `week` weeks before now: weeks
      are generated from the oldest (51) to the newest (0). */
  function DrawIndex(week: nat, day: nat): nat
    requires week < YearWeeks
  {
    (YearWeeks - 1 - week) * WeekDays + day
  }

  /** A generated year: 52 weeks, the week i weeks before now at index i, seven days each,
      and each total the sum of its days. */
  predicate YearShaped(now: int, activity: seq<CommitWeek>)
  {
    |activity| == YearWeeks
    && forall i :: 0 <= i < |activity| ==>
      activity[i].week == WeekTimestamp(now, i)
      && |activity[i].days| == WeekDays
      && activity[i].total == Sum(activity[i].days)
  }

  /** In a generated year the timestamps strictly decrease along the array. */
  lemma YearTimestampsDecrease(now: int, activity: seq<CommitWeek>, i: nat, j: nat)
    requires YearShaped(now, activity)
    requires i < j < |activity|
    ensures activity[j].week < activity[i].week
  {
    WeekTimestampStep(now, i);
    WeekTimestampStep(now, j);
  }
}
