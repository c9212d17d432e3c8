/** The repository heat-map adapter: GitHub commit weeks become sparse heat-map events,
    one per day with commits, and the subtitle shows the sum of the weekly totals. */
module RepoActivityGraph {
  import opened Base
  import opened Strings
  import opened Calendar
  import opened Types
  import opened Commits
  import opened ActivityGraph

  /** The payload a commit event carries. */
  datatype CommitPayload = CommitPayload(commits: int)

  /** Heat-map intensity for a day's commits: ten commits or more is full intensity. */
  function CommitIntensity(commits: int): (r: real)
    ensures commits > 0 ==> 0.0 < r <= 1.0
    ensures commits >= 10 ==> r == 1.0
    ensures 0 <= commits <= 10 ==> r * 10.0 == commits as real
  {
    MinReal(commits as real / 10.0, 1.0)
  }

  lemma CommitIntensityExamples()
    ensures CommitIntensity(5) == 0.5 && CommitIntensity(10) == 1.0 && CommitIntensity(20) == 1.0
  {
  }

  /** The event for day `dayIndex` of a week: the week's start (`week` is in seconds)
      plus that many days. */
  function DayEvent(w: CommitWeek, dayIndex: nat): Event<CommitPayload>
    requires dayIndex < |w.days|
  {
    Event(w.week * 1000 + dayIndex * MsPerDay, CommitIntensity(w.days[dayIndex]),
          Some(CommitPayload(w.days[dayIndex])))
  }

  /** The events of the first k days of a week: days without commits are skipped. */
  function WeekEvents(w: CommitWeek, k: nat): seq<Event<CommitPayload>>
    requires k <= |w.days|
  {
    if k == 0 then []
    else WeekEvents(w, k - 1) + (if w.days[k - 1] > 0 then [DayEvent(w, k - 1)] else [])
  }

  /** The events of all weeks, week by week. */
  function CommitEvents(weeks: seq<CommitWeek>): seq<Event<CommitPayload>>
  {
    if weeks == [] then []
    else CommitEvents(weeks[..|weeks| - 1]) + WeekEvents(weeks[|weeks| - 1], |weeks[|weeks| - 1].days|)
  }

  /** The `useMemo` of the adapter: nested loops pushing one event per day with commits. */
  method BuildCommitEvents(commitActivity: seq<CommitWeek>) returns (data: seq<Event<CommitPayload>>)
    ensures data == CommitEvents(commitActivity)
  {
    data := [];
    var i := 0;
    while i < |commitActivity|
      invariant 0 <= i <= |commitActivity|
      invariant data == CommitEvents(commitActivity[..i])
    {
      var week := commitActivity[i];
      var weekStart := week.week * 1000;
      ghost var before := data;
      var dayIndex := 0;
      while dayIndex < |week.days|
        invariant 0 <= dayIndex <= |week.days|
        invariant data == before + WeekEvents(week, dayIndex)
      {
        var commits := week.days[dayIndex];
        var date := weekStart + dayIndex * MsPerDay;
        if commits > 0 {
          data := data + [Event(date, MinReal(commits as real / 10.0, 1.0), Some(CommitPayload(commits)))];
        }
        dayIndex := dayIndex + 1;
      }
      assert commitActivity[..i + 1][..i] == commitActivity[..i];
      i := i + 1;
    }
    assert commitActivity[..|commitActivity|] == commitActivity;
  }

  /** An event of a week comes from one of its days with commits, and every such day has one. */
  lemma {:induction false} WeekEventsMembers(w: CommitWeek, k: nat, e: Event<CommitPayload>)
    requires k <= |w.days|
    ensures e in WeekEvents(w, k) <==> exists d :: 0 <= d < k && w.days[d] > 0 && e == DayEvent(w, d)
    decreases k
  {
    if k > 0 {
      WeekEventsMembers(w, k - 1, e);
    }
  }

  /** Within a week the events are in day order. */
  lemma {:induction false} WeekEventsOrdered(w: CommitWeek, k: nat)
    requires k <= |w.days|
    ensures forall a, b :: 0 <= a < b < |WeekEvents(w, k)| ==> WeekEvents(w, k)[a].date < WeekEvents(w, k)[b].date
    ensures forall a :: 0 <= a < |WeekEvents(w, k)| ==> WeekEvents(w, k)[a].date < w.week * 1000 + k * MsPerDay
    decreases k
  {
    if k > 0 {
      WeekEventsOrdered(w, k - 1);
      var prev := WeekEvents(w, k - 1);
      forall a | 0 <= a < |prev|
        ensures prev[a].date < w.week * 1000 + k * MsPerDay
      {
        assert prev[a].date < w.week * 1000 + (k - 1) * MsPerDay;
      }
    }
  }

  /** The number of days with commits. */
  function ActiveDays(days: seq<int>): nat
  {
    if days == [] then 0 else ActiveDays(days[..|days| - 1]) + (if days[|days| - 1] > 0 then 1 else 0)
  }

  lemma {:induction false} WeekEventsCount(w: CommitWeek, k: nat)
    requires k <= |w.days|
    ensures |WeekEvents(w, k)| == ActiveDays(w.days[..k])
    decreases k
  {
    if k > 0 {
      assert w.days[..k][..k - 1] == w.days[..k - 1];
      WeekEventsCount(w, k - 1);
    }
  }

  /** The event of a day with commits has intensity in (0, 1] and carries that day's count. */
  lemma DayEventFacts(w: CommitWeek, d: nat)
    requires d < |w.days| && w.days[d] > 0
    ensures var e := DayEvent(w, d);
      e.data == Some(CommitPayload(w.days[d])) && 0.0 < e.intensity <= 1.0
      && e.intensity == CommitIntensity(w.days[d])
  {
  }

  /** An event comes from a day with commits of some week, and every such day has one. */
  lemma CommitEventsMembers(weeks: seq<CommitWeek>, e: Event<CommitPayload>)
    ensures e in CommitEvents(weeks) <==>
      exists i, d :: 0 <= i < |weeks| && 0 <= d < |weeks[i].days| && weeks[i].days[d] > 0 && e == DayEvent(weeks[i], d)
  {
    if e in CommitEvents(weeks) {
      var i, d := CommitEventSource(weeks, e);
    }
    if exists i, d :: 0 <= i < |weeks| && 0 <= d < |weeks[i].days| && weeks[i].days[d] > 0 && e == DayEvent(weeks[i], d) {
      var i, d :| 0 <= i < |weeks| && 0 <= d < |weeks[i].days| && weeks[i].days[d] > 0 && e == DayEvent(weeks[i], d);
      DayEventIncluded(weeks, i, d);
    }
  }

  /** The week and day an event comes from. */
  lemma {:induction false} CommitEventSource(weeks: seq<CommitWeek>, e: Event<CommitPayload>) returns (i: nat, d: nat)
    requires e in CommitEvents(weeks)
    ensures i < |weeks| && d < |weeks[i].days| && weeks[i].days[d] > 0 && e == DayEvent(weeks[i], d)
    decreases |weeks|
  {
    var init := weeks[..|weeks| - 1];
    var last := weeks[|weeks| - 1];
    if e in CommitEvents(init) {
      i, d := CommitEventSource(init, e);
      assert weeks[i] == init[i];
    } else {
      WeekEventsMembers(last, |last.days|, e);
      i := |weeks| - 1;
      d :| 0 <= d < |last.days| && last.days[d] > 0 && e == DayEvent(last, d);
    }
  }

  /** Every day with commits has its event. */
  lemma {:induction false} DayEventIncluded(weeks: seq<CommitWeek>, i: nat, d: nat)
    requires i < |weeks| && d < |weeks[i].days| && weeks[i].days[d] > 0
    ensures DayEvent(weeks[i], d) in CommitEvents(weeks)
    decreases |weeks|
  {
    var init := weeks[..|weeks| - 1];
    var last := weeks[|weeks| - 1];
    if i < |init| {
      assert init[i] == weeks[i];
      DayEventIncluded(init, i, d);
    } else {
      WeekEventsMembers(last, |last.days|, DayEvent(last, d));
    }
  }

  /** Every event has a positive commit count as payload and intensity in (0, 1]. */
  lemma CommitEventsPositive(weeks: seq<CommitWeek>, e: Event<CommitPayload>)
    requires e in CommitEvents(weeks)
    ensures e.data.Some? && e.data.value.commits > 0 && 0.0 < e.intensity <= 1.0
    ensures e.intensity == CommitIntensity(e.data.value.commits)
  {
    CommitEventsMembers(weeks, e);
    var i, d :| 0 <= i < |weeks| && 0 <= d < |weeks[i].days| && weeks[i].days[d] > 0 && e == DayEvent(weeks[i], d);
    DayEventFacts(weeks[i], d);
  }

  /** Events come out week by week: the events of a concatenation are the concatenation. */
  lemma {:induction false} CommitEventsAppend(a: seq<CommitWeek>, b: seq<CommitWeek>)
    ensures CommitEvents(a + b) == CommitEvents(a) + CommitEvents(b)
    decreases |b|
  {
    if b == [] {
      assert a + b == a;
    } else {
      var init := b[..|b| - 1];
      var last := b[|b| - 1];
      assert (a + b)[..|a + b| - 1] == a + init;
      assert (a + b)[|a + b| - 1] == last;
      CommitEventsAppend(a, init);
      calc {
        CommitEvents(a + b);
        CommitEvents(a + init) + WeekEvents(last, |last.days|);
        (CommitEvents(a) + CommitEvents(init)) + WeekEvents(last, |last.days|);
        CommitEvents(a) + (CommitEvents(init) + WeekEvents(last, |last.days|));
      }
    }
  }

  /** The subtitle total: the sum of the weeks' `total` fields. */
  function TotalCommits(commitActivity: seq<CommitWeek>): int
  {
    WeeksTotal(commitActivity)
  }

  /** The subtitle reads back, with `parseInt`, as the total. */
  function Subtitle(commitActivity: seq<CommitWeek>): (r: string)
    ensures ParseInt(r) == Some(TotalCommits(commitActivity))
  {
    ParseIntShowIntThen(TotalCommits(commitActivity), " commits in the last year");
    ShowInt(TotalCommits(commitActivity)) + " commits in the last year"
  }

  /** The total comes from `total`, not from the days: a week whose `total` disagrees with
      its days still contributes its `total`, while the grid shows its days. */
  lemma TotalFromWeekTotals()
    ensures var weeks := [CommitWeek(1704585600, [0, 3, 0, 0, 5, 0, 0], 2)];
      TotalCommits(weeks) == 2 && |CommitEvents(weeks)| == 2
  {
    var weeks := [CommitWeek(1704585600, [0, 3, 0, 0, 5, 0, 0], 2)];
    WeekEventsCount(weeks[0], 7);
    assert weeks[0].days[..7] == weeks[0].days;
    assert weeks[..0] == [];
  }

  /** The worked example: the week starting Sunday 2024-01-07 with 3 commits on Monday
      and 5 on Thursday gives two events, on 2024-01-08 and 2024-01-11. */
  lemma WorkedExample()
    ensures var events := CommitEvents([CommitWeek(1704585600, [0, 3, 0, 0, 5, 0, 0], 8)]);
      |events| == 2
      && DayOfTimestamp(events[0].date) == 19730 && events[0].intensity == 0.3 && events[0].data == Some(CommitPayload(3))
      && DayOfTimestamp(events[1].date) == 19733 && events[1].intensity == 0.5 && events[1].data == Some(CommitPayload(5))
  {
    var w := CommitWeek(1704585600, [0, 3, 0, 0, 5, 0, 0], 8);
    assert [w][..0] == [];
    assert WeekEvents(w, 7) == [DayEvent(w, 1), DayEvent(w, 4)];
  }

  /** The repository heat-map is given no click handler: no cell is ever clickable. */
  lemma NeverClickable(c: Cell<CommitPayload>)
    ensures Click(c, false) == None && DotStyleOf(c, false) != Pointer
  {
  }
}
