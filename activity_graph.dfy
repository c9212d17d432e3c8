/** The calendar heat-map: how many trailing weeks it shows for a container width,
    the weekCount x 7 grid of day cells built from dated events, the month labels
    above the grid, the five shading levels and the click/tooltip gating.
    Dates are day numbers (see module Calendar); `today` is a parameter. */
module ActivityGraph {
  import opened Base
  import opened Calendar

  /** One input point: its timestamp, its intensity and an optional payload. */
  datatype Event<P> = Event(date: int, intensity: real, data: Option<P>)

  /** One square of the grid. */
  datatype Cell<P> = Cell(date: int, intensity: real, data: Option<P>, isInFuture: bool)

  /** A month tracked while the grid is built: the Map key, the zero-based month and the
      week column where it was first seen; `firstDay` is the day on which it was added. */
  datatype MonthEntry = MonthEntry(key: MonthKey, month: int, weekIndex: int, firstDay: int)

  /** A label over the grid. */
  datatype MonthLabel = MonthLabel(text: string, weekIndex: int)

  /** The week count before the first measurement. */
  const InitialWeekCount: int := 52

  // ---------------------------------------------------------------- week count

  /** The breakpoint target for a container width. */
  function TargetWeeks(width: int, compact: bool): (t: int)
    ensures t in {12, 26, 39, 52}
  {
    if compact || width < 400 then 12
    else if width < 600 then 26
    else if width < 800 then 39
    else 52
  }

  /** The number of week columns for a container width: as many 9px dots with 3px gaps
      as fit beside the 24px day labels and 20px padding, capped by the breakpoint
      target. Nothing keeps it at least 1. */
  function WeekCount(width: int, compact: bool): (r: int)
    ensures r <= TargetWeeks(width, compact) <= 52
    ensures 12 * r <= width - 24 - 20
    ensures r == TargetWeeks(width, compact) || 12 * (r + 1) > width - 24 - 20
  {
    var maxWeeks := (width - 24 - 20) / (9 + 3);
    MinInt(TargetWeeks(width, compact), maxWeeks)
  }

  /** A wider container never shows fewer weeks. */
  lemma WeekCountMonotone(w1: int, w2: int, compact: bool)
    requires w1 <= w2
    ensures WeekCount(w1, compact) <= WeekCount(w2, compact)
  {
    assert TargetWeeks(w1, compact) <= TargetWeeks(w2, compact);
    assert (w1 - 44) / 12 <= (w2 - 44) / 12;
  }

  /** A narrow container yields a negative count: there is no lower clamp. */
  lemma WeekCountNoLowerClamp()
    ensures WeekCount(0, false) == -4
    ensures WeekCount(1200, false) == 52 && WeekCount(1200, true) == 12
  {
  }

  // ---------------------------------------------------------------- event index

  /** The events keyed by UTC day, a later event replacing an earlier one on the same day. */
  function IndexByDate<P>(data: seq<Event<P>>): map<int, Event<P>>
  {
    if data == [] then map[]
    else IndexByDate(data[..|data| - 1])[DayOfTimestamp(data[|data| - 1].date) := data[|data| - 1]]
  }

  /** The index holds exactly the dates of the events, and each date maps to the last
      event that carries it. */
  lemma IndexByDateLastWins<P>(data: seq<Event<P>>, k: int)
    ensures k in IndexByDate(data) <==> exists i :: 0 <= i < |data| && DayOfTimestamp(data[i].date) == k
    ensures k in IndexByDate(data) ==>
      exists i :: 0 <= i < |data| && data[i] == IndexByDate(data)[k] && DayOfTimestamp(data[i].date) == k
        && forall j :: i < j < |data| ==> DayOfTimestamp(data[j].date) != k
  {
    if exists i :: 0 <= i < |data| && DayOfTimestamp(data[i].date) == k {
      var i :| 0 <= i < |data| && DayOfTimestamp(data[i].date) == k;
      IndexByDateHas(data, i);
    }
    if k in IndexByDate(data) {
      var i := IndexByDateSource(data, k);
    }
  }

  /** Every event's date is in the index. */
  lemma {:induction false} IndexByDateHas<P>(data: seq<Event<P>>, i: nat)
    requires i < |data|
    ensures DayOfTimestamp(data[i].date) in IndexByDate(data)
    decreases |data|
  {
    var last := |data| - 1;
    if i < last {
      var init := data[..last];
      assert init[i] == data[i];
      IndexByDateHas(init, i);
    }
  }

  /** The event a date maps to: the last one carrying that date. */
  lemma {:induction false} IndexByDateSource<P>(data: seq<Event<P>>, k: int) returns (i: nat)
    requires k in IndexByDate(data)
    ensures i < |data| && data[i] == IndexByDate(data)[k] && DayOfTimestamp(data[i].date) == k
    ensures forall j :: i < j < |data| ==> DayOfTimestamp(data[j].date) != k
    decreases |data|
  {
    var last := |data| - 1;
    if DayOfTimestamp(data[last].date) == k {
      i := last;
    } else {
      var init := data[..last];
      assert IndexByDate(data)[k] == IndexByDate(init)[k];
      i := IndexByDateSource(init, k);
      assert data[i] == init[i];
      assert forall j :: i < j < last ==> data[j] == init[j];
    }
  }

  // ---------------------------------------------------------------- grid

  /** The first grid day: weekCount weeks before the Sunday that starts today's week. */
  function StartDate(today: int, weekCount: int): (r: int)
    ensures DayOfWeek(r) == 0
    ensures today - 7 * weekCount - 6 <= r <= today - 7 * weekCount
  {
    var q := (today + 4) / 7;
    assert today + 4 == 7 * q + (today + 4) % 7;
    assert today - 7 * weekCount - DayOfWeek(today) + 4 == 7 * (q - weekCount);
    today - 7 * weekCount - DayOfWeek(today)
  }

  /** The cell for one day, read from the event index. */
  function CellFor<P>(index: map<int, Event<P>>, date: int, today: int): Cell<P>
  {
    if date in index then Cell(date, index[date].intensity, index[date].data, date > today)
    else Cell(date, 0.0, None, date > today)
  }

  /** Whether a month key is already in the insertion-ordered month Map. */
  predicate HasKey(months: seq<MonthEntry>, key: MonthKey)
  {
    exists j :: 0 <= j < |months| && months[j].key == key
  }

  /** The month Map after the first n grid cells (row-major: cell n is week n/7, day n%7). */
  function MonthEntries(start: int, today: int, n: nat): seq<MonthEntry>
  {
    if n == 0 then []
    else
      var prev := MonthEntries(start, today, n - 1);
      var d := start + (n - 1);
      if !HasKey(prev, KeyOf(d)) && KeyOf(d) != KeyOf(d - 7) && d <= today
      then prev + [MonthEntry(KeyOf(d), Month(d) - 1, (n - 1) / 7, d)]
      else prev
  }

  const MonthNames: seq<string> :=
    ["Jan", "Feb", "Mar", "Apr", "May", "Jun", "Jul", "Aug", "Sep", "Oct", "Nov", "Dec"]

  function LabelOf(e: MonthEntry): MonthLabel
  {
    MonthLabel(if 0 <= e.month < 12 then MonthNames[e.month] else "", e.weekIndex)
  }

  /** The labels in Map insertion order. */
  function Labels(months: seq<MonthEntry>): (r: seq<MonthLabel>)
    ensures |r| == |months|
    ensures forall j :: 0 <= j < |months| ==> r[j] == LabelOf(months[j])
  {
    if months == [] then [] else Labels(months[..|months| - 1]) + [LabelOf(months[|months| - 1])]
  }

  /** The `dataByDate` loop: each event is written under its date in turn. */
  method IndexEvents<P>(data: seq<Event<P>>) returns (dataByDate: map<int, Event<P>>)
    ensures dataByDate == IndexByDate(data)
  {
    dataByDate := map[];
    var i := 0;
    while i < |data|
      invariant 0 <= i <= |data|
      invariant dataByDate == IndexByDate(data[..i])
    {
      assert data[..i + 1][..i] == data[..i];
      dataByDate := dataByDate[DayOfTimestamp(data[i].date) := data[i]];
      i := i + 1;
    }
    assert data[..|data|] == data;
  }

  lemma WeekOfCell(w: nat, d: nat)
    requires d < 7
    ensures (7 * w + d) / 7 == w
  {
  }

  /** One more grid cell, n, adds its month when the month is new to the Map, differs from
      the month a week earlier and the day is not after today. */
  lemma MonthEntriesNext(start: int, today: int, n: nat, months: seq<MonthEntry>, d: int,
                         key: MonthKey, prevKey: MonthKey)
    requires months == MonthEntries(start, today, n)
    requires d == start + n && key == KeyOf(d) && prevKey == KeyOf(d - 7)
    ensures MonthEntries(start, today, n + 1)
      == if !HasKey(months, key) && key != prevKey && d <= today
         then months + [MonthEntry(key, Month(d) - 1, n / 7, d)]
         else months
  {
  }

  /** The seven cells of week column w. */
  function WeekCells<P>(index: map<int, Event<P>>, start: int, w: int, today: int): (r: seq<Cell<P>>)
    ensures |r| == 7
    ensures forall d :: 0 <= d < 7 ==> r[d] == CellFor(index, start + 7 * w + d, today)
  {
    seq(7, d => CellFor(index, start + 7 * w + d, today))
  }

  /** One pass of the inner loop, for grid cell n = 7 * weekIndex + dayIndex: the month
      bookkeeping and the cell of that day. */
  method VisitDay<P>(dataByDate: map<int, Event<P>>, startDate: int, weekIndex: nat, dayIndex: nat, today: int,
                     monthsIn: seq<MonthEntry>)
      returns (cell: Cell<P>, months: seq<MonthEntry>)
    requires dayIndex < 7
    requires monthsIn == MonthEntries(startDate, today, 7 * weekIndex + dayIndex)
    ensures cell == CellFor(dataByDate, startDate + 7 * weekIndex + dayIndex, today)
    ensures months == MonthEntries(startDate, today, 7 * weekIndex + dayIndex + 1)
  {
    months := monthsIn;
    var currentDate := startDate + weekIndex * 7 + dayIndex;
    var monthKey := KeyOf(currentDate);
    var prevMonthKey := KeyOf(currentDate - 7);
    WeekOfCell(weekIndex, dayIndex);
    MonthEntriesNext(startDate, today, 7 * weekIndex + dayIndex, months, currentDate, monthKey, prevMonthKey);
    if !HasKey(months, monthKey) && monthKey != prevMonthKey && currentDate <= today {
      months := months + [MonthEntry(monthKey, Month(currentDate) - 1, weekIndex, currentDate)];
    }
    cell := if currentDate in dataByDate
      then Cell(currentDate, dataByDate[currentDate].intensity, dataByDate[currentDate].data, currentDate > today)
      else Cell(currentDate, 0.0, None, currentDate > today);
  }

  /** The inner loop: the seven cells of one week column, tracking months as it goes. */
  method BuildWeek<P>(dataByDate: map<int, Event<P>>, startDate: int, weekIndex: nat, today: int,
                      monthsIn: seq<MonthEntry>)
      returns (week: seq<Cell<P>>, months: seq<MonthEntry>)
    requires monthsIn == MonthEntries(startDate, today, 7 * weekIndex)
    ensures |week| == 7
    ensures forall d :: 0 <= d < 7 ==> week[d] == CellFor(dataByDate, startDate + 7 * weekIndex + d, today)
    ensures months == MonthEntries(startDate, today, 7 * (weekIndex + 1))
  {
    months := monthsIn;
    week := [];
    var dayIndex := 0;
    while dayIndex < 7
      invariant 0 <= dayIndex <= 7
      invariant |week| == dayIndex
      invariant forall d :: 0 <= d < dayIndex ==> week[d] == CellFor(dataByDate, startDate + 7 * weekIndex + d, today)
      invariant months == MonthEntries(startDate, today, 7 * weekIndex + dayIndex)
    {
      var cell;
      cell, months := VisitDay(dataByDate, startDate, weekIndex, dayIndex, today, months);
      week := week + [cell];
      dayIndex := dayIndex + 1;
    }
    assert 7 * weekIndex + dayIndex == 7 * (weekIndex + 1);
  }

  /** Builds the grid and the month labels: the index loop, then weekCount weeks of seven days. */
  method BuildGrid<P>(data: seq<Event<P>>, weekCount: int, today: int)
      returns (weeks: seq<seq<Cell<P>>>, monthLabels: seq<MonthLabel>)
    ensures |weeks| == MaxInt(weekCount, 0)
    ensures forall w :: 0 <= w < |weeks| ==> |weeks[w]| == 7
    ensures forall w, d :: 0 <= w < |weeks| && 0 <= d < 7 ==>
      weeks[w][d] == CellFor(IndexByDate(data), StartDate(today, weekCount) + 7 * w + d, today)
    ensures monthLabels == Labels(MonthEntries(StartDate(today, weekCount), today, 7 * MaxInt(weekCount, 0)))
  {
    var dataByDate := IndexEvents(data);
    var startDate := today - 7 * weekCount - DayOfWeek(today);
    var months: seq<MonthEntry> := [];
    weeks := [];
    var weekIndex := 0;
    while weekIndex < weekCount
      invariant 0 <= weekIndex <= MaxInt(weekCount, 0)
      invariant |weeks| == weekIndex
      invariant forall w :: 0 <= w < weekIndex ==> weeks[w] == WeekCells(dataByDate, startDate, w, today)
      invariant months == MonthEntries(startDate, today, 7 * weekIndex)
    {
      var week;
      week, months := BuildWeek(dataByDate, startDate, weekIndex, today, months);
      assert week == WeekCells(dataByDate, startDate, weekIndex, today);
      ghost var before := weeks;
      weeks := weeks + [week];
      assert forall w :: 0 <= w < weekIndex ==> weeks[w] == before[w];
      weekIndex := weekIndex + 1;
    }
    assert startDate == StartDate(today, weekCount);
    monthLabels := Labels(months);
  }

  // ---------------------------------------------------------------- grid properties

  /** Every cell lies before the Sunday of today's week, so no cell is in the future. */
  lemma CellsBeforeToday(today: int, weekCount: int, w: int, d: int)
    requires 0 <= w < weekCount && 0 <= d < 7
    ensures StartDate(today, weekCount) + 7 * w + d <= today - DayOfWeek(today) - 1
    ensures StartDate(today, weekCount) + 7 * w + d < today
  {
  }

  /** A cell read from the index carries the last event on its day, or intensity 0 and no data. */
  lemma CellFromLastEvent<P>(data: seq<Event<P>>, date: int, today: int)
    ensures var c := CellFor(IndexByDate(data), date, today);
      c.date == date && c.isInFuture == (date > today)
      && (date in IndexByDate(data) ==>
            exists i :: 0 <= i < |data| && DayOfTimestamp(data[i].date) == date && c.intensity == data[i].intensity
              && c.data == data[i].data && forall j :: i < j < |data| ==> DayOfTimestamp(data[j].date) != date)
      && ((forall i :: 0 <= i < |data| ==> DayOfTimestamp(data[i].date) != date) ==> c.intensity == 0.0 && c.data == None)
  {
    IndexByDateLastWins(data, date);
    var index := IndexByDate(data);
    if date in index {
      var i :| 0 <= i < |data| && data[i] == index[date] && DayOfTimestamp(data[i].date) == date
        && forall j :: i < j < |data| ==> DayOfTimestamp(data[j].date) != date;
      assert CellFor(index, date, today).intensity == data[i].intensity;
    }
  }

  /** No cell of a built grid is in the future. */
  lemma GridCellsNotInFuture<P>(data: seq<Event<P>>, weekCount: int, today: int, w: int, d: int)
    requires 0 <= w < weekCount && 0 <= d < 7
    ensures !CellFor(IndexByDate(data), StartDate(today, weekCount) + 7 * w + d, today).isInFuture
  {
    CellsBeforeToday(today, weekCount, w, d);
  }

  /** What one month Map entry records after the first n grid cells: a grid day among
      the first seven of its month, not after today, its column, its key and its month. */
  predicate EntryFacts(start: int, today: int, n: nat, e: MonthEntry)
  {
    start <= e.firstDay < start + n && e.weekIndex == (e.firstDay - start) / 7
    && e.key == KeyOf(e.firstDay) && e.month == Month(e.firstDay) - 1
    && DayOfMonth(e.firstDay) <= 7 && e.firstDay <= today
  }

  /** Entries in day order, with distinct months and strictly increasing columns. */
  predicate EntriesOrdered(e: seq<MonthEntry>)
  {
    forall j, k :: 0 <= j < k < |e| ==>
      e[j].firstDay < e[k].firstDay && e[j].key != e[k].key && e[j].weekIndex < e[k].weekIndex
  }

  lemma ColumnOrder(x: nat, y: nat)
    requires x < y
    ensures x / 7 <= y / 7
    ensures x / 7 == y / 7 ==> y - x < 7
  {
    var qx, qy := x / 7, y / 7;
    assert x == 7 * qx + x % 7;
    assert y == 7 * qy + y % 7;
  }

  /** An entry of the Map before cell n - 1 lies in an earlier column than a new month
      starting on that cell. */
  lemma EntryBeforeNew(start: int, today: int, n: nat, f: MonthEntry)
    requires n > 0 && EntryFacts(start, today, n - 1, f)
    requires DayOfMonth(start + (n - 1)) <= 7 && f.key != KeyOf(start + (n - 1))
    ensures f.firstDay < start + (n - 1) && f.weekIndex < (n - 1) / 7
  {
    var d := start + (n - 1);
    ColumnOrder(f.firstDay - start, n - 1);
    if f.weekIndex == (n - 1) / 7 {
      OneMonthStartPerWeek(f.firstDay, d);
    }
  }

  /** What a freshly built month Map holds: every entry satisfies EntryFacts, and the
      entries are ordered by day with no month twice and strictly increasing columns. */
  lemma {:induction false} MonthEntriesFacts(start: int, today: int, n: nat)
    ensures forall j :: 0 <= j < |MonthEntries(start, today, n)| ==>
      EntryFacts(start, today, n, MonthEntries(start, today, n)[j])
    ensures EntriesOrdered(MonthEntries(start, today, n))
    decreases n
  {
    if n > 0 {
      MonthEntriesFacts(start, today, n - 1);
      var prev := MonthEntries(start, today, n - 1);
      var d := start + (n - 1);
      if !HasKey(prev, KeyOf(d)) && KeyOf(d) != KeyOf(d - 7) && d <= today {
        MonthChangeWithinWeek(d);
        var x := MonthEntry(KeyOf(d), Month(d) - 1, (n - 1) / 7, d);
        assert MonthEntries(start, today, n) == prev + [x];
        PushKeepsFacts(start, today, n, prev, x);
      } else {
        assert MonthEntries(start, today, n) == prev;
        forall j | 0 <= j < |prev|
          ensures EntryFacts(start, today, n, prev[j])
        {
          assert EntryFacts(start, today, n - 1, prev[j]);
        }
      }
    }
  }

  /** Adding the entry of a new month that starts on cell n - 1 keeps the Map's facts. */
  lemma PushKeepsFacts(start: int, today: int, n: nat, prev: seq<MonthEntry>, x: MonthEntry)
    requires n > 0
    requires forall j :: 0 <= j < |prev| ==> EntryFacts(start, today, n - 1, prev[j])
    requires EntriesOrdered(prev)
    requires x == MonthEntry(KeyOf(start + (n - 1)), Month(start + (n - 1)) - 1, (n - 1) / 7, start + (n - 1))
    requires !HasKey(prev, x.key) && DayOfMonth(x.firstDay) <= 7 && x.firstDay <= today
    ensures forall j :: 0 <= j < |prev + [x]| ==> EntryFacts(start, today, n, (prev + [x])[j])
    ensures EntriesOrdered(prev + [x])
  {
    var e := prev + [x];
    forall j | 0 <= j < |prev|
      ensures prev[j].firstDay < x.firstDay && prev[j].key != x.key && prev[j].weekIndex < x.weekIndex
    {
      EntryBeforeNew(start, today, n, prev[j]);
    }
    assert EntryFacts(start, today, n, x);
    forall j | 0 <= j < |e|
      ensures EntryFacts(start, today, n, e[j])
    {
      if j < |prev| {
        assert EntryFacts(start, today, n - 1, prev[j]);
      }
    }
    forall j, k | 0 <= j < k < |e|
      ensures e[j].firstDay < e[k].firstDay && e[j].key != e[k].key && e[j].weekIndex < e[k].weekIndex
    {
      assert e[j] == prev[j];
      if k < |prev| {
        assert e[k] == prev[k];
      }
    }
  }

  /** Every grid day (up to today) that is among the first seven of its month has its
      month in the Map: each month that starts inside the grid is labelled. */
  lemma {:induction false} MonthEntriesComplete(start: int, today: int, n: nat, i: nat)
    requires i < n
    requires DayOfMonth(start + i) <= 7 && start + i <= today
    ensures HasKey(MonthEntries(start, today, n), KeyOf(start + i))
    decreases n
  {
    var prev := MonthEntries(start, today, n - 1);
    if i < n - 1 {
      MonthEntriesComplete(start, today, n - 1, i);
      var j :| 0 <= j < |prev| && prev[j].key == KeyOf(start + i);
      assert MonthEntries(start, today, n)[j] == prev[j];
    } else {
      MonthChangeWithinWeek(start + i);
      var e := MonthEntries(start, today, n);
      if !HasKey(prev, KeyOf(start + i)) {
        assert e[|e| - 1].key == KeyOf(start + i);
      } else {
        var j :| 0 <= j < |prev| && prev[j].key == KeyOf(start + i);
        assert e[j] == prev[j];
      }
    }
  }

  /** The labels of a built grid: strictly increasing columns inside the grid, each
      naming the month of a day among the first seven of that month. */
  lemma MonthLabelsOrdered(today: int, weekCount: int)
    ensures var labels := Labels(MonthEntries(StartDate(today, weekCount), today, 7 * MaxInt(weekCount, 0)));
      (forall j :: 0 <= j < |labels| ==> 0 <= labels[j].weekIndex < weekCount)
      && (forall j, k :: 0 <= j < k < |labels| ==> labels[j].weekIndex < labels[k].weekIndex)
  {
    var start := StartDate(today, weekCount);
    var n := 7 * MaxInt(weekCount, 0);
    MonthEntriesFacts(start, today, n);
    var e := MonthEntries(start, today, n);
    var labels := Labels(e);
    forall j | 0 <= j < |labels|
      ensures 0 <= labels[j].weekIndex < weekCount
    {
      assert EntryFacts(start, today, n, e[j]);
      ColumnBound(e[j].firstDay - start, MaxInt(weekCount, 0));
    }
    forall j, k | 0 <= j < k < |labels|
      ensures labels[j].weekIndex < labels[k].weekIndex
    {
      assert labels[j].weekIndex == e[j].weekIndex && labels[k].weekIndex == e[k].weekIndex;
    }
  }

  lemma ColumnBound(x: nat, weeks: nat)
    requires x < 7 * weeks
    ensures x / 7 < weeks
  {
  }

  // ---------------------------------------------------------------- rendering rules

  /** The shade of a dot: 4 above 0.75, 3 above 0.5, 2 above 0.25, 1 above 0, else 0. */
  function ColorLevel(intensity: real): (level: nat)
    ensures level <= 4
    ensures level > 0 ==> (level - 1) as real / 4.0 < intensity
    ensures level < 4 ==> intensity <= level as real / 4.0
  {
    if intensity > 0.75 then 4
    else if intensity > 0.5 then 3
    else if intensity > 0.25 then 2
    else if intensity > 0.0 then 1
    else 0
  }

  /** More intensity never gives a lighter shade. */
  lemma ColorLevelMonotone(a: real, b: real)
    requires a <= b
    ensures ColorLevel(a) <= ColorLevel(b)
  {
  }

  /** The first style choice of a dot: hidden when in the future, else a pointer cursor
      when it holds data and a click handler is given. */
  datatype DotStyle = Hidden | Pointer | Plain

  function DotStyleOf<P>(c: Cell<P>, hasClickHandler: bool): (s: DotStyle)
    ensures s == Hidden <==> c.isInFuture
    ensures s == Pointer <==> !c.isInFuture && c.data.Some? && hasClickHandler
  {
    if c.isInFuture then Hidden
    else if c.data.Some? && hasClickHandler then Pointer
    else Plain
  }

  /** The payload a click delivers to the handler, if any. */
  function Click<P>(c: Cell<P>, hasClickHandler: bool): (r: Option<P>)
    ensures r.Some? <==> c.data.Some? && hasClickHandler
    ensures r.Some? ==> r == c.data
  {
    if c.data.Some? && hasClickHandler then c.data else None
  }

  /** Whether the tooltip is rendered for a cell. */
  predicate TooltipShown<P>(showTooltip: bool, hasTooltipContent: bool, c: Cell<P>)
  {
    showTooltip && c.data.Some? && hasTooltipContent && !c.isInFuture
  }

  /** A label's left offset in pixels: one 9px dot plus one 3px gap per column. */
  function LabelLeft(l: MonthLabel): (px: int)
    ensures px == 12 * l.weekIndex
  {
    l.weekIndex * 9 + l.weekIndex * 3
  }

  /** In a built grid no dot is hidden; a dot is clickable, and shows a tooltip, exactly
      when it holds data and the handler (or the tooltip setting and content) is present. */
  lemma GridInteraction<P>(data: seq<Event<P>>, weekCount: int, today: int, w: int, d: int,
                           hasClickHandler: bool, showTooltip: bool, hasTooltipContent: bool)
    requires 0 <= w < weekCount && 0 <= d < 7
    ensures var c := CellFor(IndexByDate(data), StartDate(today, weekCount) + 7 * w + d, today);
      DotStyleOf(c, hasClickHandler) != Hidden
      && (Click(c, hasClickHandler).Some? <==> c.data.Some? && hasClickHandler)
      && (TooltipShown(showTooltip, hasTooltipContent, c) <==> showTooltip && hasTooltipContent && c.data.Some?)
  {
    CellsBeforeToday(today, weekCount, w, d);
  }
}
