/** Dates as integer day numbers: day 0 is 1970-01-01 (a Thursday), day n is n days
    later (or earlier, when negative), in the proleptic Gregorian calendar. The
    civil date of a day number is defined by stepping one day at a time from day 0,
    which keeps the successor rule (the only fact the heat-map relies on) close to
    the definition. */
module Calendar {

  datatype Date = Date(year: int, month: int, day: int)  // month 1..12, day 1..31

  predicate IsLeapYear(y: int)
  {
    (y % 4 == 0 && y % 100 != 0) || y % 400 == 0
  }

  function DaysInMonth(y: int, m: int): (n: int)
    ensures 28 <= n <= 31
  {
    if m == 2 then (if IsLeapYear(y) then 29 else 28)
    else if m == 4 || m == 6 || m == 9 || m == 11 then 30
    else 31
  }

  predicate ValidDate(d: Date)
  {
    1 <= d.month <= 12 && 1 <= d.day <= DaysInMonth(d.year, d.month)
  }

  /** The calendar day after d. */
  function NextDate(d: Date): Date
  {
    if d.day < DaysInMonth(d.year, d.month) then Date(d.year, d.month, d.day + 1)
    else if d.month < 12 then Date(d.year, d.month + 1, 1)
    else Date(d.year + 1, 1, 1)
  }

  /** The calendar day before d. */
  function PrevDate(d: Date): Date
  {
    if d.day > 1 then Date(d.year, d.month, d.day - 1)
    else if d.month > 1 then Date(d.year, d.month - 1, DaysInMonth(d.year, d.month - 1))
    else Date(d.year - 1, 12, 31)
  }

  lemma NextPrev(d: Date)
    requires ValidDate(d)
    ensures ValidDate(NextDate(d)) && ValidDate(PrevDate(d))
    ensures PrevDate(NextDate(d)) == d && NextDate(PrevDate(d)) == d
  {
  }

  /** The civil date of day number n. */
  function Civil(n: int): Date
    decreases if n >= 0 then n else -n
  {
    if n == 0 then Date(1970, 1, 1)
    else if n > 0 then NextDate(Civil(n - 1))
    else PrevDate(Civil(n + 1))
  }

  function Year(n: int): int { Civil(n).year }
  function Month(n: int): int { Civil(n).month }          // 1..12
  function DayOfMonth(n: int): int { Civil(n).day }

  /** JavaScript `getDay()`: 0 is Sunday, 6 is Saturday (day 0 was a Thursday). */
  function DayOfWeek(n: int): (w: int)
    ensures 0 <= w < 7
  {
    (n + 4) % 7
  }

  /** The (year, month) pair the heat-map keys month labels by (`${year}-${month}`). */
  datatype MonthKey = MonthKey(year: int, month: int)

  function KeyOf(n: int): MonthKey { MonthKey(Year(n), Month(n)) }

  lemma {:induction false} CivilValid(n: int)
    ensures ValidDate(Civil(n))
    decreases if n >= 0 then n else -n
  {
    if n > 0 {
      CivilValid(n - 1);
      NextPrev(Civil(n - 1));
    } else if n < 0 {
      CivilValid(n + 1);
      NextPrev(Civil(n + 1));
    }
  }

  /** Consecutive day numbers are consecutive calendar days. */
  lemma CivilStep(n: int)
    ensures Civil(n + 1) == NextDate(Civil(n))
    ensures Civil(n) == PrevDate(Civil(n + 1))
  {
    CivilValid(n);
    CivilValid(n + 1);
    NextPrev(Civil(n));
    NextPrev(Civil(n + 1));
  }

  /** Walking back fewer days than the day of the month stays in the month. */
  lemma {:induction false} BackWithinMonth(n: int, k: nat)
    requires k < DayOfMonth(n)
    ensures Civil(n - k) == Date(Year(n), Month(n), DayOfMonth(n) - k)
    decreases k
  {
    if k > 0 {
      BackWithinMonth(n, k - 1);
      CivilStep(n - k);
    }
  }

  /** The day before the first of a month is the last day of the previous month. */
  lemma LastDayOfPreviousMonth(n: int)
    ensures KeyOf(n - DayOfMonth(n)) != KeyOf(n)
    ensures DayOfMonth(n - DayOfMonth(n)) >= 28
  {
    CivilValid(n);
    BackWithinMonth(n, DayOfMonth(n) - 1);
    CivilStep(n - DayOfMonth(n));
    CivilValid(n - DayOfMonth(n) + 1);
  }

  /** The month of a day differs from the month seven days earlier exactly
      when the day is among the first seven of its month. */
  lemma MonthChangeWithinWeek(n: int)
    ensures KeyOf(n) != KeyOf(n - 7) <==> DayOfMonth(n) <= 7
  {
    CivilValid(n);
    if DayOfMonth(n) > 7 {
      BackWithinMonth(n, 7);
    } else {
      var p := n - DayOfMonth(n);
      LastDayOfPreviousMonth(n);
      BackWithinMonth(p, 7 - DayOfMonth(n));
      assert p - (7 - DayOfMonth(n)) == n - 7;
    }
  }

  /** Seven consecutive days hold the first days of at most one month: two of them
      that are both among the first seven of their months share the month. */
  lemma OneMonthStartPerWeek(a: int, b: int)
    requires a <= b < a + 7
    requires DayOfMonth(a) <= 7 && DayOfMonth(b) <= 7
    ensures KeyOf(a) == KeyOf(b)
  {
    CivilValid(b);
    var k := b - a;
    if k < DayOfMonth(b) {
      BackWithinMonth(b, k);
    } else {
      var p := b - DayOfMonth(b);
      LastDayOfPreviousMonth(b);
      BackWithinMonth(p, p - a);
      assert false;
    }
  }

  const MsPerDay: int := 86400000

  /** The UTC day number of a millisecond timestamp (the date part of `toISOString`). */
  function DayOfTimestamp(ms: int): (n: int)
    ensures MsPerDay * n <= ms < MsPerDay * (n + 1)
  {
    ms / MsPerDay
  }

  /** 2024-01-07, the Sunday used in the heat-map's worked example, is day 19729. */
  lemma SundayExample()
    ensures DayOfWeek(19729) == 0
  {
  }
}
