/** UTC dates as JavaScript computes them, and the standing-order schedule built on them
    (orchestrator/src/lib/retention.ts). */
module Calendar {
  import opened Tables

  const WEEK_MS: nat := 7 * DAY_MS

  predicate Leap(y: nat) {
    y % 4 == 0 && (y % 100 != 0 || y % 400 == 0)
  }

  function MonthLength(leap: bool, m: nat): nat {
    if m == 1 then (if leap then 29 else 28)
    else if m == 3 || m == 5 || m == 8 || m == 10 then 30
    else 31
  }

  /** Days from the first of January to the first of month m (0 is January, 12 is the next year). */
  function MonthStart(leap: bool, m: nat): nat
    requires m <= 12
  {
    if m == 0 then 0 else MonthStart(leap, m - 1) + MonthLength(leap, m - 1)
  }

  /** Days from 1970-01-01 to the first of January of year y. */
  function YearStart(y: nat): nat
    requires y >= 1970
  {
    if y == 1970 then 0 else YearStart(y - 1) + MonthStart(Leap(y - 1), 12)
  }

  lemma YearLength(y: nat)
    requires y >= 1970
    ensures YearStart(y + 1) == YearStart(y) + MonthStart(Leap(y), 12)
  {
  }

  lemma {:induction false} YearsGrow(y: nat, z: nat)
    requires 1970 <= y < z
    ensures YearStart(y + 1) <= YearStart(z)
  {
    if y + 1 < z {
      YearsGrow(y, z - 1);
      YearLength(z - 1);
    }
  }

  function YearFrom(day: nat, y: nat): (r: nat)
    requires y >= 1970 && YearStart(y) <= day
    ensures r >= y && YearStart(r) <= day < YearStart(r + 1)
    decreases day - YearStart(y)
  {
    YearLength(y);
    if day < YearStart(y + 1) then y else YearFrom(day, y + 1)
  }

  /** `getUTCFullYear` of a day number. */
  function YearOf(day: nat): (y: nat)
    ensures y >= 1970 && YearStart(y) <= day < YearStart(y + 1)
  {
    YearFrom(day, 1970)
  }

  function MonthFrom(leap: bool, offset: nat, m: nat): (r: nat)
    requires m <= 11 && MonthStart(leap, m) <= offset < MonthStart(leap, 12)
    ensures m <= r <= 11 && MonthStart(leap, r) <= offset < MonthStart(leap, r + 1)
    decreases 12 - m
  {
    if offset < MonthStart(leap, m + 1) then m else MonthFrom(leap, offset, m + 1)
  }

  /** `getUTCMonth`. */
  function MonthOf(day: nat): (m: nat)
    ensures var y := YearOf(day);
            && m <= 11 && MonthStart(Leap(y), m) <= day - YearStart(y) < MonthStart(Leap(y), m + 1)
  {
    var y := YearOf(day);
    YearLength(y);
    MonthFrom(Leap(y), day - YearStart(y), 0)
  }

  /** `getUTCDate`: 1 is the first of the month. */
  function DateOf(day: nat): (d: nat)
    ensures d >= 1
  {
    var y := YearOf(day);
    day - YearStart(y) - MonthStart(Leap(y), MonthOf(day)) + 1
  }

  /** A month counted from year 0: consecutive months have consecutive numbers. */
  function MonthIndex(at: nat): nat {
    12 * YearOf(DayOf(at)) + MonthOf(DayOf(at))
  }

  /** ECMAScript's MakeDay: a month past December runs into the following years. */
  function MakeDay(y: nat, m: nat, date: nat): nat
    requires y >= 1970 && date >= 1
  {
    var z := y + m / 12;
    YearStart(z) + MonthStart(Leap(z), m % 12) + date - 1
  }

  /** The knuckle rule: up to July every other month from January on has 31 days, from August on every other
      month from August on; the rest have 30, but for February. */
  lemma MonthsFollowTheKnuckles(leap: bool, m: nat)
    requires m <= 11
    ensures MonthLength(leap, m) == 31 <==> (if m < 7 then m % 2 == 0 else m % 2 == 1)
    ensures m != 1 && MonthLength(leap, m) != 31 ==> MonthLength(leap, m) == 30
    ensures MonthLength(leap, 1) == 28 + if leap then 1 else 0
  {
    assert m == 0 || m == 1 || m == 2 || m == 3 || m == 4 || m == 5 || m == 6 || m == 7 || m == 8 || m == 9 || m == 10 || m == 11;
  }

  lemma DaysOfAYear(leap: bool)
    ensures MonthStart(leap, 12) == 365 + if leap then 1 else 0
  {
    var more := if leap then 1 else 0;
    assert MonthStart(leap, 1) == 31;
    assert MonthStart(leap, 2) == 59 + more;
    assert MonthStart(leap, 4) == 120 + more;
    assert MonthStart(leap, 6) == 181 + more;
    assert MonthStart(leap, 8) == 243 + more;
    assert MonthStart(leap, 10) == 304 + more;
  }

  /** The leap days up to the end of year y. */
  function LeapDays(y: nat): int {
    y / 4 - y / 100 + y / 400
  }

  /** Years start where the Gregorian count of leap days puts them. */
  lemma {:induction false} YearsStartByTheGregorianCount(y: nat)
    requires y >= 1970
    ensures YearStart(y) == 365 * (y - 1970) + LeapDays(y - 1) - LeapDays(1969)
  {
    if y > 1970 {
      YearsStartByTheGregorianCount(y - 1);
      DaysOfAYear(Leap(y - 1));
      OneMoreLeapYear(y - 1);
    }
  }

  lemma OneMoreLeapYear(y: nat)
    requires y >= 1
    ensures LeapDays(y) == LeapDays(y - 1) + if Leap(y) then 1 else 0
  {
    Quotients(y);
    Multiples(y);
  }

  lemma Hundreds(k: nat)
    ensures (100 * k) % 100 == 0
  {
  }

  lemma Fours(k: nat)
    ensures (4 * k) % 4 == 0
  {
  }

  lemma Multiples(y: nat)
    ensures y % 400 == 0 ==> y % 100 == 0
    ensures y % 100 == 0 ==> y % 4 == 0
  {
    Hundreds(4 * (y / 400));
    Fours(25 * (y / 100));
  }

  lemma Quotients(y: nat)
    requires y >= 1
    ensures y / 4 == (y - 1) / 4 + if y % 4 == 0 then 1 else 0
    ensures y / 100 == (y - 1) / 100 + if y % 100 == 0 then 1 else 0
    ensures y / 400 == (y - 1) / 400 + if y % 400 == 0 then 1 else 0
  {
  }

  // ----- Date methods on milliseconds -----

  function SetUtcMonth(at: nat, m: nat, date: nat): nat
    requires date >= 1
  {
    MakeDay(YearOf(DayOf(at)), m, date) * DAY_MS + at % DAY_MS
  }

  function SetUtcDate(at: nat, date: nat): nat
    requires date >= 1
  {
    SetUtcMonth(at, MonthOf(DayOf(at)), date)
  }

  function SetUtcMidnight(at: nat): nat {
    DayOf(at) * DAY_MS
  }

  function DateUtc(y: nat, m: nat, date: nat): nat
    requires y >= 1970 && date >= 1
  {
    MakeDay(y, m, date) * DAY_MS
  }

  // ----- the schedule -----

  /** `nextStandingRun`. */
  function NextStandingRun(cadence: Cadence, from: nat): nat {
    match cadence
    case Weekly => SetUtcDate(from, DateOf(DayOf(from)) + 7)
    case Monthly => SetUtcMidnight(SetUtcMonth(from, MonthOf(DayOf(from)) + 1, 1))
  }

  /** `firstOfNextMonth`. */
  function FirstOfNextMonth(from: nat): nat {
    DateUtc(YearOf(DayOf(from)), MonthOf(DayOf(from)) + 1, 1)
  }

  lemma YearIsUnique(day: nat, y: nat)
    requires y >= 1970 && YearStart(y) <= day < YearStart(y + 1)
    ensures YearOf(day) == y
  {
    if YearOf(day) < y {
      YearsGrow(YearOf(day), y);
    } else if y < YearOf(day) {
      YearsGrow(y, YearOf(day));
    }
  }

  lemma MonthsGrow(leap: bool, m: nat, n: nat)
    requires m < n <= 12
    ensures MonthStart(leap, m + 1) <= MonthStart(leap, n)
  {
    if m + 1 < n {
      MonthsGrow(leap, m, n - 1);
    }
  }

  lemma MonthIsUnique(day: nat, y: nat, m: nat)
    requires y >= 1970 && m <= 11
    requires MonthStart(Leap(y), m) <= day - YearStart(y) < MonthStart(Leap(y), m + 1)
    ensures YearOf(day) == y && MonthOf(day) == m
  {
    YearLength(y);
    if m + 1 < 12 {
      MonthsGrow(Leap(y), m, 12);
    }
    YearIsUnique(day, y);
    var n := MonthOf(day);
    if n < m {
      MonthsGrow(Leap(y), n, m);
    } else if m < n {
      MonthsGrow(Leap(y), m, n);
    }
  }

  lemma DayOfDate(day: nat, rest: nat)
    requires rest < DAY_MS
    ensures DayOf(day * DAY_MS + rest) == day
  {
  }

  lemma MonthWithinYear(m: nat)
    requires m <= 11
    ensures m / 12 == 0 && m % 12 == m
  {
  }

  lemma SameMonthMakeDay(day: nat, more: nat)
    ensures MakeDay(YearOf(day), MonthOf(day), DateOf(day) + more) == day + more
  {
    MonthWithinYear(MonthOf(day));
  }

  /** A weekly order moves exactly seven days on, keeping its time of day, across month and year ends. */
  lemma WeeklyIsSevenDays(from: nat)
    ensures NextStandingRun(Weekly, from) == from + WEEK_MS
  {
    var day := DayOf(from);
    SameMonthMakeDay(day, 7);
    assert from == day * DAY_MS + from % DAY_MS;
  }

  /** The two computations of the first of next month agree on every date. */
  lemma MonthlyIsFirstOfNextMonth(from: nat)
    ensures NextStandingRun(Monthly, from) == FirstOfNextMonth(from)
  {
    var day := DayOf(from);
    DayOfDate(MakeDay(YearOf(day), MonthOf(day) + 1, 1), from % DAY_MS);
  }

  lemma FirstOfMonth(day: nat, y: nat, m: nat)
    requires y >= 1970 && m <= 11 && day == YearStart(y) + MonthStart(Leap(y), m)
    ensures YearOf(day) == y && MonthOf(day) == m && DateOf(day) == 1
  {
    assert MonthStart(Leap(y), m + 1) == MonthStart(Leap(y), m) + MonthLength(Leap(y), m);
    MonthIsUnique(day, y, m);
  }

  lemma NextMonthDay(y: nat, m: nat)
    requires y >= 1970 && m <= 11
    ensures MakeDay(y, m + 1, 1) == YearStart(y) + MonthStart(Leap(y), m + 1)
  {
    if m == 11 {
      assert (m + 1) / 12 == 1 && (m + 1) % 12 == 0;
      YearLength(y);
    } else {
      assert (m + 1) / 12 == 0 && (m + 1) % 12 == m + 1;
    }
  }

  lemma AfterDecember(day: nat)
    requires MonthOf(day) == 11
    ensures var first := MakeDay(YearOf(day), 12, 1);
            first > day && DateOf(first) == 1 && YearOf(first) == YearOf(day) + 1 && MonthOf(first) == 0
  {
    hide YearOf, MonthOf, MonthStart;
    var y := YearOf(day);
    NextMonthDay(y, 11);
    YearLength(y);
    assert MonthStart(Leap(y + 1), 0) == 0 by {
      NoDaysBeforeJanuary(Leap(y + 1));
    }
    FirstOfMonth(YearStart(y + 1), y + 1, 0);
  }

  lemma NoDaysBeforeJanuary(leap: bool)
    ensures MonthStart(leap, 0) == 0
  {
  }

  lemma BeforeDecember(day: nat)
    requires MonthOf(day) < 11
    ensures var first := MakeDay(YearOf(day), MonthOf(day) + 1, 1);
            first > day && DateOf(first) == 1 && YearOf(first) == YearOf(day) && MonthOf(first) == MonthOf(day) + 1
  {
    hide YearOf, MonthOf, MonthStart, YearStart;
    NextMonthDay(YearOf(day), MonthOf(day));
    FirstOfMonth(MakeDay(YearOf(day), MonthOf(day) + 1, 1), YearOf(day), MonthOf(day) + 1);
  }

  lemma FirstDayOfNextMonth(day: nat)
    ensures var first := MakeDay(YearOf(day), MonthOf(day) + 1, 1);
            && first > day && DateOf(first) == 1
            && 12 * YearOf(first) + MonthOf(first) == 12 * YearOf(day) + MonthOf(day) + 1
  {
    hide YearOf, MonthOf, MakeDay, DateOf;
    if MonthOf(day) == 11 {
      AfterDecember(day);
    } else {
      BeforeDecember(day);
    }
  }

  lemma DaysOfOneMonth(day: nat, other: nat)
    requires day <= other < MakeDay(YearOf(day), MonthOf(day) + 1, 1)
    ensures YearOf(other) == YearOf(day) && MonthOf(other) == MonthOf(day)
  {
    NextMonthDay(YearOf(day), MonthOf(day));
    MonthIsUnique(other, YearOf(day), MonthOf(day));
  }

  lemma Midnights(from: nat, day: nat)
    ensures DayOf(day * DAY_MS) == day && (day * DAY_MS) % DAY_MS == 0
    ensures day > DayOf(from) ==> day * DAY_MS > from
    ensures from < day * DAY_MS ==> DayOf(from) < day
  {
  }

  /** It really is midnight on the first day of the following month, in the following year after
      December, and it is the first moment of that month. */
  lemma FirstOfNextMonthIsNext(from: nat)
    ensures var next := FirstOfNextMonth(from);
            && next > from
            && MonthIndex(next) == MonthIndex(from) + 1
            && DateOf(DayOf(next)) == 1 && next % DAY_MS == 0
            && forall u | from <= u < next :: MonthIndex(u) == MonthIndex(from)
  {
    var day := DayOf(from);
    var first := MakeDay(YearOf(day), MonthOf(day) + 1, 1);
    FirstDayOfNextMonth(day);
    Midnights(from, first);
    forall u | from <= u < first * DAY_MS
      ensures MonthIndex(u) == MonthIndex(from)
    {
      Midnights(u, first);
      DaysOfOneMonth(day, DayOf(u));
    }
  }

  /** Months only grow with time. */
  lemma MonthIndexGrows(a: nat, b: nat)
    requires a <= b
    ensures MonthIndex(a) <= MonthIndex(b)
    decreases b - a
  {
    if FirstOfNextMonth(a) <= b {
      FirstOfNextMonthIsNext(a);
      MonthIndexGrows(FirstOfNextMonth(a), b);
    } else {
      FirstOfNextMonthIsNext(a);
    }
  }

  /** Every run moves the schedule strictly past now: a monthly order into a later calendar month,
      a weekly one by a week. */
  lemma NextRunIsLater(cadence: Cadence, now: nat, later: nat)
    requires NextStandingRun(cadence, now) <= later
    ensures later > now
    ensures cadence == Monthly ==> MonthIndex(later) > MonthIndex(now)
    ensures cadence == Weekly ==> later >= now + WEEK_MS
  {
    if cadence == Monthly {
      MonthlyIsFirstOfNextMonth(now);
      FirstOfNextMonthIsNext(now);
      MonthIndexGrows(FirstOfNextMonth(now), later);
    } else {
      WeeklyIsSevenDays(now);
    }
  }
}
