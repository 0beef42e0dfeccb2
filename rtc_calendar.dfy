/** The calendar arithmetic of source/cyhal_rtc.c: month lengths, the day of
    the week by Zeller's congruence, the day of the year that cyhal_rtc_read
    reports, the conversion of a relative DST date ("the second Sunday of
    March") to a day of the month, and the packed month/day/hour values the
    DST test compares.  Months are 0-based (0 = January) as in the driver;
    days of the week count from 0 = Sunday. */
module RtcCalendar {
  import opened CTypes

  // ---------------------------------------------------------------------
  // Month and year lengths
  // ---------------------------------------------------------------------

  /** The Gregorian leap-year rule _cyhal_rtc_days_in_month and
      cyhal_rtc_read apply to the unsigned year. */
  predicate IsLeap(year: nat)
  {
    year % 400 == 0 || (year % 4 == 0 && year % 100 != 0)
  }

  /** _cyhal_rtc_days_in_month: the month table, with February patched to 29
      in a leap year.  The index must lie inside the 12-entry table. */
  function DaysInMonth(month: nat, year: nat): (r: nat)
    requires month < 12
    ensures month == 1 ==> (r == 29 <==> IsLeap(year)) && (r == 28 <==> !IsLeap(year))
    ensures month in {3, 5, 8, 10} ==> r == 30
    ensures month !in {1, 3, 5, 8, 10} ==> r == 31
  {
    if month == 1 && IsLeap(year) then 29 else MonthLengths[month]
  }

  /** The `months` table of _cyhal_rtc_days_in_month, before February is
      patched for a leap year. */
  const MonthLengths: seq<nat> := [31, 28, 31, 30, 31, 30, 31, 31, 30, 31, 30, 31]

  function DaysInYear(year: nat): nat
  {
    if IsLeap(year) then 366 else 365
  }

  /** The number of days of the year before the first of a month: the sum of
      the lengths of the months before it. */
  function MonthStart(month: nat, year: nat): nat
    requires month <= 12
  {
    if month == 0 then 0 else MonthStart(month - 1, year) + DaysInMonth(month - 1, year)
  }

  /** The lengths of the twelve months add up to the length of the year. */
  lemma {:induction false} MonthStartOfYearEnd(year: nat)
    ensures MonthStart(12, year) == DaysInYear(year)
  {
    CumulativeDaysTable(11, year);
  }

  lemma {:induction false} MonthStartMonotone(m: nat, n: nat, year: nat)
    requires m <= n <= 12
    ensures MonthStart(m, year) <= MonthStart(n, year)
    decreases n - m
  {
    if m < n {
      MonthStartMonotone(m, n - 1, year);
    }
  }

  // ---------------------------------------------------------------------
  // Dates
  // ---------------------------------------------------------------------

  datatype Date = Date(day: nat, month: nat, year: nat)

  /** A calendar date: a month index inside the table and a day inside the
      month. */
  predicate ValidDate(dt: Date)
  {
    dt.month < 12 && 1 <= dt.day <= DaysInMonth(dt.month, dt.year)
  }

  /** The following calendar day. */
  function Next(dt: Date): (n: Date)
    requires ValidDate(dt)
    ensures ValidDate(n)
  {
    if dt.day < DaysInMonth(dt.month, dt.year) then dt.(day := dt.day + 1)
    else if dt.month < 11 then Date(1, dt.month + 1, dt.year)
    else Date(1, 0, dt.year + 1)
  }

  // ---------------------------------------------------------------------
  // Day of the year
  // ---------------------------------------------------------------------

  /** The cumulative_days table of cyhal_rtc_read: the days before each
      month in a common year. */
  const CumulativeDays: seq<nat> := [0, 31, 59, 90, 120, 151, 181, 212, 243, 273, 304, 334]

  /** The table plus the leap day from March on is the sum of the month
      lengths before the month. */
  lemma {:induction false} CumulativeDaysTable(month: nat, year: nat)
    requires month < 12
    ensures CumulativeDays[month] + (if month >= 2 && IsLeap(year) then 1 else 0) == MonthStart(month, year)
    ensures month == 11 ==> MonthStart(12, year) == DaysInYear(year)
  {
    if month > 0 {
      CumulativeDaysTable(month - 1, year);
    }
  }

  /** The tm_yday that cyhal_rtc_read computes: the table entry, the day of
      the month and the leap day.  It counts the 1-based day of the month, so
      it is the 1-based day of the year. */
  function YearDayAsWritten(day: nat, month: nat, year: nat): (r: nat)
    requires month < 12
    ensures r == MonthStart(month, year) + day
  {
    CumulativeDaysTable(month, year);
    CumulativeDays[month] + day + (if month >= 2 && IsLeap(year) then 1 else 0)
  }

  /** As written, the first of January is day 1 and the last day of a leap
      year is day 366, while tm_yday of ISO/IEC 9899:2011 section 7.27.1
      counts the days since 1 January, from 0 to 365. */
  lemma YearDayAsWrittenOffByOne()
    ensures YearDayAsWritten(1, 0, 2024) == 1
    ensures YearDayAsWritten(31, 11, 2024) == 366
  {
    CumulativeDaysTable(11, 2024);
  }

  /** tm_yday as ISO/IEC 9899:2011 section 7.27.1 defines it: the days since
      1 January. */
  function YearDay(day: nat, month: nat, year: nat): (r: int)
    requires month < 12
    ensures r == MonthStart(month, year) + day - 1
    ensures ValidDate(Date(day, month, year)) ==> 0 <= r < DaysInYear(year)
  {
    CumulativeDaysTable(month, year);
    MonthStartMonotone(month + 1, 12, year);
    MonthStartOfYearEnd(year);
    CumulativeDays[month] + day - 1 + (if month >= 2 && IsLeap(year) then 1 else 0)
  }

  /** The day of the year counts up by one from day to day and starts again
      at 0 on 1 January. */
  lemma YearDayNext(dt: Date)
    requires ValidDate(dt)
    ensures var n := Next(dt);
      YearDay(n.day, n.month, n.year) == if n.year != dt.year then 0 else YearDay(dt.day, dt.month, dt.year) + 1
  {
  }

  // ---------------------------------------------------------------------
  // Day of the week
  // ---------------------------------------------------------------------

  /** The year part of Zeller's congruence for a year with century J and
      year of century K: K + K/4 + J/4 - 2J. */
  function YearTerm(zy: int): int
  {
    zy % 100 + (zy % 100) / 4 + (zy / 100) / 4 - 2 * (zy / 100)
  }

  /** The month part of Zeller's congruence for Zeller month zm (3 = March
      ... 14 = February): (13 (zm + 1)) / 5. */
  function MonthTerm(zm: int): int
  {
    (13 * (zm + 1)) / 5
  }

  /** Zeller's sum for day q of Zeller month zm of year zy; its residue
      modulo 7 counts from 0 = Saturday. */
  function ZellerSum(day: int, zm: int, zy: int): int
  {
    day + MonthTerm(zm) + YearTerm(zy)
  }

  /** _cyhal_rtc_calculate_day_of_week as written: Zeller's sum with the
      1-based month and no shift of January and February into the previous
      year, computed with C's truncating `%` on a sum that can be negative,
      then moved to 0 = Sunday by `+ 6) % 7`.  The result is the residue of
      the sum moved by 6, whatever the sign of the sum. */
  function DayOfWeekAsWritten(day: uint16, month: uint16, year: uint16): (r: nat)
    ensures r < 7
    ensures r == (ZellerSum(day, month + 1, year) + 6) % 7
  {
    var x := day + (13 * (month + 2)) / 5 + year % 100 + (year % 100) / 4 + (year / 100) / 4 - (year / 100) * 2;
    assert x == ZellerSum(day, month + 1, year);
    RemCongruent7(x);
    CRem(CRem(x, 7) + 6, 7)
  }

  /** The truncating remainder by 7 is congruent to its dividend. */
  lemma RemCongruent7(x: int)
    ensures (CRem(x, 7) + 6) % 7 == (x + 6) % 7
    ensures 0 <= CRem(x, 7) + 6 < 13
  {
    if x < 0 {
      var q := (-x) / 7;
      assert -x == 7 * q + (-x) % 7;
      assert CRem(x, 7) + 6 == x + 7 * q + 6;
      Mod7Multiple(x + 6, q);
    }
  }

  lemma Mod7Multiple(x: int, k: int)
    ensures (x + 7 * k) % 7 == x % 7
  {
  }

  /** Zeller's sum the corrected formula uses for a date: January and
      February count as months 13 and 14 of the previous year, which is
      what the formula requires. */
  function ZellerOf(dt: Date): int
  {
    if dt.month < 2 then ZellerSum(dt.day, dt.month + 13, dt.year - 1)
    else ZellerSum(dt.day, dt.month + 1, dt.year)
  }

  /** The day of the week of a date by Zeller's congruence, corrected. */
  function WeekdayOf(dt: Date): (r: nat)
    ensures r < 7
  {
    (ZellerOf(dt) + 6) % 7
  }

  function DayOfWeek(day: nat, month: nat, year: nat): (r: nat)
    ensures r < 7
  {
    WeekdayOf(Date(day, month, year))
  }

  /** From March on the code as written and the corrected formula agree. */
  lemma DayOfWeekAgreesFromMarch(day: uint16, month: uint16, year: uint16)
    requires 2 <= month
    ensures DayOfWeekAsWritten(day, month, year) == DayOfWeek(day, month, year)
  {
  }

  /** As written, 31 December 2023 and 1 January 2024 fall on the same day
      of the week, although they are consecutive days. */
  lemma DayOfWeekAsWrittenRepeats()
    ensures Next(Date(31, 11, 2023)) == Date(1, 0, 2024)
    ensures DayOfWeekAsWritten(31, 11, 2023) == DayOfWeekAsWritten(1, 0, 2024) == 0
  {
    DecemberLastAsWritten();
    JanuaryFirstAsWritten();
  }

  lemma DecemberLastAsWritten()
    ensures DayOfWeekAsWritten(31, 11, 2023) == 0
  {
    assert YearTerm(2023) == -7 && MonthTerm(12) == 33;
    assert ZellerSum(31, 12, 2023) == 57;
  }

  lemma JanuaryFirstAsWritten()
    ensures DayOfWeekAsWritten(1, 0, 2024) == 0
  {
    assert YearTerm(2024) == -5 && MonthTerm(1) == 5;
    assert ZellerSum(1, 1, 2024) == 1;
  }

  /** The corrected formula: 31 December 2023 was a Sunday and 1 January 2024
      a Monday. */
  lemma JanuaryFirstCorrected()
    ensures DayOfWeek(31, 11, 2023) == 0
    ensures DayOfWeek(1, 0, 2024) == 1
  {
    assert YearTerm(2023) == -7 && MonthTerm(12) == 33 && MonthTerm(13) == 36;
    assert ZellerSum(31, 12, 2023) == 57;
    assert ZellerSum(1, 13, 2023) == 30;
  }

  /** The year term written with century q and year of century k. */
  function YearTermOf(q: int, k: int): int
  {
    k + k / 4 + q / 4 - 2 * q
  }

  /** Inside a century the year term grows by one, and by two in a year of
      century divisible by 4. */
  lemma YearTermStepInCentury(q: int, k: int)
    requires 1 <= k < 100
    ensures YearTermOf(q, k) - YearTermOf(q, k - 1) == 1 + (if k % 4 == 0 then 1 else 0)
  {
  }

  /** Across a century the year term changes by 1 - 126, or by 2 - 126 when
      the new century is divisible by 4. */
  lemma YearTermStepAcrossCentury(q: int)
    ensures YearTermOf(q, 0) - YearTermOf(q - 1, 99) == 1 + (if q % 4 == 0 then 1 else 0) - 126
  {
  }

  /** The century and year of century of the year before. */
  lemma PreviousYearParts(y: int)
    ensures y % 100 != 0 ==> (y - 1) / 100 == y / 100 && (y - 1) % 100 == y % 100 - 1
    ensures y % 100 == 0 ==> (y - 1) / 100 == y / 100 - 1 && (y - 1) % 100 == 99
  {
  }

  /** The leap-year rule in terms of century and year of century. */
  lemma LeapParts(y: nat)
    ensures IsLeap(y) <==> if y % 100 != 0 then (y % 100) % 4 == 0 else (y / 100) % 4 == 0
  {
    var q, k := y / 100, y % 100;
    assert y == 100 * q + k;
    assert y % 4 == k % 4;
    assert k == 0 ==> (y % 400 == 0 <==> q % 4 == 0);
  }

  /** The year term grows by one from year to year, and by two into a leap
      year, modulo 7. */
  lemma YearTermStep(y: nat)
    ensures (YearTerm(y) - YearTerm(y - 1) - 1 - (if IsLeap(y) then 1 else 0)) % 7 == 0
  {
    var q, k := y / 100, y % 100;
    PreviousYearParts(y);
    LeapParts(y);
    assert YearTerm(y) == YearTermOf(q, k);
    if k != 0 {
      assert YearTerm(y - 1) == YearTermOf(q, k - 1);
      YearTermStepInCentury(q, k);
    } else {
      assert YearTerm(y - 1) == YearTermOf(q - 1, 99);
      YearTermStepAcrossCentury(q);
      Mod7Multiple(0, -18);
    }
  }

  /** At the end of a month from March to November the month term grows by
      the length of the month, modulo 7. */
  lemma MonthTermStep(m: nat, y: nat)
    requires 2 <= m <= 10
    ensures (MonthTerm(m + 2) - MonthTerm(m + 1) - DaysInMonth(m, y)) % 7 == 0
  {
    assert MonthTerm(3) == 10 && MonthTerm(4) == 13 && MonthTerm(5) == 15 && MonthTerm(6) == 18;
    assert MonthTerm(7) == 20 && MonthTerm(8) == 23 && MonthTerm(9) == 26 && MonthTerm(10) == 28;
    assert MonthTerm(11) == 31 && MonthTerm(12) == 33;
  }

  /** Zeller's sum of the next day is one more than today's, modulo 7. */
  lemma ZellerSumNext(dt: Date)
    requires ValidDate(dt)
    ensures (ZellerOf(Next(dt)) - ZellerOf(dt) - 1) % 7 == 0
  {
    var dim := DaysInMonth(dt.month, dt.year);
    if dt.day < dim {
      ZellerNextInMonth(dt);
    } else if dt.month == 0 {
      ZellerNextJanuary(dt);
    } else if dt.month == 1 {
      ZellerNextFebruary(dt);
    } else if dt.month == 11 {
      ZellerNextDecember(dt);
    } else {
      ZellerNextMonth(dt);
    }
  }

  lemma ZellerNextInMonth(dt: Date)
    requires ValidDate(dt) && dt.day < DaysInMonth(dt.month, dt.year)
    ensures (ZellerOf(Next(dt)) - ZellerOf(dt) - 1) % 7 == 0
  {
    assert Next(dt) == dt.(day := dt.day + 1);
    assert ZellerOf(Next(dt)) - ZellerOf(dt) - 1 == 0;
  }

  lemma ZellerNextJanuary(dt: Date)
    requires dt.month == 0 && dt.day == 31
    ensures ValidDate(dt)
    ensures (ZellerOf(Next(dt)) - ZellerOf(dt) - 1) % 7 == 0
  {
    var y: int := dt.year;
    assert Next(dt) == Date(1, 1, dt.year);
    assert ZellerOf(Next(dt)) == 1 + MonthTerm(14) + YearTerm(y - 1);
    assert ZellerOf(dt) == 31 + MonthTerm(13) + YearTerm(y - 1);
    assert MonthTerm(13) == 36 && MonthTerm(14) == 39;
    assert ZellerOf(Next(dt)) - ZellerOf(dt) - 1 == -28;
  }

  lemma ZellerNextFebruary(dt: Date)
    requires dt.month == 1 && dt.day == DaysInMonth(1, dt.year)
    ensures ValidDate(dt)
    ensures (ZellerOf(Next(dt)) - ZellerOf(dt) - 1) % 7 == 0
  {
    var y: int := dt.year;
    var dim := dt.day;
    assert Next(dt) == Date(1, 2, dt.year);
    assert ZellerOf(Next(dt)) == 1 + MonthTerm(3) + YearTerm(y);
    assert ZellerOf(dt) == dim + MonthTerm(14) + YearTerm(y - 1);
    assert MonthTerm(3) == 10 && MonthTerm(14) == 39;
    YearTermStep(dt.year);
    FebruaryStep(dim, YearTerm(y), YearTerm(y - 1), if IsLeap(dt.year) then 1 else 0);
  }

  /** The arithmetic of the step from the end of February to 1 March. */
  lemma FebruaryStep(dim: int, yt: int, ytPrev: int, leap: int)
    requires dim == 28 + leap
    requires (yt - ytPrev - 1 - leap) % 7 == 0
    ensures ((1 + 10 + yt) - (dim + 39 + ytPrev) - 1) % 7 == 0
  {
    var e := yt - ytPrev - 1 - leap;
    assert (1 + 10 + yt) - (dim + 39 + ytPrev) - 1 == e - 56;
    Mod7Multiple(e, -8);
  }

  lemma ZellerNextDecember(dt: Date)
    requires dt.month == 11 && dt.day == 31
    ensures ValidDate(dt)
    ensures (ZellerOf(Next(dt)) - ZellerOf(dt) - 1) % 7 == 0
  {
    var y: int := dt.year;
    assert Next(dt) == Date(1, 0, dt.year + 1);
    assert ZellerOf(Next(dt)) == 1 + MonthTerm(13) + YearTerm(y);
    assert ZellerOf(dt) == 31 + MonthTerm(12) + YearTerm(y);
    assert MonthTerm(12) == 33 && MonthTerm(13) == 36;
    assert ZellerOf(Next(dt)) - ZellerOf(dt) - 1 == -28;
  }

  lemma ZellerNextMonth(dt: Date)
    requires 2 <= dt.month <= 10 && dt.day == DaysInMonth(dt.month, dt.year)
    ensures ValidDate(dt)
    ensures (ZellerOf(Next(dt)) - ZellerOf(dt) - 1) % 7 == 0
  {
    assert Next(dt) == Date(1, dt.month + 1, dt.year);
    assert ZellerOf(Next(dt)) - ZellerOf(dt) - 1 == MonthTerm(dt.month + 2) - MonthTerm(dt.month + 1) - dt.day;
    MonthTermStep(dt.month, dt.year);
  }

  /** A sum one more than another modulo 7 gives the next day of the week. */
  lemma StepMod7(zc: int, zn: int)
    requires (zn - zc - 1) % 7 == 0
    ensures (zn + 6) % 7 == ((zc + 6) % 7 + 1) % 7
  {
    var k := (zn - zc - 1) / 7;
    assert zn == zc + 1 + 7 * k;
    var j := (zc + 6) / 7;
    assert zc + 6 == 7 * j + (zc + 6) % 7;
    Mod7Multiple((zc + 6) % 7 + 1, j + k);
  }

  /** The corrected day of the week advances by one, Saturday to Sunday
      included, from each calendar day to the next: with one known date
      (1 January 2010, a Friday) this fixes it for every date. */
  lemma WeekdayNext(dt: Date)
    requires ValidDate(dt)
    ensures WeekdayOf(Next(dt)) == (WeekdayOf(dt) + 1) % 7
  {
    ZellerSumNext(dt);
    StepMod7(ZellerOf(dt), ZellerOf(Next(dt)));
  }

  lemma WeekdayAnchor()
    ensures DayOfWeek(1, 0, 2010) == 5
  {
    assert YearTerm(2009) == -24 && MonthTerm(13) == 36;
    assert ZellerSum(1, 13, 2009) == 13;
  }

  /** Inside a month the day of the week steps with the day. */
  lemma DayOfWeekInMonth(d: nat, month: nat, year: nat)
    ensures DayOfWeek(d, month, year) == (DayOfWeek(1, month, year) + d - 1) % 7
  {
    var z1 := ZellerOf(Date(1, month, year));
    assert ZellerOf(Date(d, month, year)) == z1 + d - 1;
    var j := (z1 + 6) / 7;
    assert z1 + 6 == 7 * j + (z1 + 6) % 7;
    Mod7Multiple((z1 + 6) % 7 + d - 1, j);
  }

  // ---------------------------------------------------------------------
  // Relative DST dates
  // ---------------------------------------------------------------------

  /** The days of the week of the days of a month. */
  function Weekdays(month: nat, year: nat): nat -> nat
  {
    d => DayOfWeek(d, month, year)
  }

  /** The days 1..n whose day of the week, by `weekday`, is `target`, in
      order. */
  function Matches(weekday: nat -> nat, target: nat, n: nat): (r: seq<nat>)
    ensures forall i :: 0 <= i < |r| ==> 1 <= r[i] <= n
  {
    if n == 0 then []
    else Matches(weekday, target, n - 1) + (if weekday(n) == target then [n] else [])
  }

  /** Every day collected falls on the target day of the week. */
  lemma {:induction false} MatchesOnTarget(weekday: nat -> nat, target: nat, n: nat)
    ensures forall i :: 0 <= i < |Matches(weekday, target, n)| ==> weekday(Matches(weekday, target, n)[i]) == target
  {
    if n > 0 {
      MatchesOnTarget(weekday, target, n - 1);
      var prev := Matches(weekday, target, n - 1);
      var r := Matches(weekday, target, n);
      assert r == prev + (if weekday(n) == target then [n] else []);
      forall i | 0 <= i < |r|
        ensures weekday(r[i]) == target
      {
        if i < |prev| {
          assert r[i] == prev[i];
          assert weekday(prev[i]) == target;
        } else {
          assert weekday(n) == target && r[i] == n;
        }
      }
    }
  }

  lemma {:induction false} MatchesPrefix(weekday: nat -> nat, target: nat, m: nat, n: nat)
    requires m <= n
    ensures Matches(weekday, target, m) <= Matches(weekday, target, n)
    decreases n - m
  {
    if m < n {
      MatchesPrefix(weekday, target, m, n - 1);
    }
  }

  lemma {:induction false} MatchesComplete(weekday: nat -> nat, target: nat, d: nat, n: nat)
    requires 1 <= d <= n && weekday(d) == target
    ensures |Matches(weekday, target, n)| > 0
  {
    if d < n {
      MatchesComplete(weekday, target, d, n - 1);
    }
  }

  /** The occurrence numbered `weekOfMonth` (from 0) of a list of days, the
      last one when there are fewer, and day 1 when there is none. */
  function Pick(ms: seq<nat>, weekOfMonth: nat): nat
  {
    if |ms| == 0 then 1
    else if weekOfMonth < |ms| then ms[weekOfMonth]
    else ms[|ms| - 1]
  }

  /** The day of the month a relative DST date names: the occurrence of
      `dayOfWeek` numbered `weekOfMonth` (from 0), the last occurrence when
      the month has fewer, and day 1 when no day of the month matches. */
  function RelativeDay(month: nat, weekOfMonth: nat, dayOfWeek: nat, year: nat): (r: nat)
    requires month < 12
    ensures 1 <= r <= DaysInMonth(month, year)
  {
    Pick(Matches(Weekdays(month, year), dayOfWeek, DaysInMonth(month, year)), weekOfMonth)
  }

  /** Every day of the week occurs in the first seven days of a month. */
  lemma WeekdayInFirstWeek(month: nat, year: nat, dayOfWeek: nat) returns (d: nat)
    requires dayOfWeek < 7
    ensures 1 <= d <= 7 && DayOfWeek(d, month, year) == dayOfWeek
  {
    d := ShiftWithinWeek(DayOfWeek(1, month, year), dayOfWeek);
    DayOfWeekInMonth(d, month, year);
  }

  /** The day of the first week that is `target` days of the week after
      the first. */
  lemma ShiftWithinWeek(first: nat, target: nat) returns (d: nat)
    requires first < 7 && target < 7
    ensures 1 <= d <= 7 && (first + d - 1) % 7 == target
  {
    d := if target >= first then 1 + target - first else 8 + target - first;
  }

  /** When some day matches, the pick is a match. */
  lemma PickOnTarget(f: nat -> nat, target: nat, d: nat, n: nat, weekOfMonth: nat)
    requires 1 <= d <= n && f(d) == target
    ensures f(Pick(Matches(f, target, n), weekOfMonth)) == target
  {
    MatchesComplete(f, target, d, n);
    MatchesOnTarget(f, target, n);
  }

  /** A relative date with a day of the week from 0 to 6 always lands on
      that day of the week. */
  lemma RelativeDayOnWeekday(month: nat, weekOfMonth: nat, dayOfWeek: nat, year: nat)
    requires month < 12 && dayOfWeek < 7
    ensures DayOfWeek(RelativeDay(month, weekOfMonth, dayOfWeek, year), month, year) == dayOfWeek
  {
    var d := WeekdayInFirstWeek(month, year, dayOfWeek);
    var f := Weekdays(month, year);
    assert f(d) == dayOfWeek;
    PickOnTarget(f, dayOfWeek, d, DaysInMonth(month, year), weekOfMonth);
    assert f(RelativeDay(month, weekOfMonth, dayOfWeek, year)) == dayOfWeek;
  }

  /** _cyhal_rtc_relative_to_fixed: walks the days of the month, counting the
      days that fall on the requested day of the week, until the requested
      occurrence or the end of the month.  The year is the current year,
      which the driver reads from the hardware clock. */
  method RelativeToFixed(month: uint16, weekOfMonth: uint16, dayOfWeek: uint16, year: uint16) returns (day: nat)
    requires month < 12
    ensures day == RelativeDay(month, weekOfMonth, dayOfWeek, year)
  {
    var daysInMonth := DaysInMonth(month, year);
    day := ScanMonth(Weekdays(month, year), daysInMonth, weekOfMonth, dayOfWeek);
  }

  /** The loop of _cyhal_rtc_relative_to_fixed over the days of a month of
      `daysInMonth` days whose days of the week `weekday` gives. */
  method ScanMonth(weekday: nat -> nat, daysInMonth: nat, weekOfMonth: nat, dayOfWeek: nat) returns (day: nat)
    ensures day == Pick(Matches(weekday, dayOfWeek, daysInMonth), weekOfMonth)
  {
    var currentDayOfMonth: nat := 1;
    var currentWeekOfMonth: nat := 0;
    var tmpDayOfMonth: nat := currentDayOfMonth;
    while currentWeekOfMonth <= weekOfMonth && currentDayOfMonth <= daysInMonth
      invariant 1 <= currentDayOfMonth <= daysInMonth + 1
      invariant currentWeekOfMonth == |Matches(weekday, dayOfWeek, currentDayOfMonth - 1)|
      invariant currentWeekOfMonth <= weekOfMonth + 1
      invariant tmpDayOfMonth == if currentWeekOfMonth == 0 then 1
        else Matches(weekday, dayOfWeek, currentDayOfMonth - 1)[currentWeekOfMonth - 1]
      decreases daysInMonth + 1 - currentDayOfMonth
    {
      if dayOfWeek == weekday(currentDayOfMonth) {
        tmpDayOfMonth := currentDayOfMonth;
        currentWeekOfMonth := currentWeekOfMonth + 1;
      }
      currentDayOfMonth := currentDayOfMonth + 1;
    }
    ScanResult(weekday, weekOfMonth, dayOfWeek, daysInMonth, currentDayOfMonth, currentWeekOfMonth, tmpDayOfMonth);
    day := tmpDayOfMonth;
  }

  /** Where the scan stops, its last match is the pick. */
  lemma ScanResult(f: nat -> nat, weekOfMonth: nat, target: nat, dim: nat, cur: nat, week: nat, tmp: nat)
    requires 1 <= cur <= dim + 1
    requires week == |Matches(f, target, cur - 1)| <= weekOfMonth + 1
    requires tmp == if week == 0 then 1 else Matches(f, target, cur - 1)[week - 1]
    requires !(week <= weekOfMonth && cur <= dim)
    ensures tmp == Pick(Matches(f, target, dim), weekOfMonth)
  {
    MatchesPrefix(f, target, cur - 1, dim);
    var ms := Matches(f, target, dim);
    var pre := Matches(f, target, cur - 1);
    assert pre == ms[..|pre|];
    if week == weekOfMonth + 1 {
      assert tmp == ms[weekOfMonth];
    } else {
      assert cur - 1 == dim;
    }
  }

  // ---------------------------------------------------------------------
  // Packed month/day/hour values
  // ---------------------------------------------------------------------

  /** Bitwise or on non-negative integers, bit by bit from the lowest. */
  function BitOr(a: nat, b: nat): nat
    decreases a + b
  {
    if a == 0 then b
    else if b == 0 then a
    else 2 * BitOr(a / 2, b / 2) + (if a % 2 == 1 || b % 2 == 1 then 1 else 0)
  }

  /** The left shift `a << k` of a value that does not overflow. */
  function Shl(a: nat, k: nat): nat
  {
    if k == 0 then a else 2 * Shl(a, k - 1)
  }

  lemma BitOrDouble(x: nat, y: nat)
    ensures BitOr(2 * x, 2 * y) == 2 * BitOr(x, y)
  {
  }

  /** Shifting both operands shifts their or. */
  lemma {:induction false} BitOrShl(a: nat, b: nat, k: nat)
    ensures BitOr(Shl(a, k), Shl(b, k)) == Shl(BitOr(a, b), k)
  {
    if k > 0 {
      BitOrShl(a, b, k - 1);
      BitOrDouble(Shl(a, k - 1), Shl(b, k - 1));
    }
  }

  /** Or-ing a value below 2^k into a value shifted by k adds it. */
  lemma {:induction false} BitOrLow(a: nat, b: nat, k: nat)
    requires b < Shl(1, k)
    ensures BitOr(Shl(a, k), b) == Shl(a, k) + b
  {
    if k > 0 && b != 0 {
      if a == 0 {
        ShlZero(k);
      } else {
        var x := Shl(a, k - 1);
        ShlPositive(a, k);
        assert Shl(1, k) == 2 * Shl(1, k - 1);
        BitOrLow(a, b / 2, k - 1);
        assert BitOr(2 * x, b) == 2 * BitOr(x, b / 2) + b % 2;
      }
    }
  }

  lemma {:induction false} ShlZero(k: nat)
    ensures Shl(0, k) == 0
  {
    if k > 0 {
      ShlZero(k - 1);
    }
  }

  lemma {:induction false} ShlPositive(a: nat, k: nat)
    requires a > 0
    ensures Shl(a, k) > 0
  {
    if k > 0 {
      ShlPositive(a, k - 1);
    }
  }

  lemma Shl5(a: nat)
    ensures Shl(a, 5) == 32 * a
  {
    assert Shl(a, 1) == 2 * a;
    assert Shl(a, 2) == 4 * a;
    assert Shl(a, 3) == 8 * a;
    assert Shl(a, 4) == 16 * a;
  }

  lemma Shl10(a: nat)
    ensures Shl(a, 10) == 1024 * a
  {
    Shl5(a);
    assert Shl(a, 6) == 64 * a;
    assert Shl(a, 7) == 128 * a;
    assert Shl(a, 8) == 256 * a;
    assert Shl(a, 9) == 512 * a;
  }

  /** `(month << 10) | (day << 5) | hour`, the packing of
      _cyhal_check_for_dst_transition. */
  function Pack(month: nat, day: nat, hour: nat): nat
  {
    BitOr(BitOr(Shl(month, 10), Shl(day, 5)), hour)
  }

  /** `(month << 10) | (day << 10) | hour`, the packing of
      _cyhal_rtc_get_dst_status as written: the day lands on the bits of the
      month. */
  function PackAsWritten(month: nat, day: nat, hour: nat): nat
  {
    BitOr(BitOr(Shl(month, 10), Shl(day, 10)), hour)
  }

  /** With a day and an hour below 32 the packing is positional: month, day
      and hour each keep their own bits. */
  lemma PackPositional(month: nat, day: nat, hour: nat)
    requires day < 32 && hour < 32
    ensures Pack(month, day, hour) == month * 1024 + day * 32 + hour
  {
    Shl10(month);
    Shl5(32 * month);
    Shl5(1);
    assert Shl(month, 10) == Shl(32 * month, 5);
    BitOrShl(32 * month, day, 5);
    Shl5(month);
    BitOrLow(month, day, 5);
    assert BitOr(Shl(month, 10), Shl(day, 5)) == Shl(32 * month + day, 5);
    Shl5(32 * month + day);
    BitOrLow(32 * month + day, hour, 5);
  }

  /** Month, day and hour in calendar order. */
  predicate Before(m1: nat, d1: nat, h1: nat, m2: nat, d2: nat, h2: nat)
  {
    m1 < m2 || (m1 == m2 && (d1 < d2 || (d1 == d2 && h1 < h2)))
  }

  /** For calendar days and hours the packed values compare as the dates
      do, and a packed difference of 1 is the hour before on the same day. */
  lemma PackOrdered(m1: nat, d1: nat, h1: nat, m2: nat, d2: nat, h2: nat)
    requires d1 < 32 && h1 < 32 && d2 < 32 && h2 < 32
    ensures Pack(m1, d1, h1) < Pack(m2, d2, h2) <==> Before(m1, d1, h1, m2, d2, h2)
    ensures Pack(m1, d1, h1) == Pack(m2, d2, h2) <==> m1 == m2 && d1 == d2 && h1 == h2
    ensures h1 < 31 ==>
      (Pack(m2, d2, h2) - Pack(m1, d1, h1) == 1 <==> m1 == m2 && d1 == d2 && h1 + 1 == h2)
  {
    PackPositional(m1, d1, h1);
    PackPositional(m2, d2, h2);
  }

  /** As written the day and the month share bits, so 1 April at noon
      packs below 10 March at two o'clock although it comes after it. */
  lemma PackAsWrittenOverlaps()
    ensures PackAsWritten(3, 1, 12) == 3084 && PackAsWritten(2, 10, 2) == 10242
    ensures Before(2, 10, 2, 3, 1, 12)
  {
    BitOrShl(3, 1, 10);
    BitOrShl(2, 10, 10);
    assert BitOr(3, 1) == 3;
    assert BitOr(2, 10) == 10;
    Shl10(1);
    Shl10(3);
    Shl10(10);
    BitOrLow(3, 12, 10);
    BitOrLow(10, 2, 10);
  }
}
