/** The RTC driver of source/cyhal_rtc.c: its module state (the driver
    state word, the DST rule pointer, the DST flag and the time of the last
    DST update), the DST transition check run on every hardware read and
    write, and the public init/read/write/set_dst operations.

    The hardware RTC (rtc_getRTCTime / rtc_setRTCTime in ROM) is the field
    `hardware`.  The time the hardware has reached when an operation reads
    it is the operation's parameter `now`; within one call the clock is
    taken not to advance, so every later read in the same call returns what
    the call read or wrote last.  RTC_TIME_t and cy_rtc_dst_t come from ROM
    headers that are not part of this model: their fields are taken to be
    16 bits wide, as _cyhal_rtc_set_rtc_direct's uint16_t parameters
    suggest. */
module RtcDriver {
  import opened CTypes
  import opened Results
  import opened Options
  import opened RtcCalendar

  /** _CYHAL_RTC_STATE_* */
  const StateUninitialized: uint16 := 0
  const StateEnabled: uint16 := 1
  const StateTimeSet: uint16 := 2
  const StateNeverInitialized: uint16 := 0xFFFF

  const TmYearBase: nat := 1900
  const RomYearBase: nat := 2010
  const MaxSecOrMin: nat := 59
  const MaxHours24h: nat := 23
  const MonthsPerYear: nat := 12

  /** RTC_TIME_t: a 0-based month and a four-digit year. */
  datatype RtcTime = RtcTime(second: uint16, minute: uint16, hour: uint16, day: uint16, month: uint16, year: uint16)

  /** cy_rtc_dst_format_t / cyhal_rtc_dst_format_t */
  datatype DstFormat = Relative | Fixed

  /** One end of a DST period: cy_rtc_dst_t (0-based month) in the driver's
      storage, cyhal_rtc_dst_t (1-based month) from the caller.  A fixed date
      uses dayOfMonth, a relative one weekOfMonth and dayOfWeek. */
  datatype DstDate = DstDate(format: DstFormat, hour: uint16, dayOfMonth: uint16,
                             weekOfMonth: uint16, dayOfWeek: uint16, month: uint16)

  /** cy_stc_rtc_dst_t */
  datatype DstRule = DstRule(start: DstDate, stop: DstDate)

  /** struct tm, whose fields are C ints. */
  datatype Tm = Tm(sec: int32, min: int32, hour: int32, mday: int32, mon: int32,
                   year: int32, wday: int32, yday: int32, isdst: int32)

  /** The default time cyhal_rtc_init writes on first use: 1 January 2011,
      midnight. */
  const DefaultTime: RtcTime := RtcTime(0, 0, 0, 1, 0, 2011)

  // ---------------------------------------------------------------------
  // DST arithmetic
  // ---------------------------------------------------------------------

  /** A relative date needs its month inside the days_in_month table. */
  predicate DateInRange(d: DstDate)
  {
    d.format == Relative ==> d.month < 12
  }

  predicate RuleInRange(rule: DstRule)
  {
    DateInRange(rule.start) && DateInRange(rule.stop)
  }

  /** The day of the month a DST date falls on in `year`: the fixed day, or
      the converted relative one. */
  function DstDay(d: DstDate, year: uint16): (day: nat)
    requires DateInRange(d)
    ensures d.format == Relative ==> 1 <= day <= DaysInMonth(d.month, year)
    ensures d.format == Relative && d.dayOfWeek < 7 ==> DayOfWeek(day, d.month, year) == d.dayOfWeek
  {
    if d.format == Fixed then d.dayOfMonth
    else
      DstDayOnWeekday(d, year);
      RelativeDay(d.month, d.weekOfMonth, d.dayOfWeek, year)
  }

  lemma DstDayOnWeekday(d: DstDate, year: uint16)
    requires d.format == Relative && d.month < 12
    ensures d.dayOfWeek < 7 ==> DayOfWeek(RelativeDay(d.month, d.weekOfMonth, d.dayOfWeek, year), d.month, year) == d.dayOfWeek
  {
    if d.dayOfWeek < 7 {
      RelativeDayOnWeekday(d.month, d.weekOfMonth, d.dayOfWeek, year);
    }
  }

  /** The packed month/day/hour as a uint32_t (shift 5 for the day). */
  function Packed(month: nat, day: nat, hour: nat): uint32
  {
    ToU32(Pack(month, day, hour))
  }

  function StartPacked(rule: DstRule, year: uint16): uint32
    requires RuleInRange(rule)
  {
    Packed(rule.start.month, DstDay(rule.start, year), rule.start.hour)
  }

  function StopPacked(rule: DstRule, year: uint16): uint32
    requires RuleInRange(rule)
  {
    Packed(rule.stop.month, DstDay(rule.stop, year), rule.stop.hour)
  }

  function TimePacked(t: RtcTime): uint32
  {
    Packed(t.month, t.day, t.hour)
  }

  /** _cyhal_rtc_get_dst_status with the day shifted by
      _CYHAL_RTC_DAYOFMONTHS_PLACE, as _cyhal_check_for_dst_transition packs
      it: DST is on from the start time up to, but not including, the hour
      before the stop time. The relative days are those of the year of
      `time`, the year the driver reads from the hardware. */
  function GetDstStatus(rule: DstRule, time: RtcTime): (on: bool)
    requires RuleInRange(rule)
    ensures on <==> StartPacked(rule, time.year) <= TimePacked(time) && TimePacked(time) + 1 < StopPacked(rule, time.year)
  {
    var start := StartPacked(rule, time.year);
    var stop := StopPacked(rule, time.year);
    var cur := TimePacked(time);
    start <= cur && stop > cur && SubU32(stop, cur) != 1
  }

  /** _cyhal_rtc_get_dst_status as written: the day is shifted by
      _CYHAL_RTC_MONTHS_PLACE (10) and or-ed onto the month bits. */
  function GetDstStatusAsWritten(rule: DstRule, time: RtcTime): bool
    requires RuleInRange(rule)
  {
    var start := ToU32(PackAsWritten(rule.start.month, DstDay(rule.start, time.year), rule.start.hour));
    var stop := ToU32(PackAsWritten(rule.stop.month, DstDay(rule.stop, time.year), rule.stop.hour));
    var cur := ToU32(PackAsWritten(time.month, time.day, time.hour));
    start <= cur && stop > cur && SubU32(stop, cur) != 1
  }

  /** A calendar-shaped DST date: a day and an hour that fit their bit
      fields. */
  predicate CalendarDate(d: DstDate, year: uint16)
    requires DateInRange(d)
  {
    DstDay(d, year) < 32 && d.hour < 24
  }

  predicate CalendarTime(t: RtcTime)
  {
    t.day < 32 && t.hour < 24
  }

  /** For calendar-shaped dates, DST is on exactly when the time is not
      before the start, is before the stop, and is not the last hour before
      the stop on the stop's day. */
  lemma GetDstStatusInCalendarTerms(rule: DstRule, time: RtcTime)
    requires RuleInRange(rule) && CalendarTime(time)
    requires CalendarDate(rule.start, time.year) && CalendarDate(rule.stop, time.year)
    ensures GetDstStatus(rule, time) <==>
      var sd, pd := DstDay(rule.start, time.year), DstDay(rule.stop, time.year);
      !Before(time.month, time.day, time.hour, rule.start.month, sd, rule.start.hour) &&
      Before(time.month, time.day, time.hour, rule.stop.month, pd, rule.stop.hour) &&
      !(time.month == rule.stop.month && time.day == pd && time.hour + 1 == rule.stop.hour)
  {
    var sd, pd := DstDay(rule.start, time.year), DstDay(rule.stop, time.year);
    PackOrdered(time.month, time.day, time.hour, rule.start.month, sd, rule.start.hour);
    PackOrdered(time.month, time.day, time.hour, rule.stop.month, pd, rule.stop.hour);
    PackPositional(time.month, time.day, time.hour);
    PackPositional(rule.start.month, sd, rule.start.hour);
    PackPositional(rule.stop.month, pd, rule.stop.hour);
  }

  /** A rule from 10 March, 2:00 to 3 November, 2:00. */
  const MarchToNovember: DstRule :=
    DstRule(DstDate(Fixed, 2, 10, 0, 0, 2), DstDate(Fixed, 2, 3, 0, 0, 10))

  /** As written, 1 April at noon falls outside the March-to-November
      period, which the corrected status puts it in. */
  lemma GetDstStatusAsWrittenMissesApril()
    ensures !GetDstStatusAsWritten(MarchToNovember, RtcTime(0, 0, 12, 1, 3, 2024))
    ensures GetDstStatus(MarchToNovember, RtcTime(0, 0, 12, 1, 3, 2024))
  {
    var time := RtcTime(0, 0, 12, 1, 3, 2024);
    PackAsWrittenOverlaps();
    assert DstDay(MarchToNovember.start, 2024) == 10;
    assert DstDay(MarchToNovember.stop, 2024) == 3;
    GetDstStatusInCalendarTerms(MarchToNovember, time);
  }

  // ---------------------------------------------------------------------
  // The DST transition check
  // ---------------------------------------------------------------------

  /** What _cyhal_check_for_dst_transition decides: the hour adjustment and
      the new DST flag. */
  datatype DstStep = DstStep(adjust: int, isDst: bool)

  /** The three cases of _cyhal_check_for_dst_transition on the packed start,
      stop, last-update and current times; `status` is the DST status of the
      current time, which case 3 takes over.  The hour moves only when the
      flag flips, forward when DST begins and back when it ends; otherwise
      only case 3 (last update after the stop) changes the flag. */
  function Decide(start: uint32, stop: uint32, last: uint32, cur: uint32, isDst: bool, status: bool): (s: DstStep)
    ensures s.adjust == 0 || s.adjust == 1 || s.adjust == -1
    ensures s.adjust == 1 ==> !isDst && s.isDst
    ensures s.adjust == -1 ==> isDst && !s.isDst
    ensures s.adjust == 0 && s.isDst != isDst ==> !(start < last < stop) && last >= start && last > stop && s.isDst == status
  {
    if last > start && last < stop then
      if (cur > stop || SubU32(stop, cur) == 1) && isDst then DstStep(-1, false)
      else DstStep(0, isDst)
    else if last < start then
      if SubU32(cur, start) == 1 && !isDst then DstStep(1, true)
      else if cur > stop && isDst then DstStep(-1, false)
      else DstStep(0, isDst)
    else if last > stop then DstStep(0, status)
    else DstStep(0, isDst)
  }

  /** The decision for a rule, the time of the last update and the current
      time, with the relative days of the current year. */
  function DstCheck(rule: DstRule, last: RtcTime, time: RtcTime, isDst: bool): (s: DstStep)
    requires RuleInRange(rule)
    ensures s.adjust == 0 || s.adjust == 1 || s.adjust == -1
    ensures s.adjust == 1 ==> !isDst && s.isDst
    ensures s.adjust == -1 ==> isDst && !s.isDst
  {
    Decide(StartPacked(rule, time.year), StopPacked(rule, time.year), TimePacked(last), TimePacked(time),
           isDst, GetDstStatus(rule, time))
  }

  /** `time->hour += adjustVal` on a 16-bit hour. */
  function Adjust(time: RtcTime, adjust: int): (t: RtcTime)
    ensures t.second == time.second && t.minute == time.minute && t.day == time.day
    ensures t.month == time.month && t.year == time.year
    ensures 0 <= time.hour + adjust < 0x1_0000 ==> t.hour == time.hour + adjust
  {
    time.(hour := ToU16(time.hour + adjust))
  }

  /** Entering DST: last checked before the start, now the hour after it
      on the start's day, flag clear. The clock moves forward one hour and
      the flag is set. */
  lemma DstCheckEnters(rule: DstRule, last: RtcTime, time: RtcTime)
    requires RuleInRange(rule) && CalendarTime(last) && CalendarTime(time)
    requires CalendarDate(rule.start, time.year) && CalendarDate(rule.stop, time.year)
    requires Before(last.month, last.day, last.hour, rule.start.month, DstDay(rule.start, time.year), rule.start.hour)
    requires time.month == rule.start.month && time.day == DstDay(rule.start, time.year)
    requires time.hour == rule.start.hour + 1
    ensures DstCheck(rule, last, time, false) == DstStep(1, true)
  {
    PackedEnters(rule.start.month, DstDay(rule.start, time.year), rule.start.hour,
                 StopPacked(rule, time.year), last.month, last.day, last.hour, GetDstStatus(rule, time));
  }

  lemma PackedEnters(sm: uint16, sd: nat, sh: nat, stop: uint32, lm: uint16, ld: nat, lh: nat, status: bool)
    requires sd < 32 && sh < 23 && ld < 32 && lh < 32
    requires Before(lm, ld, lh, sm, sd, sh)
    ensures Decide(Packed(sm, sd, sh), stop, Packed(lm, ld, lh), Packed(sm, sd, sh + 1), false, status) == DstStep(1, true)
  {
    PackOrdered(lm, ld, lh, sm, sd, sh);
    PackPositional(lm, ld, lh);
    PackPositional(sm, sd, sh);
    PackPositional(sm, sd, sh + 1);
  }

  /** Leaving DST: last checked inside the period, now after its stop,
      flag set. The clock moves back one hour and the flag is cleared. */
  lemma DstCheckLeaves(rule: DstRule, last: RtcTime, time: RtcTime)
    requires RuleInRange(rule) && CalendarTime(last) && CalendarTime(time)
    requires CalendarDate(rule.start, time.year) && CalendarDate(rule.stop, time.year)
    requires var sd, pd := DstDay(rule.start, time.year), DstDay(rule.stop, time.year);
      Before(rule.start.month, sd, rule.start.hour, last.month, last.day, last.hour) &&
      Before(last.month, last.day, last.hour, rule.stop.month, pd, rule.stop.hour) &&
      Before(rule.stop.month, pd, rule.stop.hour, time.month, time.day, time.hour)
    ensures DstCheck(rule, last, time, true) == DstStep(-1, false)
  {
    PackedLeaves(rule.start.month, DstDay(rule.start, time.year), rule.start.hour,
                 rule.stop.month, DstDay(rule.stop, time.year), rule.stop.hour,
                 last.month, last.day, last.hour, time.month, time.day, time.hour, GetDstStatus(rule, time));
  }

  lemma PackedLeaves(sm: uint16, sd: nat, sh: nat, pm: uint16, pd: nat, ph: nat,
                     lm: uint16, ld: nat, lh: nat, cm: uint16, cd: nat, ch: nat, status: bool)
    requires sd < 32 && sh < 32 && pd < 32 && ph < 32 && ld < 32 && lh < 32 && cd < 32 && ch < 32
    requires Before(sm, sd, sh, lm, ld, lh) && Before(lm, ld, lh, pm, pd, ph) && Before(pm, pd, ph, cm, cd, ch)
    ensures Decide(Packed(sm, sd, sh), Packed(pm, pd, ph), Packed(lm, ld, lh), Packed(cm, cd, ch), true, status) == DstStep(-1, false)
  {
    PackOrdered(sm, sd, sh, lm, ld, lh);
    PackOrdered(lm, ld, lh, pm, pd, ph);
    PackOrdered(pm, pd, ph, cm, cd, ch);
    PackPositional(sm, sd, sh);
    PackPositional(pm, pd, ph);
    PackPositional(lm, ld, lh);
    PackPositional(cm, cd, ch);
  }

  // ---------------------------------------------------------------------
  // Copying the caller's DST dates
  // ---------------------------------------------------------------------

  /** The stored date cyhal_rtc_set_dst makes of a caller's date: format,
      hour and the 0-based month `monthFrom - 1` are written, and the day
      fields of the caller's format; the other day fields keep what the
      storage held. */
  function StoreDate(d: DstDate, monthFrom: uint16, prev: DstDate): (s: DstDate)
    ensures s.format == d.format && s.hour == d.hour && s.month == ToU16(monthFrom - 1)
    ensures d.format == Relative ==> s.weekOfMonth == d.weekOfMonth && s.dayOfWeek == d.dayOfWeek && s.dayOfMonth == prev.dayOfMonth
    ensures d.format == Fixed ==> s.dayOfMonth == d.dayOfMonth && s.weekOfMonth == prev.weekOfMonth && s.dayOfWeek == prev.dayOfWeek
  {
    var s := prev.(format := d.format, hour := d.hour, month := ToU16(monthFrom - 1));
    if d.format == Relative then s.(weekOfMonth := d.weekOfMonth, dayOfWeek := d.dayOfWeek)
    else s.(dayOfMonth := d.dayOfMonth)
  }

  /** The corrected copy: each end takes its own month. */
  function StoreRule(start: DstDate, stop: DstDate, prev: DstRule): (r: DstRule)
    ensures r.start.format == start.format && r.start.hour == start.hour && r.start.month == ToU16(start.month - 1)
    ensures r.stop.format == stop.format && r.stop.hour == stop.hour && r.stop.month == ToU16(stop.month - 1)
  {
    DstRule(StoreDate(start, start.month, prev.start), StoreDate(stop, stop.month, prev.stop))
  }

  /** As written (source/cyhal_rtc.c:377) the start takes the stop's month. */
  function StoreRuleAsWritten(start: DstDate, stop: DstDate, prev: DstRule): DstRule
  {
    DstRule(StoreDate(start, stop.month, prev.start), StoreDate(stop, stop.month, prev.stop))
  }

  /** A caller's date with a month from 1 to 12 (for a relative date) gives
      a stored date in range. */
  predicate HalDateInRange(d: DstDate)
  {
    d.format == Relative ==> 1 <= d.month <= 12
  }

  /** What the stored rule means does not depend on the stale fields the
      storage held: two storages give packed start and stop times that are
      the same, and the stored months are the caller's months minus one. */
  lemma StoreRuleIgnoresStale(start: DstDate, stop: DstDate, p: DstRule, q: DstRule, year: uint16)
    requires HalDateInRange(start) && HalDateInRange(stop)
    ensures RuleInRange(StoreRule(start, stop, p)) && RuleInRange(StoreRule(start, stop, q))
    ensures StartPacked(StoreRule(start, stop, p), year) == StartPacked(StoreRule(start, stop, q), year)
    ensures StopPacked(StoreRule(start, stop, p), year) == StopPacked(StoreRule(start, stop, q), year)
    ensures 1 <= start.month ==> StoreRule(start, stop, p).start.month == start.month - 1
    ensures 1 <= stop.month ==> StoreRule(start, stop, p).stop.month == stop.month - 1
  {
    var a, b := StoreRule(start, stop, p), StoreRule(start, stop, q);
    assert DstDay(a.start, year) == DstDay(b.start, year);
    assert DstDay(a.stop, year) == DstDay(b.stop, year);
  }

  /** As written, a caller's rule from 10 March to 3 November (1-based
      months 3 and 11) is stored as a rule starting and stopping in
      November, so 1 July at noon is not in DST, which the corrected copy
      puts in DST. */
  lemma StoreRuleAsWrittenLosesStart(prev: DstRule)
    ensures var start, stop := DstDate(Fixed, 2, 10, 0, 0, 3), DstDate(Fixed, 2, 3, 0, 0, 11);
      var july := RtcTime(0, 0, 12, 1, 6, 2024);
      !GetDstStatus(StoreRuleAsWritten(start, stop, prev), july) &&
      GetDstStatus(StoreRule(start, stop, prev), july)
  {
    var start, stop := DstDate(Fixed, 2, 10, 0, 0, 3), DstDate(Fixed, 2, 3, 0, 0, 11);
    var july := RtcTime(0, 0, 12, 1, 6, 2024);
    var w, c := StoreRuleAsWritten(start, stop, prev), StoreRule(start, stop, prev);
    assert w.start.month == 10 && DstDay(w.start, 2024) == 10 && w.start.hour == 2;
    assert w.stop.month == 10 && DstDay(w.stop, 2024) == 3 && w.stop.hour == 2;
    assert c.start.month == 2 && DstDay(c.start, 2024) == 10 && c.start.hour == 2;
    GetDstStatusInCalendarTerms(w, july);
    GetDstStatusInCalendarTerms(c, july);
  }

  // ---------------------------------------------------------------------
  // The module state
  // ---------------------------------------------------------------------

  /** The state-machine part of _cyhal_rtc_init_common: a clock never or no
      longer initialised becomes enabled, any other state stays. */
  function InitState(s: uint16): (r: uint16)
    ensures s == StateNeverInitialized || s == StateUninitialized ==> r == StateEnabled
    ensures s != StateNeverInitialized && s != StateUninitialized ==> r == s
    ensures r != StateNeverInitialized && r != StateUninitialized
    ensures r == StateTimeSet <==> s == StateTimeSet
  {
    if s == StateNeverInitialized || s == StateUninitialized then StateEnabled else s
  }

  /** The validity test of cyhal_rtc_write_direct on its (already
      decremented) month. */
  predicate WriteAccepted(sec: uint32, min: uint32, hour: uint32, month0: uint32, year: uint32)
  {
    sec <= MaxSecOrMin && min <= MaxSecOrMin && hour <= MaxHours24h &&
    (month0 == 0 || month0 > 0) && month0 < MonthsPerYear && year >= RomYearBase
  }

  /** The fields of a struct tm that cyhal_rtc_write accepts. */
  predicate TmAccepted(tm: Tm)
  {
    0 <= tm.sec <= 59 && 0 <= tm.min <= 59 && 0 <= tm.hour <= 23 && 0 <= tm.mon <= 11 &&
    (tm.year >= 110 || tm.year < -1900)
  }

  /** The RTC time an accepted struct tm is written as: the fields as they
      are, the 0-based month kept, and the day and the year since 0 taken
      to 16 bits. */
  function WrittenTime(tm: Tm): (t: RtcTime)
    requires TmAccepted(tm)
    ensures t.second == tm.sec && t.minute == tm.min && t.hour == tm.hour && t.month == tm.mon
    ensures 0 < tm.mday < 0x1_0000 ==> t.day == tm.mday
    ensures 0 <= TmYearBase + tm.year < 0x1_0000 ==> t.year == TmYearBase + tm.year
  {
    RtcTime(tm.sec, tm.min, tm.hour, ToU16(tm.mday), tm.mon, ToU16(TmYearBase + tm.year))
  }

  /** Taking a value to 32 bits and then to 16 is taking it to 16. */
  lemma U16OfU32(x: int)
    ensures ToU16(ToU32(x)) == ToU16(x)
  {
    var q := x / UINT32_MOD;
    assert x == q * UINT32_MOD + ToU32(x);
    assert q * UINT32_MOD == (q * 0x1_0000) * 0x1_0000;
  }

  /** cyhal_rtc_write's conversions of a struct tm, in C arithmetic: the
      fields are converted to uint32_t, the month after adding 1 in int, the
      year after adding 1900U in unsigned arithmetic. It accepts exactly
      the times with seconds and minutes 0..59, hours 0..23, a month 0..11,
      and a year from 2010, or one so negative that 1900 + tm_year wraps
      around. */
  lemma WriteAcceptance(tm: Tm)
    requires tm.mon < 0x7FFF_FFFF
    ensures WriteAccepted(ToU32(tm.sec), ToU32(tm.min), ToU32(tm.hour), ToU32(ToU32(tm.mon + 1) - 1), ToU32(TmYearBase + tm.year))
      <==> 0 <= tm.sec <= 59 && 0 <= tm.min <= 59 && 0 <= tm.hour <= 23 && 0 <= tm.mon <= 11 &&
           (tm.year >= 110 || tm.year < -1900)
  {
    assert ToU32(ToU32(tm.mon + 1) - 1) == ToU32(tm.mon) by {
      if tm.mon >= 0 {
      } else if tm.mon == -1 {
      } else {
        assert ToU32(tm.mon + 1) == tm.mon + 1 + UINT32_MOD;
      }
    }
  }

  /** An accepted struct tm reaches write_direct's hardware time as
      WrittenTime: the fields converted to uint32_t, the month incremented
      and decremented again, and the day and year truncated to 16 bits. */
  lemma WrittenTimeDirect(tm: Tm)
    requires tm.mon < 0x7FFF_FFFF && TmAccepted(tm)
    ensures ToU32(ToU32(tm.mon + 1) - 1) == tm.mon
    ensures RtcTime(ToU32(tm.sec), ToU32(tm.min), ToU32(tm.hour), ToU16(ToU32(tm.mday)),
                    ToU32(ToU32(tm.mon + 1) - 1), ToU16(ToU32(TmYearBase + tm.year))) == WrittenTime(tm)
  {
    U16OfU32(tm.mday);
    U16OfU32(TmYearBase + tm.year);
  }

  class Rtc {
    /** _cyhal_rtc_state */
    var state: uint16
    /** obj->dst, the storage the DST rule pointer points into. */
    var dst: DstRule
    /** _cyhal_rtc_dst != NULL */
    var dstActive: bool
    /** _cyhal_rtc_is_dst */
    var isDst: bool
    /** *_cyhal_rtc_when_last_dst, None while the pointer is NULL. */
    var whenLastDst: Option<RtcTime>
    /** The time held by the hardware RTC. */
    var hardware: RtcTime

    /** An active DST rule has a last-update time and relative months
        inside the table. */
    ghost predicate Valid()
      reads this
    {
      dstActive ==> whenLastDst.Some? && RuleInRange(dst)
    }

    /** The module's statics before any call: state NEVER_INITIALIZED, no
        DST rule, flag clear; `storage` is what obj->dst holds and
        `hardwareTime` what the hardware RTC holds. */
    constructor(hardwareTime: RtcTime, storage: DstRule)
      ensures Valid()
      ensures state == StateNeverInitialized && dst == storage && hardware == hardwareTime
      ensures !dstActive && !isDst && whenLastDst == None
    {
      state := StateNeverInitialized;
      dst := storage;
      dstActive := false;
      isDst := false;
      whenLastDst := None;
      hardware := hardwareTime;
    }

    /** The effect of writing `time` to the hardware and checking it for a
        DST transition: without a rule the hardware holds `time` and the flag
        and the last-update time stay; with one the hour moves as DstCheck
        decides, the hardware and the last-update time become the adjusted
        time and the flag takes the decided value.  The rule stays. */
    twostate predicate DstApplied(time: RtcTime)
      reads this
    {
      dst == old(dst) && dstActive == old(dstActive) &&
      if !old(dstActive) then
        hardware == time && isDst == old(isDst) && whenLastDst == old(whenLastDst)
      else
        old(whenLastDst).Some? && RuleInRange(old(dst)) &&
        var s := DstCheck(old(dst), old(whenLastDst).value, time, old(isDst));
        hardware == Adjust(time, s.adjust) && isDst == s.isDst && whenLastDst == Some(hardware)
    }

    /** The effect of _cyhal_check_for_dst_transition(time) leaving `t` in
        the time buffer: the state stays, the time buffer is what the
        hardware holds, and the DST check is applied to `time`. */
    twostate predicate DstChecked(time: RtcTime, t: RtcTime)
      reads this
    {
      state == old(state) && hardware == t && DstApplied(time)
    }

    /** _cyhal_check_for_dst_transition.  The hardware holds `time` (the
        caller has just read or written it). */
    method CheckForDstTransition(time: RtcTime) returns (t: RtcTime)
      requires Valid() && hardware == time
      modifies this
      ensures Valid()
      ensures DstChecked(time, t)
    {
      t := time;
      if !dstActive {
        return;
      }
      var startDay: nat;
      var stopDay: nat;
      if dst.start.format == Fixed {
        startDay := dst.start.dayOfMonth;
      } else {
        startDay := RelativeToFixed(dst.start.month, dst.start.weekOfMonth, dst.start.dayOfWeek, time.year);
      }
      if dst.stop.format == Fixed {
        stopDay := dst.stop.dayOfMonth;
      } else {
        stopDay := RelativeToFixed(dst.stop.month, dst.stop.weekOfMonth, dst.stop.dayOfWeek, time.year);
      }
      var last := whenLastDst.value;
      var dstStartTime := Packed(dst.start.month, startDay, dst.start.hour);
      var dstStopTime := Packed(dst.stop.month, stopDay, dst.stop.hour);
      var lastUpdateTime := TimePacked(last);
      var currentTime := TimePacked(time);
      assert dstStartTime == StartPacked(dst, time.year) && dstStopTime == StopPacked(dst, time.year);
      var adjustVal := Transition(dstStartTime, dstStopTime, lastUpdateTime, currentTime, time);
      if adjustVal != 0 {
        t := Adjust(hardware, adjustVal);
        hardware := t;
      }
      whenLastDst := Some(hardware);
    }

    /** The case analysis of _cyhal_check_for_dst_transition on the packed
        times: sets the DST flag and returns the hour adjustment. */
    method Transition(dstStartTime: uint32, dstStopTime: uint32, lastUpdateTime: uint32, currentTime: uint32, time: RtcTime)
      returns (adjustVal: int)
      requires RuleInRange(dst)
      modifies this`isDst
      ensures DstStep(adjustVal, isDst) ==
        Decide(dstStartTime, dstStopTime, lastUpdateTime, currentTime, old(isDst), GetDstStatus(dst, time))
    {
      adjustVal := 0;
      if lastUpdateTime > dstStartTime && lastUpdateTime < dstStopTime {
        if (currentTime > dstStopTime || SubU32(dstStopTime, currentTime) == 1) && isDst {
          adjustVal := -1;
          isDst := false;
        }
      } else if lastUpdateTime < dstStartTime {
        if SubU32(currentTime, dstStartTime) == 1 && !isDst {
          adjustVal := 1;
          isDst := true;
        } else if currentTime > dstStopTime && isDst {
          adjustVal := -1;
          isDst := false;
        }
      } else if lastUpdateTime > dstStopTime {
        isDst := GetDstStatus(dst, time);
      }
    }

    /** _cyhal_rtc_set_rtc_time: writes the hardware, then checks for a DST
        transition. */
    method SetRtcTime(time: RtcTime)
      requires Valid()
      modifies this
      ensures Valid()
      ensures DstChecked(time, hardware)
    {
      hardware := time;
      var t := CheckForDstTransition(time);
    }

    /** _cyhal_rtc_get_rtc_time: reads the hardware, which has reached
        `now`, then checks for a DST transition; returns the time buffer. */
    method GetRtcTime(now: RtcTime) returns (t: RtcTime)
      requires Valid()
      modifies this
      ensures Valid()
      ensures DstChecked(now, t)
    {
      hardware := now;
      t := CheckForDstTransition(now);
    }

    /** _cyhal_rtc_init_common: on first use the default time is written
        (with its DST check); NEVER_INITIALIZED and UNINITIALIZED become
        ENABLED, any other state stays; the DST rule, the flag and the
        last-update time are cleared. */
    method InitCommon(defaultTime: RtcTime) returns (r: Rslt)
      requires Valid()
      modifies this
      ensures Valid()
      ensures r == Success
      ensures state == InitState(old(state))
      ensures !dstActive && !isDst && whenLastDst == None && dst == old(dst)
      ensures old(state) != StateNeverInitialized ==> hardware == old(hardware)
      ensures old(state) == StateNeverInitialized && !old(dstActive) ==> hardware == defaultTime
      ensures old(state) == StateNeverInitialized && old(dstActive) ==>
        hardware == Adjust(defaultTime, DstCheck(old(dst), old(whenLastDst).value, defaultTime, old(isDst)).adjust)
    {
      r := Success;
      if state == StateNeverInitialized {
        SetRtcTime(defaultTime);
        state := StateEnabled;
      } else if state == StateUninitialized {
        state := StateEnabled;
      }
      dstActive := false;
      isDst := false;
      whenLastDst := None;
    }

    /** cyhal_rtc_init */
    method Init() returns (r: Rslt)
      requires Valid()
      modifies this
      ensures Valid()
      ensures r == Success && state == InitState(old(state))
      ensures !dstActive && !isDst && whenLastDst == None && dst == old(dst)
      ensures old(state) == StateNeverInitialized && !old(dstActive) ==> hardware == DefaultTime
      ensures old(state) != StateNeverInitialized ==> hardware == old(hardware)
    {
      r := InitCommon(DefaultTime);
    }

    /** cyhal_rtc_free: clears the DST rule, the flag and the last-update
        time; the state stays. */
    method Free()
      modifies this
      ensures Valid()
      ensures !dstActive && !isDst && whenLastDst == None
      ensures state == old(state) && dst == old(dst) && hardware == old(hardware)
    {
      dstActive := false;
      isDst := false;
      whenLastDst := None;
    }

    /** cyhal_rtc_is_enabled: true exactly in state TIME_SET. */
    method IsEnabled() returns (b: bool)
      ensures b <==> state == StateTimeSet
    {
      b := state == StateTimeSet;
    }

    /** cyhal_rtc_read: reads the hardware (with its DST check) and fills a
        struct tm with the 0-based month, the year since 1900, the day of
        the week and the 0-based day of the year, and tm_isdst -1.  The
        month indexes cumulative_days, so it must be below 12. */
    method Read(now: RtcTime) returns (tm: Tm)
      requires Valid() && now.month < 12
      modifies this
      ensures Valid()
      ensures DstChecked(now, hardware) && hardware.month == now.month
      ensures tm.sec == hardware.second && tm.min == hardware.minute && tm.hour == hardware.hour
      ensures tm.mday == hardware.day && tm.mon == hardware.month && tm.year == hardware.year - TmYearBase
      ensures tm.wday == DayOfWeek(hardware.day, hardware.month, hardware.year)
      ensures tm.yday == YearDay(hardware.day, hardware.month, hardware.year)
      ensures tm.isdst == -1
      ensures 0 <= tm.wday < 7
      ensures ValidDate(Date(hardware.day, hardware.month, hardware.year)) ==> 0 <= tm.yday < DaysInYear(hardware.year)
    {
      var dateTime := GetRtcTime(now);
      MonthStartMonotone(dateTime.month, 12, dateTime.year);
      MonthStartOfYearEnd(dateTime.year);
      TmYearOf(dateTime.year);
      tm := Tm(dateTime.second, dateTime.minute, dateTime.hour, dateTime.day, dateTime.month,
               ToI32(ToU32(dateTime.year - TmYearBase)),
               DayOfWeek(dateTime.day, dateTime.month, dateTime.year),
               YearDay(dateTime.day, dateTime.month, dateTime.year), -1);
    }

    /** cyhal_rtc_write: converts the struct tm's fields and passes them to
        write_direct.  `tm_mon + 1` is int arithmetic, which must not
        overflow. */
    method Write(tm: Tm) returns (r: Rslt)
      requires Valid() && tm.mon < 0x7FFF_FFFF
      modifies this
      ensures Valid()
      ensures r == RtcBadArgument <==> !TmAccepted(tm)
      ensures r != RtcBadArgument ==> r == Success && state == StateTimeSet && DstApplied(WrittenTime(tm))
      ensures r == RtcBadArgument ==> unchanged(this)
    {
      WriteAcceptance(tm);
      if TmAccepted(tm) {
        WrittenTimeDirect(tm);
      }
      r := WriteDirect(ToU32(tm.sec), ToU32(tm.min), ToU32(tm.hour), ToU32(tm.mday),
                       ToU32(tm.mon + 1), ToU32(TmYearBase + tm.year));
    }

    /** cyhal_rtc_write_direct: the 1-based month is decremented in unsigned
        arithmetic; a second or minute above 59, an hour above 23, a month
        outside 1..12 or a year before 2010 is rejected and nothing changes;
        the day is not checked.  Otherwise the fields are truncated to 16
        bits and written through _cyhal_rtc_set_rtc_direct (with its DST
        check), and the state becomes TIME_SET. */
    method WriteDirect(sec: uint32, min: uint32, hour: uint32, day: uint32, month: uint32, year: uint32) returns (r: Rslt)
      requires Valid()
      modifies this
      ensures Valid()
      ensures r == RtcBadArgument <==> !WriteAccepted(sec, min, hour, ToU32(month - 1), year)
      ensures r == RtcBadArgument ==> unchanged(this)
      ensures r != RtcBadArgument ==> r == Success && state == StateTimeSet && dst == old(dst) && dstActive == old(dstActive)
      ensures r != RtcBadArgument && !old(dstActive) ==>
        hardware == RtcTime(sec, min, hour, ToU16(day), ToU32(month - 1), ToU16(year))
      ensures r != RtcBadArgument ==> DstApplied(RtcTime(sec, min, hour, ToU16(day), ToU32(month - 1), ToU16(year)))
    {
      var month0 := ToU32(month - 1);
      if !WriteAccepted(sec, min, hour, month0, year) {
        return RtcBadArgument;
      }
      r := SetRtcDirect(sec, min, hour, ToU16(day), month0, ToU16(year));
      if r == Success {
        state := StateTimeSet;
      }
    }

    /** _cyhal_rtc_set_rtc_direct: writes the time (with its DST check) and
        reports success. */
    method SetRtcDirect(sec: uint16, min: uint16, hour: uint16, date: uint16, month: uint16, year: uint16) returns (r: Rslt)
      requires Valid()
      modifies this
      ensures Valid()
      ensures r == Success
      ensures DstChecked(RtcTime(sec, min, hour, date, month, year), hardware)
    {
      SetRtcTime(RtcTime(sec, min, hour, date, month, year));
      r := Success;
    }

    /** cyhal_rtc_set_dst, corrected: each end is stored with its own month
        minus one, the rule becomes active, the last-update time is read
        from the hardware (which has reached `now`) and checked for a
        transition against itself, and the flag becomes the DST status of
        the last-update time.  A relative date needs a month from 1 to 12. */
    method SetDst(start: DstDate, stop: DstDate, now: RtcTime) returns (r: Rslt)
      requires Valid() && HalDateInRange(start) && HalDateInRange(stop)
      modifies this
      ensures Valid()
      ensures r == Success
      ensures dst == StoreRule(start, stop, old(dst)) && dstActive
      ensures state == old(state)
      ensures whenLastDst == Some(hardware)
      ensures hardware == Adjust(now, DstCheck(dst, now, now, old(isDst)).adjust)
      ensures isDst == GetDstStatus(dst, hardware)
    {
      StoreRuleIgnoresStale(start, stop, dst, dst, now.year);
      r := Engage(StoreRule(start, stop, dst), now);
    }

    /** The common tail of both set_dst variants: activate `rule`, read the
        last-update time and take the DST status of it. */
    method Engage(rule: DstRule, now: RtcTime) returns (r: Rslt)
      requires RuleInRange(rule)
      modifies this
      ensures Valid()
      ensures r == Success
      ensures dst == rule && dstActive && state == old(state)
      ensures whenLastDst == Some(hardware)
      ensures hardware == Adjust(now, DstCheck(rule, now, now, old(isDst)).adjust)
      ensures isDst == GetDstStatus(rule, hardware)
    {
      dst := rule;
      dstActive := true;
      hardware := now;
      whenLastDst := Some(now);
      var t := CheckForDstTransition(now);
      isDst := GetDstStatus(dst, whenLastDst.value);
      r := Success;
    }

    /** cyhal_rtc_set_dst as written: the start takes the stop's month, and
        the last-update time is read through _cyhal_rtc_when_last_dst, which
        nothing but a previous corrected call ever points anywhere; while it
        is NULL the result is None (a NULL dereference, after the rule has
        been stored and made active). */
    method SetDstAsWritten(start: DstDate, stop: DstDate, now: RtcTime) returns (r: Option<Rslt>)
      requires Valid() && HalDateInRange(stop) && (start.format == Relative ==> 1 <= stop.month <= 12)
      modifies this
      ensures dst == StoreRuleAsWritten(start, stop, old(dst)) && dstActive
      ensures old(whenLastDst).None? <==> r.None?
      ensures r.Some? ==> r == Some(Success) && Valid() && isDst == GetDstStatus(dst, hardware)
    {
      var rule := StoreRuleAsWritten(start, stop, dst);
      if whenLastDst.None? {
        dst := rule;
        dstActive := true;
        return None;
      }
      var res := Engage(rule, now);
      r := Some(res);
    }

    /** cyhal_rtc_is_dst: reads the hardware (with its DST check) and
        reports the DST status of that time; the rule pointer is
        dereferenced, so a rule must be active. */
    method IsDst(now: RtcTime) returns (b: bool)
      requires Valid() && dstActive
      modifies this
      ensures Valid()
      ensures DstChecked(now, hardware) && b == GetDstStatus(dst, hardware)
    {
      var t := GetRtcTime(now);
      b := GetDstStatus(dst, t);
    }
  }

  // ---------------------------------------------------------------------
  // The nested year read of relative_to_fixed
  // ---------------------------------------------------------------------

  /** As written, _cyhal_rtc_relative_to_fixed reads the current year through
      _cyhal_rtc_get_rtc_time, which runs _cyhal_check_for_dst_transition
      with the same, still active, rule, which for a relative end calls
      _cyhal_rtc_relative_to_fixed again.  CheckReturnsAsWritten(rule,
      depth) is whether a transition check returns within `depth` nested
      calls. */
  function CheckReturnsAsWritten(rule: DstRule, depth: nat): bool
    decreases depth, 1
  {
    if rule.start.format == Fixed && rule.stop.format == Fixed then true
    else depth > 0 && RelativeToFixedReturnsAsWritten(rule, depth - 1)
  }

  /** Whether _cyhal_rtc_relative_to_fixed, as written, returns within
      `depth` nested calls: its year read runs a transition check first. */
  function RelativeToFixedReturnsAsWritten(rule: DstRule, depth: nat): bool
    decreases depth, 0
  {
    depth > 0 && CheckReturnsAsWritten(rule, depth - 1)
  }

  /** With a relative end, the transition check never returns, however
      deep the stack: the calls recurse without end. */
  lemma {:induction false} RelativeRuleNeverReturns(rule: DstRule, depth: nat)
    requires rule.start.format == Relative || rule.stop.format == Relative
    ensures !CheckReturnsAsWritten(rule, depth)
    decreases depth
  {
    if depth >= 2 {
      RelativeRuleNeverReturns(rule, depth - 2);
    }
  }

  /** tm_year = (int)year - 1900U: an unsigned subtraction converted back to
      int, which on a two's-complement target is the plain difference for
      every 16-bit year. */
  lemma TmYearOf(year: uint16)
    ensures ToI32(ToU32(year - TmYearBase)) == year - TmYearBase
  {
  }

  /** The NULL dereference of source/cyhal_rtc.c:403: after cyhal_rtc_init,
      set_dst as written always reads through a NULL pointer. */
  method SetDstAfterInitFaults(hardwareTime: RtcTime, storage: DstRule, start: DstDate, stop: DstDate, now: RtcTime)
    returns (r: Option<Rslt>)
    requires HalDateInRange(stop) && (start.format == Relative ==> 1 <= stop.month <= 12)
    ensures r == None
  {
    var rtc := new Rtc(hardwareTime, storage);
    var _ := rtc.Init();
    r := rtc.SetDstAsWritten(start, stop, now);
  }
}
