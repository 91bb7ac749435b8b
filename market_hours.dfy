/** The two market-hours gates of the NSE cash session: the inline gate of the
    deployed update job (09:15:00 to 15:30:00, seconds counted) and the
    calendar helper (09:30 to 15:30 by the minute, with a holiday list). The
    clock is a parameter: the reading `datetime.now()` would return. */
module MarketHours {

  /** A wall-clock reading: the date as `strftime("%Y-%m-%d")` prints it, the
      weekday with Monday = 0 as `datetime.weekday()` counts, and the time of
      day down to the microsecond. */
  datatype Clock = Clock(date: string, weekday: int, hour: int, minute: int, second: int, microsecond: int)

  predicate ValidClock(c: Clock) {
    && 0 <= c.weekday <= 6
    && 0 <= c.hour < 24 && 0 <= c.minute < 60 && 0 <= c.second < 60
    && 0 <= c.microsecond < 1000000
  }

  /** A `datetime.time` value. */
  datatype TimeOfDay = TimeOfDay(hour: int, minute: int, second: int, microsecond: int)

  function TimeOf(c: Clock): TimeOfDay {
    TimeOfDay(c.hour, c.minute, c.second, c.microsecond)
  }

  /** `a <= b` on `datetime.time`: field by field, hour first. */
  predicate TimeLeq(a: TimeOfDay, b: TimeOfDay) {
    if a.hour != b.hour then a.hour < b.hour
    else if a.minute != b.minute then a.minute < b.minute
    else if a.second != b.second then a.second < b.second
    else a.microsecond <= b.microsecond
  }

  /** Microseconds since midnight. */
  function Micros(t: TimeOfDay): int {
    ((t.hour * 60 + t.minute) * 60 + t.second) * 1000000 + t.microsecond
  }

  predicate ValidTime(t: TimeOfDay) {
    0 <= t.hour < 24 && 0 <= t.minute < 60 && 0 <= t.second < 60 && 0 <= t.microsecond < 1000000
  }

  /** On valid times the field-by-field order is the order of the instants. */
  lemma TimeLeqIsInstantOrder(a: TimeOfDay, b: TimeOfDay)
    requires ValidTime(a) && ValidTime(b)
    ensures TimeLeq(a, b) <==> Micros(a) <= Micros(b)
  {
    var sa, sb := (a.hour * 60 + a.minute) * 60 + a.second, (b.hour * 60 + b.minute) * 60 + b.second;
    assert Micros(a) == sa * 1000000 + a.microsecond && Micros(b) == sb * 1000000 + b.microsecond;
    if sa < sb {
      assert Micros(a) < (sa + 1) * 1000000 <= sb * 1000000 <= Micros(b);
    } else if sb < sa {
      assert Micros(b) < (sb + 1) * 1000000 <= sa * 1000000 <= Micros(a);
    }
  }

  // ---------------------------------------------------------------------------
  // The inline gate of the deployed update job
  // ---------------------------------------------------------------------------

  const SESSION_OPEN: TimeOfDay := TimeOfDay(9, 15, 0, 0)
  const SESSION_CLOSE: TimeOfDay := TimeOfDay(15, 30, 0, 0)

  /** `market_is_open` of the deployed job: closed on Saturday and Sunday,
      otherwise open from 09:15:00 to 15:30:00, both ends included. */
  predicate InlineGateOpen(c: Clock) {
    if c.weekday >= 5 then false
    else TimeLeq(SESSION_OPEN, TimeOf(c)) && TimeLeq(TimeOf(c), SESSION_CLOSE)
  }

  /** The inline gate is open exactly on weekdays, between 09:15:00.000000
      and 15:30:00.000000 inclusive, counted in microseconds since midnight. */
  lemma InlineGateWindow(c: Clock)
    requires ValidClock(c)
    ensures InlineGateOpen(c) <==>
      c.weekday < 5 && 33300000000 <= Micros(TimeOf(c)) <= 55800000000
  {
    TimeLeqIsInstantOrder(SESSION_OPEN, TimeOf(c));
    TimeLeqIsInstantOrder(TimeOf(c), SESSION_CLOSE);
  }

  /** Saturday and Sunday are closed whatever the time. */
  lemma InlineGateWeekend(c: Clock)
    requires c.weekday >= 5
    ensures !InlineGateOpen(c)
  {
  }

  /** Both ends are included, and the seconds count: 15:30:00 is open,
      15:30:01 and 09:14:59 are closed. */
  lemma InlineGateEdges(date: string)
    ensures InlineGateOpen(Clock(date, 0, 9, 15, 0, 0))
    ensures InlineGateOpen(Clock(date, 0, 15, 30, 0, 0))
    ensures !InlineGateOpen(Clock(date, 0, 15, 30, 1, 0))
    ensures !InlineGateOpen(Clock(date, 0, 9, 14, 59, 999999))
  {
  }

  // ---------------------------------------------------------------------------
  // The calendar helper
  // ---------------------------------------------------------------------------

  /** The exchange holidays the calendar knows about. */
  const MARKET_HOLIDAYS: set<string> := {"2026-01-26", "2026-03-29", "2026-08-15", "2026-10-02"}

  /** `market_is_open` of the calendar helper, its early returns in order:
      weekend, holiday, outside hours 9-15, before 09:30, after 15:30. */
  predicate CalendarOpen(c: Clock) {
    if c.weekday > 4 then false
    else if c.date in MARKET_HOLIDAYS then false
    else if c.hour < 9 || c.hour > 15 then false
    else if c.hour == 9 && c.minute < 30 then false
    else if c.hour == 15 && c.minute > 30 then false
    else true
  }

  /** The calendar is open exactly on a weekday that is not a listed holiday,
      from minute 570 (09:30) to minute 930 (15:30) of the day, inclusive. */
  lemma CalendarWindow(c: Clock)
    requires ValidClock(c)
    ensures CalendarOpen(c) <==>
      c.weekday <= 4 && c.date !in MARKET_HOLIDAYS && 570 <= c.hour * 60 + c.minute <= 930
  {
  }

  /** The calendar reads only the minute: seconds and microseconds never
      change its answer, so 15:30:59 is still open. */
  lemma CalendarIgnoresSeconds(c: Clock, second: int, microsecond: int)
    ensures CalendarOpen(c) == CalendarOpen(c.(second := second, microsecond := microsecond))
  {
  }

  /** Every listed holiday is closed all day. */
  lemma CalendarHolidays(c: Clock)
    requires c.date in MARKET_HOLIDAYS
    ensures !CalendarOpen(c)
  {
  }

  /** The calendar's window lies inside the inline gate's, except for the
      last minute: from 15:30:00.000001 to 15:30:59.999999 only the calendar
      is open. */
  lemma CalendarInsideInline(c: Clock)
    requires ValidClock(c) && CalendarOpen(c)
    ensures InlineGateOpen(c) <==> !(c.hour == 15 && c.minute == 30 && (c.second > 0 || c.microsecond > 0))
  {
    CalendarWindow(c);
    InlineGateWindow(c);
  }

  /** Where the gates disagree: the inline gate runs at 09:20 and on a
      listed holiday, the calendar at 15:30:30. Monday 26 January 2026 is a
      listed holiday. */
  lemma GatesDisagree()
    ensures InlineGateOpen(Clock("2026-01-27", 1, 9, 20, 0, 0)) && !CalendarOpen(Clock("2026-01-27", 1, 9, 20, 0, 0))
    ensures InlineGateOpen(Clock("2026-01-26", 0, 11, 0, 0, 0)) && !CalendarOpen(Clock("2026-01-26", 0, 11, 0, 0, 0))
    ensures !InlineGateOpen(Clock("2026-01-27", 1, 15, 30, 30, 0)) && CalendarOpen(Clock("2026-01-27", 1, 15, 30, 30, 0))
  {
    assert "2026-01-26" in MARKET_HOLIDAYS;
    assert "2026-01-27" !in MARKET_HOLIDAYS by {
      assert "2026-01-27" != "2026-01-26" by { assert "2026-01-27"[9] != "2026-01-26"[9]; }
      assert "2026-01-27"[6] != "2026-03-29"[6];
      assert "2026-01-27"[6] != "2026-08-15"[6];
      assert "2026-01-27"[6] != "2026-10-02"[6];
    }
  }
}
