/** Date arithmetic of the tracker (DateModule and the week-start computation
    of the render pass).

    A calendar day is an integer index counted from the application's start
    date, 2026-01-19, which is day 0. An instant is a number of milliseconds
    measured from the local midnight that opens the start date; days are
    assumed to be exactly MsPerDay long (a time zone without daylight saving).
 */
module Calendar {

  /** The day index of the configured start date "2026-01-19". */
  const StartDay: int := 0

  /** Days from 1970-01-01 to 2026-01-19, used to reach the civil calendar. */
  const UnixDayOfStart: int := 20472

  /** Weekday numbering as returned by getDay: Sunday is 0, Saturday is 6. */
  const Sunday: int := 0
  const Monday: int := 1

  /** 2026-01-19 is a Monday. */
  const StartWeekday: int := Monday

  const MsPerDay: int := 1000 * 60 * 60 * 24

  /** The instant of the local midnight that opens `day`. */
  function Midnight(day: int): int
  {
    (day - StartDay) * MsPerDay
  }

  /** getAppStartDate: the start date, normalised to midnight. */
  function AppStartDate(): (d: int)
    ensures d == Midnight(StartDay)
    ensures DayNumber(d) == 1
  {
    0
  }

  /** getDayNumber: whole days elapsed since the start date (rounded down), plus one. */
  function DayNumber(date: int): (n: int)
    ensures n >= 1 <==> date >= Midnight(StartDay)
    ensures n == 1 <==> Midnight(StartDay) <= date < Midnight(StartDay) + MsPerDay
  {
    (date - Midnight(StartDay)) / MsPerDay + 1
  }

  /** Every instant of `day` has day number `day - StartDay + 1`. */
  lemma DayNumberOfDay(day: int, ms: int)
    requires 0 <= ms < MsPerDay
    ensures DayNumber(Midnight(day) + ms) == day - StartDay + 1
  {
    var k := day - StartDay;
    assert Midnight(day) + ms - Midnight(StartDay) == k * MsPerDay + ms;
    DivideExactly(k, ms);
  }

  /** Moving one day forward adds exactly one to the day number. */
  lemma DayNumberNextDay(date: int)
    ensures DayNumber(date + MsPerDay) == DayNumber(date) + 1
  {
    var e := date - Midnight(StartDay);
    DivideExactly(e / MsPerDay + 1, e % MsPerDay);
  }

  lemma DivideExactly(q: int, r: int)
    requires 0 <= r < MsPerDay
    ensures (q * MsPerDay + r) / MsPerDay == q
  {
    var x := q * MsPerDay + r;
    var k := x / MsPerDay;
    assert MsPerDay * (k - q) == r - x % MsPerDay;
  }

  /** getDay of a day: 0 for Sunday through 6 for Saturday. */
  function DayOfWeek(day: int): (w: int)
    ensures 0 <= w < 7
    ensures w == StartWeekday <==> (day - StartDay) % 7 == 0
  {
    (day - StartDay + StartWeekday) % 7
  }

  /** diffToMonday: the offset from a weekday back to the Monday of its week,
      where a week runs from Monday to Sunday. */
  function DiffToMonday(w: int): (r: int)
    requires 0 <= w < 7
    ensures -6 <= r <= 0
    ensures (w + r) % 7 == Monday
  {
    if w == Sunday then -6 else 1 - w
  }

  /** firstDayOfWeek: the Monday at or before `now`. */
  function WeekStart(now: int): (m: int)
    ensures now - 6 <= m <= now
    ensures DayOfWeek(m) == Monday
  {
    var w := DayOfWeek(now);
    var off := DiffToMonday(w);
    ShiftWeekday(now, off);
    now + off
  }

  /** Shifting a day by `off` shifts its weekday by `off`, modulo 7. */
  lemma ShiftWeekday(day: int, off: int)
    ensures DayOfWeek(day + off) == (DayOfWeek(day) + off) % 7
  {
    var a := day - StartDay + StartWeekday;
    var q := a / 7;
    assert a == 7 * q + a % 7;
    assert a + off == 7 * q + (a % 7 + off);
    ModShift(q, a % 7 + off);
  }

  lemma ModShift(q: int, x: int)
    ensures (7 * q + x) % 7 == x % 7
  {
  }

  /** The week start is the only Monday among the seven days ending at `now`. */
  lemma {:induction false} WeekStartUnique(now: int, m: int)
    requires now - 6 <= m <= now
    requires DayOfWeek(m) == Monday
    ensures m == WeekStart(now)
  {
    var s := WeekStart(now);
    if m != s {
      var lo, hi := if m < s then m else s, if m < s then s else m;
      ShiftWeekday(lo, hi - lo);
      assert false;
    }
  }

  /** A civil date as the JavaScript Date getters report it: `month` is 0-based. */
  datatype CivilDate = CivilDate(year: int, month: int, date: int)

  /** Converts a day index to its proleptic Gregorian calendar date. Days
      are counted from 1 March of year 0, so that a leap day is the last day
      of its year, and split into 400-year eras of 146097 days. */
  function Civil(day: int): CivilDate
  {
    var z := day - StartDay + UnixDayOfStart + 719468;
    CivilInEra(z / 146097, z % 146097)
  }

  /** The date `doe` days into the 400-year era `era`. An era has three
      centuries of 36524 days and a last one of 36525; a century has
      4-year cycles of 1461 days (the last cycle of a short century is a
      day shorter); a cycle has three years of 365 days and a last one of
      366. */
  function CivilInEra(era: int, doe: int): (c: CivilDate)
    requires 0 <= doe < 146097
    ensures 0 <= c.month < 12 && 1 <= c.date <= 31
  {
    var century := if doe / 36524 < 4 then doe / 36524 else 3;
    var doc := doe - 36524 * century;
    var cycle := doc / 1461;
    var doq := doc - 1461 * cycle;
    var y := if doq / 365 < 4 then doq / 365 else 3;
    CivilInYear(era * 400 + 100 * century + 4 * cycle + y, doq - 365 * y)
  }

  /** The date `doy` days after 1 March of the March-based year `y`. */
  function CivilInYear(y: int, doy: int): (c: CivilDate)
    requires 0 <= doy <= 365
    ensures 0 <= c.month < 12 && 1 <= c.date <= 31
  {
    var mp := (5 * doy + 2) / 153;
    var m := if mp < 10 then mp + 3 else mp - 9;
    CivilDate(y + (if m <= 2 then 1 else 0), m - 1, doy - (153 * mp + 2) / 5 + 1)
  }

  /** Every day has a month 0..11 and a day of the month 1..31. */
  lemma CivilInRange(day: int)
    ensures 0 <= Month(day) < 12
    ensures 1 <= Civil(day).date <= 31
  {
    var z := day - StartDay + UnixDayOfStart + 719468;
    assert Civil(day) == CivilInEra(z / 146097, z % 146097);
  }

  /** The Gregorian calendar repeats every 400 years, that is every 146097 days. */
  lemma CivilPeriodic(day: int)
    ensures Civil(day + 146097) == Civil(day).(year := Civil(day).year + 400)
  {
    var z := day - StartDay + UnixDayOfStart + 719468;
    var era, doe := z / 146097, z % 146097;
    EraOfNextEra(z);
    assert Civil(day + 146097) == CivilInEra(era + 1, doe);
    EraShift(era, doe);
  }

  lemma EraOfNextEra(z: int)
    ensures (z + 146097) / 146097 == z / 146097 + 1
    ensures (z + 146097) % 146097 == z % 146097
  {
    var k := (z + 146097) / 146097;
    assert 146097 * (k - z / 146097 - 1) == z % 146097 - (z + 146097) % 146097;
  }

  lemma EraShift(era: int, doe: int)
    requires 0 <= doe < 146097
    ensures CivilInEra(era + 1, doe) == CivilInEra(era, doe).(year := CivilInEra(era, doe).year + 400)
  {
  }

  /** getMonth (0-based) of a day. */
  function Month(day: int): int
  {
    Civil(day).month
  }

  /** getFullYear of a day. */
  function Year(day: int): int
  {
    Civil(day).year
  }

  /** The configured start date is 19 January 2026. */
  lemma StartDateIsJanuary19()
    ensures Civil(StartDay) == CivilDate(2026, 0, 19)
  {
    var z := StartDay + UnixDayOfStart + 719468;
    assert z / 146097 == 5 && z % 146097 == 9455;
    assert CivilInEra(5, 9455) == CivilInYear(2025, 324);
  }

  /** February 2026 begins 13 days after the start date. */
  lemma FebruaryBeginsOnDay13()
    ensures Civil(StartDay + 13) == CivilDate(2026, 1, 1)
  {
    var z := StartDay + UnixDayOfStart + 719468 + 13;
    assert z / 146097 == 5 && z % 146097 == 9468;
    assert CivilInEra(5, 9468) == CivilInYear(2025, 337);
  }

  /** The year 2027 begins 347 days after the start date. */
  lemma Year2027BeginsOnDay347()
    ensures Civil(StartDay + 347) == CivilDate(2027, 0, 1)
  {
    var z := StartDay + UnixDayOfStart + 719468 + 347;
    assert z / 146097 == 5 && z % 146097 == 9802;
    assert CivilInEra(5, 9802) == CivilInYear(2026, 306);
  }
}
