/** The reading of a time value that the source gets from JavaScript's `Date`:
    local midnight (`setHours(0, 0, 0, 0)`), the calendar date (`getFullYear`,
    `getMonth`, `getDate`) and the clock time (`getHours`, `getMinutes`).
    Time values are local wall-clock milliseconds since 1970-01-01 00:00 in the
    proleptic Gregorian calendar, as `Date` counts them. */
module Calendar {

  const MsPerMinute := 60000
  const MsPerHour := 3600000
  const MsPerDay := 86400000

  /** A calendar date as the three getters give it: `month0` is 0-based. */
  datatype CivilDate = CivilDate(year: int, month0: int, day: int)

  /** The local day holding time value `t`; day 0 is 1970-01-01. */
  function DayNumber(t: int): int
  {
    t / MsPerDay
  }

  /** Local midnight at the start of `t`'s day. */
  function StartOfDay(t: int): (m: int)
    ensures m <= t < m + MsPerDay
    ensures m % MsPerDay == 0
  {
    DayNumber(t) * MsPerDay
  }

  /** Midnight is the only multiple of a day in the last 24 hours up to `t`. */
  lemma StartOfDayUnique(t: int, m: int)
    requires m % MsPerDay == 0 && m <= t < m + MsPerDay
    ensures m == StartOfDay(t)
  {
    var s := StartOfDay(t);
    assert m == (m / MsPerDay) * MsPerDay;
    assert s == (s / MsPerDay) * MsPerDay;
    assert -MsPerDay < m - s < MsPerDay;
    assert m / MsPerDay == s / MsPerDay;
  }

  /** A time value shares `u`'s midnight exactly when it lies between that midnight
      and the next. */
  lemma SameStartIffWithinDay(t: int, u: int)
    ensures StartOfDay(t) == StartOfDay(u) <==> StartOfDay(u) <= t < StartOfDay(u) + MsPerDay
  {
    if StartOfDay(u) <= t < StartOfDay(u) + MsPerDay {
      StartOfDayUnique(t, StartOfDay(u));
    }
  }

  /** Two time values lie on the same local day exactly when their midnights agree. */
  lemma SameDayNumberIffSameStart(t1: int, t2: int)
    ensures DayNumber(t1) == DayNumber(t2) <==> StartOfDay(t1) == StartOfDay(t2)
  {
  }

  /** The calendar date of day number `days` (Gregorian, day 0 = 1970-01-01),
      counted in 400-year eras of 146097 days that start on 1 March. */
  function CivilFromDays(days: int): (c: CivilDate)
    ensures 0 <= c.month0 <= 11 && 1 <= c.day <= 31
  {
    var z := days + 719468;
    var era := z / 146097;
    var doe := z % 146097;
    var yoe := (doe - doe / 1460 + doe / 36524 - doe / 146096) / 365;
    var doy := doe - (365 * yoe + yoe / 4 - yoe / 100);
    var mp := (5 * doy + 2) / 153;
    var d := doy - (153 * mp + 2) / 5 + 1;
    var m := if mp < 10 then mp + 3 else mp - 9;
    var y := yoe + era * 400;
    YearOfEraBounds(doe);
    MonthOfYearBounds(doy);
    CivilDate(if m <= 2 then y + 1 else y, m - 1, d)
  }

  /** The day number of a calendar date: the inverse of CivilFromDays. */
  function DaysFromCivil(c: CivilDate): int
  {
    var m := c.month0 + 1;
    var y := if m <= 2 then c.year - 1 else c.year;
    var era := y / 400;
    var yoe := y % 400;
    var mp := if m > 2 then m - 3 else m + 9;
    var doy := (153 * mp + 2) / 5 + c.day - 1;
    var doe := 365 * yoe + yoe / 4 - yoe / 100 + doy;
    era * 146097 + doe - 719468
  }

  /** Within an era, the year (from 1 March) is below 400 and the day of that year below 366. */
  lemma YearOfEraBounds(doe: int)
    requires 0 <= doe < 146097
    ensures var yoe := (doe - doe / 1460 + doe / 36524 - doe / 146096) / 365;
      0 <= yoe <= 399 && 0 <= doe - (365 * yoe + yoe / 4 - yoe / 100) <= 365
  {
    var a, b, c := doe / 1460, doe / 36524, doe / 146096;
    var yoe := (doe - a + b - c) / 365;
    if doe == 146096 {
      // the extra leap day at the end of the era
      assert a == 100 && b == 4 && c == 1;
      assert yoe == 399;
    } else {
      assert c == 0;
      var q := YearInCentury(doe, a, b, yoe);
      assert yoe / 100 == b;
      assert yoe / 4 == q;
    }
  }

  /**
   * The division-free core of YearOfEraBounds for a day before the era's last one:
   * a, b and yoe are the quotients doe / 1460, doe / 36524 and (doe - a + b) / 365,
   * given by their defining bounds; q is yoe / 4, likewise.
   */
  lemma YearInCentury(doe: int, a: int, b: int, yoe: int) returns (q: int)
    requires 0 <= doe < 146096
    requires 1460 * a <= doe < 1460 * a + 1460
    requires 36524 * b <= doe < 36524 * b + 36524
    requires 365 * yoe <= doe - a + b < 365 * yoe + 365
    ensures 100 * b <= yoe < 100 * b + 100 && 0 <= yoe <= 399
    ensures 4 * q <= yoe < 4 * q + 4
    ensures 0 <= doe - (365 * yoe + q - b) <= 365
  {
    assert 0 <= b <= 3;
    // doc: day of the century; ap: 1460-day block inside it; h: offset in that block
    var doc := doe - 36524 * b;
    var ap := a - 25 * b;
    var h := doc - 1461 * ap;
    assert 0 <= doc + 24 * b - 1460 * ap < 1460;
    assert 0 <= ap <= 25;
    assert -97 <= h < 1460;
    // z: year of the century; w: year inside the block (-1 for the block's leap day)
    var z := yoe - 100 * b;
    var w := z - 4 * ap;
    assert 365 * w <= h < 365 * w + 365;
    assert -1 <= w <= 3;
    assert w == -1 ==> ap >= 1;
    assert ap == 25 ==> w == -1;
    q := 25 * b + ap + (if w == -1 then -1 else 0);
  }

  /** A day of the year from 1 March maps to a month offset 0..11 and a day 1..31. */
  lemma MonthOfYearBounds(doy: int)
    requires 0 <= doy <= 365
    ensures var mp := (5 * doy + 2) / 153;
      0 <= mp <= 11 && 1 <= doy - (153 * mp + 2) / 5 + 1 <= 31
  {
  }

  lemma DivMod400(y: int, q: int, r: int)
    requires y == q * 400 + r && 0 <= r < 400
    ensures y / 400 == q && y % 400 == r
  {
  }

  /** Reading the date of a day and counting back gives the same day. */
  lemma DaysFromCivilFromDays(days: int)
    ensures DaysFromCivil(CivilFromDays(days)) == days
  {
    var z := days + 719468;
    var era := z / 146097;
    var doe := z % 146097;
    assert z == era * 146097 + doe;
    YearOfEraBounds(doe);
    var yoe := (doe - doe / 1460 + doe / 36524 - doe / 146096) / 365;
    var doy := doe - (365 * yoe + yoe / 4 - yoe / 100);
    MonthOfYearBounds(doy);
    var mp := (5 * doy + 2) / 153;
    var y := yoe + era * 400;
    DivMod400(y, era, yoe);
    var c := CivilFromDays(days);
    var m := c.month0 + 1;
    assert m == (if mp < 10 then mp + 3 else mp - 9);
    assert (if m <= 2 then c.year - 1 else c.year) == y;
    assert (if m > 2 then m - 3 else m + 9) == mp;
    assert (153 * mp + 2) / 5 + c.day - 1 == doy;
  }

  /** Distinct days have distinct calendar dates. */
  lemma CivilFromDaysInjective(d1: int, d2: int)
    ensures CivilFromDays(d1) == CivilFromDays(d2) <==> d1 == d2
  {
    DaysFromCivilFromDays(d1);
    DaysFromCivilFromDays(d2);
  }

  /** `getFullYear`, `getMonth` and `getDate` of time value `t`: the calendar date
      that counts back to `t`'s day. */
  function Civil(t: int): (c: CivilDate)
    ensures 0 <= c.month0 <= 11 && 1 <= c.day <= 31
    ensures DaysFromCivil(c) == DayNumber(t)
  {
    DaysFromCivilFromDays(DayNumber(t));
    CivilFromDays(DayNumber(t))
  }

  /** `getHours` of time value `t`. */
  function Hours(t: int): (h: int)
    ensures 0 <= h < 24
  {
    (t % MsPerDay) / MsPerHour
  }

  /** `getMinutes` of time value `t`. */
  function Minutes(t: int): (m: int)
    ensures 0 <= m < 60
  {
    (t % MsPerHour) / MsPerMinute
  }

  /** Two time values have the same year, month and day exactly when they
      share the same local midnight. */
  lemma SameCivilIffSameStart(t1: int, t2: int)
    ensures Civil(t1) == Civil(t2) <==> StartOfDay(t1) == StartOfDay(t2)
  {
    CivilFromDaysInjective(DayNumber(t1), DayNumber(t2));
    SameDayNumberIffSameStart(t1, t2);
  }

  /** In particular the date stays the same from one midnight up to the next. */
  lemma CivilConstantOverDay(t1: int, t2: int)
    requires StartOfDay(t1) <= t2 < StartOfDay(t1) + MsPerDay
    ensures Civil(t1) == Civil(t2)
  {
    StartOfDayUnique(t2, StartOfDay(t1));
    SameCivilIffSameStart(t1, t2);
  }
}
