/**
 * The proleptic Gregorian calendar over day numbers (day 0 is 1970-01-01).
 * The SQL `date_trunc`, `CURRENT_DATE - INTERVAL` and JavaScript date-string
 * conversions the model needs are stated in these terms.
 */
module Calendar {
  import Text

  datatype Civil = Civil(year: int, month: int, day: int)

  /** The civil date of a day number (days-from-civil inverted, era arithmetic). */
  function CivilFromDays(days: int): Civil
  {
    var z := days + 719468;
    var era := z / 146097;
    var doe := z - era * 146097;
    var yoe := (doe - doe / 1460 + doe / 36524 - doe / 146096) / 365;
    var doy := doe - (365 * yoe + yoe / 4 - yoe / 100);
    var mp := (5 * doy + 2) / 153;
    var d := doy - (153 * mp + 2) / 5 + 1;
    var m := if mp < 10 then mp + 3 else mp - 9;
    var y := yoe + era * 400 + (if m <= 2 then 1 else 0);
    Civil(y, m, d)
  }

  /** A month counted from year 0: later months have larger keys. */
  function MonthKey(days: int): int
  {
    var c := CivilFromDays(days);
    c.year * 12 + (c.month - 1)
  }

  /** `date_trunc('month', d)`: the first day of the month of `d`. */
  function MonthStart(days: int): int
  {
    days - (CivilFromDays(days).day - 1)
  }

  /** `date_trunc('week', d)`: the Monday on or before `d` (day 0 is a Thursday). */
  function WeekStart(days: int): (r: int)
    ensures r <= days < r + 7
  {
    days - (days + 3) % 7
  }

  /** The `YYYY-MM-DD` text of a date, as `toISOString().split('T')[0]` gives it. */
  function IsoDate(days: int): string
  {
    var c := CivilFromDays(days);
    Text.PadStart(Text.IntToString(c.year), 4, '0') + "-"
      + Text.PadStart(Text.IntToString(c.month), 2, '0') + "-"
      + Text.PadStart(Text.IntToString(c.day), 2, '0')
  }

  predicate IsLeapYear(y: int)
  {
    y % 4 == 0 && (y % 100 != 0 || y % 400 == 0)
  }

  function DaysInMonth(y: int, m: int): (n: int)
    ensures 28 <= n <= 31
  {
    if m == 2 then (if IsLeapYear(y) then 29 else 28)
    else if m == 4 || m == 6 || m == 9 || m == 11 then 30
    else 31
  }

  /** The day number of a civil date (days-from-civil, the inverse of `CivilFromDays`). */
  function DaysFromCivil(y: int, m: int, d: int): int
  {
    var y' := if m <= 2 then y - 1 else y;
    var era := y' / 400;
    var yoe := y' - era * 400;
    var mp := if m > 2 then m - 3 else m + 9;
    var doy := (153 * mp + 2) / 5 + d - 1;
    var doe := yoe * 365 + yoe / 4 - yoe / 100 + doy;
    era * 146097 + doe - 719468
  }

  /**
   * `d - INTERVAL 'n months'` as PostgreSQL computes it: the same day of the
   * month `n` months earlier, or that month's last day when it is shorter.
   */
  function MonthsBack(days: int, n: nat): int
  {
    var c := CivilFromDays(days);
    var k := c.year * 12 + (c.month - 1) - n;
    var y := k / 12;
    var m := k % 12 + 1;
    DaysFromCivil(y, m, if c.day <= DaysInMonth(y, m) then c.day else DaysInMonth(y, m))
  }

  /** 2026-08-31 less six months is 2026-02-28: the day is clamped to February's end. */
  lemma MonthsBackClamps()
    ensures CivilFromDays(20696) == Civil(2026, 8, 31)
    ensures MonthsBack(20696, 6) == 20512 && CivilFromDays(20512) == Civil(2026, 2, 28)
  {
    August31();
    February28();
    assert 24313 / 12 == 2026 && 24313 % 12 == 1 && 2026 % 4 == 2;
    assert DaysInMonth(2026, 2) == 28;
    assert 2025 / 400 == 5 && 25 / 4 == 6 && 25 / 100 == 0 && 1685 / 5 == 337;
  }

  lemma August31()
    ensures CivilFromDays(20696) == Civil(2026, 8, 31)
  {
    assert 740164 / 146097 == 5 && 9679 / 1460 == 6 && 9679 / 36524 == 0 && 9679 / 146096 == 0;
    assert 9673 / 365 == 26 && 26 / 4 == 6 && 26 / 100 == 0 && 917 / 153 == 5 && 767 / 5 == 153;
  }

  lemma February28()
    ensures CivilFromDays(20512) == Civil(2026, 2, 28)
  {
    assert 739980 / 146097 == 5 && 9495 / 1460 == 6 && 9495 / 36524 == 0 && 9495 / 146096 == 0;
    assert 9489 / 365 == 25 && 25 / 4 == 6 && 25 / 100 == 0 && 1822 / 153 == 11 && 1685 / 5 == 337;
  }

  /** 2026-10-17 less six months is 2026-04-17. */
  lemma MonthsBackKeepsDay()
    ensures CivilFromDays(20743) == Civil(2026, 10, 17)
    ensures MonthsBack(20743, 6) == 20560 && CivilFromDays(20560) == Civil(2026, 4, 17)
  {
    October17();
    April17();
    assert 24315 / 12 == 2026 && 24315 % 12 == 3;
    assert 2026 / 400 == 5 && 26 / 4 == 6 && 26 / 100 == 0 && 155 / 5 == 31;
  }

  lemma October17()
    ensures CivilFromDays(20743) == Civil(2026, 10, 17)
  {
    assert 740211 / 146097 == 5 && 9726 / 1460 == 6 && 9726 / 36524 == 0 && 9726 / 146096 == 0;
    assert 9720 / 365 == 26 && 26 / 4 == 6 && 26 / 100 == 0 && 1152 / 153 == 7 && 1073 / 5 == 214;
  }

  lemma April17()
    ensures CivilFromDays(20560) == Civil(2026, 4, 17)
  {
    assert 740028 / 146097 == 5 && 9543 / 1460 == 6 && 9543 / 36524 == 0 && 9543 / 146096 == 0;
    assert 9537 / 365 == 26 && 26 / 4 == 6 && 26 / 100 == 0 && 237 / 153 == 1 && 155 / 5 == 31;
  }
}
