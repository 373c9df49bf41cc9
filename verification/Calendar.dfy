/** The proleptic Gregorian calendar of section 21.4.1 of ECMA-262, on day numbers counted from
    1970-01-01. Months are numbered from 0, days of the month from 1. */
module Calendar {

  datatype Civil = Civil(year: int, month: int, day: int)

  // ---------- the calendar as people count it ----------

  predicate Leap(y: int) { y % 4 == 0 && (y % 100 != 0 || y % 400 == 0) }

  function DaysInYear(y: int): int { if Leap(y) then 366 else 365 }

  function DaysInMonth(y: int, m: int): int
    requires 0 <= m < 12
  {
    if m == 1 then (if Leap(y) then 29 else 28)
    else if m == 3 || m == 5 || m == 8 || m == 10 then 30
    else 31
  }

  predicate Valid(c: Civil) { 0 <= c.month < 12 && 1 <= c.day <= DaysInMonth(c.year, c.month) }

  function Tomorrow(c: Civil): Civil
    requires Valid(c)
  {
    if c.day < DaysInMonth(c.year, c.month) then c.(day := c.day + 1)
    else if c.month < 11 then Civil(c.year, c.month + 1, 1)
    else Civil(c.year + 1, 0, 1)
  }

  // ---------- the calendar as ECMA-262 computes it ----------

  /** The day number of January 1. */
  function DayFromYear(y: int): int {
    365 * (y - 1970) + (y - 1969) / 4 - (y - 1901) / 100 + (y - 1601) / 400
  }

  /** Days of the year before month `m`. */
  function DaysBefore(y: int, m: int): int
    requires 0 <= m <= 12
  {
    var leap := if Leap(y) then 1 else 0;
    match m
    case 0 => 0
    case 1 => 31
    case 2 => 59 + leap
    case 3 => 90 + leap
    case 4 => 120 + leap
    case 5 => 151 + leap
    case 6 => 181 + leap
    case 7 => 212 + leap
    case 8 => 243 + leap
    case 9 => 273 + leap
    case 10 => 304 + leap
    case 11 => 334 + leap
    case _ => 365 + leap
  }

  lemma FourthYears(y: int)
    ensures (y - 1968) / 4 == (y - 1969) / 4 + if y % 4 == 0 then 1 else 0
  {
  }

  lemma HundredthYears(y: int)
    ensures (y - 1900) / 100 == (y - 1901) / 100 + if (y - 1900) % 100 == 0 then 1 else 0
  {
  }

  lemma FourHundredthYears(y: int)
    ensures (y - 1600) / 400 == (y - 1601) / 400 + if (y - 1600) % 400 == 0 then 1 else 0
  {
  }

  lemma Centuries(y: int)
    ensures (y - 1900) % 100 == y % 100
    ensures y % 100 == 0 ==> y % 4 == 0
  {
  }

  lemma GreatCycles(y: int)
    ensures (y - 1600) % 400 == y % 400
    ensures y % 400 == 0 ==> y % 100 == 0
  {
  }

  lemma YearLength(y: int)
    ensures DayFromYear(y + 1) == DayFromYear(y) + DaysInYear(y)
  {
    FourthYears(y);
    HundredthYears(y);
    FourHundredthYears(y);
    Centuries(y);
    GreatCycles(y);
    assert DayFromYear(y + 1) == 365 * (y - 1969) + (y - 1968) / 4 - (y - 1900) / 100 + (y - 1600) / 400;
  }

  lemma MonthLength(y: int, m: int)
    requires 0 <= m < 12
    ensures DaysBefore(y, m + 1) == DaysBefore(y, m) + DaysInMonth(y, m)
  {
  }

  /** `YearFromTime`: the largest year that starts no later than the day. */
  function YearFrom(d: int, guess: int): (y: int)
    ensures DayFromYear(y) <= d < DayFromYear(y + 1)
    decreases if d < DayFromYear(guess) then DayFromYear(guess) - d else d - DayFromYear(guess)
  {
    hide DayFromYear, Leap;
    YearLength(guess);
    YearLength(guess - 1);
    if d < DayFromYear(guess) then
      if DayFromYear(guess - 1) <= d then guess - 1 else YearFrom(d, guess - 1)
    else if DayFromYear(guess + 1) <= d then YearFrom(d, guess + 1)
    else guess
  }

  function YearOf(d: int): (y: int)
    ensures DayFromYear(y) <= d < DayFromYear(y + 1)
  {
    YearFrom(d, 1970)
  }

  lemma {:induction false} YearsIncrease(y: int, z: int)
    requires y <= z
    ensures DayFromYear(y) + 365 * (z - y) <= DayFromYear(z)
    decreases z - y
  {
    if y < z {
      YearsIncrease(y, z - 1);
      YearLength(z - 1);
    }
  }

  lemma EpochYear()
    ensures DayFromYear(1970) == 0
  {
  }

  lemma YearUnique(d: int, y: int)
    requires DayFromYear(y) <= d < DayFromYear(y + 1)
    ensures YearOf(d) == y
  {
    var z := YearOf(d);
    if y < z { YearsIncrease(y + 1, z); }
    if z < y { YearsIncrease(z + 1, y); }
  }

  /** `MonthFromTime`, searching down the table. */
  function MonthFrom(y: int, dayInYear: int, guess: int): (m: int)
    requires 0 <= guess < 12 && 0 <= dayInYear < DaysBefore(y, guess + 1)
    ensures 0 <= m < 12 && DaysBefore(y, m) <= dayInYear < DaysBefore(y, m + 1)
    decreases guess
  {
    if DaysBefore(y, guess) <= dayInYear then guess else MonthFrom(y, dayInYear, guess - 1)
  }

  function CivilOf(d: int): (c: Civil)
    ensures Valid(c)
  {
    var y := YearOf(d);
    YearLength(y);
    var dayInYear := d - DayFromYear(y);
    var m := MonthFrom(y, dayInYear, 11);
    MonthLength(y, m);
    Civil(y, m, dayInYear - DaysBefore(y, m) + 1)
  }

  /** `MakeDay`: months and days outside their range carry over. */
  function MakeDay(year: int, month: int, day: int): int {
    var ym, mn := year + month / 12, month % 12;
    DayFromYear(ym) + DaysBefore(ym, mn) + day - 1
  }

  lemma {:induction false} MonthsIncrease(y: int, m: int, n: int)
    requires 0 <= m <= n <= 12
    ensures DaysBefore(y, m) <= DaysBefore(y, n)
    decreases n - m
  {
    if m < n { MonthsIncrease(y, m, n - 1); }
  }

  /** Every day number is the day number of its date... */
  lemma DayOfDate(d: int)
    ensures var c := CivilOf(d); MakeDay(c.year, c.month, c.day) == d
  {
    hide DayFromYear, DaysBefore, Leap;
  }

  lemma WithinYear(c: Civil)
    requires Valid(c)
    ensures var within := DaysBefore(c.year, c.month) + c.day - 1;
            0 <= within < DaysInYear(c.year) && MonthFrom(c.year, within, 11) == c.month
  {
    hide Leap;
    var within := DaysBefore(c.year, c.month) + c.day - 1;
    MonthLength(c.year, c.month);
    MonthsIncrease(c.year, 0, c.month);
    MonthsIncrease(c.year, c.month + 1, 12);
    var m := MonthFrom(c.year, within, 11);
    hide DaysBefore, MonthFrom;
    if m < c.month { MonthsIncrease(c.year, m + 1, c.month); }
    if c.month < m { MonthsIncrease(c.year, c.month + 1, m); }
  }

  /** ...and every date is the date of its day number. */
  lemma DateOfDay(c: Civil)
    requires Valid(c)
    ensures CivilOf(MakeDay(c.year, c.month, c.day)) == c
  {
    hide DayFromYear, Leap, DaysBefore, MonthFrom, YearOf, DaysInYear;
    var d := MakeDay(c.year, c.month, c.day);
    WithinYear(c);
    YearLength(c.year);
    YearUnique(d, c.year);
  }

  lemma Epoch()
    ensures CivilOf(0) == Civil(1970, 0, 1)
  {
    DateOfDay(Civil(1970, 0, 1));
    hide CivilOf;
  }

  /** The computed calendar is the counted one: day 0 is 1970-01-01, and each next day is tomorrow. */
  lemma NextDayIsTomorrow(d: int)
    ensures CivilOf(0) == Civil(1970, 0, 1)
    ensures CivilOf(d + 1) == Tomorrow(CivilOf(d))
  {
    Epoch();
    hide DayFromYear, Leap, CivilOf;
    var c := CivilOf(d);
    DayOfDate(d);
    var t := Tomorrow(c);
    MonthLength(c.year, c.month);
    YearLength(c.year);
    DateOfDay(t);
  }
}
