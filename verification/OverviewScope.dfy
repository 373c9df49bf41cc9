/** Comparison windows of the admin overview: the period so far, and the same stretch of the period
    before it. Instants are milliseconds from the epoch. */
module OverviewScope {
  import opened Options
  import opened Calendar

  const MS_PER_DAY := 86400000
  /** The largest time value of section 21.4.1 of ECMA-262. */
  const MAX_TIME := 8640000000000000

  type TimeValue = t: int | -MAX_TIME <= t <= MAX_TIME

  datatype Window = Window(start: int, end: int)
  datatype Scope = Scope(period: string, current: Window, previous: Window, comparable: bool)
  datatype ScopeResult = Ok(scope: Scope) | InvalidPeriod | InvalidTime

  predicate Known(period: string) { period == "today" || period == "mtd" || period == "ytd" }

  function DayOf(t: int): int { t / MS_PER_DAY }

  /** `Date.UTC`: a year from 0 to 99 stands for one of the twentieth century, and a value outside the
      range of times is not a time. */
  function DateUtc(y: int, m: int, d: int): Option<int> {
    Midnight(MakeDay(FullYear(y), m, d))
  }

  function FullYear(y: int): int { if 0 <= y <= 99 then 1900 + y else y }

  function Midnight(day: int): Option<int> {
    var t := day * MS_PER_DAY;
    if -MAX_TIME <= t <= MAX_TIME then Some(t) else None
  }

  function PeriodStart(period: string, c: Civil): Option<int> {
    if period == "today" then DateUtc(c.year, c.month, c.day)
    else if period == "mtd" then DateUtc(c.year, c.month, 1)
    else DateUtc(c.year, 0, 1)
  }

  function PreviousStart(period: string, c: Civil): Option<int> {
    if period == "today" then DateUtc(c.year, c.month, c.day - 1)
    else if period == "mtd" then DateUtc(c.year, c.month - 1, 1)
    else DateUtc(c.year - 1, 0, 1)
  }

  /** `overviewScope`; `now` is absent for an invalid date. Writing out a window that has no time fails. */
  function OverviewScope(period: string, now: Option<TimeValue>): ScopeResult {
    if !Known(period) || now.None? then InvalidPeriod
    else
      var c := CivilOf(DayOf(now.value));
      match (PeriodStart(period, c), PreviousStart(period, c))
      case (Some(start), Some(previousStart)) =>
        var elapsed := now.value - start;
        var previousEnd := if previousStart + elapsed < start then previousStart + elapsed else start;
        Ok(Scope(period, Window(start, now.value), Window(previousStart, previousEnd), previousEnd - previousStart == elapsed))
      case _ => InvalidTime
  }

  // ---------- what the windows should be ----------

  /** Length in days of the calendar period before the one that holds the date. */
  function PreviousDays(period: string, c: Civil): int
    requires Valid(c)
  {
    if period == "today" then 1
    else if period == "mtd" then (if c.month == 0 then 31 else DaysInMonth(c.year, c.month - 1))
    else DaysInYear(c.year - 1)
  }

  /** The first date of the period that holds the date. */
  function FirstDate(period: string, c: Civil): Civil {
    if period == "today" then c else if period == "mtd" then Civil(c.year, c.month, 1) else Civil(c.year, 0, 1)
  }

  /** The windows are right: the current one runs from the first midnight of the period to now, and the
      previous one from the start of the calendar period before it for as long, or for all of that period. */
  ghost predicate Right(s: Scope, now: int) {
    var c := CivilOf(DayOf(now));
    var length := PreviousDays(s.period, c) * MS_PER_DAY;
    && s.current.end == now && s.current.start <= now && s.current.start % MS_PER_DAY == 0
    && CivilOf(DayOf(s.current.start)) == FirstDate(s.period, c)
    && s.previous.start + length == s.current.start
    && s.previous.end == s.previous.start + (if now - s.current.start < length then now - s.current.start else length)
    && (s.comparable <==> now - s.current.start <= length)
  }

  /** Years that `Date.UTC` misreads here: two-digit years, and 100 where the year before is asked for. */
  predicate Misread(period: string, year: int) { 0 <= year <= 99 || (period == "ytd" && year == 100) }

  lemma DayBounds(t: int)
    ensures DayOf(t) * MS_PER_DAY <= t < DayOf(t) * MS_PER_DAY + MS_PER_DAY
  {
  }

  lemma MidnightDay(d: int)
    ensures DayOf(d * MS_PER_DAY) == d && (d * MS_PER_DAY) % MS_PER_DAY == 0
  {
  }

  lemma FirstDateDay(period: string, d: int)
    ensures var f := FirstDate(period, CivilOf(d)); Valid(f) && MakeDay(f.year, f.month, f.day) <= d
  {
    DayOfDate(d);
    var c := CivilOf(d);
    hide DayFromYear, CivilOf, Leap;
    MonthsIncrease(c.year, 0, c.month);
  }

  /** The days between the two starts are those of the previous period. */
  lemma PreviousPeriod(period: string, c: Civil)
    requires Known(period) && Valid(c)
    ensures var f := FirstDate(period, c);
            var p := if period == "today" then MakeDay(c.year, c.month, c.day - 1)
                     else if period == "mtd" then MakeDay(c.year, c.month - 1, 1) else MakeDay(c.year - 1, 0, 1);
            p + PreviousDays(period, c) == MakeDay(f.year, f.month, f.day)
  {
    hide DayFromYear, Leap;
    YearLength(c.year - 1);
    if c.month > 0 { MonthLength(c.year, c.month - 1); }
  }

  /** The day the period starts on. */
  function FirstDay(period: string, c: Civil): int {
    var f := FirstDate(period, c);
    MakeDay(f.year, f.month, f.day)
  }

  lemma StartsRight(period: string, c: Civil)
    requires Known(period) && Valid(c) && !Misread(period, c.year)
    ensures PeriodStart(period, c) == Midnight(FirstDay(period, c))
    ensures PreviousStart(period, c) == Midnight(FirstDay(period, c) - PreviousDays(period, c))
  {
    hide MakeDay, Midnight, PreviousDays, DaysInMonth;
    PreviousPeriod(period, c);
  }

  /** Where the years are read as they are, the windows are right. */
  lemma ReadRight(period: string, now: TimeValue)
    requires OverviewScope(period, Some(now)).Ok? && !Misread(period, CivilOf(DayOf(now)).year)
    ensures Right(OverviewScope(period, Some(now)).scope, now)
  {
    hide CivilOf, MakeDay, DayOf, PreviousDays, PeriodStart, PreviousStart, FirstDate;
    var d := DayOf(now);
    var c := CivilOf(d);
    FirstDateDay(period, d);
    StartsRight(period, c);
    DayBounds(now);
    MidnightDay(FirstDay(period, c));
    DateOfDay(FirstDate(period, c));
  }

  /** The twentieth century lies after every year up to 100. */
  lemma EarlyYears(y: int, m: int, d: int)
    requires 0 <= m < 12 && d >= 0 && 1900 <= y
    ensures DayFromYear(101) < MakeDay(y, m, d)
  {
    YearsIncrease(1900, y);
    hide Leap;
  }

  lemma StartsWrong(period: string, c: Civil)
    requires Known(period) && Valid(c) && Misread(period, c.year)
    ensures exists day :: DayFromYear(101) < day
              && (if c.year <= 99 then PeriodStart(period, c) else PreviousStart(period, c)) == Midnight(day)
  {
    hide DayFromYear, MakeDay, Midnight, Leap;
    var f := if c.year <= 99 then FirstDate(period, c) else Civil(c.year - 1, 0, 1);
    var day := MakeDay(1900 + f.year, f.month, f.day);
    EarlyYears(1900 + f.year, f.month, f.day);
    assert (if c.year <= 99 then PeriodStart(period, c) else PreviousStart(period, c)) == Midnight(day);
  }

  lemma BeforeYear101(d: int)
    requires CivilOf(d).year <= 100
    ensures d < DayFromYear(101)
  {
    YearsIncrease(CivilOf(d).year + 1, 101);
    hide DayFromYear;
  }

  /** Where a year is misread they are not: a start lies in the twentieth century. */
  lemma ReadWrong(period: string, now: TimeValue)
    requires OverviewScope(period, Some(now)).Ok? && Misread(period, CivilOf(DayOf(now)).year)
    ensures !Right(OverviewScope(period, Some(now)).scope, now)
  {
    hide DayFromYear, CivilOf, DayOf, PeriodStart, PreviousStart, FirstDate, PreviousDays;
    var c := CivilOf(DayOf(now));
    DayBounds(now);
    BeforeYear101(DayOf(now));
    StartsWrong(period, c);
    PreviousBounded(period, c);
  }

  lemma NearDays(y: int, m: int, d: int)
    requires -2 <= y <= 2000 && -1 <= m < 12 && 0 <= d <= 31
    ensures -1000000 <= MakeDay(y, m, d) <= 1000000 && Midnight(MakeDay(y, m, d)).Some?
  {
    hide Leap;
    assert forall z :: -3 <= z <= 2000 ==> -1000000 + 400 <= DayFromYear(z) <= 1000000 - 400;
  }

  lemma MisreadStarts(period: string, c: Civil)
    requires Known(period) && Valid(c) && Misread(period, c.year)
    ensures PeriodStart(period, c).Some? && PreviousStart(period, c).Some?
  {
    hide MakeDay, Midnight;
    NearDays(FullYear(c.year), c.month, c.day);
    NearDays(FullYear(c.year), c.month, 1);
    NearDays(FullYear(c.year), 0, 1);
    NearDays(FullYear(c.year), c.month, c.day - 1);
    NearDays(FullYear(c.year), c.month - 1, 1);
    NearDays(FullYear(c.year - 1), 0, 1);
  }

  /** Every date in such a year gets that far: its midnight is a time, windows are computed, and they are
      wrong. */
  lemma MisreadHappens(period: string, c: Civil)
    requires Known(period) && Valid(c) && Misread(period, c.year)
    ensures var now := MakeDay(c.year, c.month, c.day) * MS_PER_DAY;
            && -MAX_TIME <= now <= MAX_TIME && CivilOf(DayOf(now)) == c
            && OverviewScope(period, Some(now)).Ok? && !Right(OverviewScope(period, Some(now)).scope, now)
  {
    var day := MakeDay(c.year, c.month, c.day);
    NearDays(c.year, c.month, c.day);
    hide MakeDay, CivilOf, DayOf, Right, PeriodStart, PreviousStart;
    MidnightDay(day);
    DateOfDay(c);
    MisreadStarts(period, c);
    ReadWrong(period, day * MS_PER_DAY);
  }

  /** June 15 of the year 50, at midnight. */
  lemma YearFiftyWrong()
    ensures OverviewScope("mtd", Some(-60575040000000)).Ok? && !Right(OverviewScope("mtd", Some(-60575040000000)).scope, -60575040000000)
    ensures CivilOf(DayOf(-60575040000000)) == Civil(50, 5, 15)
  {
    assert MakeDay(50, 5, 15) == -701100;
    hide MakeDay, OverviewScope, Right, CivilOf, DayOf;
    MisreadHappens("mtd", Civil(50, 5, 15));
  }

  /** The windows come out right exactly when no year is misread; from 1970 on, always. */
  lemma WindowsRight(period: string, now: TimeValue)
    requires OverviewScope(period, Some(now)).Ok?
    ensures var r := OverviewScope(period, Some(now)).scope;
            var year := CivilOf(DayOf(now)).year;
            && (Right(r, now) <==> !Misread(period, year))
            && (now >= 0 ==> !Misread(period, year))
  {
    if Misread(period, CivilOf(DayOf(now)).year) { ReadWrong(period, now); } else { ReadRight(period, now); }
    if now >= 0 { From1970(now); }
  }

  lemma From1970(now: int)
    requires now >= 0
    ensures CivilOf(DayOf(now)).year >= 1970
  {
    hide DayFromYear, Leap;
    var y := YearOf(DayOf(now));
    if y < 1970 { YearsIncrease(y + 1, 1970); }
    EpochYear();
  }

  /** Every instant from 1970 on has its windows, for each known period and no other. */
  lemma Succeeds(period: string, now: TimeValue)
    ensures OverviewScope(period, None) == InvalidPeriod
    ensures OverviewScope(period, Some(now)) == InvalidPeriod <==> !Known(period)
    ensures Known(period) && now >= 0 ==> OverviewScope(period, Some(now)).Ok?
  {
    hide CivilOf, MakeDay, DayOf, PreviousDays, PeriodStart, PreviousStart, FirstDate, DayFromYear;
    if Known(period) && now >= 0 {
      var d := DayOf(now);
      var c := CivilOf(d);
      From1970(now);
      FirstDateDay(period, d);
      FirstFrom1970(period, c);
      StartsRight(period, c);
      PreviousBounded(period, c);
      DayBounds(now);
    }
  }

  lemma FirstFrom1970(period: string, c: Civil)
    requires Valid(c) && c.year >= 1970
    ensures FirstDay(period, c) >= 0
  {
    hide DayFromYear, Leap;
    YearsIncrease(1970, c.year);
    EpochYear();
    MonthsIncrease(c.year, 0, c.month);
  }

  lemma PreviousBounded(period: string, c: Civil)
    requires Valid(c)
    ensures 1 <= PreviousDays(period, c) <= 366
  {
    hide Leap;
  }

  /** From 1970 on, the windows compare exactly when the period has run no longer than the one before. */
  lemma ComparableWhen(period: string, now: TimeValue)
    requires Known(period) && now >= 0
    ensures OverviewScope(period, Some(now)).Ok?
    ensures var c := CivilOf(DayOf(now));
            OverviewScope(period, Some(now)).scope.comparable <==>
            now - FirstDay(period, c) * MS_PER_DAY <= PreviousDays(period, c) * MS_PER_DAY
  {
    hide CivilOf, MakeDay, DayOf, PreviousDays, PeriodStart, PreviousStart, FirstDate;
    Succeeds(period, now);
    WindowsRight(period, now);
    StartsRight(period, CivilOf(DayOf(now)));
  }

  /** Today always compares like with like. */
  lemma TodayComparable(now: TimeValue)
    requires now >= 0
    ensures OverviewScope("today", Some(now)).Ok? && OverviewScope("today", Some(now)).scope.comparable
  {
    hide CivilOf, MakeDay, OverviewScope, DayOf;
    ComparableWhen("today", now);
    DayBounds(now);
    DayOfDate(DayOf(now));
  }

  /** The year to date fails to compare exactly after the first midnight of a leap year's last day. */
  lemma YearComparable(now: TimeValue)
    requires now >= 0
    ensures OverviewScope("ytd", Some(now)).Ok?
    ensures var c := CivilOf(DayOf(now));
            OverviewScope("ytd", Some(now)).scope.comparable <==>
            !(Leap(c.year) && c.month == 11 && c.day == 31 && now % MS_PER_DAY > 0)
  {
    var c := CivilOf(DayOf(now));
    ConsecutiveYears(c.year);
    hide CivilOf, MakeDay, OverviewScope, DayOf, Leap;
    ComparableWhen("ytd", now);
    DayOfDate(DayOf(now));
    YearElapsed(c);
    DayRemainder(now);
  }

  lemma ConsecutiveYears(y: int)
    ensures Leap(y) ==> !Leap(y - 1)
  {
  }

  lemma DayRemainder(t: int)
    ensures t == DayOf(t) * MS_PER_DAY + t % MS_PER_DAY
  {
  }

  lemma YearElapsed(c: Civil)
    requires Valid(c)
    ensures var n := MakeDay(c.year, c.month, c.day) - MakeDay(c.year, 0, 1);
            && 0 <= n < DaysInYear(c.year)
            && (n == 365 <==> Leap(c.year) && c.month == 11 && c.day == 31)
  {
    hide DayFromYear;
    MonthLength(c.year, c.month);
    MonthsIncrease(c.year, c.month + 1, 12);
    if c.month < 11 { MonthsIncrease(c.year, c.month + 1, 11); }
    MonthsIncrease(c.year, 0, c.month);
  }

  /** The month to date fails to compare exactly once it has run longer than the whole month before. */
  lemma MonthComparable(now: TimeValue)
    requires now >= 0
    ensures OverviewScope("mtd", Some(now)).Ok?
    ensures var c := CivilOf(DayOf(now));
            var before := PreviousDays("mtd", c);
            OverviewScope("mtd", Some(now)).scope.comparable <==>
            c.day <= before || (c.day == before + 1 && now % MS_PER_DAY == 0)
  {
    var c := CivilOf(DayOf(now));
    assert MakeDay(c.year, c.month, c.day) - MakeDay(c.year, c.month, 1) == c.day - 1;
    hide CivilOf, MakeDay, OverviewScope, DayOf, PreviousDays;
    ComparableWhen("mtd", now);
    DayOfDate(DayOf(now));
    DayRemainder(now);
  }
}
