/** Seconds since 1970 as a UTC date and time of day. */
module Calendar {
  import opened Common

  const SECONDS_PER_DAY := 86_400
  const DAYS_PER_ERA := 146_097
  const I64_MIN := -0x8000_0000_0000_0000
  const I64_MAX := 0x7FFF_FFFF_FFFF_FFFF

  datatype Date = Date(year: int, month: int, day: int)

  datatype Stamp = Stamp(date: Date, hour: int, minute: int, second: int)

  /** Division as the machine does it: toward zero. */
  function Quotient(a: int, b: int): int
    requires b > 0
  {
    if a >= 0 then a / b else -((-a) / b)
  }

  // ---- The conversion ----

  function Era(shifted: int): int {
    Quotient(if shifted >= 0 then shifted else shifted - 146_096, DAYS_PER_ERA)
  }

  function DayOfEra(shifted: int): int { shifted - Era(shifted) * DAYS_PER_ERA }

  function YearOfEra(dayOfEra: int): int {
    Quotient(dayOfEra - Quotient(dayOfEra, 1460) + Quotient(dayOfEra, 36_524) - Quotient(dayOfEra, 146_096), 365)
  }

  function DayOfYear(dayOfEra: int, yearOfEra: int): int {
    dayOfEra - (365 * yearOfEra + Quotient(yearOfEra, 4) - Quotient(yearOfEra, 100))
  }

  function MonthPrime(dayOfYear: int): int { Quotient(5 * dayOfYear + 2, 153) }

  function Civil(days: int): Date {
    var shifted := days + 719_468;
    var yearOfEra := YearOfEra(DayOfEra(shifted));
    var dayOfYear := DayOfYear(DayOfEra(shifted), yearOfEra);
    var monthPrime := MonthPrime(dayOfYear);
    var day := dayOfYear - Quotient(153 * monthPrime + 2, 5) + 1;
    var month := if monthPrime < 10 then monthPrime + 3 else monthPrime - 9;
    Date(yearOfEra + Era(shifted) * 400 + (if month <= 2 then 1 else 0), month, day)
  }

  function Utc(secs: int): Stamp {
    var rem := secs % SECONDS_PER_DAY;
    Stamp(Civil(secs / SECONDS_PER_DAY), Quotient(rem, 3600), Quotient(rem % 3600, 60), rem % 60)
  }

  // ---- The proleptic Gregorian calendar ----

  predicate Leap(year: int) { year % 4 == 0 && (year % 100 != 0 || year % 400 == 0) }

  function DaysIn(year: int, month: int): int {
    if month == 2 then (if Leap(year) then 29 else 28)
    else if month in {4, 6, 9, 11} then 30
    else 31
  }

  predicate Valid(d: Date) { 1 <= d.month <= 12 && 1 <= d.day <= DaysIn(d.year, d.month) }

  function Next(d: Date): Date {
    if d.day < DaysIn(d.year, d.month) then d.(day := d.day + 1)
    else if d.month < 12 then Date(d.year, d.month + 1, 1)
    else Date(d.year + 1, 1, 1)
  }

  /** Days from the epoch to a date, by counting leap years and whole months. */
  function LeapsBefore(year: int): int { (year - 1) / 4 - (year - 1) / 100 + (year - 1) / 400 }

  function YearStart(year: int): int { 365 * (year - 1970) + LeapsBefore(year) - LeapsBefore(1970) }

  function MonthStart(year: int, month: int): int
    requires 1 <= month
    decreases month
  {
    if month == 1 then 0 else MonthStart(year, month - 1) + DaysIn(year, month - 1)
  }

  function DayNumber(d: Date): int
    requires Valid(d)
  {
    YearStart(d.year) + MonthStart(d.year, d.month) + d.day - 1
  }

  // ---- The year ----

  /** A position in an era: century, four-year cycle, year in the cycle and day
      in the year, where years begin in March. */
  datatype Position = Position(century: int, cycle: int, year: int, day: int)

  predicate InEra(p: Position) {
    && 0 <= p.century <= 3 && 0 <= p.cycle <= 24 && 0 <= p.year <= 3
    && 0 <= p.day < 365 + (if p.year == 3 && (p.cycle < 24 || p.century == 3) then 1 else 0)
  }

  function YearAt(p: Position): int { 100 * p.century + 4 * p.cycle + p.year }

  function DayAt(p: Position): int { 36_524 * p.century + 1461 * p.cycle + 365 * p.year + p.day }

  lemma Locate(dayOfEra: int) returns (p: Position)
    requires 0 <= dayOfEra < DAYS_PER_ERA
    ensures InEra(p) && DayAt(p) == dayOfEra
  {
    var century := if dayOfEra == 146_096 then 3 else dayOfEra / 36_524;
    var inCentury := dayOfEra - 36_524 * century;
    var cycle := inCentury / 1461;
    var inCycle := inCentury - 1461 * cycle;
    var year := if inCycle == 1460 then 3 else inCycle / 365;
    p := Position(century, cycle, year, inCycle - 365 * year);
  }

  lemma EraSplits(shifted: int)
    ensures 0 <= DayOfEra(shifted) < DAYS_PER_ERA
    ensures shifted == Era(shifted) * DAYS_PER_ERA + DayOfEra(shifted)
  {
  }

  /** The year formula finds the position's year, the last day of a leap year
      and of the era included. */
  lemma YearOfEraAt(p: Position)
    requires InEra(p)
    ensures YearOfEra(DayAt(p)) == YearAt(p)
    ensures DayOfYear(DayAt(p), YearAt(p)) == p.day
  {
    var d := DayAt(p);
    var whole := 25 * p.century + p.cycle;
    var over := 24 * p.century + p.cycle + 365 * p.year + p.day;
    assert d == 1460 * whole + over && 0 <= over < 2 * 1460;
    var e := if over >= 1460 then 1 else 0;
    assert d / 1460 == whole + e;
    var last := if d == 146_096 then 1 else 0;
    assert d / 36_524 == p.century + last && d / 146_096 == last;
    assert d - d / 1460 + d / 36_524 - d / 146_096 == 365 * YearAt(p) + (p.day - e);
    assert YearAt(p) / 4 == 25 * p.century + p.cycle && YearAt(p) / 100 == p.century;
  }

  // ---- The month ----

  /** First day of each month in a year that begins in March. */
  function MarchStart(monthPrime: int): int { (153 * monthPrime + 2) / 5 }

  lemma MonthPrimeAt(day: int)
    requires 0 <= day <= 365
    ensures 0 <= MonthPrime(day) <= 11
    ensures MarchStart(MonthPrime(day)) <= day < MarchStart(MonthPrime(day) + 1)
  {
  }

  lemma MonthStarts(year: int)
    ensures var leap := if Leap(year) then 1 else 0;
      && MonthStart(year, 1) == 0 && MonthStart(year, 2) == 31
      && forall m :: 3 <= m <= 12 ==> MonthStart(year, m) == 59 + leap + MarchStart(m - 3)
  {
    var leap := if Leap(year) then 1 else 0;
    assert MonthStart(year, 1) == 0;
    assert MonthStart(year, 2) == 31;
    assert MonthStart(year, 3) == 59 + leap;
    assert MonthStart(year, 4) == 90 + leap;
    assert MonthStart(year, 5) == 120 + leap;
    assert MonthStart(year, 6) == 151 + leap;
    assert MonthStart(year, 7) == 181 + leap;
    assert MonthStart(year, 8) == 212 + leap;
    assert MonthStart(year, 9) == 243 + leap;
    assert MonthStart(year, 10) == 273 + leap;
    assert MonthStart(year, 11) == 304 + leap;
    assert MonthStart(year, 12) == 334 + leap;
  }

  // ---- The date is the right one ----

  lemma Every4(n: int)
    ensures n / 4 == (n - 1) / 4 + if n % 4 == 0 then 1 else 0
  {
  }

  lemma Every100(n: int)
    ensures n / 100 == (n - 1) / 100 + if n % 100 == 0 then 1 else 0
    ensures n % 100 == 0 ==> n % 4 == 0
  {
    if n % 100 == 0 {
      DivisionIs(n, 4, 25 * (n / 100), 0);
    }
  }

  lemma Every400(n: int)
    ensures n / 400 == (n - 1) / 400 + if n % 400 == 0 then 1 else 0
    ensures n % 400 == 0 ==> n % 100 == 0
  {
  }

  lemma YearLength(year: int)
    ensures YearStart(year + 1) == YearStart(year) + 365 + (if Leap(year) then 1 else 0)
  {
    Every4(year);
    Every100(year);
    Every400(year);
  }

  /** Leap years before March of a position's year, in all eras. */
  lemma LeapsAt(era: int, p: Position)
    requires InEra(p)
    ensures LeapsBefore(400 * era + YearAt(p) + 1) == 97 * era + 24 * p.century + p.cycle
  {
    var y := 400 * era + YearAt(p);
    DivisionIs(y, 4, 100 * era + 25 * p.century + p.cycle, p.year);
    DivisionIs(y, 100, 4 * era + p.century, 4 * p.cycle + p.year);
    DivisionIs(y, 400, era, 100 * p.century + 4 * p.cycle + p.year);
  }

  /** The year that begins before a position's end is leap exactly when the
      position's year has its extra day. */
  lemma LeapAt(era: int, p: Position)
    requires InEra(p)
    ensures Leap(400 * era + YearAt(p) + 1) <==> p.year == 3 && (p.cycle < 24 || p.century == 3)
  {
    var n := 400 * era + YearAt(p) + 1;
    if p.year < 3 {
      DivisionIs(n, 4, 100 * era + 25 * p.century + p.cycle, p.year + 1);
    } else {
      DivisionIs(n, 4, 100 * era + 25 * p.century + p.cycle + 1, 0);
      if p.cycle < 24 {
        DivisionIs(n, 100, 4 * era + p.century, 4 * p.cycle + 4);
      } else {
        DivisionIs(n, 100, 4 * era + p.century + 1, 0);
        if p.century < 3 {
          DivisionIs(n, 400, era, 100 * p.century + 100);
        } else {
          DivisionIs(n, 400, era + 1, 0);
        }
      }
    }
  }

  function CivilAt(era: int, p: Position): Date {
    var mp := MonthPrime(p.day);
    var month := if mp < 10 then mp + 3 else mp - 9;
    Date(400 * era + YearAt(p) + (if month <= 2 then 1 else 0), month, p.day - MarchStart(mp) + 1)
  }

  /** March to December: the year is the position's own. */
  lemma LateMonths(year: int, mp: int, day: int)
    requires 0 <= mp < 10 && MarchStart(mp) <= day < MarchStart(mp + 1)
    ensures var d := Date(year, mp + 3, day - MarchStart(mp) + 1);
      Valid(d) && DayNumber(d) == YearStart(year + 1) - 306 + day
  {
    MonthStarts(year);
    YearLength(year);
    assert MarchStart(0) == 0 && MarchStart(1) == 31 && MarchStart(2) == 61 && MarchStart(3) == 92;
    assert MarchStart(4) == 122 && MarchStart(5) == 153 && MarchStart(6) == 184 && MarchStart(7) == 214;
    assert MarchStart(8) == 245 && MarchStart(9) == 275 && MarchStart(10) == 306;
  }

  /** January and February belong to the year after. */
  lemma EarlyMonths(year: int, mp: int, day: int)
    requires 10 <= mp <= 11 && MarchStart(mp) <= day < MarchStart(mp + 1)
    requires day < (if Leap(year) then 366 else 365)
    ensures var d := Date(year, mp - 9, day - MarchStart(mp) + 1);
      Valid(d) && DayNumber(d) == YearStart(year) - 306 + day
  {
    MonthStarts(year);
    assert MarchStart(10) == 306 && MarchStart(11) == 337;
  }

  lemma CivilAtIsRight(era: int, p: Position)
    requires InEra(p)
    ensures Valid(CivilAt(era, p))
    ensures DayNumber(CivilAt(era, p)) == DAYS_PER_ERA * era + DayAt(p) - 719_468
  {
    var y := 400 * era + YearAt(p);
    MonthPrimeAt(p.day);
    LeapsAt(era, p);
    assert YearStart(y + 1) - 306 + p.day == DAYS_PER_ERA * era + DayAt(p) - 719_468 by {
      assert LeapsBefore(1970) == 477;
    }
    if MonthPrime(p.day) < 10 {
      LateMonths(y, MonthPrime(p.day), p.day);
    } else {
      LeapAt(era, p);
      EarlyMonths(y + 1, MonthPrime(p.day), p.day);
    }
  }

  lemma CivilIsAt(days: int, era: int, p: Position)
    requires InEra(p) && era == Era(days + 719_468) && DayAt(p) == DayOfEra(days + 719_468)
    ensures Civil(days) == CivilAt(era, p)
  {
    YearOfEraAt(p);
    MonthPrimeAt(p.day);
  }

  /** Every day number, before and after 1970 and in every 400-year era, gets a
      valid date, and that date's day number is the one given. */
  lemma CivilIsRight(days: int)
    ensures Valid(Civil(days)) && DayNumber(Civil(days)) == days
  {
    var era := Era(days + 719_468);
    EraSplits(days + 719_468);
    var p := Locate(DayOfEra(days + 719_468));
    CivilIsAt(days, era, p);
    CivilAtIsRight(era, p);
  }

  lemma {:induction false} YearsIncrease(a: int, b: int)
    requires a < b
    ensures YearStart(a + 1) <= YearStart(b)
    decreases b - a
  {
    if a + 1 < b {
      YearsIncrease(a, b - 1);
      YearLength(b - 1);
    }
  }

  lemma WithinYear(d: Date)
    requires Valid(d)
    ensures YearStart(d.year) <= DayNumber(d) < YearStart(d.year + 1)
    ensures d.month < 12 ==> DayNumber(d) < YearStart(d.year) + MonthStart(d.year, d.month + 1)
  {
    MonthStarts(d.year);
    YearLength(d.year);
  }

  lemma MonthsIncrease(year: int, m: int, n: int)
    requires 1 <= m < n <= 12
    ensures MonthStart(year, m + 1) <= MonthStart(year, n)
  {
    MonthStarts(year);
  }

  /** No two dates share a day number. */
  lemma DayNumberInjective(a: Date, b: Date)
    requires Valid(a) && Valid(b) && DayNumber(a) == DayNumber(b)
    ensures a == b
  {
    WithinYear(a);
    WithinYear(b);
    if a.year < b.year {
      YearsIncrease(a.year, b.year);
    } else if b.year < a.year {
      YearsIncrease(b.year, a.year);
    } else if a.month < b.month {
      MonthsIncrease(a.year, a.month, b.month);
    } else if b.month < a.month {
      MonthsIncrease(a.year, b.month, a.month);
    }
  }

  lemma NextIsLater(d: Date)
    requires Valid(d)
    ensures Valid(Next(d)) && DayNumber(Next(d)) == DayNumber(d) + 1
  {
    MonthStarts(d.year);
    MonthStarts(d.year + 1);
    YearLength(d.year);
  }

  lemma NextIsNext(a: Date, b: Date)
    requires Valid(a) && Valid(b) && DayNumber(b) == DayNumber(a) + 1
    ensures b == Next(a)
  {
    NextIsLater(a);
    DayNumberInjective(b, Next(a));
  }

  lemma EpochNumber()
    ensures DayNumber(Date(1970, 1, 1)) == 0
  {
  }

  /** The conversion starts at 1 January 1970 and moves one calendar day per
      day, in both directions. */
  lemma CivilAdvances(days: int)
    ensures Civil(0) == Date(1970, 1, 1)
    ensures Civil(days + 1) == Next(Civil(days))
  {
    CivilIsRight(days);
    CivilIsRight(days + 1);
    NextIsNext(Civil(days), Civil(days + 1));
    EpochNumber();
    CivilInverts(Date(1970, 1, 1));
  }

  /** And it is the inverse of counting days. */
  lemma CivilInverts(d: Date)
    requires Valid(d)
    ensures Civil(DayNumber(d)) == d
  {
    CivilIsRight(DayNumber(d));
    DayNumberInjective(Civil(DayNumber(d)), d);
  }

  lemma TimeOfDay(rem: int)
    requires 0 <= rem < SECONDS_PER_DAY
    ensures var h, m, s := Quotient(rem, 3600), Quotient(rem % 3600, 60), rem % 60;
      0 <= h < 24 && 0 <= m < 60 && 0 <= s < 60 && h * 3600 + m * 60 + s == rem
  {
    var h, m, s := rem / 3600, rem % 3600 / 60, rem % 3600 % 60;
    DivisionIs(rem, 60, 60 * h + m, s);
  }

  /** For every count of seconds: a valid date, a valid time of day, and
      together they are the instant given. */
  lemma UtcIsRight(secs: int)
    ensures var u := Utc(secs);
      && Valid(u.date) && 0 <= u.hour < 24 && 0 <= u.minute < 60 && 0 <= u.second < 60
      && DayNumber(u.date) * SECONDS_PER_DAY + u.hour * 3600 + u.minute * 60 + u.second == secs
  {
    CivilIsRight(secs / SECONDS_PER_DAY);
    TimeOfDay(secs % SECONDS_PER_DAY);
  }

  predicate InI64(x: int) { I64_MIN <= x <= I64_MAX }

  lemma FieldsInRange(doe: int)
    requires 0 <= doe < DAYS_PER_ERA
    ensures var yoe := YearOfEra(doe);
      var doy := DayOfYear(doe, yoe);
      0 <= yoe < 400 && 0 <= doy <= 365 && 0 <= MonthPrime(doy) <= 11
  {
    var p := Locate(doe);
    YearOfEraAt(p);
    MonthPrimeAt(p.day);
  }

  /** No step of the computation leaves 64 bits, for any 64-bit input. */
  lemma NoOverflow(secs: int)
    requires InI64(secs)
    ensures var shifted := secs / SECONDS_PER_DAY + 719_468;
      var doe := DayOfEra(shifted);
      var yoe := YearOfEra(doe);
      var doy := DayOfYear(doe, yoe);
      && InI64(shifted) && InI64(shifted - 146_096) && InI64(Era(shifted) * DAYS_PER_ERA)
      && 0 <= doe < DAYS_PER_ERA && 0 <= yoe < 400 && 0 <= doy <= 365 && 0 <= MonthPrime(doy) <= 11
      && InI64(yoe + Era(shifted) * 400 + 1)
  {
    var shifted := secs / SECONDS_PER_DAY + 719_468;
    EraSplits(shifted);
    FieldsInRange(DayOfEra(shifted));
  }
}
