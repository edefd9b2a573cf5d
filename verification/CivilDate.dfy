/** Day numbers and calendar dates (src/r2.rs, `civil_from_days`): the proleptic Gregorian calendar, with the month
    lengths of section 5.7 and the leap year rule of Appendix C of RFC 3339. */
module CivilDate {

  // ----- the calendar

  datatype Date = Date(year: int, month: nat, day: nat)

  predicate Leap(y: int) {
    y % 4 == 0 && (y % 100 != 0 || y % 400 == 0)
  }

  function MonthLength(y: int, m: nat): nat {
    if m == 2 then (if Leap(y) then 29 else 28)
    else if m == 4 || m == 6 || m == 9 || m == 11 then 30
    else 31
  }

  predicate Valid(d: Date) {
    1 <= d.month <= 12 && 1 <= d.day <= MonthLength(d.year, d.month)
  }

  /** The next day. */
  function Next(d: Date): Date {
    if d.day < MonthLength(d.year, d.month) then d.(day := d.day + 1)
    else if d.month < 12 then Date(d.year, d.month + 1, 1)
    else Date(d.year + 1, 1, 1)
  }

  // ----- the algorithm

  /** Division that drops the fraction, whatever the sign. */
  function TruncDiv(a: int, b: int): int
    requires b > 0
  {
    if a >= 0 then a / b else -((-a) / b)
  }

  /** The year of a day of a 400-year era, years beginning in March. */
  function YearOfEra(doe: int): int {
    (doe - doe / 1_460 + doe / 36_524 - doe / 146_096) / 365
  }

  /** The days of an era before its year `yoe`. */
  function DaysBefore(yoe: int): int {
    365 * yoe + yoe / 4 - yoe / 100
  }

  function MonthDay(y: int, doy: int): Date
    requires 0 <= doy <= 365
  {
    var mp := (5 * doy + 2) / 153;
    var m := if mp < 10 then mp + 3 else mp - 9;
    Date(if m <= 2 then y + 1 else y, m, doy - (153 * mp + 2) / 5 + 1)
  }

  /** The 400-year era of a day, counted from 1 March of year 0. */
  function Era(z: int): int {
    TruncDiv(if z >= 0 then z else z - 146_096, 146_097)
  }

  lemma TruncIsFloor(z: int)
    ensures Era(z) == z / 146_097
  {
    var q := z / 146_097;
    assert 146_097 * q <= z < 146_097 * q + 146_097;
    if z < 0 {
      var n := 146_096 - z;
      var r := n / 146_097;
      assert 146_097 * r <= n < 146_097 * r + 146_097;
    }
  }

  function CivilFromDays(days: int): Date {
    var z := days + 719_468;
    var era := Era(z);
    TruncIsFloor(z);
    DateInEra(era, z - era * 146_097)
  }

  function DateInEra(era: int, doe: int): Date
    requires 0 <= doe < 146_097
  {
    YearFound(doe);
    var yoe := YearOfEra(doe);
    MonthDay(yoe + era * 400, doe - DaysBefore(yoe))
  }

  // ----- the year of an era

  /** A day of the year that starts in March; the last one exists before a leap day only. */
  predicate InYear(yoe: int, doy: int) {
    0 <= doy <= 364 || (doy == 365 && (yoe + 1) % 4 == 0 && ((yoe + 1) % 100 != 0 || yoe + 1 == 400))
  }

  /** Centuries, four-year spans and years make up the days before a year. */
  lemma Spans(c: int, q: int, t: int)
    requires 0 <= c < 4 && 0 <= q < 25 && 0 <= t < 4
    ensures DaysBefore(100 * c + 4 * q + t) == 36_524 * c + 1_461 * q + 365 * t
  {
    var y := 100 * c + 4 * q + t;
    assert y / 4 == 25 * c + q;
    assert y / 100 == c;
  }

  lemma CenturyTerm(c: int, x: int)
    requires 0 <= c < 4 && 0 <= x && (x < 36_524 || (c == 3 && x == 36_524))
    ensures (36_524 * c + x) / 36_524 - (36_524 * c + x) / 146_096 == c
  {
  }

  lemma YearIs(c: int, q: int, t: int, doy: int)
    requires 0 <= c < 4 && 0 <= q < 25 && 0 <= t < 4 && InYear(100 * c + 4 * q + t, doy)
    ensures YearOfEra(DaysBefore(100 * c + 4 * q + t) + doy) == 100 * c + 4 * q + t
    ensures 0 <= DaysBefore(100 * c + 4 * q + t) + doy < 146_097
  {
    Spans(c, q, t);
    var x := 1_461 * q + 365 * t + doy;
    var doe := 36_524 * c + x;
    assert doy == 365 ==> t == 3 && (q < 24 || c == 3);
    CenturyTerm(c, x);
    var k := if 24 * c + q + 365 * t + doy >= 1_460 then 1 else 0;
    assert doe / 1_460 == 25 * c + q + k;
    assert doe - doe / 1_460 + c == 365 * (100 * c + 4 * q + t) + (doy - k);
  }

  lemma InYearYear(yoe: int, doy: int)
    requires 0 <= yoe < 400 && InYear(yoe, doy)
    ensures YearOfEra(DaysBefore(yoe) + doy) == yoe && 0 <= DaysBefore(yoe) + doy < 146_097
  {
    var c, r := yoe / 100, yoe % 100;
    YearIs(c, r / 4, r % 4, doy);
  }

  /** Every day of an era lies in the year the formula names. */
  lemma YearFound(doe: int)
    requires 0 <= doe < 146_097
    ensures 0 <= YearOfEra(doe) < 400 && InYear(YearOfEra(doe), doe - DaysBefore(YearOfEra(doe)))
  {
    var c := if doe == 146_096 then 3 else doe / 36_524;
    var x := doe - 36_524 * c;
    var q := x / 1_461;
    var y := x - 1_461 * q;
    var t := if y == 1_460 then 3 else y / 365;
    var doy := y - 365 * t;
    assert q <= 24 && 0 <= t < 4;
    assert doy == 365 ==> t == 3 && (q < 24 || c == 3);
    var yoe := 100 * c + 4 * q + t;
    LastDay(c, q, t);
    Spans(c, q, t);
    YearIs(c, q, t, doy);
  }

  lemma LastDay(c: int, q: int, t: int)
    requires 0 <= c < 4 && 0 <= q < 25 && 0 <= t < 4
    ensures t == 3 && (q < 24 || c == 3) ==> InYear(100 * c + 4 * q + t, 365)
  {
    if t == 3 && q < 24 { assert (100 * c + 4 * q + 4) % 100 == 4 * q + 4; }
  }

  // ----- days from a date

  function MarchYear(d: Date): int {
    if d.month <= 2 then d.year - 1 else d.year
  }

  function DayOfYear(d: Date): int {
    var mp := if d.month > 2 then d.month - 3 else d.month + 9;
    (153 * mp + 2) / 5 + d.day - 1
  }

  /** The day number of a date. */
  function DaysFromCivil(d: Date): int {
    var y := MarchYear(d);
    y / 400 * 146_097 + DaysBefore(y % 400) + DayOfYear(d) - 719_468
  }

  lemma LeapOfEra(y: int)
    ensures Leap(y + 1) <==> (y % 400 + 1) % 4 == 0 && ((y % 400 + 1) % 100 != 0 || y % 400 + 1 == 400)
  {
    var e, r := y / 400, y % 400;
    assert y == 400 * e + r;
    ModFour(100 * e, r + 1);
    ModHundred(4 * e, r + 1);
    ModEra(e, r + 1);
  }

  lemma ModFour(q: int, r: int)
    ensures (4 * q + r) % 4 == r % 4
  {
  }

  lemma ModHundred(q: int, r: int)
    ensures (100 * q + r) % 100 == r % 100
  {
  }

  lemma ModEra(e: int, r: int)
    requires 0 < r <= 400
    ensures (400 * e + r) % 400 == 0 <==> r == 400
  {
  }

  lemma ValidInYear(d: Date)
    requires Valid(d)
    ensures InYear(MarchYear(d) % 400, DayOfYear(d))
  {
    LeapOfEra(MarchYear(d));
  }

  /** Months and days of the year: each determines the other. */
  lemma MonthDayIs(d: Date)
    requires Valid(d) && 0 <= DayOfYear(d) <= 365
    ensures MonthDay(MarchYear(d), DayOfYear(d)) == d
  {
  }

  lemma MonthDayValid(y: int, doy: int)
    requires InYear(y % 400, doy)
    ensures Valid(MonthDay(y, doy))
    ensures MarchYear(MonthDay(y, doy)) == y && DayOfYear(MonthDay(y, doy)) == doy
  {
    LeapOfEra(y);
    var mp := (5 * doy + 2) / 153;
    assert 0 <= mp <= 11;
  }

  lemma EraIs(z: int, era: int, doe: int)
    requires z == era * 146_097 + doe && 0 <= doe < 146_097
    ensures Era(z) == era
  {
    TruncIsFloor(z);
  }

  lemma DateInEraIs(era: int, yoe: int, doy: int)
    requires 0 <= yoe < 400 && InYear(yoe, doy)
    ensures 0 <= DaysBefore(yoe) + doy < 146_097
    ensures DateInEra(era, DaysBefore(yoe) + doy) == MonthDay(yoe + era * 400, doy)
  {
    InYearYear(yoe, doy);
  }

  /** The algorithm finds the one place of a day among eras, years and days of the year. */
  lemma CivilIs(days: int, era: int, yoe: int, doy: int)
    requires 0 <= yoe < 400 && InYear(yoe, doy) && days + 719_468 == era * 146_097 + DaysBefore(yoe) + doy
    ensures CivilFromDays(days) == MonthDay(yoe + era * 400, doy)
  {
    var doe := DaysBefore(yoe) + doy;
    DateInEraIs(era, yoe, doy);
    assert Era(days + 719_468) == era by { EraIs(days + 719_468, era, doe); }
    assert days + 719_468 - era * 146_097 == doe;
  }

  lemma Located(days: int) returns (era: int, yoe: int, doy: int)
    ensures 0 <= yoe < 400 && InYear(yoe, doy) && days + 719_468 == era * 146_097 + DaysBefore(yoe) + doy
  {
    var z := days + 719_468;
    era := z / 146_097;
    YearFound(z - era * 146_097);
    yoe := YearOfEra(z - era * 146_097);
    doy := z - era * 146_097 - DaysBefore(yoe);
  }

  lemma DaysOfPlace(era: int, yoe: int, doy: int)
    requires 0 <= yoe < 400 && InYear(yoe, doy)
    ensures Valid(MonthDay(yoe + era * 400, doy))
    ensures DaysFromCivil(MonthDay(yoe + era * 400, doy)) == era * 146_097 + DaysBefore(yoe) + doy - 719_468
  {
    var y := yoe + era * 400;
    assert y % 400 == yoe && y / 400 == era;
    MonthDayValid(y, doy);
  }

  // ----- main results

  /** Every day number has a valid date, and the date gives the day number back. */
  lemma DaysOfCivil(days: int)
    ensures Valid(CivilFromDays(days)) && DaysFromCivil(CivilFromDays(days)) == days
  {
    var era, yoe, doy := Located(days);
    CivilIs(days, era, yoe, doy);
    DaysOfPlace(era, yoe, doy);
  }

  /** Every valid date is the date of its day number. */
  lemma CivilOfDays(d: Date)
    requires Valid(d)
    ensures CivilFromDays(DaysFromCivil(d)) == d
  {
    var y := MarchYear(d);
    ValidInYear(d);
    CivilIs(DaysFromCivil(d), y / 400, y % 400, DayOfYear(d));
    MonthDayIs(d);
  }

  lemma YearTurns(y: int)
    ensures (y + 1) / 400 * 146_097 + DaysBefore((y + 1) % 400)
         == y / 400 * 146_097 + DaysBefore(y % 400) + if Leap(y + 1) then 366 else 365
  {
    LeapOfEra(y);
    var e, r := y / 400, y % 400;
    if r == 399 {
      assert (y + 1) / 400 == e + 1 && (y + 1) % 400 == 0;
      assert DaysBefore(399) + 366 == 146_097;
    } else {
      assert (y + 1) / 400 == e && (y + 1) % 400 == r + 1;
      OneMoreYear(r);
    }
  }

  lemma OneMoreYear(r: int)
    requires 0 <= r < 399
    ensures DaysBefore(r + 1) == DaysBefore(r) + if (r + 1) % 4 == 0 && (r + 1) % 100 != 0 then 366 else 365
  {
    Carries(r, 4);
    Carries(r, 100);
  }

  /** A quotient grows by one exactly when the next number is a multiple. */
  lemma Carries(r: int, n: int)
    requires r >= 0 && (n == 4 || n == 100)
    ensures (r + 1) / n == r / n + if (r + 1) % n == 0 then 1 else 0
  {
  }

  /** Going to the next calendar day adds one to the day number. */
  lemma NextAddsOne(d: Date)
    requires Valid(d)
    ensures Valid(Next(d)) && DaysFromCivil(Next(d)) == DaysFromCivil(d) + 1
  {
    if d.month == 2 && d.day == MonthLength(d.year, 2) {
      YearTurns(d.year - 1);
    } else {
      SameYear(d);
    }
  }

  /** Within a year that starts in March, months follow each other without a gap. */
  lemma SameYear(d: Date)
    requires Valid(d) && !(d.month == 2 && d.day == MonthLength(d.year, 2))
    ensures Valid(Next(d)) && MarchYear(Next(d)) == MarchYear(d) && DayOfYear(Next(d)) == DayOfYear(d) + 1
  {
  }

  /** Day number 0 is 1 January 1970. */
  lemma StartsAtEpoch()
    ensures CivilFromDays(0) == Date(1970, 1, 1)
  {
    CivilIs(0, 4, 369, 306);
  }

  /** Consecutive day numbers, also negative ones, are consecutive calendar days. */
  lemma FollowsCalendar(days: int)
    ensures CivilFromDays(days + 1) == Next(CivilFromDays(days))
  {
    DaysOfCivil(days);
    NextIs(days, CivilFromDays(days));
  }

  lemma NextIs(days: int, d: Date)
    requires Valid(d) && DaysFromCivil(d) == days
    ensures CivilFromDays(days + 1) == Next(d)
  {
    NextAddsOne(d);
    assert DaysFromCivil(Next(d)) == days + 1;
    CivilOfDays(Next(d));
  }
}
