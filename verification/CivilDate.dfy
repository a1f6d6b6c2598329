/** Build timestamps: days since 1970-01-01 to a Gregorian date (unim-tsf/build.rs). The
    calendar is the one of section 3.2.1 of ISO 8601:2004, years before 1 included. */
module CivilDate {

  datatype Date = Date(year: int, month: int, day: int)

  // ---------- the calendar ----------

  predicate IsLeap(y: int) {
    y % 4 == 0 && (y % 100 != 0 || y % 400 == 0)
  }

  function DaysIn(y: int, m: int): int {
    if m == 2 then (if IsLeap(y) then 29 else 28)
    else if m in {4, 6, 9, 11} then 30
    else 31
  }

  predicate IsDate(x: Date) {
    1 <= x.month <= 12 && 1 <= x.day <= DaysIn(x.year, x.month)
  }

  function NextDay(x: Date): Date {
    if x.day < DaysIn(x.year, x.month) then x.(day := x.day + 1)
    else if x.month < 12 then Date(x.year, x.month + 1, 1)
    else Date(x.year + 1, 1, 1)
  }

  // ---------- the computation ----------

  /** Machine division: rounds toward zero. */
  function TruncDiv(a: int, b: int): int
    requires b > 0
  {
    if a >= 0 then a / b else -(-a / b)
  }

  /** 400-year cycle of a day counted from 0000-03-01. */
  function Era(z: int): int {
    TruncDiv(if z >= 0 then z else z - 146096, 146097)
  }

  /** Year of the cycle, from the day of the cycle. */
  function YearOfEra(doe: nat): int {
    (doe - doe / 1460 + doe / 36524 - doe / 146096) / 365
  }

  /** Day of the cycle on which its year `yoe` starts, in March. */
  function YearStart(yoe: int): int {
    365 * yoe + yoe / 4 - yoe / 100
  }

  function MonthOfYear(doy: int): int {
    (5 * doy + 2) / 153
  }

  function MonthStart(mp: int): int {
    (153 * mp + 2) / 5
  }

  function CivilFromDays(days: int): Date {
    var z := days + 719468;
    var era := Era(z);
    var doe := z - era * 146097;
    EraBounds(z);
    var yoe := YearOfEra(doe);
    var y := yoe + era * 400;
    var doy := doe - YearStart(yoe);
    var mp := MonthOfYear(doy);
    var d := doy - MonthStart(mp) + 1;
    var m := if mp < 10 then mp + 3 else mp - 9;
    Date(if m <= 2 then y + 1 else y, m, d)
  }

  // ---------- the commented bounds ----------

  /** doe is in [0, 146096], for days before the epoch too. */
  lemma EraBounds(z: int)
    ensures 0 <= z - Era(z) * 146097 <= 146096
  {
  }

  /** A cycle year has 366 days when the civil year it ends in is a leap year. */
  function YearLength(yoe: int): int {
    if IsLeap(yoe + 1) then 366 else 365
  }

  /** Day `d` of cycle year 100c + 4q + k is found in that year: the correction terms for
      leap years cancel exactly, also on the last day of the cycle. */
  lemma YearOfEraIs(c: int, q: int, k: int, d: int)
    requires 0 <= c <= 3 && 0 <= q <= 24 && 0 <= k <= 3 && 0 <= d <= 365
    requires d == 365 ==> k == 3 && (q == 24 ==> c == 3)
    ensures YearOfEra(36524 * c + 1461 * q + 365 * k + d) == 100 * c + 4 * q + k
  {
    var doe := 36524 * c + 1461 * q + 365 * k + d;
    var rest := 24 * c + q + 365 * k + d;
    var e1 := if rest >= 1460 then 1 else 0;
    var e2 := if q == 24 && k == 3 && d == 365 then 1 else 0;
    Quotient1460(doe, 25 * c + q + e1);
    Quotient36524(doe, c + e2);
    Quotient146096(doe, e2);
    Quotient365(doe - (25 * c + q + e1) + (c + e2) - e2, 100 * c + 4 * q + k);
  }

  lemma Quotient1460(a: int, n: int)
    requires 1460 * n <= a < 1460 * n + 1460
    ensures a / 1460 == n
  {
  }

  lemma Quotient36524(a: int, n: int)
    requires 36524 * n <= a < 36524 * n + 36524
    ensures a / 36524 == n
  {
  }

  lemma Quotient146096(a: int, n: int)
    requires 146096 * n <= a < 146096 * n + 146096
    ensures a / 146096 == n
  {
  }

  lemma Quotient365(a: int, n: int)
    requires 365 * n <= a < 365 * n + 365
    ensures a / 365 == n
  {
  }

  lemma YearOfEraFinds(y: int, d: int)
    requires 0 <= y < 400 && 0 <= d < YearLength(y)
    ensures YearOfEra(YearStart(y) + d) == y
  {
    var c, q, k := y / 100, y % 100 / 4, y % 4;
    assert y == 100 * c + 4 * q + k;
    assert y / 4 == 25 * c + q;
    YearOfEraIs(c, q, k, d);
  }

  /** yoe is in [0, 399] and doy in [0, 365]: every day of the cycle lies in its year. */
  lemma DayInYear(doe: int) returns (y: int, d: int)
    requires 0 <= doe <= 146096
    ensures 0 <= y < 400 && 0 <= d < YearLength(y) && doe == YearStart(y) + d
    ensures YearOfEra(doe) == y
  {
    var c := if doe / 36524 > 3 then 3 else doe / 36524;
    var r := doe - 36524 * c;
    var q := if r / 1461 > 24 then 24 else r / 1461;
    var s := r - 1461 * q;
    var k := if s / 365 > 3 then 3 else s / 365;
    y, d := 100 * c + 4 * q + k, s - 365 * k;
    assert y / 100 == c && y / 4 == 25 * c + q;
    YearOfEraFinds(y, d);
  }

  /** mp is in [0, 11] and the day of the month follows it. */
  lemma MonthFinds(doy: int)
    requires 0 <= doy <= 365
    ensures var mp := MonthOfYear(doy);
            0 <= mp <= 11 && MonthStart(mp) <= doy && (mp < 11 ==> doy < MonthStart(mp + 1))
  {
  }

  lemma MonthFindsUnique(mp: int, doy: int)
    requires 0 <= mp <= 11 && MonthStart(mp) <= doy <= 365 && (mp < 11 ==> doy < MonthStart(mp + 1))
    ensures MonthOfYear(doy) == mp
  {
  }

  // ---------- the date ----------

  /** The date of day `doy` of cycle year `y` of cycle `era`. */
  function DateOf(era: int, y: int, doy: int): Date {
    var mp := MonthOfYear(doy);
    var m := if mp < 10 then mp + 3 else mp - 9;
    var year := y + era * 400;
    Date(if m <= 2 then year + 1 else year, m, doy - MonthStart(mp) + 1)
  }

  lemma CivilIs(days: int, era: int, y: int, d: int)
    requires 0 <= y < 400 && 0 <= d < YearLength(y) && days + 719468 == era * 146097 + YearStart(y) + d
    ensures CivilFromDays(days) == DateOf(era, y, d)
  {
    hide YearOfEra, Era;
    YearOfEraFinds(y, d);
    assert 0 <= YearStart(y) + d <= 146096;
    EraUnique(days + 719468, era);
  }

  lemma EraUnique(z: int, era: int)
    requires 0 <= z - era * 146097 <= 146096
    ensures Era(z) == era
  {
  }

  /** Leap years repeat every 400 years. */
  lemma LeapCycle(y: int, era: int)
    ensures IsLeap(y + era * 400) == IsLeap(y)
  {
    Mod400(y, era);
    Mod100(y, 4 * era);
    Mod4(y, 100 * era);
  }

  lemma Mod400(y: int, n: int)
    ensures (y + 400 * n) % 400 == y % 400
  {
  }

  lemma Mod100(y: int, n: int)
    ensures (y + 100 * n) % 100 == y % 100
  {
  }

  lemma Mod4(y: int, n: int)
    ensures (y + 4 * n) % 4 == y % 4
  {
  }

  /** How long the month that starts on day MonthStart(mp) is. */
  lemma MonthLength(era: int, y: int, mp: int)
    requires 0 <= y < 400 && 0 <= mp <= 11
    ensures var m := if mp < 10 then mp + 3 else mp - 9;
            var year := y + era * 400;
            DaysIn(if m <= 2 then year + 1 else year, m)
            == (if mp < 11 then MonthStart(mp + 1) else YearLength(y)) - MonthStart(mp)
  {
    hide IsLeap;
    LeapCycle(y + 1, era);
    assert y + 1 + era * 400 == y + era * 400 + 1;
  }

  lemma NextInYear(era: int, y: int, d: int)
    requires 0 <= y < 400 && 0 <= d < YearLength(y)
    ensures IsDate(DateOf(era, y, d))
    ensures d + 1 < YearLength(y) ==> DateOf(era, y, d + 1) == NextDay(DateOf(era, y, d))
    ensures d + 1 == YearLength(y) ==> NextDay(DateOf(era, y, d)) == Date(y + 1 + era * 400, 3, 1)
  {
    hide IsLeap;
    var mp := MonthOfYear(d);
    MonthFinds(d);
    MonthLength(era, y, mp);
    if d + 1 < YearLength(y) {
      MonthFindsUnique(if mp < 11 && d + 1 == MonthStart(mp + 1) then mp + 1 else mp, d + 1);
    } else {
      assert mp == 11;
    }
  }

  /** Every day number, negative ones included, gives a valid date, and the next day number
      gives the next day of the calendar. */
  lemma CivilSuccessor(days: int)
    ensures IsDate(CivilFromDays(days))
    ensures CivilFromDays(days + 1) == NextDay(CivilFromDays(days))
  {
    hide IsLeap, CivilFromDays, DateOf, NextDay, YearLength;
    var z := days + 719468;
    var era := Era(z);
    EraBounds(z);
    var y, d := DayInYear(z - era * 146097);
    CivilIs(days, era, y, d);
    NextInYear(era, y, d);
    YearEnds(y);
    YearEnds(if y < 399 then y + 1 else 0);
    if d + 1 < YearLength(y) {
      CivilIs(days + 1, era, y, d + 1);
    } else if y < 399 {
      CivilIs(days + 1, era, y + 1, 0);
      FirstOfYear(era, y + 1);
    } else {
      CivilIs(days + 1, era + 1, 0, 0);
      FirstOfYear(era + 1, 0);
    }
  }

  /** Consecutive cycle years abut, and the last one ends the cycle. */
  lemma YearEnds(y: int)
    requires 0 <= y < 400
    ensures 365 <= YearLength(y) <= 366
    ensures YearStart(y) + YearLength(y) == if y < 399 then YearStart(y + 1) else 146097
    ensures YearStart(0) == 0
  {
    var c, q, k := y / 100, y % 100 / 4, y % 4;
    assert y == 100 * c + 4 * q + k && y / 4 == 25 * c + q;
    var n := y + 1;
    assert n % 4 == 0 <==> k == 3;
    assert n % 100 == 0 <==> k == 3 && q == 24;
    assert n % 400 == 0 <==> y == 399;
    assert n / 4 == 25 * c + q + (if k == 3 then 1 else 0);
    assert n / 100 == c + (if k == 3 && q == 24 then 1 else 0);
  }

  lemma FirstOfYear(era: int, y: int)
    ensures DateOf(era, y, 0) == Date(y + era * 400, 3, 1)
  {
  }

  /** Day 0 is 1970-01-01. */
  lemma Epoch()
    ensures CivilFromDays(0) == Date(1970, 1, 1)
  {
    hide CivilFromDays;
    CivilIs(0, 4, 369, 306);
  }

  function Later(x: Date, n: nat): Date {
    if n == 0 then x else NextDay(Later(x, n - 1))
  }

  /** The computation is the calendar: n days after any day is n calendar steps later. */
  lemma {:induction false} CivilIsCalendar(days: int, n: nat)
    ensures CivilFromDays(days + n) == Later(CivilFromDays(days), n)
  {
    hide CivilFromDays, NextDay;
    if n > 0 {
      CivilIsCalendar(days, n - 1);
      CivilSuccessor(days + n - 1);
    }
  }

  /** Machine integers suffice: while the day number plus the offset fits in 64 bits, so
      does every intermediate value, and the unsigned ones are not negative. */
  lemma FitsInMachineIntegers(days: int)
    requires -0x8000_0000_0000_0000 <= days && days + 719468 <= 0x7fff_ffff_ffff_ffff
    ensures var z := days + 719468; var era := Era(z); var doe := z - era * 146097;
            && -0x8000_0000_0000_0000 <= (if z >= 0 then z else z - 146096) <= 0x7fff_ffff_ffff_ffff
            && -0x8000_0000_0000_0000 <= era * 146097 <= 0x7fff_ffff_ffff_ffff
            && 0 <= doe <= 146096 && 0 <= YearOfEra(doe) <= 399
            && 0 <= doe - YearStart(YearOfEra(doe)) <= 365
            && -0x8000_0000_0000_0000 <= YearOfEra(doe) + era * 400 < 0x7fff_ffff_ffff_ffff
  {
    var z := days + 719468;
    EraBounds(z);
    var y, d := DayInYear(z - Era(z) * 146097);
  }
}
