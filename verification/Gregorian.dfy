/**
 * The proleptic Gregorian calendar as JavaScript's `Date` computes it (section 21.4.1 of ECMA-262):
 * a calendar day is the number of days since 1970-01-01.
 */
module Gregorian {
  datatype Civil = Civil(year: int, month: int, day: int)

  predicate Leap(y: int) {
    y % 4 == 0 && (y % 100 != 0 || y % 400 == 0)
  }

  /** Length of month `m` (1..12). */
  function MonthDays(y: int, m: int): (n: int)
    requires 1 <= m <= 12
    ensures 28 <= n <= 31
  {
    if m == 2 then (if Leap(y) then 29 else 28)
    else if m == 4 || m == 6 || m == 9 || m == 11 then 30
    else 31
  }

  predicate Real(c: Civil) {
    1 <= c.month <= 12 && 1 <= c.day <= MonthDays(c.year, c.month)
  }

  /** Day number of 1 January (`DayFromYear`); `/` floors, as the divisors are positive. */
  function DayFromYear(y: int): int {
    365 * (y - 1970) + (y - 1969) / 4 - (y - 1901) / 100 + (y - 1601) / 400
  }

  function YearDays(y: int): int {
    if Leap(y) then 366 else 365
  }

  lemma YearStep(y: int)
    ensures DayFromYear(y + 1) == DayFromYear(y) + YearDays(y)
  {
    assert (y - 1968) / 4 == (y - 1969) / 4 + if y % 4 == 0 then 1 else 0;
    assert (y - 1900) / 100 == (y - 1901) / 100 + if y % 100 == 0 then 1 else 0;
    assert (y - 1600) / 400 == (y - 1601) / 400 + if y % 400 == 0 then 1 else 0;
    LeapCases(y);
  }

  lemma LeapCases(y: int)
    ensures y % 400 == 0 ==> y % 100 == 0
    ensures y % 100 == 0 ==> y % 4 == 0
  {
  }

  lemma {:induction false} YearMono(a: int, b: int)
    requires a <= b
    ensures DayFromYear(a) + 365 * (b - a) <= DayFromYear(b)
    decreases b - a
  {
    if a < b {
      YearMono(a, b - 1);
      YearStep(b - 1);
    }
  }

  /** Days of year `y` before its month `m` (1..13). */
  function MonthStart(y: int, m: int): (n: int)
    requires 1 <= m <= 13
    ensures n >= 28 * (m - 1)
  {
    if m == 1 then 0 else MonthStart(y, m - 1) + MonthDays(y, m - 1)
  }

  lemma YearIsTwelveMonths(y: int)
    ensures MonthStart(y, 13) == YearDays(y)
  {
    assert MonthStart(y, 3) == MonthStart(y, 2) + MonthDays(y, 2);
    assert MonthStart(y, 5) == MonthStart(y, 4) + MonthDays(y, 4);
    assert MonthStart(y, 7) == MonthStart(y, 6) + MonthDays(y, 6);
    assert MonthStart(y, 9) == MonthStart(y, 8) + MonthDays(y, 8);
    assert MonthStart(y, 11) == MonthStart(y, 10) + MonthDays(y, 10);
    assert MonthStart(y, 13) == MonthStart(y, 12) + MonthDays(y, 12);
  }

  lemma {:induction false} MonthStartMono(y: int, a: int, b: int)
    requires 1 <= a <= b <= 13
    ensures MonthStart(y, a) <= MonthStart(y, b)
    decreases b - a
  {
    if a < b { MonthStartMono(y, a, b - 1); }
  }

  /** `MakeDay` for a real month: the day may run past the month's end. */
  function DayNumber(y: int, m: int, d: int): int
    requires 1 <= m <= 12
  {
    DayFromYear(y) + MonthStart(y, m) + d - 1
  }

  function DayOf(c: Civil): int
    requires 1 <= c.month <= 12
  {
    DayNumber(c.year, c.month, c.day)
  }

  /** `Date.UTC(y, m - 1, d)`: a month past December rolls over, and the years 0..99 mean 1900..1999. */
  function DateUTC(y: int, m: int, d: int): int {
    var yr := if 0 <= y <= 99 then 1900 + y else y;
    DayNumber(yr + (m - 1) / 12, (m - 1) % 12 + 1, d)
  }

  /** The year containing a day number (`YearFromTime`), found from 1970 outwards. */
  function YearOf(n: int): (y: int)
    ensures DayFromYear(y) <= n < DayFromYear(y + 1)
  {
    if n >= DayFromYear(1970) then YearUp(n, 1970) else YearDown(n, 1970)
  }

  function YearUp(n: int, y: int): (r: int)
    requires DayFromYear(y) <= n
    ensures DayFromYear(r) <= n < DayFromYear(r + 1)
    decreases n - DayFromYear(y)
  {
    YearStep(y);
    if n < DayFromYear(y + 1) then y else YearUp(n, y + 1)
  }

  function YearDown(n: int, y: int): (r: int)
    requires n < DayFromYear(y)
    ensures DayFromYear(r) <= n < DayFromYear(r + 1)
    decreases DayFromYear(y) - n
  {
    YearStep(y - 1);
    if DayFromYear(y - 1) <= n then y - 1 else YearDown(n, y - 1)
  }

  /** The month holding the `k`-th (0-based) day of year `y`, searched from month `m` on. */
  function MonthOf(y: int, k: int, m: int): (r: int)
    requires 1 <= m <= 12 && MonthStart(y, m) <= k < MonthStart(y, 13)
    ensures 1 <= r <= 12 && MonthStart(y, r) <= k < MonthStart(y, r + 1)
    decreases 12 - m
  {
    if k < MonthStart(y, m + 1) then m else MonthOf(y, k, m + 1)
  }

  lemma CivilExists(n: int)
    ensures exists c :: Real(c) && DayOf(c) == n
  {
    var y := YearOf(n);
    YearStep(y);
    YearIsTwelveMonths(y);
    var k := n - DayFromYear(y);
    var m := MonthOf(y, k, 1);
    var c := Civil(y, m, k - MonthStart(y, m) + 1);
    assert Real(c) && DayOf(c) == n;
  }

  /** `getUTCFullYear`, `getUTCMonth() + 1` and `getUTCDate`: the one real date with this day number. */
  ghost function CivilOf(n: int): (c: Civil)
    ensures Real(c) && DayOf(c) == n
  {
    CivilExists(n);
    var c :| Real(c) && DayOf(c) == n;
    c
  }

  /** Calendar order: year, then month, then day. */
  predicate Before(a: Civil, b: Civil) {
    a.year < b.year || (a.year == b.year && (a.month < b.month || (a.month == b.month && a.day < b.day)))
  }

  /** Day numbers order real dates as the calendar does, so the numbering is injective. */
  lemma DayOrder(a: Civil, b: Civil)
    requires Real(a) && Real(b)
    ensures Before(a, b) <==> DayOf(a) < DayOf(b)
    ensures a == b <==> DayOf(a) == DayOf(b)
  {
    if Before(a, b) { DayStrict(a, b); }
    if Before(b, a) { DayStrict(b, a); }
  }

  lemma DayStrict(a: Civil, b: Civil)
    requires Real(a) && Real(b) && Before(a, b)
    ensures DayOf(a) < DayOf(b)
  {
    if a.year < b.year {
      MonthStartMono(a.year, a.month + 1, 13);
      YearIsTwelveMonths(a.year);
      YearStep(a.year);
      YearMono(a.year + 1, b.year);
    } else if a.month < b.month {
      MonthStartMono(a.year, a.month + 1, b.month);
    }
  }

  /** Reading a day number back gives the date it was made from. */
  lemma CivilRoundTrip(c: Civil)
    requires Real(c)
    ensures CivilOf(DayOf(c)) == c
  {
    DayOrder(CivilOf(DayOf(c)), c);
  }
}
