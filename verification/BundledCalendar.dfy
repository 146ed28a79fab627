/** The calendar the repository ships (shared/bsCalendarYears.json), BS 2078 to 2085. */
module BundledCalendar {
  import opened BsCalendar
  import opened BsConversion
  import Gregorian

  /** Month lengths of the `k`-th shipped year. */
  function Months(k: nat): (ms: seq<nat>)
    requires k < 8
    ensures |ms| == 12
  {
    if k == 0 then [31, 31, 31, 32, 31, 31, 30, 29, 30, 29, 30, 30]
    else if k == 1 then [31, 31, 32, 31, 31, 31, 30, 29, 30, 29, 30, 30]
    else if k == 2 then [31, 32, 31, 32, 31, 30, 30, 30, 29, 29, 30, 30]
    else if k == 3 then [31, 32, 31, 32, 31, 30, 30, 30, 29, 30, 29, 31]
    else if k == 4 then [31, 31, 32, 31, 31, 31, 30, 29, 30, 29, 30, 30]
    else if k == 5 then [31, 31, 32, 31, 31, 31, 30, 29, 30, 29, 30, 30]
    else if k == 6 then [31, 31, 32, 31, 31, 30, 30, 30, 29, 30, 30, 30]
    else [31, 32, 31, 32, 30, 31, 30, 30, 29, 30, 30, 30]
  }

  /** Baisakh 1 falls on 14 April, or on 13 April of a leap year. */
  function Start(k: nat): int {
    Gregorian.DayNumber(2021 + k, 4, if k == 3 || k == 7 then 13 else 14)
  }

  function Bundled(): seq<BsYear> {
    seq(8, k requires 0 <= k < 8 => YearData(2078 + k, Months(k), Start(k)))
  }

  lemma MidApril(y: int, d: int)
    ensures Gregorian.DayNumber(y, 4, d) == Gregorian.DayFromYear(y) + (if Gregorian.Leap(y) then 91 else 90) + d - 1
  {
    assert Gregorian.MonthStart(y, 2) == 31;
    assert Gregorian.MonthStart(y, 3) == 31 + Gregorian.MonthDays(y, 2);
  }

  lemma TwelveMonths(y: BsYear)
    ensures YearLen(y) == Len(y, 0) + Len(y, 1) + Len(y, 2) + Len(y, 3) + Len(y, 4) + Len(y, 5)
                          + Len(y, 6) + Len(y, 7) + Len(y, 8) + Len(y, 9) + Len(y, 10) + Len(y, 11)
  {
    assert Offset(y, 1) == Len(y, 0);
    assert Offset(y, 3) == Offset(y, 2) + Len(y, 2);
    assert Offset(y, 5) == Offset(y, 4) + Len(y, 4);
    assert Offset(y, 7) == Offset(y, 6) + Len(y, 6);
    assert Offset(y, 9) == Offset(y, 8) + Len(y, 8);
    assert Offset(y, 11) == Offset(y, 10) + Len(y, 10);
  }

  lemma ShippedLen(y: BsYear, k: nat)
    requires k < 8 && y.months == Months(k)
    ensures YearLen(y) == (if k == 3 || k == 7 then 366 else 365) && NoZeroMonth(y)
  {
    TwelveMonths(y);
  }

  /** The shipped years tile the AD calendar from 2021-04-14 on. */
  lemma BundledTiles()
    ensures Tiles(Bundled()) && forall k :: 0 <= k < 8 ==> NoZeroMonth(Bundled()[k])
  {
    var ys := Bundled();
    forall k | 0 <= k < 8 ensures NoZeroMonth(ys[k]) { ShippedLen(ys[k], k); }
    forall i, j | 0 <= i < j < |ys| && j == i + 1 ensures Follows(ys[i], ys[j]) { ShippedFollows(i); }
  }

  lemma ShippedFollows(k: nat)
    requires k < 7
    ensures Follows(Bundled()[k], Bundled()[k + 1])
  {
    ShippedLen(Bundled()[k], k);
    MidApril(2021 + k, if k == 3 || k == 7 then 13 else 14);
    MidApril(2022 + k, if k == 2 || k == 6 then 13 else 14);
    Gregorian.YearStep(2021 + k);
  }

  /** So on the shipped data both conversions are exact inverses and agree with the day table and with
      the seeder's labels. */
  lemma BundledIsExact()
    ensures TableAgrees(Bundled()) && AdRoundTrips(Bundled()) && BsRoundTrips(Bundled()) && SeederAgrees(Bundled())
  {
    BundledTiles();
    TilingIsClean(Bundled());
    SeederExactPositive(Bundled());
  }
}
