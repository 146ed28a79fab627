/**
 * The Bikram Sambat calendar: seeded years, the materialised day table, the overlap report and the
 * arithmetic conversions. An AD day is a day number (see Gregorian). Month lengths are counts; the
 * source reads a zero entry as 30 days in most places (`|| 30`) and as zero in the raw year totals.
 */
module BsCalendar {
  import opened Collections

  datatype YearData = YearData(yearBS: int, months: seq<nat>, start: int)

  type BsYear = y: YearData | |y.months| == 12 witness YearData(0, seq(12, _ => 30), 0)

  datatype BsDate = BsDate(year: int, month: int, day: int)

  datatype DayRecord = DayRecord(ad: int, bs: BsDate, weekday: nat, fiscalStart: int, quarter: nat)

  datatype Overlap = Overlap(ad: int, earlier: BsDate, later: BsDate)

  type DayTable = OrderedMap<int, DayRecord>

  // ---------------------------------------------------------------- one year

  /** `daysInMonths[m] || 30`, for the 0-based month `m`: also 30 past the array's end. */
  function Len(y: BsYear, m: nat): (n: nat)
    ensures n > 0
  {
    if m < 12 && y.months[m] != 0 then y.months[m] else 30
  }

  /** Days of year `y` before its 0-based month `m`. */
  function Offset(y: BsYear, m: nat): nat {
    if m == 0 then 0 else Offset(y, m - 1) + Len(y, m - 1)
  }

  /** `daysInMonths.reduce((a, b) => a + b, 0)`: zero months count as zero here. */
  function RawOffset(y: BsYear, m: nat): nat
    requires m <= 12
  {
    if m == 0 then 0 else RawOffset(y, m - 1) + y.months[m - 1]
  }

  function YearLen(y: BsYear): nat { Offset(y, |y.months|) }

  function RawLen(y: BsYear): nat { RawOffset(y, |y.months|) }

  function EndOf(y: BsYear): int { y.start + YearLen(y) - 1 }

  predicate Claims(y: BsYear, d: int) { y.start <= d <= EndOf(y) }

  predicate NoZeroMonth(y: BsYear) { forall m :: 0 <= m < 12 ==> y.months[m] > 0 }

  /** `formatNepaliFiscalYearCode`, as the fiscal year's first BS year. */
  function FiscalStart(yearBS: int, month: int): int {
    if month < 4 then yearBS - 1 else yearBS
  }

  function Quarter(month: int): nat {
    if 4 <= month <= 6 then 1 else if 7 <= month <= 9 then 2 else if 10 <= month <= 12 then 3 else 4
  }

  /** The record the table builder writes for day `day` (from 1) of the 0-based month `m`. */
  function RecordAt(y: BsYear, m: nat, day: nat): DayRecord
    requires m < 12
  {
    var ad := y.start + Offset(y, m) + day - 1;
    DayRecord(ad, BsDate(y.yearBS, m + 1, day), (ad + 4) % 7, FiscalStart(y.yearBS, m + 1), Quarter(m + 1))
  }

  /** The records of the first `m` months and the first `d` days of the next one. */
  function DaysThrough(y: BsYear, m: nat, d: nat): seq<DayRecord>
    requires m <= 12 && (if m < 12 then d <= Len(y, m) else d == 0)
    decreases m, d
  {
    if d > 0 then DaysThrough(y, m, d - 1) + [RecordAt(y, m, d)]
    else if m > 0 then DaysThrough(y, m - 1, Len(y, m - 1))
    else []
  }

  function DaysOfYear(y: BsYear): seq<DayRecord> { DaysThrough(y, 12, 0) }

  /** The month loop of `convertADToBS`: `diff` days after the start of the 0-based month `m`. */
  function Locate(y: BsYear, m: nat, diff: int): BsDate
    requires m <= 12
    decreases 12 - m
  {
    if m == 12 then BsDate(y.yearBS, 12, Len(y, 11))
    else if diff >= Len(y, m) then Locate(y, m + 1, diff - Len(y, m))
    else BsDate(y.yearBS, m + 1, diff + 1)
  }

  function DateIn(y: BsYear, d: int): BsDate { Locate(y, 0, d - y.start) }

  predicate ValidDate(y: BsYear, b: BsDate) {
    b.year == y.yearBS && 1 <= b.month <= 12 && 1 <= b.day <= Len(y, b.month - 1)
  }

  /** The day sum of `convertBSToAD`, for any month and day numbers. */
  function ToAD(y: BsYear, month: int, day: int): int {
    y.start + Offset(y, if month < 1 then 0 else month - 1) + day - 1
  }

  lemma {:induction false} OffsetMono(y: BsYear, a: nat, b: nat)
    requires a <= b
    ensures Offset(y, a) + (b - a) <= Offset(y, b)
    decreases b - a
  {
    if a < b { OffsetMono(y, a, b - 1); }
  }

  /** Walking the months from any earlier one finds the month and day an offset was built from. */
  lemma {:induction false} LocateFinds(y: BsYear, from: nat, m: nat, day: nat)
    requires from <= m < 12 && 1 <= day <= Len(y, m)
    ensures Locate(y, from, Offset(y, m) - Offset(y, from) + day - 1) == BsDate(y.yearBS, m + 1, day)
    decreases m - from
  {
    OffsetMono(y, from, m);
    if from < m {
      OffsetMono(y, from + 1, m);
      LocateFinds(y, from + 1, m, day);
    }
  }

  /** Inside the year the walk yields a valid date whose day sum leads back to the same day. */
  lemma {:induction false} LocateValid(y: BsYear, m: nat, diff: int)
    requires m < 12 && 0 <= diff < YearLen(y) - Offset(y, m)
    ensures ValidDate(y, Locate(y, m, diff))
    ensures Offset(y, Locate(y, m, diff).month - 1) + Locate(y, m, diff).day - 1 == Offset(y, m) + diff
    decreases 12 - m
  {
    if diff >= Len(y, m) { LocateValid(y, m + 1, diff - Len(y, m)); }
  }

  /** Past the year the walk answers its last day. */
  lemma {:induction false} LocateClamps(y: BsYear, m: nat, diff: int)
    requires m <= 12 && diff >= YearLen(y) - Offset(y, m)
    ensures Locate(y, m, diff) == BsDate(y.yearBS, 12, Len(y, 11))
    decreases 12 - m
  {
    if m < 12 {
      OffsetMono(y, m + 1, 12);
      LocateClamps(y, m + 1, diff - Len(y, m));
    }
  }

  /** Within one year the two conversions are mutually inverse bijections. */
  lemma YearBijection(y: BsYear, b: BsDate, d: int)
    ensures ValidDate(y, b) ==> Claims(y, ToAD(y, b.month, b.day)) && DateIn(y, ToAD(y, b.month, b.day)) == b
    ensures Claims(y, d) ==> ValidDate(y, DateIn(y, d)) && ToAD(y, DateIn(y, d).month, DateIn(y, d).day) == d
  {
    if ValidDate(y, b) {
      LocateFinds(y, 0, b.month - 1, b.day);
      OffsetMono(y, b.month, 12);
    }
    if Claims(y, d) { LocateValid(y, 0, d - y.start); }
  }

  lemma {:induction false} RawOffsetBound(y: BsYear, m: nat)
    requires m <= 12
    ensures RawOffset(y, m) <= Offset(y, m)
    ensures RawOffset(y, m) == Offset(y, m) <==> forall k :: 0 <= k < m ==> y.months[k] > 0
  {
    if m > 0 { RawOffsetBound(y, m - 1); }
  }

  /** The raw total is the year's length exactly when no month was entered as zero. */
  lemma RawLenIsYearLen(y: BsYear)
    ensures RawLen(y) <= YearLen(y)
    ensures RawLen(y) == YearLen(y) <==> NoZeroMonth(y)
  {
    RawOffsetBound(y, 12);
  }

  /** A BS date is in the fiscal year that begins on the last 1 Shrawan (month 4) not after it, and its quarter is that of the
      months since. */
  lemma FiscalYearExact(yearBS: int, month: int, f: int)
    requires 1 <= month <= 12
    ensures FiscalStart(yearBS, month) == f <==> 12 * f + 4 <= 12 * yearBS + month < 12 * (f + 1) + 4
    ensures Quarter(month) == (12 * yearBS + month - (12 * FiscalStart(yearBS, month) + 4)) / 3 + 1
  {
  }

  /** Month and day numbers outside a year: a month before Baisakh counts as Baisakh, each month past Chaitra as thirty days,
      and a day number simply adds. */
  lemma {:induction false} ToADRolls(y: BsYear, month: int, day: int)
    ensures month <= 1 ==> ToAD(y, month, day) == y.start + day - 1
    ensures month > 12 ==> ToAD(y, month, day) == EndOf(y) + 30 * (month - 13) + day
    decreases month
  {
    if month > 13 { ToADRolls(y, month - 1, day); }
  }

  /** The record of day `d` of year `y`, derived columns included. */
  function RecordFor(y: BsYear, d: int): DayRecord {
    var b := DateIn(y, d);
    DayRecord(d, b, (d + 4) % 7, FiscalStart(b.year, b.month), Quarter(b.month))
  }

  /** The table builder's day loop visits the year's days in order, each with its located date. */
  lemma {:induction false} DaysThroughAt(y: BsYear, m: nat, d: nat)
    requires m <= 12 && (if m < 12 then d <= Len(y, m) else d == 0)
    ensures |DaysThrough(y, m, d)| == Offset(y, m) + d
    ensures forall i :: 0 <= i < |DaysThrough(y, m, d)| ==> DaysThrough(y, m, d)[i] == RecordFor(y, y.start + i)
    decreases m, d
  {
    if d > 0 {
      DaysThroughAt(y, m, d - 1);
      LocateFinds(y, 0, m, d);
    } else if m > 0 {
      DaysThroughAt(y, m - 1, Len(y, m - 1));
    }
  }

  lemma DaysOfYearAt(y: BsYear)
    ensures |DaysOfYear(y)| == YearLen(y)
    ensures forall i :: 0 <= i < YearLen(y) ==> DaysOfYear(y)[i] == RecordFor(y, y.start + i)
  {
    DaysThroughAt(y, 12, 0);
  }

  // ------------------------------------------------------- a calendar of years

  /** Calendars are read in BS-year order; this is that order. */
  ghost predicate ByYear(ys: seq<BsYear>) {
    forall i, j :: 0 <= i < j < |ys| ==> ys[i].yearBS < ys[j].yearBS
  }

  ghost predicate AscendingStarts(ys: seq<BsYear>) {
    forall i, j :: 0 <= i < j < |ys| ==> ys[i].start < ys[j].start
  }

  function AllDays(ys: seq<BsYear>): seq<DayRecord> {
    if ys == [] then [] else AllDays(ys[..|ys| - 1]) + DaysOfYear(ys[|ys| - 1])
  }

  /** Writing records into the `Map` keyed by AD day, one after the other. */
  function Tabulate(rs: seq<DayRecord>): DayTable {
    if rs == [] then OrderedMap([], map[])
    else Tabulate(rs[..|rs| - 1]).Put(rs[|rs| - 1].ad, rs[|rs| - 1])
  }

  function TableOf(ys: seq<BsYear>): DayTable { Tabulate(AllDays(ys)) }

  datatype Audit = Audit(claimed: map<int, BsDate>, overlaps: seq<Overlap>)

  function AuditStep(a: Audit, r: DayRecord): Audit {
    if r.ad in a.claimed then a.(overlaps := a.overlaps + [Overlap(r.ad, a.claimed[r.ad], r.bs)])
    else a.(claimed := a.claimed[r.ad := r.bs])
  }

  function AuditOf(rs: seq<DayRecord>): Audit {
    if rs == [] then Audit(map[], []) else AuditStep(AuditOf(rs[..|rs| - 1]), rs[|rs| - 1])
  }

  function FindOverlaps(ys: seq<BsYear>): seq<Overlap> { AuditOf(AllDays(ys)).overlaps }

  /** The last and the first of the first `n` years claiming day `d`; -1 when there is none. */
  function LastClaimant(ys: seq<BsYear>, n: nat, d: int): (w: int)
    requires n <= |ys|
    ensures -1 <= w < n
    ensures w >= 0 ==> Claims(ys[w], d)
    ensures forall j :: w < j < n ==> !Claims(ys[j], d)
  {
    if n == 0 then -1 else if Claims(ys[n - 1], d) then n - 1 else LastClaimant(ys, n - 1, d)
  }

  function FirstClaimant(ys: seq<BsYear>, from: nat, d: int): (w: int)
    requires from <= |ys|
    ensures w == -1 || from <= w < |ys|
    ensures w >= 0 ==> Claims(ys[w], d) && forall j :: from <= j < w ==> !Claims(ys[j], d)
    ensures w == -1 ==> forall j :: from <= j < |ys| ==> !Claims(ys[j], d)
    decreases |ys| - from
  {
    if from == |ys| then -1 else if Claims(ys[from], d) then from else FirstClaimant(ys, from + 1, d)
  }

  predicate Recorded(ys: seq<BsYear>, d: int) { exists i :: 0 <= i < |ys| && Claims(ys[i], d) }

  // -------------------------------------------------------------- conversions

  datatype Conversion = Mapped(bs: BsDate) | NotADate | NoYears | Unmapped

  /** The year scan of `convertADToBS`: years are tried in order until one starts after `d`. */
  function ScanYears(ys: seq<BsYear>, d: int, i: nat, chosen: nat): (r: nat)
    requires i <= |ys| && chosen < |ys|
    ensures r < |ys|
    decreases |ys| - i
  {
    if i < |ys| && d >= ys[i].start then ScanYears(ys, d, i + 1, i) else chosen
  }

  function ConvertADToBS(ys: seq<BsYear>, day: Option<int>): Conversion {
    if day.None? then NotADate
    else if ys == [] then NoYears
    else
      var d := day.value;
      var last := ys[|ys| - 1];
      if d < ys[0].start || d > last.start + RawLen(last) - 1 then Unmapped
      else Mapped(DateIn(ys[ScanYears(ys, d, 0, 0)], d))
  }

  /** The index of BS year `year`, or -1. */
  function FindYear(ys: seq<BsYear>, year: int): (i: int)
    ensures -1 <= i < |ys|
    ensures i >= 0 ==> ys[i].yearBS == year
    ensures i == -1 ==> forall j :: 0 <= j < |ys| ==> ys[j].yearBS != year
  {
    if ys == [] then -1
    else if ys[|ys| - 1].yearBS == year then |ys| - 1
    else FindYear(ys[..|ys| - 1], year)
  }

  /** `convertBSToAD`; `None` where it throws because the year is not seeded. */
  function ConvertBSToAD(ys: seq<BsYear>, b: BsDate): Option<int> {
    var i := FindYear(ys, b.year);
    if i < 0 then None else Some(ToAD(ys[i], b.month, b.day))
  }

  /** The seeder's `bsLabel`: the first year whose raw months reach `d`; `None` where it throws. */
  function SeederMonth(y: BsYear, m: nat, running: int, d: int): Option<BsDate>
    requires m <= 12
    decreases 12 - m
  {
    if m == 12 then None
    else if d <= running + y.months[m] - 1 then Some(BsDate(y.yearBS, m + 1, d - running + 1))
    else SeederMonth(y, m + 1, running + y.months[m], d)
  }

  function SeederLabel(ys: seq<BsYear>, from: nat, d: int): Option<BsDate>
    requires from <= |ys|
    decreases |ys| - from
  {
    if from == |ys| then None
    else if d < ys[from].start then SeederLabel(ys, from + 1, d)
    else
      var found := SeederMonth(ys[from], 0, ys[from].start, d);
      if found.Some? then found else SeederLabel(ys, from + 1, d)
  }
}
