/**
 * When the arithmetic conversions agree with the day table, with each other and with the seeder.
 * The only standing hypothesis is that the years are read in BS order with strictly ascending
 * Baisakh-1 days; overlaps, gaps and zero month entries are allowed and the conditions are exact.
 */
module BsConversion {
  import opened Collections
  import opened BsCalendar
  import opened BsCalendarTheory

  ghost predicate Ordered(ys: seq<BsYear>) { ys != [] && ByYear(ys) && AscendingStarts(ys) }

  /** Year `k` ends early before a gap of which the older year `j` still claims the first day. */
  ghost predicate Shadows(ys: seq<BsYear>, j: int, k: int)
    requires 0 <= j < k < |ys|
  {
    EndOf(ys[k]) < EndOf(ys[j]) && (k + 1 < |ys| ==> EndOf(ys[k]) + 1 < ys[k + 1].start)
  }

  ghost predicate NoShadow(ys: seq<BsYear>) {
    forall j, k :: 0 <= j < k < |ys| ==> !Shadows(ys, j, k)
  }

  ghost predicate AscendingEnds(ys: seq<BsYear>) {
    forall j, k :: 0 <= j < k < |ys| ==> EndOf(ys[j]) <= EndOf(ys[k])
  }

  ghost predicate Disjoint(ys: seq<BsYear>) {
    forall j, k :: 0 <= j < k < |ys| ==> EndOf(ys[j]) < ys[k].start
  }

  ghost predicate LastIsRaw(ys: seq<BsYear>)
    requires ys != []
  {
    NoZeroMonth(ys[|ys| - 1])
  }

  function SelectedYear(ys: seq<BsYear>, d: int): (k: nat)
    requires ys != []
    ensures k < |ys|
  {
    ScanYears(ys, d, 0, 0)
  }

  lemma {:induction false} ScanFinds(ys: seq<BsYear>, d: int, i: nat, chosen: nat)
    requires Ordered(ys) && i <= |ys| && chosen < |ys|
    requires if i == 0 then d >= ys[0].start else chosen == i - 1 && d >= ys[chosen].start
    ensures var k := ScanYears(ys, d, i, chosen);
            && ys[k].start <= d
            && forall j :: k < j < |ys| ==> d < ys[j].start
    decreases |ys| - i
  {
    if i < |ys| && d >= ys[i].start { ScanFinds(ys, d, i + 1, i); }
  }

  /** A recorded day is read from the table row exactly when the year the scan selects claims it
      and it is not past the raw end of the last year; otherwise the answer is a different day or none. */
  lemma ConvertDay(ys: seq<BsYear>, d: int)
    requires Ordered(ys) && Recorded(ys, d)
    ensures var k, last := SelectedYear(ys, d), ys[|ys| - 1];
            var good := Claims(ys[k], d) && d <= last.start + RawLen(last) - 1;
            && d in TableOf(ys).vals
            && (good <==> ConvertADToBS(ys, Some(d)) == Mapped(TableOf(ys).vals[d].bs))
            && (good <==> ConvertADToBS(ys, Some(d)).Mapped? && ConvertBSToAD(ys, ConvertADToBS(ys, Some(d)).bs) == Some(d))
  {
    TableByDay(ys, d);
    var i :| 0 <= i < |ys| && Claims(ys[i], d);
    assert ys[0].start <= ys[i].start;
    ScanFinds(ys, d, 0, 0);
    var k, w := SelectedYear(ys, d), LastClaimant(ys, |ys|, d);
    YearBijection(ys[w], DateIn(ys[w], d), d);
    SelectedAnswer(ys, d);
    if Claims(ys[k], d) {
      assert w == k;
    }
  }

  /** The date read off the selected year: the day's own date, or that year's clamped last day. */
  lemma SelectedAnswer(ys: seq<BsYear>, d: int)
    requires Ordered(ys) && d >= ys[0].start
    ensures var k := SelectedYear(ys, d);
            var b := DateIn(ys[k], d);
            && b.year == ys[k].yearBS
            && ValidDate(ys[k], b)
            && FindYear(ys, b.year) == k
            && ToAD(ys[k], b.month, b.day) == (if Claims(ys[k], d) then d else EndOf(ys[k]))
  {
    ScanFinds(ys, d, 0, 0);
    var k := SelectedYear(ys, d);
    var y := ys[k];
    FindYearAt(ys, k);
    if Claims(y, d) {
      YearBijection(y, DateIn(y, d), d);
    } else {
      LocateClamps(y, 0, d - y.start);
      assert YearLen(y) == Offset(y, 11) + Len(y, 11);
    }
  }

  lemma FindYearAt(ys: seq<BsYear>, k: nat)
    requires ByYear(ys) && k < |ys|
    ensures FindYear(ys, ys[k].yearBS) == k
  {
    var i := FindYear(ys, ys[k].yearBS);
    assert ys[i].yearBS == ys[k].yearBS;
  }

  ghost predicate TableAgrees(ys: seq<BsYear>) {
    forall d :: Recorded(ys, d) ==>
                  d in TableOf(ys).vals && ConvertADToBS(ys, Some(d)) == Mapped(TableOf(ys).vals[d].bs)
  }

  ghost predicate AdRoundTrips(ys: seq<BsYear>) {
    forall d :: Recorded(ys, d) ==>
                  && ConvertADToBS(ys, Some(d)).Mapped?
                  && ConvertBSToAD(ys, ConvertADToBS(ys, Some(d)).bs) == Some(d)
  }

  /** Main result: the arithmetic conversion equals the materialised table on every recorded day, days
      claimed by several years included, iff no year is shadowed and the last year has no zero month;
      and the same condition decides whether AD to BS to AD is the identity on every recorded day. */
  lemma ConversionAgrees(ys: seq<BsYear>)
    requires Ordered(ys)
    ensures TableAgrees(ys) <==> NoShadow(ys) && LastIsRaw(ys)
    ensures AdRoundTrips(ys) <==> NoShadow(ys) && LastIsRaw(ys)
  {
    var last := ys[|ys| - 1];
    RawLenIsYearLen(last);
    if NoShadow(ys) && LastIsRaw(ys) {
      forall d | Recorded(ys, d)
        ensures d in TableOf(ys).vals && ConvertADToBS(ys, Some(d)) == Mapped(TableOf(ys).vals[d].bs)
        ensures ConvertBSToAD(ys, ConvertADToBS(ys, Some(d)).bs) == Some(d)
      {
        UnshadowedDay(ys, d);
        ConvertDay(ys, d);
      }
    }
    if !(NoShadow(ys) && LastIsRaw(ys)) {
      var d := BadDay(ys);
      ConvertDay(ys, d);
    }
  }

  lemma UnshadowedDay(ys: seq<BsYear>, d: int)
    requires Ordered(ys) && NoShadow(ys) && Recorded(ys, d)
    ensures Claims(ys[SelectedYear(ys, d)], d) && d <= EndOf(ys[|ys| - 1])
  {
    var i :| 0 <= i < |ys| && Claims(ys[i], d);
    assert ys[0].start <= ys[i].start;
    ScanFinds(ys, d, 0, 0);
    var k, n := SelectedYear(ys, d), |ys| - 1;
    assert i <= k;
    assert i < k ==> !Shadows(ys, i, k);
    assert k < n ==> d < ys[k + 1].start && !Shadows(ys, k, n);
  }

  /** A recorded day on which the conversion goes wrong, when the condition fails. */
  lemma BadDay(ys: seq<BsYear>) returns (d: int)
    requires Ordered(ys) && !(NoShadow(ys) && LastIsRaw(ys))
    ensures Recorded(ys, d)
    ensures !Claims(ys[SelectedYear(ys, d)], d) || d > ys[|ys| - 1].start + RawLen(ys[|ys| - 1]) - 1
  {
    var last := ys[|ys| - 1];
    if !LastIsRaw(ys) {
      RawLenIsYearLen(last);
      d := EndOf(last);
      YearNonEmpty(last);
      assert Claims(last, d);
    } else {
      d := ShadowedDay(ys);
    }
  }

  lemma ShadowedDay(ys: seq<BsYear>) returns (d: int)
    requires Ordered(ys) && !NoShadow(ys)
    ensures Recorded(ys, d) && !Claims(ys[SelectedYear(ys, d)], d)
  {
    var j, k :| 0 <= j < k < |ys| && Shadows(ys, j, k);
    d := EndOf(ys[k]) + 1;
    YearNonEmpty(ys[k]);
    assert ys[0].start <= ys[j].start < ys[k].start;
    assert Claims(ys[j], d);
    ScanFinds(ys, d, 0, 0);
    var s := SelectedYear(ys, d);
  }

  lemma YearNonEmpty(y: BsYear)
    ensures y.start <= EndOf(y)
  {
    OffsetMono(y, 0, |y.months|);
  }

  /** Years that end in order are never shadowed. */
  lemma AscendingEndsSuffice(ys: seq<BsYear>)
    requires Ordered(ys) && AscendingEnds(ys) && LastIsRaw(ys)
    ensures TableAgrees(ys) && AdRoundTrips(ys)
  {
    ConversionAgrees(ys);
  }

  ghost predicate BsRoundTrips(ys: seq<BsYear>) {
    forall b, i :: 0 <= i < |ys| && ValidDate(ys[i], b) ==>
                     ConvertBSToAD(ys, b).Some? && ConvertADToBS(ys, ConvertBSToAD(ys, b)) == Mapped(b)
  }

  /** BS to AD to BS is the identity on every valid date iff no two years overlap and the last year has
      no zero month. */
  lemma BsRoundTripExact(ys: seq<BsYear>)
    requires Ordered(ys)
    ensures BsRoundTrips(ys) <==> Disjoint(ys) && LastIsRaw(ys)
  {
    var last := ys[|ys| - 1];
    RawLenIsYearLen(last);
    if Disjoint(ys) && LastIsRaw(ys) {
      forall b, i | 0 <= i < |ys| && ValidDate(ys[i], b)
        ensures ConvertBSToAD(ys, b).Some? && ConvertADToBS(ys, ConvertBSToAD(ys, b)) == Mapped(b)
      {
        DisjointDay(ys, i, b);
      }
    }
    if !LastIsRaw(ys) {
      LastDayIsLost(ys);
    } else if !Disjoint(ys) {
      var i := OverlapPair(ys);
      OverlappedDayMoves(ys, i);
    }
  }

  lemma LastDayIsLost(ys: seq<BsYear>)
    requires Ordered(ys) && !LastIsRaw(ys)
    ensures !BsRoundTrips(ys)
  {
    var last := ys[|ys| - 1];
    RawLenIsYearLen(last);
    var b := BsDate(last.yearBS, 12, Len(last, 11));
    assert YearLen(last) == Offset(last, 11) + Len(last, 11);
    FindYearAt(ys, |ys| - 1);
    assert ValidDate(last, b) && ConvertBSToAD(ys, b) == Some(EndOf(last));
  }

  lemma OverlappedDayMoves(ys: seq<BsYear>, i: nat)
    requires Ordered(ys) && i + 1 < |ys| && Claims(ys[i], ys[i + 1].start)
    ensures !BsRoundTrips(ys)
  {
    var d := ys[i + 1].start;
    var b := DateIn(ys[i], d);
    YearBijection(ys[i], b, d);
    FindYearAt(ys, i);
    ScanFinds(ys, d, 0, 0);
    var k := SelectedYear(ys, d);
    assert i < k && ys[i].yearBS < ys[k].yearBS;
    SelectedAnswer(ys, d);
    assert ConvertBSToAD(ys, b) == Some(d);
    assert ConvertADToBS(ys, Some(d)) != Mapped(b);
  }

  lemma DisjointDay(ys: seq<BsYear>, i: nat, b: BsDate)
    requires Ordered(ys) && Disjoint(ys) && LastIsRaw(ys) && i < |ys| && ValidDate(ys[i], b)
    ensures ConvertBSToAD(ys, b).Some? && ConvertADToBS(ys, ConvertBSToAD(ys, b)) == Mapped(b)
  {
    var d := ToAD(ys[i], b.month, b.day);
    YearBijection(ys[i], b, d);
    FindYearAt(ys, i);
    assert ys[0].start <= ys[i].start;
    ScanFinds(ys, d, 0, 0);
    var k := SelectedYear(ys, d);
    assert k == i;
    RawLenIsYearLen(ys[|ys| - 1]);
    if i < |ys| - 1 { assert EndOf(ys[i]) < ys[|ys| - 1].start; }
  }

  /** Two overlapping years imply two neighbouring ones that overlap. */
  lemma OverlapPair(ys: seq<BsYear>) returns (i: nat)
    requires Ordered(ys) && !Disjoint(ys)
    ensures i + 1 < |ys| && Claims(ys[i], ys[i + 1].start)
  {
    var j, k :| 0 <= j < k < |ys| && EndOf(ys[j]) >= ys[k].start;
    i := j;
    assert ys[j].start < ys[j + 1].start <= ys[k].start;
  }

  predicate Less(a: BsDate, b: BsDate) {
    a.year < b.year || (a.year == b.year && (a.month < b.month || (a.month == b.month && a.day < b.day)))
  }

  ghost predicate OrderPreserved(ys: seq<BsYear>) {
    forall i, j, a, b :: 0 <= i < |ys| && 0 <= j < |ys| && ValidDate(ys[i], a) && ValidDate(ys[j], b) ==>
                           (Less(a, b) <==> ToAD(ys[i], a.month, a.day) < ToAD(ys[j], b.month, b.day))
  }

  lemma YearOrder(y: BsYear, a: BsDate, b: BsDate)
    requires ValidDate(y, a) && ValidDate(y, b)
    ensures Less(a, b) <==> ToAD(y, a.month, a.day) < ToAD(y, b.month, b.day)
  {
    if a.month < b.month { OffsetMono(y, a.month, b.month - 1); }
    if b.month < a.month { OffsetMono(y, b.month, a.month - 1); }
  }

  /** BS order and AD order agree on all valid dates iff no two years overlap. */
  lemma OrderExact(ys: seq<BsYear>)
    requires Ordered(ys)
    ensures OrderPreserved(ys) <==> Disjoint(ys)
  {
    if Disjoint(ys) {
      forall i, j, a, b | 0 <= i < |ys| && 0 <= j < |ys| && ValidDate(ys[i], a) && ValidDate(ys[j], b)
        ensures Less(a, b) <==> ToAD(ys[i], a.month, a.day) < ToAD(ys[j], b.month, b.day)
      {
        YearBijection(ys[i], a, 0);
        YearBijection(ys[j], b, 0);
        if i == j { YearOrder(ys[i], a, b); }
      }
    } else {
      var i := OverlapPair(ys);
      var d := ys[i + 1].start;
      YearBijection(ys[i], DateIn(ys[i], d), d);
      YearNonEmpty(ys[i + 1]);
      YearBijection(ys[i + 1], DateIn(ys[i + 1], d), d);
      assert Less(DateIn(ys[i], d), DateIn(ys[i + 1], d));
    }
  }

  // ------------------------------------------------------- the seeder's labels

  /** The seeder reads the raw months: a zero month is passed over, so the year ends early. */
  predicate RawClaims(y: BsYear, d: int) { y.start <= d < y.start + RawLen(y) }

  predicate RawDated(y: BsYear, d: int, b: BsDate) {
    && b.year == y.yearBS && 1 <= b.month <= 12 && 1 <= b.day <= y.months[b.month - 1]
    && y.start + RawOffset(y, b.month - 1) + b.day - 1 == d
  }

  function FirstRaw(ys: seq<BsYear>, from: nat, d: int): (w: int)
    requires from <= |ys|
    ensures w == -1 || (from <= w < |ys| && RawClaims(ys[w], d))
    ensures forall j :: from <= j < (if w < 0 then |ys| else w) ==> !RawClaims(ys[j], d)
    decreases |ys| - from
  {
    if from == |ys| then -1 else if RawClaims(ys[from], d) then from else FirstRaw(ys, from + 1, d)
  }

  lemma {:induction false} RawOffsetMono(y: BsYear, a: nat, b: nat)
    requires a <= b <= 12
    ensures RawOffset(y, a) <= RawOffset(y, b)
  {
    if a < b { RawOffsetMono(y, a, b - 1); }
  }

  /** From month `m` on, the seeder's month loop finds the raw date of `d` exactly when the year still reaches it. */
  lemma {:induction false} SeederMonthIsRaw(y: BsYear, m: nat, running: int, d: int)
    requires m <= 12 && running == y.start + RawOffset(y, m) && d >= running
    ensures var r := SeederMonth(y, m, running, d);
            && (r.Some? <==> RawClaims(y, d))
            && (r.Some? ==> RawDated(y, d, r.value) && r.value.month > m)
    decreases 12 - m
  {
    if m < 12 {
      RawOffsetMono(y, m + 1, 12);
      if d > running + y.months[m] - 1 { SeederMonthIsRaw(y, m + 1, running + y.months[m], d); }
    }
  }

  lemma YearLabels(y: BsYear, d: int)
    requires d >= y.start
    ensures var r := SeederMonth(y, 0, y.start, d); (r.Some? <==> RawClaims(y, d)) && (r.Some? ==> RawDated(y, d, r.value))
  {
    SeederMonthIsRaw(y, 0, y.start, d);
  }

  lemma LabelSteps(ys: seq<BsYear>, from: nat, d: int)
    requires from < |ys|
    ensures !RawClaims(ys[from], d) ==> SeederLabel(ys, from, d) == SeederLabel(ys, from + 1, d)
    ensures RawClaims(ys[from], d) ==> SeederLabel(ys, from, d) == SeederMonth(ys[from], 0, ys[from].start, d)
    ensures RawClaims(ys[from], d) ==> SeederLabel(ys, from, d).Some? && RawDated(ys[from], d, SeederLabel(ys, from, d).value)
  {
    if d >= ys[from].start { YearLabels(ys[from], d); }
  }

  /** The seeder labels a day with its raw date in the first year whose raw months reach it, and throws when none does. */
  lemma {:induction false} SeederFirst(ys: seq<BsYear>, from: nat, d: int)
    requires from <= |ys|
    ensures var e, r := FirstRaw(ys, from, d), SeederLabel(ys, from, d);
            (r.Some? <==> e >= 0) && (r.Some? ==> RawDated(ys[e], d, r.value))
    decreases |ys| - from
  {
    if from < |ys| {
      SeederFirst(ys, from + 1, d);
      LabelSteps(ys, from, d);
    }
  }

  /** No zero month of the year has begun by day `d`. */
  ghost predicate NoZeroBy(y: BsYear, d: int) {
    forall i :: 0 <= i < 12 && y.months[i] == 0 ==> d < y.start + Offset(y, i)
  }

  /** Where no zero month has begun yet, the seeder's month loop locates the day as the client does. */
  lemma {:induction false} SeederMonthIsLocate(y: BsYear, m: nat, running: int, d: int)
    requires m <= 12 && running == y.start + Offset(y, m) && running <= d <= EndOf(y) && NoZeroBy(y, d)
    ensures SeederMonth(y, m, running, d) == Some(Locate(y, m, d - running))
    decreases 12 - m
  {
    if m < 12 && d > running + y.months[m] - 1 { SeederMonthIsLocate(y, m + 1, running + y.months[m], d); }
  }

  ghost predicate SeederAgrees(ys: seq<BsYear>) {
    forall d :: Recorded(ys, d) ==> DayAgrees(ys, d)
  }

  predicate DayAgrees(ys: seq<BsYear>, d: int) {
    ConvertADToBS(ys, Some(d)).Mapped? && SeederLabel(ys, 0, d) == Some(ConvertADToBS(ys, Some(d)).bs)
  }

  /** No year's raw months reach the next year. */
  ghost predicate RawDisjoint(ys: seq<BsYear>) {
    forall j, k :: 0 <= j < k < |ys| ==> ys[j].start + RawLen(ys[j]) <= ys[k].start
  }

  /** Every zero month begins only where the next year has already taken over. */
  ghost predicate ZerosHidden(ys: seq<BsYear>) {
    forall k, m :: 0 <= k < |ys| && 0 <= m < 12 && ys[k].months[m] == 0 ==> ZeroHidden(ys, k, m)
  }

  predicate ZeroHidden(ys: seq<BsYear>, k: nat, m: nat)
    requires k < |ys|
  {
    k + 1 < |ys| && ys[k + 1].start <= ys[k].start + Offset(ys[k], m)
  }

  lemma SelectedIs(ys: seq<BsYear>, d: int, k: nat)
    requires Ordered(ys) && k < |ys| && ys[k].start <= d && (k + 1 < |ys| ==> d < ys[k + 1].start)
    ensures SelectedYear(ys, d) == k
  {
    assert ys[0].start <= ys[k].start;
    assert forall j :: k < j < |ys| ==> ys[k + 1].start <= ys[j].start;
    ScanFinds(ys, d, 0, 0);
  }

  /** The client answers with a date of the selected year; so does the seeder, if they agree. */
  lemma AgreedYear(ys: seq<BsYear>, d: int, k: nat)
    requires Ordered(ys) && DayAgrees(ys, d) && k == SelectedYear(ys, d)
    ensures FirstRaw(ys, 0, d) == k && RawDated(ys[k], d, DateIn(ys[k], d))
  {
    SeederFirst(ys, 0, d);
    var e := FirstRaw(ys, 0, d);
    SelectedAnswer(ys, d);
    assert ys[e].yearBS == ys[k].yearBS;
  }

  lemma AgreeingIsUnshadowed(ys: seq<BsYear>)
    requires Ordered(ys) && SeederAgrees(ys)
    ensures NoShadow(ys)
  {
    if !NoShadow(ys) {
      var d := ShadowedDay(ys);
      var k := SelectedYear(ys, d);
      assert DayAgrees(ys, d);
      AgreedYear(ys, d, k);
      RawLenIsYearLen(ys[k]);
    }
  }

  lemma AgreeingIsRawDisjoint(ys: seq<BsYear>)
    requires Ordered(ys) && SeederAgrees(ys)
    ensures RawDisjoint(ys)
  {
    forall j, k | 0 <= j < k < |ys| ensures ys[j].start + RawLen(ys[j]) <= ys[k].start {
      var d := ys[k].start;
      YearNonEmpty(ys[k]);
      assert Claims(ys[k], d);
      SelectedIs(ys, d, k);
      assert DayAgrees(ys, d);
      AgreedYear(ys, d, k);
      assert !RawClaims(ys[j], d);
    }
  }

  lemma {:induction false} FirstZero(y: BsYear, m: nat) returns (f: nat)
    requires m < 12 && y.months[m] == 0
    ensures f <= m && y.months[f] == 0 && RawOffset(y, f) == Offset(y, f)
  {
    f := 0;
    while y.months[f] != 0
      invariant f <= m && RawOffset(y, f) == Offset(y, f)
      decreases m - f
    {
      f := f + 1;
    }
  }

  lemma AgreeingHidesZeros(ys: seq<BsYear>, k: nat, m: nat)
    requires Ordered(ys) && SeederAgrees(ys) && k < |ys| && m < 12 && ys[k].months[m] == 0
    ensures ZeroHidden(ys, k, m)
  {
    if !ZeroHidden(ys, k, m) {
      var y := ys[k];
      var f := FirstZero(y, m);
      var d := y.start + Offset(y, f);
      OffsetMono(y, f, m);
      OffsetMono(y, f + 1, 12);
      assert Claims(y, d);
      SelectedIs(ys, d, k);
      assert DayAgrees(ys, d);
      AgreedYear(ys, d, k);
      LocateFinds(y, 0, f, 1);
    }
  }

  /** The seeder passes over the years whose raw months do not reach `d`. */
  lemma {:induction false} FirstToReach(ys: seq<BsYear>, from: nat, k: nat, d: int)
    requires from <= k < |ys| && RawDisjoint(ys) && RawClaims(ys[k], d)
    ensures SeederLabel(ys, from, d) == SeederLabel(ys, k, d)
    decreases k - from
  {
    if from < k {
      LabelSteps(ys, from, d);
      FirstToReach(ys, from + 1, k, d);
    }
  }

  /** In the selected year, the label is the client's date. */
  lemma SelectedLabel(y: BsYear, d: int)
    requires Claims(y, d) && NoZeroBy(y, d)
    ensures SeederMonth(y, 0, y.start, d) == Some(DateIn(y, d))
  {
    SeederMonthIsLocate(y, 0, y.start, d);
  }

  lemma InBounds(ys: seq<BsYear>, d: int)
    requires Ordered(ys) && NoShadow(ys) && LastIsRaw(ys) && Recorded(ys, d)
    ensures ConvertADToBS(ys, Some(d)) == Mapped(DateIn(ys[SelectedYear(ys, d)], d))
    ensures Claims(ys[SelectedYear(ys, d)], d)
  {
    UnshadowedDay(ys, d);
    RawLenIsYearLen(ys[|ys| - 1]);
    var i :| 0 <= i < |ys| && Claims(ys[i], d);
    assert ys[0].start <= ys[i].start;
  }

  lemma HiddenLast(ys: seq<BsYear>)
    requires ys != []
    ensures ZerosHidden(ys) ==> LastIsRaw(ys)
  {
    if !LastIsRaw(ys) {
      var m :| 0 <= m < 12 && ys[|ys| - 1].months[m] == 0;
      assert !ZeroHidden(ys, |ys| - 1, m);
    }
  }

  lemma DayAgreesWhenHidden(ys: seq<BsYear>, d: int)
    requires Ordered(ys) && NoShadow(ys) && RawDisjoint(ys) && ZerosHidden(ys) && Recorded(ys, d)
    ensures DayAgrees(ys, d)
  {
    HiddenLast(ys);
    InBounds(ys, d);
    var k := SelectedYear(ys, d);
    SelectedBefore(ys, d);
    forall m | 0 <= m < 12 && ys[k].months[m] == 0 ensures d < ys[k].start + Offset(ys[k], m) { assert ZeroHidden(ys, k, m); }
    SelectedLabel(ys[k], d);
    YearLabels(ys[k], d);
    FirstToReach(ys, 0, k, d);
    LabelSteps(ys, k, d);
  }

  lemma SelectedBefore(ys: seq<BsYear>, d: int)
    requires Ordered(ys) && Recorded(ys, d)
    ensures var k := SelectedYear(ys, d); k + 1 < |ys| ==> d < ys[k + 1].start
  {
    var i :| 0 <= i < |ys| && Claims(ys[i], d);
    assert ys[0].start <= ys[i].start;
    ScanFinds(ys, d, 0, 0);
  }

  /** The seeder's label equals the client's conversion on every recorded day if and only if no year is shadowed, no
      year's raw months reach the next year, and every zero month begins only after the next year has taken over. */
  lemma SeederExact(ys: seq<BsYear>)
    requires Ordered(ys)
    ensures SeederAgrees(ys) <==> NoShadow(ys) && RawDisjoint(ys) && ZerosHidden(ys)
  {
    if SeederAgrees(ys) {
      AgreeingIsUnshadowed(ys);
      AgreeingIsRawDisjoint(ys);
      forall k, m | 0 <= k < |ys| && 0 <= m < 12 && ys[k].months[m] == 0 ensures ZeroHidden(ys, k, m) { AgreeingHidesZeros(ys, k, m); }
    }
    if NoShadow(ys) && RawDisjoint(ys) && ZerosHidden(ys) {
      forall d | Recorded(ys, d) ensures DayAgrees(ys, d) { DayAgreesWhenHidden(ys, d); }
    }
  }

  /** With positive months that is: no two years overlap. */
  lemma SeederExactPositive(ys: seq<BsYear>)
    requires Ordered(ys) && forall i :: 0 <= i < |ys| ==> NoZeroMonth(ys[i])
    ensures SeederAgrees(ys) <==> Disjoint(ys)
  {
    SeederExact(ys);
    forall i | 0 <= i < |ys| ensures RawLen(ys[i]) == YearLen(ys[i]) { RawLenIsYearLen(ys[i]); }
    assert RawDisjoint(ys) <==> Disjoint(ys);
    if Disjoint(ys) {
      forall j, k | 0 <= j < k < |ys| ensures !Shadows(ys, j, k) { YearNonEmpty(ys[k]); }
    }
  }

  // ------------------------------------------------------- gaps

  /** A day in a gap inside the bounds is not refused: the conversion answers a real date of another
      day, the last day of the year before the gap. Hence the gate on an exact record. */
  lemma GapIsClamped(ys: seq<BsYear>, d: int)
    requires Ordered(ys) && !Recorded(ys, d)
    requires ys[0].start <= d <= ys[|ys| - 1].start + RawLen(ys[|ys| - 1]) - 1
    ensures var k := SelectedYear(ys, d);
            && ConvertADToBS(ys, Some(d)) == Mapped(BsDate(ys[k].yearBS, 12, Len(ys[k], 11)))
            && ConvertBSToAD(ys, ConvertADToBS(ys, Some(d)).bs) == Some(EndOf(ys[k]))
            && EndOf(ys[k]) < d
  {
    ScanFinds(ys, d, 0, 0);
    SelectedAnswer(ys, d);
    var k := SelectedYear(ys, d);
    assert !Claims(ys[k], d);
    LocateClamps(ys[k], 0, d - ys[k].start);
  }

  /** Each later year starts at most one day past the end of some earlier year. */
  ghost predicate NoGap(ys: seq<BsYear>) {
    forall k :: 0 < k < |ys| ==> Reached(ys, k)
  }

  predicate Reached(ys: seq<BsYear>, k: nat)
    requires k < |ys|
  {
    exists j :: 0 <= j < k && ys[k].start <= EndOf(ys[j]) + 1
  }

  ghost predicate RefusesUnrecorded(ys: seq<BsYear>) {
    forall d :: !Recorded(ys, d) ==> ConvertADToBS(ys, Some(d)) == Unmapped
  }

  lemma GapDay(ys: seq<BsYear>, k: nat)
    requires Ordered(ys) && 0 < k < |ys| && !Reached(ys, k)
    ensures !Recorded(ys, ys[k].start - 1) && ConvertADToBS(ys, Some(ys[k].start - 1)) != Unmapped
  {
    var d, last := ys[k].start - 1, ys[|ys| - 1];
    forall i | 0 <= i < |ys| ensures !Claims(ys[i], d) {
      if i < k { assert ys[k].start > EndOf(ys[i]) + 1; } else { assert ys[k].start <= ys[i].start; }
    }
    YearNonEmpty(ys[0]);
    assert ys[k].start > EndOf(ys[0]) + 1;
    assert ys[k].start <= last.start;
  }

  lemma ReachedIsRecorded(ys: seq<BsYear>, k: nat, d: int)
    requires Ordered(ys) && k + 1 < |ys| && Reached(ys, k + 1) && ys[k].start <= d < ys[k + 1].start
    ensures Recorded(ys, d)
  {
    var j :| 0 <= j < k + 1 && ys[k + 1].start <= EndOf(ys[j]) + 1;
    assert ys[j].start <= ys[k].start;
    assert Claims(ys[j], d);
  }

  lemma UnrecordedIsRefused(ys: seq<BsYear>, d: int)
    requires Ordered(ys) && NoGap(ys) && !Recorded(ys, d)
    ensures ConvertADToBS(ys, Some(d)) == Unmapped
  {
    var n := |ys| - 1;
    RawLenIsYearLen(ys[n]);
    if ys[0].start <= d <= ys[n].start + RawLen(ys[n]) - 1 {
      ScanFinds(ys, d, 0, 0);
      var k := SelectedYear(ys, d);
      assert !Claims(ys[n], d);
      if k < n { ReachedIsRecorded(ys, k, d); }
    }
  }

  /** The conversion refuses every unrecorded day if and only if the years leave no gap between them. */
  lemma RefusesExactly(ys: seq<BsYear>)
    requires Ordered(ys)
    ensures RefusesUnrecorded(ys) <==> NoGap(ys)
  {
    if NoGap(ys) {
      forall d | !Recorded(ys, d) ensures ConvertADToBS(ys, Some(d)) == Unmapped { UnrecordedIsRefused(ys, d); }
    } else {
      var k :| 0 < k < |ys| && !Reached(ys, k);
      GapDay(ys, k);
    }
  }

  // ------------------------------------------------------- calendars that break the conditions

  function EvenYear(year: int, len: nat, last: nat, start: int): BsYear {
    YearData(year, [len, len, len, len, len, len, len, len, len, len, len, last], start)
  }

  lemma {:induction false} EvenMonths(y: BsYear, len: nat, m: nat)
    requires m <= 11 && len > 0 && forall i :: 0 <= i < 11 ==> y.months[i] == len
    ensures Offset(y, m) == RawOffset(y, m) == len * m
  {
    if m > 0 { EvenMonths(y, len, m - 1); }
  }

  lemma EvenYearLen(year: int, len: nat, last: nat, start: int)
    requires len > 0
    ensures var y := EvenYear(year, len, last, start);
            RawLen(y) == 11 * len + last && YearLen(y) == 11 * len + (if last == 0 then 30 else last)
  {
    EvenMonths(EvenYear(year, len, last, start), len, 11);
  }

  /** Two years of 360 days, the second starting a day late: the day between them is recorded by neither, and is answered
      with the last day of the first year. */
  lemma GapHappens(year: int)
    ensures var ys := [EvenYear(year, 30, 30, 0), EvenYear(year + 1, 30, 30, 361)];
            && Ordered(ys) && !Recorded(ys, 360) && !RefusesUnrecorded(ys)
            && ConvertADToBS(ys, Some(360)) == Mapped(BsDate(year, 12, 30))
  {
    var ys := [EvenYear(year, 30, 30, 0), EvenYear(year + 1, 30, 30, 361)];
    EvenYearLen(year, 30, 30, 0);
    EvenYearLen(year + 1, 30, 30, 361);
    assert !Claims(ys[0], 360) && !Claims(ys[1], 360);
    SelectedIs(ys, 360, 0);
    GapIsClamped(ys, 360);
  }

  /** A long year whose end outlasts the year after it: a day recorded for the first is answered with the last day of the
      second, so neither the table nor the round trip agrees. */
  lemma ShadowHappens(year: int)
    ensures var ys := [EvenYear(year, 60, 60, 0), EvenYear(year + 1, 30, 30, 300), EvenYear(year + 2, 30, 30, 1000)];
            && Ordered(ys) && !TableAgrees(ys) && !AdRoundTrips(ys)
            && Claims(ys[0], 660) && ConvertADToBS(ys, Some(660)) == Mapped(BsDate(year + 1, 12, 30))
  {
    var ys := [EvenYear(year, 60, 60, 0), EvenYear(year + 1, 30, 30, 300), EvenYear(year + 2, 30, 30, 1000)];
    EvenYearLen(year, 60, 60, 0);
    EvenYearLen(year + 1, 30, 30, 300);
    EvenYearLen(year + 2, 30, 30, 1000);
    assert Shadows(ys, 0, 1);
    ConversionAgrees(ys);
    SelectedIs(ys, 660, 1);
    LocateClamps(ys[1], 0, 360);
  }

  /** A last month entered as zero: the year's last thirty days are recorded and refused, and its last date does not come
      back. */
  lemma ZeroMonthHappens(year: int)
    ensures var ys := [EvenYear(year, 30, 0, 0)];
            && Ordered(ys) && Disjoint(ys) && NoShadow(ys) && !TableAgrees(ys) && !AdRoundTrips(ys) && !BsRoundTrips(ys)
            && Recorded(ys, 345) && ConvertADToBS(ys, Some(345)) == Unmapped
  {
    var y := EvenYear(year, 30, 0, 0);
    var ys := [y];
    EvenYearLen(year, 30, 0, 0);
    assert y.months[11] == 0 && Claims(ys[0], 345);
    ConversionAgrees(ys);
    BsRoundTripExact(ys);
  }

  /** Two years that overlap: the day the second begins is the first day of the new year for the client and a day of the
      old one for the seeder. */
  lemma OverlapHappens(year: int)
    ensures var ys := [EvenYear(year, 30, 30, 0), EvenYear(year + 1, 30, 30, 300)];
            && Ordered(ys) && !BsRoundTrips(ys) && !OrderPreserved(ys) && !SeederAgrees(ys)
            && ConvertADToBS(ys, Some(300)) == Mapped(BsDate(year + 1, 1, 1))
            && SeederLabel(ys, 0, 300).Some? && SeederLabel(ys, 0, 300).value.year == year
  {
    var ys := [EvenYear(year, 30, 30, 0), EvenYear(year + 1, 30, 30, 300)];
    EvenYearLen(year, 30, 30, 0);
    EvenYearLen(year + 1, 30, 30, 300);
    assert EndOf(ys[0]) >= ys[1].start;
    BsRoundTripExact(ys);
    OrderExact(ys);
    SeederExact(ys);
    SelectedIs(ys, 300, 1);
    LabelSteps(ys, 0, 300);
  }

  // ------------------------------------------------------------------- tiling

  /** Consecutive BS years, each starting the day after the previous one ends. */
  ghost predicate Tiles(ys: seq<BsYear>) {
    forall i, j :: 0 <= i < j < |ys| && j == i + 1 ==> Follows(ys[i], ys[j])
  }

  predicate Follows(a: BsYear, b: BsYear) { b.yearBS == a.yearBS + 1 && b.start == EndOf(a) + 1 }

  lemma {:induction false} TilesApart(ys: seq<BsYear>, j: nat, k: nat)
    requires Tiles(ys) && j < k < |ys|
    ensures EndOf(ys[j]) < ys[k].start && ys[j].start < ys[k].start && ys[j].yearBS < ys[k].yearBS
    decreases k - j
  {
    YearNonEmpty(ys[j]);
    if j + 1 < k {
      TilesApart(ys, j, k - 1);
      YearNonEmpty(ys[k - 1]);
    }
    assert ys[k].start == EndOf(ys[k - 1]) + 1;
  }

  /** A tiling calendar meets every condition above: no overlap is reported and both round trips hold. */
  lemma TilingIsClean(ys: seq<BsYear>)
    requires ys != [] && Tiles(ys)
    ensures Ordered(ys) && Disjoint(ys) && NoShadow(ys) && FindOverlaps(ys) == []
    ensures LastIsRaw(ys) ==> TableAgrees(ys) && AdRoundTrips(ys) && BsRoundTrips(ys)
  {
    forall j, k | 0 <= j < k < |ys|
      ensures EndOf(ys[j]) < ys[k].start && ys[j].start < ys[k].start && ys[j].yearBS < ys[k].yearBS
      ensures EndOf(ys[j]) <= EndOf(ys[k])
    {
      TilesApart(ys, j, k);
    }
    NoOverlapReported(ys);
    ConversionAgrees(ys);
    BsRoundTripExact(ys);
  }
}
