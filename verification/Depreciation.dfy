/**
 * Fixed-asset depreciation (shared/depreciation.ts) over the reals. `Math.pow(1 - rate / 100, months / 12)` is
 * the `months`-th power of a monthly factor `f` with f >= 0 and f^12 = 1 - rate / 100.
 */
module Depreciation {
  import opened Collections
  import opened Gregorian
  import opened WarrantyTerm

  /** `None` where the source reads a missing or non-finite number as 0, or a missing or bad date as absent. */
  datatype Asset = Asset(cost: Option<real>, rate: Option<real>, storedAccumulated: Option<real>, storedNetBook: Option<real>,
                         reducing: bool, acquired: Option<Civil>, asOf: Option<Civil>)

  datatype Values = Values(cost: real, annual: real, accumulated: real, netBook: real)

  function MaxR(a: real, b: real): real { if a < b then b else a }

  function MinR(a: real, b: real): real { if a < b then a else b }

  function Number(n: Option<real>): real { if n.Some? then n.value else 0.0 }

  function CostOf(a: Asset): real { MaxR(Number(a.cost), 0.0) }

  function RateOf(a: Asset): real { MaxR(Number(a.rate), 0.0) }

  /** Whole months between two dates, a partial month truncated, never negative. */
  function MonthsElapsed(from: Civil, to: Civil): (m: nat) {
    Max(0, (to.year - from.year) * 12 + (to.month - from.month) + (if to.day >= from.day then 0 else -1))
  }

  function Acquired(a: Asset): Civil { if a.acquired.Some? then a.acquired.value else Civil(1970, 1, 1) }

  function Months(a: Asset): nat {
    MonthsElapsed(Acquired(a), if a.asOf.Some? then a.asOf.value else Acquired(a))
  }

  function Pow(f: real, n: nat): real {
    if n == 0 then 1.0 else f * Pow(f, n - 1)
  }

  /** The accumulated-depreciation formula of the reducing-balance method after `m` months. */
  function Reduced(cost: real, f: real, m: nat): real { cost * (1.0 - Pow(f, m)) }

  function Before12(m: nat): nat { if m < 12 then 0 else m - 12 }

  function Annual(a: Asset, f: real): real {
    if a.reducing then MaxR(0.0, Reduced(CostOf(a), f, Months(a)) - Reduced(CostOf(a), f, Before12(Months(a))))
    else CostOf(a) * RateOf(a) / 100.0
  }

  function AccruedAt(a: Asset, m: nat, f: real): real {
    if a.reducing then MaxR(Reduced(CostOf(a), f, m), 0.0)
    else CostOf(a) * RateOf(a) * (m as real) / 1200.0
  }

  function Calculate(a: Asset, f: real): Values {
    var cost := CostOf(a);
    if cost <= 0.0 || RateOf(a) <= 0.0 then
      Values(cost, 0.0, Number(a.storedAccumulated),
             if cost > 0.0 then MaxR(cost - Number(a.storedAccumulated), 0.0) else Number(a.storedNetBook))
    else
      var accumulated := MinR(MaxR(AccruedAt(a, Months(a), f), 0.0), cost);
      Values(cost, Annual(a, f), accumulated, MaxR(cost - accumulated, 0.0))
  }

  /** The asset has a depreciable basis and, under the reducing-balance method, `f` is its monthly factor. */
  predicate Depreciable(a: Asset, f: real) {
    && CostOf(a) > 0.0 && RateOf(a) > 0.0
    && (a.reducing ==> RateOf(a) <= 100.0 && f >= 0.0 && Pow(f, 12) == 1.0 - RateOf(a) / 100.0)
  }

  /** A factor between 0 and 1 shrinks what it multiplies, and keeps it from going below 0. */
  lemma Shrinks(f: real, p: real)
    requires 0.0 <= f <= 1.0 && p >= 0.0
    ensures 0.0 <= f * p <= p
  {
    assert p - f * p == (1.0 - f) * p;
  }

  lemma Grows(f: real, p: real)
    requires f >= 1.0 && p >= 0.0
    ensures f * p >= p
  {
    assert f * p - p == (f - 1.0) * p;
  }

  lemma {:induction false} PowAtLeastOne(f: real, n: nat)
    requires f >= 1.0
    ensures Pow(f, n) >= 1.0
  {
    if n > 0 {
      PowAtLeastOne(f, n - 1);
      Grows(f, Pow(f, n - 1));
    }
  }

  lemma FactorBelowOne(a: Asset, f: real)
    requires Depreciable(a, f) && a.reducing
    ensures 0.0 <= f < 1.0
  {
    if f >= 1.0 { PowAtLeastOne(f, 12); }
  }

  lemma {:induction false} PowInUnit(f: real, n: nat)
    requires 0.0 <= f <= 1.0
    ensures 0.0 <= Pow(f, n) <= 1.0
  {
    if n > 0 {
      PowInUnit(f, n - 1);
      Shrinks(f, Pow(f, n - 1));
    }
  }

  lemma {:induction false} PowShrinks(f: real, m: nat, n: nat)
    requires 0.0 <= f <= 1.0 && m <= n
    ensures Pow(f, n) <= Pow(f, m)
    decreases n - m
  {
    if m < n {
      PowShrinks(f, m, n - 1);
      PowInUnit(f, n - 1);
      Shrinks(f, Pow(f, n - 1));
    }
  }

  lemma {:induction false} PowAdds(f: real, m: nat, n: nat)
    ensures Pow(f, m + n) == Pow(f, m) * Pow(f, n)
  {
    if m > 0 {
      PowAdds(f, m - 1, n);
      assert f * (Pow(f, m - 1) * Pow(f, n)) == (f * Pow(f, m - 1)) * Pow(f, n);
    }
  }

  lemma ReducedMono(cost: real, f: real, m: nat, n: nat)
    requires cost > 0.0 && 0.0 <= f <= 1.0 && m <= n
    ensures 0.0 <= Reduced(cost, f, m) <= Reduced(cost, f, n) <= cost
  {
    PowShrinks(f, m, n);
    PowInUnit(f, m);
    PowInUnit(f, n);
    var x, y := 1.0 - Pow(f, m), 1.0 - Pow(f, n);
    assert 0.0 <= x <= y <= 1.0;
    assert cost * x <= cost * y && cost * y <= cost * 1.0 && 0.0 <= cost * x;
  }

  /** Accumulated depreciation plus net book value is the cost, with neither negative, exactly when the
      asset has a depreciable basis or the stored figures it falls back on already add up. */
  lemma ValuesAddUp(a: Asset, f: real)
    ensures (var v := Calculate(a, f); v.accumulated + v.netBook == v.cost && 0.0 <= v.accumulated && 0.0 <= v.netBook) <==>
            (CostOf(a) > 0.0 && (RateOf(a) > 0.0 || 0.0 <= Number(a.storedAccumulated) <= CostOf(a))) ||
            (CostOf(a) == 0.0 && Number(a.storedAccumulated) == 0.0 && Number(a.storedNetBook) == 0.0)
  {
  }

  /** The day of `from`, `m` months on, has come by `to`; a month too short to have that day never sees it come. */
  predicate Reached(from: Civil, m: int, to: Civil) {
    MonthIndex(from) + m < MonthIndex(to) || (MonthIndex(from) + m == MonthIndex(to) && from.day <= to.day)
  }

  /** The months elapsed are the greatest number for which the day has come, and none before the acquisition. */
  lemma MonthsElapsedExact(from: Civil, to: Civil, m: nat)
    requires Real(from) && Real(to)
    ensures m <= MonthsElapsed(from, to) <==> m == 0 || Reached(from, m, to)
    ensures Reached(from, 0, to) <==> !Before(to, from)
  {
  }

  /** The asset formula against the warranty terms' clamped month addition: to the date `n` months on, `n` months have
      elapsed, unless the clamp took the day away; then one fewer. */
  lemma MonthsToTheDate(from: Civil, n: nat)
    requires Real(from) && from.year >= 100
    ensures var r := AddMonths(from, n);
            Real(r) && MonthsElapsed(from, r) == if from.day <= MonthDays(r.year, r.month) then n else n - 1
  {
    AddMonthsMoved(from, n);
    MonthsMoved(from, n, AddMonths(from, n));
  }

  lemma MonthsMoved(from: Civil, n: nat, r: Civil)
    requires Real(from) && Moved(from, n, r)
    ensures MonthsElapsed(from, r) == if from.day <= MonthDays(r.year, r.month) then n else n - 1
  {
  }

  /** And at any date the two agree on how many months are over exactly unless the date is the last of its month and short
      of the day; then a warranty month is over that the asset formula does not count. */
  lemma MonthsAgreeExactly(from: Civil, to: Civil)
    requires Real(from) && Real(to) && from.year >= 100 && !Before(to, from)
    ensures (forall n: nat :: DayOf(AddMonths(from, n)) <= DayOf(to) <==> n <= MonthsElapsed(from, to)) <==>
            !(to.day < from.day && to.day == MonthDays(to.year, to.month))
  {
    forall n: nat ensures DayOf(AddMonths(from, n)) <= DayOf(to) <==> ReachedClamped(from, n, to) { ReachedByAdding(from, n, to); }
    var m: nat := MonthIndex(to) - MonthIndex(from);
    if to.day < from.day && to.day == MonthDays(to.year, to.month) {
      assert ReachedClamped(from, m, to) && MonthsElapsed(from, to) == m - 1;
      assert DayOf(AddMonths(from, m)) <= DayOf(to);
    } else {
      forall n: nat ensures ReachedClamped(from, n, to) <==> n <= MonthsElapsed(from, to) {
        MonthsElapsedExact(from, to, n);
      }
    }
  }

  /** The clamped date `n` months on is not after `to`. */
  predicate ReachedClamped(from: Civil, n: int, to: Civil)
    requires Real(to)
  {
    || MonthIndex(from) + n < MonthIndex(to)
    || (MonthIndex(from) + n == MonthIndex(to) && Min(from.day, MonthDays(to.year, to.month)) <= to.day)
  }

  lemma ReachedByAdding(from: Civil, n: nat, to: Civil)
    requires Real(from) && Real(to) && from.year >= 100
    ensures DayOf(AddMonths(from, n)) <= DayOf(to) <==> ReachedClamped(from, n, to)
  {
    var r := AddMonths(from, n);
    AddMonthsMoved(from, n);
    OrderByMonth(r, to);
    if MonthIndex(r) == MonthIndex(to) { SameIndexSameMonth(r, to); }
  }

  lemma MonthsMono(from: Civil, s: Civil, t: Civil)
    requires Real(s) && Real(t) && !Before(t, s)
    ensures MonthsElapsed(from, s) <= MonthsElapsed(from, t)
  {
  }

  lemma AccruedMono(a: Asset, p: nat, q: nat, f: real)
    requires CostOf(a) > 0.0 && RateOf(a) > 0.0 && p <= q && (a.reducing ==> 0.0 <= f <= 1.0)
    ensures AccruedAt(a, p, f) <= AccruedAt(a, q, f)
  {
    if a.reducing {
      ReducedMono(CostOf(a), f, p, q);
    } else {
      var c := CostOf(a) * RateOf(a);
      assert c >= 0.0;
      MulMono(c, p as real, q as real);
    }
  }

  lemma MulMono(c: real, x: real, y: real)
    requires c >= 0.0 && x <= y
    ensures c * x / 1200.0 <= c * y / 1200.0
  {
    assert c * (y - x) >= 0.0;
  }

  lemma CapMono(x: real, y: real, cost: real)
    requires x <= y && cost > 0.0
    ensures MinR(MaxR(x, 0.0), cost) <= MinR(MaxR(y, 0.0), cost)
  {
  }

  lemma CalculatedAt(a: Asset, d: Civil, f: real)
    requires Depreciable(a, f)
    ensures var v := Calculate(a.(asOf := Some(d)), f);
            v.accumulated == MinR(MaxR(AccruedAt(a, MonthsElapsed(Acquired(a), d), f), 0.0), CostOf(a)) &&
            v.netBook == CostOf(a) - v.accumulated
  {
    var b := a.(asOf := Some(d));
    assert CostOf(b) == CostOf(a) && RateOf(b) == RateOf(a) && Months(b) == MonthsElapsed(Acquired(a), d);
    assert AccruedAt(b, Months(b), f) == AccruedAt(a, Months(b), f);
  }

  /** A later reporting date never shows less accumulated depreciation, nor more book value. */
  lemma AccumulatedMonotone(a: Asset, s: Civil, t: Civil, f: real)
    requires Depreciable(a, f) && Real(s) && Real(t) && !Before(t, s)
    ensures var x, y := Calculate(a.(asOf := Some(s)), f), Calculate(a.(asOf := Some(t)), f);
            x.accumulated <= y.accumulated && x.netBook >= y.netBook
  {
    var p, q := MonthsElapsed(Acquired(a), s), MonthsElapsed(Acquired(a), t);
    MonthsMono(Acquired(a), s, t);
    CalculatedAt(a, s, f);
    CalculatedAt(a, t, f);
    if a.reducing { FactorBelowOne(a, f); }
    AccruedMono(a, p, q, f);
    CapMono(AccruedAt(a, p, f), AccruedAt(a, q, f), CostOf(a));
  }

  /** Under straight line the accumulated figure is the constant annual charge per twelve months, until the cost is reached. */
  lemma StraightLine(a: Asset, f: real)
    requires Depreciable(a, f) && !a.reducing
    ensures Calculate(a, f).accumulated == MinR(Calculate(a, f).annual * (Months(a) as real) / 12.0, CostOf(a))
  {
    var c, m := CostOf(a) * RateOf(a), Months(a) as real;
    assert c / 100.0 * m / 12.0 == c * m / 1200.0;
    assert c >= 0.0 && c * m >= 0.0;
  }

  /** The reducing-balance charge reported when `m` months have elapsed. */
  function Charge(cost: real, f: real, m: nat): real { MaxR(0.0, Reduced(cost, f, m) - Reduced(cost, f, Before12(m))) }

  /** The charges reported after `r`, `r + 12`, ..., `r + 12 n` months. */
  function Charges(cost: real, f: real, r: nat, n: nat): real {
    Charge(cost, f, r + 12 * n) + if n == 0 then 0.0 else Charges(cost, f, r, n - 1)
  }

  lemma ReducingValues(a: Asset, f: real)
    requires Depreciable(a, f) && a.reducing
    ensures Calculate(a, f).annual == Charge(CostOf(a), f, Months(a))
    ensures Calculate(a, f).accumulated == Reduced(CostOf(a), f, Months(a))
  {
    FactorBelowOne(a, f);
    ReducedMono(CostOf(a), f, Before12(Months(a)), Months(a));
  }

  lemma {:induction false} ChargesSum(cost: real, f: real, r: nat, n: nat)
    requires cost > 0.0 && 0.0 <= f <= 1.0 && r < 12
    ensures Charges(cost, f, r, n) == Reduced(cost, f, r + 12 * n)
  {
    ReducedMono(cost, f, Before12(r + 12 * n), r + 12 * n);
    if n > 0 {
      ChargesSum(cost, f, r, n - 1);
      assert Before12(r + 12 * n) == r + 12 * (n - 1);
    } else {
      assert Before12(r) == 0 && Pow(f, 0) == 1.0;
    }
  }

  /** The annual charges reported every twelve months telescope to the accumulated figure, and after the
      first year each is the one before it times 1 - rate / 100. */
  lemma ChargesTelescope(a: Asset, f: real)
    requires Depreciable(a, f) && a.reducing
    ensures Charges(CostOf(a), f, Months(a) % 12, Months(a) / 12) == Calculate(a, f).accumulated
    ensures Months(a) >= 12 ==>
              Charge(CostOf(a), f, Months(a) + 12) == (1.0 - RateOf(a) / 100.0) * Charge(CostOf(a), f, Months(a))
  {
    FactorBelowOne(a, f);
    ReducingValues(a, f);
    var m := Months(a);
    ChargesSum(CostOf(a), f, m % 12, m / 12);
    if m >= 12 { ChargeScales(CostOf(a), f, m - 12, 12, 1.0 - RateOf(a) / 100.0, Charge(CostOf(a), f, m)); }
  }

  lemma ChargeIs(cost: real, f: real, k: nat, y: nat, x: real, z: real)
    requires cost > 0.0 && 0.0 <= f <= 1.0 && y == 12
    requires x == Pow(f, k) && z == Pow(f, k + y)
    ensures Charge(cost, f, k + y) == cost * (x - z)
  {
    ReducedMono(cost, f, k, k + y);
    assert Before12(k + y) == k;
    Difference(cost, x, z);
  }

  lemma Difference(cost: real, x: real, z: real)
    ensures cost * (1.0 - z) - cost * (1.0 - x) == cost * (x - z)
  {
  }

  lemma ChargeScales(cost: real, f: real, k: nat, y: nat, p: real, charge: real)
    requires cost > 0.0 && 0.0 <= f <= 1.0 && y == 12
    requires p == Pow(f, y) && charge == Charge(cost, f, k + y)
    ensures Charge(cost, f, k + y + y) == p * charge
  {
    var x, z, w := Pow(f, k), Pow(f, k + y), Pow(f, k + y + y);
    var next := Charge(cost, f, k + y + y);
    ChargeIs(cost, f, k, y, x, z);
    ChargeIs(cost, f, k + y, y, z, w);
    PowStep(f, k, y, p, x);
    PowStep(f, k + y, y, p, z);
    Scaled(cost, p, x, z, w, charge, next);
  }

  lemma PowStep(f: real, k: nat, y: nat, p: real, x: real)
    requires p == Pow(f, y) && x == Pow(f, k)
    ensures Pow(f, k + y) == p * x
  {
    PowAdds(f, y, k);
    assert y + k == k + y;
  }

  lemma Swap(cost: real, p: real, w: real)
    ensures cost * (p * w) == p * (cost * w)
  {
    assert cost * (p * w) == (cost * p) * w;
    assert p * (cost * w) == (p * cost) * w;
  }

  lemma Factored(p: real, x: real, z: real)
    ensures p * x - p * z == p * (x - z)
  {
  }

  lemma Scaled(cost: real, p: real, x: real, z: real, w: real, charge: real, next: real)
    requires z == p * x && w == p * z
    requires charge == cost * (x - z) && next == cost * (z - w)
    ensures next == p * charge
  {
    Factored(p, x, z);
    Swap(cost, p, x - z);
  }

  /** Exactly `n` months after the acquisition, on the same day of the month: the figures in terms of `n`. */
  lemma AfterMonths(a: Asset, c: Civil, n: nat, r: Civil, f: real)
    requires Depreciable(a, f) && a.acquired == Some(c) && a.asOf == Some(r)
    requires Real(c) && Moved(c, n, r) && r.day == c.day
    ensures !a.reducing ==> Calculate(a, f).accumulated == MinR(CostOf(a) * RateOf(a) * (n as real) / 1200.0, CostOf(a))
    ensures !a.reducing && n == 12 && RateOf(a) <= 100.0 ==> Calculate(a, f).accumulated == CostOf(a) * RateOf(a) / 100.0
    ensures a.reducing ==> Calculate(a, f).accumulated == CostOf(a) * (1.0 - Pow(f, n))
  {
    MonthsMoved(c, n, r);
    assert Months(a) == n;
    if a.reducing { ReducingValues(a, f); } else { StraightLineIs(a, f, n); }
  }

  lemma StraightLineIs(a: Asset, f: real, n: nat)
    requires Depreciable(a, f) && !a.reducing && Months(a) == n
    ensures Calculate(a, f).accumulated == MinR(CostOf(a) * RateOf(a) * (n as real) / 1200.0, CostOf(a))
    ensures n == 12 && RateOf(a) <= 100.0 ==> Calculate(a, f).accumulated == CostOf(a) * RateOf(a) / 100.0
  {
    Accrues(CostOf(a), RateOf(a), n as real);
    if n == 12 && RateOf(a) <= 100.0 { OneYear(CostOf(a), RateOf(a)); }
  }

  lemma Accrues(cost: real, rate: real, months: real)
    requires cost > 0.0 && rate > 0.0 && months >= 0.0
    ensures MinR(MaxR(cost * rate * months / 1200.0, 0.0), cost) == MinR(cost * rate * months / 1200.0, cost)
  {
    assert cost * rate > 0.0;
    assert cost * rate * months >= 0.0;
  }

  lemma OneYear(cost: real, rate: real)
    requires cost > 0.0 && 0.0 < rate <= 100.0
    ensures MinR(cost * rate * 12.0 / 1200.0, cost) == cost * rate / 100.0
  {
    var c := cost * rate;
    assert c * 12.0 / 1200.0 == c / 100.0;
    assert cost * (100.0 - rate) >= 0.0;
  }

  lemma {:induction false} PowOfPow(f: real, y: nat, p: real)
    requires p == Pow(f, 12)
    ensures Pow(f, 12 * y) == Pow(p, y)
  {
    if y > 0 {
      PowOfPow(f, y - 1, p);
      PowAdds(f, 12, 12 * (y - 1));
      assert 12 + 12 * (y - 1) == 12 * y;
    }
  }

  /** After `y` whole years the reducing balance is the cost times `(1 - rate / 100)` to the `y`. */
  lemma AfterYears(a: Asset, c: Civil, y: nat, r: Civil, f: real)
    requires Depreciable(a, f) && a.reducing && a.acquired == Some(c) && a.asOf == Some(r)
    requires Real(c) && Moved(c, 12 * y, r) && r.day == c.day
    ensures Calculate(a, f).netBook == CostOf(a) * Pow(1.0 - RateOf(a) / 100.0, y)
  {
    AfterMonths(a, c, 12 * y, r, f);
    PowOfPow(f, y, 1.0 - RateOf(a) / 100.0);
    BookIsRest(a, f);
    Remainder(CostOf(a), Pow(f, 12 * y));
  }

  /** Without a basis the stored figures stand and nothing is charged; without a reporting date nothing has accrued; and an
      asset without an acquisition date was acquired on 1 January 1970. */
  lemma MissingFigures(a: Asset, f: real)
    ensures (CostOf(a) <= 0.0 || RateOf(a) <= 0.0) ==>
              Calculate(a, f).annual == 0.0 && Calculate(a, f).accumulated == Number(a.storedAccumulated)
    ensures Depreciable(a, f) && a.asOf.None? ==> Calculate(a, f).accumulated == 0.0 && Calculate(a, f).netBook == CostOf(a)
    ensures a.acquired.None? ==> Calculate(a, f) == Calculate(a.(acquired := Some(Civil(1970, 1, 1))), f)
  {
    if Depreciable(a, f) && a.asOf.None? {
      assert Months(a) == 0;
      Nothing(CostOf(a), RateOf(a), f);
    }
  }

  lemma Nothing(cost: real, rate: real, f: real)
    ensures Reduced(cost, f, 0) == 0.0 && cost * rate * (0 as real) / 1200.0 == 0.0
  {
    assert Pow(f, 0) == 1.0;
  }

  lemma BookIsRest(a: Asset, f: real)
    requires Depreciable(a, f)
    ensures Calculate(a, f).netBook == CostOf(a) - Calculate(a, f).accumulated
  {
  }

  lemma Remainder(cost: real, p: real)
    ensures cost - cost * (1.0 - p) == cost * p
  {
  }
}
