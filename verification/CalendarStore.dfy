/** The in-memory calendar of nepaliCalendar.ts: seeding, reset, the revision-keyed memos and the loops. */
module CalendarStore {
  import opened Collections
  import opened BsCalendar
  import opened BsCalendarTheory
  import opened BsConversion
  import Gregorian

  type YearMap = map<int, BsYear>

  /** Every entry is filed under its own BS year. */
  ghost predicate Keyed(cal: YearMap) { forall k :: k in cal ==> cal[k].yearBS == k }

  /** `Object.values(data).sort((a, b) => a.yearBS - b.yearBS)`. */
  function SortedYears(cal: YearMap): (ys: seq<BsYear>)
    ensures |ys| == |cal|
  {
    if cal == map[] then []
    else
      assert cal.Keys != {};
      var k := MaxOf(cal.Keys);
      var rest := cal - {k};
      assert rest.Keys == cal.Keys - {k};
      SortedYears(rest) + [cal[k]]
  }

  ghost predicate Holds(cal: YearMap, y: BsYear) { y.yearBS in cal && cal[y.yearBS] == y }

  /** Sorting loses no year, invents none, and leaves them in strictly ascending BS order. */
  lemma {:induction false} SortedYearsExact(cal: YearMap)
    requires Keyed(cal)
    ensures ByYear(SortedYears(cal))
    ensures forall i :: 0 <= i < |cal| ==> Holds(cal, SortedYears(cal)[i])
  {
    if cal != map[] {
      assert cal.Keys != {};
      var k := MaxOf(cal.Keys);
      var rest := cal - {k};
      assert rest.Keys == cal.Keys - {k};
      SortedYearsExact(rest);
      var ys := SortedYears(cal);
      assert ys == SortedYears(rest) + [cal[k]];
      forall i | 0 <= i < |cal|
        ensures Holds(cal, ys[i]) && (i < |rest| ==> ys[i].yearBS < k)
      {
        if i < |rest| { assert Holds(rest, ys[i]) && ys[i].yearBS in rest.Keys; }
      }
    }
  }

  lemma {:induction false} SortedYearsFinds(cal: YearMap, k: int)
    requires Keyed(cal)
    ensures var i := FindYear(SortedYears(cal), k);
            if k in cal then i >= 0 && SortedYears(cal)[i] == cal[k] else i == -1
  {
    var ys := SortedYears(cal);
    if cal != map[] {
      assert cal.Keys != {};
      var m := MaxOf(cal.Keys);
      var rest := cal - {m};
      assert rest.Keys == cal.Keys - {m};
      SortedYearsFinds(rest, k);
      assert ys[..|ys| - 1] == SortedYears(rest);
    }
  }

  /** The Baisakh-1 day a seed gets: the given one, else the day after the previous year, else 14 April. */
  function SeedStart(cal: YearMap, yearBS: int, custom: Option<int>): int {
    if custom.Some? then custom.value
    else if yearBS - 1 in cal then cal[yearBS - 1].start + RawLen(cal[yearBS - 1])
    else Gregorian.DayNumber(yearBS - 57, 4, 14)
  }

  function Seeded(cal: YearMap, yearBS: int, months: seq<nat>, custom: Option<int>): YearMap
    requires |months| == 12
  {
    cal[yearBS := YearData(yearBS, months, SeedStart(cal, yearBS, custom))]
  }

  /** Seeding the year after the last one, without a start date, keeps a tiling calendar tiling exactly
      when the last year has no zero month: the start is taken from the raw month total. */
  lemma SeedKeepsTiling(cal: YearMap, months: seq<nat>)
    requires Keyed(cal) && cal != map[] && |months| == 12
    requires Tiles(SortedYears(cal))
    ensures var ys := SortedYears(cal);
            var last := ys[|ys| - 1];
            var grown := SortedYears(Seeded(cal, last.yearBS + 1, months, None));
            && |grown| == |ys| + 1 && grown[..|ys|] == ys
            && (Tiles(grown) <==> NoZeroMonth(last))
  {
    var last := LastStored(cal);
    var y := YearData(last.yearBS + 1, months, last.start + RawLen(last));
    SeedAppends(cal, last, months, y);
    NextTiles(SortedYears(cal), y);
  }

  lemma SeedAppends(cal: YearMap, last: BsYear, months: seq<nat>, y: BsYear)
    requires Keyed(cal) && cal != map[] && |months| == 12 && Holds(cal, last) && last.yearBS == MaxOf(cal.Keys)
    requires y == YearData(last.yearBS + 1, months, last.start + RawLen(last))
    ensures SortedYears(Seeded(cal, last.yearBS + 1, months, None)) == SortedYears(cal) + [y]
  {
    SeedsNext(cal, last, months);
    AppendedYear(cal, y);
  }

  lemma NextTiles(ys: seq<BsYear>, y: BsYear)
    requires ys != [] && Tiles(ys)
    requires var last := ys[|ys| - 1]; y.yearBS == last.yearBS + 1 && y.start == last.start + RawLen(last)
    ensures Tiles(ys + [y]) <==> NoZeroMonth(ys[|ys| - 1])
    ensures |ys + [y]| == |ys| + 1 && (ys + [y])[..|ys|] == ys
  {
    TilesAfter(ys, y);
    RawLenIsYearLen(ys[|ys| - 1]);
  }

  lemma SeedsNext(cal: YearMap, last: BsYear, months: seq<nat>)
    requires Holds(cal, last) && |months| == 12
    ensures Seeded(cal, last.yearBS + 1, months, None)
            == cal[last.yearBS + 1 := YearData(last.yearBS + 1, months, last.start + RawLen(last))]
  {
  }

  lemma LastStored(cal: YearMap) returns (last: BsYear)
    requires Keyed(cal) && cal != map[]
    ensures |SortedYears(cal)| > 0 && last == SortedYears(cal)[|SortedYears(cal)| - 1]
    ensures Holds(cal, last) && last.yearBS == MaxOf(cal.Keys)
  {
    SortedYearsExact(cal);
    assert cal.Keys != {};
    last := SortedYears(cal)[|SortedYears(cal)| - 1];
    assert Holds(cal, last);
  }

  lemma AppendedYear(cal: YearMap, y: BsYear)
    requires Keyed(cal) && cal != map[] && y.yearBS == MaxOf(cal.Keys) + 1
    ensures SortedYears(cal[y.yearBS := y]) == SortedYears(cal) + [y]
  {
    var grown := cal[y.yearBS := y];
    assert grown.Keys == cal.Keys + {y.yearBS};
    assert MaxOf(grown.Keys) == y.yearBS;
    assert grown - {y.yearBS} == cal;
  }

  lemma TilesAfter(ys: seq<BsYear>, y: BsYear)
    requires ys != [] && Tiles(ys)
    ensures Tiles(ys + [y]) <==> y.yearBS == ys[|ys| - 1].yearBS + 1 && y.start == EndOf(ys[|ys| - 1]) + 1
  {
    var grown, n := ys + [y], |ys|;
    assert forall k :: 0 <= k < n ==> grown[k] == ys[k];
    if Tiles(grown) { assert grown[n - 1 + 1].start == EndOf(grown[n - 1]) + 1; }
  }

  lemma OnlyYear(cal: YearMap, y: BsYear)
    requires cal == map[y.yearBS := y]
    ensures Keyed(cal) && SortedYears(cal) == [y]
  {
    SortedYearsExact(cal);
    assert |cal| == 1 && Holds(cal, SortedYears(cal)[0]);
  }

  lemma SeedAfterZero(cal: YearMap, y: BsYear, months: seq<nat>)
    requires cal == map[y.yearBS := y] && y.months[11] == 0 && |months| == 12
    ensures Tiles(SortedYears(cal)) && !Tiles(SortedYears(Seeded(cal, y.yearBS + 1, months, None)))
  {
    OnlyYear(cal, y);
    var last := LastStored(cal);
    var z := YearData(y.yearBS + 1, months, y.start + RawLen(y));
    SeedAppends(cal, y, months, z);
    assert !NoZeroMonth([y][0]);
    NextTiles([y], z);
  }

  /** Seeding after a year whose last month was entered as zero: the new year starts thirty days too early. */
  lemma SeedBreaksTiling(year: int, months: seq<nat>)
    requires |months| == 12
    ensures var cal: YearMap := map[year := EvenYear(year, 30, 0, 0)];
            Tiles(SortedYears(cal)) && !Tiles(SortedYears(Seeded(cal, year + 1, months, None)))
  {
    SeedAfterZero(map[year := EvenYear(year, 30, 0, 0)], EvenYear(year, 30, 0, 0), months);
  }

  /** What a seed stores: the year's months as given and, as its Baisakh 1, the day asked for; or else the day after the raw
      end of the year before; or else 14 April. Every other year is left as it was. */
  lemma SeedStores(cal: YearMap, yearBS: int, months: seq<nat>, custom: Option<int>)
    requires Keyed(cal) && |months| == 12
    ensures var grown := Seeded(cal, yearBS, months, custom);
            var first := ConvertBSToAD(SortedYears(grown), BsDate(yearBS, 1, 1));
            && Keyed(grown) && yearBS in grown && grown[yearBS].months == months
            && first == Some(grown[yearBS].start)
            && (custom.Some? ==> first == custom)
            && (custom.None? && yearBS - 1 in cal && NoZeroMonth(cal[yearBS - 1]) ==> first == Some(EndOf(cal[yearBS - 1]) + 1))
            && (custom.None? && yearBS - 1 !in cal ==> first.Some? && Gregorian.CivilOf(first.value) == Gregorian.Civil(yearBS - 57, 4, 14))
    ensures forall k :: k != yearBS ==>
              && (k in Seeded(cal, yearBS, months, custom) <==> k in cal)
              && (k in cal ==> Seeded(cal, yearBS, months, custom)[k] == cal[k])
  {
    var grown := Seeded(cal, yearBS, months, custom);
    SortedYearsFinds(grown, yearBS);
    FirstDay(grown[yearBS]);
    SeedStartIs(cal, yearBS, custom);
  }

  lemma SeedStartIs(cal: YearMap, yearBS: int, custom: Option<int>)
    ensures var d := SeedStart(cal, yearBS, custom);
            && (custom.Some? ==> custom == Some(d))
            && (custom.None? && yearBS - 1 in cal && NoZeroMonth(cal[yearBS - 1]) ==> d == EndOf(cal[yearBS - 1]) + 1)
            && (custom.None? && yearBS - 1 !in cal ==> Gregorian.CivilOf(d) == Gregorian.Civil(yearBS - 57, 4, 14))
  {
    if yearBS - 1 in cal { RawLenIsYearLen(cal[yearBS - 1]); }
    Gregorian.CivilRoundTrip(Gregorian.Civil(yearBS - 57, 4, 14));
  }

  lemma FirstDay(y: BsYear)
    ensures ToAD(y, 1, 1) == y.start
  {
  }

  /** Tiling, read off the record: from any stored year to any later one, each is followed by the next. */
  ghost predicate TilesByKey(cal: YearMap) {
    forall a, b :: a in cal && b in cal && a < b ==> Continues(cal, a)
  }

  ghost predicate Continues(cal: YearMap, a: int)
    requires a in cal
  {
    a + 1 in cal && Follows(cal[a], cal[a + 1])
  }

  /** Where a stored year stands in the sorted list. */
  lemma Standing(cal: YearMap, k: int) returns (i: nat)
    requires Keyed(cal) && k in cal
    ensures i < |SortedYears(cal)| && SortedYears(cal)[i] == cal[k] && cal[k].yearBS == k
  {
    SortedYearsFinds(cal, k);
    i := FindYear(SortedYears(cal), k);
  }

  lemma InOrder(ys: seq<BsYear>, i: nat, j: nat)
    requires ByYear(ys) && i < |ys| && j < |ys|
    ensures ys[i].yearBS < ys[j].yearBS <==> i < j
  {
  }

  lemma ListedContinues(cal: YearMap, a: int, b: int)
    requires Keyed(cal) && Tiles(SortedYears(cal)) && a in cal && b in cal && a < b
    ensures Continues(cal, a)
  {
    var ys := SortedYears(cal);
    SortedYearsExact(cal);
    var i := Standing(cal, a);
    var j := Standing(cal, b);
    InOrder(ys, i, j);
    var next := i + 1;
    assert Follows(ys[i], ys[next]) && Holds(cal, ys[next]);
  }

  lemma KeyedFollows(cal: YearMap, i: nat, j: nat)
    requires Keyed(cal) && TilesByKey(cal) && i < j < |SortedYears(cal)| && j == i + 1
    ensures Follows(SortedYears(cal)[i], SortedYears(cal)[j])
  {
    var ys := SortedYears(cal);
    SortedYearsExact(cal);
    assert Holds(cal, ys[i]) && Holds(cal, ys[j]);
    InOrder(ys, i, j);
    assert Continues(cal, ys[i].yearBS);
    var m := Standing(cal, ys[i].yearBS + 1);
    NextListed(ys, i, j, m);
  }

  lemma NextListed(ys: seq<BsYear>, i: nat, j: nat, m: nat)
    requires ByYear(ys) && j < |ys| && j == i + 1 && m < |ys| && ys[m].yearBS == ys[i].yearBS + 1
    ensures m == j
  {
    InOrder(ys, i, m);
    InOrder(ys, i, j);
    InOrder(ys, m, j);
  }

  lemma TilesIsByKey(cal: YearMap)
    requires Keyed(cal)
    ensures Tiles(SortedYears(cal)) <==> TilesByKey(cal)
  {
    var ys := SortedYears(cal);
    if Tiles(ys) {
      forall a, b | a in cal && b in cal && a < b ensures Continues(cal, a) { ListedContinues(cal, a, b); }
    }
    if TilesByKey(cal) {
      forall i, j | 0 <= i < j < |ys| && j == i + 1 ensures Follows(ys[i], ys[j]) { KeyedFollows(cal, i, j); }
    }
  }

  /** Seeding any year of a tiling calendar, with or without a start of its own, keeps it tiling exactly when the year
      adjoins a stored one, or is the only one, and fits between the neighbours it has. */
  lemma SeedTilesExactly(cal: YearMap, yearBS: int, months: seq<nat>, custom: Option<int>)
    requires Keyed(cal) && |months| == 12 && Tiles(SortedYears(cal))
    ensures var grown := Seeded(cal, yearBS, months, custom);
            Tiles(SortedYears(grown)) <==> Fits(cal, grown[yearBS])
  {
    var y := YearData(yearBS, months, SeedStart(cal, yearBS, custom));
    TilesIsByKey(cal);
    TilesIsByKey(cal[y.yearBS := y]);
    StoredTiles(cal, y);
  }

  lemma StoredTiles(cal: YearMap, y: BsYear)
    requires Keyed(cal) && TilesByKey(cal)
    ensures TilesByKey(cal[y.yearBS := y]) <==> Fits(cal, y)
  {
    var grown := cal[y.yearBS := y];
    if TilesByKey(grown) { NeighboursFit(grown, y.yearBS); }
    if Fits(cal, y) {
      forall a, b | a in grown && b in grown && a < b ensures Continues(grown, a) { FittedContinues(cal, y, a, b); }
    }
  }

  /** A year adjoins the stored ones and meets the neighbours it has. */
  ghost predicate Fits(cal: YearMap, y: BsYear) {
    && (y.yearBS - 1 in cal || y.yearBS + 1 in cal || cal.Keys <= {y.yearBS})
    && (y.yearBS - 1 in cal ==> y.start == EndOf(cal[y.yearBS - 1]) + 1)
    && (y.yearBS + 1 in cal ==> cal[y.yearBS + 1].start == EndOf(y) + 1)
  }

  lemma FittedContinues(cal: YearMap, y: BsYear, a: int, b: int)
    requires Keyed(cal) && TilesByKey(cal) && Fits(cal, y)
    requires (a in cal || a == y.yearBS) && (b in cal || b == y.yearBS) && a < b
    ensures Continues(cal[y.yearBS := y], a)
  {
    var k := y.yearBS;
    assert cal.Keys <= {k} ==> forall x :: x in cal ==> x == k;
    if a == k {
      if k - 1 in cal {
        assert Continues(cal, k - 1);
        assert Continues(cal, k);
      }
      assert k + 1 in cal;
    } else if a != k - 1 {
      var end := if b != k then b else if k - 1 in cal then k - 1 else k + 1;
      assert end in cal && a < end;
      assert Continues(cal, a);
    }
  }

  lemma NeighboursFit(grown: YearMap, y: int)
    requires Keyed(grown) && y in grown && TilesByKey(grown)
    ensures y - 1 in grown || y + 1 in grown || grown.Keys <= {y}
    ensures y - 1 in grown ==> Follows(grown[y - 1], grown[y])
    ensures y + 1 in grown ==> Follows(grown[y], grown[y + 1])
  {
    if y - 1 in grown { assert Continues(grown, y - 1); }
    if y + 1 in grown { assert Continues(grown, y); }
    if a :| a in grown && a != y {
      if a < y { NoGap(grown, a, y - 1, y); } else { assert Continues(grown, y); }
    } else {
      assert forall x :: x in grown.Keys ==> x == y;
    }
  }

  lemma {:induction false} NoGap(cal: YearMap, a: int, x: int, b: int)
    requires TilesByKey(cal) && a in cal && b in cal && a <= x < b
    ensures x in cal
    decreases x - a
  {
    if a < x {
      NoGap(cal, a, x - 1, b);
      assert Continues(cal, x - 1);
    }
  }

  /** A year as the server sends it. */
  datatype ServerYear = ServerYear(yearBS: int, months: seq<nat>, startAD: Option<int>)

  predicate Usable(y: ServerYear) { y.yearBS != 0 && |y.months| == 12 && y.startAD.Some? }

  /** The calendar after the client has seeded what the server sent, in the order sent. */
  function Synced(cal: YearMap, years: seq<ServerYear>): YearMap {
    if years == [] then cal
    else
      var init, y := Synced(cal, years[..|years| - 1]), years[|years| - 1];
      if Usable(y) then Seeded(init, y.yearBS, y.months, y.startAD) else init
  }

  /** The last usable row for a year. */
  function LastSent(years: seq<ServerYear>, k: int): Option<ServerYear> {
    if years == [] then None
    else
      var y := years[|years| - 1];
      if Usable(y) && y.yearBS == k then Some(y) else LastSent(years[..|years| - 1], k)
  }

  lemma {:induction false} SyncedEntry(cal: YearMap, years: seq<ServerYear>, k: int)
    ensures var now, sent := Synced(cal, years), LastSent(years, k);
            && (k in now <==> k in cal || sent.Some?)
            && (sent.Some? ==> Usable(sent.value) && now[k] == YearData(k, sent.value.months, sent.value.startAD.value))
            && (k in cal && sent.None? ==> now[k] == cal[k])
  {
    if years != [] { SyncedEntry(cal, years[..|years| - 1], k); }
  }

  lemma {:induction false} SyncedKeyed(cal: YearMap, years: seq<ServerYear>)
    requires Keyed(cal)
    ensures Keyed(Synced(cal, years))
  {
    if years != [] { SyncedKeyed(cal, years[..|years| - 1]); }
  }

  /** After a sync each year the server sent is the server's, beginning on the day it sent, and every other is the client's
      own. */
  lemma SyncedAt(cal: YearMap, years: seq<ServerYear>, k: int)
    requires Keyed(cal)
    ensures var now, sent := Synced(cal, years), LastSent(years, k);
            && Keyed(now) && (k in now <==> k in cal || sent.Some?)
            && (sent.Some? ==> now[k].months == sent.value.months && ConvertBSToAD(SortedYears(now), BsDate(k, 1, 1)) == sent.value.startAD)
            && (k in cal && sent.None? ==> now[k] == cal[k])
  {
    var now := Synced(cal, years);
    SyncedEntry(cal, years, k);
    SyncedKeyed(cal, years);
    if k in now {
      SortedYearsFinds(now, k);
      FirstDay(now[k]);
    }
  }

  /** `Array.from(byAdDate.values())`. */
  function Rows(t: DayTable): (rs: seq<DayRecord>)
    requires t.Valid()
    ensures |rs| == |t.keys|
  {
    assert forall i :: 0 <= i < |t.keys| ==> t.keys[i] in t.vals;
    seq(|t.keys|, i requires 0 <= i < |t.keys| => t.vals[t.keys[i]])
  }

  ghost function RowsOf(ys: seq<BsYear>): seq<DayRecord> {
    TableRecords(ys);
    Rows(TableOf(ys))
  }

  datatype Bounds = Bounds(minAD: int, maxAD: int, minBS: BsDate, maxBS: BsDate, total: nat, years: set<int>)

  function BoundsOf(db: seq<DayRecord>): Bounds
    requires db != []
  {
    Bounds(db[0].ad, db[|db| - 1].ad, db[0].bs, db[|db| - 1].bs, |db|, set r | r in db :: r.bs.year)
  }

  function AdDays(db: seq<DayRecord>): set<int> { set r | r in db :: r.ad }

  lemma {:induction false} FirstDayRecorded(ys: seq<BsYear>)
    requires ys != []
    ensures RowsOf(ys) != []
  {
    YearNonEmpty(ys[0]);
    assert Claims(ys[0], ys[0].start);
    assert TableRight(ys, TableOf(ys).vals, ys[0].start) by { TableRecords(ys); }
    TableRecords(ys);
    assert ys[0].start in TableOf(ys).keys;
  }

  lemma AdDayIsRecorded(ys: seq<BsYear>, d: int)
    ensures d in AdDays(RowsOf(ys)) <==> Recorded(ys, d)
  {
    TableRecords(ys);
    var t, rs := TableOf(ys), RowsOf(ys);
    assert TableRight(ys, t.vals, d);
    if d in t.vals {
      var i :| 0 <= i < |t.keys| && t.keys[i] == d;
      assert rs[i] in rs && rs[i].ad == d;
    }
    if d in AdDays(rs) {
      var i :| 0 <= i < |rs| && rs[i].ad == d;
      assert TableRight(ys, t.vals, t.keys[i]);
      assert t.keys[i] in t.vals && rs[i].ad == t.keys[i];
    }
  }

  /** The date set is exactly the recorded days. */
  lemma AdDaysAreRecorded(ys: seq<BsYear>)
    ensures forall d :: d in AdDays(RowsOf(ys)) <==> Recorded(ys, d)
  {
    forall d ensures d in AdDays(RowsOf(ys)) <==> Recorded(ys, d) { AdDayIsRecorded(ys, d); }
  }

  predicate InYear(t: DayTable, d: int, k: int) { d in t.vals && t.vals[d].bs.year == k }

  /** The years the bounds list are those some recorded day's table date is in. */
  lemma BoundsYears(ys: seq<BsYear>, k: int)
    requires ys != []
    ensures RowsOf(ys) != []
    ensures k in BoundsOf(RowsOf(ys)).years <==> exists d :: InYear(TableOf(ys), d, k)
    ensures forall d :: d in TableOf(ys).vals <==> Recorded(ys, d)
  {
    FirstDayRecorded(ys);
    TableRecords(ys);
    var t, rs := TableOf(ys), RowsOf(ys);
    if d :| InYear(t, d, k) {
      var i :| 0 <= i < |t.keys| && t.keys[i] == d;
      assert rs[i] in rs && rs[i].bs.year == k;
    }
    if k in BoundsOf(rs).years {
      var i :| 0 <= i < |rs| && rs[i].bs.year == k;
      assert InYear(t, t.keys[i], k);
    }
    forall d ensures d in t.vals <==> Recorded(ys, d) { assert TableRight(ys, t.vals, d); }
  }

  /** With ascending starts the reported bounds are the least and the greatest recorded day, and the
      dates shown beside them are those days' table dates. */
  lemma BoundsAreTrue(ys: seq<BsYear>)
    requires AscendingStarts(ys) && ys != []
    ensures RowsOf(ys) != []
    ensures var b := BoundsOf(RowsOf(ys));
            && Recorded(ys, b.minAD) && Recorded(ys, b.maxAD)
            && b.minAD in TableOf(ys).vals && b.maxAD in TableOf(ys).vals
            && (forall d :: Recorded(ys, d) ==> b.minAD <= d <= b.maxAD)
            && b.minBS == TableOf(ys).vals[b.minAD].bs && b.maxBS == TableOf(ys).vals[b.maxAD].bs
            && b.total + |FindOverlaps(ys)| == TotalLen(ys)
  {
    FirstDayRecorded(ys);
    TableAscending(ys);
    TableRecords(ys);
    DaysConserved(ys);
    var t := TableOf(ys);
    var n := |t.keys|;
    forall i | 0 <= i < n
      ensures RowsOf(ys)[i].ad == t.keys[i] && Recorded(ys, t.keys[i])
    {
      assert TableRight(ys, t.vals, t.keys[i]);
    }
  }

  lemma YearBegins(y: BsYear, before: seq<DayRecord>)
    ensures before == before + DaysThrough(y, 0, 0)
  {
  }

  /** The day loop's next record extends what the year has expanded to. */
  lemma DayFollows(y: BsYear, m: nat, day: nat, before: seq<DayRecord>)
    requires m < 12 && 1 <= day <= Len(y, m)
    ensures before + DaysThrough(y, m, day) == before + DaysThrough(y, m, day - 1) + [RecordAt(y, m, day)]
  {
    var s, r := DaysThrough(y, m, day - 1), [RecordAt(y, m, day)];
    assert before + (s + r) == before + s + r;
  }

  lemma MonthEnds(y: BsYear, m: nat)
    requires m < 12
    ensures DaysThrough(y, m + 1, 0) == DaysThrough(y, m, Len(y, m)) && Offset(y, m + 1) == Offset(y, m) + Len(y, m)
  {
  }

  lemma TabulateSnoc(s: seq<DayRecord>, r: DayRecord)
    ensures Tabulate(s + [r]) == Tabulate(s).Put(r.ad, r)
  {
    assert (s + [r])[..|s + [r]| - 1] == s;
  }

  lemma AuditSnoc(s: seq<DayRecord>, r: DayRecord)
    ensures AuditOf(s + [r]) == AuditStep(AuditOf(s), r)
  {
    assert (s + [r])[..|s + [r]| - 1] == s;
  }

  datatype Cell = Blank | InMonth(day: int, ad: int, seeded: bool, today: bool, selected: bool, outOfRange: bool)

  /** Today, the selected day and the inclusive bounds a grid is drawn with. */
  datatype Marks = Marks(today: int, selected: Option<int>, min: Option<int>, max: Option<int>)

  predicate OutOfRange(marks: Marks, ad: int) {
    (marks.min.Some? && ad < marks.min.value) || (marks.max.Some? && ad > marks.max.value)
  }

  function DayCell(d: int, ad: int, seeded: bool, marks: Marks): Cell {
    InMonth(d, ad, seeded, ad == marks.today, marks.selected == Some(ad), OutOfRange(marks, ad))
  }

  function GridCell(y: BsYear, month: int, marks: Marks, i: nat): Cell
    requires 1 <= month <= 12
  {
    var d := i - (ToAD(y, month, 1) + 4) % 7 + 1;
    if d < 1 || d > y.months[month - 1] then Blank else DayCell(d, ToAD(y, month, d), true, marks)
  }

  ghost predicate DayShown(y: BsYear, month: int, marks: Marks, d: int)
    requires 1 <= month <= 12
  {
    exists i :: 0 <= i < 42 && ShowsDay(y, month, marks, i, d)
  }

  predicate ShowsDay(y: BsYear, month: int, marks: Marks, i: int, d: int)
    requires 1 <= month <= 12
  {
    i >= 0 && GridCell(y, month, marks, i).InMonth? && GridCell(y, month, marks, i).day == d
  }

  /** The weekday column of the month's first day. */
  function FirstColumn(y: BsYear, month: int): nat
    requires 1 <= month <= 12
  {
    (ToAD(y, month, 1) + 4) % 7
  }

  /** Every cell with a day stands in its own weekday's column and leads back to that very date; no day has two cells;
      and every day of the month has one exactly when the six weeks are long enough for it. */
  lemma GridShowsTheMonth(y: BsYear, month: int, marks: Marks)
    requires 1 <= month <= 12 && 0 < y.months[month - 1]
    ensures forall i :: 0 <= i < 42 && GridCell(y, month, marks, i).InMonth? ==>
              var c := GridCell(y, month, marks, i);
              (c.ad + 4) % 7 == i % 7 && DateIn(y, c.ad) == BsDate(y.yearBS, month, c.day)
    ensures forall i, j, d :: ShowsDay(y, month, marks, i, d) && ShowsDay(y, month, marks, j, d) ==> i == j
    ensures (forall d :: 1 <= d <= y.months[month - 1] ==> DayShown(y, month, marks, d)) <==>
            FirstColumn(y, month) + y.months[month - 1] <= 42
  {
    var first, days := FirstColumn(y, month), y.months[month - 1];
    forall i | 0 <= i < 42 && GridCell(y, month, marks, i).InMonth?
      ensures var c := GridCell(y, month, marks, i);
              (c.ad + 4) % 7 == i % 7 && DateIn(y, c.ad) == BsDate(y.yearBS, month, c.day)
    {
      YearBijection(y, BsDate(y.yearBS, month, GridCell(y, month, marks, i).day), 0);
      WeekdayColumn(ToAD(y, month, 1) + 4, i);
    }
    forall i, d | ShowsDay(y, month, marks, i, d) ensures i == d - 1 + first { ShownAt(y, month, marks, i, d); }
    forall d | 1 <= d <= days ensures DayShown(y, month, marks, d) <==> d - 1 + first < 42 { ShownIfRoom(y, month, marks, d); }
    if first + days > 42 { assert !DayShown(y, month, marks, days); }
  }

  /** The marks of a cell are those of its own day: a recorded one, today, the one selected, or one outside the bounds. */
  lemma CellMarks(y: BsYear, month: int, marks: Marks, i: nat)
    requires 1 <= month <= 12 && GridCell(y, month, marks, i).InMonth?
    ensures var c := GridCell(y, month, marks, i);
            && c.ad == ToAD(y, month, c.day) && c.seeded && Claims(y, c.ad)
            && (c.today <==> marks.today == c.ad) && (c.selected <==> marks.selected == Some(c.ad))
            && (c.outOfRange <==> !((marks.min.None? || marks.min.value <= c.ad) && (marks.max.None? || c.ad <= marks.max.value)))
  {
    var c := GridCell(y, month, marks, i);
    YearBijection(y, BsDate(y.yearBS, month, c.day), 0);
  }

  lemma ShownAt(y: BsYear, month: int, marks: Marks, i: int, d: int)
    requires 1 <= month <= 12 && ShowsDay(y, month, marks, i, d)
    ensures i == d - 1 + FirstColumn(y, month)
  {
  }

  lemma ShownIfRoom(y: BsYear, month: int, marks: Marks, d: int)
    requires 1 <= month <= 12 && 1 <= d <= y.months[month - 1]
    ensures DayShown(y, month, marks, d) <==> d - 1 + FirstColumn(y, month) < 42
  {
    var i := d - 1 + FirstColumn(y, month);
    assert ShowsDay(y, month, marks, i, d);
    if DayShown(y, month, marks, d) {
      var j :| 0 <= j < 42 && ShowsDay(y, month, marks, j, d);
      ShownAt(y, month, marks, j, d);
    }
  }

  lemma WeekdayColumn(a: int, i: nat)
    ensures (a + (i - a % 7)) % 7 == i % 7
  {
    assert a + (i - a % 7) == 7 * (a / 7) + i;
  }

  datatype SeedError = NotTwelveMonths

  class BsCalendarStore {
    const bundled: YearMap
    var store: Option<YearMap>
    var revision: nat
    var cachedDb: seq<DayRecord>
    var cachedDbRevision: int
    var cachedBounds: Option<Bounds>
    var cachedBoundsRevision: int
    var cachedAdDays: Option<set<int>>
    var cachedAdDaysRevision: int

    function Data(): YearMap
      reads this`store
    {
      if store.Some? then store.value else bundled
    }

    ghost function Years(): seq<BsYear>
      reads this`store
    {
      SortedYears(Data())
    }

    /** Every memo that carries the current revision is what a fresh computation would give. */
    ghost predicate Valid()
      reads this
    {
      && Keyed(bundled) && bundled != map[] && Keyed(Data()) && Data() != map[]
      && cachedDbRevision <= revision && cachedBoundsRevision <= revision && cachedAdDaysRevision <= revision
      && (cachedDbRevision == revision ==> cachedDb == RowsOf(Years()))
      && (cachedBounds.Some? && cachedBoundsRevision == revision ==>
            RowsOf(Years()) != [] && cachedBounds.value == BoundsOf(RowsOf(Years())))
      && (cachedAdDays.Some? && cachedAdDaysRevision == revision ==> cachedAdDays.value == AdDays(RowsOf(Years())))
    }

    constructor (bundled: YearMap)
      requires Keyed(bundled) && bundled != map[]
      ensures Valid() && Data() == bundled && this.bundled == bundled
    {
      this.bundled := bundled;
      store, revision := None, 0;
      cachedDb, cachedDbRevision := [], -1;
      cachedBounds, cachedBoundsRevision := None, -1;
      cachedAdDays, cachedAdDaysRevision := None, -1;
    }

    method SeedBSYearCalendar(yearBS: int, months: seq<nat>, custom: Option<int>) returns (r: Result<YearMap, SeedError>)
      requires Valid()
      modifies this`store, this`revision
      ensures Valid()
      ensures |months| != 12 ==> r == Failure(NotTwelveMonths) && store == old(store) && revision == old(revision)
      ensures |months| == 12 ==> r == Success(Seeded(old(Data()), yearBS, months, custom)) && Data() == r.value && revision == old(revision) + 1
    {
      if |months| != 12 {
        return Failure(NotTwelveMonths);
      }
      var current := Data();
      var start := 0;
      if custom.Some? {
        start := custom.value;
      } else if yearBS - 1 in current {
        var total, m := 0, 0;
        while m < 12
          invariant 0 <= m <= 12 && total == RawOffset(current[yearBS - 1], m)
        {
          total := total + current[yearBS - 1].months[m];
          m := m + 1;
        }
        start := current[yearBS - 1].start + total;
      } else {
        start := Gregorian.DayNumber(yearBS - 57, 4, 14);
      }
      var updated := current[yearBS := YearData(yearBS, months, start)];
      assert yearBS in updated;
      store := Some(updated);
      revision := revision + 1;
      r := Success(updated);
    }

    /** The loop of App.tsx over the server's rows. */
    method SyncMirror(years: seq<ServerYear>)
      requires Valid()
      modifies this`store, this`revision
      ensures Valid() && Data() == Synced(old(Data()), years)
    {
      for i := 0 to |years|
        invariant Valid() && Data() == Synced(old(Data()), years[..i])
      {
        assert years[..i + 1][..i] == years[..i];
        var y := years[i];
        if y.yearBS != 0 && |y.months| == 12 && y.startAD.Some? {
          var _ := SeedBSYearCalendar(y.yearBS, y.months, y.startAD);
        }
      }
      assert years[..|years|] == years;
    }

    method ResetBsCalendarData()
      requires Valid()
      modifies this`store, this`revision
      ensures Valid() && Data() == bundled && revision == old(revision) + 1
    {
      store := None;
      revision := revision + 1;
    }

    /** The memoised day table always equals a fresh expansion of the current calendar. */
    method GenerateCalendarDatabase() returns (db: seq<DayRecord>)
      requires Valid()
      modifies this`cachedDb, this`cachedDbRevision
      ensures Valid() && db == RowsOf(Years()) && db == cachedDb && db != []
    {
      FirstDayRecorded(Years());
      if cachedDbRevision == revision && |cachedDb| > 0 {
        return cachedDb;
      }
      var t := ExpandYears(SortedYears(Data()));
      TableRecords(Years());
      db := Rows(t);
      KeepDatabase(db);
    }

    method KeepDatabase(db: seq<DayRecord>)
      requires Valid() && db == RowsOf(Years())
      modifies this`cachedDb, this`cachedDbRevision
      ensures Valid() && cachedDb == db
    {
      cachedDb, cachedDbRevision := db, revision;
    }

    /** Records by AD day; a repeated day replaces the earlier claim in place. */
    static method ExpandYears(ys: seq<BsYear>) returns (t: DayTable)
      ensures t == TableOf(ys)
    {
      t := OrderedMap([], map[]);
      for i := 0 to |ys|
        invariant t == TableOf(ys[..i])
      {
        assert ys[..i + 1][..i] == ys[..i];
        t := ExpandYear(ys[i], AllDays(ys[..i]), t);
      }
      assert ys[..|ys|] == ys;
    }

    /** The month loop of the table builder for one year. */
    static method ExpandYear(y: BsYear, ghost before: seq<DayRecord>, table: DayTable) returns (t: DayTable)
      requires table == Tabulate(before)
      ensures t == Tabulate(before + DaysOfYear(y))
    {
      t := table;
      YearBegins(y, before);
      var running := y.start;
      for m := 0 to 12
        invariant running == y.start + Offset(y, m)
        invariant t == Tabulate(before + DaysThrough(y, m, 0))
      {
        MonthEnds(y, m);
        t := ExpandMonth(y, m, running, before, t);
        running := running + Len(y, m);
      }
    }

    /** The day loop for the 0-based month `m`, from its first day on. */
    static method ExpandMonth(y: BsYear, m: nat, first: int, ghost before: seq<DayRecord>, table: DayTable) returns (t: DayTable)
      requires m < 12 && first == y.start + Offset(y, m) && table == Tabulate(before + DaysThrough(y, m, 0))
      ensures t == Tabulate(before + DaysThrough(y, m, Len(y, m)))
    {
      t := table;
      for day := 1 to Len(y, m) + 1
        invariant t == Tabulate(before + DaysThrough(y, m, day - 1))
      {
        var running := first + day - 1;
        var r := DayRecord(running, BsDate(y.yearBS, m + 1, day), (running + 4) % 7, FiscalStart(y.yearBS, m + 1), Quarter(m + 1));
        DayFollows(y, m, day, before);
        TabulateSnoc(before + DaysThrough(y, m, day - 1), r);
        t := t.Put(running, r);
      }
    }

    /** The audit of a candidate calendar, day by day in BS-year order. */
    static method FindCalendarOverlaps(data: YearMap) returns (overlaps: seq<Overlap>)
      requires Keyed(data)
      ensures overlaps == FindOverlaps(SortedYears(data))
    {
      var ys := SortedYears(data);
      var audit := Audit(map[], []);
      for i := 0 to |ys|
        invariant audit == AuditOf(AllDays(ys[..i]))
      {
        assert ys[..i + 1][..i] == ys[..i];
        audit := AuditYear(ys[i], AllDays(ys[..i]), audit);
      }
      assert ys[..|ys|] == ys;
      overlaps := audit.overlaps;
    }

    /** The month loop of the audit for one year. */
    static method AuditYear(y: BsYear, ghost before: seq<DayRecord>, audit: Audit) returns (r: Audit)
      requires audit == AuditOf(before)
      ensures r == AuditOf(before + DaysOfYear(y))
    {
      r := audit;
      YearBegins(y, before);
      var running := y.start;
      for m := 0 to 12
        invariant running == y.start + Offset(y, m)
        invariant r == AuditOf(before + DaysThrough(y, m, 0))
      {
        MonthEnds(y, m);
        r := AuditMonth(y, m, running, before, r);
        running := running + Len(y, m);
      }
    }

    static method AuditMonth(y: BsYear, m: nat, first: int, ghost before: seq<DayRecord>, audit: Audit) returns (r: Audit)
      requires m < 12 && first == y.start + Offset(y, m) && audit == AuditOf(before + DaysThrough(y, m, 0))
      ensures r == AuditOf(before + DaysThrough(y, m, Len(y, m)))
    {
      r := audit;
      for day := 1 to Len(y, m) + 1
        invariant r == AuditOf(before + DaysThrough(y, m, day - 1))
      {
        var running, bs := first + day - 1, BsDate(y.yearBS, m + 1, day);
        DayFollows(y, m, day, before);
        AuditSnoc(before + DaysThrough(y, m, day - 1), RecordAt(y, m, day));
        if running in r.claimed {
          r := r.(overlaps := r.overlaps + [Overlap(running, r.claimed[running], bs)]);
        } else {
          r := r.(claimed := r.claimed[running := bs]);
        }
      }
    }

    method GetCalendarBounds() returns (b: Bounds)
      requires Valid()
      modifies this`cachedDb, this`cachedDbRevision, this`cachedBounds, this`cachedBoundsRevision
      ensures Valid() && RowsOf(Years()) != [] && b == BoundsOf(RowsOf(Years()))
    {
      if cachedBounds.Some? && cachedBoundsRevision == revision {
        return cachedBounds.value;
      }
      var db := GenerateCalendarDatabase();
      b := BoundsOf(db);
      KeepBounds(b);
    }

    method KeepBounds(b: Bounds)
      requires Valid() && RowsOf(Years()) != [] && b == BoundsOf(RowsOf(Years()))
      modifies this`cachedBounds, this`cachedBoundsRevision
      ensures Valid()
    {
      cachedBounds := Some(b);
      cachedBoundsRevision := revision;
    }

    method ExactAdDateSet() returns (days: set<int>)
      requires Valid()
      modifies this`cachedDb, this`cachedDbRevision, this`cachedAdDays, this`cachedAdDaysRevision
      ensures Valid() && days == AdDays(RowsOf(Years()))
    {
      if cachedAdDays.Some? && cachedAdDaysRevision == revision {
        return cachedAdDays.value;
      }
      var db := GenerateCalendarDatabase();
      days := AdDays(db);
      KeepAdDays(days);
    }

    method KeepAdDays(days: set<int>)
      requires Valid() && days == AdDays(RowsOf(Years()))
      modifies this`cachedAdDays, this`cachedAdDaysRevision
      ensures Valid()
    {
      cachedAdDays := Some(days);
      cachedAdDaysRevision := revision;
    }

    /** True exactly for the days some seeded year claims; a text that is not a date has no record. */
    method HasExactBSDayRecord(day: Option<int>) returns (found: bool)
      requires Valid()
      modifies this`cachedDb, this`cachedDbRevision, this`cachedAdDays, this`cachedAdDaysRevision
      ensures Valid()
      ensures found <==> day.Some? && Recorded(Years(), day.value)
    {
      if day.None? {
        return false;
      }
      var days := ExactAdDateSet();
      AdDayIsRecorded(Years(), day.value);
      found := day.value in days;
    }

    method ConvertADToBS(day: Option<int>) returns (c: Conversion)
      requires Valid()
      ensures c == BsCalendar.ConvertADToBS(Years(), day)
    {
      if day.None? {
        return NotADate;
      }
      var ys := SortedYears(Data());
      if |ys| == 0 {
        return NoYears;
      }
      var target, last := day.value, ys[|ys| - 1];
      if target < ys[0].start || target > last.start + RawLen(last) - 1 {
        return Unmapped;
      }
      var selected, i := 0, 0;
      while i < |ys| && target >= ys[i].start
        invariant 0 <= i <= |ys| && 0 <= selected < |ys|
        invariant ScanYears(ys, target, 0, 0) == ScanYears(ys, target, i, selected)
      {
        selected := i;
        i := i + 1;
      }
      var y := ys[selected];
      var diff := target - y.start;
      var month := 0;
      while month < 12 && diff >= Len(y, month)
        invariant 0 <= month <= 12
        invariant DateIn(y, target) == Locate(y, month, diff)
      {
        diff := diff - Len(y, month);
        month := month + 1;
      }
      c := Mapped(if month < 12 then BsDate(y.yearBS, month + 1, diff + 1) else BsDate(y.yearBS, 12, Len(y, 11)));
    }

    method ConvertBSToAD(yearBS: int, month: int, day: int) returns (ad: Option<int>)
      requires Valid()
      ensures ad == BsCalendar.ConvertBSToAD(Years(), BsDate(yearBS, month, day))
      ensures ad == if yearBS in Data() then Some(ToAD(Data()[yearBS], month, day)) else None
    {
      SortedYearsFinds(Data(), yearBS);
      if yearBS !in Data() {
        return None;
      }
      var y := Data()[yearBS];
      var total, k := 0, 0;
      while k < month - 1
        invariant 0 <= k && (month < 1 ==> k == 0) && (month >= 1 ==> k <= month - 1)
        invariant total == Offset(y, k)
      {
        total := total + Len(y, k);
        k := k + 1;
      }
      ad := Some(y.start + total + day - 1);
    }

    /** The mandatory-date resolver: a BS date exactly for recorded days, and then the converted one. */
    method EnsureBSDayForAD(day: Option<int>) returns (bs: Option<BsDate>)
      requires Valid()
      modifies this`cachedDb, this`cachedDbRevision, this`cachedAdDays, this`cachedAdDaysRevision
      ensures Valid()
      ensures day.None? || !Recorded(Years(), day.value) ==> bs == None
      ensures day.Some? && Recorded(Years(), day.value) ==>
                var c := BsCalendar.ConvertADToBS(Years(), day); bs == if c.Mapped? then Some(c.bs) else None
      ensures Ordered(Years()) && TableAgrees(Years()) && day.Some? && Recorded(Years(), day.value) ==>
                day.value in TableOf(Years()).vals && bs == Some(TableOf(Years()).vals[day.value].bs)
    {
      var found := HasExactBSDayRecord(day);
      if !found {
        return None;
      }
      var c := ConvertADToBS(day);
      bs := if c.Mapped? then Some(c.bs) else None;
    }

    /** One month as six weeks of seven days; `None` for an unseeded year or month. */
    method GetBSMonthGrid(yearBS: int, month: int, marks: Marks) returns (cells: Option<seq<Cell>>)
      requires Valid()
      modifies this`cachedDb, this`cachedDbRevision, this`cachedAdDays, this`cachedAdDaysRevision
      ensures Valid()
      ensures cells.Some? <==> yearBS in Data() && 1 <= month <= 12 && Data()[yearBS].months[month - 1] != 0
      ensures cells.Some? ==> |cells.value| == 42 && forall i :: 0 <= i < 42 ==> cells.value[i] == GridCell(Data()[yearBS], month, marks, i)
    {
      if yearBS !in Data() || month < 1 || month > 12 {
        return None;
      }
      var y := Data()[yearBS];
      var days := y.months[month - 1];
      if days == 0 {
        return None;
      }
      var start := ConvertBSToAD(yearBS, month, 1);
      var first := (start.value + 4) % 7;
      var grid: seq<Cell> := [];
      for i := 0 to 42
        invariant Valid() && |grid| == i
        invariant forall j :: 0 <= j < i ==> grid[j] == GridCell(y, month, marks, j)
      {
        var d := i - first + 1;
        if d < 1 || d > days {
          grid := grid + [Blank];
        } else {
          var cell := CellFor(yearBS, month, d, marks);
          grid := grid + [cell];
        }
      }
      cells := Some(grid);
    }

    method CellFor(yearBS: int, month: int, d: int, marks: Marks) returns (cell: Cell)
      requires Valid() && yearBS in Data() && 1 <= month <= 12 && 1 <= d <= Data()[yearBS].months[month - 1]
      modifies this`cachedDb, this`cachedDbRevision, this`cachedAdDays, this`cachedAdDaysRevision
      ensures Valid() && cell == DayCell(d, ToAD(Data()[yearBS], month, d), true, marks)
    {
      var ad := ConvertBSToAD(yearBS, month, d);
      InMonthIsRecorded(Data(), yearBS, BsDate(yearBS, month, d));
      var seeded := HasExactBSDayRecord(ad);
      cell := DayCell(d, ad.value, seeded, marks);
    }
  }

  lemma InMonthIsRecorded(cal: YearMap, yearBS: int, b: BsDate)
    requires Keyed(cal) && yearBS in cal && ValidDate(cal[yearBS], b)
    ensures Recorded(SortedYears(cal), ToAD(cal[yearBS], b.month, b.day))
  {
    SortedYearsFinds(cal, yearBS);
    YearBijection(cal[yearBS], b, 0);
    var i := FindYear(SortedYears(cal), yearBS);
    assert Claims(SortedYears(cal)[i], ToAD(cal[yearBS], b.month, b.day));
  }
}
