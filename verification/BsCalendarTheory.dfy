/** What the day table, the overlap report, the two conversions and the seeder's labels promise together. */
module BsCalendarTheory {
  import opened Collections
  import opened BsCalendar

  // ------------------------------------------------------------ the day table

  /** `t` lists consecutive days from `a` on. */
  ghost predicate Run(t: seq<DayRecord>, a: int) {
    forall i :: 0 <= i < |t| ==> t[i].ad == a + i
  }

  lemma {:induction false} TabulateValid(rs: seq<DayRecord>)
    ensures Tabulate(rs).Valid()
  {
    if rs != [] {
      TabulateValid(rs[..|rs| - 1]);
      PutValid(Tabulate(rs[..|rs| - 1]), rs[|rs| - 1].ad, rs[|rs| - 1]);
    }
  }

  /** Writing a run of days after `s` leaves those days, and the rest of `s`, in the table. */
  lemma {:induction false} TabulateRun(s: seq<DayRecord>, t: seq<DayRecord>, a: int, d: int)
    requires Run(t, a)
    ensures var p, r := Tabulate(s).vals, Tabulate(s + t).vals;
            if a <= d < a + |t| then d in r && r[d] == t[d - a] else (d in r <==> d in p) && (d in p ==> r[d] == p[d])
  {
    if t == [] {
      assert s + t == s;
    } else {
      var n := |t| - 1;
      TabulateRun(s, t[..n], a, d);
      assert (s + t)[..|s + t| - 1] == s + t[..n];
      assert (s + t)[|s + t| - 1] == t[n];
    }
  }

  lemma {:induction false} LastClaimantPrefix(ys: seq<BsYear>, n: nat, d: int)
    requires n < |ys|
    ensures LastClaimant(ys, n, d) == LastClaimant(ys[..|ys| - 1], n, d)
  {
    if n > 0 { LastClaimantPrefix(ys, n - 1, d); }
  }

  /** A year's day loop is a run whose record for day `d` is `RecordFor(y, d)`. */
  lemma YearRun(y: BsYear, d: int)
    ensures Run(DaysOfYear(y), y.start)
    ensures Claims(y, d) <==> y.start <= d < y.start + |DaysOfYear(y)|
    ensures Claims(y, d) ==> DaysOfYear(y)[d - y.start] == RecordFor(y, d)
  {
    DaysOfYearAt(y);
  }

  lemma RecordedByClaimant(ys: seq<BsYear>, d: int)
    ensures Recorded(ys, d) <==> LastClaimant(ys, |ys|, d) >= 0
    ensures Recorded(ys, d) <==> FirstClaimant(ys, 0, d) >= 0
  {
    var w, e := LastClaimant(ys, |ys|, d), FirstClaimant(ys, 0, d);
    if w >= 0 { assert Claims(ys[w], d); }
    if e >= 0 { assert Claims(ys[e], d); }
  }

  /** What table `t` of `ys` must say about day `d`: nothing, or the record of the last year claiming it. */
  ghost predicate TableRight(ys: seq<BsYear>, t: map<int, DayRecord>, d: int) {
    var w := LastClaimant(ys, |ys|, d);
    && (d in t <==> Recorded(ys, d))
    && (d in t <==> w >= 0)
    && (w >= 0 ==> t[d] == RecordFor(ys[w], d))
  }

  lemma {:induction false} TableByDay(ys: seq<BsYear>, d: int)
    ensures TableRight(ys, TableOf(ys).vals, d)
  {
    RecordedByClaimant(ys, d);
    if ys != [] {
      var init, y := ys[..|ys| - 1], ys[|ys| - 1];
      TableByDay(init, d);
      YearRun(y, d);
      TabulateRun(AllDays(init), DaysOfYear(y), y.start, d);
      LastClaimantPrefix(ys, |init|, d);
    }
  }

  /** The table holds one record per claimed AD day, and of several claims the latest year's. */
  lemma TableRecords(ys: seq<BsYear>)
    ensures TableOf(ys).Valid()
    ensures forall d :: TableRight(ys, TableOf(ys).vals, d)
  {
    TabulateValid(AllDays(ys));
    forall d ensures TableRight(ys, TableOf(ys).vals, d) { TableByDay(ys, d); }
  }

  ghost predicate Ascending(s: seq<int>) {
    forall i, j :: 0 <= i < j < |s| ==> s[i] < s[j]
  }

  lemma {:induction false} AppendRunAscending(s: seq<DayRecord>, t: seq<DayRecord>, a: int)
    requires Run(t, a) && Ascending(Tabulate(s).keys)
    requires forall k, d :: k in Tabulate(s).vals && d >= a && d !in Tabulate(s).vals ==> k < d
    ensures Ascending(Tabulate(s + t).keys)
  {
    if t == [] {
      assert s + t == s;
    } else {
      var n := |t| - 1;
      AppendRunAscending(s, t[..n], a);
      TabulateValid(s + t[..n]);
      assert (s + t)[..|s + t| - 1] == s + t[..n];
      assert (s + t)[|s + t| - 1] == t[n];
      var before := Tabulate(s + t[..n]);
      forall i | 0 <= i < |before.keys| && a + n !in before.vals
        ensures before.keys[i] < a + n
      {
        assert before.keys[i] in before.vals;
        TabulateRun(s, t[..n], a, before.keys[i]);
        TabulateRun(s, t[..n], a, a + n);
      }
    }
  }

  lemma {:induction false} KeysAscending(ys: seq<BsYear>)
    requires AscendingStarts(ys)
    ensures Ascending(TableOf(ys).keys)
  {
    if ys != [] {
      var init, y := ys[..|ys| - 1], ys[|ys| - 1];
      KeysAscending(init);
      TableRecords(init);
      YearRun(y, 0);
      forall k, d | k in TableOf(init).vals && d >= y.start && d !in TableOf(init).vals
        ensures k < d
      {
        assert TableRight(init, TableOf(init).vals, k) && TableRight(init, TableOf(init).vals, d);
        var j :| 0 <= j < |init| && Claims(init[j], k);
        assert ys[j].start < ys[|ys| - 1].start;
        assert !Claims(init[j], d);
      }
      AppendRunAscending(AllDays(init), DaysOfYear(y), y.start);
    }
  }

  /** With ascending Baisakh-1 days the table is strictly ascending in AD days, overlaps and gaps
      included, so its first and last records are the true bounds of what is recorded. */
  lemma TableAscending(ys: seq<BsYear>)
    requires AscendingStarts(ys)
    ensures var ks := TableOf(ys).keys;
            && Ascending(ks)
            && (forall d :: Recorded(ys, d) <==> d in ks)
            && (forall d :: Recorded(ys, d) ==> ks[0] <= d <= ks[|ks| - 1])
  {
    KeysAscending(ys);
    TableRecords(ys);
    forall d ensures Recorded(ys, d) <==> d in TableOf(ys).keys {
      assert TableRight(ys, TableOf(ys).vals, d);
    }
  }

  // -------------------------------------------------------------- the overlaps

  function TotalLen(ys: seq<BsYear>): nat {
    if ys == [] then 0 else TotalLen(ys[..|ys| - 1]) + YearLen(ys[|ys| - 1])
  }

  lemma {:induction false} AllDaysCount(ys: seq<BsYear>)
    ensures |AllDays(ys)| == TotalLen(ys)
  {
    if ys != [] {
      AllDaysCount(ys[..|ys| - 1]);
      DaysOfYearAt(ys[|ys| - 1]);
    }
  }

  lemma {:induction false} EveryDayTabledOrReported(rs: seq<DayRecord>)
    ensures Tabulate(rs).vals.Keys == AuditOf(rs).claimed.Keys
    ensures |Tabulate(rs).keys| + |AuditOf(rs).overlaps| == |rs|
  {
    if rs != [] { EveryDayTabledOrReported(rs[..|rs| - 1]); }
  }

  /** Conservation: every day of every year is either a table row or one reported overlap. */
  lemma DaysConserved(ys: seq<BsYear>)
    ensures |TableOf(ys).keys| + |FindOverlaps(ys)| == TotalLen(ys)
  {
    AllDaysCount(ys);
    EveryDayTabledOrReported(AllDays(ys));
  }

  lemma {:induction false} AuditRun(s: seq<DayRecord>, t: seq<DayRecord>, a: int, o: Overlap)
    requires Run(t, a)
    ensures var p, r, d := AuditOf(s), AuditOf(s + t), o.ad;
            && (d in r.claimed <==> d in p.claimed || a <= d < a + |t|)
            && (d in r.claimed ==> r.claimed[d] == if d in p.claimed then p.claimed[d] else t[d - a].bs)
            && (o in r.overlaps <==>
                  || o in p.overlaps
                  || (a <= d < a + |t| && d in p.claimed && o == Overlap(d, p.claimed[d], t[d - a].bs)))
  {
    if t == [] {
      assert s + t == s;
    } else {
      var n := |t| - 1;
      AuditRun(s, t[..n], a, o);
      assert (s + t)[..|s + t| - 1] == s + t[..n];
      assert (s + t)[|s + t| - 1] == t[n];
    }
  }

  lemma {:induction false} FirstClaimantSnoc(ys: seq<BsYear>, from: nat, d: int)
    requires from < |ys|
    ensures FirstClaimant(ys, from, d) ==
            if FirstClaimant(ys[..|ys| - 1], from, d) >= 0 then FirstClaimant(ys[..|ys| - 1], from, d)
            else if Claims(ys[|ys| - 1], d) then |ys| - 1 else -1
    decreases |ys| - from
  {
    if from < |ys| - 1 { FirstClaimantSnoc(ys, from + 1, d); }
  }

  /** `o` is what the report must say about year `j` claiming a day some earlier year already has. */
  ghost predicate IsOverlap(ys: seq<BsYear>, o: Overlap, j: int) {
    var e := FirstClaimant(ys, 0, o.ad);
    0 <= e < j < |ys| && Claims(ys[j], o.ad) && o.earlier == DateIn(ys[e], o.ad) && o.later == DateIn(ys[j], o.ad)
  }

  ghost predicate ClaimedRight(ys: seq<BsYear>, c: map<int, BsDate>, d: int) {
    var e := FirstClaimant(ys, 0, d);
    if e < 0 then d !in c else d in c && c[d] == DateIn(ys[e], d)
  }

  /** For one entry `o`: what the running audit has claimed on its day, and whether it was reported. */
  lemma {:induction false} AuditByDay(ys: seq<BsYear>, o: Overlap)
    ensures ClaimedRight(ys, AuditOf(AllDays(ys)).claimed, o.ad)
    ensures o in FindOverlaps(ys) <==> exists j :: IsOverlap(ys, o, j)
  {
    if ys != [] {
      var init, y := ys[..|ys| - 1], ys[|ys| - 1];
      AuditByDay(init, o);
      YearRun(y, o.ad);
      AuditRun(AllDays(init), DaysOfYear(y), y.start, o);
      FirstClaimantSnoc(ys, 0, o.ad);
      if j :| IsOverlap(init, o, j) { assert IsOverlap(ys, o, j); }
      if o in FindOverlaps(ys) && o !in FindOverlaps(init) { assert IsOverlap(ys, o, |init|); }
      if j :| IsOverlap(ys, o, j) && j < |init| { assert IsOverlap(init, o, j); }
    }
  }

  /** The report lists exactly the repeated claims: each with the earliest claimant's date and its own. */
  lemma OverlapsExact(ys: seq<BsYear>)
    ensures forall o :: o in FindOverlaps(ys) <==> exists j :: IsOverlap(ys, o, j)
  {
    forall o ensures o in FindOverlaps(ys) <==> exists j :: IsOverlap(ys, o, j) { AuditByDay(ys, o); }
  }

  ghost predicate ClaimedTwice(ys: seq<BsYear>, d: int) {
    exists i, j :: 0 <= i < j < |ys| && Claims(ys[i], d) && Claims(ys[j], d)
  }

  /** The report is empty exactly when no AD day is claimed by two years. */
  lemma NoOverlapReported(ys: seq<BsYear>)
    ensures FindOverlaps(ys) == [] <==> forall d :: !ClaimedTwice(ys, d)
  {
    OverlapsExact(ys);
    if d :| ClaimedTwice(ys, d) {
      var i, j :| 0 <= i < j < |ys| && Claims(ys[i], d) && Claims(ys[j], d);
      var e := FirstClaimant(ys, 0, d);
      var o := Overlap(d, DateIn(ys[e], d), DateIn(ys[j], d));
      assert IsOverlap(ys, o, j);
      assert o in FindOverlaps(ys);
    }
    if FindOverlaps(ys) != [] {
      var o := FindOverlaps(ys)[0];
      assert o in FindOverlaps(ys);
      var j :| IsOverlap(ys, o, j);
      assert ClaimedTwice(ys, o.ad);
    }
  }
}
