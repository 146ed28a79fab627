/** The two row merges: mergeShipmentWindow (shipmentOverviewStore.ts) and mergeBranchStock (branchStockStore.ts). */
module RowMerge {
  import opened Collections

  /** A row with the key it is deduplicated by; a shipment without id and tracking code has none. */
  datatype Row = Row(key: Option<int>, body: int)

  ghost predicate HasKey(rows: seq<Row>, n: nat, k: int)
    requires n <= |rows|
  {
    exists j :: 0 <= j < n && rows[j].key == Some(k)
  }

  /** Position `i` holds the first row with its key, and that key is not taken already. */
  ghost predicate First(rows: seq<Row>, taken: set<int>, i: nat)
    requires i < |rows|
  {
    rows[i].key.Some? && rows[i].key.value !in taken && !HasKey(rows, i, rows[i].key.value)
  }

  /** The rows at the first positions among the first `n`, in order. */
  ghost function Firsts(rows: seq<Row>, taken: set<int>, n: nat): seq<Row>
    requires n <= |rows|
  {
    if n == 0 then []
    else if First(rows, taken, n - 1) then Firsts(rows, taken, n - 1) + [rows[n - 1]]
    else Firsts(rows, taken, n - 1)
  }

  /** The loop both merges share: append each row whose key has not been seen. */
  method AppendUnseen(base: seq<Row>, more: seq<Row>, taken: set<int>) returns (merged: seq<Row>)
    ensures merged == base + Firsts(more, taken, |more|)
  {
    var seen := taken;
    merged := base;
    for i := 0 to |more|
      invariant merged == base + Firsts(more, taken, i)
      invariant forall k :: k in seen <==> k in taken || HasKey(more, i, k)
    {
      var row := more[i];
      if row.key.Some? { assert row.key.value in seen <==> row.key.value in taken || HasKey(more, i, row.key.value); }
      assert base + (Firsts(more, taken, i) + [row]) == merged + [row];
      if row.key.Some? && row.key.value !in seen {
        seen := seen + {row.key.value};
        merged := merged + [row];
      }
      assert forall k :: HasKey(more, i + 1, k) <==> HasKey(more, i, k) || row.key == Some(k);
    }
  }

  /** Pending rows first, then the recent window; rows without a key are dropped. */
  method MergeShipmentWindow(pending: seq<Row>, recent: seq<Row>) returns (merged: seq<Row>)
    ensures merged == Firsts(pending + recent, {}, |pending| + |recent|)
  {
    merged := AppendUnseen([], pending + recent, {});
  }

  /** The fallback rows are kept whole and win; fetched rows only add pairs the fallback does not carry. */
  method MergeBranchStock(fallback: seq<Row>, fetched: seq<Row>) returns (merged: seq<Row>)
    ensures merged == fallback + Firsts(fetched, set r | r in fallback && r.key.Some? :: r.key.value, |fetched|)
  {
    merged := AppendUnseen(fallback, fetched, set r | r in fallback && r.key.Some? :: r.key.value);
  }

  /** What a merge keeps: every row comes from the input, no key appears twice or was taken before, and a
      key is present exactly when some row carries it and it was not taken. */
  lemma {:induction false} FirstsKeepEachKeyOnce(rows: seq<Row>, taken: set<int>, n: nat)
    requires n <= |rows|
    ensures var m := Firsts(rows, taken, n);
            && (forall i :: 0 <= i < |m| ==> m[i] in rows && m[i].key.Some? && m[i].key.value !in taken)
            && (forall i, j :: 0 <= i < j < |m| ==> m[i].key != m[j].key)
            && (forall k :: HasKey(m, |m|, k) <==> k !in taken && HasKey(rows, n, k))
  {
    if n > 0 {
      FirstsKeepEachKeyOnce(rows, taken, n - 1);
      var p, m := Firsts(rows, taken, n - 1), Firsts(rows, taken, n);
      forall k ensures HasKey(m, |m|, k) <==> k !in taken && HasKey(rows, n, k) {
        if HasKey(p, |p|, k) {
          var j :| 0 <= j < |p| && p[j].key == Some(k);
          assert m[j].key == Some(k);
        }
        if First(rows, taken, n - 1) { assert m[|m| - 1] == rows[n - 1]; }
      }
      forall i | 0 <= i < |p| && First(rows, taken, n - 1)
        ensures p[i].key != rows[n - 1].key
      {
        assert HasKey(p, |p|, p[i].key.value);
      }
    }
  }

  /** The row kept for a key is its first: a pending row always beats a recent one with the same key. */
  lemma {:induction false} FirstRowWins(rows: seq<Row>, taken: set<int>, n: nat, i: nat)
    requires i < n <= |rows| && First(rows, taken, i)
    ensures rows[i] in Firsts(rows, taken, n)
  {
    if i < n - 1 { FirstRowWins(rows, taken, n - 1, i); }
  }
}
