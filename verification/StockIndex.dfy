/**
 * Stock lookups through an index (client/src/utils/stockIndex.ts) and the low-stock order built on them
 * (client/src/App.tsx, `handleGroupLowStockPO`).
 */
module StockIndex {
  import opened Collections

  datatype Row = Row(productId: string, branchId: string, onHand: real, minLevel: Option<real>)

  const NUL: char := '\0'

  function PairKey(productId: string, branchId: string): string { productId + [NUL] + branchId }

  function KeyOf(row: Row): string { PairKey(row.productId, row.branchId) }

  // ----- The indexes -----

  /** `rows.find(row => keyOf(row) === key)`. */
  function Find<T>(rows: seq<T>, keyOf: T -> string, key: string): Option<T> {
    if rows == [] then None
    else if keyOf(rows[0]) == key then Some(rows[0])
    else Find(rows[1..], keyOf, key)
  }

  /** `rows.filter(row => keyOf(row) === key)`. */
  function Matching<T>(rows: seq<T>, keyOf: T -> string, key: string): seq<T> {
    if rows == [] then []
    else if keyOf(rows[|rows| - 1]) == key then Matching(rows[..|rows| - 1], keyOf, key) + [rows[|rows| - 1]]
    else Matching(rows[..|rows| - 1], keyOf, key)
  }

  function Lookup<T>(index: map<string, T>, key: string): Option<T> {
    if key in index then Some(index[key]) else None
  }

  lemma {:induction false} FindSnoc<T>(rows: seq<T>, row: T, keyOf: T -> string, key: string)
    ensures Find(rows + [row], keyOf, key) ==
            if Find(rows, keyOf, key).Some? then Find(rows, keyOf, key) else if keyOf(row) == key then Some(row) else None
  {
    if rows != [] {
      FindSnoc(rows[1..], row, keyOf, key);
      assert (rows + [row])[1..] == rows[1..] + [row];
    }
  }

  method IndexFirstBy<T>(rows: seq<T>, keyOf: T -> string) returns (index: map<string, T>)
    ensures forall key :: Lookup(index, key) == Find(rows, keyOf, key)
  {
    index := map[];
    for i := 0 to |rows|
      invariant forall key :: Lookup(index, key) == Find(rows[..i], keyOf, key)
    {
      var key := keyOf(rows[i]);
      ghost var before := index;
      if key !in index { index := index[key := rows[i]]; }
      assert rows[..i + 1] == rows[..i] + [rows[i]];
      forall k ensures Lookup(index, k) == Find(rows[..i + 1], keyOf, k) {
        FindSnoc(rows[..i], rows[i], keyOf, k);
        assert Lookup(before, k) == Find(rows[..i], keyOf, k);
      }
    }
    assert rows[..|rows|] == rows;
  }

  method GroupBy<T>(rows: seq<T>, keyOf: T -> string) returns (groups: map<string, seq<T>>)
    ensures forall key :: key in groups <==> Matching(rows, keyOf, key) != []
    ensures forall key :: key in groups ==> groups[key] == Matching(rows, keyOf, key)
  {
    groups := map[];
    for i := 0 to |rows|
      invariant forall key :: key in groups <==> Matching(rows[..i], keyOf, key) != []
      invariant forall key :: key in groups ==> groups[key] == Matching(rows[..i], keyOf, key)
    {
      var key := keyOf(rows[i]);
      assert rows[..i + 1][..i] == rows[..i];
      if key in groups {
        groups := groups[key := groups[key] + [rows[i]]];
      } else {
        groups := groups[key := [rows[i]]];
      }
    }
    assert rows[..|rows|] == rows;
  }

  /** The bucket of a key opens with the row the index holds for it. */
  lemma {:induction false} BucketOpensWithFirst<T>(rows: seq<T>, keyOf: T -> string, key: string)
    ensures Find(rows, keyOf, key) ==
            if Matching(rows, keyOf, key) == [] then None else Some(Matching(rows, keyOf, key)[0])
  {
    if rows != [] {
      var n := |rows| - 1;
      BucketOpensWithFirst(rows[..n], keyOf, key);
      FindSnoc(rows[..n], rows[n], keyOf, key);
      assert rows == rows[..n] + [rows[n]];
    }
  }

  // ----- When the pair key is as good as the pair -----

  predicate Clean(id: string) { NUL !in id }

  predicate CleanRows(rows: seq<Row>) { forall r :: r in rows ==> Clean(r.productId) && Clean(r.branchId) }

  /** `stock.find(s => s.productId === p && s.branchId === b)`, the scan the index replaces. */
  function FindPair(rows: seq<Row>, p: string, b: string): Option<Row> {
    if rows == [] then None
    else if rows[0].productId == p && rows[0].branchId == b then Some(rows[0])
    else FindPair(rows[1..], p, b)
  }

  function FindKey(rows: seq<Row>, p: string, b: string): Option<Row> { Find(rows, KeyOf, PairKey(p, b)) }

  /** A key splits in one way only where no NUL occurs in the ids it was made of. */
  lemma CleanKeySplits(p: string, b: string, q: string, c: string)
    requires Clean(p) && Clean(b)
    ensures PairKey(p, b) == PairKey(q, c) <==> p == q && b == c
  {
    var k, l := PairKey(p, b), PairKey(q, c);
    if k == l {
      assert k[|p|] == NUL && l[|q|] == NUL;
      assert forall i :: 0 <= i < |k| && i != |p| ==> k[i] != NUL by {
        forall i | 0 <= i < |k| && i != |p| ensures k[i] != NUL {
          if i < |p| { assert k[i] == p[i] && p[i] in p; } else { assert k[i] == b[i - |p| - 1] && b[i - |p| - 1] in b; }
        }
      }
      assert k[..|p|] == p && l[..|q|] == q;
      assert k[|p| + 1..] == b && l[|q| + 1..] == c;
    }
  }

  lemma {:induction false} CleanRowsScan(rows: seq<Row>, p: string, b: string)
    requires CleanRows(rows)
    ensures FindKey(rows, p, b) == FindPair(rows, p, b)
  {
    if rows != [] {
      assert rows[0] in rows;
      CleanKeySplits(rows[0].productId, rows[0].branchId, p, b);
      CleanRowsScan(rows[1..], p, b);
    }
  }

  lemma {:induction false} FoundPairMatches(rows: seq<Row>, p: string, b: string)
    ensures var r := FindPair(rows, p, b); r.Some? ==> r.value.productId == p && r.value.branchId == b
  {
    if rows != [] { FoundPairMatches(rows[1..], p, b); }
  }

  lemma {:induction false} KeyOfRowIsFound(rows: seq<Row>, row: Row)
    requires row in rows
    ensures FindKey(rows, row.productId, row.branchId).Some?
  {
    if rows[0] != row { KeyOfRowIsFound(rows[1..], row); }
  }

  /** A NUL in an id gives the row's key a second split. */
  lemma SecondSplit(p: string, b: string) returns (q: string, c: string)
    requires !(Clean(p) && Clean(b))
    ensures PairKey(q, c) == PairKey(p, b) && q != p
  {
    var k := PairKey(p, b);
    var i :| 0 <= i < |k| && k[i] == NUL && i != |p| by {
      if NUL in p {
        var j :| 0 <= j < |p| && p[j] == NUL;
        assert k[j] == NUL;
      } else {
        var j :| 0 <= j < |b| && b[j] == NUL;
        assert k[|p| + 1 + j] == NUL;
      }
    }
    q, c := k[..i], k[i + 1..];
    assert k == q + [NUL] + c;
    assert |q| != |p|;
  }

  /** The index answers every pair as the scan did, exactly when no id in the rows holds the separator. */
  lemma IndexIsScan(rows: seq<Row>)
    ensures (forall p, b :: FindKey(rows, p, b) == FindPair(rows, p, b)) <==> CleanRows(rows)
  {
    if CleanRows(rows) {
      forall p, b ensures FindKey(rows, p, b) == FindPair(rows, p, b) { CleanRowsScan(rows, p, b); }
    } else {
      var r :| r in rows && !(Clean(r.productId) && Clean(r.branchId));
      var q, c := SecondSplit(r.productId, r.branchId);
      KeyOfRowIsFound(rows, r);
      FoundPairMatches(rows, r.productId, r.branchId);
      FoundPairMatches(rows, q, c);
      assert FindKey(rows, q, c) == FindKey(rows, r.productId, r.branchId);
    }
  }

  // ----- The low-stock pass -----

  datatype Product = Product(id: string, minLevel: real, costPrice: real, taxRate: real)

  datatype OrderLine = OrderLine(productId: string, quantity: real, unitPrice: real, taxExempt: bool)

  /** The branch selected on screen, or all of them. */
  datatype Selection = All | One(branchId: string)

  function Active(branches: seq<string>, selected: Selection): seq<string> {
    if selected.All? || branches == [] then branches
    else if branches[0] == selected.branchId then [branches[0]] + Active(branches[1..], selected)
    else Active(branches[1..], selected)
  }

  /** The pass runs over the selected branch, or over all of them. */
  lemma {:induction false} ActiveIs(branches: seq<string>, selected: Selection, b: string)
    ensures b in Active(branches, selected) <==> b in branches && (selected.All? || b == selected.branchId)
  {
    if branches != [] { ActiveIs(branches[1..], selected, b); }
  }

  /** A row is found by the pair, as the screens once scanned for it, or by its key, as the index does. */
  datatype Access = ByPair | ByKey

  function RowAt(access: Access, rows: seq<Row>, p: string, b: string): Option<Row> {
    if access.ByPair? then FindPair(rows, p, b) else FindKey(rows, p, b)
  }

  function OnHand(row: Option<Row>): real { if row.Some? then row.value.onHand else 0.0 }

  function Threshold(row: Option<Row>, product: Product): real {
    if row.Some? && row.value.minLevel.Some? then row.value.minLevel.value else product.minLevel
  }

  function Deficit(row: Option<Row>, product: Product): real {
    var onHand, threshold := OnHand(row), Threshold(row, product);
    if threshold > 0.0 && onHand <= threshold then if threshold - onHand > 1.0 then threshold - onHand else 1.0
    else if threshold == 0.0 && onHand < 0.0 then -onHand
    else 0.0
  }

  /** What the branches together lack of a product. */
  function TotalDeficit(access: Access, product: Product, branches: seq<string>, rows: seq<Row>): real {
    if branches == [] then 0.0
    else
      TotalDeficit(access, product, branches[..|branches| - 1], rows) +
      Deficit(RowAt(access, rows, product.id, branches[|branches| - 1]), product)
  }

  type Needs = OrderedMap<string, (Product, real)>

  /** The low-stock map after the first products, a repeated product id replacing the earlier entry in its place. */
  function LowStock(access: Access, products: seq<Product>, branches: seq<string>, rows: seq<Row>): Needs {
    if products == [] then OrderedMap([], map[])
    else
      var n := |products| - 1;
      var before := LowStock(access, products[..n], branches, rows);
      var qty := TotalDeficit(access, products[n], branches, rows);
      if qty > 0.0 then before.Put(products[n].id, (products[n], qty)) else before
  }

  function LineFor(need: (Product, real)): OrderLine {
    OrderLine(need.0.id, if need.1 > 1.0 then need.1 else 1.0, need.0.costPrice, need.0.taxRate == 0.0)
  }

  function LinesOf(needs: Needs): seq<OrderLine>
    requires needs.Valid()
  {
    seq(|needs.keys|, i requires 0 <= i < |needs.keys| => LineFor(needs.vals[needs.keys[i]]))
  }

  lemma {:induction false} LowStockValid(access: Access, products: seq<Product>, branches: seq<string>, rows: seq<Row>)
    ensures LowStock(access, products, branches, rows).Valid()
  {
    if products != [] {
      var n := |products| - 1;
      LowStockValid(access, products[..n], branches, rows);
      PutValid(LowStock(access, products[..n], branches, rows), products[n].id,
               (products[n], TotalDeficit(access, products[n], branches, rows)));
    }
  }

  method ProductDeficit(index: map<string, Row>, product: Product, branches: seq<string>, ghost rows: seq<Row>) returns (total: real)
    requires forall key :: Lookup(index, key) == Find(rows, KeyOf, key)
    ensures total == TotalDeficit(ByKey, product, branches, rows)
  {
    total := 0.0;
    for i := 0 to |branches|
      invariant total == TotalDeficit(ByKey, product, branches[..i], rows)
    {
      var row := Lookup(index, PairKey(product.id, branches[i]));
      var onHand := if row.Some? then row.value.onHand else 0.0;
      var threshold := if row.Some? && row.value.minLevel.Some? then row.value.minLevel.value else product.minLevel;
      assert branches[..i + 1][..i] == branches[..i];
      if threshold > 0.0 && onHand <= threshold {
        total := total + if threshold - onHand > 1.0 then threshold - onHand else 1.0;
      } else if threshold == 0.0 && onHand < 0.0 {
        total := total + -onHand;
      }
    }
    assert branches[..|branches|] == branches;
  }

  method GroupLowStock(products: seq<Product>, branches: seq<string>, selected: Selection, stock: seq<Row>)
    returns (lines: seq<OrderLine>)
    ensures LowStock(ByKey, products, Active(branches, selected), stock).Valid()
    ensures lines == LinesOf(LowStock(ByKey, products, Active(branches, selected), stock))
  {
    var active := Active(branches, selected);
    var index := IndexFirstBy(stock, KeyOf);
    var needs: Needs := OrderedMap([], map[]);
    for i := 0 to |products|
      invariant needs == LowStock(ByKey, products[..i], active, stock)
    {
      var total := ProductDeficit(index, products[i], active, stock);
      assert products[..i + 1][..i] == products[..i];
      if total > 0.0 { needs := needs.Put(products[i].id, (products[i], total)); }
    }
    assert products[..|products|] == products;
    LowStockValid(ByKey, products, active, stock);
    lines := LinesOf(needs);
  }

  lemma {:induction false} SameDeficit(product: Product, branches: seq<string>, rows: seq<Row>)
    requires CleanRows(rows)
    ensures TotalDeficit(ByKey, product, branches, rows) == TotalDeficit(ByPair, product, branches, rows)
  {
    if branches != [] {
      var n := |branches| - 1;
      SameDeficit(product, branches[..n], rows);
      CleanRowsScan(rows, product.id, branches[n]);
    }
  }

  /** The indexed pass is the products x branches x rows pass it replaced. */
  lemma {:induction false} IndexedPassIsNaive(products: seq<Product>, branches: seq<string>, rows: seq<Row>)
    requires CleanRows(rows)
    ensures LowStock(ByKey, products, branches, rows) == LowStock(ByPair, products, branches, rows)
  {
    if products != [] {
      var n := |products| - 1;
      IndexedPassIsNaive(products[..n], branches, rows);
      SameDeficit(products[n], branches, rows);
    }
  }

  // ----- What the pass orders -----

  /** A branch is short of a product: at or below a positive level, or below zero where the level is zero. */
  predicate Short(row: Option<Row>, product: Product) {
    (Threshold(row, product) > 0.0 && OnHand(row) <= Threshold(row, product)) ||
    (Threshold(row, product) == 0.0 && OnHand(row) < 0.0)
  }

  /** A product is ordered for exactly the branches that are short of it, and receiving the order brings each
      up to its level; only a branch below a negative level is left there. */
  lemma DeficitCovers(row: Option<Row>, product: Product)
    ensures Deficit(row, product) > 0.0 <==> Short(row, product)
    ensures Deficit(row, product) >= 0.0
    ensures OnHand(row) + Deficit(row, product) >= Threshold(row, product) <==>
            Threshold(row, product) >= 0.0 || OnHand(row) >= Threshold(row, product)
    ensures Short(row, product) && Deficit(row, product) > 1.0 ==> OnHand(row) + Deficit(row, product) == Threshold(row, product)
  {
  }

  lemma {:induction false} TotalCovers(access: Access, product: Product, branches: seq<string>, rows: seq<Row>)
    ensures TotalDeficit(access, product, branches, rows) >= 0.0
    ensures TotalDeficit(access, product, branches, rows) > 0.0 <==>
            exists b :: b in branches && Short(RowAt(access, rows, product.id, b), product)
  {
    if branches != [] {
      var n := |branches| - 1;
      TotalCovers(access, product, branches[..n], rows);
      DeficitCovers(RowAt(access, rows, product.id, branches[n]), product);
      assert forall b :: b in branches <==> b in branches[..n] || b == branches[n];
    }
  }

  lemma {:induction false} BranchWithinTotal(access: Access, product: Product, branches: seq<string>, rows: seq<Row>, b: string)
    requires b in branches
    ensures Deficit(RowAt(access, rows, product.id, b), product) <= TotalDeficit(access, product, branches, rows)
  {
    var n := |branches| - 1;
    TotalCovers(access, product, branches[..n], rows);
    DeficitCovers(RowAt(access, rows, product.id, branches[n]), product);
    if b in branches[..n] { BranchWithinTotal(access, product, branches[..n], rows, b); }
  }

  /** A line orders its product at its cost price: at least one piece, no less than any branch lacks, and exactly what they
      lack together when that is a piece or more. */
  lemma LineCovers(access: Access, product: Product, branches: seq<string>, rows: seq<Row>, b: string)
    requires b in branches
    ensures var total := TotalDeficit(access, product, branches, rows);
            var line := LineFor((product, total));
            && line.productId == product.id && line.unitPrice == product.costPrice && (line.taxExempt <==> product.taxRate == 0.0)
            && line.quantity >= 1.0 && line.quantity >= Deficit(RowAt(access, rows, product.id, b), product)
            && (line.quantity == total <==> total >= 1.0)
  {
    BranchWithinTotal(access, product, branches, rows, b);
  }

  predicate Wanted(access: Access, product: Product, branches: seq<string>, rows: seq<Row>) {
    TotalDeficit(access, product, branches, rows) > 0.0
  }

  ghost predicate DistinctIds(products: seq<Product>) {
    forall i, j :: 0 <= i < j < |products| ==> products[i].id != products[j].id
  }

  function WantedLines(access: Access, products: seq<Product>, branches: seq<string>, rows: seq<Row>): seq<OrderLine> {
    if products == [] then []
    else
      var n := |products| - 1;
      var before := WantedLines(access, products[..n], branches, rows);
      if Wanted(access, products[n], branches, rows) then
        before + [LineFor((products[n], TotalDeficit(access, products[n], branches, rows)))]
      else before
  }

  lemma {:induction false} LowStockIds(access: Access, products: seq<Product>, branches: seq<string>, rows: seq<Row>, id: string)
    requires id in LowStock(access, products, branches, rows).vals
    ensures exists i :: 0 <= i < |products| && products[i].id == id
  {
    var n := |products| - 1;
    if id in LowStock(access, products[..n], branches, rows).vals {
      LowStockIds(access, products[..n], branches, rows, id);
      var i :| 0 <= i < n && products[..n][i].id == id;
      assert products[i].id == id;
    }
  }

  /** With distinct product ids the order has one line for each product some active branch is short of, in product order,
      for what those branches together lack. */
  lemma {:induction false} OrderIsWhatIsShort(access: Access, products: seq<Product>, branches: seq<string>, rows: seq<Row>)
    requires DistinctIds(products)
    ensures LowStock(access, products, branches, rows).Valid()
    ensures LinesOf(LowStock(access, products, branches, rows)) == WantedLines(access, products, branches, rows)
  {
    LowStockValid(access, products, branches, rows);
    if products != [] {
      var n := |products| - 1;
      var before, now := LowStock(access, products[..n], branches, rows), LowStock(access, products, branches, rows);
      OrderIsWhatIsShort(access, products[..n], branches, rows);
      if products[n].id in before.vals {
        LowStockIds(access, products[..n], branches, rows, products[n].id);
        assert false;
      }
      if Wanted(access, products[n], branches, rows) {
        assert forall i :: 0 <= i < |before.keys| ==> before.keys[i] in before.vals && now.vals[before.keys[i]] == before.vals[before.keys[i]];
        assert LinesOf(now) == LinesOf(before) + [LineFor((products[n], TotalDeficit(access, products[n], branches, rows)))];
      }
    }
  }
}
