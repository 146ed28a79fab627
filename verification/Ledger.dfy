/** The double-entry ledger built from the books of the branches (scripts/seed/verificationDataset.ts). */
module Ledger {
  import opened Collections

  /** Branch, party and expense-account identifiers: only their equality matters. */
  type Id = int

  datatype Account =
    | Cash | Bank | Receivable | Inventory | Prepaid | FixedAssets | Payable | Capital
    | HardwareRevenue | ServiceRevenue | CostOfGoods | Expense(code: Id)

  /** One requested line of a journal; a party makes it a subledger line too. */
  datatype Entry = Entry(account: Account, debit: int, credit: int, party: Option<Id>)

  datatype Posting = Posting(branch: Id, entries: seq<Entry>)

  datatype Line = Line(lineNo: nat, journal: nat, account: Account, branch: Id, debit: int, credit: int)

  datatype SubEntry = SubEntry(no: nat, lineNo: nat, account: Account, party: Id, branch: Id, debit: int, credit: int)

  // ------------------------------------------------------------------ the books

  datatype Item = Item(quantity: nat, isService: bool)

  datatype Purchase = Purchase(branch: Id, supplier: Id, total: nat, quantity: nat)

  datatype Sale = Sale(branch: Id, customer: Id, total: nat, items: seq<Item>)

  datatype Settlement = Settlement(branch: Id, party: Id, amount: nat)

  datatype ExpenseItem = ExpenseItem(code: Id, amount: nat)

  datatype Books = Books(branches: seq<Id>, purchases: seq<Purchase>, sales: seq<Sale>,
                         receipts: seq<Settlement>, vendorPayments: seq<Settlement>, expenses: seq<ExpenseItem>)

  const UNIT_COST: nat := 50

  /** An invoice all of whose items are service plans; such an invoice issues no stock. */
  predicate IsService(s: Sale) { forall i :: 0 <= i < |s.items| ==> s.items[i].isService }

  function Units(items: seq<Item>): nat {
    if items == [] then 0 else Units(items[..|items| - 1]) + items[|items| - 1].quantity
  }

  function UnitsSold(s: Sale): nat { if IsService(s) then 0 else Units(s.items) }

  // --------------------------------------------------------------- the postings

  function Debit(a: Account, n: int): Entry { Entry(a, n, 0, None) }

  function Credit(a: Account, n: int): Entry { Entry(a, 0, n, None) }

  function Opening(b: Id): seq<Posting> {
    [Posting(b, [Debit(Cash, 5250), Debit(Prepaid, 1250), Debit(FixedAssets, 6000), Credit(Capital, 12500)])]
  }

  function OfPurchase(p: Purchase): seq<Posting> {
    [Posting(p.branch, [Debit(Inventory, p.total), Entry(Payable, 0, p.total, Some(p.supplier))])]
  }

  function OfSale(s: Sale): seq<Posting> {
    var cogs := Units(s.items) * UNIT_COST;
    [Posting(s.branch, [Entry(Receivable, s.total, 0, Some(s.customer)),
                        Credit(if IsService(s) then ServiceRevenue else HardwareRevenue, s.total)])]
    + if IsService(s) then [] else [Posting(s.branch, [Debit(CostOfGoods, cogs), Credit(Inventory, cogs)])]
  }

  function OfReceipt(r: Settlement): seq<Posting> {
    [Posting(r.branch, [Debit(Bank, r.amount), Entry(Receivable, 0, r.amount, Some(r.party))])]
  }

  function OfVendorPayment(v: Settlement): seq<Posting> {
    [Posting(v.branch, [Entry(Payable, v.amount, 0, Some(v.party)), Credit(Bank, v.amount)])]
  }

  function OfExpense(b: Id, e: ExpenseItem): seq<Posting> {
    [Posting(b, [Debit(Expense(e.code), e.amount), Credit(Bank, e.amount)])]
  }

  // `xs.filter((x) => x.branchId === branch.id).forEach(post)`, as the postings each loop makes.

  function PurchasePostings(ps: seq<Purchase>, b: Id): seq<Posting> {
    if ps == [] then []
    else
      var init, x := PurchasePostings(ps[..|ps| - 1], b), ps[|ps| - 1];
      if x.branch == b then init + OfPurchase(x) else init
  }

  function SalePostings(ss: seq<Sale>, b: Id): seq<Posting> {
    if ss == [] then []
    else
      var init, x := SalePostings(ss[..|ss| - 1], b), ss[|ss| - 1];
      if x.branch == b then init + OfSale(x) else init
  }

  function ReceiptPostings(rs: seq<Settlement>, b: Id): seq<Posting> {
    if rs == [] then []
    else
      var init, x := ReceiptPostings(rs[..|rs| - 1], b), rs[|rs| - 1];
      if x.branch == b then init + OfReceipt(x) else init
  }

  function VendorPostings(vs: seq<Settlement>, b: Id): seq<Posting> {
    if vs == [] then []
    else
      var init, x := VendorPostings(vs[..|vs| - 1], b), vs[|vs| - 1];
      if x.branch == b then init + OfVendorPayment(x) else init
  }

  function ExpensePostings(es: seq<ExpenseItem>, b: Id): seq<Posting> {
    if es == [] then [] else ExpensePostings(es[..|es| - 1], b) + OfExpense(b, es[|es| - 1])
  }

  function BranchPostings(k: Books, b: Id): seq<Posting> {
    Opening(b) + PurchasePostings(k.purchases, b) + SalePostings(k.sales, b)
    + ReceiptPostings(k.receipts, b) + VendorPostings(k.vendorPayments, b) + ExpensePostings(k.expenses, b)
  }

  function AllPostings(k: Books, n: nat): seq<Posting>
    requires n <= |k.branches|
  {
    if n == 0 then [] else AllPostings(k, n - 1) + BranchPostings(k, k.branches[n - 1])
  }

  lemma Regroup<X>(z: seq<X>, a: seq<X>, b: seq<X>)
    ensures z + a + b == z + (a + b)
  {
  }

  /** Posting the six groups one after the other posts the branch's list. */
  lemma InOrder(z: seq<Posting>, k: Books, b: Id, all: seq<Posting>)
    requires all == z + Opening(b) + PurchasePostings(k.purchases, b) + SalePostings(k.sales, b)
                    + ReceiptPostings(k.receipts, b) + VendorPostings(k.vendorPayments, b) + ExpensePostings(k.expenses, b)
    ensures all == z + BranchPostings(k, b)
  {
    var o, p, s := Opening(b), PurchasePostings(k.purchases, b), SalePostings(k.sales, b);
    var r, v, e := ReceiptPostings(k.receipts, b), VendorPostings(k.vendorPayments, b), ExpensePostings(k.expenses, b);
    Regroup(z, o, p);
    Regroup(z, o + p, s);
    Regroup(z, o + p + s, r);
    Regroup(z, o + p + s + r, v);
    Regroup(z, o + p + s + r + v, e);
  }

  // ------------------------------------------------------- the ledger they make

  /** The first `n` lines of posting `p` when it is journal `j` and `before` lines exist. */
  function LinesOf(p: Posting, n: nat, j: nat, before: nat): (ls: seq<Line>)
    requires n <= |p.entries|
    ensures |ls| == n
  {
    if n == 0 then []
    else
      var e := p.entries[n - 1];
      LinesOf(p, n - 1, j, before) + [Line(before + n, j, e.account, p.branch, e.debit, e.credit)]
  }

  function SubsOf(p: Posting, n: nat, linesBefore: nat, before: nat): seq<SubEntry>
    requires n <= |p.entries|
  {
    if n == 0 then []
    else
      var e := p.entries[n - 1];
      var s := SubsOf(p, n - 1, linesBefore, before);
      if e.party.None? then s
      else s + [SubEntry(before + |s| + 1, linesBefore + n, e.account, e.party.value, p.branch, e.debit, e.credit)]
  }

  function LinesFor(ps: seq<Posting>): seq<Line> {
    if ps == [] then []
    else
      var init, p := LinesFor(ps[..|ps| - 1]), ps[|ps| - 1];
      init + LinesOf(p, |p.entries|, |ps|, |init|)
  }

  function SubsFor(ps: seq<Posting>): seq<SubEntry> {
    if ps == [] then []
    else
      var init, p := SubsFor(ps[..|ps| - 1]), ps[|ps| - 1];
      init + SubsOf(p, |p.entries|, |LinesFor(ps[..|ps| - 1])|, |init|)
  }

  /** The mutable ledger: journals, numbered lines and numbered subledger entries. */
  class GeneralLedger {
    var journalSeq: nat
    var lineSeq: nat
    var subSeq: nat
    var journalLines: seq<Line>
    var subledger: seq<SubEntry>
    ghost var posted: seq<Posting>

    ghost predicate Valid()
      reads this
    {
      && journalLines == LinesFor(posted) && subledger == SubsFor(posted)
      && journalSeq == |posted| && lineSeq == |journalLines| && subSeq == |subledger|
    }

    constructor ()
      ensures Valid() && posted == []
    {
      journalSeq, lineSeq, subSeq := 0, 0, 0;
      journalLines, subledger := [], [];
      posted := [];
    }

    method Post(p: Posting)
      requires Valid()
      modifies this
      ensures Valid() && posted == old(posted) + [p]
    {
      journalSeq := journalSeq + 1;
      for i := 0 to |p.entries|
        invariant journalSeq == old(journalSeq) + 1 && posted == old(posted)
        invariant lineSeq == |journalLines| && subSeq == |subledger|
        invariant journalLines == old(journalLines) + LinesOf(p, i, journalSeq, |old(journalLines)|)
        invariant subledger == old(subledger) + SubsOf(p, i, |old(journalLines)|, |old(subledger)|)
      {
        var e := p.entries[i];
        lineSeq := lineSeq + 1;
        journalLines := journalLines + [Line(lineSeq, journalSeq, e.account, p.branch, e.debit, e.credit)];
        if e.party.Some? {
          subSeq := subSeq + 1;
          subledger := subledger + [SubEntry(subSeq, lineSeq, e.account, e.party.value, p.branch, e.debit, e.credit)];
        }
      }
      posted := posted + [p];
      assert posted[..|posted| - 1] == old(posted);
    }

    method PostEach(ps: seq<Posting>)
      requires Valid()
      modifies this
      ensures Valid() && posted == old(posted) + ps
    {
      for i := 0 to |ps|
        invariant Valid() && posted == old(posted) + ps[..i]
      {
        Post(ps[i]);
      }
    }

    method PostPurchases(ps: seq<Purchase>, b: Id)
      requires Valid()
      modifies this
      ensures Valid() && posted == old(posted) + PurchasePostings(ps, b)
    {
      for i := 0 to |ps|
        invariant Valid() && posted == old(posted) + PurchasePostings(ps[..i], b)
      {
        assert ps[..i + 1][..i] == ps[..i];
        if ps[i].branch == b { PostEach(OfPurchase(ps[i])); }
      }
      assert ps[..|ps|] == ps;
    }

    method PostSales(ss: seq<Sale>, b: Id)
      requires Valid()
      modifies this
      ensures Valid() && posted == old(posted) + SalePostings(ss, b)
    {
      for i := 0 to |ss|
        invariant Valid() && posted == old(posted) + SalePostings(ss[..i], b)
      {
        assert ss[..i + 1][..i] == ss[..i];
        if ss[i].branch == b { PostEach(OfSale(ss[i])); }
      }
      assert ss[..|ss|] == ss;
    }

    method PostReceipts(rs: seq<Settlement>, b: Id)
      requires Valid()
      modifies this
      ensures Valid() && posted == old(posted) + ReceiptPostings(rs, b)
    {
      for i := 0 to |rs|
        invariant Valid() && posted == old(posted) + ReceiptPostings(rs[..i], b)
      {
        assert rs[..i + 1][..i] == rs[..i];
        if rs[i].branch == b { PostEach(OfReceipt(rs[i])); }
      }
      assert rs[..|rs|] == rs;
    }

    method PostVendorPayments(vs: seq<Settlement>, b: Id)
      requires Valid()
      modifies this
      ensures Valid() && posted == old(posted) + VendorPostings(vs, b)
    {
      for i := 0 to |vs|
        invariant Valid() && posted == old(posted) + VendorPostings(vs[..i], b)
      {
        assert vs[..i + 1][..i] == vs[..i];
        if vs[i].branch == b { PostEach(OfVendorPayment(vs[i])); }
      }
      assert vs[..|vs|] == vs;
    }

    method PostExpenses(es: seq<ExpenseItem>, b: Id)
      requires Valid()
      modifies this
      ensures Valid() && posted == old(posted) + ExpensePostings(es, b)
    {
      for i := 0 to |es|
        invariant Valid() && posted == old(posted) + ExpensePostings(es[..i], b)
      {
        assert es[..i + 1][..i] == es[..i];
        PostEach(OfExpense(b, es[i]));
      }
      assert es[..|es|] == es;
    }

    /** Posts one branch's books in the seeder's order. */
    method PostBranch(k: Books, b: Id)
      requires Valid()
      modifies this
      ensures Valid() && posted == old(posted) + BranchPostings(k, b)
    {
      ghost var before := posted;
      PostEach(Opening(b));
      PostPurchases(k.purchases, b);
      PostSales(k.sales, b);
      PostReceipts(k.receipts, b);
      PostVendorPayments(k.vendorPayments, b);
      PostExpenses(k.expenses, b);
      InOrder(before, k, b, posted);
    }

    method PostBooks(k: Books)
      requires Valid()
      modifies this
      ensures Valid() && posted == old(posted) + AllPostings(k, |k.branches|)
    {
      for i := 0 to |k.branches|
        invariant Valid() && posted == old(posted) + AllPostings(k, i)
      {
        PostBranch(k, k.branches[i]);
      }
    }
  }
}
