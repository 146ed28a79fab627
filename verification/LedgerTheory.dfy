/** Double entry, control accounts and their ties to the subledger, the FIFO settlement and the stock. */
module LedgerTheory {
  import opened Collections
  import opened Ledger
  import Fifo = FifoSettlement

  // ---------------------------------------------------------------- balances

  /** Which entries a sum runs over: all of them, those on an account, or those on an account that name a party. */
  datatype Selector = All | On(account: Account) | Of(account: Account, party: Id)

  predicate Selects(t: Selector, a: Account, p: Option<Id>) {
    match t
    case All => true
    case On(account) => a == account
    case Of(account, party) => a == account && p == Some(party)
  }

  /** Debit minus credit of one entry, if it is selected. */
  function EntryNet(e: Entry, t: Selector): int {
    if Selects(t, e.account, e.party) then e.debit - e.credit else 0
  }

  /** Debits minus credits of the selected entries. */
  function Net(es: seq<Entry>, t: Selector): int {
    if es == [] then 0 else Net(es[..|es| - 1], t) + EntryNet(es[|es| - 1], t)
  }

  /** Debits minus credits over the lines of branch `b` on account `a`, or on any account when it is `None`, as
      `checkDatasetInvariants` sums them. */
  function Balance(ls: seq<Line>, a: Option<Account>, b: Id): int {
    if ls == [] then 0
    else
      var l := ls[|ls| - 1];
      Balance(ls[..|ls| - 1], a, b)
      + if l.branch == b && (a.None? || a.value == l.account) then l.debit - l.credit else 0
  }

  function SubBalance(ss: seq<SubEntry>, t: Selector, b: Id): int {
    if ss == [] then 0
    else
      var s := ss[|ss| - 1];
      SubBalance(ss[..|ss| - 1], t, b) + if s.branch == b && Selects(t, s.account, Some(s.party)) then s.debit - s.credit else 0
  }

  function PostNet(ps: seq<Posting>, t: Selector, b: Id): int {
    if ps == [] then 0
    else PostNet(ps[..|ps| - 1], t, b) + if ps[|ps| - 1].branch == b then Net(ps[|ps| - 1].entries, t) else 0
  }

  lemma {:induction false} PostNetConcat(p: seq<Posting>, q: seq<Posting>, t: Selector, b: Id)
    ensures PostNet(p + q, t, b) == PostNet(p, t, b) + PostNet(q, t, b)
  {
    if q == [] {
      assert p + q == p;
    } else {
      assert (p + q)[..|p + q| - 1] == p + q[..|q| - 1];
      PostNetConcat(p, q[..|q| - 1], t, b);
    }
  }

  lemma {:induction false} BalanceConcat(p: seq<Line>, q: seq<Line>, a: Option<Account>, b: Id)
    ensures Balance(p + q, a, b) == Balance(p, a, b) + Balance(q, a, b)
  {
    if q == [] {
      assert p + q == p;
    } else {
      assert (p + q)[..|p + q| - 1] == p + q[..|q| - 1];
      BalanceConcat(p, q[..|q| - 1], a, b);
    }
  }

  lemma {:induction false} SubBalanceConcat(p: seq<SubEntry>, q: seq<SubEntry>, t: Selector, b: Id)
    ensures SubBalance(p + q, t, b) == SubBalance(p, t, b) + SubBalance(q, t, b)
  {
    if q == [] {
      assert p + q == p;
    } else {
      assert (p + q)[..|p + q| - 1] == p + q[..|q| - 1];
      SubBalanceConcat(p, q[..|q| - 1], t, b);
    }
  }

  function OnAccount(a: Option<Account>): Selector { if a.None? then All else On(a.value) }

  lemma {:induction false} LinesBalance(p: Posting, n: nat, j: nat, before: nat, a: Option<Account>, b: Id)
    requires n <= |p.entries|
    ensures Balance(LinesOf(p, n, j, before), a, b) == if p.branch == b then Net(p.entries[..n], OnAccount(a)) else 0
  {
    if n > 0 {
      LinesBalance(p, n - 1, j, before, a, b);
      assert p.entries[..n][..n - 1] == p.entries[..n - 1];
    }
  }

  /** The posted lines carry exactly the postings' amounts, branch by branch and account by account. */
  lemma {:induction false} LedgerCarriesPostings(ps: seq<Posting>, a: Option<Account>, b: Id)
    ensures Balance(LinesFor(ps), a, b) == PostNet(ps, OnAccount(a), b)
  {
    if ps != [] {
      var init, p := ps[..|ps| - 1], ps[|ps| - 1];
      LedgerCarriesPostings(init, a, b);
      LinesBalance(p, |p.entries|, |ps|, |LinesFor(init)|, a, b);
      assert p.entries[..|p.entries|] == p.entries;
      BalanceConcat(LinesFor(init), LinesOf(p, |p.entries|, |ps|, |LinesFor(init)|), a, b);
    }
  }

  // ------------------------------------------------ well-formed postings

  predicate IsControl(a: Account) { a == Receivable || a == Payable }

  /** A balanced journal, each line a debit or a credit, whose control-account lines all name a party. */
  predicate Sound(p: Posting) { Net(p.entries, All) == 0 && PartiesNamed(p.entries) && OneSided(p.entries) }

  predicate PartiesNamed(es: seq<Entry>) {
    forall i :: 0 <= i < |es| && IsControl(es[i].account) ==> es[i].party.Some?
  }

  predicate Sided(e: Entry) { (e.debit >= 0 && e.credit == 0) || (e.debit == 0 && e.credit >= 0) }

  predicate OneSided(es: seq<Entry>) { forall i :: 0 <= i < |es| ==> Sided(es[i]) }

  ghost predicate AllSound(ps: seq<Posting>) { forall i :: 0 <= i < |ps| ==> Sound(ps[i]) }

  lemma NetSnoc(es: seq<Entry>, e: Entry, t: Selector)
    ensures Net(es + [e], t) == Net(es, t) + EntryNet(e, t)
  {
    assert (es + [e])[..|es + [e]| - 1] == es;
  }

  /** A journal of two lines. */
  lemma TwoLines(b: Id, x: Entry, y: Entry, t: Selector, c: Id)
    ensures Net([x, y], t) == EntryNet(x, t) + EntryNet(y, t)
    ensures PostNet([Posting(b, [x, y])], t, c) == if b == c then EntryNet(x, t) + EntryNet(y, t) else 0
  {
    NetSnoc([], x, t);
    NetSnoc([x], y, t);
    assert [] + [x] == [x] && [x] + [y] == [x, y];
    var p := Posting(b, [x, y]);
    assert [p][..0] == [];
  }

  lemma FourLines(es: seq<Entry>, t: Selector)
    requires |es| == 4
    ensures Net(es, t) == EntryNet(es[0], t) + EntryNet(es[1], t) + EntryNet(es[2], t) + EntryNet(es[3], t)
  {
    NetSnoc([], es[0], t);
    NetSnoc([es[0]], es[1], t);
    NetSnoc([es[0], es[1]], es[2], t);
    NetSnoc([es[0], es[1], es[2]], es[3], t);
    assert [] + [es[0]] == [es[0]] && [es[0]] + [es[1]] == [es[0], es[1]];
    assert [es[0], es[1]] + [es[2]] == [es[0], es[1], es[2]] && [es[0], es[1], es[2]] + [es[3]] == es;
  }

  /** The opening journal puts the opening amounts on its four accounts. */
  lemma OpeningNet(b: Id, t: Selector, c: Id)
    requires !t.All?
    ensures PostNet(Opening(b), t, c) == if b == c then OpeningEffect(t) else 0
  {
    FourLines(Opening(b)[0].entries, t);
    assert Opening(b)[..0] == [];
  }

  lemma OpeningSound(b: Id)
    ensures AllSound(Opening(b))
  {
    FourLines(Opening(b)[0].entries, All);
  }

  // ------------------------------------------------ what each kind of document does

  function SaleTotals(ss: seq<Sale>, b: Id): seq<nat> {
    if ss == [] then []
    else
      var init, x := SaleTotals(ss[..|ss| - 1], b), ss[|ss| - 1];
      if x.branch == b then init + [x.total] else init
  }

  function PurchaseTotals(ps: seq<Purchase>, b: Id): seq<nat> {
    if ps == [] then []
    else
      var init, x := PurchaseTotals(ps[..|ps| - 1], b), ps[|ps| - 1];
      if x.branch == b then init + [x.total] else init
  }

  function UnitsIssued(ss: seq<Sale>, b: Id): int {
    if ss == [] then 0
    else UnitsIssued(ss[..|ss| - 1], b) + if ss[|ss| - 1].branch == b then UnitsSold(ss[|ss| - 1]) else 0
  }

  function Amounts(rs: seq<Settlement>, b: Id): seq<nat> {
    if rs == [] then []
    else
      var init, x := Amounts(rs[..|rs| - 1], b), rs[|rs| - 1];
      if x.branch == b then init + [x.amount] else init
  }

  // For a party `q`, or for all when it is `None`: what was billed, bought and paid at branch `b`.

  predicate Concerns(q: Option<Id>, party: Id) { q.None? || q.value == party }

  function Billed(ss: seq<Sale>, b: Id, q: Option<Id>): int {
    if ss == [] then 0
    else
      var s := ss[|ss| - 1];
      Billed(ss[..|ss| - 1], b, q) + if s.branch == b && Concerns(q, s.customer) then s.total else 0
  }

  function Bought(ps: seq<Purchase>, b: Id, q: Option<Id>): int {
    if ps == [] then 0
    else
      var p := ps[|ps| - 1];
      Bought(ps[..|ps| - 1], b, q) + if p.branch == b && Concerns(q, p.supplier) then p.total else 0
  }

  function Moved(rs: seq<Settlement>, b: Id, q: Option<Id>): int {
    if rs == [] then 0
    else
      var r := rs[|rs| - 1];
      Moved(rs[..|rs| - 1], b, q) + if r.branch == b && Concerns(q, r.party) then r.amount else 0
  }

  /** The totals of branch `b`'s invoices for service plans, or of its other invoices. */
  function Earned(ss: seq<Sale>, b: Id, service: bool): int {
    if ss == [] then 0
    else
      var s := ss[|ss| - 1];
      Earned(ss[..|ss| - 1], b, service) + if s.branch == b && IsService(s) == service then s.total else 0
  }

  /** The unit cost of what branch `b` issued. */
  function CostIssued(ss: seq<Sale>, b: Id): int {
    if ss == [] then 0
    else CostIssued(ss[..|ss| - 1], b) + if ss[|ss| - 1].branch == b then UnitsSold(ss[|ss| - 1]) * UNIT_COST else 0
  }

  lemma Distribute(x: int, y: int, c: int)
    ensures (x + y) * c == x * c + y * c
  {
  }

  lemma {:induction false} CostOfUnits(ss: seq<Sale>, b: Id)
    ensures CostIssued(ss, b) == UnitsIssued(ss, b) * UNIT_COST
  {
    if ss != [] {
      CostOfUnits(ss[..|ss| - 1], b);
      Distribute(UnitsIssued(ss[..|ss| - 1], b), UnitsSold(ss[|ss| - 1]), UNIT_COST);
    }
  }

  function Spent(es: seq<ExpenseItem>): int {
    if es == [] then 0 else Spent(es[..|es| - 1]) + es[|es| - 1].amount
  }

  function SpentOn(es: seq<ExpenseItem>, code: Id): int {
    if es == [] then 0 else SpentOn(es[..|es| - 1], code) + if es[|es| - 1].code == code then es[|es| - 1].amount else 0
  }

  lemma SumSnoc(xs: seq<nat>, x: nat)
    ensures Sum(xs + [x]) == Sum(xs) + x
  {
    assert (xs + [x])[..|xs + [x]| - 1] == xs;
  }

  lemma {:induction false} BilledIsTotals(ss: seq<Sale>, b: Id)
    ensures Billed(ss, b, None) == Sum(SaleTotals(ss, b)) == Earned(ss, b, true) + Earned(ss, b, false)
  {
    if ss != [] {
      BilledIsTotals(ss[..|ss| - 1], b);
      SumSnoc(SaleTotals(ss[..|ss| - 1], b), ss[|ss| - 1].total);
    }
  }

  lemma {:induction false} BoughtIsTotals(ps: seq<Purchase>, b: Id)
    ensures Bought(ps, b, None) == Sum(PurchaseTotals(ps, b))
  {
    if ps != [] {
      BoughtIsTotals(ps[..|ps| - 1], b);
      SumSnoc(PurchaseTotals(ps[..|ps| - 1], b), ps[|ps| - 1].total);
    }
  }

  lemma {:induction false} MovedIsAmounts(rs: seq<Settlement>, b: Id)
    ensures Moved(rs, b, None) == Sum(Amounts(rs, b))
  {
    if rs != [] {
      MovedIsAmounts(rs[..|rs| - 1], b);
      SumSnoc(Amounts(rs[..|rs| - 1], b), rs[|rs| - 1].amount);
    }
  }

  /** `amount` when the sum runs over account `a`; lines that name no party. */
  function At(t: Selector, a: Account, amount: int): int {
    if t == On(a) then amount else 0
  }

  /** `amount` when the sum runs over account `a`, of all parties or of one. */
  function AtParty(t: Selector, a: Account, amount: int): int
    requires !t.All?
  {
    if t.account == a then amount else 0
  }

  function PartyOf(t: Selector): Option<Id> { if t.Of? then Some(t.party) else None }

  function OpeningEffect(t: Selector): int { At(t, Cash, 5250) + At(t, Prepaid, 1250) + At(t, FixedAssets, 6000) - At(t, Capital, 12500) }

  function PurchaseEffect(t: Selector, own: int): int
    requires !t.All?
  {
    At(t, Inventory, own) - AtParty(t, Payable, own)
  }

  function SaleEffect(t: Selector, own: int, service: int, goods: int, cost: int): int
    requires !t.All?
  {
    AtParty(t, Receivable, own) - At(t, ServiceRevenue, service) - At(t, HardwareRevenue, goods)
    + At(t, CostOfGoods, cost) - At(t, Inventory, cost)
  }

  function ReceiptEffect(t: Selector, own: int): int
    requires !t.All?
  {
    At(t, Bank, own) - AtParty(t, Receivable, own)
  }

  function VendorPaymentEffect(t: Selector, own: int): int
    requires !t.All?
  {
    AtParty(t, Payable, own) - At(t, Bank, own)
  }

  function ExpenseEffect(t: Selector, all: int, own: int): int {
    (if t.On? && t.account.Expense? then own else 0) - At(t, Bank, all)
  }

  lemma SoundConcat(p: seq<Posting>, q: seq<Posting>)
    requires AllSound(p) && AllSound(q)
    ensures AllSound(p + q)
  {
  }

  lemma OnePurchase(p: Purchase, c: Id, t: Selector)
    requires !t.All?
    ensures PostNet(OfPurchase(p), t, c) ==
            if p.branch == c then PurchaseEffect(t, if Concerns(PartyOf(t), p.supplier) then p.total else 0) else 0
  {
    TwoLines(p.branch, Debit(Inventory, p.total), Entry(Payable, 0, p.total, Some(p.supplier)), t, c);
  }

  lemma {:induction false} PurchasesNet(ps: seq<Purchase>, b: Id, c: Id, t: Selector)
    requires !t.All?
    ensures PostNet(PurchasePostings(ps, b), t, c) == if b == c then PurchaseEffect(t, Bought(ps, b, PartyOf(t))) else 0
  {
    if ps != [] {
      var init, p := ps[..|ps| - 1], ps[|ps| - 1];
      PurchasesNet(init, b, c, t);
      OnePurchase(p, c, t);
      PostNetConcat(PurchasePostings(init, b), OfPurchase(p), t, c);
      var before, own := Bought(init, b, PartyOf(t)), if p.branch == b && Concerns(PartyOf(t), p.supplier) then p.total else 0;
      assert Bought(ps, b, PartyOf(t)) == before + own;
      assert PurchaseEffect(t, before + own) == PurchaseEffect(t, before) + PurchaseEffect(t, own);
    }
  }

  lemma OneSale(s: Sale, c: Id, t: Selector)
    requires !t.All?
    ensures PostNet(OfSale(s), t, c) ==
            if s.branch == c then
              SaleEffect(t, if Concerns(PartyOf(t), s.customer) then s.total else 0, if IsService(s) then s.total else 0,
                         if IsService(s) then 0 else s.total, UnitsSold(s) * UNIT_COST)
            else 0
  {
    var x, y := Entry(Receivable, s.total, 0, Some(s.customer)), Credit(if IsService(s) then ServiceRevenue else HardwareRevenue, s.total);
    TwoLines(s.branch, x, y, t, c);
    var cogs := Units(s.items) * UNIT_COST;
    var u, v := Debit(CostOfGoods, cogs), Credit(Inventory, cogs);
    TwoLines(s.branch, u, v, t, c);
    PostNetConcat([Posting(s.branch, [x, y])], [Posting(s.branch, [u, v])], t, c);
    assert [Posting(s.branch, [x, y])] + [] == [Posting(s.branch, [x, y])];
  }

  lemma {:induction false} SalesNet(ss: seq<Sale>, b: Id, c: Id, t: Selector)
    requires !t.All?
    ensures PostNet(SalePostings(ss, b), t, c) ==
            if b == c then SaleEffect(t, Billed(ss, b, PartyOf(t)), Earned(ss, b, true), Earned(ss, b, false), CostIssued(ss, b)) else 0
  {
    if ss != [] {
      var init, s := ss[..|ss| - 1], ss[|ss| - 1];
      SalesNet(init, b, c, t);
      OneSale(s, c, t);
      PostNetConcat(SalePostings(init, b), OfSale(s), t, c);
    }
  }

  lemma OneReceipt(r: Settlement, c: Id, t: Selector)
    requires !t.All?
    ensures PostNet(OfReceipt(r), t, c) ==
            if r.branch == c then ReceiptEffect(t, if Concerns(PartyOf(t), r.party) then r.amount else 0) else 0
  {
    TwoLines(r.branch, Debit(Bank, r.amount), Entry(Receivable, 0, r.amount, Some(r.party)), t, c);
  }

  lemma {:induction false} ReceiptsNet(rs: seq<Settlement>, b: Id, c: Id, t: Selector)
    requires !t.All?
    ensures PostNet(ReceiptPostings(rs, b), t, c) == if b == c then ReceiptEffect(t, Moved(rs, b, PartyOf(t))) else 0
  {
    if rs != [] {
      var init, r := rs[..|rs| - 1], rs[|rs| - 1];
      ReceiptsNet(init, b, c, t);
      OneReceipt(r, c, t);
      PostNetConcat(ReceiptPostings(init, b), OfReceipt(r), t, c);
      var before, own := Moved(init, b, PartyOf(t)), if r.branch == b && Concerns(PartyOf(t), r.party) then r.amount else 0;
      assert Moved(rs, b, PartyOf(t)) == before + own;
      assert ReceiptEffect(t, before + own) == ReceiptEffect(t, before) + ReceiptEffect(t, own);
    }
  }

  lemma OneVendorPayment(v: Settlement, c: Id, t: Selector)
    requires !t.All?
    ensures PostNet(OfVendorPayment(v), t, c) ==
            if v.branch == c then VendorPaymentEffect(t, if Concerns(PartyOf(t), v.party) then v.amount else 0) else 0
  {
    TwoLines(v.branch, Entry(Payable, v.amount, 0, Some(v.party)), Credit(Bank, v.amount), t, c);
  }

  lemma {:induction false} VendorPaymentsNet(vs: seq<Settlement>, b: Id, c: Id, t: Selector)
    requires !t.All?
    ensures PostNet(VendorPostings(vs, b), t, c) == if b == c then VendorPaymentEffect(t, Moved(vs, b, PartyOf(t))) else 0
  {
    if vs != [] {
      var init, v := vs[..|vs| - 1], vs[|vs| - 1];
      VendorPaymentsNet(init, b, c, t);
      OneVendorPayment(v, c, t);
      PostNetConcat(VendorPostings(init, b), OfVendorPayment(v), t, c);
      var before, own := Moved(init, b, PartyOf(t)), if v.branch == b && Concerns(PartyOf(t), v.party) then v.amount else 0;
      assert Moved(vs, b, PartyOf(t)) == before + own;
      assert VendorPaymentEffect(t, before + own) == VendorPaymentEffect(t, before) + VendorPaymentEffect(t, own);
    }
  }

  function CodeOf(t: Selector): Id { if t.On? && t.account.Expense? then t.account.code else 0 }

  lemma OneExpense(e: ExpenseItem, b: Id, c: Id, t: Selector)
    requires !t.All?
    ensures PostNet(OfExpense(b, e), t, c) ==
            if b == c then ExpenseEffect(t, e.amount, if e.code == CodeOf(t) then e.amount else 0) else 0
  {
    TwoLines(b, Debit(Expense(e.code), e.amount), Credit(Bank, e.amount), t, c);
  }

  lemma {:induction false} ExpensesNet(es: seq<ExpenseItem>, b: Id, c: Id, t: Selector)
    requires !t.All?
    ensures PostNet(ExpensePostings(es, b), t, c) == if b == c then ExpenseEffect(t, Spent(es), SpentOn(es, CodeOf(t))) else 0
  {
    if es != [] {
      var init, e := es[..|es| - 1], es[|es| - 1];
      ExpensesNet(init, b, c, t);
      OneExpense(e, b, c, t);
      PostNetConcat(ExpensePostings(init, b), OfExpense(b, e), t, c);
    }
  }

  /** The sums of a branch's documents that its accounts are made of. */
  datatype Sums = Sums(bought: int, billed: int, service: int, goods: int, cost: int, got: int, paid: int, spent: int, own: int)

  function SumsOf(k: Books, b: Id, q: Option<Id>, code: Id): Sums {
    Sums(Bought(k.purchases, b, q), Billed(k.sales, b, q), Earned(k.sales, b, true), Earned(k.sales, b, false),
         CostIssued(k.sales, b), Moved(k.receipts, b, q), Moved(k.vendorPayments, b, q), Spent(k.expenses), SpentOn(k.expenses, code))
  }

  function Effects(t: Selector, x: Sums): int
    requires !t.All?
  {
    OpeningEffect(t) + PurchaseEffect(t, x.bought) + SaleEffect(t, x.billed, x.service, x.goods, x.cost)
    + ReceiptEffect(t, x.got) + VendorPaymentEffect(t, x.paid) + ExpenseEffect(t, x.spent, x.own)
  }

  /** What branch `b`'s documents leave on the selected lines. */
  function Expected(k: Books, t: Selector, b: Id): int
    requires !t.All?
  {
    Effects(t, SumsOf(k, b, PartyOf(t), CodeOf(t)))
  }

  lemma BranchNet(k: Books, b: Id, c: Id, t: Selector)
    requires !t.All?
    ensures PostNet(BranchPostings(k, b), t, c) == if b == c then Expected(k, t, b) else 0
  {
    OpeningNet(b, t, c);
    PurchasesNet(k.purchases, b, c, t);
    SalesNet(k.sales, b, c, t);
    ReceiptsNet(k.receipts, b, c, t);
    VendorPaymentsNet(k.vendorPayments, b, c, t);
    ExpensesNet(k.expenses, b, c, t);
    SixGroups(Opening(b), PurchasePostings(k.purchases, b), SalePostings(k.sales, b), ReceiptPostings(k.receipts, b),
              VendorPostings(k.vendorPayments, b), ExpensePostings(k.expenses, b), t, b == c, c, SumsOf(k, b, PartyOf(t), CodeOf(t)));
  }

  lemma SixGroups(o: seq<Posting>, p: seq<Posting>, s: seq<Posting>, r: seq<Posting>, v: seq<Posting>, e: seq<Posting>,
                  t: Selector, own: bool, c: Id, x: Sums)
    requires !t.All?
    requires PostNet(o, t, c) == (if own then OpeningEffect(t) else 0) && PostNet(p, t, c) == (if own then PurchaseEffect(t, x.bought) else 0)
    requires PostNet(s, t, c) == if own then SaleEffect(t, x.billed, x.service, x.goods, x.cost) else 0
    requires PostNet(r, t, c) == (if own then ReceiptEffect(t, x.got) else 0) && PostNet(v, t, c) == (if own then VendorPaymentEffect(t, x.paid) else 0)
    requires PostNet(e, t, c) == if own then ExpenseEffect(t, x.spent, x.own) else 0
    ensures PostNet(o + p + s + r + v + e, t, c) == if own then Effects(t, x) else 0
  {
    PostNetConcat(o, p, t, c);
    PostNetConcat(o + p, s, t, c);
    PostNetConcat(o + p + s, r, t, c);
    PostNetConcat(o + p + s + r, v, t, c);
    PostNetConcat(o + p + s + r + v, e, t, c);
  }

  lemma InPrefix(bs: seq<Id>, n: nat, c: Id)
    requires 0 < n <= |bs| && Distinct(bs)
    ensures c in bs[..n] <==> c in bs[..n - 1] || c == bs[n - 1]
    ensures bs[n - 1] !in bs[..n - 1]
  {
    assert bs[..n] == bs[..n - 1] + [bs[n - 1]];
  }

  lemma {:induction false} BooksNet(k: Books, n: nat, c: Id, t: Selector)
    requires !t.All? && n <= |k.branches| && Distinct(k.branches)
    ensures PostNet(AllPostings(k, n), t, c) == if c in k.branches[..n] then Expected(k, t, c) else 0
  {
    if n > 0 {
      var b := k.branches[n - 1];
      BooksNet(k, n - 1, c, t);
      BranchNet(k, b, c, t);
      PostNetConcat(AllPostings(k, n - 1), BranchPostings(k, b), t, c);
      InPrefix(k.branches, n, c);
    }
  }

  // ------------------------------------------------ every posting is sound

  lemma TwoLinesSound(b: Id, x: Entry, y: Entry)
    requires EntryNet(x, All) + EntryNet(y, All) == 0 && Sided(x) && Sided(y)
    requires (IsControl(x.account) ==> x.party.Some?) && (IsControl(y.account) ==> y.party.Some?)
    ensures Sound(Posting(b, [x, y]))
  {
    TwoLines(b, x, y, All, b);
  }

  lemma PurchaseSound(p: Purchase)
    ensures AllSound(OfPurchase(p))
  {
    TwoLinesSound(p.branch, Debit(Inventory, p.total), Entry(Payable, 0, p.total, Some(p.supplier)));
  }

  lemma SaleSound(s: Sale)
    ensures AllSound(OfSale(s))
  {
    var cogs := Units(s.items) * UNIT_COST;
    TwoLinesSound(s.branch, Entry(Receivable, s.total, 0, Some(s.customer)),
                  Credit(if IsService(s) then ServiceRevenue else HardwareRevenue, s.total));
    TwoLinesSound(s.branch, Debit(CostOfGoods, cogs), Credit(Inventory, cogs));
  }

  lemma ReceiptSound(r: Settlement)
    ensures AllSound(OfReceipt(r))
  {
    TwoLinesSound(r.branch, Debit(Bank, r.amount), Entry(Receivable, 0, r.amount, Some(r.party)));
  }

  lemma VendorPaymentSound(v: Settlement)
    ensures AllSound(OfVendorPayment(v))
  {
    TwoLinesSound(v.branch, Entry(Payable, v.amount, 0, Some(v.party)), Credit(Bank, v.amount));
  }

  lemma {:induction false} PurchasesSound(ps: seq<Purchase>, b: Id)
    ensures AllSound(PurchasePostings(ps, b))
  {
    if ps != [] {
      PurchasesSound(ps[..|ps| - 1], b);
      PurchaseSound(ps[|ps| - 1]);
    }
  }

  lemma {:induction false} SalesSound(ss: seq<Sale>, b: Id)
    ensures AllSound(SalePostings(ss, b))
  {
    if ss != [] {
      SalesSound(ss[..|ss| - 1], b);
      SaleSound(ss[|ss| - 1]);
    }
  }

  lemma {:induction false} ReceiptsSound(rs: seq<Settlement>, b: Id)
    ensures AllSound(ReceiptPostings(rs, b))
  {
    if rs != [] {
      ReceiptsSound(rs[..|rs| - 1], b);
      ReceiptSound(rs[|rs| - 1]);
    }
  }

  lemma {:induction false} VendorPaymentsSound(vs: seq<Settlement>, b: Id)
    ensures AllSound(VendorPostings(vs, b))
  {
    if vs != [] {
      VendorPaymentsSound(vs[..|vs| - 1], b);
      VendorPaymentSound(vs[|vs| - 1]);
    }
  }

  lemma {:induction false} ExpensesSound(es: seq<ExpenseItem>, b: Id)
    ensures AllSound(ExpensePostings(es, b))
  {
    if es != [] {
      var e := es[|es| - 1];
      ExpensesSound(es[..|es| - 1], b);
      TwoLinesSound(b, Debit(Expense(e.code), e.amount), Credit(Bank, e.amount));
    }
  }

  lemma BranchSound(k: Books, b: Id)
    ensures AllSound(BranchPostings(k, b))
  {
    OpeningSound(b);
    PurchasesSound(k.purchases, b);
    SalesSound(k.sales, b);
    ReceiptsSound(k.receipts, b);
    VendorPaymentsSound(k.vendorPayments, b);
    ExpensesSound(k.expenses, b);
    var o, p, s := Opening(b), PurchasePostings(k.purchases, b), SalePostings(k.sales, b);
    var r, v, e := ReceiptPostings(k.receipts, b), VendorPostings(k.vendorPayments, b), ExpensePostings(k.expenses, b);
    SoundConcat(o, p);
    SoundConcat(o + p, s);
    SoundConcat(o + p + s, r);
    SoundConcat(o + p + s + r, v);
    SoundConcat(o + p + s + r + v, e);
  }

  lemma {:induction false} BooksSound(k: Books, n: nat)
    requires n <= |k.branches|
    ensures AllSound(AllPostings(k, n))
  {
    if n > 0 {
      BooksSound(k, n - 1);
      BranchSound(k, k.branches[n - 1]);
      SoundConcat(AllPostings(k, n - 1), BranchPostings(k, k.branches[n - 1]));
    }
  }

  // ------------------------------------------------------------ main results

  lemma {:induction false} SoundNet(ps: seq<Posting>, b: Id)
    requires AllSound(ps)
    ensures PostNet(ps, All, b) == 0
  {
    if ps != [] { SoundNet(ps[..|ps| - 1], b); }
  }

  /** Every journal the books make balances, so every branch's lines sum to zero. */
  lemma EveryBranchBalances(k: Books, b: Id)
    ensures forall i :: 0 <= i < |AllPostings(k, |k.branches|)| ==> Net(AllPostings(k, |k.branches|)[i].entries, All) == 0
    ensures Balance(LinesFor(AllPostings(k, |k.branches|)), None, b) == 0
  {
    BooksSound(k, |k.branches|);
    SoundNet(AllPostings(k, |k.branches|), b);
    LedgerCarriesPostings(AllPostings(k, |k.branches|), None, b);
  }

  lemma SubSnoc(ss: seq<SubEntry>, s: SubEntry, t: Selector, b: Id)
    ensures SubBalance(ss + [s], t, b) ==
            SubBalance(ss, t, b) + if s.branch == b && Selects(t, s.account, Some(s.party)) then s.debit - s.credit else 0
  {
    assert (ss + [s])[..|ss + [s]| - 1] == ss;
  }

  /** Whatever the selector picks names a party. */
  predicate Partied(t: Selector, es: seq<Entry>) { t.Of? || (t.On? && IsControl(t.account) && PartiesNamed(es)) }

  lemma PartylessIsNot(t: Selector, es: seq<Entry>, i: nat)
    requires i < |es| && Partied(t, es) && es[i].party.None?
    ensures EntryNet(es[i], t) == 0
  {
  }

  lemma {:induction false} SubsMatch(p: Posting, n: nat, linesBefore: nat, before: nat, t: Selector, b: Id)
    requires n <= |p.entries| && Partied(t, p.entries)
    ensures SubBalance(SubsOf(p, n, linesBefore, before), t, b) == if p.branch == b then Net(p.entries[..n], t) else 0
  {
    if n > 0 {
      var e, s := p.entries[n - 1], SubsOf(p, n - 1, linesBefore, before);
      SubsMatch(p, n - 1, linesBefore, before, t, b);
      NetSnoc(p.entries[..n - 1], e, t);
      assert p.entries[..n] == p.entries[..n - 1] + [e];
      if e.party.None? {
        PartylessIsNot(t, p.entries, n - 1);
      } else {
        SubSnoc(s, SubEntry(before + |s| + 1, linesBefore + n, e.account, e.party.value, p.branch, e.debit, e.credit), t, b);
      }
    }
  }

  /** The subledger carries exactly what the postings put on a control account, in all and for each party. */
  lemma {:induction false} SubledgerCarriesControls(ps: seq<Posting>, t: Selector, b: Id)
    requires AllSound(ps) && (t.Of? || (t.On? && IsControl(t.account)))
    ensures SubBalance(SubsFor(ps), t, b) == PostNet(ps, t, b)
  {
    if ps != [] {
      var init, p := ps[..|ps| - 1], ps[|ps| - 1];
      SubledgerCarriesControls(init, t, b);
      SubsMatch(p, |p.entries|, |LinesFor(init)|, |SubsFor(init)|, t, b);
      assert p.entries[..|p.entries|] == p.entries;
      SubBalanceConcat(SubsFor(init), SubsOf(p, |p.entries|, |LinesFor(init)|, |SubsFor(init)|), t, b);
    }
  }

  /** What an account must hold, given the sums of the branch's documents. */
  function AccountHolds(a: Account, x: Sums): int {
    match a
    case Cash => 5250
    case Prepaid => 1250
    case FixedAssets => 6000
    case Capital => -12500
    case Bank => x.got - x.paid - x.spent
    case Receivable => x.billed - x.got
    case Payable => x.paid - x.bought
    case Inventory => x.bought - x.cost
    case CostOfGoods => x.cost
    case HardwareRevenue => -x.goods
    case ServiceRevenue => -x.service
    case Expense(_) => x.own
  }

  /** What the books say account `a` of branch `b` must hold. */
  function AccountOf(k: Books, a: Account, b: Id): int { AccountHolds(a, SumsOf(k, b, None, CodeOf(On(a)))) }

  lemma EffectsOn(a: Account, x: Sums)
    ensures Effects(On(a), x) == AccountHolds(a, x)
  {
  }

  lemma ExpectedOn(k: Books, a: Account, b: Id)
    ensures Expected(k, On(a), b) == AccountOf(k, a, b)
  {
    EffectsOn(a, SumsOf(k, b, None, CodeOf(On(a))));
  }

  lemma AllNet(k: Books, c: Id, t: Selector)
    requires !t.All? && Distinct(k.branches)
    ensures PostNet(AllPostings(k, |k.branches|), t, c) == if c in k.branches then Expected(k, t, c) else 0
  {
    assert k.branches[..|k.branches|] == k.branches;
    BooksNet(k, |k.branches|, c, t);
  }

  lemma PostedNet(k: Books, a: Account, b: Id, balance: int)
    requires Distinct(k.branches) && balance == Balance(LinesFor(AllPostings(k, |k.branches|)), Some(a), b)
    ensures balance == if b in k.branches then Expected(k, On(a), b) else 0
  {
    LedgerCarriesPostings(AllPostings(k, |k.branches|), Some(a), b);
    AllNet(k, b, On(a));
  }

  /** Every account of every branch, and no other branch's, holds what the books say. */
  lemma EveryAccount(k: Books, a: Account, b: Id)
    requires Distinct(k.branches)
    ensures Balance(LinesFor(AllPostings(k, |k.branches|)), Some(a), b) == if b in k.branches then AccountOf(k, a, b) else 0
  {
    var balance := Balance(LinesFor(AllPostings(k, |k.branches|)), Some(a), b);
    PostedNet(k, a, b, balance);
    ExpectedOn(k, a, b);
  }

  /** Every customer's subledger is what was billed less what was received from that customer, every supplier's what was
      bought less what was paid, and no other account has one. */
  lemma EveryParty(k: Books, b: Id, party: Id)
    requires Distinct(k.branches) && b in k.branches
    ensures var ss := SubsFor(AllPostings(k, |k.branches|));
            && SubBalance(ss, Of(Receivable, party), b) == Billed(k.sales, b, Some(party)) - Moved(k.receipts, b, Some(party))
            && -SubBalance(ss, Of(Payable, party), b) == Bought(k.purchases, b, Some(party)) - Moved(k.vendorPayments, b, Some(party))
            && (forall a :: !IsControl(a) ==> SubBalance(ss, Of(a, party), b) == 0)
  {
    var ps := AllPostings(k, |k.branches|);
    BooksSound(k, |k.branches|);
    forall a ensures SubBalance(SubsFor(ps), Of(a, party), b) == PartyHolds(a, SumsOf(k, b, Some(party), 0)) {
      AllNet(k, b, Of(a, party));
      SubledgerCarriesControls(ps, Of(a, party), b);
      EffectsOf(a, party, SumsOf(k, b, Some(party), 0));
    }
  }

  /** What a party's subledger on an account must hold, given the sums of the documents that name the party. */
  function PartyHolds(a: Account, x: Sums): int {
    if a == Receivable then x.billed - x.got else if a == Payable then x.paid - x.bought else 0
  }

  lemma EffectsOf(a: Account, party: Id, x: Sums)
    ensures Effects(Of(a, party), x) == PartyHolds(a, x)
  {
  }

  /** Control accounts equal their subledgers, and both equal billed less settled; the stock account
      equals what was bought less the cost of the units issued. */
  lemma ControlAccounts(k: Books, b: Id)
    requires Distinct(k.branches) && b in k.branches
    ensures var ps := AllPostings(k, |k.branches|);
            && Balance(LinesFor(ps), Some(Receivable), b) == SubBalance(SubsFor(ps), On(Receivable), b)
                 == Sum(SaleTotals(k.sales, b)) - Sum(Amounts(k.receipts, b))
            && -Balance(LinesFor(ps), Some(Payable), b) == -SubBalance(SubsFor(ps), On(Payable), b)
                 == Sum(PurchaseTotals(k.purchases, b)) - Sum(Amounts(k.vendorPayments, b))
            && Balance(LinesFor(ps), Some(Inventory), b) == Sum(PurchaseTotals(k.purchases, b)) - UnitsIssued(k.sales, b) * UNIT_COST
  {
    EveryAccount(k, Receivable, b);
    EveryAccount(k, Payable, b);
    EveryAccount(k, Inventory, b);
    ControlIsSubledger(k, Receivable, b);
    ControlIsSubledger(k, Payable, b);
    BilledIsTotals(k.sales, b);
    BoughtIsTotals(k.purchases, b);
    MovedIsAmounts(k.receipts, b);
    MovedIsAmounts(k.vendorPayments, b);
    CostOfUnits(k.sales, b);
  }

  lemma ControlIsSubledger(k: Books, a: Account, b: Id)
    requires IsControl(a)
    ensures var ps := AllPostings(k, |k.branches|); Balance(LinesFor(ps), Some(a), b) == SubBalance(SubsFor(ps), On(a), b)
  {
    var ps := AllPostings(k, |k.branches|);
    BooksSound(k, |k.branches|);
    LedgerCarriesPostings(ps, Some(a), b);
    SubledgerCarriesControls(ps, On(a), b);
  }

  function UnitsBought(ps: seq<Purchase>, b: Id): int {
    if ps == [] then 0
    else UnitsBought(ps[..|ps| - 1], b) + if ps[|ps| - 1].branch == b then ps[|ps| - 1].quantity else 0
  }

  predicate Priced(p: Purchase) { p.total == p.quantity * UNIT_COST }

  lemma {:induction false} PricedPurchases(ps: seq<Purchase>, b: Id)
    requires forall i :: 0 <= i < |ps| ==> Priced(ps[i])
    ensures Sum(PurchaseTotals(ps, b)) == UnitsBought(ps, b) * UNIT_COST
  {
    if ps != [] {
      var init, p := ps[..|ps| - 1], ps[|ps| - 1];
      PricedPurchases(init, b);
      SumSnoc(PurchaseTotals(init, b), p.total);
      assert Priced(p);
      Distribute(UnitsBought(init, b), p.quantity, UNIT_COST);
    }
  }

  /** When every bill is priced at the unit cost, the stock account is the unit cost of what is on hand. */
  lemma InventoryIsStockAtCost(k: Books, b: Id)
    requires Distinct(k.branches) && b in k.branches
    requires forall i :: 0 <= i < |k.purchases| ==> Priced(k.purchases[i])
    ensures Balance(LinesFor(AllPostings(k, |k.branches|)), Some(Inventory), b)
            == UNIT_COST * (UnitsBought(k.purchases, b) - UnitsIssued(k.sales, b))
  {
    ControlAccounts(k, b);
    PricedPurchases(k.purchases, b);
  }

  /** What the FIFO settlement leaves unpaid on the invoices, in settlement order. */
  function LeftUnpaid(totals: seq<nat>, received: int): int {
    Sum(totals) - Sum(Fifo.Shares(totals, received))
  }

  function Removed(b: seq<nat>, i: nat): seq<nat>
    requires i < |b|
  {
    b[..i] + b[i + 1..]
  }

  lemma RemovedSum(b: seq<nat>, i: nat)
    requires i < |b|
    ensures Sum(b) == Sum(Removed(b, i)) + b[i]
    ensures multiset(Removed(b, i)) == multiset(b) - multiset{b[i]}
  {
    SplitAt(b, i);
    MiddleSum(b[..i], b[i], b[i + 1..]);
  }

  lemma SplitAt(b: seq<nat>, i: nat)
    requires i < |b|
    ensures b[..i] + [b[i]] + b[i + 1..] == b
  {
  }

  lemma MiddleSum(l: seq<nat>, x: nat, r: seq<nat>)
    ensures Sum(l + [x] + r) == Sum(l + r) + x
    ensures multiset(l + r) == multiset(l + [x] + r) - multiset{x}
  {
    SumConcat(l, r);
    SumConcat(l + [x], r);
    SumSnoc(l, x);
  }

  lemma {:induction false} SumOfMultiset(a: seq<nat>, b: seq<nat>)
    requires multiset(a) == multiset(b)
    ensures Sum(a) == Sum(b)
  {
    if a == [] {
      assert |multiset(b)| == |b|;
    } else {
      var n := |a| - 1;
      assert a[n] in multiset(b);
      var i :| 0 <= i < |b| && b[i] == a[n];
      RemovedSum(b, i);
      RemovedSum(a, n);
      SumOfMultiset(Removed(a, n), Removed(b, i));
    }
  }

  lemma UnpaidExactly(invoiced: seq<nat>, settled: seq<nat>, amounts: seq<nat>)
    requires multiset(settled) == multiset(invoiced)
    ensures Sum(invoiced) - Sum(amounts) == LeftUnpaid(settled, Sum(amounts)) <==> Sum(amounts) <= Sum(settled)
  {
    SumOfMultiset(settled, invoiced);
    SumNonNegative(amounts);
    Fifo.SharesTotal(settled, Sum(amounts));
  }

  /** The ledger and the settlement tell the same story: each control account equals what the FIFO loops
      left unpaid on that branch's invoices, in whatever order they were settled, exactly when the money
      moved does not exceed the invoices. */
  lemma ControlsEqualUnpaid(k: Books, b: Id, sales: seq<nat>, bills: seq<nat>)
    requires Distinct(k.branches) && b in k.branches
    requires multiset(sales) == multiset(SaleTotals(k.sales, b)) && multiset(bills) == multiset(PurchaseTotals(k.purchases, b))
    ensures var ls := LinesFor(AllPostings(k, |k.branches|));
            var got, paid := Sum(Amounts(k.receipts, b)), Sum(Amounts(k.vendorPayments, b));
            && (Balance(ls, Some(Receivable), b) == LeftUnpaid(sales, got) <==> got <= Sum(sales))
            && (-Balance(ls, Some(Payable), b) == LeftUnpaid(bills, paid) <==> paid <= Sum(bills))
  {
    ControlAccounts(k, b);
    UnpaidExactly(SaleTotals(k.sales, b), sales, Amounts(k.receipts, b));
    UnpaidExactly(PurchaseTotals(k.purchases, b), bills, Amounts(k.vendorPayments, b));
  }

  // ------------------------------------------------------------ numbers and references

  /** Line `l` carries entry `i` of posting `p`. */
  predicate Carries(l: Line, p: Posting, i: nat)
    requires i < |p.entries|
  {
    l.account == p.entries[i].account && l.branch == p.branch && l.debit == p.entries[i].debit && l.credit == p.entries[i].credit
  }

  lemma {:induction false} LinesOfAt(p: Posting, n: nat, j: nat, before: nat, i: nat)
    requires i < n <= |p.entries|
    ensures var l := LinesOf(p, n, j, before)[i]; l.lineNo == before + i + 1 && l.journal == j && Carries(l, p, i)
  {
    if i < n - 1 { LinesOfAt(p, n - 1, j, before, i); }
  }

  /** The lines are numbered 1, 2, 3, ... without gaps, and each belongs to a journal of its branch. */
  lemma {:induction false} LinesNumbered(ps: seq<Posting>, i: nat)
    requires i < |LinesFor(ps)|
    ensures var l := LinesFor(ps)[i]; l.lineNo == i + 1 && 1 <= l.journal <= |ps| && l.branch == ps[l.journal - 1].branch
  {
    var init, p := ps[..|ps| - 1], ps[|ps| - 1];
    if i < |LinesFor(init)| {
      LinesNumbered(init, i);
    } else {
      LinesOfAt(p, |p.entries|, |ps|, |LinesFor(init)|, i - |LinesFor(init)|);
    }
  }

  /** A subledger entry repeats the line it names, for the party the line's entry names. */
  predicate Repeats(s: SubEntry, p: Posting, n: nat, linesBefore: nat)
    requires n <= |p.entries|
  {
    && linesBefore < s.lineNo <= linesBefore + n
    && var e := p.entries[s.lineNo - linesBefore - 1];
       e.party == Some(s.party) && s.account == e.account && s.branch == p.branch && s.debit == e.debit && s.credit == e.credit
  }

  lemma {:induction false} SubsOfAt(p: Posting, n: nat, linesBefore: nat, before: nat, i: nat)
    requires n <= |p.entries| && i < |SubsOf(p, n, linesBefore, before)|
    ensures SubsOf(p, n, linesBefore, before)[i].no == before + i + 1 && Repeats(SubsOf(p, n, linesBefore, before)[i], p, n, linesBefore)
  {
    if i < |SubsOf(p, n - 1, linesBefore, before)| { SubsOfAt(p, n - 1, linesBefore, before, i); }
  }

  /** The subledger entries are numbered likewise, and each points at a line of the same account, branch and amounts. */
  lemma {:induction false} SubsPointAtLines(ps: seq<Posting>, i: nat)
    requires i < |SubsFor(ps)|
    ensures var s, ls := SubsFor(ps)[i], LinesFor(ps);
            && s.no == i + 1 && 1 <= s.lineNo <= |ls|
            && var l := ls[s.lineNo - 1];
               l.lineNo == s.lineNo && l.account == s.account && l.branch == s.branch && l.debit == s.debit && l.credit == s.credit
  {
    var init, p := ps[..|ps| - 1], ps[|ps| - 1];
    var before := |LinesFor(init)|;
    if i < |SubsFor(init)| {
      SubsPointAtLines(init, i);
    } else {
      var s := SubsFor(ps)[i];
      SubsOfAt(p, |p.entries|, before, |SubsFor(init)|, i - |SubsFor(init)|);
      LinesOfAt(p, |p.entries|, |ps|, before, s.lineNo - before - 1);
    }
    LinesNumbered(ps, SubsFor(ps)[i].lineNo - 1);
  }

  /** `checkDatasetInvariants`: the per-branch sums, one pass over the lines. */
  method BranchDeltas(lines: seq<Line>) returns (byBranch: map<Id, int>)
    ensures forall b :: b in byBranch <==> exists i :: 0 <= i < |lines| && lines[i].branch == b
    ensures forall b :: b in byBranch ==> byBranch[b] == Balance(lines, None, b)
  {
    byBranch := map[];
    for i := 0 to |lines|
      invariant forall b :: b in byBranch <==> exists j :: 0 <= j < i && lines[j].branch == b
      invariant forall b :: (if b in byBranch then byBranch[b] else 0) == Balance(lines[..i], None, b)
    {
      var l := lines[i];
      assert lines[..i + 1][..i] == lines[..i];
      var delta := l.debit - l.credit;
      byBranch := byBranch[l.branch := (if l.branch in byBranch then byBranch[l.branch] else 0) + delta];
    }
    assert lines[..|lines|] == lines;
  }
}
