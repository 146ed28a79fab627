/**
 * The branches settled and posted in the seeder's order (scripts/seed/verificationDataset.ts): the FIFO loops run over
 * the invoices and bills of one branch after the other, the payments they record enter the books, and the books of all
 * branches are posted.
 */
module SettledBooks {
  import opened Collections
  import opened Ledger
  import opened LedgerTheory
  import Fifo = FifoSettlement

  /** What is still owed on the invoices. */
  ghost function Owed(invoices: seq<Fifo.Invoice>): int
    reads invoices
  {
    if invoices == [] then 0
    else
      var last := invoices[|invoices| - 1];
      Owed(invoices[..|invoices| - 1]) + last.grandTotal - last.amountPaid
  }

  /** The recorded payments, each with the party of the invoice that was open. */
  function AsSettlements(b: Id, parties: seq<Id>, ps: seq<Fifo.Payment>): (ss: seq<Settlement>)
    requires forall i :: 0 <= i < |ps| ==> ps[i].invoice < |parties|
  {
    if ps == [] then []
    else
      var p := ps[|ps| - 1];
      AsSettlements(b, parties, ps[..|ps| - 1]) + [Settlement(b, parties[p.invoice], p.amount)]
  }

  lemma {:induction false} AmountsConcat(rs: seq<Settlement>, more: seq<Settlement>, b: Id)
    ensures Amounts(rs + more, b) == Amounts(rs, b) + Amounts(more, b)
  {
    if more == [] {
      assert rs + more == rs;
    } else {
      assert (rs + more)[..|rs + more| - 1] == rs + more[..|more| - 1];
      AmountsConcat(rs, more[..|more| - 1], b);
    }
  }

  /** The books then hold exactly the amounts received. */
  lemma {:induction false} RecordedAmounts(b: Id, parties: seq<Id>, ps: seq<Fifo.Payment>, amounts: seq<nat>)
    requires |ps| == |amounts| && forall i :: 0 <= i < |ps| ==> ps[i].invoice < |parties| && ps[i].amount == amounts[i]
    ensures Amounts(AsSettlements(b, parties, ps), b) == amounts
  {
    if ps != [] {
      var n := |ps| - 1;
      RecordedAmounts(b, parties, ps[..n], amounts[..n]);
      assert amounts == amounts[..n] + [amounts[n]];
    }
  }

  lemma {:induction false} OwedPrefix(invoices: seq<Fifo.Invoice>, received: nat, n: nat)
    requires n <= |invoices|
    requires Shared(invoices, received)
    ensures Owed(invoices[..n]) == Fifo.Prefix(Fifo.Totals(invoices), n) - Sum(Fifo.Shares(Fifo.Totals(invoices), received)[..n])
  {
    if n > 0 {
      var ts := Fifo.Totals(invoices);
      var ss := Fifo.Shares(ts, received);
      OwedPrefix(invoices, received, n - 1);
      Fifo.PrefixStep(ts, n - 1);
      assert invoices[..n][..n - 1] == invoices[..n - 1] && ss[..n][..n - 1] == ss[..n - 1];
    }
  }

  /** What the loops leave owed is the total less the shares. */
  lemma OwedIsUnpaid(invoices: seq<Fifo.Invoice>, received: nat)
    requires Shared(invoices, received)
    ensures Owed(invoices) == LeftUnpaid(Fifo.Totals(invoices), received)
  {
    var ts := Fifo.Totals(invoices);
    OwedPrefix(invoices, received, |invoices|);
    assert invoices[..|invoices|] == invoices && ts[..|ts|] == ts;
    assert Fifo.Shares(ts, received)[..|ts|] == Fifo.Shares(ts, received);
  }

  /** The loops have left every invoice with its share of what was received, and the status that goes with it. */
  ghost predicate Shared(invoices: seq<Fifo.Invoice>, received: int)
    reads invoices
  {
    forall i :: 0 <= i < |invoices| ==>
      && invoices[i].amountPaid == Fifo.Share(Fifo.Totals(invoices), received, i)
      && (invoices[i].grandTotal > 0 ==> Fifo.StatusTells(invoices[i]))
  }

  ghost predicate Unpaid(invoices: seq<Fifo.Invoice>)
    reads invoices
  {
    Distinct(invoices) && forall i :: 0 <= i < |invoices| ==> invoices[i].amountPaid == 0
  }

  /** Some amount arrives when every invoice has been passed. */
  ghost predicate Overflows(totals: seq<nat>, amounts: seq<nat>) {
    exists k :: 0 <= k < |amounts| && Fifo.Exhausted(totals, Sum(amounts[..k]))
  }

  /** The payments record the amounts in order, each naming some invoice. */
  predicate Records(ps: seq<Fifo.Payment>, amounts: seq<nat>, n: nat) {
    |ps| == |amounts| && forall i :: 0 <= i < |ps| ==> ps[i].invoice < n && ps[i].amount == amounts[i]
  }

  lemma RecordedRecords(totals: seq<nat>, amounts: seq<nat>, ps: seq<Fifo.Payment>)
    requires Fifo.Recorded(totals, amounts, ps, |amounts|)
    ensures Records(ps, amounts, |totals|)
  {
  }

  /** The control accounts of the posted books against the invoices the loops left. */
  lemma ControlsEqualOwed(k: Books, b: Id, receivables: seq<Fifo.Invoice>, receipts: seq<nat>, payables: seq<Fifo.Invoice>, payments: seq<nat>)
    requires Distinct(k.branches) && b in k.branches
    requires multiset(Fifo.Totals(receivables)) == multiset(SaleTotals(k.sales, b)) && Amounts(k.receipts, b) == receipts
    requires multiset(Fifo.Totals(payables)) == multiset(PurchaseTotals(k.purchases, b)) && Amounts(k.vendorPayments, b) == payments
    requires Sum(receipts) >= 0 && Sum(payments) >= 0
    requires Shared(receivables, Sum(receipts)) && Shared(payables, Sum(payments))
    ensures var ls := LinesFor(AllPostings(k, |k.branches|));
            && (Balance(ls, Some(Receivable), b) == Owed(receivables) <==> Sum(receipts) <= Sum(Fifo.Totals(receivables)))
            && (-Balance(ls, Some(Payable), b) == Owed(payables) <==> Sum(payments) <= Sum(Fifo.Totals(payables)))
  {
    ControlsEqualUnpaid(k, b, Fifo.Totals(receivables), Fifo.Totals(payables));
    OwedIsUnpaid(receivables, Sum(receipts));
    OwedIsUnpaid(payables, Sum(payments));
  }

  /** Both settlements of a branch, receivables first. */
  method SettleBoth(receivables: seq<Fifo.Invoice>, receipts: seq<nat>, payables: seq<Fifo.Invoice>, payments: seq<nat>)
    returns (r: Result<(seq<Fifo.Payment>, seq<Fifo.Payment>), Fifo.SettleError>)
    requires Unpaid(receivables) && Unpaid(payables)
    requires forall i, j :: 0 <= i < |receivables| && 0 <= j < |payables| ==> receivables[i] != payables[j]
    modifies set i | 0 <= i < |receivables| :: receivables[i]
    modifies set i | 0 <= i < |payables| :: payables[i]
    ensures r.Failure? <==> Overflows(Fifo.Totals(receivables), receipts) || Overflows(Fifo.Totals(payables), payments)
    ensures r.Success? ==> Shared(receivables, Sum(receipts)) && Shared(payables, Sum(payments))
    ensures r.Success? ==> Records(r.value.0, receipts, |receivables|) && Records(r.value.1, payments, |payables|)
  {
    var got := Fifo.Settle(receivables, receipts);
    if got.Failure? { return Failure(got.error); }
    var paid := Fifo.Settle(payables, payments);
    if paid.Failure? { return Failure(paid.error); }
    RecordedRecords(Fifo.Totals(receivables), receipts, got.value);
    RecordedRecords(Fifo.Totals(payables), payments, paid.value);
    r := Success((got.value, paid.value));
  }

  // ------------------------------------------------------------- all branches

  /** What one branch brings: its invoices and bills in FIFO order, whose they are, and the money that moves. */
  datatype Run = Run(receivables: seq<Fifo.Invoice>, customers: seq<Id>, receipts: seq<nat>,
                     payables: seq<Fifo.Invoice>, suppliers: seq<Id>, payments: seq<nat>)

  ghost function Touched(run: Run): set<Fifo.Invoice> {
    (set i | 0 <= i < |run.receivables| :: run.receivables[i]) + (set i | 0 <= i < |run.payables| :: run.payables[i])
  }

  /** Nothing is paid yet, and the invoices and bills are those the books hold for branch `b`. */
  ghost predicate Ready(run: Run, k: Books, b: Id)
    reads Touched(run)
  {
    && Unpaid(run.receivables) && Unpaid(run.payables)
    && (forall i, j :: 0 <= i < |run.receivables| && 0 <= j < |run.payables| ==> run.receivables[i] != run.payables[j])
    && OfBooks(run, k, b)
  }

  ghost predicate OfBooks(run: Run, k: Books, b: Id) {
    && |run.customers| == |run.receivables| && |run.suppliers| == |run.payables|
    && multiset(Fifo.Totals(run.receivables)) == multiset(SaleTotals(k.sales, b))
    && multiset(Fifo.Totals(run.payables)) == multiset(PurchaseTotals(k.purchases, b))
  }

  ghost predicate Fails(run: Run) {
    Overflows(Fifo.Totals(run.receivables), run.receipts) || Overflows(Fifo.Totals(run.payables), run.payments)
  }

  /** Every invoice and bill has its share of the money. */
  ghost predicate Settled(run: Run)
    reads Touched(run)
  {
    && Sum(run.receipts) >= 0 && Sum(run.payments) >= 0
    && Shared(run.receivables, Sum(run.receipts)) && Shared(run.payables, Sum(run.payments))
  }

  /** What has been recorded for branch `b`. */
  predicate Holds(k: Books, b: Id, receipts: seq<nat>, payments: seq<nat>) {
    Amounts(k.receipts, b) == receipts && Amounts(k.vendorPayments, b) == payments
  }

  /** The books carry on: only payments are added, and none to another branch than `b`. */
  ghost predicate Adds(before: Books, b: Id, after: Books) {
    && after == before.(receipts := after.receipts, vendorPayments := after.vendorPayments)
    && forall c :: c != b ==> Holds(after, c, Amounts(before.receipts, c), Amounts(before.vendorPayments, c))
  }

  lemma {:induction false} OthersUntouched(b: Id, parties: seq<Id>, ps: seq<Fifo.Payment>, c: Id)
    requires c != b && forall i :: 0 <= i < |ps| ==> ps[i].invoice < |parties|
    ensures Amounts(AsSettlements(b, parties, ps), c) == []
  {
    if ps != [] { OthersUntouched(b, parties, ps[..|ps| - 1], c); }
  }

  /** Recording the payments of a branch adds their amounts to it and nothing elsewhere. */
  lemma RecordingAdds(rs: seq<Settlement>, b: Id, parties: seq<Id>, ps: seq<Fifo.Payment>, amounts: seq<nat>)
    requires Records(ps, amounts, |parties|)
    ensures Amounts(rs + AsSettlements(b, parties, ps), b) == Amounts(rs, b) + amounts
    ensures forall c :: c != b ==> Amounts(rs + AsSettlements(b, parties, ps), c) == Amounts(rs, c)
  {
    RecordedAmounts(b, parties, ps, amounts);
    AmountsConcat(rs, AsSettlements(b, parties, ps), b);
    forall c | c != b ensures Amounts(rs + AsSettlements(b, parties, ps), c) == Amounts(rs, c) {
      OthersUntouched(b, parties, ps, c);
      AmountsConcat(rs, AsSettlements(b, parties, ps), c);
    }
  }

  /** One branch's turn: both settlements, and their payments recorded. */
  method SettleBranch(k: Books, b: Id, run: Run) returns (r: Result<Books, Fifo.SettleError>)
    requires Ready(run, k, b) && Holds(k, b, [], [])
    modifies Touched(run)
    ensures r.Failure? <==> Fails(run)
    ensures r.Success? ==> Settled(run) && Adds(k, b, r.value) && Holds(r.value, b, run.receipts, run.payments)
  {
    var both := SettleBoth(run.receivables, run.receipts, run.payables, run.payments);
    if both.Failure? { return Failure(both.error); }
    var (got, paid) := both.value;
    RecordingAdds(k.receipts, b, run.customers, got, run.receipts);
    RecordingAdds(k.vendorPayments, b, run.suppliers, paid, run.payments);
    SumNonNegative(run.receipts);
    SumNonNegative(run.payments);
    r := Success(k.(receipts := k.receipts + AsSettlements(b, run.customers, got),
                    vendorPayments := k.vendorPayments + AsSettlements(b, run.suppliers, paid)));
  }

  /** The branches bring different invoices. */
  ghost predicate Apart(runs: seq<Run>) {
    forall i, j :: 0 <= i < j < |runs| ==> Touched(runs[i]) !! Touched(runs[j])
  }

  /** A branch before and after its turn. */
  ghost predicate Stands(k: Books, now: Books, run: Run, b: Id, done: bool)
    reads Touched(run)
  {
    if done then !Fails(run) && Settled(run) && Holds(now, b, run.receipts, run.payments)
    else Ready(run, k, b) && Holds(now, b, [], [])
  }

  /** The first `n` branches have had their turn. */
  ghost predicate SettledUpTo(k: Books, now: Books, runs: seq<Run>, n: nat)
    requires |runs| == |k.branches|
    reads set i, x | 0 <= i < |runs| && x in Touched(runs[i]) :: x
  {
    && now == k.(receipts := now.receipts, vendorPayments := now.vendorPayments)
    && forall i :: 0 <= i < |runs| ==> Stands(k, now, runs[i], k.branches[i], i < n)
  }

  lemma StillStands(k: Books, now: Books, b: Id, next: Books, run: Run, c: Id, done: bool)
    requires Stands(k, now, run, c, done) && Adds(now, b, next) && c != b
    ensures Stands(k, next, run, c, done)
  {
  }

  method SettleNext(k: Books, now: Books, runs: seq<Run>, n: nat) returns (r: Result<Books, Fifo.SettleError>)
    requires Distinct(k.branches) && |runs| == |k.branches| && Apart(runs)
    requires n < |runs| && SettledUpTo(k, now, runs, n)
    modifies Touched(runs[n])
    ensures r.Failure? <==> Fails(runs[n])
    ensures r.Success? ==> SettledUpTo(k, r.value, runs, n + 1)
  {
    assert Stands(k, now, runs[n], k.branches[n], n < n);
    r := SettleBranch(now, k.branches[n], runs[n]);
    if r.Success? {
      forall i | 0 <= i < |runs| ensures Stands(k, r.value, runs[i], k.branches[i], i < n + 1) {
        if i != n {
          assert Touched(runs[i]) !! Touched(runs[n]);
          assert old(Stands(k, now, runs[i], k.branches[i], i < n));
          StillStands(k, now, k.branches[n], r.value, runs[i], k.branches[i], i < n);
        }
      }
    }
  }

  /** The loop over the branches: it stops at the first that throws. */
  method SettleAll(k: Books, runs: seq<Run>) returns (r: Result<Books, Fifo.SettleError>)
    requires Distinct(k.branches) && |runs| == |k.branches| && Apart(runs)
    requires k.receipts == [] && k.vendorPayments == []
    requires forall i :: 0 <= i < |runs| ==> Ready(runs[i], k, k.branches[i])
    modifies set i, x | 0 <= i < |runs| && x in Touched(runs[i]) :: x
    ensures r.Failure? <==> exists i :: 0 <= i < |runs| && Fails(runs[i])
    ensures r.Success? ==> SettledUpTo(k, r.value, runs, |runs|)
  {
    var now := k;
    for n := 0 to |k.branches|
      invariant SettledUpTo(k, now, runs, n)
    {
      var one := SettleNext(k, now, runs, n);
      if one.Failure? { return one; }
      now := one.value;
    }
    r := Success(now);
  }

  /** The control balances of branch `b` against what its invoices and bills still owe. */
  ghost predicate Agrees(ls: seq<Line>, b: Id, run: Run)
    reads Touched(run)
  {
    && (Balance(ls, Some(Receivable), b) == Owed(run.receivables) <==> Sum(run.receipts) <= Sum(Fifo.Totals(run.receivables)))
    && (-Balance(ls, Some(Payable), b) == Owed(run.payables) <==> Sum(run.payments) <= Sum(Fifo.Totals(run.payables)))
  }

  /** Settles every branch and posts the books: it throws exactly when some branch has a payment that finds everything
      passed, and otherwise every branch's receivable and payable balances are what its settled invoices and bills still
      owe, each exactly when the money does not exceed them. */
  method SettleAndPost(k: Books, runs: seq<Run>) returns (r: Result<GeneralLedger, Fifo.SettleError>)
    requires Distinct(k.branches) && |runs| == |k.branches| && Apart(runs)
    requires k.receipts == [] && k.vendorPayments == []
    requires forall i :: 0 <= i < |runs| ==> Ready(runs[i], k, k.branches[i])
    modifies set i, x | 0 <= i < |runs| && x in Touched(runs[i]) :: x
    ensures r.Failure? <==> exists i :: 0 <= i < |runs| && Fails(runs[i])
    ensures r.Success? ==> r.value.Valid() && fresh(r.value)
    ensures r.Success? ==> forall i :: 0 <= i < |runs| ==> Settled(runs[i])
    ensures r.Success? ==> forall i :: 0 <= i < |runs| ==> Agrees(r.value.journalLines, k.branches[i], runs[i])
  {
    var books := SettleAll(k, runs);
    if books.Failure? { return Failure(books.error); }
    var ledger := PostNew(books.value);
    forall i | 0 <= i < |runs| ensures Agrees(ledger.journalLines, k.branches[i], runs[i]) {
      ControlsEqualOwed(books.value, k.branches[i], runs[i].receivables, runs[i].receipts, runs[i].payables, runs[i].payments);
    }
    r := Success(ledger);
  }

  method PostNew(k: Books) returns (ledger: GeneralLedger)
    ensures fresh(ledger) && ledger.Valid() && ledger.journalLines == LinesFor(AllPostings(k, |k.branches|))
  {
    ledger := new GeneralLedger();
    ledger.PostBooks(k);
    assert [] + AllPostings(k, |k.branches|) == AllPostings(k, |k.branches|);
  }
}
