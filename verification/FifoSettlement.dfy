/** First-in-first-out settlement of invoices by receipts (scripts/seed/verificationDataset.ts). */
module FifoSettlement {
  import opened Collections

  datatype Status = UNPAID | PARTIAL | PAID

  /** A receipt as recorded: its amount and the invoice that was open when it arrived. */
  datatype Payment = Payment(amount: nat, invoice: nat)

  /** Recording a payment throws when every invoice is already settled: there is no first invoice. */
  datatype SettleError = NoOpenInvoice

  class Invoice {
    const grandTotal: nat
    var amountPaid: int
    var paymentStatus: Status

    constructor (grandTotal: nat)
      ensures this.grandTotal == grandTotal && amountPaid == 0 && paymentStatus == UNPAID
    {
      this.grandTotal := grandTotal;
      amountPaid := 0;
      paymentStatus := UNPAID;
    }
  }

  function Prefix(totals: seq<nat>, i: nat): int
    requires i <= |totals|
  {
    Sum(totals[..i])
  }

  /** What invoice `i` receives when `received` is poured over the invoices in order. */
  function Share(totals: seq<nat>, received: int, i: nat): int
    requires i < |totals|
  {
    Max(0, Min(totals[i], received - Prefix(totals, i)))
  }

  function Shares(totals: seq<nat>, received: int): (s: seq<int>)
    ensures |s| == |totals|
  {
    seq(|totals|, i requires 0 <= i < |totals| => Share(totals, received, i))
  }

  lemma PrefixStep(totals: seq<nat>, i: nat)
    requires i < |totals|
    ensures Prefix(totals, i + 1) == Prefix(totals, i) + totals[i]
  {
    assert totals[..i + 1][..i] == totals[..i];
  }

  lemma {:induction false} PrefixMono(totals: seq<nat>, i: nat, j: nat)
    requires i <= j <= |totals|
    ensures 0 <= Prefix(totals, i) <= Prefix(totals, j)
    decreases j
  {
    if i < j {
      PrefixMono(totals, i, j - 1);
      PrefixStep(totals, j - 1);
    } else if i > 0 {
      PrefixMono(totals, i - 1, i - 1);
      PrefixStep(totals, i - 1);
    }
  }

  lemma {:induction false} SharesOfPrefix(totals: seq<nat>, received: nat, n: nat)
    requires n <= |totals|
    ensures Sum(Shares(totals, received)[..n]) == Min(received, Prefix(totals, n))
  {
    var s := Shares(totals, received);
    if n > 0 {
      SharesOfPrefix(totals, received, n - 1);
      assert s[..n][..n - 1] == s[..n - 1];
      PrefixStep(totals, n - 1);
      PrefixMono(totals, 0, n - 1);
    }
  }

  lemma SharesTotal(totals: seq<nat>, received: nat)
    ensures Sum(Shares(totals, received)) == Min(received, Sum(totals))
  {
    SharesOfPrefix(totals, received, |totals|);
    assert Shares(totals, received)[..|totals|] == Shares(totals, received);
    assert totals[..|totals|] == totals;
  }

  /** Conservation: what the invoices receive adds up to the receipts, or to everything owed if that is
      less, and no invoice receives less than nothing or more than its total. */
  lemma SharesConserve(totals: seq<nat>, received: nat)
    ensures Sum(Shares(totals, received)) == Min(received, Sum(totals))
    ensures forall i :: 0 <= i < |totals| ==> 0 <= Shares(totals, received)[i] <= totals[i]
  {
    SharesTotal(totals, received);
  }

  /** An earlier invoice is fully paid before a later one receives anything. */
  lemma EarlierFirst(totals: seq<nat>, received: nat, i: nat, j: nat)
    requires i < j < |totals| && Share(totals, received, j) > 0
    ensures Share(totals, received, i) == totals[i]
  {
    PrefixMono(totals, i + 1, j);
    PrefixStep(totals, i);
  }

  function StatusOf(paid: int, total: nat): Status {
    if paid <= 0 then UNPAID else if paid >= total then PAID else PARTIAL
  }

  /** The invoices read fully settled up to one point, at most one partly paid there, and untouched after. */
  lemma SettledPrefix(totals: seq<nat>, received: nat) returns (k: nat)
    ensures k <= |totals|
    ensures forall i :: 0 <= i < k ==> Share(totals, received, i) == totals[i]
    ensures forall i :: k < i < |totals| ==> Share(totals, received, i) == 0
    ensures k < |totals| ==> Share(totals, received, k) < totals[k]
    ensures forall i :: 0 <= i < |totals| && StatusOf(Share(totals, received, i), totals[i]) == PARTIAL ==> i == k
  {
    k := 0;
    while k < |totals| && Share(totals, received, k) == totals[k]
      invariant k <= |totals|
      invariant forall i :: 0 <= i < k ==> Share(totals, received, i) == totals[i]
    {
      k := k + 1;
    }
    forall i | k < i < |totals|
      ensures Share(totals, received, i) == 0
    {
      if Share(totals, received, i) > 0 { EarlierFirst(totals, received, k, i); }
    }
  }

  /** How the receipts are split does not matter, and more money never takes payment away from an invoice. */
  lemma MoreMoneyNeverHurts(totals: seq<nat>, a: nat, b: nat, i: nat)
    requires a <= b && i < |totals|
    ensures Share(totals, a, i) <= Share(totals, b, i)
    ensures Share(totals, b, i) - Share(totals, a, i) <= b - a
  {
  }

  /** Every invoice has been passed once `received` has been poured. */
  predicate Exhausted(totals: seq<nat>, received: int) {
    || totals == []
    || received > Sum(totals)
    || (received == Sum(totals) && totals[|totals| - 1] > 0)
  }

  /** Invoice `c` is the one the next rupee meets: everything before it is settled, and it is not, or it
      is worth nothing. */
  predicate FirstOpen(totals: seq<nat>, received: int, c: nat) {
    && c < |totals|
    && Prefix(totals, c) <= received
    && received <= Prefix(totals, c) + totals[c]
    && (received < Prefix(totals, c) + totals[c] || totals[c] == 0)
  }

  ghost function Totals(invoices: seq<Invoice>): (ts: seq<nat>)
    ensures |ts| == |invoices|
  {
    seq(|invoices|, i requires 0 <= i < |invoices| => invoices[i].grandTotal)
  }

  /** `paid` lists what the invoices have been paid. */
  ghost predicate Holds(invoices: seq<Invoice>, paid: seq<int>)
    reads invoices
  {
    |paid| == |invoices| && forall i :: 0 <= i < |invoices| ==> invoices[i].amountPaid == paid[i]
  }

  /** The paid amounts and the cursor in the middle of the loops: `poured` has been handed out so far. */
  ghost predicate Progress(ts: seq<nat>, paid: seq<int>, cursor: nat, outstanding: int, poured: int) {
    && cursor <= |ts| == |paid|
    && (forall i :: 0 <= i < cursor ==> paid[i] == ts[i])
    && (forall i :: cursor < i < |ts| ==> paid[i] == 0)
    && (if cursor < |ts| then
          && 0 <= outstanding <= ts[cursor]
          && (outstanding > 0 || ts[cursor] == 0)
          && paid[cursor] == ts[cursor] - outstanding
          && poured == Prefix(ts, cursor) + ts[cursor] - outstanding
        else poured >= Prefix(ts, cursor))
  }

  /** Past the last invoice only if it was worth something or more was poured than is owed. */
  ghost predicate PastFairly(ts: seq<nat>, cursor: nat, poured: int) {
    cursor == |ts| > 0 ==> ts[cursor - 1] > 0 || poured > Prefix(ts, cursor)
  }

  /** One round of the inner loop. */
  lemma ProgressStep(ts: seq<nat>, paid: seq<int>, cursor: nat, outstanding: int, poured: int, remaining: int)
    requires Progress(ts, paid, cursor, outstanding, poured) && cursor < |ts| && remaining > 0
    ensures var applied := Min(remaining, outstanding);
            var now := paid[cursor := paid[cursor] + applied];
            if outstanding - applied <= 0 then
              && Progress(ts, now, cursor + 1, if cursor + 1 < |ts| then ts[cursor + 1] else 0, poured + applied)
              && PastFairly(ts, cursor + 1, poured + remaining)
            else Progress(ts, now, cursor, outstanding - applied, poured + applied)
  {
    PrefixStep(ts, cursor);
  }

  lemma ProgressPaid(ts: seq<nat>, paid: seq<int>, cursor: nat, outstanding: int, poured: nat, i: nat)
    requires Progress(ts, paid, cursor, outstanding, poured) && i < |ts|
    ensures paid[i] == Share(ts, poured, i)
  {
    PrefixStep(ts, i);
    if i < cursor {
      PrefixMono(ts, i + 1, cursor);
    } else if i > cursor {
      PrefixStep(ts, cursor);
      PrefixMono(ts, cursor + 1, i);
    }
  }

  /** At a receipt boundary the cursor is past the end exactly when the invoices are exhausted. */
  lemma ProgressCursor(ts: seq<nat>, paid: seq<int>, cursor: nat, outstanding: int, poured: nat)
    requires Progress(ts, paid, cursor, outstanding, poured) && PastFairly(ts, cursor, poured)
    ensures cursor == |ts| <==> Exhausted(ts, poured)
    ensures cursor < |ts| ==> FirstOpen(ts, poured, cursor)
  {
    assert ts[..|ts|] == ts;
    if cursor < |ts| {
      PrefixStep(ts, cursor);
      PrefixMono(ts, cursor + 1, |ts|);
      if ts[|ts| - 1] > 0 && cursor < |ts| - 1 {
        PrefixMono(ts, cursor + 1, |ts| - 1);
        PrefixStep(ts, |ts| - 1);
      }
    }
  }

  method Pay(invoices: seq<Invoice>, i: nat, applied: int, ghost paid: seq<int>) returns (ghost now: seq<int>)
    requires Distinct(invoices) && Holds(invoices, paid) && i < |invoices|
    modifies {invoices[i]}`amountPaid
    ensures now == paid[i := paid[i] + applied] && Holds(invoices, now)
  {
    var invoice := invoices[i];
    invoice.amountPaid := invoice.amountPaid + applied;
    now := paid[i := paid[i] + applied];
  }

  /** One round of the inner loop: pays what it can on the invoice at the cursor. */
  method Round(invoices: seq<Invoice>, cursor0: nat, outstanding0: int, remaining0: int, ghost handed: int, ghost paid0: seq<int>)
    returns (cursor: nat, outstanding: int, remaining: int, ghost paid: seq<int>)
    requires Distinct(invoices) && Holds(invoices, paid0) && cursor0 < |invoices| && remaining0 > 0
    requires Progress(Totals(invoices), paid0, cursor0, outstanding0, handed)
    modifies set i | 0 <= i < |invoices| :: invoices[i]`amountPaid
    ensures Holds(invoices, paid) && 0 <= remaining <= remaining0 && cursor0 <= cursor
    ensures Progress(Totals(invoices), paid, cursor, outstanding, handed + remaining0 - remaining)
    ensures cursor == cursor0 ==> remaining < remaining0
    ensures cursor > cursor0 ==> PastFairly(Totals(invoices), cursor, handed + remaining0)
  {
    var applied := Min(remaining0, outstanding0);
    ProgressStep(Totals(invoices), paid0, cursor0, outstanding0, handed, remaining0);
    paid := Pay(invoices, cursor0, applied, paid0);
    cursor, outstanding, remaining := cursor0, outstanding0 - applied, remaining0 - applied;
    if outstanding <= 0 {
      cursor := cursor + 1;
      outstanding := if cursor < |invoices| then invoices[cursor].grandTotal else 0;
    }
  }

  /** Pours one receipt: the inner loop of the settlement. */
  method Apply(invoices: seq<Invoice>, cursor0: nat, outstanding0: int, amount: nat, ghost poured: nat, ghost paid0: seq<int>)
    returns (cursor: nat, outstanding: int, ghost paid: seq<int>)
    requires Distinct(invoices) && Holds(invoices, paid0)
    requires Progress(Totals(invoices), paid0, cursor0, outstanding0, poured) && PastFairly(Totals(invoices), cursor0, poured)
    modifies set i | 0 <= i < |invoices| :: invoices[i]`amountPaid
    ensures Holds(invoices, paid)
    ensures Progress(Totals(invoices), paid, cursor, outstanding, poured + amount)
    ensures PastFairly(Totals(invoices), cursor, poured + amount)
  {
    cursor, outstanding, paid := cursor0, outstanding0, paid0;
    var remaining := amount as int;
    while remaining > 0 && cursor < |invoices|
      invariant 0 <= remaining <= amount && Holds(invoices, paid)
      invariant Progress(Totals(invoices), paid, cursor, outstanding, poured + amount - remaining)
      invariant PastFairly(Totals(invoices), cursor, poured + amount)
      decreases |invoices| - cursor, remaining
    {
      cursor, outstanding, remaining, paid := Round(invoices, cursor, outstanding, remaining, poured + amount - remaining, paid);
    }
    PouredOut(Totals(invoices), paid, cursor, outstanding, poured + amount - remaining, remaining);
  }

  /** Money left over once every invoice is passed is poured out all the same. */
  lemma PouredOut(ts: seq<nat>, paid: seq<int>, cursor: nat, outstanding: int, poured: int, rest: nat)
    requires Progress(ts, paid, cursor, outstanding, poured) && (cursor == |ts| || rest == 0)
    ensures Progress(ts, paid, cursor, outstanding, poured + rest)
  {
  }

  /** What the receipts loop has recorded after `k` receipts. */
  ghost predicate Recorded(totals: seq<nat>, receipts: seq<nat>, payments: seq<Payment>, k: nat)
    requires k <= |receipts|
  {
    && |payments| == k
    && forall j :: 0 <= j < k ==>
                     && payments[j].amount == receipts[j]
                     && !Exhausted(totals, Sum(receipts[..j]))
                     && FirstOpen(totals, Sum(receipts[..j]), payments[j].invoice)
  }

  /** The loops' state after `k` receipts. */
  ghost predicate Poured(invoices: seq<Invoice>, paid: seq<int>, cursor: nat, outstanding: int, receipts: seq<nat>, k: nat)
    reads invoices
  {
    && k <= |receipts| && Sum(receipts[..k]) >= 0 && Holds(invoices, paid)
    && Progress(Totals(invoices), paid, cursor, outstanding, Sum(receipts[..k]))
    && PastFairly(Totals(invoices), cursor, Sum(receipts[..k]))
  }

  method Receive(invoices: seq<Invoice>, cursor0: nat, outstanding0: int, receipts: seq<nat>, k: nat, ghost paid0: seq<int>)
    returns (cursor: nat, outstanding: int, ghost paid: seq<int>)
    requires Distinct(invoices) && Poured(invoices, paid0, cursor0, outstanding0, receipts, k) && k < |receipts|
    modifies set i | 0 <= i < |invoices| :: invoices[i]`amountPaid
    ensures Poured(invoices, paid, cursor, outstanding, receipts, k + 1)
  {
    PrefixStep(receipts, k);
    cursor, outstanding, paid := Apply(invoices, cursor0, outstanding0, receipts[k], Sum(receipts[..k]), paid0);
  }

  /** Pours the receipts one by one; stops where recording a payment would throw. */
  method PourAll(invoices: seq<Invoice>, receipts: seq<nat>) returns (r: Result<seq<Payment>, SettleError>)
    requires Distinct(invoices) && forall i :: 0 <= i < |invoices| ==> invoices[i].amountPaid == 0
    modifies set i | 0 <= i < |invoices| :: invoices[i]`amountPaid
    ensures forall i :: 0 <= i < |invoices| ==> invoices[i].amountPaid == Share(Totals(invoices), Sum(receipts), i)
    ensures r.Success? ==> Recorded(Totals(invoices), receipts, r.value, |receipts|)
    ensures r.Failure? ==> exists k :: 0 <= k < |receipts| && Exhausted(Totals(invoices), Sum(receipts[..k]))
  {
    var cursor, outstanding := 0, if |invoices| > 0 then invoices[0].grandTotal else 0;
    var payments: seq<Payment> := [];
    ghost var paid := seq(|invoices|, _ => 0);
    for k := 0 to |receipts|
      invariant Poured(invoices, paid, cursor, outstanding, receipts, k)
      invariant Recorded(Totals(invoices), receipts, payments, k)
    {
      ProgressCursor(Totals(invoices), paid, cursor, outstanding, Sum(receipts[..k]));
      if cursor == |invoices| {
        StoppedShares(invoices, paid, cursor, outstanding, receipts, k);
        return Failure(NoOpenInvoice);
      }
      RecordedNext(Totals(invoices), receipts, payments, k, cursor);
      payments := payments + [Payment(receipts[k], cursor)];
      cursor, outstanding, paid := Receive(invoices, cursor, outstanding, receipts, k, paid);
    }
    PouredShares(invoices, paid, cursor, outstanding, receipts);
    r := Success(payments);
  }

  /** After the last receipt every invoice has its share of them all. */
  lemma PouredShares(invoices: seq<Invoice>, paid: seq<int>, cursor: nat, outstanding: int, receipts: seq<nat>)
    requires Poured(invoices, paid, cursor, outstanding, receipts, |receipts|)
    ensures forall i :: 0 <= i < |invoices| ==> invoices[i].amountPaid == Share(Totals(invoices), Sum(receipts), i)
  {
    assert receipts[..|receipts|] == receipts;
    AllPaid(invoices, paid, cursor, outstanding, Sum(receipts));
  }

  /** Where the run stops, every invoice already has its share of all the receipts. */
  lemma StoppedShares(invoices: seq<Invoice>, paid: seq<int>, cursor: nat, outstanding: int, receipts: seq<nat>, k: nat)
    requires k <= |receipts| && Sum(receipts[..k]) >= Sum(Totals(invoices)) && Sum(receipts[..k]) >= 0
    requires Holds(invoices, paid) && Progress(Totals(invoices), paid, cursor, outstanding, Sum(receipts[..k]))
    ensures forall i :: 0 <= i < |invoices| ==> invoices[i].amountPaid == Share(Totals(invoices), Sum(receipts), i)
  {
    AllPaid(invoices, paid, cursor, outstanding, Sum(receipts[..k]));
    ExhaustedStays(Totals(invoices), receipts, k);
  }

  lemma RecordedNext(totals: seq<nat>, receipts: seq<nat>, payments: seq<Payment>, k: nat, open: nat)
    requires k < |receipts| && Recorded(totals, receipts, payments, k)
    requires !Exhausted(totals, Sum(receipts[..k])) && FirstOpen(totals, Sum(receipts[..k]), open)
    ensures Recorded(totals, receipts, payments + [Payment(receipts[k], open)], k + 1)
  {
  }

  lemma AllPaid(invoices: seq<Invoice>, paid: seq<int>, cursor: nat, outstanding: int, poured: nat)
    requires Holds(invoices, paid) && Progress(Totals(invoices), paid, cursor, outstanding, poured)
    ensures forall i :: 0 <= i < |invoices| ==> invoices[i].amountPaid == Share(Totals(invoices), poured, i)
  {
    forall i | 0 <= i < |invoices| ensures invoices[i].amountPaid == Share(Totals(invoices), poured, i) {
      ProgressPaid(Totals(invoices), paid, cursor, outstanding, poured, i);
    }
  }

  method MarkStatuses(invoices: seq<Invoice>)
    requires Distinct(invoices)
    modifies set i | 0 <= i < |invoices| :: invoices[i]`paymentStatus
    ensures forall i :: 0 <= i < |invoices| ==>
              invoices[i].paymentStatus == StatusOf(invoices[i].amountPaid, invoices[i].grandTotal)
  {
    for i := 0 to |invoices|
      invariant forall j :: 0 <= j < i ==>
                  invoices[j].paymentStatus == StatusOf(invoices[j].amountPaid, invoices[j].grandTotal)
    {
      invoices[i].paymentStatus := StatusOf(invoices[i].amountPaid, invoices[i].grandTotal);
    }
  }

  /** Settles the invoices in FIFO order. However the money arrives, each invoice ends with its share of
      the total received; the run throws exactly when some receipt finds every invoice passed. */
  method Settle(invoices: seq<Invoice>, receipts: seq<nat>) returns (r: Result<seq<Payment>, SettleError>)
    requires Distinct(invoices) && forall i :: 0 <= i < |invoices| ==> invoices[i].amountPaid == 0
    modifies set i | 0 <= i < |invoices| :: invoices[i]
    ensures forall i :: 0 <= i < |invoices| ==> invoices[i].amountPaid == Share(Totals(invoices), Sum(receipts), i)
    ensures r.Failure? <==> exists k :: 0 <= k < |receipts| && Exhausted(Totals(invoices), Sum(receipts[..k]))
    ensures r.Success? ==> Recorded(Totals(invoices), receipts, r.value, |receipts|)
    ensures r.Success? ==>
              forall i :: 0 <= i < |invoices| ==>
                invoices[i].paymentStatus == StatusOf(Share(Totals(invoices), Sum(receipts), i), invoices[i].grandTotal)
    ensures r.Success? ==> forall i :: 0 <= i < |invoices| && invoices[i].grandTotal > 0 ==> StatusTells(invoices[i])
  {
    r := PourAll(invoices, receipts);
    if r.Success? {
      MarkStatuses(invoices);
      forall i | 0 <= i < |invoices| && invoices[i].grandTotal > 0 ensures StatusTells(invoices[i]) {
        assert 0 <= Share(Totals(invoices), Sum(receipts), i) <= invoices[i].grandTotal;
      }
    }
  }

  /** Paid when nothing is owed any more, unpaid when nothing was paid, and partly paid in between. */
  predicate StatusTells(invoice: Invoice)
    reads invoice
  {
    && (invoice.paymentStatus == PAID <==> invoice.amountPaid == invoice.grandTotal)
    && (invoice.paymentStatus == UNPAID <==> invoice.amountPaid == 0)
    && (invoice.paymentStatus == PARTIAL <==> 0 < invoice.amountPaid < invoice.grandTotal)
  }

  /** Once exhausted, the rest of the receipts changes no share. */
  lemma {:induction false} ExhaustedStays(totals: seq<nat>, receipts: seq<nat>, k: nat)
    requires k <= |receipts| && Sum(receipts[..k]) >= Sum(totals)
    ensures Sum(receipts) >= Sum(receipts[..k])
    ensures forall i :: 0 <= i < |totals| ==> Share(totals, Sum(receipts), i) == Share(totals, Sum(receipts[..k]), i)
  {
    assert receipts[..|receipts|] == receipts && totals[..|totals|] == totals;
    PrefixMono(receipts, k, |receipts|);
    forall i | 0 <= i < |totals|
      ensures Share(totals, Sum(receipts), i) == Share(totals, Sum(receipts[..k]), i)
    {
      PrefixStep(totals, i);
      PrefixMono(totals, i + 1, |totals|);
    }
  }
}
