/** The per-branch stock cache and its batches of reads (client/src/services/branchStockStore.ts). */
module BranchStock {
  import opened Collections

  type Branch = int
  type Row = int
  type Message = int

  /** The published rows are kept by branch; `rows` is what was held when they were last published. */
  datatype Snapshot = Snapshot(rows: map<Branch, seq<Row>>, loading: bool, error: Option<Message>, loaded: bool, generation: nat)

  /** One `Promise.allSettled`: the branches it reads, those still unanswered, those that failed, and whether
      its `then` handler has run. */
  datatype Batch = Batch(missing: set<Branch>, open: set<Branch>, failed: set<Branch>, settled: bool)

  /** The closure's variables, the batches in flight, and the history: for each branch the batch whose
      answer is held, and every answer that was written. */
  datatype State = State(snap: Snapshot, held: map<Branch, seq<Row>>, requested: set<Branch>, dirty: set<Branch>,
                         requestId: nat, running: bool, queued: bool, subscribers: nat, invalidateQueued: bool,
                         batches: map<nat, Batch>, answers: map<(nat, Branch), seq<Row>>, source: map<Branch, nat>)

  const INIT := State(Snapshot(map[], false, None, false, 0), map[], {}, {}, 0, false, false, 0, false, map[], map[], map[])

  /** The branch has rows on file that nothing has marked for re-reading. */
  predicate Fresh(s: State, b: Branch) { b in s.held && b !in s.dirty }

  function Missing(s: State): set<Branch> { set b | b in s.requested && (b in s.dirty || b !in s.held) }

  function Start(s: State): State {
    if s.running then s.(queued := true)
    else if Missing(s) == {} then s
    else
      var n := s.requestId + 1;
      s.(running := true, requestId := n, batches := s.batches[n := Batch(Missing(s), Missing(s), {}, false)],
         snap := s.snap.(loading := true))
  }

  function Supersede(s: State): State {
    s.(requestId := s.requestId + 1, running := false, queued := false, dirty := s.dirty + s.requested)
  }

  /** Some branch of `ids` is dirty or has no rows on file. */
  predicate NeedsRead(ids: set<Branch>, dirty: set<Branch>, held: map<Branch, seq<Row>>) {
    exists b :: b in ids && (b in dirty || b !in held)
  }

  lemma NeedsReadOneMore(ids: set<Branch>, b: Branch, dirty: set<Branch>, held: map<Branch, seq<Row>>)
    ensures NeedsRead(ids + {b}, dirty, held) <==> NeedsRead(ids, dirty, held) || b in dirty || b !in held
  {
    if b in dirty || b !in held { assert b in ids + {b}; }
    if x :| x in ids && (x in dirty || x !in held) { assert x in ids + {b}; }
  }

  /** `ids` without the blank and `ALL` entries. */
  function EnsureLoaded(s: State, ids: set<Branch>): State {
    var added := NeedsRead(ids, s.dirty, s.held);
    var t := s.(requested := s.requested + ids);
    if !added && s.snap.loaded then t else Start(t)
  }

  function Refresh(s: State): State {
    Start(Supersede(s).(snap := s.snap.(loaded := false, error := None)))
  }

  function Invalidate(s: State): State {
    Supersede(s).(snap := s.snap.(loaded := false), invalidateQueued := true)
  }

  function Task(s: State): State {
    if !s.invalidateQueued then s
    else
      var t := s.(invalidateQueued := false);
      if t.subscribers > 0 && t.requested != {} then Start(t) else t
  }

  function Reset(s: State): State {
    Supersede(s).(held := map[], requested := {}, dirty := {}, snap := Snapshot(map[], false, None, false, s.snap.generation + 1))
  }

  /** One branch's rows arrive: they are stored and the branch is clean, whichever batch asked. */
  function BranchOk(s: State, n: nat, b: Branch, rows: seq<Row>): State {
    if n !in s.batches || b !in s.batches[n].open then s
    else
      s.(held := s.held[b := rows], dirty := s.dirty - {b},
         batches := s.batches[n := s.batches[n].(open := s.batches[n].open - {b})],
         answers := s.answers[(n, b) := rows], source := s.source[b := n])
  }

  function BranchFailed(s: State, n: nat, b: Branch): State {
    if n !in s.batches || b !in s.batches[n].open then s
    else
      s.(batches := s.batches[n := s.batches[n].(open := s.batches[n].open - {b}, failed := s.batches[n].failed + {b})])
  }

  /** The `then` handler; `m` is the message of the first failure, if any. */
  function Settled(s: State, n: nat, m: Message): State {
    if n !in s.batches || s.batches[n].open != {} || s.batches[n].settled then s
    else
      var t := s.(batches := s.batches[n := s.batches[n].(settled := true)]);
      if n != s.requestId then t
      else
        var fine := s.batches[n].failed == {};
        t.(snap := Snapshot(s.held, false, if fine then None else Some(m), fine, s.snap.generation))
  }

  function Finally(s: State, n: nat): State {
    if n !in s.batches || !s.batches[n].settled then s
    else
      var t := s.(batches := s.batches - {n});
      if n != s.requestId then t
      else
        var u := t.(running := false);
        if u.queued then Start(u.(queued := false)) else u
  }

  datatype Event =
    | EvEnsure(ids: set<Branch>) | EvRefresh | EvInvalidate | EvTask | EvReset | EvSubscribe | EvUnsubscribe
    | EvOk(no: nat, branch: Branch, rows: seq<Row>) | EvFailed(no: nat, branch: Branch)
    | EvSettled(no: nat, message: Message) | EvFinally(no: nat)

  function Step(s: State, e: Event): State {
    match e
    case EvEnsure(ids) => EnsureLoaded(s, ids)
    case EvRefresh => Refresh(s)
    case EvInvalidate => Invalidate(s)
    case EvTask => Task(s)
    case EvReset => Reset(s)
    case EvSubscribe => s.(subscribers := s.subscribers + 1)
    case EvUnsubscribe => s.(subscribers := if s.subscribers == 0 then 0 else s.subscribers - 1)
    case EvOk(n, b, rows) => BranchOk(s, n, b, rows)
    case EvFailed(n, b) => BranchFailed(s, n, b)
    case EvSettled(n, m) => Settled(s, n, m)
    case EvFinally(n) => Finally(s, n)
  }

  function Run(s: State, es: seq<Event>): State {
    if es == [] then s else Step(Run(s, es[..|es| - 1]), es[|es| - 1])
  }

  // ---------------------------------------------------------------- invariants

  ghost predicate Current(s: State)
    requires s.requestId in s.batches
  {
    var c := s.batches[s.requestId];
    && c.open <= c.missing && c.failed <= c.missing && c.open !! c.failed
    && (c.settled ==> c.open == {} && (s.snap.loaded <==> c.failed == {}))
    && (forall b :: b in c.missing ==> b in c.open || b in c.failed || (Fresh(s, b) && (s.requestId, b) in s.answers))
    && (!s.queued ==> forall b :: b in s.requested ==> Fresh(s, b) || b in c.missing)
  }

  ghost predicate Inv(s: State) {
    && (forall n :: n in s.batches ==> 1 <= n <= s.requestId)
    && (s.queued ==> s.running)
    && (s.running <==> s.requestId in s.batches)
    && (s.running ==> Current(s))
    && (!s.running && s.snap.loaded ==> forall b :: b in s.requested ==> Fresh(s, b))
    && s.snap.rows.Keys <= s.held.Keys
    && (forall b :: b in s.held ==> b in s.source && s.source[b] <= s.requestId && (s.source[b], b) in s.answers && s.answers[(s.source[b], b)] == s.held[b])
  }

  lemma StartInv(s: State)
    requires Inv(s)
    ensures Inv(Start(s))
  {
  }

  lemma SupersedeInv(s: State, error: Option<Message>, queued: bool)
    requires Inv(s)
    ensures Inv(Supersede(s).(snap := s.snap.(loaded := false, error := error), invalidateQueued := queued))
    ensures Inv(Reset(s))
  {
  }

  lemma MoreRequestedInv(s: State, ids: set<Branch>)
    requires Inv(s) && s.running && forall b :: b in ids ==> Fresh(s, b)
    ensures Inv(s.(requested := s.requested + ids))
  {
    var t := s.(requested := s.requested + ids);
    assert Current(s);
    assert forall b :: Fresh(t, b) <==> Fresh(s, b);
    assert Current(t);
  }

  lemma QueuedInv(s: State, ids: set<Branch>)
    requires Inv(s) && s.running
    ensures Inv(s.(requested := s.requested + ids, queued := true))
  {
    var t := s.(requested := s.requested + ids, queued := true);
    assert Current(s);
    assert forall b :: Fresh(t, b) <==> Fresh(s, b);
    assert Current(t);
  }

  lemma EnsureInv(s: State, ids: set<Branch>)
    requires Inv(s)
    ensures Inv(EnsureLoaded(s, ids))
  {
    NoneNeedsRead(s, ids);
    if s.running {
      if s.snap.loaded && !NeedsRead(ids, s.dirty, s.held) { MoreRequestedInv(s, ids); } else { QueuedInv(s, ids); }
    } else if !s.snap.loaded || NeedsRead(ids, s.dirty, s.held) {
      QueuedRestart(s.(requested := s.requested + ids));
    }
  }

  lemma RefreshInv(s: State)
    requires Inv(s)
    ensures Inv(Refresh(s)) && Inv(Invalidate(s))
  {
    SupersedeInv(s, None, s.invalidateQueued);
    SupersedeInv(s, s.snap.error, true);
    var t := Supersede(s).(snap := s.snap.(loaded := false, error := None));
    assert t == Supersede(s).(snap := s.snap.(loaded := false, error := None), invalidateQueued := s.invalidateQueued);
    StartInv(t);
    assert s.snap.(loaded := false) == s.snap.(loaded := false, error := s.snap.error);
  }

  lemma TaskInv(s: State)
    requires Inv(s)
    ensures Inv(Task(s))
  {
    var t := s.(invalidateQueued := false);
    assert Inv(t);
    StartInv(t);
  }

  lemma OkInv(s: State, n: nat, b: Branch, rows: seq<Row>)
    requires Inv(s)
    ensures Inv(BranchOk(s, n, b, rows))
  {
  }

  lemma FailedInv(s: State, n: nat, b: Branch)
    requires Inv(s)
    ensures Inv(BranchFailed(s, n, b))
  {
  }

  lemma SettledInv(s: State, n: nat, m: Message)
    requires Inv(s)
    ensures Inv(Settled(s, n, m))
  {
    var t := Settled(s, n, m);
    if t != s && n == s.requestId {
      var c := s.batches[n];
      assert Current(s) && t.batches[n] == c.(settled := true);
      assert t.held == s.held && t.running && t.requestId == n;
    }
  }

  lemma FinallyInv(s: State, n: nat)
    requires Inv(s)
    ensures Inv(Finally(s, n))
  {
    if n in s.batches && s.batches[n].settled && n == s.requestId {
      var u := s.(batches := s.batches - {n}, running := false);
      if s.queued {
        QueuedRestart(u.(queued := false));
      } else {
        var c := s.batches[n];
        assert Current(s);
        if s.snap.loaded {
          forall b | b in s.requested ensures Fresh(s, b) {
            assert Fresh(s, b) || b in c.missing;
          }
        }
        assert Finally(s, n) == u;
      }
    }
  }

  /** Restarting: if nothing is missing, every requested branch is held. */
  lemma QueuedRestart(u: State)
    requires !u.running && !u.queued && u.requestId !in u.batches
    requires (forall n :: n in u.batches ==> 1 <= n <= u.requestId) && u.snap.rows.Keys <= u.held.Keys
    requires forall b :: b in u.held ==> b in u.source && u.source[b] <= u.requestId && (u.source[b], b) in u.answers && u.answers[(u.source[b], b)] == u.held[b]
    ensures Inv(Start(u))
  {
    assert forall b :: b in u.requested && !Fresh(u, b) ==> b in Missing(u);
  }

  /** Every step keeps the invariant. */
  lemma StepInv(s: State, e: Event)
    requires Inv(s)
    ensures Inv(Step(s, e))
  {
    match e
    case EvEnsure(ids) => EnsureInv(s, ids);
    case EvRefresh => RefreshInv(s);
    case EvInvalidate => RefreshInv(s);
    case EvTask => TaskInv(s);
    case EvReset => SupersedeInv(s, None, false);
    case EvOk(n, b, rows) => OkInv(s, n, b, rows);
    case EvFailed(n, b) => FailedInv(s, n, b);
    case EvSettled(n, m) => SettledInv(s, n, m);
    case EvFinally(n) => FinallyInv(s, n);
    case _ =>
  }

  lemma {:induction false} RunInv(s: State, es: seq<Event>)
    requires Inv(s)
    ensures Inv(Run(s, es))
  {
    if es != [] {
      RunInv(s, es[..|es| - 1]);
      StepInv(Run(s, es[..|es| - 1]), es[|es| - 1]);
    }
  }

  // -------------------------------------------------------------- main results

  lemma StepCoverage(s: State, e: Event)
    requires Inv(s) && !e.EvReset?
    ensures s.snap.rows.Keys <= Step(s, e).snap.rows.Keys
  {
  }

  /** Between resets the branches covered by the published rows never become fewer, failures included. */
  lemma {:induction false} CoverageNeverShrinks(s: State, es: seq<Event>)
    requires Inv(s) && forall i :: 0 <= i < |es| ==> !es[i].EvReset?
    ensures s.snap.rows.Keys <= Run(s, es).snap.rows.Keys
  {
    if es != [] {
      CoverageNeverShrinks(s, es[..|es| - 1]);
      RunInv(s, es[..|es| - 1]);
      StepCoverage(Run(s, es[..|es| - 1]), es[|es| - 1]);
    }
  }

  lemma LoadedIsFresh(s: State)
    requires Inv(s) && s.snap.loaded && !s.running
    ensures s.requested <= s.held.Keys && s.requested !! s.dirty
  {
    forall b | b in s.requested ensures b in s.held.Keys && b !in s.dirty { assert Fresh(s, b); }
  }

  /** In every reachable state the rows filed under a branch answered a read of that branch; and whenever
      `loaded` holds with nothing running, every requested branch has an answer on file and none is marked
      for re-reading. */
  lemma HeldRowsAreAnswers(es: seq<Event>)
    ensures var s := Run(INIT, es);
            && (forall b :: b in s.held ==> exists n :: (n, b) in s.answers && s.answers[(n, b)] == s.held[b])
            && (s.snap.loaded && !s.running ==> s.requested <= s.held.Keys && s.requested !! s.dirty)
            && s.snap.rows.Keys <= s.held.Keys
            && (s.queued ==> s.running) && (s.running <==> s.requestId in s.batches)
  {
    RunInv(INIT, es);
    var s := Run(INIT, es);
    forall b | b in s.held
      ensures exists n :: (n, b) in s.answers && s.answers[(n, b)] == s.held[b]
    {
      assert (s.source[b], b) in s.answers;
    }
    if s.snap.loaded && !s.running { LoadedIsFresh(s); }
  }

  // ------------------------------------------------------ whose rows are on file

  /** The event brings rows for `b` to a batch that still waits for them. */
  predicate Delivers(s: State, e: Event, b: Branch) {
    e.EvOk? && e.branch == b && e.no in s.batches && b in s.batches[e.no].open
  }

  datatype Delivery = Delivery(no: nat, rows: seq<Row>)

  /** The last rows the run delivered for `b` since its last reset, and the batch that brought them. */
  function LastDelivery(es: seq<Event>, b: Branch): Option<Delivery> {
    if es == [] then None
    else
      var init, e := es[..|es| - 1], es[|es| - 1];
      if e.EvReset? then None
      else if Delivers(Run(INIT, init), e, b) then Some(Delivery(e.no, e.rows))
      else LastDelivery(init, b)
  }

  /** The rows batch `n` brought for `b`. */
  function DeliveryOf(es: seq<Event>, n: nat, b: Branch): Option<seq<Row>> {
    if es == [] then None
    else
      var init, e := es[..|es| - 1], es[|es| - 1];
      if Delivers(Run(INIT, init), e, b) && e.no == n then Some(e.rows) else DeliveryOf(init, n, b)
  }

  lemma StartKeeps(s: State)
    ensures Start(s).held == s.held && Start(s).source == s.source && Start(s).answers == s.answers
  {
  }

  lemma EnsureKeeps(s: State, ids: set<Branch>)
    ensures EnsureLoaded(s, ids).held == s.held && EnsureLoaded(s, ids).source == s.source && EnsureLoaded(s, ids).answers == s.answers
  {
    StartKeeps(s.(requested := s.requested + ids));
  }

  lemma RefreshKeeps(s: State)
    ensures Refresh(s).held == s.held && Refresh(s).source == s.source && Refresh(s).answers == s.answers
    ensures Invalidate(s).held == s.held && Invalidate(s).source == s.source && Invalidate(s).answers == s.answers
  {
    StartKeeps(Supersede(s).(snap := s.snap.(loaded := false, error := None)));
  }

  lemma TaskKeeps(s: State)
    ensures Task(s).held == s.held && Task(s).source == s.source && Task(s).answers == s.answers
  {
    StartKeeps(s.(invalidateQueued := false));
  }

  lemma FinallyKeeps(s: State, n: nat)
    ensures Finally(s, n).held == s.held && Finally(s, n).source == s.source && Finally(s, n).answers == s.answers
  {
    StartKeeps(s.(batches := s.batches - {n}, running := false, queued := false));
  }

  lemma OthersKeep(s: State, e: Event)
    requires !e.EvOk? && !e.EvReset?
    ensures Step(s, e).held == s.held && Step(s, e).source == s.source && Step(s, e).answers == s.answers
  {
    match e
    case EvEnsure(ids) => EnsureKeeps(s, ids);
    case EvRefresh => RefreshKeeps(s);
    case EvInvalidate => RefreshKeeps(s);
    case EvTask => TaskKeeps(s);
    case EvFinally(n) => FinallyKeeps(s, n);
    case _ =>
  }

  lemma StepHeld(s: State, e: Event, b: Branch)
    ensures var t := Step(s, e);
            && (Delivers(s, e, b) ==> b in t.held && t.held[b] == e.rows && b in t.source && t.source[b] == e.no && b !in t.dirty)
            && (e.EvReset? ==> b !in t.held)
            && (!Delivers(s, e, b) && !e.EvReset? ==>
                  && (b in t.held <==> b in s.held) && (b in s.held ==> t.held[b] == s.held[b])
                  && (b in t.source <==> b in s.source) && (b in s.source ==> t.source[b] == s.source[b]))
  {
    if !e.EvOk? && !e.EvReset? { OthersKeep(s, e); }
  }

  lemma StepAnswers(s: State, e: Event, n: nat, b: Branch)
    ensures var t := Step(s, e);
            if Delivers(s, e, b) && e.no == n then (n, b) in t.answers && t.answers[(n, b)] == e.rows
            else ((n, b) in t.answers <==> (n, b) in s.answers) && ((n, b) in s.answers ==> t.answers[(n, b)] == s.answers[(n, b)])
  {
    if !e.EvOk? && !e.EvReset? { OthersKeep(s, e); }
  }

  /** In every run the rows on file for a branch are the last delivered since the last reset, by whichever batch. */
  lemma {:induction false} HeldIsLastDelivery(es: seq<Event>, b: Branch)
    ensures var s, d := Run(INIT, es), LastDelivery(es, b);
            && (b in s.held <==> d.Some?)
            && (d.Some? ==> s.held[b] == d.value.rows && b in s.source && s.source[b] == d.value.no)
  {
    if es != [] {
      HeldIsLastDelivery(es[..|es| - 1], b);
      StepHeld(Run(INIT, es[..|es| - 1]), es[|es| - 1], b);
    }
  }

  lemma {:induction false} AnswersAreDeliveries(es: seq<Event>, n: nat, b: Branch)
    ensures var s, d := Run(INIT, es), DeliveryOf(es, n, b);
            ((n, b) in s.answers <==> d.Some?) && (d.Some? ==> s.answers[(n, b)] == d.value)
  {
    if es != [] {
      AnswersAreDeliveries(es[..|es| - 1], n, b);
      StepAnswers(Run(INIT, es[..|es| - 1]), es[|es| - 1], n, b);
    }
  }

  /** The rows on file for `b` go back from a newer batch's to an older batch's. */
  predicate GoesBack(s: State, t: State, b: Branch) {
    b in s.held && b in t.held && b in s.source && b in t.source && t.source[b] < s.source[b]
  }

  /** The id check does not guard the rows: in any run, a step takes a branch back to an older batch's rows exactly
      when it is an answer of a batch older than the last that delivered, superseded or not; and no step ever spares the
      mark for re-reading when rows arrive. */
  lemma LateAnswersAreStored(es: seq<Event>, e: Event, b: Branch)
    ensures var s := Run(INIT, es);
            && (GoesBack(s, Step(s, e), b) <==>
                  Delivers(s, e, b) && LastDelivery(es, b).Some? && e.no < LastDelivery(es, b).value.no)
            && (Delivers(s, e, b) ==> Fresh(Step(s, e), b) && Step(s, e).held[b] == e.rows)
  {
    HeldIsLastDelivery(es, b);
    StepHeld(Run(INIT, es), e, b);
  }

  /** A batch whose every branch has been answered is about to settle, and it read `b`. */
  predicate AboutToSettle(s: State, b: Branch) {
    && s.requestId in s.batches && s.batches[s.requestId].open == {} && !s.batches[s.requestId].settled
    && b in s.batches[s.requestId].missing && b !in s.batches[s.requestId].failed
  }

  /** In every run, what a settling batch publishes for a branch it read is the last delivery before it settles. So it
      publishes its own answer exactly when that delivery is its own, or an older batch's of the very same rows. */
  lemma PublishesOwnAnswers(es: seq<Event>, m: Message, b: Branch)
    requires AboutToSettle(Run(INIT, es), b)
    ensures var s := Run(INIT, es);
            var t, n := Step(s, EvSettled(s.requestId, m)), s.requestId;
            var own, last := DeliveryOf(es, n, b), LastDelivery(es, b);
            && own.Some? && last.Some? && b in t.snap.rows
            && t.snap.rows[b] == last.value.rows && last.value.no <= n
            && (last.value.no == n ==> last.value.rows == own.value)
            && (t.snap.rows[b] == own.value <==> last.value.no == n || last.value.rows == own.value)
  {
    RunInv(INIT, es);
    var s := Run(INIT, es);
    assert Current(s);
    HeldIsLastDelivery(es, b);
    AnswersAreDeliveries(es, s.requestId, b);
    assert Fresh(s, b) && (s.requestId, b) in s.answers;
    assert (s.source[b], b) in s.answers && s.answers[(s.source[b], b)] == s.held[b];
  }

  // ------------------------------------------- the snapshot, from the history alone

  /** The newest batch is complete: its `then` handler publishes. */
  predicate Publishes(s: State, e: Event) {
    e.EvSettled? && e.no == s.requestId && e.no in s.batches && s.batches[e.no].open == {} && !s.batches[e.no].settled
  }

  /** The event asks for a read: a demand that is not met, a retry, a refetch that is heard, or a read put off whose turn
      has come. */
  predicate Asks(s: State, e: Event) {
    match e
    case EvEnsure(ids) => NeedsRead(ids, s.dirty, s.held) || !s.snap.loaded
    case EvRefresh => true
    case EvTask => s.invalidateQueued && s.subscribers > 0 && s.requested != {}
    case EvFinally(n) => s.queued && n == s.requestId && n in s.batches && s.batches[n].settled
    case _ => false
  }

  /** Every branch that is requested after the event and has nothing fresh on file; a retry makes all of them stale. */
  function Unread(s: State, e: Event): set<Branch> {
    match e
    case EvEnsure(ids) => set b | b in s.requested + ids && !Fresh(s, b)
    case EvRefresh => s.requested
    case _ => set b | b in s.requested && !Fresh(s, b)
  }

  predicate Running(s: State, e: Event) { s.running && !e.EvRefresh? && !e.EvFinally? }

  /** The event sends a batch. */
  predicate Sends(s: State, e: Event) { Asks(s, e) && !Running(s, e) && Unread(s, e) != {} }

  lemma AskStarts(s: State)
    requires !s.running
    ensures var t := Start(s); Missing(s) != {} ==> t.requestId == s.requestId + 1 && t.batches == s.batches[t.requestId := Batch(Missing(s), Missing(s), {}, false)]
    ensures Missing(s) == {} ==> Start(s) == s
  {
  }

  /** Which steps send a batch, and what it reads: exactly the requested branches with nothing fresh on file. A read asked
      for while a batch runs is put off. */
  lemma SendsExactly(s: State, e: Event)
    requires Inv(s)
    ensures var t := Step(s, e);
            && (Sends(s, e) <==> s.requestId < t.requestId && t.requestId in t.batches)
            && (Sends(s, e) ==> t.batches[t.requestId] == Batch(Unread(s, e), Unread(s, e), {}, false))
            && (Asks(s, e) && Running(s, e) ==> t.queued)
            && (t.queued && !s.queued ==> Asks(s, e) && Running(s, e))
  {
    match e
    case EvEnsure(ids) => EnsureSends(s, ids);
    case EvRefresh => RefreshSends(s);
    case EvTask => TaskSends(s);
    case EvFinally(n) => FinallySends(s, n);
    case _ =>
  }

  lemma TaskSends(s: State)
    requires Inv(s)
    ensures var e, t := EvTask, Task(s);
            && (Sends(s, e) <==> s.requestId < t.requestId && t.requestId in t.batches)
            && (Sends(s, e) ==> t.batches[t.requestId] == Batch(Unread(s, e), Unread(s, e), {}, false))
            && (Asks(s, e) && s.running ==> t.queued)
            && (t.queued && !s.queued ==> Asks(s, e) && s.running)
  {
    assert Missing(s.(invalidateQueued := false)) == Unread(s, EvTask);
  }

  lemma EnsureSends(s: State, ids: set<Branch>)
    requires Inv(s)
    ensures var e, t := EvEnsure(ids), EnsureLoaded(s, ids);
            && (Sends(s, e) <==> s.requestId < t.requestId && t.requestId in t.batches)
            && (Sends(s, e) ==> t.batches[t.requestId] == Batch(Unread(s, e), Unread(s, e), {}, false))
            && (Asks(s, e) && s.running ==> t.queued)
            && (t.queued && !s.queued ==> Asks(s, e) && s.running)
  {
    var u := s.(requested := s.requested + ids);
    assert Missing(u) == Unread(s, EvEnsure(ids));
  }

  lemma RefreshSends(s: State)
    requires Inv(s)
    ensures var t := Refresh(s);
            && (s.requested != {} <==> s.requestId < t.requestId && t.requestId in t.batches)
            && (s.requested != {} ==> t.batches[t.requestId] == Batch(s.requested, s.requested, {}, false))
            && !t.queued
  {
    var u := Supersede(s).(snap := s.snap.(loaded := false, error := None));
    assert Missing(u) == s.requested;
    AskStarts(u);
  }

  lemma FinallySends(s: State, n: nat)
    requires Inv(s)
    ensures var e, t := EvFinally(n), Finally(s, n);
            && (Sends(s, e) <==> s.requestId < t.requestId && t.requestId in t.batches)
            && (Sends(s, e) ==> t.batches[t.requestId] == Batch(Unread(s, e), Unread(s, e), {}, false))
            && (t.queued ==> s.queued)
  {
    if Asks(s, EvFinally(n)) {
      var u := s.(batches := s.batches - {n}, running := false, queued := false);
      assert Missing(u) == Unread(s, EvFinally(n));
      AskStarts(u);
    }
  }

  /** The rows last published, since the last reset. */
  function LastPublished(es: seq<Event>): map<Branch, seq<Row>> {
    if es == [] then map[]
    else
      var s, e := Run(INIT, es[..|es| - 1]), es[|es| - 1];
      if Publishes(s, e) then s.held else if e.EvReset? then map[] else LastPublished(es[..|es| - 1])
  }

  /** The last batch published had no failure, and there has been no retry, invalidation or reset since. */
  predicate UpToDate(es: seq<Event>) {
    es != [] &&
    var s, e := Run(INIT, es[..|es| - 1]), es[|es| - 1];
    if Publishes(s, e) then s.batches[e.no].failed == {}
    else !e.EvRefresh? && !e.EvInvalidate? && !e.EvReset? && UpToDate(es[..|es| - 1])
  }

  /** The message of the last batch published, if it had a failure, until a retry or a reset. */
  function LastFailure(es: seq<Event>): Option<Message> {
    if es == [] then None
    else
      var s, e := Run(INIT, es[..|es| - 1]), es[|es| - 1];
      if Publishes(s, e) then if s.batches[e.no].failed == {} then None else Some(e.message)
      else if e.EvRefresh? || e.EvReset? then None
      else LastFailure(es[..|es| - 1])
  }

  /** A batch has been sent and, since, none published and nothing reset. */
  predicate Unanswered(es: seq<Event>) {
    es != [] &&
    var s, e := Run(INIT, es[..|es| - 1]), es[|es| - 1];
    Sends(s, e) || (!Publishes(s, e) && !e.EvReset? && Unanswered(es[..|es| - 1]))
  }

  /** How many are subscribed after a run; an unsubscription follows its subscription, so none comes at zero. */
  function Hosts(es: seq<Event>): nat {
    if es == [] then 0
    else
      var before := Hosts(es[..|es| - 1]);
      match es[|es| - 1]
      case EvSubscribe => before + 1
      case EvUnsubscribe => if before == 0 then 0 else before - 1
      case _ => before
  }

  /** An invalidation has come since the last time a refetch fired; not even a reset takes it back. */
  predicate RefetchDue(es: seq<Event>) {
    es != [] && (es[|es| - 1].EvInvalidate? || (!es[|es| - 1].EvTask? && RefetchDue(es[..|es| - 1])))
  }

  lemma StartKeepsFlags(s: State)
    ensures Start(s).subscribers == s.subscribers && Start(s).invalidateQueued == s.invalidateQueued
  {
  }

  lemma StepFlags(s: State, e: Event)
    ensures Step(s, e).subscribers == match e
                                      case EvSubscribe => s.subscribers + 1
                                      case EvUnsubscribe => if s.subscribers == 0 then 0 else s.subscribers - 1
                                      case _ => s.subscribers
    ensures Step(s, e).invalidateQueued <==> e.EvInvalidate? || (!e.EvTask? && s.invalidateQueued)
  {
    match e
    case EvEnsure(ids) => StartKeepsFlags(s.(requested := s.requested + ids));
    case EvRefresh => StartKeepsFlags(Supersede(s).(snap := s.snap.(loaded := false, error := None)));
    case EvTask => StartKeepsFlags(s.(invalidateQueued := false));
    case EvFinally(n) =>
      if n in s.batches { StartKeepsFlags(s.(batches := s.batches - {n}, running := false, queued := false)); }
    case _ =>
  }

  lemma {:induction false} FlagsAreHistory(es: seq<Event>)
    ensures Run(INIT, es).subscribers == Hosts(es)
    ensures Run(INIT, es).invalidateQueued <==> RefetchDue(es)
  {
    if es != [] {
      FlagsAreHistory(es[..|es| - 1]);
      StepFlags(Run(INIT, es[..|es| - 1]), es[|es| - 1]);
    }
  }

  lemma StartOnlyLoads(s: State)
    ensures var t := Start(s).snap; t.rows == s.snap.rows && t.loaded == s.snap.loaded && t.error == s.snap.error
  {
  }

  lemma StepShown(s: State, e: Event)
    ensures var t := Step(s, e).snap;
            && t.rows == (if Publishes(s, e) then s.held else if e.EvReset? then map[] else s.snap.rows)
            && (t.loaded <==> if Publishes(s, e) then s.batches[e.no].failed == {}
                              else !e.EvRefresh? && !e.EvInvalidate? && !e.EvReset? && s.snap.loaded)
            && t.error == (if Publishes(s, e) then if s.batches[e.no].failed == {} then None else Some(e.message)
                           else if e.EvRefresh? || e.EvReset? then None
                           else s.snap.error)
  {
    match e
    case EvEnsure(ids) => StartOnlyLoads(s.(requested := s.requested + ids));
    case EvRefresh => StartOnlyLoads(Supersede(s).(snap := s.snap.(loaded := false, error := None)));
    case EvTask => StartOnlyLoads(s.(invalidateQueued := false));
    case EvFinally(n) =>
      if n in s.batches { StartOnlyLoads(s.(batches := s.batches - {n}, running := false, queued := false)); }
    case _ =>
  }

  lemma StartLoads(s: State)
    ensures Start(s).snap.loading <==> s.snap.loading || (!s.running && Missing(s) != {})
  {
  }

  lemma EnsureLoads(s: State, ids: set<Branch>)
    ensures EnsureLoaded(s, ids).snap.loading <==> s.snap.loading || Sends(s, EvEnsure(ids))
  {
    assert Missing(s.(requested := s.requested + ids)) == Unread(s, EvEnsure(ids));
    StartLoads(s.(requested := s.requested + ids));
  }

  lemma RefreshLoads(s: State)
    ensures Refresh(s).snap.loading <==> s.snap.loading || Sends(s, EvRefresh)
  {
    var u := Supersede(s).(snap := s.snap.(loaded := false, error := None));
    assert Missing(u) == s.requested;
    StartLoads(u);
  }

  lemma TaskLoads(s: State)
    ensures Task(s).snap.loading <==> s.snap.loading || Sends(s, EvTask)
  {
    assert Missing(s.(invalidateQueued := false)) == Unread(s, EvTask);
    StartLoads(s.(invalidateQueued := false));
  }

  lemma FinallyLoads(s: State, n: nat)
    requires Inv(s)
    ensures Finally(s, n).snap.loading <==> s.snap.loading || Sends(s, EvFinally(n))
  {
    if n in s.batches {
      var u := s.(batches := s.batches - {n}, running := false, queued := false);
      assert Missing(u) == Unread(s, EvFinally(n));
      StartLoads(u);
    }
  }

  lemma StepLoads(s: State, e: Event)
    requires Inv(s)
    ensures Step(s, e).snap.loading <==> Sends(s, e) || (!Publishes(s, e) && !e.EvReset? && s.snap.loading)
  {
    match e
    case EvEnsure(ids) => EnsureLoads(s, ids);
    case EvRefresh => RefreshLoads(s);
    case EvTask => TaskLoads(s);
    case EvFinally(n) => FinallyLoads(s, n);
    case _ =>
  }

  /** In every run the snapshot is what the history says: what was on file when a batch was last published, loaded while
      that is up to date, the message of its failure, and loading while a batch is unanswered. */
  lemma {:induction false} SnapshotIsHistory(es: seq<Event>)
    ensures var s := Run(INIT, es);
            && s.snap.rows == LastPublished(es)
            && (s.snap.loaded <==> UpToDate(es))
            && s.snap.error == LastFailure(es)
            && (s.snap.loading <==> Unanswered(es))
  {
    if es != [] {
      var init, e := es[..|es| - 1], es[|es| - 1];
      SnapshotIsHistory(init);
      RunInv(INIT, init);
      StepShown(Run(INIT, init), e);
      StepLoads(Run(INIT, init), e);
    }
  }

  // ------------------------------------------------------ rows across a reset

  /** The number the last reset of the run left behind; later batches have greater ones. */
  function Session(es: seq<Event>): nat {
    if es == [] then 0
    else if es[|es| - 1].EvReset? then Run(INIT, es).requestId
    else Session(es[..|es| - 1])
  }

  /** All rows on file were brought by batches numbered above `n`. */
  ghost predicate BroughtAfter(s: State, n: nat) {
    forall b :: b in s.held ==> b in s.source && n < s.source[b]
  }

  /** At no moment of the run does the store hold rows that a batch of an earlier session brought. */
  ghost predicate SessionsApart(es: seq<Event>) {
    BroughtAfter(Run(INIT, es), Session(es)) && (es != [] ==> SessionsApart(es[..|es| - 1]))
  }

  /** The event delivers to a batch that was started before the last reset. */
  predicate Crosses(es: seq<Event>, e: Event) {
    e.EvOk? && Delivers(Run(INIT, es), e, e.branch) && e.no <= Session(es)
  }

  predicate NothingCrosses(es: seq<Event>) {
    es != [] ==> !Crosses(es[..|es| - 1], es[|es| - 1]) && NothingCrosses(es[..|es| - 1])
  }

  lemma StepBrought(s: State, e: Event, n: nat)
    requires BroughtAfter(s, n) && !e.EvReset?
    ensures BroughtAfter(Step(s, e), n) <==> !(e.EvOk? && Delivers(s, e, e.branch) && e.no <= n)
  {
    var t := Step(s, e);
    if e.EvOk? { StepHeld(s, e, e.branch); }
    if !(e.EvOk? && Delivers(s, e, e.branch) && e.no <= n) {
      forall b | b in t.held ensures b in t.source && n < t.source[b] { StepHeld(s, e, b); }
    }
  }

  lemma ResetHoldsNothing(s: State)
    ensures Step(s, EvReset).held == map[]
  {
  }

  /** A run never holds an earlier session's rows if and only if no step of it answers a batch from before the last
      reset. */
  lemma {:induction false} SessionsApartExactly(es: seq<Event>)
    ensures SessionsApart(es) <==> NothingCrosses(es)
  {
    if es != [] {
      var init, e := es[..|es| - 1], es[|es| - 1];
      SessionsApartExactly(init);
      if e.EvReset? {
        ResetHoldsNothing(Run(INIT, init));
      } else if BroughtAfter(Run(INIT, init), Session(init)) {
        StepBrought(Run(INIT, init), e, Session(init));
      }
    }
  }

  lemma StepNumber(s: State, e: Event)
    requires Inv(s)
    ensures s.requestId <= Step(s, e).requestId
    ensures Step(s, e).running ==> s.requestId < Step(s, e).requestId || (s.running && s.requestId == Step(s, e).requestId)
  {
  }

  /** A running batch belongs to the current session. */
  lemma {:induction false} RunningIsRecent(es: seq<Event>)
    ensures Session(es) <= Run(INIT, es).requestId
    ensures Run(INIT, es).running ==> Session(es) < Run(INIT, es).requestId
  {
    if es != [] {
      var init := es[..|es| - 1];
      RunningIsRecent(init);
      RunInv(INIT, init);
      StepNumber(Run(INIT, init), es[|es| - 1]);
    }
  }

  /** In every run, what a settling batch publishes for any branch is the last delivery for it since the last reset. So
      it publishes an earlier session's rows exactly for the branches whose last delivery answered a batch from before
      that reset; for a branch it read itself these are then not its own. */
  lemma PublishesEarlierSession(es: seq<Event>, m: Message, b: Branch)
    requires var s := Run(INIT, es);
             s.requestId in s.batches && s.batches[s.requestId].open == {} && !s.batches[s.requestId].settled
    ensures var s, last := Run(INIT, es), LastDelivery(es, b);
            var t := Step(s, EvSettled(s.requestId, m));
            && (b in t.snap.rows <==> last.Some?)
            && (last.Some? ==> t.snap.rows[b] == last.value.rows && b in t.source && t.source[b] == last.value.no)
            && (last.Some? && last.value.no <= Session(es) ==> last.value.no != s.requestId)
    ensures var s := Run(INIT, es);
            BroughtAfter(s, Session(es)) <==>
            forall x :: x in Step(s, EvSettled(s.requestId, m)).snap.rows ==> x in s.source && Session(es) < s.source[x]
  {
    RunInv(INIT, es);
    RunningIsRecent(es);
    HeldIsLastDelivery(es, b);
  }

  // ------------------------------------------------------ the silent store

  /** Nothing is loaded or running, and yet nothing is missing: `ensureLoaded` for the branches on file
      starts nothing and publishes nothing. */
  predicate Silent(s: State) {
    !s.snap.loaded && !s.running && s.requested != {} && Missing(s) == {}
  }

  /** The steps that silence the store: a first demand after a reset for rows a late answer filed, a late answer for the
      one branch still to be read, and a batch that ends without success when late answers have left nothing to read. */
  predicate Silences(s: State, e: Event) {
    !s.snap.loaded &&
    match e
    case EvEnsure(ids) => !s.running && s.requested == {} && ids != {} && !NeedsRead(ids, s.dirty, s.held)
    case EvOk(n, b, _) => !s.running && Delivers(s, e, b) && Missing(s) == {b}
    case EvFinally(n) => n == s.requestId && n in s.batches && s.batches[n].settled && s.requested != {} && Missing(s) == {}
    case _ => false
  }

  lemma NothingMissing(s: State)
    ensures Missing(s) == {} <==> forall b :: b in s.requested ==> Fresh(s, b)
  {
    assert forall b :: b in s.requested && !Fresh(s, b) ==> b in Missing(s);
    assert (forall b :: b !in Missing(s)) ==> Missing(s) == {};
  }

  lemma NoneNeedsRead(s: State, ids: set<Branch>)
    ensures !NeedsRead(ids, s.dirty, s.held) <==> forall b :: b in ids ==> Fresh(s, b)
  {
  }

  lemma SomeBranch(bs: set<Branch>)
    ensures bs != {} <==> exists b :: b in bs
  {
    assert (forall b :: b !in bs) ==> bs == {};
  }

  lemma DirtyIsMissing(s: State)
    requires s.requested <= s.dirty && s.requested != {}
    ensures Missing(s) != {}
  {
    SomeBranch(s.requested);
    var b :| b in s.requested;
    assert b in Missing(s);
  }

  lemma StartSilent(s: State)
    ensures Silent(Start(s)) <==> Silent(s)
  {
  }

  lemma EnsureSilent(s: State, ids: set<Branch>)
    requires Inv(s)
    ensures Silent(EnsureLoaded(s, ids)) <==>
            !s.snap.loaded && !s.running && s.requested + ids != {} && Missing(s) == {} && !NeedsRead(ids, s.dirty, s.held)
  {
    var t := s.(requested := s.requested + ids);
    NothingMissing(s);
    NothingMissing(t);
    NoneNeedsRead(s, ids);
    StartSilent(t);
    assert forall b :: Fresh(t, b) <==> Fresh(s, b);
    assert forall b :: b in t.requested <==> b in s.requested || b in ids;
  }

  lemma SupersededNotSilent(s: State)
    ensures !Silent(Refresh(s)) && !Silent(Invalidate(s)) && !Silent(Reset(s))
  {
    var t := Supersede(s).(snap := s.snap.(loaded := false, error := None));
    if t.requested != {} {
      DirtyIsMissing(t);
      DirtyIsMissing(Invalidate(s));
    }
  }

  lemma OkSilent(s: State, n: nat, b: Branch, rows: seq<Row>)
    requires Inv(s) && !Silent(s)
    ensures Silent(BranchOk(s, n, b, rows)) <==> Silences(s, EvOk(n, b, rows))
  {
    var t := BranchOk(s, n, b, rows);
    if Delivers(s, EvOk(n, b, rows), b) {
      assert forall x :: x != b ==> (Fresh(t, x) <==> Fresh(s, x));
      assert forall x :: x in Missing(t) <==> x in Missing(s) && x != b;
      if Missing(t) == {} && Missing(s) != {} {
        SomeBranch(Missing(s));
        assert forall x :: x in Missing(s) ==> x == b;
        assert Missing(s) == {b};
      }
    }
  }

  lemma FinallySilent(s: State, n: nat)
    requires Inv(s) && !Silent(s)
    ensures Silent(Finally(s, n)) <==> Silences(s, EvFinally(n))
  {
    if n in s.batches && s.batches[n].settled {
      var u := s.(batches := s.batches - {n}, running := false, queued := false);
      assert Missing(u) == Missing(s);
      assert Missing(s.(batches := s.batches - {n})) == Missing(s);
      if n == s.requestId { StartSilent(u); }
    }
  }

  lemma SettledSilent(s: State, n: nat, m: Message)
    requires Inv(s)
    ensures Silent(Settled(s, n, m)) <==> Silent(s)
  {
    assert Missing(Settled(s, n, m)) == Missing(s);
  }

  lemma FailedSilent(s: State, n: nat, b: Branch)
    ensures Silent(BranchFailed(s, n, b)) <==> Silent(s)
  {
    assert Missing(BranchFailed(s, n, b)) == Missing(s);
  }

  lemma QuietSilent(s: State, n: nat, queued: bool)
    ensures Silent(s.(subscribers := n)) <==> Silent(s)
    ensures Silent(s.(invalidateQueued := queued)) <==> Silent(s)
    ensures Silent(Task(s)) <==> Silent(s)
  {
    assert Missing(s.(subscribers := n)) == Missing(s) && Missing(s.(invalidateQueued := queued)) == Missing(s);
    assert Missing(s.(invalidateQueued := false)) == Missing(s);
    StartSilent(s.(invalidateQueued := false));
  }

  /** A step silences the store exactly in one of those three ways. */
  lemma SilencesExactly(s: State, e: Event)
    requires Inv(s) && !Silent(s)
    ensures Silent(Step(s, e)) <==> Silences(s, e)
  {
    match e
    case EvEnsure(ids) =>
      EnsureSilent(s, ids);
      if s.requested == {} { assert s.requested + ids == ids && Missing(s) == {}; }
    case EvRefresh => SupersededNotSilent(s);
    case EvInvalidate => SupersededNotSilent(s);
    case EvReset => SupersededNotSilent(s);
    case EvTask => QuietSilent(s, 0, false);
    case EvSubscribe => QuietSilent(s, s.subscribers + 1, false);
    case EvUnsubscribe => QuietSilent(s, if s.subscribers == 0 then 0 else s.subscribers - 1, false);
    case EvOk(n, b, rows) => OkSilent(s, n, b, rows);
    case EvFailed(n, b) => FailedSilent(s, n, b);
    case EvSettled(n, m) => SettledSilent(s, n, m);
    case EvFinally(n) => FinallySilent(s, n);
  }

  /** A silent store ignores every demand for branches on file, every refetch and every late answer; what frees it is
      exactly a retry, an invalidation, a reset, or a demand for a branch still to be read. */
  lemma SilentIsStuck(s: State, e: Event)
    requires Inv(s) && Silent(s)
    ensures Silent(Step(s, e)) <==>
            !(e.EvRefresh? || e.EvInvalidate? || e.EvReset? || (e.EvEnsure? && NeedsRead(e.ids, s.dirty, s.held)))
    ensures Silent(Step(s, e)) ==> Step(s, e).snap == s.snap
    ensures e.EvEnsure? && e.ids <= s.requested ==> Step(s, e) == s
  {
    match e
    case EvEnsure(ids) =>
      EnsureSilent(s, ids);
      NothingMissing(s);
      NoneNeedsRead(s, ids);
      SomeBranch(s.requested);
      if ids <= s.requested { assert s.requested + ids == s.requested; }
    case EvRefresh => SupersededNotSilent(s);
    case EvInvalidate => SupersededNotSilent(s);
    case EvReset => SupersededNotSilent(s);
    case EvTask => QuietSilent(s, 0, false);
    case EvSubscribe => QuietSilent(s, s.subscribers + 1, false);
    case EvUnsubscribe => QuietSilent(s, if s.subscribers == 0 then 0 else s.subscribers - 1, false);
    case EvOk(n, b, rows) =>
      assert forall x :: Fresh(s, x) ==> Fresh(BranchOk(s, n, b, rows), x);
      NothingMissing(s);
      NothingMissing(BranchOk(s, n, b, rows));
    case EvFailed(n, b) => FailedSilent(s, n, b);
    case EvSettled(n, m) => SettledSilent(s, n, m);
    case EvFinally(n) => assert Missing(Finally(s, n)) == Missing(s);
  }

  /** At no moment of the run is the store silent. */
  predicate NeverSilent(es: seq<Event>) {
    !Silent(Run(INIT, es)) && (es != [] ==> NeverSilent(es[..|es| - 1]))
  }

  /** No step of the run is one of the three. */
  predicate NothingSilences(es: seq<Event>) {
    es != [] ==> !Silences(Run(INIT, es[..|es| - 1]), es[|es| - 1]) && NothingSilences(es[..|es| - 1])
  }

  /** A run is never silent if and only if none of its steps silences it. */
  lemma {:induction false} NeverSilentExactly(es: seq<Event>)
    ensures NeverSilent(es) <==> NothingSilences(es)
  {
    if es != [] {
      var init := es[..|es| - 1];
      NeverSilentExactly(init);
      RunInv(INIT, init);
      if !Silent(Run(INIT, init)) { SilencesExactly(Run(INIT, init), es[|es| - 1]); }
    }
  }

  // ------------------------------------------------------ runs without late answers

  /** The answers in the run all belong to the batch that is current when they arrive. */
  ghost predicate CurrentOnly(s: State, es: seq<Event>) {
    forall i :: 0 <= i < |es| && es[i].EvOk? ==> es[i].no == Run(s, es[..i]).requestId
  }

  /** With no superseded answer: only requested branches are held, and what a running batch has not delivered is still to
      be read. */
  ghost predicate Tidy(s: State) {
    && s.held.Keys <= s.requested
    && (s.running ==> s.requestId in s.batches && TidyBatch(s, s.batches[s.requestId]))
  }

  ghost predicate TidyBatch(s: State, c: Batch) {
    && c.missing <= s.requested
    && (forall b :: b in c.open || b in c.failed ==> !Fresh(s, b))
  }

  lemma TidyNeverSilences(s: State, e: Event)
    requires Inv(s) && Tidy(s) && (e.EvOk? ==> e.no == s.requestId)
    ensures !Silences(s, e)
  {
    match e
    case EvEnsure(ids) =>
      NoneNeedsRead(s, ids);
      SomeBranch(ids);
    case EvFinally(n) =>
      if n == s.requestId && n in s.batches && s.batches[n].settled && !s.snap.loaded {
        var c := s.batches[n];
        assert Current(s) && TidyBatch(s, c);
        SomeBranch(c.failed);
        NothingMissing(s);
      }
    case _ =>
  }

  lemma StartTidy(s: State)
    requires !s.running && s.held.Keys <= s.requested
    ensures Tidy(Start(s))
  {
    assert forall b :: b in Missing(s) ==> !Fresh(s, b);
  }

  lemma OkTidy(s: State, b: Branch, rows: seq<Row>)
    requires Inv(s) && Tidy(s)
    ensures Tidy(BranchOk(s, s.requestId, b, rows))
  {
    var t := BranchOk(s, s.requestId, b, rows);
    if Delivers(s, EvOk(s.requestId, b, rows), b) {
      var c := s.batches[s.requestId];
      assert Current(s) && b in c.missing;
      assert t.batches[t.requestId] == c.(open := c.open - {b});
      assert forall x :: x != b ==> (Fresh(t, x) <==> Fresh(s, x));
    }
  }

  lemma FailedTidy(s: State, n: nat, b: Branch)
    requires Inv(s) && Tidy(s)
    ensures Tidy(BranchFailed(s, n, b))
  {
    var t := BranchFailed(s, n, b);
    assert forall x :: Fresh(t, x) <==> Fresh(s, x);
    if n in s.batches && b in s.batches[n].open && n == s.requestId { assert Current(s) && b in s.batches[n].missing; }
  }

  lemma SettledTidy(s: State, n: nat, m: Message)
    requires Inv(s) && Tidy(s)
    ensures Tidy(Settled(s, n, m))
  {
    assert forall x :: Fresh(Settled(s, n, m), x) <==> Fresh(s, x);
  }

  lemma FinallyTidy(s: State, n: nat)
    requires Inv(s) && Tidy(s)
    ensures Tidy(Finally(s, n))
  {
    if n in s.batches && s.batches[n].settled && n == s.requestId {
      StartTidy(s.(batches := s.batches - {n}, running := false, queued := false));
    } else {
      assert forall x :: Fresh(Finally(s, n), x) <==> Fresh(s, x);
    }
  }

  lemma EnsureTidy(s: State, ids: set<Branch>)
    requires Inv(s) && Tidy(s)
    ensures Tidy(EnsureLoaded(s, ids))
  {
    var t := s.(requested := s.requested + ids);
    assert forall x :: Fresh(t, x) <==> Fresh(s, x);
    if !s.running { StartTidy(t); }
  }

  lemma StepTidy(s: State, e: Event)
    requires Inv(s) && Tidy(s) && (e.EvOk? ==> e.no == s.requestId)
    ensures Tidy(Step(s, e))
  {
    match e
    case EvEnsure(ids) => EnsureTidy(s, ids);
    case EvRefresh => StartTidy(Supersede(s).(snap := s.snap.(loaded := false, error := None)));
    case EvTask => if !s.running { StartTidy(s.(invalidateQueued := false)); } else { assert forall x :: Fresh(Task(s), x) <==> Fresh(s, x); }
    case EvOk(n, b, rows) => OkTidy(s, b, rows);
    case EvFailed(n, b) => FailedTidy(s, n, b);
    case EvSettled(n, m) => SettledTidy(s, n, m);
    case EvFinally(n) => FinallyTidy(s, n);
    case EvSubscribe => assert forall x :: Fresh(Step(s, e), x) <==> Fresh(s, x);
    case EvUnsubscribe => assert forall x :: Fresh(Step(s, e), x) <==> Fresh(s, x);
    case _ =>
  }

  /** If no superseded batch's answer ever arrives late, no step silences the store, so it is never stuck with nothing
      loaded and nothing to read. */
  lemma {:induction false} TidyRuns(es: seq<Event>)
    requires CurrentOnly(INIT, es)
    ensures Inv(Run(INIT, es)) && Tidy(Run(INIT, es)) && !Silent(Run(INIT, es))
  {
    if es != [] {
      var init, e := es[..|es| - 1], es[|es| - 1];
      assert forall i :: 0 <= i < |init| ==> init[..i] == es[..i] && init[i] == es[i];
      TidyRuns(init);
      var s := Run(INIT, init);
      StepInv(s, e);
      StepTidy(s, e);
      TidyNeverSilences(s, e);
      SilencesExactly(s, e);
    }
  }

  // ------------------------------------------------------- the runs that go wrong

  lemma {:induction false} RunConcat(s: State, a: seq<Event>, b: seq<Event>)
    ensures Run(s, a + b) == Run(Run(s, a), b)
  {
    if b == [] {
      assert a + b == a;
    } else {
      assert (a + b)[..|a + b| - 1] == a + b[..|b| - 1];
      RunConcat(s, a, b[..|b| - 1]);
    }
  }

  lemma RunCons(s: State, e: Event, es: seq<Event>)
    ensures Run(s, [e] + es) == Run(Step(s, e), es)
  {
    RunConcat(s, [e], es);
    assert [e][..0] == [];
  }

  /** A running state with one batch reading just `b`, and the state after it is invalidated with nobody
      subscribed when the refetch fires. */
  lemma FirstRead(b: Branch) returns (s: State)
    ensures s == Step(INIT, EvEnsure({b}))
    ensures s.running && !s.queued && s.requestId == 1 && s.requested == {b} && s.dirty == {} && s.held == map[]
    ensures s.batches == map[1 := Batch({b}, {b}, {}, false)] && s.snap.loading && !s.snap.loaded && !s.invalidateQueued && s.subscribers == 0
  {
    var t := INIT.(requested := INIT.requested + {b});
    assert t.requested == {b};
    assert b in {b} && b !in INIT.held;
    assert Missing(t) == {b};
    s := Step(INIT, EvEnsure({b}));
  }

  /** A late answer can swallow an invalidation: the branch is clean again although nobody re-read it, so
      the store stays silent, its spinner on and its rows unpublished. */
  lemma SilenceHappens(b: Branch, rows: seq<Row>)
    ensures var s := Run(INIT, [EvEnsure({b}), EvInvalidate, EvTask, EvOk(1, b, rows)]);
            Silent(s) && s.snap.loading && s.snap.rows == map[] && EnsureLoaded(s, {b}) == s
  {
    var s1 := FirstRead(b);
    var s2 := Step(s1, EvInvalidate);
    var s3 := Step(s2, EvTask);
    var s4 := Step(s3, EvOk(1, b, rows));
    RunCons(INIT, EvEnsure({b}), [EvInvalidate, EvTask, EvOk(1, b, rows)]);
    RunCons(s1, EvInvalidate, [EvTask, EvOk(1, b, rows)]);
    RunCons(s2, EvTask, [EvOk(1, b, rows)]);
    RunCons(s3, EvOk(1, b, rows), []);
    assert [EvEnsure({b})] + [EvInvalidate, EvTask, EvOk(1, b, rows)] == [EvEnsure({b}), EvInvalidate, EvTask, EvOk(1, b, rows)];
    assert [EvInvalidate] + [EvTask, EvOk(1, b, rows)] == [EvInvalidate, EvTask, EvOk(1, b, rows)];
    assert [EvTask] + [EvOk(1, b, rows)] == [EvTask, EvOk(1, b, rows)];
    assert [EvOk(1, b, rows)] + [] == [EvOk(1, b, rows)];
    assert s2.dirty == {b} && s3.batches == s1.batches && s4.dirty == {} && s4.held == map[b := rows];
    assert Missing(s4) == {};
    RunInv(INIT, [EvEnsure({b}), EvInvalidate, EvTask, EvOk(1, b, rows)]);
    SilentIsStuck(s4, EvEnsure({b}));
  }

  /** After a reset with a read of `b` in flight: nothing is held or asked for, and the read is still open. */
  lemma ResetInFlight(s: State, b: Branch) returns (t: State)
    requires s == Step(INIT, EvEnsure({b}))
    ensures t == Step(s, EvReset)
    ensures !t.running && !t.queued && t.requestId == 2 && t.requested == {} && t.dirty == {} && t.held == map[]
    ensures t.batches == map[1 := Batch({b}, {b}, {}, false)] && t.snap == Snapshot(map[], false, None, false, 1)
  {
    var f := FirstRead(b);
    t := Step(s, EvReset);
  }

  lemma NextSession(s: State, a: Branch, b: Branch) returns (t: State)
    requires !s.running && !s.queued && s.requestId == 2 && s.requested == {} && s.dirty == {} && s.held == map[]
    requires s.batches == map[1 := Batch({a}, {a}, {}, false)] && s.snap == Snapshot(map[], false, None, false, 1)
    ensures t == Step(s, EvEnsure({b}))
    ensures t.running && !t.queued && t.requestId == 3 && t.requested == {b} && t.dirty == {} && t.held == map[]
    ensures t.batches == map[1 := Batch({a}, {a}, {}, false), 3 := Batch({b}, {b}, {}, false)]
    ensures t.snap == Snapshot(map[], true, None, false, 1)
  {
    var u := s.(requested := s.requested + {b});
    assert u.requested == {b} && b in {b} && b !in s.held;
    assert Missing(u) == {b};
    t := Step(s, EvEnsure({b}));
    assert t.batches == s.batches[3 := Batch({b}, {b}, {}, false)];
  }

  lemma BothAnswered(s: State, a: Branch, b: Branch, theirs: seq<Row>, own: seq<Row>)
    requires a != b && s.requestId == 3 && s.requested == {b} && s.dirty == {} && s.held == map[]
    requires s.batches == map[1 := Batch({a}, {a}, {}, false), 3 := Batch({b}, {b}, {}, false)]
    ensures var t := Step(Step(Step(s, EvOk(1, a, theirs)), EvOk(3, b, own)), EvSettled(3, 0));
            && t.requested == {b} && t.snap == Snapshot(map[a := theirs, b := own], false, None, true, s.snap.generation)
  {
    var u := Step(s, EvOk(1, a, theirs));
    assert u.held == map[a := theirs] && u.batches[1] == Batch({a}, {}, {}, false) && u.batches[3] == Batch({b}, {b}, {}, false);
    var v := Step(u, EvOk(3, b, own));
    assert v.held == map[a := theirs, b := own] && v.batches[3] == Batch({b}, {}, {}, false);
  }

  /** A read in flight across a reset files the previous user's rows in the new session, and the next batch publishes
      them: the new user asked for `b` only, and `a`'s rows of the session before are shown as loaded. */
  lemma ResetLeaks(a: Branch, b: Branch, theirs: seq<Row>, own: seq<Row>)
    requires a != b
    ensures var es := [EvEnsure({a}), EvReset, EvEnsure({b}), EvOk(1, a, theirs), EvOk(3, b, own), EvSettled(3, 0)];
            var s := Run(INIT, es);
            s.requested == {b} && s.snap == Snapshot(map[a := theirs, b := own], false, None, true, 1)
  {
    var e1, e2, e3, e4, e5 := EvEnsure({a}), EvReset, EvEnsure({b}), EvOk(1, a, theirs), EvOk(3, b, own);
    var s1 := FirstRead(a);
    var s2 := ResetInFlight(s1, a);
    var s3 := NextSession(s2, a, b);
    RunFive(e1, e2, e3, e4, e5);
    RunSnoc([e1, e2, e3, e4, e5], EvSettled(3, 0));
    SixInARow(e1, e2, e3, e4, e5, EvSettled(3, 0));
    BothAnswered(s3, a, b, theirs, own);
  }

  lemma SixInARow<T>(a: T, b: T, c: T, d: T, e: T, f: T)
    ensures [a, b, c, d, e] + [f] == [a, b, c, d, e, f]
  {
  }

  /** And if the new user asks for the branch itself, the earlier session's rows pass for its answer: nothing is read, and
      the store is silent. */
  lemma ResetThenSilent(b: Branch, rows: seq<Row>)
    ensures var s := Run(INIT, [EvEnsure({b}), EvReset, EvOk(1, b, rows)]);
            s.held == map[b := rows] && Silent(EnsureLoaded(s, {b}))
  {
    var e1, e2, e3 := EvEnsure({b}), EvReset, EvOk(1, b, rows);
    var s1 := FirstRead(b);
    var s2 := ResetInFlight(s1, b);
    RunSnoc([], e1);
    RunSnoc([] + [e1], e2);
    RunSnoc([] + [e1] + [e2], e3);
    assert [] + [e1] + [e2] + [e3] == [e1, e2, e3];
    LateInto(s2, b, rows);
  }

  lemma LateInto(s: State, b: Branch, rows: seq<Row>)
    requires !s.running && !s.queued && s.requested == {} && s.dirty == {} && s.held == map[] && !s.snap.loaded
    requires s.batches == map[1 := Batch({b}, {b}, {}, false)]
    ensures var t := Step(s, EvOk(1, b, rows)); t.held == map[b := rows] && Silent(EnsureLoaded(t, {b}))
  {
    var t := Step(s, EvOk(1, b, rows));
    assert t.held == map[b := rows] && t.dirty == {} && t.requested == {};
    var u := t.(requested := t.requested + {b});
    assert u.requested == {b} && b in u.requested;
    assert Missing(u) == {};
    StartSilent(u);
  }

  /** A read superseded by a retry is answered after the retry's own read and before that settles: the older rows are
      published, with nothing loading, nothing marked for re-reading and no error. */
  lemma LateAnswerIsPublished(b: Branch, newer: seq<Row>, older: seq<Row>)
    ensures var s := Run(INIT, [EvEnsure({b}), EvRefresh, EvOk(3, b, newer), EvOk(1, b, older), EvSettled(3, 0)]);
            && s.snap.rows == map[b := older] && s.snap.loaded && !s.snap.loading && s.snap.error == None
            && s.dirty == {} && s.answers == map[(3, b) := newer, (1, b) := older]
  {
    var s1 := FirstRead(b);
    var s2 := Retried(s1, b);
    RunFive(EvEnsure({b}), EvRefresh, EvOk(3, b, newer), EvOk(1, b, older), EvSettled(3, 0));
    LateAnswers(s2, b, newer, older);
  }

  lemma FiveInARow<T>(a: T, b: T, c: T, d: T, e: T)
    ensures [] + [a] + [b] + [c] + [d] + [e] == [a, b, c, d, e]
  {
  }

  lemma RunFive(e1: Event, e2: Event, e3: Event, e4: Event, e5: Event)
    ensures Run(INIT, [e1, e2, e3, e4, e5]) == Step(Step(Step(Step(Step(INIT, e1), e2), e3), e4), e5)
  {
    FiveInARow(e1, e2, e3, e4, e5);
    RunSnoc([], e1);
    RunSnoc([] + [e1], e2);
    RunSnoc([] + [e1] + [e2], e3);
    RunSnoc([] + [e1] + [e2] + [e3], e4);
    RunSnoc([] + [e1] + [e2] + [e3] + [e4], e5);
  }

  /** The state after the retry: batch 1 is superseded but still open, batch 3 is current. */
  lemma Retried(s: State, b: Branch) returns (t: State)
    requires s == Step(INIT, EvEnsure({b}))
    ensures t == Step(s, EvRefresh)
    ensures t.running && !t.queued && t.requestId == 3 && t.requested == {b} && t.dirty == {b} && t.held == map[] && t.answers == map[]
    ensures t.batches == map[1 := Batch({b}, {b}, {}, false), 3 := Batch({b}, {b}, {}, false)]
  {
    var f := FirstRead(b);
    var u := Supersede(s).(snap := s.snap.(loaded := false, error := None));
    assert u.dirty == {b} && Missing(u) == {b} && !u.running && u.requestId == 2;
    t := Step(s, EvRefresh);
    assert t.batches == u.batches[3 := Batch({b}, {b}, {}, false)];
  }

  lemma LateAnswers(s: State, b: Branch, newer: seq<Row>, older: seq<Row>)
    requires s.requestId == 3 && s.dirty == {b} && s.held == map[] && s.answers == map[]
    requires s.batches == map[1 := Batch({b}, {b}, {}, false), 3 := Batch({b}, {b}, {}, false)]
    ensures var t := Step(Step(Step(s, EvOk(3, b, newer)), EvOk(1, b, older)), EvSettled(3, 0));
            && t.snap.rows == map[b := older] && t.snap.loaded && !t.snap.loading && t.snap.error == None
            && t.dirty == {} && t.answers == map[(3, b) := newer, (1, b) := older]
  {
    var u := Step(s, EvOk(3, b, newer));
    assert u.held == map[b := newer] && u.dirty == {} && u.batches[3] == Batch({b}, {}, {}, false) && u.batches[1] == Batch({b}, {b}, {}, false);
    var v := Step(u, EvOk(1, b, older));
    assert v.held == map[b := older] && v.dirty == {} && v.batches[3] == Batch({b}, {}, {}, false);
  }

  lemma RunSnoc(es: seq<Event>, e: Event)
    ensures Run(INIT, es + [e]) == Step(Run(INIT, es), e)
  {
    assert (es + [e])[..|es + [e]| - 1] == es;
  }

  // ------------------------------------------------------------ the mutable store

  class BranchStockStore {
    var snapshot: Snapshot
    var rowsByBranch: map<Branch, seq<Row>>
    var requested: set<Branch>
    var dirty: set<Branch>
    var requestId: nat
    var running: bool
    var queued: bool
    var subscriberCount: nat
    var invalidateQueued: bool
    ghost var batches: map<nat, Batch>
    ghost var answers: map<(nat, Branch), seq<Row>>
    ghost var source: map<Branch, nat>

    ghost function Value(): State
      reads this
    {
      State(snapshot, rowsByBranch, requested, dirty, requestId, running, queued, subscriberCount, invalidateQueued, batches, answers, source)
    }

    constructor ()
      ensures Value() == INIT && Inv(Value())
    {
      snapshot, rowsByBranch, requested, dirty := Snapshot(map[], false, None, false, 0), map[], {}, {};
      requestId, running, queued, subscriberCount, invalidateQueued := 0, false, false, 0, false;
      batches, answers, source := map[], map[], map[];
    }

    method Begin()
      modifies this
      ensures Value() == Start(old(Value()))
    {
      if running {
        queued := true;
        return;
      }
      var missing := set b | b in requested && (b in dirty || b !in rowsByBranch);
      assert missing == Missing(Value());
      if missing == {} { return; }
      running := true;
      requestId := requestId + 1;
      batches := batches[requestId := Batch(missing, missing, {}, false)];
      snapshot := snapshot.(loading := true);
    }

    method Discard()
      modifies this`requestId, this`running, this`queued, this`dirty
      ensures Value() == Supersede(old(Value()))
    {
      requestId := requestId + 1;
      running := false;
      queued := false;
      dirty := dirty + requested;
    }

    /** A blank or `ALL` id is `None` and is skipped. */
    method OnEnsureLoaded(branchIds: seq<Option<Branch>>)
      requires Inv(Value())
      modifies this
      ensures Value() == EnsureLoaded(old(Value()), set o | o in branchIds && o.Some? :: o.value) && Inv(Value())
    {
      ghost var ids := set o | o in branchIds && o.Some? :: o.value;
      EnsureInv(Value(), ids);
      var added := Register(branchIds);
      if !added && snapshot.loaded { return; }
      Begin();
    }

    method Register(branchIds: seq<Option<Branch>>) returns (added: bool)
      modifies this`requested
      ensures requested == old(requested) + set o | o in branchIds && o.Some? :: o.value
      ensures added <==> NeedsRead(set o | o in branchIds && o.Some? :: o.value, dirty, rowsByBranch)
    {
      added := false;
      for i := 0 to |branchIds|
        invariant requested == old(requested) + set o | o in branchIds[..i] && o.Some? :: o.value
        invariant added <==> NeedsRead(set o | o in branchIds[..i] && o.Some? :: o.value, dirty, rowsByBranch)
      {
        var id := branchIds[i];
        assert branchIds[..i + 1] == branchIds[..i] + [id];
        ghost var before := set o | o in branchIds[..i] && o.Some? :: o.value;
        ghost var after := set o | o in branchIds[..i + 1] && o.Some? :: o.value;
        if id.None? {
          assert after == before;
          continue;
        }
        assert after == before + {id.value};
        NeedsReadOneMore(before, id.value, dirty, rowsByBranch);
        requested := requested + {id.value};
        if id.value in dirty || id.value !in rowsByBranch { added := true; }
      }
      assert branchIds[..|branchIds|] == branchIds;
    }

    method OnRefresh()
      requires Inv(Value())
      modifies this
      ensures Value() == Refresh(old(Value())) && Inv(Value())
    {
      RefreshInv(Value());
      Discard();
      snapshot := snapshot.(loaded := false, error := None);
      Begin();
    }

    method OnInvalidate()
      requires Inv(Value())
      modifies this
      ensures Value() == Invalidate(old(Value())) && Inv(Value())
    {
      RefreshInv(Value());
      Discard();
      snapshot := snapshot.(loaded := false);
      if invalidateQueued { return; }
      invalidateQueued := true;
    }

    method OnTask()
      requires Inv(Value()) && invalidateQueued
      modifies this
      ensures Value() == Task(old(Value())) && Inv(Value())
    {
      TaskInv(Value());
      invalidateQueued := false;
      if subscriberCount > 0 && requested != {} { Begin(); }
    }

    method OnReset()
      requires Inv(Value())
      modifies this
      ensures Value() == Reset(old(Value())) && Inv(Value())
    {
      SupersedeInv(Value(), None, false);
      Discard();
      rowsByBranch, requested, dirty := map[], {}, {};
      snapshot := Snapshot(map[], false, None, false, snapshot.generation + 1);
    }

    method OnBranchOk(n: nat, b: Branch, rows: seq<Row>)
      requires Inv(Value()) && n in batches && b in batches[n].open
      modifies this
      ensures Value() == BranchOk(old(Value()), n, b, rows) && Inv(Value())
    {
      OkInv(Value(), n, b, rows);
      rowsByBranch := rowsByBranch[b := rows];
      dirty := dirty - {b};
      batches := batches[n := batches[n].(open := batches[n].open - {b})];
      answers := answers[(n, b) := rows];
      source := source[b := n];
    }

    /** `failures` are the reasons `Promise.allSettled` reports for the batch, in order. */
    method OnSettled(n: nat, failures: seq<Message>)
      requires Inv(Value()) && n in batches && batches[n].open == {} && !batches[n].settled
      requires failures == [] <==> batches[n].failed == {}
      modifies this
      ensures Value() == Settled(old(Value()), n, if failures == [] then 0 else failures[0]) && Inv(Value())
    {
      SettledInv(Value(), n, if failures == [] then 0 else failures[0]);
      batches := batches[n := batches[n].(settled := true)];
      if n != requestId { return; }
      snapshot := Snapshot(rowsByBranch, false, if failures == [] then None else Some(failures[0]), failures == [], snapshot.generation);
    }

    method OnFinally(n: nat)
      requires Inv(Value()) && n in batches && batches[n].settled
      modifies this
      ensures Value() == Finally(old(Value()), n) && Inv(Value())
    {
      FinallyInv(Value(), n);
      batches := batches - {n};
      if n != requestId { return; }
      running := false;
      if queued {
        queued := false;
        Begin();
      }
    }
  }
}
