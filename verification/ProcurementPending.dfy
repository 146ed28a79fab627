/** The scoped procurement read with its queue and coalesced refetch (client/src/services/procurementPendingStore.ts). */
module ProcurementPending {
  import opened Collections

  type Payload = int
  type Message = int

  /** A branch and fiscal-year view; `dated` says whether it carries both fiscal-year bounds. Only equality
      matters otherwise, and two views with the same key are the same view. */
  datatype Scope = NoScope | Scope(view: int, dated: bool)

  /** `scopeKey` is `NoScope` for the empty key of a fresh or reset store. */
  datatype Snapshot = Snapshot(payload: Option<Payload>, loading: bool, error: Option<Message>, loaded: bool, scopeKey: Scope)

  /** How far a request's promise chain has got. */
  datatype Phase = Waiting | Settling

  datatype Request = Request(scope: Scope, phase: Phase)

  datatype Answer = Answer(scope: Scope, payload: Payload)

  datatype State = State(scope: Scope, snap: Snapshot, subscribers: nat, requestId: nat, running: bool, queued: bool,
                         invalidateQueued: bool, requests: map<nat, Request>, answers: map<nat, Answer>, source: nat)

  function Blank(k: Scope): Snapshot { Snapshot(None, false, None, false, k) }

  const INIT := State(NoScope, Blank(NoScope), 0, 0, false, false, false, map[], map[], 0)

  predicate HasScope(s: State) { s.scope.Scope? && s.scope.dated }

  function Start(s: State): State {
    if !HasScope(s) then s
    else if s.running then s.(queued := true)
    else
      var n := s.requestId + 1;
      s.(running := true, requestId := n, requests := s.requests[n := Request(s.scope, Waiting)],
         snap := s.snap.(scopeKey := s.scope, loading := true, error := None))
  }

  function Supersede(s: State): State {
    s.(requestId := s.requestId + 1, running := false, queued := false)
  }

  function EnsureLoaded(s: State, k: Scope): State
    requires k.Scope?
  {
    if k == s.snap.scopeKey then
      if !HasScope(s) || s.snap.loaded || s.snap.loading then s else Start(s)
    else Start(Supersede(s).(scope := k, snap := Blank(k)))
  }

  function Refresh(s: State): State {
    if !HasScope(s) then s else Start(Supersede(s).(snap := s.snap.(loading := false, error := None)))
  }

  function Invalidate(s: State): State {
    if !HasScope(s) then s
    else Supersede(s).(snap := s.snap.(loaded := false, error := None), invalidateQueued := true)
  }

  /** The coalesced refetch; the subscriber count is read late. */
  function Task(s: State): State {
    if !s.invalidateQueued then s
    else
      var t := s.(invalidateQueued := false);
      if t.subscribers > 0 then Start(t) else t
  }

  function Reset(s: State): State {
    Supersede(s).(scope := NoScope, snap := Blank(NoScope))
  }

  /** The `then` handler. */
  function Arrived(s: State, n: nat, p: Payload): State {
    if n !in s.requests || s.requests[n].phase != Waiting then s
    else
      var r := s.requests[n];
      var t := s.(requests := s.requests[n := Request(r.scope, Settling)]);
      if n != s.requestId then t
      else t.(snap := Snapshot(Some(p), false, None, true, r.scope), answers := s.answers[n := Answer(r.scope, p)], source := n)
  }

  /** The `catch` handler. */
  function Failed(s: State, n: nat, m: Message): State {
    if n !in s.requests || s.requests[n].phase != Waiting then s
    else
      var r := s.requests[n];
      var t := s.(requests := s.requests[n := Request(r.scope, Settling)]);
      if n != s.requestId then t
      else t.(snap := s.snap.(scopeKey := r.scope, loading := false, loaded := false, error := Some(m)))
  }

  /** The `finally` handler, a later microtask than the two above. */
  function Finally(s: State, n: nat): State {
    if n !in s.requests || s.requests[n].phase != Settling then s
    else
      var t := s.(requests := s.requests - {n});
      if n != s.requestId then t
      else
        var u := t.(running := false);
        if u.queued then Start(u.(queued := false)) else u
  }

  datatype Event =
    | EvEnsure(scope: Scope) | EvRefresh | EvInvalidate | EvTask | EvReset | EvSubscribe | EvUnsubscribe
    | EvArrived(no: nat, payload: Payload) | EvFailed(no: nat, message: Message) | EvFinally(no: nat)

  function Step(s: State, e: Event): State {
    match e
    case EvEnsure(k) => if k.Scope? then EnsureLoaded(s, k) else s
    case EvRefresh => Refresh(s)
    case EvInvalidate => Invalidate(s)
    case EvTask => Task(s)
    case EvReset => Reset(s)
    case EvSubscribe => s.(subscribers := s.subscribers + 1)
    case EvUnsubscribe => s.(subscribers := if s.subscribers == 0 then 0 else s.subscribers - 1)
    case EvArrived(n, p) => Arrived(s, n, p)
    case EvFailed(n, m) => Failed(s, n, m)
    case EvFinally(n) => Finally(s, n)
  }

  function Run(s: State, es: seq<Event>): State {
    if es == [] then s else Step(Run(s, es[..|es| - 1]), es[|es| - 1])
  }

  // ---------------------------------------------------------------- invariants

  ghost predicate Inv(s: State) {
    && (forall n :: n in s.requests ==> 1 <= n <= s.requestId)
    && (forall n :: n in s.answers ==> n <= s.requestId && (n in s.requests ==> s.requests[n].phase == Settling))
    && s.source <= s.requestId
    && s.snap.scopeKey == s.scope
    && (s.queued ==> s.running)
    && (s.running <==> s.requestId in s.requests)
    && (s.running ==> s.requests[s.requestId].scope == s.scope && HasScope(s))
    && (s.running ==> (s.requests[s.requestId].phase == Waiting <==> s.snap.loading))
    && (s.snap.payload.Some? ==> s.source in s.answers && s.answers[s.source] == Answer(s.scope, s.snap.payload.value))
    && (s.snap.loaded ==> s.snap.payload.Some?)
    && (s.snap.loading ==> HasScope(s))
  }

  lemma StartInv(s: State)
    requires Inv(s)
    ensures Inv(Start(s))
  {
  }

  /** After superseding, any view without rows and any softened snapshot of the same view is consistent. */
  lemma SupersedeInv(s: State, k: Scope, loading: bool, loaded: bool, queued: bool)
    requires Inv(s)
    ensures Inv(Supersede(s).(scope := k, snap := Blank(k)))
    ensures (loading ==> s.snap.loading) && (loaded ==> s.snap.loaded) ==>
              Inv(Supersede(s).(snap := s.snap.(loading := loading, loaded := loaded, error := None), invalidateQueued := queued))
  {
  }

  lemma EnsureInv(s: State, k: Scope)
    requires Inv(s) && k.Scope?
    ensures Inv(EnsureLoaded(s, k))
  {
    if k == s.snap.scopeKey {
      StartInv(s);
    } else {
      SupersedeInv(s, k, false, false, false);
      StartInv(Supersede(s).(scope := k, snap := Blank(k)));
    }
  }

  lemma RefreshInv(s: State)
    requires Inv(s)
    ensures Inv(Refresh(s))
  {
    var t := Supersede(s).(snap := s.snap.(loading := false, error := None));
    SupersedeInv(s, s.scope, false, s.snap.loaded, s.invalidateQueued);
    assert t == Supersede(s).(snap := s.snap.(loading := false, loaded := s.snap.loaded, error := None), invalidateQueued := s.invalidateQueued);
    StartInv(t);
  }

  lemma InvalidateInv(s: State)
    requires Inv(s)
    ensures Inv(Invalidate(s))
  {
    SupersedeInv(s, s.scope, s.snap.loading, false, true);
    assert s.snap.(loaded := false, error := None) == s.snap.(loading := s.snap.loading, loaded := false, error := None);
  }

  lemma TaskInv(s: State)
    requires Inv(s)
    ensures Inv(Task(s))
  {
    var t := s.(invalidateQueued := false);
    assert Inv(t);
    StartInv(t);
  }

  lemma ArrivedInv(s: State, n: nat, p: Payload)
    requires Inv(s)
    ensures Inv(Arrived(s, n, p))
  {
  }

  lemma FailedInv(s: State, n: nat, m: Message)
    requires Inv(s)
    ensures Inv(Failed(s, n, m))
  {
  }

  lemma FinallyInv(s: State, n: nat)
    requires Inv(s)
    ensures Inv(Finally(s, n))
  {
    if n in s.requests && s.requests[n].phase == Settling && n == s.requestId {
      var u := s.(requests := s.requests - {n}, running := false, queued := false);
      assert Inv(u);
      StartInv(u);
    }
  }

  /** Every step keeps the invariant. */
  lemma StepInv(s: State, e: Event)
    requires Inv(s)
    ensures Inv(Step(s, e))
  {
    match e
    case EvEnsure(k) => if k.Scope? { EnsureInv(s, k); }
    case EvRefresh => RefreshInv(s);
    case EvInvalidate => InvalidateInv(s);
    case EvTask => TaskInv(s);
    case EvReset => SupersedeInv(s, NoScope, false, false, false);
    case EvArrived(n, p) => ArrivedInv(s, n, p);
    case EvFailed(n, m) => FailedInv(s, n, m);
    case EvFinally(n) => FinallyInv(s, n);
    case _ =>
  }

  lemma RunSnoc(s: State, es: seq<Event>, e: Event)
    ensures Run(s, es + [e]) == Step(Run(s, es), e)
    ensures es == [] ==> es + [e] == [e]
    ensures |es| == 1 ==> es + [e] == [es[0], e]
    ensures |es| == 2 ==> es + [e] == [es[0], es[1], e]
  {
    assert (es + [e])[..|es + [e]| - 1] == es;
  }

  lemma {:induction false} RunInv(s: State, es: seq<Event>)
    requires Inv(s)
    ensures Inv(Run(s, es))
  {
    if es != [] {
      RunInv(s, es[..|es| - 1]);
      StepInv(Run(s, es[..|es| - 1]), es[|es| - 1]);
    }
  }

  // -------------------------------------------------------------- main results

  /** In every reachable state the published rows and count are empty or the answer to a request issued for
      exactly the view published, and no late answer or failure of another request can change them. */
  lemma PublishedViewIsAsked(es: seq<Event>)
    ensures var s := Run(INIT, es);
            && s.snap.scopeKey == s.scope
            && (s.snap.payload.Some? ==> exists n :: n in s.answers && s.answers[n] == Answer(s.snap.scopeKey, s.snap.payload.value))
            && (s.snap.loaded ==> s.snap.payload.Some?)
            && (forall n, p :: n in s.requests && Arrived(s, n, p).snap != s.snap ==> n == s.requestId && s.requests[n].scope == s.snap.scopeKey)
            && (forall n, m :: n in s.requests && Failed(s, n, m).snap != s.snap ==> n == s.requestId && s.requests[n].scope == s.snap.scopeKey)
  {
    RunInv(INIT, es);
    var s := Run(INIT, es);
    assert s.snap.payload.Some? ==> s.source in s.answers;
  }

  /** In every reachable state a queued start has a running one to wait for, and running means exactly one
      request, the newest and for the current view, is outstanding and not superseded. */
  lemma RunningMeansOutstanding(es: seq<Event>)
    ensures var s := Run(INIT, es);
            && (s.queued ==> s.running)
            && (s.running <==> s.requestId in s.requests)
            && (s.running ==> s.requests[s.requestId].scope == s.scope && HasScope(s))
            && (s.running ==> (s.snap.loading <==> s.requests[s.requestId].phase == Waiting))
  {
    RunInv(INIT, es);
  }

  /** Loading, with nothing outstanding and no refetch pending: `ensureLoaded` for this view refuses to start. */
  predicate Wedged(s: State) { s.snap.loading && !s.running && !s.invalidateQueued }

  /** A step wedges the store exactly when it is the coalesced refetch firing without a subscriber while an
      invalidated request has left `loading` set. */
  lemma WedgesExactly(s: State, e: Event)
    requires Inv(s) && !Wedged(s)
    ensures Wedged(Step(s, e)) <==> Wedges(s, e)
  {
  }

  /** The step that wedges: the coalesced refetch fires unheard while an invalidated request has left `loading` set. */
  predicate Wedges(s: State, e: Event) {
    e.EvTask? && s.invalidateQueued && s.subscribers == 0 && s.snap.loading && !s.running
  }

  /** At no moment of the run is the store wedged. */
  predicate NeverWedged(es: seq<Event>) {
    !Wedged(Run(INIT, es)) && (es != [] ==> NeverWedged(es[..|es| - 1]))
  }

  predicate NothingWedges(es: seq<Event>) {
    es != [] ==> !Wedges(Run(INIT, es[..|es| - 1]), es[|es| - 1]) && NothingWedges(es[..|es| - 1])
  }

  /** A run is never wedged, so that `loading` always means an outstanding request or a pending refetch, if and only if
      no refetch of it fires unheard with `loading` left set. */
  lemma {:induction false} NeverWedgedExactly(es: seq<Event>)
    ensures NeverWedged(es) <==> NothingWedges(es)
  {
    if es != [] {
      var init := es[..|es| - 1];
      NeverWedgedExactly(init);
      RunInv(INIT, init);
      if !Wedged(Run(INIT, init)) { WedgesExactly(Run(INIT, init), es[|es| - 1]); }
    }
  }

  ghost predicate TasksHeard(s: State, es: seq<Event>) {
    forall i :: 0 <= i < |es| && es[i].EvTask? && Run(s, es[..i]).invalidateQueued ==> Run(s, es[..i]).subscribers > 0
  }

  /** If a subscriber is present whenever a coalesced refetch fires, no reachable state is wedged: `loading`
      always means an outstanding request or a pending refetch. */
  lemma {:induction false} NeverWedgedWhenHeard(es: seq<Event>)
    requires TasksHeard(INIT, es)
    ensures !Wedged(Run(INIT, es))
  {
    if es != [] {
      var init := es[..|es| - 1];
      assert forall i :: 0 <= i < |init| ==> init[..i] == es[..i] && init[i] == es[i];
      NeverWedgedWhenHeard(init);
      RunInv(INIT, init);
      WedgesExactly(Run(INIT, init), es[|es| - 1]);
    }
  }

  /** A wedged store ignores every further demand for its view, and every late answer; what frees it is
      exactly a retry, another view, a reset, or an invalidation. */
  lemma WedgedIsStuck(s: State, e: Event)
    requires Inv(s) && Wedged(s)
    ensures Wedged(Step(s, e)) <==> !(e.EvRefresh? || e.EvReset? || e.EvInvalidate? || (e.EvEnsure? && e.scope.Scope? && e.scope != s.scope))
    ensures Step(s, EvEnsure(s.scope)) == s
  {
  }

  /** The bad run exists: load, lose the only subscriber, invalidate, let the refetch fire, come back. */
  lemma WedgeHappens(k: Scope)
    requires k.Scope? && k.dated
    ensures var s := Run(INIT, [EvEnsure(k), EvInvalidate, EvTask]);
            Wedged(s) && Step(s, EvEnsure(k)) == s
  {
    var e, i, t := EvEnsure(k), EvInvalidate, EvTask;
    RunSnoc(INIT, [], e);
    RunSnoc(INIT, [e], i);
    RunSnoc(INIT, [e, i], t);
  }

  /** A failed or invalidated read keeps the rows of its view; only another view or a reset drops them. */
  lemma RowsKept(s: State, e: Event)
    requires Inv(s)
    ensures s.snap.payload.Some? && Step(s, e).snap.payload.None? <==>
            s.snap.payload.Some? && (e.EvReset? || (e.EvEnsure? && e.scope.Scope? && e.scope != s.scope))
  {
  }

  // ------------------------------------------- the snapshot, from the history alone

  /** The request is outstanding, unanswered and not superseded. */
  predicate Awaited(s: State, n: nat) { n == s.requestId && n in s.requests && s.requests[n].phase == Waiting }

  predicate Answers(s: State, e: Event) { e.EvArrived? && Awaited(s, e.no) }

  predicate Fails(s: State, e: Event) { e.EvFailed? && Awaited(s, e.no) }

  /** The event leaves the view. */
  predicate Leaves(s: State, e: Event) { e.EvReset? || (e.EvEnsure? && e.scope.Scope? && e.scope != s.scope) }

  /** The view is demanded while nothing of it is loaded or loading. */
  predicate Wanted(s: State, e: Event) { e.EvEnsure? && e.scope == s.scope && HasScope(s) && !s.snap.loaded && !s.snap.loading }

  /** The coalesced refetch fires with a subscriber to hear it. */
  predicate Refetches(s: State, e: Event) { e.EvTask? && s.invalidateQueued && s.subscribers > 0 && HasScope(s) }

  /** The event sends a request. */
  predicate Starts(s: State, e: Event) {
    || (e.EvEnsure? && Leaves(s, e) && e.scope.dated)
    || (e.EvRefresh? && HasScope(s))
    || (!s.running && (Wanted(s, e) || Refetches(s, e)))
    || (e.EvFinally? && s.queued && e.no == s.requestId && e.no in s.requests && s.requests[e.no].phase == Settling)
  }

  /** The event puts a request off until the one that is settling has settled. */
  predicate Defers(s: State, e: Event) { s.running && (Wanted(s, e) || Refetches(s, e)) }

  /** Which steps send a request, and for which view: no other step does. */
  lemma StartsExactly(s: State, e: Event)
    requires Inv(s)
    ensures var t := Step(s, e);
            && (Starts(s, e) <==> s.requestId < t.requestId && t.requestId in t.requests)
            && (Starts(s, e) ==> t.requests[t.requestId] == Request(t.scope, Waiting))
  {
  }

  lemma DefersExactly(s: State, e: Event)
    requires Inv(s)
    ensures Defers(s, e) ==> Step(s, e).queued
    ensures Step(s, e).queued && !s.queued ==> Defers(s, e)
    ensures Starts(s, e) ==> !Step(s, e).queued
  {
  }

  /** The answer of the last request answered for the view, as long as the view is not left. */
  function LastAnswer(es: seq<Event>): Option<Answer> {
    if es == [] then None
    else
      var s, e := Run(INIT, es[..|es| - 1]), es[|es| - 1];
      if Answers(s, e) then Some(Answer(s.requests[e.no].scope, e.payload))
      else if Leaves(s, e) then None
      else LastAnswer(es[..|es| - 1])
  }

  /** No failure, invalidation or change of view since the last answer. */
  predicate UpToDate(es: seq<Event>) {
    es != [] &&
    var s, e := Run(INIT, es[..|es| - 1]), es[|es| - 1];
    Answers(s, e) || (!Fails(s, e) && !Leaves(s, e) && !(e.EvInvalidate? && HasScope(s)) && UpToDate(es[..|es| - 1]))
  }

  /** The message of the last failure, until a request is sent or answered, or the view is left or invalidated. */
  function LastFailure(es: seq<Event>): Option<Message> {
    if es == [] then None
    else
      var s, e := Run(INIT, es[..|es| - 1]), es[|es| - 1];
      if Fails(s, e) then Some(e.message)
      else if Answers(s, e) || Leaves(s, e) || Starts(s, e) || (e.EvInvalidate? && HasScope(s)) then None
      else LastFailure(es[..|es| - 1])
  }

  /** A request has been sent and, since, neither answered nor failed, and the view not left. */
  predicate Unanswered(es: seq<Event>) {
    es != [] &&
    var s, e := Run(INIT, es[..|es| - 1]), es[|es| - 1];
    Starts(s, e) || (!Answers(s, e) && !Fails(s, e) && !Leaves(s, e) && Unanswered(es[..|es| - 1]))
  }

  lemma StepShown(s: State, e: Event)
    requires Inv(s)
    ensures var t := Step(s, e).snap;
            && t.payload == (if Answers(s, e) then Some(e.payload) else if Leaves(s, e) then None else s.snap.payload)
  {
  }

  lemma DemandLoaded(s: State, e: Event)
    requires Inv(s) && (e.EvEnsure? || e.EvRefresh? || e.EvReset? || e.EvTask? || e.EvFinally?)
    ensures Step(s, e).snap.loaded <==> !Leaves(s, e) && s.snap.loaded
  {
  }

  lemma StepLoaded(s: State, e: Event)
    requires Inv(s)
    ensures Step(s, e).snap.loaded <==>
            Answers(s, e) || (!Fails(s, e) && !Leaves(s, e) && !(e.EvInvalidate? && HasScope(s)) && s.snap.loaded)
  {
    if e.EvEnsure? || e.EvRefresh? || e.EvReset? || e.EvTask? || e.EvFinally? { DemandLoaded(s, e); }
  }

  lemma StepMessage(s: State, e: Event)
    requires Inv(s)
    ensures var t := Step(s, e).snap;
            && t.error == (if Fails(s, e) then Some(e.message)
                           else if Answers(s, e) || Leaves(s, e) || Starts(s, e) || (e.EvInvalidate? && HasScope(s)) then None
                           else s.snap.error)
  {
  }

  lemma DemandLoading(s: State, e: Event)
    requires Inv(s) && (e.EvEnsure? || e.EvRefresh? || e.EvReset?)
    ensures Step(s, e).snap.loading <==> Starts(s, e) || (!Leaves(s, e) && s.snap.loading)
  {
  }

  lemma TaskLoading(s: State, e: Event)
    requires Inv(s) && (e.EvTask? || e.EvFinally?)
    ensures Step(s, e).snap.loading <==> Starts(s, e) || s.snap.loading
  {
  }

  lemma StepLoading(s: State, e: Event)
    requires Inv(s)
    ensures Step(s, e).snap.loading <==> Starts(s, e) || (!Answers(s, e) && !Fails(s, e) && !Leaves(s, e) && s.snap.loading)
  {
    if e.EvEnsure? || e.EvRefresh? || e.EvReset? {
      DemandLoading(s, e);
    } else if e.EvTask? || e.EvFinally? {
      TaskLoading(s, e);
    }
  }

  lemma StepScope(s: State, e: Event)
    requires Inv(s)
    ensures Answers(s, e) ==> s.requests[e.no].scope == s.scope
    ensures !Leaves(s, e) ==> Step(s, e).scope == s.scope
  {
  }

  /** In every run the snapshot is what the history says: the rows of the last request answered for the view, loaded while
      they are up to date, the last failure's message, and loading while a request is unanswered. */
  lemma {:induction false} SnapshotIsHistory(es: seq<Event>)
    ensures var s := Run(INIT, es);
            && s.snap.payload == (if LastAnswer(es).Some? then Some(LastAnswer(es).value.payload) else None)
            && (LastAnswer(es).Some? ==> LastAnswer(es).value.scope == s.snap.scopeKey)
            && (s.snap.loaded <==> UpToDate(es))
            && s.snap.error == LastFailure(es)
            && (s.snap.loading <==> Unanswered(es))
  {
    RunInv(INIT, es);
    if es != [] {
      var init, e := es[..|es| - 1], es[|es| - 1];
      SnapshotIsHistory(init);
      RunInv(INIT, init);
      StepShown(Run(INIT, init), e);
      StepLoaded(Run(INIT, init), e);
      StepMessage(Run(INIT, init), e);
      StepLoading(Run(INIT, init), e);
      StepScope(Run(INIT, init), e);
    }
  }

  /** How many are subscribed after a run; an unsubscription follows its subscription, so none comes at zero. */
  function Hosts(es: seq<Event>): nat {
    if es == [] then 0
    else
      var before := Hosts(es[..|es| - 1]);
      match es[|es| - 1]
      case EvSubscribe => before + 1
      case EvUnsubscribe => if before == 0 then 0 else before - 1
      case _ => before
  }

  /** An invalidation has come since the last time a refetch fired; not even a reset takes it back. */
  predicate RefetchDue(es: seq<Event>) {
    es != [] &&
    var s, e := Run(INIT, es[..|es| - 1]), es[|es| - 1];
    (e.EvInvalidate? && HasScope(s)) || (!e.EvTask? && RefetchDue(es[..|es| - 1]))
  }

  lemma StartKeepsFlags(s: State)
    ensures Start(s).subscribers == s.subscribers && Start(s).invalidateQueued == s.invalidateQueued
  {
  }

  lemma StepFlags(s: State, e: Event)
    ensures Step(s, e).subscribers == match e
                                      case EvSubscribe => s.subscribers + 1
                                      case EvUnsubscribe => if s.subscribers == 0 then 0 else s.subscribers - 1
                                      case _ => s.subscribers
    ensures Step(s, e).invalidateQueued <==> (e.EvInvalidate? && HasScope(s)) || (!e.EvTask? && s.invalidateQueued)
  {
  }

  lemma {:induction false} FlagsAreHistory(es: seq<Event>)
    ensures Run(INIT, es).subscribers == Hosts(es)
    ensures Run(INIT, es).invalidateQueued <==> RefetchDue(es)
  {
    if es != [] {
      FlagsAreHistory(es[..|es| - 1]);
      StepFlags(Run(INIT, es[..|es| - 1]), es[|es| - 1]);
    }
  }

  lemma AnswerShows(s: State, n: nat, p: Payload, m: Message)
    requires Inv(s) && Awaited(s, n)
    ensures Step(s, EvArrived(n, p)).snap == Snapshot(Some(p), false, None, true, s.requests[n].scope)
    ensures Step(s, EvFailed(n, m)).snap == Snapshot(s.snap.payload, false, Some(m), false, s.requests[n].scope)
    ensures s.requests[n].scope == s.scope
  {
  }

  /** In every run, answering the awaited request shows its answer, loaded, under the view that was asked for; and a
      failure of it shows the message over the rows there were. */
  lemma AwaitedIsPublished(es: seq<Event>, n: nat, p: Payload, m: Message)
    requires Awaited(Run(INIT, es), n)
    ensures var s := Run(INIT, es);
            && Run(INIT, es + [EvArrived(n, p)]).snap == Snapshot(Some(p), false, None, true, s.requests[n].scope)
            && Run(INIT, es + [EvFailed(n, m)]).snap == Snapshot(s.snap.payload, false, Some(m), false, s.requests[n].scope)
            && s.requests[n].scope == s.scope
  {
    RunInv(INIT, es);
    AnswerShows(Run(INIT, es), n, p, m);
    RunSnoc(INIT, es, EvArrived(n, p));
    RunSnoc(INIT, es, EvFailed(n, m));
  }

  // ------------------------------------------------------------ the mutable store

  class ProcurementPendingStore {
    var scope: Scope
    var snapshot: Snapshot
    var subscriberCount: nat
    var requestId: nat
    var running: bool
    var queued: bool
    var invalidateQueued: bool
    ghost var requests: map<nat, Request>
    ghost var answers: map<nat, Answer>
    ghost var source: nat

    ghost function Value(): State
      reads this
    {
      State(scope, snapshot, subscriberCount, requestId, running, queued, invalidateQueued, requests, answers, source)
    }

    constructor ()
      ensures Value() == INIT && Inv(Value())
    {
      scope, snapshot := NoScope, Blank(NoScope);
      subscriberCount, requestId, running, queued, invalidateQueued := 0, 0, false, false, false;
      requests, answers, source := map[], map[], 0;
    }

    method Begin()
      modifies this
      ensures Value() == Start(old(Value()))
    {
      if !(scope.Scope? && scope.dated) { return; }
      if running {
        queued := true;
        return;
      }
      running := true;
      requestId := requestId + 1;
      requests := requests[requestId := Request(scope, Waiting)];
      snapshot := snapshot.(scopeKey := scope, loading := true, error := None);
    }

    method Discard()
      modifies this`requestId, this`running, this`queued
      ensures Value() == Supersede(old(Value()))
    {
      requestId := requestId + 1;
      running := false;
      queued := false;
    }

    method OnEnsureLoaded(k: Scope)
      requires Inv(Value()) && k.Scope?
      modifies this
      ensures Value() == EnsureLoaded(old(Value()), k) && Inv(Value())
    {
      StepInv(Value(), EvEnsure(k));
      if k == snapshot.scopeKey {
        if !(scope.Scope? && scope.dated) { return; }
        if snapshot.loaded || snapshot.loading { return; }
        Begin();
        return;
      }
      Discard();
      scope := k;
      snapshot := Blank(k);
      Begin();
    }

    method OnRefresh()
      requires Inv(Value())
      modifies this
      ensures Value() == Refresh(old(Value())) && Inv(Value())
    {
      StepInv(Value(), EvRefresh);
      if !(scope.Scope? && scope.dated) { return; }
      Discard();
      snapshot := snapshot.(loading := false, error := None);
      Begin();
    }

    method OnInvalidate()
      requires Inv(Value())
      modifies this
      ensures Value() == Invalidate(old(Value())) && Inv(Value())
    {
      StepInv(Value(), EvInvalidate);
      if !(scope.Scope? && scope.dated) { return; }
      Discard();
      snapshot := snapshot.(loaded := false, error := None);
      if invalidateQueued { return; }
      invalidateQueued := true;
    }

    method OnTask()
      requires Inv(Value()) && invalidateQueued
      modifies this
      ensures Value() == Task(old(Value())) && Inv(Value())
    {
      StepInv(Value(), EvTask);
      invalidateQueued := false;
      if subscriberCount > 0 { Begin(); }
    }

    method OnReset()
      requires Inv(Value())
      modifies this
      ensures Value() == Reset(old(Value())) && Inv(Value())
    {
      StepInv(Value(), EvReset);
      Discard();
      scope := NoScope;
      snapshot := Blank(NoScope);
    }

    /** `asked` is the scope the request captured. */
    method OnArrived(n: nat, asked: Scope, p: Payload)
      requires Inv(Value()) && n in requests && requests[n] == Request(asked, Waiting)
      modifies this
      ensures Value() == Arrived(old(Value()), n, p) && Inv(Value())
    {
      StepInv(Value(), EvArrived(n, p));
      requests := requests[n := Request(asked, Settling)];
      if n != requestId { return; }
      snapshot := Snapshot(Some(p), false, None, true, asked);
      answers := answers[n := Answer(asked, p)];
      source := n;
    }

    method OnFailed(n: nat, asked: Scope, m: Message)
      requires Inv(Value()) && n in requests && requests[n] == Request(asked, Waiting)
      modifies this
      ensures Value() == Failed(old(Value()), n, m) && Inv(Value())
    {
      StepInv(Value(), EvFailed(n, m));
      requests := requests[n := Request(asked, Settling)];
      if n != requestId { return; }
      snapshot := snapshot.(scopeKey := asked, loading := false, loaded := false, error := Some(m));
    }

    method OnFinally(n: nat)
      requires Inv(Value()) && n in requests && requests[n].phase == Settling
      modifies this
      ensures Value() == Finally(old(Value()), n) && Inv(Value())
    {
      FinallyInv(Value(), n);
      Finish(n);
    }

    method Finish(n: nat)
      requires n in requests && requests[n].phase == Settling
      modifies this
      ensures Value() == Finally(old(Value()), n)
    {
      requests := requests - {n};
      if n != requestId { return; }
      running := false;
      if queued {
        queued := false;
        Begin();
      }
    }
  }
}
