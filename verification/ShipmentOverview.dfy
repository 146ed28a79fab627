/** The scoped shipment snapshot and its late responses (client/src/services/shipmentOverviewStore.ts). */
module ShipmentOverview {
  import opened Collections

  /** A branch scope, a server overview and a failure message: only their equality matters. */
  type Scope = int
  type Overview = int
  type Message = int

  /** `overview` is `None` while the snapshot shows the empty counts. */
  datatype Snapshot = Snapshot(scope: Scope, overview: Option<Overview>, loaded: bool, loading: bool, error: Option<Message>)

  /** An answer that was installed: the scope its request was issued for, and what it brought. */
  datatype Answer = Answer(scope: Scope, overview: Overview)

  /** The closure's variables, the requests in flight, and the history: installed answers and the request
      the shown overview came from (0 before the first). */
  datatype State = State(snap: Snapshot, requestId: nat, inFlight: Option<nat>, subscribers: nat,
                         pending: map<nat, Scope>, answers: map<nat, Answer>, source: nat)

  function Blank(scope: Scope): Snapshot { Snapshot(scope, None, false, false, None) }

  function Init(all: Scope): State { State(Blank(all), 0, None, 0, map[], map[], 0) }

  function Start(s: State): State {
    var n := s.requestId + 1;
    s.(requestId := n, inFlight := Some(n), pending := s.pending[n := s.snap.scope],
       snap := s.snap.(loading := true, error := None))
  }

  function SetScope(s: State, scope: Scope): State {
    if scope == s.snap.scope then s
    else
      var t := s.(requestId := s.requestId + 1, inFlight := None, snap := Blank(scope));
      if t.subscribers > 0 then Start(t) else t
  }

  function EnsureLoaded(s: State): State {
    if s.snap.loaded || s.inFlight.Some? then s else Start(s)
  }

  function Invalidate(s: State): State {
    var t := s.(requestId := s.requestId + 1, inFlight := None, snap := s.snap.(loaded := false));
    if t.subscribers > 0 then Start(t) else t
  }

  /** The continuation of one fetch: a late answer only leaves the set of requests in flight. */
  function Arrived(s: State, n: nat, o: Overview): State {
    if n !in s.pending then s
    else
      var t := s.(pending := s.pending - {n});
      if n != s.requestId then t
      else t.(snap := Snapshot(s.pending[n], Some(o), true, false, None), inFlight := None,
              answers := s.answers[n := Answer(s.pending[n], o)], source := n)
  }

  function Failed(s: State, n: nat, m: Message): State {
    if n !in s.pending then s
    else
      var t := s.(pending := s.pending - {n});
      if n != s.requestId then t
      else t.(snap := s.snap.(loading := false, error := Some(m)), inFlight := None)
  }

  datatype Event =
    | EvScope(scope: Scope) | EvEnsure | EvRefresh | EvInvalidate | EvSubscribe | EvUnsubscribe
    | EvArrived(no: nat, overview: Overview) | EvFailed(no: nat, message: Message)

  function Step(s: State, e: Event): State {
    match e
    case EvScope(k) => SetScope(s, k)
    case EvEnsure => EnsureLoaded(s)
    case EvRefresh => Start(s)
    case EvInvalidate => Invalidate(s)
    case EvSubscribe => s.(subscribers := s.subscribers + 1)
    case EvUnsubscribe => s.(subscribers := if s.subscribers == 0 then 0 else s.subscribers - 1)
    case EvArrived(n, o) => Arrived(s, n, o)
    case EvFailed(n, m) => Failed(s, n, m)
  }

  function Run(s: State, es: seq<Event>): State {
    if es == [] then s else Step(Run(s, es[..|es| - 1]), es[|es| - 1])
  }

  /** Request numbers in use, the single live request, and where the shown rows came from. */
  ghost predicate Inv(s: State) {
    && (forall n :: n in s.pending ==> 1 <= n <= s.requestId)
    && (forall n :: n in s.answers ==> n <= s.requestId && n !in s.pending)
    && (s.inFlight.Some? <==> s.requestId in s.pending)
    && (s.inFlight.Some? ==> s.inFlight.value == s.requestId && s.pending[s.requestId] == s.snap.scope && s.snap.loading && s.snap.error.None?)
    && s.source <= s.requestId
    && (s.snap.overview.Some? ==> s.source in s.answers && s.answers[s.source] == Answer(s.snap.scope, s.snap.overview.value))
    && (s.snap.loaded ==> s.snap.overview.Some?)
  }

  lemma StepInv(s: State, e: Event)
    requires Inv(s)
    ensures Inv(Step(s, e))
  {
  }

  lemma {:induction false} RunInv(s: State, es: seq<Event>)
    requires Inv(s)
    ensures Inv(Run(s, es))
  {
    if es != [] {
      RunInv(s, es[..|es| - 1]);
      StepInv(Run(s, es[..|es| - 1]), es[|es| - 1]);
    }
  }

  /** In every reachable state the published counts and rows are empty or the answer to a request issued
      for exactly the published scope, a loaded snapshot has such an answer, and of all the requests in
      flight at most one is still wanted, and it asks for the published scope. */
  lemma PublishedScopeIsAsked(all: Scope, es: seq<Event>)
    ensures var s := Run(Init(all), es);
            && (s.snap.overview.Some? ==> exists n :: n in s.answers && s.answers[n] == Answer(s.snap.scope, s.snap.overview.value))
            && (s.snap.loaded ==> s.snap.overview.Some?)
            && (forall n, o :: n in s.pending && Arrived(s, n, o).snap != s.snap ==>
                  n == s.requestId && s.inFlight == Some(n) && s.pending[n] == s.snap.scope)
  {
    RunInv(Init(all), es);
  }

  lemma StepForward(s: State, e: Event)
    requires Inv(s)
    ensures var t := Step(s, e);
            && s.source <= t.source && s.requestId <= t.requestId
            && (s.source in s.answers ==> s.source in t.answers && t.answers[s.source] == s.answers[s.source])
  {
  }

  /** Over any stretch of a run what is shown only moves on to the answers of later requests: an overview
      that comes back is the very answer shown before, never an older one arriving out of order. */
  lemma {:induction false} AnswersMoveForward(s: State, es: seq<Event>)
    requires Inv(s)
    ensures var t := Run(s, es);
            && s.source <= t.source && s.requestId <= t.requestId
            && (s.source in s.answers ==> s.source in t.answers && t.answers[s.source] == s.answers[s.source])
            && (s.snap.overview.Some? && t.snap.overview.Some? && t.source == s.source ==>
                  t.snap.overview == s.snap.overview && t.snap.scope == s.snap.scope)
  {
    RunInv(s, es);
    if es != [] {
      AnswersMoveForward(s, es[..|es| - 1]);
      RunInv(s, es[..|es| - 1]);
      StepForward(Run(s, es[..|es| - 1]), es[|es| - 1]);
    }
  }

  /** A failed refresh keeps the scope's rows; only a scope switch drops them. */
  lemma RowsKept(s: State, e: Event)
    requires Inv(s)
    ensures s.snap.overview.Some? && Step(s, e).snap.overview.None? <==> s.snap.overview.Some? && e.EvScope? && e.scope != s.snap.scope
  {
  }

  /** `loading` without a request in flight: the spinner an invalidation leaves when nobody subscribes. */
  predicate Idle(s: State) { s.snap.loading && s.inFlight.None? }

  /** That state is entered exactly by invalidating a loading snapshot without subscribers,
      and it is never wedged: `ensureLoaded` always ends with a loaded snapshot or a request in flight. */
  lemma IdleExactly(s: State, e: Event)
    requires Inv(s)
    ensures !Idle(s) ==> (Idle(Step(s, e)) <==> e.EvInvalidate? && s.snap.loading && s.subscribers == 0)
    ensures EnsureLoaded(s).snap.loaded || EnsureLoaded(s).inFlight == Some(EnsureLoaded(s).requestId)
    ensures Idle(s) && !s.snap.loaded ==> !Idle(EnsureLoaded(s))
  {
  }

  // ------------------------------------------- the snapshot, from the history alone

  /** The newest request is unanswered and wanted. */
  predicate Awaited(s: State, n: nat) { n == s.requestId && n in s.pending }

  predicate Answers(s: State, e: Event) { e.EvArrived? && Awaited(s, e.no) }

  predicate Fails(s: State, e: Event) { e.EvFailed? && Awaited(s, e.no) }

  predicate Leaves(s: State, e: Event) { e.EvScope? && e.scope != s.snap.scope }

  /** The event sends a request. */
  predicate Starts(s: State, e: Event) {
    e.EvRefresh? || (e.EvEnsure? && !s.snap.loaded && s.inFlight.None?) || ((Leaves(s, e) || e.EvInvalidate?) && s.subscribers > 0)
  }

  /** Which steps send a request, and for which scope: no other step does. */
  lemma StartsExactly(s: State, e: Event)
    requires Inv(s)
    ensures var t := Step(s, e);
            && (Starts(s, e) <==> s.requestId < t.requestId && t.requestId in t.pending)
            && (Starts(s, e) ==> t.pending[t.requestId] == t.snap.scope && t.inFlight == Some(t.requestId))
            && t.snap.scope == if e.EvScope? then e.scope else s.snap.scope
  {
  }

  /** The answer of the last request answered for the scope, as long as the scope is not left. */
  function LastAnswer(all: Scope, es: seq<Event>): Option<Answer> {
    if es == [] then None
    else
      var s, e := Run(Init(all), es[..|es| - 1]), es[|es| - 1];
      if Answers(s, e) then Some(Answer(s.pending[e.no], e.overview))
      else if Leaves(s, e) then None
      else LastAnswer(all, es[..|es| - 1])
  }

  /** No invalidation or change of scope since the last answer; a failed refresh leaves the answer loaded. */
  predicate UpToDate(all: Scope, es: seq<Event>) {
    es != [] &&
    var s, e := Run(Init(all), es[..|es| - 1]), es[|es| - 1];
    Answers(s, e) || (!Leaves(s, e) && !e.EvInvalidate? && UpToDate(all, es[..|es| - 1]))
  }

  /** The message of the last failure, until a request is sent or answered, or the scope is left. */
  function LastFailure(all: Scope, es: seq<Event>): Option<Message> {
    if es == [] then None
    else
      var s, e := Run(Init(all), es[..|es| - 1]), es[|es| - 1];
      if Fails(s, e) then Some(e.message)
      else if Answers(s, e) || Leaves(s, e) || Starts(s, e) then None
      else LastFailure(all, es[..|es| - 1])
  }

  /** A request has been sent and, since, neither answered nor failed, and the scope not left. */
  predicate Unanswered(all: Scope, es: seq<Event>) {
    es != [] &&
    var s, e := Run(Init(all), es[..|es| - 1]), es[|es| - 1];
    Starts(s, e) || (!Answers(s, e) && !Fails(s, e) && !Leaves(s, e) && Unanswered(all, es[..|es| - 1]))
  }

  lemma StepShown(s: State, e: Event)
    requires Inv(s)
    ensures var t := Step(s, e).snap;
            && t.overview == (if Answers(s, e) then Some(e.overview) else if Leaves(s, e) then None else s.snap.overview)
            && (t.loaded <==> Answers(s, e) || (!Leaves(s, e) && !e.EvInvalidate? && s.snap.loaded))
            && t.error == (if Fails(s, e) then Some(e.message)
                           else if Answers(s, e) || Leaves(s, e) || Starts(s, e) then None
                           else s.snap.error)
            && (t.loading <==> Starts(s, e) || (!Answers(s, e) && !Fails(s, e) && !Leaves(s, e) && s.snap.loading))
            && (Answers(s, e) ==> s.pending[e.no] == s.snap.scope && t.scope == s.snap.scope)
            && (!Leaves(s, e) ==> t.scope == s.snap.scope)
  {
  }

  /** In every run the snapshot is what the history says: the overview of the last request answered for the scope, loaded
      while it is up to date, the last failure's message, and loading while a request is unanswered. */
  lemma {:induction false} SnapshotIsHistory(all: Scope, es: seq<Event>)
    ensures var s := Run(Init(all), es);
            && s.snap.overview == (if LastAnswer(all, es).Some? then Some(LastAnswer(all, es).value.overview) else None)
            && (LastAnswer(all, es).Some? ==> LastAnswer(all, es).value.scope == s.snap.scope)
            && (s.snap.loaded <==> UpToDate(all, es))
            && s.snap.error == LastFailure(all, es)
            && (s.snap.loading <==> Unanswered(all, es))
  {
    if es != [] {
      var init, e := es[..|es| - 1], es[|es| - 1];
      SnapshotIsHistory(all, init);
      RunInv(Init(all), init);
      StepShown(Run(Init(all), init), e);
    }
  }

  /** How many are subscribed after a run; an unsubscription follows its subscription, so none comes at zero. */
  function Hosts(es: seq<Event>): nat {
    if es == [] then 0
    else
      var before := Hosts(es[..|es| - 1]);
      match es[|es| - 1]
      case EvSubscribe => before + 1
      case EvUnsubscribe => if before == 0 then 0 else before - 1
      case _ => before
  }

  lemma {:induction false} SubscribersAreHistory(all: Scope, es: seq<Event>)
    ensures Run(Init(all), es).subscribers == Hosts(es)
  {
    if es != [] { SubscribersAreHistory(all, es[..|es| - 1]); }
  }

  /** In every run, answering the awaited request shows its answer, loaded, under the scope that was asked for; a failure of
      it shows the message and leaves what was shown. */
  lemma AwaitedIsPublished(all: Scope, es: seq<Event>, n: nat, o: Overview, m: Message)
    requires Awaited(Run(Init(all), es), n)
    ensures var s := Run(Init(all), es);
            && Run(Init(all), es + [EvArrived(n, o)]).snap == Snapshot(s.pending[n], Some(o), true, false, None)
            && Run(Init(all), es + [EvFailed(n, m)]).snap == s.snap.(loading := false, error := Some(m))
            && s.pending[n] == s.snap.scope
  {
    RunInv(Init(all), es);
    assert (es + [EvArrived(n, o)])[..|es|] == es && (es + [EvFailed(n, m)])[..|es|] == es;
  }

  class ShipmentOverviewStore {
    var snapshot: Snapshot
    var requestId: nat
    var inFlight: Option<nat>
    var subscriberCount: nat
    ghost var pending: map<nat, Scope>
    ghost var answers: map<nat, Answer>
    ghost var source: nat

    ghost function Value(): State
      reads this
    {
      State(snapshot, requestId, inFlight, subscriberCount, pending, answers, source)
    }

    constructor (all: Scope)
      ensures Value() == Init(all) && Inv(Value())
    {
      snapshot, requestId, inFlight, subscriberCount := Blank(all), 0, None, 0;
      pending, answers, source := map[], map[], 0;
    }

    method Begin() returns (n: nat)
      modifies this`snapshot, this`requestId, this`inFlight, this`pending
      ensures Value() == Start(old(Value())) && n == requestId
    {
      requestId := requestId + 1;
      n := requestId;
      inFlight := Some(n);
      pending := pending[n := snapshot.scope];
      snapshot := snapshot.(loading := true, error := None);
    }

    method OnSetScope(scope: Scope)
      requires Inv(Value())
      modifies this
      ensures Value() == SetScope(old(Value()), scope) && Inv(Value())
    {
      StepInv(Value(), EvScope(scope));
      if scope == snapshot.scope { return; }
      requestId := requestId + 1;
      inFlight := None;
      snapshot := Blank(scope);
      if subscriberCount > 0 { var _ := Begin(); }
    }

    method OnEnsureLoaded()
      requires Inv(Value())
      modifies this
      ensures Value() == EnsureLoaded(old(Value())) && Inv(Value())
    {
      StepInv(Value(), EvEnsure);
      if snapshot.loaded || inFlight.Some? { return; }
      var _ := Begin();
    }

    method OnRefresh()
      requires Inv(Value())
      modifies this
      ensures Value() == Start(old(Value())) && Inv(Value())
    {
      StepInv(Value(), EvRefresh);
      var _ := Begin();
    }

    method OnInvalidate()
      requires Inv(Value())
      modifies this
      ensures Value() == Invalidate(old(Value())) && Inv(Value())
    {
      StepInv(Value(), EvInvalidate);
      requestId := requestId + 1;
      inFlight := None;
      snapshot := snapshot.(loaded := false);
      if subscriberCount > 0 { var _ := Begin(); }
    }

    /** `scope` is what the request captured when it started. */
    method OnArrived(n: nat, scope: Scope, o: Overview)
      requires Inv(Value()) && n in pending && pending[n] == scope
      modifies this
      ensures Value() == Arrived(old(Value()), n, o) && Inv(Value())
    {
      StepInv(Value(), EvArrived(n, o));
      pending := pending - {n};
      if n != requestId { return; }
      snapshot := Snapshot(scope, Some(o), true, false, None);
      inFlight := None;
      answers := answers[n := Answer(scope, o)];
      source := n;
    }

    method OnFailed(n: nat, m: Message)
      requires Inv(Value()) && n in pending
      modifies this
      ensures Value() == Failed(old(Value()), n, m) && Inv(Value())
    {
      StepInv(Value(), EvFailed(n, m));
      pending := pending - {n};
      if n != requestId { return; }
      snapshot := snapshot.(loading := false, error := Some(m));
      inFlight := None;
    }
  }
}
