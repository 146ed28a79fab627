/** The shared cache of exchangeable devices (client/src/services/exchangeDeviceStore.ts). */
module ExchangeDevices {
  import opened Collections

  /** A cache key: its branch, and the eligibility filter and typed term behind it. Only equality matters. */
  datatype Scope = Scope(branch: int, search: int)

  /** A query, named by the scope that its branch and term make. */
  type Query = Scope

  type Row = int
  type Message = int

  datatype Page = Page(rows: seq<Row>, total: nat)

  datatype Entry = Entry(page: Page, loading: bool, error: Option<Message>, loaded: bool)

  const NO_PAGE := Page([], 0)
  const EMPTY := Entry(NO_PAGE, false, None, false)
  const MAX_SCOPES := 6

  /** One read: `start` numbers the reads of each scope. */
  datatype Ticket = Ticket(scope: Scope, token: nat)

  /** The closure's variables, the reads in flight, and the history the invariants speak of: what each read
      asked for (`None` is the empty query, every branch's devices), the answers that were installed, and
      which read the rows now filed under a scope came from. */
  datatype State = State(
    entries: OrderedMap<Scope, Entry>, queries: map<Scope, Query>, requested: OrderedMap<Scope, nat>,
    tokens: map<Scope, nat>, generation: nat, subscribers: nat, invalidateQueued: bool,
    pending: set<Ticket>, asked: map<Ticket, Option<Query>>, answers: map<Ticket, Page>, origin: map<Scope, Ticket>)

  const INIT := State(OrderedMap([], map[]), map[], OrderedMap([], map[]), map[], 0, 0, false, {}, map[], map[], map[])

  function TokenOf(s: State, k: Scope): nat { if k in s.tokens then s.tokens[k] else 0 }

  function EntryAt(s: State, k: Scope): Entry { if k in s.entries.vals then s.entries.vals[k] else EMPTY }

  function Drop(s: State, k: Scope): State {
    s.(entries := s.entries.Delete(k), queries := s.queries - {k})
  }

  /** First half of `prune`: every key of another branch goes. */
  function DropOthers(s: State, keys: seq<Scope>, branch: int): State
    decreases |keys|
  {
    if keys == [] then s
    else if keys[0].branch != branch then DropOthers(Drop(s, keys[0]), keys[1..], branch)
    else DropOthers(s, keys[1..], branch)
  }

  /** Second half: oldest first, until few enough are left or `k` itself is the oldest. */
  function DropOldest(s: State, k: Scope): State
    decreases |s.entries.keys|
  {
    if |s.entries.keys| <= MAX_SCOPES || s.entries.keys[0] == k then s else DropOldest(Drop(s, s.entries.keys[0]), k)
  }

  function Prune(s: State, k: Scope): State { DropOldest(DropOthers(s, s.entries.keys, k.branch), k) }

  function Issued(p: State, t: Ticket, page: Page): State {
    p.(entries := p.entries.Put(t.scope, Entry(page, true, None, false)),
       pending := p.pending + {t},
       asked := p.asked[t := if t.scope in p.queries then Some(p.queries[t.scope]) else None])
  }

  function Start(s: State, k: Scope, force: bool): State {
    var current := EntryAt(s, k);
    if !force && (current.loaded || current.loading) then s
    else Sent(s, k, if force then current.page else NO_PAGE)
  }

  function Sent(s: State, k: Scope, page: Page): State {
    var t := Ticket(k, TokenOf(s, k) + 1);
    Issued(Prune(s.(tokens := s.tokens[k := t.token]), k), t, page)
  }

  function StartAll(s: State, ks: seq<Scope>): State
    decreases |ks|
  {
    if ks == [] then s else StartAll(Start(s, ks[0], true), ks[1..])
  }

  function Count(s: State, k: Scope): nat { if k in s.requested.vals then s.requested.vals[k] else 0 }

  /** A subscriber is counted and its query, if it gives one, registered. */
  function Subscribed(s: State, k: Scope, q: Option<Query>): State {
    s.(requested := s.requested.Put(k, Count(s, k) + 1), queries := if q.Some? then s.queries[k := q.value] else s.queries)
  }

  function EnsureLoaded(s: State, k: Scope, q: Option<Query>): State { Start(Subscribed(s, k, q), k, false) }

  function Release(s: State, k: Scope): State {
    if Count(s, k) > 1 then s.(requested := s.requested.Put(k, Count(s, k) - 1))
    else s.(requested := s.requested.Delete(k))
  }

  function Demanded(s: State, k: Scope): State { s.(requested := s.requested.Put(k, Max(1, Count(s, k)))) }

  function RefreshOf(s: State, k: Scope): State { Start(Demanded(s, k), k, true) }

  function RefreshEach(s: State, ks: seq<Scope>): State
    decreases |ks|
  {
    if ks == [] then s else RefreshEach(RefreshOf(s, ks[0]), ks[1..])
  }

  function Refresh(s: State, scope: Option<Scope>): State {
    RefreshEach(s, if scope.Some? then [scope.value] else s.requested.keys)
  }

  /** The queued microtask: the subscriber count is read late. */
  function InvalidateTask(s: State): State {
    if !s.invalidateQueued then s
    else
      var t := s.(invalidateQueued := false);
      if t.subscribers == 0 then t else StartAll(t, t.requested.keys)
  }

  /** The numbers of the scopes in `live` move on by one. */
  function Bumped(tokens: map<Scope, nat>, live: set<Scope>): map<Scope, nat> {
    tokens + map k | k in live :: (if k in tokens then tokens[k] else 0) + 1
  }

  function Reset(s: State): State {
    s.(tokens := Bumped(s.tokens, s.requested.vals.Keys + s.entries.vals.Keys), entries := OrderedMap([], map[]), queries := map[],
       requested := OrderedMap([], map[]), generation := s.generation + 1)
  }

  function Arrived(s: State, t: Ticket, page: Page): State {
    if t !in s.pending then s
    else
      var u := s.(pending := s.pending - {t});
      if TokenOf(s, t.scope) != t.token then u
      else u.(entries := s.entries.Put(t.scope, Entry(page, false, None, true)),
              answers := s.answers[t := page], origin := s.origin[t.scope := t])
  }

  function Failed(s: State, t: Ticket, m: Message): State {
    if t !in s.pending then s
    else
      var u := s.(pending := s.pending - {t});
      if TokenOf(s, t.scope) != t.token then u
      else u.(entries := s.entries.Put(t.scope, Entry(NO_PAGE, false, Some(m), false)))
  }

  datatype Event =
    | EvEnsure(scope: Scope, query: Option<Query>)
    | EvRelease(scope: Scope)
    | EvRefresh(target: Option<Scope>)
    | EvInvalidate
    | EvTask
    | EvReset
    | EvSubscribe
    | EvUnsubscribe
    | EvArrived(ticket: Ticket, page: Page)
    | EvFailed(ticket: Ticket, message: Message)

  /** The events that start no read. */
  predicate StartsNothing(e: Event) { !e.EvEnsure? && !e.EvRefresh? && !e.EvTask? }

  function QuietStep(s: State, e: Event): State
    requires StartsNothing(e)
  {
    match e
    case EvRelease(k) => Release(s, k)
    case EvInvalidate => s.(invalidateQueued := true)
    case EvReset => Reset(s)
    case EvSubscribe => s.(subscribers := s.subscribers + 1)
    case EvUnsubscribe => s.(subscribers := if s.subscribers == 0 then 0 else s.subscribers - 1)
    case EvArrived(t, page) => Arrived(s, t, page)
    case EvFailed(t, m) => Failed(s, t, m)
  }

  function Step(s: State, e: Event): State {
    match e
    case EvEnsure(k, query) => EnsureLoaded(s, k, query)
    case EvRefresh(k) => Refresh(s, k)
    case EvTask => InvalidateTask(s)
    case _ => QuietStep(s, e)
  }

  function Run(s: State, es: seq<Event>): State {
    if es == [] then s else Step(Run(s, es[..|es| - 1]), es[|es| - 1])
  }

  // ---------------------------------------------------------------- invariants

  /** Reads are numbered upwards per scope, and a read in flight has not been answered. */
  ghost predicate TicketFine(s: State, t: Ticket) {
    && (t in s.pending ==> t in s.asked && t !in s.answers)
    && (t in s.answers ==> t in s.asked)
    && (t in s.asked ==> 1 <= t.token <= TokenOf(s, t.scope))
  }

  /** What may stand under a scope. */
  ghost predicate EntryFine(s: State, k: Scope) {
    var e := EntryAt(s, k);
    && (e.page != NO_PAGE ==> k in s.origin && s.origin[k].scope == k && s.origin[k] in s.answers && s.answers[s.origin[k]] == e.page)
    && (e.loaded ==> !e.loading && e.error.None?
                     && Ticket(k, TokenOf(s, k)) in s.answers && s.answers[Ticket(k, TokenOf(s, k))] == e.page)
    && (e.loading ==> e.error.None? && Ticket(k, TokenOf(s, k)) in s.pending)
    && (e.error.Some? ==> e.page == NO_PAGE && !e.loaded && !e.loading)
  }

  ghost predicate Inv(s: State) {
    (forall t :: TicketFine(s, t)) && (forall k :: EntryFine(s, k))
  }

  /** Dropping keys changes nothing but which entries and queries remain. */
  ghost predicate Fewer(s: State, t: State) {
    && t == s.(entries := t.entries, queries := t.queries)
    && (forall k :: k in t.entries.vals ==> k in s.entries.vals && t.entries.vals[k] == s.entries.vals[k])
    && (forall k :: k in t.queries ==> k in s.queries && t.queries[k] == s.queries[k])
  }

  lemma FewerTrans(s: State, t: State, u: State)
    requires Fewer(s, t) && Fewer(t, u)
    ensures Fewer(s, u)
  {
  }

  lemma {:induction false} DropOthersFewer(s: State, keys: seq<Scope>, branch: int)
    ensures Fewer(s, DropOthers(s, keys, branch))
    ensures forall k: Scope :: k.branch == branch ==> (k in DropOthers(s, keys, branch).queries <==> k in s.queries)
    ensures forall k: Scope :: k in keys && k.branch != branch ==> k !in DropOthers(s, keys, branch).queries
    decreases |keys|
  {
    if keys != [] {
      if keys[0].branch != branch {
        DropOthersFewer(Drop(s, keys[0]), keys[1..], branch);
        FewerTrans(s, Drop(s, keys[0]), DropOthers(s, keys, branch));
      } else {
        DropOthersFewer(s, keys[1..], branch);
      }
    }
  }

  lemma {:induction false} DropOldestFewer(s: State, k: Scope)
    ensures Fewer(s, DropOldest(s, k))
    ensures k in DropOldest(s, k).queries <==> k in s.queries
    decreases |s.entries.keys|
  {
    if |s.entries.keys| > MAX_SCOPES && s.entries.keys[0] != k {
      DropOldestFewer(Drop(s, s.entries.keys[0]), k);
      FewerTrans(s, Drop(s, s.entries.keys[0]), DropOldest(s, k));
    }
  }

  lemma PruneFewer(s: State, k: Scope)
    ensures Fewer(s, Prune(s, k))
    ensures k in Prune(s, k).queries <==> k in s.queries
  {
    DropOthersFewer(s, s.entries.keys, k.branch);
    DropOldestFewer(DropOthers(s, s.entries.keys, k.branch), k);
    FewerTrans(s, DropOthers(s, s.entries.keys, k.branch), Prune(s, k));
  }

  lemma StartFine(s: State, k: Scope, force: bool)
    requires Inv(s)
    ensures Inv(Start(s, k, force))
  {
    var current := EntryAt(s, k);
    if force || !(current.loaded || current.loading) {
      var t := Ticket(k, TokenOf(s, k) + 1);
      var b := s.(tokens := s.tokens[k := t.token]);
      PruneFewer(b, k);
      var r := Start(s, k, force);
      forall x ensures TicketFine(r, x) {
        assert TicketFine(s, x);
      }
      forall x ensures EntryFine(r, x) {
        assert EntryFine(s, x) && EntryFine(s, k) && TicketFine(s, Ticket(x, TokenOf(s, x)));
      }
    }
  }

  lemma {:induction false} StartAllFine(s: State, ks: seq<Scope>)
    requires Inv(s)
    ensures Inv(StartAll(s, ks))
    decreases |ks|
  {
    if ks != [] {
      StartFine(s, ks[0], true);
      StartAllFine(Start(s, ks[0], true), ks[1..]);
    }
  }

  /** States that differ only in parts the invariant does not read. */
  lemma SameCore(s: State, t: State)
    requires Inv(s)
    requires t.entries == s.entries && t.tokens == s.tokens && t.pending == s.pending
    requires t.asked == s.asked && t.answers == s.answers && t.origin == s.origin
    ensures Inv(t)
  {
    forall x ensures TicketFine(t, x) { assert TicketFine(s, x); }
    forall x ensures EntryFine(t, x) { assert EntryFine(s, x); }
  }

  lemma {:induction false} RefreshEachFine(s: State, ks: seq<Scope>)
    requires Inv(s)
    ensures Inv(RefreshEach(s, ks))
    decreases |ks|
  {
    if ks != [] {
      var t := Demanded(s, ks[0]);
      SameCore(s, t);
      StartFine(t, ks[0], true);
      RefreshEachFine(Start(t, ks[0], true), ks[1..]);
    }
  }

  lemma AnswerTicket(s: State, t: Ticket, page: Page, m: Message, x: Ticket)
    requires TicketFine(s, x) && TicketFine(s, t)
    ensures TicketFine(Arrived(s, t, page), x) && TicketFine(Failed(s, t, m), x)
  {
  }

  lemma ArrivedCurrent(s: State, t: Ticket, page: Page)
    requires EntryFine(s, t.scope) && t.token == TokenOf(s, t.scope) && t in s.pending
    ensures EntryFine(Arrived(s, t, page), t.scope)
  {
    assert t == Ticket(t.scope, TokenOf(s, t.scope));
  }

  lemma ArrivedOther(s: State, t: Ticket, page: Page, x: Scope)
    requires EntryFine(s, x) && TicketFine(s, t) && t in s.pending && (t.scope != x || t.token != TokenOf(s, x))
    ensures EntryFine(Arrived(s, t, page), x)
  {
    assert Ticket(x, TokenOf(s, x)) != t;
    var u := s.(pending := s.pending - {t});
    assert EntryFine(u, x);
    if TokenOf(s, t.scope) == t.token {
      var v := Arrived(s, t, page);
      assert EntryAt(v, x) == EntryAt(u, x) && TokenOf(v, x) == TokenOf(u, x) && v.pending == u.pending;
      assert x in u.origin ==> x in v.origin && v.origin[x] == u.origin[x];
      assert forall a :: a in u.answers ==> a != t && a in v.answers && v.answers[a] == u.answers[a];
    }
  }

  lemma ArrivedEntry(s: State, t: Ticket, page: Page, x: Scope)
    requires EntryFine(s, x) && TicketFine(s, t)
    ensures EntryFine(Arrived(s, t, page), x)
  {
    if t in s.pending {
      if t.scope == x && t.token == TokenOf(s, x) { ArrivedCurrent(s, t, page); } else { ArrivedOther(s, t, page, x); }
    }
  }

  lemma FailedCurrent(s: State, t: Ticket, m: Message)
    requires EntryFine(s, t.scope) && t.token == TokenOf(s, t.scope) && t in s.pending
    ensures EntryFine(Failed(s, t, m), t.scope)
  {
  }

  /** Filing an entry under one scope leaves what stands under another. */
  lemma EntryOfOther(s: State, k: Scope, e: Entry, x: Scope)
    requires EntryFine(s, x) && k != x
    ensures EntryFine(s.(entries := s.entries.Put(k, e)), x)
  {
    assert EntryAt(s.(entries := s.entries.Put(k, e)), x) == EntryAt(s, x);
  }

  lemma FailedOther(s: State, t: Ticket, m: Message, x: Scope)
    requires EntryFine(s, x) && t in s.pending && (t.scope != x || t.token != TokenOf(s, x))
    ensures EntryFine(Failed(s, t, m), x)
  {
    assert Ticket(x, TokenOf(s, x)) != t;
    var u := s.(pending := s.pending - {t});
    assert EntryFine(u, x);
    if TokenOf(s, t.scope) == t.token {
      EntryOfOther(u, t.scope, Entry(NO_PAGE, false, Some(m), false), x);
    }
  }

  lemma FailedEntry(s: State, t: Ticket, m: Message, x: Scope)
    requires EntryFine(s, x) && TicketFine(s, t)
    ensures EntryFine(Failed(s, t, m), x)
  {
    if t in s.pending {
      if t.scope == x && t.token == TokenOf(s, x) { FailedCurrent(s, t, m); } else { FailedOther(s, t, m, x); }
    }
  }

  lemma ArrivedFine(s: State, t: Ticket, page: Page)
    requires Inv(s)
    ensures Inv(Arrived(s, t, page))
  {
    assert TicketFine(s, t);
    forall x ensures TicketFine(Arrived(s, t, page), x) { assert TicketFine(s, x); AnswerTicket(s, t, page, 0, x); }
    forall x ensures EntryFine(Arrived(s, t, page), x) { assert EntryFine(s, x); ArrivedEntry(s, t, page, x); }
  }

  lemma FailedFine(s: State, t: Ticket, m: Message)
    requires Inv(s)
    ensures Inv(Failed(s, t, m))
  {
    assert TicketFine(s, t);
    forall x ensures TicketFine(Failed(s, t, m), x) { assert TicketFine(s, x); AnswerTicket(s, t, NO_PAGE, m, x); }
    forall x ensures EntryFine(Failed(s, t, m), x) { assert EntryFine(s, x); FailedEntry(s, t, m, x); }
  }

  lemma ResetFine(s: State)
    requires Inv(s)
    ensures Inv(Reset(s))
  {
    forall x ensures TicketFine(Reset(s), x) { assert TicketFine(s, x); }
    forall x ensures EntryFine(Reset(s), x) { }
  }

  lemma EnsureFine(s: State, k: Scope, q: Option<Query>)
    requires Inv(s)
    ensures Inv(EnsureLoaded(s, k, q))
  {
    var r := Subscribed(s, k, q);
    SameCore(s, r);
    StartFine(r, k, false);
  }

  lemma TaskFine(s: State)
    requires Inv(s)
    ensures Inv(InvalidateTask(s))
  {
    var t := s.(invalidateQueued := false);
    SameCore(s, t);
    StartAllFine(t, t.requested.keys);
  }

  lemma RefreshFine(s: State, k: Option<Scope>)
    requires Inv(s)
    ensures Inv(Refresh(s, k))
  {
    RefreshEachFine(s, if k.Some? then [k.value] else s.requested.keys);
  }

  lemma ReleaseFine(s: State, k: Scope)
    requires Inv(s)
    ensures Inv(Release(s, k))
  {
    if Count(s, k) > 1 {
      SameCore(s, s.(requested := s.requested.Put(k, Count(s, k) - 1)));
    } else {
      SameCore(s, s.(requested := s.requested.Delete(k)));
    }
  }

  lemma FlagsFine(s: State, n: nat, queued: bool)
    requires Inv(s)
    ensures Inv(s.(subscribers := n)) && Inv(s.(invalidateQueued := queued))
  {
    SameCore(s, s.(subscribers := n));
    SameCore(s, s.(invalidateQueued := queued));
  }

  /** Every step keeps the invariant. */
  lemma StepInv(s: State, e: Event)
    requires Inv(s)
    ensures Inv(Step(s, e))
  {
    match e
    case EvEnsure(k, q) => EnsureFine(s, k, q);
    case EvRefresh(k) => RefreshFine(s, k);
    case EvTask => TaskFine(s);
    case EvReset => ResetFine(s);
    case EvArrived(t, page) => ArrivedFine(s, t, page);
    case EvFailed(t, m) => FailedFine(s, t, m);
    case EvRelease(k) => ReleaseFine(s, k);
    case EvInvalidate => FlagsFine(s, 0, true);
    case EvSubscribe => FlagsFine(s, s.subscribers + 1, true);
    case EvUnsubscribe => FlagsFine(s, if s.subscribers == 0 then 0 else s.subscribers - 1, true);
  }

  lemma {:induction false} RunInv(s: State, es: seq<Event>)
    requires Inv(s)
    ensures Inv(Run(s, es))
  {
    if es != [] {
      RunInv(s, es[..|es| - 1]);
      StepInv(Run(s, es[..|es| - 1]), es[|es| - 1]);
    }
  }

  lemma InitInv()
    ensures Inv(INIT)
  {
  }

  // -------------------------------------------------------------- main results

  /** In every run: a loaded entry is the answer to the highest-numbered read ever started for its scope;
      rows shown under a scope are some answer to a read for that scope; a scope whose newest read failed
      shows nothing; and a loading scope's newest read is in flight. */
  lemma EntriesAreHonest(es: seq<Event>, k: Scope)
    ensures var s := Run(INIT, es);
            var e := EntryAt(s, k);
            && (e.loaded ==> exists t :: t in s.answers && t.scope == k && s.answers[t] == e.page
                                         && forall u :: u in s.asked && u.scope == k ==> u.token <= t.token)
            && (e.page.rows != [] ==> exists t :: t in s.answers && t.scope == k && s.answers[t] == e.page)
            && (e.error.Some? ==> e.page == NO_PAGE && !e.loaded)
            && (e.loading ==> exists t :: t in s.pending && t.scope == k
                                          && forall u :: u in s.asked && u.scope == k ==> u.token <= t.token)
  {
    InitInv();
    RunInv(INIT, es);
    var s := Run(INIT, es);
    assert EntryFine(s, k);
    forall u | u in s.asked && u.scope == k
      ensures u.token <= TokenOf(s, k)
    {
      assert TicketFine(s, u);
    }
  }

  lemma Installs(s: State, t: Ticket, page: Page)
    requires t in s.pending
    ensures t.token == TokenOf(s, t.scope) ==> EntryAt(Arrived(s, t, page), t.scope) == Entry(page, false, None, true)
    ensures t.token != TokenOf(s, t.scope) ==> Arrived(s, t, page).entries == s.entries
  {
  }

  lemma StartTokens(s: State, k: Scope, force: bool, x: Scope)
    ensures TokenOf(s, x) <= TokenOf(Start(s, k, force), x)
  {
    PruneFewer(s.(tokens := s.tokens[k := TokenOf(s, k) + 1]), k);
  }

  lemma {:induction false} StartAllTokens(s: State, ks: seq<Scope>, x: Scope)
    ensures TokenOf(s, x) <= TokenOf(StartAll(s, ks), x)
    decreases |ks|
  {
    if ks != [] {
      StartTokens(s, ks[0], true, x);
      StartAllTokens(Start(s, ks[0], true), ks[1..], x);
    }
  }

  lemma {:induction false} RefreshTokens(s: State, ks: seq<Scope>, x: Scope)
    ensures TokenOf(s, x) <= TokenOf(RefreshEach(s, ks), x)
    decreases |ks|
  {
    if ks != [] {
      var t := Demanded(s, ks[0]);
      StartTokens(t, ks[0], true, x);
      RefreshTokens(Start(t, ks[0], true), ks[1..], x);
    }
  }

  lemma EnsureTokens(s: State, k: Scope, q: Option<Query>, x: Scope)
    ensures TokenOf(s, x) <= TokenOf(EnsureLoaded(s, k, q), x)
  {
    StartTokens(Subscribed(s, k, q), k, false, x);
  }

  lemma TaskTokens(s: State, x: Scope)
    ensures TokenOf(s, x) <= TokenOf(InvalidateTask(s), x)
  {
    StartAllTokens(s.(invalidateQueued := false), s.requested.keys, x);
  }

  lemma RefreshAllTokens(s: State, k: Option<Scope>, x: Scope)
    ensures TokenOf(s, x) <= TokenOf(Refresh(s, k), x)
  {
    RefreshTokens(s, if k.Some? then [k.value] else s.requested.keys, x);
  }

  lemma StepTokens(s: State, e: Event, x: Scope)
    ensures TokenOf(s, x) <= TokenOf(Step(s, e), x)
  {
    match e
    case EvEnsure(k, q) => EnsureTokens(s, k, q, x);
    case EvRefresh(k) => RefreshAllTokens(s, k, x);
    case EvTask => TaskTokens(s, x);
    case _ =>
  }

  /** Numbers only ever grow, over any run. */
  lemma {:induction false} RunTokens(s: State, es: seq<Event>, x: Scope)
    ensures TokenOf(s, x) <= TokenOf(Run(s, es), x)
  {
    if es != [] {
      RunTokens(s, es[..|es| - 1], x);
      StepTokens(Run(s, es[..|es| - 1]), es[|es| - 1], x);
    }
  }

  /** Once a later read of its scope has been started, a read's answer or failure changes no entry, however the run goes
      on in between. */
  lemma SupersededReadIsSilent(es: seq<Event>, more: seq<Event>, t: Ticket, u: Ticket, page: Page, m: Message)
    requires u in Run(INIT, es).asked && u.scope == t.scope && t.token < u.token
    ensures var r := Run(Run(INIT, es), more); Arrived(r, t, page).entries == r.entries && Failed(r, t, m).entries == r.entries
  {
    InitInv();
    RunInv(INIT, es);
    assert TicketFine(Run(INIT, es), u);
    RunTokens(Run(INIT, es), more, t.scope);
  }

  /** After a reset, and however the run continues, no read that was in flight for a scope still requested
      or cached at the reset can install its answer any more. */
  lemma ResetSilences(s: State, es: seq<Event>, t: Ticket, page: Page)
    requires Inv(s) && t in s.pending && (t.scope in s.requested.vals || t.scope in s.entries.vals)
    ensures var r := Run(Reset(s), es); Arrived(r, t, page).entries == r.entries
  {
    assert TicketFine(s, t);
    assert TokenOf(Reset(s), t.scope) == TokenOf(s, t.scope) + 1;
    RunTokens(Reset(s), es, t.scope);
  }

  /** The event gives scope `x` its next number: a read of it is started, or it is requested or cached at a reset. */
  predicate Moves(s: State, e: Event, x: Scope) {
    match e
    case EvEnsure(k, q) => k == x && !(EntryAt(s, k).loaded || EntryAt(s, k).loading)
    case EvRefresh(k) => x in (if k.Some? then [k.value] else s.requested.keys)
    case EvTask => s.invalidateQueued && s.subscribers > 0 && x in s.requested.keys
    case EvReset => x in s.requested.vals || x in s.entries.vals
    case _ => false
  }

  /** No step of the run from `s` does. */
  predicate Unmoved(s: State, es: seq<Event>, x: Scope) {
    es != [] ==> !Moves(Run(s, es[..|es| - 1]), es[|es| - 1], x) && Unmoved(s, es[..|es| - 1], x)
  }

  lemma StartMoves(s: State, k: Scope, x: Scope)
    ensures TokenOf(Start(s, k, true), x) == TokenOf(s, x) + if k == x then 1 else 0
  {
    StartAsks(s, k, true);
  }

  lemma {:induction false} StartAllMoves(s: State, ks: seq<Scope>, x: Scope)
    ensures TokenOf(StartAll(s, ks), x) == TokenOf(s, x) <==> x !in ks
    decreases |ks|
  {
    if ks != [] {
      StartMoves(s, ks[0], x);
      StartAllTokens(Start(s, ks[0], true), ks[1..], x);
      StartAllMoves(Start(s, ks[0], true), ks[1..], x);
    }
  }

  lemma {:induction false} RefreshEachMoves(s: State, ks: seq<Scope>, x: Scope)
    ensures TokenOf(RefreshEach(s, ks), x) == TokenOf(s, x) <==> x !in ks
    decreases |ks|
  {
    if ks != [] {
      StartMoves(Demanded(s, ks[0]), ks[0], x);
      RefreshTokens(RefreshOf(s, ks[0]), ks[1..], x);
      RefreshEachMoves(RefreshOf(s, ks[0]), ks[1..], x);
    }
  }

  lemma EnsureMoves(s: State, k: Scope, q: Option<Query>, x: Scope)
    ensures TokenOf(EnsureLoaded(s, k, q), x) == TokenOf(s, x) <==> !Moves(s, EvEnsure(k, q), x)
  {
    if !(EntryAt(s, k).loaded || EntryAt(s, k).loading) { StartAsks(Subscribed(s, k, q), k, false); }
  }

  lemma TaskMoves(s: State, x: Scope)
    ensures TokenOf(InvalidateTask(s), x) == TokenOf(s, x) <==> !Moves(s, EvTask, x)
  {
    StartAllMoves(s.(invalidateQueued := false), s.requested.keys, x);
  }

  lemma QuietMoves(s: State, e: Event, x: Scope)
    requires StartsNothing(e)
    ensures TokenOf(QuietStep(s, e), x) == TokenOf(s, x) <==> !Moves(s, e, x)
  {
    match e
    case EvRelease(k) =>
    case EvReset =>
    case EvArrived(y, page) =>
    case EvFailed(y, m) =>
    case _ =>
  }

  lemma StepMoves(s: State, e: Event, x: Scope)
    ensures TokenOf(Step(s, e), x) == TokenOf(s, x) <==> !Moves(s, e, x)
  {
    if StartsNothing(e) {
      QuietMoves(s, e, x);
    } else if e.EvEnsure? {
      EnsureMoves(s, e.scope, e.query, x);
    } else if e.EvRefresh? {
      RefreshEachMoves(s, if e.target.Some? then [e.target.value] else s.requested.keys, x);
    } else {
      TaskMoves(s, x);
    }
  }

  /** A scope keeps its number over a run if and only if no step gives it the next. */
  lemma {:induction false} RunMoves(s: State, es: seq<Event>, x: Scope)
    ensures TokenOf(Run(s, es), x) == TokenOf(s, x) <==> Unmoved(s, es, x)
  {
    if es != [] {
      var init, e := es[..|es| - 1], es[|es| - 1];
      RunMoves(s, init, x);
      RunTokens(s, init, x);
      StepTokens(Run(s, init), e, x);
      StepMoves(Run(s, init), e, x);
    }
  }

  /** A current answer installs something new. */
  lemma InstallsNew(s: State, t: Ticket, page: Page)
    requires Inv(s)
    ensures Arrived(s, t, page).entries != s.entries <==> t in s.pending && t.token == TokenOf(s, t.scope)
  {
    assert TicketFine(s, t) && EntryFine(s, t.scope);
    if t in s.pending && t.token == TokenOf(s, t.scope) {
      assert t == Ticket(t.scope, TokenOf(s, t.scope));
      Installs(s, t, page);
      assert !EntryAt(s, t.scope).loaded && EntryAt(Arrived(s, t, page), t.scope).loaded;
    }
  }

  /** Exactly which reads survive a reset, however the run continues: those still unanswered that were current at the
      reset, of a scope neither requested nor cached then, and not given a new number since. */
  lemma ResetLeaksExactly(s: State, es: seq<Event>, t: Ticket, page: Page)
    requires Inv(s) && t in s.pending
    ensures var r := Run(Reset(s), es);
            Arrived(r, t, page).entries != r.entries <==>
            && t in r.pending && t.token == TokenOf(s, t.scope)
            && t.scope !in s.requested.vals && t.scope !in s.entries.vals && Unmoved(Reset(s), es, t.scope)
  {
    ResetFine(s);
    RunInv(Reset(s), es);
    InstallsNew(Run(Reset(s), es), t, page);
    assert TicketFine(s, t);
    RunMoves(Reset(s), es, t.scope);
    RunTokens(Reset(s), es, t.scope);
    ResetToken(s, t.scope);
  }

  lemma ResetToken(s: State, x: Scope)
    ensures TokenOf(Reset(s), x) == TokenOf(s, x) + if x in s.requested.vals || x in s.entries.vals then 1 else 0
  {
  }

  /** `start` asks for the scope's own query exactly when one is registered; otherwise it sends the empty
      query, which the server answers with every branch's devices. */
  lemma AsksForItsScope(s: State, k: Scope, force: bool)
    requires force || !(EntryAt(s, k).loaded || EntryAt(s, k).loading)
    ensures var t := Ticket(k, TokenOf(s, k) + 1);
            && t in Start(s, k, force).pending && t in Start(s, k, force).asked
            && (Start(s, k, force).asked[t].Some? <==> k in s.queries)
  {
    PruneFewer(s.(tokens := s.tokens[k := TokenOf(s, k) + 1]), k);
  }

  lemma PrunedLosesQuery(s: State, k: Scope, x: Scope)
    requires k.branch != x.branch && x in s.entries.keys
    ensures x !in Start(s, k, true).queries
  {
    var b := s.(tokens := s.tokens[k := TokenOf(s, k) + 1]);
    DropOthersFewer(b, b.entries.keys, k.branch);
    DropOldestFewer(DropOthers(b, b.entries.keys, k.branch), k);
  }

  lemma {:induction false} DropOthersDrops(s: State, keys: seq<Scope>, branch: int, x: Scope)
    requires x in keys && x.branch != branch
    ensures x !in DropOthers(s, keys, branch).entries.vals
    decreases |keys|
  {
    if keys[0].branch != branch {
      if x in keys[1..] {
        DropOthersDrops(Drop(s, keys[0]), keys[1..], branch, x);
      } else {
        DropOthersFewer(Drop(s, keys[0]), keys[1..], branch);
      }
    } else {
      DropOthersDrops(s, keys[1..], branch, x);
    }
  }

  lemma PrunedLosesEntry(s: State, k: Scope, x: Scope)
    requires k.branch != x.branch && x in s.entries.keys
    ensures x !in Start(s, k, true).entries.vals && Start(s, k, true).generation == s.generation
  {
    var b := s.(tokens := s.tokens[k := TokenOf(s, k) + 1]);
    PruneFewer(b, k);
    DropOthersDrops(b, b.entries.keys, k.branch, x);
    DropOldestFewer(DropOthers(b, b.entries.keys, k.branch), k);
  }

  lemma RefreshOne(s: State, x: Scope)
    ensures Refresh(s, Some(x)) == Start(Demanded(s, x), x, true)
  {
    var u := Start(Demanded(s, x), x, true);
    assert RefreshEach(s, [x]) == RefreshEach(u, [x][1..]);
    assert [x][1..] == [];
  }

  /** Refreshing `x` sends the empty query, and its answer `page` is filed under `x`. */
  ghost predicate RefreshesUnscoped(r: State, x: Scope, page: Page) {
    var t := Ticket(x, TokenOf(r, x) + 1);
    var u := Refresh(r, Some(x));
    t in u.pending && t in u.asked && u.asked[t] == None && EntryAt(Arrived(u, t, page), x).page == page
  }

  /** A scope's refresh is unscoped exactly when no query is registered for it. */
  lemma UnscopedExactly(r: State, x: Scope, page: Page)
    ensures RefreshesUnscoped(r, x, page) <==> x !in r.queries
  {
    RefreshOne(r, x);
    var q := Demanded(r, x);
    AsksForItsScope(q, x, true);
    StartedToken(q, x);
    Installs(Start(q, x, true), Ticket(x, TokenOf(r, x) + 1), page);
  }

  /** Hence a scope whose cached entry is pruned by a read of another branch: its next refresh asks for
      every branch's devices and files the answer under that scope. */
  lemma PrunedScopeRefreshesUnscoped(s: State, k: Scope, x: Scope, page: Page)
    requires k.branch != x.branch && x in s.entries.keys
    ensures RefreshesUnscoped(Start(s, k, true), x, page)
  {
    PrunedLosesQuery(s, k, x);
    UnscopedExactly(Start(s, k, true), x, page);
  }

  lemma StartedToken(s: State, k: Scope)
    ensures TokenOf(Start(s, k, true), k) == TokenOf(s, k) + 1
  {
    PruneFewer(s.(tokens := s.tokens[k := TokenOf(s, k) + 1]), k);
  }

  // -------------------------------------------------------------------- the view

  datatype View = View(page: Page, loading: bool, error: Option<Message>)

  /** `resolveExchangeView`: `carried` is the last loaded page a host keeps, with its branch. */
  function ResolveView(e: Entry, branch: int, carried: Option<(int, Page)>): View {
    if e.error.Some? then View(NO_PAGE, false, e.error)
    else if e.loaded then View(e.page, false, None)
    else if carried.Some? && carried.value.0 == branch && carried.value.1.rows != [] then View(carried.value.1, true, None)
    else View(e.page, e.loading, None)
  }

  // ------------------------------------------- which reads carry their scope's query

  /** What a started read adds: a ticket with the next number, asking for the query registered for its scope. */
  lemma StartAsks(s: State, k: Scope, force: bool)
    requires force || !(EntryAt(s, k).loaded || EntryAt(s, k).loading)
    ensures var t, u := Ticket(k, TokenOf(s, k) + 1), Start(s, k, force);
            && u.asked == s.asked[t := if k in s.queries then Some(s.queries[k]) else None]
            && u.pending == s.pending + {t} && u.tokens == s.tokens[k := t.token]
            && u.answers == s.answers && u.requested == s.requested
  {
    PruneFewer(s.(tokens := s.tokens[k := TokenOf(s, k) + 1]), k);
  }

  lemma StartDropsQueries(s: State, k: Scope, force: bool, x: Scope)
    ensures x in Start(s, k, force).queries ==> x in s.queries && Start(s, k, force).queries[x] == s.queries[x]
  {
    PruneFewer(s.(tokens := s.tokens[k := TokenOf(s, k) + 1]), k);
  }

  predicate AskedScoped(s: State, t: Ticket) { t in s.asked ==> s.asked[t].Some? }

  ghost predicate AllAskedScoped(s: State) { forall t :: AskedScoped(s, t) }

  /** Each scope of the loop has its query registered when its turn comes; an earlier turn may have pruned it. */
  predicate TurnsRegistered(s: State, ks: seq<Scope>)
    decreases |ks|
  {
    ks == [] || (ks[0] in s.queries && TurnsRegistered(Start(s, ks[0], true), ks[1..]))
  }

  predicate RefreshRegistered(s: State, ks: seq<Scope>)
    decreases |ks|
  {
    ks == [] || (ks[0] in s.queries && RefreshRegistered(RefreshOf(s, ks[0]), ks[1..]))
  }

  /** Every read the event starts finds the query of its scope registered. */
  predicate ReadsRegistered(s: State, e: Event) {
    match e
    case EvEnsure(k, q) => q.Some? || k in s.queries || EntryAt(s, k).loaded || EntryAt(s, k).loading
    case EvRefresh(k) => RefreshRegistered(s, if k.Some? then [k.value] else s.requested.keys)
    case EvTask => !s.invalidateQueued || s.subscribers == 0 || TurnsRegistered(s.(invalidateQueued := false), s.requested.keys)
    case _ => true
  }

  predicate RunRegistered(es: seq<Event>) {
    es != [] ==> ReadsRegistered(Run(INIT, es[..|es| - 1]), es[|es| - 1]) && RunRegistered(es[..|es| - 1])
  }

  lemma SameScoped(s: State, t: State)
    requires t.asked == s.asked
    ensures AllAskedScoped(t) <==> AllAskedScoped(s)
  {
    assert forall x :: AskedScoped(t, x) <==> AskedScoped(s, x);
  }

  lemma StartScoped(s: State, k: Scope)
    requires Inv(s)
    ensures AllAskedScoped(Start(s, k, true)) <==> AllAskedScoped(s) && k in s.queries
  {
    var t, u := Ticket(k, TokenOf(s, k) + 1), Start(s, k, true);
    StartAsks(s, k, true);
    assert TicketFine(s, t);
    assert AskedScoped(u, t) <==> k in s.queries;
    assert forall x :: x != t ==> (AskedScoped(u, x) <==> AskedScoped(s, x));
    assert AskedScoped(s, t);
  }

  lemma {:induction false} StartAllScoped(s: State, ks: seq<Scope>)
    requires Inv(s)
    ensures AllAskedScoped(StartAll(s, ks)) <==> AllAskedScoped(s) && TurnsRegistered(s, ks)
    decreases |ks|
  {
    if ks != [] {
      StartScoped(s, ks[0]);
      StartFine(s, ks[0], true);
      StartAllScoped(Start(s, ks[0], true), ks[1..]);
    }
  }

  lemma {:induction false} RefreshEachScoped(s: State, ks: seq<Scope>)
    requires Inv(s)
    ensures AllAskedScoped(RefreshEach(s, ks)) <==> AllAskedScoped(s) && RefreshRegistered(s, ks)
    decreases |ks|
  {
    if ks != [] {
      var t := Demanded(s, ks[0]);
      SameCore(s, t);
      SameScoped(s, t);
      StartScoped(t, ks[0]);
      StartFine(t, ks[0], true);
      RefreshEachScoped(RefreshOf(s, ks[0]), ks[1..]);
    }
  }

  lemma ReadScoped(s: State, k: Scope)
    requires Inv(s) && !(EntryAt(s, k).loaded || EntryAt(s, k).loading)
    ensures AllAskedScoped(Start(s, k, false)) <==> AllAskedScoped(s) && k in s.queries
  {
    StartScoped(s, k);
    StartAsks(s, k, false);
    StartAsks(s, k, true);
    SameScoped(Start(s, k, true), Start(s, k, false));
  }

  lemma EnsureScoped(s: State, k: Scope, q: Option<Query>)
    requires Inv(s)
    ensures AllAskedScoped(EnsureLoaded(s, k, q)) <==> AllAskedScoped(s) && ReadsRegistered(s, EvEnsure(k, q))
  {
    var r := Subscribed(s, k, q);
    SameScoped(s, r);
    assert EntryAt(r, k) == EntryAt(s, k);
    assert k in r.queries <==> q.Some? || k in s.queries;
    if !(EntryAt(s, k).loaded || EntryAt(s, k).loading) {
      SameCore(s, r);
      ReadScoped(r, k);
    }
  }

  lemma TaskScoped(s: State)
    requires Inv(s)
    ensures AllAskedScoped(InvalidateTask(s)) <==> AllAskedScoped(s) && ReadsRegistered(s, EvTask)
  {
    var t := s.(invalidateQueued := false);
    SameCore(s, t);
    SameScoped(s, t);
    StartAllScoped(t, t.requested.keys);
  }

  lemma RefreshScoped(s: State, k: Option<Scope>)
    requires Inv(s)
    ensures AllAskedScoped(Refresh(s, k)) <==> AllAskedScoped(s) && ReadsRegistered(s, EvRefresh(k))
  {
    RefreshEachScoped(s, if k.Some? then [k.value] else s.requested.keys);
  }

  lemma ReleaseAsks(s: State, k: Scope)
    ensures Release(s, k).asked == s.asked && Release(s, k).queries == s.queries
  {
  }

  lemma AnswerAsks(s: State, x: Ticket, page: Page, m: Message)
    ensures Arrived(s, x, page).asked == s.asked && Failed(s, x, m).asked == s.asked
  {
  }

  lemma QuietAsks(s: State, e: Event, t: Ticket)
    requires StartsNothing(e)
    ensures t in QuietStep(s, e).asked <==> t in s.asked
    ensures t in s.asked ==> QuietStep(s, e).asked[t] == s.asked[t]
  {
    match e
    case EvRelease(k) => ReleaseAsks(s, k);
    case EvArrived(x, page) => AnswerAsks(s, x, page, 0);
    case EvFailed(x, m) => AnswerAsks(s, x, NO_PAGE, m);
    case _ =>
  }

  lemma QuietQueries(s: State, e: Event, x: Scope)
    requires StartsNothing(e)
    ensures x in QuietStep(s, e).queries ==> x in s.queries && QuietStep(s, e).queries[x] == s.queries[x]
  {
    match e
    case EvRelease(k) =>
    case EvReset =>
    case EvArrived(y, page) =>
    case EvFailed(y, m) =>
    case _ =>
  }

  /** A step keeps every read's query exactly when the reads it starts find theirs registered. */
  lemma StepScoped(s: State, e: Event)
    requires Inv(s)
    ensures AllAskedScoped(Step(s, e)) <==> AllAskedScoped(s) && ReadsRegistered(s, e)
  {
    if StartsNothing(e) {
      forall t ensures AskedScoped(QuietStep(s, e), t) <==> AskedScoped(s, t) { QuietAsks(s, e, t); }
    } else if e.EvEnsure? {
      EnsureScoped(s, e.scope, e.query);
    } else if e.EvRefresh? {
      RefreshScoped(s, e.target);
    } else {
      TaskScoped(s);
    }
  }

  /** Over every run, every read carried a query if and only if every read found the one of its scope registered. */
  lemma {:induction false} ReadsScopedExactly(es: seq<Event>)
    ensures AllAskedScoped(Run(INIT, es)) <==> RunRegistered(es)
  {
    if es != [] {
      var init := es[..|es| - 1];
      ReadsScopedExactly(init);
      InitInv();
      RunInv(INIT, init);
      StepScoped(Run(INIT, init), es[|es| - 1]);
    }
  }

  // ------------------------------------------- when another branch's devices can be shown

  /** `k`'s newest read is in flight without a query, and none is registered for `k`. */
  predicate Exposed(s: State, k: Scope) {
    var t := Ticket(k, TokenOf(s, k));
    t in s.pending && t in s.asked && s.asked[t] == None && k !in s.queries
  }

  lemma ExposedStays(s: State, k: Scope, x: Scope)
    requires Exposed(s, k)
    ensures Exposed(Start(s, x, true), k)
  {
    StartAsks(s, x, true);
    StartDropsQueries(s, x, true, k);
  }

  lemma StartExposes(s: State, k: Scope, force: bool)
    requires force || !(EntryAt(s, k).loaded || EntryAt(s, k).loading)
    requires k !in s.queries
    ensures Exposed(Start(s, k, force), k)
  {
    StartAsks(s, k, force);
    StartDropsQueries(s, k, force, k);
  }

  lemma {:induction false} ExposedThroughAll(s: State, ks: seq<Scope>, k: Scope)
    requires Exposed(s, k)
    ensures Exposed(StartAll(s, ks), k)
    decreases |ks|
  {
    if ks != [] {
      ExposedStays(s, k, ks[0]);
      ExposedThroughAll(Start(s, ks[0], true), ks[1..], k);
    }
  }

  lemma {:induction false} StartAllExposes(s: State, ks: seq<Scope>) returns (k: Scope)
    requires !TurnsRegistered(s, ks)
    ensures Exposed(StartAll(s, ks), k)
    decreases |ks|
  {
    if ks[0] !in s.queries {
      k := ks[0];
      StartExposes(s, k, true);
      ExposedThroughAll(Start(s, k, true), ks[1..], k);
    } else {
      k := StartAllExposes(Start(s, ks[0], true), ks[1..]);
    }
  }

  lemma ExposedThroughRefresh(s: State, x: Scope, k: Scope)
    requires Exposed(s, k)
    ensures Exposed(RefreshOf(s, x), k)
  {
    var t := Demanded(s, x);
    assert Exposed(t, k);
    ExposedStays(t, k, x);
  }

  lemma {:induction false} ExposedThroughEach(s: State, ks: seq<Scope>, k: Scope)
    requires Exposed(s, k)
    ensures Exposed(RefreshEach(s, ks), k)
    decreases |ks|
  {
    if ks != [] {
      ExposedThroughRefresh(s, ks[0], k);
      ExposedThroughEach(RefreshOf(s, ks[0]), ks[1..], k);
    }
  }

  lemma {:induction false} RefreshEachExposes(s: State, ks: seq<Scope>) returns (k: Scope)
    requires !RefreshRegistered(s, ks)
    ensures Exposed(RefreshEach(s, ks), k)
    decreases |ks|
  {
    if ks[0] !in s.queries {
      k := ks[0];
      StartExposes(Demanded(s, k), k, true);
      ExposedThroughEach(RefreshOf(s, k), ks[1..], k);
    } else {
      k := RefreshEachExposes(RefreshOf(s, ks[0]), ks[1..]);
    }
  }

  lemma StepExposes(s: State, e: Event) returns (k: Scope)
    requires !ReadsRegistered(s, e)
    ensures Exposed(Step(s, e), k)
  {
    match e
    case EvEnsure(x, q) =>
      k := x;
      StartExposes(Subscribed(s, x, None), x, false);
    case EvRefresh(x) => k := RefreshEachExposes(s, if x.Some? then [x.value] else s.requested.keys);
    case EvTask => k := StartAllExposes(s.(invalidateQueued := false), s.requested.keys);
  }

  /** A read in flight that carried no query would, if answered now, be shown under its scope. */
  ghost predicate CanShowUnscoped(s: State) {
    exists t, page: Page ::
      t in s.pending && t in s.asked && s.asked[t] == None && page.rows != [] &&
      ResolveView(EntryAt(Arrived(s, t, page), t.scope), t.scope.branch, None) == View(page, false, None)
  }

  lemma ExposedShows(s: State, k: Scope)
    requires Exposed(s, k)
    ensures CanShowUnscoped(s)
  {
    var t, page := Ticket(k, TokenOf(s, k)), Page([0], 1);
    Installs(s, t, page);
    assert ResolveView(EntryAt(Arrived(s, t, page), t.scope), t.scope.branch, None) == View(page, false, None);
  }

  /** At no moment of the run could an answer to a read without a query be shown. */
  ghost predicate NeverShowsUnscoped(es: seq<Event>) {
    !CanShowUnscoped(Run(INIT, es)) && (es != [] ==> NeverShowsUnscoped(es[..|es| - 1]))
  }

  lemma ScopedNeverShows(s: State)
    requires AllAskedScoped(s)
    ensures !CanShowUnscoped(s)
  {
    forall t | t in s.asked ensures s.asked[t].Some? { assert AskedScoped(s, t); }
  }

  lemma UnregisteredShows(s: State, e: Event)
    requires !ReadsRegistered(s, e)
    ensures CanShowUnscoped(Step(s, e))
  {
    var k := StepExposes(s, e);
    ExposedShows(Step(s, e), k);
  }

  /** The picker is safe from answers that name no branch, at every moment of a run, if and only if every read of the run
      finds its scope's query registered. */
  lemma {:induction false} UnscopedShownExactly(es: seq<Event>)
    ensures NeverShowsUnscoped(es) <==> RunRegistered(es)
  {
    ReadsScopedExactly(es);
    if RunRegistered(es) { ScopedNeverShows(Run(INIT, es)); }
    if es != [] {
      var init := es[..|es| - 1];
      UnscopedShownExactly(init);
      if !ReadsRegistered(Run(INIT, init), es[|es| - 1]) { UnregisteredShows(Run(INIT, init), es[|es| - 1]); }
    }
  }

  /** The picker shows, after the step, an answer to a read of `x` that carried no query. */
  lemma PrunedScopeShowsEveryBranch(x: Scope, k: Scope, page: Page)
    requires x.branch != k.branch
    ensures var s := Run(INIT, [EvEnsure(x, Some(x)), EvEnsure(k, Some(k)), EvRefresh(Some(x)), EvArrived(Ticket(x, 2), page)]);
            && x in s.requested.vals && Ticket(x, 2) in s.asked && s.asked[Ticket(x, 2)] == None
            && ResolveView(EntryAt(s, x), x.branch, None) == View(page, false, None)
  {
    var e1, e2, e3, e4 := EvEnsure(x, Some(x)), EvEnsure(k, Some(k)), EvRefresh(Some(x)), EvArrived(Ticket(x, 2), page);
    var s1 := FirstEnsure(x);
    var s2 := SecondEnsure(s1, x, k);
    var s3 := RefreshUnregistered(s2, x);
    var s4 := AnsweredAt(s3, x, page);
    RunSnoc([], e1, INIT, s1);
    RunSnoc([] + [e1], e2, s1, s2);
    RunSnoc([] + [e1] + [e2], e3, s2, s3);
    RunSnoc([] + [e1] + [e2] + [e3], e4, s3, s4);
    FourInARow(e1, e2, e3, e4);
  }

  /** One step of the run, `next` being what it leads to from `s`. */
  predicate Leads(s: State, e: Event, next: State) { next == Step(s, e) }

  lemma RunSnoc(es: seq<Event>, e: Event, s: State, next: State)
    requires s == Run(INIT, es) && Leads(s, e, next)
    ensures next == Run(INIT, es + [e])
  {
    assert (es + [e])[..|es + [e]| - 1] == es;
  }

  lemma FourInARow<T>(a: T, b: T, c: T, d: T)
    ensures [] + [a] + [b] + [c] + [d] == [a, b, c, d]
  {
  }

  lemma FirstEnsure(x: Scope) returns (s: State)
    ensures Leads(INIT, EvEnsure(x, Some(x)), s)
    ensures x in s.entries.keys && x in s.requested.vals && TokenOf(s, x) == 1 && (forall k :: k in s.entries.vals <==> k == x)
    ensures Count(s, x) == 1 && Ticket(x, 1) in s.pending && s.generation == 0
  {
    var r := Subscribed(INIT, x, Some(x));
    s := Start(r, x, false);
    StartAsks(r, x, false);
    PruneFewer(r.(tokens := r.tokens[x := 1]), x);
  }

  lemma SecondEnsure(s: State, x: Scope, k: Scope) returns (t: State)
    requires x.branch != k.branch && x in s.entries.keys && k !in s.entries.vals && x in s.requested.vals && TokenOf(s, x) == 1
    ensures Leads(s, EvEnsure(k, Some(k)), t)
    ensures x !in t.queries && x in t.requested.vals && TokenOf(t, x) == 1
    ensures x !in t.entries.vals && Count(t, x) == Count(s, x) && s.pending <= t.pending && t.generation == s.generation
  {
    var r := Subscribed(s, k, Some(k));
    t := Start(r, k, false);
    StartAsks(r, k, false);
    assert t == Start(r, k, true);
    PrunedLosesQuery(r, k, x);
    PrunedLosesEntry(r, k, x);
  }

  lemma RefreshUnregistered(s: State, x: Scope) returns (t: State)
    requires x !in s.queries && x in s.requested.vals && TokenOf(s, x) == 1
    ensures Leads(s, EvRefresh(Some(x)), t)
    ensures x in t.requested.vals && Ticket(x, 2) in t.pending && TokenOf(t, x) == 2
    ensures Ticket(x, 2) in t.asked && t.asked[Ticket(x, 2)] == None
  {
    RefreshOne(s, x);
    StartAsks(Demanded(s, x), x, true);
    t := Refresh(s, Some(x));
  }

  lemma AnsweredAt(s: State, x: Scope, page: Page) returns (t: State)
    requires Ticket(x, 2) in s.pending && TokenOf(s, x) == 2
    ensures Leads(s, EvArrived(Ticket(x, 2), page), t)
    ensures t.requested == s.requested && t.asked == s.asked
    ensures ResolveView(EntryAt(t, x), x.branch, None) == View(page, false, None)
  {
    t := Arrived(s, Ticket(x, 2), page);
  }

  /** A host reads `x`, the header switches to another branch, the host lets `x` go, and the session ends: the answer
      arrives after the reset and is filed for the next user. */
  lemma ResetLeakHappens(x: Scope, k: Scope, page: Page)
    requires x.branch != k.branch
    ensures var es := [EvEnsure(x, Some(x)), EvEnsure(k, Some(k)), EvRelease(x), EvReset, EvArrived(Ticket(x, 1), page)];
            var s := Run(INIT, es);
            s.generation == 1 && EntryAt(s, x) == Entry(page, false, None, true)
  {
    var e1, e2, e3, e4, e5 := EvEnsure(x, Some(x)), EvEnsure(k, Some(k)), EvRelease(x), EvReset, EvArrived(Ticket(x, 1), page);
    var s1 := FirstEnsure(x);
    var s2 := SecondEnsure(s1, x, k);
    var s3 := LetGo(s2, x);
    var s4 := ResetWithout(s3, x);
    var s5 := ArrivedAfter(s4, x, page);
    RunSnoc([], e1, INIT, s1);
    RunSnoc([] + [e1], e2, s1, s2);
    RunSnoc([] + [e1] + [e2], e3, s2, s3);
    RunSnoc([] + [e1] + [e2] + [e3], e4, s3, s4);
    RunSnoc([] + [e1] + [e2] + [e3] + [e4], e5, s4, s5);
    FiveInARow(e1, e2, e3, e4, e5);
  }

  lemma FiveInARow<T>(a: T, b: T, c: T, d: T, e: T)
    ensures [] + [a] + [b] + [c] + [d] + [e] == [a, b, c, d, e]
  {
  }

  lemma LetGo(s: State, x: Scope) returns (t: State)
    requires Count(s, x) == 1
    ensures Leads(s, EvRelease(x), t)
    ensures x !in t.requested.vals && t.entries == s.entries && t.tokens == s.tokens && t.pending == s.pending
    ensures t.generation == s.generation
  {
    t := s.(requested := s.requested.Delete(x));
  }

  lemma ResetWithout(s: State, x: Scope) returns (t: State)
    requires x !in s.requested.vals && x !in s.entries.vals
    ensures Leads(s, EvReset, t)
    ensures TokenOf(t, x) == TokenOf(s, x) && t.pending == s.pending && t.generation == s.generation + 1
  {
    t := Reset(s);
    ResetToken(s, x);
  }

  lemma ArrivedAfter(s: State, x: Scope, page: Page) returns (t: State)
    requires Ticket(x, 1) in s.pending && TokenOf(s, x) == 1
    ensures Leads(s, EvArrived(Ticket(x, 1), page), t)
    ensures EntryAt(t, x) == Entry(page, false, None, true) && t.generation == s.generation
  {
    t := Arrived(s, Ticket(x, 1), page);
    Installs(s, Ticket(x, 1), page);
  }

  // ------------------------------------------- and what is shown otherwise

  /** Hosts register for a scope only the query that makes it. */
  predicate WellCalled(es: seq<Event>) {
    forall i :: 0 <= i < |es| && es[i].EvEnsure? && es[i].query.Some? ==> es[i].query.value == es[i].scope
  }

  ghost predicate OwnQueries(s: State) {
    (forall k :: QueryOwn(s, k)) && (forall t :: AskedOwn(s, t))
  }

  predicate QueryOwn(s: State, k: Scope) { k in s.queries ==> s.queries[k] == k }

  predicate AskedOwn(s: State, t: Ticket) { t in s.asked && s.asked[t].Some? ==> s.asked[t].value == t.scope }

  lemma StartOwn(s: State, k: Scope, force: bool)
    requires OwnQueries(s)
    ensures OwnQueries(Start(s, k, force))
  {
    if force || !(EntryAt(s, k).loaded || EntryAt(s, k).loading) {
      var u := Start(s, k, force);
      StartAsks(s, k, force);
      assert QueryOwn(s, k);
      forall x ensures QueryOwn(u, x) { assert QueryOwn(s, x); StartDropsQueries(s, k, force, x); }
      forall t ensures AskedOwn(u, t) { assert AskedOwn(s, t); }
    }
  }

  lemma {:induction false} StartAllOwn(s: State, ks: seq<Scope>)
    requires OwnQueries(s)
    ensures OwnQueries(StartAll(s, ks))
    decreases |ks|
  {
    if ks != [] {
      StartOwn(s, ks[0], true);
      StartAllOwn(Start(s, ks[0], true), ks[1..]);
    }
  }

  lemma {:induction false} RefreshEachOwn(s: State, ks: seq<Scope>)
    requires OwnQueries(s)
    ensures OwnQueries(RefreshEach(s, ks))
    decreases |ks|
  {
    if ks != [] {
      SameOwn(s, Demanded(s, ks[0]));
      StartOwn(Demanded(s, ks[0]), ks[0], true);
      RefreshEachOwn(RefreshOf(s, ks[0]), ks[1..]);
    }
  }

  lemma EnsureOwn(s: State, k: Scope, q: Option<Query>)
    requires OwnQueries(s) && (q.Some? ==> q.value == k)
    ensures OwnQueries(EnsureLoaded(s, k, q))
  {
    var r := Subscribed(s, k, q);
    forall x ensures QueryOwn(r, x) { assert QueryOwn(s, x); }
    forall t ensures AskedOwn(r, t) { assert AskedOwn(s, t); }
    StartOwn(r, k, false);
  }

  lemma TaskOwn(s: State)
    requires OwnQueries(s)
    ensures OwnQueries(InvalidateTask(s))
  {
    SameOwn(s, s.(invalidateQueued := false));
    StartAllOwn(s.(invalidateQueued := false), s.requested.keys);
  }

  lemma RefreshOwn(s: State, k: Option<Scope>)
    requires OwnQueries(s)
    ensures OwnQueries(Refresh(s, k))
  {
    RefreshEachOwn(s, if k.Some? then [k.value] else s.requested.keys);
  }

  lemma SameOwn(s: State, t: State)
    requires OwnQueries(s) && t.asked == s.asked && t.queries == s.queries
    ensures OwnQueries(t)
  {
    forall x ensures QueryOwn(t, x) { assert QueryOwn(s, x); }
    forall x ensures AskedOwn(t, x) { assert AskedOwn(s, x); }
  }

  lemma StepOwn(s: State, e: Event)
    requires OwnQueries(s) && (e.EvEnsure? && e.query.Some? ==> e.query.value == e.scope)
    ensures OwnQueries(Step(s, e))
  {
    if StartsNothing(e) {
      forall x ensures QueryOwn(QuietStep(s, e), x) { assert QueryOwn(s, x); QuietQueries(s, e, x); }
      forall t ensures AskedOwn(QuietStep(s, e), t) { assert AskedOwn(s, t); QuietAsks(s, e, t); }
    } else if e.EvEnsure? {
      EnsureOwn(s, e.scope, e.query);
    } else if e.EvRefresh? {
      RefreshOwn(s, e.target);
    } else {
      TaskOwn(s);
    }
  }

  lemma {:induction false} RunOwn(es: seq<Event>)
    requires WellCalled(es)
    ensures OwnQueries(Run(INIT, es))
  {
    if es != [] {
      RunOwn(es[..|es| - 1]);
      StepOwn(Run(INIT, es[..|es| - 1]), es[|es| - 1]);
    }
  }

  /** `t` stays answered, with the same page and query. */
  predicate Remembers(s: State, u: State, t: Ticket) {
    && (t in s.asked ==> t in u.asked && u.asked[t] == s.asked[t])
    && (t in s.answers ==> t in u.answers && u.answers[t] == s.answers[t])
  }

  lemma StartRemembers(s: State, k: Scope, force: bool, t: Ticket)
    requires Inv(s)
    ensures Remembers(s, Start(s, k, force), t)
  {
    if force || !(EntryAt(s, k).loaded || EntryAt(s, k).loading) {
      StartAsks(s, k, force);
      assert TicketFine(s, t);
    }
  }

  lemma {:induction false} StartAllRemembers(s: State, ks: seq<Scope>, t: Ticket)
    requires Inv(s)
    ensures Remembers(s, StartAll(s, ks), t)
    decreases |ks|
  {
    if ks != [] {
      StartRemembers(s, ks[0], true, t);
      StartFine(s, ks[0], true);
      StartAllRemembers(Start(s, ks[0], true), ks[1..], t);
    }
  }

  lemma {:induction false} RefreshEachRemembers(s: State, ks: seq<Scope>, t: Ticket)
    requires Inv(s)
    ensures Remembers(s, RefreshEach(s, ks), t)
    decreases |ks|
  {
    if ks != [] {
      var r := Demanded(s, ks[0]);
      SameCore(s, r);
      StartRemembers(r, ks[0], true, t);
      StartFine(r, ks[0], true);
      RefreshEachRemembers(RefreshOf(s, ks[0]), ks[1..], t);
    }
  }

  lemma EnsureRemembers(s: State, k: Scope, q: Option<Query>, t: Ticket)
    requires Inv(s)
    ensures Remembers(s, EnsureLoaded(s, k, q), t)
  {
    SameCore(s, Subscribed(s, k, q));
    StartRemembers(Subscribed(s, k, q), k, false, t);
  }

  lemma TaskRemembers(s: State, t: Ticket)
    requires Inv(s)
    ensures Remembers(s, InvalidateTask(s), t)
  {
    SameCore(s, s.(invalidateQueued := false));
    StartAllRemembers(s.(invalidateQueued := false), s.requested.keys, t);
  }

  lemma RefreshRemembers(s: State, k: Option<Scope>, t: Ticket)
    requires Inv(s)
    ensures Remembers(s, Refresh(s, k), t)
  {
    RefreshEachRemembers(s, if k.Some? then [k.value] else s.requested.keys, t);
  }

  lemma QuietRemembers(s: State, e: Event, t: Ticket)
    requires StartsNothing(e) && (e.EvArrived? ==> TicketFine(s, e.ticket))
    ensures Remembers(s, QuietStep(s, e), t)
  {
    match e
    case EvRelease(k) =>
    case EvReset =>
    case EvArrived(x, page) =>
    case EvFailed(x, m) =>
    case _ =>
  }

  lemma StepRemembers(s: State, e: Event, t: Ticket)
    requires Inv(s)
    ensures Remembers(s, Step(s, e), t)
  {
    if StartsNothing(e) {
      if e.EvArrived? { assert TicketFine(s, e.ticket); }
      QuietRemembers(s, e, t);
    } else if e.EvEnsure? {
      EnsureRemembers(s, e.scope, e.query, t);
    } else if e.EvRefresh? {
      RefreshRemembers(s, e.target, t);
    } else {
      TaskRemembers(s, t);
    }
  }

  lemma {:induction false} RunRemembers(s: State, es: seq<Event>, t: Ticket)
    requires Inv(s)
    ensures Remembers(s, Run(s, es), t)
  {
    if es != [] {
      var init := es[..|es| - 1];
      RunRemembers(s, init, t);
      RunInv(s, init);
      StepRemembers(Run(s, init), es[|es| - 1], t);
    }
  }

  lemma {:induction false} RunConcat(s: State, a: seq<Event>, b: seq<Event>)
    ensures Run(s, a + b) == Run(Run(s, a), b)
  {
    if b == [] {
      assert a + b == a;
    } else {
      assert (a + b)[..|a + b| - 1] == a + b[..|b| - 1];
      RunConcat(s, a, b[..|b| - 1]);
    }
  }

  /** What a host keeps of its scope when it renders: the page, if loaded, with the branch it was read for. */
  function Kept(s: State, k: Scope): Option<(int, Page)> {
    if EntryAt(s, k).loaded then Some((k.branch, EntryAt(s, k).page)) else None
  }

  /** The page answered a read that asked for a scope of this branch. */
  ghost predicate ReadForBranch(s: State, branch: int, page: Page) {
    exists t :: t in s.answers && s.answers[t] == page && t in s.asked && s.asked[t] == Some(t.scope) && t.scope.branch == branch
  }

  lemma AnswerIsForBranch(s: State, t: Ticket)
    requires Inv(s) && OwnQueries(s) && AllAskedScoped(s) && t in s.answers
    ensures ReadForBranch(s, t.scope.branch, s.answers[t])
  {
    assert TicketFine(s, t) && AskedOwn(s, t) && AskedScoped(s, t);
  }

  /** In every run whose reads all find their query registered, the picker shows a branch only pages that answered a read
      asking for that branch, whether filed under the scope shown or kept by a host that rendered any scope at any
      earlier moment; and nothing after a failed read. */
  lemma ViewStaysInBranch(earlier: seq<Event>, since: seq<Event>, rendered: Scope, k: Scope)
    requires WellCalled(earlier + since) && RunRegistered(earlier + since)
    ensures var s := Run(INIT, earlier + since);
            var v := ResolveView(EntryAt(s, k), k.branch, Kept(Run(INIT, earlier), rendered));
            && (v.page.rows != [] ==> ReadForBranch(s, k.branch, v.page))
            && (v.error.Some? ==> v.page == NO_PAGE)
  {
    var s, before := Run(INIT, earlier + since), Run(INIT, earlier);
    InitInv();
    RunInv(INIT, earlier);
    RunInv(INIT, earlier + since);
    RunOwn(earlier + since);
    ReadsScopedExactly(earlier + since);
    assert EntryFine(s, k) && EntryFine(before, rendered);
    if EntryAt(s, k).page != NO_PAGE { AnswerIsForBranch(s, s.origin[k]); }
    if EntryAt(before, rendered).loaded {
      var t := Ticket(rendered, TokenOf(before, rendered));
      RunConcat(INIT, earlier, since);
      RunRemembers(before, since, t);
      AnswerIsForBranch(s, t);
    }
  }

  // ------------------------------------------------------------ the mutable store

  class ExchangeDevicesStore {
    var entries: OrderedMap<Scope, Entry>
    var queries: map<Scope, Query>
    var requested: OrderedMap<Scope, nat>
    var tokens: map<Scope, nat>
    var generation: nat
    var subscribers: nat
    var invalidateQueued: bool
    ghost var pending: set<Ticket>
    ghost var asked: map<Ticket, Option<Query>>
    ghost var answers: map<Ticket, Page>
    ghost var origin: map<Scope, Ticket>

    ghost function Value(): State
      reads this
    {
      State(entries, queries, requested, tokens, generation, subscribers, invalidateQueued, pending, asked, answers, origin)
    }

    constructor ()
      ensures Value() == INIT && Inv(Value())
    {
      entries, queries, requested, tokens := OrderedMap([], map[]), map[], OrderedMap([], map[]), map[];
      generation, subscribers, invalidateQueued := 0, 0, false;
      pending, asked, answers, origin := {}, map[], map[], map[];
    }

    method DropKey(k: Scope)
      modifies this`entries, this`queries
      ensures Value() == Drop(old(Value()), k)
    {
      entries := entries.Delete(k);
      queries := queries - {k};
    }

    method PruneFor(k: Scope)
      modifies this`entries, this`queries
      ensures Value() == Prune(old(Value()), k)
    {
      var keys := entries.keys;
      var i := 0;
      while i < |keys|
        invariant 0 <= i <= |keys|
        invariant DropOthers(old(Value()), keys, k.branch) == DropOthers(Value(), keys[i..], k.branch)
      {
        assert keys[i..][0] == keys[i] && keys[i..][1..] == keys[i + 1..];
        if keys[i].branch != k.branch { DropKey(keys[i]); }
        i := i + 1;
      }
      assert keys[i..] == [];
      ghost var half := Value();
      while |entries.keys| > MAX_SCOPES && entries.keys[0] != k
        invariant DropOldest(half, k) == DropOldest(Value(), k)
        decreases |entries.keys|
      {
        DropKey(entries.keys[0]);
      }
    }

    /** Starts a read; the ticket is what its completion callbacks captured. */
    method StartRead(k: Scope, force: bool) returns (t: Option<Ticket>)
      modifies this
      ensures Value() == Start(old(Value()), k, force)
      ensures t.Some? <==> force || !(EntryAt(old(Value()), k).loaded || EntryAt(old(Value()), k).loading)
      ensures t.Some? ==> t.value == Ticket(k, TokenOf(old(Value()), k) + 1)
    {
      var current := if k in entries.vals then entries.vals[k] else EMPTY;
      if !force && (current.loaded || current.loading) {
        return None;
      }
      var ticket := Send(k, if force then current.page else NO_PAGE);
      t := Some(ticket);
    }

    /** Takes the scope's next number, makes room for it and sends the read. */
    method Send(k: Scope, page: Page) returns (t: Ticket)
      modifies this
      ensures t == Ticket(k, TokenOf(old(Value()), k) + 1)
      ensures Value() == Sent(old(Value()), k, page)
    {
      var token := (if k in tokens then tokens[k] else 0) + 1;
      tokens := tokens[k := token];
      PruneFor(k);
      t := Ticket(k, token);
      Issue(t, page);
    }

    /** Shows the scope as loading and sends its read, with the query registered for it if there is one. */
    method Issue(t: Ticket, page: Page)
      modifies this`entries, this`pending, this`asked
      ensures Value() == Issued(old(Value()), t, page)
    {
      entries := entries.Put(t.scope, Entry(page, true, None, false));
      pending := pending + {t};
      asked := asked[t := if t.scope in queries then Some(queries[t.scope]) else None];
    }

    method OnArrived(t: Ticket, page: Page)
      requires Inv(Value()) && t in pending
      modifies this
      ensures Value() == Arrived(old(Value()), t, page) && Inv(Value())
    {
      ArrivedFine(Value(), t, page);
      pending := pending - {t};
      if (if t.scope in tokens then tokens[t.scope] else 0) != t.token { return; }
      entries := entries.Put(t.scope, Entry(page, false, None, true));
      answers := answers[t := page];
      origin := origin[t.scope := t];
    }

    method OnFailed(t: Ticket, m: Message)
      requires Inv(Value()) && t in pending
      modifies this
      ensures Value() == Failed(old(Value()), t, m) && Inv(Value())
    {
      FailedFine(Value(), t, m);
      pending := pending - {t};
      if (if t.scope in tokens then tokens[t.scope] else 0) != t.token { return; }
      entries := entries.Put(t.scope, Entry(NO_PAGE, false, Some(m), false));
    }

    method OnEnsureLoaded(k: Scope, q: Option<Query>)
      requires Inv(Value())
      modifies this
      ensures Value() == EnsureLoaded(old(Value()), k, q) && Inv(Value())
    {
      EnsureFine(Value(), k, q);
      CountSubscriber(k, q);
      var _ := StartRead(k, false);
    }

    method CountSubscriber(k: Scope, q: Option<Query>)
      modifies this`requested, this`queries
      ensures Value() == Subscribed(old(Value()), k, q)
    {
      requested := requested.Put(k, (if k in requested.vals then requested.vals[k] else 0) + 1);
      if q.Some? { queries := queries[k := q.value]; }
    }

    method OnRelease(k: Scope)
      requires Inv(Value())
      modifies this`requested
      ensures Value() == Release(old(Value()), k) && Inv(Value())
    {
      ReleaseFine(Value(), k);
      var held: int := if k in requested.vals then requested.vals[k] else 0;
      var count := held - 1;
      if count > 0 {
        requested := requested.Put(k, count);
      } else {
        requested := requested.Delete(k);
      }
    }

    /** The loop of `refresh`. */
    method RefreshKeys(keys: seq<Scope>)
      modifies this
      ensures Value() == RefreshEach(old(Value()), keys)
    {
      var i := 0;
      while i < |keys|
        invariant 0 <= i <= |keys|
        invariant RefreshEach(old(Value()), keys) == RefreshEach(Value(), keys[i..])
      {
        assert keys[i..][0] == keys[i] && keys[i..][1..] == keys[i + 1..];
        RefreshKey(keys[i]);
        i := i + 1;
      }
      assert keys[i..] == [];
    }

    method RefreshKey(k: Scope)
      modifies this
      ensures Value() == RefreshOf(old(Value()), k)
    {
      requested := requested.Put(k, Max(1, if k in requested.vals then requested.vals[k] else 0));
      var _ := StartRead(k, true);
    }

    method OnRefresh(target: Option<Scope>)
      requires Inv(Value())
      modifies this
      ensures Value() == Refresh(old(Value()), target) && Inv(Value())
    {
      RefreshFine(Value(), target);
      RefreshKeys(if target.Some? then [target.value] else requested.keys);
    }

    /** The loop of the queued refetch. */
    method StartKeys(keys: seq<Scope>)
      modifies this
      ensures Value() == StartAll(old(Value()), keys)
    {
      var i := 0;
      while i < |keys|
        invariant 0 <= i <= |keys|
        invariant StartAll(old(Value()), keys) == StartAll(Value(), keys[i..])
      {
        assert keys[i..][0] == keys[i] && keys[i..][1..] == keys[i + 1..];
        var _ := StartRead(keys[i], true);
        i := i + 1;
      }
      assert keys[i..] == [];
    }

    method OnInvalidateTask()
      requires Inv(Value()) && invalidateQueued
      modifies this
      ensures Value() == InvalidateTask(old(Value())) && Inv(Value())
    {
      TaskFine(Value());
      invalidateQueued := false;
      if subscribers == 0 { return; }
      StartKeys(requested.keys);
    }

    method OnReset()
      requires Inv(Value())
      modifies this
      ensures Value() == Reset(old(Value())) && Inv(Value())
    {
      ResetFine(Value());
      tokens := BumpAll(tokens, requested.vals.Keys + entries.vals.Keys);
      entries, queries, requested := OrderedMap([], map[]), map[], OrderedMap([], map[]);
      generation := generation + 1;
    }
  }

  /** The loop of `reset`: every live scope's number moves on by one. */
  method BumpAll(tokens: map<Scope, nat>, live: set<Scope>) returns (r: map<Scope, nat>)
    ensures r == Bumped(tokens, live)
  {
    r := tokens;
    var todo := live;
    while todo != {}
      invariant todo <= live
      invariant r == Bumped(tokens, live - todo)
      decreases todo
    {
      assert (forall k :: k !in todo) ==> todo == {};
      var k :| k in todo;
      r := r[k := (if k in r then r[k] else 0) + 1];
      todo := todo - {k};
    }
    assert live - todo == live;
  }
}
