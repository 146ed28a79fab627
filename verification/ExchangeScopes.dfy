/** Which scopes the exchange-device cache keeps, what each of them shows, and for whom (exchangeDeviceStore.ts). */
module ExchangeScopes {
  import opened Collections
  import opened ExchangeDevices

  // ------------------------------------------------------------ what a scope shows

  /** The read is in flight and the newest of its scope. */
  predicate Awaited(s: State, t: Ticket) { t in s.pending && t.token == TokenOf(s, t.scope) }

  /** A read that starts is loading, over the rows there were when it is a retry and over none when it is a first read. */
  lemma ReadShows(s: State, k: Scope, force: bool)
    ensures force || !(EntryAt(s, k).loaded || EntryAt(s, k).loading) ==>
              var t := Start(s, k, force);
              && EntryAt(t, k) == Entry(if force then EntryAt(s, k).page else NO_PAGE, true, None, false)
              && Awaited(t, Ticket(k, TokenOf(s, k) + 1))
    ensures !force && (EntryAt(s, k).loaded || EntryAt(s, k).loading) ==> Start(s, k, force) == s
  {
    PruneFewer(s.(tokens := s.tokens[k := TokenOf(s, k) + 1]), k);
  }

  lemma AnswerShows(s: State, t: Ticket, page: Page, m: Message, x: Scope)
    requires Awaited(s, t)
    ensures EntryAt(Arrived(s, t, page), x) == if x == t.scope then Entry(page, false, None, true) else EntryAt(s, x)
    ensures EntryAt(Failed(s, t, m), x) == if x == t.scope then Entry(NO_PAGE, false, Some(m), false) else EntryAt(s, x)
  {
  }

  /** In every run, answering the awaited read of a scope shows its page, and a failure of it an empty list and the message;
      every other scope shows what it did. */
  lemma AwaitedIsShown(es: seq<Event>, t: Ticket, page: Page, m: Message, x: Scope)
    requires Awaited(Run(INIT, es), t)
    ensures EntryAt(Run(INIT, es + [EvArrived(t, page)]), x) == if x == t.scope then Entry(page, false, None, true) else EntryAt(Run(INIT, es), x)
    ensures EntryAt(Run(INIT, es + [EvFailed(t, m)]), x) == if x == t.scope then Entry(NO_PAGE, false, Some(m), false) else EntryAt(Run(INIT, es), x)
  {
    AnswerShows(Run(INIT, es), t, page, m, x);
    assert (es + [EvArrived(t, page)])[..|es|] == es && (es + [EvFailed(t, m)])[..|es|] == es;
  }

  /** Nothing else that starts no read changes what a scope shows, short of a reset. */
  lemma QuietShows(s: State, e: Event, x: Scope)
    requires StartsNothing(e) && !e.EvReset?
    requires !(e.EvArrived? && Awaited(s, e.ticket)) && !(e.EvFailed? && Awaited(s, e.ticket))
    ensures EntryAt(Step(s, e), x) == EntryAt(s, x)
  {
  }

  /** After a reset no scope has an entry, a query or a host, and the hosts are told. */
  lemma ResetForgets(s: State, x: Scope)
    ensures var t := Step(s, EvReset);
            EntryAt(t, x) == EMPTY && t.entries.keys == [] && x !in t.queries && Count(t, x) == 0 && t.requested.keys == [] && t.generation == s.generation + 1
  {
  }

  /** What a picker shows: after a failure the message and no rows; a loaded scope its own page; otherwise, while the operator
      types, the rows last loaded for the branch, so the list does not go blank, and for another branch never those. */
  lemma ViewKeepsRows(e: Entry, branch: int, carried: Option<(int, Page)>)
    ensures var v := ResolveView(e, branch, carried);
            && (e.error.Some? ==> v.page.rows == [] && v.error == e.error && !v.loading)
            && (e.error.None? && e.loaded ==> v.page == e.page && !v.loading)
            && (e.error.None? && !e.loaded && carried.Some? && carried.value.0 == branch && carried.value.1.rows != [] ==>
                  v.page == carried.value.1 && v.loading)
            && (e.error.None? && !e.loaded && (carried.None? || carried.value.0 != branch || carried.value.1.rows == []) ==>
                  v.page == e.page && v.loading == e.loading)
            && (e.error.None? ==> v.error.None?)
  {
  }

  // ------------------------------------------------------------ which scopes are kept

  /** The keys of one branch, in order. */
  function OfBranch(keys: seq<Scope>, branch: int): seq<Scope> {
    if keys == [] then []
    else
      var init, k := OfBranch(keys[..|keys| - 1], branch), keys[|keys| - 1];
      if k.branch == branch then init + [k] else init
  }

  lemma {:induction false} OfBranchIs(keys: seq<Scope>, branch: int, x: Scope)
    ensures x in OfBranch(keys, branch) <==> x in keys && x.branch == branch
    ensures |OfBranch(keys, branch)| <= |keys|
  {
    if keys != [] { OfBranchIs(keys[..|keys| - 1], branch, x); }
  }

  lemma {:induction false} OfBranchWithout(keys: seq<Scope>, branch: int, k: Scope)
    requires k.branch != branch
    ensures OfBranch(Without(keys, k), branch) == OfBranch(keys, branch)
  {
    if keys != [] {
      var init, last := keys[..|keys| - 1], keys[|keys| - 1];
      OfBranchWithout(init, branch, k);
      if last != k { assert (Without(init, k) + [last])[..|Without(init, k)|] == Without(init, k); }
    }
  }

  lemma {:induction false} OfBranchAll(keys: seq<Scope>, branch: int)
    requires forall x :: x in keys ==> x.branch == branch
    ensures OfBranch(keys, branch) == keys
  {
    if keys != [] {
      OfBranchAll(keys[..|keys| - 1], branch);
      assert keys == keys[..|keys| - 1] + [keys[|keys| - 1]];
    }
  }

  lemma {:induction false} WithoutDistinct(keys: seq<Scope>, k: Scope)
    requires Distinct(keys)
    ensures Distinct(Without(keys, k))
  {
    if keys != [] {
      var init := keys[..|keys| - 1];
      WithoutDistinct(init, k);
      WithoutKeeps(init, k, keys[|keys| - 1]);
      assert keys[|keys| - 1] !in init;
    }
  }

  lemma DeleteValid(m: OrderedMap<Scope, Entry>, k: Scope)
    requires m.Valid()
    ensures m.Delete(k).Valid()
  {
    WithoutDistinct(m.keys, k);
    forall x ensures x in m.Delete(k).keys <==> x in m.Delete(k).vals { WithoutKeeps(m.keys, k, x); }
  }

  lemma {:induction false} WithoutFirst(keys: seq<Scope>)
    requires keys != [] && Distinct(keys)
    ensures Without(keys, keys[0]) == keys[1..]
  {
    if |keys| == 1 {
      assert keys[..0] == [];
    } else {
      var init := keys[..|keys| - 1];
      WithoutFirst(init);
      assert init[1..] + [keys[|keys| - 1]] == keys[1..];
    }
  }

  lemma {:induction false} DropOthersKeeps(s: State, keys: seq<Scope>, branch: int)
    requires s.entries.Valid() && forall x :: x in s.entries.keys && x.branch != branch ==> x in keys
    ensures var t := DropOthers(s, keys, branch); t.entries.Valid() && t.entries.keys == OfBranch(s.entries.keys, branch)
    decreases |keys|
  {
    if keys == [] {
      OfBranchAll(s.entries.keys, branch);
    } else if keys[0].branch != branch {
      DeleteValid(s.entries, keys[0]);
      OfBranchWithout(s.entries.keys, branch, keys[0]);
      forall x | x in Without(s.entries.keys, keys[0]) && x.branch != branch ensures x in keys[1..] {
        WithoutKeeps(s.entries.keys, keys[0], x);
      }
      DropOthersKeeps(Drop(s, keys[0]), keys[1..], branch);
    } else {
      DropOthersKeeps(s, keys[1..], branch);
    }
  }

  /** The scope is let go: it is not the one being read, and six or more newer ones are kept. */
  predicate LetGo(keys: seq<Scope>, k: Scope, i: nat)
    requires i < |keys|
  {
    keys[i] != k && |keys| - i > 6
  }

  lemma {:induction false} DropOldestKeeps(s: State, k: Scope) returns (d: nat)
    requires s.entries.Valid()
    ensures d <= |s.entries.keys|
    ensures var t := DropOldest(s, k); t.entries.Valid() && t.entries.keys == s.entries.keys[d..]
    ensures forall i :: 0 <= i < d ==> LetGo(s.entries.keys, k, i)
    ensures d == |s.entries.keys| || !LetGo(s.entries.keys, k, d)
    decreases |s.entries.keys|
  {
    var keys := s.entries.keys;
    d := 0;
    if |keys| > 6 && keys[0] != k {
      DeleteValid(s.entries, keys[0]);
      WithoutFirst(keys);
      var e := DropOldestKeeps(Drop(s, keys[0]), k);
      d := e + 1;
      forall i | 0 <= i < d ensures LetGo(keys, k, i) {
        if i > 0 { assert LetGo(keys[1..], k, i - 1); }
      }
      if d < |keys| { assert !LetGo(keys[1..], k, e); }
    }
  }

  /** A read keeps its own branch's scopes only, and of these all but the oldest beyond six; it never drops its own, nor any
      newer than that. Kept scopes show what they did. */
  lemma PruneExactly(s: State, k: Scope) returns (d: nat)
    requires s.entries.Valid()
    ensures var own, t := OfBranch(s.entries.keys, k.branch), Prune(s, k);
            && d <= |own| && t.entries.Valid() && t.entries.keys == own[d..]
            && (forall i :: 0 <= i < d ==> LetGo(own, k, i))
            && (d == |own| || !LetGo(own, k, d))
    ensures forall x :: x in Prune(s, k).entries.vals ==> x in s.entries.vals && EntryAt(Prune(s, k), x) == EntryAt(s, x)
  {
    DropOthersKeeps(s, s.entries.keys, k.branch);
    d := DropOldestKeeps(DropOthers(s, s.entries.keys, k.branch), k);
    PruneFewer(s, k);
  }

  // ------------------------------------------------------------ how many there are

  /** More scopes than a read leaves: the six it keeps and its own. */
  predicate Crowded(s: State) { |s.entries.keys| > 7 }

  lemma FiledKeeps(s: State, k: Scope, e: Entry)
    requires s.entries.Valid()
    ensures var m := s.entries.Put(k, e); m.Valid() && |m.keys| == |s.entries.keys| + if k in s.entries.vals then 0 else 1
  {
    PutValid(s.entries, k, e);
  }

  lemma StartKeeps(s: State, k: Scope, force: bool)
    requires s.entries.Valid()
    ensures Start(s, k, force).entries.Valid()
    ensures !Crowded(s) ==> !Crowded(Start(s, k, force))
    ensures force ==> forall x :: x in Start(s, k, force).entries.keys ==> x.branch == k.branch
  {
    if force || !(EntryAt(s, k).loaded || EntryAt(s, k).loading) {
      SentKeeps(s, k, if force then EntryAt(s, k).page else NO_PAGE);
    }
  }

  lemma SentKeeps(s: State, k: Scope, page: Page)
    requires s.entries.Valid()
    ensures var t := Sent(s, k, page);
            && t.entries.Valid() && (forall x :: x in t.entries.keys ==> x.branch == k.branch)
            && |t.entries.keys| <= Max(|s.entries.keys|, 7)
  {
    var u := s.(tokens := s.tokens[k := TokenOf(s, k) + 1]);
    PruneLeaves(u, k);
    FiledKeeps(Prune(u, k), k, Entry(page, true, None, false));
  }

  lemma PruneLeaves(u: State, k: Scope)
    requires u.entries.Valid()
    ensures var p := Prune(u, k);
            && p.entries.Valid() && (forall x :: x in p.entries.keys ==> x.branch == k.branch)
            && |p.entries.keys| <= |u.entries.keys| && (k in p.entries.vals || |p.entries.keys| <= 6)
  {
    var d := PruneExactly(u, k);
    var own := OfBranch(u.entries.keys, k.branch);
    OfBranchIs(u.entries.keys, k.branch, k);
    forall x | x in own ensures x.branch == k.branch { OfBranchIs(u.entries.keys, k.branch, x); }
    if k !in Prune(u, k).entries.vals && d < |own| { assert own[d] == Prune(u, k).entries.keys[0]; }
  }

  lemma {:induction false} StartAllKeeps(s: State, ks: seq<Scope>)
    requires s.entries.Valid()
    ensures StartAll(s, ks).entries.Valid() && (!Crowded(s) ==> !Crowded(StartAll(s, ks)))
    decreases |ks|
  {
    if ks != [] {
      StartKeeps(s, ks[0], true);
      StartAllKeeps(Start(s, ks[0], true), ks[1..]);
    }
  }

  lemma {:induction false} RefreshEachKeeps(s: State, ks: seq<Scope>)
    requires s.entries.Valid()
    ensures RefreshEach(s, ks).entries.Valid() && (!Crowded(s) ==> !Crowded(RefreshEach(s, ks)))
    decreases |ks|
  {
    if ks != [] {
      StartKeeps(Demanded(s, ks[0]), ks[0], true);
      RefreshEachKeeps(RefreshOf(s, ks[0]), ks[1..]);
    }
  }

  /** The event answers the newest read of a scope that was dropped meanwhile, while seven are kept: it is filed as an
      eighth. */
  predicate Overcrowds(s: State, e: Event) {
    && ((e.EvArrived? && Awaited(s, e.ticket)) || (e.EvFailed? && Awaited(s, e.ticket)))
    && e.ticket.scope !in s.entries.vals && |s.entries.keys| == 7
  }

  lemma ArrivedKeeps(s: State, t: Ticket, page: Page)
    requires s.entries.Valid()
    ensures var u := Arrived(s, t, page).entries;
            u.Valid() && |u.keys| == |s.entries.keys| + if Awaited(s, t) && t.scope !in s.entries.vals then 1 else 0
  {
    FiledKeeps(s, t.scope, Entry(page, false, None, true));
  }

  lemma FailedKeeps(s: State, t: Ticket, m: Message)
    requires s.entries.Valid()
    ensures var u := Failed(s, t, m).entries;
            u.Valid() && |u.keys| == |s.entries.keys| + if Awaited(s, t) && t.scope !in s.entries.vals then 1 else 0
  {
    FiledKeeps(s, t.scope, Entry(NO_PAGE, false, Some(m), false));
  }

  lemma StepKeeps(s: State, e: Event)
    requires s.entries.Valid()
    ensures Step(s, e).entries.Valid()
    ensures !Crowded(s) ==> (Crowded(Step(s, e)) <==> Overcrowds(s, e))
  {
    match e
    case EvEnsure(k, q) => EnsureKeeps(s, k, q);
    case EvRefresh(k) => RefreshEachKeeps(s, if k.Some? then [k.value] else s.requested.keys);
    case EvTask => TaskKeeps(s);
    case EvArrived(t, page) => ArrivedKeeps(s, t, page);
    case EvFailed(t, m) => FailedKeeps(s, t, m);
    case _ => QuietKeeps(s, e);
  }

  lemma EnsureKeeps(s: State, k: Scope, q: Option<Query>)
    requires s.entries.Valid()
    ensures EnsureLoaded(s, k, q).entries.Valid() && (!Crowded(s) ==> !Crowded(EnsureLoaded(s, k, q)))
  {
    StartKeeps(Subscribed(s, k, q), k, false);
  }

  lemma QuietKeeps(s: State, e: Event)
    requires s.entries.Valid() && StartsNothing(e) && !e.EvArrived? && !e.EvFailed?
    ensures QuietStep(s, e).entries == if e.EvReset? then OrderedMap([], map[]) else s.entries
  {
    if e.EvReset? { assert QuietStep(s, e) == Reset(s); }
  }

  lemma TaskKeeps(s: State)
    requires s.entries.Valid()
    ensures InvalidateTask(s).entries.Valid() && (!Crowded(s) ==> !Crowded(InvalidateTask(s)))
  {
    if s.invalidateQueued && s.subscribers > 0 { StartAllKeeps(s.(invalidateQueued := false), s.requested.keys); }
  }

  lemma {:induction false} RunKeeps(es: seq<Event>)
    ensures Run(INIT, es).entries.Valid()
  {
    if es != [] {
      RunKeeps(es[..|es| - 1]);
      StepKeeps(Run(INIT, es[..|es| - 1]), es[|es| - 1]);
    }
  }

  predicate NeverCrowded(es: seq<Event>) {
    !Crowded(Run(INIT, es)) && (es != [] ==> NeverCrowded(es[..|es| - 1]))
  }

  predicate NothingOvercrowds(es: seq<Event>) {
    es != [] ==> !Overcrowds(Run(INIT, es[..|es| - 1]), es[|es| - 1]) && NothingOvercrowds(es[..|es| - 1])
  }

  /** A run never keeps more than seven scopes if and only if no late answer of a dropped scope comes while it keeps seven. */
  lemma {:induction false} NeverCrowdedExactly(es: seq<Event>)
    ensures NeverCrowded(es) <==> NothingOvercrowds(es)
  {
    if es != [] {
      var init := es[..|es| - 1];
      NeverCrowdedExactly(init);
      RunKeeps(init);
      StepKeeps(Run(INIT, init), es[|es| - 1]);
    }
  }

  /** A demand for `x` and then one for each of `ks`. */
  function Demands(x: Scope, ks: seq<Scope>): seq<Event> {
    if ks == [] then [EvEnsure(x, Some(x))] else Demands(x, ks[..|ks| - 1]) + [EvEnsure(ks[|ks| - 1], Some(ks[|ks| - 1]))]
  }

  /** After a demand for `x` of another branch, the demands for `ks` have left exactly their scopes, and `x`'s read is out. */
  ghost predicate Filled(s: State, x: Scope, ks: seq<Scope>) {
    s.entries.Valid() && s.entries.keys == (if ks == [] then [x] else ks) && Awaited(s, Ticket(x, 1))
  }

  lemma PruneSpares(s: State, k: Scope)
    requires s.entries.Valid() && |OfBranch(s.entries.keys, k.branch)| <= 6
    ensures var p := Prune(s, k);
            p.entries.Valid() && p.entries.keys == OfBranch(s.entries.keys, k.branch) && p.pending == s.pending && p.tokens == s.tokens
  {
    var d := PruneExactly(s, k);
    PruneFewer(s, k);
    var own := OfBranch(s.entries.keys, k.branch);
    assert own == [] || !LetGo(own, k, 0);
  }

  lemma FirstReadKeeps(s: State, k: Scope)
    requires s.entries.Valid() && k !in s.entries.keys && |OfBranch(s.entries.keys, k.branch)| <= 6
    ensures var t := Start(s, k, false);
            && t.entries.Valid() && t.entries.keys == OfBranch(s.entries.keys, k.branch) + [k]
            && t.pending == s.pending + {Ticket(k, TokenOf(s, k) + 1)} && t.tokens == s.tokens[k := TokenOf(s, k) + 1]
  {
    var u := s.(tokens := s.tokens[k := TokenOf(s, k) + 1]);
    OfBranchIs(s.entries.keys, k.branch, k);
    PruneSpares(u, k);
    PutValid(Prune(u, k).entries, k, Entry(NO_PAGE, true, None, false));
  }

  lemma FillOne(s: State, x: Scope, ks: seq<Scope>, k: Scope)
    requires Filled(s, x, ks) && |ks| <= 6 && k !in ks && k.branch != x.branch && forall y :: y in ks ==> y.branch == k.branch
    ensures Filled(Step(s, EvEnsure(k, Some(k))), x, ks + [k])
  {
    if ks == [] { OnlyOther(x, k.branch); } else { OfBranchAll(ks, k.branch); }
    FirstReadKeeps(Subscribed(s, k, Some(k)), k);
  }

  lemma OnlyOther(x: Scope, branch: int)
    requires x.branch != branch
    ensures OfBranch([x], branch) == []
  {
  }

  lemma FillNext(es: seq<Event>, x: Scope, ks: seq<Scope>, k: Scope)
    requires Filled(Run(INIT, es), x, ks)
    requires |ks| <= 6 && k !in ks && k.branch != x.branch && forall y :: y in ks ==> y.branch == k.branch
    ensures Filled(Run(INIT, es + [EvEnsure(k, Some(k))]), x, ks + [k])
  {
    FillOne(Run(INIT, es), x, ks, k);
    assert (es + [EvEnsure(k, Some(k))])[..|es|] == es;
  }

  /** One branch, and not `x`'s. */
  predicate Elsewhere(ks: seq<Scope>, x: Scope) { forall y, z :: y in ks && z in ks ==> y.branch == z.branch != x.branch }

  lemma Shorter(ks: seq<Scope>, x: Scope)
    requires ks != [] && Distinct(ks) && Elsewhere(ks, x)
    ensures var init, k := ks[..|ks| - 1], ks[|ks| - 1];
            && init + [k] == ks && Distinct(init) && Elsewhere(init, x)
            && k !in init && k.branch != x.branch && forall y :: y in init ==> y.branch == k.branch
  {
    var init, k := ks[..|ks| - 1], ks[|ks| - 1];
    assert k in ks && forall y :: y in init ==> y in ks;
  }

  lemma {:induction false} FillRun(x: Scope, ks: seq<Scope>)
    requires |ks| <= 7 && Distinct(ks) && Elsewhere(ks, x)
    ensures Filled(Run(INIT, Demands(x, ks)), x, ks)
  {
    if ks == [] {
      FirstRead(x);
    } else {
      var init, k := ks[..|ks| - 1], ks[|ks| - 1];
      Shorter(ks, x);
      FillRun(x, init);
      FillNext(Demands(x, init), x, init, k);
    }
  }

  lemma FirstRead(x: Scope)
    ensures Filled(Run(INIT, [EvEnsure(x, Some(x))]), x, [])
  {
    assert [EvEnsure(x, Some(x))][..0] == [];
    var q := Subscribed(INIT, x, Some(x));
    var u := q.(tokens := q.tokens[x := 1]);
    assert Prune(u, x) == u;
  }

  /** The bad run: a read is out for one branch, the user moves to another and types seven terms, the answer arrives: eight
      scopes are kept, one of them of the branch that was left. */
  lemma CrowdHappens(x: Scope, ks: seq<Scope>, page: Page)
    requires |ks| == 7 && Distinct(ks) && Elsewhere(ks, x)
    ensures var s := Run(INIT, Demands(x, ks) + [EvArrived(Ticket(x, 1), page)]);
            s.entries.keys == ks + [x] && EntryAt(s, x) == Entry(page, false, None, true)
  {
    var before := Demands(x, ks);
    FillRun(x, ks);
    assert x !in ks;
    LateAnswer(Run(INIT, before), x, ks, page);
    assert (before + [EvArrived(Ticket(x, 1), page)])[..|before|] == before;
  }

  lemma LateAnswer(s: State, x: Scope, ks: seq<Scope>, page: Page)
    requires Filled(s, x, ks) && ks != [] && x !in ks
    ensures var t := Step(s, EvArrived(Ticket(x, 1), page)); t.entries.keys == ks + [x] && EntryAt(t, x) == Entry(page, false, None, true)
  {
    AnswerShows(s, Ticket(x, 1), page, 0, x);
  }

  // ------------------------------------------------------------ for whom

  /** How many hosts want a scope after a run: a retry counts one where there is none, a reset forgets them all. */
  function Wants(es: seq<Event>, k: Scope): nat {
    if es == [] then 0
    else
      var before := Wants(es[..|es| - 1], k);
      match es[|es| - 1]
      case EvEnsure(x, _) => if x == k then before + 1 else before
      case EvRelease(x) => if x == k && before > 0 then before - 1 else before
      case EvRefresh(x) => if x == Some(k) && before == 0 then 1 else before
      case EvReset => 0
      case _ => before
  }

  /** How many are subscribed after a run; an unsubscription follows its subscription, so none comes at zero. */
  function Hosts(es: seq<Event>): nat {
    if es == [] then 0
    else
      var before := Hosts(es[..|es| - 1]);
      match es[|es| - 1]
      case EvSubscribe => before + 1
      case EvUnsubscribe => if before == 0 then 0 else before - 1
      case _ => before
  }

  /** An invalidation has come since the last time a refetch fired; not even a reset takes it back. */
  predicate RefetchDue(es: seq<Event>) {
    es != [] && (es[|es| - 1].EvInvalidate? || (!es[|es| - 1].EvTask? && RefetchDue(es[..|es| - 1])))
  }

  /** The parts of the state that reads do not touch. */
  predicate SameHosts(s: State, t: State) {
    t.requested == s.requested && t.subscribers == s.subscribers && t.invalidateQueued == s.invalidateQueued && t.generation == s.generation
  }

  lemma StartSame(s: State, k: Scope, force: bool)
    ensures SameHosts(s, Start(s, k, force))
  {
    PruneFewer(s.(tokens := s.tokens[k := TokenOf(s, k) + 1]), k);
  }

  lemma {:induction false} StartAllSame(s: State, ks: seq<Scope>)
    ensures SameHosts(s, StartAll(s, ks))
    decreases |ks|
  {
    if ks != [] {
      StartSame(s, ks[0], true);
      StartAllSame(Start(s, ks[0], true), ks[1..]);
    }
  }

  /** Every stored count is positive. */
  ghost predicate Positive(s: State) { s.requested.Valid() && forall k :: k in s.requested.vals ==> s.requested.vals[k] > 0 }

  lemma RefreshOfCounts(s: State, x: Scope, k: Scope)
    requires Positive(s)
    ensures var t := RefreshOf(s, x);
            && Positive(t) && Count(t, k) == (if x == k then Max(1, Count(s, k)) else Count(s, k))
            && t.subscribers == s.subscribers && t.invalidateQueued == s.invalidateQueued && t.generation == s.generation
  {
    PutValid(s.requested, x, Max(1, Count(s, x)));
    StartSame(Demanded(s, x), x, true);
  }

  lemma {:induction false} RefreshEachCounts(s: State, ks: seq<Scope>, k: Scope)
    requires Positive(s)
    ensures var t := RefreshEach(s, ks);
            && Positive(t) && Count(t, k) == (if k in ks then Max(1, Count(s, k)) else Count(s, k))
            && t.subscribers == s.subscribers && t.invalidateQueued == s.invalidateQueued && t.generation == s.generation
    decreases |ks|
  {
    if ks != [] {
      RefreshOfCounts(s, ks[0], k);
      RefreshEachCounts(RefreshOf(s, ks[0]), ks[1..], k);
    }
  }

  lemma StepCounts(s: State, e: Event, k: Scope)
    requires Positive(s)
    ensures Positive(Step(s, e))
    ensures Count(Step(s, e), k) == match e
                                    case EvEnsure(x, _) => if x == k then Count(s, k) + 1 else Count(s, k)
                                    case EvRelease(x) => if x == k && Count(s, k) > 0 then Count(s, k) - 1 else Count(s, k)
                                    case EvRefresh(x) => if x == Some(k) && Count(s, k) == 0 then 1 else Count(s, k)
                                    case EvReset => 0
                                    case _ => Count(s, k)
  {
    match e
    case EvEnsure(x, q) => EnsureCounts(s, x, q, k);
    case EvRelease(x) => ReleaseCounts(s, x, k);
    case EvRefresh(x) => RefreshEachCounts(s, if x.Some? then [x.value] else s.requested.keys, k);
    case EvTask => TaskSame(s);
    case EvArrived(t, page) => ArrivedSame(s, t, page);
    case EvFailed(t, m) => FailedSame(s, t, m);
    case EvReset => assert Step(s, e) == Reset(s);
    case _ =>
  }

  lemma ArrivedSame(s: State, t: Ticket, page: Page)
    ensures SameHosts(s, Arrived(s, t, page))
  {
  }

  lemma FailedSame(s: State, t: Ticket, m: Message)
    ensures SameHosts(s, Failed(s, t, m))
  {
  }

  lemma EnsureCounts(s: State, x: Scope, q: Option<Query>, k: Scope)
    requires Positive(s)
    ensures var t := EnsureLoaded(s, x, q);
            && Positive(t) && Count(t, k) == (if x == k then Count(s, k) + 1 else Count(s, k))
            && t.subscribers == s.subscribers && t.invalidateQueued == s.invalidateQueued
  {
    PutValid(s.requested, x, Count(s, x) + 1);
    StartSame(Subscribed(s, x, q), x, false);
  }

  lemma TaskSame(s: State)
    ensures var t := InvalidateTask(s); t.requested == s.requested && t.subscribers == s.subscribers && !t.invalidateQueued
  {
    if s.invalidateQueued { StartAllSame(s.(invalidateQueued := false), s.requested.keys); }
  }

  lemma ReleaseCounts(s: State, x: Scope, k: Scope)
    requires Positive(s)
    ensures Positive(Release(s, x))
    ensures Count(Release(s, x), k) == if x == k && Count(s, k) > 0 then Count(s, k) - 1 else Count(s, k)
  {
    if Count(s, x) > 1 {
      PutValid(s.requested, x, Count(s, x) - 1);
    } else {
      WithoutDistinct(s.requested.keys, x);
      forall y ensures y in s.requested.Delete(x).keys <==> y in s.requested.Delete(x).vals { WithoutKeeps(s.requested.keys, x, y); }
    }
  }

  lemma StepFlags(s: State, e: Event)
    requires Positive(s)
    ensures Step(s, e).subscribers == match e
                                      case EvSubscribe => s.subscribers + 1
                                      case EvUnsubscribe => if s.subscribers == 0 then 0 else s.subscribers - 1
                                      case _ => s.subscribers
    ensures Step(s, e).invalidateQueued <==> e.EvInvalidate? || (!e.EvTask? && s.invalidateQueued)
  {
    match e
    case EvEnsure(x, q) => EnsureCounts(s, x, q, x);
    case EvRefresh(x) => RefreshEachCounts(s, if x.Some? then [x.value] else s.requested.keys, Scope(0, 0));
    case EvTask => TaskSame(s);
    case _ => QuietFlags(s, e);
  }

  lemma QuietFlags(s: State, e: Event)
    requires StartsNothing(e)
    ensures var t := QuietStep(s, e);
            && t.subscribers == (if e.EvSubscribe? then s.subscribers + 1
                                 else if e.EvUnsubscribe? && s.subscribers > 0 then s.subscribers - 1 else s.subscribers)
            && (t.invalidateQueued <==> e.EvInvalidate? || s.invalidateQueued)
  {
    match e
    case EvArrived(t, page) => ArrivedSame(s, t, page);
    case EvFailed(t, m) => FailedSame(s, t, m);
    case _ =>
  }

  /** In every run the counts are what the history says: a scope is refetched while some host wants it. */
  lemma {:induction false} WantsAreHistory(es: seq<Event>, k: Scope)
    ensures var s := Run(INIT, es);
            && Positive(s) && Count(s, k) == Wants(es, k) && (k in s.requested.keys <==> Wants(es, k) > 0)
            && s.subscribers == Hosts(es) && (s.invalidateQueued <==> RefetchDue(es))
  {
    if es != [] {
      var init, e := es[..|es| - 1], es[|es| - 1];
      WantsAreHistory(init, k);
      StepCounts(Run(INIT, init), e, k);
      StepFlags(Run(INIT, init), e);
    }
  }
}
