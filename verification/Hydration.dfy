/**
 * The hydration protocol of App.tsx around the slice gate: slice requests, full payloads, view switches
 * and dismissals interleave freely, and responses arrive late, out of order or as failures.
 */
module Hydration {
  import opened Collections
  import opened BootstrapSlices

  /** A payload that reached the screen, with the view it was fetched for and the view it was shown in; for a full
      payload also the view on screen when its refresh began. */
  datatype Paint =
    | SlicePaint(key: Key, no: nat, scope: View, shownIn: View, version: Option<int>)
    | FullPaint(keys: seq<Key>, no: nat, scope: View, begunIn: View, shownIn: View, version: Option<int>)

  /** A full refresh in flight: the view its caller's closure captured, and the view on screen when it began. */
  datatype Refresh = Refresh(scope: View, begunIn: View)

  datatype State = State(slices: Slices, gate: Gate, view: View, refreshSeq: nat,
                         pending: map<nat, Request>, pendingFull: map<nat, Refresh>, paints: seq<Paint>)

  datatype Event =
    | BeginSlice(key: Key, scope: View)
    | SliceArrived(no: nat, served: bool, version: Option<int>)
    | SliceFailed(no: nat, message: Message)
    | BeginFull(captured: View)
    | FullArrived(no: nat, keys: seq<Key>, fullVersion: Option<int>)
    | FullFailed(no: nat)
    | SwitchView(view: View)
    | Dismiss

  function Init(view: View): State {
    State(map[], Gate(0, map[], map[]), view, 0, map[], map[], [])
  }

  function StartSlice(s: State, k: Key, scope: View): State {
    var n := s.gate.no + 1;
    s.(slices := BeginSliceLoad(s.slices, k),
       gate := Gate(n, s.gate.latest[k := n], s.gate.applied),
       pending := s.pending[n := Request(k, scope, n)])
  }

  /** A refresh asks for the view its closure captured, which need not be the one on screen. */
  function StartFull(s: State, captured: View): State {
    s.(refreshSeq := s.refreshSeq + 1, pendingFull := s.pendingFull[s.refreshSeq + 1 := Refresh(captured, s.view)])
  }

  /** One step; a response to a request that is not in flight does nothing. */
  function Step(s: State, e: Event): State {
    match e
    case BeginSlice(k, scope) => StartSlice(s, k, scope)
    case SliceArrived(n, served, version) =>
      if n !in s.pending then s
      else
        var r := s.pending[n];
        var t := s.(pending := s.pending - {n});
        var verdict := Verdict(s.gate, r, s.view, version);
        if verdict == Superseded then t
        else if verdict == Apply && served then
          t.(slices := MarkSliceReady(s.slices, r.key, version),
             paints := s.paints + [SlicePaint(r.key, n, r.scope, s.view, version)])
        else t.(slices := SettleSliceDiscarded(s.slices, r.key))
    case SliceFailed(n, m) =>
      if n !in s.pending then s
      else
        var r := s.pending[n];
        var t := s.(pending := s.pending - {n});
        var verdict := Verdict(s.gate, r, s.view, None);
        if verdict == Superseded then t
        else if verdict == Apply then t.(slices := MarkSliceError(s.slices, r.key, m))
        else t.(slices := SettleSliceDiscarded(s.slices, r.key))
    case BeginFull(captured) => StartFull(s, captured)
    case FullArrived(n, keys, version) =>
      if n !in s.pendingFull then s
      else
        var t := s.(pendingFull := s.pendingFull - {n});
        if n != s.refreshSeq then t
        else
          t.(slices := MarkSlicesReady(s.slices, keys, version),
             gate := s.gate.(applied := Noted(s.gate.applied, keys, version)),
             paints := s.paints + [FullPaint(keys, n, s.pendingFull[n].scope, s.pendingFull[n].begunIn, s.view, version)])
    case FullFailed(n) => s.(pendingFull := s.pendingFull - {n})
    case SwitchView(v) => StartFull(s.(view := v), v)
    case Dismiss => s.(slices := DismissSliceErrors(s.slices))
  }

  lemma StepDismiss(s: State)
    ensures Step(s, Dismiss) == s.(slices := DismissSliceErrors(s.slices))
  {
  }

  function Run(s: State, es: seq<Event>): State {
    if es == [] then s else Step(Run(s, es[..|es| - 1]), es[|es| - 1])
  }

  /** The version of the last full payload that carried key `k` and a version. */
  function LastFull(ps: seq<Paint>, k: Key): Option<int> {
    if ps == [] then None
    else
      var p := ps[|ps| - 1];
      if p.FullPaint? && k in p.keys && p.version.Some? then p.version else LastFull(ps[..|ps| - 1], k)
  }

  // ---------------------------------------------------------------- invariants

  /** A key is loading only while its newest request is in flight. */
  ghost predicate LoadingInFlight(s: State, k: Key) {
    EntryOf(s.slices, k).status == Loading ==>
      k in s.gate.latest && s.gate.latest[k] in s.pending && s.pending[s.gate.latest[k]].key == k
  }

  ghost predicate RequestsNumbered(s: State) { SlicesNumbered(s) && RefreshesNumbered(s) }

  ghost predicate SlicesNumbered(s: State) {
    && (forall n :: n in s.pending ==>
          && s.pending[n].no == n && n <= s.gate.no
          && s.pending[n].key in s.gate.latest && n <= s.gate.latest[s.pending[n].key])
    && (forall k :: k in s.gate.latest ==> s.gate.latest[k] <= s.gate.no)
  }

  ghost predicate RefreshesNumbered(s: State) {
    && (forall n :: n in s.pendingFull ==> n <= s.refreshSeq)
    && (s.refreshSeq in s.pendingFull ==> s.pendingFull[s.refreshSeq].begunIn == s.view)
  }

  /** What each painted payload must satisfy, given what was painted before it. */
  ghost predicate PaintFine(s: State, i: nat)
    requires i < |s.paints|
  {
    var p := s.paints[i];
    && (p.FullPaint? ==>
          && p.shownIn == p.begunIn
          && p.no <= s.refreshSeq && p.no !in s.pendingFull
          && (forall j :: 0 <= j < i && s.paints[j].FullPaint? ==> s.paints[j].no < p.no))
    && (p.SlicePaint? ==>
          && p.scope == p.shownIn
          && p.no !in s.pending
          && p.key in s.gate.latest && p.no <= s.gate.latest[p.key]
          && (p.version.Some? && LastFull(s.paints[..i], p.key).Some? ==> p.version.value >= LastFull(s.paints[..i], p.key).value)
          && (forall j :: 0 <= j < i && s.paints[j].SlicePaint? && s.paints[j].key == p.key ==> s.paints[j].no < p.no))
  }

  ghost predicate AppliedIsLastFull(s: State, k: Key) {
    if k in s.gate.applied then LastFull(s.paints, k) == Some(s.gate.applied[k]) else LastFull(s.paints, k) == None
  }

  ghost predicate Inv(s: State) {
    && RequestsNumbered(s)
    && (forall k :: LoadingInFlight(s, k))
    && (forall i :: 0 <= i < |s.paints| ==> PaintFine(s, i))
    && (forall k :: AppliedIsLastFull(s, k))
  }

  lemma StepNumbered(s: State, e: Event)
    requires RequestsNumbered(s)
    ensures RequestsNumbered(Step(s, e))
  {
    StepSlices(s, e);
    StepFull(s, e);
  }

  lemma StepSlices(s: State, e: Event)
    requires SlicesNumbered(s)
    ensures SlicesNumbered(Step(s, e))
  {
    if e.BeginSlice? { BeginNumbered(s, e.key, e.scope); }
  }

  lemma BeginNumbered(s: State, k: Key, scope: View)
    requires SlicesNumbered(s)
    ensures SlicesNumbered(StartSlice(s, k, scope))
  {
  }

  lemma StepFull(s: State, e: Event)
    requires RefreshesNumbered(s)
    ensures RefreshesNumbered(Step(s, e))
  {
  }

  lemma StepLoading(s: State, e: Event, k: Key)
    requires RequestsNumbered(s) && LoadingInFlight(s, k)
    ensures LoadingInFlight(Step(s, e), k)
  {
    if e.FullArrived? { MarkSlicesReadyAt(s.slices, e.keys, e.fullVersion, k); }
  }

  lemma StepApplied(s: State, e: Event, k: Key)
    requires AppliedIsLastFull(s, k)
    ensures AppliedIsLastFull(Step(s, e), k)
  {
    if e.FullArrived? && e.no in s.pendingFull {
      FullSnoc(s.paints, FullPaint(e.keys, e.no, s.pendingFull[e.no].scope, s.pendingFull[e.no].begunIn, s.view, e.fullVersion), k);
    } else if e.SliceArrived? && e.no in s.pending {
      FullSnoc(s.paints, SlicePaint(s.pending[e.no].key, e.no, s.pending[e.no].scope, s.view, e.version), k);
    }
  }

  lemma FullSnoc(ps: seq<Paint>, p: Paint, k: Key)
    ensures LastFull(ps + [p], k) == if p.FullPaint? && k in p.keys && p.version.Some? then p.version else LastFull(ps, k)
  {
    assert (ps + [p])[..|ps|] == ps;
  }

  lemma NewPaint(s: State, e: Event)
    requires Inv(s) && |Step(s, e).paints| > |s.paints|
    ensures PaintFine(Step(s, e), |s.paints|)
  {
    var t, n := Step(s, e), |s.paints|;
    assert t.paints[..n] == s.paints;
    if e.SliceArrived? {
      var k := s.pending[e.no].key;
      assert AppliedIsLastFull(s, k);
      forall j | 0 <= j < n && s.paints[j].SlicePaint? && s.paints[j].key == k
        ensures s.paints[j].no < e.no
      {
        assert PaintFine(s, j);
      }
    } else {
      forall j | 0 <= j < n && s.paints[j].FullPaint? ensures s.paints[j].no < e.no { assert PaintFine(s, j); }
    }
  }

  lemma OldPaint(s: State, e: Event, i: nat)
    requires RequestsNumbered(s) && i < |s.paints| && PaintFine(s, i)
    ensures PaintFine(Step(s, e), i)
  {
    assert Step(s, e).paints[..i] == s.paints[..i];
  }

  lemma StepPaint(s: State, e: Event, i: nat)
    requires Inv(s) && i < |Step(s, e).paints|
    ensures PaintFine(Step(s, e), i)
  {
    if i < |s.paints| { OldPaint(s, e, i); } else { NewPaint(s, e); }
  }

  lemma StepInv(s: State, e: Event)
    requires Inv(s)
    ensures Inv(Step(s, e))
  {
    StepNumbered(s, e);
    forall k ensures LoadingInFlight(Step(s, e), k) && AppliedIsLastFull(Step(s, e), k) {
      assert LoadingInFlight(s, k) && AppliedIsLastFull(s, k);
      StepLoading(s, e, k);
      StepApplied(s, e, k);
    }
    forall i | 0 <= i < |Step(s, e).paints| ensures PaintFine(Step(s, e), i) { StepPaint(s, e, i); }
  }

  /** Every run keeps the invariant. */
  lemma {:induction false} RunInv(view: View, es: seq<Event>)
    ensures Inv(Run(Init(view), es))
  {
    if es != [] {
      RunInv(view, es[..|es| - 1]);
      StepInv(Run(Init(view), es[..|es| - 1]), es[|es| - 1]);
    }
  }

  // --------------------------------------------------------- main results, status

  /** Over every interleaving a loading key's newest request is in flight; once nothing is in flight, no
      key is left loading. */
  lemma NoStuckLoading(view: View, es: seq<Event>, k: Key)
    ensures var s := Run(Init(view), es);
            && (EntryOf(s.slices, k).status == Loading ==>
                  exists n :: n in s.pending && s.pending[n].key == k && k in s.gate.latest && s.gate.latest[k] == n)
            && (s.pending == map[] ==> EntryOf(s.slices, k).status != Loading)
  {
    RunInv(view, es);
    assert LoadingInFlight(Run(Init(view), es), k);
  }

  /** Over every interleaving: a key's slice payloads are shown in the order they were requested, full payloads in the
      order their refreshes began, and no slice payload carries a version below the last full payload noted for its
      key. */
  lemma PaintsAreOrdered(view: View, es: seq<Event>, i: nat, j: nat)
    requires i < j < |Run(Init(view), es).paints|
    ensures var ps := Run(Init(view), es).paints;
            && (ps[i].SlicePaint? && ps[j].SlicePaint? && ps[i].key == ps[j].key ==> ps[i].no < ps[j].no)
            && (ps[i].FullPaint? && ps[j].FullPaint? ==> ps[i].no < ps[j].no)
            && (ps[j].SlicePaint? && ps[j].version.Some? && LastFull(ps[..j], ps[j].key).Some? ==>
                  ps[j].version.value >= LastFull(ps[..j], ps[j].key).value)
            && (ps[i].FullPaint? && ps[j].SlicePaint? && ps[j].key in ps[i].keys && ps[i].version.Some? ==>
                  LastFull(ps[..j], ps[j].key).Some?)
  {
    RunInv(view, es);
    var s := Run(Init(view), es);
    assert PaintFine(s, j);
    if s.paints[i].FullPaint? && s.paints[j].SlicePaint? && s.paints[j].key in s.paints[i].keys && s.paints[i].version.Some? {
      FullIsRemembered(s.paints[..j], i, s.paints[j].key);
    }
  }

  /** Over every interleaving: a slice payload is only ever shown in the view it was fetched for, and a full payload in
      the view that was on screen when its refresh began. So a full payload is shown in a view it was not fetched for
      exactly when its closure had already gone stale at that moment. */
  lemma ShownWhereBegun(view: View, es: seq<Event>, j: nat)
    requires j < |Run(Init(view), es).paints|
    ensures var p := Run(Init(view), es).paints[j];
            && (p.SlicePaint? ==> p.scope == p.shownIn)
            && (p.FullPaint? ==> p.shownIn == p.begunIn && (p.scope != p.shownIn <==> p.scope != p.begunIn))
  {
    RunInv(view, es);
    assert PaintFine(Run(Init(view), es), j);
  }

  /** The step puts a payload on screen that was fetched for another view. */
  predicate ShowsForeign(s: State, e: Event) {
    var t := Step(s, e);
    |t.paints| > |s.paints| && t.paints[|t.paints| - 1].scope != t.paints[|t.paints| - 1].shownIn
  }

  /** Of all steps only one does that: the newest refresh arriving with a captured view other than the one on screen;
      the guard compares numbers only. */
  lemma ShowsForeignExactly(s: State, e: Event)
    requires Inv(s)
    ensures ShowsForeign(s, e) <==>
            e.FullArrived? && e.no in s.pendingFull && e.no == s.refreshSeq && s.pendingFull[e.no].scope != s.view
  {
  }

  /** No refresh of the run begins with a stale closure. */
  ghost predicate FreshClosures(view: View, es: seq<Event>) {
    forall i :: 0 <= i < |es| && es[i].BeginFull? ==> es[i].captured == Run(Init(view), es[..i]).view
  }

  lemma StepRefreshes(s: State, e: Event, n: nat)
    requires n in Step(s, e).pendingFull
    ensures var r := Step(s, e).pendingFull[n];
            || (n in s.pendingFull && r == s.pendingFull[n])
            || (e.BeginFull? && r == Refresh(e.captured, s.view))
            || (e.SwitchView? && r == Refresh(e.view, e.view))
  {
  }

  lemma FreshPrefix(view: View, es: seq<Event>)
    requires es != [] && FreshClosures(view, es)
    ensures var init, e := es[..|es| - 1], es[|es| - 1];
            FreshClosures(view, init) && (e.BeginFull? ==> e.captured == Run(Init(view), init).view)
  {
    var init := es[..|es| - 1];
    assert forall i :: 0 <= i < |init| ==> init[..i] == es[..i] && init[i] == es[i];
  }

  /** If every refresh begins with the view on screen, every refresh in flight was begun in its own view. */
  lemma {:induction false} FreshRefreshes(view: View, es: seq<Event>, n: nat)
    requires FreshClosures(view, es) && n in Run(Init(view), es).pendingFull
    ensures Run(Init(view), es).pendingFull[n].scope == Run(Init(view), es).pendingFull[n].begunIn
  {
    if es != [] {
      var init, e := es[..|es| - 1], es[|es| - 1];
      var s := Run(Init(view), init);
      FreshPrefix(view, es);
      StepRefreshes(s, e, n);
      if n in s.pendingFull { FreshRefreshes(view, init, n); }
    }
  }

  lemma {:induction false} FreshUpTo(view: View, es: seq<Event>, n: nat)
    requires FreshClosures(view, es) && n <= |es|
    ensures FreshClosures(view, es[..n])
  {
    assert forall i :: 0 <= i < n ==> es[..n][..i] == es[..i] && es[..n][i] == es[i];
  }

  /** A refresh begun with a stale closure shows its payload in the wrong view as soon as it is answered. */
  lemma StaleClosureShows(s: State, captured: View)
    requires Inv(s) && captured != s.view
    ensures var t := Step(s, BeginFull(captured)); ShowsForeign(t, FullArrived(t.refreshSeq, [], None))
  {
    StepInv(s, BeginFull(captured));
    var t := Step(s, BeginFull(captured));
    ShowsForeignExactly(t, FullArrived(t.refreshSeq, [], None));
  }

  /** At no moment of the run could an arriving payload be shown in a view it was not fetched for, if and only if every
      refresh of the run begins with the view on screen. */
  lemma ViewSafeExactly(view: View, es: seq<Event>)
    ensures (forall n, e :: 0 <= n <= |es| ==> !ShowsForeign(Run(Init(view), es[..n]), e)) <==> FreshClosures(view, es)
  {
    if FreshClosures(view, es) {
      forall n, e | 0 <= n <= |es| ensures !ShowsForeign(Run(Init(view), es[..n]), e) {
        RunInv(view, es[..n]);
        ShowsForeignExactly(Run(Init(view), es[..n]), e);
        FreshUpTo(view, es, n);
        if e.FullArrived? && e.no in Run(Init(view), es[..n]).pendingFull { FreshRefreshes(view, es[..n], e.no); }
      }
    } else {
      var i :| 0 <= i < |es| && es[i].BeginFull? && es[i].captured != Run(Init(view), es[..i]).view;
      RunInv(view, es[..i]);
      StaleClosureShows(Run(Init(view), es[..i]), es[i].captured);
      assert es[..i + 1] == es[..i] + [es[i]];
      RunSnoc(Init(view), es[..i], es[i]);
    }
  }

  lemma RunSnoc(s: State, es: seq<Event>, e: Event)
    ensures Run(s, es + [e]) == Step(Run(s, es), e)
  {
    assert (es + [e])[..|es + [e]| - 1] == es;
  }

  /** One step of a run, `next` being what it leads to. */
  predicate Leads(s: State, e: Event, next: State) { next == Step(s, e) }

  lemma RunLeads(start: State, es: seq<Event>, e: Event, s: State, next: State)
    requires s == Run(start, es) && Leads(s, e, next)
    ensures next == Run(start, es + [e])
  {
    RunSnoc(start, es, e);
  }

  lemma ThreeInARow<T>(a: T, b: T, c: T)
    ensures [] + [a] + [b] + [c] == [a, b, c]
  {
  }

  lemma FourInARow<T>(a: T, b: T, c: T, d: T)
    ensures [] + [a] + [b] + [c] + [d] == [a, b, c, d]
  {
  }

  /** The bad run: a handler awaits in view `a`, the user switches to `b` and its refresh starts, the handler resumes and
      refreshes with its old closure. `a`'s payload is painted in `b`, marked ready and noted, and `b`'s own payload,
      arriving later, is discarded. */
  lemma OldViewIsPainted(a: View, b: View, k: Key, v: int)
    requires a != b
    ensures var es := [SwitchView(b), BeginFull(a), FullArrived(2, [k], Some(v)), FullArrived(1, [k], Some(v))];
            var s := Run(Init(a), es);
            && s.view == b && s.pendingFull == map[]
            && s.paints == [FullPaint([k], 2, a, b, b, Some(v))]
            && EntryOf(s.slices, k) == Entry(Ready, Some(v), None, false) && s.gate.applied == map[k := v]
  {
    var e1, e2, e3, e4 := SwitchView(b), BeginFull(a), FullArrived(2, [k], Some(v)), FullArrived(1, [k], Some(v));
    var s1, s2 := StaleRefresh(a, b);
    var s3 := StaleAnswer(s2, a, b, k, v);
    var s4 := DiscardedAnswer(s3, b, k, v);
    RunLeads(Init(a), [], e1, Init(a), s1);
    RunLeads(Init(a), [] + [e1], e2, s1, s2);
    RunLeads(Init(a), [] + [e1] + [e2], e3, s2, s3);
    RunLeads(Init(a), [] + [e1] + [e2] + [e3], e4, s3, s4);
    FourInARow(e1, e2, e3, e4);
  }

  lemma StaleRefresh(a: View, b: View) returns (s: State, t: State)
    ensures Leads(Init(a), SwitchView(b), s) && Leads(s, BeginFull(a), t)
    ensures t == Init(a).(view := b, refreshSeq := 2, pendingFull := map[1 := Refresh(b, b), 2 := Refresh(a, b)])
  {
    s := Step(Init(a), SwitchView(b));
    t := Step(s, BeginFull(a));
  }

  lemma StaleAnswer(s: State, a: View, b: View, k: Key, v: int) returns (t: State)
    requires s == Init(a).(view := b, refreshSeq := 2, pendingFull := map[1 := Refresh(b, b), 2 := Refresh(a, b)])
    ensures Leads(s, FullArrived(2, [k], Some(v)), t)
    ensures t.view == b && t.refreshSeq == 2 && t.pendingFull == map[1 := Refresh(b, b)]
    ensures t.paints == [FullPaint([k], 2, a, b, b, Some(v))]
    ensures EntryOf(t.slices, k) == Entry(Ready, Some(v), None, false) && t.gate.applied == map[k := v]
  {
    t := Step(s, FullArrived(2, [k], Some(v)));
    MarkSlicesReadyAt(s.slices, [k], Some(v), k);
    assert t.pendingFull == map[1 := Refresh(b, b)];
    assert t.gate.applied == map[k := v];
  }

  lemma DiscardedAnswer(s: State, b: View, k: Key, v: int) returns (t: State)
    requires s.refreshSeq == 2 && s.pendingFull == map[1 := Refresh(b, b)]
    ensures Leads(s, FullArrived(1, [k], Some(v)), t)
    ensures t == s.(pendingFull := map[])
  {
    t := Step(s, FullArrived(1, [k], Some(v)));
    assert s.pendingFull - {1} == map[];
  }

  lemma {:induction false} FullIsRemembered(ps: seq<Paint>, i: nat, k: Key)
    requires i < |ps| && ps[i].FullPaint? && k in ps[i].keys && ps[i].version.Some?
    ensures LastFull(ps, k).Some?
  {
    if i < |ps| - 1 { FullIsRemembered(ps[..|ps| - 1], i, k); }
  }

  /** A served slice response moves the version on screen backwards exactly when the gate lets it through
      and it is older than what the key shows: applied slice versions are not noted, only full payloads. */
  lemma MovesBackExactly(s: State, n: nat, v: int)
    requires Inv(s) && n in s.pending
    ensures var k := s.pending[n].key;
            var before, after := EntryOf(s.slices, k).dataVersion, EntryOf(Step(s, SliceArrived(n, true, Some(v))).slices, k).dataVersion;
            (before.Some? && after.Some? && after.value < before.value) <==>
            && before.Some? && v < before.value
            && s.gate.latest[k] == n && s.pending[n].scope == s.view
            && (LastFull(s.paints, k).Some? ==> LastFull(s.paints, k).value <= v)
  {
    assert AppliedIsLastFull(s, s.pending[n].key);
  }

  /** Such a run exists: a slice at version 7 is followed by the same slice at version 6. */
  lemma ScreenCanMoveBack(view: View, k: Key)
    ensures var a := Run(Init(view), [BeginSlice(k, view), SliceArrived(1, true, Some(7)), BeginSlice(k, view)]);
            && EntryOf(a.slices, k).dataVersion == Some(7)
            && EntryOf(Step(a, SliceArrived(2, true, Some(6))).slices, k).dataVersion == Some(6)
  {
    var e1, e2, e3 := BeginSlice(k, view), SliceArrived(1, true, Some(7)), BeginSlice(k, view);
    var s0 := Init(view);
    var s1 := Step(s0, e1);
    var s2 := Step(s1, e2);
    var s3 := Step(s2, e3);
    RunLeads(s0, [], e1, s0, s1);
    RunLeads(s0, [] + [e1], e2, s1, s2);
    RunLeads(s0, [] + [e1] + [e2], e3, s2, s3);
    ThreeInARow(e1, e2, e3);
  }

  // --------------------------------------------------------- main results, errors

  /** The event shows a payload carrying key `k`. */
  predicate Paints(s: State, e: Event, k: Key) {
    var t := Step(s, e);
    |t.paints| > |s.paints| && Carries(t.paints[|t.paints| - 1], k)
  }

  /** The event is a failure of the newest request for `k`, in the view the user is still in. */
  predicate CurrentFailure(s: State, e: Event, k: Key) {
    && e.SliceFailed? && e.no in s.pending && s.pending[e.no].key == k
    && k in s.gate.latest && s.gate.latest[k] == e.no && s.pending[e.no].scope == s.view
  }

  /** Exactly what each step does to a key's recorded error and its dismissal. */
  lemma StepError(s: State, e: Event, k: Key)
    requires RequestsNumbered(s)
    ensures var a, b := EntryOf(s.slices, k), EntryOf(Step(s, e).slices, k);
            && (Paints(s, e, k) ==> b.error.None? && !b.dismissed)
            && (CurrentFailure(s, e, k) ==> b.error == Some(e.message) && (b.dismissed <==> a.error == Some(e.message) && a.dismissed))
            && (!Paints(s, e, k) && !CurrentFailure(s, e, k) ==>
                  b.error == a.error
                  && (a.error.Some? ==> (b.dismissed <==> a.dismissed || (e.Dismiss? && a.status == Failed))))
  {
    if e.FullArrived? { MarkSlicesReadyAt(s.slices, e.keys, e.fullVersion, k); }
  }

  /** No step of the run from `s` shows a payload for `k`. */
  predicate Unpainted(s: State, es: seq<Event>, k: Key) {
    es != [] ==> !Paints(Run(s, es[..|es| - 1]), es[|es| - 1], k) && Unpainted(s, es[..|es| - 1], k)
  }

  /** Every failure of `k`'s newest request that the run from `s` records has a message in `ms`. */
  predicate FailsOnlyWith(s: State, es: seq<Event>, k: Key, ms: set<Message>) {
    es != [] ==>
      && (CurrentFailure(Run(s, es[..|es| - 1]), es[|es| - 1], k) ==> es[|es| - 1].message in ms)
      && FailsOnlyWith(s, es[..|es| - 1], k, ms)
  }

  lemma {:induction false} RunNumbered(s: State, es: seq<Event>)
    requires RequestsNumbered(s)
    ensures RequestsNumbered(Run(s, es))
  {
    if es != [] {
      RunNumbered(s, es[..|es| - 1]);
      StepNumbered(Run(s, es[..|es| - 1]), es[|es| - 1]);
    }
  }

  /** Over every run an error, once recorded, stays recorded through retries, dismissals, discarded
      responses and further failures, until a payload for that key is shown; its message is the old one
      or one that a current failure brought. */
  lemma {:induction false} ErrorSurvives(s: State, es: seq<Event>, k: Key, ms: set<Message>)
    requires RequestsNumbered(s) && Unpainted(s, es, k) && FailsOnlyWith(s, es, k, ms)
    requires EntryOf(s.slices, k).error.Some? && EntryOf(s.slices, k).error.value in ms
    ensures EntryOf(Run(s, es).slices, k).error.Some? && EntryOf(Run(s, es).slices, k).error.value in ms
  {
    if es != [] {
      var init := es[..|es| - 1];
      ErrorSurvives(s, init, k, ms);
      RunNumbered(s, init);
      StepError(Run(s, init), es[|es| - 1], k);
    }
  }

  /** Over every run a dismissed message stays dismissed across retries and repeats of itself, until a
      payload is shown or a different message arrives. */
  lemma {:induction false} DismissalSurvives(s: State, es: seq<Event>, k: Key, m: Message)
    requires RequestsNumbered(s) && Unpainted(s, es, k) && FailsOnlyWith(s, es, k, {m})
    requires EntryOf(s.slices, k).error == Some(m) && EntryOf(s.slices, k).dismissed
    ensures EntryOf(Run(s, es).slices, k).error == Some(m) && k !in VisibleSliceErrors(Run(s, es).slices)
    ensures EntryOf(Run(s, es).slices, k).dismissed
  {
    if es != [] {
      var init := es[..|es| - 1];
      DismissalSurvives(s, init, k, m);
      RunNumbered(s, init);
      StepError(Run(s, init), es[|es| - 1], k);
    }
  }

  /** A failure of a superseded request, or from a view the user has left, changes no key's error. */
  lemma StaleFailureIsSilent(s: State, n: nat, m: Message, k: Key)
    requires Inv(s) && n in s.pending
    requires s.gate.latest[s.pending[n].key] != n || s.pending[n].scope != s.view
    ensures var a, b := EntryOf(s.slices, k), EntryOf(Step(s, SliceFailed(n, m)).slices, k);
            b.error == a.error && (a.error.Some? ==> b.dismissed == a.dismissed)
  {
    StepError(s, SliceFailed(n, m), k);
  }

  // --------------------------------------------- a key's status, from the history alone

  /** Request `n` is in flight and the newest for `k`. */
  predicate Newest(s: State, n: nat, k: Key) { n in s.pending && s.pending[n].key == k && k in s.gate.latest && s.gate.latest[k] == n }

  /** The event brings a payload for `k` that is shown: the newest request's own answer, in its own view and no older than
      the last full payload, or the newest refresh's. */
  predicate Delivers(s: State, e: Event, k: Key) {
    || (e.SliceArrived? && e.served && Newest(s, e.no, k) && s.pending[e.no].scope == s.view
        && (e.version.None? || LastFull(s.paints, k).None? || LastFull(s.paints, k).value <= e.version.value))
    || (e.FullArrived? && e.no in s.pendingFull && e.no == s.refreshSeq && k in e.keys)
  }

  /** The newest request for `k` comes back, whatever with. */
  predicate Returns(s: State, e: Event, k: Key) { (e.SliceArrived? || e.SliceFailed?) && Newest(s, e.no, k) }

  /** The message of the last current failure since a payload was shown. */
  function MessageAfter(view: View, es: seq<Event>, k: Key): Option<Message> {
    if es == [] then None
    else
      var s, e := Run(Init(view), es[..|es| - 1]), es[|es| - 1];
      if Delivers(s, e, k) then None
      else if CurrentFailure(s, e, k) then Some(e.message)
      else MessageAfter(view, es[..|es| - 1], k)
  }

  /** The version of the last payload shown for `k` that had one. */
  function ShownVersion(ps: seq<Paint>, k: Key): Option<int> {
    if ps == [] then None
    else
      var p := ps[|ps| - 1];
      if Carries(p, k) && p.version.Some? then p.version else ShownVersion(ps[..|ps| - 1], k)
  }

  predicate Carries(p: Paint, k: Key) { if p.SlicePaint? then p.key == k else k in p.keys }

  /** Loading from a begin until the newest request comes back or a payload is shown; then ready, failed, or what was the
      case before the fetch. */
  function StatusAfter(view: View, es: seq<Event>, k: Key): Status {
    if es == [] then Idle
    else
      var init := es[..|es| - 1];
      var s, e := Run(Init(view), init), es[|es| - 1];
      if e.BeginSlice? && e.key == k then Loading
      else if Delivers(s, e, k) then Ready
      else if CurrentFailure(s, e, k) then Failed
      else if Returns(s, e, k) && StatusAfter(view, init, k) == Loading then
        if MessageAfter(view, init, k).Some? then Failed else if ShownVersion(s.paints, k).Some? then Ready else Idle
      else StatusAfter(view, init, k)
  }

  /** What one step does to the status of a key. */
  lemma StepStatus(s: State, e: Event, k: Key)
    requires RequestsNumbered(s) && AppliedIsLastFull(s, k)
    ensures var a := EntryOf(s.slices, k);
            EntryOf(Step(s, e).slices, k).status ==
            if e.BeginSlice? && e.key == k then Loading
            else if Delivers(s, e, k) then Ready
            else if CurrentFailure(s, e, k) then Failed
            else if Returns(s, e, k) && a.status == Loading then
              if a.error.Some? then Failed else if a.dataVersion.Some? then Ready else Idle
            else a.status
  {
    if e.FullArrived? { MarkSlicesReadyAt(s.slices, e.keys, e.fullVersion, k); }
  }

  predicate VersionShown(s: State, k: Key) { EntryOf(s.slices, k).dataVersion == ShownVersion(s.paints, k) }

  lemma FullVersion(slices: Slices, ps: seq<Paint>, p: Paint, k: Key)
    requires p.FullPaint? && EntryOf(slices, k).dataVersion == ShownVersion(ps, k)
    ensures EntryOf(MarkSlicesReady(slices, p.keys, p.version), k).dataVersion == ShownVersion(ps + [p], k)
  {
    MarkSlicesReadyAt(slices, p.keys, p.version, k);
    ShownSnoc(ps, p, k);
  }

  lemma SliceVersion(slices: Slices, ps: seq<Paint>, p: Paint, k: Key)
    requires p.SlicePaint? && EntryOf(slices, k).dataVersion == ShownVersion(ps, k)
    ensures EntryOf(MarkSliceReady(slices, p.key, p.version), k).dataVersion == ShownVersion(ps + [p], k)
  {
    ShownSnoc(ps, p, k);
  }

  lemma StepVersion(s: State, e: Event, k: Key)
    requires VersionShown(s, k)
    ensures VersionShown(Step(s, e), k)
  {
    if e.FullArrived? && e.no in s.pendingFull {
      FullVersion(s.slices, s.paints, FullPaint(e.keys, e.no, s.pendingFull[e.no].scope, s.pendingFull[e.no].begunIn, s.view, e.fullVersion), k);
    } else if e.SliceArrived? && e.no in s.pending {
      SliceVersion(s.slices, s.paints, SlicePaint(s.pending[e.no].key, e.no, s.pending[e.no].scope, s.view, e.version), k);
    }
  }

  lemma ShownSnoc(ps: seq<Paint>, p: Paint, k: Key)
    ensures ShownVersion(ps + [p], k) == if Carries(p, k) && p.version.Some? then p.version else ShownVersion(ps, k)
  {
    assert (ps + [p])[..|ps|] == ps;
  }

  /** A fetch of `k` has begun and, since, neither come back nor been overtaken by a payload that was shown. */
  predicate Outstanding(view: View, es: seq<Event>, k: Key) {
    es != [] &&
    var s, e := Run(Init(view), es[..|es| - 1]), es[|es| - 1];
    (e.BeginSlice? && e.key == k) || (!Returns(s, e, k) && !Delivers(s, e, k) && Outstanding(view, es[..|es| - 1], k))
  }

  lemma {:induction false} LoadingIsOutstanding(view: View, es: seq<Event>, k: Key)
    ensures StatusAfter(view, es, k) == Loading <==> Outstanding(view, es, k)
  {
    if es != [] { LoadingIsOutstanding(view, es[..|es| - 1], k); }
  }

  lemma PaintsWhatIsDelivered(s: State, e: Event, k: Key)
    requires RequestsNumbered(s) && AppliedIsLastFull(s, k)
    ensures Paints(s, e, k) <==> Delivers(s, e, k)
  {
  }

  /** In every run each key's status, version and message are what the history says; so it is loading exactly while a fetch
      of it is outstanding. */
  lemma {:induction false} StatusIsHistory(view: View, es: seq<Event>, k: Key)
    ensures EntryOf(Run(Init(view), es).slices, k).status == StatusAfter(view, es, k)
    ensures EntryOf(Run(Init(view), es).slices, k).status == Loading <==> Outstanding(view, es, k)
    ensures EntryOf(Run(Init(view), es).slices, k).dataVersion == ShownVersion(Run(Init(view), es).paints, k)
    ensures EntryOf(Run(Init(view), es).slices, k).error == MessageAfter(view, es, k)
  {
    LoadingIsOutstanding(view, es, k);
    if es != [] {
      var init, e := es[..|es| - 1], es[|es| - 1];
      var s := Run(Init(view), init);
      StatusIsHistory(view, init, k);
      RunInv(view, init);
      assert AppliedIsLastFull(s, k);
      StepStatus(s, e, k);
      StepVersion(s, e, k);
      StepError(s, e, k);
      PaintsWhatIsDelivered(s, e, k);
    }
  }

  predicate IsResponse(e: Event) { e.SliceArrived? || e.SliceFailed? || e.FullArrived? || e.FullFailed? }

  /** Both answer the same slice request, or the same refresh. */
  predicate SameRequest(e: Event, f: Event) {
    || ((e.SliceArrived? || e.SliceFailed?) && (f.SliceArrived? || f.SliceFailed?) && e.no == f.no)
    || ((e.FullArrived? || e.FullFailed?) && (f.FullArrived? || f.FullFailed?) && e.no == f.no)
  }

  /** A request is answered once: a second response to it, of either kind, changes nothing. */
  lemma AnsweredOnce(s: State, e: Event, f: Event)
    requires IsResponse(e) && IsResponse(f) && SameRequest(e, f)
    ensures Step(Step(s, e), f) == Step(s, e)
  {
    if f.FullFailed? { assert Step(s, e).pendingFull - {f.no} == Step(s, e).pendingFull; }
  }

  // --------------------------------------------------------- the mutable protocol

  /** The refs and state App keeps; the requests in flight and the paint history are ghost. */
  class App {
    const gate: SliceRequestGate
    var slices: Slices
    var view: View
    var refreshSeq: nat
    ghost var pending: map<nat, Request>
    ghost var pendingFull: map<nat, Refresh>
    ghost var paints: seq<Paint>

    ghost function Value(): State
      reads this, gate
    {
      State(slices, gate.Value(), view, refreshSeq, pending, pendingFull, paints)
    }

    constructor (view: View)
      ensures fresh(gate) && Value() == Init(view) && Inv(Value())
    {
      gate := new SliceRequestGate();
      slices, this.view, refreshSeq := map[], view, 0;
      pending, pendingFull, paints := map[], map[], [];
    }

    method StartSliceFetch(key: Key, scope: View) returns (r: Request)
      requires Inv(Value())
      modifies this, gate
      ensures Value() == Step(old(Value()), BeginSlice(key, scope)) && Inv(Value())
      ensures r.no in pending && pending[r.no] == r
    {
      StepInv(Value(), BeginSlice(key, scope));
      r := gate.Begin(key, scope);
      slices := BeginSliceLoad(slices, key);
      pending := pending[r.no := r];
    }

    method OnSliceArrived(r: Request, served: bool, version: Option<int>)
      requires Inv(Value()) && r.no in pending && pending[r.no] == r
      modifies this
      ensures Value() == Step(old(Value()), SliceArrived(r.no, served, version)) && Inv(Value())
    {
      StepInv(Value(), SliceArrived(r.no, served, version));
      var verdict := gate.Decide(r, view, version);
      pending := pending - {r.no};
      if verdict == Superseded { return; }
      if verdict != Apply {
        slices := SettleSliceDiscarded(slices, r.key);
        return;
      }
      if served {
        slices := MarkSliceReady(slices, r.key, version);
        paints := paints + [SlicePaint(r.key, r.no, r.scope, view, version)];
      } else {
        slices := SettleSliceDiscarded(slices, r.key);
      }
    }

    method OnSliceFailed(r: Request, message: Message)
      requires Inv(Value()) && r.no in pending && pending[r.no] == r
      modifies this
      ensures Value() == Step(old(Value()), SliceFailed(r.no, message)) && Inv(Value())
    {
      StepInv(Value(), SliceFailed(r.no, message));
      var verdict := gate.Decide(r, view, None);
      pending := pending - {r.no};
      if verdict == Superseded { return; }
      if verdict != Apply {
        slices := SettleSliceDiscarded(slices, r.key);
        return;
      }
      slices := MarkSliceError(slices, r.key, message);
    }

    /** `captured` is the selection of the render whose closure is called. */
    method StartRefreshAll(captured: View) returns (no: nat)
      requires Inv(Value())
      modifies this
      ensures Value() == Step(old(Value()), BeginFull(captured)) && Inv(Value())
      ensures no in pendingFull && pendingFull[no] == Refresh(captured, view)
    {
      StepInv(Value(), BeginFull(captured));
      refreshSeq := refreshSeq + 1;
      no := refreshSeq;
      pendingFull := pendingFull[no := Refresh(captured, view)];
    }

    method OnBootstrap(no: nat, keys: seq<Key>, version: Option<int>)
      requires Inv(Value()) && no in pendingFull
      modifies this, gate
      ensures Value() == Step(old(Value()), FullArrived(no, keys, version)) && Inv(Value())
    {
      StepInv(Value(), FullArrived(no, keys, version));
      ghost var asked := pendingFull[no];
      pendingFull := pendingFull - {no};
      if no != refreshSeq { return; }
      slices := MarkSlicesReady(slices, keys, version);
      gate.NoteApplied(keys, version);
      paints := paints + [FullPaint(keys, no, asked.scope, asked.begunIn, view, version)];
    }

    method OnSwitchView(v: View)
      requires Inv(Value())
      modifies this
      ensures Value() == Step(old(Value()), SwitchView(v)) && Inv(Value())
    {
      StepInv(Value(), SwitchView(v));
      view := v;
      refreshSeq := refreshSeq + 1;
      pendingFull := pendingFull[refreshSeq := Refresh(v, v)];
    }

    method OnDismiss()
      requires Inv(Value())
      modifies this
      ensures Value() == Step(old(Value()), Dismiss) && Inv(Value())
    {
      ghost var s := Value();
      StepInv(s, Dismiss);
      StepDismiss(s);
      slices := DismissLoop(slices);
    }
  }
}
