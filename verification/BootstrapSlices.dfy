/** Per-slice hydration status and the request gate (client/src/services/bootstrapSlices.ts). */
module BootstrapSlices {
  import opened Collections

  /** Slice keys, views and messages are texts of which only equality matters. */
  type Key = int
  type View = int
  type Message = int

  datatype Status = Idle | Loading | Ready | Failed

  datatype Entry = Entry(status: Status, dataVersion: Option<int>, error: Option<Message>, dismissed: bool)

  type Slices = map<Key, Entry>

  function EntryOf(s: Slices, k: Key): Entry {
    if k in s then s[k] else Entry(Idle, None, None, false)
  }

  function BeginSliceLoad(s: Slices, k: Key): Slices {
    s[k := EntryOf(s, k).(status := Loading)]
  }

  function MarkSliceReady(s: Slices, k: Key, version: Option<int>): Slices {
    s[k := Entry(Ready, if version.Some? then version else EntryOf(s, k).dataVersion, None, false)]
  }

  function MarkSlicesReady(s: Slices, keys: seq<Key>, version: Option<int>): Slices {
    if keys == [] then s else MarkSliceReady(MarkSlicesReady(s, keys[..|keys| - 1], version), keys[|keys| - 1], version)
  }

  function MarkSliceError(s: Slices, k: Key, m: Message): Slices {
    var prev := EntryOf(s, k);
    s[k := Entry(Failed, prev.dataVersion, Some(m), prev.error == Some(m) && prev.dismissed)]
  }

  function Dismissed(e: Entry): Entry {
    if e.status == Failed && !e.dismissed then e.(dismissed := true) else e
  }

  function DismissSliceErrors(s: Slices): Slices {
    map k | k in s :: Dismissed(s[k])
  }

  /** `dismissSliceErrors`: a copy is edited entry by entry, and the old object returned when nothing changed. */
  method DismissLoop(state: Slices) returns (next: Slices)
    ensures next == DismissSliceErrors(state)
  {
    var changed, todo := false, state.Keys;
    next := state;
    while todo != {}
      invariant todo <= state.Keys && next.Keys == state.Keys
      invariant forall k :: k in state ==> next[k] == if k in todo then state[k] else Dismissed(state[k])
      invariant !changed ==> next == state
      decreases todo
    {
      assert (forall k :: k !in todo) ==> todo == {};
      var key :| key in todo;
      var entry := state[key];
      if entry.status == Failed && !entry.dismissed {
        next := next[key := entry.(dismissed := true)];
        changed := true;
      }
      todo := todo - {key};
    }
    ghost var result := DismissSliceErrors(state);
    assert forall k :: k in next <==> k in result;
    assert forall k :: k in next ==> next[k] == result[k];
    assert next == result;
    next := if changed then next else state;
  }

  function SettleSliceDiscarded(s: Slices, k: Key): Slices {
    if k !in s || s[k].status != Loading then s
    else if s[k].error.Some? then s[k := s[k].(status := Failed)]
    else s[k := Entry(if s[k].dataVersion.Some? then Ready else Idle, s[k].dataVersion, None, false)]
  }

  function VisibleSliceErrors(s: Slices): set<Key> {
    set k | k in s && s[k].error.Some? && !s[k].dismissed
  }

  /** Marking a payload's keys touches exactly those keys, clearing their errors. */
  lemma {:induction false} MarkSlicesReadyAt(s: Slices, keys: seq<Key>, version: Option<int>, k: Key)
    ensures k !in keys ==> (k in MarkSlicesReady(s, keys, version) <==> k in s)
    ensures k !in keys ==> EntryOf(MarkSlicesReady(s, keys, version), k) == EntryOf(s, k)
    ensures k in keys ==>
              k in MarkSlicesReady(s, keys, version)
              && MarkSlicesReady(s, keys, version)[k]
                 == Entry(Ready, if version.Some? then version else EntryOf(s, k).dataVersion, None, false)
  {
    if keys != [] { MarkSlicesReadyAt(s, keys[..|keys| - 1], version, k); }
  }

  // ------------------------------------------------------------------ the gate

  datatype Request = Request(key: Key, scope: View, no: nat)

  datatype Decision = Apply | Superseded | StaleScope | OlderVersion

  datatype Gate = Gate(no: nat, latest: map<Key, nat>, applied: map<Key, int>)

  function Verdict(g: Gate, r: Request, view: View, version: Option<int>): Decision {
    if r.key !in g.latest || g.latest[r.key] != r.no then Superseded
    else if r.scope != view then StaleScope
    else if version.Some? && r.key in g.applied && version.value < g.applied[r.key] then OlderVersion
    else Apply
  }

  function Noted(applied: map<Key, int>, keys: seq<Key>, version: Option<int>): map<Key, int> {
    if version.None? then applied else applied + map k | k in keys :: version.value
  }

  class SliceRequestGate {
    var no: nat
    var latestByKey: map<Key, nat>
    var appliedByKey: map<Key, int>

    function Value(): Gate
      reads this
    {
      Gate(no, latestByKey, appliedByKey)
    }

    constructor ()
      ensures Value() == Gate(0, map[], map[])
    {
      no, latestByKey, appliedByKey := 0, map[], map[];
    }

    method Begin(key: Key, scope: View) returns (r: Request)
      modifies this
      ensures r == Request(key, scope, old(no) + 1)
      ensures Value() == Gate(r.no, old(latestByKey)[key := r.no], old(appliedByKey))
    {
      no := no + 1;
      latestByKey := latestByKey[key := no];
      r := Request(key, scope, no);
    }

    method Decide(r: Request, view: View, version: Option<int>) returns (d: Decision)
      ensures d == Verdict(Value(), r, view, version)
    {
      if r.key !in latestByKey || latestByKey[r.key] != r.no { return Superseded; }
      if r.scope != view { return StaleScope; }
      if r.key in appliedByKey && version.Some? && version.value < appliedByKey[r.key] { return OlderVersion; }
      d := Apply;
    }

    method NoteApplied(keys: seq<Key>, version: Option<int>)
      modifies this`appliedByKey
      ensures appliedByKey == Noted(old(appliedByKey), keys, version)
    {
      if version.None? { return; }
      for i := 0 to |keys|
        invariant appliedByKey == old(appliedByKey) + map k | k in keys[..i] :: version.value
      {
        appliedByKey := appliedByKey[keys[i] := version.value];
      }
      assert keys[..|keys|] == keys;
    }
  }
}
