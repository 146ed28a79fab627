/**
 * The canonical address of a screen or record (client/src/routes/appPaths.ts, `canonicalLocationUrl`) and what a
 * reload of that address shows. An address is kept parsed: path, decoded query parameters, fragment. Writing the path
 * of a URL removes its dot segments (URL Standard, path state); every other character of a canonical path is kept.
 */
module AppLocations {
  import opened Collections
  import opened PercentEncoding
  import opened AppPathTable
  import opened AppPaths
  import opened AppRoutes

  datatype Location = Location(pathname: string, params: seq<Param>, hash: string)

  // ----- Dot segments -----

  /** `.` or `%2e`. */
  predicate SingleDot(part: string) { Decoded(part) == "." }

  /** `..` with either dot possibly escaped. */
  predicate DoubleDot(part: string) { Decoded(part) == ".." }

  predicate Dotted(part: string) { SingleDot(part) || DoubleDot(part) }

  function DropLast<T>(s: seq<T>): seq<T> { if s == [] then [] else s[..|s| - 1] }

  /** The path segments once `parts` have been read, `done` being those read before; the last part leaves an empty
      segment where it is a dot segment. */
  function Walk(done: seq<string>, parts: seq<string>): seq<string>
    requires |parts| > 0
    decreases |parts|
  {
    var base := if DoubleDot(parts[0]) then DropLast(done) else if SingleDot(parts[0]) then done else done + [parts[0]];
    if |parts| > 1 then Walk(base, parts[1..])
    else if Dotted(parts[0]) then base + [""] else base
  }

  function Join(parts: seq<string>): string {
    if parts == [] then "" else "/" + parts[0] + Join(parts[1..])
  }

  /** The path a URL holds after `pathname` has been assigned to it. */
  function SetPathname(pathname: string): string {
    Join(Walk([], Split(if StartsWith(pathname, "/") then pathname[1..] else pathname)))
  }

  // ----- The canonical address -----

  function Drop(params: seq<Param>, name: string): (r: seq<Param>)
    ensures forall p :: p in r <==> p in params && p.name != name
  {
    if params == [] then []
    else if params[0].name == name then Drop(params[1..], name)
    else [params[0]] + Drop(params[1..], name)
  }

  function CanonicalPath(tab: NavTab, record: Option<RecordRoute>): string {
    var next := CanonicalTab(tab);
    if record.Some? && Supports(next, record.value) then RecordPathFor(next, record.value) else PathForTab(next)
  }

  function CanonicalParams(tab: NavTab, params: seq<Param>): seq<Param> {
    var kept := Drop(params, "tab");
    if CanonicalTab(tab) == Access(Users) then kept else Drop(Drop(kept, "access"), "operation")
  }

  function Canonical(tab: NavTab, record: Option<RecordRoute>, at: Location): Location {
    Location(SetPathname(CanonicalPath(tab, record)), CanonicalParams(tab, at.params), at.hash)
  }

  class Url {
    var pathname: string
    var params: seq<Param>
    var hash: string

    ghost function Value(): Location
      reads this
    {
      Location(pathname, params, hash)
    }

    constructor (at: Location)
      ensures Value() == at
    {
      pathname, params, hash := at.pathname, at.params, at.hash;
    }

    method Delete(name: string)
      modifies this
      ensures Value() == old(Value()).(params := Drop(old(params), name))
    {
      params := Drop(params, name);
    }

    method AssignPathname(path: string)
      modifies this
      ensures Value() == old(Value()).(pathname := SetPathname(path))
    {
      pathname := SetPathname(path);
    }
  }

  method CanonicalLocationUrl(tab: NavTab, record: Option<RecordRoute>, href: Location) returns (r: Location)
    ensures r == Canonical(tab, record, href)
  {
    var url := new Url(href);
    var nextTab := CanonicalTab(tab);
    if record.Some? && Supports(nextTab, record.value) {
      url.AssignPathname(RecordPathFor(nextTab, record.value));
    } else {
      url.AssignPathname(PathForTab(nextTab));
    }
    url.Delete("tab");
    if nextTab != Access(Users) {
      url.Delete("access");
      url.Delete("operation");
    }
    return Location(url.pathname, url.params, url.hash);
  }

  // ----- Parameters -----

  lemma {:induction false} DropKeepsOthers(params: seq<Param>, name: string, other: string)
    ensures FirstValue(Drop(params, name), other) == if name == other then None else FirstValue(params, other)
  {
    if params != [] {
      DropKeepsOthers(params[1..], name, other);
      if params[0].name != name { assert ([params[0]] + Drop(params[1..], name))[1..] == Drop(params[1..], name); }
    }
  }

  lemma {:induction false} DropAbsent(params: seq<Param>, name: string)
    requires forall p :: p in params ==> p.name != name
    ensures Drop(params, name) == params
  {
    if params != [] { DropAbsent(params[1..], name); }
  }

  lemma {:induction false} FirstValueNone(params: seq<Param>, name: string)
    ensures FirstValue(params, name).None? <==> forall p :: p in params ==> p.name != name
  {
    if params != [] { FirstValueNone(params[1..], name); }
  }

  predicate Filters(name: string) { name == "access" || name == "operation" }

  /** The parameters a screen's address may carry: all but `tab`, and the register filters only on Users. */
  predicate Keeps(tab: NavTab, name: string) { name != "tab" && (CanonicalTab(tab) == Access(Users) || !Filters(name)) }

  lemma CanonicalParamsAre(tab: NavTab, params: seq<Param>)
    ensures forall p :: p in CanonicalParams(tab, params) <==> p in params && Keeps(tab, p.name)
  {
  }

  lemma CanonicalParamsKeep(tab: NavTab, params: seq<Param>)
    requires forall p :: p in params ==> Keeps(tab, p.name)
    ensures CanonicalParams(tab, params) == params
  {
    DropAbsent(params, "tab");
    if CanonicalTab(tab) != Access(Users) {
      DropAbsent(params, "access");
      DropAbsent(params, "operation");
    }
  }

  /** A parameter the screen keeps reads as before; any other is gone. */
  lemma CanonicalParamsFirst(tab: NavTab, params: seq<Param>, name: string)
    ensures FirstValue(CanonicalParams(tab, params), name) == if Keeps(tab, name) then FirstValue(params, name) else None
  {
    var kept := Drop(params, "tab");
    DropKeepsOthers(params, "tab", name);
    DropKeepsOthers(kept, "access", name);
    DropKeepsOthers(Drop(kept, "access"), "operation", name);
  }

  /** Canonicalising twice is canonicalising once. */
  lemma CanonicalTwice(tab: NavTab, record: Option<RecordRoute>, at: Location)
    ensures Canonical(tab, record, Canonical(tab, record, at)) == Canonical(tab, record, at)
  {
    CanonicalParamsAre(tab, at.params);
    CanonicalParamsKeep(tab, CanonicalParams(tab, at.params));
  }

  lemma UsersKeepsAll(first: NavTab, params: seq<Param>)
    requires CanonicalTab(first) != Access(Users)
    ensures CanonicalParams(first, params) == Drop(params, "tab") <==>
            FirstValue(params, "access").None? && FirstValue(params, "operation").None?
  {
    var kept := Drop(params, "tab");
    FirstValueNone(params, "access");
    FirstValueNone(params, "operation");
    CanonicalParamsFirst(first, params, "access");
    CanonicalParamsFirst(first, params, "operation");
    DropKeepsOthers(params, "tab", "access");
    DropKeepsOthers(params, "tab", "operation");
    if FirstValue(params, "access").None? && FirstValue(params, "operation").None? {
      DropAbsent(kept, "access");
      DropAbsent(kept, "operation");
    }
  }

  lemma ParamsAfterAnother(first: NavTab, tab: NavTab, params: seq<Param>)
    ensures CanonicalParams(tab, CanonicalParams(first, params)) == CanonicalParams(tab, params) <==>
            CanonicalTab(tab) != Access(Users) || CanonicalTab(first) == Access(Users) ||
            (FirstValue(params, "access").None? && FirstValue(params, "operation").None?)
  {
    var once := CanonicalParams(first, params);
    CanonicalParamsAre(first, params);
    if CanonicalTab(tab) == Access(Users) {
      CanonicalParamsKeep(tab, once);
      if CanonicalTab(first) != Access(Users) { UsersKeepsAll(first, params); }
    } else if CanonicalTab(first) == Access(Users) {
      DropAbsent(once, "tab");
    } else {
      CanonicalParamsKeep(tab, once);
    }
  }

  /** Passing through another screen first changes nothing, exactly unless that screen drops filters the Users
      register would have kept. */
  lemma CanonicalAfterAnother(first: NavTab, before: Option<RecordRoute>, tab: NavTab, record: Option<RecordRoute>, at: Location)
    ensures Canonical(tab, record, Canonical(first, before, at)) == Canonical(tab, record, at) <==>
            CanonicalTab(tab) != Access(Users) || CanonicalTab(first) == Access(Users) ||
            (FirstValue(at.params, "access").None? && FirstValue(at.params, "operation").None?)
  {
    ParamsAfterAnother(first, tab, at.params);
  }

  // ----- Paths without dot segments are stored as they are -----

  lemma {:induction false} WalkKeeps(done: seq<string>, parts: seq<string>)
    requires |parts| > 0 && forall i :: 0 <= i < |parts| ==> !Dotted(parts[i])
    ensures Walk(done, parts) == done + parts
    decreases |parts|
  {
    if |parts| > 1 { WalkKeeps(done + [parts[0]], parts[1..]); }
  }

  lemma DropFirst(h: string, j: string, t: string)
    requires "/" + h + j == "/" + t
    ensures h + j == t
  {
    assert ("/" + h + j)[1..] == h + j && ("/" + t)[1..] == t;
  }

  lemma {:induction false} JoinOfSplit(s: string)
    ensures Join(Split(s)) == "/" + s
  {
    if s != "" {
      var r := Split(s[1..]);
      JoinOfSplit(s[1..]);
      assert [s[0]] + s[1..] == s;
      if s[0] == '/' {
        assert Split(s)[1..] == r;
      } else {
        DropFirst(r[0], Join(r[1..]), s[1..]);
        assert Split(s)[1..] == r[1..] && Split(s)[0] == [s[0]] + r[0];
        assert [s[0]] + r[0] + Join(r[1..]) == [s[0]] + (r[0] + Join(r[1..]));
      }
    }
  }

  lemma UndottedPathIsKept(p: string)
    requires StartsWith(p, "/") && forall x :: x in Split(p[1..]) ==> !Dotted(x)
    ensures SetPathname(p) == p
  {
    var parts := Split(p[1..]);
    WalkKeeps([], parts);
    assert [] + parts == parts;
    JoinOfSplit(p[1..]);
    assert p == p[..1] + p[1..];
  }

  lemma PlainPartIsUndotted(x: string)
    requires forall c :: c in x ==> PlainChar(c)
    ensures !Dotted(x)
  {
    assert '%' !in x && '.' !in x;
    DecodePlain(x);
    assert x != [] ==> x[0] in x;
  }

  predicate DotId(record: RecordRoute) {
    match record
    case Create => false
    case Edit(id) => id == "." || id == ".."
    case Detail(id) => id == "." || id == ".."
  }

  lemma PlainPartsUndotted(p: string, x: string)
    requires Plain(p) && x in Split(p)
    ensures !Dotted(x)
  {
    forall c | c in x ensures PlainChar(c) { assert c in p; }
    PlainPartIsUndotted(x);
  }

  lemma EncodedIdUndotted(id: string, x: string)
    requires id != "." && id != ".." && x in Split(Encode(id))
    ensures !Dotted(x)
  {
    EncodedId(id);
    SplitWhole(Encode(id));
  }

  lemma EditTailUndotted(id: string, x: string)
    requires id != "." && id != ".." && x in Split(Encode(id) + "/edit")
    ensures !Dotted(x)
  {
    SplitAtSlash(Encode(id), "edit");
    EditSuffix(Encode(id));
    if x in Split(Encode(id)) { EncodedIdUndotted(id, x); } else { PlainPartsUndotted("edit", x); }
  }

  lemma TailPartsUndotted(record: RecordRoute, x: string)
    requires !DotId(record) && x in Split(RecordTail(record))
    ensures !Dotted(x)
  {
    match record
    case Create => PlainPartsUndotted("new", x);
    case Detail(id) => EncodedIdUndotted(id, x);
    case Edit(id) => EditTailUndotted(id, x);
  }

  lemma BelowPlainPathIsKept(base: string, tail: string)
    requires |base| > 0 && base[0] == '/' && Plain(base) && forall x :: x in Split(tail) ==> !Dotted(x)
    ensures SetPathname(base + "/" + tail) == base + "/" + tail
  {
    var p := base + "/" + tail;
    SplitAtSlash(base[1..], tail);
    assert p[1..] == base[1..] + "/" + tail;
    forall x | x in Split(p[1..]) ensures !Dotted(x) {
      if x in Split(base[1..]) { PlainPartsUndotted(base[1..], x); }
    }
    assert p[..1] == "/";
    UndottedPathIsKept(p);
  }

  lemma RecordPathIsKept(tab: NavTab, record: RecordRoute)
    requires IsRecordScreen(tab) && Supports(tab, record) && !DotId(record)
    ensures SetPathname(RecordPathFor(tab, record)) == RecordPathFor(tab, record)
  {
    BaseIsRegister(tab);
    PathsAreCanonical(tab);
    forall x | x in Split(RecordTail(record)) ensures !Dotted(x) { TailPartsUndotted(record, x); }
    BelowPlainPathIsKept(Base(tab), RecordTail(record));
  }

  lemma PlainPathIsKept(p: string)
    requires |p| > 0 && p[0] == '/' && Plain(p)
    ensures SetPathname(p) == p
  {
    forall x | x in Split(p[1..]) ensures !Dotted(x) { PlainPartsUndotted(p[1..], x); }
    assert p[..1] == "/";
    UndottedPathIsKept(p);
  }

  lemma ScreenPathIsKept(tab: NavTab)
    ensures SetPathname(PathForTab(tab)) == PathForTab(tab)
  {
    PathsAreCanonical(CanonicalTab(tab));
    PlainPathIsKept(PathForTab(tab));
  }

  // ----- No stored path has a dot segment -----

  predicate Settled(parts: seq<string>) { forall x :: x in parts ==> !Dotted(x) && '/' !in x }

  lemma {:induction false} WalkSettles(done: seq<string>, parts: seq<string>)
    requires |parts| > 0 && Settled(done) && forall x :: x in parts ==> '/' !in x
    ensures Settled(Walk(done, parts)) && |Walk(done, parts)| > 0
    decreases |parts|
  {
    var base := if DoubleDot(parts[0]) then DropLast(done) else if SingleDot(parts[0]) then done else done + [parts[0]];
    assert Settled(base);
    if |parts| > 1 {
      WalkSettles(base, parts[1..]);
    } else {
      DecodePlain("");
    }
  }

  lemma SplitSlashFirst(t: string)
    ensures Split("/" + t) == [""] + Split(t)
  {
    SplitCons('/', t);
  }

  lemma SplitPart(head: string, rest: string, tail: seq<string>)
    requires '/' !in head && Split("/" + rest) == [""] + tail
    ensures Split("/" + head + ("/" + rest)) == [""] + ([head] + tail)
  {
    SplitSlashFirst(rest);
    assert ([""] + tail)[1..] == tail && ([""] + Split(rest))[1..] == Split(rest);
    SplitWhole(head);
    SplitAtSlash(head, rest);
    SplitSlashFirst(head + "/" + rest);
    assert "/" + head + ("/" + rest) == "/" + (head + "/" + rest);
  }

  lemma {:induction false} SplitOfJoin(parts: seq<string>)
    requires |parts| > 0 && forall x :: x in parts ==> '/' !in x
    ensures Split(Join(parts)) == [""] + parts
  {
    var head, rest := parts[0], parts[1..];
    assert [head] + rest == parts;
    if rest == [] {
      SplitWhole(head);
      SplitSlashFirst(head);
      assert "/" + head + "" == "/" + head;
    } else {
      SplitOfJoin(rest);
      var more := rest[0] + Join(rest[1..]);
      assert Join(rest) == "/" + more;
      SplitPart(head, more, rest);
    }
  }

  lemma StoredPartsUndotted(p: string, x: string)
    requires x in Split(SetPathname(p))
    ensures !Dotted(x)
  {
    var parts := Split(if StartsWith(p, "/") then p[1..] else p);
    WalkSettles([], parts);
    SplitOfJoin(Walk([], parts));
    DecodePlain("");
  }

  lemma {:induction false} TrimmedParts(p: string, x: string)
    requires x in Split(TrimSlashes(p))
    ensures x in Split(p)
  {
    if p != "" && p[|p| - 1] == '/' {
      TrimmedParts(p[..|p| - 1], x);
      SplitAtSlash(p[..|p| - 1], "");
      assert p == p[..|p| - 1] + "/" + "";
    }
  }

  lemma SuffixParts(p: string, k: nat, x: string)
    requires 0 < k <= |p| && p[k - 1] == '/' && x in Split(p[k..])
    ensures x in Split(p)
  {
    SplitAtSlash(p[..k - 1], p[k..]);
    assert p == p[..k - 1] + "/" + p[k..];
  }

  lemma PartBelowUndotted(p: string, tab: NavTab, x: string)
    requires var clean := StripTrailingSlash(SetPathname(p)); Under(tab, clean) && x in Split(clean[|Prefix(tab)|..])
    ensures !Dotted(x)
  {
    var q := SetPathname(p);
    var clean := StripTrailingSlash(q);
    var k := |Prefix(tab)|;
    assert Prefix(tab)[k - 1] == '/';
    assert Lower(clean)[..k][k - 1] == '/';
    SuffixParts(clean, k, x);
    TrimmedParts(q, x);
    StoredPartsUndotted(p, x);
  }

  lemma RecordIdIsAPart(tab: NavTab, tail: string)
    ensures ParseTail(tab, tail).Some? && DotId(ParseTail(tab, tail).value.1) ==> Dotted(Split(tail)[0])
  {
  }

  /** No stored path resolves to a record whose identifier is a dot segment. */
  lemma StoredPathHasNoDotId(p: string)
    ensures RecordAt(SetPathname(p)).Some? ==> !DotId(RecordAt(SetPathname(p)).value.1)
  {
    var clean := StripTrailingSlash(SetPathname(p));
    var r := ScanScreens(RECORD_SCREENS, clean);
    ScanIsParse(RECORD_SCREENS, clean);
    if r.Some? {
      var tail := clean[|Prefix(r.value.0)|..];
      RecordIdIsAPart(r.value.0, tail);
      PartBelowUndotted(p, r.value.0, Split(tail)[0]);
    }
  }

  // ----- Reloading -----

  lemma CanonicalPathOfRecord(tab: NavTab, record: RecordRoute)
    requires IsRecordScreen(tab) && Supports(tab, record)
    ensures CanonicalPath(tab, Some(record)) == RecordPathFor(tab, record)
  {
  }

  lemma DotIdIsLost(p: string, tab: NavTab, record: RecordRoute, params: seq<Param>, saved: Option<string>)
    requires DotId(record)
    ensures ResolveInitialTab(SetPathname(p), params, saved) != Route(tab, true, FromPath, Some(record))
  {
    StoredPathHasNoDotId(p);
  }

  /** Reloading the canonical address of a record shows that record exactly when its identifier is addressable and is
      not a dot segment. */
  lemma RecordReloads(tab: NavTab, record: RecordRoute, at: Location, params: seq<Param>, saved: Option<string>)
    requires IsRecordScreen(tab) && Supports(tab, record)
    ensures ResolveInitialTab(Canonical(tab, Some(record), at).pathname, params, saved)
            == Route(tab, true, FromPath, Some(record)) <==>
            Addressable(tab, record) && !DotId(record)
  {
    CanonicalPathOfRecord(tab, record);
    if DotId(record) {
      DotIdIsLost(RecordPathFor(tab, record), tab, record, params, saved);
    } else {
      RecordPathIsKept(tab, record);
      RecordRoundTrip(tab, record, params, saved);
    }
  }

  lemma ScreenIsNotItsRecord(tab: NavTab)
    requires Live(tab)
    ensures RecordAt(AppPath(tab)).Some? ==> RecordAt(AppPath(tab)).value.0 != tab
  {
    var p := AppPath(tab);
    PathsAreCanonical(tab);
    NoTrailingSlash(p);
    ScanIsParse(RECORD_SCREENS, p);
    if IsRecordScreen(tab) {
      BaseIsRegister(tab);
      assert |Prefix(tab)| > |p|;
    }
  }

  lemma ScreenResolves(tab: NavTab, p: string, params: seq<Param>, saved: Option<string>)
    requires TabFromPath(p) == Some(tab) && (RecordAt(p).Some? ==> RecordAt(p).value.0 != tab)
    ensures ResolveInitialTab(p, params, saved) == Route(tab, true, FromPath, None)
  {
  }

  /** Reloading the canonical address of a screen shows that screen, with no record open. */
  lemma ScreenReloads(tab: NavTab, at: Location, params: seq<Param>, saved: Option<string>)
    ensures ResolveInitialTab(Canonical(tab, None, at).pathname, params, saved) == Route(CanonicalTab(tab), true, FromPath, None)
  {
    ScreenPathIsKept(tab);
    ScreenPathResolves(tab, params, saved);
  }

  /** A record the screen cannot render is printed as the screen's own path, and opens the screen with no record. */
  lemma UnsupportedFallsBack(tab: NavTab, record: RecordRoute, params: seq<Param>, saved: Option<string>)
    requires !Supports(CanonicalTab(tab), record)
    ensures ResolveInitialTab(RecordPathFor(tab, record), params, saved) == Route(CanonicalTab(tab), true, FromPath, None)
  {
    UnsupportedPath(tab, record);
    ScreenPathResolves(tab, params, saved);
  }

  lemma UnsupportedPath(tab: NavTab, record: RecordRoute)
    requires !Supports(CanonicalTab(tab), record)
    ensures RecordPathFor(tab, record) == PathForTab(tab)
  {
  }

  lemma ScreenPathResolves(tab: NavTab, params: seq<Param>, saved: Option<string>)
    ensures ResolveInitialTab(PathForTab(tab), params, saved) == Route(CanonicalTab(tab), true, FromPath, None)
  {
    PathIsNormal(tab);
    ScreenRoundTrip(tab, PathForTab(tab));
    ScreenIsNotItsRecord(CanonicalTab(tab));
    ScreenResolves(CanonicalTab(tab), PathForTab(tab), params, saved);
  }

  lemma ResolvedIsLive(pathname: string, params: seq<Param>, saved: Option<string>)
    ensures var r := ResolveInitialTab(pathname, params, saved);
            Live(r.tab) && (r.record.Some? ==> IsRecordScreen(r.tab) && Supports(r.tab, r.record.value))
  {
    ParsedIsSupported(pathname);
    ScreenOwns(NormalizePathname(pathname));
    if RecordAt(pathname).Some? { BaseIsRegister(RecordAt(pathname).value.0); }
  }

  /** Loading any address, rewriting it to the canonical one and loading again shows the same screen and record,
      exactly when the first load opened no record or one whose path names it. */
  lemma LoadThenReload(at: Location, saved: Option<string>, later: Option<string>)
    ensures var r := ResolveInitialTab(at.pathname, at.params, saved);
            var to := Canonical(r.tab, r.record, at);
            ResolveInitialTab(to.pathname, to.params, later) == Route(r.tab, true, FromPath, r.record) <==>
            (r.record.None? || (Addressable(r.tab, r.record.value) && !DotId(r.record.value)))
  {
    var r := ResolveInitialTab(at.pathname, at.params, saved);
    var to := Canonical(r.tab, r.record, at);
    ResolvedIsLive(at.pathname, at.params, saved);
    if r.record.Some? {
      RecordReloads(r.tab, r.record.value, at, to.params, later);
    } else {
      ScreenReloads(r.tab, at, to.params, later);
    }
  }

  lemma {:induction false} EncodeUnreserved(s: string)
    requires forall c :: c in s ==> Unreserved(c)
    ensures Encode(s) == s
  {
    if s != "" { EncodeUnreserved(s[1..]); }
  }

  lemma EscapedAssign()
    ensures Decoded("%61ssign") == "assign"
  {
    DecodePlain("ssign");
    var s := "%61ssign";
    assert s[3..] == "ssign";
    assert Octet(s) == Some(97);
    OctetsRoundTrip([97], "ssign");
    assert EscapeAll([97]) == Escape(97) + EscapeAll([]) == "%61";
    assert "%61" + "ssign" == s;
    assert CharOf([97]) == Some('a');
  }

  lemma EscapedIsNoScreen(p: string, k: nat)
    requires k < |p| && p[k] == '%'
    ensures ScreenAt(Lower(p)).None?
  {
    assert Lower(p)[k] == '%';
    ScreenIsCanonical(Lower(p));
  }

  lemma EscapedBelowIsNoScreen(base: string, tail: string)
    requires tail != "" && tail[0] == '%'
    ensures ScreenAt(Lower(base + tail)).None?
  {
    assert (base + tail)[|base|] == '%';
    EscapedIsNoScreen(base + tail, |base|);
  }

  lemma OnePartBelow(tab: NavTab, tail: string)
    requires IsRecordScreen(tab) && Ends(tail) && '/' !in tail
    ensures RecordAt(Prefix(tab) + tail) == RecordOf(tab, [Decoded(tail)])
    ensures NormalizePathname(Prefix(tab) + tail) == Lower(Prefix(tab) + tail)
  {
    PrefixFacts(tab, tail);
    ParsedByItsScreen(tab, Prefix(tab) + tail);
    OnePart(tab, tail);
  }

  /** The canonical address of a record that spells a screen's path opens that screen instead. */
  lemma ScreenSegmentSwitches(tab: NavTab, record: RecordRoute, screen: NavTab, at: Location, params: seq<Param>, saved: Option<string>)
    requires IsRecordScreen(tab) && Supports(tab, record) && Live(screen) && RecordPathFor(tab, record) == AppPath(screen)
    ensures ResolveInitialTab(Canonical(tab, Some(record), at).pathname, params, saved) == Route(screen, true, FromPath, None)
  {
    CanonicalPathOfRecord(tab, record);
    ScreenReloads(screen, at, params, saved);
  }

  /** One such record: an escaped spelling of the `assign` segment opens asset `assign`... */
  lemma EscapedAssignOpensRecord(params: seq<Param>, saved: Option<string>)
    ensures ResolveInitialTab(Prefix(Assets(FixedAssets)) + "%61ssign", params, saved)
            == Route(Assets(FixedAssets), true, FromPath, Some(Detail("assign")))
  {
    EscapedAssignParses();
    EscapedBelowIsNoScreen(Prefix(Assets(FixedAssets)), "%61ssign");
    ResolvesToRecord(Prefix(Assets(FixedAssets)) + "%61ssign", Assets(FixedAssets), Detail("assign"), params, saved);
  }

  lemma EscapedAssignParses()
    ensures var p := Prefix(Assets(FixedAssets)) + "%61ssign";
            RecordAt(p) == Some((Assets(FixedAssets), Detail("assign"))) && NormalizePathname(p) == Lower(p)
  {
    EscapedAssign();
    OnePartBelow(Assets(FixedAssets), "%61ssign");
  }

  lemma AssignPath()
    ensures "/inventory/assets" + "/" + "assign" == AssetsPath(AssignAsset)
  {
  }

  lemma AssignTail()
    ensures RecordTail(Detail("assign")) == "assign"
  {
    EncodeUnreserved("assign");
  }

  /** ...whose canonical address is the screen that assigns assets. */
  lemma AssignHasAScreen()
    ensures RecordPathFor(Assets(FixedAssets), Detail("assign")) == AppPath(Assets(AssignAsset))
  {
    AssignTail();
    AssignPath();
  }
}
