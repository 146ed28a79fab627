/**
 * Which screen and record a path names, and when a printed record path names its record again
 * (client/src/routes/appPaths.ts).
 */
module AppRoutes {
  import opened Collections
  import opened PercentEncoding
  import opened AppPathTable
  import opened AppPaths

  ghost function TabFromPath(pathname: string): Option<NavTab> {
    var exact := ScreenAt(NormalizePathname(pathname));
    if exact.Some? then exact
    else
      var r := RecordAt(pathname);
      if r.Some? then Some(r.value.0) else None
  }

  datatype Param = Param(name: string, value: string)

  function FirstValue(params: seq<Param>, name: string): Option<string> {
    if params == [] then None
    else if params[0].name == name then Some(params[0].value)
    else FirstValue(params[1..], name)
  }

  datatype Source = FromPath | FromLegacyTab | FromLegacyFilters | FromSaved | FromDefault

  datatype Route = Route(tab: NavTab, fromUrl: bool, source: Source, record: Option<RecordRoute>)

  ghost function LegacyTab(params: seq<Param>): Option<NavTab> {
    var requested := FirstValue(params, "tab");
    if requested.None? || TabNamed(requested.value).None? then None
    else Some(CanonicalTab(TabNamed(requested.value).value))
  }

  predicate IsRootPath(pathname: string) { NormalizePathname(pathname) == "/" }

  ghost function ResolveInitialTab(pathname: string, params: seq<Param>, saved: Option<string>): Route {
    var pathTab := TabFromPath(pathname);
    if pathTab.Some? then
      var parsed := RecordAt(pathname);
      Route(pathTab.value, true, FromPath,
            if parsed.Some? && parsed.value.0 == pathTab.value then Some(parsed.value.1) else None)
    else if LegacyTab(params).Some? then Route(LegacyTab(params).value, true, FromLegacyTab, None)
    else if IsRootPath(pathname) && (FirstValue(params, "access").Some? || FirstValue(params, "operation").Some?) then
      Route(Access(Users), true, FromLegacyFilters, None)
    else if saved.Some? && TabNamed(saved.value).Some? then
      Route(CanonicalTab(TabNamed(saved.value).value), false, FromSaved, None)
    else Route(Home(Dashboard), false, FromDefault, None)
  }

  // ----- Spelling -----

  lemma PlainIsLower(p: string)
    requires Plain(p)
    ensures Lower(p) == p
  {
  }

  lemma NoTrailingSlash(p: string)
    requires |p| > 0 && p[|p| - 1] != '/'
    ensures StripTrailingSlash(p) == p
  {
  }

  lemma LowerConcat(a: string, b: string)
    ensures Lower(a + b) == Lower(a) + Lower(b)
  {
  }

  lemma {:induction false} SplitWhole(s: string)
    requires '/' !in s
    ensures Split(s) == [s]
  {
    if s != "" {
      SplitWhole(s[1..]);
      assert [s[0]] + s[1..] == s;
    }
  }

  lemma Slashed(c: char, r: string, b: string)
    ensures [c] + r + "/" + b == [c] + (r + "/" + b)
  {
  }

  lemma HeadOf<T>(h: T, s: seq<T>, t: seq<T>)
    requires |s| > 0
    ensures [h] + (s + t) == [h] + s + t && (s + t)[0] == s[0]
    ensures [h] + (s + t)[1..] == [h] + s[1..] + t
  {
  }

  lemma SplitCons(c: char, s: string)
    ensures Split([c] + s) == if c == '/' then [""] + Split(s) else [[c] + Split(s)[0]] + Split(s)[1..]
  {
    assert ([c] + s)[1..] == s;
  }

  lemma {:induction false} SplitAtSlash(a: string, b: string)
    ensures Split(a + "/" + b) == Split(a) + Split(b)
  {
    if a == "" {
      assert a + "/" + b == ['/'] + b;
      SplitCons('/', b);
    } else {
      SplitAtSlash(a[1..], b);
      SplitStep(a[0], a[1..], b);
      assert [a[0]] + a[1..] == a;
    }
  }

  lemma SplitStep(c: char, r: string, b: string)
    requires Split(r + "/" + b) == Split(r) + Split(b)
    ensures Split([c] + r + "/" + b) == Split([c] + r) + Split(b)
  {
    Slashed(c, r, b);
    SplitCons(c, r);
    SplitCons(c, r + "/" + b);
    HeadOf("", Split(r), Split(b));
    HeadOf([c] + Split(r)[0], Split(r), Split(b));
  }

  lemma {:induction false} DecodePlain(s: string)
    requires '%' !in s
    ensures Decode(s) == Some(s) && Decoded(s) == s
  {
    if s != "" {
      DecodePlain(s[1..]);
      assert [s[0]] + s[1..] == s;
    }
  }

  // ----- Screens -----

  /** Case and trailing slashes aside, the path of any tab names its live screen. */
  lemma ScreenRoundTrip(tab: NavTab, pathname: string)
    requires NormalizePathname(pathname) == PathForTab(tab)
    ensures TabFromPath(pathname) == Some(CanonicalTab(tab))
  {
    EachScreenOwnsItsPath(CanonicalTab(tab));
  }

  lemma PathIsNormal(tab: NavTab)
    ensures NormalizePathname(PathForTab(tab)) == PathForTab(tab)
  {
    var p := PathForTab(tab);
    PathsAreCanonical(CanonicalTab(tab));
    NoTrailingSlash(p);
    PlainIsLower(p);
  }

  // ----- Records -----

  lemma OnePart(tab: NavTab, part: string)
    requires '/' !in part
    ensures ParseTail(tab, part) == RecordOf(tab, [Decoded(part)])
  {
    SplitWhole(part);
    assert DecodedAll([part]) == [Decoded(part)];
  }

  lemma TwoParts(tab: NavTab, a: string, b: string)
    requires '/' !in a && '/' !in b
    ensures ParseTail(tab, a + "/" + b) == RecordOf(tab, [Decoded(a), Decoded(b)])
  {
    SplitAtSlash(a, b);
    SplitWhole(a);
    SplitWhole(b);
    assert Split(a + "/" + b) == [a, b];
    assert DecodedAll([a, b]) == [Decoded(a), Decoded(b)];
  }

  predicate Ends(tail: string) { tail != "" && tail[|tail| - 1] != '/' }

  lemma CreateParses(tab: NavTab)
    requires Creates(tab)
    ensures ParseTail(tab, "new") == Some((tab, Create))
  {
    OnePart(tab, "new");
    DecodePlain("new");
  }

  lemma EncodedId(id: string)
    ensures Decoded(Encode(id)) == id && '/' !in Encode(id) && (id != "" ==> Ends(Encode(id)))
  {
    RoundTrip(id);
    EncodeSafe(id);
    assert !Safe('/');
  }

  lemma DetailParses(tab: NavTab, id: string)
    requires Details(tab) && id != "" && Lower(id) != "new"
    ensures ParseTail(tab, Encode(id)) == Some((tab, Detail(id)))
  {
    EncodedId(id);
    OnePart(tab, Encode(id));
  }

  lemma EditSuffix(s: string)
    ensures s + "/edit" == s + "/" + "edit"
  {
  }

  lemma EditParses(tab: NavTab, id: string)
    requires Edits(tab) && id != ""
    ensures ParseTail(tab, Encode(id) + "/edit") == Some((tab, Edit(id)))
  {
    EncodedId(id);
    TwoParts(tab, Encode(id), "edit");
    DecodePlain("edit");
    EditSuffix(Encode(id));
  }

  /** The tail of a supported record path. */
  lemma TailParses(tab: NavTab, record: RecordRoute)
    requires IsRecordScreen(tab) && Supports(tab, record) && Named(record)
    ensures ParseTail(tab, RecordTail(record)) == Some((tab, record))
    ensures Ends(RecordTail(record))
  {
    match record
    case Create => CreateParses(tab);
    case Detail(id) => DetailParses(tab, id); EncodedId(id);
    case Edit(id) => EditParses(tab, id);
  }

  lemma PrefixFacts(tab: NavTab, tail: string)
    requires IsRecordScreen(tab) && Ends(tail)
    ensures Under(tab, Prefix(tab) + tail)
    ensures StripTrailingSlash(Prefix(tab) + tail) == Prefix(tab) + tail
  {
    BaseIsRegister(tab);
    PathsAreCanonical(tab);
    LowerConcat(Prefix(tab), tail);
    PlainIsLower(Prefix(tab));
    NoTrailingSlash(Prefix(tab) + tail);
  }

  /** A supported record with a usable identifier is parsed back from its path. */
  lemma RecordParses(tab: NavTab, record: RecordRoute)
    requires IsRecordScreen(tab) && Supports(tab, record) && Named(record)
    ensures RecordAt(RecordPathFor(tab, record)) == Some((tab, record))
    ensures NormalizePathname(RecordPathFor(tab, record)) == Lower(RecordPathFor(tab, record))
  {
    BaseIsRegister(tab);
    TailParses(tab, record);
    PrefixFacts(tab, RecordTail(record));
    ParsedByItsScreen(tab, RecordPathFor(tab, record));
  }

  lemma NoUsersNewScreen(t: AccessTab)
    ensures AccessPath(t) != "/settings/users" + "/" + "new"
  {
    assert ("/settings/users" + "/" + "new")[15] == '/';
  }

  lemma NoAssetsNewScreen(t: AssetsTab)
    ensures AssetsPath(t) != "/inventory/assets" + "/" + "new"
  {
    assert |"/inventory/assets" + "/" + "new"| == 21;
  }

  lemma CreateArea(tab: NavTab)
    requires Creates(tab)
    ensures AreaAt(Prefix(tab) + "new") == AreaOf(tab)
  {
    var p := Prefix(tab) + "new";
    assert forall i :: 0 <= i < 12 ==> p[i] == Base(tab)[i];
  }

  lemma CreatePathIsUnowned(tab: NavTab, t: NavTab)
    requires Creates(tab)
    ensures AppPath(t) != Prefix(tab) + "new"
  {
    if AreaOf(t) != AreaOf(tab) {
      CreateArea(tab);
      PathsAreCanonical(t);
    } else if tab == Access(Users) {
      NoUsersNewScreen(t.tabAccess);
    } else {
      NoAssetsNewScreen(t.tabAssets);
    }
  }

  lemma CreateIsNoScreen(tab: NavTab)
    requires Creates(tab)
    ensures ScreenAt(Lower(RecordPathFor(tab, Create))).None?
  {
    var p := RecordPathFor(tab, Create);
    BaseIsRegister(tab);
    PathsAreCanonical(tab);
    assert Plain(Prefix(tab) + "new");
    PlainIsLower(p);
    ScreenOwns(p);
    forall t ensures AppPath(t) != p { CreatePathIsUnowned(tab, t); }
  }

  lemma EditIsNoScreen(tab: NavTab, id: string)
    requires Edits(tab)
    ensures ScreenAt(Lower(RecordPathFor(tab, Edit(id)))).None?
  {
    var p := RecordPathFor(tab, Edit(id));
    assert p == Prefix(tab) + Encode(id) + "/edit";
    assert p[|p| - 1] == 't' && p[|p| - 4] == 'e';
    ScreenIsCanonical(Lower(p));
  }

  /** What an identifier must be for its record path to name it. */
  ghost predicate Addressable(tab: NavTab, record: RecordRoute) {
    match record
    case Create => true
    case Edit(id) => id != ""
    case Detail(id) => id != "" && Lower(id) != "new" && ScreenAt(Lower(RecordPathFor(tab, record))).None?
  }

  lemma OwnPathIsShorter(tab: NavTab, record: RecordRoute)
    requires IsRecordScreen(tab) && Supports(tab, record) && Named(record)
    ensures ScreenAt(NormalizePathname(RecordPathFor(tab, record))) != Some(tab)
  {
    BaseIsRegister(tab);
    RecordParses(tab, record);
    ScreenOwns(NormalizePathname(RecordPathFor(tab, record)));
    assert |Base(tab)| < |RecordPathFor(tab, record)|;
  }

  /** What it takes for a path to resolve to a record. */
  lemma ResolvesToRecord(p: string, tab: NavTab, record: RecordRoute, params: seq<Param>, saved: Option<string>)
    ensures ResolveInitialTab(p, params, saved) == Route(tab, true, FromPath, Some(record)) <==>
            RecordAt(p) == Some((tab, record)) && (ScreenAt(NormalizePathname(p)).None? || ScreenAt(NormalizePathname(p)) == Some(tab))
  {
  }

  lemma NamedRoundTrip(tab: NavTab, record: RecordRoute)
    requires IsRecordScreen(tab) && Supports(tab, record) && Named(record)
    ensures ScreenAt(Lower(RecordPathFor(tab, record))).None? <==> Addressable(tab, record)
  {
    match record
    case Create => CreateIsNoScreen(tab);
    case Edit(id) => EditIsNoScreen(tab, id);
    case Detail(_) =>
  }

  /** Printing a record path and resolving it gives the tab and record back exactly when the identifier is not empty
      and, on a detail path, is not `new` in any case and does not spell a screen of its own. */
  lemma RecordRoundTrip(tab: NavTab, record: RecordRoute, params: seq<Param>, saved: Option<string>)
    requires IsRecordScreen(tab) && Supports(tab, record)
    ensures ResolveInitialTab(RecordPathFor(tab, record), params, saved) == Route(tab, true, FromPath, Some(record)) <==>
            Addressable(tab, record)
  {
    var p := RecordPathFor(tab, record);
    ResolvesToRecord(p, tab, record, params, saved);
    ParsedIsSupported(p);
    if Named(record) {
      RecordParses(tab, record);
      OwnPathIsShorter(tab, record);
      NamedRoundTrip(tab, record);
    }
  }

  // ----- Which source wins -----

  /** A parameter reads as its first occurrence. */
  lemma {:induction false} FirstValueIs(params: seq<Param>, name: string, value: string)
    ensures FirstValue(params, name) == Some(value) <==>
            exists i :: 0 <= i < |params| && params[i] == Param(name, value) && forall j :: 0 <= j < i ==> params[j].name != name
  {
    if params != [] {
      FirstValueIs(params[1..], name, value);
      if i :| 0 <= i < |params[1..]| && params[1..][i] == Param(name, value) && (forall j :: 0 <= j < i ==> params[1..][j].name != name) {
        assert params[i + 1] == Param(name, value);
        assert forall j :: 0 < j < i + 1 ==> params[j] == params[1..][j - 1];
      }
      if i :| 0 < i < |params| && params[i] == Param(name, value) && (forall j :: 0 <= j < i ==> params[j].name != name) {
        assert params[1..][i - 1] == Param(name, value);
        assert forall j :: 0 <= j < i - 1 ==> params[1..][j] == params[j + 1];
      }
    }
  }

  /** An address that names no screen: the retired `tab` parameter, then a Users filter link on the root, then the saved
      tab, then Dashboard. Exactly when the address decides, saved preferences may not override it, and the screen shown is
      always a live one. */
  lemma WhoDecides(p: string, params: seq<Param>, saved: Option<string>)
    ensures var r, named := ResolveInitialTab(p, params, saved), FirstValue(params, "tab");
            && (r.fromUrl <==> TabFromPath(p).Some? || (named.Some? && TabNamed(named.value).Some?)
                               || (IsRootPath(p) && (FirstValue(params, "access").Some? || FirstValue(params, "operation").Some?)))
            && (TabFromPath(p).None? && named.Some? && TabNamed(named.value).Some? ==> r.tab == CanonicalTab(TabNamed(named.value).value))
            && (r.fromUrl && TabFromPath(p).None? && (named.None? || TabNamed(named.value).None?) ==> r.tab == Access(Users))
            && (!r.fromUrl ==> r.tab == if saved.Some? && TabNamed(saved.value).Some? then CanonicalTab(TabNamed(saved.value).value) else Home(Dashboard))
            && (r.record.Some? ==> TabFromPath(p) == Some(r.tab) && RecordAt(p) == Some((r.tab, r.record.value)))
  {
  }
}
