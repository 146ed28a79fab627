/**
 * Printing and parsing of workspace paths (client/src/routes/appPaths.ts). `Lower` agrees with `toLowerCase` in every
 * comparison with a lower-case ASCII text: U+212A is the one other character that lower-cases into ASCII.
 */
module AppPaths {
  import opened Collections
  import opened PercentEncoding
  import opened AppPathTable

  datatype RecordRoute = Create | Detail(id: string) | Edit(id: string)

  type Address = (NavTab, RecordRoute)

  function LowerChar(c: char): char {
    if 'A' <= c <= 'Z' then (c as int + 32) as char else if c == '\U{212A}' then 'k' else c
  }

  function Lower(s: string): (r: string)
    ensures |r| == |s| && forall i :: 0 <= i < |s| ==> r[i] == LowerChar(s[i])
  {
    seq(|s|, i requires 0 <= i < |s| => LowerChar(s[i]))
  }

  predicate StartsWith(s: string, prefix: string) { |prefix| <= |s| && s[..|prefix|] == prefix }

  // ----- The record screens -----

  const RECORD_SCREENS: seq<NavTab> :=
    [SalesDocuments(SalesList), Orders(PurchaseList), Orders(PoList), SalesDocuments(SalesReturns), Shipments(PurchaseReturns),
     Shipments(ShipmentList), Transfers(ReceiveBranchTransfer), SalesParties(Customers), Access(Users), Assets(FixedAssets)]

  predicate IsRecordScreen(tab: NavTab) {
    match tab
    case SalesDocuments(t) => t.SalesList? || t.SalesReturns?
    case Orders(t) => t.PurchaseList? || t.PoList?
    case Shipments(t) => t.PurchaseReturns? || t.ShipmentList?
    case Transfers(t) => t.ReceiveBranchTransfer?
    case SalesParties(t) => t.Customers?
    case Access(t) => t.Users?
    case Assets(t) => t.FixedAssets?
    case _ => false
  }

  function Base(tab: NavTab): string
    requires IsRecordScreen(tab)
  {
    match tab
    case SalesDocuments(SalesList) => "/sales/invoices"
    case Orders(PurchaseList) => "/purchasing/invoices"
    case Orders(PoList) => "/purchasing/orders"
    case SalesDocuments(SalesReturns) => "/sales/returns"
    case Shipments(PurchaseReturns) => "/purchasing/returns"
    case Shipments(ShipmentList) => "/purchasing/shipments"
    case Transfers(ReceiveBranchTransfer) => "/inventory/transfers/receive"
    case SalesParties(Customers) => "/sales/customers"
    case Access(Users) => "/settings/users"
    case Assets(FixedAssets) => "/inventory/assets"
  }

  predicate Creates(tab: NavTab) { tab == Access(Users) || tab == Assets(FixedAssets) }

  predicate Edits(tab: NavTab) { tab == Orders(PoList) || tab == Access(Users) }

  predicate Details(tab: NavTab) { IsRecordScreen(tab) && tab != Access(Users) }

  /** `record` is a child route the screen of this tab can render. */
  predicate Supports(tab: NavTab, record: RecordRoute) {
    match record
    case Create => Creates(tab)
    case Edit(_) => Edits(tab)
    case Detail(_) => Details(tab)
  }

  // ----- Printing -----

  function PathForTab(tab: NavTab): string { AppPath(CanonicalTab(tab)) }

  function Prefix(tab: NavTab): string
    requires IsRecordScreen(tab)
  {
    Base(tab) + "/"
  }

  function RecordTail(record: RecordRoute): string {
    match record
    case Create => "new"
    case Edit(id) => Encode(id) + "/edit"
    case Detail(id) => Encode(id)
  }

  function RecordPathFor(tab: NavTab, record: RecordRoute): string {
    var next := CanonicalTab(tab);
    if Supports(next, record) then Prefix(next) + RecordTail(record) else PathForTab(next)
  }

  // ----- Parsing -----

  function TrimSlashes(p: string): (r: string)
    ensures StartsWith(p, r)
    ensures |r| > 0 ==> r[|r| - 1] != '/'
  {
    if p != "" && p[|p| - 1] == '/' then TrimSlashes(p[..|p| - 1]) else p
  }

  function StripTrailingSlash(p: string): string { if |p| > 1 then TrimSlashes(p) else p }

  function NormalizePathname(p: string): string {
    Lower(if StripTrailingSlash(p) == "" then "/" else StripTrailingSlash(p))
  }

  function Split(s: string): (r: seq<string>)
    ensures |r| > 0
    ensures forall x, c :: x in r && c in x ==> c in s && c != '/'
  {
    if s == "" then [""]
    else
      var r := Split(s[1..]);
      if s[0] == '/' then [""] + r else [[s[0]] + r[0]] + r[1..]
  }

  /** A path part as text, or as it stands when it is not a valid encoding. */
  function Decoded(part: string): string {
    if Decode(part).Some? then Decode(part).value else part
  }

  function DecodedAll(parts: seq<string>): (r: seq<string>)
    ensures |r| == |parts| && forall i :: 0 <= i < |parts| ==> r[i] == Decoded(parts[i])
  {
    seq(|parts|, i requires 0 <= i < |parts| => Decoded(parts[i]))
  }

  function RecordOf(tab: NavTab, rest: seq<string>): Option<Address> {
    if "" in rest then None
    else if |rest| == 1 && Lower(rest[0]) == "new" then if Creates(tab) then Some((tab, Create)) else None
    else if |rest| == 2 && Lower(rest[1]) == "edit" then if Edits(tab) then Some((tab, Edit(rest[0]))) else None
    else if |rest| == 1 && Details(tab) then Some((tab, Detail(rest[0])))
    else None
  }

  /** The record that what follows a screen's prefix addresses. */
  function ParseTail(tab: NavTab, tail: string): Option<Address> { RecordOf(tab, DecodedAll(Split(tail))) }

  predicate Under(tab: NavTab, clean: string) { IsRecordScreen(tab) && StartsWith(Lower(clean), Prefix(tab)) }

  /** What the first screen of `tabs` whose prefix opens the path makes of it. */
  function ScanScreens(tabs: seq<NavTab>, clean: string): Option<Address> {
    if tabs == [] then None
    else if Under(tabs[0], clean) then ParseTail(tabs[0], clean[|Prefix(tabs[0])|..])
    else ScanScreens(tabs[1..], clean)
  }

  function RecordAt(p: string): Option<Address> { ScanScreens(RECORD_SCREENS, StripTrailingSlash(p)) }

  method RecordFromPath(pathname: string) returns (r: Option<Address>)
    ensures r == RecordAt(pathname)
  {
    var clean := StripTrailingSlash(pathname);
    var i := 0;
    while i < |RECORD_SCREENS|
      invariant 0 <= i <= |RECORD_SCREENS|
      invariant RecordAt(pathname) == ScanScreens(RECORD_SCREENS[i..], clean)
    {
      var tab := RECORD_SCREENS[i];
      if Under(tab, clean) {
        var rest := DecodedAll(Split(clean[|Prefix(tab)|..]));
        return RecordOf(tab, rest);
      }
      assert RECORD_SCREENS[i..][1..] == RECORD_SCREENS[i + 1..];
      i := i + 1;
    }
    return None;
  }

  // ----- No two record screens share a prefix -----

  /** A record screen is the register its table entry names. */
  lemma BaseIsRegister(tab: NavTab)
    requires IsRecordScreen(tab)
    ensures Base(tab) == AppPath(tab) && Live(tab)
  {
  }

  lemma EveryScreenIsTried(tab: NavTab)
    requires IsRecordScreen(tab)
    ensures tab in RECORD_SCREENS
  {
    var s := RECORD_SCREENS;
    assert s[0] == SalesDocuments(SalesList) && s[1] == Orders(PurchaseList) && s[2] == Orders(PoList);
    assert s[3] == SalesDocuments(SalesReturns) && s[4] == Shipments(PurchaseReturns) && s[5] == Shipments(ShipmentList);
    assert s[6] == Transfers(ReceiveBranchTransfer) && s[7] == SalesParties(Customers) && s[8] == Access(Users);
    assert s[9] == Assets(FixedAssets);
  }

  /** Four positions tell the screens apart by their prefixes. */
  function Marks(p: string): (char, char, char, char)
    requires |p| > 12
  {
    (p[2], p[7], p[11], p[12])
  }

  lemma PrefixMarks(t: NavTab)
    requires IsRecordScreen(t)
    ensures |Prefix(t)| > 12
    ensures Marks(Prefix(t)) == match t
                                case SalesDocuments(SalesList) => ('a', 'i', 'i', 'c')
                                case Orders(PurchaseList) => ('u', 's', '/', 'i')
                                case Orders(PoList) => ('u', 's', '/', 'o')
                                case SalesDocuments(SalesReturns) => ('a', 'r', 'r', 'n')
                                case Shipments(PurchaseReturns) => ('u', 's', '/', 'r')
                                case Shipments(ShipmentList) => ('u', 's', '/', 's')
                                case Transfers(ReceiveBranchTransfer) => ('n', 'o', 't', 'r')
                                case SalesParties(Customers) => ('a', 'c', 'o', 'm')
                                case Access(Users) => ('e', 'g', 's', 'e')
                                case Assets(FixedAssets) => ('n', 'o', 'a', 's')
  {
  }

  lemma PrefixesApart(t: NavTab, u: NavTab, p: string)
    requires IsRecordScreen(t) && IsRecordScreen(u) && StartsWith(p, Prefix(t)) && StartsWith(p, Prefix(u))
    ensures t == u
  {
    PrefixMarks(t);
    PrefixMarks(u);
    assert Marks(p[..|Prefix(t)|]) == Marks(p) == Marks(p[..|Prefix(u)|]);
  }

  lemma {:induction false} ScanFinds(tabs: seq<NavTab>, tab: NavTab, clean: string)
    requires tab in tabs && Under(tab, clean)
    ensures ScanScreens(tabs, clean) == ParseTail(tab, clean[|Prefix(tab)|..])
  {
    if Under(tabs[0], clean) {
      PrefixesApart(tabs[0], tab, Lower(clean));
    } else {
      ScanFinds(tabs[1..], tab, clean);
    }
  }

  /** A path under a screen's prefix is parsed by that screen, whichever order the screens are tried in. */
  lemma ParsedByItsScreen(tab: NavTab, p: string)
    requires Under(tab, StripTrailingSlash(p))
    ensures RecordAt(p) == ParseTail(tab, StripTrailingSlash(p)[|Prefix(tab)|..])
  {
    EveryScreenIsTried(tab);
    ScanFinds(RECORD_SCREENS, tab, StripTrailingSlash(p));
  }

  lemma {:induction false} ScanIsParse(tabs: seq<NavTab>, clean: string)
    ensures var r := ScanScreens(tabs, clean);
            r.Some? ==> Under(r.value.0, clean) && r == ParseTail(r.value.0, clean[|Prefix(r.value.0)|..])
  {
    if tabs != [] && !Under(tabs[0], clean) { ScanIsParse(tabs[1..], clean); }
  }

  /** An identifier the parser can produce. */
  predicate Named(record: RecordRoute) {
    match record
    case Create => true
    case Edit(id) => id != ""
    case Detail(id) => id != "" && Lower(id) != "new"
  }

  /** Whatever is parsed is a route its screen supports, with a usable identifier. */
  lemma ParsedIsSupported(p: string)
    ensures RecordAt(p).Some? ==> IsRecordScreen(RecordAt(p).value.0) && Supports(RecordAt(p).value.0, RecordAt(p).value.1) &&
                                  Named(RecordAt(p).value.1)
  {
    ScanIsParse(RECORD_SCREENS, StripTrailingSlash(p));
  }
}
