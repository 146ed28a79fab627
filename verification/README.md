# Verification of the inventory and accounting client

A Dafny model of the parts of the application whose behaviour is hardest to see from reading one function, with the
properties those parts are meant to have. Nothing in this project executes the application; `dafny verify
dfyconfig.toml` checks everything.

**Bikram Sambat calendar.** `BsCalendar` holds the expansion of seeded years into a day table, the arithmetic
conversions both ways, the overlap report and the seeder's label. A month entered as zero counts as 30 days in some
paths and as nothing in others, so the model keeps both readings. `BsCalendarTheory` and `BsConversion` relate them;
`CalendarStore` is the mutable store with its three revision-keyed memos; `BundledCalendar` instantiates the results on
the shipped years. AD dates are day numbers. The comments beside the client code promise that the table and the
conversion resolve every day alike; that holds exactly when no year is shadowed by a shorter later one and the last year
has no zero month. A day in a gap between years is not refused by the conversion but answered with another day; it
refuses every unrecorded day exactly when there is no gap.

**Hydration and client caches.** `BootstrapSlices` has the slice reducers and the request gate, `Hydration` the
application protocol around them as a transition system over requests, answers, failures, view switches and full
payloads, and a class whose methods are its steps. `ExchangeDevices`, `ShipmentOverview`, `ProcurementPending` and
`BranchStock` treat the stores the same way: a state with the closure's variables plus the reads in flight, one step
function per event, invariants over all runs, and a class proved to take exactly those steps; what each store shows is
also computed from the history of its events alone. `ExchangeScopes` says which scopes the device cache keeps. Where the code falls short
of its comments the model follows the code, and the project proves either the exact condition or the bad run:

- an applied slice is not noted in the gate, so a slice can move the screen back to an older slice version;
- a full refresh asks for the view its closure captured and is guarded by its number only, so a handler that outlives a
  view switch can paint the old view's payload in the new view;
- an exchange-device read whose scope was pruned and released survives a reset, and a pruned scope that is still
  requested is refreshed with an empty query, whose answer is shown as that branch's;
- the answer of a pruned scope is filed again, so the device cache can grow past its limit and keep a scope of a branch
  that was left;
- a procurement refetch that fires with no subscriber can leave `loading` set with nothing in flight, until a retry, an
  invalidation, a reset or another view;
- a superseded branch-stock answer is stored and clears the branch's dirty mark before its id is looked at, so it can
  swallow an invalidation, be published by a later batch, or outlive a reset, after which the next session publishes
  the rows of the one before.

**Settlement and ledger.** `FifoSettlement` generalises the seeder's loops to any invoices and receipts; `Ledger` has
the postings and the imperative ledger, `LedgerTheory` the balance of every account and party, and the theorem that the
control accounts equal what the settlement left unpaid; `SettledBooks` runs the two together over all branches. Amounts are whole numbers of
the source's own unit, rupees.

**Dates and terms.** `Gregorian` numbers the proleptic Gregorian days (section 21.4.1 of ECMA-262); `AdDates`,
`BillTerms` and `WarrantyTerm` are the text forms, validators, day and month arithmetic, and coverage rules;
`Depreciation` is the asset formula over the reals, with `Math.pow(1 - rate / 100, months / 12)` written as the power of
a monthly factor; it counts a month only when the day itself has come, where the warranty terms clamp the day. Years 0 to 99 are rejected by both validators, because the platform reads them as 1900 to 1999, and
sums that pass year 9999 print a text that is no date.

**Paths.** `PercentEncoding` is `encodeURIComponent` and its inverse over Unicode text (section 2.1 of RFC 3986),
`AppPathTable` the screen table (tabs grouped by area), `AppPaths` and `AppRoutes` printing, parsing and resolution,
`AppLocations` the canonical address. A record path can spell a screen's own path, or hold a dot segment that a URL
removes; the round trip holds exactly for the other identifiers.

**Stock index.** `StockIndex` proves the indexed lookups equal to the first-match scan, exactly for rows whose ids do
not hold the separator, and the low-stock order equal to the naive pass.

## Model

| member | source | states |
|---|---|---|
| BsCalendar.LocateFinds | client/src/utils/nepaliCalendar.ts:1036-1048 | the month walk of the conversion finds the month and day any in-year offset was built from |
| BsCalendar.LocateValid | client/src/utils/nepaliCalendar.ts:1036-1053 | inside the year the walk yields a valid date whose day sum leads back to the same day |
| BsCalendar.LocateClamps | client/src/utils/nepaliCalendar.ts:1050-1053 | past the year the walk answers the last day of Chaitra |
| BsCalendar.YearBijection | client/src/utils/nepaliCalendar.ts:1032-1107 | within one year the two conversions are inverse bijections between its days and its dates |
| BsCalendar.RawLenIsYearLen | client/src/utils/nepaliCalendar.ts:210-211 | the raw month total is the year's length exactly when no month was entered as zero |
| BsCalendar.DaysThroughAt | client/src/utils/nepaliCalendar.ts:643-676 | the table builder's nested day loop visits the year's days in order, each with the date the conversion's walk would locate |
| BsCalendar.FiscalYearExact | client/src/utils/nepaliCalendar.ts:643-676 | a BS date is in the fiscal year that begins on the last 1 Shrawan not after it, and its quarter is that of the months since |
| BsCalendar.ToADRolls | client/src/utils/nepaliCalendar.ts:1086-1108 | month and day numbers outside a year: months before Baisakh count as Baisakh, each month past Chaitra as thirty days, day numbers simply add |
| BsCalendarTheory.TableRecords | client/src/utils/nepaliCalendar.ts:633-699 | one record per claimed AD day, and of several claims the latest year's |
| BsCalendarTheory.TableAscending | client/src/utils/nepaliCalendar.ts:635-699 | with ascending Baisakh-1 days the table is strictly ascending, so its ends bound every recorded day |
| BsCalendarTheory.DaysConserved | client/src/utils/nepaliCalendar.ts:577-699 | table rows plus reported overlaps equal the sum of all year lengths |
| BsCalendarTheory.OverlapsExact | client/src/utils/nepaliCalendar.ts:577-607 | the report lists exactly the repeated claims, each with the earliest claimant's date and its own |
| BsCalendarTheory.NoOverlapReported | client/src/utils/nepaliCalendar.ts:572-607 | the report is empty exactly when no AD day is claimed twice |
| BsConversion.ConvertDay | client/src/utils/nepaliCalendar.ts:1000-1068 | for one recorded day: when the arithmetic conversion answers the table row, and when converting back gives the day |
| BsConversion.SelectedAnswer | client/src/utils/nepaliCalendar.ts:1021-1053 | the answer read off the scanned year is valid in that year and is the day itself or that year's last day |
| BsConversion.ConversionAgrees | client/src/utils/nepaliCalendar.ts:625-699 | table and arithmetic conversion agree on every recorded day, and AD to BS to AD is the identity, each if and only if no year is shadowed and the last year has no zero month |
| BsConversion.AscendingEndsSuffice | client/src/utils/nepaliCalendar.ts:968-1068 | non-decreasing year ends and no zero month in the last year are enough for both |
| BsConversion.BsRoundTripExact | client/src/utils/nepaliCalendar.ts:1086-1108 | BS to AD to BS is the identity on every valid date if and only if years are disjoint and the last has no zero month |
| BsConversion.OrderExact | client/src/utils/nepaliCalendar.ts:1086-1108 | BS order and AD order agree on all valid dates if and only if years are disjoint |
| BsConversion.SeederFirst | scripts/seed/verificationDataset.ts:83-98 | the seeder labels a day with its raw date in the first year whose raw months reach it, and throws when none does |
| BsConversion.SeederExact | scripts/seed/verificationDataset.ts:83-98 | the seeder's label equals the client's conversion on every recorded day if and only if no year is shadowed, no year's raw months reach the next, and every zero month begins after the next year has taken over |
| BsConversion.SeederExactPositive | scripts/seed/verificationDataset.ts:83-98 | for positive months that is: no two years overlap |
| BsConversion.GapIsClamped | client/src/utils/nepaliCalendar.ts:1014-1053 | a day in a gap inside the bounds is answered with the last day of the year before it, not refused |
| BsConversion.RefusesExactly | client/src/utils/nepaliCalendar.ts:1007-1030 | the conversion refuses every unrecorded day if and only if each later year starts at most one day past the end of some earlier one |
| BsConversion.GapHappens | client/src/utils/nepaliCalendar.ts:1014-1053 | two years with a day between them that is recorded by neither and answered all the same |
| BsConversion.ShadowHappens | client/src/utils/nepaliCalendar.ts:1014-1053 | a calendar whose first year outlasts its second: a day of the first is answered with the last day of the second, and neither table nor round trip agrees |
| BsConversion.ZeroMonthHappens | client/src/utils/nepaliCalendar.ts:1000-1030 | a year whose last month is zero: days of that month are recorded and refused, and no agreement or round trip holds |
| BsConversion.OverlapHappens | scripts/seed/verificationDataset.ts:83-98 | two overlapping years: the client and the seeder put one day in different years, and neither BS round trip nor order holds |
| BsConversion.TilingIsClean | client/src/utils/nepaliCalendar.ts:577-1108 | a tiling calendar reports no overlap and, with no zero month in its last year, has both round trips |
| CalendarStore.SortedYearsExact | client/src/utils/nepaliCalendar.ts:633-634 | sorting keeps every stored year, in strictly ascending BS order |
| CalendarStore.SeedStores | client/src/utils/nepaliCalendar.ts:204-232 | a seed stores the given months, converts 1 Baisakh to the start asked for, else to the day after the previous year, else to 14 April of the year minus 57, and leaves every other year as it was |
| CalendarStore.SeedTilesExactly | client/src/utils/nepaliCalendar.ts:204-232 | seeding any year of a tiling calendar, with or without a start, keeps it tiling if and only if the year adjoins a stored one, or is the only one, and fits between its neighbours |
| CalendarStore.SyncedAt | client/src/App.tsx:1322-1334 | after a sync each year the server sent is the server's, beginning on the day it sent, and every other is the client's own |
| CalendarStore.SeedKeepsTiling | client/src/utils/nepaliCalendar.ts:204-237 | seeding the next year without a start keeps a tiling calendar tiling if and only if the last year has no zero month |
| CalendarStore.SeedBreaksTiling | client/src/utils/nepaliCalendar.ts:204-237 | a tiling calendar of one year with a last month of zero, which seeding the next year stops from tiling |
| CalendarStore.AdDaysAreRecorded | client/src/utils/nepaliCalendar.ts:929-936 | the date set is exactly the days some year claims |
| CalendarStore.BoundsAreTrue | client/src/utils/nepaliCalendar.ts:741-758 | the reported bounds are the least and greatest recorded day with their table dates, and the total conserves days |
| CalendarStore.BoundsYears | client/src/utils/nepaliCalendar.ts:741-758 | the years listed with the bounds are those some recorded day's table date is in |
| CalendarStore.GridShowsTheMonth | client/src/utils/nepaliCalendar.ts:1156-1178 | every cell with a day stands in its weekday's column and leads back to that date, no day has two cells, and all days have one if and only if first column plus month length is at most 42 |
| CalendarStore.CellMarks | client/src/utils/nepaliCalendar.ts:1156-1178 | a cell's marks are those of its own day: recorded, today, selected, outside the inclusive bounds |
| CalendarStore.BsCalendarStore.constructor | client/src/utils/nepaliCalendar.ts:132-147 | the store starts on the bundled years with valid memos |
| CalendarStore.BsCalendarStore.SeedBSYearCalendar | client/src/utils/nepaliCalendar.ts:194-237 | a wrong month count fails and changes nothing; otherwise the year is stored and the revision moves, memos staying valid |
| CalendarStore.BsCalendarStore.SyncMirror | client/src/App.tsx:1322-1334 | the loop over the server's rows seeds the usable ones in the order sent |
| CalendarStore.BsCalendarStore.ResetBsCalendarData | client/src/utils/nepaliCalendar.ts:186-189 | the bundled years are back, under a new revision |
| CalendarStore.BsCalendarStore.GenerateCalendarDatabase | client/src/utils/nepaliCalendar.ts:621-699 | the memoised table equals a fresh expansion of the current store |
| CalendarStore.BsCalendarStore.GetCalendarBounds | client/src/utils/nepaliCalendar.ts:704-759 | the memoised bounds equal those of a fresh expansion |
| CalendarStore.BsCalendarStore.ExactAdDateSet | client/src/utils/nepaliCalendar.ts:929-936 | the memoised date set equals that of a fresh expansion |
| CalendarStore.BsCalendarStore.FindCalendarOverlaps | client/src/utils/nepaliCalendar.ts:577-607 | on years filed under their own number, the audit's loops compute the specified report |
| CalendarStore.BsCalendarStore.ExpandYears | client/src/utils/nepaliCalendar.ts:633-677 | the table builder's loops compute the specified table |
| CalendarStore.BsCalendarStore.HasExactBSDayRecord | client/src/utils/nepaliCalendar.ts:913-936 | true exactly for days some seeded year claims |
| CalendarStore.BsCalendarStore.ConvertADToBS | client/src/utils/nepaliCalendar.ts:968-1068 | the imperative scan and month walk compute the conversion the theorems are about |
| CalendarStore.BsCalendarStore.ConvertBSToAD | client/src/utils/nepaliCalendar.ts:1086-1108 | the imperative month sum computes the inverse conversion, and fails exactly for an unseeded year |
| CalendarStore.BsCalendarStore.EnsureBSDayForAD | client/src/utils/nepaliCalendar.ts:948-957 | nothing without an exact record; with one, the converted date, which is the table's own wherever conversion and table agree |
| CalendarStore.BsCalendarStore.GetBSMonthGrid | client/src/utils/nepaliCalendar.ts:1131-1179 | null exactly for an unseeded year or month, else the 42 specified cells |
| BundledCalendar.BundledTiles | shared/bsCalendarYears.json:4-13 | the shipped years tile the AD calendar and have no zero month |
| BundledCalendar.BundledIsExact | shared/bsCalendarYears.json:4-13 | so on shipped data table, both conversions and seeder labels agree exactly |
| BootstrapSlices.DismissLoop | client/src/services/bootstrapSlices.ts:153-163 | the loop marks exactly the undismissed failed entries |
| BootstrapSlices.MarkSlicesReadyAt | client/src/services/bootstrapSlices.ts:105-128 | a payload touches exactly its keys, clearing their errors and keeping a version it does not bring |
| BootstrapSlices.SliceRequestGate.Begin | client/src/services/bootstrapSlices.ts:263-267 | the new request has the next number and is the latest for its key |
| BootstrapSlices.SliceRequestGate.Decide | client/src/services/bootstrapSlices.ts:269-285 | superseded, then stale scope, then older version, else apply |
| BootstrapSlices.SliceRequestGate.NoteApplied | client/src/services/bootstrapSlices.ts:293-296 | a version is noted for exactly the payload's keys |
| Hydration.RunInv | client/src/App.tsx:1020-1084 | the protocol invariant holds in every reachable state |
| Hydration.NoStuckLoading | client/src/App.tsx:1048-1084 | a loading key's newest request is in flight, so at rest no key is loading |
| Hydration.StatusIsHistory | client/src/App.tsx:1048-1084 | in every run each key's status, version and message are computed from the history: loading exactly from a begin until the newest request comes back or a payload is shown, then ready, failed, or what it was before |
| Hydration.AnsweredOnce | client/src/App.tsx:1048-1084 | a second response to a request, of either kind, changes nothing |
| Hydration.PaintsAreOrdered | client/src/services/bootstrapSlices.ts:242-285 | per key slice payloads are shown in request order, full payloads in the order their refreshes began, and no slice payload below the last full version noted |
| Hydration.ShownWhereBegun | client/src/App.tsx:1153-1191 | a slice payload is shown only in its own view, a full payload in the view on screen when its refresh began, so in another view than its own exactly when its closure was stale by then |
| Hydration.ShowsForeignExactly | client/src/App.tsx:1187-1191 | a step shows a payload fetched for another view if and only if it is the newest refresh arriving with a captured view other than the one on screen |
| Hydration.ViewSafeExactly | client/src/App.tsx:1149-1157 | at no moment of a run could that happen if and only if every refresh begins with the view on screen |
| Hydration.OldViewIsPainted | client/src/App.tsx:1286-1310 | a run in which a handler that outlived a view switch paints, marks and notes the old view's payload, and the new view's own is discarded |
| Hydration.MovesBackExactly | client/src/App.tsx:1063-1066 | when exactly an applied slice lowers the version a key shows |
| Hydration.ScreenCanMoveBack | client/src/App.tsx:1063-1066 | a run in which a slice at version 7 is followed by the same slice at version 6 |
| Hydration.StepError | client/src/services/bootstrapSlices.ts:94-163 | what every step does to a key's error and its dismissal |
| Hydration.ErrorSurvives | client/src/services/bootstrapSlices.ts:87-97 | over every run an error stays until a payload for its key is shown |
| Hydration.DismissalSurvives | client/src/services/bootstrapSlices.ts:130-150 | over every run a dismissed message stays dismissed through repeats of itself |
| Hydration.StaleFailureIsSilent | client/src/App.tsx:1071-1079 | a superseded or left-view failure changes no key's error |
| Hydration.App.StartSliceFetch | client/src/App.tsx:1048-1052 | the first half of the fetch is the protocol's begin step and keeps the invariant |
| Hydration.App.OnSliceArrived | client/src/App.tsx:1054-1070 | the response handler is the protocol's arrival step |
| Hydration.App.OnSliceFailed | client/src/App.tsx:1071-1083 | the failure handler is the protocol's failure step |
| Hydration.App.StartRefreshAll | client/src/App.tsx:1153-1157 | a full refresh takes the next sequence number and asks for the view its caller's closure captured |
| Hydration.App.OnBootstrap | client/src/App.tsx:1187-1191 | only the newest full payload is applied, marked ready and noted |
| Hydration.App.OnSwitchView | client/src/App.tsx:1430-1433 | a view switch changes the scope responses are judged by |
| Hydration.App.OnDismiss | client/src/services/bootstrapSlices.ts:153-163 | the dismissal step |
| ExchangeDevices.RunInv | client/src/services/exchangeDeviceStore.ts:161-306 | the store's invariant holds in every reachable state |
| ExchangeDevices.EntriesAreHonest | client/src/services/exchangeDeviceStore.ts:201-244 | a loaded entry is the answer to its scope's highest-numbered read, rows always answer a read of that scope, a failed newest read leaves nothing, a loading scope has its read in flight |
| ExchangeDevices.RunTokens | client/src/services/exchangeDeviceStore.ts:204-205 | a scope's number never decreases |
| ExchangeDevices.SupersededReadIsSilent | client/src/services/exchangeDeviceStore.ts:219-243 | once a later read of the scope has started, the earlier one's answer or failure changes no entry, however the run goes on |
| ExchangeDevices.ResetSilences | client/src/services/exchangeDeviceStore.ts:296-305 | after a reset no earlier read of a requested or cached scope installs anything, however the run goes on |
| ExchangeDevices.ResetLeaksExactly | client/src/services/exchangeDeviceStore.ts:296-305 | however the run continues after a reset, an earlier read installs its answer if and only if it is unanswered, was current, its scope was neither requested nor cached, and no step has given the scope a new number |
| ExchangeDevices.RunMoves | client/src/services/exchangeDeviceStore.ts:201-305 | over every run a scope keeps its number if and only if no step starts a read of it or resets it while requested or cached |
| ExchangeDevices.ResetLeakHappens | client/src/services/exchangeDeviceStore.ts:296-305 | a run from the start in which a pruned and released scope's read is answered after a reset and filed for the next session |
| ExchangeDevices.AsksForItsScope | client/src/services/exchangeDeviceStore.ts:204-219 | a read carries a query exactly when one is registered for its scope |
| ExchangeDevices.UnscopedExactly | client/src/services/exchangeDeviceStore.ts:207-219 | a refresh is unscoped, and files every branch's answer under the scope, exactly when no query is registered |
| ExchangeDevices.PrunedScopeRefreshesUnscoped | client/src/services/exchangeDeviceStore.ts:185-199 | a scope pruned by another branch's read is in that situation |
| ExchangeDevices.ReadsScopedExactly | client/src/services/exchangeDeviceStore.ts:201-219 | over every run, every read carries a query if and only if each finds its scope's query registered when its turn comes |
| ExchangeDevices.UnscopedShownExactly | client/src/services/exchangeDeviceStore.ts:184-230 | at no moment of a run could an answer to a read without a query be shown, under the same condition and no other |
| ExchangeDevices.PrunedScopeShowsEveryBranch | client/src/services/exchangeDeviceStore.ts:184-280 | a run in which a scope that is still requested is pruned, refreshed with the empty query, and shows the answer |
| ExchangeDevices.ViewStaysInBranch | client/src/services/exchangeDeviceStore.ts:129-142 | in every run whose reads find their queries, the picker shows a branch only pages answering a read that asked for that branch, carried from any earlier render or not, and nothing after a failure |
| ExchangeScopes.ReadShows | client/src/services/exchangeDeviceStore.ts:201-219 | a read that starts is loading, over the rows there were when it is a retry and over none when it is a first read, under the next number |
| ExchangeScopes.AwaitedIsShown | client/src/services/exchangeDeviceStore.ts:220-246 | in every run answering the awaited read of a scope shows its page, a failure an empty list and the message, and every other scope shows what it did |
| ExchangeScopes.QuietShows | client/src/services/exchangeDeviceStore.ts:220-305 | nothing else that starts no read changes what a scope shows, short of a reset |
| ExchangeScopes.ResetForgets | client/src/services/exchangeDeviceStore.ts:296-305 | after a reset no scope has an entry, a query or a host |
| ExchangeScopes.ViewKeepsRows | client/src/services/exchangeDeviceStore.ts:125-142 | what the picker shows: the message, the loaded page, or the rows last loaded for the same branch, never another branch's |
| ExchangeScopes.PruneExactly | client/src/services/exchangeDeviceStore.ts:183-199 | a read keeps its own branch's scopes only, of these all but the oldest beyond six, never dropping its own nor any newer |
| ExchangeScopes.NeverCrowdedExactly | client/src/services/exchangeDeviceStore.ts:183-246 | a run never keeps more than seven scopes if and only if no late answer of a dropped scope comes while it keeps seven |
| ExchangeScopes.CrowdHappens | client/src/services/exchangeDeviceStore.ts:183-246 | a run that keeps eight, one of them of a branch that was left |
| ExchangeScopes.WantsAreHistory | client/src/services/exchangeDeviceStore.ts:248-294 | in every run the host counts, subscribers and pending refetch are computed from the history, and a scope is requested while some host wants it |
| ExchangeDevices.ExchangeDevicesStore.PruneFor | client/src/services/exchangeDeviceStore.ts:185-199 | the two loops drop the other branches, then the oldest scopes beyond six |
| ExchangeDevices.ExchangeDevicesStore.StartRead | client/src/services/exchangeDeviceStore.ts:201-219 | a read starts exactly when forced or when the scope is neither loaded nor loading, with the next number |
| ExchangeDevices.ExchangeDevicesStore.OnArrived | client/src/services/exchangeDeviceStore.ts:220-230 | the success callback is the protocol's arrival step |
| ExchangeDevices.ExchangeDevicesStore.OnFailed | client/src/services/exchangeDeviceStore.ts:231-243 | the failure callback is the protocol's failure step |
| ExchangeDevices.ExchangeDevicesStore.OnEnsureLoaded | client/src/services/exchangeDeviceStore.ts:262-266 | a subscriber is counted, its query registered, and a read started if needed |
| ExchangeDevices.ExchangeDevicesStore.OnRelease | client/src/services/exchangeDeviceStore.ts:268-272 | the last release removes the scope from the requested ones |
| ExchangeDevices.ExchangeDevicesStore.OnRefresh | client/src/services/exchangeDeviceStore.ts:274-280 | one scope or all live ones are read again |
| ExchangeDevices.ExchangeDevicesStore.RefreshKeys | client/src/services/exchangeDeviceStore.ts:276-279 | the loop counts each scope as requested and reads it again |
| ExchangeDevices.ExchangeDevicesStore.OnInvalidateTask | client/src/services/exchangeDeviceStore.ts:287-293 | the coalesced refetch reads every live scope if someone subscribes |
| ExchangeDevices.ExchangeDevicesStore.OnReset | client/src/services/exchangeDeviceStore.ts:296-305 | numbers of requested and cached scopes move on and all else is cleared |
| ExchangeDevices.BumpAll | client/src/services/exchangeDeviceStore.ts:297-299 | the loop moves exactly the live scopes' numbers on by one |
| RowMerge.AppendUnseen | client/src/services/shipmentOverviewStore.ts:68-76 | the merge loop appends exactly the first rows of unseen keys |
| RowMerge.MergeShipmentWindow | client/src/services/shipmentOverviewStore.ts:64-77 | pending rows first, then the recent ones, keyless rows dropped |
| RowMerge.MergeBranchStock | client/src/services/branchStockStore.ts:67-80 | the fallback is kept whole; fetched rows only add keys it lacks |
| RowMerge.FirstsKeepEachKeyOnce | client/src/services/shipmentOverviewStore.ts:59-77 | every row is from the input, no key twice, and a key present exactly when some row carries it and it was not taken |
| RowMerge.FirstRowWins | client/src/services/shipmentOverviewStore.ts:59-77 | the row kept for a key is its first |
| ShipmentOverview.RunInv | client/src/services/shipmentOverviewStore.ts:79-169 | the store's invariant holds in every reachable state |
| ShipmentOverview.PublishedScopeIsAsked | client/src/services/shipmentOverviewStore.ts:94-134 | what is published answers a request for exactly the published scope; only the wanted request can change it |
| ShipmentOverview.AnswersMoveForward | client/src/services/shipmentOverviewStore.ts:95-121 | what is shown only moves on to answers of later requests |
| ShipmentOverview.RowsKept | client/src/services/shipmentOverviewStore.ts:110-132 | only a scope switch drops rows |
| ShipmentOverview.IdleExactly | client/src/services/shipmentOverviewStore.ts:136-150 | when `loading` is left with nothing in flight, and that the next demand always recovers |
| ShipmentOverview.StartsExactly | client/src/services/shipmentOverviewStore.ts:92-150 | which steps send a request, for which scope, and that no other does |
| ShipmentOverview.SnapshotIsHistory | client/src/services/shipmentOverviewStore.ts:92-150 | in every run the snapshot is computed from the history: the last answer for the scope, loaded while up to date, the last failure's message, loading while a request is unanswered |
| ShipmentOverview.AwaitedIsPublished | client/src/services/shipmentOverviewStore.ts:97-122 | in every run the awaited answer is shown, loaded, under the scope asked for, and a failure shows its message over what there was |
| ShipmentOverview.SubscribersAreHistory | client/src/services/shipmentOverviewStore.ts:152-160 | the subscriber count is computed from the history |
| ShipmentOverview.ShipmentOverviewStore.OnSetScope | client/src/services/shipmentOverviewStore.ts:125-134 | a scope switch supersedes, clears and reads if subscribed |
| ShipmentOverview.ShipmentOverviewStore.OnEnsureLoaded | client/src/services/shipmentOverviewStore.ts:136-139 | a demand starts a read unless loaded or in flight |
| ShipmentOverview.ShipmentOverviewStore.OnRefresh | client/src/services/shipmentOverviewStore.ts:141-143 | a refresh always starts a read |
| ShipmentOverview.ShipmentOverviewStore.OnInvalidate | client/src/services/shipmentOverviewStore.ts:145-150 | an invalidation supersedes, marks unloaded, and reads if subscribed |
| ShipmentOverview.ShipmentOverviewStore.OnArrived | client/src/services/shipmentOverviewStore.ts:100-109 | an answer is published if current, under the scope it was asked for |
| ShipmentOverview.ShipmentOverviewStore.OnFailed | client/src/services/shipmentOverviewStore.ts:110-118 | a current failure keeps the rows and shows its message |
| ProcurementPending.RunInv | client/src/services/procurementPendingStore.ts:127-281 | the store's invariant holds in every reachable state |
| ProcurementPending.PublishedViewIsAsked | client/src/services/procurementPendingStore.ts:152-246 | what is published answers a request for exactly the published view, and no late answer or failure changes it |
| ProcurementPending.RunningMeansOutstanding | client/src/services/procurementPendingStore.ts:152-208 | queued implies running, and running means exactly one current request is outstanding, waiting exactly while `loading` |
| ProcurementPending.StartsExactly | client/src/services/procurementPendingStore.ts:150-207 | which steps send a request, for which view, and that no other does |
| ProcurementPending.DefersExactly | client/src/services/procurementPendingStore.ts:150-207 | which steps put a request off until the one settling has settled |
| ProcurementPending.SnapshotIsHistory | client/src/services/procurementPendingStore.ts:150-280 | in every run the snapshot is computed from the history: the last answer for the view until it is left, loaded while no failure or invalidation has come since, the last failure's message, loading while a request is unanswered |
| ProcurementPending.AwaitedIsPublished | client/src/services/procurementPendingStore.ts:161-192 | in every run the awaited answer is shown, loaded, under the view asked for, and a failure shows its message over the rows there were |
| ProcurementPending.FlagsAreHistory | client/src/services/procurementPendingStore.ts:255-267 | the subscriber count and the pending refetch are computed from the history |
| ProcurementPending.WedgesExactly | client/src/services/procurementPendingStore.ts:255-267 | a step wedges the store exactly when the refetch fires unheard with `loading` left set |
| ProcurementPending.NeverWedgedExactly | client/src/services/procurementPendingStore.ts:255-267 | a run is never wedged if and only if none of its refetches fires unheard with `loading` left set |
| ProcurementPending.NeverWedgedWhenHeard | client/src/services/procurementPendingStore.ts:255-267 | with a subscriber at every refetch, `loading` always means an outstanding request or pending refetch |
| ProcurementPending.WedgedIsStuck | client/src/services/procurementPendingStore.ts:226-279 | a wedged store ignores every demand for its view, and what frees it |
| ProcurementPending.WedgeHappens | client/src/services/procurementPendingStore.ts:226-267 | a run that wedges it |
| ProcurementPending.RowsKept | client/src/services/procurementPendingStore.ts:177-193 | only another view or a reset drops rows |
| ProcurementPending.ProcurementPendingStore.OnEnsureLoaded | client/src/services/procurementPendingStore.ts:226-246 | the demand step, same view or new |
| ProcurementPending.ProcurementPendingStore.OnRefresh | client/src/services/procurementPendingStore.ts:248-253 | the refresh step |
| ProcurementPending.ProcurementPendingStore.OnInvalidate | client/src/services/procurementPendingStore.ts:255-260 | the invalidation step with its coalescing |
| ProcurementPending.ProcurementPendingStore.OnTask | client/src/services/procurementPendingStore.ts:261-266 | the deferred refetch step |
| ProcurementPending.ProcurementPendingStore.OnReset | client/src/services/procurementPendingStore.ts:269-279 | the reset step |
| ProcurementPending.ProcurementPendingStore.OnArrived | client/src/services/procurementPendingStore.ts:164-176 | the answer step |
| ProcurementPending.ProcurementPendingStore.OnFailed | client/src/services/procurementPendingStore.ts:177-193 | the failure step |
| ProcurementPending.ProcurementPendingStore.OnFinally | client/src/services/procurementPendingStore.ts:194-201 | the settling step, which runs a queued start |
| BranchStock.RunInv | client/src/services/branchStockStore.ts:82-228 | the store's invariant holds in every reachable state |
| BranchStock.CoverageNeverShrinks | client/src/services/branchStockStore.ts:129-151 | between resets the published branches never become fewer |
| BranchStock.HeldRowsAreAnswers | client/src/services/branchStockStore.ts:110-161 | rows on file answer a read of their branch, and loaded with nothing running means every requested branch has one and none is marked for re-reading |
| BranchStock.HeldIsLastDelivery | client/src/services/branchStockStore.ts:122-127 | in every run the rows on file for a branch are the last delivered since the last reset, by whichever batch |
| BranchStock.SendsExactly | client/src/services/branchStockStore.ts:108-121 | which steps send a batch, that it reads exactly the requested branches with nothing fresh on file, and which steps put one off |
| BranchStock.SnapshotIsHistory | client/src/services/branchStockStore.ts:108-228 | in every run the snapshot is computed from the history: what was on file when a batch was last published, loaded while up to date, the message of its failure until a retry or reset, loading while a batch is unanswered |
| BranchStock.FlagsAreHistory | client/src/services/branchStockStore.ts:174-214 | the subscriber count and the pending refetch are computed from the history |
| BranchStock.LateAnswersAreStored | client/src/services/branchStockStore.ts:122-130 | in every run a step takes a branch back to an older batch's rows if and only if it is an answer of a batch older than the last that delivered |
| BranchStock.PublishesOwnAnswers | client/src/services/branchStockStore.ts:122-151 | in every run a settling batch publishes for a branch the last delivery before it settles: its own answer exactly when that delivery is its own, or of the same rows |
| BranchStock.SilencesExactly | client/src/services/branchStockStore.ts:110-194 | the three kinds of step that leave the store with nothing loaded, running or missing, and no others |
| BranchStock.NeverSilentExactly | client/src/services/branchStockStore.ts:110-228 | a run is never in that state if and only if none of its steps is of those kinds |
| BranchStock.TidyRuns | client/src/services/branchStockStore.ts:95-161 | without late superseded answers no step is, so the store is never silently stuck |
| BranchStock.SilentIsStuck | client/src/services/branchStockStore.ts:110-228 | a silent store ignores demands for branches on file, refetches and late answers; what frees it is exactly a retry, an invalidation, a reset or a demand for an unread branch |
| BranchStock.SilenceHappens | client/src/services/branchStockStore.ts:122-214 | a run in which a late answer swallows an invalidation |
| BranchStock.SessionsApartExactly | client/src/services/branchStockStore.ts:216-228 | a run never holds rows an earlier session's batch brought if and only if no step of it answers a batch numbered up to the last reset |
| BranchStock.PublishesEarlierSession | client/src/services/branchStockStore.ts:118-149 | in every run a settling batch publishes an earlier session's rows exactly for the branches whose last delivery answered a batch from before the reset |
| BranchStock.ResetLeaks | client/src/services/branchStockStore.ts:216-228 | a run from the start in which the next session asks for one branch and is shown, as loaded, another branch's rows of the session before |
| BranchStock.ResetThenSilent | client/src/services/branchStockStore.ts:216-228 | a run in which the earlier session's rows pass for the new session's read: a demand for the branch reads nothing and shows nothing |
| BranchStock.LateAnswerIsPublished | client/src/services/branchStockStore.ts:122-151 | a run in which a retry's fresh rows are replaced by the superseded read's and those are published as loaded, with nothing left to re-read |
| BranchStock.BranchStockStore.Register | client/src/services/branchStockStore.ts:186-192 | the loop requests every real id and reports whether any needs a read |
| BranchStock.BranchStockStore.OnEnsureLoaded | client/src/services/branchStockStore.ts:186-195 | the demand step |
| BranchStock.BranchStockStore.OnRefresh | client/src/services/branchStockStore.ts:197-201 | the refresh step |
| BranchStock.BranchStockStore.OnInvalidate | client/src/services/branchStockStore.ts:203-207 | the invalidation step with its coalescing |
| BranchStock.BranchStockStore.OnTask | client/src/services/branchStockStore.ts:208-213 | the deferred refetch step |
| BranchStock.BranchStockStore.OnReset | client/src/services/branchStockStore.ts:216-228 | the reset step |
| BranchStock.BranchStockStore.OnBranchOk | client/src/services/branchStockStore.ts:123-127 | one branch's answer is stored, unguarded |
| BranchStock.BranchStockStore.OnSettled | client/src/services/branchStockStore.ts:129-151 | a current batch publishes what is held and its first failure |
| BranchStock.BranchStockStore.OnFinally | client/src/services/branchStockStore.ts:152-160 | the settling step, which runs a queued start |
| FifoSettlement.SharesConserve | scripts/seed/verificationDataset.ts:720-799 | shares add up to the receipts, or to all that is owed if less, each between 0 and its total |
| FifoSettlement.EarlierFirst | scripts/seed/verificationDataset.ts:736-739 | an earlier invoice is fully paid before a later one receives anything |
| FifoSettlement.SettledPrefix | scripts/seed/verificationDataset.ts:725-740 | a settled prefix, at most one partly paid invoice, then untouched ones |
| FifoSettlement.MoreMoneyNeverHurts | scripts/seed/verificationDataset.ts:727-740 | more money never takes payment away, and no share grows by more than the extra money |
| FifoSettlement.ProgressCursor | scripts/seed/verificationDataset.ts:725-740 | the cursor is past the end exactly when the invoices are exhausted, else on the first open invoice |
| FifoSettlement.ProgressStep | scripts/seed/verificationDataset.ts:731-739 | one round of the inner loop keeps the settled prefix, the one open invoice and the money handed out in step |
| FifoSettlement.Apply | scripts/seed/verificationDataset.ts:728-740 | the inner loop terminates and advances the settlement by the whole receipt or past every invoice |
| FifoSettlement.PourAll | scripts/seed/verificationDataset.ts:727-759 | over all receipts each invoice ends with its share, each payment naming its first open invoice |
| FifoSettlement.MarkStatuses | scripts/seed/verificationDataset.ts:801-803 | every status is the one its paid amount calls for |
| FifoSettlement.Settle | scripts/seed/verificationDataset.ts:720-803 | the whole run: shares, payments, and statuses (paid when nothing is owed, unpaid when nothing was paid, partial between), throwing exactly when a receipt finds every invoice passed |
| FifoSettlement.ExhaustedStays | scripts/seed/verificationDataset.ts:730-740 | once everything is paid further receipts change no share |
| Ledger.GeneralLedger.Post | scripts/seed/verificationDataset.ts:841-899 | a posting appends its lines and subledger entries under the next numbers |
| Ledger.GeneralLedger.PostPurchases | scripts/seed/verificationDataset.ts:917-929 | one posting per bill of the branch, in order |
| Ledger.GeneralLedger.PostSales | scripts/seed/verificationDataset.ts:931-959 | a revenue posting per invoice, and a cost posting where goods were issued |
| Ledger.GeneralLedger.PostReceipts | scripts/seed/verificationDataset.ts:961-973 | one posting per receipt of the branch |
| Ledger.GeneralLedger.PostVendorPayments | scripts/seed/verificationDataset.ts:975-987 | one posting per vendor payment of the branch |
| Ledger.GeneralLedger.PostExpenses | scripts/seed/verificationDataset.ts:989-1001 | one posting per expense |
| Ledger.GeneralLedger.PostBranch | scripts/seed/verificationDataset.ts:901-1002 | one branch's books in the seeder's order |
| Ledger.GeneralLedger.PostBooks | scripts/seed/verificationDataset.ts:901-1002 | all branches' books in order |
| LedgerTheory.LedgerCarriesPostings | scripts/seed/verificationDataset.ts:868-898 | the lines carry exactly the postings' amounts per branch and account |
| LedgerTheory.SubledgerCarriesControls | scripts/seed/verificationDataset.ts:881-897 | a control account's balance is its subledger's |
| LedgerTheory.EveryBranchBalances | scripts/seed/verificationDataset.ts:1092-1100 | every journal balances and every branch's lines sum to zero |
| LedgerTheory.ControlAccounts | scripts/seed/verificationDataset.ts:901-1002 | receivable, payable and inventory equal billed less settled and bought less issued |
| LedgerTheory.EveryAccount | scripts/seed/verificationDataset.ts:901-1002 | every account of every branch holds what the books say: bank, revenue of each kind, cost of goods, each expense code, the opening accounts and the control accounts; no other branch has any |
| LedgerTheory.EveryParty | scripts/seed/verificationDataset.ts:881-987 | each customer's subledger is billed less received, each supplier's bought less paid, and no other account has one |
| LedgerTheory.LinesNumbered | scripts/seed/verificationDataset.ts:868-878 | lines are numbered without gaps, each in a journal of its branch |
| LedgerTheory.SubsPointAtLines | scripts/seed/verificationDataset.ts:879-897 | subledger entries are numbered without gaps and each points at a line of the same account, branch and amounts |
| LedgerTheory.InventoryIsStockAtCost | scripts/seed/verificationDataset.ts:448-455 | with bills at unit cost, inventory is the unit cost of units bought less units issued |
| LedgerTheory.ControlsEqualUnpaid | scripts/seed/verificationDataset.ts:720-803 | each control account equals what the FIFO loops left unpaid, exactly when the money does not exceed the invoices |
| SettledBooks.RecordedAmounts | scripts/seed/verificationDataset.ts:741-758 | the books hold exactly the amounts the settlement recorded |
| SettledBooks.OwedIsUnpaid | scripts/seed/verificationDataset.ts:727-740 | grand totals less amounts paid, summed over the invoices, is what the shares leave |
| SettledBooks.SettleBoth | scripts/seed/verificationDataset.ts:720-799 | receivables and payables are settled in turn, throwing exactly when some payment finds everything passed |
| SettledBooks.RecordingAdds | scripts/seed/verificationDataset.ts:741-799 | recording a branch's payments adds exactly their amounts to it and nothing to any other branch |
| SettledBooks.SettleAll | scripts/seed/verificationDataset.ts:720-803 | the loop over the branches leaves every invoice with its share and the books with every branch's amounts, or stops exactly when some branch throws |
| SettledBooks.SettleAndPost | scripts/seed/verificationDataset.ts:720-1002 | every branch is settled, then all books are posted: it throws exactly when some branch's payment finds everything passed, and otherwise each branch's control balances equal grand totals less amounts paid, each exactly when the money does not exceed them |
| LedgerTheory.BooksSound | scripts/seed/verificationDataset.ts:901-1002 | every journal balances, each line is a debit or a credit, and every control-account line names a party |
| LedgerTheory.BranchDeltas | scripts/seed/verificationDataset.ts:1093-1097 | the check's one pass computes every branch's balance |
| Gregorian.DayOrder | shared/warrantyTerm.ts:74-76 | day numbers order real dates as the calendar does |
| Gregorian.CivilRoundTrip | shared/warrantyTerm.ts:24-29 | reading a day number back gives the date it was made from |
| AdDates.ParseOfFormat | shared/billTerms.ts:37-40 | formatting then parsing a date gives it back |
| AdDates.FormatOfParse | shared/billTerms.ts:13-19 | parsing then formatting a date text gives it back |
| AdDates.SmallYearsRollOver | shared/billTerms.ts:21-26 | years 0 to 99 never survive the rollover check |
| AdDates.IsAdDateExact | shared/warrantyTerm.ts:21-30 | the validator accepts exactly the real dates from year 100 on |
| AdDates.ValidatorsAgree | shared/billTerms.ts:13-27 | the two validators differ by the trim only |
| AdDates.TextOrder | shared/warrantyTerm.ts:74-76 | string order of date texts is calendar order |
| BillTerms.AddDaysADAccepts | shared/billTerms.ts:33-46 | a due date is given exactly for an accepted date and a day count strictly between -1 and 3651 |
| BillTerms.AddDaysExact | shared/billTerms.ts:33-41 | day addition is exact up to 9999-12-31 and no date text beyond it |
| BillTerms.AddDaysCompose | shared/billTerms.ts:33-41 | adding a then b equals adding a + b exactly when the first step stays in range |
| WarrantyTerm.LastDayIsMonthLength | shared/warrantyTerm.ts:50 | day 0 of the next month is the month's length |
| WarrantyTerm.AddMonthsSpec | shared/warrantyTerm.ts:46-52 | the arithmetic lands on the clamped date n months on, and on no other |
| WarrantyTerm.AddMonthsMonotone | shared/warrantyTerm.ts:42-53 | never before the start, monotone in date and months |
| WarrantyTerm.AddMonthsCompose | shared/warrantyTerm.ts:42-53 | two steps are never later than one; when exactly they are equal; always up to the 28th |
| WarrantyTerm.AddCalendarMonthsText | shared/warrantyTerm.ts:42-53 | null exactly for a bad date or term; a date text, on or after the start, exactly up to year 9999 |
| WarrantyTerm.ResolutionSound | shared/warrantyTerm.ts:99-141 | when a unit is covered, when an error is given, and that a stored expiry is a valid range except past year 9999 |
| WarrantyTerm.ResolutionStores | shared/warrantyTerm.ts:99-141 | what is stored: the typed expiry as typed, else the clamped date `term` months on; the term exactly when positive and without error; and which error is given when |
| WarrantyTerm.SpacesAreIgnored | shared/warrantyTerm.ts:109 | spaces around a typed expiry change nothing |
| WarrantyTerm.TermIsWhole | shared/warrantyTerm.ts:107 | the term is the count given, its fraction dropped |
| WarrantyTerm.ValidAfterThirty | shared/warrantyTerm.ts:152-156 | valid is later than the day thirty days from today, in string order |
| WarrantyTerm.DaysRemainingInvertsAddDays | shared/warrantyTerm.ts:144-149 | from a date to the date n days later there are n days left, exactly while it has a text |
| WarrantyTerm.DaysRemainingSign | shared/warrantyTerm.ts:144-149 | the sign of the days left is the string order of the dates |
| WarrantyTerm.StatesOnlyAge | shared/warrantyTerm.ts:152-156 | as days pass the state only ages, expired exactly when the end is before today |
| Depreciation.ValuesAddUp | shared/depreciation.ts:52-99 | accumulated plus net book value is the cost with neither negative, exactly when there is a basis or the stored figures already add up |
| Depreciation.MonthsMono | shared/depreciation.ts:30-37 | a later date never has fewer elapsed months |
| Depreciation.MonthsElapsedExact | shared/depreciation.ts:30-37 | the months elapsed are the greatest number for which the acquisition's day has come, and none before it |
| Depreciation.MonthsToTheDate | shared/depreciation.ts:30-37 | to the warranty date `n` months on, `n` months have elapsed, or one fewer when the day was clamped away |
| Depreciation.MonthsAgreeExactly | shared/depreciation.ts:30-37 | asset months and warranty months agree on what is over if and only if the date is not the last of its month and short of the day |
| Depreciation.AfterMonths | shared/depreciation.ts:67-91 | exactly `n` months after acquisition: cost times rate times `n` over 1200, capped at cost, or cost times one less the `n`-th power of the factor |
| Depreciation.AfterYears | shared/depreciation.ts:67-91 | after `y` whole years the reducing balance is cost times (1 - rate/100) to the `y` |
| Depreciation.MissingFigures | shared/depreciation.ts:39-60 | without a basis the stored figures stand, without a reporting date nothing has accrued, without an acquisition date it is 1 January 1970 |
| Depreciation.AccumulatedMonotone | shared/depreciation.ts:39-100 | a later reporting date never shows less accumulated depreciation, for every straight-line rate and every reducing rate up to 100 |
| Depreciation.StraightLine | shared/depreciation.ts:85-91 | for every rate the accumulated figure is the annual charge per twelve months, capped at cost |
| Depreciation.ReducingValues | shared/depreciation.ts:67-91 | neither floor nor cap ever changes a reducing-balance figure |
| Depreciation.ChargesTelescope | shared/depreciation.ts:62-84 | charges reported every twelve months sum to the accumulated figure, each 1 - rate/100 of the one before |
| PercentEncoding.Utf8RoundTrip | client/src/routes/appPaths.ts:209 | a UTF-8 sequence decodes to its character and its first byte announces its length |
| PercentEncoding.RoundTrip | client/src/routes/appPaths.ts:209-235 | decoding an encoded text gives the text, for every text |
| PercentEncoding.EncodeSafe | client/src/routes/appPaths.ts:209 | an encoded text holds only unreserved characters and percent signs, and is empty only for the empty text |
| PercentEncoding.EncodeInjective | client/src/routes/appPaths.ts:209 | distinct identifiers have distinct encodings |
| AppPathTable.PathsAreCanonical | client/src/routes/appPaths.ts:38-132 | every path is lower-case, opens with a slash, and does not end with one or as an edit route |
| AppPathTable.EachScreenOwnsItsPath | client/src/routes/appPaths.ts:263-267 | no two live screens share a path, so each is found under its own |
| AppPaths.RecordFromPath | client/src/routes/appPaths.ts:218-252 | the loop over the screen table computes the specified parse |
| AppPaths.BaseIsRegister | client/src/routes/appPaths.ts:175-190 | every record base is its tab's own path |
| AppPaths.ParsedByItsScreen | client/src/routes/appPaths.ts:224-227 | the order in which screens are tried does not matter |
| AppPaths.ParsedIsSupported | client/src/routes/appPaths.ts:236-249 | whatever is parsed is a route its screen supports, with a usable identifier |
| AppRoutes.ScreenRoundTrip | client/src/routes/appPaths.ts:259-274 | case and trailing slashes aside, a tab's path names its live screen |
| AppRoutes.RecordParses | client/src/routes/appPaths.ts:204-252 | a supported record with a usable identifier is parsed back from its path |
| AppRoutes.RecordRoundTrip | client/src/routes/appPaths.ts:313-328 | printing and resolving gives tab and record back if and only if the identifier is not empty and a detail one neither `new` nor a screen's own path |
| AppRoutes.WhoDecides | client/src/routes/appPaths.ts:313-345 | which of path, `tab` parameter, Users filter, saved tab and default decides the screen, and exactly when the address does |
| AppRoutes.FirstValueIs | client/src/routes/appPaths.ts:281-284 | a parameter reads as its first occurrence |
| AppLocations.CanonicalLocationUrl | client/src/routes/appPaths.ts:356-373 | the edits of the URL object add up to the canonical address |
| AppLocations.CanonicalParamsFirst | client/src/routes/appPaths.ts:367-371 | a parameter the screen keeps reads as before, and any other is gone |
| AppLocations.CanonicalTwice | client/src/routes/appPaths.ts:356-373 | canonicalising twice equals once |
| AppLocations.CanonicalAfterAnother | client/src/routes/appPaths.ts:367-371 | passing through another screen changes nothing exactly unless it drops filters Users would have kept |
| AppLocations.UndottedPathIsKept | client/src/routes/appPaths.ts:363-366 | assigning a path without dot segments stores it unchanged |
| AppLocations.StoredPathHasNoDotId | client/src/routes/appPaths.ts:363-372 | no stored path resolves to a record named by a dot segment |
| AppLocations.RecordReloads | client/src/routes/appPaths.ts:313-373 | reloading a record's canonical address shows it if and only if its identifier is addressable and no dot segment |
| AppLocations.ScreenReloads | client/src/routes/appPaths.ts:313-373 | reloading a screen's canonical address shows it with no record open |
| AppLocations.UnsupportedFallsBack | client/src/routes/appPaths.ts:204-207 | a record the screen cannot render is printed as the screen's path and opens it with no record |
| AppLocations.LoadThenReload | client/src/routes/appPaths.ts:313-373 | loading any address, rewriting it and loading again shows the same, exactly under the same condition |
| AppLocations.ScreenSegmentSwitches | client/src/routes/appPaths.ts:270-274 | a record that spells a screen's path opens that screen once canonicalised |
| AppLocations.EscapedAssignOpensRecord | client/src/routes/appPaths.ts:229-248 | an escaped spelling of the `assign` segment opens such a record |
| AppLocations.AssignHasAScreen | client/src/routes/appPaths.ts:64 | and its path is the asset-assignment screen's |
| StockIndex.IndexFirstBy | client/src/utils/stockIndex.ts:43-50 | the index answers every key as the first-match scan does |
| StockIndex.GroupBy | client/src/utils/stockIndex.ts:56-65 | the groups are exactly the non-empty filters, in row order |
| StockIndex.BucketOpensWithFirst | client/src/utils/stockIndex.ts:43-65 | a group opens with the row the index holds |
| StockIndex.CleanKeySplits | client/src/utils/stockIndex.ts:31-37 | a key made of ids without the separator has one split only |
| StockIndex.IndexIsScan | client/src/utils/stockIndex.ts:73-84 | indexed lookup equals the scan by pair for every pair if and only if no id in the rows holds the separator |
| StockIndex.ProductDeficit | client/src/App.tsx:2128-2145 | the branch loop sums what the branches lack |
| StockIndex.ActiveIs | client/src/App.tsx:2117-2120 | the pass runs over exactly the selected branch, or over all |
| StockIndex.GroupLowStock | client/src/App.tsx:2116-2160 | the indexed pass computes the specified order |
| StockIndex.IndexedPassIsNaive | client/src/App.tsx:2123-2150 | for ids without the separator it equals the pass that scans the rows for every pair |
| StockIndex.DeficitCovers | client/src/App.tsx:2131-2144 | a deficit is positive exactly for a short branch and brings it to its level |
| StockIndex.TotalCovers | client/src/App.tsx:2134-2147 | a product is ordered exactly when some active branch is short of it |
| StockIndex.LineCovers | client/src/App.tsx:2151-2159 | a line orders its product at cost price, at least one piece, no less than any branch lacks, and exactly the total when that is a piece or more |
| StockIndex.OrderIsWhatIsShort | client/src/App.tsx:2127-2160 | with distinct product ids there is one line per short product, in product order |

## Left out

- Rendering, hooks, contexts, browser storage, network transport, SQL and the server: foreign calls and plumbing; every answer, failure and clock reading is an event or a parameter.
- Each unsubscription follows its own subscription, as the returned closure is called once; a second call would let the source's count fall below zero.
- Notification of subscribers is taken to have no effect on a store, so listener re-entrancy is not modelled; a fetcher that throws before returning a promise is not either.
- client/src/services/serialRegisterStore.ts is the shipment protocol without scopes and would add only an easier copy.
- Calendar: month and weekday names, fiscal quarter labels, provenance flags, the console warning, seed text formats, negative or fractional month lengths, and days outside whole UTC days; the client mixes UTC parsing with local `setDate`, taken as one fixed offset.
- The bounds reported for an empty store: the bundled calendar is not empty, so that branch is unreachable.
- Exchange scopes are a branch and a search kept apart, and a query is named by the scope it makes, so collisions of the composed scope text are not modelled; neither are the publish counter and its listeners.
- Branch stock keeps the published rows per branch; the flattened order of the rows is not modelled.
- Hydration tracks versions, errors and views (a view switch and the refresh its effect starts are one step), not the data a payload paints; requests that refresh the other self-fetching registers belong to their own stores.
- Ledger journals carry branch, account, side, amount and party; journal texts, dates, memos, periods and account names are not modelled, and amounts are whole rupees, as the dataset's are, rather than floating point.
- Depreciation over the reals, for rates up to 100 in the reducing-balance results; a higher rate makes the original power undefined. Rounding is not modelled.
- Paths: the text form of a URL (scheme, host, query and fragment encoding) is kept parsed, and `Lower` agrees with `toLowerCase` only in comparisons with lower-case ASCII text, which are the only ones made. Lone surrogates, on which encoding throws, do not occur in well-formed text.
- StockIndex reads quantities as numbers already; conversion of numeric text is not modelled.
- Money formatting, exports, permissions, notification wording, line-quantity clamps, address normalisation and audit merges: each is settled by one branch.
