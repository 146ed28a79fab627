/** Warranty terms (shared/warrantyTerm.ts): calendar months, coverage resolution and days remaining. */
module WarrantyTerm {
  import opened Collections
  import opened Gregorian
  import opened AdDates
  import BillTerms

  const MAX_WARRANTY_MONTHS := 120
  const EXPIRING_SOON_DAYS := 30

  // ------------------------------------------------------------ calendar months

  /** Months since year 0, counting from January. */
  function MonthIndex(c: Civil): int { 12 * c.year + c.month - 1 }

  function TargetYear(c: Civil, n: int): int { c.year + (c.month - 1 + n) / 12 }

  function TargetMonth(c: Civil, n: int): (m: int)
    ensures 1 <= m <= 12
  {
    (c.month - 1 + n) % 12 + 1
  }

  /** `new Date(Date.UTC(year, month, 0)).getUTCDate()`, the last day of the 1-based month. */
  ghost function LastDayOfMonth(year: int, month: int): int
    requires 1 <= month <= 12
  {
    CivilOf(DateUTC(year, month + 1, 0)).day
  }

  lemma LastDayIsMonthLength(year: int, month: int)
    requires year >= 100 && 1 <= month <= 12
    ensures LastDayOfMonth(year, month) == MonthDays(year, month)
  {
    var last := Civil(year, month, MonthDays(year, month));
    YearStep(year);
    YearIsTwelveMonths(year);
    assert DateUTC(year, month + 1, 0) == DayOf(last);
    CivilRoundTrip(last);
  }

  ghost function AddMonths(c: Civil, n: int): Civil {
    var y, m := TargetYear(c, n), TargetMonth(c, n);
    Civil(y, m, Min(c.day, LastDayOfMonth(y, m)))
  }

  /** `r` is `c` moved on by `n` months, its day clamped to the length of the month reached. */
  ghost predicate Moved(c: Civil, n: int, r: Civil) {
    Real(r) && MonthIndex(r) == MonthIndex(c) + n && r.day == Min(c.day, MonthDays(r.year, r.month))
  }

  /** The month arithmetic lands on the clamped date `n` months on, and on no other. */
  lemma AddMonthsSpec(c: Civil, n: nat, r: Civil)
    requires Real(c) && c.year >= 100
    ensures Moved(c, n, AddMonths(c, n)) && AddMonths(c, n).year >= c.year
    ensures Moved(c, n, r) <==> r == AddMonths(c, n)
  {
    LastDayIsMonthLength(TargetYear(c, n), TargetMonth(c, n));
    if Real(r) && MonthIndex(r) == MonthIndex(c) + n { SameIndexSameMonth(r, AddMonths(c, n)); }
  }

  lemma OrderByMonth(a: Civil, b: Civil)
    requires Real(a) && Real(b)
    ensures DayOf(a) <= DayOf(b) <==> MonthIndex(a) < MonthIndex(b) || (MonthIndex(a) == MonthIndex(b) && a.day <= b.day)
  {
    DayOrder(a, b);
    DayOrder(b, a);
  }

  lemma SameIndexSameMonth(a: Civil, b: Civil)
    requires Real(a) && Real(b) && MonthIndex(a) == MonthIndex(b)
    ensures a.year == b.year && a.month == b.month
  {
  }

  lemma MovedMonotone(a: Civil, b: Civil, m: nat, n: nat, x: Civil, y: Civil)
    requires Real(a) && Real(b) && DayOf(a) <= DayOf(b) && m <= n && Moved(a, m, x) && Moved(b, n, y)
    ensures DayOf(a) <= DayOf(x) <= DayOf(y)
  {
    OrderByMonth(a, b);
    OrderByMonth(a, x);
    OrderByMonth(x, y);
    if MonthIndex(a) == MonthIndex(x) { SameIndexSameMonth(a, x); }
    if MonthIndex(x) == MonthIndex(y) { SameIndexSameMonth(x, y); }
  }

  /** Month addition never goes back and is monotone in the date and in the number of months. */
  lemma AddMonthsMonotone(a: Civil, b: Civil, m: nat, n: nat)
    requires Real(a) && Real(b) && a.year >= 100 && b.year >= 100
    requires DayOf(a) <= DayOf(b) && m <= n
    ensures Real(AddMonths(a, m)) && Real(AddMonths(b, n))
    ensures DayOf(a) <= DayOf(AddMonths(a, m)) <= DayOf(AddMonths(b, n))
  {
    AddMonthsSpec(a, m, a);
    AddMonthsSpec(b, n, b);
    MovedMonotone(a, b, m, n, AddMonths(a, m), AddMonths(b, n));
  }

  lemma AddMonthsMoved(c: Civil, n: nat)
    requires Real(c) && c.year >= 100
    ensures Moved(c, n, AddMonths(c, n)) && AddMonths(c, n).year >= 100
  {
    AddMonthsSpec(c, n, c);
  }

  lemma MovedCompose(c: Civil, a: nat, b: nat, mid: Civil, two: Civil, one: Civil)
    requires Real(c) && Moved(c, a, mid) && Moved(mid, b, two) && Moved(c, a + b, one)
    ensures DayOf(two) <= DayOf(one)
    ensures two == one <==> one.day <= MonthDays(mid.year, mid.month)
    ensures c.day <= 28 ==> two == one
  {
    SameIndexSameMonth(two, one);
    OrderByMonth(two, one);
  }

  /** Two steps are never later than one, and equal it exactly when the first step's clamp still leaves
      the day the whole step would give; a start on the 28th or earlier always does. */
  lemma AddMonthsCompose(c: Civil, a: nat, b: nat)
    requires Real(c) && c.year >= 100
    ensures var mid, two, one := AddMonths(c, a), AddMonths(AddMonths(c, a), b), AddMonths(c, a + b);
            && Real(mid) && Real(two) && Real(one)
            && DayOf(two) <= DayOf(one)
            && (two == one <==> one.day <= MonthDays(mid.year, mid.month))
            && (c.day <= 28 ==> two == one)
  {
    var mid, one := AddMonths(c, a), AddMonths(c, a + b);
    AddMonthsMoved(c, a);
    AddMonthsMoved(mid, b);
    AddMonthsMoved(c, a + b);
    MovedCompose(c, a, b, mid, AddMonths(mid, b), one);
  }

  /** `String(year).padStart(4, '0')` for the years a term can reach. */
  function PadYear(y: int): string
    requires 0 <= y < 100000
  {
    if y <= 9999 then Four(y) else [DigitChar(y / 10000)] + Four(y % 10000)
  }

  function FormatLong(c: Civil): string
    requires 0 <= c.year < 100000 && 0 <= c.month < 100 && 0 <= c.day < 100
  {
    PadYear(c.year) + "-" + Two(c.month) + "-" + Two(c.day)
  }

  ghost function AddCalendarMonths(dateAD: string, months: int): Option<string> {
    if !IsAdDate(dateAD) || months < 0 || months > MAX_WARRANTY_MONTHS then None
    else
      IsAdDateExact(dateAD);
      AddMonthsSpec(Parse(dateAD), months, Parse(dateAD));
      Some(FormatLong(AddMonths(Parse(dateAD), months)))
  }

  /** On texts: an accepted term gives a date text exactly when it ends within year 9999, and then the
      clamped month addition, never before the start in string order. */
  lemma AddCalendarMonthsText(t: string, n: int)
    ensures AddCalendarMonths(t, n).Some? <==> IsAdDate(t) && 0 <= n <= MAX_WARRANTY_MONTHS
    ensures AddCalendarMonths(t, n).Some? ==>
              var r := AddCalendarMonths(t, n).value;
              && (IsAdDate(r) <==> TargetYear(Parse(t), n) <= 9999)
              && (IsAdDate(r) ==> Parse(r) == AddMonths(Parse(t), n) && !TextLess(r, t))
  {
    if AddCalendarMonths(t, n).Some? {
      IsAdDateExact(t);
      var c := Parse(t);
      AddMonthsSpec(c, n, c);
      var d, r := AddMonths(c, n), AddCalendarMonths(t, n).value;
      if d.year <= 9999 {
        assert r == Format(d);
        ParseOfFormat(d);
        IsAdDateExact(r);
        AddMonthsMonotone(c, c, n, n);
        TextOrder(r, t);
      } else {
        assert |r| == 11;
      }
    }
  }

  // --------------------------------------------------------- coverage resolution

  ghost predicate IsValidWarrantyRange(startAD: string, endAD: string) {
    IsAdDate(startAD) && IsAdDate(endAD) && !TextLess(endAD, startAD)
  }

  datatype CoverageError = NotOnOrAfterStart | Required | NeedsValidStart

  datatype CoverageResolution =
    CoverageResolution(covered: bool, endDateAD: Option<string>, termMonths: Option<int>, error: Option<CoverageError>)

  /** `covered` is `None` when it is not a boolean, `endDateAD` when it is not a string, `term` when not finite. */
  datatype CoverageArgs = CoverageArgs(covered: Option<bool>, endDateAD: Option<string>, start: string, term: Option<real>)

  function TermOf(a: CoverageArgs): int { if a.term.Some? then Trunc(a.term.value) else 0 }

  function TypedEnd(a: CoverageArgs): string { if a.endDateAD.Some? then Trim(a.endDateAD.value) else "" }

  ghost function ResolveWarrantyCoverage(a: CoverageArgs): CoverageResolution {
    var term, typed := TermOf(a), TypedEnd(a);
    var kept := if term > 0 then Some(term) else None;
    if a.covered == Some(false) then CoverageResolution(false, None, kept, None)
    else if typed != "" then
      if !IsValidWarrantyRange(a.start, typed) then CoverageResolution(true, None, None, Some(NotOnOrAfterStart))
      else CoverageResolution(true, Some(typed), kept, None)
    else if a.covered == Some(true) then CoverageResolution(true, None, None, Some(Required))
    else if term <= 0 then CoverageResolution(false, None, None, None)
    else
      var derived := AddCalendarMonths(a.start, term);
      if derived.None? then CoverageResolution(true, None, None, Some(NeedsValidStart))
      else CoverageResolution(true, derived, Some(term), None)
  }

  /** A derived expiry is a valid range exactly up to year 9999. */
  lemma DerivedRange(start: string, term: int)
    ensures AddCalendarMonths(start, term).Some? ==>
              && IsAdDate(start)
              && (IsValidWarrantyRange(start, AddCalendarMonths(start, term).value) <==> TargetYear(Parse(start), term) <= 9999)
  {
    AddCalendarMonthsText(start, term);
  }

  /** A covered, error-free resolution stores an expiry that is a real date on or after the start,
      except exactly when it derived the expiry from a term that runs past year 9999; a resolution
      without cover stores no expiry and no error, and cover is off only when it was turned off or
      there is neither a typed date nor a term. */
  lemma ResolutionSound(a: CoverageArgs)
    ensures var r := ResolveWarrantyCoverage(a);
            && (r.covered <==> a.covered != Some(false) && (TypedEnd(a) != "" || a.covered == Some(true) || TermOf(a) > 0))
            && (!r.covered ==> r.endDateAD.None? && r.error.None?)
            && (r.covered ==> (r.error.None? <==> r.endDateAD.Some?))
            && (r.covered && r.error.None? ==>
                  && IsAdDate(a.start)
                  && (IsValidWarrantyRange(a.start, r.endDateAD.value) <==>
                        TypedEnd(a) != "" || TargetYear(Parse(a.start), TermOf(a)) <= 9999))
  {
    DerivedRange(a.start, TermOf(a));
  }

  /** The date `term` months after a start, as it is stored: the start moved on, its day clamped, up to year 9999. */
  ghost predicate IsTermEnd(start: string, term: int, end: string) {
    && IsAdDate(start) && TargetYear(Parse(start), term) >= 100
    && (TargetYear(Parse(start), term) <= 9999 ==> IsAdDate(end) && Moved(Parse(start), term, Parse(end)))
  }

  lemma TermEnd(start: string, term: int)
    ensures AddCalendarMonths(start, term).Some? ==> IsTermEnd(start, term, AddCalendarMonths(start, term).value)
  {
    if AddCalendarMonths(start, term).Some? {
      AddCalendarMonthsText(start, term);
      IsAdDateExact(start);
      AddMonthsMoved(Parse(start), term);
    }
  }

  /** What is stored: a typed expiry as typed, or else the end of the term; the term, if there is one and no error. And
      which error is given when. */
  lemma ResolutionStores(a: CoverageArgs)
    ensures var r, typed, term := ResolveWarrantyCoverage(a), TypedEnd(a), TermOf(a);
            && (r.endDateAD.Some? && typed != "" ==> r.endDateAD == Some(typed))
            && (r.endDateAD.Some? && typed == "" ==> IsTermEnd(a.start, term, r.endDateAD.value))
            && r.termMonths == if term > 0 && r.error.None? then Some(term) else None
    ensures var r, typed, term := ResolveWarrantyCoverage(a), TypedEnd(a), TermOf(a);
            && (r.error == Some(NotOnOrAfterStart) <==> a.covered != Some(false) && typed != "" && !IsValidWarrantyRange(a.start, typed))
            && (r.error == Some(Required) <==> a.covered == Some(true) && typed == "")
            && (r.error == Some(NeedsValidStart) <==>
                  a.covered.None? && typed == "" && term > 0 && (!IsAdDate(a.start) || term > 120))
  {
    if a.covered.Some? {
      var b := a.covered.value;
      assert a.covered == Some(b) && (b || !b);
      if b { assert a.covered == Some(true); } else { assert a.covered == Some(false); }
    }
    TermEnd(a.start, TermOf(a));
  }

  /** The term is the count given, its fraction dropped. */
  lemma TermIsWhole(a: CoverageArgs)
    requires a.term.Some?
    ensures var t := TermOf(a) as real; if a.term.value >= 0.0 then t <= a.term.value < t + 1.0 else t - 1.0 < a.term.value <= t
  {
  }

  lemma {:induction false} TrimOpens(pre: string, t: string)
    requires (forall c :: c in pre ==> IsSpace(c)) && t != [] && !IsSpace(t[0])
    ensures Trim(pre + t) == Trim(t)
  {
    if pre == "" {
      assert pre + t == t;
    } else {
      assert pre[0] in pre && (pre + t)[1..] == pre[1..] + t;
      TrimOpens(pre[1..], t);
    }
  }

  lemma {:induction false} TrimCloses(t: string, post: string)
    requires (forall c :: c in post ==> IsSpace(c)) && t != [] && !IsSpace(t[0]) && !IsSpace(t[|t| - 1])
    ensures Trim(t + post) == t
  {
    if post == "" {
      assert t + post == t;
    } else {
      assert post[|post| - 1] in post && (t + post)[..|t + post| - 1] == t + post[..|post| - 1];
      TrimCloses(t, post[..|post| - 1]);
    }
  }

  /** Spaces around a typed expiry change nothing of the resolution. */
  lemma SpacesAreIgnored(a: CoverageArgs, pre: string, t: string, post: string)
    requires forall c :: c in pre || c in post ==> IsSpace(c)
    requires t != [] && !IsSpace(t[0]) && !IsSpace(t[|t| - 1])
    ensures ResolveWarrantyCoverage(a.(endDateAD := Some(pre + t + post))) == ResolveWarrantyCoverage(a.(endDateAD := Some(t)))
  {
    assert pre + t + post == pre + (t + post);
    TrimOpens(pre, t + post);
    TrimCloses(t, post);
  }

  // -------------------------------------------------------------- days remaining

  ghost function WarrantyDaysRemaining(endAD: string, today: string): Option<int> {
    if !IsAdDate(endAD) || !IsAdDate(today) then None
    else
      IsAdDateExact(endAD);
      IsAdDateExact(today);
      Some(DayOf(Parse(endAD)) - DayOf(Parse(today)))
  }

  datatype WarrantyState = EXPIRED | EXPIRING_SOON | VALID

  ghost function WarrantyStateFor(endAD: string, today: string): WarrantyState {
    var days := WarrantyDaysRemaining(endAD, today);
    if days.None? || days.value < 0 then EXPIRED
    else if days.value <= EXPIRING_SOON_DAYS then EXPIRING_SOON
    else VALID
  }

  /** From a date to the date `n` days later there are exactly `n` days left, while that date has a text. */
  lemma DaysRemainingInvertsAddDays(t: string, n: nat)
    requires IsAdDate(t) && n <= BillTerms.MAX_BILL_TERM_DAYS
    ensures var r := BillTerms.AddDays(t, n);
            r.Some? && Shape(Trim(t)) && Real(Parse(Trim(t))) && (WarrantyDaysRemaining(r.value, t) == Some(n) <==> BillTerms.DayOfText(t) + n <= BillTerms.LastDay())
  {
    ValidatorsAgree(t);
    BillTerms.DigitsAreNoSpace(t);
    BillTerms.AddDaysExact(t, n);
  }

  /** The sign of the days left is the string order of the two dates. */
  lemma DaysRemainingSign(endAD: string, today: string)
    requires IsAdDate(endAD) && IsAdDate(today)
    ensures WarrantyDaysRemaining(endAD, today).Some?
    ensures WarrantyDaysRemaining(endAD, today).value < 0 <==> TextLess(endAD, today)
  {
    IsAdDateExact(today);
    IsAdDateExact(endAD);
    TextOrder(endAD, today);
  }

  lemma DaysRemainingShrinks(endAD: string, today: string, later: string)
    requires IsAdDate(endAD) && IsAdDate(today) && IsAdDate(later) && !TextLess(later, today)
    ensures WarrantyDaysRemaining(endAD, later).value <= WarrantyDaysRemaining(endAD, today).value
  {
    IsAdDateExact(today);
    IsAdDateExact(later);
    TextOrder(later, today);
  }

  /** Valid is: later than the day thirty days from today, in string order. */
  lemma ValidAfterThirty(endAD: string, today: string, soon: string)
    requires IsAdDate(endAD) && WarrantyDaysRemaining(soon, today) == Some(30)
    ensures WarrantyStateFor(endAD, today) == VALID <==> TextLess(soon, endAD)
  {
    IsAdDateExact(soon);
    IsAdDateExact(endAD);
    TextOrder(soon, endAD);
  }

  function Rank(s: WarrantyState): nat { match s case EXPIRED => 0 case EXPIRING_SOON => 1 case VALID => 2 }

  /** As the days pass a coverage only ages: valid, then expiring, then expired, each state at its threshold. */
  lemma StatesOnlyAge(endAD: string, today: string, later: string)
    requires IsAdDate(today) && IsAdDate(later) && !TextLess(later, today)
    ensures Rank(WarrantyStateFor(endAD, later)) <= Rank(WarrantyStateFor(endAD, today))
    ensures IsAdDate(endAD) ==> (WarrantyStateFor(endAD, today) == EXPIRED <==> TextLess(endAD, today))
    ensures !IsAdDate(endAD) ==> WarrantyStateFor(endAD, today) == EXPIRED
  {
    if IsAdDate(endAD) {
      DaysRemainingSign(endAD, today);
      DaysRemainingShrinks(endAD, today, later);
    }
  }
}
