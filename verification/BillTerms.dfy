/** Due dates (shared/billTerms.ts): whole days added to an AD date text. */
module BillTerms {
  import opened Collections
  import opened Gregorian
  import opened AdDates

  const MAX_BILL_TERM_DAYS := 3650

  /** `toISOString().slice(0, 10)`: past year 9999 ISO prints a sign and six year digits, which the slice cuts. */
  function IsoSlice(c: Civil): (t: string)
    requires 0 <= c.year < 1000000 && Real(c)
    ensures |t| == 10
  {
    if c.year <= 9999 then Format(c)
    else "+" + Two(c.year / 10000) + Four(c.year % 10000) + "-" + Two(c.month)
  }

  lemma YearWithin(c: Civil, n: int)
    requires Real(c) && 100 <= c.year <= 9999 && 0 <= n <= MAX_BILL_TERM_DAYS
    ensures 100 <= CivilOf(DayOf(c) + n).year <= 10010
  {
    var r := CivilOf(DayOf(c) + n);
    MonthStartMono(r.year, r.month + 1, 13);
    YearIsTwelveMonths(r.year);
    YearStep(r.year);
    MonthStartMono(c.year, c.month + 1, 13);
    YearIsTwelveMonths(c.year);
    YearStep(c.year);
    if r.year < c.year { YearMono(r.year + 1, c.year); }
    if r.year > c.year + 11 { YearMono(c.year + 1, r.year); }
  }

  /** What an accepted text holds: a real date from year 100 on. */
  lemma AcceptedText(t: string)
    requires IsValidADDate(t)
    ensures IsAdDate(Trim(t)) && Real(Parse(Trim(t))) && Parse(Trim(t)).year >= 100
    ensures var c := Parse(Trim(t)); DateUTC(c.year, c.month, c.day) == DayOf(c)
  {
    ValidatorsAgree(t);
    IsAdDateExact(Trim(t));
    DateUTCOfReal(Parse(Trim(t)));
  }

  ghost predicate Usable(c: Civil) { Real(c) && 100 <= c.year <= 9999 }

  /** `setUTCDate(getUTCDate() + count)` on the date's midnight, printed. */
  ghost function PrintLater(c: Civil, count: int): string
    requires Usable(c) && 0 <= count <= MAX_BILL_TERM_DAYS
  {
    DateUTCOfReal(c);
    YearWithin(c, count);
    IsoSlice(CivilOf(DateUTC(c.year, c.month, c.day) + count))
  }

  /** `addDaysAD` for a truncated day count. */
  ghost function AddDays(dateAD: string, count: int): Option<string> {
    if !IsValidADDate(dateAD) || count < 0 || count > MAX_BILL_TERM_DAYS then None
    else
      AcceptedText(dateAD);
      Some(PrintLater(Parse(Trim(dateAD)), count))
  }

  /** `addDaysAD` as called: the count is truncated, and `None` when it is not a finite number. */
  ghost function AddDaysAD(dateAD: string, days: Option<real>): Option<string> {
    if days.None? then None else AddDays(dateAD, Trunc(days.value))
  }

  /** A due date is given exactly for an accepted date and a count strictly between -1 and 3651: the fraction is
      dropped before the range is checked. */
  lemma AddDaysADAccepts(dateAD: string, days: Option<real>)
    ensures AddDaysAD(dateAD, days).Some? <==> IsValidADDate(dateAD) && days.Some? && -1.0 < days.value < 3651.0
  {
  }

  function LastDay(): int { DayNumber(9999, 12, 31) }

  /** The calendar day an accepted text names. */
  function DayOfText(t: string): int
    requires Shape(Trim(t)) && 1 <= Parse(Trim(t)).month <= 12
  {
    DayOf(Parse(Trim(t)))
  }

  /** The printed date parses back exactly within year 9999; beyond it is no date text at all. */
  lemma IsoSliceExact(d: Civil)
    requires Real(d) && 100 <= d.year <= 10010
    ensures DayOf(d) <= LastDay() ==> IsAdDate(IsoSlice(d)) && IsValidADDate(IsoSlice(d)) && Trim(IsoSlice(d)) == IsoSlice(d) && Parse(IsoSlice(d)) == d
    ensures DayOf(d) > LastDay() ==> !IsAdDate(IsoSlice(d)) && !IsValidADDate(IsoSlice(d))
  {
    DayOrder(Civil(9999, 12, 31), d);
    var r := IsoSlice(d);
    if d.year <= 9999 {
      ParseOfFormat(d);
      IsAdDateExact(r);
      ValidatorsAgree(r);
      DigitsAreNoSpace(r);
    } else {
      PlusIsNoDate(r);
    }
  }

  lemma DigitsAreNoSpace(t: string)
    requires Shape(t)
    ensures Trim(t) == t
  {
  }

  lemma PlusIsNoDate(t: string)
    requires |t| == 10 && t[0] == '+'
    ensures !IsAdDate(t) && !IsValidADDate(t)
  {
    if Shape(Trim(t)) { TrimShorter(t); }
  }

  lemma {:induction false} TrimShorter(s: string)
    ensures |Trim(s)| <= |s| && (|Trim(s)| == |s| ==> Trim(s) == s)
  {
    if s != [] {
      if IsSpace(s[0]) { TrimShorter(s[1..]); }
      else if IsSpace(s[|s| - 1]) { TrimShorter(s[..|s| - 1]); }
    }
  }

  lemma PrintLaterExact(c: Civil, n: nat) returns (d: Civil)
    requires Usable(c) && n <= MAX_BILL_TERM_DAYS
    ensures Real(d) && 100 <= d.year <= 10010 && DayOf(d) == DayOf(c) + n && PrintLater(c, n) == IsoSlice(d)
  {
    DateUTCOfReal(c);
    YearWithin(c, n);
    d := CivilOf(DayOf(c) + n);
  }

  /** The value for an accepted text: the civil date of the exact day sum, printed. */
  lemma AddDaysValue(t: string, n: nat) returns (d: Civil)
    requires IsValidADDate(t) && n <= MAX_BILL_TERM_DAYS
    ensures Real(d) && 100 <= d.year <= 10010 && Shape(Trim(t)) && Usable(Parse(Trim(t)))
    ensures DayOf(d) == DayOfText(t) + n && AddDays(t, n) == Some(IsoSlice(d))
  {
    AcceptedText(t);
    d := PrintLaterExact(Parse(Trim(t)), n);
  }

  /** Day addition is exact while it stays within year 9999, and yields no date text beyond it. */
  lemma AddDaysExact(t: string, n: nat)
    requires IsValidADDate(t) && n <= MAX_BILL_TERM_DAYS
    ensures var r := AddDays(t, n);
            && r.Some?
            && Shape(Trim(t)) && Real(Parse(Trim(t)))
            && (IsAdDate(r.value) <==> DayOfText(t) + n <= LastDay())
            && (IsAdDate(r.value) ==>
                  Trim(r.value) == r.value && Real(Parse(r.value)) && DayOfText(r.value) == DayOfText(t) + n && !TextLess(r.value, Trim(t)))
  {
    var d := AddDaysValue(t, n);
    IsoSliceExact(d);
    if IsAdDate(IsoSlice(d)) { TextOrder(IsoSlice(d), Trim(t)); }
  }

  /** Adding `a` days and then `b` equals adding `a + b` at once, exactly when the first step stays in range. */
  lemma AddDaysCompose(t: string, a: nat, b: nat)
    requires IsValidADDate(t) && a + b <= MAX_BILL_TERM_DAYS
    ensures var first := AddDays(t, a);
            && first.Some? && Shape(Trim(t)) && Real(Parse(Trim(t)))
            && (AddDays(first.value, b) == AddDays(t, a + b) <==> DayOfText(t) + a <= LastDay())
  {
    var d := AddDaysValue(t, a);
    var e := AddDaysValue(t, a + b);
    IsoSliceExact(d);
    if DayOf(d) <= LastDay() {
      var f := AddDaysValue(IsoSlice(d), b);
      DayOrder(f, e);
    }
  }
}
