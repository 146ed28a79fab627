/** AD dates as `YYYY-MM-DD` text: shape, the rollover validators, formatting and string order. */
module AdDates {
  import opened Gregorian

  predicate IsDigit(c: char) { '0' <= c <= '9' }

  function DigitOf(c: char): nat
    requires IsDigit(c)
  {
    c as int - '0' as int
  }

  function DigitChar(n: nat): char
    requires n < 10
  {
    ('0' as int + n) as char
  }

  /** `/^\d{4}-\d{2}-\d{2}$/`. */
  predicate Shape(t: string) {
    && |t| == 10 && t[4] == '-' && t[7] == '-'
    && IsDigit(t[0]) && IsDigit(t[1]) && IsDigit(t[2]) && IsDigit(t[3])
    && IsDigit(t[5]) && IsDigit(t[6]) && IsDigit(t[8]) && IsDigit(t[9])
  }

  function Pair(t: string, i: nat): (n: nat)
    requires i + 1 < |t| && IsDigit(t[i]) && IsDigit(t[i + 1])
    ensures n < 100
  {
    10 * DigitOf(t[i]) + DigitOf(t[i + 1])
  }

  /** `text.split('-').map(Number)` of a text of the right shape. */
  function Parse(t: string): (c: Civil)
    requires Shape(t)
    ensures 0 <= c.year <= 9999 && 0 <= c.month < 100 && 0 <= c.day < 100
  {
    Civil(100 * Pair(t, 0) + Pair(t, 2), Pair(t, 5), Pair(t, 8))
  }

  function Two(n: nat): (s: string)
    requires n < 100
    ensures |s| == 2
  {
    [DigitChar(n / 10), DigitChar(n % 10)]
  }

  function Four(n: nat): string
    requires n < 10000
  {
    Two(n / 100) + Two(n % 100)
  }

  function Format(c: Civil): string
    requires 0 <= c.year <= 9999 && 0 <= c.month < 100 && 0 <= c.day < 100
  {
    Four(c.year) + "-" + Two(c.month) + "-" + Two(c.day)
  }

  lemma PairOfTwo(n: nat)
    requires n < 100
    ensures IsDigit(Two(n)[0]) && IsDigit(Two(n)[1]) && Pair(Two(n), 0) == n
  {
  }

  lemma TwoOfPair(t: string, i: nat)
    requires i + 1 < |t| && IsDigit(t[i]) && IsDigit(t[i + 1])
    ensures Two(Pair(t, i)) == [t[i], t[i + 1]]
  {
    var h, l := DigitOf(t[i]), DigitOf(t[i + 1]);
    assert (10 * h + l) / 10 == h && (10 * h + l) % 10 == l;
  }

  /** Formatting then parsing gives the date back. */
  lemma ParseOfFormat(c: Civil)
    requires 0 <= c.year <= 9999 && 0 <= c.month < 100 && 0 <= c.day < 100
    ensures Shape(Format(c)) && Parse(Format(c)) == c
  {
    PairOfTwo(c.year / 100);
    PairOfTwo(c.year % 100);
    PairOfTwo(c.month);
    PairOfTwo(c.day);
    var t, hi, lo, mo, da := Format(c), Two(c.year / 100), Two(c.year % 100), Two(c.month), Two(c.day);
    assert t == [hi[0], hi[1], lo[0], lo[1], '-', mo[0], mo[1], '-', da[0], da[1]];
    assert Pair(t, 0) == Pair(hi, 0) && Pair(t, 2) == Pair(lo, 0) && Pair(t, 5) == Pair(mo, 0) && Pair(t, 8) == Pair(da, 0);
  }

  /** Parsing then formatting gives the text back. */
  lemma FormatOfParse(t: string)
    requires Shape(t)
    ensures Format(Parse(t)) == t
  {
    TwoOfPair(t, 0);
    TwoOfPair(t, 2);
    TwoOfPair(t, 5);
    TwoOfPair(t, 8);
    var p, q := Pair(t, 0), Pair(t, 2);
    assert (100 * p + q) / 100 == p && (100 * p + q) % 100 == q;
    assert Format(Parse(t)) == [t[0], t[1]] + [t[2], t[3]] + "-" + [t[5], t[6]] + "-" + [t[8], t[9]];
  }

  /** `isAdDate`: the shape, and UTC rollover changes nothing. */
  ghost predicate IsAdDate(t: string) {
    Shape(t) && var c := Parse(t); CivilOf(DateUTC(c.year, c.month, c.day)) == c
  }

  lemma DateUTCOfReal(c: Civil)
    requires Real(c) && c.year >= 100
    ensures DateUTC(c.year, c.month, c.day) == DayOf(c)
  {
  }

  /** The years 0..99 never survive the rollover: they are read as 1900..1999. */
  lemma SmallYearsRollOver(c: Civil)
    requires 0 <= c.year <= 99 && 0 <= c.month < 100 && 0 <= c.day < 100
    ensures CivilOf(DateUTC(c.year, c.month, c.day)).year != c.year
  {
    var n := DateUTC(c.year, c.month, c.day);
    var yr := 1900 + c.year + (c.month - 1) / 12;
    assert n >= DayFromYear(yr) - 1;
    var y := CivilOf(n).year;
    MonthStartMono(y, CivilOf(n).month + 1, 13);
    YearIsTwelveMonths(y);
    YearStep(y);
    assert n < DayFromYear(y + 1);
    if y < 100 {
      YearMono(y + 1, yr - 1);
      YearMono(yr - 1, yr);
    }
  }

  /** The validator accepts exactly the real calendar dates from year 100 on. */
  lemma IsAdDateExact(t: string)
    ensures IsAdDate(t) <==> Shape(t) && Parse(t).year >= 100 && Real(Parse(t))
  {
    if Shape(t) {
      var c := Parse(t);
      if c.year < 100 {
        SmallYearsRollOver(c);
      } else if Real(c) {
        DateUTCOfReal(c);
        CivilRoundTrip(c);
      }
    }
  }

  /** White space that `String.prototype.trim` and `Number` skip. */
  predicate IsSpace(c: char) {
    || c == ' ' || '\t' <= c <= '\r' || c == '\U{00A0}' || c == '\U{1680}' || '\U{2000}' <= c <= '\U{200A}'
    || c == '\U{2028}' || c == '\U{2029}' || c == '\U{202F}' || c == '\U{205F}' || c == '\U{3000}' || c == '\U{FEFF}'
  }

  function Trim(s: string): (t: string)
    ensures t == [] || (!IsSpace(t[0]) && !IsSpace(t[|t| - 1]))
    ensures s != [] && !IsSpace(s[0]) && !IsSpace(s[|s| - 1]) ==> t == s
  {
    if s == [] then []
    else if IsSpace(s[0]) then Trim(s[1..])
    else if IsSpace(s[|s| - 1]) then Trim(s[..|s| - 1])
    else s
  }

  /** `isValidADDate`: trims first, then bounds month and day before the rollover test. */
  ghost predicate IsValidADDate(s: string) {
    var t := Trim(s);
    && Shape(t)
    && var c := Parse(t);
       1 <= c.month <= 12 && 1 <= c.day <= 31 && CivilOf(DateUTC(c.year, c.month, c.day)) == c
  }

  /** The two validators differ by the trim only, and agree on every untrimmed text. */
  lemma ValidatorsAgree(s: string)
    ensures IsValidADDate(s) <==> IsAdDate(Trim(s))
    ensures Shape(s) ==> (IsValidADDate(s) <==> IsAdDate(s))
  {
    IsAdDateExact(Trim(s));
    if Shape(s) { assert Trim(s) == s; }
  }

  /** JavaScript's `a < b` on strings. */
  predicate TextLess(a: string, b: string) {
    if b == [] then false
    else if a == [] then true
    else if a[0] != b[0] then a[0] < b[0]
    else TextLess(a[1..], b[1..])
  }

  lemma {:induction false} FirstDifference(a: string, b: string, i: nat)
    requires |a| == |b| && i <= |a| && a[..i] == b[..i]
    ensures i == |a| ==> !TextLess(a, b)
    ensures i < |a| && a[i] != b[i] ==> (TextLess(a, b) <==> a[i] < b[i])
  {
    if i > 0 {
      assert a[0] == a[..i][0] == b[..i][0] == b[0];
      assert a[1..][..i - 1] == a[..i][1..] && b[1..][..i - 1] == b[..i][1..];
      FirstDifference(a[1..], b[1..], i - 1);
    }
  }

  lemma PairOrder(a: string, b: string, i: nat)
    requires i + 1 < |a| == |b| && IsDigit(a[i]) && IsDigit(a[i + 1]) && IsDigit(b[i]) && IsDigit(b[i + 1])
    ensures Pair(a, i) < Pair(b, i) <==> a[i] < b[i] || (a[i] == b[i] && a[i + 1] < b[i + 1])
    ensures Pair(a, i) == Pair(b, i) <==> a[i] == b[i] && a[i + 1] == b[i + 1]
  {
  }

  /** Before position `i` the texts agree, so their order is decided from position `i` on. */
  lemma OrderFrom(a: string, b: string, i: nat)
    requires Shape(a) && Shape(b) && i < 10 && a[..i] == b[..i] && a[i] != b[i]
    ensures TextLess(a, b) <==> Before(Parse(a), Parse(b))
  {
    FirstDifference(a, b, i);
    assert forall k :: 0 <= k < i ==> a[k] == a[..i][k] == b[..i][k] == b[k];
    PairOrder(a, b, 0);
    PairOrder(a, b, 2);
    PairOrder(a, b, 5);
    PairOrder(a, b, 8);
  }

  /** String order of date texts is calendar order, and for real dates the order of the days. */
  lemma TextOrder(a: string, b: string)
    requires Shape(a) && Shape(b)
    ensures TextLess(a, b) <==> Before(Parse(a), Parse(b))
    ensures Real(Parse(a)) && Real(Parse(b)) ==> (TextLess(a, b) <==> DayOf(Parse(a)) < DayOf(Parse(b)))
  {
    var i := 0;
    while i < 10 && a[i] == b[i]
      invariant 0 <= i <= 10 && a[..i] == b[..i]
    {
      i := i + 1;
    }
    if i < 10 {
      OrderFrom(a, b, i);
    } else {
      assert a == a[..i] == b[..i] == b;
      FirstDifference(a, b, i);
    }
    if Real(Parse(a)) && Real(Parse(b)) { DayOrder(Parse(a), Parse(b)); }
  }

  /** `Math.trunc`. */
  function Trunc(r: real): int {
    if r >= 0.0 then r.Floor else -(-r).Floor
  }
}
