/**
 * `encodeURIComponent` and `decodeURIComponent` (ECMA-262 sections 19.2.6.4 and 19.2.6.2), as the path printer and
 * parser of client/src/routes/appPaths.ts use them. A Dafny `char` is a Unicode scalar value, so a `string` here is a
 * well-formed text: the one kind of input on which `encodeURIComponent` throws, a lone surrogate, does not arise.
 */
module PercentEncoding {
  import opened Collections

  /** The characters `encodeURIComponent` leaves alone. */
  predicate Unreserved(c: char) {
    'A' <= c <= 'Z' || 'a' <= c <= 'z' || '0' <= c <= '9' || c in "-_.!~*'()"
  }

  predicate IsByte(b: int) { 0 <= b < 256 }

  function Utf8(c: char): (r: seq<int>)
    ensures 1 <= |r| <= 4 && forall i :: 0 <= i < |r| ==> IsByte(r[i])
  {
    var n := c as int;
    if n < 0x80 then [n]
    else if n < 0x800 then [0xC0 + n / 64, 0x80 + n % 64]
    else if n < 0x10000 then [0xE0 + n / 4096, 0x80 + n / 64 % 64, 0x80 + n % 64]
    else [0xF0 + n / 262144, 0x80 + n / 4096 % 64, 0x80 + n / 64 % 64, 0x80 + n % 64]
  }

  function HexDigit(d: int): (c: char)
    requires 0 <= d < 16
  {
    if d < 10 then ('0' as int + d) as char else ('A' as int + (d - 10)) as char
  }

  function HexValue(c: char): Option<int> {
    if '0' <= c <= '9' then Some(c as int - '0' as int)
    else if 'A' <= c <= 'F' then Some(c as int - 'A' as int + 10)
    else if 'a' <= c <= 'f' then Some(c as int - 'a' as int + 10)
    else None
  }

  function Escape(b: int): string
    requires IsByte(b)
  {
    ['%', HexDigit(b / 16), HexDigit(b % 16)]
  }

  function EscapeAll(bs: seq<int>): string
    requires forall i :: 0 <= i < |bs| ==> IsByte(bs[i])
  {
    if bs == [] then "" else Escape(bs[0]) + EscapeAll(bs[1..])
  }

  function EncodeChar(c: char): string {
    if Unreserved(c) then [c] else EscapeAll(Utf8(c))
  }

  function Encode(s: string): string {
    if s == "" then "" else EncodeChar(s[0]) + Encode(s[1..])
  }

  /** The byte a `%HH` escape at the front of `s` stands for. */
  function Octet(s: string): (r: Option<int>)
    ensures r.Some? ==> |s| >= 3 && s[0] == '%' && IsByte(r.value)
  {
    if |s| < 3 || s[0] != '%' then None
    else
      var h, l := HexValue(s[1]), HexValue(s[2]);
      if h.None? || l.None? then None else Some(16 * h.value + l.value)
  }

  /** The number of bytes a lead byte announces; 0 for a byte that cannot lead. */
  function Width(b: int): nat {
    if b < 0x80 then 1 else if b < 0xC0 then 0 else if b < 0xE0 then 2 else if b < 0xF0 then 3 else if b < 0xF8 then 4 else 0
  }

  /** The first `w` escapes of `s` as bytes. */
  function Octets(s: string, w: nat): (r: Option<seq<int>>)
    ensures r.Some? ==> 3 * w <= |s| && |r.value| == w && forall i :: 0 <= i < w ==> IsByte(r.value[i])
    decreases w
  {
    if w == 0 then Some([])
    else
      var b := Octet(s);
      if b.None? then None
      else
        var rest := Octets(s[3..], w - 1);
        if rest.None? then None else Some([b.value] + rest.value)
  }

  /** A code point in the range its byte count must be used for: no overlong form, no surrogate. */
  function Scalar(n: int, low: nat): Option<char> {
    if low <= n < 0xD800 || (0xE000 <= n < 0x110000 && low <= n) then Some(n as char) else None
  }

  /** The character a whole UTF-8 sequence encodes, if it is well formed. */
  function CharOf(bs: seq<int>): Option<char> {
    if |bs| == 0 || (exists i :: 1 <= i < |bs| && !(0x80 <= bs[i] < 0xC0)) then None
    else if |bs| == 1 then Scalar(bs[0], 0)
    else if |bs| == 2 then Scalar((bs[0] - 0xC0) * 64 + (bs[1] - 0x80), 0x80)
    else if |bs| == 3 then Scalar((bs[0] - 0xE0) * 4096 + (bs[1] - 0x80) * 64 + (bs[2] - 0x80), 0x800)
    else if |bs| == 4 then
      Scalar((bs[0] - 0xF0) * 262144 + (bs[1] - 0x80) * 4096 + (bs[2] - 0x80) * 64 + (bs[3] - 0x80), 0x10000)
    else None
  }

  /** The character the escapes at the front of `s` spell, and how many bytes they take. */
  function DecodeEscape(s: string): (r: Option<(char, nat)>)
    ensures r.Some? ==> 1 <= r.value.1 && 3 * r.value.1 <= |s|
  {
    var lead := Octet(s);
    if lead.None? || Width(lead.value) == 0 then None
    else
      var w := Width(lead.value);
      var bs := Octets(s, w);
      if bs.None? then None
      else
        var c := CharOf(bs.value);
        if c.None? then None else Some((c.value, w))
  }

  function Prepend(c: char, rest: Option<string>): Option<string> {
    if rest.None? then None else Some([c] + rest.value)
  }

  /** `None` where `decodeURIComponent` throws. */
  function Decode(s: string): Option<string>
    decreases |s|
  {
    if s == "" then Some("")
    else if s[0] != '%' then Prepend(s[0], Decode(s[1..]))
    else
      var e := DecodeEscape(s);
      if e.None? then None else Prepend(e.value.0, Decode(s[3 * e.value.1..]))
  }

  lemma HexRoundTrip(d: int)
    requires 0 <= d < 16
    ensures HexValue(HexDigit(d)) == Some(d)
  {
  }

  lemma OctetOfEscape(b: int, t: string)
    requires IsByte(b)
    ensures Octet(Escape(b) + t) == Some(b) && (Escape(b) + t)[3..] == t
  {
    HexRoundTrip(b / 16);
    HexRoundTrip(b % 16);
    assert Escape(b)[0] == '%';
  }

  lemma OctetOfFirst(bs: seq<int>, t: string)
    requires |bs| > 0 && forall i :: 0 <= i < |bs| ==> IsByte(bs[i])
    ensures Octet(EscapeAll(bs) + t) == Some(bs[0])
    ensures |EscapeAll(bs) + t| >= 3 && (EscapeAll(bs) + t)[0] == '%'
    ensures (EscapeAll(bs) + t)[3..] == EscapeAll(bs[1..]) + t
  {
    var e, r := Escape(bs[0]), EscapeAll(bs[1..]);
    assert (e + r) + t == e + (r + t);
    OctetOfEscape(bs[0], r + t);
  }

  lemma {:induction false} EscapeAllLength(bs: seq<int>)
    requires forall i :: 0 <= i < |bs| ==> IsByte(bs[i])
    ensures |EscapeAll(bs)| == 3 * |bs|
  {
    if bs != [] { EscapeAllLength(bs[1..]); }
  }

  lemma {:induction false} OctetsRoundTrip(bs: seq<int>, t: string)
    requires forall i :: 0 <= i < |bs| ==> IsByte(bs[i])
    ensures Octets(EscapeAll(bs) + t, |bs|) == Some(bs)
    ensures |EscapeAll(bs)| == 3 * |bs|
  {
    EscapeAllLength(bs);
    if bs != [] {
      OctetOfFirst(bs, t);
      OctetsRoundTrip(bs[1..], t);
      assert bs == [bs[0]] + bs[1..];
    }
  }

  /** UTF-8 sequences decode to the character they encode, and their first byte announces their length. */
  lemma Utf8RoundTrip(c: char)
    ensures CharOf(Utf8(c)) == Some(c) && Width(Utf8(c)[0]) == |Utf8(c)|
  {
    var n := c as int;
    assert n == n / 64 * 64 + n % 64;
    assert n / 64 == n / 4096 * 64 + n / 64 % 64;
    assert n / 4096 == n / 262144 * 64 + n / 4096 % 64;
  }

  lemma EncodeCharRoundTrip(c: char, t: string)
    ensures Decode(EncodeChar(c) + t) == Prepend(c, Decode(t))
  {
    var s := EncodeChar(c) + t;
    if Unreserved(c) {
      assert s[0] == c && s[1..] == t;
    } else {
      Utf8RoundTrip(c);
      OctetsRoundTrip(Utf8(c), t);
      assert s[3 * |Utf8(c)|..] == t;
      OctetOfFirst(Utf8(c), t);
    }
  }

  /** Every text survives encoding and decoding. */
  lemma {:induction false} RoundTrip(s: string)
    ensures Decode(Encode(s)) == Some(s)
  {
    if s != "" {
      RoundTrip(s[1..]);
      EncodeCharRoundTrip(s[0], Encode(s[1..]));
      assert [s[0]] + s[1..] == s;
    }
  }

  /** What an encoded text is made of; none of these is a delimiter of a URL. */
  predicate Safe(c: char) { Unreserved(c) || c == '%' }

  lemma {:induction false} EscapeAllSafe(bs: seq<int>)
    requires forall i :: 0 <= i < |bs| ==> IsByte(bs[i])
    ensures forall c :: c in EscapeAll(bs) ==> Safe(c)
  {
    if bs != [] {
      EscapeAllSafe(bs[1..]);
      assert forall c :: c in Escape(bs[0]) ==> Safe(c);
    }
  }

  lemma {:induction false} EncodeSafe(s: string)
    ensures forall c :: c in Encode(s) ==> Safe(c)
    ensures s != "" ==> Encode(s) != ""
  {
    if s != "" {
      EncodeSafe(s[1..]);
      EscapeAllSafe(Utf8(s[0]));
      EscapeAllLength(Utf8(s[0]));
    }
  }

  /** Distinct texts never share an encoding. */
  lemma EncodeInjective(s: string, t: string)
    ensures Encode(s) == Encode(t) <==> s == t
  {
    RoundTrip(s);
    RoundTrip(t);
  }
}
