/** JavaScript's `encodeURIComponent`: characters outside the unreserved set
    become the percent-escapes of their UTF-8 bytes, with upper-case hex
    digits. Decoding the escapes gives back the UTF-8 form of the input. */
module Uri {
  import opened Wrappers
  import opened Text

  type Byte = b: int | 0 <= b < 256

  /** The characters `encodeURIComponent` leaves as they are. */
  predicate Unreserved(c: char) {
    ('A' <= c <= 'Z') || ('a' <= c <= 'z') || ('0' <= c <= '9')
    || c == '-' || c == '_' || c == '.' || c == '!' || c == '~'
    || c == '*' || c == '\'' || c == '(' || c == ')'
  }

  /** The UTF-8 encoding of one Unicode scalar value. */
  function Utf8(c: char): (bs: seq<Byte>)
    ensures 1 <= |bs| <= 4
  {
    var n := c as int;
    if n < 0x80 then [n]
    else if n < 0x800 then [0xC0 + n / 64, 0x80 + n % 64]
    else if n < 0x10000 then [0xE0 + n / 4096, 0x80 + (n / 64) % 64, 0x80 + n % 64]
    else [0xF0 + n / 262144, 0x80 + (n / 4096) % 64, 0x80 + (n / 64) % 64, 0x80 + n % 64]
  }

  function Utf8String(s: string): seq<Byte> {
    if s == [] then [] else Utf8(s[0]) + Utf8String(s[1..])
  }

  function UpperHex(d: nat): char
    requires d < 16
  {
    "0123456789ABCDEF"[d]
  }

  predicate IsUpperHex(c: char) {
    ('0' <= c <= '9') || ('A' <= c <= 'F')
  }

  function HexValue(c: char): nat
    requires IsUpperHex(c)
  {
    if c <= '9' then c as int - '0' as int else c as int - 'A' as int + 10
  }

  lemma HexRoundTrip(d: nat)
    requires d < 16
    ensures IsUpperHex(UpperHex(d)) && HexValue(UpperHex(d)) == d
  {
  }

  /** `%XY` for one byte. */
  function Escape(bs: seq<Byte>): (r: string)
    ensures |r| == 3 * |bs|
  {
    if bs == [] then ""
    else ['%', UpperHex(bs[0] / 16), UpperHex(bs[0] % 16)] + Escape(bs[1..])
  }

  function EncodeChar(c: char): string {
    if Unreserved(c) then [c] else Escape(Utf8(c))
  }

  /** The characters an encoded component is made of. */
  predicate EncodedChar(c: char) {
    Unreserved(c) || c == '%' || IsUpperHex(c)
  }

  predicate Encoded(s: string) {
    forall i :: 0 <= i < |s| ==> EncodedChar(s[i])
  }

  lemma {:induction false} EscapeEncoded(bs: seq<Byte>)
    ensures Encoded(Escape(bs))
  {
    if bs != [] {
      EscapeEncoded(bs[1..]);
      var head := ['%', UpperHex(bs[0] / 16), UpperHex(bs[0] % 16)];
      assert Escape(bs) == head + Escape(bs[1..]);
    }
  }

  /** `encodeURIComponent(s)`: its output uses only unreserved characters,
      `%` and upper-case hex digits, so never `&`, `=`, `?`, `#` or `/`. */
  function EncodeURIComponent(s: string): (r: string)
    ensures Encoded(r)
  {
    if s == [] then ""
    else
      var head := EncodeChar(s[0]);
      var rest := EncodeURIComponent(s[1..]);
      EscapeEncoded(Utf8(s[0]));
      head + rest
  }

  /** An unreserved string passes through unchanged. */
  lemma {:induction false} EncodeUnreserved(s: string)
    requires forall i :: 0 <= i < |s| ==> Unreserved(s[i])
    ensures EncodeURIComponent(s) == s
  {
    if s != [] {
      EncodeUnreserved(s[1..]);
      assert [s[0]] + s[1..] == s;
    }
  }

  /** Reading percent-escapes back: `%XY` is the byte 0xXY, any other ASCII
      character is its own code; anything else is malformed. */
  function PercentDecode(s: string): Option<seq<Byte>>
    decreases |s|
  {
    if s == [] then Some([])
    else if s[0] == '%' then
      if |s| >= 3 && IsUpperHex(s[1]) && IsUpperHex(s[2]) then
        match PercentDecode(s[3..])
        case None => None
        case Some(rest) => Some([HexValue(s[1]) * 16 + HexValue(s[2])] + rest)
      else None
    else if (s[0] as int) < 0x80 then
      match PercentDecode(s[1..])
      case None => None
      case Some(rest) => Some([s[0] as int] + rest)
    else None
  }

  function Prepend(bs: seq<Byte>, r: Option<seq<Byte>>): Option<seq<Byte>> {
    if r.Some? then Some(bs + r.value) else None
  }

  lemma {:induction false} DecodeEscape(bs: seq<Byte>, rest: string)
    ensures PercentDecode(Escape(bs) + rest) == Prepend(bs, PercentDecode(rest))
  {
    if bs != [] {
      var b := bs[0];
      var tail := Escape(bs[1..]) + rest;
      assert Escape(bs) + rest == ['%', UpperHex(b / 16), UpperHex(b % 16)] + tail;
      DecodeOne(b, tail);
      DecodeEscape(bs[1..], rest);
      PrependTwice([b], bs[1..], PercentDecode(rest));
      assert [b] + bs[1..] == bs;
    } else {
      assert Escape(bs) + rest == rest;
      PrependNothing(PercentDecode(rest));
    }
  }

  lemma PrependTwice(a: seq<Byte>, b: seq<Byte>, r: Option<seq<Byte>>)
    ensures Prepend(a, Prepend(b, r)) == Prepend(a + b, r)
  {
    if r.Some? {
      assert a + (b + r.value) == (a + b) + r.value;
    }
  }

  lemma PrependNothing(r: Option<seq<Byte>>)
    ensures Prepend([], r) == r
  {
    if r.Some? {
      assert [] + r.value == r.value;
    }
  }

  /** One escape decodes to its byte. */
  lemma DecodeOne(b: Byte, tail: string)
    ensures PercentDecode(['%', UpperHex(b / 16), UpperHex(b % 16)] + tail) == Prepend([b], PercentDecode(tail))
  {
    var s := ['%', UpperHex(b / 16), UpperHex(b % 16)] + tail;
    HexRoundTrip(b / 16);
    HexRoundTrip(b % 16);
    assert s[3..] == tail;
    assert HexValue(s[1]) * 16 + HexValue(s[2]) == b;
  }

  /** Decoding an encoded component yields exactly the UTF-8 bytes of the
      original string. */
  lemma {:induction false} DecodeEncode(s: string)
    ensures PercentDecode(EncodeURIComponent(s)) == Some(Utf8String(s))
  {
    if s != [] {
      var rest := EncodeURIComponent(s[1..]);
      DecodeEncode(s[1..]);
      if Unreserved(s[0]) {
        assert ([s[0]] + rest)[1..] == rest;
      } else {
        DecodeEscape(Utf8(s[0]), rest);
      }
    }
  }

  /** A string without a given character keeps it out of every substring
      search for a needle that starts with it. */
  lemma AbsentFirstChar(h: string, n: string)
    requires |n| > 0 && n[0] !in h
    ensures !Contains(h, n)
  {
    ContainsIff(h, n);
  }

  lemma EncodedHasNo(s: string, c: char)
    requires Encoded(s) && !EncodedChar(c)
    ensures c !in s
  {
  }
}
