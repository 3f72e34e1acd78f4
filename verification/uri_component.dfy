/** `encodeURIComponent` and `decodeURIComponent` over Unicode scalar values:
    every character outside the unreserved set is written as the
    percent-escaped bytes of its UTF-8 encoding, with upper-case hex digits. */
module UriComponent {
  import opened Wrappers

  /** The characters `encodeURIComponent` leaves alone. */
  predicate Unreserved(c: char) {
    || 'A' <= c <= 'Z' || 'a' <= c <= 'z' || '0' <= c <= '9'
    || c == '-' || c == '_' || c == '.' || c == '!' || c == '~'
    || c == '*' || c == '\'' || c == '(' || c == ')'
  }

  /** The characters an encoded component can contain. */
  predicate Safe(c: char) {
    Unreserved(c) || c == '%'
  }

  function HexDigit(d: int): (c: char)
    requires 0 <= d < 16
    ensures Unreserved(c)
  {
    if d < 10 then ('0' as int + d) as char else ('A' as int + d - 10) as char
  }

  /** The value of a hex digit of either case. */
  function HexValue(c: char): (r: Option<int>)
    ensures r.Some? ==> 0 <= r.value < 16
  {
    if '0' <= c <= '9' then Some(c as int - '0' as int)
    else if 'A' <= c <= 'F' then Some(c as int - 'A' as int + 10)
    else if 'a' <= c <= 'f' then Some(c as int - 'a' as int + 10)
    else None
  }

  lemma HexRoundTrip(d: int)
    requires 0 <= d < 16
    ensures HexValue(HexDigit(d)) == Some(d)
  {
  }

  /** `%HH` for one byte. */
  function Escape(b: Byte): (r: string)
    ensures |r| == 3 && r[0] == '%'
    ensures forall i :: 0 <= i < |r| ==> Safe(r[i])
  {
    ['%', HexDigit(b / 16), HexDigit(b % 16)]
  }

  type Byte = b: int | 0 <= b < 256

  /** The UTF-8 bytes of a scalar value (section 3 of RFC 3629). */
  function Utf8(c: char): (bs: seq<Byte>)
    ensures 1 <= |bs| <= 4
  {
    var n := c as int;
    if n < 0x80 then [n]
    else if n < 0x800 then [0xC0 + n / 64, 0x80 + n % 64]
    else if n < 0x10000 then [0xE0 + n / 4096, 0x80 + (n / 64) % 64, 0x80 + n % 64]
    else [0xF0 + n / 262144, 0x80 + (n / 4096) % 64, 0x80 + (n / 64) % 64, 0x80 + n % 64]
  }

  function EscapeAll(bs: seq<Byte>): (r: string)
    ensures |r| == 3 * |bs|
    ensures forall i :: 0 <= i < |r| ==> Safe(r[i])
    ensures forall i :: 0 <= i < |bs| ==> r[3 * i..3 * i + 3] == Escape(bs[i])
    decreases |bs|
  {
    if |bs| == 0 then ""
    else
      var rest := EscapeAll(bs[1..]);
      assert forall i :: 1 <= i < |bs| ==> (Escape(bs[0]) + rest)[3 * i..3 * i + 3] == rest[3 * (i - 1)..3 * (i - 1) + 3];
      Escape(bs[0]) + rest
  }

  function EncodeChar(c: char): (r: string)
    ensures 1 <= |r|
    ensures forall i :: 0 <= i < |r| ==> Safe(r[i])
    ensures Unreserved(c) <==> r == [c]
  {
    if Unreserved(c) then [c] else EscapeAll(Utf8(c))
  }

  /** `encodeURIComponent(s)`. */
  function Encode(s: string): (r: string)
    ensures forall i :: 0 <= i < |r| ==> Safe(r[i])
    ensures (forall i :: 0 <= i < |s| ==> Unreserved(s[i])) ==> r == s
    decreases |s|
  {
    if |s| == 0 then "" else EncodeChar(s[0]) + Encode(s[1..])
  }

  /** The byte written as `%HH` at position `i`, if there is one. */
  function ByteAt(s: string, i: nat): (r: Option<Byte>)
    ensures r.Some? ==> i + 3 <= |s|
  {
    if i + 3 <= |s| && s[i] == '%' then
      match (HexValue(s[i + 1]), HexValue(s[i + 2]))
      case (Some(h), Some(l)) => Some(16 * h + l)
      case _ => None
    else None
  }

  /** The six payload bits of a continuation byte `%80`..`%BF` at `i`. */
  function ContAt(s: string, i: nat): (r: Option<int>)
    ensures r.Some? ==> i + 3 <= |s| && 0 <= r.value < 64
  {
    match ByteAt(s, i)
    case Some(b) => if 0x80 <= b < 0xC0 then Some(b - 0x80) else None
    case None => None
  }

  /** A scalar value: not a surrogate, at most U+10FFFF. */
  predicate Scalar(n: int) {
    0 <= n < 0xD800 || 0xE000 <= n < 0x110000
  }

  /** The first decoded character and how many input characters it used;
      absent for a malformed escape (where `decodeURIComponent` throws). */
  function Leading(s: string): (r: Option<(char, nat)>)
    requires |s| > 0
    ensures r.Some? ==> 1 <= r.value.1 <= |s|
  {
    if s[0] != '%' then Some((s[0], 1))
    else match ByteAt(s, 0)
      case None => None
      case Some(b0) =>
        if b0 < 0x80 then Some((b0 as char, 3))
        else if 0xC0 <= b0 < 0xE0 then
          match ContAt(s, 3)
          case None => None
          case Some(c1) =>
            var n := (b0 - 0xC0) * 64 + c1;
            if 0x80 <= n then Some((n as char, 6)) else None
        else if 0xE0 <= b0 < 0xF0 then
          match (ContAt(s, 3), ContAt(s, 6))
          case (Some(c1), Some(c2)) =>
            var n := (b0 - 0xE0) * 4096 + c1 * 64 + c2;
            if 0x800 <= n && Scalar(n) then Some((n as char, 9)) else None
          case _ => None
        else if 0xF0 <= b0 < 0xF8 then
          match (ContAt(s, 3), ContAt(s, 6), ContAt(s, 9))
          case (Some(c1), Some(c2), Some(c3)) =>
            var n := (b0 - 0xF0) * 262144 + c1 * 4096 + c2 * 64 + c3;
            if 0x10000 <= n < 0x110000 then Some((n as char, 12)) else None
          case _ => None
        else None
  }

  /** `decodeURIComponent(s)`; absent where it would throw a URIError. */
  function Decode(s: string): Option<string>
    decreases |s|
  {
    if |s| == 0 then Some("")
    else match Leading(s)
      case None => None
      case Some((c, k)) =>
        match Decode(s[k..])
        case None => None
        case Some(rest) => Some([c] + rest)
  }

  lemma EscapeDecodes(b: Byte, s: string, i: nat)
    requires i + 3 <= |s| && s[i..i + 3] == Escape(b)
    ensures ByteAt(s, i) == Some(b)
  {
    assert s[i + 1] == HexDigit(b / 16) && s[i + 2] == HexDigit(b % 16);
    HexRoundTrip(b / 16);
    HexRoundTrip(b % 16);
  }

  /** The escapes of a byte list read back byte by byte. */
  lemma EscapedBytes(bs: seq<Byte>, rest: string)
    ensures forall i :: 0 <= i < |bs| ==> ByteAt(EscapeAll(bs) + rest, 3 * i) == Some(bs[i])
  {
    var e := EscapeAll(bs);
    var s := e + rest;
    forall i | 0 <= i < |bs|
      ensures ByteAt(s, 3 * i) == Some(bs[i])
    {
      assert e[3 * i..3 * i + 3] == Escape(bs[i]);
      assert s[3 * i..3 * i + 3] == e[3 * i..3 * i + 3];
      EscapeDecodes(bs[i], s, 3 * i);
    }
  }

  lemma LeadingTwo(c: char, s: string)
    requires 0x80 <= c as int < 0x800 && |s| > 0 && s[0] == '%'
    requires ByteAt(s, 0) == Some(Utf8(c)[0]) && ByteAt(s, 3) == Some(Utf8(c)[1])
    ensures Leading(s) == Some((c, 6))
  {
    var n := c as int;
    assert n == (n / 64) * 64 + n % 64;
  }

  lemma LeadingThree(c: char, s: string)
    requires 0x800 <= c as int < 0x10000 && |s| > 0 && s[0] == '%'
    requires ByteAt(s, 0) == Some(Utf8(c)[0]) && ByteAt(s, 3) == Some(Utf8(c)[1])
    requires ByteAt(s, 6) == Some(Utf8(c)[2])
    ensures Leading(s) == Some((c, 9))
  {
    var n := c as int;
    assert n == (n / 64) * 64 + n % 64;
    assert n / 64 == (n / 4096) * 64 + (n / 64) % 64;
    assert (n / 4096) * 4096 + ((n / 64) % 64) * 64 + n % 64 == n;
  }

  lemma LeadingFour(c: char, s: string)
    requires 0x10000 <= c as int && |s| > 0 && s[0] == '%'
    requires ByteAt(s, 0) == Some(Utf8(c)[0]) && ByteAt(s, 3) == Some(Utf8(c)[1])
    requires ByteAt(s, 6) == Some(Utf8(c)[2]) && ByteAt(s, 9) == Some(Utf8(c)[3])
    ensures Leading(s) == Some((c, 12))
  {
    var n := c as int;
    var b0, c1, c2, c3 := n / 262144, (n / 4096) % 64, (n / 64) % 64, n % 64;
    SplitFour(n);
    assert b0 * 262144 + c1 * 4096 + c2 * 64 + c3 == n;
    assert ContAt(s, 3) == Some(c1) && ContAt(s, 6) == Some(c2) && ContAt(s, 9) == Some(c3);
  }

  lemma SplitFour(n: int)
    requires 0x10000 <= n < 0x110000
    ensures (n / 262144) * 262144 + ((n / 4096) % 64) * 4096 + ((n / 64) % 64) * 64 + n % 64 == n
    ensures n / 262144 < 8
  {
    assert n == (n / 64) * 64 + n % 64;
    assert n / 64 == (n / 4096) * 64 + (n / 64) % 64;
    assert n / 4096 == (n / 262144) * 64 + (n / 4096) % 64;
  }

  /** Reading the first encoded character back. */
  lemma {:induction false} LeadingOfEncodeChar(c: char, rest: string)
    ensures Leading(EncodeChar(c) + rest) == Some((c, |EncodeChar(c)|))
  {
    var s := EncodeChar(c) + rest;
    if !Unreserved(c) {
      var bs := Utf8(c);
      var n := c as int;
      EscapedBytes(bs, rest);
      assert s[0] == '%';
      if n < 0x80 {
        assert ByteAt(s, 0) == Some(bs[0]);
      } else if n < 0x800 {
        LeadingTwo(c, s);
      } else if n < 0x10000 {
        LeadingThree(c, s);
      } else {
        LeadingFour(c, s);
      }
    }
  }

  /** Decoding undoes encoding, for every string. */
  lemma {:induction false} DecodeEncode(s: string)
    ensures Decode(Encode(s)) == Some(s)
    decreases |s|
  {
    if |s| > 0 {
      var e := EncodeChar(s[0]);
      var t := Encode(s[1..]);
      LeadingOfEncodeChar(s[0], t);
      assert (e + t)[|e|..] == t;
      DecodeEncode(s[1..]);
      assert [s[0]] + s[1..] == s;
    }
  }
}
