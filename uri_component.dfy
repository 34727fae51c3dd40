/**
 * `encodeURIComponent` as ECMAScript defines it: every character outside
 * the unreserved set becomes the `%XX` escapes of its UTF-8 bytes (upper-case
 * hex), and `decodeURIComponent`, its inverse, reading such escapes back.
 * Characters are Unicode scalar values, so the lone surrogates on which
 * `encodeURIComponent` throws cannot occur.
 */
module UriComponent {
  import opened Common

  /** The characters `encodeURIComponent` leaves as they are: ASCII letters,
      digits and `-_.!~*'()`. */
  predicate Unreserved(c: char) {
    'A' <= c <= 'Z' || 'a' <= c <= 'z' || '0' <= c <= '9' ||
    c == '-' || c == '_' || c == '.' || c == '!' || c == '~' || c == '*' ||
    c == '\'' || c == '(' || c == ')'
  }

  /** The value of a hex digit of either case, or -1. */
  function HexValue(c: char): (v: int)
    ensures -1 <= v < 16
  {
    if '0' <= c <= '9' then c as int - '0' as int
    else if 'A' <= c <= 'F' then c as int - 'A' as int + 10
    else if 'a' <= c <= 'f' then c as int - 'a' as int + 10
    else -1
  }

  /** The upper-case hex digit of `n`. */
  function HexDigit(n: int): (c: char)
    requires 0 <= n < 16
    ensures Unreserved(c) && HexValue(c) == n
  {
    if n < 10 then (n + '0' as int) as char else (n - 10 + 'A' as int) as char
  }

  /** One `%XX` escape. */
  function PercentByte(b: int): (r: string)
    requires 0 <= b < 256
    ensures |r| == 3
    ensures forall i :: 0 <= i < 3 ==> Unreserved(r[i]) || r[i] == '%'
  {
    ['%', HexDigit(b / 16), HexDigit(b % 16)]
  }

  /** The UTF-8 bytes of code point `n`: six bits per continuation byte,
      the rest in the lead byte. */
  function Utf8(n: int): (bytes: seq<int>)
    requires 0 <= n < 0x11_0000
    ensures 1 <= |bytes| <= 4 && IsBytes(bytes)
  {
    var m := n / 64;
    var h := m / 64;
    if n < 0x80 then [n]
    else if n < 0x800 then [0xC0 + m, 0x80 + n % 64]
    else if n < 0x1_0000 then [0xE0 + h, 0x80 + m % 64, 0x80 + n % 64]
    else [0xF0 + h / 64, 0x80 + h % 64, 0x80 + m % 64, 0x80 + n % 64]
  }

  predicate IsBytes(s: seq<int>) {
    forall i :: 0 <= i < |s| ==> 0 <= s[i] < 256
  }

  /** `%XX` escapes of a byte sequence. */
  function EscapeBytes(bytes: seq<int>): (r: string)
    requires IsBytes(bytes)
    ensures |r| == 3 * |bytes|
    ensures forall i :: 0 <= i < |r| ==> Unreserved(r[i]) || r[i] == '%'
  {
    if bytes == [] then [] else PercentByte(bytes[0]) + EscapeBytes(bytes[1..])
  }

  /** The escapes of the UTF-8 bytes of code point `n`. */
  function EscapeUtf8(n: int): (r: string)
    requires 0 <= n < 0x11_0000
    ensures 3 <= |r| <= 12
    ensures forall i :: 0 <= i < |r| ==> Unreserved(r[i]) || r[i] == '%'
  {
    EscapeBytes(Utf8(n))
  }

  function EncodeChar(c: char): (r: string)
    ensures r != []
    ensures forall i :: 0 <= i < |r| ==> Unreserved(r[i]) || r[i] == '%'
  {
    if Unreserved(c) then [c] else EscapeUtf8(c as int)
  }

  /** `encodeURIComponent`: the result holds only unreserved characters and
      `%`, so no `&`, `#`, `=` or space can cut a query parameter short. */
  function EncodeUriComponent(s: string): (r: string)
    ensures |r| >= |s|
    ensures forall i :: 0 <= i < |r| ==> Unreserved(r[i]) || r[i] == '%'
  {
    if s == [] then [] else EncodeChar(s[0]) + EncodeUriComponent(s[1..])
  }

  // ---------------------------------------------------------------------
  // decodeURIComponent

  /** The byte a `%XX` escape at the head of `s` stands for, or -1. */
  function HeadByte(s: string): (b: int)
    ensures b >= 0 ==> |s| >= 3 && b < 256
  {
    if |s| >= 3 && s[0] == '%' && HexValue(s[1]) >= 0 && HexValue(s[2]) >= 0
    then 16 * HexValue(s[1]) + HexValue(s[2])
    else -1
  }

  predicate IsContinuation(b: int) {
    0x80 <= b < 0xC0
  }

  /** The number of bytes a UTF-8 sequence with lead byte `b0` has, or 0
      when `b0` cannot start one. */
  function Utf8Length(b0: int): (n: nat)
    ensures n <= 4
  {
    if 0 <= b0 < 0x80 then 1
    else if 0xC0 <= b0 < 0xE0 then 2
    else if 0xE0 <= b0 < 0xF0 then 3
    else if 0xF0 <= b0 < 0xF8 then 4
    else 0
  }

  /** The character for code point `n`, when `n` is a scalar value of at
      least `least` (no overlong form). */
  function Scalar(n: int, least: int): Option<char> {
    if 0 <= least <= n < 0x11_0000 && !(0xD800 <= n < 0xE000) then Some(n as char) else None
  }

  /** The character a whole UTF-8 byte sequence stands for. */
  function Utf8Value(b: seq<int>): Option<char> {
    if |b| == 0 || |b| != Utf8Length(b[0]) then None
    else if |b| == 1 then Scalar(b[0], 0)
    else if !IsContinuation(b[1]) then None
    else if |b| == 2 then Scalar((b[0] - 0xC0) * 64 + (b[1] - 0x80), 0x80)
    else if !IsContinuation(b[2]) then None
    else if |b| == 3 then Scalar(((b[0] - 0xE0) * 64 + (b[1] - 0x80)) * 64 + (b[2] - 0x80), 0x800)
    else if !IsContinuation(b[3]) then None
    else Scalar((((b[0] - 0xF0) * 64 + (b[1] - 0x80)) * 64 + (b[2] - 0x80)) * 64 + (b[3] - 0x80), 0x1_0000)
  }

  /** The bytes of the `k` escapes at the head of `s`, or None when there
      are fewer. */
  function ReadBytes(s: string, k: nat): (r: Option<seq<int>>)
    ensures r.Some? ==> |r.value| == k && 3 * k <= |s|
  {
    if k == 0 then Some([])
    else
      var b := HeadByte(s);
      if b < 0 then None
      else match ReadBytes(s[3..], k - 1)
        case None => None
        case Some(more) => Some([b] + more)
  }

  /** Reads the UTF-8 escape sequence at the head of `s`: the character and
      the number of characters read, or None for a malformed sequence. */
  function DecodeEscape(s: string): (r: Option<(char, nat)>)
    ensures r.Some? ==> 3 <= r.value.1 <= |s|
  {
    var k := Utf8Length(HeadByte(s));
    if k == 0 then None
    else match ReadBytes(s, k)
      case None => None
      case Some(bytes) =>
        match Utf8Value(bytes)
        case None => None
        case Some(c) => Some((c, 3 * k))
  }

  /** `decodeURIComponent`: None where it throws `URIError`. */
  function DecodeUriComponent(s: string): Option<string>
    decreases |s|
  {
    if s == [] then Some([])
    else if s[0] != '%' then
      match DecodeUriComponent(s[1..])
      case None => None
      case Some(t) => Some([s[0]] + t)
    else
      match DecodeEscape(s)
      case None => None
      case Some((c, used)) =>
        match DecodeUriComponent(s[used..])
        case None => None
        case Some(t) => Some([c] + t)
  }

  // ---------------------------------------------------------------------
  // The round trip

  lemma HeadBytePercent(b: int, t: string)
    requires 0 <= b < 256
    ensures HeadByte(PercentByte(b) + t) == b
    ensures (PercentByte(b) + t)[3..] == t
  {
    var s := PercentByte(b) + t;
    assert s[0] == '%' && s[1] == HexDigit(b / 16) && s[2] == HexDigit(b % 16);
  }

  /** Reading the head escape of escaped bytes gives the first byte and
      leaves the escapes of the others. */
  lemma HeadByteEscapes(bytes: seq<int>, rest: string)
    requires bytes != [] && IsBytes(bytes)
    ensures HeadByte(EscapeBytes(bytes) + rest) == bytes[0]
    ensures (EscapeBytes(bytes) + rest)[3..] == EscapeBytes(bytes[1..]) + rest
  {
    assert EscapeBytes(bytes) + rest == PercentByte(bytes[0]) + (EscapeBytes(bytes[1..]) + rest);
    HeadBytePercent(bytes[0], EscapeBytes(bytes[1..]) + rest);
  }

  /** The escapes of a byte sequence read back as that sequence. */
  lemma {:induction false} ReadBytesEscapes(bytes: seq<int>, rest: string)
    requires IsBytes(bytes)
    ensures ReadBytes(EscapeBytes(bytes) + rest, |bytes|) == Some(bytes)
  {
    if bytes != [] {
      HeadByteEscapes(bytes, rest);
      ReadBytesEscapes(bytes[1..], rest);
      assert [bytes[0]] + bytes[1..] == bytes;
    }
  }

  /** The bytes of a code point read back as the character, and the lead
      byte announces their number. */
  lemma Utf8RoundTrip(c: char)
    ensures Utf8Length(Utf8(c as int)[0]) == |Utf8(c as int)|
    ensures Utf8Value(Utf8(c as int)) == Some(c)
  {
    var n := c as int;
    var m := n / 64;
    var h := m / 64;
    assert n == 64 * m + n % 64;
    assert m == 64 * h + m % 64;
    assert h == 64 * (h / 64) + h % 64;
  }

  /** Decoding the escapes of one character gives the character back and
      consumes exactly the escapes. */
  lemma DecodeEscapeUtf8(c: char, rest: string)
    ensures DecodeEscape(EscapeUtf8(c as int) + rest) == Some((c, |EscapeUtf8(c as int)|))
  {
    var b := Utf8(c as int);
    HeadByteEscapes(b, rest);
    Utf8RoundTrip(c);
    ReadBytesEscapes(b, rest);
  }

  /** `decodeURIComponent(encodeURIComponent(s)) == s`. */
  lemma {:induction false} EncodeDecodeRoundTrip(s: string)
    ensures DecodeUriComponent(EncodeUriComponent(s)) == Some(s)
  {
    if s != [] {
      var c, rest := s[0], EncodeUriComponent(s[1..]);
      var e := EncodeUriComponent(s);
      assert e == EncodeChar(c) + rest;
      EncodeDecodeRoundTrip(s[1..]);
      if Unreserved(c) {
        assert e[0] == c && e[1..] == rest;
        assert c != '%';
        assert DecodeUriComponent(e) == Some([c] + s[1..]);
        assert [c] + s[1..] == s;
      } else {
        var esc := EscapeUtf8(c as int);
        assert e == esc + rest;
        DecodeEscapeUtf8(c, rest);
        var used: nat := |esc|;
        assert DecodeEscape(e) == Some((c, used));
        assert e[0] == '%';
        assert e[used..] == rest;
        assert DecodeUriComponent(e) == Some([c] + s[1..]);
        assert [c] + s[1..] == s;
      }
    }
  }

  /** Distinct texts have distinct encodings. */
  lemma EncodeInjective(a: string, b: string)
    requires EncodeUriComponent(a) == EncodeUriComponent(b)
    ensures a == b
  {
    EncodeDecodeRoundTrip(a);
    EncodeDecodeRoundTrip(b);
  }
}
