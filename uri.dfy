/** `encodeURIComponent` as ECMAScript defines it, and the percent-decoding that a query
    parameter reader (`URLSearchParams.get`) applies, restricted to escapes of ASCII
    characters. Used for the login redirect `/auth/sso-mock?email=...`. */
module Uri {

  import opened Common

  /** The characters `encodeURIComponent` leaves alone. */
  predicate Unreserved(c: char) {
    ('A' <= c <= 'Z') || ('a' <= c <= 'z') || ('0' <= c <= '9') || c in "-_.!~*'()"
  }

  /** The UTF-8 bytes of one character (Dafny characters are Unicode scalar values, so
      there are no lone surrogates to reject). */
  function Utf8(c: char): (bytes: seq<nat>)
    ensures 1 <= |bytes| <= 4
    ensures forall k :: 0 <= k < |bytes| ==> bytes[k] < 256
    ensures (c as int < 0x80) <==> bytes == [c as int]
  {
    var n := c as int;
    if n < 0x80 then [n]
    else if n < 0x800 then [0xC0 + n / 64, 0x80 + n % 64]
    else if n < 0x10000 then [0xE0 + n / 4096, 0x80 + (n / 64) % 64, 0x80 + n % 64]
    else [0xF0 + n / 262144, 0x80 + (n / 4096) % 64, 0x80 + (n / 64) % 64, 0x80 + n % 64]
  }

  const HexDigits := "0123456789ABCDEF"

  /** Text made only of unreserved characters and `%`: it cannot end a query value or
      start another (no `&`, `=`, `#`, `+` or space). */
  predicate QuerySafe(s: string) {
    forall k :: 0 <= k < |s| ==> Unreserved(s[k]) || s[k] == '%'
  }

  /** `%` followed by two upper-case hex digits. */
  function PercentByte(b: nat): (escape: string)
    requires b < 256
    ensures |escape| == 3 && escape[0] == '%' && QuerySafe(escape)
    ensures HexValue(escape[1]) == Some(b / 16) && HexValue(escape[2]) == Some(b % 16)
  {
    HexRoundTrip(b / 16);
    HexRoundTrip(b % 16);
    ['%', HexDigits[b / 16], HexDigits[b % 16]]
  }

  function PercentBytes(bytes: seq<nat>): (escapes: string)
    requires forall k :: 0 <= k < |bytes| ==> bytes[k] < 256
    ensures |escapes| == 3 * |bytes| && QuerySafe(escapes)
    ensures forall k :: 0 <= k < |bytes| ==> escapes[3 * k..3 * k + 3] == PercentByte(bytes[k])
  {
    if |bytes| == 0 then ""
    else
      var head := PercentByte(bytes[0]);
      var rest := PercentBytes(bytes[1..]);
      PercentBytesBlocks(bytes, head, rest);
      head + rest
  }

  /** The blocks of `head + rest` are `head`, then the blocks of `rest`. */
  lemma PercentBytesBlocks(bytes: seq<nat>, head: string, rest: string)
    requires |bytes| > 0 && forall k :: 0 <= k < |bytes| ==> bytes[k] < 256
    requires head == PercentByte(bytes[0]) && |rest| == 3 * (|bytes| - 1)
    requires forall k :: 0 <= k < |bytes| - 1 ==> rest[3 * k..3 * k + 3] == PercentByte(bytes[1..][k])
    ensures forall k :: 0 <= k < |bytes| ==> (head + rest)[3 * k..3 * k + 3] == PercentByte(bytes[k])
  {
    forall k | 0 <= k < |bytes| ensures (head + rest)[3 * k..3 * k + 3] == PercentByte(bytes[k]) {
      if k > 0 {
        var j := k - 1;
        assert 3 * k == 3 * j + 3;
        assert (head + rest)[3 * k..3 * k + 3] == rest[3 * j..3 * j + 3];
        assert bytes[1..][j] == bytes[k];
      }
    }
  }

  function EncodeChar(c: char): (encoded: string)
    ensures 1 <= |encoded| && QuerySafe(encoded)
    ensures Unreserved(c) <==> encoded == [c]
    ensures !Unreserved(c) ==> encoded[0] == '%' && |encoded| == 3 * |Utf8(c)|
    ensures !Unreserved(c) ==>
              forall k :: 0 <= k < |Utf8(c)| ==> encoded[3 * k..3 * k + 3] == PercentByte(Utf8(c)[k])
  {
    if Unreserved(c) then [c] else PercentBytes(Utf8(c))
  }

  /** `encodeURIComponent(s)`. */
  function EncodeURIComponent(s: string): (encoded: string)
    ensures |s| <= |encoded| && QuerySafe(encoded)
  {
    if |s| == 0 then "" else EncodeChar(s[0]) + EncodeURIComponent(s[1..])
  }

  /** Text made only of unreserved characters passes through unchanged. */
  lemma {:induction false} UnreservedUnchanged(s: string)
    requires forall k :: 0 <= k < |s| ==> Unreserved(s[k])
    ensures EncodeURIComponent(s) == s
    decreases |s|
  {
    if |s| > 0 {
      UnreservedUnchanged(s[1..]);
      assert s == [s[0]] + s[1..];
    }
  }

  /** The value of one hex digit, either case. */
  function HexValue(c: char): Option<nat> {
    if '0' <= c <= '9' then Some(c as int - '0' as int)
    else if 'A' <= c <= 'F' then Some(c as int - 'A' as int + 10)
    else if 'a' <= c <= 'f' then Some(c as int - 'a' as int + 10)
    else None
  }

  /** Query-value decoding: `+` is a space, `%HH` is the byte HH, any other character
      stands for itself and a `%` not followed by two hex digits is kept literally.
      Escapes of bytes 0x80 and above start a multi-byte UTF-8 sequence, which this model
      does not decode: the result is then `None`. */
  function DecodeQueryValue(s: string): (decoded: Option<string>)
    ensures decoded.Some? ==> |decoded.value| <= |s|
    ensures '%' !in s && '+' !in s ==> decoded == Some(s)
    decreases |s|
  {
    if |s| == 0 then Some("")
    else if s[0] == '%' && |s| >= 3 && HexValue(s[1]).Some? && HexValue(s[2]).Some? then
      var b := HexValue(s[1]).value * 16 + HexValue(s[2]).value;
      if b >= 0x80 then None
      else
        match DecodeQueryValue(s[3..])
        case None => None
        case Some(rest) => Some([b as char] + rest)
    else
      assert s == [s[0]] + s[1..];
      match DecodeQueryValue(s[1..])
      case None => None
      case Some(rest) => Some([if s[0] == '+' then ' ' else s[0]] + rest)
  }

  predicate IsAscii(s: string) {
    forall k :: 0 <= k < |s| ==> s[k] as int < 0x80
  }

  lemma HexRoundTrip(d: nat)
    requires d < 16
    ensures HexValue(HexDigits[d]) == Some(d)
  {
  }

  /** Decoding the escape of one ASCII character gives the character back. */
  lemma DecodeEncodedChar(c: char, rest: string, tail: string)
    requires c as int < 0x80
    requires DecodeQueryValue(rest) == Some(tail)
    ensures DecodeQueryValue(EncodeChar(c) + rest) == Some([c] + tail)
  {
    if Unreserved(c) {
      assert ([c] + rest)[1..] == rest;
    } else {
      DecodeEscapedChar(c, rest, tail);
    }
  }

  /** The `%HH` escape of a reserved ASCII character decodes to that character. */
  lemma DecodeEscapedChar(c: char, rest: string, tail: string)
    requires c as int < 0x80 && !Unreserved(c)
    requires DecodeQueryValue(rest) == Some(tail)
    ensures DecodeQueryValue(EncodeChar(c) + rest) == Some([c] + tail)
  {
    var n := c as int;
    assert Utf8(c) == [n];
    var escape := EncodeChar(c);
    assert escape == escape[0..3] == PercentByte(n);
    DecodePercentByte(n, rest, tail);
  }

  /** `%HH` of a byte below 0x80 decodes to the character with that code. */
  lemma DecodePercentByte(n: nat, rest: string, tail: string)
    requires n < 0x80
    requires DecodeQueryValue(rest) == Some(tail)
    ensures DecodeQueryValue(PercentByte(n) + rest) == Some([n as char] + tail)
  {
    var s := PercentByte(n) + rest;
    assert s[0] == '%' && HexValue(s[1]) == Some(n / 16) && HexValue(s[2]) == Some(n % 16);
    assert (n / 16) * 16 + n % 16 == n;
    assert s[3..] == rest;
  }

  lemma AsciiTail(s: string)
    requires |s| > 0 && IsAscii(s)
    ensures s[0] as int < 0x80 && IsAscii(s[1..])
  {
    assert forall k :: 0 <= k < |s| - 1 ==> s[1..][k] == s[k + 1];
  }

  /** For ASCII text, a query reader recovers exactly what `encodeURIComponent` encoded. */
  lemma {:induction false} DecodeEncode(s: string)
    requires IsAscii(s)
    ensures DecodeQueryValue(EncodeURIComponent(s)) == Some(s)
    decreases |s|
  {
    if |s| > 0 {
      var tail := s[1..];
      AsciiTail(s);
      DecodeEncode(tail);
      DecodeEncodedChar(s[0], EncodeURIComponent(tail), tail);
      assert s == [s[0]] + tail;
    }
  }
}
