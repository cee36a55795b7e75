/**
 * `encodeURIComponent`: every character outside the unreserved set
 * `A-Z a-z 0-9 - _ . ! ~ * ' ( )` becomes the `%XX` escapes of its UTF-8 bytes.
 */
module Url {

  predicate Unreserved(c: char) {
    || 'A' <= c <= 'Z'
    || 'a' <= c <= 'z'
    || '0' <= c <= '9'
    || c in "-_.!~*'()"
  }

  predicate IsHexDigit(c: char) {
    '0' <= c <= '9' || 'A' <= c <= 'F'
  }

  function HexDigit(d: int): (c: char)
    requires 0 <= d < 16
    ensures IsHexDigit(c)
  {
    "0123456789ABCDEF"[d]
  }

  function HexValue(c: char): (d: int)
    requires IsHexDigit(c)
    ensures 0 <= d < 16
  {
    if c <= '9' then c as int - '0' as int else c as int - 'A' as int + 10
  }

  lemma HexValueOfDigit(d: int)
    requires 0 <= d < 16
    ensures HexValue(HexDigit(d)) == d
  {
  }

  /** The UTF-8 encoding of one code point. */
  function Utf8(cp: int): (bytes: seq<int>)
    requires 0 <= cp <= 0x10FFFF
    ensures 1 <= |bytes| <= 4
    ensures forall i :: 0 <= i < |bytes| ==> 0 <= bytes[i] < 256
    ensures cp < 0x80 ==> bytes == [cp]
  {
    if cp < 0x80 then [cp]
    else if cp < 0x800 then [0xC0 + cp / 64, 0x80 + cp % 64]
    else if cp < 0x10000 then [0xE0 + cp / 4096, 0x80 + (cp / 64) % 64, 0x80 + cp % 64]
    else [0xF0 + cp / 262144, 0x80 + (cp / 4096) % 64, 0x80 + (cp / 64) % 64, 0x80 + cp % 64]
  }

  /** `%XX` for one byte. */
  function PercentByte(b: int): string
    requires 0 <= b < 256
  {
    ['%', HexDigit(b / 16), HexDigit(b % 16)]
  }

  function PercentBytes(bytes: seq<int>): string
    requires forall i :: 0 <= i < |bytes| ==> 0 <= bytes[i] < 256
  {
    if |bytes| == 0 then "" else PercentByte(bytes[0]) + PercentBytes(bytes[1..])
  }

  function EncodeChar(c: char): string {
    if Unreserved(c) then [c] else PercentBytes(Utf8(c as int))
  }

  /** `encodeURIComponent(s)`. */
  function Encode(s: string): string {
    if |s| == 0 then "" else EncodeChar(s[0]) + Encode(s[1..])
  }

  /** The characters that can appear in an encoded component. */
  predicate Safe(c: char) {
    Unreserved(c) || c == '%' || IsHexDigit(c)
  }

  predicate AllSafe(s: string) {
    forall i :: 0 <= i < |s| ==> Safe(s[i])
  }

  lemma {:induction false} PercentBytesSafe(bytes: seq<int>)
    requires forall i :: 0 <= i < |bytes| ==> 0 <= bytes[i] < 256
    ensures AllSafe(PercentBytes(bytes))
  {
    if |bytes| > 0 {
      PercentBytesSafe(bytes[1..]);
    }
  }

  lemma AllSafeConcat(a: string, b: string)
    requires AllSafe(a) && AllSafe(b)
    ensures AllSafe(a + b)
  {
    assert forall i :: 0 <= i < |a + b| ==> (a + b)[i] == if i < |a| then a[i] else b[i - |a|];
  }

  /** An encoded component uses only unreserved characters, `%` and hex digits. */
  lemma {:induction false} EncodeSafe(s: string)
    ensures AllSafe(Encode(s))
  {
    if |s| > 0 {
      if !Unreserved(s[0]) {
        PercentBytesSafe(Utf8(s[0] as int));
      }
      EncodeSafe(s[1..]);
      AllSafeConcat(EncodeChar(s[0]), Encode(s[1..]));
    }
  }

  /**
   * An encoded component holds no `&`, `=`, `?`, `#` or `/`, so placing it
   * after `symbol=` can neither add nor override a query parameter.
   */
  lemma EncodeHasNoDelimiters(s: string)
    ensures '&' !in Encode(s) && '=' !in Encode(s) && '#' !in Encode(s)
    ensures '?' !in Encode(s) && '/' !in Encode(s)
  {
    EncodeSafe(s);
    var e := Encode(s);
    forall i | 0 <= i < |e|
      ensures e[i] != '&' && e[i] != '=' && e[i] != '#' && e[i] != '?' && e[i] != '/'
    {
      SafeIsNotDelimiter(e[i]);
    }
  }

  lemma SafeIsNotDelimiter(c: char)
    requires Safe(c)
    ensures c != '&' && c != '=' && c != '#' && c != '?' && c != '/'
  {
  }

  /** A component made only of unreserved characters is left as it is. */
  lemma {:induction false} EncodeUnreservedIdentity(s: string)
    requires forall i :: 0 <= i < |s| ==> Unreserved(s[i])
    ensures Encode(s) == s
  {
    if |s| > 0 {
      EncodeUnreservedIdentity(s[1..]);
      assert [s[0]] + s[1..] == s;
    }
  }

  /** `decodeURIComponent` restricted to single-byte (ASCII) escapes. */
  function DecodeAscii(s: string): string
  {
    if |s| >= 3 && s[0] == '%' && IsHexDigit(s[1]) && IsHexDigit(s[2]) && HexValue(s[1]) < 8 then
      [(HexValue(s[1]) * 16 + HexValue(s[2])) as char] + DecodeAscii(s[3..])
    else if |s| > 0 then [s[0]] + DecodeAscii(s[1..])
    else ""
  }

  /** An escape of an ASCII byte decodes to that byte's character. */
  lemma DecodePercentByte(b: int, rest: string)
    requires 0 <= b < 0x80
    ensures DecodeAscii(PercentByte(b) + rest) == [b as char] + DecodeAscii(rest)
  {
    var e := PercentByte(b);
    HexValueOfDigit(b / 16);
    HexValueOfDigit(b % 16);
    assert (e + rest)[..3] == e && (e + rest)[3..] == rest;
    assert HexValue(e[1]) * 16 + HexValue(e[2]) == b;
  }

  /** An unreserved character decodes to itself. */
  lemma DecodeUnreserved(c: char, rest: string)
    requires Unreserved(c)
    ensures DecodeAscii([c] + rest) == [c] + DecodeAscii(rest)
  {
    assert ([c] + rest)[1..] == rest;
  }

  /** Decoding undoes encoding for ASCII text. */
  lemma {:induction false} DecodeEncodeAscii(s: string)
    requires forall i :: 0 <= i < |s| ==> s[i] as int < 0x80
    ensures DecodeAscii(Encode(s)) == s
  {
    if |s| > 0 {
      var c := s[0];
      DecodeEncodeAscii(s[1..]);
      if Unreserved(c) {
        DecodeUnreserved(c, Encode(s[1..]));
      } else {
        var b := c as int;
        assert Utf8(b) == [b];
        assert PercentBytes([b]) == PercentByte(b) + "";
        assert EncodeChar(c) == PercentByte(b);
        DecodePercentByte(b, Encode(s[1..]));
        assert b as char == c;
      }
      assert [c] + s[1..] == s;
    }
  }
}
