/**
 * `urllib.parse.quote(q)` as `extended_search` calls it (default `safe="/"`): the string is
 * encoded as UTF-8 (RFC 3629) and every byte outside the always-safe set (ASCII letters,
 * digits and `_.-~`) and `/` becomes `%XX` with upper-case hex digits, the percent-encoding
 * of section 2.1 of RFC 3986.
 */
module PercentEncoding {
  import opened Wrappers

  newtype byte = x: int | 0 <= x < 256

  /** The UTF-8 bytes of one Unicode scalar value. */
  function EncodeChar(c: char): (bs: seq<byte>)
    ensures 1 <= |bs| <= 4
    ensures (c as int < 0x80) <==> |bs| == 1
  {
    var n := c as int;
    if n < 0x80 then [n as byte]
    else if n < 0x800 then [(0xC0 + n / 64) as byte, (0x80 + n % 64) as byte]
    else if n < 0x1_0000 then [(0xE0 + n / 4096) as byte, (0x80 + (n / 64) % 64) as byte, (0x80 + n % 64) as byte]
    else
      assert n <= 0x10_FFFF;
      [(0xF0 + n / 262144) as byte, (0x80 + (n / 4096) % 64) as byte, (0x80 + (n / 64) % 64) as byte, (0x80 + n % 64) as byte]
  }

  /** `s.encode("utf-8")`. */
  function Utf8(s: string): (bs: seq<byte>)
    ensures |s| <= |bs| <= 4 * |s|
  {
    if s == [] then [] else EncodeChar(s[0]) + Utf8(s[1..])
  }

  // ---------------------------------------------------------------- decoding UTF-8

  /** The length of a UTF-8 sequence, read from its lead byte. */
  function LeadLength(b: byte): nat
  {
    if b < 0x80 then 1 else if b < 0xE0 then 2 else if b < 0xF0 then 3 else 4
  }

  /** The code point a 1- to 4-byte UTF-8 sequence stands for. */
  function CodePoint(bs: seq<byte>): int
    requires 1 <= |bs| <= 4
  {
    if |bs| == 1 then bs[0] as int
    else if |bs| == 2 then (bs[0] as int - 0xC0) * 64 + (bs[1] as int - 0x80)
    else if |bs| == 3 then (bs[0] as int - 0xE0) * 4096 + (bs[1] as int - 0x80) * 64 + (bs[2] as int - 0x80)
    else (bs[0] as int - 0xF0) * 262144 + (bs[1] as int - 0x80) * 4096 + (bs[2] as int - 0x80) * 64 + (bs[3] as int - 0x80)
  }

  /** The lead byte of a character's encoding gives its length, and the bytes give back the character. */
  lemma EncodeCharDecodes(c: char)
    ensures LeadLength(EncodeChar(c)[0]) == |EncodeChar(c)|
    ensures CodePoint(EncodeChar(c)) == c as int
  {
    var n := c as int;
    if n < 0x80 {
    } else if n < 0x800 {
      assert n == (n / 64) * 64 + n % 64;
    } else if n < 0x1_0000 {
      assert n / 64 == (n / 4096) * 64 + (n / 64) % 64;
      assert n == (n / 64) * 64 + n % 64;
    } else {
      assert n / 4096 == (n / 262144) * 64 + (n / 4096) % 64;
      assert n / 64 == (n / 4096) * 64 + (n / 64) % 64;
      assert n == (n / 64) * 64 + n % 64;
    }
  }

  /**
   * `s.encode("utf-8")` is injective: the encoding is prefix-free, so two strings with the same
   * bytes are the same string.
   */
  lemma {:induction false} Utf8Injective(a: string, b: string)
    requires Utf8(a) == Utf8(b)
    ensures a == b
  {
    if a != [] && b != [] {
      var ea, eb := EncodeChar(a[0]), EncodeChar(b[0]);
      assert Utf8(a) == ea + Utf8(a[1..]) && Utf8(b) == eb + Utf8(b[1..]);
      EncodeCharDecodes(a[0]);
      EncodeCharDecodes(b[0]);
      assert ea[0] == Utf8(a)[0] == eb[0];
      assert ea == Utf8(a)[..|ea|] == eb;
      assert a[0] as int == b[0] as int;
      assert Utf8(a[1..]) == Utf8(a)[|ea|..] == Utf8(b[1..]);
      Utf8Injective(a[1..], b[1..]);
      assert a == [a[0]] + a[1..] && b == [b[0]] + b[1..];
    }
  }

  /** The characters `quote` never encodes: its always-safe set plus the default `safe="/"`. */
  predicate IsSafeChar(c: char)
  {
    ('A' <= c <= 'Z') || ('a' <= c <= 'z') || ('0' <= c <= '9') || c == '_' || c == '.' || c == '-' || c == '~' || c == '/'
  }

  predicate IsSafeByte(b: byte)
  {
    IsSafeChar((b as int) as char)
  }

  const HexDigits: string := "0123456789ABCDEF"

  /** `%XX` for a byte, or the byte's own character when it is safe. */
  function EncodeByte(b: byte): (r: string)
  {
    if IsSafeByte(b) then [(b as int) as char]
    else ['%', HexDigits[b as int / 16], HexDigits[b as int % 16]]
  }

  function PercentEncode(bs: seq<byte>): (r: string)
    ensures |bs| <= |r| <= 3 * |bs|
  {
    if bs == [] then "" else EncodeByte(bs[0]) + PercentEncode(bs[1..])
  }

  /** `quote(s)`. */
  function Quote(s: string): (r: string)
    ensures |s| <= |r| <= 12 * |s|
  {
    PercentEncode(Utf8(s))
  }

  /** The value of a hexadecimal digit (either case), or -1. */
  function HexValue(c: char): (v: int)
    ensures -1 <= v < 16
  {
    if '0' <= c <= '9' then c as int - '0' as int
    else if 'A' <= c <= 'F' then c as int - 'A' as int + 10
    else if 'a' <= c <= 'f' then c as int - 'a' as int + 10
    else -1
  }

  /** The inverse of the encoding: `%XX` gives a byte, a safe character its own byte, anything else fails. */
  function PercentDecode(s: string): Option<seq<byte>>
    decreases |s|
  {
    if s == [] then Some([])
    else if s[0] == '%' then
      if |s| >= 3 && HexValue(s[1]) >= 0 && HexValue(s[2]) >= 0 then
        match PercentDecode(s[3..])
        case Some(rest) => Some([(HexValue(s[1]) * 16 + HexValue(s[2])) as byte] + rest)
        case None => None
      else None
    else if IsSafeChar(s[0]) then
      match PercentDecode(s[1..])
      case Some(rest) => Some([(s[0] as int) as byte] + rest)
      case None => None
    else None
  }

  lemma HexDigitsValue(n: int)
    requires 0 <= n < 16
    ensures HexValue(HexDigits[n]) == n
  {
  }

  lemma {:induction false} DecodeEncodeByte(b: byte, rest: string, tail: seq<byte>)
    requires PercentDecode(rest) == Some(tail)
    ensures PercentDecode(EncodeByte(b) + rest) == Some([b] + tail)
  {
    var s := EncodeByte(b) + rest;
    if IsSafeByte(b) {
      assert s[0] == (b as int) as char && s[1..] == rest;
    } else {
      HexDigitsValue(b as int / 16);
      HexDigitsValue(b as int % 16);
      assert s[0] == '%' && s[3..] == rest;
      assert s[1] == HexDigits[b as int / 16] && s[2] == HexDigits[b as int % 16];
    }
  }

  /** Decoding an encoding gives back the bytes. */
  lemma {:induction false} DecodeEncode(bs: seq<byte>)
    ensures PercentDecode(PercentEncode(bs)) == Some(bs)
  {
    if bs != [] {
      DecodeEncode(bs[1..]);
      DecodeEncodeByte(bs[0], PercentEncode(bs[1..]), bs[1..]);
      assert [bs[0]] + bs[1..] == bs;
    }
  }

  /** q's UTF-8 bytes can be recovered from what is sent: they are the percent-decoding of `quote(q)`. */
  lemma QuoteRecoverable(s: string)
    ensures PercentDecode(Quote(s)) == Some(Utf8(s))
  {
    DecodeEncode(Utf8(s));
  }

  /** Different queries are sent as different strings: q itself can be recovered from `quote(q)`. */
  lemma QuoteInjective(a: string, b: string)
    requires Quote(a) == Quote(b)
    ensures a == b
  {
    QuoteRecoverable(a);
    QuoteRecoverable(b);
    Utf8Injective(a, b);
  }

  /** Every character of an encoding is a safe character, `%` or an upper-case hex digit. */
  lemma {:induction false} EncodeAlphabet(bs: seq<byte>)
    ensures forall k :: 0 <= k < |PercentEncode(bs)| ==>
      var c := PercentEncode(bs)[k]; IsSafeChar(c) || c == '%' || c in HexDigits
  {
    if bs != [] {
      EncodeAlphabet(bs[1..]);
      var head := EncodeByte(bs[0]);
      var s := PercentEncode(bs);
      assert s == head + PercentEncode(bs[1..]);
      forall k | 0 <= k < |s| ensures IsSafeChar(s[k]) || s[k] == '%' || s[k] in HexDigits {
        if k >= |head| {
          assert s[k] == PercentEncode(bs[1..])[k - |head|];
        }
      }
    }
  }

  /** A string of safe ASCII characters is sent as it is. */
  lemma {:induction false} QuoteSafeUnchanged(s: string)
    requires forall k :: 0 <= k < |s| ==> IsSafeChar(s[k])
    ensures Quote(s) == s
  {
    if s != [] {
      QuoteSafeUnchanged(s[1..]);
      assert Utf8(s) == [(s[0] as int) as byte] + Utf8(s[1..]);
      assert Utf8(s)[1..] == Utf8(s[1..]);
      assert s == [s[0]] + s[1..];
    }
  }
}
