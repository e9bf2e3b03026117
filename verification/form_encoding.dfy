/**
 * Form encoding of one query value, as Python's `urllib.parse.quote_plus`
 * performs it for `urlencode`: the text is encoded as UTF-8; every byte that
 * is an unreserved character of section 2.3 of RFC 3986 (`A-Z a-z 0-9 - . _ ~`)
 * is kept, the space byte becomes `+`, and every other byte becomes `%XX` with
 * upper-case hexadecimal digits (section 2.1 of RFC 3986).
 *
 * The decoder is the partner that states what the encoding means: decoding
 * an encoded value gives the original text back.
 */
module FormEncoding {
  import opened Wrappers

  type Byte = b: int | 0 <= b < 256

  /** The unreserved characters of section 2.3 of RFC 3986. */
  predicate IsUnreserved(c: char)
  {
    ('A' <= c <= 'Z') || ('a' <= c <= 'z') || ('0' <= c <= '9')
    || c == '-' || c == '.' || c == '_' || c == '~'
  }

  /** Text made only of unreserved characters. */
  predicate AllUnreserved(s: string)
  {
    forall i :: 0 <= i < |s| ==> IsUnreserved(s[i])
  }

  /** The characters an encoded value is made of. */
  predicate IsFormChar(c: char)
  {
    IsUnreserved(c) || c == '+' || c == '%'
  }

  // ---------------------------------------------------------------------
  // UTF-8 (RFC 3629)

  predicate IsContinuation(b: Byte) { 0x80 <= b < 0xC0 }

  /** Code points that are characters: everything below 0x110000 except the surrogates. */
  predicate IsScalar(cp: int) { 0 <= cp < 0xD800 || 0xE000 <= cp < 0x11_0000 }

  /** The UTF-8 bytes of one character. */
  function EncodeChar(c: char): (b: seq<Byte>)
    ensures 1 <= |b| <= 4
    ensures |b| == 1 <==> c as int < 0x80
    ensures |b| == 1 ==> b[0] == c as int
  {
    var cp := c as int;
    if cp < 0x80 then [cp]
    else if cp < 0x800 then [0xC0 + cp / 64, 0x80 + cp % 64]
    else if cp < 0x1_0000 then [0xE0 + cp / 4096, 0x80 + (cp / 64) % 64, 0x80 + cp % 64]
    else [0xF0 + cp / 262144, 0x80 + (cp / 4096) % 64, 0x80 + (cp / 64) % 64, 0x80 + cp % 64]
  }

  /** `s.encode("utf-8")`. */
  function Utf8Encode(s: string): (b: seq<Byte>)
    ensures |s| <= |b| <= 4 * |s|
  {
    if |s| == 0 then [] else EncodeChar(s[0]) + Utf8Encode(s[1..])
  }

  /**
   * The character that the UTF-8 sequence at the front of `b` stands for, and
   * how many bytes it takes; None for a malformed, overlong or surrogate
   * sequence.
   */
  function DecodeChar(b: seq<Byte>): (r: Option<(char, nat)>)
    requires |b| > 0
    ensures r.Some? ==> 1 <= r.value.1 <= |b|
  {
    var b0 := b[0] as int;
    if b0 < 0x80 then Some((b0 as char, 1))
    else if b0 < 0xC0 then None
    else if b0 < 0xE0 then
      if |b| < 2 || !IsContinuation(b[1]) then None
      else
        var cp := (b0 - 0xC0) * 64 + (b[1] as int - 0x80);
        if 0x80 <= cp then Some((cp as char, 2)) else None
    else if b0 < 0xF0 then
      if |b| < 3 || !IsContinuation(b[1]) || !IsContinuation(b[2]) then None
      else
        var cp := (b0 - 0xE0) * 4096 + (b[1] as int - 0x80) * 64 + (b[2] as int - 0x80);
        if 0x800 <= cp && IsScalar(cp) then Some((cp as char, 3)) else None
    else if b0 < 0xF8 then
      if |b| < 4 || !IsContinuation(b[1]) || !IsContinuation(b[2]) || !IsContinuation(b[3]) then None
      else
        var cp := (b0 - 0xF0) * 262144 + (b[1] as int - 0x80) * 4096 + (b[2] as int - 0x80) * 64 + (b[3] as int - 0x80);
        if 0x1_0000 <= cp && IsScalar(cp) then Some((cp as char, 4)) else None
    else None
  }

  /** Strict UTF-8 decoding of a whole byte string. */
  function Utf8Decode(b: seq<Byte>): Option<string>
    decreases |b|
  {
    if |b| == 0 then Some([])
    else match DecodeChar(b)
      case None => None
      case Some((c, n)) => Prepend(c, Utf8Decode(b[n..]))
  }

  function Prepend<T>(x: T, o: Option<seq<T>>): Option<seq<T>>
  {
    match o
    case None => None
    case Some(xs) => Some([x] + xs)
  }

  lemma DecodeTwoByte(c: char, rest: seq<Byte>)
    requires 0x80 <= c as int < 0x800
    ensures DecodeChar(EncodeChar(c) + rest) == Some((c, 2))
  {
    var cp := c as int;
    var b := EncodeChar(c) + rest;
    assert b[0] as int - 0xC0 == cp / 64 && b[1] as int - 0x80 == cp % 64;
  }

  lemma DecodeThreeByte(c: char, rest: seq<Byte>)
    requires 0x800 <= c as int < 0x1_0000
    ensures DecodeChar(EncodeChar(c) + rest) == Some((c, 3))
  {
    var cp := c as int;
    var b := EncodeChar(c) + rest;
    var hi, mid, lo := cp / 4096, (cp / 64) % 64, cp % 64;
    assert b[0] as int - 0xE0 == hi && b[1] as int - 0x80 == mid && b[2] as int - 0x80 == lo;
    assert cp == hi * 4096 + mid * 64 + lo;
  }

  /** A code point above 0xFFFF is its four base-64 digits, the top one at most 4. */
  lemma FourByteDigits(cp: int)
    requires 0x1_0000 <= cp < 0x11_0000
    ensures cp / 262144 < 5
    ensures cp == (cp / 262144) * 262144 + ((cp / 4096) % 64) * 4096 + ((cp / 64) % 64) * 64 + cp % 64
  {
    var q1 := cp / 64;
    var q2 := q1 / 64;
    assert cp == q1 * 64 + cp % 64;
    assert q1 == q2 * 64 + q1 % 64;
    assert q2 == (q2 / 64) * 64 + q2 % 64;
    assert q2 == cp / 4096;
    assert q2 / 64 == cp / 262144;
  }

  lemma DecodeFourByte(c: char, rest: seq<Byte>)
    requires 0x1_0000 <= c as int
    ensures DecodeChar(EncodeChar(c) + rest) == Some((c, 4))
  {
    var cp := c as int;
    var b := EncodeChar(c) + rest;
    FourByteDigits(cp);
    var top, hi, mid, lo := cp / 262144, (cp / 4096) % 64, (cp / 64) % 64, cp % 64;
    assert b[0] as int - 0xF0 == top && b[1] as int - 0x80 == hi;
    assert b[2] as int - 0x80 == mid && b[3] as int - 0x80 == lo;
  }

  /** The UTF-8 decoder reads back exactly the character the encoder wrote, and no further. */
  lemma DecodeEncodedChar(c: char, rest: seq<Byte>)
    ensures DecodeChar(EncodeChar(c) + rest) == Some((c, |EncodeChar(c)|))
  {
    var cp := c as int;
    if cp < 0x80 {
    } else if cp < 0x800 {
      DecodeTwoByte(c, rest);
    } else if cp < 0x1_0000 {
      DecodeThreeByte(c, rest);
    } else {
      DecodeFourByte(c, rest);
    }
  }

  /** UTF-8 decoding undoes UTF-8 encoding. */
  lemma {:induction false} Utf8RoundTrip(s: string)
    ensures Utf8Decode(Utf8Encode(s)) == Some(s)
    decreases |s|
  {
    if |s| > 0 {
      var e := EncodeChar(s[0]);
      var b := Utf8Encode(s);
      DecodeEncodedChar(s[0], Utf8Encode(s[1..]));
      assert b[|e|..] == Utf8Encode(s[1..]);
      Utf8RoundTrip(s[1..]);
      assert [s[0]] + s[1..] == s;
    }
  }

  // ---------------------------------------------------------------------
  // Percent-encoding (section 2.1 of RFC 3986) with `+` for space

  function HexDigit(d: nat): (c: char)
    requires d < 16
    ensures IsUnreserved(c) && IsHexDigit(c) && HexValue(c) == d
  {
    "0123456789ABCDEF"[d]
  }

  predicate IsHexDigit(c: char)
  {
    ('0' <= c <= '9') || ('A' <= c <= 'F') || ('a' <= c <= 'f')
  }

  function HexValue(c: char): (d: nat)
    requires IsHexDigit(c)
    ensures d < 16
  {
    if '0' <= c <= '9' then c as int - '0' as int
    else if 'A' <= c <= 'F' then c as int - 'A' as int + 10
    else c as int - 'a' as int + 10
  }

  /** How `quote_plus` writes one byte of the UTF-8 text. */
  function QuoteByte(b: Byte): (r: string)
    ensures 1 <= |r| <= 3
    ensures forall i :: 0 <= i < |r| ==> IsFormChar(r[i])
  {
    if IsUnreserved(b as char) then [b as char]
    else if b == 0x20 then "+"
    else ['%', HexDigit(b / 16), HexDigit(b % 16)]
  }

  function QuoteBytes(bs: seq<Byte>): (r: string)
    ensures forall i :: 0 <= i < |r| ==> IsFormChar(r[i])
    ensures |bs| <= |r| <= 3 * |bs|
  {
    if |bs| == 0 then [] else QuoteByte(bs[0]) + QuoteBytes(bs[1..])
  }

  /**
   * `quote_plus(s)` as `urlencode` calls it.  The result is built only from
   * unreserved characters, `+` and `%`, so it never holds a space, `&`, `=`,
   * `#` or `?`, the characters that delimit a URL's query string.
   */
  function QuotePlus(s: string): (r: string)
    ensures forall i :: 0 <= i < |r| ==> IsFormChar(r[i])
    ensures ' ' !in r && '&' !in r && '=' !in r && '#' !in r && '?' !in r
    ensures |r| >= |s|
  {
    QuoteBytes(Utf8Encode(s))
  }

  /** Reverses `QuoteBytes`: `+` is a space, `%XX` a byte; anything but an unreserved character fails. */
  function UnquoteBytes(e: string): Option<seq<Byte>>
    decreases |e|
  {
    if |e| == 0 then Some([])
    else if e[0] == '+' then Prepend(0x20, UnquoteBytes(e[1..]))
    else if e[0] == '%' then
      if |e| >= 3 && IsHexDigit(e[1]) && IsHexDigit(e[2])
      then Prepend(16 * HexValue(e[1]) + HexValue(e[2]), UnquoteBytes(e[3..]))
      else None
    else if IsUnreserved(e[0]) then Prepend(e[0] as int, UnquoteBytes(e[1..]))
    else None
  }

  /** The text a form-encoded value stands for; None when it is not well formed. */
  function UnquotePlus(e: string): Option<string>
  {
    match UnquoteBytes(e)
    case None => None
    case Some(bs) => Utf8Decode(bs)
  }

  lemma UnquoteQuotedByte(b: Byte, rest: string)
    ensures UnquoteBytes(QuoteByte(b) + rest) == Prepend(b, UnquoteBytes(rest))
  {
    var e := QuoteByte(b) + rest;
    if IsUnreserved(b as char) {
      assert e[1..] == rest;
    } else if b == 0x20 {
      assert e[1..] == rest;
    } else {
      assert e[3..] == rest;
      assert 16 * (b / 16) + b % 16 == b;
    }
  }

  lemma {:induction false} UnquoteQuoteBytes(bs: seq<Byte>)
    ensures UnquoteBytes(QuoteBytes(bs)) == Some(bs)
    decreases |bs|
  {
    if |bs| > 0 {
      UnquoteQuotedByte(bs[0], QuoteBytes(bs[1..]));
      UnquoteQuoteBytes(bs[1..]);
      assert [bs[0]] + bs[1..] == bs;
    }
  }

  /** Decoding a form-encoded value returns the original text. */
  lemma QuotePlusRoundTrip(s: string)
    ensures UnquotePlus(QuotePlus(s)) == Some(s)
  {
    UnquoteQuoteBytes(Utf8Encode(s));
    Utf8RoundTrip(s);
  }

  /** A value made only of unreserved characters is written unchanged (`--Select--`, dates, numbers). */
  lemma {:induction false} QuotePlusUnreserved(s: string)
    requires AllUnreserved(s)
    ensures QuotePlus(s) == s
    decreases |s|
  {
    if |s| > 0 {
      QuotePlusUnreserved(s[1..]);
      assert Utf8Encode(s) == [s[0] as int] + Utf8Encode(s[1..]);
      assert Utf8Encode(s)[1..] == Utf8Encode(s[1..]);
      assert [s[0]] + s[1..] == s;
    }
  }

  /** Form encoding works character by character. */
  lemma QuotePlusAppend(a: string, b: string)
    ensures QuotePlus(a + b) == QuotePlus(a) + QuotePlus(b)
  {
    Utf8EncodeAppend(a, b);
    QuoteBytesAppend(Utf8Encode(a), Utf8Encode(b));
  }

  lemma QuotePlusAscii(c: char)
    requires c as int < 0x80
    ensures QuotePlus([c]) == QuoteByte(c as int)
  {
    assert Utf8Encode([c]) == [c as int] by {
      assert [c][1..] == [];
    }
  }

  /** Reserved symbols are percent-escaped with upper-case hexadecimal digits. */
  lemma SymbolExampleAt()
    ensures QuotePlus("@#$") == "%40%23%24"
  {
  }

  lemma SymbolExampleStar()
    ensures QuotePlus("*&^") == "%2A%26%5E"
  {
  }

  /** A space between two unreserved words becomes `+`. */
  lemma SpaceBecomesPlus(a: string, b: string)
    requires forall i :: 0 <= i < |a| ==> IsUnreserved(a[i])
    requires forall i :: 0 <= i < |b| ==> IsUnreserved(b[i])
    ensures QuotePlus(a + " " + b) == a + "+" + b
  {
    QuotePlusUnreserved(a);
    QuotePlusUnreserved(b);
    QuotePlusAscii(' ');
    QuotePlusAppend(a + " ", b);
    QuotePlusAppend(a, " ");
  }

  /** A character outside ASCII is written as the percent-escapes of its UTF-8 bytes. */
  lemma NonAsciiExample()
    ensures QuotePlus("\U{E9}") == "%C3%A9"
  {
    var bytes: seq<Byte> := [0xC3, 0xA9];
    assert EncodeChar('\U{E9}') == bytes;
    assert Utf8Encode("\U{E9}") == bytes;
    assert QuoteByte(0xC3) == "%C3" && QuoteByte(0xA9) == "%A9";
    assert QuoteBytes(bytes[1..]) == "%A9";
  }

  lemma {:induction false} Utf8EncodeAppend(a: string, b: string)
    ensures Utf8Encode(a + b) == Utf8Encode(a) + Utf8Encode(b)
    decreases |a|
  {
    if |a| > 0 {
      assert (a + b)[0] == a[0] && (a + b)[1..] == a[1..] + b;
      Utf8EncodeAppend(a[1..], b);
    } else {
      assert a + b == b;
    }
  }

  lemma {:induction false} QuoteBytesAppend(a: seq<Byte>, b: seq<Byte>)
    ensures QuoteBytes(a + b) == QuoteBytes(a) + QuoteBytes(b)
    decreases |a|
  {
    if |a| > 0 {
      assert (a + b)[0] == a[0] && (a + b)[1..] == a[1..] + b;
      QuoteBytesAppend(a[1..], b);
    } else {
      assert a + b == b;
    }
  }
}
