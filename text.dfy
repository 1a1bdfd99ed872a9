/**
 * Text forms the encoder relies on: UTF-8 (Python 2's `unicode.encode('utf-8')`),
 * the decimal form of an integer (`str` of an `int` or `long`), and splitting a
 * string at a separator character.
 */
module Text {
  import opened Wrappers
  import opened Bytes

  // ---------------------------------------------------------------- UTF-8

  /** True of the bytes `10xxxxxx` that continue a multi-byte UTF-8 sequence. */
  predicate IsContinuation(b: Byte) {
    0x80 <= b < 0xC0
  }

  /** The UTF-8 encoding of one Unicode scalar value: one to four bytes. */
  function EncodeChar(c: char): (r: seq<Byte>)
    ensures 1 <= |r| <= 4
    ensures (|r| == 1) == (c as int < 0x80)
  {
    var cp := c as int;
    if cp < 0x80 then [cp]
    else if cp < 0x800 then [0xC0 + cp / 0x40, 0x80 + cp % 0x40]
    else if cp < 0x1_0000 then [0xE0 + cp / 0x1000, 0x80 + cp / 0x40 % 0x40, 0x80 + cp % 0x40]
    else [0xF0 + cp / 0x4_0000, 0x80 + cp / 0x1000 % 0x40, 0x80 + cp / 0x40 % 0x40, 0x80 + cp % 0x40]
  }

  /** The UTF-8 encoding of a string: the encodings of its characters, in order. */
  function Utf8Encode(s: string): (r: seq<Byte>)
    ensures |s| <= |r| <= 4 * |s|
  {
    if s == [] then [] else EncodeChar(s[0]) + Utf8Encode(s[1..])
  }

  /**
   * Reads one well-formed UTF-8 sequence from the front of `bs`: the character and
   * the number of bytes it takes. Overlong forms, surrogates and code points above
   * U+10FFFF are refused.
   */
  function DecodeChar(bs: seq<Byte>): Option<(char, nat)> {
    if bs == [] then None
    else if bs[0] < 0x80 then Some((bs[0] as char, 1))
    else if 0xC2 <= bs[0] < 0xE0 && |bs| >= 2 && IsContinuation(bs[1]) then
      var cp := (bs[0] as int - 0xC0) * 0x40 + (bs[1] as int - 0x80);
      Some((cp as char, 2))
    else if 0xE0 <= bs[0] < 0xF0 && |bs| >= 3 && IsContinuation(bs[1]) && IsContinuation(bs[2]) then
      var cp := (bs[0] as int - 0xE0) * 0x1000 + (bs[1] as int - 0x80) * 0x40 + (bs[2] as int - 0x80);
      if 0x800 <= cp && !(0xD800 <= cp < 0xE000) then Some((cp as char, 3)) else None
    else if 0xF0 <= bs[0] < 0xF5 && |bs| >= 4 && IsContinuation(bs[1]) && IsContinuation(bs[2]) && IsContinuation(bs[3]) then
      var cp := (bs[0] as int - 0xF0) * 0x4_0000 + (bs[1] as int - 0x80) * 0x1000 + (bs[2] as int - 0x80) * 0x40 + (bs[3] as int - 0x80);
      if 0x1_0000 <= cp < 0x11_0000 then Some((cp as char, 4)) else None
    else None
  }

  /** Decodes a whole byte string as UTF-8, or gives `None` if it is not well-formed. */
  function Utf8Decode(bs: seq<Byte>): Option<string>
    decreases |bs|
  {
    if bs == [] then Some([])
    else match DecodeChar(bs)
      case None => None
      case Some((c, n)) =>
        if 0 < n <= |bs| then
          match Utf8Decode(bs[n..])
          case None => None
          case Some(rest) => Some([c] + rest)
        else None
  }

  /** A character's encoding is read back as that character, whatever follows it. */
  lemma DecodeEncodeChar(c: char, rest: seq<Byte>)
    ensures DecodeChar(EncodeChar(c) + rest) == Some((c, |EncodeChar(c)|))
  {
    var cp := c as int;
    if cp < 0x80 {
    } else if cp < 0x800 {
      DecodeTwoBytes(c, rest);
    } else if cp < 0x1_0000 {
      DecodeThreeBytes(c, rest);
    } else {
      DecodeFourBytes(c, rest);
    }
  }

  lemma DecodeTwoBytes(c: char, rest: seq<Byte>)
    requires 0x80 <= c as int < 0x800
    ensures DecodeChar(EncodeChar(c) + rest) == Some((c, 2))
  {
    var cp := c as int;
    var hi, lo := cp / 0x40, cp % 0x40;
    assert cp == hi * 0x40 + lo;
    var bs := EncodeChar(c) + rest;
    assert bs[0] as int - 0xC0 == hi && bs[1] as int - 0x80 == lo;
  }

  lemma DecodeThreeBytes(c: char, rest: seq<Byte>)
    requires 0x800 <= c as int < 0x1_0000
    ensures DecodeChar(EncodeChar(c) + rest) == Some((c, 3))
  {
    var cp := c as int;
    var q := cp / 0x40;
    var b2 := cp % 0x40;
    var b1 := q % 0x40;
    var b0 := q / 0x40;
    assert cp == q * 0x40 + b2 && q == b0 * 0x40 + b1;
    assert b0 == cp / 0x1000;
    var bs := EncodeChar(c) + rest;
    assert bs[0] as int - 0xE0 == b0 && bs[1] as int - 0x80 == b1 && bs[2] as int - 0x80 == b2;
    assert b0 * 0x1000 + b1 * 0x40 + b2 == cp;
  }

  lemma DecodeFourBytes(c: char, rest: seq<Byte>)
    requires 0x1_0000 <= c as int
    ensures DecodeChar(EncodeChar(c) + rest) == Some((c, 4))
  {
    var cp := c as int;
    var q := cp / 0x40;
    var r := q / 0x40;
    var b3 := cp % 0x40;
    var b2 := q % 0x40;
    var b1 := r % 0x40;
    var b0 := r / 0x40;
    assert cp == q * 0x40 + b3 && q == r * 0x40 + b2 && r == b0 * 0x40 + b1;
    assert r == cp / 0x1000 && b0 == cp / 0x4_0000;
    var bs := EncodeChar(c) + rest;
    assert bs[0] as int - 0xF0 == b0 && bs[1] as int - 0x80 == b1;
    assert bs[2] as int - 0x80 == b2 && bs[3] as int - 0x80 == b3;
    assert b0 * 0x4_0000 + b1 * 0x1000 + b2 * 0x40 + b3 == cp;
  }

  /** UTF-8 decoding inverts UTF-8 encoding on every string. */
  lemma {:induction false} Utf8RoundTrip(s: string)
    ensures Utf8Decode(Utf8Encode(s)) == Some(s)
  {
    if s != [] {
      var head := EncodeChar(s[0]);
      var bs := Utf8Encode(s);
      assert bs == head + Utf8Encode(s[1..]);
      DecodeEncodeChar(s[0], Utf8Encode(s[1..]));
      assert bs[|head|..] == Utf8Encode(s[1..]);
      Utf8RoundTrip(s[1..]);
      assert s == [s[0]] + s[1..];
    }
  }

  predicate IsAscii(s: string) {
    forall k :: 0 <= k < |s| ==> s[k] as int < 0x80
  }

  /** The bytes of ASCII text: one byte per character, each byte the character's code. */
  function Ascii(s: string): (r: seq<Byte>)
    requires IsAscii(s)
    ensures |r| == |s|
  {
    seq(|s|, k requires 0 <= k < |s| => s[k] as int)
  }

  /** For ASCII text the UTF-8 encoding is the ASCII bytes. */
  lemma {:induction false} Utf8EncodeAscii(s: string)
    requires IsAscii(s)
    ensures Utf8Encode(s) == Ascii(s)
  {
    if s != [] {
      Utf8EncodeAscii(s[1..]);
      assert Ascii(s) == [s[0] as int] + Ascii(s[1..]);
    }
  }

  // ---------------------------------------------------------------- decimal

  predicate IsDigit(c: char) {
    '0' <= c <= '9'
  }

  predicate AllDigits(s: string) {
    forall k :: 0 <= k < |s| ==> IsDigit(s[k])
  }

  function DigitChar(d: nat): (c: char)
    requires d < 10
    ensures IsDigit(c) && c as int - '0' as int == d
  {
    ('0' as int + d) as char
  }

  /** The decimal digits of `n`: no sign, no leading zero unless `n` is zero. */
  function DecimalDigits(n: nat): (r: string)
    ensures |r| >= 1 && AllDigits(r)
    ensures (r[0] == '0') == (n == 0)
  {
    if n < 10 then [DigitChar(n)] else DecimalDigits(n / 10) + [DigitChar(n % 10)]
  }

  /** The number a string of decimal digits denotes. */
  function ParseDecimal(s: string): nat
    requires AllDigits(s)
  {
    if s == [] then 0 else ParseDecimal(s[..|s| - 1]) * 10 + (s[|s| - 1] as int - '0' as int)
  }

  /** Parsing the decimal digits of a number gives the number back. */
  lemma {:induction false} ParseDecimalDigits(n: nat)
    ensures ParseDecimal(DecimalDigits(n)) == n
  {
    if n >= 10 {
      var r := DecimalDigits(n);
      assert r[..|r| - 1] == DecimalDigits(n / 10);
      ParseDecimalDigits(n / 10);
    }
  }

  /** Python's `str` of an `int` or `long`: a minus sign for negatives, then the digits. */
  function IntText(i: int): (r: string)
    ensures |r| >= 1 && IsAscii(r)
    ensures (r[0] == '-') == (i < 0)
    ensures AllDigits(if i < 0 then r[1..] else r)
    ensures ParseDecimal(if i < 0 then r[1..] else r) == if i < 0 then -i else i
  {
    var magnitude := if i < 0 then -i else i;
    ParseDecimalDigits(magnitude);
    if i < 0 then
      assert ("-" + DecimalDigits(magnitude))[1..] == DecimalDigits(magnitude);
      "-" + DecimalDigits(magnitude)
    else DecimalDigits(magnitude)
  }

  // ---------------------------------------------------------------- splitting

  /** The pieces of `s` between occurrences of `sep`, as Python's `s.split(sep)`. */
  function SplitOn(s: string, sep: char): (r: seq<string>)
    ensures |r| >= 1
  {
    if s == [] then [[]]
    else
      var rest := SplitOn(s[1..], sep);
      if s[0] == sep then [[]] + rest else [[s[0]] + rest[0]] + rest[1..]
  }

  /** A piece free of the separator splits off whole. */
  lemma {:induction false} SplitOnPiece(x: string, sep: char, y: string)
    requires sep !in x
    ensures SplitOn(x + [sep] + y, sep) == [x] + SplitOn(y, sep)
  {
    if x == [] {
      assert ([sep] + y)[1..] == y;
    } else {
      assert (x + [sep] + y)[1..] == x[1..] + [sep] + y;
      SplitOnPiece(x[1..], sep, y);
      assert [x[0]] + x[1..] == x;
    }
  }

  /** A string free of the separator is a single piece. */
  lemma {:induction false} SplitOnWhole(x: string, sep: char)
    requires sep !in x
    ensures SplitOn(x, sep) == [x]
  {
    if x != [] {
      SplitOnWhole(x[1..], sep);
      assert [x[0]] + x[1..] == x;
    }
  }
}
