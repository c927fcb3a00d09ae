/**
 * The form codec in characters, and on all texts: which bytes are written as they are, what an escape looks like, and
 * what the parser makes of text that no serializer wrote.
 */
module FormText {
  import opened Prelude
  import opened FormUrlencoded

  predicate IsAscii(c: char) {
    c as int < 0x80
  }

  function ByteOf(c: char): Byte
    requires IsAscii(c)
  {
    c as int
  }

  /** The bytes of an ASCII text. */
  function Ascii(text: string): Bytes
    requires forall k :: 0 <= k < |text| ==> IsAscii(text[k])
  {
    seq(|text|, k requires 0 <= k < |text| => ByteOf(text[k]))
  }

  const DIGITS := "0123456789ABCDEF"
  const LOWER_DIGITS := "0123456789abcdef"
  const CAPITALS := "ABCDEFGHIJKLMNOPQRSTUVWXYZ"
  const SMALL := "abcdefghijklmnopqrstuvwxyz"

  /** The name of a header as the header map keeps it. */
  function Lower(s: Bytes): Bytes {
    seq(|s|, i requires 0 <= i < |s| => if 0x41 <= s[i] <= 0x5A then s[i] + 0x20 else s[i])
  }

  /** Capital letters become small ones, and every other byte stays. */
  lemma LowerExactly(s: Bytes, k: nat)
    requires k < |s|
    ensures |Lower(s)| == |s|
    ensures forall n :: 0 <= n < 26 && s[k] as char == CAPITALS[n] ==> Lower(s)[k] as char == SMALL[n]
    ensures s[k] as char !in CAPITALS ==> Lower(s)[k] == s[k]
  {
    if 'A' <= s[k] as char <= 'Z' {
      assert CAPITALS[s[k] - 0x41] == s[k] as char;
    }
  }

  // ---------------------------------------------------------------------------------------------------------
  // Serializing.

  predicate IsLetterOrDigit(c: char) {
    'a' <= c <= 'z' || 'A' <= c <= 'Z' || '0' <= c <= '9'
  }

  /** Letters, digits and four marks are written as they are, a space as a plus sign, and every other byte escaped. */
  lemma WrittenExactly(b: Byte)
    ensures EncodeByte(b) == [b] <==> b < 0x80 && (IsLetterOrDigit(b as char) || b as char in "*-._")
    ensures EncodeByte(b) == Ascii("+") <==> b as char == ' '
    ensures EncodeByte(b) == Ascii("%") + [DIGITS[b / 16] as int, DIGITS[b % 16] as int] <==>
            !(b < 0x80 && (IsLetterOrDigit(b as char) || b as char in " *-._"))
  {
    assert Ascii("+") == [PLUS] && Ascii("%") == [PERCENT];
    HexDigitExactly(b / 16);
    HexDigitExactly(b % 16);
  }

  lemma HexDigitExactly(d: nat)
    requires d < 16
    ensures HexDigit(d) == DIGITS[d] as int
  {
  }

  lemma {:induction false} EncodeJoin(a: Bytes, b: Bytes)
    ensures Encode(a + b) == Encode(a) + Encode(b)
  {
    if a == [] {
      assert a + b == b;
    } else {
      assert (a + b)[1..] == a[1..] + b;
      EncodeJoin(a[1..], b);
    }
  }

  /** Only text without spaces and marks other than the four stays as it is. */
  lemma {:induction false} EncodeFixes(s: Bytes)
    ensures |Encode(s)| >= |s|
    ensures Encode(s) == s <==> forall k :: 0 <= k < |s| ==> EncodeByte(s[k]) == [s[k]]
  {
    if s != [] {
      EncodeFixes(s[1..]);
      assert Encode(s) == EncodeByte(s[0]) + Encode(s[1..]);
      if Encode(s) == s {
        assert s[0] == EncodeByte(s[0])[0];
        assert |EncodeByte(s[0])| == 1;
        assert Encode(s[1..]) == s[1..];
      }
    }
  }

  lemma AsciiJoin(a: string, b: string)
    requires (forall k :: 0 <= k < |a| ==> IsAscii(a[k])) && forall k :: 0 <= k < |b| ==> IsAscii(b[k])
    ensures Ascii(a + b) == Ascii(a) + Ascii(b)
  {
  }

  predicate IsPlainChar(c: char) {
    IsLetterOrDigit(c) || c in "*-._"
  }

  /** Text of such characters is written as it is. */
  lemma PlainText(text: string)
    requires forall k :: 0 <= k < |text| ==> IsAscii(text[k]) && IsPlainChar(text[k])
    ensures Encode(Ascii(text)) == Ascii(text)
  {
    var s := Ascii(text);
    forall k | 0 <= k < |s| ensures EncodeByte(s[k]) == [s[k]] {
      assert s[k] as char == text[k];
      WrittenExactly(s[k]);
    }
    EncodeFixes(s);
  }

  // ---------------------------------------------------------------------------------------------------------
  // Parsing.

  /** Both cases of the sixteen digits count, and nothing else does. */
  lemma HexValueExactly(b: Byte, d: int)
    ensures HexValue(b) == Some(d) <==> 0 <= d < 16 && (b as char == DIGITS[d] || b as char == LOWER_DIGITS[d])
  {
  }

  /** An escape stands for its byte, in either case. */
  lemma DecodeEscape(h: nat, l: nat, high: Byte, low: Byte, rest: Bytes)
    requires h < 16 && (high as char == DIGITS[h] || high as char == LOWER_DIGITS[h])
    requires l < 16 && (low as char == DIGITS[l] || low as char == LOWER_DIGITS[l])
    ensures Decode(Ascii("%") + [high, low] + rest) == [16 * h + l] + Decode(rest)
  {
    HexValueExactly(high, h);
    HexValueExactly(low, l);
    var s := Ascii("%") + [high, low] + rest;
    assert s[3..] == rest;
  }

  ghost predicate HasNoEscape(s: Bytes) {
    forall k :: 0 <= k <= |s| ==> !IsEscape(s[k..])
  }

  /** Text without an escape keeps every byte but the plus signs, lone percent signs included. */
  lemma {:induction false} DecodeWithoutEscapes(s: Bytes)
    requires HasNoEscape(s)
    ensures |Decode(s)| == |s|
    ensures forall k :: 0 <= k < |s| ==> Decode(s)[k] == if s[k] as char == '+' then ' ' as int else s[k]
  {
    if s != [] {
      assert s[0..] == s;
      forall k | 0 <= k <= |s[1..]| ensures !IsEscape(s[1..][k..]) {
        assert s[1..][k..] == s[k + 1..];
      }
      DecodeWithoutEscapes(s[1..]);
    }
  }

  /** A text ends in the middle of what could be an escape. */
  predicate EndsInEscape(s: Bytes) {
    (|s| >= 1 && s[|s| - 1] == PERCENT) || (|s| >= 2 && s[|s| - 2] == PERCENT)
  }

  /** Decoding goes piece by piece, unless an escape lies across the border. */
  lemma {:induction false} DecodeJoin(a: Bytes, b: Bytes)
    requires !EndsInEscape(a)
    ensures Decode(a + b) == Decode(a) + Decode(b)
    decreases |a|
  {
    if a == [] {
      assert a + b == b;
    } else if IsEscape(a) {
      assert (a + b)[3..] == a[3..] + b;
      AfterEscape(a);
      if !EndsInEscape(a[3..]) {
        DecodeJoin(a[3..], b);
      }
    } else {
      assert (a + b)[1..] == a[1..] + b;
      DecodeJoin(a[1..], b);
      assert !IsEscape(a + b);
    }
  }

  lemma AfterEscape(a: Bytes)
    requires IsEscape(a) && !EndsInEscape(a)
    ensures !EndsInEscape(a[3..])
  {
  }

  /** A part without an equals sign is a name with an empty value. */
  lemma ParseName(name: Bytes)
    requires name != [] && AMPERSAND !in name && EQUALS !in name
    ensures Parse(name) == [(Decode(name), [])]
  {
    SplitNowhere(name, AMPERSAND);
    SplitNowhere(name, EQUALS);
  }

  /** Otherwise the first equals sign ends the name, and the value has the others. */
  lemma ParseNameAndValue(name: Bytes, value: Bytes)
    requires AMPERSAND !in name && EQUALS !in name && AMPERSAND !in value
    ensures Parse(name + Ascii("=") + value) == [(Decode(name), Decode(value))]
  {
    assert Ascii("=") == [EQUALS];
    SplitNowhere(name + [EQUALS] + value, AMPERSAND);
    SplitAt(name, EQUALS, value);
  }

  lemma LastAmpersand(a: Bytes)
    ensures Parse(a + [AMPERSAND]) == Parse(a)
  {
    ParseJoin(a, []);
    assert a + [AMPERSAND] + [] == a + [AMPERSAND];
  }

  lemma FirstAmpersand(a: Bytes)
    ensures Parse([AMPERSAND] + a) == Parse(a)
  {
    ParseJoin([], a);
    assert [] + [AMPERSAND] + a == [AMPERSAND] + a;
  }

  /** Empty parts count for nothing: ampersands may stand first, last or in a row. */
  lemma EmptyPartsAreNothing(a: Bytes, b: Bytes)
    ensures Parse(Ascii("&") + a) == Parse(a) && Parse(a + Ascii("&")) == Parse(a)
    ensures Parse(a + Ascii("&") + Ascii("&") + b) == Parse(a) + Parse(b)
  {
    assert Ascii("&") == [AMPERSAND];
    FirstAmpersand(a);
    LastAmpersand(a);
    ParseJoin(a + [AMPERSAND], b);
  }
}
