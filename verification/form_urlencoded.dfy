/**
 * The `application/x-www-form-urlencoded` serializer and parser, sections 5.1 and 5.2 of the WHATWG URL Standard, on
 * bytes: a string stands for its UTF-8 encoding.
 */
module FormUrlencoded {
  import opened Prelude

  type Byte = x: int | 0 <= x < 256
  type Bytes = seq<Byte>
  type Pair = (Bytes, Bytes)

  const SPACE: Byte := 0x20
  const HASH: Byte := 0x23
  const PERCENT: Byte := 0x25
  const AMPERSAND: Byte := 0x26
  const PLUS: Byte := 0x2B
  const EQUALS: Byte := 0x3D
  const QUESTION: Byte := 0x3F

  // ---------------------------------------------------------------------------------------------------------
  // Serializing.

  /** ASCII letters and digits and `*`, `-`, `.`, `_`. */
  predicate IsUnchanged(b: Byte) {
    || 0x30 <= b <= 0x39 || 0x41 <= b <= 0x5A || 0x61 <= b <= 0x7A
    || b == 0x2A || b == 0x2D || b == 0x2E || b == 0x5F
  }

  function HexDigit(d: int): Byte
    requires 0 <= d < 16
  {
    if d < 10 then 0x30 + d else 0x41 + d - 10
  }

  function EncodeByte(b: Byte): Bytes {
    if IsUnchanged(b) then [b]
    else if b == SPACE then [PLUS]
    else [PERCENT, HexDigit(b / 16), HexDigit(b % 16)]
  }

  function Encode(s: Bytes): Bytes {
    if s == [] then [] else EncodeByte(s[0]) + Encode(s[1..])
  }

  function EncodePair(p: Pair): Bytes {
    Encode(p.0) + [EQUALS] + Encode(p.1)
  }

  function Serialize(pairs: seq<Pair>): Bytes {
    if pairs == [] then []
    else
      var before := Serialize(pairs[..|pairs| - 1]);
      (if before == [] then [] else before + [AMPERSAND]) + EncodePair(pairs[|pairs| - 1])
  }

  /** The serializer that the handler appends to. */
  class Serializer {
    var target: Bytes
    ghost var pairs: seq<Pair>

    ghost predicate Valid()
      reads this
    {
      target == Serialize(pairs)
    }

    constructor ()
      ensures Valid() && pairs == []
    {
      target, pairs := [], [];
    }

    method AppendPair(name: Bytes, value: Bytes)
      requires Valid()
      modifies this
      ensures Valid() && pairs == old(pairs) + [(name, value)]
    {
      if |target| > 0 {
        target := target + [AMPERSAND];
      }
      AppendNameAndValue(name, value);
      SerializeAppend(pairs, (name, value));
      pairs := pairs + [(name, value)];
    }

    method AppendNameAndValue(name: Bytes, value: Bytes)
      modifies this`target
      ensures target == old(target) + EncodePair((name, value))
    {
      AppendEncoded(name);
      target := target + [EQUALS];
      AppendEncoded(value);
      Regroup(old(target), Encode(name), [EQUALS], Encode(value));
    }

    /** Appends byte by byte, as the encoder's iterator does. */
    method AppendEncoded(s: Bytes)
      modifies this`target
      ensures target == old(target) + Encode(s)
    {
      var i := 0;
      assert s[..0] == [];
      while i < |s|
        invariant i <= |s| && target == old(target) + Encode(s[..i])
      {
        EncodeAppend(s[..i], s[i]);
        assert s[..i + 1] == s[..i] + [s[i]];
        target := target + EncodeByte(s[i]);
        i := i + 1;
      }
      assert s[..i] == s;
    }

    method Finish() returns (text: Bytes)
      requires Valid()
      ensures text == Serialize(pairs)
    {
      text := target;
    }
  }

  lemma Regroup(a: Bytes, b: Bytes, c: Bytes, d: Bytes)
    ensures a + b + c + d == a + (b + c + d)
  {
  }

  lemma SerializeAppend(pairs: seq<Pair>, p: Pair)
    ensures Serialize(pairs + [p]) ==
            (if Serialize(pairs) == [] then [] else Serialize(pairs) + [AMPERSAND]) + EncodePair(p)
  {
  }

  lemma {:induction false} EncodeAppend(s: Bytes, b: Byte)
    ensures Encode(s + [b]) == Encode(s) + EncodeByte(b)
  {
    if s == [] {
      assert [b][1..] == [];
    } else {
      assert (s + [b])[1..] == s[1..] + [b];
      EncodeAppend(s[1..], b);
    }
  }

  // ---------------------------------------------------------------------------------------------------------
  // Parsing.

  /** What comes before the first `sep`, and what comes after it if there is one. */
  function SplitFirst(s: Bytes, sep: Byte): (r: (Bytes, Option<Bytes>))
    ensures sep !in r.0
    ensures match r.1 { case None => s == r.0 case Some(rest) => s == r.0 + [sep] + rest }
  {
    if s == [] then ([], None)
    else if s[0] == sep then ([], Some(s[1..]))
    else
      var (before, after) := SplitFirst(s[1..], sep);
      ([s[0]] + before, after)
  }

  function HexValue(b: Byte): Option<int> {
    if 0x30 <= b <= 0x39 then Some(b - 0x30)
    else if 0x41 <= b <= 0x46 then Some(b - 0x41 + 10)
    else if 0x61 <= b <= 0x66 then Some(b - 0x61 + 10)
    else None
  }

  /** A percent sign and two hexadecimal digits, in either case. */
  predicate IsEscape(s: Bytes) {
    |s| >= 3 && s[0] == PERCENT && HexValue(s[1]).Some? && HexValue(s[2]).Some?
  }

  /** Plus signs become spaces and escapes become bytes; a percent sign that begins no escape stands for itself. */
  function Decode(s: Bytes): Bytes {
    if s == [] then []
    else if IsEscape(s) then [HexValue(s[1]).value * 16 + HexValue(s[2]).value] + Decode(s[3..])
    else [if s[0] == PLUS then SPACE else s[0]] + Decode(s[1..])
  }

  function DecodePair(sequence: Bytes): Pair {
    var (name, value) := SplitFirst(sequence, EQUALS);
    (Decode(name), Decode(if value.Some? then value.value else []))
  }

  function Parse(input: Bytes): seq<Pair>
    decreases |input|
  {
    if input == [] then []
    else
      var (sequence, rest) := SplitFirst(input, AMPERSAND);
      (if sequence == [] then [] else [DecodePair(sequence)]) + (if rest.Some? then Parse(rest.value) else [])
  }

  // ---------------------------------------------------------------------------------------------------------
  // The round trip.

  /** The serializer writes only bytes that mean nothing to the parser's splits. */
  predicate IsPlain(b: Byte) {
    IsUnchanged(b) || b == PLUS || b == PERCENT
  }

  lemma {:induction false} EncodeIsPlain(s: Bytes)
    ensures forall b :: b in Encode(s) ==> IsPlain(b)
  {
    if s != [] {
      EncodeIsPlain(s[1..]);
    }
  }

  lemma DecodeEncodedByte(b: Byte, rest: Bytes)
    ensures Decode(EncodeByte(b) + rest) == [b] + Decode(rest)
  {
  }

  lemma {:induction false} DecodeEncode(s: Bytes)
    ensures Decode(Encode(s)) == s
  {
    if s != [] {
      DecodeEncode(s[1..]);
      DecodeEncodedByte(s[0], Encode(s[1..]));
    }
  }

  /** A split ends at the first separator, wherever it came from. */
  lemma {:induction false} SplitAt(before: Bytes, sep: Byte, after: Bytes)
    requires sep !in before
    ensures SplitFirst(before + [sep] + after, sep) == (before, Some(after))
  {
    var s := before + [sep] + after;
    if before == [] {
      assert s[1..] == after;
    } else {
      assert s[1..] == before[1..] + [sep] + after;
      SplitAt(before[1..], sep, after);
      assert [before[0]] + before[1..] == before;
    }
  }

  lemma {:induction false} SplitNowhere(s: Bytes, sep: Byte)
    requires sep !in s
    ensures SplitFirst(s, sep) == (s, None)
  {
  }

  /** For all byte strings: parsing distributes over an ampersand. */
  lemma {:induction false} ParseJoin(a: Bytes, b: Bytes)
    ensures Parse(a + [AMPERSAND] + b) == Parse(a) + Parse(b)
    decreases |a|
  {
    var (sequence, rest) := SplitFirst(a, AMPERSAND);
    var s := a + [AMPERSAND] + b;
    match rest {
      case None =>
        SplitAt(a, AMPERSAND, b);
      case Some(more) =>
        assert s == sequence + [AMPERSAND] + (more + [AMPERSAND] + b);
        SplitAt(sequence, AMPERSAND, more + [AMPERSAND] + b);
        ParseJoin(more, b);
    }
  }

  lemma ParseOne(p: Pair)
    ensures Parse(EncodePair(p)) == [p]
  {
    EncodeIsPlain(p.0);
    EncodeIsPlain(p.1);
    SplitNowhere(EncodePair(p), AMPERSAND);
    SplitAt(Encode(p.0), EQUALS, Encode(p.1));
    DecodeEncode(p.0);
    DecodeEncode(p.1);
  }

  /** For all lists of pairs of byte strings, parsing what was serialized gives them back. */
  lemma {:induction false} ParseSerialize(pairs: seq<Pair>)
    ensures Parse(Serialize(pairs)) == pairs
  {
    if pairs != [] {
      var before, last := pairs[..|pairs| - 1], pairs[|pairs| - 1];
      ParseSerialize(before);
      ParseOne(last);
      assert pairs == before + [last];
      if Serialize(before) == [] {
        assert before == [] && Serialize(pairs) == EncodePair(last);
      } else {
        assert Serialize(pairs) == Serialize(before) + [AMPERSAND] + EncodePair(last);
        ParseJoin(Serialize(before), EncodePair(last));
      }
    }
  }

  lemma PairFitsQuery(p: Pair)
    ensures HASH !in EncodePair(p) && QUESTION !in EncodePair(p)
  {
    EncodeIsPlain(p.0);
    EncodeIsPlain(p.1);
  }

  /** The serialized text can stand in the query of a URL: it contains neither `?` nor `#`. */
  lemma {:induction false} SerializeFitsQuery(pairs: seq<Pair>)
    ensures HASH !in Serialize(pairs) && QUESTION !in Serialize(pairs)
  {
    if pairs != [] {
      SerializeFitsQuery(pairs[..|pairs| - 1]);
      PairFitsQuery(pairs[|pairs| - 1]);
    }
  }
}
