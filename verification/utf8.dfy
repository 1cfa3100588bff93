/**
 * The byte-array-to-string decoder `fromUTF8Array` of src/utils.ts.
 *
 * The decoder walks a byte array, classifies each lead byte, consumes one to
 * four bytes and appends UTF-16 code units to a JavaScript string: one unit for
 * a one-, two- or three-byte sequence and a surrogate pair for a four-byte
 * sequence. It performs no validation: continuation bytes are masked without
 * being checked, a stray continuation byte (0x80..0xBF) or an invalid lead
 * (0xF8..0xFF) takes the four-byte branch, and bytes read beyond the end of
 * the array are `undefined`, which JavaScript's `&` turns into 0.
 *
 * The reference side of this module is the encoding of Unicode scalar values
 * as UTF-8 (section 3 of RFC 3629) and as UTF-16 (section 2.1 of RFC 2781);
 * the main theorem is that the decoder maps the UTF-8 encoding of any text to
 * its UTF-16 encoding.
 */
module Utf8 {
  import opened JsBits

  type Byte = bv8

  /** A Unicode scalar value: a code point that is not a surrogate. */
  type Scalar = c: bv32 | c <= 0x10FFFF && !(0xD800 <= c <= 0xDFFF)

  // ---------------------------------------------------------------------------
  // The decoder as written
  // ---------------------------------------------------------------------------

  /**
   * The byte at index k as the decoder's masked reads see it: an index past
   * the end yields `undefined`, and `undefined & 0x3f` is 0.
   */
  function At(data: seq<Byte>, k: nat): (b: Byte)
    ensures k < |data| ==> b == data[k]
    ensures k >= |data| ==> b == 0
  {
    if k < |data| then data[k] else 0
  }

  /** `((b0 & 0x1f) << 6) | (b1 & 0x3f)` passed through `String.fromCharCode`. */
  function TwoByteUnit(b0: Byte, b1: Byte): CodeUnit
  {
    ToUint16(((b0 as bv32 & 0x1F) << 6) | (b1 as bv32 & 0x3F))
  }

  /** `((b0 & 0x0f) << 12) | ((b1 & 0x3f) << 6) | (b2 & 0x3f)` passed through `String.fromCharCode`. */
  function ThreeByteUnit(b0: Byte, b1: Byte, b2: Byte): CodeUnit
  {
    ToUint16(((b0 as bv32 & 0x0F) << 12) | ((b1 as bv32 & 0x3F) << 6) | (b2 as bv32 & 0x3F))
  }

  /** `charCode` of the four-byte branch: the assembled 21 bits minus 0x010000. */
  function FourByteOffset(b0: Byte, b1: Byte, b2: Byte, b3: Byte): bv32
  {
    (((b0 as bv32 & 0x07) << 18) | ((b1 as bv32 & 0x3F) << 12) | ((b2 as bv32 & 0x3F) << 6) | (b3 as bv32 & 0x3F))
      - 0x01_0000
  }

  /** `String.fromCharCode((charCode >> 10) | 0xd800, (charCode & 0x03ff) | 0xdc00)`. */
  function SurrogatePair(b0: Byte, b1: Byte, b2: Byte, b3: Byte): seq<CodeUnit>
  {
    var charCode := FourByteOffset(b0, b1, b2, b3);
    [ToUint16(Sar(charCode, 10) | 0xD800), ToUint16((charCode & 0x03FF) | 0xDC00)]
  }

  /** What one iteration of the decoding loop appends, and how far it advances the index. */
  datatype Step = Step(units: seq<CodeUnit>, width: nat)

  /**
   * One iteration of the loop on lead byte b0 followed by b1, b2, b3: the four
   * branches on the lead byte.
   */
  function StepOn(b0: Byte, b1: Byte, b2: Byte, b3: Byte): (s: Step)
    ensures 1 <= s.width <= 4
    ensures |s.units| == (if s.width == 4 then 2 else 1)
  {
    if b0 < 0x80 then
      Step([b0 as CodeUnit], 1)
    else if b0 > 0xBF && b0 < 0xE0 then
      Step([TwoByteUnit(b0, b1)], 2)
    else if b0 > 0xDF && b0 < 0xF0 then
      Step([ThreeByteUnit(b0, b1, b2)], 3)
    else
      Step(SurrogatePair(b0, b1, b2, b3), 4)
  }

  /** The iteration at index i, which reads at most the three bytes after the lead. */
  function DecodeStep(data: seq<Byte>, i: nat): Step
    requires i < |data|
  {
    StepOn(data[i], At(data, i + 1), At(data, i + 2), At(data, i + 3))
  }

  /**
   * The string the loop appends from index i on. The last step may advance the
   * index past the end of the array, so the output can be one unit longer than
   * the input (a four-byte lead in the last position yields two units).
   */
  function DecodeFrom(data: seq<Byte>, i: nat): (r: seq<CodeUnit>)
    ensures i >= |data| ==> r == []
    ensures i < |data| ==> 1 <= |r| <= |data| - i + 1
    decreases |data| - i
  {
    if i >= |data| then []
    else
      var s := DecodeStep(data, i);
      s.units + DecodeFrom(data, i + s.width)
  }

  /**
   * The string `fromUTF8Array` returns: empty exactly for the empty array, and
   * at most one unit longer than the array.
   */
  function Decode(data: seq<Byte>): (str: seq<CodeUnit>)
    ensures str == [] <==> data == []
    ensures |str| <= |data| + 1
  {
    DecodeFrom(data, 0)
  }

  /**
   * The body of the loop of `fromUTF8Array` at index i: the four branches on
   * the lead byte, returning the code units appended and how far the index
   * moves. The index moves by the sequence length the lead byte announces
   * (four when it announces none), an ASCII byte is copied, and where a
   * well-formed UTF-8 sequence starts at i the units are the UTF-16 encoding
   * of its scalar value. The last clause ties the iteration to the recursive
   * decoding the loop is proved against.
   */
  method DecodeOne(data: seq<Byte>, i: nat) returns (units: seq<CodeUnit>, width: nat)
    requires i < |data|
    ensures width == if SequenceLength(data[i]) == 0 then 4 else SequenceLength(data[i])
    ensures |units| == if width == 4 then 2 else 1
    ensures data[i] < 0x80 ==> units == [data[i] as CodeUnit]
    ensures forall c: Scalar | i + |Utf8Encode(c)| <= |data| && data[i..i + |Utf8Encode(c)|] == Utf8Encode(c)
      :: units == Utf16Encode(c) && width == |Utf8Encode(c)|
    ensures Step(units, width) == DecodeStep(data, i)
  {
    var value := data[i];
    if value < 0x80 {
      units, width := [value as CodeUnit], 1;
    } else if value > 0xBF && value < 0xE0 {
      units, width := [TwoByteUnit(value, At(data, i + 1))], 2;
    } else if value > 0xDF && value < 0xF0 {
      units, width := [ThreeByteUnit(value, At(data, i + 1), At(data, i + 2))], 3;
    } else {
      units, width := SurrogatePair(value, At(data, i + 1), At(data, i + 2), At(data, i + 3)), 4;
    }
    WidthFollowsLeadByte(value, At(data, i + 1), At(data, i + 2), At(data, i + 3));
    forall c: Scalar | i + |Utf8Encode(c)| <= |data| && data[i..i + |Utf8Encode(c)|] == Utf8Encode(c)
      ensures units == Utf16Encode(c) && width == |Utf8Encode(c)|
    {
      StepDecodesScalar(data, i, c);
    }
  }

  /** `fromUTF8Array`: the loop of the source, one iteration per lead byte. */
  method FromUtf8Array(data: seq<Byte>) returns (str: seq<CodeUnit>)
    ensures str == Decode(data)
    ensures |str| <= |data| + 1
  {
    str := [];
    var i: nat := 0;
    while i < |data|
      invariant str + DecodeFrom(data, i) == Decode(data)
      decreases |data| - i
    {
      var units, width := DecodeOne(data, i);
      Advance(data, i, str);
      str := str + units;
      i := i + width;
    }
  }

  /**
   * Appending the units one iteration peels off the decoding from index i
   * keeps the loop's invariant at the index the iteration moves to.
   */
  lemma Advance(data: seq<Byte>, i: nat, before: seq<CodeUnit>)
    requires i < |data|
    requires before + DecodeFrom(data, i) == Decode(data)
    ensures (before + DecodeStep(data, i).units) + DecodeFrom(data, i + DecodeStep(data, i).width) == Decode(data)
  {
    DecodeFromUnfolds(data, i);
    var s := DecodeStep(data, i);
    assert (before + s.units) + DecodeFrom(data, i + s.width) == before + (s.units + DecodeFrom(data, i + s.width));
  }

  // ---------------------------------------------------------------------------
  // Reference encodings
  // ---------------------------------------------------------------------------

  /** A continuation byte 10xxxxxx (RFC 3629, section 3). */
  predicate IsContinuation(b: Byte)
  {
    b >> 6 == 0x2
  }

  /**
   * The length of the UTF-8 sequence a lead byte announces by its high bits
   * (RFC 3629, section 3): 0xxxxxxx, 110xxxxx, 1110xxxx or 11110xxx. A
   * continuation byte or 11111xxx announces no sequence (0).
   */
  function SequenceLength(lead: Byte): (n: nat)
    ensures n <= 4
  {
    if lead >> 7 == 0x0 then 1
    else if lead >> 5 == 0x6 then 2
    else if lead >> 4 == 0xE then 3
    else if lead >> 3 == 0x1E then 4
    else 0
  }

  /** The UTF-8 encoding of one scalar value (RFC 3629, section 3). */
  function Utf8Encode(c: Scalar): (bytes: seq<Byte>)
    ensures 1 <= |bytes| <= 4
    ensures SequenceLength(bytes[0]) == |bytes|
    ensures forall j | 1 <= j < |bytes| :: IsContinuation(bytes[j])
  {
    if c < 0x80 then
      [c as bv8]
    else if c < 0x800 then
      [(0xC0 | (c >> 6)) as bv8, (0x80 | (c & 0x3F)) as bv8]
    else if c < 0x1_0000 then
      [(0xE0 | (c >> 12)) as bv8, (0x80 | ((c >> 6) & 0x3F)) as bv8, (0x80 | (c & 0x3F)) as bv8]
    else
      [(0xF0 | (c >> 18)) as bv8, (0x80 | ((c >> 12) & 0x3F)) as bv8,
       (0x80 | ((c >> 6) & 0x3F)) as bv8, (0x80 | (c & 0x3F)) as bv8]
  }

  /** The high surrogate carrying the top ten bits of a 20-bit offset (RFC 2781, section 2.1). */
  function HighSurrogate(u: bv32): (w: CodeUnit)
    requires u <= 0xF_FFFF
    ensures 0xD800 <= w <= 0xDBFF
  {
    0xD800 | (u >> 10)
  }

  /** The low surrogate carrying the bottom ten bits of an offset (RFC 2781, section 2.1). */
  function LowSurrogate(u: bv32): (w: CodeUnit)
    ensures 0xDC00 <= w <= 0xDFFF
  {
    0xDC00 | (u & 0x3FF)
  }

  /** The 20 bits a surrogate pair carries: ten from each half (RFC 2781, section 2.2). */
  function SurrogateBits(high: CodeUnit, low: CodeUnit): bv32
  {
    ((high & 0x3FF) << 10) | (low & 0x3FF)
  }

  /** The scalar value a surrogate pair stands for (RFC 2781, section 2.2). */
  function CombineSurrogates(high: CodeUnit, low: CodeUnit): bv32
  {
    0x1_0000 + SurrogateBits(high, low)
  }

  /** Splitting an offset below 2^20 into surrogates loses none of its bits. */
  lemma SplitLosesNoBits(u: bv32)
    requires u <= 0xF_FFFF
    ensures SurrogateBits(HighSurrogate(u), LowSurrogate(u)) == u
  {
  }

  /** Decoding the surrogate pair of a supplementary scalar value gives the value back. */
  lemma SurrogatesRecombine(c: Scalar)
    requires 0x1_0000 <= c
    ensures CombineSurrogates(HighSurrogate(c - 0x1_0000), LowSurrogate(c - 0x1_0000)) == c
  {
    SplitLosesNoBits(c - 0x1_0000);
  }

  /**
   * The UTF-16 encoding of one scalar value (RFC 2781, section 2.1). The
   * postconditions are the decoding rule of section 2.2: a single unit is the
   * value itself, and a pair is a high surrogate then a low surrogate that
   * combine to the value.
   */
  function Utf16Encode(c: Scalar): (units: seq<CodeUnit>)
    ensures |units| == 1 <==> c < 0x1_0000
    ensures |units| == 1 ==> units[0] == c
    ensures |units| != 1 ==>
      && |units| == 2
      && 0xD800 <= units[0] <= 0xDBFF
      && 0xDC00 <= units[1] <= 0xDFFF
      && CombineSurrogates(units[0], units[1]) == c
  {
    if c < 0x1_0000 then
      [c]
    else
      SurrogatesRecombine(c);
      [HighSurrogate(c - 0x1_0000), LowSurrogate(c - 0x1_0000)]
  }

  function Utf8EncodeAll(text: seq<Scalar>): (bytes: seq<Byte>)
    ensures |bytes| >= |text|
  {
    if text == [] then [] else Utf8Encode(text[0]) + Utf8EncodeAll(text[1..])
  }

  function Utf16EncodeAll(text: seq<Scalar>): (units: seq<CodeUnit>)
    ensures |units| >= |text|
  {
    if text == [] then [] else Utf16Encode(text[0]) + Utf16EncodeAll(text[1..])
  }

  // ---------------------------------------------------------------------------
  // Properties of one step
  // ---------------------------------------------------------------------------

  /** A lead byte below 0x80 is copied to a code unit of the same value and consumes itself alone. */
  lemma AsciiLead(b0: Byte, b1: Byte, b2: Byte, b3: Byte)
    requires b0 < 0x80
    ensures StepOn(b0, b1, b2, b3) == Step([b0 as CodeUnit], 1)
    ensures (b0 as CodeUnit) as bv8 == b0
  {
  }

  /** A lead byte 0xC0..0xDF consumes two bytes and yields one unit. */
  lemma TwoByteLead(b0: Byte, b1: Byte, b2: Byte, b3: Byte)
    requires 0xC0 <= b0 <= 0xDF
    ensures StepOn(b0, b1, b2, b3) == Step([TwoByteUnit(b0, b1)], 2)
  {
  }

  /** A lead byte 0xE0..0xEF consumes three bytes and yields one unit. */
  lemma ThreeByteLead(b0: Byte, b1: Byte, b2: Byte, b3: Byte)
    requires 0xE0 <= b0 <= 0xEF
    ensures StepOn(b0, b1, b2, b3) == Step([ThreeByteUnit(b0, b1, b2)], 3)
  {
  }

  /** Every other byte, a continuation byte 0x80..0xBF included, is taken as a four-byte lead. */
  lemma FourByteLead(b0: Byte, b1: Byte, b2: Byte, b3: Byte)
    requires 0x80 <= b0 <= 0xBF || 0xF0 <= b0
    ensures StepOn(b0, b1, b2, b3) == Step(SurrogatePair(b0, b1, b2, b3), 4)
  {
  }

  /**
   * The step's width follows the lead byte's announced sequence length when
   * there is one; every other byte (a continuation byte or 0xF8..0xFF) is
   * treated as a four-byte lead.
   */
  lemma WidthFollowsLeadByte(b0: Byte, b1: Byte, b2: Byte, b3: Byte)
    ensures SequenceLength(b0) != 0 ==> StepOn(b0, b1, b2, b3).width == SequenceLength(b0)
    ensures SequenceLength(b0) == 0 ==> StepOn(b0, b1, b2, b3).width == 4
  {
    if b0 < 0x80 {
      AsciiLead(b0, b1, b2, b3);
    } else if b0 <= 0xBF {
      FourByteLead(b0, b1, b2, b3);
    } else if b0 <= 0xDF {
      TwoByteLead(b0, b1, b2, b3);
    } else if b0 <= 0xEF {
      ThreeByteLead(b0, b1, b2, b3);
    } else {
      FourByteLead(b0, b1, b2, b3);
    }
  }

  /**
   * Bytes past the end of the array are read as 0: a step decodes as if the
   * array were padded with three zero bytes.
   */
  lemma ReadsPastEndAsZero(data: seq<Byte>, i: nat)
    requires i < |data|
    ensures DecodeStep(data, i) == DecodeStep(data + [0, 0, 0], i)
  {
    var padded := data + [0, 0, 0];
    assert padded[i] == data[i];
    assert At(data, i + 1) == At(padded, i + 1);
    assert At(data, i + 2) == At(padded, i + 2);
    assert At(data, i + 3) == At(padded, i + 3);
  }

  /** A well-formed two-byte sequence (RFC 3629, section 3) yields the scalar value it encodes. */
  lemma TwoByteDecodes(c: Scalar)
    requires 0x80 <= c < 0x800
    ensures [TwoByteUnit((0xC0 | (c >> 6)) as bv8, (0x80 | (c & 0x3F)) as bv8)] == Utf16Encode(c)
  {
  }

  /** A well-formed three-byte sequence (RFC 3629, section 3) yields the scalar value it encodes. */
  lemma ThreeByteDecodes(c: Scalar)
    requires 0x800 <= c < 0x1_0000
    ensures [ThreeByteUnit((0xE0 | (c >> 12)) as bv8, (0x80 | ((c >> 6) & 0x3F)) as bv8, (0x80 | (c & 0x3F)) as bv8)]
         == Utf16Encode(c)
  {
  }

  /** The four-byte branch on a well-formed sequence reassembles the scalar value minus 0x10000. */
  lemma FourByteOffsetDecodes(c: Scalar)
    requires 0x1_0000 <= c
    ensures FourByteOffset((0xF0 | (c >> 18)) as bv8, (0x80 | ((c >> 12) & 0x3F)) as bv8,
                           (0x80 | ((c >> 6) & 0x3F)) as bv8, (0x80 | (c & 0x3F)) as bv8) == c - 0x1_0000
  {
  }

  /** On an offset below 2^20 the two halves of the surrogate branch are the RFC 2781 pair. */
  lemma SurrogateHalves(u: bv32)
    requires u <= 0xF_FFFF
    ensures ToUint16(Sar(u, 10) | 0xD800) == HighSurrogate(u)
    ensures ToUint16((u & 0x03FF) | 0xDC00) == LowSurrogate(u)
  {
    SarTenFillsSign(u);
  }

  /** The surrogate branch splits whatever offset it assembled into the RFC 2781 pair, if it is below 2^20. */
  lemma PairOfOffset(b0: Byte, b1: Byte, b2: Byte, b3: Byte, u: bv32)
    requires FourByteOffset(b0, b1, b2, b3) == u <= 0xF_FFFF
    ensures SurrogatePair(b0, b1, b2, b3) == [HighSurrogate(u), LowSurrogate(u)]
  {
    SurrogateHalves(u);
  }

  /** The surrogate-pair branch on a well-formed four-byte sequence yields the scalar's UTF-16 pair. */
  lemma FourByteDecodes(c: Scalar)
    requires 0x1_0000 <= c
    ensures SurrogatePair((0xF0 | (c >> 18)) as bv8, (0x80 | ((c >> 12) & 0x3F)) as bv8,
                          (0x80 | ((c >> 6) & 0x3F)) as bv8, (0x80 | (c & 0x3F)) as bv8) == Utf16Encode(c)
  {
    FourByteOffsetDecodes(c);
    PairOfOffset((0xF0 | (c >> 18)) as bv8, (0x80 | ((c >> 12) & 0x3F)) as bv8,
                 (0x80 | ((c >> 6) & 0x3F)) as bv8, (0x80 | (c & 0x3F)) as bv8, c - 0x1_0000);
  }

  /** On the UTF-8 encoding of a scalar value, the step yields its UTF-16 encoding and consumes exactly the encoding. */
  lemma EncodingSteps(c: Scalar, b1: Byte, b2: Byte, b3: Byte)
    requires var e := Utf8Encode(c);
      && (|e| > 1 ==> b1 == e[1]) && (|e| > 2 ==> b2 == e[2]) && (|e| > 3 ==> b3 == e[3])
    ensures StepOn(Utf8Encode(c)[0], b1, b2, b3) == Step(Utf16Encode(c), |Utf8Encode(c)|)
  {
    var e := Utf8Encode(c);
    if c < 0x80 {
      AsciiLead(e[0], b1, b2, b3);
    } else if c < 0x800 {
      TwoByteLead(e[0], b1, b2, b3);
      TwoByteDecodes(c);
    } else if c < 0x1_0000 {
      ThreeByteLead(e[0], b1, b2, b3);
      ThreeByteDecodes(c);
    } else {
      FourByteLead(e[0], b1, b2, b3);
      FourByteDecodes(c);
    }
  }

  /**
   * On the UTF-8 encoding of a scalar value one step consumes exactly that
   * sequence and yields the value's UTF-16 encoding.
   */
  lemma StepDecodesScalar(data: seq<Byte>, i: nat, c: Scalar)
    requires i + |Utf8Encode(c)| <= |data|
    requires data[i..i + |Utf8Encode(c)|] == Utf8Encode(c)
    ensures DecodeStep(data, i) == Step(Utf16Encode(c), |Utf8Encode(c)|)
  {
    var e := Utf8Encode(c);
    forall j | 0 <= j < |e|
      ensures At(data, i + j) == e[j]
    {
      assert data[i..i + |e|][j] == e[j];
    }
    assert data[i] == e[0] by {
      assert At(data, i + 0) == e[0];
    }
    EncodingSteps(c, At(data, i + 1), At(data, i + 2), At(data, i + 3));
  }

  // ---------------------------------------------------------------------------
  // Properties of the whole decoder
  // ---------------------------------------------------------------------------

  /** Decoding from index i is the step at i followed by decoding from where the step leaves off. */
  lemma DecodeFromUnfolds(data: seq<Byte>, i: nat)
    requires i < |data|
    ensures DecodeFrom(data, i) == DecodeStep(data, i).units + DecodeFrom(data, i + DecodeStep(data, i).width)
  {
  }

  /** A step reads the same bytes of d whether or not d follows a prefix p. */
  lemma StepIgnoresPrefix(p: seq<Byte>, d: seq<Byte>, i: nat)
    requires i < |d|
    ensures DecodeStep(p + d, |p| + i) == DecodeStep(d, i)
  {
    var pd := p + d;
    assert pd[|p| + i] == d[i];
    assert At(pd, |p| + i + 1) == At(d, i + 1);
    assert At(pd, |p| + i + 2) == At(d, i + 2);
    assert At(pd, |p| + i + 3) == At(d, i + 3);
  }

  /** From index |p| + i of p + d the loop takes the step it takes from index i of d. */
  lemma ShiftedUnfolds(p: seq<Byte>, d: seq<Byte>, i: nat)
    requires i < |d|
    ensures DecodeFrom(p + d, |p| + i) == DecodeStep(d, i).units + DecodeFrom(p + d, |p| + (i + DecodeStep(d, i).width))
  {
    StepIgnoresPrefix(p, d, i);
    DecodeFromUnfolds(p + d, |p| + i);
    assert |p| + i + DecodeStep(d, i).width == |p| + (i + DecodeStep(d, i).width);
  }

  /** Decoding p + d from index |p| + i is decoding d from index i: the loop never looks back. */
  lemma {:induction false} DecodeFromShift(p: seq<Byte>, d: seq<Byte>, i: nat)
    ensures DecodeFrom(p + d, |p| + i) == DecodeFrom(d, i)
    decreases |d| - i
  {
    if i < |d| {
      var s := DecodeStep(d, i);
      var next := i + s.width;
      ShiftedUnfolds(p, d, i);
      DecodeFromUnfolds(d, i);
      DecodeFromShift(p, d, next);
      assert DecodeFrom(p + d, |p| + i) == s.units + DecodeFrom(d, next);
    }
  }

  /** A leading sequence whose step consumes all of it decodes on its own, and the rest decodes after it. */
  lemma DecodeConcat(e: seq<Byte>, rest: seq<Byte>, units: seq<CodeUnit>)
    requires 0 < |e|
    requires DecodeStep(e + rest, 0) == Step(units, |e|)
    ensures Decode(e + rest) == units + Decode(rest)
  {
    DecodeFromUnfolds(e + rest, 0);
    DecodeFromShift(e, rest, 0);
  }

  /** Decoding the UTF-8 encoding of any text yields its UTF-16 encoding. */
  lemma {:induction false} DecodesUtf8Text(text: seq<Scalar>)
    ensures Decode(Utf8EncodeAll(text)) == Utf16EncodeAll(text)
  {
    if text != [] {
      var e, rest := Utf8Encode(text[0]), Utf8EncodeAll(text[1..]);
      assert (e + rest)[0..|e|] == e;
      StepDecodesScalar(e + rest, 0, text[0]);
      DecodeConcat(e, rest, Utf16Encode(text[0]));
      DecodesUtf8Text(text[1..]);
    }
  }

  /** UTF-16 never needs more code units than UTF-8 needs bytes. */
  lemma {:induction false} UnitsNoMoreThanBytes(text: seq<Scalar>)
    ensures |Utf16EncodeAll(text)| <= |Utf8EncodeAll(text)|
  {
    if text != [] {
      UnitsNoMoreThanBytes(text[1..]);
    }
  }

  /** For well-formed input the decoder emits at most one code unit per byte. */
  lemma WellFormedOutputNoLonger(text: seq<Scalar>)
    ensures |Decode(Utf8EncodeAll(text))| <= |Utf8EncodeAll(text)|
  {
    DecodesUtf8Text(text);
    UnitsNoMoreThanBytes(text);
  }

  /** An ASCII byte contributes its own unit and the decoding goes on at the next byte. */
  lemma AsciiPeels(data: seq<Byte>, i: nat)
    requires i < |data| && data[i] < 0x80
    ensures DecodeFrom(data, i) == [data[i] as CodeUnit] + DecodeFrom(data, i + 1)
  {
    AsciiLead(data[i], At(data, i + 1), At(data, i + 2), At(data, i + 3));
    DecodeFromUnfolds(data, i);
  }

  /** A lead 0xC0..0xDF contributes one unit from two bytes and the decoding goes on two bytes later. */
  lemma TwoBytePeels(data: seq<Byte>, i: nat)
    requires i < |data| && 0xC0 <= data[i] <= 0xDF
    ensures DecodeFrom(data, i) == [TwoByteUnit(data[i], At(data, i + 1))] + DecodeFrom(data, i + 2)
  {
    TwoByteLead(data[i], At(data, i + 1), At(data, i + 2), At(data, i + 3));
    DecodeFromUnfolds(data, i);
  }

  /** A lead 0xE0..0xEF contributes one unit from three bytes and the decoding goes on three bytes later. */
  lemma ThreeBytePeels(data: seq<Byte>, i: nat)
    requires i < |data| && 0xE0 <= data[i] <= 0xEF
    ensures DecodeFrom(data, i) == [ThreeByteUnit(data[i], At(data, i + 1), At(data, i + 2))] + DecodeFrom(data, i + 3)
  {
    ThreeByteLead(data[i], At(data, i + 1), At(data, i + 2), At(data, i + 3));
    DecodeFromUnfolds(data, i);
  }

  /** Any other lead contributes a surrogate pair from four bytes and the decoding goes on four bytes later. */
  lemma FourBytePeels(data: seq<Byte>, i: nat)
    requires i < |data| && (0x80 <= data[i] <= 0xBF || 0xF0 <= data[i])
    ensures DecodeFrom(data, i) == SurrogatePair(data[i], At(data, i + 1), At(data, i + 2), At(data, i + 3))
                                   + DecodeFrom(data, i + 4)
  {
    FourByteLead(data[i], At(data, i + 1), At(data, i + 2), At(data, i + 3));
    DecodeFromUnfolds(data, i);
  }

  /** An all-ASCII array decodes, from any index, to the code units equal to its bytes. */
  lemma {:induction false} AsciiDecodesToItself(data: seq<Byte>, i: nat)
    requires forall k | 0 <= k < |data| :: data[k] < 0x80
    requires i <= |data|
    ensures |DecodeFrom(data, i)| == |data| - i
    ensures forall k | 0 <= k < |data| - i :: DecodeFrom(data, i)[k] == data[i + k] as CodeUnit
    decreases |data| - i
  {
    if i < |data| {
      AsciiPeels(data, i);
      AsciiDecodesToItself(data, i + 1);
    }
  }

  /** A stray continuation byte takes the surrogate branch and yields 0xFFC0 and a lone low surrogate. */
  lemma StrayContinuationByte()
    ensures Decode([0x80]) == [0xFFC0, 0xDC00]
  {
  }

  /** A truncated three-byte sequence reads its missing byte as 0. */
  lemma TruncatedThreeByteSequence()
    ensures Decode([0xE2, 0x82]) == [0x2080]
  {
  }
}
