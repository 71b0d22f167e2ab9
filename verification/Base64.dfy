/** Base64 encoding and decoding (RFC 4648, section 4): the loops of base64_Encode and
    base64_Decode, and the reference encoding by 24-bit groups. */
module Base64 {

  import opened Common

  const PAD: byte := 61

  /** -1 in the table, as an unsigned byte. */
  const INVALID: byte := 0xFF

  // ----- The two tables ------------------------------------------------------------------------

  function IndexToChar(i: byte): byte
    requires i < 64
  {
    if i < 26 then 65 + i
    else if i < 52 then 97 + (i - 26)
    else if i < 62 then 48 + (i - 52)
    else if i == 62 then 43 else 47
  }

  function CharToIndex(c: byte): byte {
    if 65 <= c <= 90 then c - 65
    else if 97 <= c <= 122 then c - 97 + 26
    else if 48 <= c <= 57 then c - 48 + 52
    else if c == 43 then 62
    else if c == 45 || c == 47 then 63
    else INVALID
  }

  /** Right shift by four of a table value; -1 stays -1. */
  function ShiftRight4(data: byte): byte {
    if data == INVALID then INVALID else data >> 4
  }

  lemma {:induction false} TablesInvert(i: byte)
    requires i < 64
    ensures CharToIndex(IndexToChar(i)) == i && IndexToChar(i) != PAD && IndexToChar(i) != 0 &&
              CharToIndex(PAD) == INVALID
  {
  }

  /** Character k of the alphabet of RFC 4648, section 4. */
  function Letter(k: int): int
    requires 0 <= k < 64
  {
    if k < 26 then 'A' as int + k
    else if k < 52 then 'a' as int + k - 26
    else if k < 62 then '0' as int + k - 52
    else if k == 62 then '+' as int else '/' as int
  }

  /** The encoder's table is the alphabet. The decoder's inverts it, and takes '-' for the last character too,
      and nothing else. */
  lemma {:induction false} TablesAreAlphabet(i: byte, c: byte)
    requires i < 64
    ensures IndexToChar(i) as int == Letter(i as int)
    ensures CharToIndex(c) == i <==> c as int == Letter(i as int) || (c as int == '-' as int && i == 63)
    ensures CharToIndex(c) < 64 || CharToIndex(c) == 255
  {
  }

  /** A group whose second character is none of them decodes to a first byte of ones. */
  lemma {:induction false} InvalidSecond(c0: byte, c1: byte, c2: byte, c3: byte)
    requires CharToIndex(c1) == 255
    ensures DecodeQuad(c0, c1, c2, c3)[0] == 255
  {
  }

  // ----- The reference encoding ----------------------------------------------------------------

  /** Three bytes concatenated. */
  function Group(a: byte, b: byte, c: byte): bv24 {
    ((a as bv24) << 16) | ((b as bv24) << 8) | (c as bv24)
  }

  /** The k-th group of six bits, from the left. */
  function Sextet(g: bv24, k: nat): (r: byte)
    requires k < 4
    ensures r < 64
  {
    match k
    case 0 => ((g >> 18) & 0x3f) as byte
    case 1 => ((g >> 12) & 0x3f) as byte
    case 2 => ((g >> 6) & 0x3f) as byte
    case _ => (g & 0x3f) as byte
  }

  function Char(g: bv24, k: nat): byte
    requires k < 4
  {
    IndexToChar(Sextet(g, k))
  }

  /** RFC 4648: each 24-bit group as four characters; a shorter last group is filled with zero bits
      and padded. */
  function Encoding(x: seq<byte>): (r: seq<byte>)
    ensures |r| == (|x| + 2) / 3 * 4
  {
    if |x| == 0 then []
    else if |x| == 1 then var g := Group(x[0], 0, 0); [Char(g, 0), Char(g, 1), PAD, PAD]
    else if |x| == 2 then var g := Group(x[0], x[1], 0); [Char(g, 0), Char(g, 1), Char(g, 2), PAD]
    else var g := Group(x[0], x[1], x[2]); [Char(g, 0), Char(g, 1), Char(g, 2), Char(g, 3)] + Encoding(x[3..])
  }

  /** The first group of an encoding and what follows it. */
  lemma {:induction false} FirstGroup(x: seq<byte>)
    requires |x| > 0
    ensures var s, g := Encoding(x), Group(x[0], if |x| > 1 then x[1] else 0, if |x| > 2 then x[2] else 0);
            && |s| >= 4 && s[0] == Char(g, 0) && s[1] == Char(g, 1)
            && s[2] == (if |x| > 1 then Char(g, 2) else PAD) && s[3] == (if |x| > 2 then Char(g, 3) else PAD)
            && s[4..] == if |x| >= 3 then Encoding(x[3..]) else []
  {
    hide Group, Char;
  }

  lemma {:induction false} SextetBits(a: byte, b: byte, c: byte)
    ensures var g := Group(a, b, c);
            && Sextet(g, 0) == a >> 2 && Sextet(g, 1) == ((a & 0x3) << 4) | (b >> 4)
            && Sextet(g, 2) == ((b & 0xf) << 2) | (c >> 6) && Sextet(g, 3) == c & 0x3f
  {
  }

  // ----- Decoding ------------------------------------------------------------------------------

  function Byte0(data0: byte, data1: byte): byte { (data0 << 2) | ShiftRight4(data1) }

  function Byte1(data1: byte, data2: byte): byte { (data1 << 4) | (data2 >> 2) }

  function Byte2(data2: byte, data3: byte): byte { (data2 << 6) | data3 }

  /** The bytes of four table values: three, or fewer when the third or fourth is invalid. */
  function FromIndices(data0: byte, data1: byte, data2: byte, data3: byte): (r: seq<byte>)
    ensures 1 <= |r| <= 3
  {
    if data2 == INVALID then [Byte0(data0, data1)]
    else if data3 == INVALID then [Byte0(data0, data1), Byte1(data1, data2)]
    else [Byte0(data0, data1), Byte1(data1, data2), Byte2(data2, data3)]
  }

  /** The bytes a four-character group decodes to. */
  function DecodeQuad(c0: byte, c1: byte, c2: byte, c3: byte): (r: seq<byte>)
    ensures 1 <= |r| <= 3
  {
    FromIndices(CharToIndex(c0), CharToIndex(c1), CharToIndex(c2), CharToIndex(c3))
  }

  function QuadAt(s: seq<byte>, i: nat): (r: seq<byte>)
    requires i + 4 <= |s|
    ensures 1 <= |r| <= 3
  {
    DecodeQuad(s[i], s[i + 1], s[i + 2], s[i + 3])
  }

  /** A text of whole groups. */
  predicate Whole(s: seq<byte>) { |s| % 4 == 0 }

  /** The room allocated for the decoded bytes. */
  function Room(s: seq<byte>): nat { |s| / 4 * 3 }

  /** The bytes written: decoding stops after the first short group. */
  function Decoding(s: seq<byte>): seq<byte>
    requires Whole(s)
  {
    if |s| == 0 then []
    else if |QuadAt(s, 0)| < 3 then QuadAt(s, 0)
    else QuadAt(s, 0) + Decoding(s[4..])
  }

  /** The length reported: three bytes per group, less what the first short group lacks. */
  function ReportedLen(s: seq<byte>): int
    requires Whole(s)
  {
    if |s| == 0 then 0
    else if |QuadAt(s, 0)| < 3 then Room(s) - (3 - |QuadAt(s, 0)|)
    else 3 + ReportedLen(s[4..])
  }

  // ----- Properties ----------------------------------------------------------------------------

  lemma {:induction false} DecodingStep(s: seq<byte>)
    requires Whole(s) && |s| >= 4 && |QuadAt(s, 0)| == 3
    ensures Whole(s[4..]) && Decoding(s) == QuadAt(s, 0) + Decoding(s[4..]) && ReportedLen(s) == 3 + ReportedLen(s[4..])
  {
    hide QuadAt;
  }

  /** Decoding never writes more than it reports, nor reports more than three bytes a group. */
  lemma {:induction false} LengthBound(s: seq<byte>)
    requires Whole(s)
    ensures |Decoding(s)| <= ReportedLen(s) <= Room(s)
  {
    if |s| > 0 && |QuadAt(s, 0)| == 3 {
      LengthBound(s[4..]);
    }
  }

  /** The reported length is the number of bytes
      written if and only if no group before the last is short. */
  lemma {:induction false} LengthExact(s: seq<byte>)
    requires Whole(s)
    ensures |Decoding(s)| == ReportedLen(s) <==> forall q :: 0 <= q < |s| / 4 - 1 ==> |QuadAt(s, 4 * q)| == 3
  {
    if |s| > 0 {
      var rest := s[4..];
      if |QuadAt(s, 0)| < 3 {
        if |s| > 4 {
          assert |QuadAt(s, 4 * 0)| != 3;
        }
      } else {
        LengthExact(rest);
        forall q | 0 < q < |s| / 4 - 1 ensures QuadAt(s, 4 * q) == QuadAt(rest, 4 * (q - 1)) {
        }
        if forall q :: 0 <= q < |s| / 4 - 1 ==> |QuadAt(s, 4 * q)| == 3 {
          forall q | 0 <= q < |rest| / 4 - 1 ensures |QuadAt(rest, 4 * q)| == 3 {
            assert QuadAt(s, 4 * (q + 1)) == QuadAt(rest, 4 * q);
          }
        }
      }
    }
  }

  /** A padded group in front of a full one: one byte is written and four are reported. */
  lemma {:induction false} ReportsTooMuch()
    ensures var s := [81, 81, PAD, PAD, 81, 85, 74, 67];
            Whole(s) && |Decoding(s)| == 1 && ReportedLen(s) == 4
  {
    hide Byte0, Byte1, Byte2;
    var s: seq<byte> := [81, 81, PAD, PAD, 81, 85, 74, 67];
    assert |QuadAt(s, 0)| == 1;
  }

  lemma {:induction false} FromSextets(i0: byte, i1: byte, i2: byte, i3: byte)
    requires i0 < 64 && i1 < 64 && i2 < 64 && i3 < 64
    ensures FromIndices(i0, i1, i2, i3) == [(i0 << 2) | (i1 >> 4), (i1 << 4) | (i2 >> 2), (i2 << 6) | i3]
    ensures FromIndices(i0, i1, i2, INVALID) == [(i0 << 2) | (i1 >> 4), (i1 << 4) | (i2 >> 2)]
    ensures FromIndices(i0, i1, INVALID, INVALID) == [(i0 << 2) | (i1 >> 4)]
  {
  }

  lemma {:induction false} DecodeChars(i0: byte, i1: byte, i2: byte, i3: byte)
    requires i0 < 64 && i1 < 64 && i2 < 64 && i3 < 64
    ensures var (c0, c1, c2, c3) := (IndexToChar(i0), IndexToChar(i1), IndexToChar(i2), IndexToChar(i3));
            var (b0, b1, b2) := ((i0 << 2) | (i1 >> 4), (i1 << 4) | (i2 >> 2), (i2 << 6) | i3);
            && DecodeQuad(c0, c1, c2, c3) == [b0, b1, b2]
            && DecodeQuad(c0, c1, c2, PAD) == [b0, b1]
            && DecodeQuad(c0, c1, PAD, PAD) == [b0]
  {
    hide IndexToChar, CharToIndex, FromIndices;
    FromSextets(i0, i1, i2, i3);
    TablesInvert(i0);
    TablesInvert(i1);
    TablesInvert(i2);
    TablesInvert(i3);
  }

  lemma {:induction false} QuadInverts(a: byte, b: byte, c: byte)
    ensures var g := Group(a, b, c);
            && DecodeQuad(Char(g, 0), Char(g, 1), Char(g, 2), Char(g, 3)) == [a, b, c]
            && DecodeQuad(Char(g, 0), Char(g, 1), Char(g, 2), PAD) == [a, b]
            && DecodeQuad(Char(g, 0), Char(g, 1), PAD, PAD) == [a]
  {
    hide Group, Sextet, IndexToChar, DecodeQuad;
    var g := Group(a, b, c);
    SextetBits(a, b, c);
    SextetsInvert(a, b, c);
    DecodeChars(Sextet(g, 0), Sextet(g, 1), Sextet(g, 2), Sextet(g, 3));
  }

  lemma {:induction false} SextetsInvert(a: byte, b: byte, c: byte)
    ensures ((a >> 2) << 2) | ((((a & 0x3) << 4) | (b >> 4)) >> 4) == a
    ensures ((((a & 0x3) << 4) | (b >> 4)) << 4) | ((((b & 0xf) << 2) | (c >> 6)) >> 2) == b
    ensures ((((b & 0xf) << 2) | (c >> 6)) << 6) | (c & 0x3f) == c
  {
  }

  /** Round trip: decoding the encoding of any byte string gives it back, with the exact length. */
  lemma {:induction false} RoundTrip(x: seq<byte>)
    ensures Decoding(Encoding(x)) == x && ReportedLen(Encoding(x)) == |x|
  {
    hide DecodeQuad, Char, Group, Encoding;
    if |x| > 0 {
      var b, c := if |x| > 1 then x[1] else 0, if |x| > 2 then x[2] else 0;
      FirstGroup(x);
      QuadInverts(x[0], b, c);
      if |x| >= 3 {
        RoundTrip(x[3..]);
      }
    }
  }

  lemma {:induction false} CharIs(g: bv24, k: nat)
    requires k < 4
    ensures Char(g, k) != 0 && Char(g, k) != PAD
  {
    TablesInvert(Sextet(g, k));
  }

  lemma {:induction false} PaddingFirst(x: seq<byte>, i: nat)
    requires |x| > 0 && i < 4
    ensures |Encoding(x)| >= 4 && Encoding(x)[i] != 0 && (Encoding(x)[i] == PAD <==> i > |x|)
  {
    hide Group, Char, Encoding;
    FirstGroup(x);
    var g := Group(x[0], if |x| > 1 then x[1] else 0, if |x| > 2 then x[2] else 0);
    CharIs(g, 0);
    CharIs(g, 1);
    CharIs(g, 2);
    CharIs(g, 3);
  }

  lemma {:induction false} PaddingLater(x: seq<byte>, i: nat)
    requires 4 <= i < |Encoding(x)|
    ensures |x| > 3 && |Encoding(x)| == |Encoding(x[3..])| + 4 && Encoding(x)[i] == Encoding(x[3..])[i - 4]
  {
    hide Group, Char, Encoding;
    FirstGroup(x);
    assert Encoding(x)[i] == Encoding(x)[4..][i - 4];
  }

  /** The characters of an encoding are never NUL, and padding comes only in its last group: one
      character for each byte the last group lacks. */
  lemma {:induction false} PaddingIs(x: seq<byte>, i: nat)
    requires i < |Encoding(x)|
    ensures Encoding(x)[i] != 0
    ensures Encoding(x)[i] == PAD <==> i >= |Encoding(x)| - (3 - |x| % 3) % 3
  {
    hide Encoding;
    if i < 4 {
      PaddingFirst(x, i);
    } else {
      PaddingLater(x, i);
      PaddingIs(x[3..], i - 4);
    }
  }

  // ----- The loops -----------------------------------------------------------------------------

  function High6(a: byte): (r: byte)
    ensures r < 64
  {
    a >> 2
  }

  function Low2(a: byte): (r: byte)
    ensures r < 64
  {
    (a & 0x3) << 4
  }

  function WithHigh4(in1: byte, b: byte): (r: byte)
    requires in1 < 64
    ensures r < 64
  {
    in1 | (b >> 4)
  }

  function Low4(b: byte): (r: byte)
    ensures r < 64
  {
    (b & 0xf) << 2
  }

  function WithHigh2(in2: byte, c: byte): (r: byte)
    requires in2 < 64
    ensures r < 64
  {
    in2 | (c >> 6)
  }

  function Low6(c: byte): (r: byte)
    ensures r < 64
  {
    c & 0x3f
  }

  /** The first four characters of an encoding, by the bit operations of the loop. */
  lemma {:induction false} FirstQuad(s: seq<byte>)
    requires |s| > 0
    ensures |s| == 1 ==> Encoding(s) == [IndexToChar(High6(s[0])), IndexToChar(Low2(s[0])), PAD, PAD]
    ensures |s| == 2 ==>
              Encoding(s) == [IndexToChar(High6(s[0])), IndexToChar(WithHigh4(Low2(s[0]), s[1])),
                              IndexToChar(Low4(s[1])), PAD]
    ensures |s| >= 3 ==>
              Encoding(s) == [IndexToChar(High6(s[0])), IndexToChar(WithHigh4(Low2(s[0]), s[1])),
                              IndexToChar(WithHigh2(Low4(s[1]), s[2])), IndexToChar(Low6(s[2]))] + Encoding(s[3..])
  {
    hide Group, Sextet, IndexToChar, High6, Low2, WithHigh4, Low4, WithHigh2, Low6;
    LoopBits(s[0], if |s| > 1 then s[1] else 0, if |s| > 2 then s[2] else 0);
  }

  lemma {:induction false} LoopBits(a: byte, b: byte, c: byte)
    ensures var g := Group(a, b, c);
            && Sextet(g, 0) == High6(a) && Sextet(g, 1) == WithHigh4(Low2(a), b)
            && Sextet(g, 2) == WithHigh2(Low4(b), c) && Sextet(g, 3) == Low6(c)
    ensures WithHigh4(Low2(a), 0) == Low2(a) && WithHigh2(Low4(b), 0) == Low4(b)
  {
    hide Group, Sextet;
    SextetBits(a, b, c);
  }

  function Least(n: nat): nat { if n < 3 then n else 3 }

  /** One iteration of the encoding loop: up to three bytes become four characters. */
  method EncodeGroup(src: seq<byte>, outData: array<byte>, dst: nat) returns (used: nat)
    requires src != [] && dst + 4 <= outData.Length
    modifies outData
    ensures used == Least(|src|) && |Encoding(src)| >= 4
    ensures forall k :: dst <= k < dst + 4 ==> outData[k] == Encoding(src)[k - dst]
    ensures forall k :: 0 <= k < outData.Length && !(dst <= k < dst + 4) ==> outData[k] == old(outData[k])
  {
    hide Encoding, IndexToChar, High6, Low2, WithHigh4, Low4, WithHigh2, Low6;
    FirstQuad(src);
    var in0 := High6(src[0]);
    var in1 := Low2(src[0]);
    outData[dst] := IndexToChar(in0);
    outData[dst + 1] := IndexToChar(in1);
    used := 1;
    if |src| == 1 {
      outData[dst + 2] := PAD;
      outData[dst + 3] := PAD;
      return;
    }
    in1 := WithHigh4(in1, src[1]);
    var in2 := Low4(src[1]);
    outData[dst + 1] := IndexToChar(in1);
    outData[dst + 2] := IndexToChar(in2);
    used := 2;
    if |src| == 2 {
      outData[dst + 3] := PAD;
      return;
    }
    in2 := WithHigh2(in2, src[2]);
    var in3 := Low6(src[2]);
    outData[dst + 2] := IndexToChar(in2);
    outData[dst + 3] := IndexToChar(in3);
    used := 3;
  }

  /** What remains of an encoding after its first group. */
  lemma {:induction false} EncodingRest(whole: seq<byte>, dst: nat, src: seq<byte>, s: nat)
    requires s < |src| && dst <= |whole| && whole[dst..] == Encoding(src[s..])
    ensures var used := Least(|src| - s);
            dst + 4 <= |whole| && whole[dst + 4..] == Encoding(src[s + used..])
  {
    var rest := src[s..];
    assert whole[dst..][4..] == whole[dst + 4..];
    if |rest| >= 3 {
      assert rest[3..] == src[s + 3..];
    } else {
      assert src[s + |rest|..] == [];
    }
  }

  /** base64_Encode: the encoding as a NUL-terminated string. */
  method Encode(src: seq<byte>) returns (outData: array<byte>)
    ensures fresh(outData) && outData[..] == Encoding(src) + [0]
  {
    var outLen := (|src| + 2) / 3 * 4;
    outData := new byte[1 + outLen];
    outData[outLen] := 0;
    var s, dst := 0, 0;
    ghost var whole := Encoding(src);
    EncodingNothing();
    hide Encoding;
    while s < |src|
      invariant 0 <= s <= |src| && 0 <= dst <= outLen && outData.Length == 1 + outLen && outData[outLen] == 0
      invariant whole[dst..] == Encoding(src[s..]) && forall k :: 0 <= k < dst ==> outData[k] == whole[k]
      decreases |src| - s
    {
      EncodingRest(whole, dst, src, s);
      var used := EncodeGroup(src[s..], outData, dst);
      forall k | dst <= k < dst + 4 ensures outData[k] == whole[k] {
        assert whole[k] == whole[dst..][k - dst];
      }
      s, dst := s + used, dst + 4;
    }
    assert src[s..] == [];
  }

  lemma {:induction false} EncodingNothing()
    ensures Encoding([]) == []
  {
  }

  /** The bytes of the first group, by its table values. */
  lemma {:induction false} FirstBytes(src: seq<byte>)
    requires |src| >= 4
    ensures var (data0, data1, data2, data3) := (CharToIndex(src[0]), CharToIndex(src[1]), CharToIndex(src[2]),
                                                 CharToIndex(src[3]));
            QuadAt(src, 0) == if data2 == INVALID then [Byte0(data0, data1)]
                              else if data3 == INVALID then [Byte0(data0, data1), Byte1(data1, data2)]
                              else [Byte0(data0, data1), Byte1(data1, data2), Byte2(data2, data3)]
  {
    hide CharToIndex, Byte0, Byte1, Byte2;
  }

  /** One iteration of the decoding loop: the bytes of one group. */
  method DecodeGroup(src: seq<byte>, outData: array<byte>, dst: nat) returns (written: nat)
    requires |src| >= 4 && dst + 3 <= outData.Length
    modifies outData
    ensures written == |QuadAt(src, 0)| && forall k :: dst <= k < dst + written ==>
                                                       outData[k] == QuadAt(src, 0)[k - dst]
    ensures forall k :: 0 <= k < dst ==> outData[k] == old(outData[k])
  {
    hide CharToIndex, Byte0, Byte1, Byte2, QuadAt;
    FirstBytes(src);
    var data0, data1, data2, data3 := CharToIndex(src[0]), CharToIndex(src[1]), CharToIndex(src[2]),
      CharToIndex(src[3]);
    outData[dst] := Byte0(data0, data1);
    if data2 == INVALID {
      return 1;
    }
    outData[dst + 1] := Byte1(data1, data2);
    if data3 == INVALID {
      return 2;
    }
    outData[dst + 2] := Byte2(data2, data3);
    return 3;
  }

  /** What remains to be decoded after the first group of rest. */
  lemma {:induction false} Advance(whole: seq<byte>, dst: nat, rest: seq<byte>)
    requires rest != [] && Whole(rest) && dst <= |whole| && whole[dst..] == Decoding(rest)
    ensures |rest| >= 4 && Whole(rest[4..]) && Room(rest) == 3 + Room(rest[4..])
    ensures var quad := QuadAt(rest, 0);
            && dst + |quad| <= |whole| && (forall k :: dst <= k < dst + |quad| ==> whole[k] == quad[k - dst])
            && if |quad| < 3 then |whole| == dst + |quad| && ReportedLen(rest) == Room(rest) - (3 - |quad|)
               else whole[dst + 3..] == Decoding(rest[4..]) && ReportedLen(rest) == 3 + ReportedLen(rest[4..])
  {
    hide DecodeQuad;
    assert forall k :: dst <= k < |whole| ==> whole[k] == whole[dst..][k - dst];
  }

  /** The decoding loop. */
  method DecodeInto(src: seq<byte>, outData: array<byte>) returns (numChars: nat)
    requires Whole(src) && outData.Length == Room(src)
    modifies outData
    ensures numChars == ReportedLen(src) && |Decoding(src)| <= numChars <= outData.Length
    ensures forall k :: 0 <= k < |Decoding(src)| ==> outData[k] == Decoding(src)[k]
  {
    var s, dst := 0, 0;
    numChars := outData.Length;
    LengthBound(src);
    ghost var whole := Decoding(src);
    assert src[0..] == src && whole[0..] == whole;
    hide QuadAt, Decoding, ReportedLen, Whole, Room;
    while s < |src|
      invariant 0 <= s <= |src| && 0 <= dst <= |whole| && numChars == outData.Length == dst + Room(src[s..]) &&
                  Whole(src[s..])
      invariant whole[dst..] == Decoding(src[s..]) && forall k :: 0 <= k < dst ==> outData[k] == whole[k]
      invariant ReportedLen(src) == dst + ReportedLen(src[s..])
      decreases |src| - s
    {
      ghost var rest := src[s..];
      Advance(whole, dst, rest);
      assert rest[4..] == src[s + 4..];
      var count := DecodeGroup(src[s..], outData, dst);
      if count < 3 {
        numChars := numChars - (3 - count);
        return;
      }
      s, dst := s + 4, dst + 3;
    }
    assert src[s..] == [];
    DecodingNothing();
  }

  /** base64_Decode: the buffer, of which len bytes are reported. */
  method Decode(src: seq<byte>) returns (outData: array<byte>, len: nat)
    requires Whole(src)
    ensures fresh(outData) && outData.Length == Room(src) && len == ReportedLen(src) &&
              |Decoding(src)| <= len <= outData.Length
    ensures outData[..|Decoding(src)|] == Decoding(src)
  {
    outData := new byte[Room(src)];
    len := DecodeInto(src, outData);
  }

  lemma {:induction false} DecodingNothing()
    ensures Whole([]) && Room([]) == 0 && Decoding([]) == [] && ReportedLen([]) == 0
  {
  }
}
