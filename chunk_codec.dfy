/**
 * Encoders for the primitive parts of a chunk, the way the reference Lua 5.4 dumper writes
 * them, and the round trips that tie them to the readers of ChunkFormat: the varint, the
 * little-endian words, the int64 reinterpretation, strings and tagged constants.
 */
module ChunkCodec {
  import opened Outcomes
  import opened BinchunkConst
  import opened BinchunkTypes
  import opened ChunkFormat

  // ---------------------------------------------------------------------------------------
  // The varint (binchunk/reader.go:52-74)
  // ---------------------------------------------------------------------------------------

  /** The 7-bit groups of y, most significant first, without flag bits; none for 0. */
  function Groups(y: nat): (gs: seq<byte>)
    ensures forall i | 0 <= i < |gs| :: gs[i] < 128
    decreases y
  {
    if y == 0 then [] else Groups(y / 128) + [y % 128]
  }

  /**
   * The varint of x: the groups of x / 128 with bit 7 clear, then the low group of x with
   * bit 7 SET. Zero is the single byte 0x80.
   */
  function EncodeUnsigned(x: nat): (bs: seq<byte>)
    ensures |bs| >= 1 && bs[|bs| - 1] >= 128
    ensures forall i | 0 <= i < |bs| - 1 :: bs[i] < 128
  {
    Groups(x / 128) + [x % 128 + 128]
  }

  /** The number the groups gs denote when shifted in after the accumulator acc. */
  function Accumulate(acc: nat, gs: seq<byte>): nat
    decreases |gs|
  {
    if gs == [] then acc else Accumulate(acc * 128 + gs[0], gs[1..])
  }

  /** Shifting groups in never makes the accumulator smaller. */
  lemma {:induction false} AccumulateAtLeast(acc: nat, gs: seq<byte>)
    ensures Accumulate(acc, gs) >= acc
    decreases |gs|
  {
    if gs != [] {
      AccumulateAtLeast(acc * 128 + gs[0], gs[1..]);
    }
  }

  /** The last group is shifted in last. */
  lemma {:induction false} AccumulateSnoc(acc: nat, gs: seq<byte>, g: byte)
    ensures Accumulate(acc, gs + [g]) == Accumulate(acc, gs) * 128 + g
    decreases |gs|
  {
    if gs == [] {
      assert [] + [g] == [g];
    } else {
      assert (gs + [g])[1..] == gs[1..] + [g];
      AccumulateSnoc(acc * 128 + gs[0], gs[1..], g);
    }
  }

  /** Reading the groups of y back gives y. */
  lemma {:induction false} AccumulateGroups(y: nat)
    ensures Accumulate(0, Groups(y)) == y
    decreases y
  {
    if y != 0 {
      AccumulateGroups(y / 128);
      AccumulateSnoc(0, Groups(y / 128), y % 128);
    }
  }

  /**
   * The varint loop over groups gs (bit 7 clear) followed by a flagged byte: it succeeds
   * exactly when the accumulator before the flagged byte is below lim, and then it has read
   * through the flagged byte.
   */
  lemma {:induction false} UnsignedFromGroups(d: seq<byte>, p: nat, acc: nat, lim: nat, gs: seq<byte>)
    requires p + |gs| < |d| && d[p + |gs|] >= 128
    requires forall i | 0 <= i < |gs| :: d[p + i] == gs[i] < 128
    ensures UnsignedFrom(d, p, acc, lim) ==
      if Accumulate(acc, gs) < lim then Ok(Parsed(Accumulate(acc, gs) * 128 + d[p + |gs|] % 128, p + |gs| + 1))
      else Err(IntegerOverflow)
    decreases |gs|
  {
    if gs != [] {
      AccumulateAtLeast(acc, gs);
      assert d[p + 0] == gs[0] < 128;
      assert d[p] % 128 == gs[0];
      if acc < lim {
        var rest := gs[1..];
        assert forall i | 0 <= i < |rest| :: d[p + 1 + i] == rest[i] < 128 by {
          forall i | 0 <= i < |rest|
            ensures d[p + 1 + i] == rest[i] < 128
          {
            assert d[p + (i + 1)] == gs[i + 1];
          }
        }
        UnsignedFromGroups(d, p + 1, acc * 128 + gs[0], lim, rest);
      }
    }
  }

  /** A slice of a slice is a slice. */
  lemma SubSlice(d: seq<byte>, p: nat, q: nat, i: nat, j: nat)
    requires p <= q <= |d| && i <= j <= q - p
    ensures d[p..q][i..j] == d[p + i..p + j]
  {
    assert forall k | 0 <= k < j - i :: d[p..q][i..j][k] == d[p + i + k];
  }

  /**
   * Round trip of the varint: reading the encoding of x against limit gives x and consumes
   * the whole encoding when x / 128 < limit / 128, and fails with an overflow otherwise.
   */
  lemma UnsignedRoundTrip(x: nat, limit: nat, d: seq<byte>, p: nat)
    requires p + |EncodeUnsigned(x)| <= |d| && d[p..p + |EncodeUnsigned(x)|] == EncodeUnsigned(x)
    ensures UnsignedAt(d, p, limit) ==
      if x / 128 < limit / 128 then Ok(Parsed(x, p + |EncodeUnsigned(x)|)) else Err(IntegerOverflow)
  {
    var hi, lo := x / 128, x % 128;
    var gs := Groups(hi);
    assert p + |gs| < |d| && d[p + |gs|] == lo + 128 && forall i | 0 <= i < |gs| :: d[p + i] == gs[i] < 128 by {
      var enc := EncodeUnsigned(x);
      forall i | 0 <= i <= |gs|
        ensures d[p + i] == enc[i]
      {
        assert d[p..p + |enc|][i] == enc[i];
      }
    }
    AccumulateGroups(hi);
    UnsignedFromEncoding(d, p, gs, hi, lo, limit / 128);
  }

  /** The varint loop over groups gs denoting hi, then the flagged low group lo, reads hi * 128 + lo. */
  lemma UnsignedFromEncoding(d: seq<byte>, p: nat, gs: seq<byte>, hi: nat, lo: nat, lim: nat)
    requires lo < 128 && Accumulate(0, gs) == hi
    requires p + |gs| < |d| && d[p + |gs|] == lo + 128
    requires forall i | 0 <= i < |gs| :: d[p + i] == gs[i] < 128
    ensures UnsignedFrom(d, p, 0, lim) ==
      if hi < lim then Ok(Parsed(hi * 128 + lo, p + |gs| + 1)) else Err(IntegerOverflow)
  {
    UnsignedFromGroups(d, p, 0, lim, gs);
    assert (lo + 128) % 128 == lo;
  }

  /** The largest count (exclusive) that `loadInt` can read back: 2^63 - 128. */
  const INT_READ_LIMIT: nat := 0x7FFF_FFFF_FFFF_FF80

  /** `loadInt` reads back exactly the numbers below 2^63 - 128 and rejects the others. */
  lemma IntRoundTrip(x: nat, d: seq<byte>, p: nat)
    requires p + |EncodeUnsigned(x)| <= |d| && d[p..p + |EncodeUnsigned(x)|] == EncodeUnsigned(x)
    ensures IntAt(d, p) ==
      if x < INT_READ_LIMIT then Ok(Parsed(x, p + |EncodeUnsigned(x)|)) else Err(IntegerOverflow)
  {
    assert MAX_INT / 128 == 0xFF_FFFF_FFFF_FFFF;
    assert x / 128 < 0xFF_FFFF_FFFF_FFFF <==> x < INT_READ_LIMIT;
    UnsignedRoundTrip(x, MAX_INT, d, p);
  }

  /** The two worked examples: `80` is 0 and `02 AC` is 300. */
  lemma UnsignedExamples()
    ensures IntAt([0x80], 0) == Ok(Parsed(0, 1))
    ensures IntAt([0x02, 0xAC], 0) == Ok(Parsed(300, 2))
  {
    assert EncodeUnsigned(0) == [0x80];
    IntRoundTrip(0, [0x80], 0);
    assert Groups(2) == Groups(0) + [2];
    assert EncodeUnsigned(300) == [0x02, 0xAC];
    IntRoundTrip(300, [0x02, 0xAC], 0);
  }

  // ---------------------------------------------------------------------------------------
  // Little-endian words and int64 (binchunk/reader.go:38-50)
  // ---------------------------------------------------------------------------------------

  /** The k little-endian bytes of x (the low k bytes when x does not fit). */
  function LittleEndianBytes(x: nat, k: nat): (bs: seq<byte>)
    ensures |bs| == k
  {
    if k == 0 then [] else [x % 256] + LittleEndianBytes(x / 256, k - 1)
  }

  /** Writing x in k bytes and reading them back gives x when it fits. */
  lemma {:induction false} LittleEndianRoundTrip(x: nat, k: nat)
    requires x < Pow256(k)
    ensures LittleEndian(LittleEndianBytes(x, k)) == x
  {
    if k > 0 {
      var bs := LittleEndianBytes(x, k);
      assert bs[1..] == LittleEndianBytes(x / 256, k - 1);
      LittleEndianRoundTrip(x / 256, k - 1);
    }
  }

  /** The other direction: the bytes are determined by the number they denote. */
  lemma {:induction false} LittleEndianBytesOf(bs: seq<byte>)
    ensures LittleEndianBytes(LittleEndian(bs), |bs|) == bs
    decreases |bs|
  {
    if bs != [] {
      var rest := LittleEndian(bs[1..]);
      assert (bs[0] + 256 * rest) % 256 == bs[0];
      assert (bs[0] + 256 * rest) / 256 == rest;
      LittleEndianBytesOf(bs[1..]);
    }
  }

  /** The uint64 pattern of an int64 (Go's `uint64(v)`). */
  function Uint64Of(v: int): (u: nat)
    requires -0x8000_0000_0000_0000 <= v < 0x8000_0000_0000_0000
    ensures u < 0x1_0000_0000_0000_0000
    ensures Int64Of(u) == v
  {
    if v >= 0 then v else v + 0x1_0000_0000_0000_0000
  }

  /** A 32-bit word written little-endian is read back by `loadUint32`. */
  lemma Uint32RoundTrip(w: nat, d: seq<byte>, p: nat)
    requires w < 0x1_0000_0000
    requires p + 4 <= |d| && d[p..p + 4] == LittleEndianBytes(w, 4)
    ensures Uint32At(d, p) == Ok(Parsed(w, p + 4))
  {
    Pow256Values();
    LittleEndianRoundTrip(w, 4);
  }

  /** An int64 written as its 64-bit pattern is read back by `loadLuaInteger`. */
  lemma LuaIntegerRoundTrip(v: int, d: seq<byte>, p: nat)
    requires -0x8000_0000_0000_0000 <= v < 0x8000_0000_0000_0000
    requires p + 8 <= |d| && d[p..p + 8] == LittleEndianBytes(Uint64Of(v), 8)
    ensures LuaIntegerAt(d, p) == Ok(Parsed(v, p + 8))
  {
    Pow256Values();
    LittleEndianRoundTrip(Uint64Of(v), 8);
  }

  /** A float's 64-bit pattern is read back unchanged by `loadLuaNumber`. */
  lemma LuaNumberRoundTrip(bits: nat, d: seq<byte>, p: nat)
    requires bits < 0x1_0000_0000_0000_0000
    requires p + 8 <= |d| && d[p..p + 8] == LittleEndianBytes(bits, 8)
    ensures LuaNumberAt(d, p) == Ok(Parsed(bits, p + 8))
  {
    Pow256Values();
    LittleEndianRoundTrip(bits, 8);
  }

  // ---------------------------------------------------------------------------------------
  // Strings (binchunk/reader.go:75-88)
  // ---------------------------------------------------------------------------------------

  /** A string as the dumper writes it: size + 1 as a varint, then the bytes. */
  function EncodeString(s: seq<byte>): seq<byte>
  {
    EncodeUnsigned(|s| + 1) + s
  }

  /** Size 0 is the empty string, and nothing after the size byte is read. */
  lemma StringEmpty(d: seq<byte>, p: nat)
    requires p < |d| && d[p] == 0x80
    ensures StringAt(d, p) == Ok(Parsed([], p + 1))
  {
    assert d[p..p + 1] == [0x80] == EncodeUnsigned(0);
    IntRoundTrip(0, d, p);
  }

  /** A string written by the dumper is read back verbatim, whether it is short or long. */
  lemma StringRoundTrip(s: seq<byte>, d: seq<byte>, p: nat)
    requires |s| + 1 < INT_READ_LIMIT
    requires p + |EncodeString(s)| <= |d| && d[p..p + |EncodeString(s)|] == EncodeString(s)
    ensures StringAt(d, p) == Ok(Parsed(s, p + |EncodeString(s)|))
  {
    var n := EncodeUnsigned(|s| + 1);
    assert d[p..p + |n|] == EncodeString(s)[..|n|] == n;
    IntRoundTrip(|s| + 1, d, p);
    assert d[p + |n|..p + |n| + |s|] == EncodeString(s)[|n|..] == s;
  }

  // ---------------------------------------------------------------------------------------
  // Constants (binchunk/reader.go:98-118)
  // ---------------------------------------------------------------------------------------

  /** The varint readers fail only at end of input or on overflow. */
  lemma {:induction false} UnsignedFromErrors(d: seq<byte>, p: nat, x: nat, lim: nat)
    requires p <= |d|
    ensures UnsignedFrom(d, p, x, lim).Err? ==>
      UnsignedFrom(d, p, x, lim).error in {UnexpectedEof, IntegerOverflow}
    decreases |d| - p
  {
    if p < |d| && x < lim && d[p] < 128 {
      UnsignedFromErrors(d, p + 1, x * 128 + d[p] % 128, lim);
    }
  }

  /**
   * The tag byte decides the constant: 0x00 is nil and 0x01 is true, both without payload;
   * 0x03 is an 8-byte float pattern and 0x13 an 8-byte int64; 0x04 and 0x14 are strings.
   * Every other tag, 0x11 (TAG_TRUE) included, fails as unknown, and only those do.
   */
  lemma ConstantTags(d: seq<byte>, p: nat)
    requires p < |d|
    ensures d[p] == TAG_NIL ==> ConstantAt(d, p) == Ok(Parsed(Nil, p + 1))
    ensures d[p] == TAG_BOOLEAN ==> ConstantAt(d, p) == Ok(Parsed(Boolean(true), p + 1))
    ensures d[p] == TAG_NUMBER && p + 9 <= |d| ==>
      ConstantAt(d, p) == Ok(Parsed(Number(LittleEndian(d[p + 1..p + 9])), p + 9))
    ensures d[p] == TAG_INTERER && p + 9 <= |d| ==>
      ConstantAt(d, p) == Ok(Parsed(Integer(Int64Of(LittleEndian(d[p + 1..p + 9]))), p + 9))
    ensures (d[p] == TAG_NUMBER || d[p] == TAG_INTERER) && p + 9 > |d| ==>
      ConstantAt(d, p) == Err(UnexpectedEof)
    ensures (d[p] == TAG_SHORT_STR || d[p] == TAG_LONG_STR) && StringAt(d, p + 1).Ok? ==>
      ConstantAt(d, p) == Ok(Parsed(Str(StringAt(d, p + 1).value.value), StringAt(d, p + 1).value.next))
    ensures ConstantAt(d, p) == Err(UnknownTag(d[p])) <==>
      d[p] !in {TAG_NIL, TAG_BOOLEAN, TAG_NUMBER, TAG_INTERER, TAG_SHORT_STR, TAG_LONG_STR}
    ensures d[p] == TAG_TRUE ==> ConstantAt(d, p) == Err(UnknownTag(TAG_TRUE))
  {
    if d[p] == TAG_SHORT_STR || d[p] == TAG_LONG_STR {
      UnsignedFromErrors(d, p + 1, 0, MAX_INT / 128);
    }
  }

  /** No chunk decodes to the constant `false`: the only boolean tag the loader accepts gives true. */
  lemma {:induction false} NoFalseConstant(d: seq<byte>, p: nat)
    requires p <= |d|
    ensures ConstantAt(d, p).Ok? ==> ConstantAt(d, p).value.value != Boolean(false)
  {
    if p < |d| {
      ConstantTags(d, p);
    }
  }

  /** The constants the loader can produce and encode back: every one except `false`. */
  ghost predicate Encodable(k: Constant)
  {
    match k
    case Nil => true
    case Boolean(b) => b
    case Number(bits) => bits < 0x1_0000_0000_0000_0000
    case Integer(v) => -0x8000_0000_0000_0000 <= v < 0x8000_0000_0000_0000
    case Str(s) => |s| + 1 < INT_READ_LIMIT
  }

  /** A constant as a tag byte and its payload; strings of either length class. */
  function EncodeConstant(k: Constant): seq<byte>
    requires Encodable(k)
  {
    match k
    case Nil => [TAG_NIL]
    case Boolean(_) => [TAG_BOOLEAN]
    case Number(bits) => [TAG_NUMBER] + LittleEndianBytes(bits, 8)
    case Integer(v) => [TAG_INTERER] + LittleEndianBytes(Uint64Of(v), 8)
    case Str(s) => [if |s| <= LUAI_MAXSHORTLEN then TAG_SHORT_STR else TAG_LONG_STR] + EncodeString(s)
  }

  /** Every encodable constant is read back with exactly its encoding consumed. */
  lemma ConstantRoundTrip(k: Constant, d: seq<byte>, p: nat)
    requires Encodable(k)
    requires p + |EncodeConstant(k)| <= |d| && d[p..p + |EncodeConstant(k)|] == EncodeConstant(k)
    ensures ConstantAt(d, p) == Ok(Parsed(k, p + |EncodeConstant(k)|))
  {
    var e := EncodeConstant(k);
    assert d[p] == e[0];
    match k
    case Nil =>
    case Boolean(_) =>
    case Number(bits) =>
      assert d[p + 1..p + 9] == e[1..];
      LuaNumberRoundTrip(bits, d, p + 1);
    case Integer(v) =>
      assert d[p + 1..p + 9] == e[1..];
      LuaIntegerRoundTrip(v, d, p + 1);
    case Str(s) =>
      assert d[p + 1..p + 1 + |EncodeString(s)|] == e[1..];
      StringRoundTrip(s, d, p + 1);
  }

  // ---------------------------------------------------------------------------------------
  // List entries (binchunk/reader.go:120-174)
  // ---------------------------------------------------------------------------------------

  /** Line info read byte by byte is the same as reading the n bytes at once. */
  lemma {:induction false} LineInfoIsBytes(d: seq<byte>, p: nat, n: nat)
    requires p <= |d|
    ensures LineInfoFrom(d, p, n) == BytesAt(d, p, n)
    decreases n
  {
    if n > 0 && p < |d| {
      LineInfoIsBytes(d, p + 1, n - 1);
      if p + n <= |d| {
        assert d[p..p + n] == [d[p]] + d[p + 1..p + n];
      }
    }
  }

  /** An absolute line-info entry is written line first, then pc. */
  lemma AbsLineInfoRoundTrip(pc: nat, line: nat, d: seq<byte>, p: nat)
    requires pc < INT_READ_LIMIT && line < INT_READ_LIMIT
    requires p + |EncodeUnsigned(line) + EncodeUnsigned(pc)| <= |d|
    requires d[p..p + |EncodeUnsigned(line) + EncodeUnsigned(pc)|] == EncodeUnsigned(line) + EncodeUnsigned(pc)
    ensures AbsLineInfoEntryAt(d, p) ==
      Ok(Parsed(AbsLineInfo(pc, line), p + |EncodeUnsigned(line) + EncodeUnsigned(pc)|))
  {
    var a, b := EncodeUnsigned(line), EncodeUnsigned(pc);
    SubSlice(d, p, p + |a + b|, 0, |a|);
    assert (a + b)[..|a|] == a;
    IntRoundTrip(line, d, p);
    SubSlice(d, p, p + |a + b|, |a|, |a + b|);
    assert (a + b)[|a|..] == b;
    IntRoundTrip(pc, d, p + |a|);
  }
}
