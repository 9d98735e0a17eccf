/**
 * Properties of a whole chunk: the header is exactly the 31 reference bytes, what Undump
 * accepts, how sources are inherited down the prototype tree, and that no reader looks at a
 * byte after the data it decodes.
 */
module ChunkTree {
  import opened Outcomes
  import opened BinchunkConst
  import opened BinchunkTypes
  import opened ChunkFormat
  import opened ChunkCodec

  // ---------------------------------------------------------------------------------------
  // Header (binchunk/utils.go:3-40)
  // ---------------------------------------------------------------------------------------

  /** Writing a number in k > 0 bytes: its lowest byte, then the rest in k - 1 bytes. */
  lemma {:induction false} LittleEndianCons(x: nat, k: nat)
    requires k > 0
    ensures LittleEndianBytes(x, k) == [x % 256] + LittleEndianBytes(x / 256, k - 1)
  {
  }

  /** LUAC_INT in eight little-endian bytes. */
  lemma {:induction false} LuacIntBytes()
    ensures LittleEndianBytes(LUAC_INT, 8) == [0x78, 0x56, 0, 0, 0, 0, 0, 0]
  {
    var b1 := LittleEndianBytes(0, 1);
    LittleEndianCons(0, 1);
    var b2 := LittleEndianBytes(0, 2);
    LittleEndianCons(0, 2);
    var b3 := LittleEndianBytes(0, 3);
    LittleEndianCons(0, 3);
    var b4 := LittleEndianBytes(0, 4);
    LittleEndianCons(0, 4);
    var b5 := LittleEndianBytes(0, 5);
    LittleEndianCons(0, 5);
    var b6 := LittleEndianBytes(0, 6);
    LittleEndianCons(0, 6);
    var b7 := LittleEndianBytes(0x56, 7);
    LittleEndianCons(0x56, 7);
    var b8 := LittleEndianBytes(LUAC_INT, 8);
    LittleEndianCons(LUAC_INT, 8);
  }

  /** The bits of LUAC_NUM in eight little-endian bytes. */
  lemma {:induction false} LuacNumBytes()
    ensures LittleEndianBytes(LUAC_NUM_BITS, 8) == [0, 0, 0, 0, 0, 0x28, 0x77, 0x40]
  {
    var b1 := LittleEndianBytes(0x40, 1);
    LittleEndianCons(0x40, 1);
    var b2 := LittleEndianBytes(0x4077, 2);
    LittleEndianCons(0x4077, 2);
    var b3 := LittleEndianBytes(0x40_7728, 3);
    LittleEndianCons(0x40_7728, 3);
    var b4 := LittleEndianBytes(0x4077_2800, 4);
    LittleEndianCons(0x4077_2800, 4);
    var b5 := LittleEndianBytes(0x40_7728_0000, 5);
    LittleEndianCons(0x40_7728_0000, 5);
    var b6 := LittleEndianBytes(0x4077_2800_0000, 6);
    LittleEndianCons(0x4077_2800_0000, 6);
    var b7 := LittleEndianBytes(0x40_7728_0000_0000, 7);
    LittleEndianCons(0x40_7728_0000_0000, 7);
    var b8 := LittleEndianBytes(LUAC_NUM_BITS, 8);
    LittleEndianCons(LUAC_NUM_BITS, 8);
  }

  /** The LUAC_INT check accepts exactly the bytes 78 56 00 00 00 00 00 00. */
  lemma EndiannessBytes(bs: seq<byte>)
    requires |bs| == 8
    ensures Int64Of(LittleEndian(bs)) == LUAC_INT <==> bs == [0x78, 0x56, 0, 0, 0, 0, 0, 0]
  {
    Pow256Values();
    LuacIntBytes();
    LittleEndianRoundTrip(LUAC_INT, 8);
    LittleEndianBytesOf(bs);
  }

  /** The LUAC_NUM check accepts exactly the bytes of 370.5: 00 00 00 00 00 28 77 40. */
  lemma FloatFormatBytes(bs: seq<byte>)
    requires |bs| == 8
    ensures LittleEndian(bs) == LUAC_NUM_BITS <==> bs == [0, 0, 0, 0, 0, 0x28, 0x77, 0x40]
  {
    Pow256Values();
    LuacNumBytes();
    LittleEndianRoundTrip(LUAC_NUM_BITS, 8);
    LittleEndianBytesOf(bs);
  }

  /** `checkHeader` on 31 available bytes: the nine comparisons, field by field. */
  lemma HeaderFields(d: seq<byte>, p: nat)
    requires p + 31 <= |d|
    ensures HeaderAt(d, p).Ok? <==>
      d[p..p + 4] == LUA_SIGNATURE && d[p + 4] == LUAC_VERSION && d[p + 5] == LUAC_FORMAT
      && d[p + 6..p + 12] == LUAC_DATA
      && d[p + 12] == INSTRUCTION_SIZE && d[p + 13] == LUA_INTEGER_SIZE && d[p + 14] == LUA_NUMBER_SIZE
      && Int64Of(LittleEndian(d[p + 15..p + 23])) == LUAC_INT
      && LittleEndian(d[p + 23..p + 31]) == LUAC_NUM_BITS
  {
  }

  /** The 31 reference bytes, cut at the same field boundaries. */
  lemma HeaderParts(h: seq<byte>)
    requires |h| == 31
    ensures h == VALID_HEADER <==>
      h[..4] == LUA_SIGNATURE && h[4] == LUAC_VERSION && h[5] == LUAC_FORMAT && h[6..12] == LUAC_DATA
      && h[12] == INSTRUCTION_SIZE && h[13] == LUA_INTEGER_SIZE && h[14] == LUA_NUMBER_SIZE
      && h[15..23] == [0x78, 0x56, 0, 0, 0, 0, 0, 0] && h[23..] == [0, 0, 0, 0, 0, 0x28, 0x77, 0x40]
  {
    HeaderBytes();
    assert h == h[..4] + [h[4], h[5]] + h[6..12] + [h[12], h[13], h[14]] + h[15..23] + h[23..];
  }

  /** `checkHeader` passes exactly on the 31 bytes of VALID_HEADER. */
  lemma HeaderValid(d: seq<byte>, p: nat)
    requires p <= |d|
    ensures HeaderAt(d, p).Ok? <==> p + 31 <= |d| && d[p..p + 31] == VALID_HEADER
  {
    if p + 31 <= |d| {
      var h := d[p..p + 31];
      HeaderFields(d, p);
      HeaderParts(h);
      SubSlice(d, p, p + 31, 0, 4);
      SubSlice(d, p, p + 31, 6, 12);
      SubSlice(d, p, p + 31, 15, 23);
      SubSlice(d, p, p + 31, 23, 31);
      EndiannessBytes(d[p + 15..p + 23]);
      FloatFormatBytes(d[p + 23..p + 31]);
    }
  }

  /** The signature is compared first: a wrong signature is reported whatever follows. */
  lemma HeaderSignatureFirst(d: seq<byte>, p: nat)
    requires p + 4 <= |d| && d[p..p + 4] != LUA_SIGNATURE
    ensures HeaderAt(d, p) == Err(BadHeader(Signature))
  {
  }

  /** Where each header field starts among the 31 bytes; `checkHeader` compares them in this order. */
  function FieldStart(f: HeaderField): (i: nat)
    ensures i < 31
  {
    match f
    case Signature => 0
    case Version => 4
    case Format => 5
    case LuacData => 6
    case InstructionSize => 12
    case IntegerSize => 13
    case NumberSize => 14
    case Endianness => 15
    case FloatFormat => 23
  }

  /** Just past the last byte of a header field: where the next field starts, or 31. */
  function FieldEnd(f: HeaderField): (e: nat)
    ensures FieldStart(f) < e <= 31
  {
    match f
    case Signature => 4
    case Version => 5
    case Format => 6
    case LuacData => 12
    case InstructionSize => 13
    case IntegerSize => 14
    case NumberSize => 15
    case Endianness => 23
    case FloatFormat => 31
  }

  /**
   * The first mismatch is the one reported: when the bytes before field `f` are those of the
   * valid header and byte `i` of `f` differs from it, the result is `BadHeader(f)`, whatever
   * the bytes after `f` are and however few of them there are.
   */
  lemma HeaderFirstMismatch(d: seq<byte>, p: nat, f: HeaderField, i: nat)
    requires p + FieldEnd(f) <= |d|
    requires forall j | 0 <= j < FieldStart(f) :: d[p + j] == VALID_HEADER[j]
    requires FieldStart(f) <= i < FieldEnd(f) && d[p + i] != VALID_HEADER[i]
    ensures HeaderAt(d, p) == Err(BadHeader(f))
  {
    if FieldStart(f) < 6 {
      SignatureMismatch(d, p, f, i);
    } else if FieldStart(f) < 15 {
      DataMismatch(d, p, f, i);
    } else if f == Endianness {
      EndiannessMismatch(d, p, i);
    } else {
      FloatFormatMismatch(d, p, i);
    }
  }

  /** The first mismatch, for the signature, the version and the format. */
  lemma SignatureMismatch(d: seq<byte>, p: nat, f: HeaderField, i: nat)
    requires FieldStart(f) < 6 && p + FieldEnd(f) <= |d|
    requires forall j | 0 <= j < FieldStart(f) :: d[p + j] == VALID_HEADER[j]
    requires FieldStart(f) <= i < FieldEnd(f) && d[p + i] != VALID_HEADER[i]
    ensures HeaderAt(d, p) == Err(BadHeader(f))
  {
    if f == Signature {
      SignatureBytesMismatch(d, p, i);
    } else {
      VersionFormatMismatch(d, p, f, i);
    }
  }

  /** The first mismatch, within the four signature bytes. */
  lemma SignatureBytesMismatch(d: seq<byte>, p: nat, i: nat)
    requires p + 4 <= |d| && i < 4 && d[p + i] != VALID_HEADER[i]
    ensures HeaderAt(d, p) == Err(BadHeader(Signature))
  {
    HeaderParts(VALID_HEADER);
    assert d[p..p + 4][i] == d[p + i] && VALID_HEADER[..4][i] == VALID_HEADER[i];
  }

  /** The first mismatch, for the version and the format byte. */
  lemma VersionFormatMismatch(d: seq<byte>, p: nat, f: HeaderField, i: nat)
    requires (f == Version || f == Format) && p + FieldEnd(f) <= |d|
    requires forall j | 0 <= j < FieldStart(f) :: d[p + j] == VALID_HEADER[j]
    requires FieldStart(f) <= i < FieldEnd(f) && d[p + i] != VALID_HEADER[i]
    ensures HeaderAt(d, p) == Err(BadHeader(f))
  {
    HeaderParts(VALID_HEADER);
    HeaderSlice(d, p, 0, 4);
    if f == Version {
      VersionByteMismatch(d, p);
    } else {
      FormatByteMismatch(d, p);
    }
  }

  /** The signature, then a byte other than LUAC_VERSION. */
  lemma VersionByteMismatch(d: seq<byte>, p: nat)
    requires p + 5 <= |d| && d[p..p + 4] == LUA_SIGNATURE && d[p + 4] != LUAC_VERSION
    ensures HeaderAt(d, p) == Err(BadHeader(Version))
  {
  }

  /** The signature and LUAC_VERSION, then a byte other than LUAC_FORMAT. */
  lemma FormatByteMismatch(d: seq<byte>, p: nat)
    requires p + 6 <= |d| && d[p..p + 4] == LUA_SIGNATURE && d[p + 4] == LUAC_VERSION
    requires d[p + 5] != LUAC_FORMAT
    ensures HeaderAt(d, p) == Err(BadHeader(Format))
  {
  }

  /** The first mismatch, for LUAC_DATA and the three size bytes. */
  lemma DataMismatch(d: seq<byte>, p: nat, f: HeaderField, i: nat)
    requires 6 <= FieldStart(f) < 15 && p + FieldEnd(f) <= |d|
    requires forall j | 0 <= j < FieldStart(f) :: d[p + j] == VALID_HEADER[j]
    requires FieldStart(f) <= i < FieldEnd(f) && d[p + i] != VALID_HEADER[i]
    ensures HeaderAt(d, p) == Err(BadHeader(f))
  {
    HeaderParts(VALID_HEADER);
    HeaderSlice(d, p, 0, 4);
    if f == LuacData {
      assert d[p + 6..p + 12][i - 6] == d[p + i] && VALID_HEADER[6..12][i - 6] == VALID_HEADER[i];
    } else {
      HeaderSlice(d, p, 6, 12);
    }
  }

  /** The first mismatch, for the LUAC_INT check. */
  lemma EndiannessMismatch(d: seq<byte>, p: nat, i: nat)
    requires p + 23 <= |d|
    requires forall j | 0 <= j < 15 :: d[p + j] == VALID_HEADER[j]
    requires 15 <= i < 23 && d[p + i] != VALID_HEADER[i]
    ensures HeaderAt(d, p) == Err(BadHeader(Endianness))
  {
    HeaderParts(VALID_HEADER);
    HeaderSlice(d, p, 0, 4);
    HeaderSlice(d, p, 6, 12);
    var e := d[p + 15..p + 23];
    assert e[i - 15] == d[p + i] && VALID_HEADER[15..23][i - 15] == VALID_HEADER[i];
    EndiannessBytes(e);
  }

  /** The first mismatch, for the LUAC_NUM check. */
  lemma FloatFormatMismatch(d: seq<byte>, p: nat, i: nat)
    requires p + 31 <= |d|
    requires forall j | 0 <= j < 23 :: d[p + j] == VALID_HEADER[j]
    requires 23 <= i < 31 && d[p + i] != VALID_HEADER[i]
    ensures HeaderAt(d, p) == Err(BadHeader(FloatFormat))
  {
    HeaderParts(VALID_HEADER);
    HeaderSlice(d, p, 0, 4);
    HeaderSlice(d, p, 6, 12);
    HeaderSlice(d, p, 15, 23);
    EndiannessBytes(d[p + 15..p + 23]);
    var g := d[p + 23..p + 31];
    assert g[i - 23] == d[p + i] && VALID_HEADER[23..][i - 23] == VALID_HEADER[i];
    FloatFormatBytes(g);
  }

  /** The signature followed by a wrong version byte is reported as a bad version, with nothing after it. */
  lemma WrongVersion(d: seq<byte>)
    requires d == LUA_SIGNATURE + [0x53]
    ensures HeaderAt(d, 0) == Err(BadHeader(Version))
  {
    HeaderBytes();
    HeaderFirstMismatch(d, 0, Version, 4);
  }

  /** Bytes that agree with the valid header one by one agree with it as a slice. */
  lemma HeaderSlice(d: seq<byte>, p: nat, a: nat, b: nat)
    requires a <= b <= 31 && p + b <= |d|
    requires forall j | a <= j < b :: d[p + j] == VALID_HEADER[j]
    ensures d[p + a..p + b] == VALID_HEADER[a..b]
  {
    HeaderBytes();
    forall k | 0 <= k < b - a ensures d[p + a..p + b][k] == VALID_HEADER[a..b][k] {
      assert d[p + a..p + b][k] == d[p + (a + k)];
    }
  }

  // ---------------------------------------------------------------------------------------
  // Undump (binchunk/binary_chunk.go:72-81)
  // ---------------------------------------------------------------------------------------

  /**
   * Undump succeeds exactly when the input starts with the valid header, byte 31 is the
   * upvalue count, and the root prototype decoded from byte 32 with an empty parent source
   * has that many upvalues; the result is that root. With a matching header and a decoded
   * root, a different count byte is reported together with the actual number.
   */
  lemma UndumpShape(d: seq<byte>)
    ensures UndumpSpec(d).Ok? <==>
      32 <= |d| && d[..31] == VALID_HEADER && ProtoAt(d, 32, []).Ok?
      && d[31] == |ProtoAt(d, 32, []).value.value.upvalues|
    ensures UndumpSpec(d).Ok? ==> UndumpSpec(d).value == ProtoAt(d, 32, []).value.value
    ensures (32 <= |d| && d[..31] == VALID_HEADER && ProtoAt(d, 32, []).Ok?
             && d[31] != |ProtoAt(d, 32, []).value.value.upvalues|) ==>
      UndumpSpec(d) == Err(UpvalueCountMismatch(d[31], |ProtoAt(d, 32, []).value.value.upvalues|))
  {
    HeaderValid(d, 0);
    if 31 <= |d| {
      assert d[..31] == d[0..31];
    }
  }

  /** The smallest chunk: a header, no upvalues, and a root with empty source and no contents. */
  const EMPTY_CHUNK: seq<byte> :=
    VALID_HEADER + [0x00] + [0x80, 0x80, 0x80, 0x00, 0x00, 0x00]
    + [0x80, 0x80, 0x80, 0x80, 0x80, 0x80, 0x80, 0x80]

  /** A count or size byte 0x80 is zero and is one byte long. */
  lemma ZeroAt(d: seq<byte>, q: nat)
    requires q < |d| && d[q] == 0x80
    ensures IntAt(d, q) == Ok(Parsed(0, q + 1))
    ensures StringAt(d, q) == Ok(Parsed([], q + 1))
  {
    StringEmpty(d, q);
  }

  /**
   * A prototype with an empty source, lines 0 and every count 0 is 14 bytes: it takes the
   * parent's source and the three raw bytes, and all its lists are empty.
   */
  lemma EmptyProto(d: seq<byte>, p: nat, parent: seq<byte>)
    requires p + 14 <= |d|
    requires d[p] == d[p + 1] == d[p + 2] == 0x80
    requires forall q | p + 6 <= q < p + 14 :: d[q] == 0x80
    ensures ProtoAt(d, p, parent) ==
      Ok(Parsed(Prototype(parent, 0, 0, d[p + 3], d[p + 4], d[p + 5], [], [], [], [], [], [], [], []), p + 14))
  {
    ZeroAt(d, p);
    ZeroAt(d, p + 1);
    ZeroAt(d, p + 2);
    ZeroAt(d, p + 6);
    assert CodeAt(d, p + 6) == Ok(Parsed([], p + 7));
    ZeroAt(d, p + 7);
    assert ConstantsAt(d, p + 7) == Ok(Parsed([], p + 8));
    ZeroAt(d, p + 8);
    assert UpvaluesAt(d, p + 8) == Ok(Parsed([], p + 9));
    ZeroAt(d, p + 9);
    assert ProtosAt(d, p + 9, parent) == Ok(Parsed([], p + 10));
    ZeroAt(d, p + 10);
    assert LineInfoAt(d, p + 10) == Ok(Parsed([], p + 11));
    ZeroAt(d, p + 11);
    assert AbsLineInfoAt(d, p + 11) == Ok(Parsed([], p + 12));
    ZeroAt(d, p + 12);
    assert LocVarsAt(d, p + 12) == Ok(Parsed([], p + 13));
    ZeroAt(d, p + 13);
    assert UpvalueNamesAt(d, p + 13) == Ok(Parsed([], p + 14));
  }

  /** It decodes to a function with empty source, lines 0, and every list empty. */
  lemma EmptyChunkDecodes()
    ensures UndumpSpec(EMPTY_CHUNK) == Ok(Prototype([], 0, 0, 0, 0, 0, [], [], [], [], [], [], [], []))
  {
    var d := EMPTY_CHUNK;
    HeaderBytes();
    assert |d| == 46 && d[..31] == VALID_HEADER && d[31] == 0;
    assert d[32] == d[33] == d[34] == 0x80 && d[35] == d[36] == d[37] == 0;
    assert forall q | 38 <= q < 46 :: d[q] == 0x80;
    EmptyProto(d, 32, []);
    UndumpShape(d);
  }

  // ---------------------------------------------------------------------------------------
  // Source inheritance (binchunk/reader.go:132-138, binchunk/utils.go:41-63)
  // ---------------------------------------------------------------------------------------

  /** Every prototype of the tree has a non-empty source. */
  ghost predicate SourcesNonEmpty(pr: Prototype)
  {
    pr.source != [] && forall c | c in pr.protos :: SourcesNonEmpty(c)
  }

  /** A prototype gets its own source, or its parent's when its own is empty. */
  lemma ProtoSource(d: seq<byte>, p: nat, parent: seq<byte>)
    requires p <= |d|
    ensures ProtoAt(d, p, parent).Ok? ==>
      StringAt(d, p).Ok? &&
      ProtoAt(d, p, parent).value.value.source ==
        (if StringAt(d, p).value.value == [] then parent else StringAt(d, p).value.value)
  {
  }

  /**
   * The children are decoded with the RESOLVED source as their parent: so under a non-empty
   * source every node of the tree has one.
   */
  lemma {:induction false} ProtoSources(d: seq<byte>, p: nat, parent: seq<byte>)
    requires p <= |d|
    ensures ProtoAt(d, p, parent).Ok? && ProtoAt(d, p, parent).value.value.source != [] ==>
      SourcesNonEmpty(ProtoAt(d, p, parent).value.value)
    decreases |d| - p, 0, 0
  {
    var r := ProtoAt(d, p, parent);
    if r.Ok? && r.value.value.source != [] {
      var s := StringAt(d, p).value;
      var source := if s.value == [] then parent else s.value;
      var l1 := IntAt(d, s.next).value;
      var l2 := IntAt(d, l1.next).value;
      var b1 := ByteAt(d, l2.next).value;
      var b2 := ByteAt(d, b1.next).value;
      var b3 := ByteAt(d, b2.next).value;
      var code := CodeAt(d, b3.next).value;
      var ks := ConstantsAt(d, code.next).value;
      var us := UpvaluesAt(d, ks.next).value;
      assert source == r.value.value.source;
      assert ProtosAt(d, us.next, source).value.value == r.value.value.protos;
      ProtosSources(d, us.next, source);
    }
  }

  /** Every child list decoded under a non-empty parent source has only such children. */
  lemma {:induction false} ProtosSources(d: seq<byte>, p: nat, parent: seq<byte>)
    requires p <= |d| && parent != []
    ensures ProtosAt(d, p, parent).Ok? ==>
      forall c | c in ProtosAt(d, p, parent).value.value :: SourcesNonEmpty(c)
    decreases |d| - p, 2, 0
  {
    var n := IntAt(d, p);
    if n.Ok? {
      ProtoListSources(d, n.value.next, n.value.value, parent);
    }
  }

  lemma {:induction false} ProtoListSources(d: seq<byte>, p: nat, n: nat, parent: seq<byte>)
    requires p <= |d| && parent != []
    ensures ProtoListFrom(d, p, n, parent).Ok? ==>
      forall c | c in ProtoListFrom(d, p, n, parent).value.value :: SourcesNonEmpty(c)
    decreases |d| - p, 1, n + 1
  {
    if n > 0 && ProtoListFrom(d, p, n, parent).Ok? {
      var first := ChildAt(d, p, parent).value;
      ChildSources(d, p, parent);
      ProtoListSources(d, first.next, n - 1, parent);
    }
  }

  /** A child decoded under a non-empty parent source has sources all the way down. */
  lemma {:induction false} ChildSources(d: seq<byte>, p: nat, parent: seq<byte>)
    requires p <= |d| && parent != []
    ensures ChildAt(d, p, parent).Ok? ==> SourcesNonEmpty(ChildAt(d, p, parent).value.value)
    decreases |d| - p, 1, 0
  {
    ProtoSource(d, p, parent);
    ProtoSources(d, p, parent);
  }

  /** A chunk whose main function names its source has a source on every function. */
  lemma UndumpSources(d: seq<byte>)
    ensures UndumpSpec(d).Ok? && UndumpSpec(d).value.source != [] ==> SourcesNonEmpty(UndumpSpec(d).value)
  {
    if UndumpSpec(d).Ok? {
      UndumpShape(d);
      ProtoSources(d, 32, []);
    }
  }

  // ---------------------------------------------------------------------------------------
  // Bytes after the decoded data are never read
  // ---------------------------------------------------------------------------------------

  lemma {:induction false} UnsignedFromExtended(d: seq<byte>, e: seq<byte>, p: nat, x: nat, lim: nat)
    requires p <= |d|
    ensures UnsignedFrom(d, p, x, lim).Ok? ==> UnsignedFrom(d + e, p, x, lim) == UnsignedFrom(d, p, x, lim)
    decreases |d| - p
  {
    if p < |d| && x < lim && d[p] < 128 {
      UnsignedFromExtended(d, e, p + 1, x * 128 + d[p] % 128, lim);
    }
  }

  lemma StringExtended(d: seq<byte>, e: seq<byte>, p: nat)
    requires p <= |d|
    ensures IntAt(d, p).Ok? ==> IntAt(d + e, p) == IntAt(d, p)
    ensures StringAt(d, p).Ok? ==> StringAt(d + e, p) == StringAt(d, p)
  {
    UnsignedFromExtended(d, e, p, 0, MAX_INT / 128);
    var n := IntAt(d, p);
    if n.Ok? && n.value.value > 0 && n.value.next + n.value.value - 1 <= |d| {
      assert (d + e)[n.value.next..n.value.next + n.value.value - 1]
          == d[n.value.next..n.value.next + n.value.value - 1];
    }
  }

  lemma WordsExtended(d: seq<byte>, e: seq<byte>, p: nat)
    requires p <= |d|
    ensures Uint32At(d, p).Ok? ==> Uint32At(d + e, p) == Uint32At(d, p)
    ensures LuaNumberAt(d, p).Ok? ==> LuaNumberAt(d + e, p) == LuaNumberAt(d, p)
    ensures LuaIntegerAt(d, p).Ok? ==> LuaIntegerAt(d + e, p) == LuaIntegerAt(d, p)
  {
    if p + 4 <= |d| {
      assert (d + e)[p..p + 4] == d[p..p + 4];
    }
    if p + 8 <= |d| {
      assert (d + e)[p..p + 8] == d[p..p + 8];
    }
  }

  lemma ConstantExtended(d: seq<byte>, e: seq<byte>, p: nat)
    requires p <= |d|
    ensures ConstantAt(d, p).Ok? ==> ConstantAt(d + e, p) == ConstantAt(d, p)
  {
    if p < |d| {
      WordsExtended(d, e, p + 1);
      StringExtended(d, e, p + 1);
    }
  }

  lemma AbsLineInfoEntryExtended(d: seq<byte>, e: seq<byte>, p: nat)
    requires p <= |d|
    ensures AbsLineInfoEntryAt(d, p).Ok? ==> AbsLineInfoEntryAt(d + e, p) == AbsLineInfoEntryAt(d, p)
  {
    StringExtended(d, e, p);
    var a := IntAt(d, p);
    if a.Ok? {
      StringExtended(d, e, a.value.next);
    }
  }

  lemma LocVarExtended(d: seq<byte>, e: seq<byte>, p: nat)
    requires p <= |d|
    ensures LocVarAt(d, p).Ok? ==> LocVarAt(d + e, p) == LocVarAt(d, p)
  {
    StringExtended(d, e, p);
    var s := StringAt(d, p);
    if s.Ok? {
      StringExtended(d, e, s.value.next);
      var a := IntAt(d, s.value.next);
      if a.Ok? {
        StringExtended(d, e, a.value.next);
      }
    }
  }

  lemma {:induction false} Uint32sFromExtended(d: seq<byte>, e: seq<byte>, p: nat, n: nat)
    requires p <= |d|
    ensures Uint32sFrom(d, p, n).Ok? ==> Uint32sFrom(d + e, p, n) == Uint32sFrom(d, p, n)
    decreases n
  {
    if n > 0 && Uint32sFrom(d, p, n).Ok? {
      var w := Uint32At(d, p).value;
      WordsExtended(d, e, p);
      Uint32sFromExtended(d, e, w.next, n - 1);
    }
  }

  lemma CodeExtended(d: seq<byte>, e: seq<byte>, p: nat)
    requires p <= |d|
    ensures CodeAt(d, p).Ok? ==> CodeAt(d + e, p) == CodeAt(d, p)
  {
    StringExtended(d, e, p);
    var n := IntAt(d, p);
    if n.Ok? {
      Uint32sFromExtended(d, e, n.value.next, n.value.value);
    }
  }

  lemma {:induction false} ConstantsFromExtended(d: seq<byte>, e: seq<byte>, p: nat, n: nat)
    requires p <= |d|
    ensures ConstantsFrom(d, p, n).Ok? ==> ConstantsFrom(d + e, p, n) == ConstantsFrom(d, p, n)
    decreases n
  {
    if n > 0 && ConstantsFrom(d, p, n).Ok? {
      var k := ConstantAt(d, p).value;
      ConstantExtended(d, e, p);
      ConstantsFromExtended(d, e, k.next, n - 1);
    }
  }

  lemma ConstantsExtended(d: seq<byte>, e: seq<byte>, p: nat)
    requires p <= |d|
    ensures ConstantsAt(d, p).Ok? ==> ConstantsAt(d + e, p) == ConstantsAt(d, p)
  {
    StringExtended(d, e, p);
    var n := IntAt(d, p);
    if n.Ok? {
      ConstantsFromExtended(d, e, n.value.next, n.value.value);
    }
  }

  lemma {:induction false} UpvaluesFromExtended(d: seq<byte>, e: seq<byte>, p: nat, n: nat)
    requires p <= |d|
    ensures UpvaluesFrom(d, p, n).Ok? ==> UpvaluesFrom(d + e, p, n) == UpvaluesFrom(d, p, n)
    decreases n
  {
    if n > 0 && UpvaluesFrom(d, p, n).Ok? {
      var u := UpvalueAt(d, p).value;
      UpvaluesFromExtended(d, e, u.next, n - 1);
    }
  }

  lemma UpvaluesExtended(d: seq<byte>, e: seq<byte>, p: nat)
    requires p <= |d|
    ensures UpvaluesAt(d, p).Ok? ==> UpvaluesAt(d + e, p) == UpvaluesAt(d, p)
  {
    StringExtended(d, e, p);
    var n := IntAt(d, p);
    if n.Ok? {
      UpvaluesFromExtended(d, e, n.value.next, n.value.value);
    }
  }

  lemma {:induction false} LineInfoFromExtended(d: seq<byte>, e: seq<byte>, p: nat, n: nat)
    requires p <= |d|
    ensures LineInfoFrom(d, p, n).Ok? ==> LineInfoFrom(d + e, p, n) == LineInfoFrom(d, p, n)
    decreases n
  {
    if n > 0 && LineInfoFrom(d, p, n).Ok? {
      var b := ByteAt(d, p).value;
      LineInfoFromExtended(d, e, b.next, n - 1);
    }
  }

  lemma LineInfoExtended(d: seq<byte>, e: seq<byte>, p: nat)
    requires p <= |d|
    ensures LineInfoAt(d, p).Ok? ==> LineInfoAt(d + e, p) == LineInfoAt(d, p)
  {
    StringExtended(d, e, p);
    var n := IntAt(d, p);
    if n.Ok? {
      LineInfoFromExtended(d, e, n.value.next, n.value.value);
    }
  }

  lemma {:induction false} AbsLineInfosFromExtended(d: seq<byte>, e: seq<byte>, p: nat, n: nat)
    requires p <= |d|
    ensures AbsLineInfosFrom(d, p, n).Ok? ==> AbsLineInfosFrom(d + e, p, n) == AbsLineInfosFrom(d, p, n)
    decreases n
  {
    if n > 0 && AbsLineInfosFrom(d, p, n).Ok? {
      var a := AbsLineInfoEntryAt(d, p).value;
      AbsLineInfoEntryExtended(d, e, p);
      AbsLineInfosFromExtended(d, e, a.next, n - 1);
    }
  }

  lemma AbsLineInfosExtended(d: seq<byte>, e: seq<byte>, p: nat)
    requires p <= |d|
    ensures AbsLineInfoAt(d, p).Ok? ==> AbsLineInfoAt(d + e, p) == AbsLineInfoAt(d, p)
  {
    StringExtended(d, e, p);
    var n := IntAt(d, p);
    if n.Ok? {
      AbsLineInfosFromExtended(d, e, n.value.next, n.value.value);
    }
  }

  lemma {:induction false} LocVarsFromExtended(d: seq<byte>, e: seq<byte>, p: nat, n: nat)
    requires p <= |d|
    ensures LocVarsFrom(d, p, n).Ok? ==> LocVarsFrom(d + e, p, n) == LocVarsFrom(d, p, n)
    decreases n, 1
  {
    if n > 0 && LocVarsFrom(d, p, n).Ok? {
      var a := LocVarAt(d, p);
      assert a.Ok?;
      LocVarExtended(d, e, p);
      var q := a.value.next;
      LocVarsFromRest(d, e, q, n);
      LocVarsFromStep(d, e, p, n, a, q);
    }
  }

  /** The entries after the first one read the same on the longer data. */
  lemma {:induction false} LocVarsFromRest(d: seq<byte>, e: seq<byte>, q: nat, n: nat)
    requires q <= |d| && n > 0
    ensures LocVarsFrom(d, q, n - 1).Ok? ==> LocVarsFrom(d + e, q, n - 1) == LocVarsFrom(d, q, n - 1)
    decreases n, 0
  {
    LocVarsFromExtended(d, e, q, n - 1);
  }

  /** One entry more: the first variable and the rest read the same on the longer data. */
  lemma {:induction false} LocVarsFromStep(d: seq<byte>, e: seq<byte>, p: nat, n: nat, a: Step<LocVar>, q: nat)
    requires p <= |d| && n > 0 && a.Ok? && a.value.next == q <= |d|
    requires LocVarAt(d, p) == a && (LocVarAt(d, p).Ok? ==> LocVarAt(d + e, p) == LocVarAt(d, p))
    requires LocVarsFrom(d, q, n - 1).Ok? ==> LocVarsFrom(d + e, q, n - 1) == LocVarsFrom(d, q, n - 1)
    ensures LocVarsFrom(d, p, n).Ok? ==> LocVarsFrom(d + e, p, n) == LocVarsFrom(d, p, n)
  {
  }

  lemma LocVarsExtended(d: seq<byte>, e: seq<byte>, p: nat)
    requires p <= |d|
    ensures LocVarsAt(d, p).Ok? ==> LocVarsAt(d + e, p) == LocVarsAt(d, p)
  {
    StringExtended(d, e, p);
    var n := IntAt(d, p);
    if n.Ok? {
      LocVarsFromExtended(d, e, n.value.next, n.value.value);
    }
  }

  lemma {:induction false} StringsFromExtended(d: seq<byte>, e: seq<byte>, p: nat, n: nat)
    requires p <= |d|
    ensures StringsFrom(d, p, n).Ok? ==> StringsFrom(d + e, p, n) == StringsFrom(d, p, n)
    decreases n
  {
    if n > 0 && StringsFrom(d, p, n).Ok? {
      var s := StringAt(d, p).value;
      StringExtended(d, e, p);
      StringsFromExtended(d, e, s.next, n - 1);
    }
  }

  lemma UpvalueNamesExtended(d: seq<byte>, e: seq<byte>, p: nat)
    requires p <= |d|
    ensures UpvalueNamesAt(d, p).Ok? ==> UpvalueNamesAt(d + e, p) == UpvalueNamesAt(d, p)
  {
    StringExtended(d, e, p);
    var n := IntAt(d, p);
    if n.Ok? {
      StringsFromExtended(d, e, n.value.next, n.value.value);
    }
  }

  /** A decoded prototype, and the tree under it, is the same whatever bytes follow it. */
  lemma {:induction false} ProtoExtended(d: seq<byte>, e: seq<byte>, p: nat, parent: seq<byte>)
    requires p <= |d|
    ensures ProtoAt(d, p, parent).Ok? ==> ProtoAt(d + e, p, parent) == ProtoAt(d, p, parent)
    decreases |d| - p, 0, 0
  {
    if ProtoAt(d, p, parent).Ok? {
      var s := StringAt(d, p).value;
      var source := if s.value == [] then parent else s.value;
      StringExtended(d, e, p);
      var l1 := IntAt(d, s.next).value;
      StringExtended(d, e, s.next);
      var l2 := IntAt(d, l1.next).value;
      StringExtended(d, e, l1.next);
      var b1 := ByteAt(d, l2.next).value;
      var b2 := ByteAt(d, b1.next).value;
      var b3 := ByteAt(d, b2.next).value;
      var code := CodeAt(d, b3.next).value;
      CodeExtended(d, e, b3.next);
      var ks := ConstantsAt(d, code.next).value;
      ConstantsExtended(d, e, code.next);
      var us := UpvaluesAt(d, ks.next).value;
      UpvaluesExtended(d, e, ks.next);
      var ps := ProtosAt(d, us.next, source).value;
      ProtosExtended(d, e, us.next, source);
      var li := LineInfoAt(d, ps.next).value;
      LineInfoExtended(d, e, ps.next);
      var ai := AbsLineInfoAt(d, li.next).value;
      AbsLineInfosExtended(d, e, li.next);
      var lv := LocVarsAt(d, ai.next).value;
      LocVarsExtended(d, e, ai.next);
      UpvalueNamesExtended(d, e, lv.next);
    }
  }

  lemma {:induction false} ProtosExtended(d: seq<byte>, e: seq<byte>, p: nat, parent: seq<byte>)
    requires p <= |d|
    ensures ProtosAt(d, p, parent).Ok? ==> ProtosAt(d + e, p, parent) == ProtosAt(d, p, parent)
    decreases |d| - p, 2, 0
  {
    StringExtended(d, e, p);
    var n := IntAt(d, p);
    if n.Ok? {
      ProtoListExtended(d, e, n.value.next, n.value.value, parent);
    }
  }

  lemma {:induction false} ProtoListExtended(d: seq<byte>, e: seq<byte>, p: nat, n: nat, parent: seq<byte>)
    requires p <= |d|
    ensures ProtoListFrom(d, p, n, parent).Ok? ==>
      ProtoListFrom(d + e, p, n, parent) == ProtoListFrom(d, p, n, parent)
    decreases |d| - p, 1, n + 1
  {
    if n > 0 && ProtoListFrom(d, p, n, parent).Ok? {
      var a := ChildAt(d, p, parent);
      assert a.Ok?;
      ChildExtended(d, e, p, parent);
      assert ChildAt(d + e, p, parent) == a;
      ProtoListExtended(d, e, a.value.next, n - 1, parent);
      ProtoListStep(d, e, p, n, parent, a.value);
    }
  }

  /** One child more: the first child and the rest read the same on the longer data. */
  lemma {:induction false} ProtoListStep(d: seq<byte>, e: seq<byte>, p: nat, n: nat, parent: seq<byte>, c: Parsed<Prototype>)
    requires p <= |d| && n > 0 && c.next <= |d|
    requires ChildAt(d, p, parent) == Ok(c) && ChildAt(d + e, p, parent) == Ok(c)
    requires ProtoListFrom(d, c.next, n - 1, parent).Ok? ==>
      ProtoListFrom(d + e, c.next, n - 1, parent) == ProtoListFrom(d, c.next, n - 1, parent)
    ensures ProtoListFrom(d, p, n, parent).Ok? ==>
      ProtoListFrom(d + e, p, n, parent) == ProtoListFrom(d, p, n, parent)
  {
    ProtoListUnfold(d, p, n, parent);
    ProtoListUnfold(d + e, p, n, parent);
  }

  /** A non-empty child list is its first entry and then the rest of the list. */
  lemma ProtoListUnfold(d: seq<byte>, p: nat, n: nat, parent: seq<byte>)
    requires p <= |d| && 0 < n && ChildAt(d, p, parent).Ok?
    ensures ProtoListFrom(d, p, n, parent)
            == Prepend([ChildAt(d, p, parent).value.value], ProtoListFrom(d, ChildAt(d, p, parent).value.next, n - 1, parent))
  {
  }

  lemma {:induction false} ChildExtended(d: seq<byte>, e: seq<byte>, p: nat, parent: seq<byte>)
    requires p <= |d|
    ensures ChildAt(d, p, parent).Ok? ==> ChildAt(d + e, p, parent) == ChildAt(d, p, parent)
    decreases |d| - p, 1, 0
  {
    ProtoExtended(d, e, p, parent);
  }

  /** Undump's result does not depend on anything after the root prototype. */
  lemma UndumpExtended(d: seq<byte>, e: seq<byte>)
    ensures UndumpSpec(d).Ok? ==> UndumpSpec(d + e) == UndumpSpec(d)
  {
    if UndumpSpec(d).Ok? {
      UndumpShape(d);
      UndumpShape(d + e);
      assert (d + e)[..31] == d[..31];
      ProtoExtended(d, e, 32, []);
    }
  }
}
