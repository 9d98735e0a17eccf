/**
 * The chunk format as pure functions of the input bytes and a cursor: one function per loader
 * of binchunk/reader.go and binchunk/utils.go, and `UndumpSpec` for binchunk/binary_chunk.go.
 * Each returns the decoded value together with the cursor after it, or the error the loader
 * panics with. The reader class in ChunkReader is proved to compute exactly these.
 */
module ChunkFormat {
  import opened Outcomes
  import opened BinchunkConst
  import opened BinchunkTypes

  /** A decoded value and the position of the first byte after it. */
  datatype Parsed<+T> = Parsed(value: T, next: nat)

  type Step<+T> = Result<Parsed<T>, LoadError>

  // ---------------------------------------------------------------------------------------
  // Primitive readers (binchunk/reader.go:23-50)
  // ---------------------------------------------------------------------------------------

  /** One byte; fails at end of input. */
  function ByteAt(d: seq<byte>, p: nat): (r: Step<byte>)
    requires p <= |d|
    ensures r.Ok? <==> p < |d|
    ensures r.Ok? ==> r.value == Parsed(d[p], p + 1)
    ensures r.Err? ==> r.error == UnexpectedEof
  {
    if p < |d| then Ok(Parsed(d[p], p + 1)) else Err(UnexpectedEof)
  }

  /** Exactly n bytes, or a failure when fewer than n are left. */
  function BytesAt(d: seq<byte>, p: nat, n: nat): (r: Step<seq<byte>>)
    requires p <= |d|
    ensures r.Ok? <==> p + n <= |d|
    ensures r.Ok? ==> |r.value.value| == n && r.value.next == p + n
    ensures r.Ok? ==> r.value.value == d[p..p + n]
    ensures r.Err? ==> r.error == UnexpectedEof
  {
    if p + n <= |d| then Ok(Parsed(d[p..p + n], p + n)) else Err(UnexpectedEof)
  }

  /** 256^k. */
  function Pow256(k: nat): (r: nat)
    ensures r >= 1
  {
    if k == 0 then 1 else 256 * Pow256(k - 1)
  }

  lemma Pow256Values()
    ensures Pow256(4) == 0x1_0000_0000
    ensures Pow256(8) == 0x1_0000_0000_0000_0000
  {
  }

  /** The unsigned number whose little-endian bytes are bs (Go's `binary.LittleEndian`). */
  function LittleEndian(bs: seq<byte>): (r: nat)
    ensures r < Pow256(|bs|)
  {
    if bs == [] then 0 else bs[0] + 256 * LittleEndian(bs[1..])
  }

  /** The int64 whose two's-complement pattern is the uint64 u (Go's `int64(u)`). */
  function Int64Of(u: nat): (v: int)
    requires u < 0x1_0000_0000_0000_0000
    ensures -0x8000_0000_0000_0000 <= v < 0x8000_0000_0000_0000
    ensures v == u || v == u - 0x1_0000_0000_0000_0000
  {
    if u < 0x8000_0000_0000_0000 then u else u - 0x1_0000_0000_0000_0000
  }

  function Uint32At(d: seq<byte>, p: nat): (r: Step<nat>)
    requires p <= |d|
    ensures r.Ok? <==> p + 4 <= |d|
    ensures r.Ok? ==> r.value.next == p + 4 && r.value.value < 0x1_0000_0000
  {
    Pow256Values();
    var b :- BytesAt(d, p, 4);
    Ok(Parsed(LittleEndian(b.value), b.next))
  }

  function Uint64At(d: seq<byte>, p: nat): (r: Step<nat>)
    requires p <= |d|
    ensures r.Ok? <==> p + 8 <= |d|
    ensures r.Ok? ==> r.value.next == p + 8 && r.value.value < 0x1_0000_0000_0000_0000
  {
    Pow256Values();
    var b :- BytesAt(d, p, LUA_INTEGER_SIZE);
    Ok(Parsed(LittleEndian(b.value), b.next))
  }

  /** A Lua integer: the 64 bits read as a two's-complement int64. */
  function LuaIntegerAt(d: seq<byte>, p: nat): (r: Step<int>)
    requires p <= |d|
    ensures r.Ok? <==> p + 8 <= |d|
    ensures r.Ok? ==> r.value == Parsed(Int64Of(Uint64At(d, p).value.value), p + 8)
  {
    var u :- Uint64At(d, p);
    Ok(Parsed(Int64Of(u.value), u.next))
  }

  /** A Lua number: kept as its 64-bit IEEE-754 pattern. */
  function LuaNumberAt(d: seq<byte>, p: nat): (r: Step<nat>)
    requires p <= |d|
    ensures r.Ok? <==> p + 8 <= |d|
    ensures r.Ok? ==> r.value.next == p + 8 && r.value.value < 0x1_0000_0000_0000_0000
  {
    Uint64At(d, p)
  }

  // ---------------------------------------------------------------------------------------
  // The varint (binchunk/reader.go:59-74)
  // ---------------------------------------------------------------------------------------

  /**
   * The loop of `loadUnsigned` from accumulator x: each round reads a byte (end of input
   * fails first), then fails when the accumulator has reached lim, then shifts the byte's low
   * seven bits in. The byte with bit 7 SET is the last one: the groups come most significant
   * first and the final group is flagged, so zero is the single byte 0x80.
   */
  function UnsignedFrom(d: seq<byte>, p: nat, x: nat, lim: nat): (r: Step<nat>)
    requires p <= |d|
    ensures r.Ok? ==> p < r.value.next <= |d| && r.value.value < lim * 128
    decreases |d| - p
  {
    if p == |d| then Err(UnexpectedEof)
    else if x >= lim then Err(IntegerOverflow)
    else
      var x' := x * 128 + d[p] % 128;
      if d[p] >= 128 then Ok(Parsed(x', p + 1)) else UnsignedFrom(d, p + 1, x', lim)
  }

  /**
   * `loadUnsigned(limit)`: the bound is shifted right by seven once, before the loop, so a
   * read fails as soon as an accumulated prefix reaches limit / 128.
   */
  function UnsignedAt(d: seq<byte>, p: nat, limit: nat): (r: Step<nat>)
    requires p <= |d|
    ensures r.Ok? ==> p < r.value.next <= |d| && r.value.value < limit
  {
    UnsignedFrom(d, p, 0, limit / 128)
  }

  /** `loadInt`: a varint read against `math.MaxInt`. */
  function IntAt(d: seq<byte>, p: nat): (r: Step<nat>)
    requires p <= |d|
    ensures r.Ok? ==> p < r.value.next <= |d| && r.value.value < MAX_INT
  {
    UnsignedAt(d, p, MAX_INT)
  }

  /**
   * `loadString`: a size varint; size 0 is the empty string and reads nothing more, any other
   * size is followed by size - 1 bytes. The short-string and long-string branches (split at
   * LUAI_MAXSHORTLEN) read the same way, so there is one case here.
   */
  function StringAt(d: seq<byte>, p: nat): (r: Step<seq<byte>>)
    requires p <= |d|
    ensures r.Ok? ==> p < r.value.next <= |d|
  {
    var size :- IntAt(d, p);
    if size.value == 0 then Ok(Parsed([], size.next))
    else BytesAt(d, size.next, size.value - 1)
  }

  // ---------------------------------------------------------------------------------------
  // Count-prefixed lists (binchunk/reader.go:90-174)
  // ---------------------------------------------------------------------------------------

  /** Prefixes xs to the list that r decoded; a failure stays that failure. */
  function Prepend<T>(xs: seq<T>, r: Step<seq<T>>): (r': Step<seq<T>>)
  {
    match r
    case Ok(pr) => Ok(Parsed(xs + pr.value, pr.next))
    case Err(e) => Err(e)
  }

  /** Prefixing nothing changes nothing. */
  lemma PrependNil<T>(r: Step<seq<T>>)
    ensures Prepend([], r) == r
  {
    if r.Ok? {
      assert [] + r.value.value == r.value.value;
    }
  }

  /** A list failure is the failure of its first failing element. */
  lemma PrependAppend<T>(xs: seq<T>, x: T, r: Step<seq<T>>)
    ensures Prepend(xs, Prepend([x], r)) == Prepend(xs + [x], r)
  {
    if r.Ok? {
      assert xs + ([x] + r.value.value) == (xs + [x]) + r.value.value;
    }
  }

  /** n instruction words. */
  function Uint32sFrom(d: seq<byte>, p: nat, n: nat): (r: Step<seq<nat>>)
    requires p <= |d|
    ensures r.Ok? ==> |r.value.value| == n && p <= r.value.next <= |d|
    decreases n
  {
    if n == 0 then Ok(Parsed([], p))
    else
      var w :- Uint32At(d, p);
      Prepend([w.value], Uint32sFrom(d, w.next, n - 1))
  }

  /** `loadCode`. */
  function CodeAt(d: seq<byte>, p: nat): (r: Step<seq<nat>>)
    requires p <= |d|
    ensures r.Ok? ==> p < r.value.next <= |d|
  {
    var n :- IntAt(d, p);
    Uint32sFrom(d, n.next, n.value)
  }

  /**
   * One constant: a tag byte, then the payload the tag calls for. Tag 0x01 is `true` (the
   * source stores `tag != 0`) and reads no payload; tag 0x03 is read as float bits and 0x13
   * as an int64; tag 0x11 (TAG_TRUE), like every other tag, is unknown.
   */
  function ConstantAt(d: seq<byte>, p: nat): (r: Step<Constant>)
    requires p <= |d|
    ensures r.Ok? ==> p < r.value.next <= |d|
  {
    var tag :- ByteAt(d, p);
    var t := tag.value;
    if t == TAG_NIL then Ok(Parsed(Nil, tag.next))
    else if t == TAG_BOOLEAN then Ok(Parsed(Boolean(t != 0), tag.next))
    else if t == TAG_NUMBER then
      var f :- LuaNumberAt(d, tag.next);
      Ok(Parsed(Number(f.value), f.next))
    else if t == TAG_INTERER then
      var i :- LuaIntegerAt(d, tag.next);
      Ok(Parsed(Integer(i.value), i.next))
    else if t == TAG_SHORT_STR || t == TAG_LONG_STR then
      var s :- StringAt(d, tag.next);
      Ok(Parsed(Str(s.value), s.next))
    else Err(UnknownTag(t))
  }

  function ConstantsFrom(d: seq<byte>, p: nat, n: nat): (r: Step<seq<Constant>>)
    requires p <= |d|
    ensures r.Ok? ==> |r.value.value| == n && p <= r.value.next <= |d|
    decreases n
  {
    if n == 0 then Ok(Parsed([], p))
    else
      var k :- ConstantAt(d, p);
      Prepend([k.value], ConstantsFrom(d, k.next, n - 1))
  }

  /** `loadConstants`. */
  function ConstantsAt(d: seq<byte>, p: nat): (r: Step<seq<Constant>>)
    requires p <= |d|
    ensures r.Ok? ==> p < r.value.next <= |d|
  {
    var n :- IntAt(d, p);
    ConstantsFrom(d, n.next, n.value)
  }

  /** One upvalue: the bytes Instack, Idx and Kind, in that order. */
  function UpvalueAt(d: seq<byte>, p: nat): (r: Step<Upvalue>)
    requires p <= |d|
    ensures r.Ok? <==> p + 3 <= |d|
    ensures r.Ok? ==> r.value == Parsed(Upvalue(d[p], d[p + 1], d[p + 2]), p + 3)
  {
    var instack :- ByteAt(d, p);
    var idx :- ByteAt(d, instack.next);
    var kind :- ByteAt(d, idx.next);
    Ok(Parsed(Upvalue(instack.value, idx.value, kind.value), kind.next))
  }

  function UpvaluesFrom(d: seq<byte>, p: nat, n: nat): (r: Step<seq<Upvalue>>)
    requires p <= |d|
    ensures r.Ok? ==> |r.value.value| == n && p <= r.value.next <= |d|
    decreases n
  {
    if n == 0 then Ok(Parsed([], p))
    else
      var u :- UpvalueAt(d, p);
      Prepend([u.value], UpvaluesFrom(d, u.next, n - 1))
  }

  /** `loadUpvalues`. */
  function UpvaluesAt(d: seq<byte>, p: nat): (r: Step<seq<Upvalue>>)
    requires p <= |d|
    ensures r.Ok? ==> p < r.value.next <= |d|
  {
    var n :- IntAt(d, p);
    UpvaluesFrom(d, n.next, n.value)
  }

  /** n line-info bytes, read one at a time. */
  function LineInfoFrom(d: seq<byte>, p: nat, n: nat): (r: Step<seq<byte>>)
    requires p <= |d|
    ensures r.Ok? ==> |r.value.value| == n && p <= r.value.next <= |d|
    decreases n
  {
    if n == 0 then Ok(Parsed([], p))
    else
      var b :- ByteAt(d, p);
      Prepend([b.value], LineInfoFrom(d, b.next, n - 1))
  }

  /** `loadLineInfo`. */
  function LineInfoAt(d: seq<byte>, p: nat): (r: Step<seq<byte>>)
    requires p <= |d|
    ensures r.Ok? ==> p < r.value.next <= |d|
  {
    var n :- IntAt(d, p);
    LineInfoFrom(d, n.next, n.value)
  }

  /** One absolute line-info entry: its Line varint comes BEFORE its Pc varint. */
  function AbsLineInfoEntryAt(d: seq<byte>, p: nat): (r: Step<AbsLineInfo>)
    requires p <= |d|
    ensures r.Ok? ==> p < r.value.next <= |d|
  {
    var line :- IntAt(d, p);
    var pc :- IntAt(d, line.next);
    Ok(Parsed(AbsLineInfo(pc.value, line.value), pc.next))
  }

  function AbsLineInfosFrom(d: seq<byte>, p: nat, n: nat): (r: Step<seq<AbsLineInfo>>)
    requires p <= |d|
    ensures r.Ok? ==> |r.value.value| == n && p <= r.value.next <= |d|
    decreases n
  {
    if n == 0 then Ok(Parsed([], p))
    else
      var a :- AbsLineInfoEntryAt(d, p);
      Prepend([a.value], AbsLineInfosFrom(d, a.next, n - 1))
  }

  /** `loadAbsLineInfo`. */
  function AbsLineInfoAt(d: seq<byte>, p: nat): (r: Step<seq<AbsLineInfo>>)
    requires p <= |d|
    ensures r.Ok? ==> p < r.value.next <= |d|
  {
    var n :- IntAt(d, p);
    AbsLineInfosFrom(d, n.next, n.value)
  }

  /** One local variable: its name, then StartPC, then EndPC. */
  function LocVarAt(d: seq<byte>, p: nat): (r: Step<LocVar>)
    requires p <= |d|
    ensures r.Ok? ==> p < r.value.next <= |d|
  {
    var name :- StringAt(d, p);
    var start :- IntAt(d, name.next);
    var end :- IntAt(d, start.next);
    Ok(Parsed(LocVar(name.value, start.value, end.value), end.next))
  }

  function LocVarsFrom(d: seq<byte>, p: nat, n: nat): (r: Step<seq<LocVar>>)
    requires p <= |d|
    ensures r.Ok? ==> |r.value.value| == n && p <= r.value.next <= |d|
    decreases n
  {
    if n == 0 then Ok(Parsed([], p))
    else
      var v :- LocVarAt(d, p);
      Prepend([v.value], LocVarsFrom(d, v.next, n - 1))
  }

  /** `loadLocVars`. */
  function LocVarsAt(d: seq<byte>, p: nat): (r: Step<seq<LocVar>>)
    requires p <= |d|
    ensures r.Ok? ==> p < r.value.next <= |d|
  {
    var n :- IntAt(d, p);
    LocVarsFrom(d, n.next, n.value)
  }

  function StringsFrom(d: seq<byte>, p: nat, n: nat): (r: Step<seq<seq<byte>>>)
    requires p <= |d|
    ensures r.Ok? ==> |r.value.value| == n && p <= r.value.next <= |d|
    decreases n
  {
    if n == 0 then Ok(Parsed([], p))
    else
      var s :- StringAt(d, p);
      Prepend([s.value], StringsFrom(d, s.next, n - 1))
  }

  /** `loadUpvalueNames`. */
  function UpvalueNamesAt(d: seq<byte>, p: nat): (r: Step<seq<seq<byte>>>)
    requires p <= |d|
    ensures r.Ok? ==> p < r.value.next <= |d|
  {
    var n :- IntAt(d, p);
    StringsFrom(d, n.next, n.value)
  }

  // ---------------------------------------------------------------------------------------
  // Prototypes (binchunk/utils.go:41-63, binchunk/reader.go:132-138)
  // ---------------------------------------------------------------------------------------

  /**
   * `loadProto(parent)`: the fields in the order the struct literal lists them. An empty
   * decoded source is replaced by the parent's, and the children are decoded with this
   * node's RESOLVED source. Every call consumes at least 14 bytes: three varints, three bytes
   * and eight count varints.
   */
  function ProtoAt(d: seq<byte>, p: nat, parent: seq<byte>): (r: Step<Prototype>)
    requires p <= |d|
    ensures r.Ok? ==> p + 14 <= r.value.next <= |d|
    decreases |d| - p, 0, 0
  {
    var src :- StringAt(d, p);
    var source := if src.value == [] then parent else src.value;
    var lineDefined :- IntAt(d, src.next);
    var lastLineDefined :- IntAt(d, lineDefined.next);
    var numParams :- ByteAt(d, lastLineDefined.next);
    var isVararg :- ByteAt(d, numParams.next);
    var maxStackSize :- ByteAt(d, isVararg.next);
    var code :- CodeAt(d, maxStackSize.next);
    var constants :- ConstantsAt(d, code.next);
    var upvalues :- UpvaluesAt(d, constants.next);
    var protos :- ProtosAt(d, upvalues.next, source);
    var lineInfo :- LineInfoAt(d, protos.next);
    var absLineInfo :- AbsLineInfoAt(d, lineInfo.next);
    var locVars :- LocVarsAt(d, absLineInfo.next);
    var upvalueNames :- UpvalueNamesAt(d, locVars.next);
    Ok(Parsed(
      Prototype(source, lineDefined.value, lastLineDefined.value,
        numParams.value, isVararg.value, maxStackSize.value,
        code.value, constants.value, upvalues.value, protos.value,
        lineInfo.value, absLineInfo.value, locVars.value, upvalueNames.value),
      upvalueNames.next))
  }

  /** `loadProtos(parent)`: a count, then that many prototypes, all with the same parent. */
  function ProtosAt(d: seq<byte>, p: nat, parent: seq<byte>): (r: Step<seq<Prototype>>)
    requires p <= |d|
    ensures r.Ok? ==> p < r.value.next <= |d|
    decreases |d| - p, 2, 0
  {
    var n :- IntAt(d, p);
    ProtoListFrom(d, n.next, n.value, parent)
  }

  function ProtoListFrom(d: seq<byte>, p: nat, n: nat, parent: seq<byte>): (r: Step<seq<Prototype>>)
    requires p <= |d|
    ensures r.Ok? ==> |r.value.value| == n && p <= r.value.next <= |d|
    decreases |d| - p, 1, n + 1
  {
    if n == 0 then Ok(Parsed([], p))
    else
      var first :- ChildAt(d, p, parent);
      Prepend([first.value], ProtoListFrom(d, first.next, n - 1, parent))
  }

  /**
   * One entry of a child list: a prototype decoded with the list's parent source. Kept as its
   * own step of the recursion so that unfolding a list exposes its entries but not their fields.
   */
  function ChildAt(d: seq<byte>, p: nat, parent: seq<byte>): (r: Step<Prototype>)
    requires p <= |d|
    ensures r.Ok? ==> p + 14 <= r.value.next <= |d|
    decreases |d| - p, 1, 0
  {
    ProtoAt(d, p, parent)
  }

  // ---------------------------------------------------------------------------------------
  // Header and Undump (binchunk/utils.go:3-40, binchunk/binary_chunk.go:72-81)
  // ---------------------------------------------------------------------------------------

  /**
   * `checkHeader`: nine comparisons in a fixed order; the first one that does not match fails,
   * and nothing after it is read. The three size bytes are 4, 8 and 8.
   */
  function HeaderAt(d: seq<byte>, p: nat): (r: Step<()>)
    requires p <= |d|
    ensures r.Ok? ==> r.value.next == p + 31 <= |d|
  {
    var signature :- BytesAt(d, p, |LUA_SIGNATURE|);
    if signature.value != LUA_SIGNATURE then Err(BadHeader(Signature)) else
    var version :- ByteAt(d, signature.next);
    if version.value != LUAC_VERSION then Err(BadHeader(Version)) else
    var format :- ByteAt(d, version.next);
    if format.value != LUAC_FORMAT then Err(BadHeader(Format)) else
    var luacData :- BytesAt(d, format.next, |LUAC_DATA|);
    if luacData.value != LUAC_DATA then Err(BadHeader(LuacData)) else
    var instructionSize :- ByteAt(d, luacData.next);
    if instructionSize.value != INSTRUCTION_SIZE then Err(BadHeader(InstructionSize)) else
    var integerSize :- ByteAt(d, instructionSize.next);
    if integerSize.value != LUA_INTEGER_SIZE then Err(BadHeader(IntegerSize)) else
    var numberSize :- ByteAt(d, integerSize.next);
    if numberSize.value != LUA_NUMBER_SIZE then Err(BadHeader(NumberSize)) else
    var luacInt :- LuaIntegerAt(d, numberSize.next);
    if luacInt.value != LUAC_INT then Err(BadHeader(Endianness)) else
    var luacNum :- LuaNumberAt(d, luacInt.next);
    if luacNum.value != LUAC_NUM_BITS then Err(BadHeader(FloatFormat)) else
    Ok(Parsed((), luacNum.next))
  }

  /**
   * `Undump`: the header, then ONE RAW BYTE holding the main function's upvalue count, then
   * the root prototype with an empty parent source; the count is compared with the root's
   * upvalues only after the whole tree is decoded. Bytes after the root are not read.
   */
  function UndumpSpec(d: seq<byte>): (r: Result<Prototype, LoadError>)
  {
    var header :- HeaderAt(d, 0);
    var nupvals :- ByteAt(d, header.next);
    var root :- ProtoAt(d, nupvals.next, []);
    if nupvals.value != |root.value.upvalues| then
      Err(UpvalueCountMismatch(nupvals.value, |root.value.upvalues|))
    else
      Ok(root.value)
  }
}
