/**
 * The reader of binchunk/reader.go and binchunk/utils.go: one cursor over the chunk's bytes
 * that every loader advances. Each method is proved to compute what the corresponding
 * function of ChunkFormat describes, from the cursor it starts at: the same value, the same
 * cursor afterwards, or the same failure.
 */
module ChunkReader {
  import opened Outcomes
  import opened BinchunkConst
  import opened BinchunkTypes
  import opened ChunkFormat

  /**
   * Ties a method's result and final cursor to the specification of the read: on success the
   * same value and the cursor just after it, on failure the same error.
   */
  ghost predicate Done<T>(spec: Step<T>, r: Result<T, LoadError>, pos: nat) {
    match spec
    case Ok(pr) => r == Ok(pr.value) && pos == pr.next
    case Err(e) => r == Err(e)
  }

  class LuaReader {
    /** The whole input, which never changes. */
    const data: seq<byte>
    /** The cursor: the index of the next byte to read. */
    var pos: nat

    ghost predicate Valid()
      reads this
    {
      pos <= |data|
    }

    constructor (input: seq<byte>)
      ensures data == input && pos == 0 && Valid()
    {
      data := input;
      pos := 0;
    }

    /** `loadBytes(n)`: exactly n bytes or a failure. */
    method LoadBytes(n: nat) returns (r: Result<seq<byte>, LoadError>)
      requires Valid()
      modifies this
      ensures Valid() && Done(BytesAt(data, old(pos), n), r, pos)
    {
      if pos + n > |data| {
        return Err(UnexpectedEof);
      }
      r := Ok(data[pos..pos + n]);
      pos := pos + n;
    }

    /** `loadByte`: fails at end of input. */
    method LoadByte() returns (r: Result<byte, LoadError>)
      requires Valid()
      modifies this
      ensures Valid() && Done(ByteAt(data, old(pos)), r, pos)
    {
      if pos == |data| {
        return Err(UnexpectedEof);
      }
      r := Ok(data[pos]);
      pos := pos + 1;
    }

    method LoadUint64() returns (r: Result<nat, LoadError>)
      requires Valid()
      modifies this
      ensures Valid() && Done(Uint64At(data, old(pos)), r, pos)
    {
      var b :- LoadBytes(LUA_INTEGER_SIZE);
      return Ok(LittleEndian(b));
    }

    method LoadUint32() returns (r: Result<nat, LoadError>)
      requires Valid()
      modifies this
      ensures Valid() && Done(Uint32At(data, old(pos)), r, pos)
    {
      var b :- LoadBytes(4);
      return Ok(LittleEndian(b));
    }

    method LoadLuaInteger() returns (r: Result<int, LoadError>)
      requires Valid()
      modifies this
      ensures Valid() && Done(LuaIntegerAt(data, old(pos)), r, pos)
    {
      var u :- LoadUint64();
      return Ok(Int64Of(u));
    }

    method LoadLuaNumber() returns (r: Result<nat, LoadError>)
      requires Valid()
      modifies this
      ensures Valid() && Done(LuaNumberAt(data, old(pos)), r, pos)
    {
      r := LoadUint64();
    }

    /**
     * `loadUnsigned(limit)`. The loop starts with b = 0, so it runs at least once; it reads a
     * byte, checks the accumulator against limit >> 7, shifts the byte's low seven bits in,
     * and stops after the byte whose bit 7 is set.
     */
    method LoadUnsigned(limit: nat) returns (r: Result<nat, LoadError>)
      requires Valid()
      modifies this
      ensures Valid() && Done(UnsignedAt(data, old(pos), limit), r, pos)
    {
      var x: nat := 0;
      var b: byte := 0;
      var lim := limit / 128;
      while b < 128
        invariant Valid() && old(pos) <= pos
        invariant b < 128 ==> UnsignedAt(data, old(pos), limit) == UnsignedFrom(data, pos, x, lim)
        invariant b >= 128 ==> UnsignedAt(data, old(pos), limit) == Ok(Parsed(x, pos))
        decreases |data| - pos, if b < 128 then 1 else 0
      {
        var rb := LoadByte();
        if rb.Err? {
          return Err(rb.error);
        }
        b := rb.value;
        if x >= lim {
          return Err(IntegerOverflow);
        }
        x := x * 128 + b % 128;
      }
      return Ok(x);
    }

    method LoadInt() returns (r: Result<nat, LoadError>)
      requires Valid()
      modifies this
      ensures Valid() && Done(IntAt(data, old(pos)), r, pos)
    {
      r := LoadUnsigned(MAX_INT);
    }

    /** `loadString`: the short and long branches of the source read alike. */
    method LoadString() returns (r: Result<seq<byte>, LoadError>)
      requires Valid()
      modifies this
      ensures Valid() && Done(StringAt(data, old(pos)), r, pos)
    {
      var size :- LoadInt();
      if size == 0 {
        return Ok([]);
      }
      size := size - 1;
      if size <= LUAI_MAXSHORTLEN {
        r := LoadBytes(size);
      } else {
        r := LoadBytes(size);
      }
    }

    /** One constant, by its tag byte. */
    method LoadConstant() returns (r: Result<Constant, LoadError>)
      requires Valid()
      modifies this
      ensures Valid() && Done(ConstantAt(data, old(pos)), r, pos)
    {
      var tag :- LoadByte();
      if tag == TAG_NIL {
        r := Ok(Nil);
      } else if tag == TAG_BOOLEAN {
        r := Ok(Boolean(tag != 0));
      } else if tag == TAG_NUMBER {
        var f :- LoadLuaNumber();
        r := Ok(Number(f));
      } else if tag == TAG_INTERER {
        var i :- LoadLuaInteger();
        r := Ok(Integer(i));
      } else if tag == TAG_SHORT_STR || tag == TAG_LONG_STR {
        var s :- LoadString();
        r := Ok(Str(s));
      } else {
        r := Err(UnknownTag(tag));
      }
    }

    /** One upvalue: the bytes Instack, Idx and Kind, in that order. */
    method LoadUpvalue() returns (r: Result<Upvalue, LoadError>)
      requires Valid()
      modifies this
      ensures Valid() && Done(UpvalueAt(data, old(pos)), r, pos)
    {
      var instack :- LoadByte();
      var idx :- LoadByte();
      var kind :- LoadByte();
      return Ok(Upvalue(instack, idx, kind));
    }

    /** One absolute line-info entry: its Line is read before its Pc. */
    method LoadAbsLineInfoEntry() returns (r: Result<AbsLineInfo, LoadError>)
      requires Valid()
      modifies this
      ensures Valid() && Done(AbsLineInfoEntryAt(data, old(pos)), r, pos)
    {
      var line :- LoadInt();
      var pc :- LoadInt();
      return Ok(AbsLineInfo(pc, line));
    }

    /** One local variable: its name, then StartPC, then EndPC. */
    method LoadLocVar() returns (r: Result<LocVar, LoadError>)
      requires Valid()
      modifies this
      ensures Valid() && Done(LocVarAt(data, old(pos)), r, pos)
    {
      var name :- LoadString();
      var startPC :- LoadInt();
      var endPC :- LoadInt();
      return Ok(LocVar(name, startPC, endPC));
    }

    /** `loadCode`: a count, then that many 32-bit words. */
    method LoadCode() returns (r: Result<seq<nat>, LoadError>)
      requires Valid()
      modifies this
      ensures Valid() && Done(CodeAt(data, old(pos)), r, pos)
    {
      var n :- LoadInt();
      r := LoadWords(n);
    }

    /** The loop of `loadCode`: the n entries, in stream order. */
    method LoadWords(n: nat) returns (r: Result<seq<nat>, LoadError>)
      requires Valid()
      modifies this
      ensures Valid() && Done(Uint32sFrom(data, old(pos), n), r, pos)
    {
      var items: seq<nat> := [];
      PrependNil(Uint32sFrom(data, pos, n));
      for i := 0 to n
        invariant Valid()
        invariant Uint32sFrom(data, old(pos), n) == Prepend(items, Uint32sFrom(data, pos, n - i))
      {
        ghost var before := pos;
        var x :- LoadUint32();
        ghost var rest := Uint32sFrom(data, pos, n - i - 1);
        assert Uint32sFrom(data, before, n - i) == Prepend([x], rest);
        PrependAppend(items, x, rest);
        items := items + [x];
      }
      assert items + [] == items;
      return Ok(items);
    }

    /** `loadConstants`: a count, then that many tagged constants. */
    method LoadConstants() returns (r: Result<seq<Constant>, LoadError>)
      requires Valid()
      modifies this
      ensures Valid() && Done(ConstantsAt(data, old(pos)), r, pos)
    {
      var n :- LoadInt();
      r := LoadConstantList(n);
    }

    /** The loop of `loadConstants`: the n entries, in stream order. */
    method LoadConstantList(n: nat) returns (r: Result<seq<Constant>, LoadError>)
      requires Valid()
      modifies this
      ensures Valid() && Done(ConstantsFrom(data, old(pos), n), r, pos)
    {
      var items: seq<Constant> := [];
      PrependNil(ConstantsFrom(data, pos, n));
      for i := 0 to n
        invariant Valid()
        invariant ConstantsFrom(data, old(pos), n) == Prepend(items, ConstantsFrom(data, pos, n - i))
      {
        ghost var before := pos;
        var x :- LoadConstant();
        ghost var rest := ConstantsFrom(data, pos, n - i - 1);
        assert ConstantsFrom(data, before, n - i) == Prepend([x], rest);
        PrependAppend(items, x, rest);
        items := items + [x];
      }
      assert items + [] == items;
      return Ok(items);
    }

    /** `loadUpvalues`: a count, then that many upvalue triples. */
    method LoadUpvalues() returns (r: Result<seq<Upvalue>, LoadError>)
      requires Valid()
      modifies this
      ensures Valid() && Done(UpvaluesAt(data, old(pos)), r, pos)
    {
      var n :- LoadInt();
      r := LoadUpvalueList(n);
    }

    /** The loop of `loadUpvalues`: the n entries, in stream order. */
    method LoadUpvalueList(n: nat) returns (r: Result<seq<Upvalue>, LoadError>)
      requires Valid()
      modifies this
      ensures Valid() && Done(UpvaluesFrom(data, old(pos), n), r, pos)
    {
      var items: seq<Upvalue> := [];
      PrependNil(UpvaluesFrom(data, pos, n));
      for i := 0 to n
        invariant Valid()
        invariant UpvaluesFrom(data, old(pos), n) == Prepend(items, UpvaluesFrom(data, pos, n - i))
      {
        ghost var before := pos;
        var x :- LoadUpvalue();
        ghost var rest := UpvaluesFrom(data, pos, n - i - 1);
        assert UpvaluesFrom(data, before, n - i) == Prepend([x], rest);
        PrependAppend(items, x, rest);
        items := items + [x];
      }
      assert items + [] == items;
      return Ok(items);
    }

    /** `loadLineInfo`: a count, then that many bytes, read one at a time. */
    method LoadLineInfo() returns (r: Result<seq<byte>, LoadError>)
      requires Valid()
      modifies this
      ensures Valid() && Done(LineInfoAt(data, old(pos)), r, pos)
    {
      var n :- LoadInt();
      r := LoadLineInfoBytes(n);
    }

    /** The loop of `loadLineInfo`: the n entries, in stream order. */
    method LoadLineInfoBytes(n: nat) returns (r: Result<seq<byte>, LoadError>)
      requires Valid()
      modifies this
      ensures Valid() && Done(LineInfoFrom(data, old(pos), n), r, pos)
    {
      var items: seq<byte> := [];
      PrependNil(LineInfoFrom(data, pos, n));
      for i := 0 to n
        invariant Valid()
        invariant LineInfoFrom(data, old(pos), n) == Prepend(items, LineInfoFrom(data, pos, n - i))
      {
        ghost var before := pos;
        var x :- LoadByte();
        ghost var rest := LineInfoFrom(data, pos, n - i - 1);
        assert LineInfoFrom(data, before, n - i) == Prepend([x], rest);
        PrependAppend(items, x, rest);
        items := items + [x];
      }
      assert items + [] == items;
      return Ok(items);
    }

    /** `loadAbsLineInfo`: a count, then that many (Line, Pc) entries. */
    method LoadAbsLineInfo() returns (r: Result<seq<AbsLineInfo>, LoadError>)
      requires Valid()
      modifies this
      ensures Valid() && Done(AbsLineInfoAt(data, old(pos)), r, pos)
    {
      var n :- LoadInt();
      r := LoadAbsLineInfoList(n);
    }

    /** The loop of `loadAbsLineInfo`: the n entries, in stream order. */
    method LoadAbsLineInfoList(n: nat) returns (r: Result<seq<AbsLineInfo>, LoadError>)
      requires Valid()
      modifies this
      ensures Valid() && Done(AbsLineInfosFrom(data, old(pos), n), r, pos)
    {
      var items: seq<AbsLineInfo> := [];
      PrependNil(AbsLineInfosFrom(data, pos, n));
      for i := 0 to n
        invariant Valid()
        invariant AbsLineInfosFrom(data, old(pos), n) == Prepend(items, AbsLineInfosFrom(data, pos, n - i))
      {
        ghost var before := pos;
        var x :- LoadAbsLineInfoEntry();
        ghost var rest := AbsLineInfosFrom(data, pos, n - i - 1);
        assert AbsLineInfosFrom(data, before, n - i) == Prepend([x], rest);
        PrependAppend(items, x, rest);
        items := items + [x];
      }
      assert items + [] == items;
      return Ok(items);
    }

    /** `loadLocVars`: a count, then that many local variables. */
    method LoadLocVars() returns (r: Result<seq<LocVar>, LoadError>)
      requires Valid()
      modifies this
      ensures Valid() && Done(LocVarsAt(data, old(pos)), r, pos)
    {
      var n :- LoadInt();
      r := LoadLocVarList(n);
    }

    /** The loop of `loadLocVars`: the n entries, in stream order. */
    method LoadLocVarList(n: nat) returns (r: Result<seq<LocVar>, LoadError>)
      requires Valid()
      modifies this
      ensures Valid() && Done(LocVarsFrom(data, old(pos), n), r, pos)
    {
      var items: seq<LocVar> := [];
      PrependNil(LocVarsFrom(data, pos, n));
      for i := 0 to n
        invariant Valid()
        invariant LocVarsFrom(data, old(pos), n) == Prepend(items, LocVarsFrom(data, pos, n - i))
      {
        ghost var before := pos;
        var x :- LoadLocVar();
        ghost var rest := LocVarsFrom(data, pos, n - i - 1);
        assert LocVarsFrom(data, before, n - i) == Prepend([x], rest);
        PrependAppend(items, x, rest);
        items := items + [x];
      }
      assert items + [] == items;
      return Ok(items);
    }

    /** `loadUpvalueNames`: a count, then that many strings. */
    method LoadUpvalueNames() returns (r: Result<seq<seq<byte>>, LoadError>)
      requires Valid()
      modifies this
      ensures Valid() && Done(UpvalueNamesAt(data, old(pos)), r, pos)
    {
      var n :- LoadInt();
      r := LoadStrings(n);
    }

    /** The loop of `loadUpvalueNames`: the n entries, in stream order. */
    method LoadStrings(n: nat) returns (r: Result<seq<seq<byte>>, LoadError>)
      requires Valid()
      modifies this
      ensures Valid() && Done(StringsFrom(data, old(pos), n), r, pos)
    {
      var items: seq<seq<byte>> := [];
      PrependNil(StringsFrom(data, pos, n));
      for i := 0 to n
        invariant Valid()
        invariant StringsFrom(data, old(pos), n) == Prepend(items, StringsFrom(data, pos, n - i))
      {
        ghost var before := pos;
        var x :- LoadString();
        ghost var rest := StringsFrom(data, pos, n - i - 1);
        assert StringsFrom(data, before, n - i) == Prepend([x], rest);
        PrependAppend(items, x, rest);
        items := items + [x];
      }
      assert items + [] == items;
      return Ok(items);
    }

    /** `loadProtos(parent)`: a count, then that many prototypes, each decoded with the same parent source. */
    method LoadProtos(parent: seq<byte>) returns (r: Result<seq<Prototype>, LoadError>)
      requires Valid()
      modifies this
      ensures Valid() && Done(ProtosAt(data, old(pos), parent), r, pos)
      decreases |data| - pos, 3
    {
      var n :- LoadInt();
      r := LoadProtoList(n, parent);
    }

    /** The loop of `loadProtos`: the n entries, in stream order. */
    method LoadProtoList(n: nat, parent: seq<byte>) returns (r: Result<seq<Prototype>, LoadError>)
      requires Valid()
      modifies this
      ensures Valid() && Done(ProtoListFrom(data, old(pos), n, parent), r, pos)
      decreases |data| - pos, 2
    {
      var items: seq<Prototype> := [];
      ghost var whole := ProtoListFrom(data, pos, n, parent);
      ghost var rest := whole;
      PrependNil(whole);
      for i := 0 to n
        invariant Valid() && old(pos) <= pos
        invariant whole == Prepend(items, rest)
        invariant rest == ProtoListFrom(data, pos, n - i, parent)
      {
        items, rest :- LoadProtoInto(items, rest, n - i, parent);
      }
      assert items + [] == items;
      return Ok(items);
    }

    /** One round of that loop: the next child, appended to those already read. */
    method LoadProtoInto(items: seq<Prototype>, ghost rest: Step<seq<Prototype>>, m: nat, parent: seq<byte>)
      returns (r: Result<seq<Prototype>, LoadError>, ghost rest': Step<seq<Prototype>>)
      requires Valid() && m > 0 && rest == ProtoListFrom(data, pos, m, parent)
      modifies this
      ensures Valid() && (r.Ok? ==> old(pos) <= pos)
      ensures r.Err? ==> Prepend(items, rest) == Err(r.error)
      ensures r.Ok? ==> Prepend(items, rest) == Prepend(r.value, rest') && rest' == ProtoListFrom(data, pos, m - 1, parent)
      decreases |data| - pos, 1
    {
      ghost var before := pos;
      rest' := rest;
      assert ChildAt(data, before, parent) == ProtoAt(data, before, parent);
      var x :- LoadProto(parent);
      rest' := ProtoListFrom(data, pos, m - 1, parent);
      assert ProtoListFrom(data, before, m, parent) == Prepend([x], rest');
      PrependAppend(items, x, rest');
      return Ok(items + [x]), rest';
    }

    /**
     * `loadProto(parent)`: the fields in stream order; an empty source is replaced by the
     * parent's, and the children get this node's resolved source.
     */
    method LoadProto(parent: seq<byte>) returns (r: Result<Prototype, LoadError>)
      requires Valid()
      modifies this
      ensures Valid() && Done(ProtoAt(data, old(pos), parent), r, pos)
      decreases |data| - pos, 0
    {
      var source :- LoadString();
      if source == [] {
        source := parent;
      }
      var lineDefined :- LoadInt();
      var lastLineDefined :- LoadInt();
      var numParams :- LoadByte();
      var isVararg :- LoadByte();
      var maxStackSize :- LoadByte();
      var code :- LoadCode();
      var constants :- LoadConstants();
      var upvalues :- LoadUpvalues();
      var protos :- LoadProtos(source);
      var lineInfo :- LoadLineInfo();
      var absLineInfo :- LoadAbsLineInfo();
      var locVars :- LoadLocVars();
      var upvalueNames :- LoadUpvalueNames();
      return Ok(Prototype(source, lineDefined, lastLineDefined, numParams, isVararg, maxStackSize,
        code, constants, upvalues, protos, lineInfo, absLineInfo, locVars, upvalueNames));
    }

    /** `checkHeader`: compares field after field and stops at the first mismatch. */
    method CheckHeader() returns (r: Result<(), LoadError>)
      requires Valid()
      modifies this
      ensures Valid() && Done(HeaderAt(data, old(pos)), r, pos)
    {
      var signature :- LoadBytes(|LUA_SIGNATURE|);
      if signature != LUA_SIGNATURE {
        return Err(BadHeader(Signature));
      }
      var version :- LoadByte();
      if version != LUAC_VERSION {
        return Err(BadHeader(Version));
      }
      var format :- LoadByte();
      if format != LUAC_FORMAT {
        return Err(BadHeader(Format));
      }
      var luacData :- LoadBytes(|LUAC_DATA|);
      if luacData != LUAC_DATA {
        return Err(BadHeader(LuacData));
      }
      var instructionSize :- LoadByte();
      if instructionSize != INSTRUCTION_SIZE {
        return Err(BadHeader(InstructionSize));
      }
      var integerSize :- LoadByte();
      if integerSize != LUA_INTEGER_SIZE {
        return Err(BadHeader(IntegerSize));
      }
      var numberSize :- LoadByte();
      if numberSize != LUA_NUMBER_SIZE {
        return Err(BadHeader(NumberSize));
      }
      var luacInt :- LoadLuaInteger();
      if luacInt != LUAC_INT {
        return Err(BadHeader(Endianness));
      }
      var luacNum :- LoadLuaNumber();
      if luacNum != LUAC_NUM_BITS {
        return Err(BadHeader(FloatFormat));
      }
      return Ok(());
    }
  }

  /**
   * `Undump`: one reader driven through the header, the raw upvalue-count byte and the root
   * prototype (parent source ""), then the count check.
   */
  method Undump(input: seq<byte>) returns (r: Result<Prototype, LoadError>)
    ensures r == UndumpSpec(input)
  {
    var reader := new LuaReader(input);
    var _ :- reader.CheckHeader();
    var nupvals :- reader.LoadByte();
    var proto :- reader.LoadProto([]);
    if nupvals != |proto.upvalues| {
      return Err(UpvalueCountMismatch(nupvals, |proto.upvalues|));
    }
    return Ok(proto);
  }
}
