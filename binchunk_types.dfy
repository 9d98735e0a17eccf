/** The values a chunk decodes to (binchunk/binary_chunk.go) and the ways decoding fails. */
module BinchunkTypes {
  import opened BinchunkConst

  /** Where an upvalue lives: on the enclosing function's stack, its index, and its kind. */
  datatype Upvalue = Upvalue(instack: byte, idx: byte, kind: byte)

  /** An absolute line-number anchor. */
  datatype AbsLineInfo = AbsLineInfo(pc: int, line: int)

  /** A local variable's name and the instruction range where it is live. */
  datatype LocVar = LocVar(varName: seq<byte>, startPC: int, endPC: int)

  /**
   * An entry of a constant table. Floats are kept as their 64-bit pattern and integers as the
   * signed (two's complement) value of their 64-bit pattern; strings are byte strings.
   */
  datatype Constant =
    | Nil
    | Boolean(b: bool)
    | Number(bits: nat)
    | Integer(v: int)
    | Str(s: seq<byte>)

  /** A function prototype, with its nested prototypes. */
  datatype Prototype = Prototype(
    source: seq<byte>,
    lineDefined: int,
    lastLineDefined: int,
    numParams: byte,
    isVararg: byte,
    maxStackSize: byte,
    code: seq<nat>,
    constants: seq<Constant>,
    upvalues: seq<Upvalue>,
    protos: seq<Prototype>,
    lineInfo: seq<byte>,
    absLineInfo: seq<AbsLineInfo>,
    locVars: seq<LocVar>,
    upvalueNames: seq<seq<byte>>)

  /** The header fields, in the order they are checked. */
  datatype HeaderField =
    | Signature
    | Version
    | Format
    | LuacData
    | InstructionSize
    | IntegerSize
    | NumberSize
    | Endianness
    | FloatFormat

  /** Each `panic` of the loader becomes one of these. */
  datatype LoadError =
    | UnexpectedEof
    | IntegerOverflow
    | UnknownTag(tag: byte)
    | BadHeader(field: HeaderField)
    | UpvalueCountMismatch(declared: nat, actual: nat)
}
