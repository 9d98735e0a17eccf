/** Opcode ids, the opcode descriptor table and the instruction decoders (vm/opcodes.go). */
module VmOpcodes {
  import opened VmConst
  import opened Outcomes
  import opened VmInstruction

  // Addressing modes, numbered as the source's `iota` block.
  const MODE_IABC: nat := 0
  const MODE_IABX: nat := 1
  const MODE_IASBX: nat := 2
  const MODE_IAX: nat := 3
  const MODE_ISJ: nat := 4

  // Opcode ids.
  const OP_MOVE: nat := 0
  const OP_LOADI: nat := 1
  const OP_LOADF: nat := 2
  const OP_LOADK: nat := 3
  const OP_LOADKX: nat := 4
  const OP_LOADFALSE: nat := 5
  const OP_LFALSESKIP: nat := 6
  const OP_LOADTRUE: nat := 7
  const OP_LOADNIL: nat := 8
  const OP_GETUPVAL: nat := 9
  const OP_SETUPVAL: nat := 10
  const OP_GETTABUP: nat := 11
  const OP_GETTABLE: nat := 12
  const OP_GETI: nat := 13
  const OP_GETFIELD: nat := 14
  const OP_SETTABUP: nat := 15
  const OP_SETTABLE: nat := 16
  const OP_SETI: nat := 17
  const OP_SETFIELD: nat := 18
  const OP_NEWTABLE: nat := 19
  const OP_SELF: nat := 20
  const OP_ADDI: nat := 21
  const OP_ADDK: nat := 22
  const OP_SUBK: nat := 23
  const OP_MULK: nat := 24
  const OP_MODK: nat := 25
  const OP_POWK: nat := 26
  const OP_DIVK: nat := 27
  const OP_IDIVK: nat := 28
  const OP_BANDK: nat := 29
  const OP_BORK: nat := 30
  const OP_BXORK: nat := 31
  const OP_SHRI: nat := 32
  const OP_SHLI: nat := 33
  const OP_ADD: nat := 34
  const OP_SUB: nat := 35
  const OP_MUL: nat := 36
  const OP_MOD: nat := 37
  const OP_POW: nat := 38
  const OP_DIV: nat := 39
  const OP_IDIV: nat := 40
  const OP_BAND: nat := 41
  const OP_BOR: nat := 42
  const OP_BXOR: nat := 43
  const OP_SHL: nat := 44
  const OP_SHR: nat := 45
  const OP_MMBIN: nat := 46
  const OP_MMBINI: nat := 47
  const OP_MMBINK: nat := 48
  const OP_UNM: nat := 49
  const OP_BNOT: nat := 50
  const OP_NOT: nat := 51
  const OP_LEN: nat := 52
  const OP_CONCAT: nat := 53
  const OP_CLOSE: nat := 54
  const OP_TBC: nat := 55
  const OP_JMP: nat := 56
  const OP_EQ: nat := 57
  const OP_LT: nat := 58
  const OP_LE: nat := 59
  const OP_EQK: nat := 60
  const OP_EQI: nat := 61
  const OP_LTI: nat := 62
  const OP_LEI: nat := 63
  const OP_GTI: nat := 64
  const OP_GEI: nat := 65
  const OP_TEST: nat := 66
  const OP_TESTSET: nat := 67
  const OP_CALL: nat := 68
  const OP_TAILCALL: nat := 69
  const OP_RETURN: nat := 70
  const OP_RETURN0: nat := 71
  const OP_RETURN1: nat := 72
  const OP_FORLOOP: nat := 73
  const OP_FORPREP: nat := 74
  const OP_TFORPREP: nat := 75
  const OP_TFORCALL: nat := 76
  const OP_TFORLOOP: nat := 77
  const OP_SETLIST: nat := 78
  const OP_CLOSURE: nat := 79
  const OP_VARARG: nat := 80
  const OP_VARARGPREP: nat := 81
  const OP_EXTRAARG: nat := 82
  const NUM_OPCODES: nat := 83

  /** A table flag: the source stores each flag as the byte 0 or 1. */
  type Flag = x: nat | x <= 1

  /** One descriptor: metamethod, sets-top, uses-top, test and sets-A flags, the mode and the name. */
  datatype OpInfo = OpInfo(
    setMMFlag: Flag,
    setOTFlag: Flag,
    setITFlag: Flag,
    testFlag: Flag,
    setAFlag: Flag,
    opMode: nat,
    name: string)

  /**
   * The descriptor table, indexed by opcode id. It is one slice literal in the source; here it is
   * written as nine runs of at most ten entries joined together, which denotes the same sequence
   * and keeps indexing into it cheap for the verifier.
   */
  const OPCODES: seq<OpInfo> :=
    [
      OpInfo(0, 0, 0, 0, 1, MODE_IABC, "MOVE"),  // 0
      OpInfo(0, 0, 0, 0, 1, MODE_IASBX, "LOADI"),  // 1
      OpInfo(0, 0, 0, 0, 1, MODE_IASBX, "LOADF"),  // 2
      OpInfo(0, 0, 0, 0, 1, MODE_IABX, "LOADK"),  // 3
      OpInfo(0, 0, 0, 0, 1, MODE_IABX, "LOADKX"),  // 4
      OpInfo(0, 0, 0, 0, 1, MODE_IABC, "LOADFALSE"),  // 5
      OpInfo(0, 0, 0, 0, 1, MODE_IABC, "LFALSESKIP"),  // 6
      OpInfo(0, 0, 0, 0, 1, MODE_IABC, "LOADTRUE"),  // 7
      OpInfo(0, 0, 0, 0, 1, MODE_IABC, "LOADNIL"),  // 8
      OpInfo(0, 0, 0, 0, 1, MODE_IABC, "GETUPVAL")  // 9
    ] +
    [
      OpInfo(0, 0, 0, 0, 0, MODE_IABC, "SETUPVAL"),  // 10
      OpInfo(0, 0, 0, 0, 1, MODE_IABC, "GETTABUP"),  // 11
      OpInfo(0, 0, 0, 0, 1, MODE_IABC, "GETTABLE"),  // 12
      OpInfo(0, 0, 0, 0, 1, MODE_IABC, "GETI"),  // 13
      OpInfo(0, 0, 0, 0, 1, MODE_IABC, "GETFIELD"),  // 14
      OpInfo(0, 0, 0, 0, 0, MODE_IABC, "SETTABUP"),  // 15
      OpInfo(0, 0, 0, 0, 0, MODE_IABC, "SETTABLE"),  // 16
      OpInfo(0, 0, 0, 0, 0, MODE_IABC, "SETI"),  // 17
      OpInfo(0, 0, 0, 0, 0, MODE_IABC, "SETFIELD"),  // 18
      OpInfo(0, 0, 0, 0, 1, MODE_IABC, "NEWTABLE")  // 19
    ] +
    [
      OpInfo(0, 0, 0, 0, 1, MODE_IABC, "SELF"),  // 20
      OpInfo(0, 0, 0, 0, 1, MODE_IABC, "ADDI"),  // 21
      OpInfo(0, 0, 0, 0, 1, MODE_IABC, "ADDK"),  // 22
      OpInfo(0, 0, 0, 0, 1, MODE_IABC, "SUBK"),  // 23
      OpInfo(0, 0, 0, 0, 1, MODE_IABC, "MULK"),  // 24
      OpInfo(0, 0, 0, 0, 1, MODE_IABC, "MODK"),  // 25
      OpInfo(0, 0, 0, 0, 1, MODE_IABC, "POWK"),  // 26
      OpInfo(0, 0, 0, 0, 1, MODE_IABC, "DIVK"),  // 27
      OpInfo(0, 0, 0, 0, 1, MODE_IABC, "IDIVK"),  // 28
      OpInfo(0, 0, 0, 0, 1, MODE_IABC, "BANDK")  // 29
    ] +
    [
      OpInfo(0, 0, 0, 0, 1, MODE_IABC, "BORK"),  // 30
      OpInfo(0, 0, 0, 0, 1, MODE_IABC, "BXORK"),  // 31
      OpInfo(0, 0, 0, 0, 1, MODE_IABC, "SHRI"),  // 32
      OpInfo(0, 0, 0, 0, 1, MODE_IABC, "SHLI"),  // 33
      OpInfo(0, 0, 0, 0, 1, MODE_IABC, "ADD"),  // 34
      OpInfo(0, 0, 0, 0, 1, MODE_IABC, "SUB"),  // 35
      OpInfo(0, 0, 0, 0, 1, MODE_IABC, "MUL"),  // 36
      OpInfo(0, 0, 0, 0, 1, MODE_IABC, "MOD"),  // 37
      OpInfo(0, 0, 0, 0, 1, MODE_IABC, "POW"),  // 38
      OpInfo(0, 0, 0, 0, 1, MODE_IABC, "DIV")  // 39
    ] +
    [
      OpInfo(0, 0, 0, 0, 1, MODE_IABC, "IDIV"),  // 40
      OpInfo(0, 0, 0, 0, 1, MODE_IABC, "BAND"),  // 41
      OpInfo(0, 0, 0, 0, 1, MODE_IABC, "BOR"),  // 42
      OpInfo(0, 0, 0, 0, 1, MODE_IABC, "BXOR"),  // 43
      OpInfo(0, 0, 0, 0, 1, MODE_IABC, "SHL"),  // 44
      OpInfo(0, 0, 0, 0, 1, MODE_IABC, "SHR"),  // 45
      OpInfo(1, 0, 0, 0, 0, MODE_IABC, "MMBIN"),  // 46
      OpInfo(1, 0, 0, 0, 0, MODE_IABC, "MMBINI"),  // 47
      OpInfo(1, 0, 0, 0, 0, MODE_IABC, "MMBINK"),  // 48
      OpInfo(0, 0, 0, 0, 1, MODE_IABC, "UNM")  // 49
    ] +
    [
      OpInfo(0, 0, 0, 0, 1, MODE_IABC, "BNOT"),  // 50
      OpInfo(0, 0, 0, 0, 1, MODE_IABC, "NOT"),  // 51
      OpInfo(0, 0, 0, 0, 1, MODE_IABC, "LEN"),  // 52
      OpInfo(0, 0, 0, 0, 1, MODE_IABC, "CONCAT"),  // 53
      OpInfo(0, 0, 0, 0, 0, MODE_IABC, "CLOSE"),  // 54
      OpInfo(0, 0, 0, 0, 0, MODE_IABC, "TBC"),  // 55
      OpInfo(0, 0, 0, 0, 0, MODE_ISJ, "JMP"),  // 56
      OpInfo(0, 0, 0, 1, 0, MODE_IABC, "EQ"),  // 57
      OpInfo(0, 0, 0, 1, 0, MODE_IABC, "LT"),  // 58
      OpInfo(0, 0, 0, 1, 0, MODE_IABC, "LE")  // 59
    ] +
    [
      OpInfo(0, 0, 0, 1, 0, MODE_IABC, "EQK"),  // 60
      OpInfo(0, 0, 0, 1, 0, MODE_IABC, "EQI"),  // 61
      OpInfo(0, 0, 0, 1, 0, MODE_IABC, "LTI"),  // 62
      OpInfo(0, 0, 0, 1, 0, MODE_IABC, "LEI"),  // 63
      OpInfo(0, 0, 0, 1, 0, MODE_IABC, "GTI"),  // 64
      OpInfo(0, 0, 0, 1, 0, MODE_IABC, "GEI"),  // 65
      OpInfo(0, 0, 0, 1, 0, MODE_IABC, "TEST"),  // 66
      OpInfo(0, 0, 0, 1, 1, MODE_IABC, "TESTSET"),  // 67
      OpInfo(0, 1, 1, 0, 1, MODE_IABC, "CALL"),  // 68
      OpInfo(0, 1, 1, 0, 1, MODE_IABC, "TAILCALL")  // 69
    ] +
    [
      OpInfo(0, 0, 1, 0, 0, MODE_IABC, "RETURN"),  // 70
      OpInfo(0, 0, 0, 0, 0, MODE_IABC, "RETURN0"),  // 71
      OpInfo(0, 0, 0, 0, 0, MODE_IABC, "RETURN1"),  // 72
      OpInfo(0, 0, 0, 0, 1, MODE_IABX, "FORLOOP"),  // 73
      OpInfo(0, 0, 0, 0, 1, MODE_IABX, "FORPREP"),  // 74
      OpInfo(0, 0, 0, 0, 0, MODE_IABX, "TFORPREP"),  // 75
      OpInfo(0, 0, 0, 0, 0, MODE_IABC, "TFORCALL"),  // 76
      OpInfo(0, 0, 0, 0, 1, MODE_IABX, "TFORLOOP"),  // 77
      OpInfo(0, 0, 1, 0, 0, MODE_IABC, "SETLIST"),  // 78
      OpInfo(0, 0, 0, 0, 1, MODE_IABX, "CLOSURE")  // 79
    ] +
    [
      OpInfo(0, 1, 0, 0, 1, MODE_IABC, "VARARG"),  // 80
      OpInfo(0, 0, 1, 0, 1, MODE_IABC, "VARARGPREP"),  // 81
      OpInfo(0, 0, 0, 0, 0, MODE_IAX, "EXTRAARG")  // 82
    ]

  /** The ways a table accessor can fail: an opcode id past the end of the table. */
  datatype VmError = IndexOutOfRange(op: nat)

  /** The descriptor of the word's opcode; ids 83..127 index past the end of the table. */
  function Descriptor(i: Instruction): (r: Result<OpInfo, VmError>)
    ensures r.Ok? <==> Opcode(i) < NUM_OPCODES
    ensures r.Ok? ==> r.value == OPCODES[Opcode(i)]
    ensures r.Err? ==> r.error == IndexOutOfRange(Opcode(i))
  {
    var op := Opcode(i);
    if op < |OPCODES| then Ok(OPCODES[op]) else Err(IndexOutOfRange(op))
  }

  /** The name of the word's opcode (`OpName`). */
  function OpName(i: Instruction): (r: Result<string, VmError>)
    ensures r.Ok? <==> Opcode(i) < NUM_OPCODES
    ensures r.Ok? ==> r.value == OPCODES[Opcode(i)].name
    ensures r.Err? ==> r.error == IndexOutOfRange(Opcode(i))
  {
    var d :- Descriptor(i);
    Ok(d.name)
  }

  /** The instruction layout of the word's opcode (`OpMode`). */
  function OpMode(i: Instruction): (r: Result<nat, VmError>)
    ensures r.Ok? <==> Opcode(i) < NUM_OPCODES
    ensures r.Ok? ==> r.value == OPCODES[Opcode(i)].opMode
    ensures r.Err? ==> r.error == IndexOutOfRange(Opcode(i))
  {
    var d :- Descriptor(i);
    Ok(d.opMode)
  }

  /** Whether the word's opcode sets register A (`TestAMode`). */
  function TestAMode(i: Instruction): (r: Result<Flag, VmError>)
    ensures r.Ok? <==> Opcode(i) < NUM_OPCODES
    ensures r.Ok? ==> r.value == OPCODES[Opcode(i)].setAFlag
    ensures r.Err? ==> r.error == IndexOutOfRange(Opcode(i))
  {
    var d :- Descriptor(i);
    Ok(d.setAFlag)
  }

  /** Whether the word's opcode is a test (`TestTMode`). */
  function TestTMode(i: Instruction): (r: Result<Flag, VmError>)
    ensures r.Ok? <==> Opcode(i) < NUM_OPCODES
    ensures r.Ok? ==> r.value == OPCODES[Opcode(i)].testFlag
    ensures r.Err? ==> r.error == IndexOutOfRange(Opcode(i))
  {
    var d :- Descriptor(i);
    Ok(d.testFlag)
  }

  /** Whether the word's opcode uses the stack top set by the previous one (`TestITMode`). */
  function TestITMode(i: Instruction): (r: Result<Flag, VmError>)
    ensures r.Ok? <==> Opcode(i) < NUM_OPCODES
    ensures r.Ok? ==> r.value == OPCODES[Opcode(i)].setITFlag
    ensures r.Err? ==> r.error == IndexOutOfRange(Opcode(i))
  {
    var d :- Descriptor(i);
    Ok(d.setITFlag)
  }

  /** Whether the word's opcode sets the stack top for the next one (`TestOTMode`). */
  function TestOTMode(i: Instruction): (r: Result<Flag, VmError>)
    ensures r.Ok? <==> Opcode(i) < NUM_OPCODES
    ensures r.Ok? ==> r.value == OPCODES[Opcode(i)].setOTFlag
    ensures r.Err? ==> r.error == IndexOutOfRange(Opcode(i))
  {
    var d :- Descriptor(i);
    Ok(d.setOTFlag)
  }

  /** The iABC example: fields A=5, k=1, B=10, C=20 come back unchanged for every table opcode. */
  lemma ABCExample(op: nat)
    requires op < 83
    ensures IABC(CreateABCk(op, 5, 1, 10, 20)) == (5, 1, 10, 20)
    ensures Descriptor(CreateABCk(op, 5, 1, 10, 20)).Ok?
  {
    ABCRoundTrip(op, 5, 1, 10, 20);
  }

  /** Entry n of the table is the descriptor of opcode n: its name is the id's name without `OP_`. */
  lemma TableNames()
    ensures OPCODES[OP_MOVE].name == "MOVE"
    ensures OPCODES[OP_LOADI].name == "LOADI"
    ensures OPCODES[OP_LOADF].name == "LOADF"
    ensures OPCODES[OP_LOADK].name == "LOADK"
    ensures OPCODES[OP_LOADKX].name == "LOADKX"
    ensures OPCODES[OP_LOADFALSE].name == "LOADFALSE"
    ensures OPCODES[OP_LFALSESKIP].name == "LFALSESKIP"
    ensures OPCODES[OP_LOADTRUE].name == "LOADTRUE"
    ensures OPCODES[OP_LOADNIL].name == "LOADNIL"
    ensures OPCODES[OP_GETUPVAL].name == "GETUPVAL"
    ensures OPCODES[OP_SETUPVAL].name == "SETUPVAL"
    ensures OPCODES[OP_GETTABUP].name == "GETTABUP"
    ensures OPCODES[OP_GETTABLE].name == "GETTABLE"
    ensures OPCODES[OP_GETI].name == "GETI"
    ensures OPCODES[OP_GETFIELD].name == "GETFIELD"
    ensures OPCODES[OP_SETTABUP].name == "SETTABUP"
    ensures OPCODES[OP_SETTABLE].name == "SETTABLE"
    ensures OPCODES[OP_SETI].name == "SETI"
    ensures OPCODES[OP_SETFIELD].name == "SETFIELD"
    ensures OPCODES[OP_NEWTABLE].name == "NEWTABLE"
    ensures OPCODES[OP_SELF].name == "SELF"
    ensures OPCODES[OP_ADDI].name == "ADDI"
    ensures OPCODES[OP_ADDK].name == "ADDK"
    ensures OPCODES[OP_SUBK].name == "SUBK"
    ensures OPCODES[OP_MULK].name == "MULK"
    ensures OPCODES[OP_MODK].name == "MODK"
    ensures OPCODES[OP_POWK].name == "POWK"
    ensures OPCODES[OP_DIVK].name == "DIVK"
    ensures OPCODES[OP_IDIVK].name == "IDIVK"
    ensures OPCODES[OP_BANDK].name == "BANDK"
    ensures OPCODES[OP_BORK].name == "BORK"
    ensures OPCODES[OP_BXORK].name == "BXORK"
    ensures OPCODES[OP_SHRI].name == "SHRI"
    ensures OPCODES[OP_SHLI].name == "SHLI"
    ensures OPCODES[OP_ADD].name == "ADD"
    ensures OPCODES[OP_SUB].name == "SUB"
    ensures OPCODES[OP_MUL].name == "MUL"
    ensures OPCODES[OP_MOD].name == "MOD"
    ensures OPCODES[OP_POW].name == "POW"
    ensures OPCODES[OP_DIV].name == "DIV"
    ensures OPCODES[OP_IDIV].name == "IDIV"
    ensures OPCODES[OP_BAND].name == "BAND"
    ensures OPCODES[OP_BOR].name == "BOR"
    ensures OPCODES[OP_BXOR].name == "BXOR"
    ensures OPCODES[OP_SHL].name == "SHL"
    ensures OPCODES[OP_SHR].name == "SHR"
    ensures OPCODES[OP_MMBIN].name == "MMBIN"
    ensures OPCODES[OP_MMBINI].name == "MMBINI"
    ensures OPCODES[OP_MMBINK].name == "MMBINK"
    ensures OPCODES[OP_UNM].name == "UNM"
    ensures OPCODES[OP_BNOT].name == "BNOT"
    ensures OPCODES[OP_NOT].name == "NOT"
    ensures OPCODES[OP_LEN].name == "LEN"
    ensures OPCODES[OP_CONCAT].name == "CONCAT"
    ensures OPCODES[OP_CLOSE].name == "CLOSE"
    ensures OPCODES[OP_TBC].name == "TBC"
    ensures OPCODES[OP_JMP].name == "JMP"
    ensures OPCODES[OP_EQ].name == "EQ"
    ensures OPCODES[OP_LT].name == "LT"
    ensures OPCODES[OP_LE].name == "LE"
    ensures OPCODES[OP_EQK].name == "EQK"
    ensures OPCODES[OP_EQI].name == "EQI"
    ensures OPCODES[OP_LTI].name == "LTI"
    ensures OPCODES[OP_LEI].name == "LEI"
    ensures OPCODES[OP_GTI].name == "GTI"
    ensures OPCODES[OP_GEI].name == "GEI"
    ensures OPCODES[OP_TEST].name == "TEST"
    ensures OPCODES[OP_TESTSET].name == "TESTSET"
    ensures OPCODES[OP_CALL].name == "CALL"
    ensures OPCODES[OP_TAILCALL].name == "TAILCALL"
    ensures OPCODES[OP_RETURN].name == "RETURN"
    ensures OPCODES[OP_RETURN0].name == "RETURN0"
    ensures OPCODES[OP_RETURN1].name == "RETURN1"
    ensures OPCODES[OP_FORLOOP].name == "FORLOOP"
    ensures OPCODES[OP_FORPREP].name == "FORPREP"
    ensures OPCODES[OP_TFORPREP].name == "TFORPREP"
    ensures OPCODES[OP_TFORCALL].name == "TFORCALL"
    ensures OPCODES[OP_TFORLOOP].name == "TFORLOOP"
    ensures OPCODES[OP_SETLIST].name == "SETLIST"
    ensures OPCODES[OP_CLOSURE].name == "CLOSURE"
    ensures OPCODES[OP_VARARG].name == "VARARG"
    ensures OPCODES[OP_VARARGPREP].name == "VARARGPREP"
    ensures OPCODES[OP_EXTRAARG].name == "EXTRAARG"
  {
    TableNamesPart0();
    TableNamesPart1();
    TableNamesPart2();
    TableNamesPart3();
    TableNamesPart4();
    TableNamesPart5();
    TableNamesPart6();
    TableNamesPart7();
    TableNamesPart8();
    TableNamesPart9();
    TableNamesPart10();
    TableNamesPart11();
    TableNamesPart12();
    TableNamesPart13();
    TableNamesPart14();
    TableNamesPart15();
    TableNamesPart16();
  }

  // The same facts, five entries at a time (one small obligation per lemma).

  lemma TableNamesPart0()
    ensures OPCODES[OP_MOVE].name == "MOVE"
    ensures OPCODES[OP_LOADI].name == "LOADI"
    ensures OPCODES[OP_LOADF].name == "LOADF"
    ensures OPCODES[OP_LOADK].name == "LOADK"
    ensures OPCODES[OP_LOADKX].name == "LOADKX"
  {
  }

  lemma TableNamesPart1()
    ensures OPCODES[OP_LOADFALSE].name == "LOADFALSE"
    ensures OPCODES[OP_LFALSESKIP].name == "LFALSESKIP"
    ensures OPCODES[OP_LOADTRUE].name == "LOADTRUE"
    ensures OPCODES[OP_LOADNIL].name == "LOADNIL"
    ensures OPCODES[OP_GETUPVAL].name == "GETUPVAL"
  {
  }

  lemma TableNamesPart2()
    ensures OPCODES[OP_SETUPVAL].name == "SETUPVAL"
    ensures OPCODES[OP_GETTABUP].name == "GETTABUP"
    ensures OPCODES[OP_GETTABLE].name == "GETTABLE"
    ensures OPCODES[OP_GETI].name == "GETI"
    ensures OPCODES[OP_GETFIELD].name == "GETFIELD"
  {
  }

  lemma TableNamesPart3()
    ensures OPCODES[OP_SETTABUP].name == "SETTABUP"
    ensures OPCODES[OP_SETTABLE].name == "SETTABLE"
    ensures OPCODES[OP_SETI].name == "SETI"
    ensures OPCODES[OP_SETFIELD].name == "SETFIELD"
    ensures OPCODES[OP_NEWTABLE].name == "NEWTABLE"
  {
  }

  lemma TableNamesPart4()
    ensures OPCODES[OP_SELF].name == "SELF"
    ensures OPCODES[OP_ADDI].name == "ADDI"
    ensures OPCODES[OP_ADDK].name == "ADDK"
    ensures OPCODES[OP_SUBK].name == "SUBK"
    ensures OPCODES[OP_MULK].name == "MULK"
  {
  }

  lemma TableNamesPart5()
    ensures OPCODES[OP_MODK].name == "MODK"
    ensures OPCODES[OP_POWK].name == "POWK"
    ensures OPCODES[OP_DIVK].name == "DIVK"
    ensures OPCODES[OP_IDIVK].name == "IDIVK"
    ensures OPCODES[OP_BANDK].name == "BANDK"
  {
  }

  lemma TableNamesPart6()
    ensures OPCODES[OP_BORK].name == "BORK"
    ensures OPCODES[OP_BXORK].name == "BXORK"
    ensures OPCODES[OP_SHRI].name == "SHRI"
    ensures OPCODES[OP_SHLI].name == "SHLI"
    ensures OPCODES[OP_ADD].name == "ADD"
  {
  }

  lemma TableNamesPart7()
    ensures OPCODES[OP_SUB].name == "SUB"
    ensures OPCODES[OP_MUL].name == "MUL"
    ensures OPCODES[OP_MOD].name == "MOD"
    ensures OPCODES[OP_POW].name == "POW"
    ensures OPCODES[OP_DIV].name == "DIV"
  {
  }

  lemma TableNamesPart8()
    ensures OPCODES[OP_IDIV].name == "IDIV"
    ensures OPCODES[OP_BAND].name == "BAND"
    ensures OPCODES[OP_BOR].name == "BOR"
    ensures OPCODES[OP_BXOR].name == "BXOR"
    ensures OPCODES[OP_SHL].name == "SHL"
  {
  }

  lemma TableNamesPart9()
    ensures OPCODES[OP_SHR].name == "SHR"
    ensures OPCODES[OP_MMBIN].name == "MMBIN"
    ensures OPCODES[OP_MMBINI].name == "MMBINI"
    ensures OPCODES[OP_MMBINK].name == "MMBINK"
    ensures OPCODES[OP_UNM].name == "UNM"
  {
  }

  lemma TableNamesPart10()
    ensures OPCODES[OP_BNOT].name == "BNOT"
    ensures OPCODES[OP_NOT].name == "NOT"
    ensures OPCODES[OP_LEN].name == "LEN"
    ensures OPCODES[OP_CONCAT].name == "CONCAT"
    ensures OPCODES[OP_CLOSE].name == "CLOSE"
  {
  }

  lemma TableNamesPart11()
    ensures OPCODES[OP_TBC].name == "TBC"
    ensures OPCODES[OP_JMP].name == "JMP"
    ensures OPCODES[OP_EQ].name == "EQ"
    ensures OPCODES[OP_LT].name == "LT"
    ensures OPCODES[OP_LE].name == "LE"
  {
  }

  lemma TableNamesPart12()
    ensures OPCODES[OP_EQK].name == "EQK"
    ensures OPCODES[OP_EQI].name == "EQI"
    ensures OPCODES[OP_LTI].name == "LTI"
    ensures OPCODES[OP_LEI].name == "LEI"
    ensures OPCODES[OP_GTI].name == "GTI"
  {
  }

  lemma TableNamesPart13()
    ensures OPCODES[OP_GEI].name == "GEI"
    ensures OPCODES[OP_TEST].name == "TEST"
    ensures OPCODES[OP_TESTSET].name == "TESTSET"
    ensures OPCODES[OP_CALL].name == "CALL"
    ensures OPCODES[OP_TAILCALL].name == "TAILCALL"
  {
  }

  lemma TableNamesPart14()
    ensures OPCODES[OP_RETURN].name == "RETURN"
    ensures OPCODES[OP_RETURN0].name == "RETURN0"
    ensures OPCODES[OP_RETURN1].name == "RETURN1"
    ensures OPCODES[OP_FORLOOP].name == "FORLOOP"
    ensures OPCODES[OP_FORPREP].name == "FORPREP"
  {
  }

  lemma TableNamesPart15()
    ensures OPCODES[OP_TFORPREP].name == "TFORPREP"
    ensures OPCODES[OP_TFORCALL].name == "TFORCALL"
    ensures OPCODES[OP_TFORLOOP].name == "TFORLOOP"
    ensures OPCODES[OP_SETLIST].name == "SETLIST"
    ensures OPCODES[OP_CLOSURE].name == "CLOSURE"
  {
  }

  lemma TableNamesPart16()
    ensures OPCODES[OP_VARARG].name == "VARARG"
    ensures OPCODES[OP_VARARGPREP].name == "VARARGPREP"
    ensures OPCODES[OP_EXTRAARG].name == "EXTRAARG"
  {
  }

  /** The facts the table states about opcode n. */
  ghost predicate TableFactsAt(n: nat)
    requires n < |OPCODES|
  {
    && OPCODES[n].opMode <= MODE_ISJ
    && (OPCODES[n].opMode == MODE_ISJ <==> n == OP_JMP)
    && (OPCODES[n].opMode == MODE_IAX <==> n == OP_EXTRAARG)
    && (OPCODES[n].opMode == MODE_IASBX <==> n == OP_LOADI || n == OP_LOADF)
    && (OPCODES[n].testFlag == 1 <==> OP_EQ <= n <= OP_TESTSET)
    && (OPCODES[n].setMMFlag == 1 <==> OP_MMBIN <= n <= OP_MMBINK)
  }

  /**
   * The table has NUM_OPCODES entries; only JMP is isJ, only EXTRAARG is iAx, only LOADI and
   * LOADF are iAsBx, the test flag is set exactly for EQ..TESTSET and the MM flag exactly for
   * MMBIN..MMBINK.
   */
  lemma TableFacts()
    ensures |OPCODES| == NUM_OPCODES
    ensures forall n | 0 <= n < |OPCODES| :: TableFactsAt(n)
  {
    TableFactsPart0();
    TableFactsPart1();
    TableFactsPart2();
    TableFactsPart3();
  }

  // The same facts over a quarter of the table each.

  lemma TableFactsPart0()
    ensures |OPCODES| == NUM_OPCODES
    ensures forall n | 0 <= n < 21 :: TableFactsAt(n)
  {
    forall n | 0 <= n < 21
      ensures TableFactsAt(n)
    {
      assert
        n == 0 || n == 1 || n == 2 || n == 3 || n == 4 || n == 5 || n == 6 || n == 7 || n == 8 || n == 9 || n == 10 ||
        n == 11 || n == 12 || n == 13 || n == 14 || n == 15 || n == 16 || n == 17 || n == 18 || n == 19 || n == 20;
    }
  }

  lemma TableFactsPart1()
    ensures |OPCODES| == NUM_OPCODES
    ensures forall n | 21 <= n < 42 :: TableFactsAt(n)
  {
    forall n | 21 <= n < 42
      ensures TableFactsAt(n)
    {
      assert
        n == 21 || n == 22 || n == 23 || n == 24 || n == 25 || n == 26 || n == 27 || n == 28 || n == 29 || n == 30 || n == 31 ||
        n == 32 || n == 33 || n == 34 || n == 35 || n == 36 || n == 37 || n == 38 || n == 39 || n == 40 || n == 41;
    }
  }

  lemma TableFactsPart2()
    ensures |OPCODES| == NUM_OPCODES
    ensures forall n | 42 <= n < 63 :: TableFactsAt(n)
  {
    forall n | 42 <= n < 63
      ensures TableFactsAt(n)
    {
      assert
        n == 42 || n == 43 || n == 44 || n == 45 || n == 46 || n == 47 || n == 48 || n == 49 || n == 50 || n == 51 || n == 52 ||
        n == 53 || n == 54 || n == 55 || n == 56 || n == 57 || n == 58 || n == 59 || n == 60 || n == 61 || n == 62;
    }
  }

  lemma TableFactsPart3()
    ensures |OPCODES| == NUM_OPCODES
    ensures forall n | 63 <= n < 83 :: TableFactsAt(n)
  {
    forall n | 63 <= n < 83
      ensures TableFactsAt(n)
    {
      assert
        n == 63 || n == 64 || n == 65 || n == 66 || n == 67 || n == 68 || n == 69 || n == 70 || n == 71 || n == 72 || n == 73 ||
        n == 74 || n == 75 || n == 76 || n == 77 || n == 78 || n == 79 || n == 80 || n == 81 || n == 82;
    }
  }

  /** Every accessor is defined exactly when the opcode id is below NUM_OPCODES. */
  lemma AccessorsDefinedBelowTableEnd(i: Instruction)
    ensures OpName(i).Ok? <==> Opcode(i) < 83
    ensures OpMode(i).Ok? <==> Opcode(i) < 83
    ensures TestAMode(i).Ok? && TestTMode(i).Ok? && TestITMode(i).Ok? && TestOTMode(i).Ok?
            <==> Opcode(i) < 83
    ensures Opcode(i) >= 83 ==> OpName(i) == Err(IndexOutOfRange(Opcode(i)))
  {
  }

  /** The word's mode is one of the five layouts, and the JMP word is the only isJ word. */
  lemma ModeOfWord(i: Instruction)
    requires Opcode(i) < NUM_OPCODES
    ensures OpMode(i).value <= MODE_ISJ
    ensures OpMode(i).value == MODE_ISJ <==> Opcode(i) == OP_JMP
    ensures TestTMode(i).value == 1 <==> OP_EQ <= Opcode(i) <= OP_TESTSET
  {
    TableFacts();
    assert TableFactsAt(Opcode(i));
  }
}
