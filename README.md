# myLua core in Dafny

This project models three parts of the Go Lua 5.4 front end myLua and proves properties about them:

- **Binary-chunk loader** (`binchunk`). It checks the 31-byte header of a precompiled chunk. It then reads the main function prototype: source name, line range, parameter, vararg and stack-size bytes, code words, constants, upvalues, nested prototypes and debug tables. Lengths and integers use Lua 5.4's most-significant-first base-128 encoding.
- **Instruction decoder** (`vm`). It splits a 32-bit instruction into its fields for the five layouts iABC, iABx, iAsBx, iAx and isJ. It reads an opcode's mode and flags from the 83-entry opcode table.
- **Lexer** (`lexer`). It turns Lua source text into tokens: whitespace and comments, operators and punctuation, long and short strings with escapes, numerals, names and reserved words, plus a one-token look-ahead.

## How the model is built

- **Pure specification functions.** Each Go loader and lexer step is specified by a pure function.
  - Over the chunk bytes (`ChunkFormat`), the function maps the bytes and a position to `Ok(Parsed(value, next))` or a `LoadError`.
  - Over the lexer's cursor (`LexerSpec`), the function maps the cursor (remaining text, line, column) to the new cursor and a result.
- **Imperative code.** The Go code that changes state is modelled as imperative Dafny with classes:
  - `ChunkReader.LuaReader` holds the input and a read position. Each `Load…` method is proved to return exactly what its specification function computes and to leave the position where that function says.
  - `LuaLexer.Lexer` has the Go lexer's fields (text, line, column and the cached look-ahead token). Each method is proved to produce the state and result of its `LexerSpec` function.
  - The list loaders' loops carry invariants relating the items read so far to the specification of the whole list.
- **Panics.** Every Go `panic` becomes an `Err` value:
  - a short read, an integer overflow, an unknown constant tag;
  - each header mismatch, and the upvalue-count mismatch;
  - unfinished strings, bad escapes, an unexpected symbol, a syntax error in `NextTokenOfKind`.
- **Lemmas over the specification functions** state what the source promises:
  - encode/decode round trips for the base-128 integers, little-endian words, strings, constants and instructions;
  - round trips for the records, every count-prefixed table, a prototype without nested prototypes and a whole chunk around it (`ChunkDump`, a dumper that writes the parts in the order the loader reads them);
  - the first mismatching header field is the one reported, whatever follows it;
  - the header is accepted exactly when its 31 bytes are the valid Lua 5.4 header;
  - source names are inherited by nested prototypes;
  - reading is stable when bytes are appended to the input;
  - escape decoding, longest-match operators, whitespace and comment skipping, and keyword classification;
  - the look-ahead cache gives the same token `NextToken` would have given.

### Behaviour kept as the code has it

These are modelled as written:

- **Boolean constants.** A constant tagged `0x01` is loaded as `true`, because the Go code stores `tag != 0`. The tag `0x11` is rejected as unknown. `ChunkCodec.ConstantTags` and `ChunkCodec.NoFalseConstant` state this.
- **Escape limits.**
  - A decimal escape must be below 255.
  - A `\u{…}` value must be below 0x10FFFF.
  - `\x` without two hex digits, and `\u` without `{hex}`, make the Go loop spin forever. The model returns `EscapeStuck` instead.
- **Long brackets.** The opening long bracket is searched for anywhere in the remaining text, and so is the closing one. The text comes from slicing between the two, so some inputs yield an unusual string (`LexerProps.LongStringUnanchored`) or a slice-bounds panic (`LexerProps.LongStringCutFails`).
- **Case-insensitive identifier pattern.** Go's case-insensitive pattern also accepts the UTF-8 bytes of U+017F and U+212A inside a name, since those fold to `s` and `k` (`LexerScanProps.FoldedWordBytes`).

## Model

| member | source | states |
|---|---|---|
| VmConst.FieldLayout | vm/const.go:4-22 | The opcode takes 7 bits. A takes 8 bits from bit 7, k 1 bit from bit 15, B 8 bits from bit 16 and C 8 bits from bit 24. Bx spans 17 bits from bit 15; Ax and sJ span 25 bits from bit 7. Every layout fills the word to bit 32. |
| VmConst.Limits | vm/const.go:24-41 | The maximum of each argument (255, 131071, 0x1FFFFFF) and the offsets of the signed fields (sBx 65535, sC 127, sJ 0xFFFFFF), with NO_REG and MAXINDEXRK at 255. |
| VmInstruction.Opcode | vm/opcodes.go:273-275 | The opcode of a word is its low 7 bits, a value below 128. |
| VmInstruction.IABC | vm/opcodes.go:300-306 | A, k, B and C lie in their field ranges (8, 1, 8 and 8 bits). |
| VmInstruction.IABx | vm/opcodes.go:313-317 | A lies in 0..255 and Bx in 0..131071. |
| VmInstruction.IAsBx | vm/opcodes.go:324-327 | sBx is Bx minus the offset 65535, so it lies in -65535..65536, and A is the same as in the iABx view. |
| VmInstruction.IAx | vm/opcodes.go:334-336 | Ax is the 25 bits above the opcode. |
| VmInstruction.IsJx | vm/opcodes.go:343-345 | The sJ field is the same 25 bits as Ax, read without the sJ offset, as the code does. |
| VmInstruction.ABCRoundTrip | vm/opcodes.go:300-306 | Any in-range opcode, A, k, B and C packed into a word are decoded back unchanged. |
| VmInstruction.ABCComplete | vm/opcodes.go:300-306 | Every 32-bit word is re-packed from its decoded opcode and iABC fields, so the iABC view loses no bit. |
| VmInstruction.ABxRoundTrip | vm/opcodes.go:313-327 | A packed opcode, A and Bx come back from the iABx view, and the iAsBx view gives Bx minus 65535. |
| VmInstruction.AxRoundTrip | vm/opcodes.go:334-345 | A packed Ax comes back from both the iAx and the isJ view. |
| VmInstruction.SignedBxExample | vm/opcodes.go:324-327 | Bx 70000 reads as sBx 4465. |
| VmOpcodes.Descriptor | vm/opcodes.go:183-267 | The descriptor is the table entry at the word's opcode id when the id is below 83. Ids 83..127 give `IndexOutOfRange` with that id. |
| VmOpcodes.OpName | vm/opcodes.go:276-278 | The name is that of the table entry at the word's opcode id when the id is below 83; ids 83..127 give `IndexOutOfRange` with that id. |
| VmOpcodes.OpMode | vm/opcodes.go:279-281 | The mode is that of the table entry at the word's opcode id when the id is below 83; ids 83..127 give `IndexOutOfRange` with that id. |
| VmOpcodes.TestAMode | vm/opcodes.go:282-284 | The set-A flag is that of the table entry at the word's opcode id when the id is below 83; ids 83..127 give `IndexOutOfRange` with that id. |
| VmOpcodes.TestTMode | vm/opcodes.go:285-287 | The test flag is that of the table entry at the word's opcode id when the id is below 83; ids 83..127 give `IndexOutOfRange` with that id. |
| VmOpcodes.TestITMode | vm/opcodes.go:288-290 | The input-top flag is that of the table entry at the word's opcode id when the id is below 83; ids 83..127 give `IndexOutOfRange` with that id. |
| VmOpcodes.TestOTMode | vm/opcodes.go:291-293 | The output-top flag is that of the table entry at the word's opcode id when the id is below 83; ids 83..127 give `IndexOutOfRange` with that id. |
| VmOpcodes.TableNames | vm/opcodes.go:183-267 | Entry n of the table carries the name of opcode n (entries 0..13 listed here, the rest in its 17 parts). |
| VmOpcodes.TableFacts | vm/opcodes.go:183-267 | The table has 83 entries and every mode is one of the five layouts. JMP alone is isJ, EXTRAARG alone is iAx, and LOADI and LOADF alone are iAsBx. The test flag is set exactly for EQ..TESTSET, the metamethod flag exactly for MMBIN..MMBINK. |
| VmOpcodes.AccessorsDefinedBelowTableEnd | vm/opcodes.go:276-293 | All six accessors succeed exactly when the opcode id is below 83, and fail with the id otherwise. |
| VmOpcodes.ModeOfWord | vm/opcodes.go:279-287 | For a decodable word, the mode is a layout, the word is isJ exactly when it is a JMP, and it is a test exactly when it is EQ..TESTSET. |
| VmOpcodes.ABCExample | vm/opcodes.go:300-306 | An iABC word built for any table opcode decodes to its fields and has a descriptor. |
| BinchunkConst.HeaderBytes | binchunk/const.go:4-14 | The valid header is the 31 bytes: signature, version 0x54, format 0, LUAC_DATA, sizes 4, 8 and 8, 0x5678 little-endian and the bits of 370.5. |
| BinchunkConst.TagsDistinct | binchunk/const.go:16-25 | The six constant tags differ, TAG_FALSE equals TAG_BOOLEAN, and TAG_TRUE is 0x11 and is none of the six. |
| ChunkFormat.ByteAt | binchunk/reader.go:31-37 | One byte is read exactly when one remains; otherwise the error is `UnexpectedEof`. |
| ChunkFormat.BytesAt | binchunk/reader.go:23-29 | n bytes are read exactly when n remain: the result is that slice and the position moves by n, otherwise `UnexpectedEof`. |
| ChunkFormat.LittleEndian | binchunk/reader.go:38-43 | The little-endian value of k bytes is below 256^k. |
| ChunkFormat.Int64Of | binchunk/reader.go:44-46 | The two's-complement reading of a 64-bit word lies in the int64 range and is the word or the word minus 2^64. |
| ChunkFormat.Uint32At | binchunk/reader.go:41-43 | A word is read exactly when 4 bytes remain; it is below 2^32 and the position moves by 4. |
| ChunkFormat.Uint64At | binchunk/reader.go:38-40 | A word is read exactly when 8 bytes remain; it is below 2^64 and the position moves by 8. |
| ChunkFormat.LuaIntegerAt | binchunk/reader.go:44-46 | A Lua integer is read exactly when 8 bytes remain, as the int64 reading of the little-endian word. |
| ChunkFormat.LuaNumberAt | binchunk/reader.go:48-50 | A Lua number is read exactly when 8 bytes remain, as the 64 bits of the float. |
| ChunkFormat.UnsignedFrom | binchunk/reader.go:59-71 | The base-128 loop stops after at least one byte. Its value is below the limit times 128. |
| ChunkFormat.UnsignedAt | binchunk/reader.go:59-71 | A base-128 integer read with a limit consumes at least one byte and is below the limit. |
| ChunkFormat.IntAt | binchunk/reader.go:72-74 | A length or int field consumes at least one byte and is below MaxInt. |
| ChunkFormat.StringAt | binchunk/reader.go:75-88 | A string consumes at least its length byte. |
| ChunkFormat.Uint32sFrom | binchunk/reader.go:90-96 | n code words read from the position give n values. |
| ChunkFormat.CodeAt | binchunk/reader.go:90-96 | The code table consumes at least its count. |
| ChunkFormat.ConstantAt | binchunk/reader.go:101-115 | A constant consumes at least its tag byte. |
| ChunkFormat.ConstantsFrom | binchunk/reader.go:98-118 | n constants read in a row give n values. |
| ChunkFormat.ConstantsAt | binchunk/reader.go:98-118 | The constant table consumes at least its count. |
| ChunkFormat.UpvalueAt | binchunk/reader.go:123-127 | An upvalue is read exactly when 3 bytes remain. It is the three bytes in the order Instack, Idx, Kind, and the position moves by 3. |
| ChunkFormat.UpvaluesFrom | binchunk/reader.go:120-130 | n upvalues read in a row give n values. |
| ChunkFormat.UpvaluesAt | binchunk/reader.go:120-130 | The upvalue table consumes at least its count. |
| ChunkFormat.LineInfoFrom | binchunk/reader.go:140-146 | n line-info bytes read in a row give n values. |
| ChunkFormat.LineInfoAt | binchunk/reader.go:140-146 | The line-info table consumes at least its count. |
| ChunkFormat.AbsLineInfoEntryAt | binchunk/reader.go:150-151 | An absolute line-info entry consumes at least one byte. |
| ChunkFormat.AbsLineInfosFrom | binchunk/reader.go:147-154 | n entries read in a row give n values. |
| ChunkFormat.AbsLineInfoAt | binchunk/reader.go:147-154 | The absolute line-info table consumes at least its count. |
| ChunkFormat.LocVarAt | binchunk/reader.go:159-163 | A local-variable record consumes at least one byte. |
| ChunkFormat.LocVarsFrom | binchunk/reader.go:156-166 | n records read in a row give n values. |
| ChunkFormat.LocVarsAt | binchunk/reader.go:156-166 | The local-variable table consumes at least its count. |
| ChunkFormat.StringsFrom | binchunk/reader.go:168-174 | n names read in a row give n values. |
| ChunkFormat.UpvalueNamesAt | binchunk/reader.go:168-174 | The upvalue-name table consumes at least its count. |
| ChunkFormat.ProtoAt | binchunk/utils.go:41-63 | A prototype takes at least 14 bytes: one string, two ints (LineDefined, LastLineDefined), three bytes and the counts of eight count-prefixed tables, each at least one byte. `ChunkDump.ProtoRoundTrip` states the field order. |
| ChunkFormat.ProtosAt | binchunk/reader.go:132-138 | The nested prototype table consumes at least its count. |
| ChunkFormat.ProtoListFrom | binchunk/reader.go:132-138 | n nested prototypes read in a row give n values. |
| ChunkFormat.HeaderAt | binchunk/utils.go:3-40 | An accepted header is exactly 31 bytes long. `ChunkTree.HeaderValid` states when it is accepted and `ChunkTree.HeaderFirstMismatch` which field is reported. |
| ChunkFormat.PrependAppend | binchunk/reader.go:98-118 | Putting items in front of a list result and then more items in front equals putting both at once, which lets the list loops accumulate. |
| ChunkFormat.UndumpSpec | binchunk/binary_chunk.go:72-81 | Loading a chunk: the header, the upvalue count byte and the main prototype read with an empty parent source, and a count mismatch is an error. `ChunkTree.UndumpShape` states when it succeeds and `ChunkDump.UndumpRoundTrip` what it returns for a written chunk. |
| ChunkReader.LuaReader.constructor | binchunk/reader.go:20-22 | The reader starts at position 0 of the input. |
| ChunkReader.LuaReader.LoadBytes | binchunk/reader.go:23-29 | Returns the result of `BytesAt` at the old position and moves to its end (or reports its error). |
| ChunkReader.LuaReader.LoadByte | binchunk/reader.go:31-37 | Returns what `ByteAt` computes, and moves past it. |
| ChunkReader.LuaReader.LoadUint64 | binchunk/reader.go:38-40 | Returns what `Uint64At` computes, and moves past it. |
| ChunkReader.LuaReader.LoadUint32 | binchunk/reader.go:41-43 | Returns what `Uint32At` computes, and moves past it. |
| ChunkReader.LuaReader.LoadLuaInteger | binchunk/reader.go:44-46 | Returns what `LuaIntegerAt` computes, and moves past it. |
| ChunkReader.LuaReader.LoadLuaNumber | binchunk/reader.go:48-50 | Returns what `LuaNumberAt` computes, and moves past it. |
| ChunkReader.LuaReader.LoadUnsigned | binchunk/reader.go:59-71 | The base-128 loop returns what `UnsignedAt` computes, overflow included, and moves past it. |
| ChunkReader.LuaReader.LoadInt | binchunk/reader.go:72-74 | Returns what `IntAt` computes, and moves past it. |
| ChunkReader.LuaReader.LoadString | binchunk/reader.go:75-88 | Returns what `StringAt` computes: empty for size 0, otherwise size-1 bytes. |
| ChunkReader.LuaReader.LoadConstant | binchunk/reader.go:101-115 | Returns what `ConstantAt` computes for one tagged constant, and moves past it. |
| ChunkReader.LuaReader.LoadUpvalue | binchunk/reader.go:123-127 | Returns what `UpvalueAt` computes, and moves past it. |
| ChunkReader.LuaReader.LoadAbsLineInfoEntry | binchunk/reader.go:150-151 | Reads the line and then the pc, as `AbsLineInfoEntryAt` computes. |
| ChunkReader.LuaReader.LoadLocVar | binchunk/reader.go:159-163 | Reads name, start pc and end pc, as `LocVarAt` computes. |
| ChunkReader.LuaReader.LoadCode | binchunk/reader.go:90-96 | Returns the code table `CodeAt` computes, and moves past it. |
| ChunkReader.LuaReader.LoadWords | binchunk/reader.go:92-94 | The loop reads the n words `Uint32sFrom` computes. |
| ChunkReader.LuaReader.LoadConstants | binchunk/reader.go:98-118 | Returns the constant table `ConstantsAt` computes, and moves past it. |
| ChunkReader.LuaReader.LoadConstantList | binchunk/reader.go:100-116 | The loop reads the n constants `ConstantsFrom` computes. |
| ChunkReader.LuaReader.LoadUpvalues | binchunk/reader.go:120-130 | Returns the upvalue table `UpvaluesAt` computes, and moves past it. |
| ChunkReader.LuaReader.LoadUpvalueList | binchunk/reader.go:122-128 | The loop reads the n upvalues `UpvaluesFrom` computes. |
| ChunkReader.LuaReader.LoadLineInfo | binchunk/reader.go:140-146 | Returns the line-info bytes `LineInfoAt` computes, and moves past them. |
| ChunkReader.LuaReader.LoadLineInfoBytes | binchunk/reader.go:142-144 | The loop reads the n bytes `LineInfoFrom` computes. |
| ChunkReader.LuaReader.LoadAbsLineInfo | binchunk/reader.go:147-154 | Returns the entries `AbsLineInfoAt` computes, and moves past them. |
| ChunkReader.LuaReader.LoadAbsLineInfoList | binchunk/reader.go:149-152 | The loop reads the n entries `AbsLineInfosFrom` computes. |
| ChunkReader.LuaReader.LoadLocVars | binchunk/reader.go:156-166 | Returns the records `LocVarsAt` computes, and moves past them. |
| ChunkReader.LuaReader.LoadLocVarList | binchunk/reader.go:158-164 | The loop reads the n records `LocVarsFrom` computes. |
| ChunkReader.LuaReader.LoadUpvalueNames | binchunk/reader.go:168-174 | Returns the names `UpvalueNamesAt` computes, and moves past them. |
| ChunkReader.LuaReader.LoadStrings | binchunk/reader.go:170-172 | The loop reads the n strings `StringsFrom` computes. |
| ChunkReader.LuaReader.LoadProtos | binchunk/reader.go:132-138 | Returns the nested prototypes `ProtosAt` computes, with the parent's source passed down. |
| ChunkReader.LuaReader.LoadProtoList | binchunk/reader.go:134-136 | The loop reads the n prototypes `ProtoListFrom` computes. |
| ChunkReader.LuaReader.LoadProtoInto | binchunk/reader.go:135 | One loop step: it reads one child and keeps the list read so far consistent with the rest of the list. |
| ChunkReader.LuaReader.LoadProto | binchunk/utils.go:41-63 | Returns the prototype `ProtoAt` computes, with its fields read in the code's order, and moves past it. |
| ChunkReader.LuaReader.CheckHeader | binchunk/utils.go:3-40 | The nine checks in order give what `HeaderAt` computes, the first mismatching field included. |
| ChunkReader.LuaReader.Undump | binchunk/binary_chunk.go:72-81 | Header, upvalue count and main prototype give exactly `UndumpSpec` of the input. |
| ChunkCodec.EncodeUnsigned | binchunk/reader.go:52-71 | The encoder's last byte has its high bit set and every earlier byte has it clear, which is what `loadUnsigned` takes as a terminated integer. |
| ChunkCodec.AccumulateGroups | binchunk/reader.go:63-69 | Gathering the 7-bit groups of a value most significant first gives the value back. |
| ChunkCodec.UnsignedFromGroups | binchunk/reader.go:59-71 | On 7-bit groups ended by a byte with its high bit set, the loop yields the accumulated value, or `IntegerOverflow` once a prefix reaches the limit. |
| ChunkCodec.UnsignedRoundTrip | binchunk/reader.go:59-71 | Decoding the encoding of x with a limit gives x, with the encoding's length consumed, exactly when x/128 is below limit/128; otherwise it gives `IntegerOverflow`. |
| ChunkCodec.UnsignedFromEncoding | binchunk/reader.go:59-71 | On groups worth hi and a last byte lo+128, the loop yields hi*128+lo when hi is below the limit, else `IntegerOverflow`. |
| ChunkCodec.IntRoundTrip | binchunk/reader.go:72-74 | An encoded int below the read limit decodes to itself; at or above it, to `IntegerOverflow`. |
| ChunkCodec.UnsignedExamples | binchunk/reader.go:52-58 | 0x80 decodes to 0 and 0x02 0xAC to 300, as the comment's example shows. |
| ChunkCodec.UnsignedFromErrors | binchunk/reader.go:59-71 | The loop fails only with `UnexpectedEof` or `IntegerOverflow`. |
| ChunkCodec.LittleEndianRoundTrip | binchunk/reader.go:38-43 | Writing a value below 256^k as k little-endian bytes and reading them gives the value. |
| ChunkCodec.LittleEndianBytesOf | binchunk/reader.go:38-43 | Reading k bytes and writing the value back gives the same bytes. |
| ChunkCodec.Uint64Of | binchunk/reader.go:44-46 | Every int64 has a 64-bit word whose two's-complement reading is that int64. |
| ChunkCodec.Uint32RoundTrip | binchunk/reader.go:41-43 | A 32-bit word written little-endian is read back, and 4 bytes are consumed. |
| ChunkCodec.LuaIntegerRoundTrip | binchunk/reader.go:44-46 | Any int64 written as its two's-complement word is read back. |
| ChunkCodec.LuaNumberRoundTrip | binchunk/reader.go:48-50 | The 64 bits of a float written little-endian are read back. |
| ChunkCodec.StringEmpty | binchunk/reader.go:77-80 | A size byte 0x80 gives the empty string after one byte. |
| ChunkCodec.StringRoundTrip | binchunk/reader.go:75-88 | A string written as size+1 and its bytes is read back whole, short or long. |
| ChunkCodec.ConstantTags | binchunk/reader.go:101-115 | For each tag: nil, `true` for 0x01, a float's bits, an int64, or a string. 8 missing bytes give `UnexpectedEof`. A tag outside the six, 0x11 included, gives `UnknownTag` and nothing else does. |
| ChunkCodec.NoFalseConstant | binchunk/reader.go:105-106 | No loaded constant is ever `false`. |
| ChunkCodec.ConstantRoundTrip | binchunk/reader.go:98-118 | Every constant the format can express (nil, true, numbers, integers, strings) is read back from its encoding. |
| ChunkCodec.LineInfoIsBytes | binchunk/reader.go:140-146 | Reading n line-info bytes one by one is reading n bytes at once. |
| ChunkCodec.AbsLineInfoRoundTrip | binchunk/reader.go:147-154 | An entry written as line then pc is read back as (pc, line). |
| ChunkTree.EndiannessBytes | binchunk/utils.go:32-35 | The endianness check passes exactly for the bytes 78 56 00 00 00 00 00 00. |
| ChunkTree.FloatFormatBytes | binchunk/utils.go:36-39 | The float check passes exactly for the little-endian bits of 370.5. |
| ChunkTree.HeaderFields | binchunk/utils.go:3-40 | With 31 bytes present, the header is accepted exactly when all nine fields match their constants. |
| ChunkTree.HeaderParts | binchunk/utils.go:3-40 | The nine field conditions together say that the 31 bytes equal the valid header. |
| ChunkTree.HeaderValid | binchunk/utils.go:3-40 | The header is accepted exactly when the next 31 bytes are the valid header. |
| ChunkTree.HeaderSignatureFirst | binchunk/utils.go:5-7 | A wrong signature is reported as such, before any other field is looked at. |
| ChunkTree.FieldStart | binchunk/utils.go:3-40 | Each of the nine header fields starts at its offset among the 31 bytes, in the order the checks run. |
| ChunkTree.FieldEnd | binchunk/utils.go:3-40 | Each header field ends after its start and within the 31 bytes, where the next field starts. |
| ChunkTree.HeaderFirstMismatch | binchunk/utils.go:3-40 | When the bytes before field f match the valid header and a byte of f differs, the result is `BadHeader(f)`, whatever follows f and even when the input ends right after it. |
| ChunkTree.SignatureMismatch | binchunk/utils.go:5-16 | The first mismatch in the signature, the version or the format byte is the one reported. |
| ChunkTree.SignatureBytesMismatch | binchunk/utils.go:5-8 | Any differing signature byte gives `BadHeader(Signature)`. |
| ChunkTree.VersionFormatMismatch | binchunk/utils.go:9-16 | After a correct signature, a wrong version or format byte is reported as that field. |
| ChunkTree.VersionByteMismatch | binchunk/utils.go:9-12 | A correct signature followed by another version byte gives `BadHeader(Version)`. |
| ChunkTree.FormatByteMismatch | binchunk/utils.go:13-16 | A correct signature and version followed by another format byte gives `BadHeader(Format)`. |
| ChunkTree.DataMismatch | binchunk/utils.go:17-31 | After correct earlier fields, a wrong LUAC_DATA byte or a wrong size byte is reported as that field. |
| ChunkTree.EndiannessMismatch | binchunk/utils.go:32-35 | After 15 correct bytes, any differing byte of the LUAC_INT field gives `BadHeader(Endianness)`. |
| ChunkTree.FloatFormatMismatch | binchunk/utils.go:36-39 | After 23 correct bytes, any differing byte of the LUAC_NUM field gives `BadHeader(FloatFormat)`. |
| ChunkTree.WrongVersion | binchunk/utils.go:9-12 | The signature followed by the byte 0x53 and nothing else is reported as a bad version. |
| ChunkTree.UndumpShape | binchunk/binary_chunk.go:72-81 | Loading succeeds exactly when the header is valid, the main prototype parses from byte 32, and byte 31 equals its upvalue count; then the result is that prototype. A count mismatch is reported with both numbers. |
| ChunkTree.ZeroAt | binchunk/reader.go:72-88 | The byte 0x80 is the int 0 and the empty string. |
| ChunkTree.EmptyProto | binchunk/utils.go:41-63 | 14 bytes of zero counts and three header bytes give an empty prototype that inherits the parent's source. |
| ChunkTree.EmptyChunkDecodes | binchunk/binary_chunk.go:72-81 | The 46-byte chunk made of the header, no upvalues and an empty main function loads as the empty prototype. |
| ChunkTree.ProtoSource | binchunk/utils.go:42-45 | A prototype's source is the string it reads, or the parent's source when that string is empty. |
| ChunkTree.ProtoSources | binchunk/utils.go:41-63 | A prototype whose source is non-empty has a non-empty source in every nested prototype. |
| ChunkTree.ProtosSources | binchunk/reader.go:132-138 | Nested prototypes loaded under a non-empty source all carry non-empty sources throughout. |
| ChunkTree.ProtoListSources | binchunk/reader.go:134-136 | Each of the n prototypes read under a non-empty source carries non-empty sources throughout. |
| ChunkTree.ChildSources | binchunk/reader.go:135 | One child read under a non-empty source carries non-empty sources throughout. |
| ChunkTree.UndumpSources | binchunk/binary_chunk.go:72-81 | When the main function names its source, every prototype in the loaded tree has a non-empty source. |
| ChunkTree.UnsignedFromExtended | binchunk/reader.go:59-71 | A base-128 integer that parses keeps its value and end when bytes are appended. |
| ChunkTree.StringExtended | binchunk/reader.go:72-88 | An int or string that parses is unchanged by appended bytes. |
| ChunkTree.WordsExtended | binchunk/reader.go:38-50 | 32- and 64-bit words that parse are unchanged by appended bytes. |
| ChunkTree.ConstantExtended | binchunk/reader.go:101-115 | A constant that parses is unchanged by appended bytes. |
| ChunkTree.AbsLineInfoEntryExtended | binchunk/reader.go:150-151 | An entry that parses is unchanged by appended bytes. |
| ChunkTree.LocVarExtended | binchunk/reader.go:159-163 | A record that parses is unchanged by appended bytes. |
| ChunkTree.Uint32sFromExtended | binchunk/reader.go:92-94 | n words that parse are unchanged by appended bytes. |
| ChunkTree.CodeExtended | binchunk/reader.go:90-96 | A code table that parses is unchanged by appended bytes. |
| ChunkTree.ConstantsFromExtended | binchunk/reader.go:100-116 | n constants that parse are unchanged by appended bytes. |
| ChunkTree.ConstantsExtended | binchunk/reader.go:98-118 | A constant table that parses is unchanged by appended bytes. |
| ChunkTree.UpvaluesFromExtended | binchunk/reader.go:122-128 | n upvalues that parse are unchanged by appended bytes. |
| ChunkTree.UpvaluesExtended | binchunk/reader.go:120-130 | An upvalue table that parses is unchanged by appended bytes. |
| ChunkTree.LineInfoFromExtended | binchunk/reader.go:142-144 | n line-info bytes that parse are unchanged by appended bytes. |
| ChunkTree.LineInfoExtended | binchunk/reader.go:140-146 | A line-info table that parses is unchanged by appended bytes. |
| ChunkTree.AbsLineInfosFromExtended | binchunk/reader.go:149-152 | n entries that parse are unchanged by appended bytes. |
| ChunkTree.AbsLineInfosExtended | binchunk/reader.go:147-154 | An absolute line-info table that parses is unchanged by appended bytes. |
| ChunkTree.LocVarsFromExtended | binchunk/reader.go:158-164 | n records that parse are unchanged by appended bytes. |
| ChunkTree.LocVarsExtended | binchunk/reader.go:156-166 | A local-variable table that parses is unchanged by appended bytes. |
| ChunkTree.StringsFromExtended | binchunk/reader.go:170-172 | n strings that parse are unchanged by appended bytes. |
| ChunkTree.UpvalueNamesExtended | binchunk/reader.go:168-174 | An upvalue-name table that parses is unchanged by appended bytes. |
| ChunkTree.ProtoExtended | binchunk/utils.go:41-63 | A prototype that parses, with all its nested prototypes, is unchanged by appended bytes. |
| ChunkTree.ProtosExtended | binchunk/reader.go:132-138 | A nested prototype table that parses is unchanged by appended bytes. |
| ChunkTree.ProtoListExtended | binchunk/reader.go:134-136 | n prototypes that parse are unchanged by appended bytes. |
| ChunkTree.ChildExtended | binchunk/reader.go:135 | One child prototype that parses is unchanged by appended bytes. |
| ChunkTree.UndumpExtended | binchunk/binary_chunk.go:72-81 | A chunk that loads gives the same prototype when bytes follow it. |
| ChunkDump.UpvalueRoundTrip | binchunk/reader.go:123-127 | Three bytes written as Instack, Idx, Kind are read back as that upvalue, and 3 bytes are consumed. |
| ChunkDump.LocVarFields | binchunk/reader.go:159-163 | A name, then StartPC right after it, then EndPC right after that, read as one local-variable record. |
| ChunkDump.LocVarRoundTrip | binchunk/reader.go:159-163 | A local variable written as its name, StartPC and EndPC is read back whole, and its encoding is consumed. |
| ChunkDump.WordsRoundTrip | binchunk/reader.go:92-94 | n 32-bit words written one after another are read back as those n words. |
| ChunkDump.ConstantsRoundTrip | binchunk/reader.go:100-116 | n expressible constants written one after another are read back as those n constants. |
| ChunkDump.UpvaluesRoundTrip | binchunk/reader.go:122-128 | n upvalues written one after another are read back as those n upvalues. |
| ChunkDump.AbsLineInfosRoundTrip | binchunk/reader.go:149-152 | n absolute line-info entries written one after another are read back as those entries. |
| ChunkDump.LocVarsRoundTrip | binchunk/reader.go:158-164 | n local variables written one after another are read back as those records. |
| ChunkDump.StringsRoundTrip | binchunk/reader.go:170-172 | n strings written one after another are read back as those strings. |
| ChunkDump.CountedParts | binchunk/reader.go:90-174 | A table written as its count and then its entries gives that count first, with the entries starting right after it. |
| ChunkDump.CodeRoundTrip | binchunk/reader.go:90-96 | A code table written as its count and its words is read back whole. |
| ChunkDump.ConstantTableRoundTrip | binchunk/reader.go:98-118 | A constant table written as its count and its constants is read back whole. |
| ChunkDump.UpvalueTableRoundTrip | binchunk/reader.go:120-130 | An upvalue table written as its count and its records is read back whole. |
| ChunkDump.LineInfoTableRoundTrip | binchunk/reader.go:140-146 | A line-info table written as its count and its bytes is read back whole. |
| ChunkDump.AbsLineInfoTableRoundTrip | binchunk/reader.go:147-154 | An absolute line-info table written as its count and its entries is read back whole. |
| ChunkDump.LocVarTableRoundTrip | binchunk/reader.go:156-166 | A local-variable table written as its count and its records is read back whole. |
| ChunkDump.UpvalueNameTableRoundTrip | binchunk/reader.go:168-174 | An upvalue-name table written as its count and its names is read back whole. |
| ChunkDump.ProtoPieces | binchunk/utils.go:41-63 | A prototype without children is written as twelve parts, in the order `loadProto` reads them. |
| ChunkDump.Inherited | binchunk/utils.go:42-45 | The prototype `loadProto` returns has the parent's source when its own is empty, and is otherwise unchanged. |
| ChunkDump.NoChildren | binchunk/reader.go:132-138 | A nested-prototype count of 0 is read as no children, whatever the parent source. |
| ChunkDump.ProtoFields | binchunk/utils.go:41-63 | Read one after another, Source, LineDefined, LastLineDefined, the three bytes, Code, Constants, Upvalues, an empty Protos table, LineInfo, AbsLineInfo, LocVars and UpvalueNames form that prototype, with the source inherited. |
| ChunkDump.ProtoRoundTrip | binchunk/utils.go:41-63 | Any prototype without children that the format can express is read back from its encoding, with an empty source replaced by the parent's, and its encoding is consumed. |
| ChunkDump.UndumpRoundTrip | binchunk/binary_chunk.go:72-81 | The valid header, the upvalue count byte and a written main function without children load as exactly that function. |
| LexerAux.KindsConsecutive | lexer/auxiliary.go:4-68 | The token kinds are numbered 0 to 58 in declaration order. |
| LexerAux.KindAliases | lexer/auxiliary.go:70-73 | Unary minus and subtraction share the kind of `-`, and bitwise not and xor share the kind of `~`. |
| LexerAux.KeywordWords | lexer/auxiliary.go:81-104 | The reserved words are exactly the 22 listed. |
| LexerAux.KeywordKinds | lexer/auxiliary.go:81-104 | `and`, `or` and `not` are operator kinds, and every other reserved word has a keyword kind. |
| LexerAux.KeywordsDistinct | lexer/auxiliary.go:81-104 | No two reserved words share a kind. |
| LexerAux.NewLineIsWhiteSpace | lexer/auxiliary.go:115-127 | Every line-break byte is a whitespace byte. |
| LexerAux.ByteClasses | lexer/auxiliary.go:115-137 | The line-break bytes are CR and LF, and the whitespace bytes are the six listed. No byte is both a digit and a letter, and no whitespace byte is either. |
| LexerAux.IsNewLine | lexer/auxiliary.go:115-119 | CR or LF. It decides where a line ends: `LexerProps.SkipBlankRun` counts lines by it and `LexerProps.SkipLineRun` stops a short comment at it. |
| LexerAux.IsWhiteSpace | lexer/auxiliary.go:120-129 | Tab, LF, VT, FF, CR or space. `LexerProps.SkipBlankRun` drops a run of these before a token, and `LexerProps.EscapeZSkipsWhiteSpace` drops them after `\z`. |
| LexerAux.IsDigit | lexer/auxiliary.go:130-134 | `0`..`9`. A digit, or a `.` before one, starts a number token (`LexerProps.ScanNumberStart`, `LexerProps.ScanDotDigit`). |
| LexerAux.IsLetter | lexer/auxiliary.go:135-137 | An ASCII letter. A letter or `_` starts a name (`LexerProps.ScanWordStart`), and letters, digits and `_` make up its run (`LexerProps.IdentifierRun`). |
| LexerScan.Span | lexer/lexer.go:267 | The length of the longest run of bytes with a property from a position: every byte in it has the property and the next does not. |
| LexerScan.OpeningAt | lexer/lexer.go:267 | A long-bracket match at a position is at least 2 bytes and within the text. |
| LexerScan.FindOpening | lexer/lexer.go:273 | A found opening long bracket lies at or after the start and within the text. |
| LexerScan.IndexFrom | lexer/lexer.go:279 | A found occurrence lies at or after the start and within the text. |
| LexerScan.QuotedFrom | lexer/lexer.go:306 | A short-string body match ends just after a closing quote of its kind. |
| LexerScan.SkipThenQuoted | lexer/lexer.go:306 | After `\z` and its spaces, a match ends just after a closing quote. |
| LexerScan.ShortStringMatch | lexer/lexer.go:306-309 | A short-string match is at least 2 bytes and ends with the quote it starts with. `LexerScanProps.ShortStringUnits` states which bodies it takes whole, escaped quotes included. |
| LexerScan.ExponentEnd | lexer/lexer.go:454 | An optional exponent ends within the text. |
| LexerScan.NumberLength | lexer/lexer.go:454-458 | The numeral match lies within the text and is non-empty when the text starts with a digit or a dot. `LexerScanProps.DecimalNumeral` and `LexerScanProps.HexNumeral` state its length. |
| LexerScan.WordCharAt | lexer/lexer.go:462 | One match of the case-folded class takes at most 3 bytes. |
| LexerScan.WordFrom | lexer/lexer.go:462 | The tail of an identifier match lies within the text. |
| LexerScan.IdentifierLength | lexer/lexer.go:462-466 | A text starting with a letter or `_` has a non-empty identifier match. |
| LexerScan.DigitValue | lexer/lexer.go:411 | A hex digit is worth less than 16, a decimal digit less than 10. |
| LexerScan.ByteChar | lexer/lexer.go:413 | The byte written for a value below 256 has that value. |
| LexerScan.ReplaceAll | lexer/lexer.go:278 | Builds the closing long bracket: the opening one with every `[` turned into `]`, as `strings.Replace` does. `LexerProps.CloseParts` and `LexerProps.LongStringParts` search for it, and `LexerProps.LevelTwoBrackets` shows `[==[` giving `]==]`. |
| LexerScan.NormalizeNewLines | lexer/lexer.go:260 | Each match of `\r\n`, `\n\r`, `\n` or `\r` replaced by one line feed; `LexerScanProps.NormalizeNewLinesCounts` states what is left. |
| LexerScan.NewLineMatches | lexer/lexer.go:316 | The number of line-break matches, which `scanShortString` adds to the line; `LexerScanProps.NormalizeNewLinesCounts` equates it with the line feeds after normalising. |
| LexerScan.Occurrences | lexer/lexer.go:260 | The number of times a byte occurs; `LexerScanProps.NormalizeNewLinesCounts` uses it to count line feeds and carriage returns. |
| LexerScan.DigitsValue | lexer/lexer.go:411-428 | The unbounded value of a run of decimal or hex digits, most significant first; `LexerProps.ThreeDigitsValue` gives it for three digits. `strconv.ParseInt`'s range error at 2^31 is absorbed by the escape's `< 0x10FFFF` test, which rejects the same values. |
| LexerScan.Utf8 | lexer/lexer.go:430 | The UTF-8 bytes `WriteRune` writes for a code point; `LexerScanProps.Utf8RoundTrip` states their form and that they read back. |
| LexerScanProps.OpeningAtIsOpening | lexer/lexer.go:267 | The match at a position has length n exactly when the n bytes there are `[`, then only `=`, then `[`. |
| LexerScanProps.FindOpeningLeftmost | lexer/lexer.go:273 | The search for an opening bracket returns the leftmost one, or none when there is none anywhere. |
| LexerScanProps.IndexFromFirst | lexer/lexer.go:279 | The search for the closing bracket returns its first occurrence, or none when it does not occur. |
| LexerScanProps.NormalizeNewLinesCounts | lexer/lexer.go:260 | Normalising line breaks leaves one line feed per match of `\r\n`, `\n\r`, `\n` or `\r`, and no carriage return. |
| LexerScanProps.NormalizeWithoutNewLines | lexer/lexer.go:260 | A text without line breaks is left unchanged and holds no match. |
| LexerScanProps.PlainShortString | lexer/lexer.go:306 | A quoted body with no quote of its kind, no line feed and no backslash is matched up to its closing quote. |
| LexerScanProps.PlainRunQuoted | lexer/lexer.go:306 | From any byte of such a body, the match ends just past the closing quote. |
| LexerScanProps.BodyUnitsQuoted | lexer/lexer.go:306 | From any position of a body made of plain bytes, `\\`, an escaped quote, backslash-newline and `\z` with its blanks, the match ends just past the closing quote. |
| LexerScanProps.ShortStringUnits | lexer/lexer.go:306 | A quote, such a body and the same quote is matched whole: escapes do not end the match early. |
| LexerScanProps.EscapedQuoteExample | lexer/lexer.go:306 | `'a\'b'` is matched as all six bytes. |
| LexerScanProps.SkipZExample | lexer/lexer.go:306 | `"\z`, a line feed, two spaces and `x"` is matched as all eight bytes. |
| LexerScanProps.MantissaEndIs | lexer/lexer.go:454 | Digits and an optional `.`-fraction that nothing after them extends end the mantissa exactly. |
| LexerScanProps.ExponentFound | lexer/lexer.go:454 | What the exponent matcher takes is empty or a marker, an optional sign and at least one digit. |
| LexerScanProps.ExponentEndIs | lexer/lexer.go:454 | A well-formed exponent not followed by a digit is taken whole, and none is taken where none can start. |
| LexerScanProps.DecimalNumeral | lexer/lexer.go:454-458 | Digits, an optional fraction and an optional `e` exponent, followed by text that cannot extend them, are matched exactly. |
| LexerScanProps.HexNumeral | lexer/lexer.go:454-458 | `0x` or `0X`, hex digits, an optional hex fraction and an optional `p` exponent, followed by text that cannot extend them, are matched exactly. |
| LexerScanProps.ExponentNeedsDigits | lexer/lexer.go:454 | In `12e+x` the exponent has no digit, so only `12` is matched. |
| LexerScanProps.DecimalExample | lexer/lexer.go:454 | `3.25e-2)` gives a 7-byte numeral. |
| LexerScanProps.HexExample | lexer/lexer.go:454 | `0xA.8p1;` gives a 7-byte numeral. |
| LexerScanProps.FoldedWordBytes | lexer/lexer.go:462 | `k`, the UTF-8 bytes of U+212A, `s` and those of U+017F form one seven-byte identifier match. |
| LexerScanProps.Utf8RoundTrip | lexer/lexer.go:430 | Writing a code point gives 1 to 4 bytes in the shortest form, with the right lead and continuation bytes. They read back as the code point, or as U+FFFD for a surrogate. |
| LexerSpec.Advance | lexer/lexer.go:236-239 | Reading n bytes removes exactly those n bytes from the front, keeps the line and adds n to the column. |
| LexerSpec.SkipLine | lexer/lexer.go:255-257 | Skipping the rest of a line keeps the line number and only removes text. |
| LexerSpec.LongString | lexer/lexer.go:272-297 | A long string that scans consumes text and never moves the line back. |
| LexerSpec.CloseLongString | lexer/lexer.go:278-285 | Cutting the text up to the closing bracket consumes text and never moves the line back. |
| LexerSpec.FinishLongString | lexer/lexer.go:287-296 | The text after the bracket is the rest of the input, and the line does not go back. |
| LexerSpec.SkipComment | lexer/lexer.go:245-258 | A comment that skips consumes at least `--` and never moves the line back. |
| LexerSpec.SkipWhiteSpaces | lexer/lexer.go:46-64 | After skipping, the text starts at a token (neither whitespace nor `--`) or is empty, and the line has not gone back. |
| LexerSpec.EscapeUnit | lexer/lexer.go:355-444 | One escape step reads at least one byte and no more than remain. |
| LexerSpec.ShortString | lexer/lexer.go:308-325 | A short string that scans consumes text and never moves the line back. |
| LexerSpec.FinishShortString | lexer/lexer.go:310-321 | Removing the quotes and decoding escapes consumes the match and never moves the line back. |
| LexerSpec.FixedToken | lexer/lexer.go:92-215 | A fixed token takes 1 to |s| bytes. |
| LexerSpec.WordKind | lexer/lexer.go:225-229 | A word has a reserved kind exactly when it is a reserved word; otherwise it is an identifier. |
| LexerSpec.Scan | lexer/lexer.go:83-232 | A token scan consumes text, never moves the line back, and reports a line no earlier than the start. |
| LexerSpec.Initial | lexer/lexer.go:28-35 | The whole text at line 1, column 1, with an empty look-ahead slot; `LuaLexer.Lexer.constructor` builds it. |
| LexerSpec.SimpleEscape | lexer/lexer.go:365-408 | The byte each one-character escape stands for; `LexerProps.SimpleEscapeWritesOne` lists all ten and backslash-newline. |
| LexerSpec.Escape | lexer/lexer.go:352-447 | Escape decoding of a short string's body; `LexerProps.EscapeStep` states that it is one unit's bytes followed by the rest's decoding. |
| LexerSpec.NextToken | lexer/lexer.go:67-233 | The cached token first, else a fresh scan; `LexerProps.LookAheadThenNextToken` ties the two. |
| LexerSpec.LookAhead | lexer/lexer.go:477-494 | The next token's kind, scanned once and cached; `LexerProps.LookAheadRepeats` and `LexerProps.LookAheadThenNextToken` state it. |
| LexerSpec.NextTokenOfKind | lexer/lexer.go:497-503 | The next token when it has the wanted kind, else a syntax error; `LexerProps.NextTokenOfKindChecks` states it. |
| LuaLexer.Lexer.constructor | lexer/lexer.go:28-35 | A new lexer holds the whole text at line 1, column 1, with no cached token. |
| LuaLexer.Lexer.Next | lexer/lexer.go:236-239 | Drops n bytes from the text and adds n to the column, changing nothing else. |
| LuaLexer.Lexer.SkipWhiteSpaces | lexer/lexer.go:46-64 | The loop reaches the cursor `LexerSpec.SkipWhiteSpaces` computes (or its error) and keeps the cached token. |
| LuaLexer.Lexer.SkipComment | lexer/lexer.go:245-258 | Reaches the cursor `LexerSpec.SkipComment` computes (or its error) and keeps the cached token. |
| LuaLexer.Lexer.SkipLine | lexer/lexer.go:255-257 | The loop reaches the cursor `LexerSpec.SkipLine` computes. |
| LuaLexer.Lexer.ScanLongString | lexer/lexer.go:272-297 | Returns the string `LexerSpec.LongString` computes and moves to its cursor, or fails with its error. |
| LuaLexer.Lexer.CloseLongString | lexer/lexer.go:278-285 | Finds the closing bracket and slices as `LexerSpec.CloseLongString` computes. |
| LuaLexer.Lexer.FinishLongString | lexer/lexer.go:285-296 | Advances, normalises line breaks, counts lines and drops a first line feed as `LexerSpec.FinishLongString` computes. |
| LuaLexer.Lexer.ScanShortString | lexer/lexer.go:308-325 | Returns the string `LexerSpec.ShortString` computes and moves to its cursor, or fails with its error. |
| LuaLexer.Lexer.Escape | lexer/lexer.go:352-447 | The decoding loop returns exactly `LexerSpec.Escape` of its input, errors included. |
| LuaLexer.Lexer.ScanNumber | lexer/lexer.go:456-458 | Returns a non-empty numeral that is a prefix of the text, removes it and advances the column by its length. |
| LuaLexer.Lexer.ScanIdentifier | lexer/lexer.go:464-474 | Returns a non-empty name that is a prefix of the text, removes it and advances the column by its length. |
| LuaLexer.Lexer.NextToken | lexer/lexer.go:67-233 | Returns the token `LexerSpec.NextToken` computes (the cached one first) and reaches its state. |
| LuaLexer.Lexer.Scan | lexer/lexer.go:83-232 | Scans the token `LexerSpec.Scan` computes after whitespace and keeps the cache. |
| LuaLexer.Lexer.ScanToken | lexer/lexer.go:92-232 | At the first byte after whitespace, gives the token `LexerSpec.Scan` computes and reaches its cursor, for fixed tokens, long and short strings and the rest. |
| LuaLexer.Lexer.ScanWord | lexer/lexer.go:217-232 | For a byte that starts no fixed token and no string, gives the number, name or keyword token `LexerSpec.Scan` computes, or its unexpected-symbol error. |
| LuaLexer.Lexer.LookAhead | lexer/lexer.go:477-494 | Returns the kind `LexerSpec.LookAhead` computes and reaches its state. |
| LuaLexer.Lexer.NextTokenOfKind | lexer/lexer.go:497-503 | Returns what `LexerSpec.NextTokenOfKind` computes, the kind mismatch error included. |
| LuaLexer.Lexer.NextIdentifier | lexer/lexer.go:506-508 | Reads the next token as an identifier, as `LexerSpec.NextTokenOfKind` with the identifier kind computes. |
| LexerProps.EscapeStep | lexer/lexer.go:354-445 | Decoding is one escape unit's bytes followed by the decoding of the rest. |
| LexerProps.SimpleEscapeWritesOne | lexer/lexer.go:365-408 | Each of `\a \b \f \n \r \t \v \" \' \\` and backslash-newline writes its one byte and continues after two bytes. |
| LexerProps.EscapeZSkipsWhiteSpace | lexer/lexer.go:436-441 | `\z` drops every whitespace byte after it and writes nothing. |
| LexerProps.EscapeZUnit | lexer/lexer.go:436-441 | One `\z` unit writes nothing and reads 2 plus the whitespace run. |
| LexerProps.HexEscapeWritesByte | lexer/lexer.go:419-425 | `\x` with two hex digits writes the byte they spell. |
| LexerProps.HexEscapeNeedsTwoDigits | lexer/lexer.go:419-425 | `\x` without two hex digits does not progress. |
| LexerProps.DecimalEscapeThreeDigits | lexer/lexer.go:409-418 | `\ddd` writes the byte it spells when the value is below 255, and otherwise fails with `DecimalEscapeTooLarge`. |
| LexerProps.UnicodeEscape | lexer/lexer.go:426-435 | `\u{hex}` writes the UTF-8 bytes of the value when it is below 0x10FFFF, and otherwise fails with `Utf8ValueTooLarge`. |
| LexerProps.UnicodeEscapeNeedsDigits | lexer/lexer.go:426-435 | `\u{}` and `\u` without `{` do not progress. |
| LexerProps.InvalidEscapes | lexer/lexer.go:360-363 | A backslash before any other byte is an invalid escape naming that byte, and a trailing backslash is an unfinished string (also lines 442-443). |
| LexerProps.EscapeWithoutBackslash | lexer/lexer.go:354-359 | A text without backslash decodes to itself. |
| LexerProps.SymbolText | lexer/auxiliary.go:5-41 | Each punctuation or operator kind has a spelling of 1 to 3 bytes. |
| LexerProps.FixedTokenLongest | lexer/lexer.go:92-215 | A fixed token is the kind whose spelling starts the text, and no other spelling there is longer. None is found only when no spelling matches, or before `[[`, `[=` or a dot followed by a digit. |
| LexerProps.FixedTokenSpelling | lexer/lexer.go:92-215 | The bytes a fixed token consumes are the spelling of its kind. |
| LexerProps.FixedTokenCovers | lexer/lexer.go:92-215 | A spelling that starts the text is never longer than the fixed token taken. |
| LexerProps.SkipNothingAtToken | lexer/lexer.go:46-64 | At a token, skipping whitespace changes nothing. |
| LexerProps.SkipBlankRun | lexer/lexer.go:46-64 | A run of whitespace before a token is dropped whole. The line grows by its number of line-break matches, and the column by its length when there is none. |
| LexerProps.BlankStep | lexer/lexer.go:50-59 | One whitespace step reads 2 bytes for a paired break and 1 otherwise, and keeps the line count consistent. |
| LexerProps.SkipWhiteStep | lexer/lexer.go:50-59 | A paired break, a single break and a blank each take one step, a break starting a new line at column 0. |
| LexerProps.LineComment | lexer/lexer.go:245-258 | A `--` comment not starting with `[` is skipped up to the line break on the same line, the column moving by its length. |
| LexerProps.SkipLineRun | lexer/lexer.go:255-257 | The short-comment loop stops at the first line break, keeping the line. |
| LexerProps.ScanAtEnd | lexer/lexer.go:84-86 | At the end of the text the token is EOF at the current position. |
| LexerProps.EndOfInputSticky | lexer/lexer.go:84-86 | At the end of the text, without a cached token, `NextToken` returns EOF and leaves the state unchanged. |
| LexerProps.ScanSymbol | lexer/lexer.go:92-212 | A fixed token is read by advancing over its spelling; it is reported at the column after it. |
| LexerProps.ScanWord | lexer/lexer.go:222-230 | A whole word is read as one token: a reserved kind for a reserved word, an identifier otherwise. |
| LexerProps.ScanWordStart | lexer/lexer.go:222-230 | A text starting with a letter or `_` scans the identifier match as a word token. |
| LexerProps.IdentifierRun | lexer/lexer.go:462 | The identifier match covers exactly a run of letters, digits and `_`. |
| LexerProps.WordRun | lexer/lexer.go:462 | From inside such a run, the match reaches its end. |
| LexerProps.WordEnd | lexer/lexer.go:462 | The match stops where no name byte follows. |
| LexerProps.KeywordOrOperator | lexer/lexer.go:225-226 | `while` scans as the keyword kind and `and` as the operator kind. |
| LexerProps.ScanDotDigit | lexer/lexer.go:194-205 | A dot followed by a digit scans as a number. |
| LexerProps.ScanNumberStart | lexer/lexer.go:217-221 | At a digit, or at a `.` before a digit, the numeral match is read as one number token. |
| LexerProps.ScanReportsCursor | lexer/lexer.go:92-230 | Every token but a string reports the line and column the cursor has after it. |
| LexerProps.LookAheadRepeats | lexer/lexer.go:477-494 | Looking ahead keeps the cursor position, caches the token's kind, and asking again returns the same answer. An error is the error `NextToken` would give. |
| LexerProps.LookAheadThenNextToken | lexer/lexer.go:69-80 | After a look-ahead, `NextToken` returns the token it would have read and empties the cache. The text left is the same, and for tokens other than strings the cursor is too. |
| LexerProps.NextTokenOfKindChecks | lexer/lexer.go:497-503 | Reading a token of a kind succeeds exactly when the next token has that kind, and then gives its line, column and text. |
| LexerProps.LongStringParts | lexer/lexer.go:272-297 | With the opening bracket found at i with length n and the closing one at k: k < n fails on the slice bounds, otherwise the string is the text between n and k, and scanning resumes after k+n. |
| LexerProps.CloseParts | lexer/lexer.go:278-285 | The closing bracket is the opening one with `[` turned to `]`, and the slice is taken from the opening's length. |
| LexerProps.FindOpeningIs | lexer/lexer.go:273 | An opening bracket with none before it is the one found. |
| LexerProps.IndexFromIs | lexer/lexer.go:279 | An occurrence with none before it is the one found. |
| LexerProps.LongStringExample | lexer/lexer.go:272-297 | `[==[\nab]]]==]z` at line 3 gives `ab]]`: the first line feed is dropped, the line becomes 4, the column 0. |
| LexerProps.LongStringUnanchored | lexer/lexer.go:273-284 | `[=x]] [[` finds the opening `[[` at 6 and the closing `]]` at 3, and gives `x`. |
| LexerProps.LongStringCutFails | lexer/lexer.go:284 | `x]] [[` has its closing bracket before the opening's length, and the slice fails. |

## Left out

- The Go `bufio.Reader` and its `io.Reader` are not modelled: the input is the whole byte sequence and a short read is `UnexpectedEof`. `loadBytes(0)` at the end of input, where Go's `Read` may report an error, is treated as success.
- `panic(nil)` and panic messages: every panic is a `LoadError` or `LexError` value, and messages (with `chunkName`, line and column, lexer.go:328-332) are not built.
- Allocation of a table with a huge count (`make` with a length near MaxInt) is not modelled; the model reads elements until the bytes run out.
- The list loaders fill a `seq` that grows instead of writing into a slice allocated up front.
- VmInstruction.Opcode: an instruction is an integer below 2^32 decoded with `/` and `%`, not a `uint32` with shifts and masks; the two agree on that range.
- Floats: `loadLuaNumber` keeps the 64 bits of the float; the header's comparison with 370.5 is a comparison of those bits with 0x4077280000000000, which agrees with Go's float comparison because 370.5 has exactly one encoding.
- The unused header and chunk record types (`binarychunk`, `header`, binary_chunk.go:7-23) are not modelled as records; the header is checked field by field.
- `PrintOprands` (vm/opcodes.go:348-378) only prints and is not modelled.
- The opcode table accessors return an error for opcode ids 83..127, where Go panics with an index out of range.
- LuaLexer.Lexer.ScanLongString and LuaLexer.Lexer.ScanShortString: the line and column reported with a string token are the values after the scan; Go evaluates the return list in an unspecified order (lexer.go:208, 214), so no lemma asserts a string token's position.
- After a lexer error the lexer's fields are left unconstrained, since Go panics halfway through an update.
- The regular expressions are replaced by explicit matchers that follow Go's leftmost-first semantics. Their ensures state only bounds; the lemmas in `LexerScanProps` state what the long-bracket, line-break, short-string, numeral and identifier matchers take.
- LexerSpec.Escape: where Go loops forever (`\x` without two hex digits, `\u` without `{hex}`), the model returns `EscapeStuck`.
- `scan`'s `panic("unreachable")` (lexer.go:473) cannot happen, because the callers only scan where the match is non-empty; the model requires that.
- LexerSpec.Progress and the other lexer specification functions' ensures state only that text is consumed and the line does not go back; the exact cursor is given by the lemmas.
- LexerProps.DecimalEscapeThreeDigits covers escapes written with three digits; one- and two-digit escapes are decoded by the same function but have no lemma of their own.
- LexerScanProps.DecimalNumeral and LexerScanProps.HexNumeral state the forward direction: a well-formed numeral with a proper end is matched exactly. They do not state that every match has that form, beyond `ExponentFound` for the exponent.
- LexerScanProps.ShortStringUnits states the forward direction: a body of the regexp's units is matched whole. It does not state that every match is such a body.
- ChunkDump.ProtoRoundTrip covers prototypes without nested prototypes; a tree is covered by `ChunkTree.ProtoExtended` and `ChunkTree.ProtoSources`, not by a round trip.
- ChunkDump.UndumpRoundTrip covers a main function without nested prototypes and with fewer than 256 upvalues, since the count is one byte.
- `Line` (lexer.go:511-513) is a field read and has no contract.
- LoadProtoInto, CloseLongString, FinishLongString and SkipLine are splits of a Go function into smaller methods so each proof stays small; they change nothing in what the functions compute.
- Binchunk constants follow Lua 5.4; TAG_INTERER keeps the source's spelling.
