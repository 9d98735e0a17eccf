/** Header constants, constant tags and the short-string bound of a precompiled chunk (binchunk/const.go). */
module BinchunkConst {

  /** One byte of the chunk. */
  type byte = x: int | 0 <= x < 256

  /** `"\x1bLua"`. */
  const LUA_SIGNATURE: seq<byte> := [0x1B, 0x4C, 0x75, 0x61]
  const LUAC_VERSION: byte := 0x54
  /** This is the official format. */
  const LUAC_FORMAT: byte := 0
  /** `"\x19\x93\r\n\x1a\n"`. */
  const LUAC_DATA: seq<byte> := [0x19, 0x93, 0x0D, 0x0A, 0x1A, 0x0A]
  const INSTRUCTION_SIZE: byte := 4
  const LUA_INTEGER_SIZE: byte := 8
  const LUA_NUMBER_SIZE: byte := 8
  const LUAC_INT: int := 0x5678
  /**
   * LUAC_NUM is the float 370.5. No floating point is modelled: a float is its 64-bit IEEE-754
   * pattern, and 370.5 is the only double equal to 370.5, so comparing with it compares bits.
   */
  const LUAC_NUM_BITS: nat := 0x4077_2800_0000_0000

  // Constant tags.
  const TAG_NIL: byte := 0x00
  const TAG_BOOLEAN: byte := 0x01
  const TAG_FALSE: byte := TAG_BOOLEAN
  /** `TAG_BOOLEAN | 0x10`; no case of the constant loader accepts it. */
  const TAG_TRUE: byte := 0x11
  const TAG_NUMBER: byte := 0x03
  const TAG_INTERER: byte := 0x13
  const TAG_SHORT_STR: byte := 0x04
  const TAG_LONG_STR: byte := 0x14

  /** Selects between two identical branches of the string loader. */
  const LUAI_MAXSHORTLEN: nat := 40

  /** `math.MaxInt` on a 64-bit platform: the limit every varint of the chunk is read against. */
  const MAX_INT: nat := 0x7FFF_FFFF_FFFF_FFFF

  /** The 31 header bytes, field after field. */
  const VALID_HEADER: seq<byte> :=
    LUA_SIGNATURE + [LUAC_VERSION, LUAC_FORMAT] + LUAC_DATA
    + [INSTRUCTION_SIZE, LUA_INTEGER_SIZE, LUA_NUMBER_SIZE]
    + [0x78, 0x56, 0, 0, 0, 0, 0, 0]
    + [0, 0, 0, 0, 0, 0x28, 0x77, 0x40]

  /** The header is 31 bytes long and holds the bytes the loader compares with, in order. */
  lemma HeaderBytes()
    ensures |VALID_HEADER| == 31
    ensures VALID_HEADER == [0x1B, 0x4C, 0x75, 0x61, 0x54, 0x00, 0x19, 0x93, 0x0D, 0x0A, 0x1A, 0x0A,
                             0x04, 0x08, 0x08,
                             0x78, 0x56, 0, 0, 0, 0, 0, 0,
                             0, 0, 0, 0, 0, 0x28, 0x77, 0x40]
  {
  }

  /**
   * The tags the constant loader distinguishes are pairwise distinct; the false tag is the
   * boolean tag, and the true tag is the boolean tag with bit 4 set.
   */
  lemma TagsDistinct()
    ensures |{TAG_NIL, TAG_BOOLEAN, TAG_NUMBER, TAG_INTERER, TAG_SHORT_STR, TAG_LONG_STR}| == 6
    ensures TAG_FALSE == TAG_BOOLEAN && TAG_TRUE == TAG_BOOLEAN + 0x10
    ensures TAG_TRUE !in {TAG_NIL, TAG_BOOLEAN, TAG_NUMBER, TAG_INTERER, TAG_SHORT_STR, TAG_LONG_STR}
  {
  }
}
