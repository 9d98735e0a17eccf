/** Field sizes and bit positions of a Lua 5.4 instruction word (vm/const.go). */
module VmConst {

  // Field widths, in bits.
  const SIZE_C: nat := 8
  const SIZE_B: nat := 8
  const SIZE_Bx: nat := SIZE_C + SIZE_B + 1
  const SIZE_A: nat := 8
  const SIZE_Ax: nat := SIZE_Bx + SIZE_A
  const SIZE_sJ: nat := SIZE_Bx + SIZE_A
  const SIZE_OP: nat := 7

  // Field positions, counted from the least significant bit.
  const POS_OP: nat := 0
  const POS_A: nat := POS_OP + SIZE_OP
  const POS_k: nat := POS_A + SIZE_A
  const POS_B: nat := POS_k + 1
  const POS_C: nat := POS_B + SIZE_B
  const POS_Bx: nat := POS_k
  const POS_Ax: nat := POS_A
  const POS_sJ: nat := POS_A

  /** 2^n, used for the `(1 << SIZE) - 1` maxima. */
  function Pow2(n: nat): (r: nat)
    ensures r >= 1
  {
    if n == 0 then 1 else 2 * Pow2(n - 1)
  }

  const MAXARG_A: nat := Pow2(SIZE_A) - 1
  const MAXARG_B: nat := Pow2(SIZE_B) - 1
  const MAXARG_C: nat := Pow2(SIZE_C) - 1
  const MAXARG_Ax: nat := Pow2(SIZE_Ax) - 1
  const MAXARG_Bx: nat := Pow2(SIZE_Bx) - 1
  const MAXARG_sBx: nat := MAXARG_Bx / 2
  const MAXARG_sJ: nat := Pow2(SIZE_sJ) - 1

  // Excess-K biases: half the maximum of the unsigned field (`>> 1`).
  const OFFSET_sC: nat := MAXARG_C / 2
  const OFFSET_sBx: nat := MAXARG_Bx / 2
  // Defined in the source but never used by any decoder: IsJx subtracts no bias.
  const OFFSET_sJ: nat := MAXARG_sJ / 2

  const MAXINDEXRK: nat := MAXARG_B
  const NO_REG: nat := MAXARG_A

  /** The positions and widths of the source, and the way the fields tile a 32-bit word. */
  lemma FieldLayout()
    ensures POS_A == 7 && POS_k == 15 && POS_Bx == 15 && POS_B == 16 && POS_C == 24
    ensures POS_Ax == 7 && POS_sJ == 7
    ensures SIZE_Bx == 17 && SIZE_Ax == 25 && SIZE_sJ == 25
    ensures POS_OP + SIZE_OP == POS_A && POS_A + SIZE_A == POS_k && POS_k + 1 == POS_B
    ensures POS_B + SIZE_B == POS_C
    ensures POS_C + SIZE_C == 32 && POS_Bx + SIZE_Bx == 32 && POS_Ax + SIZE_Ax == 32
    ensures POS_sJ + SIZE_sJ == 32
  {
  }

  /** The maxima and biases, as numbers. */
  lemma Limits()
    ensures MAXARG_A == 255 && MAXARG_B == 255 && MAXARG_C == 255
    ensures MAXARG_Bx == 131071 && MAXARG_sBx == 65535
    ensures MAXARG_Ax == 0x1FF_FFFF && MAXARG_sJ == 0x1FF_FFFF
    ensures OFFSET_sBx == 65535 && OFFSET_sC == 127 && OFFSET_sJ == 0xFF_FFFF
    ensures NO_REG == 255 && MAXINDEXRK == 255
  {
    assert Pow2(8) == 256;
    assert Pow2(17) == 131072;
    assert Pow2(25) == 0x200_0000;
  }
}
