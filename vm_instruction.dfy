/**
 * Instruction words and their field decoders (the accessors of vm/opcodes.go).
 *
 * A word is an unsigned 32-bit integer. The source's `i >> POS & MASK` is written here as
 * `i / 2^POS % (MASK + 1)`, which is the same number for an unsigned word.
 */
module VmInstruction {
  import opened VmConst

  /** An instruction word: an unsigned 32-bit integer. */
  type Instruction = x: int | 0 <= x < 0x1_0000_0000

  // The decoders divide by 2^7 (POS_A, POS_Ax, POS_sJ), 2^15 (POS_k, POS_Bx), 2^16 (POS_B)
  // and 2^24 (POS_C); `VmConst.FieldLayout` states that these are the positions, and
  // `VmConst.Limits` that the bounds below are MAXARG_A, MAXARG_Bx, MAXARG_sBx and MAXARG_Ax.

  /** The opcode id: the low 7 bits of the word. */
  function Opcode(i: Instruction): (op: nat)
    ensures op < 128
  {
    i % 128
  }

  /** The iABC fields (A, k, B, C): bits 7-14, bit 15, bits 16-23 and bits 24-31. */
  function IABC(i: Instruction): (r: (int, int, int, int))
    ensures 0 <= r.0 <= 255 && 0 <= r.1 <= 1 && 0 <= r.2 <= 255 && 0 <= r.3 <= 255
  {
    (i / 0x80 % 0x100, i / 0x8000 % 2, i / 0x1_0000 % 0x100, i / 0x100_0000 % 0x100)
  }

  /** The iABx fields (A, Bx): Bx is everything above bit 14, so it needs no mask. */
  function IABx(i: Instruction): (r: (int, int))
    ensures 0 <= r.0 <= 255 && 0 <= r.1 <= 131071
  {
    (i / 0x80 % 0x100, i / 0x8000)
  }

  /** The iAsBx fields (A, sBx): the Bx field read in excess-K with K = MAXARG_sBx = 65535. */
  function IAsBx(i: Instruction): (r: (int, int))
    ensures 0 <= r.0 <= 255 && -65535 <= r.1 <= 65536
    ensures r.0 == IABx(i).0 && r.1 == IABx(i).1 - OFFSET_sBx
  {
    Limits();
    var (a, bx) := IABx(i);
    (a, bx - MAXARG_sBx)
  }

  /** The iAx field: everything above the opcode. */
  function IAx(i: Instruction): (ax: int)
    ensures 0 <= ax <= 0x1FF_FFFF
  {
    i / 0x80
  }

  /**
   * The isJ field. As written in the source this returns the raw 25-bit field: it does not
   * subtract OFFSET_sJ, so the jump offset comes out unbiased (never negative).
   */
  function IsJx(i: Instruction): (sj: int)
    ensures 0 <= sj <= 0x1FF_FFFF
    ensures sj == IAx(i)
  {
    i / 0x80
  }

  // Encoders for each layout: the inverse direction, the way Lua's CREATE_* macros build words.

  function CreateABCk(op: nat, a: nat, k: nat, b: nat, c: nat): Instruction
    requires op < 128 && a < 256 && k < 2 && b < 256 && c < 256
  {
    op + a * 0x80 + k * 0x8000 + b * 0x1_0000 + c * 0x100_0000
  }

  function CreateABx(op: nat, a: nat, bx: nat): Instruction
    requires op < 128 && a < 256 && bx < 0x2_0000
  {
    op + a * 0x80 + bx * 0x8000
  }

  function CreateAx(op: nat, ax: nat): Instruction
    requires op < 128 && ax < 0x200_0000
  {
    op + ax * 0x80
  }

  /** Quotient and remainder are determined by `x == q * d + r` with `0 <= r < d`. */
  lemma DivMod(x: int, d: int, q: int, r: int)
    requires 0 < d && 0 <= r < d && x == q * d + r
    ensures x / d == q && x % d == r
  {
    var q', r' := x / d, x % d;
    assert (q - q') * d == r' - r;
    if q > q' {
      MulAtLeast(q - q', d);
    } else if q < q' {
      MulAtLeast(q' - q, d);
    }
  }

  lemma MulAtLeast(m: int, d: int)
    requires m >= 1 && d > 0
    ensures m * d >= d
  {
  }

  /** An iABC word built from its fields decodes back to the same opcode and fields. */
  lemma ABCRoundTrip(op: nat, a: nat, k: nat, b: nat, c: nat)
    requires op < 128 && a < 256 && k < 2 && b < 256 && c < 256
    ensures Opcode(CreateABCk(op, a, k, b, c)) == op
    ensures IABC(CreateABCk(op, a, k, b, c)) == (a, k, b, c)
  {
    var w := CreateABCk(op, a, k, b, c);
    DivMod(w, 0x80, a + 0x100 * (k + 2 * (b + 0x100 * c)), op);
    DivMod(w / 0x80, 0x100, k + 2 * (b + 0x100 * c), a);
    DivMod(w, 0x8000, k + 2 * (b + 0x100 * c), op + a * 0x80);
    DivMod(w / 0x8000, 2, b + 0x100 * c, k);
    DivMod(w, 0x1_0000, b + 0x100 * c, op + a * 0x80 + k * 0x8000);
    DivMod(w / 0x1_0000, 0x100, c, b);
    DivMod(w, 0x100_0000, c, op + a * 0x80 + k * 0x8000 + b * 0x1_0000);
    DivMod(c, 0x100, 0, c);
  }

  /** Every word is the iABC encoding of its own decoded fields: the decoders lose nothing. */
  lemma ABCComplete(i: Instruction)
    ensures CreateABCk(Opcode(i), IABC(i).0, IABC(i).1, IABC(i).2, IABC(i).3) == i
  {
    var q1 := i / 0x80;
    var q2 := q1 / 0x100;
    var q3 := q2 / 2;
    var q4 := q3 / 0x100;
    assert i == i % 0x80 + 0x80 * q1;
    assert q1 == q1 % 0x100 + 0x100 * q2;
    assert q2 == q2 % 2 + 2 * q3;
    assert q3 == q3 % 0x100 + 0x100 * q4;
    assert q4 < 0x100;
    DivMod(i, 0x8000, q2, i % 0x80 + 0x80 * (q1 % 0x100));
    DivMod(i, 0x1_0000, q3, i % 0x80 + 0x80 * (q1 % 0x100) + 0x8000 * (q2 % 2));
    DivMod(i, 0x100_0000, q4,
      i % 0x80 + 0x80 * (q1 % 0x100) + 0x8000 * (q2 % 2) + 0x1_0000 * (q3 % 0x100));
  }

  /** An iABx word built from its fields decodes back to the same opcode and fields. */
  lemma ABxRoundTrip(op: nat, a: nat, bx: nat)
    requires op < 128 && a < 256 && bx < 0x2_0000
    ensures Opcode(CreateABx(op, a, bx)) == op
    ensures IABx(CreateABx(op, a, bx)) == (a, bx)
    ensures IAsBx(CreateABx(op, a, bx)) == (a, bx - 65535)
  {
    var w := CreateABx(op, a, bx);
    DivMod(w, 0x80, a + 0x100 * bx, op);
    DivMod(w / 0x80, 0x100, bx, a);
    DivMod(w, 0x8000, bx, op + a * 0x80);
    Limits();
  }

  /** An iAx word built from its field decodes back; the isJ decoder reads the same raw field. */
  lemma AxRoundTrip(op: nat, ax: nat)
    requires op < 128 && ax < 0x200_0000
    ensures Opcode(CreateAx(op, ax)) == op
    ensures IAx(CreateAx(op, ax)) == ax
    ensures IsJx(CreateAx(op, ax)) == ax
  {
    DivMod(CreateAx(op, ax), 0x80, ax, op);
  }

  /** The worked example: raw Bx = 70000 gives sBx = 70000 - 65535 = 4465. */
  lemma SignedBxExample(op: nat, a: nat)
    requires op < 128 && a < 256
    ensures IAsBx(CreateABx(op, a, 70000)).1 == 4465
  {
    ABxRoundTrip(op, a, 70000);
  }
}
