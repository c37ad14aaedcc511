/**
 * The arithmetic and logic of the processor's instruction handlers, as pure
 * functions on 8- and 16-bit values.  Bit-vector types mirror the C
 * `uint8_t`/`uint16_t` arithmetic, so every wrap-around is the machine's own.
 * The condition flags live in bits 7 (Z), 6 (N), 5 (H) and 4 (C) of F; the
 * low nibble of F is not a flag.
 */
module Alu {
  /** The four condition flags: zero, subtract, half carry and carry. */
  datatype Flags = Flags(z: bool, n: bool, h: bool, c: bool)

  /** The flags held in a value of the F register. */
  function FlagsOf(f: bv8): Flags
  {
    Flags(f & 0x80 != 0, f & 0x40 != 0, f & 0x20 != 0, f & 0x10 != 0)
  }

  function Bit(b: bool): bv8
  {
    if b then 1 else 0
  }

  /** F with its four flag bits replaced by `fl`; the low nibble is kept. */
  function WithFlags(f: bv8, fl: Flags): (r: bv8)
    ensures FlagsOf(r) == fl
    ensures r & 0x0F == f & 0x0F
  {
    (f & 0x0F) | (Bit(fl.z) << 7) | (Bit(fl.n) << 6) | (Bit(fl.h) << 5) | (Bit(fl.c) << 4)
  }

  /** Replacing the flags by the flags already there leaves F unchanged. */
  lemma WithOwnFlags(f: bv8)
    ensures WithFlags(f, FlagsOf(f)) == f
  {
  }

  /** An 8-bit result and the flags an instruction leaves with it. */
  datatype Result8 = Result8(value: bv8, flags: Flags)

  /** A 16-bit result and the flags an instruction leaves with it. */
  datatype Result16 = Result16(value: bv16, flags: Flags)

  /**
   * ADD A,v (carry-in false) and ADC A,v (carry-in the C flag): the sum is
   * formed in 16 bits and the low-nibble sum in 8 bits, as the handlers do.
   * The carry is set exactly when the 8-bit sum wrapped, the half carry when
   * the low nibble did.
   */
  function Add(a: bv8, v: bv8, cin: bool): (r: Result8)
    ensures r.value == a + v + Bit(cin)
    ensures r.flags.z <==> r.value == 0
    ensures !r.flags.n
  {
    var sum: bv16 := a as bv16 + v as bv16 + Bit(cin) as bv16;
    var half: bv8 := (a & 0x0F) + (v & 0x0F) + Bit(cin);
    var res := (sum & 0xFF) as bv8;
    Result8(res, Flags(res == 0, false, half > 0x0F, sum > 0xFF))
  }

  /** The carry of ADD and ADC is a carry out of bit 7. */
  lemma AddCarry(a: bv8, v: bv8, cin: bool)
    ensures var r := Add(a, v, cin);
      r.flags.c <==> r.value < a || (cin && r.value == a)
  {
  }

  /** The half carry of ADD and ADC is a carry out of the low nibble. */
  lemma AddHalfCarry(a: bv8, v: bv8, cin: bool)
    ensures var r := Add(a, v, cin);
      r.flags.h <==> (r.value & 0x0F) < (a & 0x0F) || (cin && r.value & 0x0F == a & 0x0F)
  {
  }

  /**
   * SUB A,v / CP v (borrow-in false) and SBC A,v (borrow-in the C flag).  The
   * carry is set exactly when the subtraction borrows, the half carry when
   * the low nibble does.
   */
  function Sub(a: bv8, v: bv8, cin: bool): (r: Result8)
    ensures r.value == a - v - Bit(cin)
    ensures r.flags.z <==> r.value == 0
    ensures r.flags.n
  {
    var diff: bv16 := a as bv16 - v as bv16 - Bit(cin) as bv16;
    var half: bv8 := (a & 0x0F) - (v & 0x0F) - Bit(cin);
    var res := (diff & 0xFF) as bv8;
    Result8(res, Flags(res == 0, true, half > 0x0F, diff > 0xFF))
  }

  /** The carry of SUB, SBC and CP is a borrow from bit 8. */
  lemma SubCarry(a: bv8, v: bv8, cin: bool)
    ensures Sub(a, v, cin).flags.c <==> a < v || (cin && a == v)
  {
  }

  /** The half carry of SUB, SBC and CP is a borrow from the high nibble. */
  lemma SubHalfCarry(a: bv8, v: bv8, cin: bool)
    ensures var r := Sub(a, v, cin);
      r.flags.h <==> (a & 0x0F) < (v & 0x0F) || (cin && a & 0x0F == v & 0x0F)
  {
  }

  /** AND, XOR and OR set Z from the result; AND sets H, all three clear N and C. */
  function And(a: bv8, v: bv8): (r: Result8)
    ensures r.value == a & v
    ensures r.flags.z <==> r.value == 0
    ensures !r.flags.n && r.flags.h && !r.flags.c
  {
    Result8(a & v, Flags(a & v == 0, false, true, false))
  }

  function Xor(a: bv8, v: bv8): (r: Result8)
    ensures r.value == a ^ v
    ensures r.flags.z <==> r.value == 0
    ensures !r.flags.n && !r.flags.h && !r.flags.c
  {
    Result8(a ^ v, Flags(a ^ v == 0, false, false, false))
  }

  function Or(a: bv8, v: bv8): (r: Result8)
    ensures r.value == a | v
    ensures r.flags.z <==> r.value == 0
    ensures !r.flags.n && !r.flags.h && !r.flags.c
  {
    Result8(a | v, Flags(a | v == 0, false, false, false))
  }

  /**
   * `XOR A` clears A and sets Z; `OR A` and `AND A` keep A and set Z exactly
   * when it is zero, which is how programs test A against zero.
   */
  lemma LogicWithItself(a: bv8)
    ensures Xor(a, a) == Result8(0, Flags(true, false, false, false))
    ensures Or(a, a) == Result8(a, Flags(a == 0, false, false, false))
    ensures And(a, a) == Result8(a, Flags(a == 0, false, true, false))
  {
  }

  /** INC: the half carry is a carry out of the low nibble; C is left alone. */
  function Inc(v: bv8, fl: Flags): (r: Result8)
    ensures r.value == v + 1
    ensures r.flags == fl.(z := r.value == 0, n := false, h := v & 0x0F == 0x0F)
  {
    var half: bv8 := (v & 0x0F) + 1;
    var res := v + 1;
    Result8(res, fl.(z := res == 0, n := false, h := half > 0x0F))
  }

  /** DEC: the half carry is a borrow into the low nibble; C is left alone. */
  function Dec(v: bv8, fl: Flags): (r: Result8)
    ensures r.value == v - 1
    ensures r.flags == fl.(z := r.value == 0, n := true, h := v & 0x0F == 0)
  {
    var half: bv8 := (v & 0x0F) - 1;
    var res := v - 1;
    Result8(res, fl.(z := res == 0, n := true, h := half > 0x0F))
  }

  /** Rotations and shifts of one byte, each stated by where the bits go. */
  function Rlc(v: bv8): (r: bv8)
    ensures r & 1 == v >> 7 && r >> 1 == v & 0x7F
  {
    (v << 1) | (v >> 7)
  }

  function Rrc(v: bv8): (r: bv8)
    ensures r >> 7 == v & 1 && r & 0x7F == v >> 1
  {
    (v >> 1) | (v << 7)
  }

  function Rl(v: bv8, c: bool): (r: bv8)
    ensures r & 1 == Bit(c) && r >> 1 == v & 0x7F
  {
    (v << 1) | Bit(c)
  }

  function Rr(v: bv8, c: bool): (r: bv8)
    ensures r >> 7 == Bit(c) && r & 0x7F == v >> 1
  {
    (v >> 1) | (Bit(c) << 7)
  }

  function Sla(v: bv8): (r: bv8)
    ensures r & 1 == 0 && r >> 1 == v & 0x7F
  {
    v << 1
  }

  function Sra(v: bv8): (r: bv8)
    ensures r & 0x80 == v & 0x80 && r & 0x7F == v >> 1
  {
    (v >> 1) | (v & 0x80)
  }

  function Srl(v: bv8): (r: bv8)
    ensures r & 0x80 == 0 && r & 0x7F == v >> 1
  {
    v >> 1
  }

  function Swap(v: bv8): (r: bv8)
    ensures r >> 4 == v & 0x0F && r & 0x0F == v >> 4
  {
    ((v & 0x0F) << 4) | ((v & 0xF0) >> 4)
  }

  /** RRC undoes RLC and SWAP undoes itself. */
  lemma RotateInverse(v: bv8)
    ensures Rrc(Rlc(v)) == v && Rlc(Rrc(v)) == v
    ensures Swap(Swap(v)) == v
  {
  }

  /** Rotating left through the carry and back right restores both the byte and the carry. */
  lemma RotateThroughCarryInverse(v: bv8, c: bool)
    ensures Rr(Rl(v, c), v & 0x80 != 0) == v
    ensures (Rl(v, c) & 1 != 0) == c
  {
  }

  /** The carry out of the left rotations and shifts is bit 7, of the right ones bit 0. */
  function CarryLeft(v: bv8): bool
  {
    v & 0x80 != 0
  }

  function CarryRight(v: bv8): bool
  {
    v & 1 != 0
  }

  /** The decimal adjustment applied to A after a BCD addition or subtraction. */
  function DaaCorrection(a: bv8, fl: Flags): (corr: bv8)
    ensures corr & 0x99 == 0 && corr & 0x66 == corr
    ensures corr & 0x06 != 0 <==> fl.h || (!fl.n && a & 0x0F > 9)
    ensures corr & 0x60 != 0 <==> fl.c || (!fl.n && a > 0x99)
    ensures corr >= 0x60 <==> fl.c || (!fl.n && a > 0x99)
  {
    var c0: bv8 := if fl.c then 0x60 else 0x00;
    var c1 := if fl.h || (!fl.n && a & 0x0F > 9) then c0 | 0x06 else c0;
    if fl.c || (!fl.n && a > 0x99) then c1 | 0x60 else c1
  }

  /** DAA: A is corrected by adding (after ADD/ADC) or subtracting (after SUB/SBC) the correction. */
  function Daa(a: bv8, fl: Flags): Result8
  {
    var corr := DaaCorrection(a, fl);
    var res := if fl.n then a - corr else a + corr;
    Result8(res, Flags(res == 0, fl.n, false, corr >= 0x60))
  }

  /**
   * DAA adds the correction after an addition and subtracts it after a
   * subtraction; Z comes from the result, N is kept, H is cleared, and C is
   * set exactly when the correction holds 0x60.
   */
  lemma DaaResult(a: bv8, fl: Flags)
    ensures var r := Daa(a, fl);
      r.value == (if fl.n then a - DaaCorrection(a, fl) else a + DaaCorrection(a, fl))
      && (r.flags.z <==> r.value == 0) && r.flags.n == fl.n && !r.flags.h
    ensures Daa(a, fl).flags.c <==> fl.c || (!fl.n && a > 0x99)
  {
  }

  /** The BCD sum 19 + 28: ADD gives 0x41 with H set, and DAA turns it into 0x47, no carry. */
  lemma DaaExample()
    ensures Add(0x19, 0x28, false) == Result8(0x41, Flags(false, false, true, false))
    ensures Daa(0x41, Flags(false, false, true, false)) == Result8(0x47, Flags(false, false, false, false))
  {
  }

  /**
   * ADD HL,v: 16-bit sum, half carry out of bit 11, carry out of bit 15; Z is
   * left alone.  The full sum needs 17 bits (the handler forms it in 32).
   */
  function AddHl(hl: bv16, v: bv16, fl: Flags): (r: Result16)
    ensures r.value == hl + v
    ensures r.flags.z == fl.z && !r.flags.n
  {
    var half: bv16 := (hl & 0x0FFF) + (v & 0x0FFF);
    var sum: bv17 := hl as bv17 + v as bv17;
    Result16(hl + v, fl.(n := false, h := half > 0x0FFF, c := sum > 0xFFFF))
  }

  lemma AddHlCarries(hl: bv16, v: bv16, fl: Flags)
    ensures var r := AddHl(hl, v, fl);
      (r.flags.c <==> r.value < hl) && (r.flags.h <==> (r.value & 0x0FFF) < (hl & 0x0FFF))
  {
  }

  /** A byte read as a signed offset, widened to 16 bits. */
  function SignExtend(v: bv8): (w: bv16)
    ensures w & 0xFF == v as bv16
    ensures w >> 8 == if v < 0x80 then 0 else 0xFF
  {
    if v < 0x80 then v as bv16 else 0xFF00 | v as bv16
  }

  /**
   * ADD SP,e and LD HL,SP+e: SP plus a signed byte.  H and C come from the
   * unsigned addition of the offset's byte to the low byte of SP; Z and N
   * are cleared.
   */
  function AddSigned(sp: bv16, v: bv8): (r: Result16)
    ensures r.value == sp + SignExtend(v)
    ensures !r.flags.z && !r.flags.n
    ensures r.flags.c <==> (r.value & 0xFF) < (sp & 0xFF)
  {
    var sum8: bv16 := (sp & 0xFF) + (v as bv16);
    var half: bv8 := (sp & 0x0F) as bv8 + (v & 0x0F);
    Result16(sp + SignExtend(v), Flags(false, false, half > 0x0F, sum8 > 0xFF))
  }

  lemma AddSignedHalfCarry(sp: bv16, v: bv8)
    ensures var r := AddSigned(sp, v);
      r.flags.h <==> (r.value & 0x0F) < (sp & 0x0F)
  {
  }
}
