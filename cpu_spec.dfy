/**
 * The processor's behaviour as functions on a value of its whole state: the
 * register file and the 64 KiB address space it reaches through the memory
 * unit.  Each instruction handler is a function from the state before to the
 * state after, or to the reason the program aborts.  The class `Cpu` in
 * module Cpu carries out the same steps in place and is proved to agree with
 * these functions.
 */
module CpuSpec {
  import opened Wrappers
  import opened Opcodes
  import Alu

  /** The address space as the processor sees it: a byte at every 16-bit address. */
  type Memory = bv16 -> bv8

  /** The pending IME value: -1 when none is pending; EI schedules 1. */
  type Delay = d: int | d == -1 || d == 1 witness -1

  /** The register file.  F is the low byte of AF. */
  datatype Regs = Regs(
    a: bv8, f: bv8, b: bv8, c: bv8, d: bv8, e: bv8, h: bv8, l: bv8,
    sp: bv16, pc: bv16)

  /** The interrupt master enable, the pending EI, HALT and the cycle countdown. */
  datatype Control = Control(ime: bv8, imeDelay: Delay, halted: bool, step: int, cycle: nat)

  datatype State = State(regs: Regs, ctrl: Control, mem: Memory)

  /** Why the program aborts. */
  datatype Panic =
    | InvalidSource(arg: Arg)
    | InvalidTarget(arg: Arg)
    | InvalidOpcode(opcode: bv8)

  // ---------------------------------------------------------------------
  // Register pairs

  function Pair(hi: bv8, lo: bv8): bv16
  {
    (hi as bv16 << 8) | lo as bv16
  }

  function Hi(w: bv16): bv8
  {
    (w >> 8) as bv8
  }

  function Lo(w: bv16): bv8
  {
    (w & 0xFF) as bv8
  }

  /** A pair is its two halves, and the halves of a pair are its bytes. */
  lemma PairHalves(w: bv16, hi: bv8, lo: bv8)
    ensures Pair(Hi(w), Lo(w)) == w
    ensures Hi(Pair(hi, lo)) == hi && Lo(Pair(hi, lo)) == lo
  {
  }

  function AF(r: Regs): bv16 { Pair(r.a, r.f) }
  function BC(r: Regs): bv16 { Pair(r.b, r.c) }
  function DE(r: Regs): bv16 { Pair(r.d, r.e) }
  function HL(r: Regs): bv16 { Pair(r.h, r.l) }

  function WithBC(r: Regs, v: bv16): (r': Regs)
    ensures BC(r') == v
  {
    PairHalves(v, 0, 0);
    r.(b := Hi(v), c := Lo(v))
  }

  function WithDE(r: Regs, v: bv16): (r': Regs)
    ensures DE(r') == v
  {
    PairHalves(v, 0, 0);
    r.(d := Hi(v), e := Lo(v))
  }

  function WithHL(r: Regs, v: bv16): (r': Regs)
    ensures HL(r') == v
  {
    PairHalves(v, 0, 0);
    r.(h := Hi(v), l := Lo(v))
  }

  function Flags(r: Regs): Alu.Flags
  {
    Alu.FlagsOf(r.f)
  }

  function WithFlags(r: Regs, fl: Alu.Flags): Regs
  {
    r.(f := Alu.WithFlags(r.f, fl))
  }

  // ---------------------------------------------------------------------
  // Memory

  /** The address `x` bytes into the page 0xFF00, where `LDH` and `(C)` operands point. */
  function HighPage(x: bv8): bv16
  {
    0xFF00 + x as bv16
  }

  function Read(m: Memory, addr: bv16): bv8
  {
    m(addr)
  }

  function Write(m: Memory, addr: bv16, v: bv8): Memory
  {
    i => if i == addr then v else m(i)
  }

  /** Little-endian 16-bit read; the second address wraps at 0xFFFF. */
  function Read16(m: Memory, addr: bv16): bv16
  {
    Pair(Read(m, addr + 1), Read(m, addr))
  }

  /** Little-endian 16-bit write: low byte at addr, high byte at addr+1 (wrapping). */
  function Write16(m: Memory, addr: bv16, v: bv16): (m': Memory)
    ensures forall i: bv16 {:trigger Read(m', i)} :: i != addr && i != addr + 1 ==> Read(m', i) == Read(m, i)
  {
    Write(Write(m, addr, Lo(v)), addr + 1, Hi(v))
  }

  /** A 16-bit write is read back unchanged at the same address. */
  lemma Read16Write16(m: Memory, addr: bv16, v: bv16)
    ensures Read16(Write16(m, addr, v), addr) == v
  {
    PairHalves(v, 0, 0);
  }

  // ---------------------------------------------------------------------
  // Operands

  /** The restart vectors 0x00, 0x08, ..., 0x38. */
  function ResetAddr(n: Index): (addr: bv16)
    ensures addr & 0x07 == 0 && addr <= 0x38
  {
    (n * 8) as bv16
  }

  /** RST n jumps to vector 8n. */
  lemma ResetVector(n: Index)
    ensures ResetAddr(n) as int == 8 * n
  {
  }

  function BoolValue(b: bool): bv16
  {
    if b then 1 else 0
  }

  /**
   * The value of a source operand.  (HL+) and (HL-) read at HL before it is
   * stepped; the flag operands give 0 or 1.
   */
  function OperandValue(r: Regs, m: Memory, arg: Arg): bv16
  {
    match arg
    case NoArg => 0
    case BitN(n) => n as bv16
    case RstN(n) => ResetAddr(n)
    case Imm16 => Read16(m, r.pc)
    case RegA => r.a as bv16
    case RegB => r.b as bv16
    case RegC => r.c as bv16
    case RegD => r.d as bv16
    case RegE => r.e as bv16
    case RegH => r.h as bv16
    case RegL => r.l as bv16
    case RegAF => AF(r)
    case RegBC => BC(r)
    case RegDE => DE(r)
    case RegHL => HL(r)
    case RegSP => r.sp
    case IndC => Read(m, HighPage(r.c)) as bv16
    case IndBC => Read(m, BC(r)) as bv16
    case IndDE => Read(m, DE(r)) as bv16
    case IndHL => Read(m, HL(r)) as bv16
    case IndHLI => Read(m, HL(r)) as bv16
    case IndHLD => Read(m, HL(r)) as bv16
    case Imm8 => Read(m, r.pc) as bv16
    case Ind8 => Read(m, HighPage(Read(m, r.pc))) as bv16
    case Ind16 => Read(m, Read16(m, r.pc)) as bv16
    case FlagCarry => BoolValue(Flags(r).c)
    case FlagZero => BoolValue(Flags(r).z)
  }

  /**
   * The registers after fetching an operand: the immediates advance PC past
   * themselves, (HL+) and (HL-) step HL, and nothing else changes.
   */
  function Advance(r: Regs, arg: Arg): (r': Regs)
    ensures r' == r.(pc := r'.pc, h := r'.h, l := r'.l)
    ensures arg.Imm8? || arg.Ind8? ==> r'.pc == r.pc + 1
    ensures arg.Imm16? || arg.Ind16? ==> r'.pc == r.pc + 2
    ensures arg.IndHLI? ==> HL(r') == HL(r) + 1
    ensures arg.IndHLD? ==> HL(r') == HL(r) - 1
    ensures !(arg.Imm8? || arg.Ind8? || arg.Imm16? || arg.Ind16? || arg.IndHLI? || arg.IndHLD?) ==> r' == r
  {
    if arg.Imm8? || arg.Ind8? then r.(pc := r.pc + 1)
    else if arg.Imm16? || arg.Ind16? then r.(pc := r.pc + 2)
    else if arg.IndHLI? then WithHL(r, HL(r) + 1)
    else if arg.IndHLD? then WithHL(r, HL(r) - 1)
    else r
  }

  /** The PC a relative jump reaches: `pc` moved by the signed offset. */
  function RelativeTarget(pc: bv16, offset: bv8): bv16
  {
    pc + Alu.SignExtend(offset)
  }

  /** Offsets below 0x80 move forward by themselves; the others move back by 0x100 minus themselves. */
  lemma RelativeTargetDirection(pc: bv16, offset: bv8)
    ensures offset < 0x80 ==> RelativeTarget(pc, offset) == pc + offset as bv16
    ensures offset >= 0x80 ==> RelativeTarget(pc, offset) == pc - (0x100 - offset as bv16)
  {
    var w := offset as bv16;
    assert w < 0x100;
    if offset >= 0x80 {
      assert Alu.SignExtend(offset) == 0xFF00 | w;
      assert 0xFF00 | w == 0xFF00 + w;
    }
  }

  /** Fetching a source operand: its value and the registers after the fetch; only a missing operand aborts. */
  function Load(r: Regs, m: Memory, arg: Arg): (res: Result<(bv16, Regs), Panic>)
    ensures res.Err? <==> arg == NoArg
  {
    if arg == NoArg then Err(InvalidSource(arg))
    else Ok((OperandValue(r, m, arg), Advance(r, arg)))
  }

  /** The operands that can be written. */
  predicate IsTarget(arg: Arg)
  {
    !(arg.NoArg? || arg.Imm8? || arg.Imm16? || arg.BitN? || arg.RstN? || arg.FlagZero? || arg.FlagCarry?)
  }

  /**
   * Storing to a target operand: 8-bit targets take the low byte of the
   * value, 16-bit registers all of it.  Immediates, bit numbers, restart
   * vectors and flags cannot be written, and storing to them aborts.
   */
  function Store(r: Regs, m: Memory, arg: Arg, v: bv16): Result<(Regs, Memory), Panic>
  {
    var lo := Lo(v);
    match arg
    case RegA => Ok((r.(a := lo), m))
    case RegB => Ok((r.(b := lo), m))
    case RegC => Ok((r.(c := lo), m))
    case RegD => Ok((r.(d := lo), m))
    case RegE => Ok((r.(e := lo), m))
    case RegH => Ok((r.(h := lo), m))
    case RegL => Ok((r.(l := lo), m))
    case RegAF => Ok((r.(a := Hi(v), f := lo), m))
    case RegBC => Ok((WithBC(r, v), m))
    case RegDE => Ok((WithDE(r, v), m))
    case RegHL => Ok((WithHL(r, v), m))
    case RegSP => Ok((r.(sp := v), m))
    case IndC => Ok((r, Write(m, HighPage(r.c), lo)))
    case IndBC => Ok((r, Write(m, BC(r), lo)))
    case IndDE => Ok((r, Write(m, DE(r), lo)))
    case IndHL => Ok((r, Write(m, HL(r), lo)))
    case IndHLI => Ok((WithHL(r, HL(r) + 1), Write(m, HL(r), lo)))
    case IndHLD => Ok((WithHL(r, HL(r) - 1), Write(m, HL(r), lo)))
    case Ind8 => Ok((r.(pc := r.pc + 1), Write(m, HighPage(Read(m, r.pc)), lo)))
    case Ind16 => Ok((r.(pc := r.pc + 2), Write(m, Read16(m, r.pc), lo)))
    case _ => Err(InvalidTarget(arg))
  }

  /** A store aborts exactly on the operands that cannot be written. */
  lemma StoreAborts(r: Regs, m: Memory, arg: Arg, v: bv16)
    ensures Store(r, m, arg, v).Err? <==> !IsTarget(arg)
  {
  }

  /** The 8-bit registers as operands. */
  predicate IsRegister8(arg: Arg)
  {
    arg.RegA? || arg.RegB? || arg.RegC? || arg.RegD? || arg.RegE? || arg.RegH? || arg.RegL?
  }

  /** Storing through (HL+) writes the byte at the old HL and then steps HL up. */
  lemma StoreHLIncrement(r: Regs, m: Memory, v: bv8)
    ensures var res := Store(r, m, IndHLI, v as bv16);
      res.Ok? && HL(res.value.0) == HL(r) + 1 && Read(res.value.1, HL(r)) == v
  {
    assert Lo(v as bv16) == v;
  }

  /** Storing through (HL-) writes the byte at the old HL and then steps HL down. */
  lemma StoreHLDecrement(r: Regs, m: Memory, v: bv8)
    ensures var res := Store(r, m, IndHLD, v as bv16);
      res.Ok? && HL(res.value.0) == HL(r) - 1 && Read(res.value.1, HL(r)) == v
  {
    assert Lo(v as bv16) == v;
  }

  // ---------------------------------------------------------------------
  // Stack

  /** PUSH: SP drops by two, the value is written little-endian at the new SP, and no other byte changes. */
  function Push(r: Regs, m: Memory, v: bv16): (res: (Regs, Memory))
    ensures res.0 == r.(sp := r.sp - 2)
    ensures Read16(res.1, res.0.sp) == v
    ensures forall i: bv16 {:trigger Read(res.1, i)} :: i != res.0.sp && i != res.0.sp + 1 ==> Read(res.1, i) == Read(m, i)
  {
    Read16Write16(m, r.sp - 2, v);
    (r.(sp := r.sp - 2), Write16(m, r.sp - 2, v))
  }

  /** POP: the value at SP, and SP raised by two. */
  function Pop(r: Regs, m: Memory): (bv16, Regs)
  {
    (Read16(m, r.sp), r.(sp := r.sp + 2))
  }

  /** A pop after a push returns the pushed value and restores SP and every other register. */
  lemma PushThenPop(r: Regs, m: Memory, v: bv16)
    ensures var (r', m') := Push(r, m, v);
      Pop(r', m') == (v, r)
  {
  }

  // ---------------------------------------------------------------------
  // Bit access

  /**
   * The bit test of BIT: `(value >> bit & 7) & 1` groups as
   * `((value >> bit) & 7) & 1`, which is bit `bit` of the byte; a bit number
   * of 8 or more shifts every bit out.
   */
  function TestBit(v: bv8, bit: bv8): (b: bv8)
    ensures b <= 1
    ensures bit < 8 ==> (b == 1 <==> v & (1 << bit) != 0)
  {
    if bit < 8 then (v >> bit) & 1 else 0
  }

  /** The byte with bit (bit & 7) replaced by the low bit of `value`. */
  function SetBit(v: bv8, bit: bv8, value: bv8): (r: bv8)
    ensures var mask: bv8 := 1 << (bit & 7);
      r & !mask == v & !mask && (r & mask != 0 <==> value & 1 != 0)
  {
    var n := bit & 7;
    (v & !(1 << n)) | ((value & 1) << n)
  }

  // ---------------------------------------------------------------------
  // Instruction handlers

  /** NOP, HALT, DAA, CPL, SCF, CCF, DI and EI. */
  function RunMisc(s: State, k: MiscKind): (res: State)
    ensures res.mem == s.mem
    ensures res.ctrl == s.ctrl.(
      halted := s.ctrl.halted || k == Halt,
      ime := if k == Di then 0 else s.ctrl.ime,
      imeDelay := if k == Ei then 1 else s.ctrl.imeDelay)
  {
    var r := s.regs;
    var fl := Flags(r);
    match k
    case Nop => s
    case Halt => s.(ctrl := s.ctrl.(halted := true))
    case Daa =>
      var res := Alu.Daa(r.a, fl);
      s.(regs := WithFlags(r, res.flags).(a := res.value))
    case Cpl => s.(regs := WithFlags(r, fl.(n := true, h := true)).(a := !r.a))
    case Scf => s.(regs := WithFlags(r, fl.(n := false, h := false, c := true)))
    case Ccf => s.(regs := WithFlags(r, fl.(n := false, h := false, c := !fl.c)))
    case Di => s.(ctrl := s.ctrl.(ime := 0))
    case Ei => s.(ctrl := s.ctrl.(imeDelay := 1))
  }

  /** LD: an 8-bit load keeps the low byte of the source; a 16-bit load all of it. */
  function LoadOp(s: State, op: Instruction, wide: bool): (res: Result<State, Panic>)
    ensures res.Ok? ==> res.value.ctrl == s.ctrl
  {
    var (v, r1) :- Load(s.regs, s.mem, op.arg2);
    var (r2, m2) :- Store(r1, s.mem, op.arg1, if wide then v else Lo(v) as bv16);
    Ok(s.(regs := r2, mem := m2))
  }

  /** LD (a16),SP: SP is stored little-endian at the immediate address. */
  function LoadMemSp(s: State): (res: State)
    ensures res.ctrl == s.ctrl
    ensures res.regs == s.regs.(pc := s.regs.pc + 2)
    ensures Read16(res.mem, Read16(s.mem, s.regs.pc)) == s.regs.sp
  {
    var r := s.regs;
    var addr := Read16(s.mem, r.pc);
    Read16Write16(s.mem, addr, r.sp);
    s.(regs := r.(pc := r.pc + 2), mem := Write16(s.mem, addr, r.sp))
  }

  /** ADD SP,e writes SP, LD HL,SP+e writes HL, with the same flags. */
  function AddSpOp(s: State, op: Instruction, toHL: bool): (res: Result<State, Panic>)
    ensures res.Ok? ==> res.value.ctrl == s.ctrl && res.value.mem == s.mem
  {
    var (v, r1) :- Load(s.regs, s.mem, op.arg1);
    var res := Alu.AddSigned(r1.sp, Lo(v));
    var r2 := WithFlags(r1, res.flags);
    Ok(s.(regs := if toHL then WithHL(r2, res.value) else r2.(sp := res.value)))
  }

  /** ADD HL,rr. */
  function AddHlOp(s: State, op: Instruction): (res: Result<State, Panic>)
    ensures res.Ok? ==> res.value.ctrl == s.ctrl && res.value.mem == s.mem
  {
    var (v, r1) :- Load(s.regs, s.mem, op.arg1);
    var res := Alu.AddHl(HL(r1), v, Flags(r1));
    Ok(s.(regs := WithHL(WithFlags(r1, res.flags), res.value)))
  }

  /** INC and DEC of a 16-bit register, without flags. */
  function Step16(s: State, op: Instruction, delta: bv16): (res: Result<State, Panic>)
    ensures res.Ok? ==> res.value.ctrl == s.ctrl
  {
    var (v, r1) :- Load(s.regs, s.mem, op.arg1);
    var (r2, m2) :- Store(r1, s.mem, op.arg1, Add16(v, delta));
    Ok(s.(regs := r2, mem := m2))
  }

  /** 16-bit addition, wrapping at 0x10000 as the C register pairs do. */
  function Add16(a: bv16, b: bv16): bv16
  {
    a + b
  }

  /** The loads and the 16-bit arithmetic; none of them touches a control field. */
  function RunTransfer(s: State, op: Instruction, k: TransferKind): (res: Result<State, Panic>)
    ensures res.Ok? ==> res.value.ctrl == s.ctrl
  {
    match k
    case Ld8 => LoadOp(s, op, false)
    case Ld16 => LoadOp(s, op, true)
    case Ld16Sp => Ok(LoadMemSp(s))
    case LdHlSp => AddSpOp(s, op, true)
    case AddSp => AddSpOp(s, op, false)
    case AddHl => AddHlOp(s, op)
    case Inc16 => Step16(s, op, 1)
    case Dec16 => Step16(s, op, 0xFFFF)
  }

  /** CALL and RST: push the address of the next instruction, jump to the operand. */
  function CallTo(s: State, op: Instruction): (res: Result<State, Panic>)
    ensures res.Ok? ==> res.value.ctrl == s.ctrl
  {
    var (addr, r1) :- Load(s.regs, s.mem, op.arg1);
    var (r2, m2) := Push(r1, s.mem, r1.pc);
    Ok(s.(regs := r2.(pc := addr), mem := m2))
  }

  /** The 16-bit value POP stores: the low four bits of F cannot be set. */
  function PopValue(arg: Arg, v: bv16): bv16
  {
    if arg == RegAF then v & 0xFFF0 else v
  }

  /** POP AF keeps the twelve high bits of the word and clears the low four; the other pairs keep it whole. */
  lemma PopValueBits(arg: Arg, v: bv16)
    ensures var w := PopValue(arg, v);
      (arg == RegAF ==> w & 0x000F == 0 && w & 0xFFF0 == v & 0xFFF0) &&
      (arg != RegAF ==> w == v)
  {
  }

  function PopOp(s: State, op: Instruction): (res: Result<State, Panic>)
    ensures res.Ok? ==> res.value.ctrl == s.ctrl
  {
    var (v, r1) := Pop(s.regs, s.mem);
    var (r2, m2) :- Store(r1, s.mem, op.arg1, PopValue(op.arg1, v));
    Ok(s.(regs := r2, mem := m2))
  }

  /** The unconditional jumps, calls and returns, PUSH and POP; of the control fields only RETI changes any. */
  function RunFlow(s: State, op: Instruction, k: FlowKind): (res: Result<State, Panic>)
    ensures res.Ok? ==> res.value.ctrl == if k == Reti then s.ctrl.(ime := 1, imeDelay := -1) else s.ctrl
  {
    var r := s.regs;
    match k
    case Jp16 =>
      var (addr, r1) :- Load(r, s.mem, op.arg1);
      Ok(s.(regs := r1.(pc := addr)))
    case Jr8 =>
      var (offset, r1) :- Load(r, s.mem, op.arg1);
      Ok(s.(regs := r1.(pc := RelativeTarget(r1.pc, Lo(offset)))))
    case Push16 =>
      var (v, r1) :- Load(r, s.mem, op.arg1);
      var (r2, m2) := Push(r1, s.mem, v);
      Ok(s.(regs := r2, mem := m2))
    case Pop16 => PopOp(s, op)
    case Call => CallTo(s, op)
    case Rst => CallTo(s, op)
    case Ret =>
      var (addr, r1) := Pop(r, s.mem);
      Ok(s.(regs := r1.(pc := addr)))
    case Reti =>
      var (addr, r1) := Pop(r, s.mem);
      Ok(State(r1.(pc := addr), s.ctrl.(ime := 1, imeDelay := -1), s.mem))
  }

  /** BIT, SET and RES: the first operand is the bit number, the second the byte. */
  function RunBitAccess(s: State, op: Instruction, k: BitKind): (res: Result<State, Panic>)
    ensures res.Ok? ==> res.value.ctrl == s.ctrl
  {
    var (bit, r1) :- Load(s.regs, s.mem, op.arg1);
    var (v, r2) :- Load(r1, s.mem, op.arg2);
    match k
    case Bit =>
      var b := TestBit(Lo(v), Lo(bit));
      Ok(s.(regs := WithFlags(r2, Flags(r2).(z := b == 0, n := false, h := true))))
    case Set =>
      var (r3, m3) :- Store(r2, s.mem, op.arg2, SetBit(Lo(v), Lo(bit), 1) as bv16);
      Ok(s.(regs := r3, mem := m3))
    case Res =>
      var (r3, m3) :- Store(r2, s.mem, op.arg2, SetBit(Lo(v), Lo(bit), 0) as bv16);
      Ok(s.(regs := r3, mem := m3))
  }

  /** The value an 8-bit read-modify-write handler computes, with its flags. */
  function UnaryResult(k: UnaryKind, v: bv8, fl: Alu.Flags): Alu.Result8
  {
    match k
    case Inc8 => Alu.Inc(v, fl)
    case Dec8 => Alu.Dec(v, fl)
    case Rlc => Alu.Result8(Alu.Rlc(v), Alu.Flags(Alu.Rlc(v) == 0, false, false, Alu.CarryLeft(v)))
    case Rlca => Alu.Result8(Alu.Rlc(v), Alu.Flags(false, false, false, Alu.CarryLeft(v)))
    case Rl => Alu.Result8(Alu.Rl(v, fl.c), Alu.Flags(Alu.Rl(v, fl.c) == 0, false, false, Alu.CarryLeft(v)))
    case Rla => Alu.Result8(Alu.Rl(v, fl.c), Alu.Flags(false, false, false, Alu.CarryLeft(v)))
    case Rrc => Alu.Result8(Alu.Rrc(v), Alu.Flags(Alu.Rrc(v) == 0, false, false, Alu.CarryRight(v)))
    case Rrca => Alu.Result8(Alu.Rrc(v), Alu.Flags(false, false, false, Alu.CarryRight(v)))
    case Rr => Alu.Result8(Alu.Rr(v, fl.c), Alu.Flags(Alu.Rr(v, fl.c) == 0, false, false, Alu.CarryRight(v)))
    case Rra => Alu.Result8(Alu.Rr(v, fl.c), Alu.Flags(false, false, false, Alu.CarryRight(v)))
    case Sla => Alu.Result8(Alu.Sla(v), Alu.Flags(Alu.Sla(v) == 0, false, false, Alu.CarryLeft(v)))
    case Sra => Alu.Result8(Alu.Sra(v), Alu.Flags(Alu.Sra(v) == 0, false, false, Alu.CarryRight(v)))
    case Srl => Alu.Result8(Alu.Srl(v), Alu.Flags(Alu.Srl(v) == 0, false, false, Alu.CarryRight(v)))
    case Swap => Alu.Result8(Alu.Swap(v), Alu.Flags(Alu.Swap(v) == 0, false, false, false))
  }

  /** INC, DEC, the rotations, shifts and SWAP: read the operand, compute, set the flags, write it back. */
  function RunUnary(s: State, op: Instruction, k: UnaryKind): (res: Result<State, Panic>)
    ensures res.Ok? ==> res.value.ctrl == s.ctrl
  {
    var (v, r1) :- Load(s.regs, s.mem, op.arg1);
    var res := UnaryResult(k, Lo(v), Flags(r1));
    var (r2, m2) :- Store(WithFlags(r1, res.flags), s.mem, op.arg1, res.value as bv16);
    Ok(s.(regs := r2, mem := m2))
  }

  /** The value and flags of an accumulator handler with A and the operand. */
  function AluResult(k: AluKind, a: bv8, v: bv8, fl: Alu.Flags): Alu.Result8
  {
    match k
    case AddA => Alu.Add(a, v, false)
    case Adc8 => Alu.Add(a, v, fl.c)
    case Sub8 => Alu.Sub(a, v, false)
    case Sbc8 => Alu.Sub(a, v, fl.c)
    case Cp8 => Alu.Sub(a, v, false)
    case And8 => Alu.And(a, v)
    case Xor8 => Alu.Xor(a, v)
    case Or8 => Alu.Or(a, v)
  }

  /** ADD, ADC, SUB, SBC, AND, XOR, OR and CP on A; CP keeps A. */
  function RunAccumulator(s: State, op: Instruction, k: AluKind): (res: Result<State, Panic>)
    ensures res.Ok? ==> res.value.ctrl == s.ctrl && res.value.mem == s.mem
  {
    var (v, r1) :- Load(s.regs, s.mem, op.arg1);
    var res := AluResult(k, r1.a, Lo(v), Flags(r1));
    var r2 := WithFlags(r1, res.flags);
    Ok(s.(regs := if k == Cp8 then r2 else r2.(a := res.value)))
  }

  /**
   * ADD, ADC, SUB, SBC, AND, XOR and OR leave the ALU's value in A; CP only
   * sets the flags SUB would. Either way the flags are the ALU's, and the
   * only other change is the operand's advance of PC or HL.
   */
  lemma AccumulatorResult(s: State, op: Instruction, k: AluKind)
    requires op.arg1 != NoArg
    ensures RunAccumulator(s, op, k).Ok?
    ensures var res := AluResult(k, s.regs.a, Lo(OperandValue(s.regs, s.mem, op.arg1)), Flags(s.regs));
      var r := RunAccumulator(s, op, k).value.regs;
      Flags(r) == res.flags && r.a == (if k == Cp8 then s.regs.a else res.value)
      && r.f & 0x0F == s.regs.f & 0x0F
      && r.(a := s.regs.a, f := s.regs.f) == Advance(s.regs, op.arg1)
  {
  }

  /** The cycles a taken conditional branch adds: one for JP and JR, three for CALL and RET. */
  function ExtraCycles(k: BranchKind): int
  {
    match k
    case JumpIf => 1
    case RelativeIf => 1
    case CallIf => 3
    case ReturnIf => 3
  }

  /** Whether a conditional handler's flag operand selects the branch. */
  function Taken(flag: bv16, negated: bool): bool
  {
    (flag != 0) != negated
  }

  function AddStep(c: Control, n: int): Control
  {
    c.(step := c.step + n)
  }

  /** Whether a conditional handler takes its branch in state `s`. */
  predicate BranchTaken(s: State, op: Instruction, negated: bool)
  {
    Taken(OperandValue(s.regs, s.mem, op.arg1), negated)
  }

  /**
   * JP, JR, CALL and RET on a condition.  The flag is read first, then the
   * target operand is fetched whether or not it is used; a taken branch
   * adds its extra cycles to the step countdown.
   */
  function RunConditional(s: State, op: Instruction, k: BranchKind, negated: bool): (res: Result<State, Panic>)
    ensures res.Ok? ==> res.value.ctrl == AddStep(s.ctrl, if BranchTaken(s, op, negated) then ExtraCycles(k) else 0)
  {
    var (flag, r1) :- Load(s.regs, s.mem, op.arg1);
    if k == ReturnIf then
      if Taken(flag, negated) then
        var (addr, r2) := Pop(r1, s.mem);
        Ok(State(r2.(pc := addr), AddStep(s.ctrl, 3), s.mem))
      else Ok(s.(regs := r1))
    else
      var (target, r2) :- Load(r1, s.mem, op.arg2);
      if !Taken(flag, negated) then Ok(s.(regs := r2))
      else if k == JumpIf then
        Ok(State(r2.(pc := target), AddStep(s.ctrl, 1), s.mem))
      else if k == RelativeIf then
        Ok(State(r2.(pc := RelativeTarget(r2.pc, Lo(target))), AddStep(s.ctrl, 1), s.mem))
      else
        var (r3, m3) := Push(r2, s.mem, r2.pc);
        Ok(State(r3.(pc := target), AddStep(s.ctrl, 3), m3))
  }

  /** The extra cycles handler `h` adds to the step countdown in state `s`. */
  function BranchCycles(s: State, op: Instruction, h: Handler): int
  {
    if h.Conditional? && BranchTaken(s, op, h.negated) then ExtraCycles(h.branch) else 0
  }

  /**
   * The effect of running handler `h` of instruction `op`.  Of the control
   * fields, HALT sets `halted`, DI clears IME, EI schedules it, RETI sets it
   * at once and drops anything pending, and a taken conditional branch adds
   * its extra cycles; no handler changes anything else there.
   */
  function Run(s: State, op: Instruction, h: Handler): (res: Result<State, Panic>)
    ensures res.Ok? ==>
      var c := res.value.ctrl;
      c.halted == (s.ctrl.halted || h == Misc(Halt)) &&
      c.ime == (if h == Misc(Di) then 0 else if h == Flow(Reti) then 1 else s.ctrl.ime) &&
      c.imeDelay == (if h == Misc(Ei) then 1 else if h == Flow(Reti) then -1 else s.ctrl.imeDelay) &&
      c.step == s.ctrl.step + BranchCycles(s, op, h) &&
      c.cycle == s.ctrl.cycle
  {
    match h
    case Misc(k) => Ok(RunMisc(s, k))
    case Transfer(k) => RunTransfer(s, op, k)
    case Flow(k) => RunFlow(s, op, k)
    case BitAccess(k) => RunBitAccess(s, op, k)
    case Unary(k) => RunUnary(s, op, k)
    case Accumulator(k) => RunAccumulator(s, op, k)
    case Conditional(k, negated) => RunConditional(s, op, k, negated)
  }

  // ---------------------------------------------------------------------
  // Decode, execute, step

  /** The instruction at `pc`: the main table, or the 0xCB table for a prefixed opcode. */
  function Decode(m: Memory, pc: bv16): (op: Instruction)
    ensures Read(m, pc) == 0xCB ==> op == CbTable(Read(m, pc + 1)) && op.handler.Some?
    ensures Read(m, pc) != 0xCB ==> op == MainTable(Read(m, pc))
  {
    var opcode := Read(m, pc);
    if opcode == 0xCB then CbTable(Read(m, pc + 1)) else MainTable(opcode)
  }

  /** Fetching reads the opcode at PC and moves PC past it, and past the second byte of a prefixed opcode. */
  function Fetch(r: Regs, m: Memory): (res: (Instruction, Regs))
    ensures res.0 == Decode(m, r.pc)
    ensures res.1 == r.(pc := if Read(m, r.pc) == 0xCB then r.pc + 2 else r.pc + 1)
  {
    var opcode := Read(m, r.pc);
    if opcode == 0xCB then (CbTable(Read(m, r.pc + 1)), r.(pc := r.pc + 2))
    else (MainTable(opcode), r.(pc := r.pc + 1))
  }

  /** A pending EI takes effect: IME gets the pending value and nothing stays pending. */
  function ApplyDelay(c: Control): (c': Control)
    ensures c' == c.(ime := if c.imeDelay == 1 then 1 else c.ime, imeDelay := -1)
  {
    if c.imeDelay != -1 then c.(ime := c.imeDelay as bv8, imeDelay := -1) else c
  }

  /** The state a fetched instruction's handler starts from. */
  function Prepared(s: State): State
  {
    State(Fetch(s.regs, s.mem).1, ApplyDelay(s.ctrl), s.mem)
  }

  /**
   * Executing one instruction: fetch, abort on an opcode with no handler,
   * apply a pending EI, then run the handler.
   */
  function Execute(s: State): (res: Result<(Instruction, State), Panic>)
    ensures res.Err? && Decode(s.mem, s.regs.pc).handler.None? ==> res.error == InvalidOpcode(Read(s.mem, s.regs.pc))
    ensures res.Ok? ==>
      var op := Decode(s.mem, s.regs.pc);
      res.value.0 == op && op.handler.Some? && Run(Prepared(s), op, op.handler.value) == Ok(res.value.1)
  {
    var (op, r1) := Fetch(s.regs, s.mem);
    if op.handler.None? then Err(InvalidOpcode(Read(s.mem, s.regs.pc)))
    else
      var s2 :- Run(State(r1, ApplyDelay(s.ctrl), s.mem), op, op.handler.value);
      Ok((op, s2))
  }

  /**
   * One machine cycle of the processor: while the countdown `step` is
   * positive it only counts down; a halted processor does nothing; otherwise
   * it executes one instruction and the countdown becomes the instruction's
   * cost less one, plus the extra cycles a taken branch added.
   */
  function Step(s: State): Result<State, Panic>
  {
    if s.ctrl.step > 0 then Ok(s.(ctrl := s.ctrl.(step := s.ctrl.step - 1)))
    else if s.ctrl.halted then Ok(s)
    else
      var (op, s1) :- Execute(s);
      Ok(s1.(ctrl := s1.ctrl.(step := s1.ctrl.step + op.cycles - 1)))
  }

  /** From a zero countdown, a processor that is not halted steps by executing one instruction. */
  lemma StepExecutes(s: State)
    requires s.ctrl.step <= 0 && !s.ctrl.halted
    ensures Execute(s).Err? ==> Step(s) == Err(Execute(s).error)
    ensures Execute(s).Ok? ==> Step(s).Ok?
    ensures Execute(s).Ok? ==> Step(s).value.regs == Execute(s).value.1.regs
    ensures Execute(s).Ok? ==> Step(s).value.mem == Execute(s).value.1.mem
    ensures Execute(s).Ok? ==>
      var (op, s1) := Execute(s).value;
      Step(s).value.ctrl == s1.ctrl.(step := s1.ctrl.step + op.cycles - 1)
  {
  }

  /** The step as the program writes it: the countdown is overwritten, losing the branch's extra cycles. */
  function StepAsWritten(s: State): Result<State, Panic>
  {
    if s.ctrl.step > 0 then Ok(s.(ctrl := s.ctrl.(step := s.ctrl.step - 1)))
    else if s.ctrl.halted then Ok(s)
    else
      var (op, s1) :- Execute(s);
      Ok(s1.(ctrl := s1.ctrl.(step := op.cycles - 1)))
  }

  /**
   * The countdown: a positive step only decrements; a halted processor is
   * left as it is; from a zero countdown the executed instruction leaves
   * its cost less one plus its branch's extra cycles.
   */
  lemma StepCycles(s: State)
    ensures s.ctrl.step > 0 ==> Step(s) == Ok(s.(ctrl := s.ctrl.(step := s.ctrl.step - 1)))
    ensures s.ctrl.step <= 0 && s.ctrl.halted ==> Step(s) == Ok(s)
    ensures s.ctrl.step == 0 && !s.ctrl.halted && Execute(s).Ok? ==>
      var op := Decode(s.mem, s.regs.pc);
      Step(s).Ok? &&
      Step(s).value.ctrl.step == op.cycles - 1 + BranchCycles(Prepared(s), op, op.handler.value)
  {
  }

  /**
   * As written, the countdown left by an instruction is its cost less one:
   * the extra cycles a taken branch added are lost.
   */
  lemma StepAsWrittenLosesBranchCycles(s: State)
    requires s.ctrl.step == 0 && !s.ctrl.halted && Execute(s).Ok?
    ensures var op := Decode(s.mem, s.regs.pc);
      StepAsWritten(s).Ok? && Step(s).Ok? &&
      StepAsWritten(s).value.ctrl.step == op.cycles - 1 &&
      Step(s).value.ctrl.step == StepAsWritten(s).value.ctrl.step + BranchCycles(Prepared(s), op, op.handler.value)
  {
  }

  /** A JP Z,a16 at address 0 with Z set, and nothing pending. */
  function JumpTakenState(): State
  {
    State(Regs(0, 0x80, 0, 0, 0, 0, 0, 0, 0xFFFE, 0), Control(0, -1, false, 0, 0), i => if i == 0 then 0xCA else 0)
  }

  /** The table entry of opcode 0xCA, JP Z,a16. */
  const JumpZero := Instruction(0xCA, 3, FlagZero, Imm16, Some(Conditional(JumpIf, false)))

  /** The jump is decoded from address 0 and taken, so one extra cycle is due, which the as-written step drops. */
  lemma JumpTakenAddsCycle()
    ensures Decode(JumpTakenState().mem, 0) == JumpZero
    ensures Fetch(JumpTakenState().regs, JumpTakenState().mem).0 == JumpZero
    ensures BranchCycles(Prepared(JumpTakenState()), JumpZero, JumpZero.handler.value) == 1
  {
    var s := JumpTakenState();
    assert MainTable(0xCA) == JumpZero;
    assert Flags(Prepared(s).regs).z;
  }

  /**
   * EI sets IME only when the next instruction starts, before that
   * instruction's handler runs, so a DI right after EI leaves IME clear;
   * RETI sets it at once and cancels a pending EI.
   */
  lemma EiTakesEffectNext(s: State)
    requires s.ctrl.imeDelay == 1
    requires Execute(s).Ok?
    ensures var h := Execute(s).value.0.handler.value;
      var c := Execute(s).value.1.ctrl;
      c.ime == (if h == Misc(Di) then 0 else 1) &&
      c.imeDelay == (if h == Misc(Ei) then 1 else -1)
  {
  }

  /** Running EI leaves IME as it was and schedules it for the next instruction. */
  lemma EiDelays(s: State, op: Instruction)
    ensures Run(s, op, Misc(Ei)) == Ok(s.(ctrl := s.ctrl.(imeDelay := 1)))
  {
  }

  /**
   * Entering an interrupt always ends HALT.  With IME clear nothing else
   * changes; otherwise IME is cleared, the old PC is pushed and PC is the
   * vector.
   */
  function Interrupt(s: State, addr: bv16): (s': State)
    ensures !s'.ctrl.halted
    ensures s.ctrl.ime == 0 ==> s' == s.(ctrl := s.ctrl.(halted := false))
    ensures s.ctrl.ime != 0 ==>
      s'.ctrl == s.ctrl.(halted := false, ime := 0) &&
      s'.regs == s.regs.(sp := s.regs.sp - 2, pc := addr) &&
      Read16(s'.mem, s'.regs.sp) == s.regs.pc &&
      s'.mem == Write16(s.mem, s.regs.sp - 2, s.regs.pc)
  {
    var c := s.ctrl.(halted := false);
    if c.ime == 0 then s.(ctrl := c)
    else
      var (r, m) := Push(s.regs, s.mem, s.regs.pc);
      State(r.(pc := addr), c.(ime := 0), m)
  }

  /** An interrupt dispatch changes no byte of memory but the two it pushes the PC into. */
  lemma InterruptKeepsOtherBytes(s: State, addr: bv16, i: bv16)
    requires s.ctrl.ime != 0
    requires i != s.regs.sp - 2 && i != s.regs.sp - 1
    ensures Read(Interrupt(s, addr).mem, i) == Read(s.mem, i)
  {
    var a := s.regs.sp - 2;
    assert a + 1 == s.regs.sp - 1;
    var m := Write16(s.mem, a, s.regs.pc);
    assert Interrupt(s, addr).mem == m;
    assert Read(m, i) == Read(s.mem, i);
  }

  /** POP AF leaves the low four bits of F clear. */
  lemma PopAfClearsLowNibble(s: State, op: Instruction)
    requires op.arg1 == RegAF
    ensures RunFlow(s, op, Pop16).Ok?
    ensures RunFlow(s, op, Pop16).value.regs.f & 0x0F == 0
    ensures RunFlow(s, op, Pop16).value.regs.sp == s.regs.sp + 2
  {
  }

  /** BIT n,r and BIT n,(HL) set Z exactly when the bit is clear, clear N, set H and keep C. */
  lemma BitFlags(s: State, op: Instruction, n: Index)
    requires op.arg1 == BitN(n) && (op.arg2 == IndHL || IsRegister8(op.arg2))
    ensures RunBitAccess(s, op, Bit).Ok?
    ensures var fl := Flags(RunBitAccess(s, op, Bit).value.regs);
      (fl.z <==> Lo(OperandValue(s.regs, s.mem, op.arg2)) & (1 << n as bv8) == 0) &&
      !fl.n && fl.h && fl.c == Flags(s.regs).c
  {
    var v := Lo(OperandValue(s.regs, s.mem, op.arg2));
    BitResult(s, op, n);
    IndexByte(n);
    assert TestBit(v, n as bv8) == 0 <==> v & (1 << n as bv8) == 0;
  }

  /** BIT n,r and BIT n,(HL) only set F from the selected bit of the operand. */
  lemma BitResult(s: State, op: Instruction, n: Index)
    requires op.arg1 == BitN(n) && (op.arg2 == IndHL || IsRegister8(op.arg2))
    ensures RunBitAccess(s, op, Bit) == Ok(s.(regs := WithFlags(s.regs, Flags(s.regs).(
      z := TestBit(Lo(OperandValue(s.regs, s.mem, op.arg2)), Lo(n as bv16)) == 0, n := false, h := true))))
  {
    assert Load(s.regs, s.mem, op.arg1) == Ok((n as bv16, s.regs));
    assert Load(s.regs, s.mem, op.arg2) == Ok((OperandValue(s.regs, s.mem, op.arg2), s.regs));
  }

  /** The value SET or RES gives the selected bit. */
  function BitValue(k: BitKind): bv8
  {
    if k == Set then 1 else 0
  }

  /**
   * SET n,r and RES n,r: the register's bit n becomes 1 (SET) or 0 (RES)
   * and its other bits stay; memory, F, SP and PC are unchanged.
   */
  lemma BitWriteRegister(s: State, op: Instruction, n: Index, k: BitKind)
    requires k != Bit && op.arg1 == BitN(n) && IsRegister8(op.arg2)
    ensures RunBitAccess(s, op, k).Ok?
    ensures var r := RunBitAccess(s, op, k).value;
      Lo(OperandValue(r.regs, r.mem, op.arg2)) == SetBit(Lo(OperandValue(s.regs, s.mem, op.arg2)), n as bv8, BitValue(k)) &&
      r.mem == s.mem && r.regs.f == s.regs.f && r.regs.sp == s.regs.sp && r.regs.pc == s.regs.pc
  {
    assert Advance(s.regs, op.arg2) == s.regs;
    var w := SetBit(Lo(OperandValue(s.regs, s.mem, op.arg2)), n as bv8, BitValue(k));
    StoreRegister8(s.regs, s.mem, op.arg2, w as bv16);
    var (r3, m3) := Store(s.regs, s.mem, op.arg2, w as bv16).value;
    BitWriteStore(s, op, n, k, r3, m3);
    ByteWord(w);
  }

  /** SET n,(HL) and RES n,(HL): the byte at HL gets bit n set or cleared; no register changes. */
  lemma BitWriteIndirect(s: State, op: Instruction, n: Index, k: BitKind)
    requires k != Bit && op.arg1 == BitN(n) && op.arg2 == IndHL
    ensures RunBitAccess(s, op, k).Ok?
    ensures var r := RunBitAccess(s, op, k).value;
      r.regs == s.regs && r.mem == Write(s.mem, HL(s.regs), SetBit(Read(s.mem, HL(s.regs)), n as bv8, BitValue(k)))
  {
    var b := Read(s.mem, HL(s.regs));
    assert OperandValue(s.regs, s.mem, op.arg2) == b as bv16;
    ByteWord(b);
    var w := SetBit(b, n as bv8, BitValue(k));
    StoreIndirect(s.regs, s.mem, op.arg2, w as bv16);
    ByteWord(w);
    BitWriteStore(s, op, n, k, s.regs, Write(s.mem, HL(s.regs), w));
  }

  /** SET and RES store the changed byte back through the operand they read. */
  lemma BitWriteStore(s: State, op: Instruction, n: Index, k: BitKind, r3: Regs, m3: Memory)
    requires k != Bit && op.arg1 == BitN(n) && op.arg2 != NoArg
    requires Store(Advance(s.regs, op.arg2), s.mem, op.arg2,
      SetBit(Lo(OperandValue(s.regs, s.mem, op.arg2)), n as bv8, BitValue(k)) as bv16) == Ok((r3, m3))
    ensures RunBitAccess(s, op, k) == Ok(s.(regs := r3, mem := m3))
  {
    assert Load(s.regs, s.mem, op.arg1) == Ok((n as bv16, s.regs));
    IndexByte(n);
    if k == Set {
      BitStoreValue(s, op, n, k, 1, r3, m3);
    } else {
      BitStoreValue(s, op, n, k, 0, r3, m3);
    }
  }

  /** The SET or RES branch of `RunBitAccess` once the bit number has been fetched. */
  lemma BitStoreValue(s: State, op: Instruction, n: Index, k: BitKind, value: bv8, r3: Regs, m3: Memory)
    requires k != Bit && value == BitValue(k) && op.arg1 == BitN(n) && op.arg2 != NoArg
    requires Load(s.regs, s.mem, op.arg1) == Ok((n as bv16, s.regs)) && Lo(n as bv16) == n as bv8
    requires Store(Advance(s.regs, op.arg2), s.mem, op.arg2,
      SetBit(Lo(OperandValue(s.regs, s.mem, op.arg2)), n as bv8, value) as bv16) == Ok((r3, m3))
    ensures RunBitAccess(s, op, k) == Ok(s.(regs := r3, mem := m3))
  {
    var v := OperandValue(s.regs, s.mem, op.arg2);
    assert Load(s.regs, s.mem, op.arg2) == Ok((v, Advance(s.regs, op.arg2)));
  }

  /**
   * INC r, DEC r, the rotations, shifts and SWAP of a register: the register
   * gets the computed byte, F the computed flags, and memory, SP and PC stay.
   */
  lemma UnaryRegister(s: State, op: Instruction, k: UnaryKind)
    requires IsRegister8(op.arg1)
    ensures RunUnary(s, op, k).Ok?
    ensures var u := UnaryResult(k, Lo(OperandValue(s.regs, s.mem, op.arg1)), Flags(s.regs));
      var r := RunUnary(s, op, k).value;
      Lo(OperandValue(r.regs, r.mem, op.arg1)) == u.value && Flags(r.regs) == u.flags &&
      r.mem == s.mem && r.regs.sp == s.regs.sp && r.regs.pc == s.regs.pc
  {
    var u := UnaryResult(k, Lo(OperandValue(s.regs, s.mem, op.arg1)), Flags(s.regs));
    assert Advance(s.regs, op.arg1) == s.regs;
    var r1 := WithFlags(s.regs, u.flags);
    StoreRegister8(r1, s.mem, op.arg1, u.value as bv16);
    ByteWord(u.value);
    var (r2, m2) := Store(r1, s.mem, op.arg1, u.value as bv16).value;
    UnaryStore(s, op, k, r2, m2);
  }

  /** INC (HL), DEC (HL) and the CB-prefixed (HL) forms: the byte at HL is replaced; only F changes among the registers. */
  lemma UnaryIndirect(s: State, op: Instruction, k: UnaryKind)
    requires op.arg1 == IndHL
    ensures RunUnary(s, op, k).Ok?
    ensures var u := UnaryResult(k, Read(s.mem, HL(s.regs)), Flags(s.regs));
      var r := RunUnary(s, op, k).value;
      r.regs == WithFlags(s.regs, u.flags) && r.mem == Write(s.mem, HL(s.regs), u.value)
  {
    var b := Read(s.mem, HL(s.regs));
    assert OperandValue(s.regs, s.mem, op.arg1) == b as bv16;
    ByteWord(b);
    var u := UnaryResult(k, b, Flags(s.regs));
    var r1 := WithFlags(s.regs, u.flags);
    StoreIndirect(r1, s.mem, op.arg1, u.value as bv16);
    ByteWord(u.value);
    UnaryStore(s, op, k, r1, Write(s.mem, HL(s.regs), u.value));
  }

  /** A read-modify-write handler stores the computed byte back through its operand. */
  lemma UnaryStore(s: State, op: Instruction, k: UnaryKind, r2: Regs, m2: Memory)
    requires op.arg1 != NoArg
    requires var u := UnaryResult(k, Lo(OperandValue(s.regs, s.mem, op.arg1)), Flags(s.regs));
      Store(WithFlags(Advance(s.regs, op.arg1), u.flags), s.mem, op.arg1, u.value as bv16) == Ok((r2, m2))
    ensures RunUnary(s, op, k) == Ok(s.(regs := r2, mem := m2))
  {
    var v := OperandValue(s.regs, s.mem, op.arg1);
    assert Load(s.regs, s.mem, op.arg1) == Ok((v, Advance(s.regs, op.arg1)));
    assert Flags(Advance(s.regs, op.arg1)) == Flags(s.regs);
  }

  /** A bit index as a byte: its low byte as a word, and below 8. */
  lemma IndexByte(n: Index)
    ensures Lo(n as bv16) == n as bv8 && n as bv8 < 8
  {
  }

  // ---------------------------------------------------------------------
  // Handler results: what each handler leaves in the registers and memory

  /** A byte widened to a word and narrowed again is the same byte. */
  lemma ByteWord(b: bv8)
    ensures Lo(b as bv16) == b
  {
  }

  /** The 16-bit register operands of LD rr,d16, INC rr, DEC rr and ADD HL,rr. */
  predicate IsPair(arg: Arg)
  {
    arg.RegBC? || arg.RegDE? || arg.RegHL? || arg.RegSP?
  }

  /** The register pairs PUSH and POP move. */
  predicate IsStackPair(arg: Arg)
  {
    arg.RegAF? || arg.RegBC? || arg.RegDE? || arg.RegHL?
  }

  /**
   * The register results of the miscellaneous handlers: NOP, HALT, DI and
   * EI keep every register; CPL complements A and sets N and H; SCF sets C
   * and CCF flips it, both clearing N and H; DAA leaves the ALU's adjusted
   * value and flags.  Z is kept except by DAA, and memory is never written.
   */
  lemma MiscResult(s: State, k: MiscKind)
    ensures var r := RunMisc(s, k).regs; var fl := Flags(s.regs);
      r.(a := s.regs.a, f := s.regs.f) == s.regs &&
      r.f & 0x0F == s.regs.f & 0x0F &&
      (k.Nop? || k.Halt? || k.Di? || k.Ei? ==> r == s.regs) &&
      (k == Cpl ==> r.a == !s.regs.a && Flags(r) == Alu.Flags(fl.z, true, true, fl.c)) &&
      (k == Scf ==> r.a == s.regs.a && Flags(r) == Alu.Flags(fl.z, false, false, true)) &&
      (k == Ccf ==> r.a == s.regs.a && Flags(r) == Alu.Flags(fl.z, false, false, !fl.c)) &&
      (k == Daa ==> r.a == Alu.Daa(s.regs.a, fl).value && Flags(r) == Alu.Daa(s.regs.a, fl).flags)
  {
    match k
    case Nop =>
    case Halt =>
    case Di =>
    case Ei =>
    case Cpl =>
    case Scf =>
    case Ccf =>
    case Daa =>
  }

  /** The address an indirect operand given by registers points at. */
  function RegisterAddress(r: Regs, arg: Arg): bv16
  {
    match arg
    case IndC => HighPage(r.c)
    case IndBC => BC(r)
    case IndDE => DE(r)
    case _ => HL(r)
  }

  /** The indirect operands whose address is held in registers. */
  predicate IsRegisterIndirect(arg: Arg)
  {
    arg.IndC? || arg.IndBC? || arg.IndDE? || arg.IndHL? || arg.IndHLI? || arg.IndHLD?
  }

  /** Storing to an 8-bit register sets it to the low byte and keeps F, SP, PC and memory. */
  lemma StoreRegister8(r: Regs, m: Memory, arg: Arg, v: bv16)
    requires IsRegister8(arg)
    ensures Store(r, m, arg, v).Ok?
    ensures var (r', m') := Store(r, m, arg, v).value;
      Lo(OperandValue(r', m', arg)) == Lo(v) && m' == m &&
      r'.f == r.f && r'.sp == r.sp && r'.pc == r.pc &&
      (arg != RegH && arg != RegL ==> HL(r') == HL(r))
  {
    ByteWord(Lo(v));
  }

  /** Storing through a register-held address writes the low byte there; (HL+) and (HL-) then step HL. */
  lemma StoreIndirect(r: Regs, m: Memory, arg: Arg, v: bv16)
    requires IsRegisterIndirect(arg)
    ensures Store(r, m, arg, v) == Ok((Advance(r, arg), Write(m, RegisterAddress(r, arg), Lo(v))))
  {
    if arg.IndHLI? || arg.IndHLD? {
      StoreSteppingHL(r, m, arg, v);
    } else {
      StoreFixedAddress(r, m, arg, v);
    }
  }

  lemma StoreFixedAddress(r: Regs, m: Memory, arg: Arg, v: bv16)
    requires arg.IndC? || arg.IndBC? || arg.IndDE? || arg.IndHL?
    ensures Store(r, m, arg, v) == Ok((r, Write(m, RegisterAddress(r, arg), Lo(v))))
  {
    match arg
    case IndC =>
    case IndBC =>
    case IndDE =>
    case IndHL =>
  }

  lemma StoreSteppingHL(r: Regs, m: Memory, arg: Arg, v: bv16)
    requires arg.IndHLI? || arg.IndHLD?
    ensures Store(r, m, arg, v) == Ok((Advance(r, arg), Write(m, HL(r), Lo(v))))
  {
    if arg.IndHLI? {
      StoreIncrementingHL(r, m, v);
    } else {
      StoreDecrementingHL(r, m, v);
    }
  }

  lemma StoreIncrementingHL(r: Regs, m: Memory, v: bv16)
    ensures Store(r, m, IndHLI, v) == Ok((Advance(r, IndHLI), Write(m, HL(r), Lo(v))))
  {
  }

  lemma StoreDecrementingHL(r: Regs, m: Memory, v: bv16)
    ensures Store(r, m, IndHLD, v) == Ok((Advance(r, IndHLD), Write(m, HL(r), Lo(v))))
  {
  }

  /** Storing to a register pair sets the pair to the whole word and keeps A, F, PC and memory. */
  lemma StorePair(r: Regs, m: Memory, arg: Arg, v: bv16)
    requires IsPair(arg)
    ensures Store(r, m, arg, v).Ok?
    ensures var (r', m') := Store(r, m, arg, v).value;
      OperandValue(r', m', arg) == v && m' == m &&
      r'.a == r.a && r'.f == r.f && r'.pc == r.pc
  {
    PairHalves(v, 0, 0);
  }

  /** Storing through an immediate address writes the low byte there and steps PC past the address. */
  lemma StoreImmediateAddress(r: Regs, m: Memory, arg: Arg, v: bv16)
    requires arg == Ind8 || arg == Ind16
    ensures arg == Ind8 ==> Store(r, m, arg, v) == Ok((r.(pc := r.pc + 1), Write(m, HighPage(Read(m, r.pc)), Lo(v))))
    ensures arg == Ind16 ==> Store(r, m, arg, v) == Ok((r.(pc := r.pc + 2), Write(m, Read16(m, r.pc), Lo(v))))
  {
  }

  /** LD fetches its source and stores it to its destination. */
  lemma LoadThenStore(s: State, op: Instruction, wide: bool, v: bv16, r1: Regs, r2: Regs, m2: Memory)
    requires Load(s.regs, s.mem, op.arg2) == Ok((v, r1))
    requires Store(r1, s.mem, op.arg1, if wide then v else Lo(v) as bv16) == Ok((r2, m2))
    ensures LoadOp(s, op, wide) == Ok(s.(regs := r2, mem := m2))
  {
  }

  /**
   * LD r,x: the destination register receives the source's byte, F, SP and
   * memory are kept, and PC and HL move only as the source fetch moves them.
   */
  lemma LoadRegister(s: State, op: Instruction)
    requires IsRegister8(op.arg1) && op.arg2 != NoArg
    ensures LoadOp(s, op, false).Ok?
    ensures var r := LoadOp(s, op, false).value; var r1 := Advance(s.regs, op.arg2);
      Lo(OperandValue(r.regs, r.mem, op.arg1)) == Lo(OperandValue(s.regs, s.mem, op.arg2)) &&
      r.mem == s.mem && r.regs.f == s.regs.f && r.regs.sp == s.regs.sp && r.regs.pc == r1.pc &&
      (op.arg1 != RegH && op.arg1 != RegL ==> HL(r.regs) == HL(r1))
  {
    var v := OperandValue(s.regs, s.mem, op.arg2);
    var r1 := Advance(s.regs, op.arg2);
    assert Load(s.regs, s.mem, op.arg2) == Ok((v, r1));
    StoreRegister8(r1, s.mem, op.arg1, Lo(v) as bv16);
    ByteWord(Lo(v));
  }

  /**
   * LD (rr),r, LD (HL),d8, LD (HL+),A, LD (HL-),A and LD (C),A: the byte of
   * the source is written at the address the registers give, and the only
   * register changes are the two operand fetches' moves of PC and HL.
   */
  lemma LoadIndirect(s: State, op: Instruction)
    requires IsRegisterIndirect(op.arg1) && (IsRegister8(op.arg2) || op.arg2 == Imm8)
    ensures LoadOp(s, op, false).Ok?
    ensures var r := LoadOp(s, op, false).value;
      r.mem == Write(s.mem, RegisterAddress(s.regs, op.arg1), Lo(OperandValue(s.regs, s.mem, op.arg2))) &&
      r.regs == Advance(Advance(s.regs, op.arg2), op.arg1)
  {
    var v := OperandValue(s.regs, s.mem, op.arg2);
    var r1 := Advance(s.regs, op.arg2);
    assert Load(s.regs, s.mem, op.arg2) == Ok((v, r1));
    assert RegisterAddress(r1, op.arg1) == RegisterAddress(s.regs, op.arg1);
    StoreIndirect(r1, s.mem, op.arg1, Lo(v) as bv16);
    ByteWord(Lo(v));
    LoadThenStore(s, op, false, v, r1, Advance(r1, op.arg1), Write(s.mem, RegisterAddress(s.regs, op.arg1), Lo(v)));
  }

  /** LDH (a8),A: A is written in the high page at the immediate offset, and PC steps past it. */
  lemma LoadHighPage(s: State, op: Instruction)
    requires op.arg1 == Ind8 && op.arg2 == RegA
    ensures LoadOp(s, op, false) ==
      Ok(s.(regs := s.regs.(pc := s.regs.pc + 1), mem := Write(s.mem, HighPage(Read(s.mem, s.regs.pc)), s.regs.a)))
  {
    var v := s.regs.a as bv16;
    assert Load(s.regs, s.mem, RegA) == Ok((v, s.regs));
    ByteWord(s.regs.a);
    HighPageStore(s.regs, s.mem, v);
    LoadThenStore(s, op, false, v, s.regs, s.regs.(pc := s.regs.pc + 1), Write(s.mem, HighPage(Read(s.mem, s.regs.pc)), s.regs.a));
  }

  lemma HighPageStore(r: Regs, m: Memory, v: bv16)
    ensures Store(r, m, Ind8, v) == Ok((r.(pc := r.pc + 1), Write(m, HighPage(Read(m, r.pc)), Lo(v))))
  {
  }

  /** LD (a16),A: A is written at the immediate address, and PC steps past it. */
  lemma LoadAbsolute(s: State, op: Instruction)
    requires op.arg1 == Ind16 && op.arg2 == RegA
    ensures LoadOp(s, op, false) ==
      Ok(s.(regs := s.regs.(pc := s.regs.pc + 2), mem := Write(s.mem, Read16(s.mem, s.regs.pc), s.regs.a)))
  {
    var v := s.regs.a as bv16;
    assert Load(s.regs, s.mem, RegA) == Ok((v, s.regs));
    ByteWord(s.regs.a);
    StoreImmediateAddress(s.regs, s.mem, op.arg1, v);
    LoadThenStore(s, op, false, v, s.regs, s.regs.(pc := s.regs.pc + 2), Write(s.mem, Read16(s.mem, s.regs.pc), s.regs.a));
  }

  /**
   * LD rr,d16 and LD SP,HL: the pair receives the 16-bit source, A, F and
   * memory are kept, and PC moves past an immediate.
   */
  lemma LoadPair(s: State, op: Instruction)
    requires IsPair(op.arg1) && (op.arg2 == Imm16 || op.arg2 == RegHL)
    ensures LoadOp(s, op, true).Ok?
    ensures var r := LoadOp(s, op, true).value;
      OperandValue(r.regs, r.mem, op.arg1) == OperandValue(s.regs, s.mem, op.arg2) &&
      r.mem == s.mem && r.regs.a == s.regs.a && r.regs.f == s.regs.f &&
      r.regs.pc == (if op.arg2 == Imm16 then s.regs.pc + 2 else s.regs.pc)
  {
    var v := OperandValue(s.regs, s.mem, op.arg2);
    var r1 := Advance(s.regs, op.arg2);
    assert Load(s.regs, s.mem, op.arg2) == Ok((v, r1));
    StorePair(r1, s.mem, op.arg1, v);
  }

  /**
   * ADD SP,e8 and LD HL,SP+e8: the sum of SP and the sign-extended offset
   * goes to SP or to HL, F takes the ALU's flags, A and memory are kept,
   * and PC steps past the offset; LD HL,SP+e8 keeps SP.
   */
  lemma AddSpResult(s: State, op: Instruction, toHL: bool)
    requires op.arg1 == Imm8
    ensures AddSpOp(s, op, toHL).Ok?
    ensures var r := AddSpOp(s, op, toHL).value.regs;
      var res := Alu.AddSigned(s.regs.sp, Read(s.mem, s.regs.pc));
      Flags(r) == res.flags && r.a == s.regs.a && r.pc == s.regs.pc + 1 &&
      (toHL ==> HL(r) == res.value && r.sp == s.regs.sp) &&
      (!toHL ==> r.sp == res.value && HL(r) == HL(s.regs))
  {
    var b := Read(s.mem, s.regs.pc);
    assert Load(s.regs, s.mem, Imm8) == Ok((b as bv16, s.regs.(pc := s.regs.pc + 1)));
    ByteWord(b);
  }

  /**
   * ADD HL,rr: HL receives the ALU's 16-bit sum of HL and the pair, F its
   * flags, and A, SP, PC and memory are kept.
   */
  lemma AddHlResult(s: State, op: Instruction)
    requires IsPair(op.arg1)
    ensures AddHlOp(s, op).Ok?
    ensures var r := AddHlOp(s, op).value.regs;
      var res := Alu.AddHl(HL(s.regs), OperandValue(s.regs, s.mem, op.arg1), Flags(s.regs));
      HL(r) == res.value && Flags(r) == res.flags &&
      r.a == s.regs.a && r.sp == s.regs.sp && r.pc == s.regs.pc
  {
    assert Load(s.regs, s.mem, op.arg1) == Ok((OperandValue(s.regs, s.mem, op.arg1), s.regs));
  }

  /** INC rr: the pair rises by one, wrapping at 16 bits; A, F, PC and memory are kept. */
  lemma Inc16Result(s: State, op: Instruction)
    requires IsPair(op.arg1)
    ensures Step16(s, op, 1).Ok?
    ensures var r := Step16(s, op, 1).value.regs;
      (op.arg1 == RegBC ==> BC(r) == BC(s.regs) + 1) &&
      (op.arg1 == RegDE ==> DE(r) == DE(s.regs) + 1) &&
      (op.arg1 == RegHL ==> HL(r) == HL(s.regs) + 1) &&
      (op.arg1 == RegSP ==> r.sp == s.regs.sp + 1)
    ensures var r := Step16(s, op, 1).value;
      r.mem == s.mem && r.regs.a == s.regs.a && r.regs.f == s.regs.f && r.regs.pc == s.regs.pc
  {
    Step16Keeps(s, op, 1);
    match op.arg1
    case RegBC => Step16BC(s, op, 1);
    case RegDE => Step16DE(s, op, 1);
    case RegHL => Step16HL(s, op, 1);
    case RegSP => IncSP(s, op);
  }

  /** DEC rr: the pair drops by one, wrapping at 16 bits; A, F, PC and memory are kept. */
  lemma Dec16Result(s: State, op: Instruction)
    requires IsPair(op.arg1)
    ensures Step16(s, op, 0xFFFF).Ok?
    ensures var r := Step16(s, op, 0xFFFF).value.regs;
      (op.arg1 == RegBC ==> BC(r) == BC(s.regs) - 1) &&
      (op.arg1 == RegDE ==> DE(r) == DE(s.regs) - 1) &&
      (op.arg1 == RegHL ==> HL(r) == HL(s.regs) - 1) &&
      (op.arg1 == RegSP ==> r.sp == s.regs.sp - 1)
    ensures var r := Step16(s, op, 0xFFFF).value;
      r.mem == s.mem && r.regs.a == s.regs.a && r.regs.f == s.regs.f && r.regs.pc == s.regs.pc
  {
    Step16Keeps(s, op, 0xFFFF);
    match op.arg1
    case RegBC => Step16BC(s, op, 0xFFFF);
    case RegDE => Step16DE(s, op, 0xFFFF);
    case RegHL => Step16HL(s, op, 0xFFFF);
    case RegSP => DecSP(s, op);
  }

  lemma Step16Keeps(s: State, op: Instruction, delta: bv16)
    requires IsPair(op.arg1)
    ensures Step16(s, op, delta).Ok?
    ensures var r := Step16(s, op, delta).value;
      r.mem == s.mem && r.regs.a == s.regs.a && r.regs.f == s.regs.f && r.regs.pc == s.regs.pc
  {
    match op.arg1
    case RegBC => assert OperandValue(s.regs, s.mem, op.arg1) == BC(s.regs);
    case RegDE => assert OperandValue(s.regs, s.mem, op.arg1) == DE(s.regs);
    case RegHL => assert OperandValue(s.regs, s.mem, op.arg1) == HL(s.regs);
    case RegSP => assert OperandValue(s.regs, s.mem, op.arg1) == s.regs.sp;
  }

  lemma Step16BC(s: State, op: Instruction, delta: bv16)
    requires op.arg1 == RegBC
    ensures Step16(s, op, delta).Ok?
    ensures BC(Step16(s, op, delta).value.regs) == BC(s.regs) + delta
  {
    var x := Add16(BC(s.regs), delta);
    PairLoad(s, op);
    PairStore(s.regs, s.mem, op.arg1, x);
    Step16Store(s, op, delta, BC(s.regs), s.regs, WithBC(s.regs, x), s.mem);
  }

  lemma Step16DE(s: State, op: Instruction, delta: bv16)
    requires op.arg1 == RegDE
    ensures Step16(s, op, delta).Ok?
    ensures DE(Step16(s, op, delta).value.regs) == DE(s.regs) + delta
  {
    var x := Add16(DE(s.regs), delta);
    PairLoad(s, op);
    PairStore(s.regs, s.mem, op.arg1, x);
    Step16Store(s, op, delta, DE(s.regs), s.regs, WithDE(s.regs, x), s.mem);
  }

  lemma Step16HL(s: State, op: Instruction, delta: bv16)
    requires op.arg1 == RegHL
    ensures Step16(s, op, delta).Ok?
    ensures HL(Step16(s, op, delta).value.regs) == HL(s.regs) + delta
  {
    var x := Add16(HL(s.regs), delta);
    PairLoad(s, op);
    PairStore(s.regs, s.mem, op.arg1, x);
    Step16Store(s, op, delta, HL(s.regs), s.regs, WithHL(s.regs, x), s.mem);
  }

  /** Fetching a register pair gives its value and moves nothing. */
  lemma PairLoad(s: State, op: Instruction)
    requires IsPair(op.arg1)
    ensures Load(s.regs, s.mem, op.arg1) == Ok((OperandValue(s.regs, s.mem, op.arg1), s.regs))
    ensures op.arg1 == RegBC ==> OperandValue(s.regs, s.mem, op.arg1) == BC(s.regs)
    ensures op.arg1 == RegDE ==> OperandValue(s.regs, s.mem, op.arg1) == DE(s.regs)
    ensures op.arg1 == RegHL ==> OperandValue(s.regs, s.mem, op.arg1) == HL(s.regs)
  {
  }

  /** Storing a word to BC, DE or HL sets that pair and touches nothing else. */
  lemma PairStore(r: Regs, m: Memory, arg: Arg, v: bv16)
    requires arg == RegBC || arg == RegDE || arg == RegHL
    ensures arg == RegBC ==> Store(r, m, arg, v) == Ok((WithBC(r, v), m))
    ensures arg == RegDE ==> Store(r, m, arg, v) == Ok((WithDE(r, v), m))
    ensures arg == RegHL ==> Store(r, m, arg, v) == Ok((WithHL(r, v), m))
  {
  }

  /** INC rr and DEC rr fetch the pair and store it back moved by `delta`. */
  lemma Step16Store(s: State, op: Instruction, delta: bv16, v: bv16, r1: Regs, r2: Regs, m2: Memory)
    requires Load(s.regs, s.mem, op.arg1) == Ok((v, r1))
    requires Store(r1, s.mem, op.arg1, Add16(v, delta)) == Ok((r2, m2))
    ensures Step16(s, op, delta) == Ok(s.(regs := r2, mem := m2))
  {
  }

  lemma IncSP(s: State, op: Instruction)
    requires op.arg1 == RegSP
    ensures Step16(s, op, 1).Ok?
    ensures Step16(s, op, 1).value.regs.sp == s.regs.sp + 1
  {
  }

  lemma DecSP(s: State, op: Instruction)
    requires op.arg1 == RegSP
    ensures Step16(s, op, 0xFFFF).Ok?
    ensures Step16(s, op, 0xFFFF).value.regs.sp == s.regs.sp - 1
  {
  }

  /**
   * CALL a16 and RST n: PC becomes the target, and the address of the next
   * instruction (past the immediate for CALL) is pushed; the other
   * registers are kept.
   */
  lemma CallResult(s: State, op: Instruction)
    requires op.arg1 == Imm16 || op.arg1.RstN?
    ensures CallTo(s, op).Ok?
    ensures var r := CallTo(s, op).value;
      var ret := if op.arg1 == Imm16 then s.regs.pc + 2 else s.regs.pc;
      var target := if op.arg1 == Imm16 then Read16(s.mem, s.regs.pc) else ResetAddr(op.arg1.n);
      r.regs == s.regs.(sp := s.regs.sp - 2, pc := target) && Read16(r.mem, r.regs.sp) == ret &&
      r.mem == Write16(s.mem, s.regs.sp - 2, ret)
  {
    assert Load(s.regs, s.mem, op.arg1) == Ok((OperandValue(s.regs, s.mem, op.arg1), Advance(s.regs, op.arg1)));
  }

  /** PUSH rr: SP drops by two and the pair is stored there; no other register changes. */
  lemma PushResult(s: State, op: Instruction)
    requires IsStackPair(op.arg1)
    ensures RunFlow(s, op, Push16).Ok?
    ensures var r := RunFlow(s, op, Push16).value;
      r.regs == s.regs.(sp := s.regs.sp - 2) && Read16(r.mem, r.regs.sp) == OperandValue(s.regs, s.mem, op.arg1) &&
      r.mem == Write16(s.mem, s.regs.sp - 2, OperandValue(s.regs, s.mem, op.arg1))
  {
    assert Load(s.regs, s.mem, op.arg1) == Ok((OperandValue(s.regs, s.mem, op.arg1), s.regs));
  }

  /** Storing to a stack pair sets the pair to the whole word except F's low nibble, and keeps SP, PC and memory. */
  lemma StoreStackPair(r: Regs, m: Memory, arg: Arg, v: bv16)
    requires IsStackPair(arg)
    ensures Store(r, m, arg, v).Ok?
    ensures var (r', m') := Store(r, m, arg, v).value;
      OperandValue(r', m', arg) == v && m' == m && r'.sp == r.sp && r'.pc == r.pc
  {
    PairHalves(v, 0, 0);
  }

  /**
   * POP rr: the pair receives the word at SP (POP AF with F's low nibble
   * cleared), SP rises by two, and PC and memory are kept.
   */
  lemma PopResult(s: State, op: Instruction)
    requires IsStackPair(op.arg1)
    ensures PopOp(s, op).Ok?
    ensures var r := PopOp(s, op).value;
      OperandValue(r.regs, r.mem, op.arg1) == PopValue(op.arg1, Read16(s.mem, s.regs.sp)) &&
      r.regs.sp == s.regs.sp + 2 && r.regs.pc == s.regs.pc && r.mem == s.mem
  {
    var r1 := s.regs.(sp := s.regs.sp + 2);
    var v := PopValue(op.arg1, Read16(s.mem, s.regs.sp));
    StoreStackPair(r1, s.mem, op.arg1, v);
    var (r2, m2) := Store(r1, s.mem, op.arg1, v).value;
    PopThenStore(s, op, r2, m2);
  }

  /** POP stores the word it pops, adjusted for AF, to its operand. */
  lemma PopThenStore(s: State, op: Instruction, r2: Regs, m2: Memory)
    requires Store(s.regs.(sp := s.regs.sp + 2), s.mem, op.arg1, PopValue(op.arg1, Read16(s.mem, s.regs.sp))) == Ok((r2, m2))
    ensures PopOp(s, op) == Ok(s.(regs := r2, mem := m2))
  {
  }

  /** JP a16 and JP HL: PC becomes the target; nothing else changes. */
  lemma JumpResult(s: State, op: Instruction)
    requires op.arg1 == Imm16 || op.arg1 == RegHL
    ensures RunFlow(s, op, Jp16) == Ok(s.(regs := s.regs.(pc := OperandValue(s.regs, s.mem, op.arg1))))
  {
    assert Load(s.regs, s.mem, op.arg1) == Ok((OperandValue(s.regs, s.mem, op.arg1), Advance(s.regs, op.arg1)));
  }

  /** JR e8: PC moves by the sign-extended offset from the end of the instruction; nothing else changes. */
  lemma RelativeJumpResult(s: State, op: Instruction)
    requires op.arg1 == Imm8
    ensures RunFlow(s, op, Jr8).Ok?
    ensures var r := RunFlow(s, op, Jr8).value;
      r.regs == s.regs.(pc := RelativeTarget(s.regs.pc + 1, Read(s.mem, s.regs.pc))) && r.mem == s.mem
  {
    ByteWord(Read(s.mem, s.regs.pc));
  }

  /** RET and RETI: PC becomes the word at SP and SP rises by two; no other register or memory changes. */
  lemma ReturnResult(s: State, op: Instruction, k: FlowKind)
    requires k == Ret || k == Reti
    ensures RunFlow(s, op, k).Ok?
    ensures var r := RunFlow(s, op, k).value;
      r.regs == s.regs.(pc := Read16(s.mem, s.regs.sp), sp := s.regs.sp + 2) && r.mem == s.mem
  {
  }

  /** The condition operands: the Z flag and the C flag. */
  predicate IsCondition(arg: Arg)
  {
    arg == FlagZero || arg == FlagCarry
  }

  /** A conditional branch is taken when its flag is set, or, for the NZ and NC forms, when it is clear. */
  lemma ConditionTaken(s: State, op: Instruction, negated: bool)
    requires IsCondition(op.arg1)
    ensures BranchTaken(s, op, negated) <==>
      (if op.arg1 == FlagZero then Flags(s.regs).z else Flags(s.regs).c) != negated
  {
  }

  /** JP cc,a16: PC becomes the address when the branch is taken and moves past it otherwise. */
  lemma JumpIfResult(s: State, op: Instruction, negated: bool)
    requires IsCondition(op.arg1) && op.arg2 == Imm16
    ensures RunConditional(s, op, JumpIf, negated).Ok?
    ensures var r := RunConditional(s, op, JumpIf, negated).value;
      r.regs == s.regs.(pc := if BranchTaken(s, op, negated) then Read16(s.mem, s.regs.pc) else s.regs.pc + 2) &&
      r.mem == s.mem
  {
    ConditionLoad(s, op);
    if BranchTaken(s, op, negated) {
      JumpIfTaken(s, op, negated);
    } else {
      BranchSkipped(s, op, JumpIf, negated);
    }
  }

  lemma JumpIfTaken(s: State, op: Instruction, negated: bool)
    requires IsCondition(op.arg1) && op.arg2 == Imm16 && BranchTaken(s, op, negated)
    requires Load(s.regs, s.mem, op.arg1) == Ok((OperandValue(s.regs, s.mem, op.arg1), s.regs))
    ensures RunConditional(s, op, JumpIf, negated) ==
      Ok(State(s.regs.(pc := Read16(s.mem, s.regs.pc)), AddStep(s.ctrl, 1), s.mem))
  {
    assert Load(s.regs, s.mem, op.arg2) == Ok((Read16(s.mem, s.regs.pc), s.regs.(pc := s.regs.pc + 2)));
  }

  /** A conditional JP, JR or CALL not taken only fetches its target operand. */
  lemma BranchSkipped(s: State, op: Instruction, k: BranchKind, negated: bool)
    requires k != ReturnIf && IsCondition(op.arg1) && op.arg2 != NoArg && !BranchTaken(s, op, negated)
    requires Load(s.regs, s.mem, op.arg1) == Ok((OperandValue(s.regs, s.mem, op.arg1), s.regs))
    ensures RunConditional(s, op, k, negated) == Ok(s.(regs := Advance(s.regs, op.arg2)))
  {
    assert Load(s.regs, s.mem, op.arg2) == Ok((OperandValue(s.regs, s.mem, op.arg2), Advance(s.regs, op.arg2)));
  }

  /** JR cc,e8: PC jumps relative to the end of the instruction when taken and moves past it otherwise. */
  lemma RelativeIfResult(s: State, op: Instruction, negated: bool)
    requires IsCondition(op.arg1) && op.arg2 == Imm8
    ensures RunConditional(s, op, RelativeIf, negated).Ok?
    ensures var r := RunConditional(s, op, RelativeIf, negated).value;
      r.regs == s.regs.(pc := if BranchTaken(s, op, negated)
        then RelativeTarget(s.regs.pc + 1, Read(s.mem, s.regs.pc)) else s.regs.pc + 1) &&
      r.mem == s.mem
  {
    ConditionLoad(s, op);
    if BranchTaken(s, op, negated) {
      RelativeIfTaken(s, op, negated);
    } else {
      BranchSkipped(s, op, RelativeIf, negated);
    }
  }

  lemma RelativeIfTaken(s: State, op: Instruction, negated: bool)
    requires IsCondition(op.arg1) && op.arg2 == Imm8 && BranchTaken(s, op, negated)
    requires Load(s.regs, s.mem, op.arg1) == Ok((OperandValue(s.regs, s.mem, op.arg1), s.regs))
    ensures RunConditional(s, op, RelativeIf, negated) ==
      Ok(State(s.regs.(pc := RelativeTarget(s.regs.pc + 1, Read(s.mem, s.regs.pc))), AddStep(s.ctrl, 1), s.mem))
  {
    var b := Read(s.mem, s.regs.pc);
    assert Load(s.regs, s.mem, op.arg2) == Ok((b as bv16, s.regs.(pc := s.regs.pc + 1)));
    ByteWord(b);
  }

  /**
   * CALL cc,a16: when taken, the address after the instruction is pushed and
   * PC becomes the target; otherwise PC moves past the instruction and
   * nothing else changes.
   */
  lemma CallIfResult(s: State, op: Instruction, negated: bool)
    requires IsCondition(op.arg1) && op.arg2 == Imm16
    ensures RunConditional(s, op, CallIf, negated).Ok?
    ensures var r := RunConditional(s, op, CallIf, negated).value;
      if BranchTaken(s, op, negated) then
        r.regs == s.regs.(sp := s.regs.sp - 2, pc := Read16(s.mem, s.regs.pc)) &&
        Read16(r.mem, r.regs.sp) == s.regs.pc + 2 &&
        r.mem == Write16(s.mem, s.regs.sp - 2, s.regs.pc + 2)
      else
        r.regs == s.regs.(pc := s.regs.pc + 2) && r.mem == s.mem
  {
    ConditionLoad(s, op);
    if BranchTaken(s, op, negated) {
      CallIfTaken(s, op, negated);
    } else {
      BranchSkipped(s, op, CallIf, negated);
    }
  }

  lemma CallIfTaken(s: State, op: Instruction, negated: bool)
    requires IsCondition(op.arg1) && op.arg2 == Imm16 && BranchTaken(s, op, negated)
    requires Load(s.regs, s.mem, op.arg1) == Ok((OperandValue(s.regs, s.mem, op.arg1), s.regs))
    ensures var (r3, m3) := Push(s.regs.(pc := s.regs.pc + 2), s.mem, s.regs.pc + 2);
      RunConditional(s, op, CallIf, negated) ==
      Ok(State(r3.(pc := Read16(s.mem, s.regs.pc)), AddStep(s.ctrl, 3), m3))
  {
    assert Load(s.regs, s.mem, op.arg2) == Ok((Read16(s.mem, s.regs.pc), s.regs.(pc := s.regs.pc + 2)));
  }

  /** RET cc: when taken, PC is popped from the stack; otherwise nothing changes. */
  lemma ReturnIfResult(s: State, op: Instruction, negated: bool)
    requires IsCondition(op.arg1)
    ensures RunConditional(s, op, ReturnIf, negated).Ok?
    ensures var r := RunConditional(s, op, ReturnIf, negated).value;
      r.regs == (if BranchTaken(s, op, negated)
        then s.regs.(pc := Read16(s.mem, s.regs.sp), sp := s.regs.sp + 2) else s.regs) &&
      r.mem == s.mem
  {
    ConditionLoad(s, op);
    if BranchTaken(s, op, negated) {
      ReturnIfTaken(s, op, negated);
    } else {
      ReturnIfSkipped(s, op, negated);
    }
  }

  lemma ReturnIfTaken(s: State, op: Instruction, negated: bool)
    requires IsCondition(op.arg1) && BranchTaken(s, op, negated)
    requires Load(s.regs, s.mem, op.arg1) == Ok((OperandValue(s.regs, s.mem, op.arg1), s.regs))
    ensures RunConditional(s, op, ReturnIf, negated) ==
      Ok(State(s.regs.(pc := Read16(s.mem, s.regs.sp), sp := s.regs.sp + 2), AddStep(s.ctrl, 3), s.mem))
  {
  }

  lemma ReturnIfSkipped(s: State, op: Instruction, negated: bool)
    requires IsCondition(op.arg1) && !BranchTaken(s, op, negated)
    requires Load(s.regs, s.mem, op.arg1) == Ok((OperandValue(s.regs, s.mem, op.arg1), s.regs))
    ensures RunConditional(s, op, ReturnIf, negated) == Ok(s)
  {
  }

  /** Fetching a condition operand reads a flag and moves nothing. */
  lemma ConditionLoad(s: State, op: Instruction)
    requires IsCondition(op.arg1)
    ensures Load(s.regs, s.mem, op.arg1) == Ok((OperandValue(s.regs, s.mem, op.arg1), s.regs))
  {
  }

  /** The register file and control fields after reset; memory is not touched. */
  const InitialRegs := Regs(0x01, 0xB0, 0x00, 0x13, 0x00, 0xD8, 0x01, 0x4D, 0xFFFE, 0x0000)
  const InitialControl := Control(0, -1, false, 0, 0)

  lemma InitialValues()
    ensures AF(InitialRegs) == 0x01B0 && BC(InitialRegs) == 0x0013
    ensures DE(InitialRegs) == 0x00D8 && HL(InitialRegs) == 0x014D
    ensures InitialRegs.sp == 0xFFFE && InitialRegs.pc == 0
  {
  }
}
