/**
 * The two 256-entry instruction tables of the CPU as data: the main table,
 * indexed by the first opcode byte, and the table of instructions behind the
 * 0xCB prefix.  Each entry names its two operands, its handler, its base cost
 * in machine cycles; the disassembler's text templates are kept apart.
 */
module Opcodes {
  import opened Wrappers

  /** Bit numbers and restart-vector numbers, 0 to 7. */
  type Index = n: int | 0 <= n < 8

  /** The operand kinds an instruction names. */
  datatype Arg =
    | NoArg
    | BitN(n: Index)
    | RstN(n: Index)
    | Imm8 | Imm16
    | RegA | RegB | RegC | RegD | RegE | RegH | RegL
    | RegAF | RegBC | RegDE | RegHL | RegSP
    | IndC | IndBC | IndDE | IndHL | IndHLI | IndHLD | Ind8 | Ind16
    | FlagCarry | FlagZero

  /** The handlers that only read and write A, F and the interrupt and halt state. */
  datatype MiscKind = Nop | Halt | Daa | Cpl | Scf | Ccf | Di | Ei

  /** The loads and the 16-bit arithmetic. */
  datatype TransferKind = Ld8 | Ld16 | Ld16Sp | LdHlSp | AddSp | AddHl | Inc16 | Dec16

  /** The unconditional jumps, calls and returns, PUSH and POP. */
  datatype FlowKind = Jp16 | Jr8 | Push16 | Pop16 | Call | Rst | Ret | Reti

  /** BIT, SET and RES of the 0xCB table. */
  datatype BitKind = Bit | Set | Res

  /** The 8-bit read-modify-write handlers: INC, DEC, the rotations, shifts and SWAP. */
  datatype UnaryKind = Inc8 | Dec8 | Rlc | Rlca | Rl | Rla | Rrc | Rrca | Rr | Rra | Sla | Sra | Srl | Swap

  /** The handlers that combine A with an operand. */
  datatype AluKind = AddA | Adc8 | Sub8 | Sbc8 | Cp8 | And8 | Xor8 | Or8

  /** The conditional JP, JR, CALL and RET. */
  datatype BranchKind = JumpIf | RelativeIf | CallIf | ReturnIf

  /**
   * The instruction handlers, one per routine in the processor core, grouped
   * by kind.  A conditional handler acts when its flag is set, or, when
   * `negated` (the `_ifn` routines), when it is clear.
   */
  datatype Handler =
    | Misc(misc: MiscKind)
    | Transfer(transfer: TransferKind)
    | Flow(flow: FlowKind)
    | BitAccess(bit: BitKind)
    | Unary(unary: UnaryKind)
    | Accumulator(alu: AluKind)
    | Conditional(branch: BranchKind, negated: bool)

  /** One table entry; a missing entry has no handler. */
  datatype Instruction = Instruction(
    opcode: bv8,
    cycles: nat,
    arg1: Arg,
    arg2: Arg,
    handler: Option<Handler>)

  /** The zero-initialised entry that an opcode missing from the main table gets. */
  const Missing := Instruction(0x00, 0, NoArg, NoArg, None)

  /** The opcodes the main table leaves out: STOP, the 0xCB prefix itself and the eleven undefined opcodes. */
  const MissingOpcodes: set<bv8> :=
    {0x10, 0xCB, 0xD3, 0xDB, 0xDD, 0xE3, 0xE4, 0xEB, 0xEC, 0xED, 0xF4, 0xFC, 0xFD}

  /** The main instruction table, one row of sixteen opcodes per value of the high nibble. */
  function MainTable(x: bv8): Instruction
  {
    var lo := x & 0x0F;
    match x >> 4
    case 0x0 => MainRow0(lo)
    case 0x1 => MainRow1(lo)
    case 0x2 => MainRow2(lo)
    case 0x3 => MainRow3(lo)
    case 0x4 => MainRow4(lo)
    case 0x5 => MainRow5(lo)
    case 0x6 => MainRow6(lo)
    case 0x7 => MainRow7(lo)
    case 0x8 => MainRow8(lo)
    case 0x9 => MainRow9(lo)
    case 0xA => MainRowA(lo)
    case 0xB => MainRowB(lo)
    case 0xC => MainRowC(lo)
    case 0xD => MainRowD(lo)
    case 0xE => MainRowE(lo)
    case _ => MainRowF(lo)
  }

  function MainRow0(lo: bv8): Instruction
  {
    match lo
    case 0x0 => Instruction(0x00, 1, NoArg, NoArg, Some(Misc(Nop)))
    case 0x1 => Instruction(0x01, 3, RegBC, Imm16, Some(Transfer(Ld16)))
    case 0x2 => Instruction(0x02, 2, IndBC, RegA, Some(Transfer(Ld8)))
    case 0x3 => Instruction(0x03, 2, RegBC, NoArg, Some(Transfer(Inc16)))
    case 0x4 => Instruction(0x04, 1, RegB, NoArg, Some(Unary(Inc8)))
    case 0x5 => Instruction(0x05, 1, RegB, NoArg, Some(Unary(Dec8)))
    case 0x6 => Instruction(0x06, 2, RegB, Imm8, Some(Transfer(Ld8)))
    case 0x7 => Instruction(0x07, 1, RegA, NoArg, Some(Unary(Rlca)))
    case 0x8 => Instruction(0x08, 5, NoArg, NoArg, Some(Transfer(Ld16Sp)))
    case 0x9 => Instruction(0x09, 2, RegBC, NoArg, Some(Transfer(AddHl)))
    case 0xA => Instruction(0x0A, 2, RegA, IndBC, Some(Transfer(Ld8)))
    case 0xB => Instruction(0x0B, 2, RegBC, NoArg, Some(Transfer(Dec16)))
    case 0xC => Instruction(0x0C, 1, RegC, NoArg, Some(Unary(Inc8)))
    case 0xD => Instruction(0x0D, 1, RegC, NoArg, Some(Unary(Dec8)))
    case 0xE => Instruction(0x0E, 2, RegC, Imm8, Some(Transfer(Ld8)))
    case 0xF => Instruction(0x0F, 1, RegA, NoArg, Some(Unary(Rrca)))
    case _ => Missing
  }

  function MainRow1(lo: bv8): Instruction
  {
    match lo
    case 0x1 => Instruction(0x11, 3, RegDE, Imm16, Some(Transfer(Ld16)))
    case 0x2 => Instruction(0x12, 2, IndDE, RegA, Some(Transfer(Ld8)))
    case 0x3 => Instruction(0x13, 2, RegDE, NoArg, Some(Transfer(Inc16)))
    case 0x4 => Instruction(0x14, 1, RegD, NoArg, Some(Unary(Inc8)))
    case 0x5 => Instruction(0x15, 1, RegD, NoArg, Some(Unary(Dec8)))
    case 0x6 => Instruction(0x16, 2, RegD, Imm8, Some(Transfer(Ld8)))
    case 0x7 => Instruction(0x17, 1, RegA, NoArg, Some(Unary(Rla)))
    case 0x8 => Instruction(0x18, 2, Imm8, NoArg, Some(Flow(Jr8)))
    case 0x9 => Instruction(0x19, 2, RegDE, NoArg, Some(Transfer(AddHl)))
    case 0xA => Instruction(0x1A, 2, RegA, IndDE, Some(Transfer(Ld8)))
    case 0xB => Instruction(0x1B, 2, RegDE, NoArg, Some(Transfer(Dec16)))
    case 0xC => Instruction(0x1C, 1, RegE, NoArg, Some(Unary(Inc8)))
    case 0xD => Instruction(0x1D, 1, RegE, NoArg, Some(Unary(Dec8)))
    case 0xE => Instruction(0x1E, 2, RegE, Imm8, Some(Transfer(Ld8)))
    case 0xF => Instruction(0x1F, 1, RegA, NoArg, Some(Unary(Rra)))
    case _ => Missing
  }

  function MainRow2(lo: bv8): Instruction
  {
    match lo
    case 0x0 => Instruction(0x20, 2, FlagZero, Imm8, Some(Conditional(RelativeIf, true)))
    case 0x1 => Instruction(0x21, 3, RegHL, Imm16, Some(Transfer(Ld16)))
    case 0x2 => Instruction(0x22, 2, IndHLI, RegA, Some(Transfer(Ld8)))
    case 0x3 => Instruction(0x23, 2, RegHL, NoArg, Some(Transfer(Inc16)))
    case 0x4 => Instruction(0x24, 1, RegH, NoArg, Some(Unary(Inc8)))
    case 0x5 => Instruction(0x25, 1, RegH, NoArg, Some(Unary(Dec8)))
    case 0x6 => Instruction(0x26, 2, RegH, Imm8, Some(Transfer(Ld8)))
    case 0x7 => Instruction(0x27, 1, NoArg, NoArg, Some(Misc(Daa)))
    case 0x8 => Instruction(0x28, 2, FlagZero, Imm8, Some(Conditional(RelativeIf, false)))
    case 0x9 => Instruction(0x29, 2, RegHL, NoArg, Some(Transfer(AddHl)))
    case 0xA => Instruction(0x2A, 2, RegA, IndHLI, Some(Transfer(Ld8)))
    case 0xB => Instruction(0x2B, 2, RegHL, NoArg, Some(Transfer(Dec16)))
    case 0xC => Instruction(0x2C, 1, RegL, NoArg, Some(Unary(Inc8)))
    case 0xD => Instruction(0x2D, 1, RegL, NoArg, Some(Unary(Dec8)))
    case 0xE => Instruction(0x2E, 2, RegL, Imm8, Some(Transfer(Ld8)))
    case 0xF => Instruction(0x2F, 1, NoArg, NoArg, Some(Misc(Cpl)))
    case _ => Missing
  }

  function MainRow3(lo: bv8): Instruction
  {
    match lo
    case 0x0 => Instruction(0x30, 2, FlagCarry, Imm8, Some(Conditional(RelativeIf, true)))
    case 0x1 => Instruction(0x31, 3, RegSP, Imm16, Some(Transfer(Ld16)))
    case 0x2 => Instruction(0x32, 2, IndHLD, RegA, Some(Transfer(Ld8)))
    case 0x3 => Instruction(0x33, 2, RegSP, NoArg, Some(Transfer(Inc16)))
    case 0x4 => Instruction(0x34, 3, IndHL, NoArg, Some(Unary(Inc8)))
    case 0x5 => Instruction(0x35, 3, IndHL, NoArg, Some(Unary(Dec8)))
    case 0x6 => Instruction(0x36, 3, IndHL, Imm8, Some(Transfer(Ld8)))
    case 0x7 => Instruction(0x37, 1, NoArg, NoArg, Some(Misc(Scf)))
    case 0x8 => Instruction(0x38, 2, FlagCarry, Imm8, Some(Conditional(RelativeIf, false)))
    case 0x9 => Instruction(0x39, 2, RegSP, NoArg, Some(Transfer(AddHl)))
    case 0xA => Instruction(0x3A, 2, RegA, IndHLD, Some(Transfer(Ld8)))
    case 0xB => Instruction(0x3B, 2, RegSP, NoArg, Some(Transfer(Dec16)))
    case 0xC => Instruction(0x3C, 1, RegA, NoArg, Some(Unary(Inc8)))
    case 0xD => Instruction(0x3D, 1, RegA, NoArg, Some(Unary(Dec8)))
    case 0xE => Instruction(0x3E, 2, RegA, Imm8, Some(Transfer(Ld8)))
    case 0xF => Instruction(0x3F, 1, NoArg, NoArg, Some(Misc(Ccf)))
    case _ => Missing
  }

  function MainRow4(lo: bv8): Instruction
  {
    match lo
    case 0x0 => Instruction(0x40, 1, RegB, RegB, Some(Transfer(Ld8)))
    case 0x1 => Instruction(0x41, 1, RegB, RegC, Some(Transfer(Ld8)))
    case 0x2 => Instruction(0x42, 1, RegB, RegD, Some(Transfer(Ld8)))
    case 0x3 => Instruction(0x43, 1, RegB, RegE, Some(Transfer(Ld8)))
    case 0x4 => Instruction(0x44, 1, RegB, RegH, Some(Transfer(Ld8)))
    case 0x5 => Instruction(0x45, 1, RegB, RegL, Some(Transfer(Ld8)))
    case 0x6 => Instruction(0x46, 2, RegB, IndHL, Some(Transfer(Ld8)))
    case 0x7 => Instruction(0x47, 1, RegB, RegA, Some(Transfer(Ld8)))
    case 0x8 => Instruction(0x48, 1, RegC, RegB, Some(Transfer(Ld8)))
    case 0x9 => Instruction(0x49, 1, RegC, RegC, Some(Transfer(Ld8)))
    case 0xA => Instruction(0x4A, 1, RegC, RegD, Some(Transfer(Ld8)))
    case 0xB => Instruction(0x4B, 1, RegC, RegE, Some(Transfer(Ld8)))
    case 0xC => Instruction(0x4C, 1, RegC, RegH, Some(Transfer(Ld8)))
    case 0xD => Instruction(0x4D, 1, RegC, RegL, Some(Transfer(Ld8)))
    case 0xE => Instruction(0x4E, 2, RegC, IndHL, Some(Transfer(Ld8)))
    case 0xF => Instruction(0x4F, 1, RegC, RegA, Some(Transfer(Ld8)))
    case _ => Missing
  }

  function MainRow5(lo: bv8): Instruction
  {
    match lo
    case 0x0 => Instruction(0x50, 1, RegD, RegB, Some(Transfer(Ld8)))
    case 0x1 => Instruction(0x51, 1, RegD, RegC, Some(Transfer(Ld8)))
    case 0x2 => Instruction(0x52, 1, RegD, RegD, Some(Transfer(Ld8)))
    case 0x3 => Instruction(0x53, 1, RegD, RegE, Some(Transfer(Ld8)))
    case 0x4 => Instruction(0x54, 1, RegD, RegH, Some(Transfer(Ld8)))
    case 0x5 => Instruction(0x55, 1, RegD, RegL, Some(Transfer(Ld8)))
    case 0x6 => Instruction(0x56, 2, RegD, IndHL, Some(Transfer(Ld8)))
    case 0x7 => Instruction(0x57, 1, RegD, RegA, Some(Transfer(Ld8)))
    case 0x8 => Instruction(0x58, 1, RegE, RegB, Some(Transfer(Ld8)))
    case 0x9 => Instruction(0x59, 1, RegE, RegC, Some(Transfer(Ld8)))
    case 0xA => Instruction(0x5A, 1, RegE, RegD, Some(Transfer(Ld8)))
    case 0xB => Instruction(0x5B, 1, RegE, RegE, Some(Transfer(Ld8)))
    case 0xC => Instruction(0x5C, 1, RegE, RegH, Some(Transfer(Ld8)))
    case 0xD => Instruction(0x5D, 1, RegE, RegL, Some(Transfer(Ld8)))
    case 0xE => Instruction(0x5E, 2, RegE, IndHL, Some(Transfer(Ld8)))
    case 0xF => Instruction(0x5F, 1, RegE, RegA, Some(Transfer(Ld8)))
    case _ => Missing
  }

  function MainRow6(lo: bv8): Instruction
  {
    match lo
    case 0x0 => Instruction(0x60, 1, RegH, RegB, Some(Transfer(Ld8)))
    case 0x1 => Instruction(0x61, 1, RegH, RegC, Some(Transfer(Ld8)))
    case 0x2 => Instruction(0x62, 1, RegH, RegD, Some(Transfer(Ld8)))
    case 0x3 => Instruction(0x63, 1, RegH, RegE, Some(Transfer(Ld8)))
    case 0x4 => Instruction(0x64, 1, RegH, RegH, Some(Transfer(Ld8)))
    case 0x5 => Instruction(0x65, 1, RegH, RegL, Some(Transfer(Ld8)))
    case 0x6 => Instruction(0x66, 2, RegH, IndHL, Some(Transfer(Ld8)))
    case 0x7 => Instruction(0x67, 1, RegH, RegA, Some(Transfer(Ld8)))
    case 0x8 => Instruction(0x68, 1, RegL, RegB, Some(Transfer(Ld8)))
    case 0x9 => Instruction(0x69, 1, RegL, RegC, Some(Transfer(Ld8)))
    case 0xA => Instruction(0x6A, 1, RegL, RegD, Some(Transfer(Ld8)))
    case 0xB => Instruction(0x6B, 1, RegL, RegE, Some(Transfer(Ld8)))
    case 0xC => Instruction(0x6C, 1, RegL, RegH, Some(Transfer(Ld8)))
    case 0xD => Instruction(0x6D, 1, RegL, RegL, Some(Transfer(Ld8)))
    case 0xE => Instruction(0x6E, 2, RegL, IndHL, Some(Transfer(Ld8)))
    case 0xF => Instruction(0x6F, 1, RegL, RegA, Some(Transfer(Ld8)))
    case _ => Missing
  }

  function MainRow7(lo: bv8): Instruction
  {
    match lo
    case 0x0 => Instruction(0x70, 2, IndHL, RegB, Some(Transfer(Ld8)))
    case 0x1 => Instruction(0x71, 2, IndHL, RegC, Some(Transfer(Ld8)))
    case 0x2 => Instruction(0x72, 2, IndHL, RegD, Some(Transfer(Ld8)))
    case 0x3 => Instruction(0x73, 2, IndHL, RegE, Some(Transfer(Ld8)))
    case 0x4 => Instruction(0x74, 2, IndHL, RegH, Some(Transfer(Ld8)))
    case 0x5 => Instruction(0x75, 2, IndHL, RegL, Some(Transfer(Ld8)))
    case 0x6 => Instruction(0x76, 1, NoArg, NoArg, Some(Misc(Halt)))
    case 0x7 => Instruction(0x77, 2, IndHL, RegA, Some(Transfer(Ld8)))
    case 0x8 => Instruction(0x78, 1, RegA, RegB, Some(Transfer(Ld8)))
    case 0x9 => Instruction(0x79, 1, RegA, RegC, Some(Transfer(Ld8)))
    case 0xA => Instruction(0x7A, 1, RegA, RegD, Some(Transfer(Ld8)))
    case 0xB => Instruction(0x7B, 1, RegA, RegE, Some(Transfer(Ld8)))
    case 0xC => Instruction(0x7C, 1, RegA, RegH, Some(Transfer(Ld8)))
    case 0xD => Instruction(0x7D, 1, RegA, RegL, Some(Transfer(Ld8)))
    case 0xE => Instruction(0x7E, 2, RegA, IndHL, Some(Transfer(Ld8)))
    case 0xF => Instruction(0x7F, 1, RegA, RegA, Some(Transfer(Ld8)))
    case _ => Missing
  }

  function MainRow8(lo: bv8): Instruction
  {
    match lo
    case 0x0 => Instruction(0x80, 1, RegB, NoArg, Some(Accumulator(AddA)))
    case 0x1 => Instruction(0x81, 1, RegC, NoArg, Some(Accumulator(AddA)))
    case 0x2 => Instruction(0x82, 1, RegD, NoArg, Some(Accumulator(AddA)))
    case 0x3 => Instruction(0x83, 1, RegE, NoArg, Some(Accumulator(AddA)))
    case 0x4 => Instruction(0x84, 1, RegH, NoArg, Some(Accumulator(AddA)))
    case 0x5 => Instruction(0x85, 1, RegL, NoArg, Some(Accumulator(AddA)))
    case 0x6 => Instruction(0x86, 2, IndHL, NoArg, Some(Accumulator(AddA)))
    case 0x7 => Instruction(0x87, 1, RegA, NoArg, Some(Accumulator(AddA)))
    case 0x8 => Instruction(0x88, 1, RegB, NoArg, Some(Accumulator(Adc8)))
    case 0x9 => Instruction(0x89, 1, RegC, NoArg, Some(Accumulator(Adc8)))
    case 0xA => Instruction(0x8A, 1, RegD, NoArg, Some(Accumulator(Adc8)))
    case 0xB => Instruction(0x8B, 1, RegE, NoArg, Some(Accumulator(Adc8)))
    case 0xC => Instruction(0x8C, 1, RegH, NoArg, Some(Accumulator(Adc8)))
    case 0xD => Instruction(0x8D, 1, RegL, NoArg, Some(Accumulator(Adc8)))
    case 0xE => Instruction(0x8E, 2, IndHL, NoArg, Some(Accumulator(Adc8)))
    case 0xF => Instruction(0x8F, 1, RegA, NoArg, Some(Accumulator(Adc8)))
    case _ => Missing
  }

  function MainRow9(lo: bv8): Instruction
  {
    match lo
    case 0x0 => Instruction(0x90, 1, RegB, NoArg, Some(Accumulator(Sub8)))
    case 0x1 => Instruction(0x91, 1, RegC, NoArg, Some(Accumulator(Sub8)))
    case 0x2 => Instruction(0x92, 1, RegD, NoArg, Some(Accumulator(Sub8)))
    case 0x3 => Instruction(0x93, 1, RegE, NoArg, Some(Accumulator(Sub8)))
    case 0x4 => Instruction(0x94, 1, RegH, NoArg, Some(Accumulator(Sub8)))
    case 0x5 => Instruction(0x95, 1, RegL, NoArg, Some(Accumulator(Sub8)))
    case 0x6 => Instruction(0x96, 2, IndHL, NoArg, Some(Accumulator(Sub8)))
    case 0x7 => Instruction(0x97, 1, RegA, NoArg, Some(Accumulator(Sub8)))
    case 0x8 => Instruction(0x98, 1, RegB, NoArg, Some(Accumulator(Sbc8)))
    case 0x9 => Instruction(0x99, 1, RegC, NoArg, Some(Accumulator(Sbc8)))
    case 0xA => Instruction(0x9A, 1, RegD, NoArg, Some(Accumulator(Sbc8)))
    case 0xB => Instruction(0x9B, 1, RegE, NoArg, Some(Accumulator(Sbc8)))
    case 0xC => Instruction(0x9C, 1, RegH, NoArg, Some(Accumulator(Sbc8)))
    case 0xD => Instruction(0x9D, 1, RegL, NoArg, Some(Accumulator(Sbc8)))
    case 0xE => Instruction(0x9E, 2, IndHL, NoArg, Some(Accumulator(Sbc8)))
    case 0xF => Instruction(0x9F, 1, RegA, NoArg, Some(Accumulator(Sbc8)))
    case _ => Missing
  }

  function MainRowA(lo: bv8): Instruction
  {
    match lo
    case 0x0 => Instruction(0xA0, 1, RegB, NoArg, Some(Accumulator(And8)))
    case 0x1 => Instruction(0xA1, 1, RegC, NoArg, Some(Accumulator(And8)))
    case 0x2 => Instruction(0xA2, 1, RegD, NoArg, Some(Accumulator(And8)))
    case 0x3 => Instruction(0xA3, 1, RegE, NoArg, Some(Accumulator(And8)))
    case 0x4 => Instruction(0xA4, 1, RegH, NoArg, Some(Accumulator(And8)))
    case 0x5 => Instruction(0xA5, 1, RegL, NoArg, Some(Accumulator(And8)))
    case 0x6 => Instruction(0xA6, 2, IndHL, NoArg, Some(Accumulator(And8)))
    case 0x7 => Instruction(0xA7, 1, RegA, NoArg, Some(Accumulator(And8)))
    case 0x8 => Instruction(0xA8, 1, RegB, NoArg, Some(Accumulator(Xor8)))
    case 0x9 => Instruction(0xA9, 1, RegC, NoArg, Some(Accumulator(Xor8)))
    case 0xA => Instruction(0xAA, 1, RegD, NoArg, Some(Accumulator(Xor8)))
    case 0xB => Instruction(0xAB, 1, RegE, NoArg, Some(Accumulator(Xor8)))
    case 0xC => Instruction(0xAC, 1, RegH, NoArg, Some(Accumulator(Xor8)))
    case 0xD => Instruction(0xAD, 1, RegL, NoArg, Some(Accumulator(Xor8)))
    case 0xE => Instruction(0xAE, 2, IndHL, NoArg, Some(Accumulator(Xor8)))
    case 0xF => Instruction(0xAF, 1, RegA, NoArg, Some(Accumulator(Xor8)))
    case _ => Missing
  }

  function MainRowB(lo: bv8): Instruction
  {
    match lo
    case 0x0 => Instruction(0xB0, 1, RegB, NoArg, Some(Accumulator(Or8)))
    case 0x1 => Instruction(0xB1, 1, RegC, NoArg, Some(Accumulator(Or8)))
    case 0x2 => Instruction(0xB2, 1, RegD, NoArg, Some(Accumulator(Or8)))
    case 0x3 => Instruction(0xB3, 1, RegE, NoArg, Some(Accumulator(Or8)))
    case 0x4 => Instruction(0xB4, 1, RegH, NoArg, Some(Accumulator(Or8)))
    case 0x5 => Instruction(0xB5, 1, RegL, NoArg, Some(Accumulator(Or8)))
    case 0x6 => Instruction(0xB6, 2, IndHL, NoArg, Some(Accumulator(Or8)))
    case 0x7 => Instruction(0xB7, 1, RegA, NoArg, Some(Accumulator(Or8)))
    case 0x8 => Instruction(0xB8, 1, RegB, NoArg, Some(Accumulator(Cp8)))
    case 0x9 => Instruction(0xB9, 1, RegC, NoArg, Some(Accumulator(Cp8)))
    case 0xA => Instruction(0xBA, 1, RegD, NoArg, Some(Accumulator(Cp8)))
    case 0xB => Instruction(0xBB, 1, RegE, NoArg, Some(Accumulator(Cp8)))
    case 0xC => Instruction(0xBC, 1, RegH, NoArg, Some(Accumulator(Cp8)))
    case 0xD => Instruction(0xBD, 1, RegL, NoArg, Some(Accumulator(Cp8)))
    case 0xE => Instruction(0xBE, 2, IndHL, NoArg, Some(Accumulator(Cp8)))
    case 0xF => Instruction(0xBF, 1, RegA, NoArg, Some(Accumulator(Cp8)))
    case _ => Missing
  }

  function MainRowC(lo: bv8): Instruction
  {
    match lo
    case 0x0 => Instruction(0xC0, 2, FlagZero, NoArg, Some(Conditional(ReturnIf, true)))
    case 0x1 => Instruction(0xC1, 3, RegBC, NoArg, Some(Flow(Pop16)))
    case 0x2 => Instruction(0xC2, 3, FlagZero, Imm16, Some(Conditional(JumpIf, true)))
    case 0x3 => Instruction(0xC3, 4, Imm16, NoArg, Some(Flow(Jp16)))
    case 0x4 => Instruction(0xC4, 3, FlagZero, Imm16, Some(Conditional(CallIf, true)))
    case 0x5 => Instruction(0xC5, 4, RegBC, NoArg, Some(Flow(Push16)))
    case 0x6 => Instruction(0xC6, 2, Imm8, NoArg, Some(Accumulator(AddA)))
    case 0x7 => Instruction(0xC7, 4, RstN(0), NoArg, Some(Flow(Rst)))
    case 0x8 => Instruction(0xC8, 2, FlagZero, NoArg, Some(Conditional(ReturnIf, false)))
    case 0x9 => Instruction(0xC9, 4, NoArg, NoArg, Some(Flow(Ret)))
    case 0xA => Instruction(0xCA, 3, FlagZero, Imm16, Some(Conditional(JumpIf, false)))
    case 0xC => Instruction(0xCC, 3, FlagZero, Imm16, Some(Conditional(CallIf, false)))
    case 0xD => Instruction(0xCD, 6, Imm16, NoArg, Some(Flow(Call)))
    case 0xE => Instruction(0xCE, 2, Imm8, NoArg, Some(Accumulator(Adc8)))
    case 0xF => Instruction(0xCF, 4, RstN(1), NoArg, Some(Flow(Rst)))
    case _ => Missing
  }

  function MainRowD(lo: bv8): Instruction
  {
    match lo
    case 0x0 => Instruction(0xD0, 2, FlagCarry, NoArg, Some(Conditional(ReturnIf, true)))
    case 0x1 => Instruction(0xD1, 3, RegDE, NoArg, Some(Flow(Pop16)))
    case 0x2 => Instruction(0xD2, 3, FlagCarry, Imm16, Some(Conditional(JumpIf, true)))
    case 0x4 => Instruction(0xD4, 3, FlagCarry, Imm16, Some(Conditional(CallIf, true)))
    case 0x5 => Instruction(0xD5, 4, RegDE, NoArg, Some(Flow(Push16)))
    case 0x6 => Instruction(0xD6, 2, Imm8, NoArg, Some(Accumulator(Sub8)))
    case 0x7 => Instruction(0xD7, 4, RstN(2), NoArg, Some(Flow(Rst)))
    case 0x8 => Instruction(0xD8, 2, FlagCarry, NoArg, Some(Conditional(ReturnIf, false)))
    case 0x9 => Instruction(0xD9, 4, NoArg, NoArg, Some(Flow(Reti)))
    case 0xA => Instruction(0xDA, 3, FlagCarry, Imm16, Some(Conditional(JumpIf, false)))
    case 0xC => Instruction(0xDC, 3, FlagCarry, Imm16, Some(Conditional(CallIf, false)))
    case 0xE => Instruction(0xDE, 2, Imm8, NoArg, Some(Accumulator(Sbc8)))
    case 0xF => Instruction(0xDF, 4, RstN(3), NoArg, Some(Flow(Rst)))
    case _ => Missing
  }

  function MainRowE(lo: bv8): Instruction
  {
    match lo
    case 0x0 => Instruction(0xE0, 3, Ind8, RegA, Some(Transfer(Ld8)))
    case 0x1 => Instruction(0xE1, 3, RegHL, NoArg, Some(Flow(Pop16)))
    case 0x2 => Instruction(0xE2, 2, IndC, RegA, Some(Transfer(Ld8)))
    case 0x5 => Instruction(0xE5, 4, RegHL, NoArg, Some(Flow(Push16)))
    case 0x6 => Instruction(0xE6, 2, Imm8, NoArg, Some(Accumulator(And8)))
    case 0x7 => Instruction(0xE7, 4, RstN(4), NoArg, Some(Flow(Rst)))
    case 0x8 => Instruction(0xE8, 4, Imm8, NoArg, Some(Transfer(AddSp)))
    case 0x9 => Instruction(0xE9, 1, RegHL, NoArg, Some(Flow(Jp16)))
    case 0xA => Instruction(0xEA, 4, Ind16, RegA, Some(Transfer(Ld8)))
    case 0xE => Instruction(0xEE, 2, Imm8, NoArg, Some(Accumulator(Xor8)))
    case 0xF => Instruction(0xEF, 4, RstN(5), NoArg, Some(Flow(Rst)))
    case _ => Missing
  }

  function MainRowF(lo: bv8): Instruction
  {
    match lo
    case 0x0 => Instruction(0xF0, 3, RegA, Ind8, Some(Transfer(Ld8)))
    case 0x1 => Instruction(0xF1, 3, RegAF, NoArg, Some(Flow(Pop16)))
    case 0x2 => Instruction(0xF2, 2, RegA, IndC, Some(Transfer(Ld8)))
    case 0x3 => Instruction(0xF3, 1, NoArg, NoArg, Some(Misc(Di)))
    case 0x5 => Instruction(0xF5, 4, RegAF, NoArg, Some(Flow(Push16)))
    case 0x6 => Instruction(0xF6, 2, Imm8, NoArg, Some(Accumulator(Or8)))
    case 0x7 => Instruction(0xF7, 4, RstN(6), NoArg, Some(Flow(Rst)))
    case 0x8 => Instruction(0xF8, 3, Imm8, NoArg, Some(Transfer(LdHlSp)))
    case 0x9 => Instruction(0xF9, 2, RegSP, RegHL, Some(Transfer(Ld16)))
    case 0xA => Instruction(0xFA, 4, RegA, Ind16, Some(Transfer(Ld8)))
    case 0xB => Instruction(0xFB, 1, NoArg, NoArg, Some(Misc(Ei)))
    case 0xE => Instruction(0xFE, 2, Imm8, NoArg, Some(Accumulator(Cp8)))
    case 0xF => Instruction(0xFF, 4, RstN(7), NoArg, Some(Flow(Rst)))
    case _ => Missing
  }

  /** The opcodes left out of the main table have no handler, so executing one aborts. */
  lemma MissingEntries(x: bv8)
    requires x in MissingOpcodes
    ensures MainTable(x) == Missing && MainTable(x).handler.None?
  {
  }

  /** The eight operands of the 0xCB table, selected by the low three opcode bits. */
  function CbRegister(x: bv8): (arg: Arg)
    ensures arg == IndHL <==> x & 7 == 6
  {
    match x & 7
    case 0 => RegB
    case 1 => RegC
    case 2 => RegD
    case 3 => RegE
    case 4 => RegH
    case 5 => RegL
    case 6 => IndHL
    case _ => RegA
  }

  function RegisterName(arg: Arg): string
  {
    match arg
    case RegB => "B"
    case RegC => "C"
    case RegD => "D"
    case RegE => "E"
    case RegH => "H"
    case RegL => "L"
    case RegA => "A"
    case _ => "(HL)"
  }

  /** The rotate and shift handlers of the first quarter of the 0xCB table, by opcode bits 3 to 5. */
  function CbRotation(x: bv8): UnaryKind
  {
    match (x >> 3) & 7
    case 0 => Rlc
    case 1 => Rrc
    case 2 => Rl
    case 3 => Rr
    case 4 => Sla
    case 5 => Sra
    case 6 => Swap
    case _ => Srl
  }

  function RotationName(h: UnaryKind): string
  {
    match h
    case Rlc => "RLC"
    case Rrc => "RRC"
    case Rl => "RL"
    case Rr => "RR"
    case Sla => "SLA"
    case Sra => "SRA"
    case Swap => "SWAP"
    case _ => "SRL"
  }

  /**
   * The 0xCB table.  It is entirely regular: opcodes below 0x40 rotate or
   * shift their register operand; the rest test (BIT), clear (RES) or set
   * (SET) bit ((x >> 3) & 7) of it.  An instruction on (HL) costs more.
   */
  function CbTable(x: bv8): (op: Instruction)
    ensures op.opcode == x && op.handler.Some?
    ensures x < 0x40 ==> op.arg1 == CbRegister(x) && op.arg2 == NoArg
    ensures x >= 0x40 ==> op.arg1 == BitN(((x >> 3) & 7) as int) && op.arg2 == CbRegister(x)
    ensures op.cycles == (if x & 7 != 6 then 2 else if 0x40 <= x < 0x80 then 3 else 4)
  {
    var reg := CbRegister(x);
    var hl := x & 7 == 6;
    if x < 0x40 then
      Instruction(x, if hl then 4 else 2, reg, NoArg, Some(Unary(CbRotation(x))))
    else
      var n := ((x >> 3) & 7) as int;
      var h: BitKind := if x < 0x80 then Bit else if x < 0xC0 then Res else Set;
      Instruction(x, if !hl then 2 else if h == Bit then 3 else 4, BitN(n), reg, Some(BitAccess(h)))
  }

  // ---------------------------------------------------------------------
  // Text templates

  /**
   * The disassembler's text template of each main-table entry; `$%02X` and
   * `$%04X` stand for the operand's value.  A missing entry has no text.
   */
  function MainText(x: bv8): string
  {
    var lo := x & 0x0F;
    match x >> 4
    case 0x0 => MainTextRow0(lo)
    case 0x1 => MainTextRow1(lo)
    case 0x2 => MainTextRow2(lo)
    case 0x3 => MainTextRow3(lo)
    case 0x4 => MainTextRow4(lo)
    case 0x5 => MainTextRow5(lo)
    case 0x6 => MainTextRow6(lo)
    case 0x7 => MainTextRow7(lo)
    case 0x8 => MainTextRow8(lo)
    case 0x9 => MainTextRow9(lo)
    case 0xA => MainTextRowA(lo)
    case 0xB => MainTextRowB(lo)
    case 0xC => MainTextRowC(lo)
    case 0xD => MainTextRowD(lo)
    case 0xE => MainTextRowE(lo)
    case _ => MainTextRowF(lo)
  }

  function MainTextRow0(lo: bv8): string
  {
    match lo
    case 0x0 => "NOP"
    case 0x1 => "LD BC,$%04X"
    case 0x2 => "LD (BC),A"
    case 0x3 => "INC BC"
    case 0x4 => "INC B"
    case 0x5 => "DEC B"
    case 0x6 => "LD B,$%02X"
    case 0x7 => "RLCA"
    case 0x8 => "LD ($%04X),SP"
    case 0x9 => "ADD HL,BC"
    case 0xA => "LD A,(BC)"
    case 0xB => "DEC BC"
    case 0xC => "INC C"
    case 0xD => "DEC C"
    case 0xE => "LD C,$%02X"
    case 0xF => "RRCA"
    case _ => ""
  }

  function MainTextRow1(lo: bv8): string
  {
    match lo
    case 0x1 => "LD DE,$%04X"
    case 0x2 => "LD (DE),A"
    case 0x3 => "INC DE"
    case 0x4 => "INC D"
    case 0x5 => "DEC D"
    case 0x6 => "LD D,$%02X"
    case 0x7 => "RLA"
    case 0x8 => "JR $%02X"
    case 0x9 => "ADD HL,DE"
    case 0xA => "LD A,(DE)"
    case 0xB => "DEC DE"
    case 0xC => "INC E"
    case 0xD => "DEC E"
    case 0xE => "LD E,$%02X"
    case 0xF => "RRA"
    case _ => ""
  }

  function MainTextRow2(lo: bv8): string
  {
    match lo
    case 0x0 => "JR NZ,$%02X"
    case 0x1 => "LD HL,$%04X"
    case 0x2 => "LD (HL+),A"
    case 0x3 => "INC HL"
    case 0x4 => "INC H"
    case 0x5 => "DEC H"
    case 0x6 => "LD H,$%02X"
    case 0x7 => "DAA"
    case 0x8 => "JR Z,$%02X"
    case 0x9 => "ADD HL,HL"
    case 0xA => "LD A,(HL+)"
    case 0xB => "DEC HL"
    case 0xC => "INC L"
    case 0xD => "DEC L"
    case 0xE => "LD L,$%02X"
    case 0xF => "CPL"
    case _ => ""
  }

  function MainTextRow3(lo: bv8): string
  {
    match lo
    case 0x0 => "JR NC,$%02X"
    case 0x1 => "LD SP,$%04X"
    case 0x2 => "LD (HL-),A"
    case 0x3 => "INC SP"
    case 0x4 => "INC (HL)"
    case 0x5 => "DEC (HL)"
    case 0x6 => "LD (HL),$%02X"
    case 0x7 => "SCF"
    case 0x8 => "JR C,$%02X"
    case 0x9 => "ADD HL,SP"
    case 0xA => "LD A,(HL-)"
    case 0xB => "DEC SP"
    case 0xC => "INC A"
    case 0xD => "DEC A"
    case 0xE => "LD A,$%02X"
    case 0xF => "CCF"
    case _ => ""
  }

  function MainTextRow4(lo: bv8): string
  {
    match lo
    case 0x0 => "LD B,B"
    case 0x1 => "LD B,C"
    case 0x2 => "LD B,D"
    case 0x3 => "LD B,E"
    case 0x4 => "LD B,H"
    case 0x5 => "LD B,L"
    case 0x6 => "LD B,(HL)"
    case 0x7 => "LD B,A"
    case 0x8 => "LD C,B"
    case 0x9 => "LD C,C"
    case 0xA => "LD C,D"
    case 0xB => "LD C,E"
    case 0xC => "LD C,H"
    case 0xD => "LD C,L"
    case 0xE => "LD C,(HL)"
    case 0xF => "LD C,A"
    case _ => ""
  }

  function MainTextRow5(lo: bv8): string
  {
    match lo
    case 0x0 => "LD D,B"
    case 0x1 => "LD D,C"
    case 0x2 => "LD D,D"
    case 0x3 => "LD D,E"
    case 0x4 => "LD D,H"
    case 0x5 => "LD D,L"
    case 0x6 => "LD D,(HL)"
    case 0x7 => "LD D,A"
    case 0x8 => "LD E,B"
    case 0x9 => "LD E,C"
    case 0xA => "LD E,D"
    case 0xB => "LD E,E"
    case 0xC => "LD E,H"
    case 0xD => "LD E,L"
    case 0xE => "LD E,(HL)"
    case 0xF => "LD E,A"
    case _ => ""
  }

  function MainTextRow6(lo: bv8): string
  {
    match lo
    case 0x0 => "LD H,B"
    case 0x1 => "LD H,C"
    case 0x2 => "LD H,D"
    case 0x3 => "LD H,E"
    case 0x4 => "LD H,H"
    case 0x5 => "LD H,L"
    case 0x6 => "LD H,(HL)"
    case 0x7 => "LD H,A"
    case 0x8 => "LD L,B"
    case 0x9 => "LD L,C"
    case 0xA => "LD L,D"
    case 0xB => "LD L,E"
    case 0xC => "LD L,H"
    case 0xD => "LD L,L"
    case 0xE => "LD L,(HL)"
    case 0xF => "LD L,A"
    case _ => ""
  }

  function MainTextRow7(lo: bv8): string
  {
    match lo
    case 0x0 => "LD (HL),B"
    case 0x1 => "LD (HL),C"
    case 0x2 => "LD (HL),D"
    case 0x3 => "LD (HL),E"
    case 0x4 => "LD (HL),H"
    case 0x5 => "LD (HL),L"
    case 0x6 => "HALT"
    case 0x7 => "LD (HL),A"
    case 0x8 => "LD A,B"
    case 0x9 => "LD A,C"
    case 0xA => "LD A,D"
    case 0xB => "LD A,E"
    case 0xC => "LD A,H"
    case 0xD => "LD A,L"
    case 0xE => "LD A,(HL)"
    case 0xF => "LD A,A"
    case _ => ""
  }

  function MainTextRow8(lo: bv8): string
  {
    match lo
    case 0x0 => "ADD A,B"
    case 0x1 => "ADD A,C"
    case 0x2 => "ADD A,D"
    case 0x3 => "ADD A,E"
    case 0x4 => "ADD A,H"
    case 0x5 => "ADD A,L"
    case 0x6 => "ADD A,(HL)"
    case 0x7 => "ADD A,A"
    case 0x8 => "ADC A,B"
    case 0x9 => "ADC A,C"
    case 0xA => "ADC A,D"
    case 0xB => "ADC A,E"
    case 0xC => "ADC A,H"
    case 0xD => "ADC A,L"
    case 0xE => "ADC A,(HL)"
    case 0xF => "ADC A,A"
    case _ => ""
  }

  function MainTextRow9(lo: bv8): string
  {
    match lo
    case 0x0 => "SUB A,B"
    case 0x1 => "SUB A,C"
    case 0x2 => "SUB A,D"
    case 0x3 => "SUB A,E"
    case 0x4 => "SUB A,H"
    case 0x5 => "SUB A,L"
    case 0x6 => "SUB A,(HL)"
    case 0x7 => "SUB A,A"
    case 0x8 => "SBC A,B"
    case 0x9 => "SBC A,C"
    case 0xA => "SBC A,D"
    case 0xB => "SBC A,E"
    case 0xC => "SBC A,H"
    case 0xD => "SBC A,L"
    case 0xE => "SBC A,(HL)"
    case 0xF => "SBC A,A"
    case _ => ""
  }

  function MainTextRowA(lo: bv8): string
  {
    match lo
    case 0x0 => "AND B"
    case 0x1 => "AND C"
    case 0x2 => "AND D"
    case 0x3 => "AND E"
    case 0x4 => "AND H"
    case 0x5 => "AND L"
    case 0x6 => "AND (HL)"
    case 0x7 => "AND A"
    case 0x8 => "XOR B"
    case 0x9 => "XOR C"
    case 0xA => "XOR D"
    case 0xB => "XOR E"
    case 0xC => "XOR H"
    case 0xD => "XOR L"
    case 0xE => "XOR (HL)"
    case 0xF => "XOR A"
    case _ => ""
  }

  function MainTextRowB(lo: bv8): string
  {
    match lo
    case 0x0 => "OR B"
    case 0x1 => "OR C"
    case 0x2 => "OR D"
    case 0x3 => "OR E"
    case 0x4 => "OR H"
    case 0x5 => "OR L"
    case 0x6 => "OR (HL)"
    case 0x7 => "OR A"
    case 0x8 => "CP B"
    case 0x9 => "CP C"
    case 0xA => "CP D"
    case 0xB => "CP E"
    case 0xC => "CP H"
    case 0xD => "CP L"
    case 0xE => "CP (HL)"
    case 0xF => "CP A"
    case _ => ""
  }

  function MainTextRowC(lo: bv8): string
  {
    match lo
    case 0x0 => "RET NZ"
    case 0x1 => "POP BC"
    case 0x2 => "JP NZ,$%04X"
    case 0x3 => "JP $%04X"
    case 0x4 => "CALL NZ,$%04X"
    case 0x5 => "PUSH BC"
    case 0x6 => "ADD A,$%02X"
    case 0x7 => "RST 0"
    case 0x8 => "RET Z"
    case 0x9 => "RET"
    case 0xA => "JP Z,$%04X"
    case 0xC => "CALL Z,$%04X"
    case 0xD => "CALL $%04X"
    case 0xE => "ADC A,$%02X"
    case 0xF => "RST 1"
    case _ => ""
  }

  function MainTextRowD(lo: bv8): string
  {
    match lo
    case 0x0 => "RET NC"
    case 0x1 => "POP DE"
    case 0x2 => "JP NC,$%04X"
    case 0x4 => "CALL NC,$%04X"
    case 0x5 => "PUSH DE"
    case 0x6 => "SUB A,$%02X"
    case 0x7 => "RST 2"
    case 0x8 => "RET C"
    case 0x9 => "RETI"
    case 0xA => "JP C,$%04X"
    case 0xC => "CALL C,$%04X"
    case 0xE => "SBC A,$%02X"
    case 0xF => "RST 3"
    case _ => ""
  }

  function MainTextRowE(lo: bv8): string
  {
    match lo
    case 0x0 => "LD ($%02X),A"
    case 0x1 => "POP HL"
    case 0x2 => "LD (C),A"
    case 0x5 => "PUSH HL"
    case 0x6 => "AND $%02X"
    case 0x7 => "RST 4"
    case 0x8 => "ADD SP,$%02X"
    case 0x9 => "JP HL"
    case 0xA => "LD ($%04X),A"
    case 0xE => "XOR $%02X"
    case 0xF => "RST 5"
    case _ => ""
  }

  function MainTextRowF(lo: bv8): string
  {
    match lo
    case 0x0 => "LD A,($%02X)"
    case 0x1 => "POP AF"
    case 0x2 => "LD A,(C)"
    case 0x3 => "DI"
    case 0x5 => "PUSH AF"
    case 0x6 => "OR $%02X"
    case 0x7 => "RST 6"
    case 0x8 => "LD HL,SP+$%02X"
    case 0x9 => "LD SP,HL"
    case 0xA => "LD A,($%04X)"
    case 0xB => "EI"
    case 0xE => "CP $%02X"
    case 0xF => "RST 7"
    case _ => ""
  }

  /** The text of a 0xCB-table entry: "RLC B", "BIT 3,(HL)", "SET 7,A" and so on. */
  function CbText(x: bv8): string
  {
    var reg := RegisterName(CbRegister(x));
    if x < 0x40 then RotationName(CbRotation(x)) + " " + reg
    else
      var name := if x < 0x80 then "BIT " else if x < 0xC0 then "RES " else "SET ";
      name + [('0' as int + ((x >> 3) & 7) as int) as char] + "," + reg
  }
}
