/**
 * The trace disassembler: for the instruction at PC it lays out one line
 * with the address, the instruction's bytes, its text with the operand
 * value substituted and the memory value an indirect operand refers to,
 * the flags and the registers.  It only reads memory, here a function
 * from address to byte, and the registers; nothing is changed.
 *
 * The printf conversions the code uses are `%02X`, `%04X` and `%c`;
 * `Hex` models the first two (upper-case digits, zero-padded to at least
 * the width, never cut).
 */
module Disasm {
  import opened Opcodes
  import CpuSpec
  import Strings

  // ---------------------------------------------------------------------
  // Hexadecimal text

  function HexDigit(d: nat): (c: char)
    requires d < 16
  {
    if d < 10 then ('0' as int + d) as char else ('A' as int + d - 10) as char
  }

  predicate IsHexDigit(c: char)
  {
    '0' <= c <= '9' || 'A' <= c <= 'F'
  }

  function DigitValue(c: char): (d: nat)
    requires IsHexDigit(c)
    ensures d < 16
  {
    if c <= '9' then c as int - '0' as int else c as int - 'A' as int + 10
  }

  /** `printf("%0*X", w, v)`: the digits of `v`, zero-padded on the left to at least `w` of them. */
  function Hex(v: nat, w: nat): string
    decreases v + w
  {
    if v < 16 && w <= 1 then [HexDigit(v)]
    else Hex(v / 16, if w == 0 then 0 else w - 1) + [HexDigit(v % 16)]
  }

  /** The value of a run of hexadecimal digits, most significant first. */
  predicate AllHex(s: string)
  {
    forall i :: 0 <= i < |s| ==> IsHexDigit(s[i])
  }

  function HexValue(s: string): nat
    requires AllHex(s)
  {
    if |s| == 0 then 0 else HexValue(s[..|s| - 1]) * 16 + DigitValue(s[|s| - 1])
  }

  function Pow16(w: nat): (p: nat)
    ensures p >= 1
  {
    if w == 0 then 1 else 16 * Pow16(w - 1)
  }

  lemma DigitRoundTrip(d: nat)
    requires d < 16
    ensures IsHexDigit(HexDigit(d)) && DigitValue(HexDigit(d)) == d
  {
  }

  /**
   * The digits read back as `v`; there are at least `w` of them (and one),
   * and exactly `w` when `v` fits in them.
   */
  lemma {:induction false} HexRoundTrip(v: nat, w: nat)
    ensures AllHex(Hex(v, w)) && HexValue(Hex(v, w)) == v
    ensures |Hex(v, w)| >= w && |Hex(v, w)| >= 1
    ensures w >= 1 && v < Pow16(w) ==> |Hex(v, w)| == w
    decreases v + w
  {
    if v < 16 && w <= 1 {
      DigitRoundTrip(v);
    } else {
      var w' := if w == 0 then 0 else w - 1;
      HexRoundTrip(v / 16, w');
      DigitRoundTrip(v % 16);
      var s := Hex(v, w);
      assert s[..|s| - 1] == Hex(v / 16, w');
      if w >= 1 && v < Pow16(w) {
        assert v / 16 < Pow16(w');
      }
    }
  }

  /** A byte shows as exactly two digits, a 16-bit value as exactly four. */
  lemma HexWidths(b: bv8, x: bv16)
    ensures |Hex(b as nat, 2)| == 2 && AllHex(Hex(b as nat, 2)) && HexValue(Hex(b as nat, 2)) == b as nat
    ensures |Hex(x as nat, 4)| == 4 && AllHex(Hex(x as nat, 4)) && HexValue(Hex(x as nat, 4)) == x as nat
  {
    HexRoundTrip(b as nat, 2);
    HexRoundTrip(x as nat, 4);
  }

  /** The two digits of a byte: the high nibble, then the low one. */
  lemma HexByte(b: nat)
    requires b < 256
    ensures Hex(b, 2) == [HexDigit(b / 16), HexDigit(b % 16)]
  {
    assert Hex(b / 16, 1) == [HexDigit(b / 16)];
  }

  // ---------------------------------------------------------------------
  // Operands

  /** How many bytes an operand occupies after the opcode. */
  function ArgSize(arg: Arg): (n: nat)
    ensures n <= 2
    ensures n == 1 <==> arg == Imm8 || arg == Ind8
    ensures n == 2 <==> arg == Imm16 || arg == Ind16
  {
    match arg
    case Imm8 => 1
    case Ind8 => 1
    case Imm16 => 2
    case Ind16 => 2
    case _ => 0
  }

  /** The immediate an operand stores at `pc`: one byte, a little-endian word, or 0 for the rest. */
  function ArgValue(arg: Arg, m: CpuSpec.Memory, pc: bv16): bv16
  {
    match arg
    case Imm8 => m(pc) as bv16
    case Ind8 => m(pc) as bv16
    case Imm16 => CpuSpec.Read16(m, pc)
    case Ind16 => CpuSpec.Read16(m, pc)
    case _ => 0
  }

  /** Only the sized operands have a value: a byte for the 8-bit ones. */
  lemma ArgValueSized(arg: Arg, m: CpuSpec.Memory, pc: bv16)
    ensures ArgSize(arg) == 0 ==> ArgValue(arg, m, pc) == 0
    ensures ArgSize(arg) == 1 ==> ArgValue(arg, m, pc) == m(pc) as bv16
  {
  }

  /** The value shown is the immediate the processor fetches once PC has passed the opcode. */
  lemma ArgValueIsImmediate(m: CpuSpec.Memory, r: CpuSpec.Regs)
    ensures ArgValue(Imm8, m, r.pc) == CpuSpec.OperandValue(r, m, Imm8)
    ensures ArgValue(Imm16, m, r.pc) == CpuSpec.OperandValue(r, m, Imm16)
  {
  }

  // ---------------------------------------------------------------------
  // Text templates

  predicate NoPercent(t: string)
  {
    forall i :: 0 <= i < |t| ==> t[i] != '%'
  }

  /** The conversion `%0wX` starts `t`. */
  predicate ConvAt(t: string, w: char)
  {
    |t| >= 4 && t[0] == '%' && t[1] == '0' && t[2] == w && t[3] == 'X'
  }

  /** `printf(t, v)` for the templates of the tables: each `%02X` or `%04X` shows `v`. */
  function Format(t: string, v: nat): string
  {
    if |t| == 0 then []
    else if ConvAt(t, '2') then Hex(v, 2) + Format(t[4..], v)
    else if ConvAt(t, '4') then Hex(v, 4) + Format(t[4..], v)
    else [t[0]] + Format(t[1..], v)
  }

  /** A template without a conversion is printed as it is. */
  lemma {:induction false} FormatPlain(t: string, v: nat)
    requires NoPercent(t)
    ensures Format(t, v) == t
  {
    if |t| > 0 {
      assert t[0] != '%';
      FormatPlain(t[1..], v);
    }
  }

  /** The conversion that shows a value with `w` digits. */
  function Conv(w: nat): string
  {
    if w == 2 then "%02X" else "%04X"
  }

  /** The conversion of width `w` followed by plain text. */
  lemma FormatConv(q: string, w: nat, v: nat)
    requires NoPercent(q) && (w == 2 || w == 4)
    ensures Format(Conv(w) + q, v) == Hex(v, w) + q
  {
    var t := Conv(w) + q;
    assert t[4..] == q;
    FormatPlain(q, v);
  }

  /** A plain character is copied. */
  lemma FormatCons(x: char, s: string, v: nat)
    requires x != '%'
    ensures Format([x] + s, v) == [x] + Format(s, v)
  {
    assert ([x] + s)[1..] == s;
  }

  /** Text, a conversion of width 2 or 4, text: the value is shown in the conversion's place. */
  lemma {:induction false} FormatOne(p: string, q: string, w: nat, v: nat)
    requires NoPercent(p) && NoPercent(q) && (w == 2 || w == 4)
    ensures Format(p + Conv(w) + q, v) == p + Hex(v, w) + q
    decreases |p|
  {
    var c := Conv(w);
    if |p| == 0 {
      assert p + c + q == c + q;
      FormatConv(q, w, v);
    } else {
      assert p + c + q == [p[0]] + (p[1..] + c + q);
      FormatCons(p[0], p[1..] + c + q, v);
      FormatOne(p[1..], q, w, v);
      assert p + Hex(v, w) + q == [p[0]] + (p[1..] + Hex(v, w) + q);
    }
  }

  // ---------------------------------------------------------------------
  // The bytes field

  /** The address `k` bytes after `pc`, wrapping at 0xFFFF. */
  function Offset(pc: bv16, k: nat): bv16
  {
    if k == 0 then pc else Offset(pc, k - 1) + 1
  }

  /** The two digits showing the byte `i` places after `pc`. */
  function Digits(m: CpuSpec.Memory, pc: bv16, i: nat): (d: string)
    ensures |d| == 2
  {
    HexWidths(m(Offset(pc, i)), 0);
    Hex(m(Offset(pc, i)) as nat, 2)
  }

  /** The `k` bytes from `pc` on as two hex digits each, separated by single spaces. */
  function Field(m: CpuSpec.Memory, pc: bv16, k: nat): string
    requires k > 0
  {
    if k == 1 then Digits(m, pc, 0) else Field(m, pc, k - 1) + " " + Digits(m, pc, k - 1)
  }

  lemma {:induction false} FieldDigits(m: CpuSpec.Memory, pc: bv16, k: nat)
    requires k > 0
    ensures |Field(m, pc, k)| == 3 * k - 1
    ensures forall i :: 0 <= i < k ==>
      Field(m, pc, k)[3 * i] == Digits(m, pc, i)[0] && Field(m, pc, k)[3 * i + 1] == Digits(m, pc, i)[1]
  {
    if k > 1 {
      FieldDigits(m, pc, k - 1);
    }
  }

  lemma {:induction false} FieldSpaces(m: CpuSpec.Memory, pc: bv16, k: nat)
    requires k > 0
    ensures |Field(m, pc, k)| == 3 * k - 1
    ensures forall i :: 0 <= i < k - 1 ==> Field(m, pc, k)[3 * i + 2] == ' '
  {
    FieldDigits(m, pc, k);
    if k > 1 {
      FieldSpaces(m, pc, k - 1);
    }
  }

  /**
   * The field has `3k - 1` characters; the byte `i` places after `pc` is
   * the two digits at column `3i` (which read back as that byte, by
   * `HexWidths`), and a space follows every byte but the last.
   */
  lemma FieldLayout(m: CpuSpec.Memory, pc: bv16, k: nat)
    requires k > 0
    ensures |Field(m, pc, k)| == 3 * k - 1
    ensures forall i :: 0 <= i < k ==> Field(m, pc, k)[3 * i..3 * i + 2] == Hex(m(Offset(pc, i)) as nat, 2)
    ensures forall i :: 0 <= i < k - 1 ==> Field(m, pc, k)[3 * i + 2] == ' '
  {
    FieldDigits(m, pc, k);
    FieldSpaces(m, pc, k);
    var t := Field(m, pc, k);
    forall i | 0 <= i < k
      ensures t[3 * i..3 * i + 2] == Hex(m(Offset(pc, i)) as nat, 2)
    {
      var d := Digits(m, pc, i);
      assert t[3 * i..3 * i + 2] == [d[0], d[1]];
      assert d == [d[0], d[1]];
    }
  }

  // ---------------------------------------------------------------------
  // Decoding the instruction at PC

  /** The entry the bytes at `pc` select: the main table, or the prefixed table behind 0xCB. */
  function InstrAt(m: CpuSpec.Memory, pc: bv16): Instruction
  {
    if m(pc) == 0xCB then CbTable(m(pc + 1)) else MainTable(m(pc))
  }

  /** The text template of that entry. */
  function TextAt(m: CpuSpec.Memory, pc: bv16): string
  {
    if m(pc) == 0xCB then CbText(m(pc + 1)) else MainText(m(pc))
  }

  /** How many opcode bytes the instruction at `pc` has. */
  function PrefixLen(m: CpuSpec.Memory, pc: bv16): (n: nat)
    ensures n == 1 || n == 2
  {
    if m(pc) == 0xCB then 2 else 1
  }

  /** How many bytes an instruction's operands take after its opcode bytes. */
  function OperandLen(op: Instruction): (n: nat)
    ensures n <= 4
  {
    ArgSize(op.arg1) + ArgSize(op.arg2)
  }

  /** The entry and the template the opcode at `pc` selects, looked up again behind a 0xCB prefix. */
  method Lookup(m: CpuSpec.Memory, pc: bv16) returns (op: Instruction, text: string)
    ensures op == InstrAt(m, pc) && text == TextAt(m, pc)
  {
    var opcode := m(pc);
    op := MainTable(opcode);
    text := MainText(opcode);
    if opcode == 0xCB {
      opcode := m(pc + 1);
      op := CbTable(opcode);
      text := CbText(opcode);
    }
  }

  /** The prefixed instructions have no immediate. */
  lemma PrefixedHasNoOperand(m: CpuSpec.Memory, pc: bv16)
    requires m(pc) == 0xCB
    ensures OperandLen(InstrAt(m, pc)) == 0
  {
    assert ArgSize(CbRegister(m(pc + 1))) == 0;
  }

  // ---------------------------------------------------------------------
  // The bytes field of the instruction `op` at `pc`

  /**
   * How many bytes the program prints: the opcode bytes, then one fewer
   * than `opsize`, which already counts both opcode bytes of a prefixed
   * instruction.
   */
  function PrintedLenAsWritten(m: CpuSpec.Memory, pc: bv16, op: Instruction): (n: nat)
    ensures 1 <= n <= 7
  {
    PrefixLen(m, pc) + (PrefixLen(m, pc) + OperandLen(op) - 1)
  }

  function BytesAsWrittenOf(m: CpuSpec.Memory, pc: bv16, op: Instruction): string
  {
    Field(m, pc, PrintedLenAsWritten(m, pc, op))
  }

  /** The bytes field as intended: exactly the opcode and operand bytes. */
  function BytesOf(m: CpuSpec.Memory, pc: bv16, op: Instruction): string
  {
    Field(m, pc, PrefixLen(m, pc) + OperandLen(op))
  }

  /**
   * The printed bytes are the instruction's for an unprefixed opcode; after
   * the 0xCB prefix one more byte, the one following the instruction, is
   * printed.
   */
  lemma BytesAsWrittenExtra(m: CpuSpec.Memory, pc: bv16, op: Instruction)
    ensures m(pc) != 0xCB ==> BytesAsWrittenOf(m, pc, op) == BytesOf(m, pc, op)
    ensures m(pc) == 0xCB ==> PrintedLenAsWritten(m, pc, op) == PrefixLen(m, pc) + OperandLen(op) + 1
    ensures m(pc) == 0xCB ==>
      BytesAsWrittenOf(m, pc, op) == BytesOf(m, pc, op) + " " + Hex(m(Offset(pc, 2 + OperandLen(op))) as nat, 2)
  {
  }

  /**
   * For example 0xCB 0x37 (SWAP A, which has no operand) followed by 0x00
   * prints as "CB 37 00".
   */
  lemma BytesAsWrittenSwap(m: CpuSpec.Memory, op: Instruction)
    requires m(0x0100) == 0xCB && m(0x0101) == 0x37 && m(0x0102) == 0x00 && OperandLen(op) == 0
    ensures BytesOf(m, 0x0100, op) == "CB 37"
    ensures BytesAsWrittenOf(m, 0x0100, op) == "CB 37 00"
  {
    HexByte(0xCB);
    HexByte(0x37);
    HexByte(0);
    assert Digits(m, 0x0100, 0) == "CB";
    assert Digits(m, 0x0100, 1) == "37";
    assert Offset(0x0100, 2) == 0x0102;
    assert Digits(m, 0x0100, 2) == "00";
    assert Field(m, 0x0100, 2) == "CB 37";
  }

  /** The operand loop: `count` more bytes, each as a space and two digits. */
  method AppendBytes(m: CpuSpec.Memory, pc: bv16, start: nat, count: nat, str0: string) returns (str: string)
    requires start > 0 && str0 == Field(m, pc, start)
    ensures str == Field(m, pc, start + count)
  {
    str := str0;
    var at := Offset(pc, start);
    for i := 0 to count
      invariant at == Offset(pc, start + i)
      invariant str == Field(m, pc, start + i)
    {
      str := str + " " + Hex(m(at) as nat, 2);
      at := at + 1;
    }
  }

  /** The opcode bytes: the opcode, and after a 0xCB prefix the second opcode byte. */
  method OpcodeBytes(m: CpuSpec.Memory, pc: bv16) returns (str: string, opsize: nat)
    ensures opsize == PrefixLen(m, pc)
    ensures str == Field(m, pc, opsize)
  {
    var opcode := m(pc);
    str := Hex(opcode as nat, 2);
    opsize := 1;
    if opcode == 0xCB {
      str := str + " " + Hex(m(pc + 1) as nat, 2);
      opsize := 2;
    }
  }

  /**
   * The bytes field as the program builds it for the entry `op`: the
   * opcode bytes, then `opsize - 1` further bytes, `opsize` counting the
   * opcode bytes.
   */
  method FormatBytesAsWrittenFor(m: CpuSpec.Memory, pc: bv16, op: Instruction) returns (str: string)
    ensures str == BytesAsWrittenOf(m, pc, op)
  {
    var opsize;
    str, opsize := OpcodeBytes(m, pc);
    var start := opsize;
    opsize := opsize + ArgSize(op.arg1);
    opsize := opsize + ArgSize(op.arg2);
    str := AppendBytes(m, pc, start, opsize - 1, str);
  }

  /** The bytes field with one byte per operand byte after the opcode bytes. */
  method FormatBytesFor(m: CpuSpec.Memory, pc: bv16, op: Instruction) returns (str: string)
    ensures str == BytesOf(m, pc, op)
  {
    var opsize;
    str, opsize := OpcodeBytes(m, pc);
    var start := opsize;
    opsize := opsize + ArgSize(op.arg1);
    opsize := opsize + ArgSize(op.arg2);
    str := AppendBytes(m, pc, start, opsize - start, str);
  }

  /** The bytes field the program prints for the instruction at `pc`. */
  method FormatBytesAsWritten(m: CpuSpec.Memory, pc: bv16) returns (str: string)
    ensures str == BytesAsWrittenOf(m, pc, InstrAt(m, pc))
  {
    var op, _ := Lookup(m, pc);
    str := FormatBytesAsWrittenFor(m, pc, op);
  }

  method FormatBytes(m: CpuSpec.Memory, pc: bv16) returns (str: string)
    ensures str == BytesOf(m, pc, InstrAt(m, pc))
  {
    var op, _ := Lookup(m, pc);
    str := FormatBytesFor(m, pc, op);
  }

  // ---------------------------------------------------------------------
  // The instruction text

  /** Where the operand bytes start: after the opcode, or after both opcode bytes behind 0xCB. */
  function ArgAt(m: CpuSpec.Memory, pc: bv16): bv16
  {
    if m(pc) == 0xCB then pc + 2 else pc + 1
  }

  /** The template, with the value of the first operand that has a size substituted, if there is one. */
  function OperandText(m: CpuSpec.Memory, pc: bv16, op: Instruction, text: string): string
  {
    if ArgSize(op.arg1) > 0 then Format(text, ArgValue(op.arg1, m, ArgAt(m, pc)) as nat)
    else if ArgSize(op.arg2) > 0 then Format(text, ArgValue(op.arg2, m, ArgAt(m, pc)) as nat)
    else text
  }

  /** The note on an absolute operand address: the address, then the byte stored there. */
  function AddressNote(addr: bv16, w: nat, val: bv16): string
  {
    " @ ($" + Hex(addr as nat, w) + ")=" + ByteNote(val)
  }

  /** A byte value in two digits, as `%02X` of the 16-bit `val` shows it. */
  function ByteNote(val: bv16): string
  {
    Hex(val as nat, 2)
  }

  /** The address an `(a8)` operand names: the page 0xFF00 plus the byte after the opcode. */
  function HighAddress(m: CpuSpec.Memory, pc: bv16): bv16
  {
    CpuSpec.HighPage(m(pc + 1))
  }

  /** The address an `(a16)` operand names: the little-endian word after the opcode. */
  function WordAddress(m: CpuSpec.Memory, pc: bv16): bv16
  {
    ArgValue(Ind16, m, pc + 1)
  }

  predicate RegisterIndirect(arg: Arg)
  {
    arg.IndC? || arg.IndBC? || arg.IndDE? || arg.IndHL? || arg.IndHLI? || arg.IndHLD?
  }

  /** The address a register-indirect operand names: the page 0xFF00 plus C, or a register pair. */
  function RegisterAddress(arg: Arg, r: CpuSpec.Regs): bv16
  {
    match arg
    case IndC => CpuSpec.HighPage(r.c)
    case IndBC => CpuSpec.BC(r)
    case IndDE => CpuSpec.DE(r)
    case _ => CpuSpec.HL(r)
  }

  /** The label of a register-indirect operand's note. */
  function RegisterLabel(arg: Arg): string
  {
    match arg
    case IndC => " @ (C)="
    case IndBC => " @ (BC)="
    case IndDE => " @ (DE)="
    case _ => " @ (HL)="
  }

  /**
   * The memory value an indirect operand refers to, as intended: the
   * register or address it names and the byte stored there; nothing for
   * the other operands.
   */
  function MemvalText(arg: Arg, m: CpuSpec.Memory, r: CpuSpec.Regs): string
  {
    if RegisterIndirect(arg) then RegisterLabel(arg) + ByteNote(m(RegisterAddress(arg, r)) as bv16)
    else if arg.Ind8? then AddressNote(HighAddress(m, r.pc), 2, m(HighAddress(m, r.pc)) as bv16)
    else if arg.Ind16? then AddressNote(WordAddress(m, r.pc), 4, m(WordAddress(m, r.pc)) as bv16)
    else ""
  }

  /**
   * The memory value as the program shows it: for `(a8)` and `(a16)` the
   * byte is read before the address is computed, from address 0.
   */
  function MemvalTextAsWritten(arg: Arg, m: CpuSpec.Memory, r: CpuSpec.Regs): string
  {
    if arg.Ind8? then AddressNote(HighAddress(m, r.pc), 2, m(0) as bv16)
    else if arg.Ind16? then AddressNote(WordAddress(m, r.pc), 4, m(0) as bv16)
    else MemvalText(arg, m, r)
  }

  /** The text field for the entry `op` with template `text`, as intended. */
  function TextOf(m: CpuSpec.Memory, r: CpuSpec.Regs, op: Instruction, text: string): string
  {
    if op.handler.None? then "???"
    else OperandText(m, r.pc, op, text) + MemvalText(op.arg1, m, r) + MemvalText(op.arg2, m, r)
  }

  /** The text field as the program builds it. */
  function TextAsWrittenOf(m: CpuSpec.Memory, r: CpuSpec.Regs, op: Instruction, text: string): string
  {
    if op.handler.None? then "???"
    else OperandText(m, r.pc, op, text) + MemvalTextAsWritten(op.arg1, m, r) + MemvalTextAsWritten(op.arg2, m, r)
  }

  /**
   * An entry without a handler shows as "???" whatever its template; with
   * a handler the text starts with the template, its conversion showing
   * the first sized operand's immediate, and a template is left as it is
   * when no operand has a size.
   */
  lemma TextShowsOperand(m: CpuSpec.Memory, r: CpuSpec.Regs, op: Instruction, p: string, q: string, w: nat)
    requires NoPercent(p) && NoPercent(q) && (w == 2 || w == 4)
    ensures op.handler.None? ==> TextOf(m, r, op, p + Conv(w) + q) == "???"
    ensures op.handler.Some? && ArgSize(op.arg1) > 0 ==>
      OperandText(m, r.pc, op, p + Conv(w) + q) == p + Hex(ArgValue(op.arg1, m, ArgAt(m, r.pc)) as nat, w) + q
    ensures op.handler.Some? && ArgSize(op.arg1) == 0 && ArgSize(op.arg2) > 0 ==>
      OperandText(m, r.pc, op, p + Conv(w) + q) == p + Hex(ArgValue(op.arg2, m, ArgAt(m, r.pc)) as nat, w) + q
  {
    FormatOne(p, q, w, ArgValue(op.arg1, m, ArgAt(m, r.pc)) as nat);
    FormatOne(p, q, w, ArgValue(op.arg2, m, ArgAt(m, r.pc)) as nat);
  }

  /** Without sized operands the template is copied unchanged. */
  lemma TextWithoutOperand(m: CpuSpec.Memory, r: CpuSpec.Regs, op: Instruction, text: string)
    requires op.handler.Some? && ArgSize(op.arg1) == 0 && ArgSize(op.arg2) == 0
    ensures TextOf(m, r, op, text) == text + MemvalText(op.arg1, m, r) + MemvalText(op.arg2, m, r)
  {
  }

  /** The registers once the processor has fetched the opcode. */
  function Fetched(r: CpuSpec.Regs): CpuSpec.Regs
  {
    r.(pc := r.pc + 1)
  }

  /** The byte the processor reads for a register-indirect operand is the one at its address. */
  lemma RegisterOperandValue(arg: Arg, m: CpuSpec.Memory, r: CpuSpec.Regs)
    requires RegisterIndirect(arg)
    ensures CpuSpec.OperandValue(r, m, arg) == m(RegisterAddress(arg, r)) as bv16
  {
    if arg.IndC? {
    } else if arg.IndBC? {
    } else if arg.IndDE? {
    } else if arg.IndHL? {
    } else if arg.IndHLI? {
    } else {
    }
  }

  /**
   * With the corrected reading, the note on a register-indirect operand
   * ends in the byte the processor reads for it (which does not depend
   * on PC).
   */
  lemma MemvalShowsRegisterOperand(arg: Arg, m: CpuSpec.Memory, r: CpuSpec.Regs)
    requires RegisterIndirect(arg)
    ensures MemvalText(arg, m, r) == RegisterLabel(arg) + ByteNote(CpuSpec.OperandValue(r, m, arg))
  {
    RegisterOperandValue(arg, m, r);
  }

  /** The byte the processor reads for an `(a8)` operand, PC being past the opcode. */
  lemma HighOperandValue(m: CpuSpec.Memory, f: CpuSpec.Regs)
    ensures CpuSpec.OperandValue(f, m, Ind8) == m(CpuSpec.HighPage(m(f.pc))) as bv16
  {
  }

  /** The byte the processor reads for an `(a16)` operand, PC being past the opcode. */
  lemma WordOperandValue(m: CpuSpec.Memory, f: CpuSpec.Regs)
    ensures CpuSpec.OperandValue(f, m, Ind16) == m(CpuSpec.Read16(m, f.pc)) as bv16
  {
  }

  /**
   * With the corrected reading, the note on an `(a8)` operand shows the
   * address in the page 0xFF00 that the byte after the opcode selects,
   * and the byte the processor reads there.
   */
  lemma MemvalShowsHighOperand(m: CpuSpec.Memory, r: CpuSpec.Regs)
    ensures HighAddress(m, r.pc) == CpuSpec.HighPage(CpuSpec.Read(m, r.pc + 1))
    ensures MemvalText(Ind8, m, r) == AddressNote(HighAddress(m, r.pc), 2, CpuSpec.OperandValue(Fetched(r), m, Ind8))
  {
    HighOperandAt(m, r);
  }

  /** The byte the processor reads for an `(a8)` operand is the one at the address the note names. */
  lemma HighOperandAt(m: CpuSpec.Memory, r: CpuSpec.Regs)
    ensures CpuSpec.OperandValue(Fetched(r), m, Ind8) == m(HighAddress(m, r.pc)) as bv16
  {
    HighOperandValue(m, Fetched(r));
    assert HighAddress(m, r.pc) == CpuSpec.HighPage(m(Fetched(r).pc));
  }

  /** The 16-bit case: the note shows the address the processor uses and the byte it reads there. */
  lemma MemvalShowsWordOperand(m: CpuSpec.Memory, r: CpuSpec.Regs)
    ensures WordAddress(m, r.pc) == CpuSpec.Read16(m, r.pc + 1)
    ensures MemvalText(Ind16, m, r) == AddressNote(WordAddress(m, r.pc), 4, CpuSpec.OperandValue(Fetched(r), m, Ind16))
  {
    WordOperandAt(m, r);
  }

  /** The byte the processor reads for an `(a16)` operand is the one at the address the note names. */
  lemma WordOperandAt(m: CpuSpec.Memory, r: CpuSpec.Regs)
    ensures WordAddress(m, r.pc) == CpuSpec.Read16(m, Fetched(r).pc)
    ensures CpuSpec.OperandValue(Fetched(r), m, Ind16) == m(WordAddress(m, r.pc)) as bv16
  {
    WordOperandValue(m, Fetched(r));
  }

  /** Only indirect operands get a note. */
  lemma MemvalOnlyIndirect(arg: Arg, m: CpuSpec.Memory, r: CpuSpec.Regs)
    requires !RegisterIndirect(arg) && !arg.Ind8? && !arg.Ind16?
    ensures MemvalText(arg, m, r) == "" && MemvalTextAsWritten(arg, m, r) == ""
  {
  }

  /** The program's note on an `(a8)` or `(a16)` operand shows the byte at address 0, whatever the address. */
  lemma MemvalAsWrittenReadsZero(m: CpuSpec.Memory, r: CpuSpec.Regs)
    ensures MemvalTextAsWritten(Ind8, m, r) == AddressNote(HighAddress(m, r.pc), 2, m(0) as bv16)
    ensures MemvalTextAsWritten(Ind16, m, r) == AddressNote(WordAddress(m, r.pc), 4, m(0) as bv16)
  {
  }

  /**
   * `LDH A,($44)` at 0x0100 with 0x90 at 0xFF44 and 0 at address 0: the
   * program notes `@ ($FF44)=00`, the corrected reading `@ ($FF44)=90`.
   */
  lemma MemvalAsWrittenExample(m: CpuSpec.Memory, r: CpuSpec.Regs)
    requires r.pc == 0x0100 && m(0x0101) == 0x44 && m(0xFF44) == 0x90 && m(0) == 0
    ensures MemvalTextAsWritten(Ind8, m, r) == " @ ($FF44)=00"
    ensures MemvalText(Ind8, m, r) == " @ ($FF44)=90"
  {
    assert HighAddress(m, r.pc) == 0xFF44;
    assert Hex(0xFF44, 2) == "FF44" by {
      assert Hex(0xFF4, 1) == Hex(0xFF, 0) + "4";
      assert Hex(0xFF, 0) == Hex(0xF, 0) + "F";
    }
    HexByte(0);
    HexByte(0x90);
  }

  // ---------------------------------------------------------------------
  // Flags and registers

  function FlagChar(on: bool, c: char): char
  {
    if on then c else '-'
  }

  /** `[Z N H C]`, each letter replaced by `-` when its flag is clear. */
  function FlagsText(r: CpuSpec.Regs): string
  {
    var f := CpuSpec.Flags(r);
    ['[', FlagChar(f.z, 'Z'), ' ', FlagChar(f.n, 'N'), ' ', FlagChar(f.h, 'H'), ' ', FlagChar(f.c, 'C'), ']']
  }

  /** The flags field has nine characters and shows each flag bit of F by its letter or a dash. */
  lemma FlagsShows(r: CpuSpec.Regs)
    ensures |FlagsText(r)| == 9
    ensures FlagsText(r)[1] == (if r.f & 0x80 != 0 then 'Z' else '-')
    ensures FlagsText(r)[3] == (if r.f & 0x40 != 0 then 'N' else '-')
    ensures FlagsText(r)[5] == (if r.f & 0x20 != 0 then 'H' else '-')
    ensures FlagsText(r)[7] == (if r.f & 0x10 != 0 then 'C' else '-')
  {
  }

  /** `A:%02X F:%02X B:%02X C:%02X D:%02X E:%02X H:%02X L:%02X SP:%04X`. */
  function RegsText(r: CpuSpec.Regs): string
  {
    "A:" + Hex(r.a as nat, 2) + " F:" + Hex(r.f as nat, 2) + " B:" + Hex(r.b as nat, 2) +
    " C:" + Hex(r.c as nat, 2) + " D:" + Hex(r.d as nat, 2) + " E:" + Hex(r.e as nat, 2) +
    " H:" + Hex(r.h as nat, 2) + " L:" + Hex(r.l as nat, 2) + " SP:" + Hex(r.sp as nat, 4)
  }

  /** The registers field has a fixed width of 47 characters. */
  lemma RegsTextLength(r: CpuSpec.Regs)
    ensures |RegsText(r)| == 47
  {
    HexWidths(r.a, r.sp);
    HexWidths(r.f, 0);
    HexWidths(r.b, 0);
    HexWidths(r.c, 0);
    HexWidths(r.d, 0);
    HexWidths(r.e, 0);
    HexWidths(r.h, 0);
    HexWidths(r.l, 0);
  }

  // ---------------------------------------------------------------------
  // The trace line

  /** `"  0x%04X: "`: ten characters, so the padding to column 9 after it never adds anything. */
  function AddressText(pc: bv16): string
  {
    "  0x" + Hex(pc as nat, 4) + ": "
  }

  /**
   * The line built on `str0` from the address, a bytes field and a text
   * field: each field is padded with spaces to at least columns 9, 28, 54
   * and 68 before the next one, and the registers come last.
   */
  function LineOf(str0: string, r: CpuSpec.Regs, bytes: string, text: string): string
  {
    var s1 := Strings.PadText(str0 + AddressText(r.pc), 9, ' ') + bytes;
    var s2 := Strings.PadText(s1, 28, ' ') + text;
    var s3 := Strings.PadText(s2, 54, ' ') + FlagsText(r);
    Strings.PadText(s3, 68, ' ') + RegsText(r)
  }

  /** The line for the instruction at PC, as intended. */
  function LineSpec(str0: string, m: CpuSpec.Memory, r: CpuSpec.Regs): string
  {
    var op := InstrAt(m, r.pc);
    LineOf(str0, r, BytesOf(m, r.pc, op), TextOf(m, r, op, TextAt(m, r.pc)))
  }

  /** The line the program prints. */
  function LineAsWrittenSpec(str0: string, m: CpuSpec.Memory, r: CpuSpec.Regs): string
  {
    var op := InstrAt(m, r.pc);
    LineOf(str0, r, BytesAsWrittenOf(m, r.pc, op), TextAsWrittenOf(m, r, op, TextAt(m, r.pc)))
  }

  function Max(a: int, b: int): int
  {
    if a < b then b else a
  }

  /** Padding `s` to column `n` and appending `x`: `s` is kept, spaces up to the column, then `x`. */
  lemma PadAppend(s: string, n: nat, x: string)
    ensures |Strings.PadText(s, n, ' ') + x| == Max(n, |s|) + |x|
    ensures IsPrefix(s, Strings.PadText(s, n, ' ') + x)
    ensures forall i :: |s| <= i < Max(n, |s|) ==> (Strings.PadText(s, n, ' ') + x)[i] == ' '
    ensures (Strings.PadText(s, n, ' ') + x)[Max(n, |s|)..] == x
  {
    var t := Strings.PadText(s, n, ' ') + x;
    assert t[..|s|] == Strings.PadText(s, n, ' ')[..|s|];
  }

  predicate IsPrefix(b: string, a: string)
  {
    |b| <= |a| && a[..|b|] == b
  }

  /** A prefix agrees with the whole text wherever it is defined. */
  lemma PrefixAgrees(b: string, a: string)
    requires IsPrefix(b, a)
    ensures forall i :: 0 <= i < |b| ==> a[i] == b[i]
  {
    forall i | 0 <= i < |b|
      ensures a[i] == b[i]
    {
      assert a[..|b|][i] == a[i];
    }
  }

  lemma PrefixTrans(c: string, b: string, a: string)
    requires IsPrefix(c, b) && IsPrefix(b, a)
    ensures IsPrefix(c, a)
  {
    PrefixAgrees(c, b);
    PrefixAgrees(b, a);
    assert a[..|c|] == c;
  }

  /** What a prefix holds between `j` and `k`, the whole text holds there too. */
  lemma PrefixKeeps(b: string, a: string, j: nat, k: nat)
    requires IsPrefix(b, a) && j <= k <= |b|
    ensures a[j..k] == b[j..k]
  {
    PrefixAgrees(b, a);
    assert a[j..k] == b[j..k];
  }

  /** The five stages of a line, each a prefix of the next, with their lengths. */
  lemma LineStages(str0: string, r: CpuSpec.Regs, bytes: string, text: string)
    ensures var s0 := str0 + AddressText(r.pc);
      var s1 := Strings.PadText(s0, 9, ' ') + bytes;
      var s2 := Strings.PadText(s1, 28, ' ') + text;
      var s3 := Strings.PadText(s2, 54, ' ') + FlagsText(r);
      var line := Strings.PadText(s3, 68, ' ') + RegsText(r);
      line == LineOf(str0, r, bytes, text) &&
      |s0| == |str0| + 10 && IsPrefix(str0, s0) && s0[|str0|..] == AddressText(r.pc) &&
      IsPrefix(s0, line) && IsPrefix(s1, line) && IsPrefix(s2, line) && IsPrefix(s3, line)
  {
    HexWidths(0, r.pc);
    var s0 := str0 + AddressText(r.pc);
    var s1 := Strings.PadText(s0, 9, ' ') + bytes;
    var s2 := Strings.PadText(s1, 28, ' ') + text;
    var s3 := Strings.PadText(s2, 54, ' ') + FlagsText(r);
    var line := Strings.PadText(s3, 68, ' ') + RegsText(r);
    assert s0[..|str0|] == str0;
    PadAppend(s0, 9, bytes);
    PadAppend(s1, 28, text);
    PadAppend(s2, 54, FlagsText(r));
    PadAppend(s3, 68, RegsText(r));
    PrefixTrans(s2, s3, line);
    PrefixTrans(s1, s2, line);
    PrefixTrans(s0, s1, line);
  }

  /** The first column after the address field, `str0` and ten characters in. */
  function BytesColumn(str0: string): nat
  {
    |str0| + 10
  }

  /** The column of the text field: 28, or the end of the bytes field if that is further. */
  function TextColumn(str0: string, bytes: string): nat
  {
    Max(28, BytesColumn(str0) + |bytes|)
  }

  /** The column of the flags field: 54, or the end of the text field if that is further. */
  function FlagsColumn(str0: string, bytes: string, text: string): nat
  {
    Max(54, TextColumn(str0, bytes) + |text|)
  }

  /** The column of the registers field: 68, or the end of the flags field if that is further. */
  function RegsColumn(str0: string, bytes: string, text: string): nat
  {
    Max(68, FlagsColumn(str0, bytes, text) + 9)
  }

  /** The line starts with `str0`, the ten-character address field and the bytes. */
  lemma LineStartsWithBytes(str0: string, r: CpuSpec.Regs, bytes: string, text: string)
    ensures |LineOf(str0, r, bytes, text)| >= BytesColumn(str0) + |bytes|
    ensures LineOf(str0, r, bytes, text)[..|str0|] == str0
    ensures LineOf(str0, r, bytes, text)[|str0|..BytesColumn(str0)] == AddressText(r.pc)
    ensures LineOf(str0, r, bytes, text)[BytesColumn(str0)..BytesColumn(str0) + |bytes|] == bytes
  {
    LineStages(str0, r, bytes, text);
    var s0 := str0 + AddressText(r.pc);
    var s1 := Strings.PadText(s0, 9, ' ') + bytes;
    var line := LineOf(str0, r, bytes, text);
    PadAppend(s0, 9, bytes);
    PrefixKeeps(s0, line, 0, |str0|);
    assert s0[..|str0|] == str0;
    PrefixKeeps(s0, line, |str0|, |s0|);
    PrefixKeeps(s1, line, |s0|, |s1|);
  }

  /** Spaces fill the gap up to the text column, where the text follows. */
  lemma LineShowsText(str0: string, r: CpuSpec.Regs, bytes: string, text: string)
    ensures |LineOf(str0, r, bytes, text)| >= TextColumn(str0, bytes) + |text|
    ensures forall i :: BytesColumn(str0) + |bytes| <= i < TextColumn(str0, bytes) ==> LineOf(str0, r, bytes, text)[i] == ' '
    ensures LineOf(str0, r, bytes, text)[TextColumn(str0, bytes)..TextColumn(str0, bytes) + |text|] == text
  {
    LineStages(str0, r, bytes, text);
    var s0 := str0 + AddressText(r.pc);
    var s1 := Strings.PadText(s0, 9, ' ') + bytes;
    var s2 := Strings.PadText(s1, 28, ' ') + text;
    var line := LineOf(str0, r, bytes, text);
    PadAppend(s0, 9, bytes);
    PadAppend(s1, 28, text);
    PrefixAgrees(s2, line);
    PrefixKeeps(s2, line, TextColumn(str0, bytes), |s2|);
  }

  /** Spaces fill the gap up to the flags column, where the nine-character flags field follows. */
  lemma LineShowsFlags(str0: string, r: CpuSpec.Regs, bytes: string, text: string)
    ensures |LineOf(str0, r, bytes, text)| >= FlagsColumn(str0, bytes, text) + 9
    ensures forall i :: TextColumn(str0, bytes) + |text| <= i < FlagsColumn(str0, bytes, text) ==>
      LineOf(str0, r, bytes, text)[i] == ' '
    ensures LineOf(str0, r, bytes, text)[FlagsColumn(str0, bytes, text)..FlagsColumn(str0, bytes, text) + 9] == FlagsText(r)
  {
    LineStages(str0, r, bytes, text);
    var s0 := str0 + AddressText(r.pc);
    var s1 := Strings.PadText(s0, 9, ' ') + bytes;
    var s2 := Strings.PadText(s1, 28, ' ') + text;
    var s3 := Strings.PadText(s2, 54, ' ') + FlagsText(r);
    var line := LineOf(str0, r, bytes, text);
    PadAppend(s0, 9, bytes);
    PadAppend(s1, 28, text);
    PadAppend(s2, 54, FlagsText(r));
    PrefixAgrees(s3, line);
    PrefixKeeps(s3, line, FlagsColumn(str0, bytes, text), |s3|);
  }

  /** Spaces fill the gap up to the registers column, and the registers end the line. */
  lemma LineEndsWithRegs(str0: string, r: CpuSpec.Regs, bytes: string, text: string)
    ensures |LineOf(str0, r, bytes, text)| == RegsColumn(str0, bytes, text) + 47
    ensures forall i :: FlagsColumn(str0, bytes, text) + 9 <= i < RegsColumn(str0, bytes, text) ==>
      LineOf(str0, r, bytes, text)[i] == ' '
    ensures LineOf(str0, r, bytes, text)[RegsColumn(str0, bytes, text)..] == RegsText(r)
  {
    LineStages(str0, r, bytes, text);
    RegsTextLength(r);
    var s0 := str0 + AddressText(r.pc);
    var s1 := Strings.PadText(s0, 9, ' ') + bytes;
    var s2 := Strings.PadText(s1, 28, ' ') + text;
    var s3 := Strings.PadText(s2, 54, ' ') + FlagsText(r);
    PadAppend(s0, 9, bytes);
    PadAppend(s1, 28, text);
    PadAppend(s2, 54, FlagsText(r));
    PadAppend(s3, 68, RegsText(r));
  }

  // ---------------------------------------------------------------------
  // Building the text and the line

  /** The template with the first sized operand's value substituted, the operands read after the opcode bytes. */
  method AddOperandText(str0: string, m: CpuSpec.Memory, pc0: bv16, op: Instruction, text: string) returns (str: string)
    ensures str == str0 + OperandText(m, pc0, op, text)
  {
    var pc := pc0;
    var opcode := m(pc);
    pc := pc + 1;
    if opcode == 0xCB {
      pc := pc + 1;
    }
    if ArgSize(op.arg1) > 0 {
      var value := ArgValue(op.arg1, m, pc);
      str := str0 + Format(text, value as nat);
    } else if ArgSize(op.arg2) > 0 {
      var value := ArgValue(op.arg2, m, pc);
      str := str0 + Format(text, value as nat);
    } else {
      str := str0 + text;
    }
  }

  /** `disasm_format_text` for the entry `op` with template `text`, as intended. */
  method FormatTextFor(m: CpuSpec.Memory, r: CpuSpec.Regs, op: Instruction, text: string) returns (str: string)
    ensures str == TextOf(m, r, op, text)
  {
    if op.handler.None? {
      return "???";
    }
    var operand := AddOperandText([], m, r.pc, op, text);
    assert operand == OperandText(m, r.pc, op, text);
    var note1 := MemvalText(op.arg1, m, r);
    var note2 := MemvalText(op.arg2, m, r);
    str := operand + note1 + note2;
  }

  /** `disasm_format_text` as the program has it. */
  method FormatTextAsWrittenFor(m: CpuSpec.Memory, r: CpuSpec.Regs, op: Instruction, text: string) returns (str: string)
    ensures str == TextAsWrittenOf(m, r, op, text)
  {
    if op.handler.None? {
      return "???";
    }
    var operand := AddOperandText([], m, r.pc, op, text);
    assert operand == OperandText(m, r.pc, op, text);
    var note1 := MemvalTextAsWritten(op.arg1, m, r);
    var note2 := MemvalTextAsWritten(op.arg2, m, r);
    str := operand + note1 + note2;
  }

  /** Lays out the line from its fields, padding between them. */
  method Assemble(str0: string, r: CpuSpec.Regs, bytes: string, text: string) returns (line: string)
    ensures line == LineOf(str0, r, bytes, text)
  {
    line := str0 + AddressText(r.pc);
    line := Strings.PadText(line, 9, ' ');
    line := line + bytes;
    line := Strings.PadText(line, 28, ' ');
    line := line + text;
    line := Strings.PadText(line, 54, ' ');
    line := line + FlagsText(r);
    line := Strings.PadText(line, 68, ' ');
    line := line + RegsText(r);
  }

  /** `disasm_step`, as intended: the line for the instruction at PC; the machine is left as it was. */
  method Step(str0: string, m: CpuSpec.Memory, r: CpuSpec.Regs) returns (line: string)
    ensures line == LineSpec(str0, m, r)
  {
    var op, text := Lookup(m, r.pc);
    var bytes := FormatBytesFor(m, r.pc, op);
    var t := FormatTextFor(m, r, op, text);
    line := Assemble(str0, r, bytes, t);
  }

  /** `disasm_step` as the program has it. */
  method StepAsWritten(str0: string, m: CpuSpec.Memory, r: CpuSpec.Regs) returns (line: string)
    ensures line == LineAsWrittenSpec(str0, m, r)
  {
    var op, text := Lookup(m, r.pc);
    var bytes := FormatBytesAsWrittenFor(m, r.pc, op);
    var t := FormatTextAsWrittenFor(m, r, op, text);
    line := Assemble(str0, r, bytes, t);
  }
}
