/**
 * The processor as the program holds it: an object whose fields are the
 * register file, the interrupt and countdown state and the address space,
 * and whose methods update those fields in place.  Every method is proved
 * to leave exactly the state the corresponding function of module CpuSpec
 * describes, so the properties proved there hold of it.
 */
module CpuCore {
  import opened Wrappers
  import opened Opcodes
  import Alu
  import opened CpuSpec

  /** A method's outcome paired with the state it left, in the shape of the CpuSpec functions' results. */
  function WithState<T>(res: Result<T, Panic>, s: State): Result<(T, State), Panic>
  {
    match res
    case Ok(v) => Ok((v, s))
    case Err(e) => Err(e)
  }

  function StateOf(res: Result<(), Panic>, s: State): Result<State, Panic>
  {
    match res
    case Ok(_) => Ok(s)
    case Err(e) => Err(e)
  }

  class Cpu {
    /** A, F, B, C, D, E, H, L, SP and PC; the pairs are views of two bytes each. */
    var regs: Regs
    /** IME, the pending EI, the halt flag, the step countdown and the cycle counter. */
    var ctrl: Control
    /** The address space, reached through the memory unit's read and write. */
    var mem: Memory

    function Snapshot(): State
      reads this
    {
      State(regs, ctrl, mem)
    }

    /** A new processor in its reset state over the address space `m`. */
    constructor (m: Memory)
      ensures regs == InitialRegs && ctrl == InitialControl && mem == m
    {
      regs := Regs(0x01, 0xB0, 0x00, 0x13, 0x00, 0xD8, 0x01, 0x4D, 0xFFFE, 0x0000);
      ctrl := Control(0, -1, false, 0, 0);
      mem := m;
    }

    /** Reset sets the registers and control fields to their initial values; memory is left alone. */
    method Reset()
      modifies this
      ensures regs == InitialRegs && ctrl == InitialControl && mem == old(mem)
    {
      regs := regs.(a := 0x01, f := 0xB0, b := 0x00, c := 0x13, d := 0x00, e := 0xD8, h := 0x01, l := 0x4D);
      regs := regs.(sp := 0xFFFE, pc := 0x0000);
      ctrl := ctrl.(ime := 0, imeDelay := -1, halted := false, step := 0, cycle := 0);
    }

    /** PUSH: SP drops by two and the value is written at the new SP, low byte first. */
    method Push(v: bv16)
      modifies this
      ensures (regs, mem) == CpuSpec.Push(old(regs), old(mem), v)
      ensures ctrl == old(ctrl)
    {
      regs := regs.(sp := regs.sp - 2);
      mem := Write16(mem, regs.sp, v);
    }

    /** POP: the word at SP, and SP raised by two. */
    method Pop() returns (v: bv16)
      modifies this
      ensures (v, regs) == CpuSpec.Pop(old(regs), mem)
      ensures ctrl == old(ctrl) && mem == old(mem)
    {
      v := Read16(mem, regs.sp);
      regs := regs.(sp := regs.sp + 2);
    }

    /** Interrupt entry: HALT ends; with IME set, IME is cleared, PC pushed and PC set to the vector. */
    method Interrupt(addr: bv16)
      modifies this
      ensures Snapshot() == CpuSpec.Interrupt(old(Snapshot()), addr)
    {
      ctrl := ctrl.(halted := false);
      if ctrl.ime == 0 {
        return;
      }
      ctrl := ctrl.(ime := 0);
      Push(regs.pc);
      regs := regs.(pc := addr);
    }

    /**
     * Executes one instruction: fetches the opcode (and the second byte of a
     * prefixed one), aborts on an opcode without a handler, lets a pending EI
     * take effect and runs the handler.
     */
    method Execute() returns (res: Result<Instruction, Panic>)
      modifies this
      ensures CpuSpec.Execute(old(Snapshot())) == WithState(res, Snapshot())
    {
      ghost var s0 := Snapshot();
      var opcode := Read(mem, regs.pc);
      var fetched := Fetch(regs, mem);
      var op := fetched.0;
      regs := fetched.1;
      if op.handler.None? {
        return Err(InvalidOpcode(opcode));
      }
      if ctrl.imeDelay != -1 {
        ctrl := ctrl.(ime := ctrl.imeDelay as bv8, imeDelay := -1);
      }
      assert ctrl == ApplyDelay(s0.ctrl);
      var after := Run(Snapshot(), op, op.handler.value);
      if after.Err? {
        return Err(after.error);
      }
      regs, ctrl, mem := after.value.regs, after.value.ctrl, after.value.mem;
      return Ok(op);
    }

    /**
     * One machine cycle: a positive countdown only decrements; a halted
     * processor does nothing; otherwise one instruction executes and the
     * countdown grows by its cost less one, on top of the extra cycles a
     * taken branch added.
     */
    method Step() returns (res: Result<(), Panic>)
      modifies this
      ensures CpuSpec.Step(old(Snapshot())) == StateOf(res, Snapshot())
    {
      ghost var s0 := Snapshot();
      StepCycles(s0);
      if ctrl.step > 0 {
        ctrl := ctrl.(step := ctrl.step - 1);
        assert CpuSpec.Step(s0) == Ok(Snapshot());
        return Ok(());
      }
      if ctrl.halted {
        assert CpuSpec.Step(s0) == Ok(Snapshot());
        return Ok(());
      }
      StepExecutes(s0);
      var executed := Execute();
      if executed.Err? {
        assert CpuSpec.Execute(s0) == Err(executed.error);
        assert CpuSpec.Step(s0) == Err(executed.error);
        return Err(executed.error);
      }
      var op := executed.value;
      assert CpuSpec.Execute(s0) == Ok((op, Snapshot()));
      ghost var s1 := Snapshot();
      ctrl := ctrl.(step := ctrl.step + op.cycles - 1);
      ghost var t := CpuSpec.Step(s0).value;
      assert t.regs == s1.regs == regs;
      assert t.mem == s1.mem == mem;
      assert t.ctrl == s1.ctrl.(step := s1.ctrl.step + op.cycles - 1) == ctrl;
      assert t == Snapshot();
      return Ok(());
    }
  }
}
