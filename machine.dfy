/**
 * The machine loop around the components: interrupt arbitration between
 * the memory unit's IF/IE registers and the processor, the division of
 * the master clock (the processor runs on every fourth tick, the timer
 * and the picture unit on every tick, and their interrupt requests are
 * raised in IF), and the choice of cartridge mapper from the header.
 */
module Machine {
  import opened Wrappers
  import CpuSpec
  import CpuCore
  import Mmu
  import Timers
  import Ppu
  import Mbc1

  // ---------------------------------------------------------------------
  // Interrupt sources, in priority order

  /** The number of interrupt sources: VBLANK, LCD STAT, TIMER, SERIAL, JOYPAD. */
  const Sources: nat := 5

  /** The IF/IE bit of source `i`. */
  function Source(i: nat): (b: bv8)
    requires i < Sources
  {
    if i == 0 then 0x01 else if i == 1 then 0x02 else if i == 2 then 0x04 else if i == 3 then 0x08 else 0x10
  }

  /** The address the processor jumps to when source `i` is served. */
  function Vector(i: nat): (v: bv16)
    requires i < Sources
  {
    if i == 0 then 0x40 else if i == 1 then 0x48 else if i == 2 then 0x50 else if i == 3 then 0x58 else 0x60
  }

  predicate Requested(intf: bv8, i: nat)
    requires i < Sources
  {
    intf & Source(i) != 0
  }

  predicate Enabled(inte: bv8, i: nat)
    requires i < Sources
  {
    inte & Source(i) != 0
  }

  predicate Pending(intf: bv8, inte: bv8, i: nat)
    requires i < Sources
  {
    Requested(intf, i) && Enabled(inte, i)
  }

  /** The first source from `i` on that is both requested and enabled. */
  function FirstPending(intf: bv8, inte: bv8, i: nat): (r: Option<nat>)
    requires i <= Sources
    ensures r.Some? ==> i <= r.value < Sources && Pending(intf, inte, r.value)
    ensures r.Some? ==> forall j :: i <= j < r.value ==> !Pending(intf, inte, j)
    ensures r.None? ==> forall j :: i <= j < Sources ==> !Pending(intf, inte, j)
    decreases Sources - i
  {
    if i == Sources then None
    else if Pending(intf, inte, i) then Some(i)
    else FirstPending(intf, inte, i + 1)
  }

  /**
   * `gb_handle_interrupts`: nothing when IF or IE is zero; otherwise the
   * first pending source is the only one considered, and it is served
   * (its IF bit cleared and the processor sent to its vector) only when
   * IME is set.  The result is the new IF and the new processor state.
   */
  function HandleSpec(intf: bv8, inte: bv8, s: CpuSpec.State): (bv8, CpuSpec.State)
  {
    if intf == 0 || inte == 0 then (intf, s)
    else
      match FirstPending(intf, inte, 0)
      case None => (intf, s)
      case Some(i) =>
        if s.ctrl.ime != 0 then (intf & !Source(i), CpuSpec.Interrupt(s, Vector(i)))
        else (intf, s)
  }

  /** With IF or IE zero, or nothing both requested and enabled, nothing changes. */
  lemma HandleIdle(intf: bv8, inte: bv8, s: CpuSpec.State)
    requires intf == 0 || inte == 0 || forall j :: 0 <= j < Sources ==> !Pending(intf, inte, j)
    ensures HandleSpec(intf, inte, s) == (intf, s)
  {
  }

  /**
   * The source served is the first pending one: every source before it
   * is not pending, so a lower-priority request never wins over a
   * higher-priority one.
   */
  lemma HandlePriority(intf: bv8, inte: bv8, i: nat, j: nat)
    requires i < j < Sources && Pending(intf, inte, i)
    ensures FirstPending(intf, inte, 0).Some? && FirstPending(intf, inte, 0).value <= i
    ensures FirstPending(intf, inte, 0) != Some(j)
  {
  }

  /** With IME clear, the pending request stays in IF and the processor is not touched, PC included. */
  lemma HandleMasked(intf: bv8, inte: bv8, s: CpuSpec.State)
    requires s.ctrl.ime == 0
    ensures HandleSpec(intf, inte, s) == (intf, s)
  {
  }

  /** Clearing the bit of source `i` leaves the other sources' bits as they were. */
  lemma ClearOnly(intf: bv8, i: nat)
    requires i < Sources
    ensures !Requested(intf & !Source(i), i)
    ensures forall j :: 0 <= j < Sources && j != i ==> (Requested(intf & !Source(i), j) <==> Requested(intf, j))
  {
    forall j | 0 <= j < Sources && j != i
      ensures Requested(intf & !Source(i), j) <==> Requested(intf, j)
    {
      assert Source(i) & Source(j) == 0;
    }
  }

  /** Serving source `i` with IME set clears exactly its IF bit. */
  lemma HandleServesClears(intf: bv8, inte: bv8, s: CpuSpec.State, i: nat)
    requires intf != 0 && inte != 0 && FirstPending(intf, inte, 0) == Some(i) && s.ctrl.ime != 0
    ensures i < Sources
    ensures !Requested(HandleSpec(intf, inte, s).0, i)
    ensures forall j :: 0 <= j < Sources && j != i ==> (Requested(HandleSpec(intf, inte, s).0, j) <==> Requested(intf, j))
  {
    ClearOnly(intf, i);
  }

  /** Serving source `i` with IME set clears IME, ends HALT, pushes PC and continues at the source's vector. */
  lemma HandleServesEnters(intf: bv8, inte: bv8, s: CpuSpec.State, i: nat)
    requires intf != 0 && inte != 0 && FirstPending(intf, inte, 0) == Some(i) && s.ctrl.ime != 0
    ensures i < Sources
    ensures var s' := HandleSpec(intf, inte, s).1;
      s'.regs.pc == Vector(i) && s'.ctrl.ime == 0 && !s'.ctrl.halted &&
      s'.regs.sp == s.regs.sp - 2 && CpuSpec.Read16(s'.mem, s'.regs.sp) == s.regs.pc
  {
    assert HandleSpec(intf, inte, s).1 == CpuSpec.Interrupt(s, Vector(i));
  }

  /** VBLANK and TIMER both requested and enabled with IME set: VBLANK is served at 0x40 and TIMER stays requested. */
  lemma HandleExample(s: CpuSpec.State)
    requires s.ctrl.ime == 1
    ensures HandleSpec(0x05, 0x1F, s).0 == 0x04
    ensures HandleSpec(0x05, 0x1F, s).1.regs.pc == 0x40
  {
    assert Pending(0x05, 0x1F, 0);
    assert FirstPending(0x05, 0x1F, 0) == Some(0);
  }

  /** `gb_handle_interrupts` on the processor and the memory unit's IF and IE. */
  method HandleInterrupts(cpu: CpuCore.Cpu, mmu: Mmu.Unit)
    modifies cpu, mmu
    ensures (mmu.intf, cpu.Snapshot()) == HandleSpec(old(mmu.intf), old(mmu.inte), old(cpu.Snapshot()))
    ensures mmu.inte == old(mmu.inte)
  {
    if mmu.intf == 0 || mmu.inte == 0 {
      return;
    }
    ghost var first := FirstPending(mmu.intf, mmu.inte, 0);
    var i := 0;
    while i < Sources
      invariant 0 <= i <= Sources
      invariant FirstPending(mmu.intf, mmu.inte, i) == first
      invariant mmu.intf == old(mmu.intf) && mmu.inte == old(mmu.inte) && cpu.Snapshot() == old(cpu.Snapshot())
    {
      var requested := mmu.intf & Source(i) != 0;
      var enabled := mmu.inte & Source(i) != 0;
      if requested && enabled {
        assert first == Some(i);
        if cpu.ctrl.ime != 0 {
          mmu.intf := mmu.intf & !Source(i);
          cpu.Interrupt(Vector(i));
        }
        return;
      }
      i := i + 1;
    }
    assert first.None?;
  }

  // ---------------------------------------------------------------------
  // One tick of the master clock

  /** The processor runs on the ticks divisible by four. */
  predicate CpuTick(ticks: nat)
  {
    ticks % 4 == 0
  }

  /** IF after the requests of one tick: VBLANK, then LCD STAT, then TIMER. */
  function RaiseSpec(intf: bv8, vblank: bool, stat: bool, timer: bool): bv8
  {
    var a := if vblank then intf | Source(0) else intf;
    var b := if stat then a | Source(1) else a;
    if timer then b | Source(2) else b
  }

  /** Raising sets the bits of the sources that asked and keeps every other bit of IF. */
  lemma RaiseSets(intf: bv8, vblank: bool, stat: bool, timer: bool)
    ensures Requested(RaiseSpec(intf, vblank, stat, timer), 0) <==> Requested(intf, 0) || vblank
    ensures Requested(RaiseSpec(intf, vblank, stat, timer), 1) <==> Requested(intf, 1) || stat
    ensures Requested(RaiseSpec(intf, vblank, stat, timer), 2) <==> Requested(intf, 2) || timer
    ensures Requested(RaiseSpec(intf, vblank, stat, timer), 3) <==> Requested(intf, 3)
    ensures Requested(RaiseSpec(intf, vblank, stat, timer), 4) <==> Requested(intf, 4)
    ensures RaiseSpec(intf, vblank, stat, timer) & 0xE0 == intf & 0xE0
  {
  }

  /** Every tick is a processor tick exactly every fourth time: a run of four ticks from any point holds one. */
  lemma CpuTickEveryFourth(ticks: nat)
    ensures CpuTick(ticks) ==> !CpuTick(ticks + 1) && !CpuTick(ticks + 2) && !CpuTick(ticks + 3) && CpuTick(ticks + 4)
    ensures exists k :: ticks <= k < ticks + 4 && CpuTick(k)
  {
    var k := ticks + (4 - ticks % 4) % 4;
    assert CpuTick(k);
  }

  /** The loop's state: the components and the tick count. */
  class Board {
    const cpu: CpuCore.Cpu
    const mmu: Mmu.Unit
    const ppu: Ppu.Unit
    var ticks: nat

    constructor (cpu: CpuCore.Cpu, mmu: Mmu.Unit, ppu: Ppu.Unit)
      ensures this.cpu == cpu && this.mmu == mmu && this.ppu == ppu && ticks == 0
    {
      this.cpu := cpu;
      this.mmu := mmu;
      this.ppu := ppu;
      ticks := 0;
    }

    /** The processor part of a tick: on every fourth tick, interrupts are handled and the processor steps. */
    method CpuTurn() returns (res: Result<(), CpuSpec.Panic>)
      modifies cpu, mmu
      ensures mmu.inte == old(mmu.inte)
      ensures !CpuTick(ticks) ==> res.Ok? && cpu.Snapshot() == old(cpu.Snapshot()) && mmu.intf == old(mmu.intf)
      ensures CpuTick(ticks) ==>
        var (intf, s) := HandleSpec(old(mmu.intf), old(mmu.inte), old(cpu.Snapshot()));
        mmu.intf == intf && CpuSpec.Step(s) == CpuCore.StateOf(res, cpu.Snapshot())
    {
      res := Ok(());
      if ticks % 4 == 0 {
        HandleInterrupts(cpu, mmu);
        res := cpu.Step();
      }
    }

    /** The timer and the picture unit advance by one tick. */
    method StepDevices()
      requires ppu.Valid()
      modifies mmu.timer, ppu, ppu.frame
      ensures ppu.Valid() && ppu.regs == old(ppu.regs)
      ensures mmu.timer.State() == Timers.StepSpec(old(mmu.timer.State()))
      ensures ppu.Clock() == Ppu.StepSpec(old(ppu.Clock()), old(ppu.regs))
    {
      mmu.timer.Step();
      ppu.Step();
    }

    /** The VBLANK, LCD STAT and TIMER requests, each read and cleared, are set in IF. */
    method RaiseRequests()
      requires ppu.Valid()
      modifies mmu, mmu.timer, ppu
      ensures ppu.Valid()
      ensures ppu.Clock() == old(ppu.Clock()).(vblankInterrupt := false, statInterrupt := false) && ppu.regs == old(ppu.regs)
      ensures mmu.timer.State() == old(mmu.timer.State()).(interrupt := false)
      ensures mmu.intf == RaiseSpec(old(mmu.intf), old(ppu.vblankInterrupt), old(ppu.statInterrupt), old(mmu.timer.interrupt))
      ensures mmu.inte == old(mmu.inte)
    {
      var vblank := ppu.TakeVBlankInterrupt();
      if vblank {
        mmu.intf := mmu.intf | Source(0);
      }
      var stat := ppu.TakeStatInterrupt();
      if stat {
        mmu.intf := mmu.intf | Source(1);
      }
      var timer := mmu.timer.TakeInterrupt();
      if timer {
        mmu.intf := mmu.intf | Source(2);
      }
    }

    /**
     * The rest of a tick: the timer and the picture unit step, and the
     * requests they raised are moved into IF.
     */
    method ClockTurn()
      requires ppu.Valid()
      modifies mmu, mmu.timer, ppu, ppu.frame
      ensures ppu.Valid() && ppu.regs == old(ppu.regs)
      ensures var t := Timers.StepSpec(old(mmu.timer.State()));
        var c := Ppu.StepSpec(old(ppu.Clock()), old(ppu.regs));
        mmu.timer.State() == t.(interrupt := false) &&
        ppu.Clock() == c.(vblankInterrupt := false, statInterrupt := false) &&
        mmu.intf == RaiseSpec(old(mmu.intf), c.vblankInterrupt, c.statInterrupt, t.interrupt)
      ensures mmu.inte == old(mmu.inte)
    {
      StepDevices();
      RaiseRequests();
    }

    /** One tick of the run loop; a processor panic (an opcode without a handler) ends it early. */
    method Tick() returns (res: Result<(), CpuSpec.Panic>)
      requires ppu.Valid()
      modifies this, cpu, mmu, mmu.timer, ppu, ppu.frame
      ensures res.Ok? ==> ppu.Valid() && ticks == old(ticks) + 1
      ensures !CpuTick(old(ticks)) ==> res.Ok? && cpu.Snapshot() == old(cpu.Snapshot())
      ensures CpuTick(old(ticks)) ==>
        CpuSpec.Step(HandleSpec(old(mmu.intf), old(mmu.inte), old(cpu.Snapshot())).1) == CpuCore.StateOf(res, cpu.Snapshot())
      ensures res.Ok? ==>
        var before := if CpuTick(old(ticks)) then HandleSpec(old(mmu.intf), old(mmu.inte), old(cpu.Snapshot())).0 else old(mmu.intf);
        var t := Timers.StepSpec(old(mmu.timer.State()));
        var c := Ppu.StepSpec(old(ppu.Clock()), old(ppu.regs));
        mmu.timer.State() == t.(interrupt := false) &&
        mmu.intf == RaiseSpec(before, c.vblankInterrupt, c.statInterrupt, t.interrupt)
    ensures res.Ok? ==>
        ppu.Clock() == Ppu.StepSpec(old(ppu.Clock()), old(ppu.regs)).(vblankInterrupt := false, statInterrupt := false)
        && ppu.regs == old(ppu.regs) && mmu.inte == old(mmu.inte)
    {
      res := CpuTurn();
      if res.Err? {
        return;
      }
      ClockTurn();
      ticks := ticks + 1;
    }
  }

  // ---------------------------------------------------------------------
  // Mapper selection

  /** The cartridge types the program knows, as the header stores them. */
  const RomOnly: bv8 := 0x00
  const Mbc1Plain: bv8 := 0x01
  const Mbc1Ram: bv8 := 0x02
  const Mbc1RamBattery: bv8 := Mbc1.TypeRamBattery

  datatype MapperKind = Mbc0Mapper | Mbc1Mapper

  /** `gb_get_mapper`: MBC0 for a ROM-only cartridge, MBC1 for the three MBC1 types, none otherwise. */
  function GetMapper(cartridgeType: bv8): Option<MapperKind>
  {
    if cartridgeType == RomOnly then Some(Mbc0Mapper)
    else if cartridgeType == Mbc1Plain || cartridgeType == Mbc1Ram || cartridgeType == Mbc1RamBattery then Some(Mbc1Mapper)
    else None
  }

  /** Exactly the types 0x00 to 0x03 have a mapper; 0x00 alone gets MBC0. */
  lemma GetMapperKnown(cartridgeType: bv8)
    ensures GetMapper(cartridgeType).Some? <==> cartridgeType <= 0x03
    ensures GetMapper(cartridgeType) == Some(Mbc0Mapper) <==> cartridgeType == 0x00
    ensures GetMapper(cartridgeType) == Some(Mbc1Mapper) <==> 0x01 <= cartridgeType <= 0x03
  {
  }
}
