/**
 * The timer: DIV, TIMA, TMA and TAC behind addresses 0xFF04-0xFF07, two
 * internal prescaler counters and an interrupt flag that is read and
 * cleared.  The class holds the fields the program updates; the functions
 * on `TimerState` say what each operation does, and the lemmas what that
 * means over many steps.
 */
module Timers {
  import opened Wrappers
  import opened Addresses

  /** The error a timer access panics with. */
  datatype Fault = UnhandledRead(addr: Addr) | UnhandledWrite(addr: Addr)

  datatype TimerState = TimerState(
    divider: bv8, counter: bv8, reload: bv8, ctrl: bv8,
    interrupt: bool, internalDivider: int, internalCounter: int)

  /** Steps per TIMA increment, selected by the low two bits of TAC. */
  function Frequency(ctrl: bv8): (f: int)
    ensures f in {1024, 16, 64, 256}
  {
    var k := ctrl & 0x03;
    if k == 0 then 1024 else if k == 1 then 16 else if k == 2 then 64 else 256
  }

  /** TAC bit 2 enables TIMA. */
  predicate Enabled(ctrl: bv8)
  {
    ctrl & 0x04 != 0
  }

  const ResetState := TimerState(0, 0, 0, 0, false, 0, 0)

  /** The bytes behind 0xFF04-0xFF07; any other address panics. */
  function ReadSpec(t: TimerState, addr: Addr): (res: Result<bv8, Fault>)
    ensures res.Err? <==> !(0xFF04 <= addr <= 0xFF07)
    ensures addr == 0xFF04 ==> res == Ok(t.divider)
    ensures addr == 0xFF05 ==> res == Ok(t.counter)
    ensures addr == 0xFF06 ==> res == Ok(t.reload)
    ensures addr == 0xFF07 ==> res == Ok(t.ctrl)
  {
    if addr == 0xFF04 then Ok(t.divider)
    else if addr == 0xFF05 then Ok(t.counter)
    else if addr == 0xFF06 then Ok(t.reload)
    else if addr == 0xFF07 then Ok(t.ctrl)
    else Err(UnhandledRead(addr))
  }

  /** A write to DIV clears it whatever the value; the other three registers take the byte. */
  function WriteSpec(t: TimerState, addr: Addr, val: bv8): (res: Result<TimerState, Fault>)
    ensures res.Err? <==> !(0xFF04 <= addr <= 0xFF07)
    ensures addr == 0xFF04 ==> res == Ok(t.(divider := 0))
    ensures addr == 0xFF05 ==> res == Ok(t.(counter := val))
    ensures addr == 0xFF06 ==> res == Ok(t.(reload := val))
    ensures addr == 0xFF07 ==> res == Ok(t.(ctrl := val))
  {
    if addr == 0xFF04 then Ok(t.(divider := 0))
    else if addr == 0xFF05 then Ok(t.(counter := val))
    else if addr == 0xFF06 then Ok(t.(reload := val))
    else if addr == 0xFF07 then Ok(t.(ctrl := val))
    else Err(UnhandledWrite(addr))
  }

  /**
   * Reading a register back after writing it gives the byte written, except
   * DIV, which any write clears; the other three registers keep their values.
   */
  lemma ReadAfterWrite(t: TimerState, addr: Addr, other: Addr, val: bv8)
    requires 0xFF04 <= addr <= 0xFF07
    ensures WriteSpec(t, addr, val).Ok?
    ensures ReadSpec(WriteSpec(t, addr, val).value, addr) == Ok(if addr == 0xFF04 then 0 else val)
    ensures other != addr ==> ReadSpec(WriteSpec(t, addr, val).value, other) == ReadSpec(t, other)
  {
  }

  /** The DIV half of a step: the prescaler counts to 256, then DIV ticks. */
  function DividerStep(t: TimerState): TimerState
  {
    if t.internalDivider + 1 == 256 then t.(internalDivider := 0, divider := t.divider + 1)
    else t.(internalDivider := t.internalDivider + 1)
  }

  /**
   * The TIMA half of a step, when TAC enables it: the prescaler counts to
   * the selected frequency, then TIMA ticks; TIMA becoming 0xFF raises the
   * interrupt, TIMA wrapping to 0 reloads it from TMA.
   */
  function CounterStep(t: TimerState): TimerState
  {
    if !Enabled(t.ctrl) then t
    else if t.internalCounter + 1 != Frequency(t.ctrl) then t.(internalCounter := t.internalCounter + 1)
    else t.(internalCounter := 0, counter := Tick(t.counter, t.reload), interrupt := t.interrupt || t.counter + 1 == 0xFF)
  }

  /** TIMA after one tick: the next value, or TMA when it wraps to 0. */
  function Tick(counter: bv8, reload: bv8): bv8
  {
    if counter == 0xFF then reload else counter + 1
  }

  function StepSpec(t: TimerState): TimerState
  {
    CounterStep(DividerStep(t))
  }

  /** `n` steps in a row. */
  function Steps(t: TimerState, n: nat): TimerState
    decreases n
  {
    if n == 0 then t else Steps(StepSpec(t), n - 1)
  }

  /** The prescaler of DIV stays in 0..255 and DIV ticks exactly when it wraps. */
  lemma DividerStepBounds(t: TimerState)
    requires 0 <= t.internalDivider < 256
    ensures 0 <= StepSpec(t).internalDivider < 256
    ensures t.internalDivider < 255 ==> StepSpec(t).internalDivider == t.internalDivider + 1
    ensures t.internalDivider < 255 ==> StepSpec(t).divider == t.divider
    ensures t.internalDivider == 255 ==> StepSpec(t).internalDivider == 0
    ensures t.internalDivider == 255 ==> StepSpec(t).divider == t.divider + 1
  {
    var d := DividerStep(t);
    CounterStepKeepsDivider(d);
    if t.internalDivider == 255 {
      assert d == t.(internalDivider := 0, divider := t.divider + 1);
    } else {
      assert d == t.(internalDivider := t.internalDivider + 1);
    }
  }

  lemma CounterStepKeepsDivider(t: TimerState)
    ensures CounterStep(t).internalDivider == t.internalDivider && CounterStep(t).divider == t.divider
  {
  }

  /** A byte after `k` increments, each wrapping from 0xFF to 0. */
  function Ticked(b: bv8, k: nat): bv8
    decreases k
  {
    if k == 0 then b else Ticked(b + 1, k - 1)
  }

  /** Over `n` steps DIV advances once per 256, counted from the prescaler's start. */
  lemma {:induction false} DividerCounts(t: TimerState, n: nat)
    requires 0 <= t.internalDivider < 256
    ensures Steps(t, n).internalDivider == (t.internalDivider + n) % 256
    ensures Steps(t, n).divider == Ticked(t.divider, (t.internalDivider + n) / 256)
    decreases n
  {
    if n > 0 {
      var t1 := StepSpec(t);
      DividerStepBounds(t);
      DividerCounts(t1, n - 1);
      if t.internalDivider == 255 {
        assert (t.internalDivider + n) / 256 == (n - 1) / 256 + 1;
      } else {
        assert (t.internalDivider + n) / 256 == (t1.internalDivider + (n - 1)) / 256;
      }
    }
  }

  /** With TAC clearing bit 2, TIMA, TMA, TAC, the interrupt and its prescaler never move. */
  lemma {:induction false} DisabledCounterHolds(t: TimerState, n: nat)
    requires !Enabled(t.ctrl)
    ensures var t' := Steps(t, n);
      t'.counter == t.counter && t'.internalCounter == t.internalCounter &&
      t'.interrupt == t.interrupt && t'.ctrl == t.ctrl && t'.reload == t.reload
    decreases n
  {
    if n > 0 {
      DisabledCounterHolds(StepSpec(t), n - 1);
    }
  }

  /**
   * With TAC enabling TIMA, its prescaler stays below the frequency and
   * TIMA moves exactly when the prescaler wraps.
   */
  lemma CounterStepBounds(t: TimerState)
    requires Enabled(t.ctrl) && 0 <= t.internalCounter < Frequency(t.ctrl)
    ensures StepSpec(t).ctrl == t.ctrl
    ensures StepSpec(t).reload == t.reload
    ensures t.internalCounter + 1 < Frequency(t.ctrl) ==>
      StepSpec(t).internalCounter == t.internalCounter + 1 && StepSpec(t).counter == t.counter
      && StepSpec(t).interrupt == t.interrupt
    ensures t.internalCounter + 1 == Frequency(t.ctrl) ==>
      StepSpec(t).internalCounter == 0 && StepSpec(t).counter == Tick(t.counter, t.reload)
      && StepSpec(t).interrupt == (t.interrupt || t.counter == 0xFE)
  {
    var d := DividerStep(t);
    DividerStepKeepsCounter(t);
    if t.internalCounter + 1 == Frequency(t.ctrl) {
      assert StepSpec(t) == d.(internalCounter := 0, counter := Tick(t.counter, t.reload),
                               interrupt := t.interrupt || t.counter + 1 == 0xFF);
    } else {
      assert StepSpec(t) == d.(internalCounter := t.internalCounter + 1);
    }
  }

  /** The DIV half of a step leaves the TIMA side alone. */
  lemma DividerStepKeepsCounter(t: TimerState)
    ensures DividerStep(t).(internalDivider := t.internalDivider, divider := t.divider) == t
  {
  }

  /** TIMA after `k` ticks, each reloading TMA on the wrap. */
  function Ticks(counter: bv8, reload: bv8, k: nat): bv8
    decreases k
  {
    if k == 0 then counter else Ticks(Tick(counter, reload), reload, k - 1)
  }

  /**
   * Over `n` enabled steps TIMA ticks once per `Frequency(t.ctrl)` steps,
   * counted from its prescaler's start.
   */
  lemma {:induction false} CounterCounts(t: TimerState, n: nat)
    requires Enabled(t.ctrl) && 0 <= t.internalCounter < Frequency(t.ctrl)
    ensures Steps(t, n).counter == Ticks(t.counter, t.reload, (t.internalCounter + n) / Frequency(t.ctrl))
    decreases n
  {
    if n > 0 {
      var f := Frequency(t.ctrl);
      var t1 := StepSpec(t);
      CounterStepBounds(t);
      CounterCounts(t1, n - 1);
      assert Steps(t, n) == Steps(t1, n - 1);
      var q := (t1.internalCounter + (n - 1)) / f;
      if t.internalCounter + 1 == f {
        DivShift(n - 1, f);
        assert (t.internalCounter + n) / f == q + 1;
        assert Ticks(t.counter, t.reload, q + 1) == Ticks(t1.counter, t.reload, q);
      } else {
        assert (t.internalCounter + n) / f == q;
      }
    }
  }

  /** Over `n` enabled steps the TIMA prescaler is the step count modulo the frequency. */
  lemma {:induction false} CounterPrescaler(t: TimerState, n: nat)
    requires Enabled(t.ctrl) && 0 <= t.internalCounter < Frequency(t.ctrl)
    ensures Steps(t, n).ctrl == t.ctrl
    ensures Steps(t, n).internalCounter == (t.internalCounter + n) % Frequency(t.ctrl)
    decreases n
  {
    if n > 0 {
      var f := Frequency(t.ctrl);
      CounterStepBounds(t);
      CounterPrescaler(StepSpec(t), n - 1);
      var c := t.internalCounter;
      if c + 1 == f {
        ModShift(n - 1, f);
      }
    }
  }

  /** Adding the frequency does not change a count modulo the frequency. */
  lemma ModShift(m: nat, f: int)
    requires f in {1024, 16, 64, 256}
    ensures m % f == (f + m) % f
  {
    if f == 1024 {
      assert m % 1024 == (1024 + m) % 1024;
    } else if f == 16 {
      assert m % 16 == (16 + m) % 16;
    } else if f == 64 {
      assert m % 64 == (64 + m) % 64;
    } else {
      assert m % 256 == (256 + m) % 256;
    }
  }

  /** Adding the frequency adds one to a count divided by the frequency. */
  lemma DivShift(m: nat, f: int)
    requires f in {1024, 16, 64, 256}
    ensures (f + m) / f == m / f + 1
  {
    if f == 1024 {
      assert (1024 + m) / 1024 == m / 1024 + 1;
    } else if f == 16 {
      assert (16 + m) / 16 == m / 16 + 1;
    } else if f == 64 {
      assert (64 + m) / 64 == m / 64 + 1;
    } else {
      assert (256 + m) / 256 == m / 256 + 1;
    }
  }

  /** The interrupt is raised when TIMA becomes 0xFF; TIMA wrapping to 0 takes TMA instead. */
  lemma CounterOverflow(t: TimerState)
    requires Enabled(t.ctrl) && t.internalCounter + 1 == Frequency(t.ctrl)
    ensures t.counter == 0xFE ==> StepSpec(t).counter == 0xFF && StepSpec(t).interrupt
    ensures t.counter == 0xFF ==> StepSpec(t).counter == t.reload && StepSpec(t).interrupt == t.interrupt
  {
    CounterStepBounds(t);
  }

  /**
   * The prescaler is compared with `==`: once it has passed the frequency,
   * as after TAC switches from 1024 to 16 steps mid-count, TIMA never moves
   * again.
   */
  lemma {:induction false} PassedPrescalerStalls(t: TimerState, n: nat)
    requires Enabled(t.ctrl) && t.internalCounter >= Frequency(t.ctrl)
    ensures Steps(t, n).counter == t.counter
    ensures Steps(t, n).internalCounter == t.internalCounter + n
    decreases n
  {
    if n > 0 {
      PassedPrescalerStalls(StepSpec(t), n - 1);
    }
  }

  /** The read-and-clear of the interrupt flag: the flag as it was, and the state with it cleared. */
  function TakeInterruptSpec(t: TimerState): (bool, TimerState)
  {
    (t.interrupt, t.(interrupt := false))
  }

  lemma TakeInterruptTwice(t: TimerState)
    ensures !TakeInterruptSpec(TakeInterruptSpec(t).1).0
    ensures TakeInterruptSpec(t).0 == t.interrupt
  {
  }

  class Timer {
    var divider: bv8
    var counter: bv8
    var reload: bv8
    var ctrl: bv8
    var interrupt: bool
    var internalDivider: int
    var internalCounter: int

    function State(): TimerState
      reads this
    {
      TimerState(divider, counter, reload, ctrl, interrupt, internalDivider, internalCounter)
    }

    constructor ()
      ensures State() == ResetState
    {
      divider, counter, reload, ctrl := 0, 0, 0, 0;
      interrupt, internalCounter, internalDivider := false, 0, 0;
    }

    method Reset()
      modifies this
      ensures State() == ResetState
    {
      divider := 0;
      counter := 0;
      reload := 0;
      ctrl := 0;
      interrupt := false;
      internalCounter := 0;
      internalDivider := 0;
    }

    method Read(addr: Addr) returns (res: Result<bv8, Fault>)
      ensures res == ReadSpec(State(), addr)
    {
      if addr == 0xFF04 {
        res := Ok(divider);
      } else if addr == 0xFF05 {
        res := Ok(counter);
      } else if addr == 0xFF06 {
        res := Ok(reload);
      } else if addr == 0xFF07 {
        res := Ok(ctrl);
      } else {
        res := Err(UnhandledRead(addr));
      }
    }

    /** On a panic the timer is left as it was. */
    method Write(addr: Addr, val: bv8) returns (res: Result<(), Fault>)
      modifies this
      ensures var spec := WriteSpec(old(State()), addr, val);
        (res.Ok? <==> spec.Ok?) &&
        (spec.Ok? ==> State() == spec.value) &&
        (spec.Err? ==> res == Err(spec.error) && State() == old(State()))
    {
      if addr == 0xFF04 {
        divider := 0;
      } else if addr == 0xFF05 {
        counter := val;
      } else if addr == 0xFF06 {
        reload := val;
      } else if addr == 0xFF07 {
        ctrl := val;
      } else {
        return Err(UnhandledWrite(addr));
      }
      return Ok(());
    }

    method Step()
      modifies this
      ensures State() == StepSpec(old(State()))
    {
      StepDivider();
      StepCounter();
    }

    /** The DIV half of `Step`; it leaves TAC, and so the enable bit read first, unchanged. */
    method StepDivider()
      modifies this
      ensures State() == DividerStep(old(State()))
    {
      internalDivider := internalDivider + 1;
      if internalDivider == 256 {
        internalDivider := 0;
        divider := divider + 1;
      }
    }

    /** The TIMA half of `Step`. */
    method StepCounter()
      modifies this
      ensures State() == CounterStep(old(State()))
    {
      var enabled := ctrl & 0x04 != 0;
      if !enabled {
        return;
      }
      var freq := Frequency(ctrl);
      internalCounter := internalCounter + 1;
      if internalCounter != freq {
        return;
      }
      ghost var c0, i0 := counter, interrupt;
      internalCounter := 0;
      counter := counter + 1;
      if counter == 0xFF {
        interrupt := true;
      } else if counter == 0x00 {
        counter := reload;
      }
      assert counter == Tick(c0, reload);
      assert interrupt == (i0 || c0 + 1 == 0xFF);
    }

    method TakeInterrupt() returns (raised: bool)
      modifies this
      ensures (raised, State()) == TakeInterruptSpec(old(State()))
    {
      if interrupt {
        interrupt := false;
        return true;
      }
      return false;
    }
  }
}
