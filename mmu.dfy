/**
 * The memory unit the processor reads and writes through: video RAM, work
 * RAM and its echo, OAM, high RAM, the interrupt flag and enable
 * registers, and the serial port and timer it owns.  The cartridge areas
 * are forwarded to the mapper, which is outside this unit: reads of them
 * take the mapper's answer as a parameter, and writes to them are reported
 * as forwarded and change nothing here.
 */
module Mmu {
  import opened Wrappers
  import opened Addresses
  import Timers
  import Serial

  /** The contents of the unit that its read and write decode into. */
  datatype Mem = Mem(
    vram: seq<bv8>, ram: seq<bv8>, oam: seq<bv8>, io: seq<bv8>, hram: seq<bv8>,
    intf: bv8, inte: bv8, timer: Timers.TimerState, serial: Serial.SerialState)

  const VramSize := 0x2000
  const RamSize := 0x2000
  const OamSize := 0xA0
  const IoSize := 0x80
  const HramSize := 0x7F

  /** The value LY reads as: line 144, whatever the video unit is doing. */
  const LyValue: bv8 := 0x90

  ghost predicate WellSized(m: Mem)
  {
    |m.vram| == VramSize && |m.ram| == RamSize && |m.oam| == OamSize &&
    |m.io| == IoSize && |m.hram| == HramSize
  }

  /** Addresses whose reads and writes go to the cartridge mapper. */
  predicate ToMapper(addr: Addr)
  {
    addr <= 0x7FFF || 0xA000 <= addr <= 0xBFFF
  }

  predicate IsSerial(addr: Addr)
  {
    0xFF01 <= addr <= 0xFF02
  }

  predicate IsTimer(addr: Addr)
  {
    0xFF04 <= addr <= 0xFF07
  }

  /**
   * A read.  LY is answered first with a fixed 144; OAM has no read case
   * and, like every address no case names, reads 0.
   */
  function ReadSpec(m: Mem, mapper: Addr -> bv8, addr: Addr): bv8
    requires WellSized(m)
  {
    if addr == 0xFF44 then LyValue
    else if addr <= 0x7FFF then mapper(addr)
    else if addr <= 0x9FFF then m.vram[addr - 0x8000]
    else if addr <= 0xBFFF then mapper(addr)
    else if addr <= 0xDFFF then m.ram[addr - 0xC000]
    else if addr <= 0xFDFF then m.ram[addr - 0xE000]
    else if IsSerial(addr) then Serial.ReadSpec(m.serial, addr).value
    else if IsTimer(addr) then Timers.ReadSpec(m.timer, addr).value
    else if addr == 0xFF0F then m.intf
    else if 0xFF80 <= addr <= 0xFFFE then m.hram[addr - 0xFF80]
    else if addr == 0xFFFF then m.inte
    else 0
  }

  datatype Fault = OutOfBounds(index: int)

  /** The store into high RAM that both the HRAM case and, by falling through, the IF case perform. */
  function HramStore(m: Mem, addr: Addr, data: bv8): (res: Result<Mem, Fault>)
    requires WellSized(m)
    ensures res.Ok? <==> 0xFF80 <= addr <= 0xFFFE
  {
    var i := addr - 0xFF80;
    if 0 <= i < |m.hram| then Ok(m.(hram := m.hram[i := data])) else Err(OutOfBounds(i))
  }

  /**
   * A write as the program has it: the IF case stores the flags and then,
   * lacking a `return`, runs on into the high-RAM store with the index
   * 0xFF0F - 0xFF80.
   */
  function WriteAsWritten(m: Mem, addr: Addr, data: bv8): Result<Mem, Fault>
    requires WellSized(m)
  {
    if addr == 0xFF0F then HramStore(m.(intf := data), addr, data)
    else Ok(WriteSpec(m, addr, data))
  }

  /** The IF write of the program indexes high RAM at -113, before its start. */
  lemma IntfWriteAsWrittenOutOfBounds(m: Mem, data: bv8)
    requires WellSized(m)
    ensures WriteAsWritten(m, 0xFF0F, data) == Err(OutOfBounds(-113))
  {
  }

  /** Every other address is written by the program as `WriteSpec` has it. */
  lemma WriteAsWrittenElsewhere(m: Mem, addr: Addr, data: bv8)
    requires WellSized(m) && addr != 0xFF0F
    ensures WriteAsWritten(m, addr, data) == Ok(WriteSpec(m, addr, data))
  {
  }

  /**
   * A write, with the IF case ending after it stores the flags.  IE keeps
   * only its five interrupt bits; writes to the mapper and to addresses no
   * case names change nothing here.
   */
  function WriteSpec(m: Mem, addr: Addr, data: bv8): (r: Mem)
    requires WellSized(m)
    ensures WellSized(r)
  {
    if addr <= 0x7FFF then m
    else if addr <= 0x9FFF then m.(vram := m.vram[addr - 0x8000 := data])
    else if addr <= 0xBFFF then m
    else if addr <= 0xDFFF then m.(ram := m.ram[addr - 0xC000 := data])
    else if addr <= 0xFDFF then m.(ram := m.ram[addr - 0xE000 := data])
    else if 0xFE00 <= addr <= 0xFE9F then m.(oam := m.oam[addr - 0xFE00 := data])
    else if IsSerial(addr) then m.(serial := Serial.WriteSpec(m.serial, addr, data).value)
    else if IsTimer(addr) then m.(timer := Timers.WriteSpec(m.timer, addr, data).value)
    else if addr == 0xFF0F then m.(intf := data)
    else if 0xFF80 <= addr <= 0xFFFE then m.(hram := m.hram[addr - 0xFF80 := data])
    else if addr == 0xFFFF then m.(inte := data & 0x1F)
    else m
  }

  /** LY reads 0x90 whatever the state. */
  lemma ReadLy(m: Mem, mapper: Addr -> bv8)
    requires WellSized(m)
    ensures ReadSpec(m, mapper, 0xFF44) == 0x90
  {
  }

  /** Work RAM and its echo are one array: a write through either view is read through the other. */
  lemma EchoAlias(m: Mem, mapper: Addr -> bv8, k: int, data: bv8)
    requires WellSized(m) && 0 <= k < 0x1E00
    ensures ReadSpec(WriteSpec(m, 0xC000 + k, data), mapper, 0xE000 + k) == data
    ensures ReadSpec(WriteSpec(m, 0xE000 + k, data), mapper, 0xC000 + k) == data
  {
  }

  /** IE keeps the low five bits of what is written, and reads them back. */
  lemma InteMasked(m: Mem, mapper: Addr -> bv8, data: bv8)
    requires WellSized(m)
    ensures ReadSpec(WriteSpec(m, 0xFFFF, data), mapper, 0xFFFF) == data & 0x1F
  {
  }

  /** IF reads back what is written. */
  lemma IntfReadAfterWrite(m: Mem, mapper: Addr -> bv8, data: bv8)
    requires WellSized(m)
    ensures ReadSpec(WriteSpec(m, 0xFF0F, data), mapper, 0xFF0F) == data
  {
  }

  /** OAM is written but never read back: its addresses read 0. */
  lemma OamWriteOnly(m: Mem, mapper: Addr -> bv8, addr: Addr, data: bv8)
    requires WellSized(m) && 0xFE00 <= addr <= 0xFE9F
    ensures WriteSpec(m, addr, data).oam == m.oam[addr - 0xFE00 := data]
    ensures ReadSpec(m, mapper, addr) == 0
  {
  }

  /** Addresses outside every case: reads give 0 and writes change nothing. */
  predicate Unhandled(addr: Addr)
  {
    (0xFEA0 <= addr <= 0xFF00) || addr == 0xFF03 || (0xFF08 <= addr <= 0xFF0E) ||
    (0xFF10 <= addr <= 0xFF7F && addr != 0xFF44)
  }

  lemma UnhandledIgnored(m: Mem, mapper: Addr -> bv8, addr: Addr, data: bv8)
    requires WellSized(m) && Unhandled(addr)
    ensures ReadSpec(m, mapper, addr) == 0
    ensures WriteSpec(m, addr, data) == m
  {
  }

  /** A forwarded write leaves the unit unchanged, and a forwarded read is the mapper's answer. */
  lemma MapperForwarded(m: Mem, mapper: Addr -> bv8, addr: Addr, data: bv8)
    requires WellSized(m) && ToMapper(addr)
    ensures ReadSpec(m, mapper, addr) == mapper(addr)
    ensures WriteSpec(m, addr, data) == m
  {
  }

  /** The two bytes of a word, least significant first, and the word they make. */
  function Low(w: bv16): bv8
  {
    (w & 0xFF) as bv8
  }

  function High(w: bv16): bv8
  {
    (w >> 8) as bv8
  }

  function Word(lo: bv8, hi: bv8): (w: bv16)
    ensures Low(w) == lo && High(w) == hi
  {
    (lo as bv16) | ((hi as bv16) << 8)
  }

  lemma WordOfBytes(w: bv16)
    ensures Word(Low(w), High(w)) == w
  {
  }

  /** A 16-bit read: the byte at `addr`, then the byte at the next address, wrapping past 0xFFFF. */
  function Read16Spec(m: Mem, mapper: Addr -> bv8, addr: Addr): bv16
    requires WellSized(m)
  {
    Word(ReadSpec(m, mapper, addr), ReadSpec(m, mapper, Next(addr)))
  }

  function Write16Spec(m: Mem, addr: Addr, data: bv16): (r: Mem)
    requires WellSized(m)
    ensures WellSized(r)
  {
    WriteSpec(WriteSpec(m, addr, Low(data)), Next(addr), High(data))
  }

  /** Addresses that are plain storage: video, work and high RAM. */
  predicate PlainRam(addr: Addr)
  {
    (0x8000 <= addr <= 0x9FFF) || (0xC000 <= addr <= 0xDFFF) || (0xFF80 <= addr <= 0xFFFE)
  }

  /** A byte written to plain storage reads back. */
  lemma PlainReadAfterWrite(m: Mem, mapper: Addr -> bv8, addr: Addr, data: bv8)
    requires WellSized(m) && PlainRam(addr)
    ensures ReadSpec(WriteSpec(m, addr, data), mapper, addr) == data
  {
  }

  /** Distinct plain-storage addresses are distinct cells. */
  lemma PlainWriteElsewhere(m: Mem, mapper: Addr -> bv8, addr: Addr, other: Addr, data: bv8)
    requires WellSized(m) && PlainRam(addr) && PlainRam(other) && addr != other
    ensures ReadSpec(WriteSpec(m, addr, data), mapper, other) == ReadSpec(m, mapper, other)
  {
  }

  /** A word written to plain storage reads back, low byte first. */
  lemma Read16AfterWrite16(m: Mem, mapper: Addr -> bv8, addr: Addr, data: bv16)
    requires WellSized(m) && PlainRam(addr) && PlainRam(addr + 1)
    ensures Read16Spec(Write16Spec(m, addr, data), mapper, addr) == data
  {
    var m1 := WriteSpec(m, addr, Low(data));
    assert Next(addr) == addr + 1;
    PlainReadAfterWrite(m, mapper, addr, Low(data));
    PlainWriteElsewhere(m1, mapper, addr + 1, addr, High(data));
    PlainReadAfterWrite(m1, mapper, addr + 1, High(data));
    WordOfBytes(data);
  }

  /** The state reset leaves: zeroed RAMs, high RAM filled with 0xFF, timer and serial port reset. */
  function ResetSpec(): (r: Mem)
    ensures WellSized(r)
  {
    Mem(seq(VramSize, _ => 0), seq(RamSize, _ => 0), seq(OamSize, _ => 0), seq(IoSize, _ => 0),
        seq(HramSize, _ => 0xFF), 0, 0, Timers.ResetState, Serial.ResetState)
  }

  /** `memset`: every byte of `a` set to `v`. */
  method Fill(a: array<bv8>, v: bv8)
    modifies a
    ensures a[..] == seq(a.Length, _ => v)
  {
    var i := 0;
    while i < a.Length
      invariant 0 <= i <= a.Length
      invariant forall k :: 0 <= k < i ==> a[k] == v
    {
      a[i] := v;
      i := i + 1;
    }
  }

  class Unit {
    const vram: array<bv8>
    const ram: array<bv8>
    const oam: array<bv8>
    const io: array<bv8>
    const hram: array<bv8>
    var intf: bv8
    var inte: bv8
    const timer: Timers.Timer
    const serial: Serial.SerialPort

    ghost predicate Valid()
      reads this
    {
      vram.Length == VramSize && ram.Length == RamSize && oam.Length == OamSize &&
      io.Length == IoSize && hram.Length == HramSize &&
      vram != ram && vram != oam && vram != io && vram != hram &&
      ram != oam && ram != io && ram != hram && oam != io && oam != hram && io != hram
    }

    ghost function State(): (m: Mem)
      reads this, vram, ram, oam, io, hram, timer, serial
      requires Valid()
      ensures WellSized(m)
    {
      Mem(vram[..], ram[..], oam[..], io[..], hram[..], intf, inte, timer.State(), serial.State())
    }

    constructor ()
      ensures Valid() && State() == ResetSpec()
    {
      vram := new bv8[VramSize](_ => 0);
      ram := new bv8[RamSize](_ => 0);
      oam := new bv8[OamSize](_ => 0);
      io := new bv8[IoSize](_ => 0);
      hram := new bv8[HramSize](_ => 0xFF);
      intf, inte := 0, 0;
      timer := new Timers.Timer();
      serial := new Serial.SerialPort();
    }

    method Reset()
      requires Valid()
      modifies this, vram, ram, oam, io, hram, timer, serial
      ensures Valid() && State() == ResetSpec()
    {
      timer.Reset();
      serial.Reset();
      Fill(ram, 0x00);
      Fill(vram, 0x00);
      Fill(oam, 0x00);
      Fill(hram, 0xFF);
      Fill(io, 0);
      inte := 0;
      intf := 0;
    }

    method Read(addr: Addr, mapper: Addr -> bv8) returns (v: bv8)
      requires Valid()
      ensures v == ReadSpec(State(), mapper, addr)
    {
      if addr == 0xFF44 {
        return LyValue;
      }
      if addr <= 0x7FFF {
        v := mapper(addr);
      } else if addr <= 0x9FFF {
        v := vram[addr - 0x8000];
      } else if addr <= 0xBFFF {
        v := mapper(addr);
      } else if addr <= 0xDFFF {
        v := ram[addr - 0xC000];
      } else if addr <= 0xFDFF {
        v := ram[addr - 0xE000];
      } else if IsSerial(addr) {
        var r := serial.Read(addr);
        v := r.value;
      } else if IsTimer(addr) {
        var r := timer.Read(addr);
        v := r.value;
      } else if addr == 0xFF0F {
        v := intf;
      } else if 0xFF80 <= addr <= 0xFFFE {
        v := hram[addr - 0xFF80];
      } else if addr == 0xFFFF {
        v := inte;
      } else {
        v := 0;
      }
    }

    /** Returns whether the write went to the mapper. */
    method Write(addr: Addr, data: bv8) returns (forwarded: bool)
      requires Valid()
      modifies this, vram, ram, oam, hram, timer, serial
      ensures Valid() && forwarded == ToMapper(addr)
      ensures State() == WriteSpec(old(State()), addr, data)
    {
      forwarded := false;
      if addr <= 0x7FFF {
        forwarded := true;
      } else if addr <= 0x9FFF {
        vram[addr - 0x8000] := data;
      } else if addr <= 0xBFFF {
        forwarded := true;
      } else if addr <= 0xDFFF {
        ram[addr - 0xC000] := data;
      } else if addr <= 0xFDFF {
        ram[addr - 0xE000] := data;
      } else if 0xFE00 <= addr <= 0xFE9F {
        oam[addr - 0xFE00] := data;
      } else if IsSerial(addr) {
        var _ := serial.Write(addr, data);
      } else if IsTimer(addr) {
        var _ := timer.Write(addr, data);
      } else if addr == 0xFF0F {
        intf := data;
      } else if 0xFF80 <= addr <= 0xFFFE {
        hram[addr - 0xFF80] := data;
      } else if addr == 0xFFFF {
        inte := data & 0x1F;
      }
    }

    method Read16(addr: Addr, mapper: Addr -> bv8) returns (v: bv16)
      requires Valid()
      ensures v == Read16Spec(State(), mapper, addr)
    {
      var lo := Read(addr, mapper);
      var hi := Read(Next(addr), mapper);
      v := (lo as bv16) | ((hi as bv16) << 8);
    }

    /** Returns whether each of the two byte writes went to the mapper. */
    method Write16(addr: Addr, data: bv16) returns (lowForwarded: bool, highForwarded: bool)
      requires Valid()
      modifies this, vram, ram, oam, hram, timer, serial
      ensures Valid()
      ensures State() == Write16Spec(old(State()), addr, data)
    {
      lowForwarded := Write(addr, (data & 0xFF) as bv8);
      highForwarded := Write(Next(addr), (data >> 8) as bv8);
    }
  }
}
