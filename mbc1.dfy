/**
 * The MBC1 cartridge controller: 16 KiB of ROM fixed at 0x0000-0x3FFF, a
 * switchable 16 KiB ROM bank at 0x4000-0x7FFF, and switchable 8 KiB banks
 * of cartridge RAM at 0xA000-0xBFFF behind an enable latch.  Writes to the
 * ROM area set the bank registers; accesses past the ROM or RAM, and
 * addresses outside the four ranges, panic.
 */
module Mbc1 {
  import opened Wrappers
  import opened Addresses

  const RomBankSize := 0x4000
  const RamBankSize := 0x2000

  /** The cartridge type byte of an MBC1 with RAM and battery. */
  const TypeRamBattery: bv8 := 0x03

  datatype Fault = OutOfBounds(index: int) | UnknownRead(addr: Addr) | UnknownWrite(addr: Addr)

  /** The bank registers. */
  datatype Banks = Banks(ramEnabled: bool, romBank: bv8, ramBank: bv8)

  const ResetBanks := Banks(false, 1, 0)

  /** The ROM bank register is never 0 and holds five bits. */
  predicate ValidBanks(b: Banks)
  {
    1 <= b.romBank <= 31
  }

  /** The index into the ROM image of an address of the switchable bank. */
  function RomIndex(b: Banks, addr: Addr): int
    requires 0x4000 <= addr <= 0x7FFF
  {
    RomBankSize * (b.romBank as int) + (addr - 0x4000)
  }

  /** The index into cartridge RAM of an address of the RAM window. */
  function RamIndex(b: Banks, addr: Addr): int
    requires 0xA000 <= addr <= 0xBFFF
  {
    RamBankSize * (b.ramBank as int) + (addr - 0xA000)
  }

  /** A byte of `s` at a computed index, panicking past its end. */
  function Checked(s: seq<bv8>, i: int): (res: Result<bv8, Fault>)
    requires 0 <= i
    ensures res.Ok? <==> i < |s|
    ensures res.Ok? ==> res.value == s[i]
  {
    if i >= |s| then Err(OutOfBounds(i)) else Ok(s[i])
  }

  /**
   * A read.  Bank 0 is read without a bounds check in the program; here a
   * read past the image is a panic like the others.  With RAM disabled the
   * RAM window reads 0xFF.
   */
  function ReadSpec(b: Banks, rom: seq<bv8>, ram: seq<bv8>, addr: Addr): (res: Result<bv8, Fault>)
    ensures addr <= 0x3FFF && addr < |rom| ==> res == Ok(rom[addr])
    ensures 0x4000 <= addr <= 0x7FFF ==> res == Checked(rom, RomIndex(b, addr))
    ensures 0xA000 <= addr <= 0xBFFF && !b.ramEnabled ==> res == Ok(0xFF)
    ensures 0xA000 <= addr <= 0xBFFF && b.ramEnabled ==> res == Checked(ram, RamIndex(b, addr))
    ensures (0x8000 <= addr <= 0x9FFF || 0xC000 <= addr) ==> res == Err(UnknownRead(addr))
  {
    if addr <= 0x3FFF then Checked(rom, addr)
    else if addr <= 0x7FFF then Checked(rom, RomIndex(b, addr))
    else if 0xA000 <= addr <= 0xBFFF then
      if b.ramEnabled then Checked(ram, RamIndex(b, addr)) else Ok(0xFF)
    else Err(UnknownRead(addr))
  }

  /** The ROM bank register as a write of `data` leaves it: the low five bits, with 0 read as 1. */
  function RomBankOf(data: bv8): (bank: bv8)
    ensures 1 <= bank <= 31
    ensures data & 0x1F != 0 ==> bank == data & 0x1F
  {
    if data & 0x1F == 0 then 1 else data & 0x1F
  }

  /**
   * A write: to 0x0000-0x1FFF sets the RAM latch, to 0x2000-0x3FFF the ROM
   * bank, to 0x4000-0x5FFF the RAM bank (all eight bits), and to the RAM
   * window the banked RAM byte when RAM is enabled.  Anything else panics,
   * 0x6000-0x7FFF included.
   */
  function WriteSpec(b: Banks, ram: seq<bv8>, addr: Addr, data: bv8): (res: Result<(Banks, seq<bv8>), Fault>)
    ensures addr <= 0x1FFF ==> res == Ok((b.(ramEnabled := data & 0x0F == 0x0A), ram))
    ensures 0x2000 <= addr <= 0x3FFF ==> res == Ok((b.(romBank := RomBankOf(data)), ram))
    ensures 0x4000 <= addr <= 0x5FFF ==> res == Ok((b.(ramBank := data), ram))
    ensures 0xA000 <= addr <= 0xBFFF && !b.ramEnabled ==> res == Ok((b, ram))
    ensures (0x6000 <= addr <= 0x9FFF || 0xC000 <= addr) ==> res == Err(UnknownWrite(addr))
    ensures res.Ok? ==> |res.value.1| == |ram|
  {
    if addr <= 0x1FFF then Ok((b.(ramEnabled := data & 0x0F == 0x0A), ram))
    else if addr <= 0x3FFF then Ok((b.(romBank := RomBankOf(data)), ram))
    else if addr <= 0x5FFF then Ok((b.(ramBank := data), ram))
    else if 0xA000 <= addr <= 0xBFFF then
      if !b.ramEnabled then Ok((b, ram))
      else
        var i := RamIndex(b, addr);
        if i >= |ram| then Err(OutOfBounds(i)) else Ok((b, ram[i := data]))
    else Err(UnknownWrite(addr))
  }

  /** Every write that succeeds keeps the ROM bank register within 1..31. */
  lemma WriteKeepsBanksValid(b: Banks, ram: seq<bv8>, addr: Addr, data: bv8)
    requires ValidBanks(b)
    ensures WriteSpec(b, ram, addr, data).Ok? ==> ValidBanks(WriteSpec(b, ram, addr, data).value.0)
  {
  }

  /** Bank 0 reads the same whatever the bank registers hold. */
  lemma FixedBankIgnoresBanks(b1: Banks, b2: Banks, rom: seq<bv8>, ram: seq<bv8>, addr: Addr)
    requires addr <= 0x3FFF
    ensures ReadSpec(b1, rom, ram, addr) == ReadSpec(b2, rom, ram, addr)
  {
  }

  /**
   * With RAM enabled and the RAM bank unchanged, a byte written into the
   * RAM window reads back, and a write that succeeds never touches the ROM
   * bank register.
   */
  lemma RamReadAfterWrite(b: Banks, rom: seq<bv8>, ram: seq<bv8>, addr: Addr, data: bv8)
    requires b.ramEnabled && 0xA000 <= addr <= 0xBFFF
    requires RamIndex(b, addr) < |ram|
    ensures WriteSpec(b, ram, addr, data).Ok?
    ensures var (b', ram') := WriteSpec(b, ram, addr, data).value;
      b' == b && ReadSpec(b', rom, ram', addr) == Ok(data)
  {
  }

  /** A RAM bank register past the RAM makes every enabled RAM access panic. */
  lemma BankPastRamPanics(b: Banks, rom: seq<bv8>, ram: seq<bv8>, addr: Addr, data: bv8)
    requires b.ramEnabled && 0xA000 <= addr <= 0xBFFF
    requires RamBankSize * (b.ramBank as int) >= |ram|
    ensures ReadSpec(b, rom, ram, addr).Err?
    ensures WriteSpec(b, ram, addr, data).Err?
  {
  }

  class Mbc1 {
    var ramEnabled: bool
    var romBank: bv8
    var ramBank: bv8
    const hasBattery: bool
    const rom: array<bv8>
    /** Cartridge RAM, as large as the header says. */
    const ram: array<bv8>

    function State(): Banks
      reads this
    {
      Banks(ramEnabled, romBank, ramBank)
    }

    /**
     * A controller over `image`, with `ramSize` bytes of cartridge RAM and
     * the battery flag of the cartridge type, in its reset state.
     */
    constructor (image: array<bv8>, ramSize: nat, cartridgeType: bv8)
      ensures rom == image && fresh(ram) && ram.Length == ramSize
      ensures hasBattery <==> cartridgeType == TypeRamBattery
      ensures State() == ResetBanks
    {
      rom := image;
      ram := new bv8[ramSize];
      hasBattery := cartridgeType == TypeRamBattery;
      ramEnabled, romBank, ramBank := false, 1, 0;
    }

    method Reset()
      modifies this
      ensures State() == ResetBanks
    {
      ramEnabled := false;
      romBank := 1;
      ramBank := 0;
    }

    method Read(addr: Addr) returns (res: Result<bv8, Fault>)
      ensures res == ReadSpec(State(), rom[..], ram[..], addr)
    {
      if addr <= 0x3FFF {
        if addr >= rom.Length {
          return Err(OutOfBounds(addr));
        }
        return Ok(rom[addr]);
      } else if addr <= 0x7FFF {
        var romAddr := RomBankSize * (romBank as int) + addr - 0x4000;
        if romAddr >= rom.Length {
          return Err(OutOfBounds(romAddr));
        }
        return Ok(rom[romAddr]);
      } else if 0xA000 <= addr <= 0xBFFF {
        if ramEnabled {
          var ramAddr := RamBankSize * (ramBank as int) + addr - 0xA000;
          if ramAddr >= ram.Length {
            return Err(OutOfBounds(ramAddr));
          }
          return Ok(ram[ramAddr]);
        }
        return Ok(0xFF);
      }
      return Err(UnknownRead(addr));
    }

    /** On a panic the registers and RAM are left as they were. */
    method Write(addr: Addr, data: bv8) returns (res: Result<(), Fault>)
      modifies this, ram
      ensures res.Ok? <==> WriteSpec(old(State()), old(ram[..]), addr, data).Ok?
      ensures res.Ok? ==> (State(), ram[..]) == WriteSpec(old(State()), old(ram[..]), addr, data).value
      ensures res.Err? ==> State() == old(State()) && ram[..] == old(ram[..])
      ensures res.Err? ==> res.error == WriteSpec(old(State()), old(ram[..]), addr, data).error
    {
      if addr <= 0x1FFF {
        ramEnabled := data & 0x0F == 0x0A;
      } else if addr <= 0x3FFF {
        romBank := data & 0x1F;
        if romBank == 0 {
          romBank := 1;
        }
      } else if addr <= 0x5FFF {
        ramBank := data;
      } else if 0xA000 <= addr <= 0xBFFF {
        if ramEnabled {
          var ramAddr := RamBankSize * (ramBank as int) + addr - 0xA000;
          if ramAddr >= ram.Length {
            return Err(OutOfBounds(ramAddr));
          }
          ram[ramAddr] := data;
        }
      } else {
        return Err(UnknownWrite(addr));
      }
      return Ok(());
    }
  }
}
