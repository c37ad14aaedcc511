/**
 * The second address decoder: the cartridge area 0x0000-0x7FFF goes to the
 * mapper, 0xC000-0xDFFF to work RAM and 0xFE00-0xFE9F to OAM; everything
 * else reads 0 and ignores writes.  The mapper is outside this decoder, so
 * an access it forwards is returned as the forwarded address.
 */
module Bus {
  import opened Addresses

  /** What a read of the bus yields: a byte of its own, or a read forwarded to the mapper. */
  datatype BusRead = Byte(value: bv8) | FromMapper(addr: Addr)

  const RamSize := 0x2000
  const OamSize := 0xA0

  predicate InMapper(addr: Addr)
  {
    addr <= 0x7FFF
  }

  predicate InRam(addr: Addr)
  {
    0xC000 <= addr <= 0xDFFF
  }

  predicate InOam(addr: Addr)
  {
    0xFE00 <= addr <= 0xFE9F
  }

  /** The decode of a read, over the contents of work RAM and OAM. */
  function ReadSpec(ram: seq<bv8>, oam: seq<bv8>, addr: Addr): (r: BusRead)
    requires |ram| == RamSize && |oam| == OamSize
    ensures InMapper(addr) <==> r == FromMapper(addr)
    ensures InRam(addr) ==> r == Byte(ram[addr - 0xC000])
    ensures InOam(addr) ==> r == Byte(oam[addr - 0xFE00])
    ensures !InMapper(addr) && !InRam(addr) && !InOam(addr) ==> r == Byte(0)
  {
    if InMapper(addr) then FromMapper(addr)
    else if InRam(addr) then Byte(ram[addr - 0xC000])
    else if InOam(addr) then Byte(oam[addr - 0xFE00])
    else Byte(0)
  }

  /** Work RAM and OAM after a write; a write to the mapper or to nothing leaves both alone. */
  function WriteSpec(ram: seq<bv8>, oam: seq<bv8>, addr: Addr, data: bv8): (r: (seq<bv8>, seq<bv8>))
    requires |ram| == RamSize && |oam| == OamSize
    ensures |r.0| == RamSize && |r.1| == OamSize
    ensures !InRam(addr) ==> r.0 == ram
    ensures !InOam(addr) ==> r.1 == oam
  {
    if InMapper(addr) then (ram, oam)
    else if InRam(addr) then (ram[addr - 0xC000 := data], oam)
    else if InOam(addr) then (ram, oam[addr - 0xFE00 := data])
    else (ram, oam)
  }

  /**
   * A byte written to work RAM or OAM reads back, and reads of every other
   * address are as they were before the write.
   */
  lemma ReadAfterWrite(ram: seq<bv8>, oam: seq<bv8>, addr: Addr, other: Addr, data: bv8)
    requires |ram| == RamSize && |oam| == OamSize
    requires InRam(addr) || InOam(addr)
    ensures var (ram', oam') := WriteSpec(ram, oam, addr, data);
      ReadSpec(ram', oam', addr) == Byte(data) &&
      (other != addr ==> ReadSpec(ram', oam', other) == ReadSpec(ram, oam, other))
  {
  }

  class Bus {
    const ram: array<bv8>
    const oam: array<bv8>

    ghost predicate Valid()
      reads this
    {
      ram.Length == RamSize && oam.Length == OamSize && ram != oam
    }

    constructor ()
      ensures Valid() && fresh(ram) && fresh(oam)
    {
      ram := new bv8[RamSize];
      oam := new bv8[OamSize];
    }

    /**
     * The reset of the decoder: it is passed on to the mapper, and work RAM
     * and OAM keep their contents. Returns whether it was forwarded.
     */
    method Reset() returns (forwarded: bool)
      requires Valid()
      ensures forwarded
      ensures ram[..] == old(ram[..]) && oam[..] == old(oam[..])
    {
      forwarded := true;
    }

    method Read(addr: Addr) returns (r: BusRead)
      requires Valid()
      ensures r == ReadSpec(ram[..], oam[..], addr)
    {
      if addr <= 0x7FFF {
        return FromMapper(addr);
      } else if 0xC000 <= addr <= 0xDFFF {
        return Byte(ram[addr - 0xC000]);
      } else if 0xFE00 <= addr <= 0xFE9F {
        return Byte(oam[addr - 0xFE00]);
      }
      return Byte(0);
    }

    /** Returns whether the write was forwarded to the mapper. */
    method Write(addr: Addr, data: bv8) returns (forwarded: bool)
      requires Valid()
      modifies ram, oam
      ensures forwarded <==> InMapper(addr)
      ensures (ram[..], oam[..]) == WriteSpec(old(ram[..]), old(oam[..]), addr, data)
    {
      forwarded := false;
      if addr <= 0x7FFF {
        forwarded := true;
      } else if 0xC000 <= addr <= 0xDFFF {
        ram[addr - 0xC000] := data;
      } else if 0xFE00 <= addr <= 0xFE9F {
        oam[addr - 0xFE00] := data;
      }
    }
  }
}
