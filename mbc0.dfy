/**
 * The ROM-only cartridge: the address is an index into the ROM image,
 * checked against its size.  Writes go into the image itself, so the
 * ROM here behaves as RAM.
 */
module Mbc0 {
  import opened Wrappers
  import opened Addresses

  /** The errors a ROM-only access panics with. */
  datatype Fault = OutOfBoundsRead(addr: Addr) | OutOfBoundsWrite(addr: Addr)

  /** The byte at `addr`, or a panic when `addr` lies past the end of the image. */
  function ReadSpec(rom: seq<bv8>, addr: Addr): (res: Result<bv8, Fault>)
    ensures res.Ok? <==> addr < |rom|
    ensures res.Err? ==> res.error == OutOfBoundsRead(addr)
  {
    if addr >= |rom| then Err(OutOfBoundsRead(addr)) else Ok(rom[addr])
  }

  /** The image with the byte at `addr` replaced, or a panic past its end. */
  function WriteSpec(rom: seq<bv8>, addr: Addr, data: bv8): (res: Result<seq<bv8>, Fault>)
    ensures res.Ok? <==> addr < |rom|
    ensures res.Ok? ==> |res.value| == |rom|
  {
    if addr >= |rom| then Err(OutOfBoundsWrite(addr)) else Ok(rom[addr := data])
  }

  /** A write reads back at its own address and changes no other address. */
  lemma ReadAfterWrite(rom: seq<bv8>, addr: Addr, other: Addr, data: bv8)
    requires addr < |rom|
    ensures ReadSpec(WriteSpec(rom, addr, data).value, addr) == Ok(data)
    ensures other != addr ==> ReadSpec(WriteSpec(rom, addr, data).value, other) == ReadSpec(rom, other)
  {
    if other != addr {
      assert other as int != addr;
    }
  }

  class Mbc0 {
    /** The ROM image the cartridge was initialised with. */
    const rom: array<bv8>

    /** Initialisation records the ROM image and succeeds. */
    constructor Init(image: array<bv8>)
      ensures rom == image
    {
      rom := image;
    }

    /** Reset has nothing to reset. */
    method Reset()
      ensures unchanged(rom)
    {
    }

    method Read(addr: Addr) returns (res: Result<bv8, Fault>)
      ensures res == ReadSpec(rom[..], addr)
    {
      if addr >= rom.Length {
        return Err(OutOfBoundsRead(addr));
      }
      return Ok(rom[addr]);
    }

    /** A write past the end panics and leaves the image as it was. */
    method Write(addr: Addr, data: bv8) returns (res: Result<(), Fault>)
      modifies rom
      ensures res.Ok? <==> WriteSpec(old(rom[..]), addr, data).Ok?
      ensures res.Ok? ==> rom[..] == WriteSpec(old(rom[..]), addr, data).value
      ensures res.Err? ==> rom[..] == old(rom[..]) && res.error == OutOfBoundsWrite(addr)
    {
      if addr >= rom.Length {
        return Err(OutOfBoundsWrite(addr));
      }
      rom[addr] := data;
      return Ok(());
    }
  }
}
