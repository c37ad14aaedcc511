/**
 * The picture processing unit: video RAM, OAM, the LCD register file, the
 * 144 x 160 frame it renders into, and the per-tick mode machine (OAM
 * scan, pixel drawing, horizontal blank, vertical blank) driven by the
 * tick counter of the line and LY.
 *
 * STAT is kept as its three parts: the mode (bits 0-1), the LY = LYC flag
 * (bit 2) and the byte of its writable bits 3-7.  `StatByte` puts them
 * together as a read of 0xFF41 sees them.
 */
module Ppu {
  import opened Addresses

  datatype Rgb = Rgb(r: bv8, g: bv8, b: bv8)

  /** The four shades a palette entry selects, lightest first. */
  const Colors: seq<Rgb> := [Rgb(255, 255, 255), Rgb(192, 192, 192), Rgb(96, 96, 96), Rgb(0, 0, 0)]

  /** The RGB colour of a shade. */
  function ColorOf(shade: bv8): Rgb
    requires shade < 4
  {
    Colors[shade]
  }

  /** The colour the frame is zeroed to on reset. */
  const Black := Rgb(0, 0, 0)

  const Height := 144
  const Width := 160
  const VramSize := 0x2000
  const OamSize := 0xA0

  /** An unsigned byte held as a number, for the line counter, which is counted and compared rather than masked. */
  type Byte = b: int | 0 <= b < 256

  datatype Mode = HBlank | VBlank | OamScan | PixelDraw

  /** The mode as bits 0-1 of STAT encode it. */
  function ModeBits(m: Mode): (b: bv8)
    ensures b < 4
  {
    match m
    case HBlank => 0
    case VBlank => 1
    case OamScan => 2
    case PixelDraw => 3
  }

  lemma ModeBitsInjective(m1: Mode, m2: Mode)
    ensures ModeBits(m1) == ModeBits(m2) ==> m1 == m2
  {
  }

  /** STAT as it reads: writable bits 3-7, the LY = LYC flag at bit 2, the mode in bits 0-1. */
  function StatByte(high: bv8, lycEq: bool, m: Mode): bv8
  {
    (high & 0xF8) | (if lycEq then 0x04 else 0x00) | ModeBits(m)
  }

  lemma StatByteFields(high: bv8, lycEq: bool, m: Mode)
    ensures StatByte(high, lycEq, m) & 0xF8 == high & 0xF8
    ensures StatByte(high, lycEq, m) & 0x03 == ModeBits(m)
    ensures (StatByte(high, lycEq, m) & 0x04 != 0) <==> lycEq
  {
    var mb := ModeBits(m);
    if lycEq {
      assert StatByte(high, lycEq, m) == (high & 0xF8) | 0x04 | mb;
    } else {
      assert StatByte(high, lycEq, m) == (high & 0xF8) | mb;
    }
  }

  /** The register file the processor reads and writes and the mode machine leaves alone. */
  datatype Registers = Registers(
    lcdc: bv8, statHigh: bv8, scy: bv8, scx: bv8, lyc: bv8, dma: bv8,
    bgp: bv8, obp0: bv8, obp1: bv8, wy: bv8, wx: bv8)

  /** The state the mode machine steps. */
  datatype Timing = Timing(
    mode: Mode, lycEq: bool, ly: Byte, lineTicks: int,
    frameComplete: bool, vblankInterrupt: bool, statInterrupt: bool)

  /** The STAT interrupt sources, bits 3-6. */
  predicate HBlankSource(r: Registers) { r.statHigh & 0x08 != 0 }
  predicate VBlankSource(r: Registers) { r.statHigh & 0x10 != 0 }
  predicate OamSource(r: Registers) { r.statHigh & 0x20 != 0 }
  predicate LycSource(r: Registers) { r.statHigh & 0x40 != 0 }

  /** LCDC bit 3 selects the tile map, bit 4 the tile data addressing. */
  predicate HighTileMap(r: Registers) { r.lcdc & 0x08 != 0 }
  predicate SignedTileData(r: Registers) { r.lcdc & 0x10 != 0 }

  /**
   * Where the mode machine can be: the tick counter stays below the point
   * at which the current mode ends, LY names a visible line outside the
   * vertical blank and one of 144-152 inside it.
   */
  predicate Inv(t: Timing)
  {
    0 <= t.lineTicks &&
    match t.mode
    case OamScan => t.lineTicks < 80 && t.ly < 144
    case PixelDraw => 80 <= t.lineTicks < 252 && t.ly < 144
    case HBlank => t.lineTicks < 456 && t.ly < 144
    case VBlank => t.lineTicks < 456 && 144 <= t.ly <= 152
  }

  /** Entering a mode: OAM scan and horizontal blank raise the STAT interrupt, vertical blank the VBLANK one, each only when its STAT source bit is set. */
  function SetModeSpec(t: Timing, r: Registers, m: Mode): (t': Timing)
    ensures t'.mode == m && t'.ly == t.ly && t'.lineTicks == t.lineTicks && t'.lycEq == t.lycEq
    ensures t'.frameComplete == t.frameComplete
    ensures t'.statInterrupt == (t.statInterrupt || (m == OamScan && OamSource(r)) || (m == HBlank && HBlankSource(r)))
    ensures t'.vblankInterrupt == (t.vblankInterrupt || (m == VBlank && VBlankSource(r)))
  {
    var t1 :=
      match m
      case OamScan => if OamSource(r) then t.(statInterrupt := true) else t
      case VBlank => if VBlankSource(r) then t.(vblankInterrupt := true) else t
      case HBlank => if HBlankSource(r) then t.(statInterrupt := true) else t
      case PixelDraw => t;
    t1.(mode := m)
  }

  /** LY advanced by one, with the LY = LYC flag recomputed and the STAT interrupt raised on a match when LYC is a source. */
  function LyIncrementSpec(t: Timing, r: Registers): (t': Timing)
    ensures t'.ly == (t.ly + 1) % 256 && t'.lycEq == (t'.ly == r.lyc as int)
    ensures t'.statInterrupt == (t.statInterrupt || (t'.ly == r.lyc as int && LycSource(r)))
    ensures t'.mode == t.mode && t'.lineTicks == t.lineTicks
    ensures t'.frameComplete == t.frameComplete && t'.vblankInterrupt == t.vblankInterrupt
  {
    var ly := (t.ly + 1) % 256;
    if ly == r.lyc as int then
      t.(ly := ly, lycEq := true, statInterrupt := t.statInterrupt || LycSource(r))
    else
      t.(ly := ly, lycEq := false)
  }

  /** The ends of the four modes, `t` already carrying the incremented tick counter. */
  function OamScanSpec(t: Timing, r: Registers): Timing
  {
    if t.lineTicks == 80 then SetModeSpec(t, r, PixelDraw) else t
  }

  function PixelDrawSpec(t: Timing, r: Registers): Timing
  {
    if t.lineTicks == 252 then SetModeSpec(t, r, HBlank) else t
  }

  function HBlankSpec(t: Timing, r: Registers): Timing
  {
    if t.lineTicks == 456 then
      var t1 := LyIncrementSpec(t, r).(lineTicks := 0);
      if t1.ly == 144 then SetModeSpec(t1, r, VBlank).(frameComplete := true)
      else SetModeSpec(t1, r, OamScan)
    else t
  }

  function VBlankSpec(t: Timing, r: Registers): Timing
  {
    if t.lineTicks == 456 then
      var t1 := LyIncrementSpec(t, r).(lineTicks := 0);
      if t1.ly == 153 then SetModeSpec(t1, r, OamScan).(ly := 0) else t1
    else t
  }

  /** One tick of the mode machine. */
  function StepSpec(t: Timing, r: Registers): Timing
  {
    var t0 := t.(lineTicks := t.lineTicks + 1);
    match t.mode
    case OamScan => OamScanSpec(t0, r)
    case PixelDraw => PixelDrawSpec(t0, r)
    case HBlank => HBlankSpec(t0, r)
    case VBlank => VBlankSpec(t0, r)
  }

  /** The tick on which the line LY is drawn into the frame. */
  predicate Renders(t: Timing)
  {
    t.mode == PixelDraw && t.lineTicks + 1 == 252
  }

  /** The tick that ends the vertical blank and clears the frame to the lightest shade. */
  predicate Clears(t: Timing)
  {
    t.mode == VBlank && t.lineTicks + 1 == 456 && t.ly + 1 == 153
  }

  /** Every tick keeps the mode machine within `Inv`. */
  lemma StepKeepsInv(t: Timing, r: Registers)
    requires Inv(t)
    ensures Inv(StepSpec(t, r))
  {
    var t0 := t.(lineTicks := t.lineTicks + 1);
    match t.mode
    case OamScan =>
    case PixelDraw =>
    case HBlank =>
      if t0.lineTicks == 456 {
        var t1 := LyIncrementSpec(t0, r).(lineTicks := 0);
        assert t1.ly == t.ly + 1;
      }
    case VBlank =>
      if t0.lineTicks == 456 {
        var t1 := LyIncrementSpec(t0, r).(lineTicks := 0);
        assert t1.ly == t.ly + 1;
      }
  }

  /** A drawn line is a visible one, so the frame row and every VRAM read exist. */
  lemma RendersVisibleLine(t: Timing)
    requires Inv(t) && Renders(t)
    ensures t.ly < 144
  {
  }

  /** Tick 80 of OAM scan starts pixel drawing; tick 252 of pixel drawing starts the horizontal blank. */
  lemma LineModeSequence(t: Timing, r: Registers)
    ensures t.mode == OamScan && t.lineTicks == 79 ==>
      StepSpec(t, r).mode == PixelDraw && StepSpec(t, r).lineTicks == 80
    ensures Renders(t) ==>
      StepSpec(t, r).mode == HBlank && StepSpec(t, r).lineTicks == 252 &&
      StepSpec(t, r).statInterrupt == (t.statInterrupt || HBlankSource(r))
  {
  }

  /**
   * Tick 456 of the horizontal blank starts the next line at tick 0: the
   * vertical blank, with the frame complete, after line 143; OAM scan
   * otherwise.
   */
  lemma EndOfLine(t: Timing, r: Registers)
    requires Inv(t) && t.mode == HBlank && t.lineTicks == 455
    ensures StepSpec(t, r).lineTicks == 0 && StepSpec(t, r).ly == t.ly + 1
    ensures t.ly + 1 == 144 ==> StepSpec(t, r).mode == VBlank && StepSpec(t, r).frameComplete
    ensures t.ly + 1 == 144 ==> StepSpec(t, r).vblankInterrupt == (t.vblankInterrupt || VBlankSource(r))
    ensures t.ly + 1 != 144 ==> StepSpec(t, r).mode == OamScan && StepSpec(t, r).frameComplete == t.frameComplete
  {
    var t1 := LyIncrementSpec(t.(lineTicks := 456), r).(lineTicks := 0);
    if t1.ly == 144 {
      assert StepSpec(t, r) == SetModeSpec(t1, r, VBlank).(frameComplete := true);
    } else {
      assert StepSpec(t, r) == SetModeSpec(t1, r, OamScan);
    }
  }

  /** In the vertical blank LY advances every 456 ticks; reaching 153 restarts at line 0 in OAM scan. */
  lemma EndOfBlankLine(t: Timing, r: Registers)
    requires Inv(t) && t.mode == VBlank && t.lineTicks == 455
    ensures StepSpec(t, r).lineTicks == 0
    ensures t.ly + 1 == 153 ==> StepSpec(t, r).mode == OamScan && StepSpec(t, r).ly == 0
    ensures t.ly + 1 != 153 ==> StepSpec(t, r).mode == VBlank && StepSpec(t, r).ly == t.ly + 1
  {
    var t1 := LyIncrementSpec(t.(lineTicks := 456), r).(lineTicks := 0);
    if t1.ly == 153 {
      assert StepSpec(t, r) == SetModeSpec(t1, r, OamScan).(ly := 0);
    } else {
      assert StepSpec(t, r) == t1;
    }
  }

  /** Ticks that end no mode only advance the tick counter. */
  lemma QuietTick(t: Timing, r: Registers)
    requires (t.mode == OamScan && t.lineTicks + 1 != 80) || (t.mode == PixelDraw && t.lineTicks + 1 != 252) ||
             ((t.mode == HBlank || t.mode == VBlank) && t.lineTicks + 1 != 456)
    ensures StepSpec(t, r) == t.(lineTicks := t.lineTicks + 1)
  {
  }

  /** The tile map a line reads from, and the address of the tile at a map position. */
  function TileMapAddr(r: Registers, tileY: int, tileX: int): (a: int)
    requires 0 <= tileY < 18 && 0 <= tileX < 20
    ensures 0x9800 <= a <= 0x9FFF
  {
    (if HighTileMap(r) then 0x9C00 else 0x9800) + tileY * 32 + tileX
  }

  /** A tile number as a two's complement byte. */
  function Signed(id: bv8): (s: int)
    ensures -128 <= s < 128
    ensures s == (if id < 0x80 then id as int else id as int - 256)
  {
    if id < 0x80 then id as int else id as int - 256
  }

  /**
   * Where the 16 bytes of tile `id` start: 0x8000 + 16 * id with LCDC bit
   * 4 clear, 0x8800 + 16 * id with the id signed otherwise.  Both stay in
   * 0x8000-0x8FFF.
   */
  function TileAddr(r: Registers, id: bv8): (a: int)
    ensures 0x8000 <= a && a + 15 <= 0x8FFF && a % 16 == 0
    ensures !SignedTileData(r) ==> a == 0x8000 + 16 * (id as int)
    ensures SignedTileData(r) ==> a == 0x8800 + 16 * Signed(id)
  {
    if !SignedTileData(r) then 0x8000 + (id as int) * 16 else 0x8800 + Signed(id) * 16
  }

  /**
   * The colour number of column `px` of a tile row whose two bytes are
   * `b0` and `b1`: bit 7 - px of `b0` is its high bit and bit 7 - px of
   * `b1` its low bit.
   */
  function PixelOf(b0: bv8, b1: bv8, px: int): (c: bv8)
    requires 0 <= px < 8
    ensures c < 4
  {
    (((b0 >> (7 - px)) & 0x1) << 1) | ((b1 >> (7 - px)) & 0x1)
  }

  /** The high bit of a pixel's colour number comes from the first byte of the row, the low bit from the second. */
  lemma PixelBits(b0: bv8, b1: bv8, px: int)
    requires 0 <= px < 8
    ensures (PixelOf(b0, b1, px) & 2 != 0) <==> ((b0 >> (7 - px)) & 1 == 1)
    ensures (PixelOf(b0, b1, px) & 1 != 0) <==> ((b1 >> (7 - px)) & 1 == 1)
  {
  }

  /** The colour number of pixel (py, px) of the tile at map position (tileY, tileX). */
  function TilePixel(vram: seq<bv8>, r: Registers, tileY: int, tileX: int, py: int, px: int): (c: bv8)
    requires |vram| == VramSize && 0 <= tileY < 18 && 0 <= tileX < 20 && 0 <= py < 8 && 0 <= px < 8
    ensures c < 4
  {
    var id := vram[TileMapAddr(r, tileY, tileX) - 0x8000];
    var a := TileAddr(r, id) - 0x8000;
    PixelOf(vram[a + py * 2], vram[a + py * 2 + 1], px)
  }

  /** The palette's shade for a colour number: bits 2c+1..2c of BGP. */
  function Shade(bgp: bv8, c: bv8): (s: bv8)
    requires c < 4
    ensures s < 4
  {
    (bgp >> (c as int * 2)) & 0x3
  }

  /** The colour of pixel (line, x) of the background, with no scrolling. */
  function LineColor(vram: seq<bv8>, r: Registers, line: int, x: int): Rgb
    requires |vram| == VramSize && 0 <= line < Height && 0 <= x < Width
  {
    ColorOf(Shade(r.bgp, TilePixel(vram, r, line / 8, x / 8, line % 8, x % 8)))
  }

  /** The palette maps colour number c to shade c when BGP is the identity palette 0xE4. */
  lemma IdentityPalette(c: bv8)
    requires c < 4
    ensures Shade(0xE4, c) == c
  {
    if c == 0 { assert Shade(0xE4, c) == 0; }
    else if c == 1 { assert Shade(0xE4, c) == 1; }
    else if c == 2 { assert Shade(0xE4, c) == 2; }
    else { assert Shade(0xE4, c) == 3; }
  }

  /** A register read.  OAM and VRAM are readable at any time; an address no case names reads 0. */
  function ReadSpec(r: Registers, t: Timing, vram: seq<bv8>, oam: seq<bv8>, addr: Addr): bv8
    requires |vram| == VramSize && |oam| == OamSize
  {
    if 0x8000 <= addr <= 0x9FFF then vram[addr - 0x8000]
    else if 0xFE00 <= addr <= 0xFE9F then oam[addr - 0xFE00]
    else RegisterRead(r, t, addr)
  }

  /** A read of the LCD registers at 0xFF40-0xFF4B; any other address reads 0. */
  function RegisterRead(r: Registers, t: Timing, addr: Addr): bv8
  {
    if addr == 0xFF40 then r.lcdc
    else if addr == 0xFF41 then StatByte(r.statHigh, t.lycEq, t.mode)
    else if addr == 0xFF42 then r.scy
    else if addr == 0xFF43 then r.scx
    else if addr == 0xFF44 then t.ly as bv8
    else if addr == 0xFF45 then r.lyc
    else if addr == 0xFF46 then r.dma
    else if addr == 0xFF47 then r.bgp
    else if addr == 0xFF48 then r.obp0
    else if addr == 0xFF49 then r.obp1
    else if addr == 0xFF4A then r.wy
    else if addr == 0xFF4B then r.wx
    else 0
  }

  /** The registers after a write.  STAT takes bits 3-7 of the byte; LY has no write case. */
  function WriteRegs(r: Registers, addr: Addr, data: bv8): Registers
  {
    if addr == 0xFF40 then r.(lcdc := data)
    else if addr == 0xFF41 then r.(statHigh := data & 0xF8)
    else if addr == 0xFF42 then r.(scy := data)
    else if addr == 0xFF43 then r.(scx := data)
    else if addr == 0xFF45 then r.(lyc := data)
    else if addr == 0xFF46 then r.(dma := data)
    else if addr == 0xFF47 then r.(bgp := data)
    else if addr == 0xFF48 then r.(obp0 := data)
    else if addr == 0xFF49 then r.(obp1 := data)
    else if addr == 0xFF4A then r.(wy := data)
    else if addr == 0xFF4B then r.(wx := data)
    else r
  }

  /** A plain register reads back what was written. */
  lemma RegisterReadAfterWrite(r: Registers, t: Timing, data: bv8)
    ensures RegisterRead(WriteRegs(r, 0xFF40, data), t, 0xFF40) == data
    ensures RegisterRead(WriteRegs(r, 0xFF42, data), t, 0xFF42) == data
    ensures RegisterRead(WriteRegs(r, 0xFF43, data), t, 0xFF43) == data
    ensures RegisterRead(WriteRegs(r, 0xFF45, data), t, 0xFF45) == data
    ensures RegisterRead(WriteRegs(r, 0xFF46, data), t, 0xFF46) == data
    ensures RegisterRead(WriteRegs(r, 0xFF47, data), t, 0xFF47) == data
    ensures RegisterRead(WriteRegs(r, 0xFF48, data), t, 0xFF48) == data
    ensures RegisterRead(WriteRegs(r, 0xFF49, data), t, 0xFF49) == data
    ensures RegisterRead(WriteRegs(r, 0xFF4A, data), t, 0xFF4A) == data
    ensures RegisterRead(WriteRegs(r, 0xFF4B, data), t, 0xFF4B) == data
  {
  }

  /** A STAT write replaces bits 3-7 and keeps the mode and LY = LYC bits 0-2. */
  lemma StatWriteKeepsLowBits(r: Registers, t: Timing, vram: seq<bv8>, oam: seq<bv8>, data: bv8)
    requires |vram| == VramSize && |oam| == OamSize
    ensures var after := ReadSpec(WriteRegs(r, 0xFF41, data), t, vram, oam, 0xFF41);
      after & 0xF8 == data & 0xF8 &&
      after & 0x07 == ReadSpec(r, t, vram, oam, 0xFF41) & 0x07
  {
    var before := StatByte(r.statHigh, t.lycEq, t.mode);
    var after := StatByte(data & 0xF8, t.lycEq, t.mode);
    StatByteFields(r.statHigh, t.lycEq, t.mode);
    StatByteFields(data & 0xF8, t.lycEq, t.mode);
    assert after & 0x07 == ((after & 0x04) | (after & 0x03));
    assert before & 0x07 == ((before & 0x04) | (before & 0x03));
  }

  /** A write to LY changes nothing. */
  lemma LyWriteIgnored(r: Registers, data: bv8)
    ensures WriteRegs(r, 0xFF44, data) == r
  {
  }

  /** Reset: LCDC 0x91 and the other registers it names zeroed; the palettes keep their values. */
  function ResetRegs(r: Registers): (r': Registers)
    ensures r'.lcdc == 0x91 && r'.statHigh == 0 && r'.scy == 0 && r'.scx == 0 && r'.lyc == 0
    ensures r'.dma == 0 && r'.wy == 0 && r'.wx == 0
    ensures r'.bgp == r.bgp && r'.obp0 == r.obp0 && r'.obp1 == r.obp1
  {
    r.(lcdc := 0x91, statHigh := 0, scy := 0, scx := 0, lyc := 0, dma := 0, wx := 0, wy := 0)
  }

  /** Reset zeroes STAT and LY, which puts the mode machine in horizontal blank on line 0; the tick counter and flags are left alone. */
  function ResetTiming(t: Timing): (t': Timing)
    ensures t'.mode == HBlank && !t'.lycEq && t'.ly == 0
    ensures t'.lineTicks == t.lineTicks && t'.frameComplete == t.frameComplete
    ensures t'.vblankInterrupt == t.vblankInterrupt && t'.statInterrupt == t.statInterrupt
  {
    t.(mode := HBlank, lycEq := false, ly := 0)
  }

  lemma ResetKeepsInv(t: Timing)
    requires Inv(t)
    ensures Inv(ResetTiming(t))
  {
  }

  class Unit {
    const frame: array2<Rgb>
    const vram: array<bv8>
    const oam: array<bv8>
    var regs: Registers
    var mode: Mode
    var lycEq: bool
    var ly: Byte
    var lineTicks: int
    var frameComplete: bool
    var vblankInterrupt: bool
    var statInterrupt: bool

    ghost predicate Sized()
      reads this
    {
      frame.Length0 == Height && frame.Length1 == Width &&
      vram.Length == VramSize && oam.Length == OamSize && vram != oam
    }

    ghost predicate Valid()
      reads this
    {
      Sized() && Inv(Clock())
    }

    function Clock(): Timing
      reads this
    {
      Timing(mode, lycEq, ly, lineTicks, frameComplete, vblankInterrupt, statInterrupt)
    }

    /** A unit as allocation and reset leave it: all memory and registers zero except LCDC. */
    constructor ()
      ensures Valid() && fresh(frame) && fresh(vram) && fresh(oam)
      ensures regs == ResetRegs(Registers(0, 0, 0, 0, 0, 0, 0, 0, 0, 0, 0))
      ensures Clock() == Timing(HBlank, false, 0, 0, false, false, false)
      ensures forall y, x :: 0 <= y < Height && 0 <= x < Width ==> frame[y, x] == Black
      ensures vram[..] == seq(VramSize, _ => 0) && oam[..] == seq(OamSize, _ => 0)
    {
      frame := new Rgb[Height, Width]((_, _) => Black);
      vram := new bv8[VramSize](_ => 0);
      oam := new bv8[OamSize](_ => 0);
      regs := ResetRegs(Registers(0, 0, 0, 0, 0, 0, 0, 0, 0, 0, 0));
      mode, lycEq, ly, lineTicks := HBlank, false, 0, 0;
      frameComplete, vblankInterrupt, statInterrupt := false, false, false;
    }

    method Reset()
      requires Valid()
      modifies this, frame, vram, oam
      ensures Valid() && regs == ResetRegs(old(regs)) && Clock() == ResetTiming(old(Clock()))
      ensures forall y, x :: 0 <= y < Height && 0 <= x < Width ==> frame[y, x] == Black
      ensures vram[..] == seq(VramSize, _ => 0) && oam[..] == seq(OamSize, _ => 0)
    {
      ClearFrame(Black);
      FillBytes(vram, 0x00);
      FillBytes(oam, 0x00);
      regs := ResetRegs(regs);
      mode, lycEq, ly := HBlank, false, 0;
    }

    method Read(addr: Addr) returns (v: bv8)
      requires Sized()
      ensures v == ReadSpec(regs, Clock(), vram[..], oam[..], addr)
    {
      if 0x8000 <= addr <= 0x9FFF {
        v := vram[addr - 0x8000];
      } else if 0xFE00 <= addr <= 0xFE9F {
        v := oam[addr - 0xFE00];
      } else if addr == 0xFF41 {
        v := StatByte(regs.statHigh, lycEq, mode);
      } else if addr == 0xFF44 {
        v := ly as bv8;
      } else {
        v := ReadSpec(regs, Clock(), vram[..], oam[..], addr);
      }
    }

    method Write(addr: Addr, data: bv8)
      requires Valid()
      modifies this, vram, oam
      ensures Valid() && regs == WriteRegs(old(regs), addr, data) && Clock() == old(Clock())
      ensures vram[..] == if 0x8000 <= addr <= 0x9FFF then old(vram[..])[addr - 0x8000 := data] else old(vram[..])
      ensures oam[..] == if 0xFE00 <= addr <= 0xFE9F then old(oam[..])[addr - 0xFE00 := data] else old(oam[..])
    {
      if 0x8000 <= addr <= 0x9FFF {
        vram[addr - 0x8000] := data;
      } else if 0xFE00 <= addr <= 0xFE9F {
        oam[addr - 0xFE00] := data;
      } else {
        regs := WriteRegs(regs, addr, data);
      }
    }

    /** Every pixel of the frame set to `color`. */
    method ClearFrame(color: Rgb)
      requires Sized()
      modifies frame
      ensures forall y, x :: 0 <= y < Height && 0 <= x < Width ==> frame[y, x] == color
    {
      var y := 0;
      while y < Height
        invariant 0 <= y <= Height
        invariant forall j, i :: 0 <= j < y && 0 <= i < Width ==> frame[j, i] == color
      {
        var x := 0;
        while x < Width
          invariant 0 <= x <= Width
          invariant forall j, i :: 0 <= j < y && 0 <= i < Width ==> frame[j, i] == color
          invariant forall i :: 0 <= i < x ==> frame[y, i] == color
        {
          frame[y, x] := color;
          x := x + 1;
        }
        y := y + 1;
      }
    }

    /** The 8 x 8 colour numbers of the tile at map position (tileY, tileX), as `TilePixel` gives them. */
    method FetchTile(tileY: int, tileX: int, pixels: array2<bv8>)
      requires Sized() && 0 <= tileY < 18 && 0 <= tileX < 20
      requires pixels.Length0 == 8 && pixels.Length1 == 8
      modifies pixels
      ensures forall y, x :: 0 <= y < 8 && 0 <= x < 8 ==> pixels[y, x] == TilePixel(vram[..], regs, tileY, tileX, y, x)
    {
      ghost var v := vram[..];
      var tileMapAddr := TileMapAddr(regs, tileY, tileX);
      var tileId := vram[tileMapAddr - 0x8000];
      var tileAddr := TileAddr(regs, tileId);
      var y := 0;
      while y < 8
        invariant 0 <= y <= 8
        invariant forall j, i :: 0 <= j < y && 0 <= i < 8 ==> pixels[j, i] == TilePixel(v, regs, tileY, tileX, j, i)
      {
        var b0 := vram[tileAddr + y * 2 - 0x8000];
        var b1 := vram[tileAddr + y * 2 + 1 - 0x8000];
        DecodeRow(b0, b1, pixels, y);
        assert forall i :: 0 <= i < 8 ==> TilePixel(v, regs, tileY, tileX, y, i) == PixelOf(b0, b1, i);
        y := y + 1;
      }
    }

    /** `tile` holds the colour numbers of the tile at map position (tileY, tileX). */
    ghost predicate TileHolds(tile: array2<bv8>, v: seq<bv8>, tileY: int, tileX: int)
      reads this, tile
      requires |v| == VramSize && 0 <= tileY < 18 && 0 <= tileX < 20
    {
      tile.Length0 == 8 && tile.Length1 == 8 &&
      forall j, i :: 0 <= j < 8 && 0 <= i < 8 ==> tile[j, i] == TilePixel(v, regs, tileY, tileX, j, i)
    }

    /** Line LY of the frame drawn from the background; every other line is left as it was. */
    method RenderScanline()
      requires Sized() && ly < 144
      modifies frame
      ensures forall x :: 0 <= x < Width ==> frame[ly, x] == LineColor(vram[..], regs, ly, x)
      ensures forall y, x :: 0 <= y < Height && y != ly && 0 <= x < Width ==> frame[y, x] == old(frame[y, x])
    {
      ghost var v := vram[..];
      var screenY := ly;
      var tileY := screenY / 8;
      var pixelY := screenY % 8;
      var tile := new bv8[8, 8];
      var lastTileX := -1;
      var screenX := 0;
      while screenX < Width
        invariant 0 <= screenX <= Width
        invariant lastTileX == (if screenX == 0 then -1 else (screenX - 1) / 8)
        invariant lastTileX >= 0 ==> TileHolds(tile, v, tileY, lastTileX)
        invariant forall x :: 0 <= x < screenX ==> frame[screenY, x] == LineColor(v, regs, screenY, x)
        invariant forall y, x :: 0 <= y < Height && y != screenY && 0 <= x < Width ==> frame[y, x] == old(frame[y, x])
      {
        lastTileX := RenderPixel(v, screenY, screenX, tile, lastTileX);
        screenX := screenX + 1;
      }
    }

    /**
     * One column of the scanline loop: the tile under column `screenX` is
     * fetched when it differs from the one last fetched, and the pixel is
     * drawn through the palette.
     */
    method RenderPixel(ghost v: seq<bv8>, screenY: int, screenX: int, tile: array2<bv8>, lastTileX: int) returns (tileX: int)
      requires Sized() && v == vram[..] && 0 <= screenY < Height && 0 <= screenX < Width
      requires tile.Length0 == 8 && tile.Length1 == 8
      requires lastTileX == (if screenX == 0 then -1 else (screenX - 1) / 8)
      requires lastTileX >= 0 ==> TileHolds(tile, v, screenY / 8, lastTileX)
      modifies frame, tile
      ensures tileX == screenX / 8 && TileHolds(tile, v, screenY / 8, tileX)
      ensures frame[screenY, screenX] == LineColor(v, regs, screenY, screenX)
      ensures forall y, x :: 0 <= y < Height && 0 <= x < Width && (y != screenY || x != screenX) ==> frame[y, x] == old(frame[y, x])
    {
      tileX := screenX / 8;
      var pixelX := screenX % 8;
      if tileX != lastTileX {
        FetchTile(screenY / 8, tileX, tile);
      }
      var colorId := tile[screenY % 8, pixelX];
      var color := Shade(regs.bgp, colorId);
      frame[screenY, screenX] := ColorOf(color);
    }

    method SetMode(m: Mode)
      modifies this
      ensures Clock() == SetModeSpec(old(Clock()), regs, m) && regs == old(regs)
    {
      match m {
      case OamScan =>
        if OamSource(regs) {
          statInterrupt := true;
        }
      case VBlank =>
        if VBlankSource(regs) {
          vblankInterrupt := true;
        }
      case HBlank =>
        if HBlankSource(regs) {
          statInterrupt := true;
        }
      case PixelDraw =>
      }
      mode := m;
    }

    method LyIncrement()
      modifies this
      ensures Clock() == LyIncrementSpec(old(Clock()), regs) && regs == old(regs)
    {
      ly := (ly + 1) % 256;
      if ly == regs.lyc as int {
        lycEq := true;
        if LycSource(regs) {
          statInterrupt := true;
        }
      } else {
        lycEq := false;
      }
    }

    method StepOamScan()
      modifies this
      ensures Clock() == OamScanSpec(old(Clock()), regs) && regs == old(regs)
    {
      if lineTicks == 80 {
        SetMode(PixelDraw);
      }
    }

    method StepPixelDraw()
      requires Sized() && ly < 144
      modifies this, frame
      ensures Clock() == PixelDrawSpec(old(Clock()), regs) && regs == old(regs)
      ensures old(lineTicks) == 252 ==> forall x :: 0 <= x < Width ==> frame[ly, x] == LineColor(vram[..], regs, ly, x)
      ensures old(lineTicks) == 252 ==> forall y, x :: 0 <= y < Height && y != ly && 0 <= x < Width ==> frame[y, x] == old(frame[y, x])
      ensures old(lineTicks) != 252 ==> unchanged(frame)
    {
      if lineTicks == 252 {
        SetMode(HBlank);
        RenderScanline();
      }
    }

    method StepHBlank()
      modifies this
      ensures Clock() == HBlankSpec(old(Clock()), regs) && regs == old(regs)
    {
      if lineTicks == 456 {
        LyIncrement();
        lineTicks := 0;
        if ly == 144 {
          SetMode(VBlank);
          frameComplete := true;
        } else {
          SetMode(OamScan);
        }
      }
    }

    method StepVBlank()
      requires Sized()
      modifies this, frame
      ensures Clock() == VBlankSpec(old(Clock()), regs) && regs == old(regs)
      ensures old(lineTicks) == 456 && old(ly) + 1 == 153 ==>
        forall y, x :: 0 <= y < Height && 0 <= x < Width ==> frame[y, x] == Colors[0]
      ensures !(old(lineTicks) == 456 && old(ly) + 1 == 153) ==> unchanged(frame)
    {
      if lineTicks == 456 {
        LyIncrement();
        lineTicks := 0;
        if ly == 153 {
          SetMode(OamScan);
          ClearFrame(Colors[0]);
          ly := 0;
        }
      }
    }

    /**
     * One tick: the mode machine steps as `StepSpec` says, the line is
     * drawn on the tick `Renders` names and the frame cleared on the tick
     * `Clears` names.
     */
    method Step()
      requires Valid()
      modifies this, frame
      ensures Valid() && regs == old(regs) && Clock() == StepSpec(old(Clock()), old(regs))
      ensures Renders(old(Clock())) ==>
        forall x :: 0 <= x < Width ==> frame[old(ly), x] == LineColor(vram[..], regs, old(ly), x)
      ensures Renders(old(Clock())) ==>
        forall y, x :: 0 <= y < Height && y != old(ly) && 0 <= x < Width ==> frame[y, x] == old(frame[y, x])
      ensures Clears(old(Clock())) ==> forall y, x :: 0 <= y < Height && 0 <= x < Width ==> frame[y, x] == Colors[0]
      ensures !Renders(old(Clock())) && !Clears(old(Clock())) ==> unchanged(frame)
    {
      ghost var t := Clock();
      StepKeepsInv(t, regs);
      lineTicks := lineTicks + 1;
      ghost var t0 := Clock();
      assert t0 == t.(lineTicks := t.lineTicks + 1);
      match mode
      case OamScan =>
        StepOamScan();
        assert Clock() == OamScanSpec(t0, regs);
      case PixelDraw =>
        StepPixelDraw();
        assert Clock() == PixelDrawSpec(t0, regs);
      case HBlank =>
        StepHBlank();
        assert Clock() == HBlankSpec(t0, regs);
      case VBlank =>
        StepVBlank();
        assert Clock() == VBlankSpec(t0, regs);
    }

    /** Read-and-clear of the frame-complete flag. */
    method TakeFrameComplete() returns (b: bool)
      modifies this
      ensures b == old(frameComplete) && Clock() == old(Clock()).(frameComplete := false) && regs == old(regs)
    {
      b := frameComplete;
      frameComplete := false;
    }

    /** Read-and-clear of the STAT interrupt request. */
    method TakeStatInterrupt() returns (b: bool)
      modifies this
      ensures b == old(statInterrupt) && Clock() == old(Clock()).(statInterrupt := false) && regs == old(regs)
    {
      b := statInterrupt;
      statInterrupt := false;
    }

    /** Read-and-clear of the VBLANK interrupt request. */
    method TakeVBlankInterrupt() returns (b: bool)
      modifies this
      ensures b == old(vblankInterrupt) && Clock() == old(Clock()).(vblankInterrupt := false) && regs == old(regs)
    {
      b := vblankInterrupt;
      vblankInterrupt := false;
    }
  }

  /** Row `y` of `pixels` decoded from the two bytes of a tile row; the other rows are left alone. */
  method DecodeRow(b0: bv8, b1: bv8, pixels: array2<bv8>, y: int)
    requires pixels.Length0 == 8 && pixels.Length1 == 8 && 0 <= y < 8
    modifies pixels
    ensures forall i :: 0 <= i < 8 ==> pixels[y, i] == PixelOf(b0, b1, i)
    ensures forall j, i :: 0 <= j < 8 && j != y && 0 <= i < 8 ==> pixels[j, i] == old(pixels[j, i])
  {
    var x := 0;
    while x < 8
      invariant 0 <= x <= 8
      invariant forall i :: 7 - x < i < 8 ==> pixels[y, i] == PixelOf(b0, b1, i)
      invariant forall j, i :: 0 <= j < 8 && j != y && 0 <= i < 8 ==> pixels[j, i] == old(pixels[j, i])
    {
      var v0 := ((b0 >> x) & 0x1) << 1;
      var v1 := (b1 >> x) & 0x1;
      PixelColumn(b0, b1, x);
      pixels[y, 7 - x] := v0 | v1;
      x := x + 1;
    }
  }

  /** Bit `x` of the tile bytes is column 7 - x. */
  lemma PixelColumn(b0: bv8, b1: bv8, x: int)
    requires 0 <= x < 8
    ensures PixelOf(b0, b1, 7 - x) == (((b0 >> x) & 0x1) << 1) | ((b1 >> x) & 0x1)
  {
    assert 7 - (7 - x) == x;
  }

  /** `memset` of a byte array. */
  method FillBytes(a: array<bv8>, v: bv8)
    modifies a
    ensures a[..] == seq(a.Length, _ => v)
  {
    var i := 0;
    while i < a.Length
      invariant 0 <= i <= a.Length
      invariant forall k :: 0 <= k < i ==> a[k] == v
    {
      a[i] := v;
      i := i + 1;
    }
  }
}
