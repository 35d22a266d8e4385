/**
 * The NTSC picture processing unit: its CPU-facing registers, its memories (2 or 4 KiB
 * of nametable VRAM, the 32-byte palette table, the 256-byte OAM and the 32-byte
 * secondary OAM) and the per-dot state machine that evaluates sprites, raises vblank
 * and draws pixels.
 */
module PpuCore {
  import opened Types
  import opened Mirroring
  import opened Registers
  import opened Screen
  import opened CpuInterface
  import Timing
  import Sprites
  import Render

  /** Where an access through the Data register lands, by PPU address. */
  datatype Target = ChrRom(offset: int) | Vram(index: int) | Palette(index: int) | OutOfRange

  /**
   * The address decoding of Data reads and writes: pattern memory below 0x2000 (on the
   * cartridge), nametables at 0x2000..0x2fff and their mirror at 0x3000..0x3eff (folded
   * onto the VRAM array through the mirroring mode), the palette table at 0x3f00..0x3fff,
   * and nothing above 0x3fff.
   */
  function Route(m: Mirroring, a: U16): (t: Target)
    ensures t.ChrRom? <==> a <= 0x1fff
    ensures t.Vram? <==> 0x2000 <= a <= 0x3eff
    ensures t.Palette? <==> 0x3f00 <= a <= 0x3fff
    ensures t.ChrRom? ==> t.offset == a
    ensures t.Vram? ==> 0 <= t.index < 0x1000 && (m != FourScreen ==> t.index < 0x800)
    ensures t.Palette? ==> 0 <= t.index < 32
  {
    if a <= 0x1fff then ChrRom(a)
    else if a <= 0x2fff then Vram(MirrorAddress(m, a) - 0x2000)
    else if a <= 0x3eff then Vram(MirrorAddress(m, a - 0x1000) - 0x2000)
    else if a == 0x3f10 || a == 0x3f14 || a == 0x3f18 || a == 0x3f1c then Palette(a - 0x3f10)
    // (a - 0x3f00) & 31
    else if a <= 0x3fff then Palette((a - 0x3f00) % 32)
    else OutOfRange
  }

  /** 0x3000..0x3eff reads and writes exactly what the same access 0x1000 lower would. */
  lemma RouteUpperMirror(m: Mirroring, a: U16)
    requires 0x3000 <= a <= 0x3eff
    ensures Route(m, a) == Route(m, a - 0x1000)
  {
  }

  /**
   * Two nametable addresses reach the same VRAM byte exactly when the mirroring mode
   * makes them share storage.
   */
  lemma RouteSharesStorage(m: Mirroring, a: U16, b: U16)
    requires 0x2000 <= a <= 0x2fff && 0x2000 <= b <= 0x2fff
    ensures Route(m, a) == Route(m, b) <==> SameStorage(m, a, b)
  {
  }

  /**
   * The sprite palettes' colour-0 entries 0x3f10, 0x3f14, 0x3f18 and 0x3f1c alias the
   * background entries 0, 4, 8 and 12; every other palette address selects entry
   * (a - 0x3f00) mod 32, so the table repeats every 32 bytes.
   */
  lemma RoutePalette(m: Mirroring, a: U16)
    requires 0x3f00 <= a <= 0x3fff
    ensures a == 0x3f10 || a == 0x3f14 || a == 0x3f18 || a == 0x3f1c ==>
      Route(m, a) == Route(m, a - 0x10) == Palette(a - 0x3f10)
    ensures !(a == 0x3f10 || a == 0x3f14 || a == 0x3f18 || a == 0x3f1c) ==> Route(m, a) == Palette((a - 0x3f00) % 32)
  {
  }

  /**
   * The address after a Data access: `addr + vram_increment`, cut down to 14 bits when
   * it passes 0x3fff, so it always stays a PPU address and the out-of-range cases of
   * `Route` are never reached.
   */
  function Advance(a: U16, increment: U16): (r: U16)
    requires a <= 0x3fff && (increment == 1 || increment == 32)
    ensures r <= 0x3fff
    ensures r == (a + increment) % 0x4000
    ensures forall m :: Route(m, r) != OutOfRange
  {
    var s := a + increment;
    // addr &= 0x3fff
    if s > 0x3fff then s % 0x4000 else s
  }

  /** What a sprite pixel does to the picture. */
  datatype SpriteOutcome =
    | Transparent
    | BehindBackground(hit: bool)
    | InFront(color: Color, hit: bool)
  {
    /** Whether the outcome reports a sprite-zero hit. */
    predicate Hit() {
      !Transparent? && hit
    }
  }

  /**
   * What `update_scanline` changes besides the counters and the sprite-zero flag:
   * OAMADDR, secondary OAM, the overflow and vblank flags, and the NMIs the CPU has had.
   */
  datatype LineState = LineState(oamAddr: int, secondary: seq<bv8>, overflow: bool, vblank: bool, nmis: nat)

  /**
   * The effect of one `update_scanline` call at counters `c` on that state: dots 257..320
   * zero OAMADDR; passing dot 340 evaluates sprites for the next line, from OAMADDR with
   * the sprite height `height`; beginning line 241 clears overflow, raises vblank and,
   * when `nmiEnabled`, one NMI; the wrap to line 0 clears vblank.
   */
  function ScanlineEffect(c: Timing.Counters, oam: seq<bv8>, height: int, nmiEnabled: bool, s: LineState): (s': LineState)
    requires |oam| == 256 && 0 <= s.oamAddr < 256
    ensures !Timing.EndsLine(c) ==> s'.secondary == s.secondary && s'.overflow == s.overflow && s'.vblank == s.vblank && s'.nmis == s.nmis
    ensures Timing.StartsVblank(c) ==> s'.vblank && !s'.overflow && s'.nmis == s.nmis + (if nmiEnabled then 1 else 0)
    ensures Timing.EndsVblank(c) ==> !s'.vblank && s'.nmis == s.nmis
  {
    var e := Sprites.Evaluate(oam, s.oamAddr, c.scanline + 1, height);
    LineState(
      if Timing.ResetsOamAddr(c) then 0 else s.oamAddr,
      if Timing.EndsLine(c) then e.secondary else s.secondary,
      if Timing.StartsVblank(c) then false else if Timing.EndsLine(c) then s.overflow || e.overflow else s.overflow,
      if Timing.StartsVblank(c) then true else if Timing.EndsVblank(c) then false else s.vblank,
      s.nmis + (if Timing.StartsVblank(c) && nmiEnabled then 1 else 0))
  }

  class Ppu {
    /** How many lines have been drawn; vblank starts at 241 and 262 wraps to 0. */
    var scanline: nat
    /** How many dots of the current line have passed; wraps after 340. */
    var lineProgress: nat

    const controller: ControllerRegister
    const mask: MaskRegister
    const status: StatusRegister
    const addr: AddrRegister
    const scroll: ScrollRegister
    const oamAddr: OamAddrRegister

    /** The write toggle shared by Scroll and Address. */
    var scrollAddrLatch: bool

    const paletteTable: array<bv8>
    /** Nametable storage; only the first 2 KiB are used unless the mirroring is FourScreen. */
    const vram: array<bv8>
    const oam: array<bv8>
    const secondaryOam: array<bv8>

    /** The last value on the PPU's data bus (open bus). */
    var bus: bv8
    /** Data reads lag by one: a read returns this buffer and refills it. */
    var dataBuffer: bv8

    const mirroring: Mirroring

    var buttons: Buttons

    // ---------------------------------------------------------------- invariant

    function Counters(): Timing.Counters
      reads this
    {
      Timing.Counters(scanline, lineProgress)
    }

    /** The state `update_scanline` changes besides the counters and the sprite-zero flag. */
    function LineStateOf(cpu: Cpu): LineState
      reads oamAddr, secondaryOam, status, cpu
    {
      LineState(oamAddr.addr, secondaryOam[..], status.spriteOverflow, status.vblankStarted, cpu.nmiCount)
    }

    /** The array sizes of the source's fixed-size fields, and the arrays do not alias. */
    ghost predicate Shape() {
      && vram.Length == 4096 && paletteTable.Length == 32 && oam.Length == 256 && secondaryOam.Length == 32
      && vram != paletteTable && vram != oam && vram != secondaryOam
      && paletteTable != oam && paletteTable != secondaryOam && oam != secondaryOam
    }

    /** What drawing needs: the memory shapes and the PPUCTRL field ranges. */
    ghost predicate Ready()
      reads controller
    {
      Shape() && controller.Valid()
    }

    /** The invariant every operation keeps. */
    ghost predicate Valid()
      reads this, controller, addr
    {
      && Ready()
      && Timing.InFrame(Counters())
      && addr.addr <= 0x3fff
    }

    /** The frame buffer of a screen is none of the PPU's memories. */
    ghost predicate Separate(screen: ScreenWriter) {
      screen.pixels != vram && screen.pixels != paletteTable && screen.pixels != oam && screen.pixels != secondaryOam
    }

    /** `Ppu::new`. */
    constructor (mirroring: Mirroring)
      ensures Valid()
      ensures fresh(controller) && fresh(mask) && fresh(status) && fresh(addr) && fresh(scroll) && fresh(oamAddr)
      ensures fresh(vram) && fresh(paletteTable) && fresh(oam) && fresh(secondaryOam)
      ensures this.mirroring == mirroring
      ensures scanline == 0 && lineProgress == 0 && scrollAddrLatch && bus == 0 && dataBuffer == 0
      ensures buttons == NoButtons
      ensures controller.Fields() == DecodeControl(0) && mask.Flags() == DecodeMask(0)
      ensures !status.spriteOverflow && !status.spriteZeroHit && !status.vblankStarted
      ensures addr.addr == 0 && scroll.x == 0 && scroll.y == 0 && oamAddr.addr == 0
      ensures forall i :: 0 <= i < 4096 ==> vram[i] == 0
      ensures forall i :: 0 <= i < 32 ==> paletteTable[i] == 0 && secondaryOam[i] == 0xff
      ensures forall i :: 0 <= i < 256 ==> oam[i] == 0
    {
      scanline := 0;
      lineProgress := 0;
      controller := new ControllerRegister();
      mask := new MaskRegister();
      status := new StatusRegister();
      addr := new AddrRegister();
      scroll := new ScrollRegister();
      oamAddr := new OamAddrRegister();
      scrollAddrLatch := true;
      paletteTable := new bv8[32](_ => 0);
      vram := new bv8[4096](_ => 0);
      oam := new bv8[256](_ => 0);
      secondaryOam := new bv8[32](_ => 0xff);
      bus := 0;
      dataBuffer := 0;
      this.mirroring := mirroring;
      buttons := NoButtons;
    }

    /** `Ppu::get_joypad_state`. */
    function GetJoypadState(): (b: Buttons)
      reads this
      ensures b == buttons
    {
      buttons
    }

    // ---------------------------------------------------------------- memory

    /**
     * `vram_read_mirrored`: the VRAM byte a mirrorable address names, the same byte a
     * Data access at that address reaches.
     */
    function VramReadMirrored(a: int): bv8
      requires Shape() && Mirrorable(a)
      reads vram
    {
      vram[MirrorAddress(mirroring, a) - 0x2000]
    }

    /** The byte a mirrored VRAM read sees is the one a Data access at the same address reaches. */
    lemma VramReadMatchesData(a: U16)
      requires Shape() && 0x2000 <= a <= 0x3eff
      ensures VramReadMirrored(a) == vram[Route(mirroring, a).index]
    {
    }

    // ---------------------------------------------------------------- register writes

    /**
     * `write_ppu_register`. Every write puts the value on the bus; then the addressed
     * register takes it. OamData stores at OAMADDR and steps OAMADDR with wrap-around;
     * Scroll and Address share the write toggle; Data stores where `Route` sends the
     * current address (nothing for pattern memory) and advances the address.
     */
    method WritePpuRegister(register: PpuRegister, value: bv8)
      requires Valid()
      modifies this, controller, mask, oamAddr, oam, scroll, addr, vram, paletteTable
      ensures Valid()
      ensures bus == value
      ensures scanline == old(scanline) && lineProgress == old(lineProgress)
      ensures dataBuffer == old(dataBuffer) && buttons == old(buttons)
      ensures scrollAddrLatch == if register.Scroll? || register.Address? then !old(scrollAddrLatch) else old(scrollAddrLatch)
      ensures register.Controller? ==> controller.Fields() == DecodeControl(value)
      ensures !register.Controller? ==> unchanged(controller)
      ensures register.Mask? ==> mask.Flags() == DecodeMask(value) && mask.binaryValue == value
      ensures !register.Mask? ==> unchanged(mask)
      ensures oamAddr.addr == match register
        case OamAddress => value as int
        case OamData => (old(oamAddr.addr) + 1) % 0x100
        case _ => old(oamAddr.addr)
      ensures oam[..] == if register.OamData? then old(oam[..])[old(oamAddr.addr) := value] else old(oam[..])
      ensures register.Scroll? && old(scrollAddrLatch) ==> scroll.x == value as int && scroll.y == old(scroll.y)
      ensures register.Scroll? && !old(scrollAddrLatch) ==> scroll.y == value as int && scroll.x == old(scroll.x)
      ensures !register.Scroll? ==> unchanged(scroll)
      ensures addr.addr == match register
        case Address => AddrWrite(old(addr.addr), value, old(scrollAddrLatch))
        case Data => Advance(old(addr.addr), old(controller.vramIncrement))
        case _ => old(addr.addr)
      ensures var t := Route(mirroring, old(addr.addr));
        vram[..] == if register.Data? && t.Vram? then old(vram[..])[t.index := value] else old(vram[..])
      ensures var t := Route(mirroring, old(addr.addr));
        paletteTable[..] == if register.Data? && t.Palette? then old(paletteTable[..])[t.index := value] else old(paletteTable[..])
    {
      bus := value;
      match register {
        case Controller => controller.Write(value);
        case Mask => mask.Write(value);
        case Status =>
        case OamAddress => oamAddr.Write(value);
        case OamData => WriteOamData(value);
        case Scroll => WriteScroll(value);
        case Address => WriteAddress(value);
        case Data => WriteData(value);
      }
    }

    /** OamData: store at OAMADDR, then step OAMADDR (wrapping at 256). */
    method WriteOamData(value: bv8)
      requires Shape()
      modifies oamAddr, oam
      ensures oamAddr.addr == (old(oamAddr.addr) + 1) % 0x100
      ensures oam[..] == old(oam[..])[old(oamAddr.addr) := value]
    {
      oam[oamAddr.addr] := value;
      // a `u8` increment, which wraps
      oamAddr.addr := (oamAddr.addr + 1) % 0x100;
    }

    /** Scroll: the first write of a pair sets x, the second y. */
    method WriteScroll(value: bv8)
      modifies this, scroll
      ensures scrollAddrLatch == !old(scrollAddrLatch)
      ensures old(scrollAddrLatch) ==> scroll.x == value as int && scroll.y == old(scroll.y)
      ensures !old(scrollAddrLatch) ==> scroll.y == value as int && scroll.x == old(scroll.x)
      ensures scanline == old(scanline) && lineProgress == old(lineProgress) && bus == old(bus)
      ensures dataBuffer == old(dataBuffer) && buttons == old(buttons)
    {
      scroll.Write(value, !scrollAddrLatch);
      scrollAddrLatch := !scrollAddrLatch;
    }

    /** Address: the first write of a pair sets the high six bits, the second the low byte. */
    method WriteAddress(value: bv8)
      modifies this, addr
      ensures scrollAddrLatch == !old(scrollAddrLatch)
      ensures addr.addr == AddrWrite(old(addr.addr), value, old(scrollAddrLatch))
      ensures scanline == old(scanline) && lineProgress == old(lineProgress) && bus == old(bus)
      ensures dataBuffer == old(dataBuffer) && buttons == old(buttons)
    {
      addr.Write(value, scrollAddrLatch);
      scrollAddrLatch := !scrollAddrLatch;
    }

    /** Data: store where the current address routes, then advance the address. */
    method WriteData(value: bv8)
      requires Valid()
      modifies addr, vram, paletteTable
      ensures addr.addr == Advance(old(addr.addr), controller.vramIncrement)
      ensures var t := Route(mirroring, old(addr.addr));
        vram[..] == if t.Vram? then old(vram[..])[t.index := value] else old(vram[..])
      ensures var t := Route(mirroring, old(addr.addr));
        paletteTable[..] == if t.Palette? then old(paletteTable[..])[t.index := value] else old(paletteTable[..])
    {
      var a := addr.addr;
      if a <= 0x1fff {
        // a write to read-only pattern memory is ignored
      } else if a <= 0x2fff {
        vram[MirrorAddress(mirroring, a) - 0x2000] := value;
      } else if a <= 0x3eff {
        vram[MirrorAddress(mirroring, a - 0x1000) - 0x2000] := value;
      } else if a == 0x3f10 || a == 0x3f14 || a == 0x3f18 || a == 0x3f1c {
        paletteTable[a - 0x3f10] := value;
      } else {
        paletteTable[(a - 0x3f00) % 32] := value;
      }
      addr.addr := addr.addr + controller.vramIncrement;
      if addr.addr > 0x3fff {
        addr.addr := addr.addr % 0x4000;
      }
    }

    // ---------------------------------------------------------------- register reads

    /**
     * `read_ppu_register`. A Status read reports the status flags in bits 5..7 over the
     * low five bits of the bus, clears vblank and resets the write toggle; Scroll and
     * Address reads reset the toggle too. A Data read below 0x3f00 returns the buffered
     * byte and refills the buffer from pattern memory (through the CPU) or VRAM; a palette
     * read returns the palette byte directly and leaves the buffer alone. Either way the
     * address advances. Every other register reads as the bus.
     */
    method ReadPpuRegister(register: PpuRegister, cpu: Cpu) returns (r: bv8)
      requires Valid()
      modifies this, status, addr
      ensures Valid()
      ensures r == bus
      ensures scanline == old(scanline) && lineProgress == old(lineProgress) && buttons == old(buttons)
      ensures scrollAddrLatch == if register.Status? || register.Scroll? || register.Address? then true else old(scrollAddrLatch)
      ensures register.Status? ==>
        && r == (old(bus) & 0x1f) | StatusByte(old(status.spriteOverflow), old(status.spriteZeroHit), old(status.vblankStarted))
        && !status.vblankStarted
        && status.spriteOverflow == old(status.spriteOverflow) && status.spriteZeroHit == old(status.spriteZeroHit)
      ensures !register.Status? ==> unchanged(status)
      ensures register.Data? ==>
        var t := Route(mirroring, old(addr.addr));
        && addr.addr == Advance(old(addr.addr), controller.vramIncrement)
        && (t.ChrRom? ==> r == old(dataBuffer) && dataBuffer == cpu.PpuReadChrRom(t.offset))
        && (t.Vram? ==> r == old(dataBuffer) && dataBuffer == vram[t.index])
        && (t.Palette? ==> r == paletteTable[t.index] && dataBuffer == old(dataBuffer))
      ensures !register.Data? ==> addr.addr == old(addr.addr) && dataBuffer == old(dataBuffer)
      ensures !register.Status? && !register.Data? ==> r == old(bus)
    {
      match register {
        case Controller =>
        case Mask =>
        case Status =>
          var value := status.Read();
          bus := bus & 0x1f;
          bus := bus | value;
          scrollAddrLatch := true;
        case OamAddress =>
        case OamData =>
        case Scroll =>
          scrollAddrLatch := true;
        case Address =>
          scrollAddrLatch := true;
        case Data =>
          var result, buffer := FetchData(cpu, addr.addr);
          bus, dataBuffer := result, buffer;
          addr.addr := addr.addr + controller.vramIncrement;
          if addr.addr > 0x3fff {
            addr.addr := addr.addr % 0x4000;
          }
      }
      r := bus;
    }

    /**
     * The two bytes a Data read at `a` produces, the value returned and the new read
     * buffer: below the palette the buffered byte is returned and the buffer refilled from
     * pattern memory (through the CPU) or VRAM; palette bytes are returned at once and the
     * buffer is kept.
     */
    method FetchData(cpu: Cpu, a: U16) returns (result: bv8, buffer: bv8)
      requires Shape() && a <= 0x3fff
      ensures var t := Route(mirroring, a);
        && (t.ChrRom? ==> result == dataBuffer && buffer == cpu.PpuReadChrRom(t.offset))
        && (t.Vram? ==> result == dataBuffer && buffer == vram[t.index])
        && (t.Palette? ==> result == paletteTable[t.index] && buffer == dataBuffer)
    {
      if a <= 0x1fff {
        result, buffer := dataBuffer, cpu.PpuReadChrRom(a);
      } else if a <= 0x2fff {
        result, buffer := dataBuffer, vram[MirrorAddress(mirroring, a) - 0x2000];
      } else if a <= 0x3eff {
        result, buffer := dataBuffer, vram[MirrorAddress(mirroring, a - 0x1000) - 0x2000];
      } else if a == 0x3f10 || a == 0x3f14 || a == 0x3f18 || a == 0x3f1c {
        result, buffer := paletteTable[a - 0x3f10], dataBuffer;
      } else {
        result, buffer := paletteTable[(a - 0x3f00) % 32], dataBuffer;
      }
    }

    /** `write_oam_dma`: all 256 OAM bytes are replaced at once. */
    method WriteOamDma(dataToWrite: seq<bv8>)
      requires Valid() && |dataToWrite| == 256
      modifies oam
      ensures oam[..] == dataToWrite
    {
      forall i | 0 <= i < 256 {
        oam[i] := dataToWrite[i];
      }
    }

    // ---------------------------------------------------------------- timing

    /**
     * The sprite evaluation of `update_scanline` for the line just begun: secondary OAM
     * is cleared to 0xff, then OAM is scanned from `start` (OAMADDR) four bytes at a
     * time; the first eight sprites whose `height` rows cover the line are copied, and a
     * ninth raises the overflow flag and stops the scan.
     */
    method EvaluateSprites(start: int, height: int)
      requires Shape() && 0 <= start < 256
      modifies secondaryOam, status
      ensures var e := Sprites.Evaluate(oam[..], start, scanline, height);
        secondaryOam[..] == e.secondary && status.spriteOverflow == (old(status.spriteOverflow) || e.overflow)
      ensures status.spriteZeroHit == old(status.spriteZeroHit) && status.vblankStarted == old(status.vblankStarted)
    {
      ClearSecondaryOam(start);
      var count := (256 - start) / 4;
      var spriteIndex := 0;
      var index := 0;
      ghost var sel: seq<int> := [];
      var full := false;
      while index < count && !full
        invariant 0 <= index <= count
        invariant sel == Sprites.Covering(oam[..], start, index, scanline, height)
        invariant spriteIndex == |sel| <= 8
        invariant secondaryOam[..] == Sprites.SecondaryOam(oam[..], start, sel)
        invariant full ==> spriteIndex == 8 && index < count && Sprites.OnLine(oam[start + 4 * index], scanline, height)
        invariant !full ==> status.spriteOverflow == old(status.spriteOverflow)
        invariant full ==> status.spriteOverflow
        invariant status.spriteZeroHit == old(status.spriteZeroHit) && status.vblankStarted == old(status.vblankStarted)
        decreases count - index, if full then 0 else 1
      {
        spriteIndex, full, sel := ScanCandidate(start, height, index, spriteIndex, sel);
        if !full {
          index := index + 1;
        }
      }
      ScanResult(oam[..], start, scanline, height, index, sel, full);
    }

    /** Every byte of secondary OAM set to 0xff: the evaluation of no sprite at all. */
    method ClearSecondaryOam(ghost start: int)
      requires Shape()
      modifies secondaryOam
      ensures secondaryOam[..] == Sprites.SecondaryOam(oam[..], start, [])
    {
      forall i | 0 <= i < 32 {
        secondaryOam[i] := 0xff;
      }
    }

    /**
     * One step of the scan: candidate `index` is skipped when it does not cover the next
     * line, copied into the next free slot when one is left, and otherwise raises the
     * overflow flag and ends the scan.
     */
    method ScanCandidate(start: int, height: int, index: int, spriteIndex: int, ghost sel: seq<int>)
      returns (spriteIndex': int, full: bool, ghost sel': seq<int>)
      requires Shape() && 0 <= start < 256 && 0 <= index < Sprites.CandidateCount(start)
      requires sel == Sprites.Covering(oam[..], start, index, scanline, height) && spriteIndex == |sel| <= 8
      requires secondaryOam[..] == Sprites.SecondaryOam(oam[..], start, sel)
      modifies secondaryOam, status
      ensures full ==> spriteIndex == 8 && Sprites.OnLine(oam[start + 4 * index], scanline, height) && sel' == sel
      ensures !full ==> sel' == Sprites.Covering(oam[..], start, index + 1, scanline, height)
      ensures spriteIndex' == |sel'| <= 8
      ensures secondaryOam[..] == Sprites.SecondaryOam(oam[..], start, sel')
      ensures status.spriteOverflow == (old(status.spriteOverflow) || full)
      ensures status.spriteZeroHit == old(status.spriteZeroHit) && status.vblankStarted == old(status.vblankStarted)
    {
      var y := oam[start + 4 * index];
      CoveringStep(oam[..], start, index, scanline, height);
      sel' := sel;
      spriteIndex' := spriteIndex;
      full := false;
      if scanline >= y as int && scanline < y as int + height {
        if spriteIndex == 8 {
          // a ninth sprite on the line ends the scan
          status.spriteOverflow := true;
          full := true;
        } else {
          CopyToSlot(spriteIndex, start, index, sel);
          sel' := sel + [index];
          spriteIndex' := spriteIndex + 1;
        }
      }
    }

    /**
     * Candidate k (counted from `start`) copied into the next free slot of secondary OAM,
     * which then holds the selection `sel + [k]`.
     */
    method CopyToSlot(slot: int, start: int, k: int, ghost sel: seq<int>)
      requires Shape() && Sprites.IsCandidate(oam[..], start, k) && slot == |sel| < 8
      requires forall j :: 0 <= j < |sel| ==> Sprites.IsCandidate(oam[..], start, sel[j])
      requires secondaryOam[..] == Sprites.SecondaryOam(oam[..], start, sel)
      modifies secondaryOam
      ensures secondaryOam[..] == Sprites.SecondaryOam(oam[..], start, sel + [k])
    {
      SecondaryOamAppend(oam[..], start, sel, k);
      var n := slot * 4;
      secondaryOam[n] := oam[start + 4 * k];
      secondaryOam[n + 1] := oam[start + 4 * k + 1];
      // the attribute byte loses bits 2..4, and bit 2 marks the first candidate
      secondaryOam[n + 2] := (oam[start + 4 * k + 2] & 0xe3) | (if k == 0 then 0x04 else 0x00);
      secondaryOam[n + 3] := oam[start + 4 * k + 3];
    }

    /**
     * `start_vblank`: vblank is flagged, the sprite-zero-hit and overflow flags are
     * cleared, and an NMI is raised when PPUCTRL asks for one.
     */
    method StartVblank(cpu: Cpu)
      modifies status, cpu
      ensures status.vblankStarted && !status.spriteZeroHit && !status.spriteOverflow
      ensures cpu.nmiCount == old(cpu.nmiCount) + (if controller.shouldGenerateVblankNmi then 1 else 0)
      ensures cpu.chrRom == old(cpu.chrRom)
    {
      status.vblankStarted := true;
      status.spriteZeroHit := false;
      status.spriteOverflow := false;
      if controller.shouldGenerateVblankNmi {
        cpu.NonMaskableInterrupt();
      }
    }

    /** `end_vblank`. */
    method EndVblank()
      modifies status
      ensures !status.vblankStarted
      ensures status.spriteZeroHit == old(status.spriteZeroHit) && status.spriteOverflow == old(status.spriteOverflow)
    {
      status.vblankStarted := false;
    }

    /**
     * `update_scanline`: one dot passes. Dots 257..320 zero OAMADDR. Passing dot 340
     * begins the next line: sprites are evaluated for it, line 241 starts vblank and
     * line 262 wraps to line 0 and ends vblank.
     */
    method UpdateScanline(cpu: Cpu)
      requires Valid()
      modifies this, oamAddr, secondaryOam, status, cpu
      ensures Valid()
      ensures Counters() == Timing.Step(old(Counters()))
      ensures LineStateOf(cpu) == ScanlineEffect(old(Counters()), oam[..], controller.spriteSize.1,
                                                 controller.shouldGenerateVblankNmi, old(LineStateOf(cpu)))
      ensures status.spriteZeroHit == (!Timing.StartsVblank(old(Counters())) && old(status.spriteZeroHit))
      ensures cpu.chrRom == old(cpu.chrRom)
      ensures bus == old(bus) && dataBuffer == old(dataBuffer) && scrollAddrLatch == old(scrollAddrLatch) && buttons == old(buttons)
    {
      lineProgress := lineProgress + 1;
      if lineProgress >= 257 && lineProgress <= 320 {
        oamAddr.Write(0);
      }
      if lineProgress > 340 {
        lineProgress := lineProgress - 341;
        scanline := scanline + 1;
        BeginLine(cpu);
        if scanline > 261 {
          scanline := 0;
        }
      }
    }

    /**
     * What `update_scanline` does when a line begins, before line 262 wraps to line 0:
     * sprites are evaluated for the new line, line 241 starts vblank and line 262 ends it.
     */
    method BeginLine(cpu: Cpu)
      requires Shape()
      modifies secondaryOam, status, cpu
      ensures var e := Sprites.Evaluate(oam[..], oamAddr.addr, scanline, controller.spriteSize.1);
        && secondaryOam[..] == e.secondary
        && status.spriteOverflow == (if scanline == 241 then false else old(status.spriteOverflow) || e.overflow)
        && status.spriteZeroHit == (scanline != 241 && old(status.spriteZeroHit))
        && status.vblankStarted == (if scanline == 241 then true else if scanline > 261 then false else old(status.vblankStarted))
        && cpu.nmiCount == old(cpu.nmiCount) + (if scanline == 241 && controller.shouldGenerateVblankNmi then 1 else 0)
      ensures cpu.chrRom == old(cpu.chrRom)
    {
      EvaluateSprites(oamAddr.addr, controller.spriteSize.1);
      if scanline == 241 {
        StartVblank(cpu);
      }
      if scanline > 261 {
        EndVblank();
      }
    }

    /** `Ppu::blanking`. */
    function Blanking(): (b: bool)
      reads this
      ensures b == Timing.Blanking(Counters())
      ensures !b ==> lineProgress < WIDTH && scanline < HEIGHT
    {
      !(lineProgress < 256 && scanline < 240)
    }

    // ---------------------------------------------------------------- drawing

    /**
     * The nametable half of `draw_pixel`: the tile number at the scrolled position, and
     * the palette (0..3) its attribute byte assigns to the tile's quadrant.
     */
    function BackgroundTile(x: nat, y: nat, scrollX: U8, scrollY: U8, nameTable: U16): (r: (int, int))
      requires Shape()
      requires Render.NameTableInRange(nameTable)
      reads vram
      ensures 0 <= r.0 < 256 && 0 <= r.1 < 4
    {
      var f := Render.FetchBackground(x, y, scrollX, scrollY);
      var tileNum := VramReadMirrored(Render.TileAddress(nameTable, f)) as int;
      var attr := VramReadMirrored(Render.AttributeAddress(nameTable, f));
      (tileNum, Render.PaletteNumber(attr, f.tileX, f.tileY) as int)
    }

    /**
     * The palette entry of a background pixel: the two pattern bits come from CHR memory
     * at PPUCTRL's background bank; when both are clear the pixel shows the backdrop,
     * entry 0, and otherwise entry 4 * p + value of the tile's palette p.
     */
    function BackgroundEntry(cpu: Cpu, x: nat, y: nat, scrollX: U8, scrollY: U8, nameTable: U16): (e: int)
      requires Ready()
      requires Render.NameTableInRange(nameTable)
      reads controller, vram, cpu
      ensures 0 <= e < 16 && (e % 4 == 0 ==> e == 0)
      ensures e / 4 == BackgroundTile(x, y, scrollX, scrollY, nameTable).1 || e == 0
    {
      var (tileNum, palette) := BackgroundTile(x, y, scrollX, scrollY, nameTable);
      Render.BackgroundEntries(palette)[BackgroundPattern(cpu, x, y, scrollX, scrollY, tileNum)]
    }

    /**
     * The two-bit pattern value of the scrolled position of (x, y) in tile `tileNum`,
     * read from PPUCTRL's background pattern table through the CPU.
     */
    function BackgroundPattern(cpu: Cpu, x: nat, y: nat, scrollX: U8, scrollY: U8, tileNum: int): (v: int)
      requires Ready() && 0 <= tileNum < 256
      reads controller, cpu
      ensures 0 <= v < 4
    {
      var f := Render.FetchBackground(x, y, scrollX, scrollY);
      var bank := controller.backgroundPatternAddress;
      var a := Render.PatternAddress(bank, tileNum, f.tileYOff);
      var upper := cpu.PpuReadChrRom(a);
      var lower := cpu.PpuReadChrRom(a + 8);
      Render.PixelValue(upper, lower, f.tileXOff)
    }

    /**
     * The colour `draw_pixel` gives the background at (x, y): the colour of its palette
     * entry, which is the backdrop entry 0 where the tile's pattern is clear.
     */
    function BackgroundColor(cpu: Cpu, colors: ColorTable, x: nat, y: nat, scrollX: U8, scrollY: U8, nameTable: U16): (c: Color)
      requires Ready()
      requires Render.NameTableInRange(nameTable)
      reads controller, mask, vram, paletteTable, cpu
    {
      EntryColor(colors, BackgroundEntry(cpu, x, y, scrollX, scrollY, nameTable))
    }

    /**
     * Where the tile's pattern is clear the background shows the backdrop, the colour
     * of palette entry 0; elsewhere the colour of an entry of the tile's own palette.
     */
    lemma BackdropColor(cpu: Cpu, colors: ColorTable, x: nat, y: nat, scrollX: U8, scrollY: U8, nameTable: U16)
      requires Ready()
      requires Render.NameTableInRange(nameTable)
      ensures var (tileNum, palette) := BackgroundTile(x, y, scrollX, scrollY, nameTable);
        var v := BackgroundPattern(cpu, x, y, scrollX, scrollY, tileNum);
        BackgroundColor(cpu, colors, x, y, scrollX, scrollY, nameTable) ==
          EntryColor(colors, if v == 0 then 0 else 4 * palette + v)
    {
    }

    /** `draw_pixel`: the background colour of (x, y) is written to the screen. */
    method DrawPixel(cpu: Cpu, screen: ScreenWriter, colors: ColorTable, x: nat, y: nat, scrollX: U8, scrollY: U8, nameTable: U16)
      requires Ready() && Separate(screen)
      requires screen.isReal ==> PixelInBounds(screen.pixels.Length, x, y)
      requires Render.NameTableInRange(nameTable)
      modifies screen.pixels
      ensures screen.isReal ==>
        screen.pixels[..] == WithPixel(old(screen.pixels[..]), x, y, old(BackgroundColor(cpu, colors, x, y, scrollX, scrollY, nameTable)))
      ensures !screen.isReal ==> screen.pixels[..] == old(screen.pixels[..])
      ensures BackgroundColor(cpu, colors, x, y, scrollX, scrollY, nameTable) == old(BackgroundColor(cpu, colors, x, y, scrollX, scrollY, nameTable))
    {
      var color := BackgroundColor(cpu, colors, x, y, scrollX, scrollY, nameTable);
      screen.DrawPixel(x, y, color);
    }

    /**
     * What `draw_sprite_pixel` does with the sprite whose bytes are `sprite` at offset
     * (xOff, yOff) into it: a pixel whose two pattern bits are clear is transparent;
     * otherwise bit 2 of the attributes (the sprite-zero mark) is the hit, and bit 5
     * puts the sprite behind the background, else it shows the colour of entry
     * 0x10 + 4 * p + value of the sprite palette p.
     */
    function SpriteOutcomeAt(cpu: Cpu, colors: ColorTable, sprite: seq<bv8>, xOff: int, yOff: int): (o: SpriteOutcome)
      requires Ready() && |sprite| == 4
      requires Render.SpriteFetchFits(sprite[1] as int, sprite[2], xOff, yOff, controller.spriteSize.1, controller.spritePatternAddress)
      reads controller, mask, paletteTable, cpu
      ensures !o.Transparent? ==> (o.hit <==> sprite[2] & 0x04 != 0)
      ensures o.BehindBackground? ==> sprite[2] & 0x20 != 0
      ensures o.InFront? ==> sprite[2] & 0x20 == 0
    {
      var attr := sprite[2];
      var v := SpritePattern(cpu, sprite[1], attr, xOff, yOff);
      if v == 0 then Transparent
      else
        var hit := attr & 0x04 > 0;
        if attr & 0x20 > 0 then BehindBackground(hit)
        else
          var entry := Render.SpriteEntries((attr & 0x03) as int)[v - 1];
          InFront(EntryColor(colors, entry), hit)
    }

    /**
     * The outcome of a sprite pixel exactly: transparent iff its pattern value v is 0,
     * behind the background iff v is not 0 and attribute bit 5 is set, and otherwise
     * the colour of entry 0x10 + 4 * p + v of its sprite palette p.
     */
    lemma SpriteOutcomeColors(cpu: Cpu, colors: ColorTable, sprite: seq<bv8>, xOff: int, yOff: int)
      requires Ready() && |sprite| == 4
      requires Render.SpriteFetchFits(sprite[1] as int, sprite[2], xOff, yOff, controller.spriteSize.1, controller.spritePatternAddress)
      ensures var o, v := SpriteOutcomeAt(cpu, colors, sprite, xOff, yOff), SpritePattern(cpu, sprite[1], sprite[2], xOff, yOff);
        && (o.Transparent? <==> v == 0)
        && (o.BehindBackground? <==> v != 0 && sprite[2] & 0x20 != 0)
        && (o.InFront? ==> o.color == EntryColor(colors, 0x10 + 4 * (sprite[2] & 0x03) as int + v))
    {
    }

    /**
     * The two-bit pattern value of pixel (xOff, yOff) of a sprite with tile byte `tileNum`
     * and attributes `attr`, read from the pattern tables through the CPU.
     */
    function SpritePattern(cpu: Cpu, tileNum: bv8, attr: bv8, xOff: int, yOff: int): (v: int)
      requires Ready()
      requires Render.SpriteFetchFits(tileNum as int, attr, xOff, yOff, controller.spriteSize.1, controller.spritePatternAddress)
      reads controller, cpu
      ensures 0 <= v < 4
    {
      var f := Render.FetchSprite(tileNum as int, attr, xOff, yOff, controller.spriteSize.1, controller.spritePatternAddress);
      var a := Render.PatternAddress(f.bank, f.tile, f.row);
      var upper := cpu.PpuReadChrRom(a);
      var lower := cpu.PpuReadChrRom(a + 8);
      Render.PixelValue(upper, lower, f.column)
    }

    /**
     * The colour palette entry `entry` shows: the colour table's colour of the entry's
     * byte, reduced to its grey column under greyscale, with every emphasised channel at
     * full intensity.
     */
    function EntryColor(colors: ColorTable, entry: int): (c: Color)
      requires 0 <= entry < 32 && paletteTable.Length == 32
      reads mask, paletteTable
      ensures !mask.greyscale && !mask.emphRed && !mask.emphGreen && !mask.emphBlue ==> c == colors(paletteTable[entry])
      ensures mask.emphRed ==> c.r == 0xff
      ensures mask.emphGreen ==> c.g == 0xff
      ensures mask.emphBlue ==> c.b == 0xff
    {
      Render.Emphasize(colors(Render.ColorIndex(paletteTable[entry], mask.greyscale)), mask.emphRed, mask.emphGreen, mask.emphBlue)
    }

    /**
     * `draw_sprite_pixel`: a transparent pixel draws nothing, a sprite behind the
     * background draws the background pixel, any other draws its own colour; the result
     * is the sprite-zero hit.
     */
    method DrawSpritePixel(cpu: Cpu, screen: ScreenWriter, colors: ColorTable, sprite: seq<bv8>, x: nat, y: nat,
                           xOff: int, yOff: int, scrollX: U8, scrollY: U8, nameTable: U16) returns (hit: bool)
      requires Valid() && Separate(screen) && |sprite| == 4
      requires screen.isReal ==> PixelInBounds(screen.pixels.Length, x, y)
      requires Render.NameTableInRange(nameTable)
      requires Render.SpriteFetchFits(sprite[1] as int, sprite[2], xOff, yOff, controller.spriteSize.1, controller.spritePatternAddress)
      modifies screen.pixels
      ensures hit == old(SpriteOutcomeAt(cpu, colors, sprite, xOff, yOff)).Hit()
      ensures screen.isReal ==> screen.pixels[..] == Paint(old(screen.pixels[..]), x, y,
        old(SpriteOutcomeAt(cpu, colors, sprite, xOff, yOff)), old(BackgroundColor(cpu, colors, x, y, scrollX, scrollY, nameTable)))
      ensures !screen.isReal ==> screen.pixels[..] == old(screen.pixels[..])
    {
      var outcome := SpriteOutcomeAt(cpu, colors, sprite, xOff, yOff);
      match outcome {
        case Transparent =>
          hit := false;
        case BehindBackground(h) =>
          DrawPixel(cpu, screen, colors, x, y, scrollX, scrollY, nameTable);
          hit := h;
        case InFront(color, h) =>
          screen.DrawPixel(x, y, color);
          hit := h;
      }
    }

    /**
     * What slot i of secondary OAM contributes to the current pixel, under the corrected
     * selection test (a slot whose row arithmetic would underflow is skipped).
     */
    function SlotOutcome(cpu: Cpu, colors: ColorTable, i: int): SpriteOutcome
      requires Ready() && scanline < Timing.LINES_PER_FRAME && 0 <= i < 8
      reads this, controller, mask, paletteTable, secondaryOam, cpu
    {
      var s := secondaryOam[..];
      var height := controller.spriteSize.1;
      if Sprites.Drawn(s, i, lineProgress, scanline, height) then
        var offsets := Sprites.SpriteOffsets(s, i, lineProgress, scanline, height);
        Render.SmallRowsFit(s[4 * i + 1] as int, s[4 * i + 2], offsets.0, offsets.1, height, controller.spritePatternAddress);
        SpriteOutcomeAt(cpu, colors, s[4 * i..4 * i + 4], offsets.0, offsets.1)
      else
        Transparent
    }

    /** The outcomes of the eight slots at the current pixel. */
    function SlotOutcomes(cpu: Cpu, colors: ColorTable): (s: seq<SpriteOutcome>)
      requires Ready() && scanline < Timing.LINES_PER_FRAME
      reads this, controller, mask, paletteTable, secondaryOam, cpu
      ensures |s| == 8 && forall i :: 0 <= i < 8 ==> s[i] == SlotOutcome(cpu, colors, i)
    {
      seq(8, i requires 0 <= i < 8 && Ready() && scanline < Timing.LINES_PER_FRAME
                 reads this, controller, mask, paletteTable, secondaryOam, cpu =>
        SlotOutcome(cpu, colors, i))
    }

    /**
     * `draw_sprites`: the eight slots of secondary OAM are painted over the current
     * pixel from slot 7 down to slot 0, so lower slots win; the result says whether any
     * slot reported a sprite-zero hit.
     */
    method DrawSprites(cpu: Cpu, screen: ScreenWriter, colors: ColorTable, scrollX: U8, scrollY: U8, nameTable: U16) returns (hit: bool)
      requires Valid() && Separate(screen)
      requires screen.isReal ==> PixelInBounds(screen.pixels.Length, lineProgress, scanline)
      requires Render.NameTableInRange(nameTable)
      modifies screen.pixels
      ensures hit == HitFrom(old(SlotOutcomes(cpu, colors)), 0)
      ensures screen.isReal ==> screen.pixels[..] == Layered(old(screen.pixels[..]), lineProgress, scanline, old(SlotOutcomes(cpu, colors)), 0,
                                                             old(BackgroundColor(cpu, colors, lineProgress, scanline, scrollX, scrollY, nameTable)))
      ensures !screen.isReal ==> screen.pixels[..] == old(screen.pixels[..])
    {
      ghost var outcomes := SlotOutcomes(cpu, colors);
      ghost var bg := BackgroundColor(cpu, colors, lineProgress, scanline, scrollX, scrollY, nameTable);
      hit := false;
      var i := 8;
      while i > 0
        invariant 0 <= i <= 8
        invariant hit == HitFrom(outcomes, i)
        invariant screen.isReal ==> screen.pixels[..] == Layered(old(screen.pixels[..]), lineProgress, scanline, outcomes, i, bg)
        invariant !screen.isReal ==> screen.pixels[..] == old(screen.pixels[..])
        invariant SlotOutcomes(cpu, colors) == outcomes
        invariant BackgroundColor(cpu, colors, lineProgress, scanline, scrollX, scrollY, nameTable) == bg
      {
        i := i - 1;
        var h := DrawSlot(cpu, screen, colors, i, scrollX, scrollY, nameTable);
        hit := hit || h;
      }
    }

    /**
     * The body of `draw_sprites` for slot i: when the slot passes the selection test
     * its pixel is drawn at the offsets of the current dot into the sprite.
     */
    method DrawSlot(cpu: Cpu, screen: ScreenWriter, colors: ColorTable, i: int, scrollX: U8, scrollY: U8, nameTable: U16) returns (hit: bool)
      requires Valid() && Separate(screen) && 0 <= i < 8
      requires screen.isReal ==> PixelInBounds(screen.pixels.Length, lineProgress, scanline)
      requires Render.NameTableInRange(nameTable)
      modifies screen.pixels
      ensures hit == old(SlotOutcome(cpu, colors, i)).Hit()
      ensures screen.isReal ==> screen.pixels[..] == Paint(old(screen.pixels[..]), lineProgress, scanline,
        old(SlotOutcome(cpu, colors, i)), old(BackgroundColor(cpu, colors, lineProgress, scanline, scrollX, scrollY, nameTable)))
      ensures !screen.isReal ==> screen.pixels[..] == old(screen.pixels[..])
    {
      var s := secondaryOam[..];
      var height := controller.spriteSize.1;
      hit := false;
      // the columns and y != 0xff as written, then the correction: skip the slot where
      // `scanline - sprite_y` or the vertical flip would underflow
      if Sprites.Drawn(s, i, lineProgress, scanline, height) {
        var offsets := Sprites.SpriteOffsets(s, i, lineProgress, scanline, height);
        Render.SmallRowsFit(s[4 * i + 1] as int, s[4 * i + 2], offsets.0, offsets.1, height, controller.spritePatternAddress);
        hit := DrawSpritePixel(cpu, screen, colors, s[4 * i..4 * i + 4], lineProgress, scanline, offsets.0, offsets.1, scrollX, scrollY, nameTable);
      }
    }

    /**
     * `Ppu::update`, one PPU dot: the counters advance; inside the visible picture the
     * background pixel is drawn, the sprites are painted over it, and a sprite-zero hit
     * sets the status flag.
     */
    method Update(cpu: Cpu, screen: ScreenWriter, colors: ColorTable)
      requires Valid() && Separate(screen)
      requires screen.isReal ==> screen.pixels.Length >= 4 * WIDTH * HEIGHT
      modifies this, oamAddr, secondaryOam, status, cpu, screen.pixels
      ensures Valid()
      ensures Counters() == Timing.Step(old(Counters()))
      ensures LineStateOf(cpu) == ScanlineEffect(old(Counters()), oam[..], controller.spriteSize.1,
                                                 controller.shouldGenerateVblankNmi, old(LineStateOf(cpu)))
      ensures cpu.chrRom == old(cpu.chrRom)
      ensures bus == old(bus) && dataBuffer == old(dataBuffer) && scrollAddrLatch == old(scrollAddrLatch) && buttons == old(buttons)
      ensures Blanking() ==> screen.pixels[..] == old(screen.pixels[..])
      ensures Blanking() ==> status.spriteZeroHit == (!Timing.StartsVblank(old(Counters())) && old(status.spriteZeroHit))
      ensures !Blanking() ==> status.spriteZeroHit == (old(status.spriteZeroHit) || HitFrom(SlotOutcomes(cpu, colors), 0))
      ensures !Blanking() && screen.isReal ==>
        var bg := BackgroundColor(cpu, colors, lineProgress, scanline, scroll.x, scroll.y, controller.nametableAddress);
        screen.pixels[..] == Layered(WithPixel(old(screen.pixels[..]), lineProgress, scanline, bg), lineProgress, scanline,
                                     SlotOutcomes(cpu, colors), 0, bg)
      ensures !Blanking() && !screen.isReal ==> screen.pixels[..] == old(screen.pixels[..])
    {
      ghost var before := screen.pixels[..];
      UpdateScanline(cpu);
      assert screen.pixels[..] == before;
      if !Blanking() {
        DrawDot(cpu, screen, colors);
      }
    }

    /**
     * The drawing half of `Ppu::update`, inside the visible picture: the background
     * pixel is drawn at the current dot with PPUSCROLL's offsets and the nametable of
     * PPUCTRL, the sprites are painted over it, and a sprite-zero hit sets the status flag.
     */
    method DrawDot(cpu: Cpu, screen: ScreenWriter, colors: ColorTable)
      requires Valid() && Separate(screen) && !Blanking()
      requires screen.isReal ==> screen.pixels.Length >= 4 * WIDTH * HEIGHT
      modifies status, screen.pixels
      ensures status.spriteZeroHit == (old(status.spriteZeroHit) || HitFrom(SlotOutcomes(cpu, colors), 0))
      ensures status.vblankStarted == old(status.vblankStarted) && status.spriteOverflow == old(status.spriteOverflow)
      ensures screen.isReal ==>
        var bg := BackgroundColor(cpu, colors, lineProgress, scanline, scroll.x, scroll.y, controller.nametableAddress);
        screen.pixels[..] == Layered(WithPixel(old(screen.pixels[..]), lineProgress, scanline, bg), lineProgress, scanline,
                                     SlotOutcomes(cpu, colors), 0, bg)
      ensures !screen.isReal ==> screen.pixels[..] == old(screen.pixels[..])
    {
      var nametableAddr := controller.nametableAddress;
      DrawPixel(cpu, screen, colors, lineProgress, scanline, scroll.x, scroll.y, nametableAddr);
      DrawSpriteLayer(cpu, screen, colors, nametableAddr);
    }

    /** The sprite layer of one dot: `draw_sprites`, and a sprite-zero hit raises the status flag. */
    method DrawSpriteLayer(cpu: Cpu, screen: ScreenWriter, colors: ColorTable, nameTable: U16)
      requires Valid() && Separate(screen) && Render.NameTableInRange(nameTable)
      requires screen.isReal ==> PixelInBounds(screen.pixels.Length, lineProgress, scanline)
      modifies status, screen.pixels
      ensures status.spriteZeroHit == (old(status.spriteZeroHit) || HitFrom(SlotOutcomes(cpu, colors), 0))
      ensures status.vblankStarted == old(status.vblankStarted) && status.spriteOverflow == old(status.spriteOverflow)
      ensures screen.isReal ==> screen.pixels[..] == Layered(old(screen.pixels[..]), lineProgress, scanline, SlotOutcomes(cpu, colors), 0,
                                                             BackgroundColor(cpu, colors, lineProgress, scanline, scroll.x, scroll.y, nameTable))
      ensures !screen.isReal ==> screen.pixels[..] == old(screen.pixels[..])
      ensures BackgroundColor(cpu, colors, lineProgress, scanline, scroll.x, scroll.y, nameTable)
        == old(BackgroundColor(cpu, colors, lineProgress, scanline, scroll.x, scroll.y, nameTable))
    {
      var hit := DrawSprites(cpu, screen, colors, scroll.x, scroll.y, nameTable);
      status.RecordSpriteZeroHit(hit);
    }
  }

  // ---------------------------------------------------------------- sprite layering

  /** The colour a non-transparent sprite outcome paints, given the background colour. */
  function PaintColor(o: SpriteOutcome, background: Color): Color {
    match o
    case InFront(c, _) => c
    case _ => background
  }

  /** A sprite outcome applied to pixel (x, y) of a frame buffer. */
  function Paint(buffer: seq<bv8>, x: nat, y: nat, o: SpriteOutcome, background: Color): (r: seq<bv8>)
    requires PixelInBounds(|buffer|, x, y)
    ensures |r| == |buffer|
    ensures o.Transparent? ==> r == buffer
    ensures !o.Transparent? ==> r == WithPixel(buffer, x, y, PaintColor(o, background))
  {
    match o
    case Transparent => buffer
    case BehindBackground(_) => WithPixel(buffer, x, y, background)
    case InFront(c, _) => WithPixel(buffer, x, y, c)
  }

  /** Whether some outcome from `outcomes[i]` on reports a sprite-zero hit. */
  predicate HitFrom(outcomes: seq<SpriteOutcome>, i: int)
    requires 0 <= i <= |outcomes|
    decreases |outcomes| - i
  {
    i < |outcomes| && (outcomes[i].Hit() || HitFrom(outcomes, i + 1))
  }

  /** The accumulated hit is reported exactly when some outcome from i on is a hit. */
  lemma {:induction false} HitFromSome(outcomes: seq<SpriteOutcome>, i: int)
    requires 0 <= i <= |outcomes|
    ensures HitFrom(outcomes, i) <==> exists k :: i <= k < |outcomes| && outcomes[k].Hit()
    decreases |outcomes| - i
  {
    if i < |outcomes| {
      HitFromSome(outcomes, i + 1);
    }
  }

  /** The frame buffer after the outcomes from the last one down to `outcomes[i]` are painted over `buffer`. */
  function Layered(buffer: seq<bv8>, x: nat, y: nat, outcomes: seq<SpriteOutcome>, i: int, background: Color): (r: seq<bv8>)
    requires PixelInBounds(|buffer|, x, y) && 0 <= i <= |outcomes|
    ensures |r| == |buffer|
    decreases |outcomes| - i
  {
    if i == |outcomes| then buffer
    else Paint(Layered(buffer, x, y, outcomes, i + 1, background), x, y, outcomes[i], background)
  }

  /** The first outcome from i on that is not transparent, or `|outcomes|` when there is none. */
  function FirstOpaque(outcomes: seq<SpriteOutcome>, i: int): (k: int)
    requires 0 <= i <= |outcomes|
    ensures i <= k <= |outcomes|
    ensures k < |outcomes| ==> !outcomes[k].Transparent?
    ensures forall j :: i <= j < k ==> outcomes[j].Transparent?
    decreases |outcomes| - i
  {
    if i == |outcomes| then i
    else if !outcomes[i].Transparent? then i
    else FirstOpaque(outcomes, i + 1)
  }

  /**
   * Sprite priority: painting from the last outcome down to `outcomes[i]` leaves the
   * pixel as the lowest-numbered opaque outcome paints it (its colour, or the background
   * colour if it is behind the background), and untouched when every one is transparent.
   */
  lemma {:induction false} SpritePriority(buffer: seq<bv8>, x: nat, y: nat, outcomes: seq<SpriteOutcome>, i: int, background: Color)
    requires PixelInBounds(|buffer|, x, y) && 0 <= i <= |outcomes|
    ensures var k := FirstOpaque(outcomes, i);
      Layered(buffer, x, y, outcomes, i, background) ==
        if k == |outcomes| then buffer else Paint(buffer, x, y, outcomes[k], background)
    decreases |outcomes| - i
  {
    if i < |outcomes| {
      SpritePriority(buffer, x, y, outcomes, i + 1, background);
      var k := FirstOpaque(outcomes, i + 1);
      if k < |outcomes| && !outcomes[i].Transparent? {
        WithPixelOverwrite(buffer, x, y, PaintColor(outcomes[k], background), PaintColor(outcomes[i], background));
      }
    }
  }

  /** Appending a ninth-or-earlier selected sprite fills exactly its four slot bytes. */
  lemma SecondaryOamAppend(oam: seq<bv8>, start: int, sel: seq<int>, k: int)
    requires forall j :: 0 <= j < |sel| ==> Sprites.IsCandidate(oam, start, sel[j])
    requires Sprites.IsCandidate(oam, start, k) && |sel| < 8
    ensures var n := 4 * |sel|;
      Sprites.SecondaryOam(oam, start, sel + [k]) ==
        Sprites.SecondaryOam(oam, start, sel)[n := Sprites.SlotByte(oam, start, k, 0)][n + 1 := Sprites.SlotByte(oam, start, k, 1)]
                                             [n + 2 := Sprites.SlotByte(oam, start, k, 2)][n + 3 := Sprites.SlotByte(oam, start, k, 3)]
  {
    var n := 4 * |sel|;
    var a := Sprites.SecondaryOam(oam, start, sel + [k]);
    var b := Sprites.SecondaryOam(oam, start, sel)[n := Sprites.SlotByte(oam, start, k, 0)][n + 1 := Sprites.SlotByte(oam, start, k, 1)]
                                                  [n + 2 := Sprites.SlotByte(oam, start, k, 2)][n + 3 := Sprites.SlotByte(oam, start, k, 3)];
    forall i | 0 <= i < 32
      ensures a[i] == b[i]
    {
      if i / 4 == |sel| {
        assert i == n + i % 4;
      }
    }
  }

  /** One more candidate extends the covering list by itself exactly when it covers the line. */
  lemma CoveringStep(oam: seq<bv8>, start: int, n: int, line: int, height: int)
    requires |oam| == 256 && 0 <= start < 256 && 0 <= n < Sprites.CandidateCount(start)
    ensures Sprites.Covering(oam, start, n + 1, line, height) ==
      Sprites.Covering(oam, start, n, line, height) + (if Sprites.OnLine(oam[start + 4 * n], line, height) then [n] else [])
  {
  }

  /**
   * The scan's stopping point determines the evaluation: either every candidate was
   * seen with at most eight covering the line, or a ninth covering one was found.
   */
  lemma ScanResult(oam: seq<bv8>, start: int, line: int, height: int, index: int, sel: seq<int>, full: bool)
    requires |oam| == 256 && 0 <= start < 256 && 0 <= index <= Sprites.CandidateCount(start)
    requires sel == Sprites.Covering(oam, start, index, line, height) && |sel| <= 8
    requires full ==> |sel| == 8 && index < Sprites.CandidateCount(start) && Sprites.OnLine(oam[start + 4 * index], line, height)
    requires !full ==> index == Sprites.CandidateCount(start)
    ensures var e := Sprites.Evaluate(oam, start, line, height);
      Sprites.SecondaryOam(oam, start, sel) == e.secondary && e.overflow == full
  {
    if full {
      CoveringStep(oam, start, index, line, height);
      Sprites.CoveringPrefix(oam, start, index + 1, Sprites.CandidateCount(start), line, height);
      SecondaryOamFull(oam, start, sel, Sprites.AllCovering(oam, start, line, height));
    }
  }

  /** Only the first eight selected sprites reach secondary OAM. */
  lemma SecondaryOamFull(oam: seq<bv8>, start: int, sel: seq<int>, sel': seq<int>)
    requires forall j :: 0 <= j < |sel'| ==> Sprites.IsCandidate(oam, start, sel'[j])
    requires sel <= sel' && |sel| >= 8
    ensures Sprites.SecondaryOam(oam, start, sel) == Sprites.SecondaryOam(oam, start, sel')
  {
  }
}
