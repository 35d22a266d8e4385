/** The PPU's CPU-visible registers and the decoders behind their writes and reads. */
module Registers {
  import opened Types

  /** The eight PPU registers; register n is mapped at CPU address 0x2000 + n. */
  datatype PpuRegister = Controller | Mask | Status | OamAddress | OamData | Scroll | Address | Data
  {
    /** The enum discriminant. */
    function Index(): (n: int)
      ensures 0 <= n < 8
    {
      match this
      case Controller => 0
      case Mask => 1
      case Status => 2
      case OamAddress => 3
      case OamData => 4
      case Scroll => 5
      case Address => 6
      case Data => 7
    }

    /** The CPU address the register is documented to be mapped at. */
    function MappedAt(): int {
      0x2000 + Index()
    }
  }

  /** The register a CPU access to one of 0x2000..0x2007 selects: the inverse of `MappedAt`. */
  function RegisterAt(cpuAddr: int): (r: PpuRegister)
    requires 0x2000 <= cpuAddr <= 0x2007
    ensures r.MappedAt() == cpuAddr
  {
    match cpuAddr - 0x2000
    case 0 => Controller
    case 1 => Mask
    case 2 => Status
    case 3 => OamAddress
    case 4 => OamData
    case 5 => Scroll
    case 6 => Address
    case _ => Data
  }

  /** Distinct registers have distinct discriminants, so each has its own address. */
  lemma {:induction false} RegisterAtMappedAt(r: PpuRegister)
    ensures RegisterAt(r.MappedAt()) == r
  {
    match r
    case Controller =>
    case Mask =>
    case Status =>
    case OamAddress =>
    case OamData =>
    case Scroll =>
    case Address =>
    case Data =>
  }

  // ---------------------------------------------------------------- PPUCTRL

  /** Everything a write to PPUCTRL decides (all of `ControllerRegister` but the nametable address). */
  datatype ControlFields = ControlFields(
    vramIncrement: U16,
    spritePatternAddress: U16,
    backgroundPatternAddress: U16,
    spriteSize: (U8, U8),
    masterSlaveSelect: bool,
    shouldGenerateVblankNmi: bool,
    binaryValue: bv8)

  /**
   * The decoding `ControllerRegister::write` performs. Bits 0..1 (the nametable select)
   * are kept only in `binaryValue`; every other bit decides one field.
   */
  function DecodeControl(value: bv8): (c: ControlFields)
    ensures c.vramIncrement == 1 || c.vramIncrement == 32
    ensures c.spritePatternAddress == 0 || c.spritePatternAddress == 0x1000
    ensures c.backgroundPatternAddress == 0 || c.backgroundPatternAddress == 0x1000
    ensures c.spriteSize.0 == 8 && (c.spriteSize.1 == 8 || c.spriteSize.1 == 16)
  {
    ControlFields(
      if value & 0x04 > 0 then 32 else 1,
      if value & 0x08 > 0 then 0x1000 else 0x0000,
      if value & 0x10 > 0 then 0x1000 else 0x0000,
      if value & 0x20 > 0 then (8, 16) else (8, 8),
      value & 0x40 > 0,
      value & 0x80 > 0,
      value)
  }

  /** The PPUCTRL bits 2..7 that a set of decoded fields stands for. */
  function EncodeControl(c: ControlFields): bv8 {
    (if c.vramIncrement == 32 then 0x04 else 0)
    | (if c.spritePatternAddress == 0x1000 then 0x08 else 0)
    | (if c.backgroundPatternAddress == 0x1000 then 0x10 else 0)
    | (if c.spriteSize.1 == 16 then 0x20 else 0)
    | (if c.masterSlaveSelect then 0x40 else 0)
    | (if c.shouldGenerateVblankNmi then 0x80 else 0)
  }

  /** The decoded fields stand for bits 2..7 of the byte written, so those bits determine them. */
  lemma EncodeDecodeControl(value: bv8)
    ensures EncodeControl(DecodeControl(value)) & 0xfc == value & 0xfc
  {
  }

  /** PPUCTRL (0x2000). */
  class ControllerRegister {
    var nametableAddress: U16
    var vramIncrement: U16
    var spritePatternAddress: U16
    var backgroundPatternAddress: U16
    var spriteSize: (U8, U8)
    var masterSlaveSelect: bool
    /** Whether entering vblank raises an NMI. */
    var shouldGenerateVblankNmi: bool
    var binaryValue: bv8

    /** The fields a write decides. */
    function Fields(): ControlFields
      reads this
    {
      ControlFields(vramIncrement, spritePatternAddress, backgroundPatternAddress, spriteSize,
                    masterSlaveSelect, shouldGenerateVblankNmi, binaryValue)
    }

    /**
     * The invariant the PPU relies on: the nametable address stays 0x2000 and the decoded
     * fields take only the values a write produces.
     */
    ghost predicate Valid()
      reads this
    {
      && nametableAddress == 0x2000
      && (vramIncrement == 1 || vramIncrement == 32)
      && (spritePatternAddress == 0 || spritePatternAddress == 0x1000)
      && (backgroundPatternAddress == 0 || backgroundPatternAddress == 0x1000)
      && spriteSize.0 == 8 && (spriteSize.1 == 8 || spriteSize.1 == 16)
    }

    /** `ControllerRegister::default`: nametable 0x2000, then `write(0)`. */
    constructor ()
      ensures Valid()
      ensures Fields() == DecodeControl(0) && vramIncrement == 1
    {
      nametableAddress := 0x2000;
      vramIncrement := 0;
      spritePatternAddress := 0;
      backgroundPatternAddress := 0;
      spriteSize := (0, 0);
      masterSlaveSelect := false;
      shouldGenerateVblankNmi := false;
      binaryValue := 0;
      new;
      Write(0);
    }

    /** `ControllerRegister::write`: decodes `value`; never touches the nametable address. */
    method Write(value: bv8)
      modifies this
      ensures Fields() == DecodeControl(value)
      ensures nametableAddress == old(nametableAddress)
      ensures old(Valid()) ==> Valid()
    {
      vramIncrement := if value & 0x04 > 0 then 32 else 1;
      spritePatternAddress := if value & 0x08 > 0 then 0x1000 else 0x0000;
      backgroundPatternAddress := if value & 0x10 > 0 then 0x1000 else 0x0000;
      spriteSize := if value & 0x20 > 0 then (8, 16) else (8, 8);
      masterSlaveSelect := value & 0x40 > 0;
      shouldGenerateVblankNmi := value & 0x80 > 0;
      binaryValue := value;
    }
  }

  // ---------------------------------------------------------------- PPUMASK

  /** The eight PPUMASK flags, bit 0 first. */
  datatype MaskFlags = MaskFlags(
    greyscale: bool,
    showBgLeft: bool,
    showSpritesLeft: bool,
    showBackground: bool,
    showSprites: bool,
    emphRed: bool,
    emphGreen: bool,
    emphBlue: bool)

  /** The byte a set of flags stands for: flag k is bit k. */
  function EncodeMask(f: MaskFlags): bv8 {
    (if f.greyscale then 0x01 else 0)
    | (if f.showBgLeft then 0x02 else 0)
    | (if f.showSpritesLeft then 0x04 else 0)
    | (if f.showBackground then 0x08 else 0)
    | (if f.showSprites then 0x10 else 0)
    | (if f.emphRed then 0x20 else 0)
    | (if f.emphGreen then 0x40 else 0)
    | (if f.emphBlue then 0x80 else 0)
  }

  /**
   * The decoding `MaskRegister::write` performs: flag k is bit k of `value`, so the
   * flags determine `value` and every set of flags comes from exactly one byte.
   */
  function DecodeMask(value: bv8): MaskFlags {
    MaskFlags(value & 0x01 > 0, value & 0x02 > 0, value & 0x04 > 0, value & 0x08 > 0,
              value & 0x10 > 0, value & 0x20 > 0, value & 0x40 > 0, value & 0x80 > 0)
  }

  /** Encoding inverts decoding: the flags determine the byte written. */
  lemma EncodeDecodeMask(value: bv8)
    ensures EncodeMask(DecodeMask(value)) == value
  {
  }

  /** Decoding inverts encoding as well: no two flag sets share a byte. */
  lemma DecodeEncodeMask(f: MaskFlags)
    ensures DecodeMask(EncodeMask(f)) == f
  {
    var g := DecodeMask(EncodeMask(f));
    assert g.greyscale == f.greyscale;
    assert g.emphBlue == f.emphBlue;
  }

  /** PPUMASK (0x2001). */
  class MaskRegister {
    var greyscale: bool
    var showBgLeft: bool
    var showSpritesLeft: bool
    var showBackground: bool
    var showSprites: bool
    var emphRed: bool
    var emphGreen: bool
    var emphBlue: bool
    var binaryValue: bv8

    function Flags(): MaskFlags
      reads this
    {
      MaskFlags(greyscale, showBgLeft, showSpritesLeft, showBackground, showSprites,
                emphRed, emphGreen, emphBlue)
    }

    /** `MaskRegister::default`: all flags clear, then `write(0)`. */
    constructor ()
      ensures Flags() == DecodeMask(0) && binaryValue == 0
    {
      greyscale, showBgLeft, showSpritesLeft, showBackground := false, false, false, false;
      showSprites, emphRed, emphGreen, emphBlue := false, false, false, false;
      binaryValue := 0;
      new;
      Write(0);
    }

    /** `MaskRegister::write`: flag k becomes bit k of `value`. */
    method Write(value: bv8)
      modifies this
      ensures Flags() == DecodeMask(value) && binaryValue == value
    {
      greyscale := value & 0x01 > 0;
      showBgLeft := value & 0x02 > 0;
      showSpritesLeft := value & 0x04 > 0;
      showBackground := value & 0x08 > 0;
      showSprites := value & 0x10 > 0;
      emphRed := value & 0x20 > 0;
      emphGreen := value & 0x40 > 0;
      emphBlue := value & 0x80 > 0;
      binaryValue := value;
    }
  }

  // ---------------------------------------------------------------- PPUSTATUS

  /**
   * The byte a Status read reports: bit 5 sprite overflow, bit 6 sprite-zero hit,
   * bit 7 vblank, bits 0..4 zero.
   */
  function StatusByte(spriteOverflow: bool, spriteZeroHit: bool, vblankStarted: bool): (v: bv8)
    ensures v & 0x1f == 0
    ensures (v & 0x20 != 0) == spriteOverflow
    ensures (v & 0x40 != 0) == spriteZeroHit
    ensures (v & 0x80 != 0) == vblankStarted
  {
    (if spriteOverflow then 0x20 else 0)
    | (if spriteZeroHit then 0x40 else 0)
    | (if vblankStarted then 0x80 else 0)
  }

  /** PPUSTATUS (0x2002). */
  class StatusRegister {
    var spriteOverflow: bool
    var spriteZeroHit: bool
    var vblankStarted: bool

    constructor ()
      ensures !spriteOverflow && !spriteZeroHit && !vblankStarted
    {
      spriteOverflow, spriteZeroHit, vblankStarted := false, false, false;
    }

    /** `StatusRegister::read`: reports the three flags and clears only the vblank flag. */
    method Read() returns (value: bv8)
      modifies this
      ensures value == StatusByte(old(spriteOverflow), old(spriteZeroHit), old(vblankStarted))
      ensures !vblankStarted
      ensures spriteOverflow == old(spriteOverflow) && spriteZeroHit == old(spriteZeroHit)
    {
      value := (if spriteOverflow then 0x20 else 0)
        | (if spriteZeroHit then 0x40 else 0)
        | (if vblankStarted then 0x80 else 0);
      vblankStarted := false;
    }

    /** Raises the sprite-zero flag when `hit` holds; the flag is only cleared at vblank start. */
    method RecordSpriteZeroHit(hit: bool)
      modifies this
      ensures spriteZeroHit == (old(spriteZeroHit) || hit)
      ensures spriteOverflow == old(spriteOverflow) && vblankStarted == old(vblankStarted)
    {
      if hit {
        spriteZeroHit := true;
      }
    }
  }

  // ---------------------------------------------------------------- PPUADDR

  /**
   * The address after one `AddrRegister::write`: with the latch set the byte replaces the
   * high byte, otherwise the low byte, and the result is cut down to 14 bits when it
   * exceeds 0x3fff, so the address always stays in the PPU's 16 KiB address space.
   */
  function AddrWrite(addr: U16, value: bv8, latch: bool): (r: U16)
    ensures r <= 0x3fff
  {
    // (addr & 0x00ff) | (value << 8), and (addr & 0xff00) | value
    var a := if latch then addr % 0x100 + value as int * 0x100 else addr / 0x100 * 0x100 + value as int;
    // addr & 0x3fff
    if a > 0x3fff then a % 0x4000 else a
  }

  /**
   * The byte that was not written is kept, and the written byte lands whole, except
   * that the top two bits of the 16-bit value are cut off.
   */
  lemma AddrWriteBytes(addr: U16, value: bv8, latch: bool)
    ensures var r := AddrWrite(addr, value, latch);
      && (latch ==> r == addr % 0x100 + value as int % 0x40 * 0x100)
      && (!latch ==> r == addr / 0x100 % 0x40 * 0x100 + value as int)
      && (latch ==> r % 0x100 == addr % 0x100 && r / 0x100 == value as int % 0x40)
      && (!latch ==> r % 0x100 == value as int && r / 0x100 == addr / 0x100 % 0x40)
  {
    var v := value as int;
    if latch {
      CutToFourteenBits(addr % 0x100, v);
    } else {
      CutToFourteenBits(v, addr / 0x100);
    }
  }

  /** Dropping bit 14 and up of lo + 0x100 * hi keeps lo and the low six bits of hi. */
  lemma CutToFourteenBits(lo: int, hi: int)
    requires 0 <= lo < 0x100 && 0 <= hi < 0x100
    ensures var a := lo + hi * 0x100;
      (if a > 0x3fff then a % 0x4000 else a) == lo + hi % 0x40 * 0x100
    ensures var x := lo + hi % 0x40 * 0x100; x % 0x100 == lo && x / 0x100 == hi % 0x40
  {
    var x := lo + hi % 0x40 * 0x100;
    assert lo + hi * 0x100 == x + hi / 0x40 * 0x4000;
    assert 0 <= x < 0x4000;
  }

  /** Writing the high byte and then the low byte sets the whole 14-bit address. */
  lemma HighThenLow(addr: U16, hi: bv8, lo: bv8)
    ensures AddrWrite(AddrWrite(addr, hi, true), lo, false) == (hi as int % 0x40) * 0x100 + lo as int
  {
    var a := AddrWrite(addr, hi, true);
    AddrWriteBytes(addr, hi, true);
    AddrWriteBytes(a, lo, false);
  }

  /** PPUADDR (0x2006): the 14-bit VRAM address. */
  class AddrRegister {
    var addr: U16

    constructor ()
      ensures addr == 0
    {
      addr := 0;
    }

    /** `AddrRegister::write`. */
    method Write(value: bv8, scrollAddrLatch: bool)
      modifies this
      ensures addr == AddrWrite(old(addr), value, scrollAddrLatch)
    {
      if scrollAddrLatch {
        addr := addr % 0x100 + value as int * 0x100;
      } else {
        addr := addr / 0x100 * 0x100 + value as int;
      }
      if addr > 0x3fff {
        addr := addr % 0x4000;
      }
    }
  }

  // ---------------------------------------------------------------- OAMADDR, PPUSCROLL

  /** OAMADDR (0x2003). */
  class OamAddrRegister {
    var addr: U8

    constructor ()
      ensures addr == 0
    {
      addr := 0;
    }

    /** `OamAddrRegister::write`. */
    method Write(value: bv8)
      modifies this
      ensures addr == value as int
    {
      addr := value as int;
    }
  }

  /** PPUSCROLL (0x2005). */
  class ScrollRegister {
    var x: U8
    var y: U8

    constructor ()
      ensures x == 0 && y == 0
    {
      x, y := 0, 0;
    }

    /** `ScrollRegister::write`: the flag selects `y`, otherwise `x`; the other coordinate is kept. */
    method Write(value: bv8, scrollAddrLatch: bool)
      modifies this
      ensures scrollAddrLatch ==> y == value as int && x == old(x)
      ensures !scrollAddrLatch ==> x == value as int && y == old(y)
    {
      if scrollAddrLatch {
        y := value as int;
      } else {
        x := value as int;
      }
    }
  }
}
