/**
 * Nametable mirroring. The PPU sees four 1 KiB nametable banks at 0x2000..0x2fff
 * (mirrored again at 0x3000..0x3eff and below at 0x1000..0x1fff), but a cartridge
 * usually provides storage for only two of them.
 */
module Mirroring {
  /** The cartridge's mirroring mode, fixed for the lifetime of the emulator. */
  datatype Mirroring = Horizontal | Vertical | FourScreen | SingleScreenLower | SingleScreenUpper

  /** The address range `mirror_address` accepts without panicking. */
  predicate Mirrorable(addr: int) {
    0x1000 <= addr <= 0x3fff
  }

  /** The 1 KiB bank (0..3) that a mirrorable address falls in, after folding onto 0x2000..0x2fff. */
  function LogicalBank(addr: int): (b: int)
    requires Mirrorable(addr)
    ensures 0 <= b < 4
  {
    ((addr - 0x2000) % 0x1000) / 0x400
  }

  /** Reference table: which bank of storage backs each logical bank, per mode. */
  function PhysicalBank(m: Mirroring, bank: int): (p: int)
    requires 0 <= bank < 4
    ensures 0 <= p < 4
    ensures m != FourScreen ==> p < 2
  {
    match m
    case Horizontal => bank / 2
    case Vertical => bank % 2
    case FourScreen => bank
    case SingleScreenLower => 0
    case SingleScreenUpper => 1
  }

  /** The fold of 0x1000..0x1fff and 0x3000..0x3fff onto 0x2000..0x2fff. */
  function Fold(addr: int): (a: int)
    requires Mirrorable(addr)
    ensures 0x2000 <= a <= 0x2fff
  {
    if addr > 0x2fff then addr - 0x1000 else if addr < 0x2000 then addr + 0x1000 else addr
  }

  /**
   * `Ppu::mirror_address`: folds 0x1000..0x1fff and 0x3000..0x3fff onto 0x2000..0x2fff,
   * then maps each bank onto the bank that stores it. The result is an address in
   * 0x2000..0x2fff, below 0x2800 (the first 2 KiB of VRAM) in every mode but FourScreen.
   */
  function MirrorAddress(m: Mirroring, addr: int): (r: int)
    requires Mirrorable(addr)
    ensures 0x2000 <= r <= 0x2fff
    ensures m != FourScreen ==> r < 0x2800
  {
    var a := Fold(addr);
    match m
    case Horizontal =>
      if a <= 0x23ff then a
      else if a <= 0x27ff then a - 0x400
      else if a <= 0x2bff then a - 0x400
      else a - 0x800
    case Vertical =>
      if a <= 0x27ff then a else a - 0x800
    case FourScreen => a
    case SingleScreenLower =>
      if a <= 0x23ff then a
      else if a <= 0x27ff then a - 0x400
      else if a <= 0x2bff then a - 0x800
      else a - 0xc00
    case SingleScreenUpper =>
      if a <= 0x23ff then a + 0x400
      else if a <= 0x27ff then a
      else if a <= 0x2bff then a - 0x400
      else a - 0x800
  }

  /**
   * `mirror_address` agrees with the bank table: the result keeps the offset inside the
   * bank and lands in the storage bank the table names for the address's bank.
   */
  lemma MirrorAddressBanks(m: Mirroring, addr: int)
    requires Mirrorable(addr)
    ensures MirrorAddress(m, addr) == 0x2000 + 0x400 * PhysicalBank(m, LogicalBank(addr)) + addr % 0x400
    ensures MirrorAddress(m, addr) % 0x400 == addr % 0x400
  {
    var a := Fold(addr);
    assert (addr - 0x2000) % 0x1000 == a - 0x2000;
    assert addr % 0x400 == a % 0x400;
    if a <= 0x23ff {
      assert LogicalBank(addr) == 0 && a % 0x400 == a - 0x2000;
    } else if a <= 0x27ff {
      assert LogicalBank(addr) == 1 && a % 0x400 == a - 0x2400;
    } else if a <= 0x2bff {
      assert LogicalBank(addr) == 2 && a % 0x400 == a - 0x2800;
    } else {
      assert LogicalBank(addr) == 3 && a % 0x400 == a - 0x2c00;
    }
  }

  /** Two addresses share a storage byte when they mirror to the same address. */
  predicate SameStorage(m: Mirroring, a: int, b: int)
    requires Mirrorable(a) && Mirrorable(b)
  {
    MirrorAddress(m, a) == MirrorAddress(m, b)
  }

  /** Sharing is decided by the bank table and the offset inside the bank. */
  lemma SameStorageByBanks(m: Mirroring, a: int, b: int)
    requires Mirrorable(a) && Mirrorable(b)
    ensures SameStorage(m, a, b) <==>
      PhysicalBank(m, LogicalBank(a)) == PhysicalBank(m, LogicalBank(b)) && a % 0x400 == b % 0x400
  {
    MirrorAddressBanks(m, a);
    MirrorAddressBanks(m, b);
  }

  /**
   * Horizontal, as coded: the banks at 0x2000 and 0x2400 share storage, and so do the
   * banks at 0x2800 and 0x2c00; the two pairs are distinct. (The enum's doc comment
   * describes the opposite pairing.)
   */
  lemma HorizontalPairs(a: int, b: int)
    requires 0x2000 <= a <= 0x2fff && 0x2000 <= b <= 0x2fff
    ensures SameStorage(Horizontal, a, b) <==> (a < 0x2800) == (b < 0x2800) && a % 0x400 == b % 0x400
  {
    SameStorageByBanks(Horizontal, a, b);
  }

  /**
   * Vertical, as coded: the banks at 0x2000 and 0x2800 share storage, and so do the
   * banks at 0x2400 and 0x2c00. (The enum's doc comment describes the opposite pairing.)
   */
  lemma VerticalPairs(a: int, b: int)
    requires 0x2000 <= a <= 0x2fff && 0x2000 <= b <= 0x2fff
    ensures SameStorage(Vertical, a, b) <==> LogicalBank(a) % 2 == LogicalBank(b) % 2 && a % 0x400 == b % 0x400
  {
    SameStorageByBanks(Vertical, a, b);
  }

  /** FourScreen: every address of 0x2000..0x2fff has storage of its own. */
  lemma FourScreenDistinct(a: int, b: int)
    requires 0x2000 <= a <= 0x2fff && 0x2000 <= b <= 0x2fff
    ensures SameStorage(FourScreen, a, b) <==> a == b
  {
    SameStorageByBanks(FourScreen, a, b);
    if a % 0x400 == b % 0x400 && LogicalBank(a) == LogicalBank(b) {
      assert a == 0x2000 + 0x400 * LogicalBank(a) + a % 0x400;
    }
  }

  /** SingleScreenLower: all four banks land in 0x2000..0x23ff; SingleScreenUpper: in 0x2400..0x27ff. */
  lemma SingleScreenRanges(addr: int)
    requires Mirrorable(addr)
    ensures 0x2000 <= MirrorAddress(SingleScreenLower, addr) <= 0x23ff
    ensures 0x2400 <= MirrorAddress(SingleScreenUpper, addr) <= 0x27ff
    ensures SameStorage(SingleScreenLower, addr, 0x2000 + addr % 0x400)
    ensures SameStorage(SingleScreenUpper, addr, 0x2000 + addr % 0x400)
  {
    MirrorAddressBanks(SingleScreenLower, addr);
    MirrorAddressBanks(SingleScreenUpper, addr);
    MirrorAddressBanks(SingleScreenLower, 0x2000 + addr % 0x400);
    MirrorAddressBanks(SingleScreenUpper, 0x2000 + addr % 0x400);
  }
}
