/**
 * The address and index arithmetic of drawing one pixel: which nametable, tile,
 * attribute byte, palette entry and pattern bit a background or sprite pixel uses.
 */
module Render {
  import opened Types

  // ---------------------------------------------------------------- background

  /** The intermediate values `draw_pixel` computes for a background pixel. */
  datatype BackgroundFetch = BackgroundFetch(
    scrolledX: int, scrolledY: int, nameTableIdx: int,
    tileX: int, tileY: int, tileXOff: int, tileYOff: int)

  /**
   * The coordinate arithmetic of `draw_pixel`: the scrolled position wraps around a
   * 2 x 2 arrangement of screens; it falls in nametable `nameTableIdx` (0..3, which is
   * the source's assertion), in tile (tileX, tileY) of that nametable, at column
   * 7 - tileXOff and row tileYOff of the tile.
   */
  function FetchBackground(x: nat, y: nat, scrollX: U8, scrollY: U8): (f: BackgroundFetch)
    ensures 0 <= f.nameTableIdx < 4
    ensures 0 <= f.tileX < 32 && 0 <= f.tileY < 30 && 0 <= f.tileXOff < 8 && 0 <= f.tileYOff < 8
  {
    Locate(x + scrollX, y + scrollY)
  }

  /** `draw_pixel`'s arithmetic on the unwrapped scrolled position (sx, sy). */
  function Locate(sx: nat, sy: nat): (f: BackgroundFetch)
    ensures 0 <= f.nameTableIdx < 4
    ensures 0 <= f.tileX < 32 && 0 <= f.tileY < 30 && 0 <= f.tileXOff < 8 && 0 <= f.tileYOff < 8
  {
    // rem_euclid of a non-negative value is Dafny's %
    var scrolledX := sx % (WIDTH * 2);
    var scrolledY := sy % (HEIGHT * 2);
    var nameTableIdx := scrolledX / WIDTH + (scrolledY / HEIGHT) * 2;
    BackgroundFetch(scrolledX, scrolledY, nameTableIdx,
      (scrolledX / 8) % 32, (scrolledY / 8) % 30, 7 - scrolledX % 8, scrolledY % 8)
  }

  /**
   * The fetched tile covers the scrolled pixel: the position wraps around a 512 x 480
   * plane, nametable `nameTableIdx` is screen (idx % 2, idx / 2) of the 2 x 2
   * arrangement, and inside it the pixel is in column 7 - tileXOff and row tileYOff of
   * tile (tileX, tileY).
   */
  lemma BackgroundTileCovers(sx: nat, sy: nat)
    ensures var f := Locate(sx, sy);
      && f.scrolledX == sx % (2 * WIDTH) && f.scrolledY == sy % (2 * HEIGHT)
      && f.scrolledX == WIDTH * (f.nameTableIdx % 2) + 8 * f.tileX + (7 - f.tileXOff)
      && f.scrolledY == HEIGHT * (f.nameTableIdx / 2) + 8 * f.tileY + f.tileYOff
  {
    var f := Locate(sx, sy);
    var x, y := f.scrolledX, f.scrolledY;
    assert f.nameTableIdx % 2 == x / WIDTH && f.nameTableIdx / 2 == y / HEIGHT;
    ColumnSplit(x);
    RowSplit(y);
  }

  /** A column of the 512-wide plane is a screen, a tile in it and a column in the tile. */
  lemma ColumnSplit(x: int)
    requires 0 <= x < 2 * WIDTH
    ensures x == WIDTH * (x / WIDTH) + 8 * ((x / 8) % 32) + x % 8
  {
    if x < WIDTH {
      assert x / WIDTH == 0 && (x / 8) % 32 == x / 8;
    } else {
      assert x / WIDTH == 1 && (x / 8) % 32 == x / 8 - 32;
    }
  }

  /** A row of the 480-high plane is a screen, a tile in it and a row in the tile. */
  lemma RowSplit(y: int)
    requires 0 <= y < 2 * HEIGHT
    ensures y == HEIGHT * (y / HEIGHT) + 8 * ((y / 8) % 30) + y % 8
  {
    if y < HEIGHT {
      assert y / HEIGHT == 0 && (y / 8) % 30 == y / 8;
    } else {
      assert y / HEIGHT == 1 && (y / 8) % 30 == y / 8 - 30;
    }
  }

  /** `attr_table` in `draw_pixel`: the attribute table of the selected nametable. */
  function AttrTable(nameTableAddress: int, f: BackgroundFetch): int {
    nameTableAddress + f.nameTableIdx * 0x400 + 0x3c0
  }

  /** The address of the tile number `draw_pixel` reads. */
  function TileAddress(nameTableAddress: int, f: BackgroundFetch): int {
    nameTableAddress + f.nameTableIdx * 0x400 + (f.tileX + f.tileY * 32)
  }

  /** `index` in `get_palette`: the attribute byte of the tile's 4 x 4-tile block. */
  function AttributeIndex(tileX: int, tileY: int): int {
    tileY / 4 * 8 + tileX / 4
  }

  /** The address of the attribute byte `get_palette` reads. */
  function AttributeAddress(nameTableAddress: int, f: BackgroundFetch): int {
    AttrTable(nameTableAddress, f) + AttributeIndex(f.tileX, f.tileY)
  }

  /**
   * Both reads of a background pixel stay inside the selected 1 KiB nametable: the
   * tile number among its first 960 bytes (0x3c0), the attribute byte among its last 64.
   * Tiles in the same 4 x 4 block share the attribute byte.
   */
  lemma BackgroundAddresses(nameTableAddress: int, f: BackgroundFetch)
    requires 0 <= f.nameTableIdx < 4 && 0 <= f.tileX < 32 && 0 <= f.tileY < 30
    ensures var base := nameTableAddress + f.nameTableIdx * 0x400;
      && base <= TileAddress(nameTableAddress, f) < base + 0x3c0
      && base + 0x3c0 <= AttributeAddress(nameTableAddress, f) < base + 0x400
    ensures forall tx, ty :: 0 <= tx < 32 && 0 <= ty < 30 && tx / 4 == f.tileX / 4 && ty / 4 == f.tileY / 4 ==>
      AttributeIndex(tx, ty) == AttributeIndex(f.tileX, f.tileY)
  {
  }

  /**
   * A nametable base from which all four nametables lie in PPU memory that names
   * mirrorable addresses (0x1000..0x3fff), so every background read is defined.
   */
  predicate NameTableInRange(nameTableAddress: int) {
    0x1000 <= nameTableAddress <= 0x3000
  }

  /** The quadrant (0..3) of its 4 x 4-tile block that a tile is in: left/right, then top/bottom. */
  function Quadrant(tileX: int, tileY: int): (q: int)
    requires 0 <= tileX && 0 <= tileY
    ensures 0 <= q < 4
  {
    tileX % 4 / 2 + 2 * (tileY % 4 / 2)
  }

  /**
   * The palette number `get_palette` picks out of an attribute byte: two bits per
   * 2 x 2-tile quadrant, top-left in bits 0..1, top-right in 2..3, bottom-left in 4..5,
   * bottom-right in 6..7.
   */
  function PaletteNumber(attr: bv8, tileX: int, tileY: int): (p: bv8)
    requires 0 <= tileX && 0 <= tileY
    ensures p < 4
  {
    match (tileX % 4 / 2, tileY % 4 / 2)
    case (0, 0) => attr & 0x03
    case (1, 0) => (attr >> 2) & 0x03
    case (0, 1) => (attr >> 4) & 0x03
    case (_, _) => (attr >> 6) & 0x03
  }

  /**
   * The four quadrants' palette numbers are the attribute byte, two bits each: the byte
   * is rebuilt from them, so each quadrant reads bits that no other quadrant reads.
   */
  lemma AttributeQuadrants(attr: bv8, tileX: int, tileY: int)
    requires 0 <= tileX && 0 <= tileY
    ensures attr == PaletteNumber(attr, 0, 0) | (PaletteNumber(attr, 2, 0) << 2)
                  | (PaletteNumber(attr, 0, 2) << 4) | (PaletteNumber(attr, 2, 2) << 6)
    ensures var q := Quadrant(tileX, tileY);
      PaletteNumber(attr, tileX, tileY) ==
        if q == 0 then PaletteNumber(attr, 0, 0) else if q == 1 then PaletteNumber(attr, 2, 0)
        else if q == 2 then PaletteNumber(attr, 0, 2) else PaletteNumber(attr, 2, 2)
  {
    var qx, qy := tileX % 4 / 2, tileY % 4 / 2;
    assert 0 <= qx < 2 && 0 <= qy < 2 && Quadrant(tileX, tileY) == qx + 2 * qy;
    var p0, p1, p2, p3 := attr & 0x03, (attr >> 2) & 0x03, (attr >> 4) & 0x03, (attr >> 6) & 0x03;
    assert PaletteNumber(attr, 0, 0) == p0 && PaletteNumber(attr, 2, 0) == p1;
    assert PaletteNumber(attr, 0, 2) == p2 && PaletteNumber(attr, 2, 2) == p3;
    assert attr == p0 | (p1 << 2) | (p2 << 4) | (p3 << 6);
  }

  /**
   * The palette-table entries behind background palette `p`: the shared backdrop entry 0
   * and entries 4p + 1 .. 4p + 3, all in the background half (0..15) of the table.
   */
  function BackgroundEntries(p: int): (e: seq<int>)
    requires 0 <= p < 4
    ensures |e| == 4 && e[0] == 0
    ensures forall k :: 1 <= k < 4 ==> e[k] == 4 * p + k
    ensures forall k :: 0 <= k < 4 ==> 0 <= e[k] < 16
  {
    var start := 1 + p * 4;
    [0, start, start + 1, start + 2]
  }

  /**
   * The palette-table entries behind colours 1..3 of sprite palette `p`
   * (`get_sprite_palette`): 0x10 + 4p + k, all in the sprite half (16..31) of the table.
   */
  function SpriteEntries(p: int): (e: seq<int>)
    requires 0 <= p < 4
    ensures |e| == 3
    ensures forall k :: 0 <= k < 3 ==> e[k] == 0x10 + 4 * p + k + 1
    ensures forall k :: 0 <= k < 3 ==> 16 <= e[k] < 32
  {
    var start := 0x11 + p * 4;
    [start, start + 1, start + 2]
  }

  /**
   * The colour index a palette entry selects: with greyscale on, `& 0x30` keeps only the
   * brightness, giving one of the four grey columns 0x00, 0x10, 0x20, 0x30; otherwise the
   * entry itself.
   */
  function ColorIndex(entry: bv8, greyscale: bool): (i: bv8)
    ensures greyscale ==> i & 0xcf == 0 && i & 0x30 == entry & 0x30
    ensures !greyscale ==> i == entry
  {
    entry & (if greyscale then 0x30 else 0xff)
  }

  /** Bit k of a byte: `byte & 1 << k != 0`. */
  function Bit(byte: bv8, k: int): bool
    requires 0 <= k < 8
  {
    byte & BitMask(k) != 0
  }

  /** The mask `1 << k`, written out for each k. */
  function BitMask(k: int): bv8
    requires 0 <= k < 8
  {
    match k
    case 0 => 0x01
    case 1 => 0x02
    case 2 => 0x04
    case 3 => 0x08
    case 4 => 0x10
    case 5 => 0x20
    case 6 => 0x40
    case _ => 0x80
  }

  /** The written-out mask is the shift. */
  lemma BitMaskIsShift(k: int)
    requires 0 <= k < 8
    ensures BitMask(k) == (1 as bv8) << k
  {
  }

  /**
   * The two-bit colour number of one pattern pixel: bit k of the plane read at offset 0
   * is its low bit and bit k of the plane at offset 8 its high bit.
   */
  function PixelValue(upper: bv8, lower: bv8, k: int): (v: int)
    requires 0 <= k < 8
    ensures 0 <= v < 4
    ensures (v % 2 == 1) == Bit(upper, k) && (v / 2 == 1) == Bit(lower, k)
  {
    match (Bit(lower, k), Bit(upper, k))
    case (false, false) => 0
    case (false, true) => 1
    case (true, false) => 2
    case (true, true) => 3
  }

  /** The colour emphasis bits of PPUMASK force a whole channel to full intensity. */
  function Emphasize(c: Color, red: bool, green: bool, blue: bool): (e: Color)
    ensures e.r == (if red then 0xff else c.r)
    ensures e.g == (if green then 0xff else c.g)
    ensures e.b == (if blue then 0xff else c.b)
    ensures !red && !green && !blue ==> e == c
  {
    Color(if red then 0xff else c.r, if green then 0xff else c.g, if blue then 0xff else c.b)
  }

  /**
   * The `u16` sums `bank + tile * 16 + row` and the same plus 8, which address the two
   * planes of a pattern row, do not overflow.
   */
  predicate PatternFits(bank: int, tile: int, row: int) {
    bank + tile * 16 + row + 8 <= 0xffff
  }

  /**
   * The pattern-table address of row `row` of tile `tile` in the table at `bank`: the
   * row's low-bit plane; its high-bit plane lies 8 bytes further on. A row of the tile
   * (0..7) has both planes inside the tile's 16 bytes of the selected table; a larger
   * row reads on into the bytes of the tiles that follow, as the source's sums do.
   */
  function PatternAddress(bank: int, tile: int, row: int): (a: int)
    requires (bank == 0 || bank == 0x1000) && 0 <= tile < 256 && 0 <= row
    requires PatternFits(bank, tile, row)
    ensures 0 <= a && a + 8 <= 0xffff
    ensures row < 8 ==> bank <= a && a + 8 < bank + 0x1000
  {
    bank + tile * 16 + row
  }

  // ---------------------------------------------------------------- sprites

  /** Where `draw_sprite_pixel` reads a sprite pixel: pattern bank, tile, row, bit. */
  datatype SpriteFetch = SpriteFetch(bank: int, tile: int, row: int, column: int)

  /** The preconditions of the `u16` subtractions in `draw_sprite_pixel`. */
  predicate SpriteOffsetsFit(attr: bv8, xOff: int, yOff: int, height: int) {
    && 0 <= xOff <= 7 && 0 <= yOff
    && (attr & 0x80 > 0 ==> yOff <= height - 1)
  }

  /** The row of the sprite (counted from its top) that the pixel shows: flipped when bit 7 is set. */
  function SourceRow(attr: bv8, yOff: int, height: int): int {
    if attr & 0x80 > 0 then (height - 1) - yOff else yOff
  }

  /**
   * The pattern fetch of `draw_sprite_pixel`. Column: bit 7 is the leftmost pixel, so
   * the bit index is 7 - xOff unless the sprite is flipped horizontally. For 8 x 16
   * sprites the tile byte's bit 0 selects the pattern bank and the tile pair; the top
   * half of the sprite comes from the even tile and the bottom half from the odd one.
   * For 8 x 8 sprites the bank is PPUCTRL's sprite pattern address.
   */
  function FetchSprite(tileNum: int, attr: bv8, xOff: int, yOff: int, height: int, spritePatternAddress: int): (f: SpriteFetch)
    requires 0 <= tileNum < 256 && (height == 8 || height == 16)
    requires SpriteOffsetsFit(attr, xOff, yOff, height)
    ensures 0 <= f.column < 8 && f.column == if attr & 0x40 > 0 then xOff else 7 - xOff
    ensures 0 <= f.tile < 256 && 0 <= f.row
    ensures yOff < height ==> f.row < 8
    ensures attr & 0x80 > 0 ==> f.row < 8
    ensures attr & 0x80 == 0 ==> f.row <= yOff
    ensures height == 16 ==> f.bank == 0 || f.bank == 0x1000
    ensures height == 8 ==> f.bank == spritePatternAddress
  {
    var row := SourceRow(attr, yOff, height);
    var column := if attr & 0x40 == 0 then 7 - xOff else xOff;
    if height == 16 then
      // tile_num | 0x0001 and tile_num & 0xfffe
      var (row', tile) := if row > 7 then (row - 8, tileNum - tileNum % 2 + 1) else (row, tileNum - tileNum % 2);
      SpriteFetch(if tileNum % 2 == 1 then 0x1000 else 0, tile, row', column)
    else
      SpriteFetch(spritePatternAddress, tileNum, row, column)
  }

  /**
   * The pattern bank, tile and row of a sprite pixel. For 8 x 16 sprites the tile byte's
   * bit 0 selects the bank and the tile pair; the top half of the sprite comes from the
   * even tile and the bottom half from the odd one. For 8 x 8 sprites the bank is
   * PPUCTRL's sprite pattern address and the row is the (possibly flipped) row itself.
   */
  lemma SpriteRowSelection(tileNum: int, attr: bv8, xOff: int, yOff: int, height: int, spritePatternAddress: int)
    requires 0 <= tileNum < 256 && (height == 8 || height == 16)
    requires SpriteOffsetsFit(attr, xOff, yOff, height)
    ensures var f, row := FetchSprite(tileNum, attr, xOff, yOff, height, spritePatternAddress), SourceRow(attr, yOff, height);
      && (height == 16 ==>
            && f.bank == 0x1000 * (tileNum % 2)
            && f.tile / 2 == tileNum / 2
            && (row < 16 ==> 8 * (f.tile % 2) + f.row == row))
      && (height == 8 ==> f.bank == spritePatternAddress && f.tile == tileNum && f.row == row)
  {
    var t := tileNum;
    assert (t - t % 2) / 2 == t / 2 && (t - t % 2 + 1) / 2 == t / 2;
    assert (t - t % 2) % 2 == 0 && (t - t % 2 + 1) % 2 == 1;
  }

  /**
   * The offsets `draw_sprite_pixel` handles without a `u16` underflow or overflow: the
   * flip stays in range and both pattern reads are addressable.
   */
  predicate SpriteFetchFits(tileNum: int, attr: bv8, xOff: int, yOff: int, height: int, spritePatternAddress: int) {
    && 0 <= tileNum < 256 && (height == 8 || height == 16)
    && (spritePatternAddress == 0 || spritePatternAddress == 0x1000)
    && SpriteOffsetsFit(attr, xOff, yOff, height)
    && var f := FetchSprite(tileNum, attr, xOff, yOff, height, spritePatternAddress);
      PatternFits(f.bank, f.tile, f.row)
  }

  /** A row offset below 0x1000 never overflows the pattern sums. */
  lemma SmallRowsFit(tileNum: int, attr: bv8, xOff: int, yOff: int, height: int, spritePatternAddress: int)
    requires 0 <= tileNum < 256 && (height == 8 || height == 16)
    requires spritePatternAddress == 0 || spritePatternAddress == 0x1000
    requires SpriteOffsetsFit(attr, xOff, yOff, height) && yOff < 0x1000
    ensures SpriteFetchFits(tileNum, attr, xOff, yOff, height, spritePatternAddress)
  {
  }
}
