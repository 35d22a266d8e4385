# NES PPU model

A Dafny model of the picture processing unit (PPU) of a small NES emulator library. The
model covers:

- the eight CPU-visible registers (PPUCTRL, PPUMASK, PPUSTATUS, OAMADDR, OAMDATA,
  PPUSCROLL, PPUADDR and PPUDATA), their decoders and the shared write toggle;
- the PPU's memories (nametable VRAM, the palette table, OAM and secondary OAM) and the
  nametable mirroring modes;
- the per-dot state machine: sprite evaluation at the end of each line, vblank start and
  end with the NMI, and the timing of a 341 x 262-dot frame;
- the drawing of one pixel: the background tile, attribute and pattern lookups, the
  sprite layer with its priority and sprite-zero hit, and the RGBA frame buffer of the
  screen writer.

Files:

- `types.dfy`: shared constants and value types. `U16`/`U8` are bounded integers. Colours
  are RGB triples. The 64-entry NES colour table is a parameter.
- `mirroring.dfy`: `mirror_address` and a bank-table reference definition it is proved
  against.
- `registers.dfy`: the register structs as classes, and their decoders as functions.
- `timing.dfy`: the scanline and dot counters as a value and their step function. Frame
  periodicity and the vblank positions are proved here.
- `sprites.dfy`: sprite evaluation as a function of OAM, proved exact. Also the
  sprite-selection test that drawing applies, with the two findings below. The test
  drawing uses is the source's test, except that a slot whose row arithmetic would
  underflow is skipped.
- `render.dfy`: the address, palette and pattern-bit arithmetic of drawing.
- `screen.dfy`: controller buttons and the frame buffer.
- `cpu.dfy`: the two CPU calls the PPU makes. Character-ROM reads are a function held
  by the CPU object; NMIs are a counter.
- `ppu.dfy`: the `Ppu` class itself. Each stateful operation is a method over arrays
  and register objects and is proved against the functions above. The invariant `Valid`
  holds the array sizes, the PPUCTRL field ranges, the counter bounds and a 14-bit
  PPUADDR, and every operation keeps it.

The model follows the code wherever the code and its documentation disagree:

- The doc comments of `Mirroring::Horizontal` and `Mirroring::Vertical` describe the
  opposite pairing to what `mirror_address` does. Horizontal, as coded, pairs the banks
  at 0x2000/0x2400 and the banks at 0x2800/0x2c00. Vertical pairs 0x2000/0x2800 and
  0x2400/0x2c00. `HorizontalPairs` and `VerticalPairs` state the coded behaviour.
- The doc comments of `WIDTH` and `HEIGHT` in `lib.rs` are swapped. The values used are
  256 wide and 240 high.
- PPUCTRL bits 0..1 (the nametable select) are not decoded. The nametable address stays
  0x2000, and `ControllerRegister.Valid` records that.
- The palette alias of 0x3f10/0x3f14/0x3f18/0x3f1c applies to those four addresses
  only, not to their mirrors from 0x3f30 up (`RoutePalette`).
- A sprite pixel behind the background redraws the background pixel, whatever the
  background's own pattern value is.
- PPUMASK's show-background, show-sprites and left-column flags are decoded but do not
  affect drawing.

## Model

| member | source | states |
|---|---|---|
| `Mirroring.Fold` | src/ppu/mod.rs:88-94 | addresses 0x1000..0x1fff and 0x3000..0x3fff fold into the nametable window 0x2000..0x2fff |
| `Mirroring.PhysicalBank` | src/ppu/mirroring.rs:1-7 | outside FourScreen, every logical bank is backed by one of only two storage banks |
| `Mirroring.MirrorAddress` | src/ppu/mod.rs:87-125 | the mirrored address lies in 0x2000..0x2fff, and below 0x2800 (the first 2 KiB of VRAM) in every mode but FourScreen |
| `Mirroring.MirrorAddressBanks` | src/ppu/mod.rs:96-124 | `mirror_address` equals the bank-table reference: it keeps the offset inside the 1 KiB bank and lands in the storage bank the mode's table names |
| `Mirroring.SameStorageByBanks` | src/ppu/mod.rs:96-124 | two addresses share a VRAM byte iff their banks map to the same storage bank and their offsets agree |
| `Mirroring.HorizontalPairs` | src/ppu/mod.rs:97-103 | Horizontal: two nametable addresses share storage iff both are below 0x2800 or both are above, with equal offsets |
| `Mirroring.VerticalPairs` | src/ppu/mod.rs:104-108 | Vertical: two nametable addresses share storage iff their bank numbers have the same parity, with equal offsets |
| `Mirroring.FourScreenDistinct` | src/ppu/mod.rs:109-109 | FourScreen: nametable addresses share storage only with themselves |
| `Mirroring.SingleScreenRanges` | src/ppu/mod.rs:110-123 | SingleScreenLower maps all four banks onto 0x2000..0x23ff and SingleScreenUpper onto 0x2400..0x27ff, each address onto its offset in that bank |
| `Timing.Step` | src/ppu/mod.rs:246-299 | one `update_scanline` call keeps the dot below 341 and the line below 262 |
| `Timing.StepPosition` | src/ppu/mod.rs:247-256 | one call moves the beam exactly one dot forward, modulo the 341 * 262 dots of a frame |
| `Timing.StepsPosition` | src/ppu/mod.rs:246-299 | n calls move the beam exactly n dots forward, modulo the frame length |
| `Timing.FramePeriodic` | src/ppu/mod.rs:18-23 | 341 * 262 calls bring the counters back to where they started |
| `Timing.FrameMinimal` | src/ppu/mod.rs:18-23 | no positive number of calls below 341 * 262 brings the counters back, so that is the frame period |
| `Timing.VblankOncePerFrame` | src/ppu/mod.rs:291-299 | vblank starts at exactly one dot of a frame (the last dot of line 240) and ends at exactly one other (the last dot of line 261) |
| `Timing.PositionInRange` | src/ppu/mod.rs:18-23 | in-frame counters name one of the frame's 341 * 262 dots |
| `Timing.PositionInjective` | src/ppu/mod.rs:18-23 | the dot within the frame determines both counters |
| `Timing.AtPosition` | src/ppu/mod.rs:18-23 | every dot of the frame is reached by some in-frame counter pair |
| `Timing.Blanking` | src/ppu/mod.rs:425-427 | outside blanking the dot and the line name an on-screen pixel (below 256 and 240) |
| `Registers.RegisterAt` | src/ppu/registers.rs:1-20 | the register selected by CPU address 0x2000 + n is mapped at that address |
| `Registers.RegisterAtMappedAt` | src/ppu/registers.rs:1-20 | selecting the register at a register's documented address gives that register back, so the eight addresses are distinct |
| `Registers.DecodeControl` | src/ppu/registers.rs:55-77 | a PPUCTRL write yields increment 1 or 32, pattern banks 0 or 0x1000 and sprite size 8x8 or 8x16 |
| `Registers.EncodeDecodeControl` | src/ppu/registers.rs:55-77 | the decoded fields stand for bits 2..7 of the written byte: re-encoding them gives those bits back |
| `Registers.ControllerRegister.constructor` | src/ppu/registers.rs:37-52 | the default register is `write(0)` over nametable 0x2000 and satisfies the register invariant |
| `Registers.ControllerRegister.Write` | src/ppu/registers.rs:55-77 | sets every field to the decoding of the byte, keeps the nametable address, and keeps the invariant |
| `Registers.EncodeDecodeMask` | src/ppu/registers.rs:112-123 | the eight PPUMASK flags determine the byte written |
| `Registers.DecodeEncodeMask` | src/ppu/registers.rs:112-123 | no two flag sets come from the same byte |
| `Registers.MaskRegister.constructor` | src/ppu/registers.rs:93-109 | the default register holds the decoding of 0 |
| `Registers.MaskRegister.Write` | src/ppu/registers.rs:112-123 | flag k becomes bit k of the byte, and the byte is kept |
| `Registers.StatusByte` | src/ppu/registers.rs:134-146 | the status byte has bit 5 iff sprite overflow, bit 6 iff sprite-zero hit, bit 7 iff vblank, and bits 0..4 clear |
| `Registers.StatusRegister.constructor` | src/ppu/registers.rs:126-131 | all three flags start clear |
| `Registers.StatusRegister.Read` | src/ppu/registers.rs:134-152 | a read reports the flags as they were, then clears only the vblank flag |
| `Registers.StatusRegister.RecordSpriteZeroHit` | src/ppu/mod.rs:573-575 | a hit raises the sprite-zero flag, and nothing clears it here; the other flags are kept |
| `Registers.AddrWrite` | src/ppu/registers.rs:161-173 | an Address write never leaves the 14-bit PPU address space |
| `Registers.AddrWriteBytes` | src/ppu/registers.rs:161-173 | the byte not written is kept; the written byte becomes the low byte, or the high byte cut to six bits |
| `Registers.CutToFourteenBits` | src/ppu/registers.rs:170-172 | the `& 0x3fff` applied above 0x3fff drops exactly the top two bits of the high byte |
| `Registers.HighThenLow` | src/ppu/registers.rs:161-173 | writing the high byte and then the low byte sets the whole address to the low six bits of hi times 256 plus lo, whatever it was before |
| `Registers.AddrRegister.Write` | src/ppu/registers.rs:161-173 | the register takes the value of the `AddrWrite` update |
| `Registers.OamAddrRegister.Write` | src/ppu/registers.rs:182-184 | OAMADDR becomes the byte written |
| `Registers.ScrollRegister.Write` | src/ppu/registers.rs:194-200 | the toggle selects y, otherwise x, and the other coordinate is kept |
| `Screen.Buttons.GetByIndex` | src/screen.rs:22-34 | indices 0..7 read a, b, select, start, up, down, left and right in that order; every higher index reads as released |
| `Screen.PressedSomewhere` | src/screen.rs:8-34 | no index reads as pressed iff no button is held (the default `Buttons`) |
| `Screen.WithPixel` | src/screen.rs:75-82 | drawing a pixel keeps the buffer's length; `WithPixelBytes` states its bytes |
| `Screen.WithPixelBytes` | src/screen.rs:75-82 | drawing sets exactly the pixel's four bytes to r, g, b and opaque alpha; every other byte is kept |
| `Screen.WithPixelOverwrite` | src/screen.rs:75-82 | drawing the same pixel twice leaves only the second colour |
| `Screen.WithPixelCommutes` | src/screen.rs:75-82 | drawing two different on-screen pixels commutes |
| `Screen.ScreenWriter.DrawPixel` | src/screen.rs:75-82 | a real writer's buffer becomes the `WithPixel` update; a dummy writer draws nothing |
| `Sprites.Covering` | src/ppu/mod.rs:261-272 | the scan's list of covering candidates has at most one entry per candidate scanned, each a candidate index |
| `Sprites.Evaluate` | src/ppu/mod.rs:258-289 | the evaluation fills the 32 bytes of secondary OAM; `EvaluateSlots` states what each slot holds |
| `Sprites.CoveringSound` | src/ppu/mod.rs:269-272 | every listed candidate covers the line |
| `Sprites.CoveringIncreasing` | src/ppu/mod.rs:261-268 | the list is strictly increasing, so candidates are taken once each, in OAM order |
| `Sprites.CoveringComplete` | src/ppu/mod.rs:261-289 | every candidate that covers the line is listed |
| `Sprites.CoveringExact` | src/ppu/mod.rs:261-289 | the list holds exactly the covering candidates, once each, in increasing order |
| `Sprites.CoveringPrefix` | src/ppu/mod.rs:261-289 | scanning more of OAM only appends to the list |
| `Sprites.EvaluateSlots` | src/ppu/mod.rs:269-288 | slot j holds the j-th covering sprite (y, tile, x as in OAM; bits 3..4 of its attributes clear; bit 2 set iff it is the first candidate scanned) or is all 0xff; overflow is raised iff more than eight sprites cover the line |
| `Sprites.FirstCandidateInSlotZero` | src/ppu/mod.rs:278-285 | a covering first candidate lands in slot 0, marked by bit 2 as sprite zero |
| `Sprites.PreRenderSpriteUnderflows` | src/ppu/mod.rs:534-545 | as written, a sprite evaluated for counter value 262 passes the drawing test on line 0 with a negative row offset, so `scanline - sprite_y` underflows; the corrected test skips it (see Findings) |
| `Sprites.ResizedFlippedSpriteUnderflows` | src/ppu/mod.rs:448-451 | as written, a flipped sprite selected as 8x16 and drawn as 8x8 has a row offset above 7, so the flip underflows; the corrected test skips it (see Findings) |
| `Sprites.ResizedUnflippedSpriteDrawn` | src/ppu/mod.rs:534-545 | the same sprite unflipped underflows nothing and is drawn at row offset 10, although it no longer covers the line, as the source draws it |
| `Sprites.CoveredSpritesDrawn` | src/ppu/mod.rs:534-545 | a slot that passes the column test and whose sprite covers the line is drawn by the corrected test too |
| `Sprites.SpriteOffsets` | src/ppu/mod.rs:534-545 | in a slot the corrected test draws, the offsets place the dot at column r.0 and row r.1 of the sprite, the row offset is `scanline - sprite_y`, and the flip and both subtractions stay in range |
| `Render.FetchBackground` | src/ppu/mod.rs:375-394 | the scrolled pixel is in nametable 0..3 (the source's assertion), tile column 0..31, tile row 0..29, and bit and row 0..7 of the tile |
| `Render.BackgroundTileCovers` | src/ppu/mod.rs:375-394 | the fetched nametable, tile, column and row place the pixel exactly at its scrolled position in the 512 x 480 plane of four screens |
| `Render.ColumnSplit` | src/ppu/mod.rs:375-393 | a column of the plane is a screen, a tile column in it and a column in the tile |
| `Render.RowSplit` | src/ppu/mod.rs:376-394 | a row of the plane is a screen, a tile row in it and a row in the tile |
| `Render.BackgroundAddresses` | src/ppu/mod.rs:319-389 | the tile-number read stays in the first 960 bytes of the selected nametable and the attribute read in its last 64; tiles of one 4 x 4 block share the attribute byte |
| `Render.Quadrant` | src/ppu/mod.rs:323-323 | a tile lies in one of the four 2 x 2 quadrants of its attribute block |
| `Render.PaletteNumber` | src/ppu/mod.rs:323-329 | the palette chosen from an attribute byte is 0..3 |
| `Render.AttributeQuadrants` | src/ppu/mod.rs:323-329 | the four quadrants read disjoint bit pairs that rebuild the attribute byte, and each tile reads its own quadrant's pair |
| `Render.BackgroundEntries` | src/ppu/mod.rs:331-344 | background palette p uses the shared backdrop entry 0 and entries 4p + 1..4p + 3, all in the background half of the table |
| `Render.SpriteEntries` | src/ppu/mod.rs:347-361 | colours 1..3 of sprite palette p come from entries 0x10 + 4p + 1..3, all in the sprite half of the table |
| `Render.ColorIndex` | src/ppu/mod.rs:333-337 | greyscale keeps only an entry's brightness bits; otherwise the entry is used as it is |
| `Render.BitMaskIsShift` | src/ppu/mod.rs:401-402 | the written-out masks are `1 << k` |
| `Render.Emphasize` | src/ppu/mod.rs:411-419 | each emphasis flag sets its channel to 0xff and leaves the others; with no flag the colour is unchanged |
| `Render.PixelValue` | src/ppu/mod.rs:401-409 | the two-bit pattern value is 0..3, with bit k of the first plane as its low bit and bit k of the second plane as its high bit |
| `Render.PatternAddress` | src/ppu/mod.rs:475-476 | both plane addresses fit `u16` when the source's sums do; for a row of the tile (0..7), the background's case, both planes lie in the selected pattern table |
| `Render.FetchSprite` | src/ppu/mod.rs:446-472 | the sprite's pattern column is 7 - x unless flipped horizontally, the tile is a byte, the bank is PPUCTRL's (8x8) or 0/0x1000 (8x16); a flipped sprite's row, or any row offset below the height, is in the tile, and an unflipped row is at most the row offset |
| `Render.SmallRowsFit` | src/ppu/mod.rs:475-476 | a row offset below 0x1000 that meets the flip's precondition never overflows the `u16` pattern sums |
| `Render.SpriteRowSelection` | src/ppu/mod.rs:457-472 | 8x16 sprites take the bank from bit 0 of the tile byte, the top half from the even tile of the pair and the bottom half from the odd one; 8x8 sprites use the tile and row as they are |
| `CpuInterface.Cpu.PpuReadChrRom` | src/cpu.rs:10-13 | a character-memory read is what the mapper answers for the offset and changes nothing |
| `CpuInterface.Cpu.NonMaskableInterrupt` | src/cpu.rs:20-22 | an NMI is delivered once and the CPU's character memory is untouched |
| `PpuCore.Route` | src/ppu/mod.rs:156-171 | Data accesses go to pattern memory below 0x2000, to VRAM for 0x2000..0x3eff (only the first 2 KiB outside FourScreen), to the palette table for 0x3f00..0x3fff, and nowhere above |
| `PpuCore.RouteUpperMirror` | src/ppu/mod.rs:162-164 | 0x3000..0x3eff reaches exactly the byte 0x1000 lower |
| `PpuCore.RouteSharesStorage` | src/ppu/mod.rs:159-161 | two nametable addresses reach the same VRAM byte iff the mirroring mode makes them share storage |
| `PpuCore.RoutePalette` | src/ppu/mod.rs:165-170 | 0x3f10, 0x3f14, 0x3f18 and 0x3f1c alias entries 0, 4, 8 and 12; every other palette address selects entry (a - 0x3f00) mod 32 |
| `PpuCore.Advance` | src/ppu/mod.rs:174-177 | after a Data access the address is `(addr + increment) mod 0x4000`, so it routes somewhere in every mirroring mode |
| `PpuCore.ScanlineEffect` | src/ppu/mod.rs:246-316 | off a line end secondary OAM, the flags and the NMI count are kept; beginning line 241 raises vblank, clears overflow and sends one NMI iff enabled; the wrap to line 0 clears vblank and sends none |
| `PpuCore.Ppu.constructor` | src/ppu/mod.rs:61-81 | a new PPU has zeroed counters, registers and memories, secondary OAM all 0xff, the toggle set, and the invariant |
| `PpuCore.Ppu.GetJoypadState` | src/ppu/mod.rs:127-130 | returns the buttons as last recorded: the constructor sets no buttons pressed, and every PPU operation's ensures keeps `buttons` |
| `PpuCore.Ppu.VramReadMatchesData` | src/ppu/mod.rs:83-85 | `vram_read_mirrored` reads the same VRAM byte a Data access to that address reaches |
| `PpuCore.Ppu.WritePpuRegister` | src/ppu/mod.rs:134-180 | every write sets the bus; each register's effect on its own state is stated and the rest of the state is kept: Controller/Mask decode, OamAddress sets, OamData stores and wraps, Scroll/Address flip the toggle, Data stores through `Route` and advances; the invariant is kept |
| `PpuCore.Ppu.WriteOamData` | src/ppu/mod.rs:144-147 | stores at OAMADDR, which then steps with 8-bit wrap-around |
| `PpuCore.Ppu.WriteScroll` | src/ppu/mod.rs:148-151 | the first write of a pair sets x, the second y, and the toggle flips |
| `PpuCore.Ppu.WriteAddress` | src/ppu/mod.rs:152-155 | the address takes the `AddrWrite` update for the current toggle, and the toggle flips |
| `PpuCore.Ppu.WriteData` | src/ppu/mod.rs:156-178 | the byte is stored where `Route` sends the address (nowhere for pattern memory), and the address advances |
| `PpuCore.Ppu.ReadPpuRegister` | src/ppu/mod.rs:186-236 | reads return the bus. A Status read merges the flags over the bus's low five bits, clears vblank and resets the toggle. A Data read returns the old buffer and refills it below the palette, or returns the palette byte directly, then advances the address. Scroll and Address reads reset the toggle too; Controller, Mask, OamAddress and OamData reads leave the state alone |
| `PpuCore.Ppu.FetchData` | src/ppu/mod.rs:204-227 | what a Data read returns and buffers at each address class |
| `PpuCore.Ppu.WriteOamDma` | src/ppu/mod.rs:242-244 | OAM becomes the 256 bytes given |
| `PpuCore.Ppu.EvaluateSprites` | src/ppu/mod.rs:258-289 | secondary OAM becomes `Sprites.Evaluate` of OAM for the new line, and overflow is raised when a ninth covering sprite exists |
| `PpuCore.Ppu.ClearSecondaryOam` | src/ppu/mod.rs:259-259 | secondary OAM becomes the evaluation of no sprite |
| `PpuCore.Ppu.ScanCandidate` | src/ppu/mod.rs:269-287 | one scan step either extends the selection by a covering sprite, skips a sprite that does not cover the line, or raises overflow on a ninth and stops |
| `PpuCore.Ppu.CopyToSlot` | src/ppu/mod.rs:278-286 | copying a candidate appends it to secondary OAM's selection |
| `PpuCore.Ppu.StartVblank` | src/ppu/mod.rs:303-313 | vblank is flagged, sprite-zero and overflow are cleared, and an NMI is sent iff PPUCTRL asks for one |
| `PpuCore.Ppu.EndVblank` | src/ppu/mod.rs:315-317 | only the vblank flag is cleared |
| `PpuCore.Ppu.UpdateScanline` | src/ppu/mod.rs:246-301 | the counters take one `Timing.Step`; OAMADDR, secondary OAM, overflow, vblank and the NMI count take the `ScanlineEffect` update; sprite-zero is cleared only at vblank start; the bus, the read buffer, the toggle and the buttons are kept; the invariant is kept |
| `PpuCore.Ppu.BeginLine` | src/ppu/mod.rs:256-299 | at a line start, sprites are evaluated for the new line, line 241 starts vblank and line 262 ends it |
| `PpuCore.Ppu.Blanking` | src/ppu/mod.rs:425-427 | agrees with `Timing.Blanking` on the counters, so a drawn pixel is on screen |
| `PpuCore.Ppu.BackgroundTile` | src/ppu/mod.rs:378-391 | the tile number is a byte and the palette chosen for its quadrant is 0..3 |
| `PpuCore.Ppu.BackgroundEntry` | src/ppu/mod.rs:389-409 | a background pixel selects a background-half palette entry: the backdrop 0, or an entry of its tile's palette that is not a multiple of 4 |
| `PpuCore.Ppu.BackgroundPattern` | src/ppu/mod.rs:393-402 | the background pattern value is 0..3 |
| `PpuCore.Ppu.EntryColor` | src/ppu/mod.rs:333-343 | a palette entry shows the colour table's colour of its byte when PPUMASK has no effect on; each emphasised channel is 0xff |
| `PpuCore.Ppu.BackdropColor` | src/ppu/mod.rs:391-409 | the background shows the colour of entry 0 where the tile's pattern is clear, and of entry 4p + v of the tile's palette p otherwise |
| `PpuCore.Ppu.DrawPixel` | src/ppu/mod.rs:365-422 | the screen gets the background colour of the pixel at its RGBA bytes and nothing else changes |
| `PpuCore.Ppu.SpriteOutcomeAt` | src/ppu/mod.rs:446-500 | for every offset the source's arithmetic accepts: an opaque sprite pixel reports the hit iff the sprite-zero mark is set, and it is behind iff attribute bit 5 is set |
| `PpuCore.Ppu.SpriteOutcomeColors` | src/ppu/mod.rs:474-500 | the pixel is transparent iff its pattern value v is 0, behind the background iff v is not 0 and bit 5 is set, and otherwise shows entry 0x10 + 4p + v |
| `PpuCore.Ppu.SpritePattern` | src/ppu/mod.rs:474-480 | the sprite pattern value is 0..3, for every offset the source's arithmetic accepts |
| `PpuCore.Ppu.DrawSpritePixel` | src/ppu/mod.rs:430-515 | for every offset the source's arithmetic accepts: a transparent pixel draws nothing; behind-background draws the background colour; in-front draws the sprite colour; returns the outcome's hit |
| `PpuCore.Ppu.DrawSprites` | src/ppu/mod.rs:517-554 | the pixel becomes the eight slot outcomes painted from slot 7 down to slot 0; the result is true iff some slot hit |
| `PpuCore.Ppu.DrawSlot` | src/ppu/mod.rs:529-550 | a slot that passes the corrected selection test paints its outcome at the current dot and returns its hit; one that fails paints nothing |
| `PpuCore.Ppu.Update` | src/ppu/mod.rs:557-577 | one dot: the counters step, OAMADDR, secondary OAM, overflow, vblank and the NMI count take the `ScanlineEffect` update, the bus, buffer, toggle and buttons are kept, and the invariant holds. Inside the picture the background pixel is drawn, the sprites are layered over it, and a hit sets sprite-zero. In blanking nothing is drawn and sprite-zero is cleared only at vblank start |
| `PpuCore.Ppu.DrawDot` | src/ppu/mod.rs:560-576 | the pixel at the current dot becomes the background colour with the sprite layer over it, and a hit sets sprite-zero |
| `PpuCore.Ppu.DrawSpriteLayer` | src/ppu/mod.rs:573-575 | `draw_sprites` followed by raising the sprite-zero flag on a hit; the background colour of the dot is unaffected |
| `PpuCore.HitFromSome` | src/ppu/mod.rs:526-553 | the hit accumulated over the slots is true iff some slot's outcome is a hit |
| `PpuCore.FirstOpaque` | src/ppu/mod.rs:528-551 | the first non-transparent slot from i on, with every slot before it transparent |
| `PpuCore.SpritePriority` | src/ppu/mod.rs:528-551 | sprite priority: the pixel ends up as the lowest-numbered opaque slot paints it, and untouched when all slots are transparent |
| `PpuCore.SecondaryOamAppend` | src/ppu/mod.rs:280-287 | appending a selected sprite fills exactly the four bytes of the next slot |
| `PpuCore.CoveringStep` | src/ppu/mod.rs:269-288 | one more candidate extends the covering list by itself iff it covers the line |
| `PpuCore.ScanResult` | src/ppu/mod.rs:261-289 | where the scan stops determines the evaluation: all candidates seen with at most eight covering, or a ninth found |
| `PpuCore.SecondaryOamFull` | src/ppu/mod.rs:273-276 | sprites listed after the eighth never reach secondary OAM |

## Left out

- `ScreenWriter::render_frame`, `Screen::new`, `Screen::dummy` and `Screen::redraw`
  (src/screen.rs:84-135) hand the frame buffer to a window. This is I/O, so
  `start_vblank`'s call to `render_frame` is not modelled.
- `src/run.rs` (the emulation loop, the CPU clock and the keyboard messages that fill
  `buttons`), `Cpu::tick` and `Cpu::ppu_memory_write` are not part of this model.
  Only `buttons` and `get_joypad_state` are modelled.
- The NES colour table (colors.rs) is not part of this model. It is a parameter
  (`ColorTable`) defined for every byte. The source indexes a 64-entry array and panics
  for a palette byte of 0x40 or more; that panic is not modelled.
- The `log::debug!` calls on writes to pattern memory and above 0x3fff are left out.
- The panics of `mirror_address` and of a Data read above 0x3fff are unreachable:
  - VRAM reads only use mirrorable addresses.
  - PPUADDR never exceeds 0x3fff, as the invariant `Valid` records.
- `master_slave_select` and the binary values are decoded and kept but never used.
- The counters are unbounded naturals. They never exceed 341 and 262, so `usize` width
  does not matter.
- The `u16` sums in the background address arithmetic cannot overflow for the
  nametable bases and pattern bank the registers produce. For sprites, the pattern sums
  are a precondition (`Render.SpriteFetchFits`), and drawing meets it because the row
  offset is at most the scanline.
- PpuCore.Ppu.DrawSlot: uses the corrected selection test `Sprites.Drawn`. Where
  `scanline - sprite_y` is negative, or a vertically flipped sprite's row offset exceeds
  the current sprite height minus one, the source underflows. In debug builds that is a
  panic. The model skips the slot instead, and draws every other slot the source draws.
- PpuCore.Ppu.DrawSprites: the same correction, applied to each of the eight slots
  through `DrawSlot`.
- PpuCore.Ppu.DrawSpriteLayer: the same correction, through `DrawSprites` and
  `SlotOutcomes`.
- PpuCore.Ppu.DrawDot: the same correction, through `DrawSpriteLayer`.
- PpuCore.Ppu.Update: the same correction, through `DrawDot`.

## Findings

| source | as written | input that shows it | evidently intended | confidence | as-written member | corrected member |
|---|---|---|---|---|---|---|
| src/ppu/mod.rs:545 | `draw_sprites` tests only a slot's columns and its y against 0xff, then computes `scanline - sprite_y` as `usize` | 8x16 sprites; OAM sprite 0 at y = 250, x = 0. The scan at the end of line 261 runs with the counter at 262, before the wrap, so the sprite is selected. It is then drawn at dot 0 of line 0, where `0 - 250` underflows | a sprite that does not reach down to the current line is not drawn: the corrected test skips a slot whose row offset would be negative | not executed | `Sprites.PreRenderSpriteUnderflows` | `Sprites.SpriteOffsets` |
| src/ppu/mod.rs:451 | a vertical flip computes `(sprite_size.1 - 1) - sprite_y_off` in `u16` using the current sprite size | a flipped sprite at y = 10, x = 20 is selected as 8x16 for line 20 (row offset 10). PPUCTRL then switches to 8x8 before the dot is drawn, and `7 - 10` underflows | the flipped row stays inside the sprite height in use: the corrected test skips a flipped slot whose row offset exceeds it | not executed | `Sprites.ResizedFlippedSpriteUnderflows` | `Sprites.SpriteOffsets` |
