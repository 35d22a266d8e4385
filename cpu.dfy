/**
 * The CPU as the PPU sees it. The CPU itself is supplied by the user of the library;
 * only the two calls the PPU makes are modelled.
 */
module CpuInterface {
  import opened Types

  class Cpu {
    /** What the cartridge mapper answers for each pattern-table offset. */
    var chrRom: int -> bv8
    /** How many non-maskable interrupts the PPU has raised. */
    var nmiCount: nat

    constructor (chr: int -> bv8)
      ensures chrRom == chr && nmiCount == 0
    {
      chrRom := chr;
      nmiCount := 0;
    }

    /**
     * `Cpu::ppu_read_chr_rom`: a read of character memory. It is what the mapper answers
     * for the offset, and it does not change the CPU.
     */
    function PpuReadChrRom(offset: U16): (b: bv8)
      reads this
      ensures b == chrRom(offset)
    {
      chrRom(offset)
    }

    /** `Cpu::non_maskable_interrupt`, observed as a counter. */
    method NonMaskableInterrupt()
      modifies this
      ensures nmiCount == old(nmiCount) + 1 && chrRom == old(chrRom)
    {
      nmiCount := nmiCount + 1;
    }
  }
}
