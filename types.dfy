/** Shared constants and value types of the PPU model. */
module Types {
  /** Width of the NES output picture in pixels. */
  const WIDTH: int := 256
  /** Height of the NES output picture in pixels. */
  const HEIGHT: int := 240

  /**
   * A `u16` of the source. Sixteen-bit addresses are modelled as integers; where the
   * source masks or combines them bitwise, the model uses the matching `%`, `/` and `+`
   * (`x & 0x3fff` is `x % 0x4000` for a non-negative `x`, and `|` of disjoint bit ranges is `+`).
   */
  type U16 = x: int | 0 <= x < 0x1_0000

  /** A `u8` of the source that is used as a number (an index or a size) rather than as bits. */
  type U8 = x: int | 0 <= x < 0x100

  /** An RGB colour, as the `(u8, u8, u8)` tuple the colour table holds. */
  datatype Color = Color(r: bv8, g: bv8, b: bv8)

  /** The 64-entry NES colour table, abstracted as a total map from colour index to colour. */
  type ColorTable = bv8 -> Color
}
