/** Controller buttons and the frame buffer the PPU draws into. */
module Screen {
  import opened Types

  /** Which buttons of one controller are held (`true`) or not. */
  datatype Buttons = Buttons(
    a: bool, b: bool, up: bool, down: bool, left: bool, right: bool, select: bool, start: bool)
  {
    /** The buttons in the order the controller port reports them. */
    function ReportOrder(): (s: seq<bool>)
      ensures |s| == 8
    {
      [a, b, select, start, up, down, left, right]
    }

    /**
     * `Buttons::get_by_index`: index 0..7 reads the buttons in report order
     * (a, b, select, start, up, down, left, right); every later index reads as released.
     */
    function GetByIndex(idx: bv8): (pressed: bool)
      ensures idx >= 8 ==> !pressed
      ensures idx < 8 ==> pressed == ReportOrder()[idx as int]
    {
      match idx
      case 0 => a
      case 1 => b
      case 2 => select
      case 3 => start
      case 4 => up
      case 5 => down
      case 6 => left
      case 7 => right
      case _ => false
    }
  }

  /** `Buttons::default()`: nothing held. */
  const NoButtons: Buttons := Buttons(false, false, false, false, false, false, false, false)

  /** With nothing held, no index reads as pressed; with anything held, some index does. */
  lemma {:induction false} PressedSomewhere(buttons: Buttons)
    ensures buttons == NoButtons <==> forall i: bv8 :: !buttons.GetByIndex(i)
  {
    if buttons != NoButtons {
      var i: bv8 :| i < 8 && buttons.ReportOrder()[i as int] by {
        var s := buttons.ReportOrder();
        if s[0] { assert buttons.GetByIndex(0); } else
        if s[1] { assert buttons.GetByIndex(1); } else
        if s[2] { assert buttons.GetByIndex(2); } else
        if s[3] { assert buttons.GetByIndex(3); } else
        if s[4] { assert buttons.GetByIndex(4); } else
        if s[5] { assert buttons.GetByIndex(5); } else
        if s[6] { assert buttons.GetByIndex(6); } else
        { assert buttons.GetByIndex(7); }
      }
      assert buttons.GetByIndex(i);
    }
  }

  /** Offset of the first of the four RGBA bytes of pixel (x, y). */
  function PixelOffset(x: nat, y: nat): nat {
    4 * (y * WIDTH + x)
  }

  /** Whether the four bytes of pixel (x, y) lie inside a buffer of `length` bytes. */
  predicate PixelInBounds(length: nat, x: nat, y: nat) {
    PixelOffset(x, y) + 3 < length
  }

  /** Byte k (0..3) of the RGBA encoding of a colour: red, green, blue, then opaque alpha. */
  function RgbaByte(color: Color, k: int): bv8 {
    if k == 0 then color.r else if k == 1 then color.g else if k == 2 then color.b else 0xff
  }

  /**
   * The buffer after drawing `color` at (x, y): its four bytes become (r, g, b, 0xff)
   * and every other byte is kept.
   */
  function WithPixel(buffer: seq<bv8>, x: nat, y: nat, color: Color): (r: seq<bv8>)
    requires PixelInBounds(|buffer|, x, y)
    ensures |r| == |buffer|
  {
    var o := PixelOffset(x, y);
    buffer[o := color.r][o + 1 := color.g][o + 2 := color.b][o + 3 := 0xff]
  }

  /** Drawing a pixel sets exactly its four bytes to the RGBA encoding of the colour. */
  lemma WithPixelBytes(buffer: seq<bv8>, x: nat, y: nat, color: Color)
    requires PixelInBounds(|buffer|, x, y)
    ensures var r, o := WithPixel(buffer, x, y, color), PixelOffset(x, y);
      forall i :: 0 <= i < |buffer| ==> r[i] == if o <= i < o + 4 then RgbaByte(color, i - o) else buffer[i]
  {
  }

  /** Drawing the same pixel twice keeps only the second colour. */
  lemma WithPixelOverwrite(buffer: seq<bv8>, x: nat, y: nat, c1: Color, c2: Color)
    requires PixelInBounds(|buffer|, x, y)
    ensures WithPixel(WithPixel(buffer, x, y, c1), x, y, c2) == WithPixel(buffer, x, y, c2)
  {
    var u, v := WithPixel(WithPixel(buffer, x, y, c1), x, y, c2), WithPixel(buffer, x, y, c2);
    WithPixelBytes(buffer, x, y, c1);
    WithPixelBytes(WithPixel(buffer, x, y, c1), x, y, c2);
    WithPixelBytes(buffer, x, y, c2);
    assert forall i :: 0 <= i < |u| ==> u[i] == v[i];
  }

  /** Two different on-screen pixels occupy disjoint bytes, so drawing them commutes. */
  lemma WithPixelCommutes(buffer: seq<bv8>, x1: nat, y1: nat, x2: nat, y2: nat, c1: Color, c2: Color)
    requires x1 < WIDTH && x2 < WIDTH && (x1, y1) != (x2, y2)
    requires PixelInBounds(|buffer|, x1, y1) && PixelInBounds(|buffer|, x2, y2)
    ensures WithPixel(WithPixel(buffer, x1, y1, c1), x2, y2, c2) == WithPixel(WithPixel(buffer, x2, y2, c2), x1, y1, c1)
  {
    var o1, o2 := PixelOffset(x1, y1), PixelOffset(x2, y2);
    if y1 < y2 {
      assert y1 * WIDTH + x1 < y2 * WIDTH;
    } else if y2 < y1 {
      assert y2 * WIDTH + x2 < y1 * WIDTH;
    }
    assert o1 + 4 <= o2 || o2 + 4 <= o1;
    var u := WithPixel(WithPixel(buffer, x1, y1, c1), x2, y2, c2);
    var v := WithPixel(WithPixel(buffer, x2, y2, c2), x1, y1, c1);
    WithPixelBytes(buffer, x1, y1, c1);
    WithPixelBytes(buffer, x2, y2, c2);
    WithPixelBytes(WithPixel(buffer, x1, y1, c1), x2, y2, c2);
    WithPixelBytes(WithPixel(buffer, x2, y2, c2), x1, y1, c1);
    assert forall i :: 0 <= i < |u| ==> u[i] == v[i];
  }

  /**
   * The writing end of a screen. A Dummy writer (headless mode) draws nothing; a Real
   * writer owns the RGBA frame buffer that is handed to the window when a frame ends.
   */
  class ScreenWriter {
    const isReal: bool
    const pixels: array<bv8>

    /** `ScreenWriter::Dummy`. */
    constructor Dummy()
      ensures !isReal
    {
      isReal := false;
      pixels := new bv8[0];
    }

    /** `ScreenWriter::Real` over a frame buffer. */
    constructor Real(buffer: array<bv8>)
      ensures isReal && pixels == buffer
    {
      isReal := true;
      pixels := buffer;
    }

    /** `ScreenWriter::draw_pixel`. */
    method DrawPixel(x: nat, y: nat, color: Color)
      requires isReal ==> PixelInBounds(pixels.Length, x, y)
      modifies pixels
      ensures isReal ==> pixels[..] == WithPixel(old(pixels[..]), x, y, color)
      ensures !isReal ==> pixels[..] == old(pixels[..])
    {
      if isReal {
        pixels[4 * (y * WIDTH + x)] := color.r;
        pixels[4 * (y * WIDTH + x) + 1] := color.g;
        pixels[4 * (y * WIDTH + x) + 2] := color.b;
        pixels[4 * (y * WIDTH + x) + 3] := 0xff;
      }
    }
  }
}
