/**
 * Sprite evaluation: at the end of each line the PPU scans the 256-byte OAM, four bytes
 * (y, tile, attributes, x) per sprite starting at OAMADDR, and copies the first eight
 * sprites that cover the new line into the 32-byte secondary OAM. This module gives
 * the result of that scan as functions of the OAM, and the sprite-selection test that
 * drawing applies to each secondary slot.
 */
module Sprites {
  import Render

  /** The number of whole four-byte sprites from `start` to the end of OAM. */
  function CandidateCount(start: int): int
    requires 0 <= start <= 256
  {
    (256 - start) / 4
  }

  /** Whether OAM holds candidate `k`, counting from `start`. */
  predicate IsCandidate(oam: seq<bv8>, start: int, k: int) {
    |oam| == 256 && 0 <= start < 256 && 0 <= k < CandidateCount(start)
  }

  /** Byte b (0 = y, 1 = tile, 2 = attributes, 3 = x) of candidate `k`. */
  function CandidateByte(oam: seq<bv8>, start: int, k: int, b: int): bv8
    requires IsCandidate(oam, start, k) && 0 <= b < 4
  {
    oam[start + 4 * k + b]
  }

  /** A sprite whose top row is `y` covers `line` when the line is one of its `height` rows. */
  predicate OnLine(y: bv8, line: int, height: int) {
    line >= y as int && line < y as int + height
  }

  /** The candidates among the first `n` that cover `line`, in OAM order. */
  function Covering(oam: seq<bv8>, start: int, n: int, line: int, height: int): (sel: seq<int>)
    requires |oam| == 256 && 0 <= start < 256 && 0 <= n <= CandidateCount(start)
    ensures |sel| <= n
    ensures forall j :: 0 <= j < |sel| ==> 0 <= sel[j] < n
  {
    if n == 0 then []
    else
      Covering(oam, start, n - 1, line, height)
        + (if OnLine(CandidateByte(oam, start, n - 1, 0), line, height) then [n - 1] else [])
  }

  /** Every candidate in the covering list covers the line. */
  lemma {:induction false} CoveringSound(oam: seq<bv8>, start: int, n: int, line: int, height: int)
    requires |oam| == 256 && 0 <= start < 256 && 0 <= n <= CandidateCount(start)
    ensures forall j :: 0 <= j < |Covering(oam, start, n, line, height)| ==> OnLine(CandidateByte(oam, start, Covering(oam, start, n, line, height)[j], 0), line, height)
  {
    if n > 0 {
      CoveringSound(oam, start, n - 1, line, height);
      var prev := Covering(oam, start, n - 1, line, height);
      var sel := Covering(oam, start, n, line, height);
      var last := OnLine(CandidateByte(oam, start, n - 1, 0), line, height);
      assert sel == prev + (if last then [n - 1] else []);
      forall j | 0 <= j < |sel|
        ensures OnLine(CandidateByte(oam, start, sel[j], 0), line, height)
      {
        if j < |prev| {
          assert sel[j] == prev[j];
        } else {
          assert last && sel[j] == n - 1;
        }
      }
    }
  }

  /** The covering list is strictly increasing, so it names each candidate once, in OAM order. */
  lemma {:induction false} CoveringIncreasing(oam: seq<bv8>, start: int, n: int, line: int, height: int)
    requires |oam| == 256 && 0 <= start < 256 && 0 <= n <= CandidateCount(start)
    ensures forall j, j' :: 0 <= j < j' < |Covering(oam, start, n, line, height)| ==> Covering(oam, start, n, line, height)[j] < Covering(oam, start, n, line, height)[j']
  {
    if n > 0 {
      CoveringIncreasing(oam, start, n - 1, line, height);
      var prev := Covering(oam, start, n - 1, line, height);
      var sel := Covering(oam, start, n, line, height);
      assert sel == prev + (if OnLine(CandidateByte(oam, start, n - 1, 0), line, height) then [n - 1] else []);
      forall j, j' | 0 <= j < j' < |sel|
        ensures sel[j] < sel[j']
      {
        assert sel[j] == prev[j] && prev[j] < n - 1;
        if j' < |prev| {
          assert sel[j'] == prev[j'];
        } else {
          assert sel[j'] == n - 1;
        }
      }
    }
  }

  /** Every covering candidate among the first `n` is in the covering list. */
  lemma {:induction false} CoveringComplete(oam: seq<bv8>, start: int, n: int, line: int, height: int)
    requires |oam| == 256 && 0 <= start < 256 && 0 <= n <= CandidateCount(start)
    ensures forall k :: 0 <= k < n && OnLine(CandidateByte(oam, start, k, 0), line, height) ==> k in Covering(oam, start, n, line, height)
  {
    if n > 0 {
      CoveringComplete(oam, start, n - 1, line, height);
      var prev := Covering(oam, start, n - 1, line, height);
      var sel := Covering(oam, start, n, line, height);
      var last := OnLine(CandidateByte(oam, start, n - 1, 0), line, height);
      assert sel == prev + (if last then [n - 1] else []);
      forall k | 0 <= k < n && OnLine(CandidateByte(oam, start, k, 0), line, height)
        ensures k in sel
      {
        if k < n - 1 {
          assert k in prev;
        } else {
          assert sel[|prev|] == k;
        }
      }
    }
  }

  /**
   * The covering list is exact: it holds every covering candidate among the first `n`,
   * nothing else, each once, in increasing order.
   */
  lemma CoveringExact(oam: seq<bv8>, start: int, n: int, line: int, height: int)
    requires |oam| == 256 && 0 <= start < 256 && 0 <= n <= CandidateCount(start)
    ensures var sel := Covering(oam, start, n, line, height);
      && (forall j :: 0 <= j < |sel| ==> OnLine(CandidateByte(oam, start, sel[j], 0), line, height))
      && (forall j, j' :: 0 <= j < j' < |sel| ==> sel[j] < sel[j'])
      && (forall k :: 0 <= k < n && OnLine(CandidateByte(oam, start, k, 0), line, height) ==> k in sel)
  {
    CoveringSound(oam, start, n, line, height);
    CoveringIncreasing(oam, start, n, line, height);
    CoveringComplete(oam, start, n, line, height);
  }

  /** Scanning more candidates only appends to the covering list. */
  lemma {:induction false} CoveringPrefix(oam: seq<bv8>, start: int, n: int, m: int, line: int, height: int)
    requires |oam| == 256 && 0 <= start < 256 && 0 <= n <= m <= CandidateCount(start)
    ensures Covering(oam, start, n, line, height) <= Covering(oam, start, m, line, height)
  {
    if n < m {
      CoveringPrefix(oam, start, n, m - 1, line, height);
    }
  }

  /**
   * The byte that evaluation copies for byte b of candidate k: bytes 0, 1 and 3 as they
   * are; byte 2 with bits 2..4 cleared and bit 2 then set when k is the first candidate
   * evaluated (the PPU reuses that unused bit to mark sprite zero).
   */
  function SlotByte(oam: seq<bv8>, start: int, k: int, b: int): bv8
    requires IsCandidate(oam, start, k) && 0 <= b < 4
  {
    var v := CandidateByte(oam, start, k, b);
    if b == 2 then (v & 0xe3) | (if k == 0 then 0x04 else 0x00) else v
  }

  /** Secondary OAM holding the first up to eight candidates of `sel`; unused bytes are 0xff. */
  function SecondaryOam(oam: seq<bv8>, start: int, sel: seq<int>): (s: seq<bv8>)
    requires forall j :: 0 <= j < |sel| ==> IsCandidate(oam, start, sel[j])
    ensures |s| == 32
  {
    seq(32, i requires 0 <= i < 32 =>
      if i / 4 < |sel| && i / 4 < 8 then SlotByte(oam, start, sel[i / 4], i % 4) else 0xff)
  }

  /** The outcome of evaluating OAM for one line. */
  datatype Evaluation = Evaluation(secondary: seq<bv8>, overflow: bool)

  /**
   * The sprite evaluation of `update_scanline`: secondary OAM gets the first eight
   * covering candidates, and the overflow flag is raised when a ninth exists.
   */
  function Evaluate(oam: seq<bv8>, start: int, line: int, height: int): (e: Evaluation)
    requires |oam| == 256 && 0 <= start < 256
    ensures |e.secondary| == 32
  {
    var sel := AllCovering(oam, start, line, height);
    Evaluation(SecondaryOam(oam, start, sel), |sel| > 8)
  }

  /** The list of all covering candidates, as the whole scan sees it. */
  function AllCovering(oam: seq<bv8>, start: int, line: int, height: int): seq<int>
    requires |oam| == 256 && 0 <= start < 256
  {
    Covering(oam, start, CandidateCount(start), line, height)
  }

  /**
   * What evaluation leaves in each of the eight slots: slot j holds the j-th covering
   * candidate (y, tile and x unchanged; the attribute byte with bits 3..4 clear, bit 2
   * set exactly for the first candidate evaluated) when there is one, and is all 0xff
   * otherwise. The overflow flag says that more than eight candidates cover the line.
   */
  lemma EvaluateSlots(oam: seq<bv8>, start: int, line: int, height: int, j: int)
    requires |oam| == 256 && 0 <= start < 256 && 0 <= j < 8
    ensures var e, sel := Evaluate(oam, start, line, height), AllCovering(oam, start, line, height);
      && (e.overflow <==> |sel| > 8)
      && (j < |sel| ==>
            && e.secondary[4 * j] == CandidateByte(oam, start, sel[j], 0)
            && e.secondary[4 * j + 1] == CandidateByte(oam, start, sel[j], 1)
            && e.secondary[4 * j + 3] == CandidateByte(oam, start, sel[j], 3)
            && e.secondary[4 * j + 2] & 0xe3 == CandidateByte(oam, start, sel[j], 2) & 0xe3
            && e.secondary[4 * j + 2] & 0x18 == 0
            && (e.secondary[4 * j + 2] & 0x04 != 0 <==> sel[j] == 0))
      && (j >= |sel| ==> forall b :: 0 <= b < 4 ==> Slot(e.secondary, j, b) == 0xff)
  {
    var e := Evaluate(oam, start, line, height);
    assert (4 * j) / 4 == j && (4 * j + 1) / 4 == j && (4 * j + 2) / 4 == j && (4 * j + 3) / 4 == j;
    assert (4 * j) % 4 == 0 && (4 * j + 1) % 4 == 1 && (4 * j + 2) % 4 == 2 && (4 * j + 3) % 4 == 3;
  }

  /** When the first evaluated candidate covers the line, it lands in slot 0. */
  lemma FirstCandidateInSlotZero(oam: seq<bv8>, start: int, line: int, height: int)
    requires |oam| == 256 && 0 <= start <= 252
    requires OnLine(oam[start], line, height)
    ensures var s := Evaluate(oam, start, line, height).secondary;
      s[0] == oam[start] && s[3] == oam[start + 3] && s[2] == (oam[start + 2] & 0xe3) | 0x04
  {
    var sel := AllCovering(oam, start, line, height);
    CoveringExact(oam, start, CandidateCount(start), line, height);
    assert CandidateByte(oam, start, 0, 0) == oam[start];
    assert 0 in sel;
    assert sel[0] == 0 by {
      var j :| 0 <= j < |sel| && sel[j] == 0;
    }
  }

  // ---------------------------------------------------------------- selection for drawing

  /** Byte b of slot i of secondary OAM. */
  function Slot(secondary: seq<bv8>, i: int, b: int): bv8
    requires |secondary| == 32 && 0 <= i < 8 && 0 <= b < 4
  {
    secondary[4 * i + b]
  }

  /**
   * The test `draw_sprites` applies to slot i as written: the current dot lies in the
   * sprite's eight columns and the slot is not empty (y is not 0xff). The sprite's
   * rows are not checked.
   */
  predicate DrawnAsWritten(secondary: seq<bv8>, i: int, dot: int)
    requires |secondary| == 32 && 0 <= i < 8
  {
    dot >= Slot(secondary, i, 3) as int && dot < Slot(secondary, i, 3) as int + 8 && Slot(secondary, i, 0) != 0xff
  }

  /** The row offset `scanline - sprite_y` as written; a negative value is a `usize` underflow. */
  function RowOffsetAsWritten(secondary: seq<bv8>, i: int, scanline: int): int
    requires |secondary| == 32 && 0 <= i < 8
  {
    scanline - Slot(secondary, i, 0) as int
  }

  /**
   * Whether the source's row arithmetic underflows for slot i on `scanline`:
   * `scanline - sprite_y` in `usize` is negative, or a vertically flipped sprite's
   * `(height - 1) - row offset` in `u16` is.
   */
  predicate Underflows(secondary: seq<bv8>, i: int, scanline: int, height: int)
    requires |secondary| == 32 && 0 <= i < 8
  {
    var yOff := RowOffsetAsWritten(secondary, i, scanline);
    yOff < 0 || (Slot(secondary, i, 2) & 0x80 != 0 && yOff > height - 1)
  }

  /**
   * The sprite evaluated at the end of line 261 (the scanline counter then reads 262)
   * survives into line 0: with 8x16 sprites, one at y = 250 and x = 0 passes the test
   * at dot 0 of line 0, where `scanline - sprite_y` is 0 - 250. The corrected test
   * skips it.
   */
  lemma PreRenderSpriteUnderflows(oam: seq<bv8>)
    requires |oam| == 256 && oam[0] == 250 && oam[3] == 0
    ensures var s := Evaluate(oam, 0, 262, 16).secondary;
      && DrawnAsWritten(s, 0, 0) && RowOffsetAsWritten(s, 0, 0) < 0
      && Underflows(s, 0, 0, 16) && !Drawn(s, 0, 0, 0, 16)
  {
    FirstCandidateInSlotZero(oam, 0, 262, 16);
  }

  /**
   * A vertically flipped 8x16 sprite evaluated at y = 10 for line 20, drawn after the
   * sprite size was switched to 8x8, has row offset 10; flipping computes `(8 - 1) - 10`,
   * which underflows `u16`. The corrected test skips it.
   */
  lemma ResizedFlippedSpriteUnderflows(oam: seq<bv8>)
    requires |oam| == 256 && oam[0] == 10 && oam[2] == 0x80 && oam[3] == 20
    ensures var s := Evaluate(oam, 0, 20, 16).secondary;
      && DrawnAsWritten(s, 0, 20) && Slot(s, 0, 2) & 0x80 != 0
      && RowOffsetAsWritten(s, 0, 20) > 8 - 1
      && Underflows(s, 0, 20, 8) && !Drawn(s, 0, 20, 20, 8)
  {
    FirstCandidateInSlotZero(oam, 0, 20, 16);
  }

  /**
   * The same sprite unflipped underflows nothing: it is drawn, row offset 10, from the
   * pattern bytes below its 8x8 tile, as the source draws it.
   */
  lemma ResizedUnflippedSpriteDrawn(oam: seq<bv8>)
    requires |oam| == 256 && oam[0] == 10 && oam[2] == 0x00 && oam[3] == 20
    ensures var s := Evaluate(oam, 0, 20, 16).secondary;
      && Drawn(s, 0, 20, 20, 8) && RowOffsetAsWritten(s, 0, 20) == 10
      && !OnLine(Slot(s, 0, 0), 20, 8)
  {
    FirstCandidateInSlotZero(oam, 0, 20, 16);
  }

  /**
   * The corrected test: the as-written test, except where the row arithmetic would
   * underflow, in which case the slot is skipped.
   */
  predicate Drawn(secondary: seq<bv8>, i: int, dot: int, scanline: int, height: int)
    requires |secondary| == 32 && 0 <= i < 8
  {
    DrawnAsWritten(secondary, i, dot) && !Underflows(secondary, i, scanline, height)
  }

  /** A slot whose sprite covers the line in the sprite size in use is drawn by both tests alike. */
  lemma CoveredSpritesDrawn(secondary: seq<bv8>, i: int, dot: int, scanline: int, height: int)
    requires |secondary| == 32 && 0 <= i < 8 && DrawnAsWritten(secondary, i, dot)
    requires OnLine(Slot(secondary, i, 0), scanline, height)
    ensures Drawn(secondary, i, dot, scanline, height)
  {
  }

  /**
   * The offsets of the current dot into a drawn sprite: they place the dot at column
   * r.0 and row r.1 from the sprite's top-left corner, the row offset is the source's
   * `scanline - sprite_y`, and they meet the preconditions of the `u16` arithmetic
   * of `draw_sprite_pixel`.
   */
  function SpriteOffsets(secondary: seq<bv8>, i: int, dot: int, scanline: int, height: int): (r: (int, int))
    requires |secondary| == 32 && 0 <= i < 8
    requires Drawn(secondary, i, dot, scanline, height)
    ensures Slot(secondary, i, 3) as int + r.0 == dot && Slot(secondary, i, 0) as int + r.1 == scanline
    ensures r.1 == RowOffsetAsWritten(secondary, i, scanline) && r.1 <= scanline
    ensures Render.SpriteOffsetsFit(Slot(secondary, i, 2), r.0, r.1, height)
  {
    (dot - Slot(secondary, i, 3) as int, scanline - Slot(secondary, i, 0) as int)
  }
}
