/**
 * Scanline timing of an NTSC PPU: 341 dots per line, 262 lines per frame, vblank
 * starting when line 241 begins and ending when the frame wraps to line 0.
 */
module Timing {
  import opened Types

  const DOTS_PER_LINE: int := 341
  const LINES_PER_FRAME: int := 262
  const VBLANK_LINE: int := 241
  const FRAME_DOTS: int := DOTS_PER_LINE * LINES_PER_FRAME

  /** The PPU's position in the frame: `scanline` and `line_progress` (the dot). */
  datatype Counters = Counters(scanline: nat, lineProgress: nat)

  /** The bounds `update_scanline` keeps. */
  predicate InFrame(c: Counters) {
    0 <= c.scanline < LINES_PER_FRAME && 0 <= c.lineProgress < DOTS_PER_LINE
  }

  /** Dots elapsed since the start of the frame. */
  function Position(c: Counters): int {
    c.scanline * DOTS_PER_LINE + c.lineProgress
  }

  /** The counters of a position in the frame. */
  function AtPosition(p: int): (c: Counters)
    requires 0 <= p < FRAME_DOTS
    ensures InFrame(c) && Position(c) == p
  {
    Counters(p / DOTS_PER_LINE, p % DOTS_PER_LINE)
  }

  /** In a frame the position is one of its FRAME_DOTS dots. */
  lemma PositionInRange(c: Counters)
    requires InFrame(c)
    ensures 0 <= Position(c) < FRAME_DOTS
  {
    assert c.scanline * DOTS_PER_LINE <= (LINES_PER_FRAME - 1) * DOTS_PER_LINE;
  }

  /** A position determines the counters. */
  lemma PositionInjective(c: Counters, d: Counters)
    requires InFrame(c) && InFrame(d) && Position(c) == Position(d)
    ensures c == d
  {
  }

  /** Reducing a position already inside the frame leaves it alone. */
  lemma ModOfSmall(a: int)
    requires 0 <= a < FRAME_DOTS
    ensures a % FRAME_DOTS == a
  {
  }

  /** Reducing a position inside the next frame subtracts one frame. */
  lemma ModOfShifted(a: int)
    requires FRAME_DOTS <= a < 2 * FRAME_DOTS
    ensures a % FRAME_DOTS == a - FRAME_DOTS
  {
  }

  /** Counting one further and then reducing agrees with reducing first. */
  lemma ModSucc(a: nat, b: nat)
    requires b == a + 1
    ensures (a % FRAME_DOTS + 1) % FRAME_DOTS == b % FRAME_DOTS
  {
    var q, r := a / FRAME_DOTS, a % FRAME_DOTS;
    assert a == q * FRAME_DOTS + r;
    if r + 1 < FRAME_DOTS {
      assert b == q * FRAME_DOTS + (r + 1);
      assert b % FRAME_DOTS == r + 1;
      ModOfSmall(r + 1);
    } else {
      assert b == (q + 1) * FRAME_DOTS;
      assert b % FRAME_DOTS == 0;
      ModOfShifted(r + 1);
    }
  }

  /**
   * The counter part of `update_scanline`: advance one dot; after dot 340 move to the
   * next line, and after line 261 back to line 0.
   */
  function Step(c: Counters): (r: Counters)
    requires InFrame(c)
    ensures InFrame(r)
  {
    var dot := c.lineProgress + 1;
    if dot > 340 then
      var line := c.scanline + 1;
      Counters(if line > 261 then 0 else line, dot - 341)
    else
      Counters(c.scanline, dot)
  }

  /** Within a frame one step is one dot forward, modulo the frame length. */
  lemma StepPosition(c: Counters)
    requires InFrame(c)
    ensures Position(Step(c)) == (Position(c) + 1) % FRAME_DOTS
  {
  }

  /** `n` calls of `update_scanline`. */
  function Steps(c: Counters, n: nat): Counters
    requires InFrame(c)
  {
    if n == 0 then c else Step(Steps(c, n - 1))
  }

  /** After `n` calls the PPU is `n` dots further on, modulo the frame length. */
  lemma {:induction false} StepsPosition(c: Counters, n: nat)
    requires InFrame(c)
    ensures InFrame(Steps(c, n)) && Position(Steps(c, n)) == (Position(c) + n) % FRAME_DOTS
  {
    if n > 0 {
      var before := Steps(c, n - 1);
      StepsPosition(c, n - 1);
      StepPosition(before);
      ModSucc(Position(c) + (n - 1), Position(c) + n);
    }
  }

  /** A frame lasts exactly 341 * 262 calls. */
  lemma FramePeriodic(c: Counters)
    requires InFrame(c)
    ensures Steps(c, FRAME_DOTS) == c
  {
    var later := Steps(c, FRAME_DOTS);
    StepsPosition(c, FRAME_DOTS);
    PositionInRange(c);
    ModOfShifted(Position(c) + FRAME_DOTS);
    PositionInjective(later, c);
  }

  /** No shorter run of calls comes back to the same dot, so the frame length is the period. */
  lemma FrameMinimal(c: Counters, n: nat)
    requires InFrame(c) && 0 < n < FRAME_DOTS
    ensures Steps(c, n) != c
  {
    StepsPosition(c, n);
    PositionInRange(c);
    if Position(c) + n < FRAME_DOTS {
      ModOfSmall(Position(c) + n);
    } else {
      ModOfShifted(Position(c) + n);
    }
  }

  /** The step that passes dot 340 and begins a new line, where sprites are evaluated. */
  predicate EndsLine(c: Counters) {
    c.lineProgress + 1 > 340
  }

  /** The step that begins line 241, where `start_vblank` runs. */
  predicate StartsVblank(c: Counters) {
    EndsLine(c) && c.scanline + 1 == VBLANK_LINE
  }

  /** The step that wraps to line 0, where `end_vblank` runs. */
  predicate EndsVblank(c: Counters) {
    EndsLine(c) && c.scanline + 1 > 261
  }

  /** Vblank starts at exactly one position of each frame, and ends at exactly one other. */
  lemma VblankOncePerFrame(c: Counters)
    requires InFrame(c)
    ensures StartsVblank(c) <==> Position(c) == VBLANK_LINE * DOTS_PER_LINE - 1
    ensures EndsVblank(c) <==> Position(c) == FRAME_DOTS - 1
  {
    if Position(c) == VBLANK_LINE * DOTS_PER_LINE - 1 {
      PositionInjective(c, Counters(240, 340));
    }
    if Position(c) == FRAME_DOTS - 1 {
      PositionInjective(c, Counters(261, 340));
    }
  }

  /**
   * `Ppu::blanking`: the beam is outside the visible picture. Outside blanking the
   * current dot and line name an on-screen pixel.
   */
  function Blanking(c: Counters): (b: bool)
    ensures !b ==> c.lineProgress < WIDTH && c.scanline < HEIGHT
  {
    !(c.lineProgress < 256 && c.scanline < 240)
  }

  /** Dots 257..320 of every line zero OAMADDR. */
  predicate ResetsOamAddr(c: Counters) {
    c.lineProgress + 1 >= 257 && c.lineProgress + 1 <= 320
  }
}
