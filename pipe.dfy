/** Obstacles: a pipe pair around a vertical gap, scrolling left (static/js/pipe.js). */
module Pipes {
  import opened Geometry

  const PipeWidth: real := 60.0
  const GapHeight: real := 200.0

  /** The part of a pipe that the game reads and changes. */
  datatype PipeState = PipeState(x: real, speed: real, gapStart: real, passed: bool)

  /** The gap lies wholly inside the canvas, with 50 units to spare above and below. */
  predicate GapInsideCanvas(p: PipeState)
  {
    50.0 <= p.gapStart && p.gapStart + GapHeight < CanvasHeight - 50.0
  }

  /** The top of the gap for a draw `r` of Math.random(). */
  function GapStartFor(r: real): (g: real)
    ensures 0.0 <= r < 1.0 ==> 50.0 <= g < CanvasHeight - 250.0
  {
    r * (CanvasHeight - GapHeight - 100.0) + 50.0
  }

  /** A pipe as the constructor builds it: at the right edge, not yet passed. */
  function NewPipe(speed: real, r: real): (p: PipeState)
    ensures p.x == CanvasWidth && p.speed == speed && !p.passed
    ensures 0.0 <= r < 1.0 ==> GapInsideCanvas(p)
  {
    PipeState(CanvasWidth, speed, GapStartFor(r), false)
  }

  /** One frame of leftward motion. */
  function Moved(p: PipeState): PipeState
  {
    p.(x := p.x - p.speed)
  }

  /** The trailing edge has left the canvas. */
  predicate Offscreen(p: PipeState)
  {
    p.x + PipeWidth < 0.0
  }

  /** A pipe that moves left or stands still never comes back once off-screen. */
  lemma OffscreenIsFinal(p: PipeState)
    requires Offscreen(p) && p.speed >= 0.0
    ensures Offscreen(Moved(p)) && Moved(p).gapStart == p.gapStart
  {
  }

  class Pipe {
    const width: real := PipeWidth
    const gapHeight: real := GapHeight
    const gapStart: real
    var x: real
    var speed: real
    var passed: bool

    function View(): PipeState
      reads this
    {
      PipeState(x, speed, gapStart, passed)
    }

    /** `r` is the Math.random() draw that places the gap. */
    constructor (speed: real, r: real)
      ensures View() == NewPipe(speed, r)
    {
      x := CanvasWidth;
      this.speed := speed;
      gapStart := GapStartFor(r);
      passed := false;
    }

    method Update()
      modifies this
      ensures x == old(x) - old(speed)
      ensures speed == old(speed) && passed == old(passed)
      ensures View() == Moved(old(View()))
    {
      x := x - speed;
    }

    predicate IsOffscreen()
      reads this
    {
      Offscreen(View())
    }
  }
}
