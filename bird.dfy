/** The player's avatar: vertical physics under gravity and the pipe test (static/js/bird.js). */
module Birds {
  import opened Geometry
  import opened Pipes

  const BirdX: real := CanvasWidth / 3.0
  const BirdWidth: real := 40.0
  const BirdHeight: real := 30.0
  const Gravity: real := 0.35
  const JumpForce: real := -8.0
  /** Math.PI / 4, as the double the source computes it. */
  const QuarterPi: real := 0.7853981633974483
  /** The lowest `y` at which the bird still fits on the canvas. */
  const Floor: real := CanvasHeight - BirdHeight

  /** The part of the bird that changes; x, width and height are fixed. */
  datatype BirdState = BirdState(y: real, velocity: real, rotation: real)

  /** A new bird: mid-height, at rest, level. */
  const Hatchling: BirdState := BirdState(CanvasHeight / 2.0, 0.0, 0.0)

  function BirdBox(b: BirdState): Box
  {
    Box(BirdX, b.y, BirdWidth, BirdHeight)
  }

  /** Rotation follows velocity linearly and saturates at a quarter turn either way. */
  function Tilt(v: real): (r: real)
    ensures -QuarterPi <= r <= QuarterPi
    ensures -QuarterPi <= v * 0.1 <= QuarterPi ==> r == v * 0.1
    ensures v * 0.1 > QuarterPi ==> r == QuarterPi
    ensures v * 0.1 < -QuarterPi ==> r == -QuarterPi
  {
    var lifted := if v * 0.1 > -QuarterPi then v * 0.1 else -QuarterPi;
    if lifted < QuarterPi then lifted else QuarterPi
  }

  function Jumped(b: BirdState): BirdState
  {
    b.(velocity := JumpForce)
  }

  /** One frame of physics: gravity, motion, tilt, then the two clamps into the canvas. */
  function Fall(b: BirdState): (r: BirdState)
    ensures 0.0 <= r.y <= Floor
    ensures r.rotation == Tilt(b.velocity + Gravity)
    ensures var y := b.y + b.velocity + Gravity;
            0.0 <= y <= Floor ==> r.y == y && r.velocity == b.velocity + Gravity
    ensures var y := b.y + b.velocity + Gravity;
            (y < 0.0 ==> r.y == 0.0 && r.velocity == 0.0) &&
            (y > Floor ==> r.y == Floor && r.velocity == 0.0)
  {
    var v := b.velocity + Gravity;
    var y := b.y + v;
    var rotation := Tilt(v);
    var (y1, v1) := if y < 0.0 then (0.0, 0.0) else (y, v);
    if y1 + BirdHeight > CanvasHeight then BirdState(CanvasHeight - BirdHeight, 0.0, rotation)
    else BirdState(y1, v1, rotation)
  }

  /** The worked example: from rest at the top, one tick moves the bird down by one gravity step. */
  lemma FallFromRestAtTop()
    ensures Fall(BirdState(0.0, 0.0, 0.0)) == BirdState(0.35, 0.35, 0.035)
  {
  }

  /** The bird's box meets the pipe column and is not wholly inside the gap. */
  predicate HitsPipe(b: BirdState, p: PipeState)
  {
    BirdX < p.x + PipeWidth && BirdX + BirdWidth > p.x &&
    (b.y < p.gapStart || b.y + BirdHeight > p.gapStart + GapHeight)
  }

  /** A bird wholly inside the gap never collides, wherever the pipe is. */
  lemma InsideGapIsSafe(b: BirdState, p: PipeState)
    requires p.gapStart <= b.y && b.y + BirdHeight <= p.gapStart + GapHeight
    ensures !HitsPipe(b, p)
  {
  }

  /** The box that the top pipe is drawn as, from the canvas top down to the gap. */
  function TopPipeBox(p: PipeState): Box
  {
    Box(p.x, 0.0, PipeWidth, p.gapStart)
  }

  /** The box that the bottom pipe is drawn as, from the gap down to the canvas bottom. */
  function BottomPipeBox(p: PipeState): Box
  {
    Box(p.x, p.gapStart + GapHeight, PipeWidth, CanvasHeight - (p.gapStart + GapHeight))
  }

  /** For a bird on the canvas, the gap test is exactly overlap with one of the two drawn pipes. */
  lemma HitsPipeIsOverlapWithDrawnPipe(b: BirdState, p: PipeState)
    requires 0.0 <= b.y <= Floor
    ensures HitsPipe(b, p) <==> Overlap(BirdBox(b), TopPipeBox(p)) || Overlap(BirdBox(b), BottomPipeBox(p))
  {
  }

  /** A pipe whose trailing edge has left the canvas is behind the bird and cannot hit it. */
  lemma OffscreenPipeIsHarmless(b: BirdState, p: PipeState)
    requires Offscreen(p)
    ensures !HitsPipe(b, p)
  {
  }

  class Bird {
    const x: real := BirdX
    const width: real := BirdWidth
    const height: real := BirdHeight
    const gravity: real := Gravity
    const jumpForce: real := JumpForce
    var y: real
    var velocity: real
    var rotation: real

    function View(): BirdState
      reads this
    {
      BirdState(y, velocity, rotation)
    }

    constructor ()
      ensures x == CanvasWidth / 3.0 && View() == Hatchling
    {
      y := CanvasHeight / 2.0;
      velocity := 0.0;
      rotation := 0.0;
    }

    /** A jump replaces the velocity; it does not add to it. */
    method Jump()
      modifies this
      ensures velocity == JumpForce && y == old(y) && rotation == old(rotation)
      ensures View() == Jumped(old(View()))
    {
      velocity := jumpForce;
    }

    method Update()
      modifies this
      ensures View() == Fall(old(View()))
    {
      velocity := velocity + gravity;
      y := y + velocity;
      rotation := Tilt(velocity);
      if y < 0.0 {
        y := 0.0;
        velocity := 0.0;
      }
      if y + height > CanvasHeight {
        y := CanvasHeight - height;
        velocity := 0.0;
      }
    }

    predicate CheckCollision(pipe: Pipe)
      reads this, pipe
    {
      HitsPipe(View(), pipe.View())
    }
  }
}
