/** Collectible power-ups: a 30 × 30 token of one of three kinds (static/js/powerup.js). */
module PowerUps {
  import opened Wrappers
  import opened Geometry
  import opened Birds

  /** The three kinds, which are also the three timed effects of the game. */
  datatype EffectType = Shield | Multiplier | SlowMotion

  const PowerUpSize: real := 30.0

  datatype PowerUpState = PowerUpState(x: real, y: real, speed: real, kind: EffectType, collected: bool)

  /** JavaScript truthiness of an optional number argument: `undefined`, `null` and 0 are falsy. */
  predicate Truthy(a: Option<real>)
  {
    a.Some? && a.value != 0.0
  }

  /** A power-up as the constructor builds it; `r` is the Math.random() draw used when `y` is falsy. */
  function NewPowerUp(speed: real, kind: EffectType, x: Option<real>, y: Option<real>, r: real): (u: PowerUpState)
    ensures !u.collected && u.speed == speed && u.kind == kind
    ensures Truthy(x) ==> u.x == x.value
    ensures !Truthy(x) ==> u.x == CanvasWidth
    ensures Truthy(y) ==> u.y == y.value
    ensures !Truthy(y) && 0.0 <= r < 1.0 ==> 100.0 <= u.y < CanvasHeight - 100.0
  {
    PowerUpState(if Truthy(x) then x.value else CanvasWidth,
                 if Truthy(y) then y.value else r * (CanvasHeight - 200.0) + 100.0,
                 speed, kind, false)
  }

  /** An explicit 0 is falsy, so it falls back like a missing argument. */
  lemma ZeroFallsBack(speed: real, kind: EffectType, y: Option<real>, r: real)
    ensures NewPowerUp(speed, kind, Some(0.0), y, r).x == NewPowerUp(speed, kind, None, y, r).x == CanvasWidth
  {
  }

  function PowerUpBox(u: PowerUpState): Box
  {
    Box(u.x, u.y, PowerUpSize, PowerUpSize)
  }

  function Moved(u: PowerUpState): PowerUpState
  {
    u.(x := u.x - u.speed)
  }

  predicate Offscreen(u: PowerUpState)
  {
    u.x + PowerUpSize < 0.0
  }

  /** A power-up moving left that is off-screen stays off-screen, whatever else it holds. */
  lemma OffscreenIsFinal(u: PowerUpState)
    requires Offscreen(u) && u.speed >= 0.0
    ensures Offscreen(Moved(u)) && Moved(u).y == u.y && Moved(u).collected == u.collected
  {
  }

  /** The bird picks the power-up up: never once collected, otherwise on strict box overlap. */
  predicate Touches(u: PowerUpState, b: BirdState)
  {
    if u.collected then false else Overlap(BirdBox(b), PowerUpBox(u))
  }

  /** Collected power-ups never collide again. */
  lemma CollectedNeverTouches(u: PowerUpState, b: BirdState)
    requires u.collected
    ensures !Touches(u, b)
  {
  }

  /** An uncollected power-up touches exactly when the two boxes overlap, in either order. */
  lemma TouchesIsOverlap(u: PowerUpState, b: BirdState)
    requires !u.collected
    ensures Touches(u, b) <==> Overlap(PowerUpBox(u), BirdBox(b))
  {
    OverlapSymmetric(PowerUpBox(u), BirdBox(b));
  }

  class PowerUp {
    const width: real := PowerUpSize
    const height: real := PowerUpSize
    const y: real
    const kind: EffectType
    var x: real
    var speed: real
    var collected: bool

    function View(): PowerUpState
      reads this
    {
      PowerUpState(x, y, speed, kind, collected)
    }

    constructor (speed: real, kind: EffectType, x: Option<real>, y: Option<real>, r: real)
      ensures View() == NewPowerUp(speed, kind, x, y, r)
    {
      this.x := if Truthy(x) then x.value else CanvasWidth;
      this.y := if Truthy(y) then y.value else r * (CanvasHeight - 200.0) + 100.0;
      this.speed := speed;
      this.kind := kind;
      collected := false;
    }

    method Update()
      modifies this
      ensures x == old(x) - old(speed)
      ensures speed == old(speed) && collected == old(collected)
      ensures View() == Moved(old(View()))
    {
      x := x - speed;
    }

    predicate IsOffscreen()
      reads this
    {
      Offscreen(View())
    }

    predicate CheckCollision(bird: Bird)
      reads this, bird
    {
      Touches(View(), bird.View())
    }
  }
}
