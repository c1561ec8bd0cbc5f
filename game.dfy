/** The Game class of static/js/game.js: the object that owns the bird, the background, the pipes
    and the power-ups and drives them frame by frame. Each method is proved to change the game
    exactly as the matching function of GameRules says. The browser's setTimeout queue is kept
    on the object as `pending` and `nextTimerId`. */
module Games {
  import opened Wrappers
  import opened Geometry
  import opened Pipes
  import opened Birds
  import opened PowerUps
  import opened Backgrounds
  import opened GameRules

  predicate Distinct<T(==)>(xs: seq<T>)
  {
    forall i, j :: 0 <= i < j < |xs| ==> xs[i] != xs[j]
  }

  function PipeViews(ps: seq<Pipe>): (vs: seq<PipeState>)
    reads ps
    ensures |vs| == |ps| && forall i :: 0 <= i < |ps| ==> vs[i] == ps[i].View()
  {
    seq(|ps|, i reads ps requires 0 <= i < |ps| => ps[i].View())
  }

  function PowerUpViews(us: seq<PowerUp>): (vs: seq<PowerUpState>)
    reads us
    ensures |vs| == |us| && forall i :: 0 <= i < |us| ==> vs[i] == us[i].View()
  {
    seq(|us|, i reads us requires 0 <= i < |us| => us[i].View())
  }

  /** pipes.filter(pipe => !pipe.isOffscreen()) on the objects themselves. */
  function KeptPipeObjects(ps: seq<Pipe>): (qs: seq<Pipe>)
    reads ps
    ensures forall q :: q in qs ==> q in ps
  {
    if ps == [] then [] else (if ps[0].IsOffscreen() then [] else [ps[0]]) + KeptPipeObjects(ps[1..])
  }

  /** Filtering the objects filters their states. */
  lemma {:induction false} KeptPipeObjectsMirror(ps: seq<Pipe>)
    ensures PipeViews(KeptPipeObjects(ps)) == KeptPipes(PipeViews(ps))
  {
    if ps != [] {
      var rest := KeptPipeObjects(ps[1..]);
      KeptPipeObjectsMirror(ps[1..]);
      assert PipeViews(ps)[1..] == PipeViews(ps[1..]);
      if !ps[0].IsOffscreen() {
        assert PipeViews([ps[0]] + rest) == [ps[0].View()] + PipeViews(rest);
      }
    }
  }

  /** Filtering keeps distinct objects distinct. */
  lemma {:induction false} KeptPipeObjectsDistinct(ps: seq<Pipe>)
    requires Distinct(ps)
    ensures Distinct(KeptPipeObjects(ps))
  {
    if ps != [] {
      var tail := ps[1..];
      assert Distinct(tail) by {
        forall i, j | 0 <= i < j < |tail|
          ensures tail[i] != tail[j]
        {
          assert tail[i] == ps[i + 1] && tail[j] == ps[j + 1];
        }
      }
      KeptPipeObjectsDistinct(tail);
      var rest := KeptPipeObjects(tail);
      if !ps[0].IsOffscreen() {
        assert ps[0] !in tail by {
          forall k | 0 <= k < |tail|
            ensures tail[k] != ps[0]
          {
            assert tail[k] == ps[k + 1];
          }
        }
        var qs := [ps[0]] + rest;
        forall i, j | 0 <= i < j < |qs|
          ensures qs[i] != qs[j]
        {
          assert qs[j] == rest[j - 1];
          if i > 0 {
            assert qs[i] == rest[i - 1];
          }
        }
      }
    }
  }

  /** powerUps.filter(powerUp => !powerUp.isOffscreen()) on the objects themselves. */
  function KeptPowerUpObjects(us: seq<PowerUp>): (ws: seq<PowerUp>)
    reads us
    ensures forall w :: w in ws ==> w in us
  {
    if us == [] then [] else (if us[0].IsOffscreen() then [] else [us[0]]) + KeptPowerUpObjects(us[1..])
  }

  /** Filtering the objects filters their states. */
  lemma {:induction false} KeptPowerUpObjectsMirror(us: seq<PowerUp>)
    ensures PowerUpViews(KeptPowerUpObjects(us)) == KeptPowerUps(PowerUpViews(us))
  {
    if us != [] {
      var rest := KeptPowerUpObjects(us[1..]);
      KeptPowerUpObjectsMirror(us[1..]);
      assert PowerUpViews(us)[1..] == PowerUpViews(us[1..]);
      if !us[0].IsOffscreen() {
        assert PowerUpViews([us[0]] + rest) == [us[0].View()] + PowerUpViews(rest);
      }
    }
  }

  /** Filtering keeps distinct objects distinct. */
  lemma {:induction false} KeptPowerUpObjectsDistinct(us: seq<PowerUp>)
    requires Distinct(us)
    ensures Distinct(KeptPowerUpObjects(us))
  {
    if us != [] {
      var tail := us[1..];
      assert Distinct(tail) by {
        forall i, j | 0 <= i < j < |tail|
          ensures tail[i] != tail[j]
        {
          assert tail[i] == us[i + 1] && tail[j] == us[j + 1];
        }
      }
      KeptPowerUpObjectsDistinct(tail);
      var rest := KeptPowerUpObjects(tail);
      if !us[0].IsOffscreen() {
        assert us[0] !in tail by {
          forall k | 0 <= k < |tail|
            ensures tail[k] != us[0]
          {
            assert tail[k] == us[k + 1];
          }
        }
        var qs := [us[0]] + rest;
        forall i, j | 0 <= i < j < |qs|
          ensures qs[i] != qs[j]
        {
          assert qs[j] == rest[j - 1];
          if i > 0 {
            assert qs[i] == rest[i - 1];
          }
        }
      }
    }
  }

  class Game {
    const themeUpdateInterval: real := ThemeUpdateInterval
    const powerUpSpawnInterval: real := PowerUpSpawnInterval
    const minScoreForPowerUps: int := MinScoreForPowerUps
    var background: Background
    var bird: Bird
    var pipes: seq<Pipe>
    var powerUps: seq<PowerUp>
    var gameStarted: bool
    var gameOver: bool
    var score: int
    var highScore: int
    var lastTime: real
    var lastThemeUpdate: real
    var pipeSpawnInterval: real
    var lastPipeSpawn: real
    var lastPowerUpSpawn: real
    var gameSpeed: real
    var activeEffects: Effects
    var effectTimers: map<EffectType, nat>
    /** The browser's scheduled callbacks by id, and the next id it will hand out. */
    var pending: map<nat, Timer>
    var nextTimerId: nat

    function Snapshot(): GameState
      reads this, bird, background, pipes, powerUps
    {
      GameState(gameStarted, gameOver, score, highScore, lastTime, lastThemeUpdate,
                bird.View(), PipeViews(pipes), PowerUpViews(powerUps),
                pipeSpawnInterval, lastPipeSpawn, lastPowerUpSpawn, gameSpeed,
                activeEffects, effectTimers, pending, nextTimerId, background.View())
    }

    predicate Valid()
      reads this, bird, background, pipes, powerUps
    {
      Distinct(pipes) && Distinct(powerUps) && Inv(Snapshot())
    }

    /** `stored` is the parsed localStorage entry (None when missing or not a number);
        `width` × `height` is the canvas size the background sees when it is built, before the
        canvas is resized; `cloudDraws` and `d` are the random draws of initClouds and of the
        first frame. */
    constructor (stored: Option<int>, width: real, height: real, cloudDraws: seq<CloudDraw>, d: FrameDraws)
      requires stored.Some? ==> stored.value >= 0
      requires width >= 0.0 && height >= 0.0 && |cloudDraws| == 5 && UnitDraws(d, 5)
      ensures Valid()
      ensures Snapshot() == Booted(if stored.Some? then stored.value else 0,
                                   seq(5, i requires 0 <= i < 5 => NewCloud(width, height, cloudDraws[i])), d)
    {
      background := new Background(width, height, cloudDraws);
      gameStarted := false;
      gameOver := false;
      score := 0;
      highScore := if stored.Some? then stored.value else 0;
      lastThemeUpdate := 0.0;
      bird := new Bird();
      pipes := [];
      powerUps := [];
      pipeSpawnInterval := InitialPipeSpawnInterval;
      lastPipeSpawn := 0.0;
      lastPowerUpSpawn := 0.0;
      gameSpeed := BaseSpeed;
      activeEffects := NoEffects;
      effectTimers := map[];
      pending := map[];
      nextTimerId := 1;
      lastTime := 0.0;
      new;
      Animate(0.0, d);
      UpdateScoreDisplay();
    }

    // ------------------------------------------------------------ the browser's timers

    method SetTimeout(callback: Timer) returns (id: nat)
      modifies this
      ensures bird == old(bird) && background == old(background) && pipes == old(pipes) && powerUps == old(powerUps)
      ensures id == old(nextTimerId) && nextTimerId == id + 1
      ensures pending == old(pending)[id := callback]
      ensures Snapshot() == old(Snapshot()).(pending := pending, nextTimerId := nextTimerId)
    {
      id := nextTimerId;
      pending := pending[id := callback];
      nextTimerId := nextTimerId + 1;
    }

    method ClearTimeout(id: nat)
      modifies this
      ensures bird == old(bird) && background == old(background) && pipes == old(pipes) && powerUps == old(powerUps)
      ensures pending == old(pending) - {id}
      ensures Snapshot() == old(Snapshot()).(pending := pending)
    {
      pending := pending - {id};
    }

    // ------------------------------------------------------------ input and score

    method HandleInput()
      requires Valid()
      modifies this, bird
      ensures Valid() && Snapshot() == Input(old(Snapshot()))
    {
      InputKeepsInv(Snapshot());
      if !gameStarted {
        StartGame();
      } else if !gameOver {
        bird.Jump();
      }
    }

    method StartGame()
      modifies this
      ensures bird == old(bird) && background == old(background) && pipes == old(pipes) && powerUps == old(powerUps)
      ensures Snapshot() == old(Snapshot()).(gameStarted := true)
    {
      gameStarted := true;
    }

    method Restart()
      requires Valid()
      modifies this
      ensures Valid() && Snapshot() == Restarted(old(Snapshot()))
      ensures fresh(bird)
    {
      ghost var s0 := Snapshot();
      RestartKeepsInv(s0);
      bird := new Bird();
      assert Snapshot() == s0.(bird := Hatchling);
      ResetRound();
      UpdateScoreDisplay();
    }

    /** The fields restart() puts back, other than the bird. */
    method ResetRound()
      modifies this
      ensures Snapshot() == old(Snapshot()).(pipes := [], powerUps := [], score := 0,
                                             gameOver := false, gameStarted := true,
                                             lastPipeSpawn := 0.0, lastPowerUpSpawn := 0.0, gameSpeed := BaseSpeed,
                                             activeEffects := NoEffects, effectTimers := map[])
      ensures bird == old(bird) && background == old(background) && pipes == [] && powerUps == []
    {
      ClearObjects();
      ResetScore();
      ResetSpawning();
      ClearEffects();
    }

    /** No pipes and no power-ups. */
    method ClearObjects()
      modifies this
      ensures Snapshot() == old(Snapshot()).(pipes := [], powerUps := [])
      ensures bird == old(bird) && background == old(background) && pipes == [] && powerUps == []
    {
      pipes := [];
      powerUps := [];
      assert PipeViews(pipes) == [] && PowerUpViews(powerUps) == [];
    }

    /** No score, and the round running. */
    method ResetScore()
      modifies this
      ensures Snapshot() == old(Snapshot()).(score := 0, gameOver := false, gameStarted := true)
      ensures bird == old(bird) && background == old(background) && pipes == old(pipes) && powerUps == old(powerUps)
    {
      score := 0;
      gameOver := false;
      gameStarted := true;
    }

    /** Spawn clocks back to 0 and the base speed. */
    method ResetSpawning()
      modifies this
      ensures Snapshot() == old(Snapshot()).(lastPipeSpawn := 0.0, lastPowerUpSpawn := 0.0, gameSpeed := BaseSpeed)
      ensures bird == old(bird) && background == old(background) && pipes == old(pipes) && powerUps == old(powerUps)
    {
      lastPipeSpawn := 0.0;
      lastPowerUpSpawn := 0.0;
      gameSpeed := BaseSpeed;
    }

    /** No effect on and no effect timer held; the browser's queue is left as it is. */
    method ClearEffects()
      modifies this
      ensures Snapshot() == old(Snapshot()).(activeEffects := NoEffects, effectTimers := map[])
      ensures bird == old(bird) && background == old(background) && pipes == old(pipes) && powerUps == old(powerUps)
    {
      activeEffects := NoEffects;
      effectTimers := map[];
    }

    method UpdateScoreDisplay()
      modifies this
      ensures bird == old(bird) && background == old(background) && pipes == old(pipes) && powerUps == old(powerUps)
      ensures Snapshot() == ScoreShown(old(Snapshot()))
    {
      if score > highScore {
        highScore := score;
      }
    }

    // ------------------------------------------------------------ spawning

    method SpawnPipe(r: real)
      requires Valid() && IsUnit(r)
      modifies this
      ensures Valid() && Snapshot() == WithPipe(old(Snapshot()), r)
      ensures bird == old(bird) && background == old(background) && powerUps == old(powerUps)
      ensures forall i :: 0 <= i < |pipes| ==> pipes[i] in old(pipes) || fresh(pipes[i])
    {
      if |pipes| > 0 && pipes[|pipes| - 1].x > CanvasWidth - PipeSpacing {
        return;
      }
      var pipe := new Pipe(gameSpeed, r);
      pipes := pipes + [pipe];
      assert PipeViews(pipes) == old(PipeViews(pipes)) + [NewPipe(gameSpeed, r)];
    }

    method SpawnPowerUp(kind: real, fallbackY: real)
      requires Valid() && IsUnit(kind)
      modifies this
      ensures Valid() && Snapshot() == WithPowerUp(old(Snapshot()), kind, fallbackY)
      ensures bird == old(bird) && background == old(background) && pipes == old(pipes)
      ensures forall i :: 0 <= i < |powerUps| ==> powerUps[i] in old(powerUps) || fresh(powerUps[i])
    {
      if score < minScoreForPowerUps {
        return;
      }
      match FirstSafe(PipeViews(pipes))
      case None =>
      case Some(i) =>
        var safePipe := pipes[i];
        var types := [Shield, Multiplier, SlowMotion];
        var randomType := types[(kind * 3.0).Floor];
        assert randomType == KindFor(kind);
        var powerUpY := safePipe.gapStart + safePipe.gapHeight / 2.0;
        var powerUp := new PowerUp(gameSpeed, randomType, Some(CanvasWidth), Some(powerUpY), fallbackY);
        AddPowerUp(powerUp);
    }

    /** this.powerUps.push(powerUp) */
    method AddPowerUp(powerUp: PowerUp)
      requires Distinct(powerUps) && powerUp !in powerUps
      modifies this
      ensures Snapshot() == old(Snapshot()).(powerUps := old(Snapshot()).powerUps + [powerUp.View()])
      ensures powerUps == old(powerUps) + [powerUp] && Distinct(powerUps)
      ensures bird == old(bird) && background == old(background) && pipes == old(pipes)
    {
      powerUps := powerUps + [powerUp];
      assert PowerUpViews(powerUps) == old(PowerUpViews(powerUps)) + [powerUp.View()];
    }

    // ------------------------------------------------------------ effects

    method SetPipeSpeeds(v: real)
      requires Distinct(pipes)
      modifies pipes
      ensures Snapshot() == old(Snapshot()).(pipes := PipesAtSpeed(old(Snapshot().pipes), v))
    {
      var i := 0;
      while i < |pipes|
        invariant 0 <= i <= |pipes|
        invariant forall j :: 0 <= j < i ==> pipes[j].View() == old(pipes[j].View()).(speed := v)
        invariant forall j :: i <= j < |pipes| ==> pipes[j].View() == old(pipes[j].View())
      {
        pipes[i].speed := v;
        i := i + 1;
      }
    }

    method SetPowerUpSpeeds(v: real)
      requires Distinct(powerUps)
      modifies powerUps
      ensures Snapshot() == old(Snapshot()).(powerUps := PowerUpsAtSpeed(old(Snapshot().powerUps), v))
    {
      var i := 0;
      while i < |powerUps|
        invariant 0 <= i <= |powerUps|
        invariant forall j :: 0 <= j < i ==> powerUps[j].View() == old(powerUps[j].View()).(speed := v)
        invariant forall j :: i <= j < |powerUps| ==> powerUps[j].View() == old(powerUps[j].View())
      {
        powerUps[i].speed := v;
        i := i + 1;
      }
    }

    method ActivatePowerUp(t: EffectType)
      requires Distinct(pipes) && Distinct(powerUps)
      modifies this, pipes, powerUps
      ensures Snapshot() == Activated(old(Snapshot()), t)
      ensures bird == old(bird) && background == old(background) && pipes == old(pipes) && powerUps == old(powerUps)
    {
      SetEffect(t, true);
      CancelExpiry(t);
      match t
      case Shield =>
        ScheduleExpiry(t, ShieldOff);
      case Multiplier =>
        ScheduleExpiry(t, MultiplierOff);
      case SlowMotion =>
        SlowDown();
    }

    /** The slow-motion case: half speed and twice the interval now, and a callback that puts
        back the values it replaced. */
    method SlowDown()
      requires Distinct(pipes) && Distinct(powerUps)
      modifies this, pipes, powerUps
      ensures Snapshot() == Scheduled(AtSpeed(old(Snapshot()), old(gameSpeed) * 0.5, old(pipeSpawnInterval) * 2.0),
                                      SlowMotion, SlowMotionOff(old(gameSpeed), old(pipeSpawnInterval)))
      ensures bird == old(bird) && background == old(background) && pipes == old(pipes) && powerUps == old(powerUps)
    {
      var originalSpeed := gameSpeed;
      var originalInterval := pipeSpawnInterval;
      ApplySpeed(gameSpeed * 0.5, pipeSpawnInterval * 2.0);
      ScheduleExpiry(SlowMotion, SlowMotionOff(originalSpeed, originalInterval));
    }

    /** if (effectTimers[t]) clearTimeout(effectTimers[t]) */
    method CancelExpiry(t: EffectType)
      modifies this
      ensures Snapshot() == Cancelled(old(Snapshot()), t)
      ensures gameSpeed == old(gameSpeed) && pipeSpawnInterval == old(pipeSpawnInterval)
      ensures bird == old(bird) && background == old(background) && pipes == old(pipes) && powerUps == old(powerUps)
    {
      if t in effectTimers {
        ClearTimeout(effectTimers[t]);
      }
    }

    /** effectTimers[t] = setTimeout(callback, ...) */
    method ScheduleExpiry(t: EffectType, callback: Timer)
      modifies this
      ensures Snapshot() == Scheduled(old(Snapshot()), t, callback)
      ensures bird == old(bird) && background == old(background) && pipes == old(pipes) && powerUps == old(powerUps)
    {
      var id := SetTimeout(callback);
      effectTimers := effectTimers[t := id];
    }

    /** activeEffects[t] = on: the switch of an activation, and the whole of a shield or
        multiplier callback. */
    method SetEffect(t: EffectType, on: bool)
      modifies this
      ensures Snapshot() == old(Snapshot()).(activeEffects := old(activeEffects).With(t, on))
      ensures gameSpeed == old(gameSpeed) && pipeSpawnInterval == old(pipeSpawnInterval)
      ensures bird == old(bird) && background == old(background) && pipes == old(pipes) && powerUps == old(powerUps)
    {
      activeEffects := activeEffects.With(t, on);
    }

    /** Set the speed of the game and of every pipe and power-up on screen, and the spawn
        interval: what slow motion does on activation and its callback undoes. */
    method ApplySpeed(speed: real, interval: real)
      requires Distinct(pipes) && Distinct(powerUps)
      modifies this, pipes, powerUps
      ensures Snapshot() == AtSpeed(old(Snapshot()), speed, interval)
      ensures bird == old(bird) && background == old(background) && pipes == old(pipes) && powerUps == old(powerUps)
    {
      ghost var s0 := Snapshot();
      gameSpeed := speed;
      pipeSpawnInterval := interval;
      ghost var s1 := Snapshot();
      assert s1 == s0.(gameSpeed := speed, pipeSpawnInterval := interval);
      SetPipeSpeeds(gameSpeed);
      ghost var s2 := Snapshot();
      assert s2 == s1.(pipes := PipesAtSpeed(s0.pipes, speed));
      SetPowerUpSpeeds(gameSpeed);
      assert Snapshot() == s2.(powerUps := PowerUpsAtSpeed(s0.powerUps, speed));
    }

    /** The browser runs the callback scheduled under `id`, if it is still pending. */
    method FireTimer(id: nat)
      requires Valid()
      modifies this, pipes, powerUps
      ensures Snapshot() == Fired(old(Snapshot()), id)
      ensures Valid()
    {
      ghost var s0 := Snapshot();
      FiredKeepsInv(s0, id);
      if id !in pending {
        return;
      }
      var callback := pending[id];
      ClearTimeout(id);
      match callback
      case ShieldOff =>
        SetEffect(Shield, false);
      case MultiplierOff =>
        SetEffect(Multiplier, false);
      case SlowMotionOff(originalSpeed, originalInterval) =>
        SetEffect(SlowMotion, false);
        ApplySpeed(originalSpeed, originalInterval);
    }

    // ------------------------------------------------------------ a frame

    /** The body of the pipes.forEach loop in updateAndDrawPipes, for the i-th pipe. */
    method UpdatePipe(i: nat)
      requires i < |pipes| && Distinct(pipes)
      modifies this, pipes[i]
      ensures Snapshot() == PipeStep(old(Snapshot()), i)
      ensures bird == old(bird) && background == old(background) && pipes == old(pipes) && powerUps == old(powerUps)
    {
      MovePipe(i);
      var pipe := pipes[i];
      if bird.CheckCollision(pipe) && !activeEffects.shield {
        gameOver := true;
      }
    }

    /** Move the i-th pipe and award it if the bird has just gone beyond it. */
    method MovePipe(i: nat)
      requires i < |pipes| && Distinct(pipes)
      modifies this, pipes[i]
      ensures Snapshot() == PipeMoved(old(Snapshot()), i)
      ensures bird == old(bird) && background == old(background) && pipes == old(pipes) && powerUps == old(powerUps)
    {
      ghost var s0 := Snapshot();
      ghost var m := Pipes.Moved(s0.pipes[i]);
      ShiftPipe(i);
      ghost var s1 := Snapshot();
      assert s1.pipes[i] == m && s1.pipes[i := m.(passed := true)] == s0.pipes[i := m.(passed := true)];
      var pipe := pipes[i];
      if !pipe.passed && bird.x > pipe.x + pipe.width {
        AwardPipe(i);
      }
    }

    /** pipe.update() for the i-th pipe. */
    method ShiftPipe(i: nat)
      requires i < |pipes| && Distinct(pipes)
      modifies pipes[i]
      ensures Snapshot() == old(Snapshot()).(pipes := old(Snapshot()).pipes[i := Pipes.Moved(old(Snapshot()).pipes[i])])
    {
      ghost var s0 := Snapshot();
      pipes[i].Update();
      assert PipeViews(pipes) == s0.pipes[i := Pipes.Moved(s0.pipes[i])];
    }

    /** The i-th pipe is passed: mark it and add its points to the score. */
    method AwardPipe(i: nat)
      requires i < |pipes| && Distinct(pipes)
      modifies this, pipes[i]
      ensures var s0 := old(Snapshot());
              Snapshot() == ScoreShown(s0.(pipes := s0.pipes[i := s0.pipes[i].(passed := true)],
                                           score := s0.score + Points(s0.activeEffects)))
      ensures bird == old(bird) && background == old(background) && pipes == old(pipes) && powerUps == old(powerUps)
    {
      ghost var s0 := Snapshot();
      var pipe := pipes[i];
      pipe.passed := true;
      var points := if activeEffects.multiplier then 2 else 1;
      score := score + points;
      assert PipeViews(pipes) == s0.pipes[i := s0.pipes[i].(passed := true)];
      UpdateScoreDisplay();
    }

    method UpdateAndDrawPipes()
      requires Valid() && gameStarted
      modifies this, pipes
      ensures Snapshot() == PipesAdvanced(old(Snapshot()))
      ensures Valid() && bird == old(bird) && background == old(background) && powerUps == old(powerUps)
      ensures forall i :: 0 <= i < |pipes| ==> pipes[i] in old(pipes)
    {
      ghost var s0 := Snapshot();
      FilterPipes();
      SweepPipes();
      PipeSweepIsPipesAdvanced(s0);
      PipesAdvancedKeepsInv(s0);
    }

    /** this.pipes = this.pipes.filter(pipe => !pipe.isOffscreen()) */
    method FilterPipes()
      requires Distinct(pipes)
      modifies this
      ensures Snapshot() == old(Snapshot()).(pipes := KeptPipes(old(Snapshot()).pipes))
      ensures Distinct(pipes) && bird == old(bird) && background == old(background) && powerUps == old(powerUps)
      ensures forall i :: 0 <= i < |pipes| ==> pipes[i] in old(pipes)
    {
      KeptPipeObjectsMirror(pipes);
      KeptPipeObjectsDistinct(pipes);
      pipes := KeptPipeObjects(pipes);
    }

    /** pipes.forEach(...) over the pipes that are left. */
    method SweepPipes()
      requires Distinct(pipes)
      modifies this, pipes
      ensures Snapshot() == PipeSweep(old(Snapshot()), 0)
      ensures bird == old(bird) && background == old(background) && pipes == old(pipes) && powerUps == old(powerUps)
    {
      var i := 0;
      while i < |pipes|
        invariant 0 <= i <= |pipes| == |Snapshot().pipes|
        invariant pipes == old(pipes) && bird == old(bird) && background == old(background) && powerUps == old(powerUps)
        invariant PipeSweep(Snapshot(), i) == PipeSweep(old(Snapshot()), 0)
      {
        UpdatePipe(i);
        i := i + 1;
      }
    }

    /** The body of the powerUps.forEach loop in updateAndDrawPowerUps, for the i-th power-up. */
    method CollectPowerUp(i: nat)
      requires i < |powerUps| && Distinct(pipes) && Distinct(powerUps)
      modifies this, pipes, powerUps
      ensures Snapshot() == CollectAt(old(Snapshot()), i)
      ensures bird == old(bird) && background == old(background) && pipes == old(pipes) && powerUps == old(powerUps)
    {
      MovePowerUp(i);
      var powerUp := powerUps[i];
      if !powerUp.collected && powerUp.CheckCollision(bird) {
        MarkCollected(i);
        ActivatePowerUp(powerUp.kind);
      }
    }

    /** powerUp.collected = true for the i-th power-up. */
    method MarkCollected(i: nat)
      requires i < |powerUps| && Distinct(powerUps)
      modifies powerUps[i]
      ensures Snapshot() == old(Snapshot()).(powerUps := old(Snapshot()).powerUps[i := old(Snapshot()).powerUps[i].(collected := true)])
      ensures powerUps[i].kind == old(powerUps[i].kind)
    {
      ghost var s0 := Snapshot();
      powerUps[i].collected := true;
      assert PowerUpViews(powerUps) == s0.powerUps[i := s0.powerUps[i].(collected := true)];
    }

    method MovePowerUp(i: nat)
      requires i < |powerUps| && Distinct(powerUps)
      modifies powerUps[i]
      ensures Snapshot() == PowerUpMoved(old(Snapshot()), i)
    {
      ghost var s0 := Snapshot();
      powerUps[i].Update();
      assert PowerUpViews(powerUps) == s0.powerUps[i := PowerUps.Moved(s0.powerUps[i])];
    }

    method UpdateAndDrawPowerUps()
      requires Valid()
      modifies this, pipes, powerUps
      ensures Snapshot() == PowerUpsAdvanced(old(Snapshot()))
      ensures Valid() && bird == old(bird) && background == old(background) && pipes == old(pipes)
      ensures forall i :: 0 <= i < |powerUps| ==> powerUps[i] in old(powerUps)
    {
      ghost var s0 := Snapshot();
      FilterPowerUps();
      SweepPowerUps();
      PowerUpsAdvancedKeepsInv(s0);
    }

    /** this.powerUps = this.powerUps.filter(powerUp => !powerUp.isOffscreen()) */
    method FilterPowerUps()
      requires Distinct(powerUps)
      modifies this
      ensures Snapshot() == old(Snapshot()).(powerUps := KeptPowerUps(old(Snapshot()).powerUps))
      ensures Distinct(powerUps) && bird == old(bird) && background == old(background) && pipes == old(pipes)
      ensures forall i :: 0 <= i < |powerUps| ==> powerUps[i] in old(powerUps)
    {
      KeptPowerUpObjectsMirror(powerUps);
      KeptPowerUpObjectsDistinct(powerUps);
      powerUps := KeptPowerUpObjects(powerUps);
    }

    /** powerUps.forEach(...) over the power-ups that are left. */
    method SweepPowerUps()
      requires Distinct(pipes) && Distinct(powerUps)
      modifies this, pipes, powerUps
      ensures Snapshot() == CollectFrom(old(Snapshot()), 0)
      ensures bird == old(bird) && background == old(background) && pipes == old(pipes) && powerUps == old(powerUps)
    {
      var i := 0;
      while i < |powerUps|
        invariant 0 <= i <= |powerUps| == |Snapshot().powerUps|
        invariant pipes == old(pipes) && bird == old(bird) && background == old(background) && powerUps == old(powerUps)
        invariant CollectFrom(Snapshot(), i) == CollectFrom(old(Snapshot()), 0)
      {
        CollectPowerUp(i);
        i := i + 1;
      }
    }

    /** animate(currentTime): one frame of the requestAnimationFrame loop. */
    method Animate(currentTime: real, d: FrameDraws)
      requires Valid() && DrawsFit(Snapshot(), d)
      modifies this, bird, background, pipes, powerUps
      ensures Snapshot() == Animated(old(Snapshot()), currentTime, d)
      ensures Valid()
    {
      ghost var s0 := Snapshot();
      FrameKeepsInv(s0, currentTime, d);
      RunThemeClock(currentTime);
      if gameStarted && !gameOver {
        Play(currentTime, d);
      } else if !gameStarted {
        AdvanceScenery(d.cloudY);
      }
    }

    /** The frame clock and the 30-second theme check at the head of animate. */
    method RunThemeClock(currentTime: real)
      requires Valid()
      modifies this, background
      ensures Snapshot() == ThemeClock(old(Snapshot()).(lastTime := currentTime), currentTime)
      ensures Valid() && bird == old(bird) && background == old(background) && pipes == old(pipes) && powerUps == old(powerUps)
    {
      lastTime := currentTime;
      UpdateThemeIfDue(currentTime);
    }

    /** Every themeUpdateInterval milliseconds the background starts fading to the next theme. */
    method UpdateThemeIfDue(currentTime: real)
      requires Valid()
      modifies this, background
      ensures Snapshot() == ThemeClock(old(Snapshot()), currentTime)
      ensures Valid() && bird == old(bird) && background == old(background) && pipes == old(pipes) && powerUps == old(powerUps)
    {
      if currentTime - lastThemeUpdate > themeUpdateInterval {
        StartTransitionKeepsValid(background.View().theme, NextTheme(background.View().theme.current));
        background.UpdateTheme();
        lastThemeUpdate := currentTime;
      }
    }

    /** background.update(): the theme fade and the clouds, on a running or a title frame. */
    method AdvanceScenery(rs: seq<real>)
      requires Valid() && |rs| == |background.clouds|
      modifies background
      ensures Snapshot() == old(Snapshot()).(background := Advanced(old(Snapshot()).background, rs))
      ensures Valid()
    {
      TickKeepsValid(background.View().theme);
      background.Update(rs);
    }

    /** The ground check at the end of a running frame. */
    method CheckGround()
      modifies this
      ensures Snapshot() == Grounded(old(Snapshot()))
      ensures bird == old(bird) && background == old(background) && pipes == old(pipes) && powerUps == old(powerUps)
    {
      if bird.y + bird.height >= CanvasHeight && !activeEffects.shield {
        gameOver := true;
      }
    }

    /** The running branch of animate, after the theme clock. */
    method Play(currentTime: real, d: FrameDraws)
      requires Valid() && DrawsFit(Snapshot(), d) && gameStarted
      modifies this, bird, background, pipes, powerUps
      ensures Snapshot() == Played(old(Snapshot()), currentTime, d)
      ensures Distinct(pipes) && Distinct(powerUps)
    {
      AdvanceScenery(d.cloudY);
      SpawnDue(currentTime, d);
      assert forall i :: 0 <= i < |pipes| ==> pipes[i] in old(pipes) || fresh(pipes[i]);
      assert forall i :: 0 <= i < |powerUps| ==> powerUps[i] in old(powerUps) || fresh(powerUps[i]);
      MoveObjects();
      UpdateBird();
      CheckGround();
    }

    /** updateAndDrawPipes() then updateAndDrawPowerUps(). */
    method MoveObjects()
      requires Valid() && gameStarted
      modifies this, pipes, powerUps
      ensures Snapshot() == PowerUpsAdvanced(PipesAdvanced(old(Snapshot())))
      ensures Distinct(pipes) && Distinct(powerUps) && bird == old(bird) && background == old(background)
    {
      UpdateAndDrawPipes();
      assert forall i :: 0 <= i < |pipes| ==> pipes[i] in old(pipes);
      UpdateAndDrawPowerUps();
    }

    /** bird.update() inside the running frame. */
    method UpdateBird()
      modifies bird
      ensures Snapshot() == old(Snapshot()).(bird := Fall(old(Snapshot()).bird))
      ensures bird == old(bird) && background == old(background) && pipes == old(pipes) && powerUps == old(powerUps)
    {
      bird.Update();
    }

    /** The two spawn checks of a running frame. */
    method SpawnDue(currentTime: real, d: FrameDraws)
      requires Valid() && IsUnit(d.pipeGap) && IsUnit(d.powerUpKind)
      modifies this
      ensures Snapshot() == Spawned(old(Snapshot()), currentTime, d)
      ensures Valid() && bird == old(bird) && background == old(background)
      ensures forall i :: 0 <= i < |pipes| ==> pipes[i] in old(pipes) || fresh(pipes[i])
      ensures forall i :: 0 <= i < |powerUps| ==> powerUps[i] in old(powerUps) || fresh(powerUps[i])
    {
      SpawnPipeIfDue(currentTime, d.pipeGap);
      SpawnPowerUpIfDue(currentTime, d.powerUpKind, d.powerUpY);
    }

    /** Spawn pipes with the interval adjusted for slow motion. */
    method SpawnPipeIfDue(currentTime: real, r: real)
      requires Valid() && IsUnit(r)
      modifies this
      ensures Snapshot() == PipeSpawnDue(old(Snapshot()), currentTime, r)
      ensures Valid() && bird == old(bird) && background == old(background) && powerUps == old(powerUps)
      ensures forall i :: 0 <= i < |pipes| ==> pipes[i] in old(pipes) || fresh(pipes[i])
    {
      var currentInterval := if activeEffects.slowMotion then pipeSpawnInterval * 2.0 else pipeSpawnInterval;
      if currentTime - lastPipeSpawn > currentInterval {
        SpawnPipe(r);
        ghost var s1 := Snapshot();
        lastPipeSpawn := currentTime;
        assert Snapshot() == s1.(lastPipeSpawn := currentTime);
      }
    }

    /** Spawn a power-up every powerUpSpawnInterval milliseconds. */
    method SpawnPowerUpIfDue(currentTime: real, kind: real, fallbackY: real)
      requires Valid() && IsUnit(kind)
      modifies this
      ensures Snapshot() == PowerUpSpawnDue(old(Snapshot()), currentTime, kind, fallbackY)
      ensures Valid() && bird == old(bird) && background == old(background) && pipes == old(pipes)
      ensures forall i :: 0 <= i < |powerUps| ==> powerUps[i] in old(powerUps) || fresh(powerUps[i])
    {
      if currentTime - lastPowerUpSpawn > powerUpSpawnInterval {
        SpawnPowerUp(kind, fallbackY);
        ghost var s1 := Snapshot();
        lastPowerUpSpawn := currentTime;
        assert Snapshot() == s1.(lastPowerUpSpawn := currentTime);
      }
    }
  }
}
