/** The game's rules on plain values: one function per operation of the Game class in
    static/js/game.js, and the properties those operations promise. The class in game.dfy is
    proved to follow these functions. */
module GameRules {
  import opened Wrappers
  import opened Geometry
  import opened Pipes
  import opened Birds
  import opened PowerUps
  import opened Backgrounds

  const ThemeUpdateInterval: real := 30000.0
  const PowerUpSpawnInterval: real := 15000.0
  const MinScoreForPowerUps: int := 5
  const InitialPipeSpawnInterval: real := 2000.0
  const BaseSpeed: real := 3.0
  /** A new pipe waits until the last one is this far in from the right edge. */
  const PipeSpacing: real := 200.0

  /** The three timed effects and whether each is on. */
  datatype Effects = Effects(shield: bool, multiplier: bool, slowMotion: bool)
  {
    function Active(t: EffectType): bool
    {
      match t
      case Shield => shield
      case Multiplier => multiplier
      case SlowMotion => slowMotion
    }

    function With(t: EffectType, on: bool): (e: Effects)
      ensures e.Active(t) == on
      ensures forall u :: u != t ==> e.Active(u) == Active(u)
    {
      match t
      case Shield => this.(shield := on)
      case Multiplier => this.(multiplier := on)
      case SlowMotion => this.(slowMotion := on)
    }
  }

  const NoEffects: Effects := Effects(false, false, false)

  /** The callback of a pending setTimeout: switch an effect off, and for slow motion put back
      the speed and spawn interval captured when it was switched on. */
  datatype Timer = ShieldOff | MultiplierOff | SlowMotionOff(originalSpeed: real, originalInterval: real)

  /** The delay, in milliseconds, each callback is scheduled with. */
  function Delay(t: Timer): int
  {
    match t
    case ShieldOff => 5000
    case MultiplierOff => 8000
    case SlowMotionOff(_, _) => 6000
  }

  datatype Phase = NotStarted | Running | GameOver

  /** Everything the game keeps between events. `pending` and `nextTimerId` are the browser's
      queue of scheduled callbacks and its id counter; `effectTimers` is the game's own record of
      the id it last scheduled per effect. */
  datatype GameState = GameState(
    gameStarted: bool, gameOver: bool, score: int, highScore: int,
    lastTime: real, lastThemeUpdate: real,
    bird: BirdState, pipes: seq<PipeState>, powerUps: seq<PowerUpState>,
    pipeSpawnInterval: real, lastPipeSpawn: real, lastPowerUpSpawn: real, gameSpeed: real,
    activeEffects: Effects, effectTimers: map<EffectType, nat>,
    pending: map<nat, Timer>, nextTimerId: nat,
    background: BackgroundState)

  function PhaseOf(s: GameState): Phase
  {
    if !s.gameStarted then NotStarted else if s.gameOver then GameOver else Running
  }

  /** The Math.random() draws one frame may use: the gap of a new pipe, the kind of a new
      power-up, the fallback height of a power-up (unused while its height is truthy), and one
      height per cloud that re-enters the sky. */
  datatype FrameDraws = FrameDraws(pipeGap: real, powerUpKind: real, powerUpY: real, cloudY: seq<real>)

  predicate IsUnit(r: real)
  {
    0.0 <= r < 1.0
  }

  /** Every draw lies in [0, 1), and there is one cloud draw for each of `clouds` clouds. */
  predicate UnitDraws(d: FrameDraws, clouds: nat)
  {
    IsUnit(d.pipeGap) && IsUnit(d.powerUpKind) && IsUnit(d.powerUpY) &&
    |d.cloudY| == clouds && forall i :: 0 <= i < |d.cloudY| ==> IsUnit(d.cloudY[i])
  }

  predicate DrawsFit(s: GameState, d: FrameDraws)
  {
    UnitDraws(d, |s.background.clouds|)
  }

  /** What every reachable state satisfies. */
  predicate Inv(s: GameState)
  {
    (s.gameOver ==> s.gameStarted) &&
    0 <= s.score <= s.highScore &&
    0.0 <= s.bird.y <= Floor &&
    ThemeValid(s.background.theme) && |s.background.clouds| == 5 &&
    (forall i :: 0 <= i < |s.pipes| ==> GapInsideCanvas(s.pipes[i])) &&
    TimersKnown(s)
  }

  /** Every id the game or the browser holds was handed out by the browser's counter. */
  predicate TimersKnown(s: GameState)
  {
    (forall id :: id in s.pending ==> id < s.nextTimerId) &&
    (forall t :: t in s.effectTimers ==> s.effectTimers[t] < s.nextTimerId)
  }

  // ---------------------------------------------------------------- construction

  /** The fields as the constructor sets them, before its first frame. */
  function Fresh(highScore: int, clouds: seq<Cloud>): GameState
  {
    GameState(false, false, 0, highScore, 0.0, 0.0, Hatchling, [], [],
              InitialPipeSpawnInterval, 0.0, 0.0, BaseSpeed, NoEffects, map[], map[], 1,
              BackgroundState(Dawn, clouds))
  }

  // ---------------------------------------------------------------- score

  function Max(a: int, b: int): int { if a < b then b else a }

  /** updateScoreDisplay: the high score catches up with the score, and nothing else changes. */
  function ScoreShown(s: GameState): (r: GameState)
    ensures r.highScore == Max(s.highScore, s.score)
    ensures r == s.(highScore := r.highScore)
  {
    if s.score > s.highScore then s.(highScore := s.score) else s
  }

  // ---------------------------------------------------------------- input

  /** handleInput: the first input starts the game, later ones jump until the game is over. */
  function Input(s: GameState): GameState
  {
    if !s.gameStarted then s.(gameStarted := true)
    else if !s.gameOver then s.(bird := Jumped(s.bird))
    else s
  }

  /** Input before the start only starts the game (no jump); while running it sets the velocity
      to the jump force and nothing else; after game over it changes nothing. */
  lemma InputByPhase(s: GameState)
    requires Inv(s)
    ensures PhaseOf(s) == NotStarted ==> Input(s) == s.(gameStarted := true) && PhaseOf(Input(s)) == Running
    ensures PhaseOf(s) == Running ==>
              Input(s) == s.(bird := s.bird.(velocity := JumpForce)) && PhaseOf(Input(s)) == Running
    ensures PhaseOf(s) == GameOver ==> Input(s) == s
  {
  }

  // ---------------------------------------------------------------- restart

  /** restart: a new bird and an empty field at base speed with no effects; the high score, the
      spawn interval and the browser's pending callbacks are left as they are. */
  function Restarted(s: GameState): GameState
  {
    ScoreShown(s.(bird := Hatchling, pipes := [], powerUps := [], score := 0,
                  gameOver := false, gameStarted := true,
                  lastPipeSpawn := 0.0, lastPowerUpSpawn := 0.0, gameSpeed := BaseSpeed,
                  activeEffects := NoEffects, effectTimers := map[]))
  }

  lemma RestartResets(s: GameState)
    requires Inv(s)
    ensures var r := Restarted(s);
            r.score == 0 && r.pipes == [] && r.powerUps == [] &&
            !r.gameOver && r.gameStarted && PhaseOf(r) == Running &&
            r.gameSpeed == BaseSpeed && r.lastPipeSpawn == 0.0 && r.lastPowerUpSpawn == 0.0 &&
            r.activeEffects == NoEffects && r.effectTimers == map[] && r.bird == Hatchling &&
            r.highScore == s.highScore && r.pipeSpawnInterval == s.pipeSpawnInterval &&
            r.pending == s.pending && r.background == s.background
  {
  }

  // ---------------------------------------------------------------- spawning

  function Last<T>(xs: seq<T>): T
    requires |xs| > 0
  {
    xs[|xs| - 1]
  }

  /** spawnPipe: declined while the last pipe is within 200 units of the right edge. */
  function WithPipe(s: GameState, gap: real): (r: GameState)
    ensures r == s <==> |s.pipes| > 0 && Last(s.pipes).x > CanvasWidth - PipeSpacing
    ensures r != s ==> r == s.(pipes := s.pipes + [NewPipe(s.gameSpeed, gap)])
  {
    if |s.pipes| > 0 && Last(s.pipes).x > CanvasWidth - PipeSpacing then s
    else s.(pipes := s.pipes + [NewPipe(s.gameSpeed, gap)])
  }

  /** Only the last pipe decides: pipes before it may be anywhere. */
  lemma SpawnGuardReadsLastPipeOnly(s: GameState, earlier: seq<PipeState>, gap: real)
    requires |s.pipes| > 0
    ensures var t := s.(pipes := earlier + [Last(s.pipes)]);
            (WithPipe(s, gap) == s) <==> (WithPipe(t, gap) == t)
  {
  }

  /** A pipe is in the slot where a power-up may appear: the third quarter of the canvas. */
  predicate InSafeSlot(p: PipeState)
  {
    p.x > CanvasWidth / 2.0 && p.x < CanvasWidth * 0.75
  }

  /** pipes.find(...): the index of the first pipe in the slot, if any. */
  function FirstSafe(ps: seq<PipeState>): (k: Option<nat>)
    ensures k.Some? ==> k.value < |ps| && InSafeSlot(ps[k.value])
    ensures k.Some? ==> forall j :: 0 <= j < k.value ==> !InSafeSlot(ps[j])
    ensures k.None? ==> forall j :: 0 <= j < |ps| ==> !InSafeSlot(ps[j])
  {
    if ps == [] then None
    else if InSafeSlot(ps[0]) then Some(0)
    else match FirstSafe(ps[1..])
      case Some(i) => Some(i + 1)
      case None => None
  }

  /** types[Math.floor(Math.random() * types.length)] for types = [shield, multiplier, slowMotion]. */
  function KindFor(r: real): (k: EffectType)
    requires IsUnit(r)
    ensures k == Shield <==> r * 3.0 < 1.0
    ensures k == SlowMotion <==> r * 3.0 >= 2.0
  {
    var i := (r * 3.0).Floor;
    if i == 0 then Shield else if i == 1 then Multiplier else SlowMotion
  }

  /** spawnPowerUp: from a score of 5 on, put a power-up of a random kind at the right edge, level
      with the middle of the gap of the first pipe in the slot; otherwise do nothing. */
  function WithPowerUp(s: GameState, kind: real, fallbackY: real): (r: GameState)
    requires IsUnit(kind)
    ensures s.score < MinScoreForPowerUps || FirstSafe(s.pipes).None? ==> r == s
    ensures s.score >= MinScoreForPowerUps && FirstSafe(s.pipes).Some? ==>
              var p := s.pipes[FirstSafe(s.pipes).value];
              r == s.(powerUps := s.powerUps + [NewPowerUp(s.gameSpeed, KindFor(kind), Some(CanvasWidth),
                                                           Some(p.gapStart + GapHeight / 2.0), fallbackY)])
  {
    if s.score < MinScoreForPowerUps then s
    else match FirstSafe(s.pipes)
      case None => s
      case Some(i) =>
        var powerUpY := s.pipes[i].gapStart + GapHeight / 2.0;
        s.(powerUps := s.powerUps + [NewPowerUp(s.gameSpeed, KindFor(kind), Some(CanvasWidth), Some(powerUpY), fallbackY)])
  }

  /** In a reachable state a new power-up sits at the right edge in the middle of a gap, which is
      inside the canvas, so neither position falls back to a random one. */
  lemma PowerUpSitsInGap(s: GameState, kind: real, fallbackY: real)
    requires Inv(s) && IsUnit(kind)
    requires s.score >= MinScoreForPowerUps && FirstSafe(s.pipes).Some?
    ensures var r := WithPowerUp(s, kind, fallbackY);
            var p := s.pipes[FirstSafe(s.pipes).value];
            var u := Last(r.powerUps);
            |r.powerUps| == |s.powerUps| + 1 && r.powerUps[..|s.powerUps|] == s.powerUps &&
            u.x == CanvasWidth && u.y == p.gapStart + GapHeight / 2.0 && !u.collected &&
            p.gapStart < u.y && u.y + PowerUpSize < p.gapStart + GapHeight && u.y < CanvasHeight - 50.0
  {
    var r := WithPowerUp(s, kind, fallbackY);
    assert r.powerUps[..|s.powerUps|] == s.powerUps;
  }

  /** No power-up appears before the score reaches 5, however much time passes. */
  lemma NoPowerUpBelowMinimumScore(s: GameState, kind: real, fallbackY: real)
    requires IsUnit(kind) && s.score < MinScoreForPowerUps
    ensures WithPowerUp(s, kind, fallbackY) == s
  {
  }

  // ---------------------------------------------------------------- effects and timers

  function PipesAtSpeed(ps: seq<PipeState>, v: real): (qs: seq<PipeState>)
    ensures |qs| == |ps|
    ensures forall i :: 0 <= i < |ps| ==> qs[i] == ps[i].(speed := v)
  {
    seq(|ps|, i requires 0 <= i < |ps| => ps[i].(speed := v))
  }

  function PowerUpsAtSpeed(us: seq<PowerUpState>, v: real): (ws: seq<PowerUpState>)
    ensures |ws| == |us|
    ensures forall i :: 0 <= i < |us| ==> ws[i] == us[i].(speed := v)
  {
    seq(|us|, i requires 0 <= i < |us| => us[i].(speed := v))
  }

  /** The game and everything on screen at speed `v`, new pipes every `interval` ms. */
  function AtSpeed(s: GameState, v: real, interval: real): GameState
  {
    s.(gameSpeed := v, pipeSpawnInterval := interval,
       pipes := PipesAtSpeed(s.pipes, v), powerUps := PowerUpsAtSpeed(s.powerUps, v))
  }

  /** clearTimeout of the callback last scheduled for `t`, if the game recorded one. */
  function Cancelled(s: GameState, t: EffectType): GameState
  {
    if t in s.effectTimers then s.(pending := s.pending - {s.effectTimers[t]}) else s
  }

  /** setTimeout(callback) under the browser's next id, recorded as the timer of `t`. */
  function Scheduled(s: GameState, t: EffectType, callback: Timer): GameState
  {
    s.(pending := s.pending[s.nextTimerId := callback], nextTimerId := s.nextTimerId + 1,
       effectTimers := s.effectTimers[t := s.nextTimerId])
  }

  /** activatePowerUp: switch the effect on, cancel the callback last scheduled for it, and
      schedule a new one; slow motion also halves the speed of the game and of everything on
      screen and doubles the spawn interval, capturing the values it replaces. */
  function Activated(s: GameState, t: EffectType): GameState
  {
    var s1 := Cancelled(s.(activeEffects := s.activeEffects.With(t, true)), t);
    match t
    case Shield => Scheduled(s1, t, ShieldOff)
    case Multiplier => Scheduled(s1, t, MultiplierOff)
    case SlowMotion =>
      Scheduled(AtSpeed(s1, s.gameSpeed * 0.5, s.pipeSpawnInterval * 2.0), t,
                SlowMotionOff(s.gameSpeed, s.pipeSpawnInterval))
  }

  /** The callback the browser holds under `id`, if any, runs once and is dropped. */
  function Fired(s: GameState, id: nat): GameState
  {
    if id !in s.pending then s
    else
      var s1 := s.(pending := s.pending - {id});
      match s.pending[id]
      case ShieldOff => s1.(activeEffects := s.activeEffects.With(Shield, false))
      case MultiplierOff => s1.(activeEffects := s.activeEffects.With(Multiplier, false))
      case SlowMotionOff(speed, interval) =>
        AtSpeed(s1.(activeEffects := s.activeEffects.With(SlowMotion, false)), speed, interval)
  }

  /** Activation turns the effect on, leaves the others alone, drops the callback it had
      scheduled before for that effect and schedules exactly one new one, with the effect's delay. */
  lemma ActivationSchedulesOneExpiry(s: GameState, t: EffectType)
    requires Inv(s)
    ensures var r := Activated(s, t);
            var id := r.effectTimers[t];
            r.activeEffects.Active(t) &&
            (forall u :: u != t ==> r.activeEffects.Active(u) == s.activeEffects.Active(u)) &&
            id == s.nextTimerId && id !in s.pending && id in r.pending &&
            Delay(r.pending[id]) == (match t case Shield => 5000 case Multiplier => 8000 case SlowMotion => 6000) &&
            (t in s.effectTimers ==> s.effectTimers[t] !in r.pending) &&
            (forall j :: j in s.pending && j != id && !(t in s.effectTimers && j == s.effectTimers[t]) ==>
               j in r.pending && r.pending[j] == s.pending[j]) &&
            r.score == s.score && r.gameOver == s.gameOver && r.bird == s.bird
  {
  }

  /** Slow motion halves the speed, doubles the interval, applies the new speed to every pipe
      and power-up already on screen, and its callback holds the values it replaced. */
  lemma SlowMotionIsRetroactive(s: GameState)
    ensures var r := Activated(s, SlowMotion);
            r.gameSpeed == s.gameSpeed / 2.0 && r.pipeSpawnInterval == 2.0 * s.pipeSpawnInterval &&
            |r.pipes| == |s.pipes| && |r.powerUps| == |s.powerUps| &&
            (forall i :: 0 <= i < |s.pipes| ==> r.pipes[i] == s.pipes[i].(speed := r.gameSpeed)) &&
            (forall i :: 0 <= i < |s.powerUps| ==> r.powerUps[i] == s.powerUps[i].(speed := r.gameSpeed)) &&
            r.pending[r.effectTimers[SlowMotion]] == SlowMotionOff(s.gameSpeed, s.pipeSpawnInterval)
  {
  }

  /** Whatever happened in between, the slow-motion callback puts back exactly the speed and
      interval it captured, on the game and on every entity then on screen. */
  lemma SlowMotionExpiryRestores(s: GameState, id: nat, speed: real, interval: real)
    requires id in s.pending && s.pending[id] == SlowMotionOff(speed, interval)
    ensures var r := Fired(s, id);
            r.gameSpeed == speed && r.pipeSpawnInterval == interval && !r.activeEffects.slowMotion &&
            (forall i :: 0 <= i < |r.pipes| ==> r.pipes[i].speed == speed) &&
            (forall i :: 0 <= i < |r.powerUps| ==> r.powerUps[i].speed == speed) &&
            id !in r.pending && r.score == s.score
  {
  }

  /** A slow motion collected and left to expire restores the game exactly. */
  lemma SlowMotionRoundTrip(s: GameState)
    requires Inv(s)
    ensures var a := Activated(s, SlowMotion);
            var r := Fired(a, a.effectTimers[SlowMotion]);
            r.gameSpeed == s.gameSpeed && r.pipeSpawnInterval == s.pipeSpawnInterval &&
            !r.activeEffects.slowMotion
  {
  }

  /** Collecting slow motion while it is on halves the speed again, and the new callback captures
      the already-halved speed and doubled interval. */
  lemma SlowMotionTwiceCapturesHalved(s: GameState)
    requires Inv(s)
    ensures var a := Activated(Activated(s, SlowMotion), SlowMotion);
            a.gameSpeed == s.gameSpeed / 4.0 && a.pipeSpawnInterval == 4.0 * s.pipeSpawnInterval &&
            a.pending[a.effectTimers[SlowMotion]] == SlowMotionOff(s.gameSpeed / 2.0, 2.0 * s.pipeSpawnInterval) &&
            Activated(s, SlowMotion).effectTimers[SlowMotion] !in a.pending
  {
  }

  /** restart forgets which callbacks it scheduled without cancelling them, so a shield collected
      after a restart is switched off by the callback of a shield from before it. */
  lemma StaleShieldCallbackSurvivesRestart(s: GameState)
    requires Inv(s)
    ensures var before := Activated(s, Shield);
            var old_id := before.effectTimers[Shield];
            var after := Activated(Restarted(before), Shield);
            old_id in after.pending && after.activeEffects.shield &&
            !Fired(after, old_id).activeEffects.shield
  {
  }

  // ---------------------------------------------------------------- pipes in a frame

  function Points(e: Effects): int
  {
    if e.multiplier then 2 else 1
  }

  /** pipes.filter(pipe => !pipe.isOffscreen()) */
  function KeptPipes(ps: seq<PipeState>): (qs: seq<PipeState>)
    ensures |qs| <= |ps|
    ensures forall i :: 0 <= i < |qs| ==> qs[i] in ps && !Pipes.Offscreen(qs[i])
    ensures forall p :: p in ps && !Pipes.Offscreen(p) ==> p in qs
  {
    if ps == [] then [] else (if Pipes.Offscreen(ps[0]) then [] else [ps[0]]) + KeptPipes(ps[1..])
  }

  /** The bird's x has gone beyond the pipe's trailing edge, and the pipe had not yet scored. */
  predicate Scores(p: PipeState)
  {
    var m := Pipes.Moved(p);
    !m.passed && BirdX > m.x + PipeWidth
  }

  /** One pipe in updateAndDrawPipes: move, then mark it passed when the bird is beyond it. */
  function Advance(p: PipeState): PipeState
  {
    var m := Pipes.Moved(p);
    if !m.passed && BirdX > m.x + PipeWidth then m.(passed := true) else m
  }

  function AdvanceAll(ps: seq<PipeState>): (qs: seq<PipeState>)
    ensures |qs| == |ps| && forall i :: 0 <= i < |ps| ==> qs[i] == Advance(ps[i])
  {
    seq(|ps|, i requires 0 <= i < |ps| => Advance(ps[i]))
  }

  /** How many pipes of `ps` score this frame. */
  function Scorers(ps: seq<PipeState>): nat
  {
    if ps == [] then 0 else Scorers(ps[..|ps| - 1]) + (if Scores(Last(ps)) then 1 else 0)
  }

  /** Some pipe, once moved, is hit by the bird. */
  predicate AnyHit(b: BirdState, ps: seq<PipeState>)
  {
    exists i :: 0 <= i < |ps| && HitsPipe(b, Pipes.Moved(ps[i]))
  }

  /** updateAndDrawPipes: drop off-screen pipes, move the rest, award each newly passed pipe,
      and end the game on a hit unless the shield is on. */
  function PipesAdvanced(s: GameState): GameState
  {
    var kept := KeptPipes(s.pipes);
    var n := Scorers(kept);
    var score := s.score + n * Points(s.activeEffects);
    s.(pipes := AdvanceAll(kept), score := score,
       highScore := if n > 0 && score > s.highScore then score else s.highScore,
       gameOver := s.gameOver || (!s.activeEffects.shield && AnyHit(s.bird, kept)))
  }

  /** The passed flag only ever goes from false to true, and goes true exactly on a scoring move. */
  lemma PassedOnlyRises(p: PipeState)
    ensures p.passed ==> Advance(p).passed && !Scores(p)
    ensures !p.passed ==> (Advance(p).passed <==> Scores(p))
    ensures Scores(p) ==> !Scores(Advance(p))
  {
  }

  /** The number of pipes whose passed flag went from false to true between two lists. */
  function Flips(before: seq<PipeState>, after: seq<PipeState>): nat
    requires |before| == |after|
  {
    if before == [] then 0
    else Flips(before[..|before| - 1], after[..|after| - 1]) +
         (if !Last(before).passed && Last(after).passed then 1 else 0)
  }

  /** The pipes that score are exactly those whose flag flips. */
  lemma {:induction false} ScorersAreFlips(ps: seq<PipeState>)
    ensures Scorers(ps) == Flips(ps, AdvanceAll(ps))
  {
    if ps != [] {
      var front := ps[..|ps| - 1];
      assert AdvanceAll(ps)[..|ps| - 1] == AdvanceAll(front);
      ScorersAreFlips(front);
      PassedOnlyRises(Last(ps));
    }
  }

  /** A frame raises the score by the points for each pipe whose flag flips, 2 under the
      multiplier and 1 otherwise; a pipe already passed adds nothing ever again. */
  lemma PipeScoresExactlyOnce(s: GameState)
    ensures var kept := KeptPipes(s.pipes);
            var r := PipesAdvanced(s);
            r.score == s.score + Points(s.activeEffects) * Flips(kept, r.pipes) &&
            (forall i :: 0 <= i < |kept| ==> (kept[i].passed ==> r.pipes[i].passed))
  {
    ScorersAreFlips(KeptPipes(s.pipes));
  }

  /** Pipes are filtered before they move: a pipe that leaves the screen during a frame is still
      listed after it and goes at the next frame. */
  lemma LeavingPipeGoesNextFrame(s: GameState, i: nat)
    requires i < |KeptPipes(s.pipes)| && Pipes.Offscreen(Pipes.Moved(KeptPipes(s.pipes)[i]))
    ensures var p := KeptPipes(s.pipes)[i];
            var r := PipesAdvanced(s);
            !Pipes.Offscreen(p) && i < |r.pipes| && r.pipes[i] == Advance(p) &&
            Pipes.Offscreen(r.pipes[i]) && r.pipes[i] !in KeptPipes(r.pipes) &&
            |PipesAdvanced(r).pipes| < |r.pipes|
  {
    var r := PipesAdvanced(s);
    KeptPipesDrops(r.pipes, i);
  }

  /** filter keeps the order and every copy: it distributes over concatenation. */
  lemma {:induction false} KeptPipesIsFilter(a: seq<PipeState>, b: seq<PipeState>)
    ensures KeptPipes(a + b) == KeptPipes(a) + KeptPipes(b)
    decreases |a|
  {
    if a == [] {
      assert a + b == b;
    } else {
      var head := if Pipes.Offscreen(a[0]) then [] else [a[0]];
      assert (a + b)[0] == a[0] && (a + b)[1..] == a[1..] + b;
      KeptPipesIsFilter(a[1..], b);
      calc {
        KeptPipes(a + b);
        head + KeptPipes(a[1..] + b);
        head + (KeptPipes(a[1..]) + KeptPipes(b));
        { assert head + (KeptPipes(a[1..]) + KeptPipes(b)) == (head + KeptPipes(a[1..])) + KeptPipes(b); }
        (head + KeptPipes(a[1..])) + KeptPipes(b);
        KeptPipes(a) + KeptPipes(b);
      }
    }
  }
  /** A single pipe is kept exactly when it is not off-screen. */
  lemma KeptPipesSingle(x: PipeState)
    ensures KeptPipes([x]) == (if Pipes.Offscreen(x) then [] else [x])
  {
    assert [x][1..] == [];
  }


  /** An off-screen pipe in the list makes the filtered list shorter. */
  lemma KeptPipesDrops(ps: seq<PipeState>, i: nat)
    requires i < |ps| && Pipes.Offscreen(ps[i])
    ensures |KeptPipes(ps)| < |ps|
  {
    assert ps == ps[..i] + ([ps[i]] + ps[i + 1..]);
    KeptPipesIsFilter(ps[..i], [ps[i]] + ps[i + 1..]);
    KeptPipesIsFilter([ps[i]], ps[i + 1..]);
  }

  /** The body of the pipes.forEach loop for the i-th pipe: move it; if the bird is beyond it
      for the first time, mark it passed, award the points and show the score; then end the
      game on a hit unless the shield is on. */
  function PipeStep(s: GameState, i: nat): (r: GameState)
    requires i < |s.pipes|
    ensures |r.pipes| == |s.pipes|
  {
    var s1 := PipeMoved(s, i);
    if HitsPipe(s1.bird, s1.pipes[i]) && !s1.activeEffects.shield then s1.(gameOver := true) else s1
  }

  /** The first half of that body: the move and the pass check. */
  function PipeMoved(s: GameState, i: nat): (r: GameState)
    requires i < |s.pipes|
    ensures |r.pipes| == |s.pipes|
  {
    var m := Pipes.Moved(s.pipes[i]);
    if !m.passed && BirdX > m.x + PipeWidth then
      ScoreShown(s.(pipes := s.pipes[i := m.(passed := true)], score := s.score + Points(s.activeEffects)))
    else s.(pipes := s.pipes[i := m])
  }

  /** The loop from the i-th pipe to the end. */
  function PipeSweep(s: GameState, i: nat): GameState
    requires i <= |s.pipes|
    decreases |s.pipes| - i
  {
    if i == |s.pipes| then s else PipeSweep(PipeStep(s, i), i + 1)
  }

  /** A hit depends on where the pipe is, not on whether it has scored. */
  lemma HitIgnoresPassed(b: BirdState, p: PipeState)
    ensures HitsPipe(b, Advance(p)) == HitsPipe(b, Pipes.Moved(p))
  {
  }

  lemma AnyHitExtends(b: BirdState, ps: seq<PipeState>, i: nat)
    requires i < |ps|
    ensures AnyHit(b, ps[..i + 1]) <==> AnyHit(b, ps[..i]) || HitsPipe(b, Pipes.Moved(ps[i]))
  {
    if AnyHit(b, ps[..i + 1]) {
      var j :| 0 <= j < i + 1 && HitsPipe(b, Pipes.Moved(ps[..i + 1][j]));
      if j < i {
        assert ps[..i][j] == ps[j];
      }
    }
    if AnyHit(b, ps[..i]) {
      var j :| 0 <= j < i && HitsPipe(b, Pipes.Moved(ps[..i][j]));
      assert ps[..i + 1][j] == ps[j];
    }
    if HitsPipe(b, Pipes.Moved(ps[i])) {
      assert ps[..i + 1][i] == ps[i];
    }
  }

  lemma ScorersExtend(ps: seq<PipeState>, i: nat)
    requires i < |ps|
    ensures Scorers(ps[..i + 1]) == Scorers(ps[..i]) + (if Scores(ps[i]) then 1 else 0)
  {
    assert ps[..i + 1][..i] == ps[..i];
  }

  /** Where the loop stands after the first i of the kept pipes `kept`, started from `s`. */
  function SweptPrefix(s: GameState, kept: seq<PipeState>, i: nat): GameState
    requires i <= |kept|
  {
    var n := Scorers(kept[..i]);
    var score := s.score + n * Points(s.activeEffects);
    s.(pipes := AdvanceAll(kept[..i]) + kept[i..], score := score,
       highScore := if n > 0 && score > s.highScore then score else s.highScore,
       gameOver := s.gameOver || (!s.activeEffects.shield && AnyHit(s.bird, kept[..i])))
  }

  lemma SweepStep(s: GameState, kept: seq<PipeState>, i: nat)
    requires i < |kept|
    ensures PipeStep(SweptPrefix(s, kept, i), i) == SweptPrefix(s, kept, i + 1)
  {
    var t := SweptPrefix(s, kept, i);
    var n := Scorers(kept[..i]);
    ScorersExtend(kept, i);
    AnyHitExtends(s.bird, kept, i);
    HitIgnoresPassed(s.bird, kept[i]);
    assert t.pipes[i] == kept[i];
    assert t.pipes[i := Advance(kept[i])] == AdvanceAll(kept[..i + 1]) + kept[i + 1..];
    assert (n + 1) * Points(s.activeEffects) == n * Points(s.activeEffects) + Points(s.activeEffects);
  }

  lemma {:induction false} SweepRest(s: GameState, kept: seq<PipeState>, i: nat)
    requires i <= |kept|
    ensures PipeSweep(SweptPrefix(s, kept, i), i) == SweptPrefix(s, kept, |kept|)
    decreases |kept| - i
  {
    if i < |kept| {
      SweepStep(s, kept, i);
      SweepRest(s, kept, i + 1);
    }
  }

  /** Running the loop pipe by pipe gives the closed form: the score rises by the points of every
      pipe that scores, the high score follows it, and any unshielded hit ends the game. */
  lemma PipeSweepIsPipesAdvanced(s: GameState)
    ensures PipeSweep(s.(pipes := KeptPipes(s.pipes)), 0) == PipesAdvanced(s)
  {
    var kept := KeptPipes(s.pipes);
    SweptNothing(s, kept);
    SweepRest(s, kept, 0);
    SweptEverything(s);
  }

  lemma SweptNothing(s: GameState, kept: seq<PipeState>)
    ensures SweptPrefix(s, kept, 0) == s.(pipes := kept)
  {
    assert kept[..0] == [] && kept[0..] == kept;
    assert AdvanceAll(kept[..0]) + kept[0..] == kept;
    assert !AnyHit(s.bird, kept[..0]);
  }

  lemma SweptEverything(s: GameState)
    ensures var kept := KeptPipes(s.pipes);
            SweptPrefix(s, kept, |kept|) == PipesAdvanced(s)
  {
    var kept := KeptPipes(s.pipes);
    assert kept[..|kept|] == kept;
    assert AdvanceAll(kept[..|kept|]) + kept[|kept|..] == AdvanceAll(kept);
  }

  /** With the shield on no pipe ends the game; without it, any hit does. */
  lemma PipeHitsObeyShield(s: GameState)
    ensures s.activeEffects.shield ==> PipesAdvanced(s).gameOver == s.gameOver
    ensures !s.activeEffects.shield && AnyHit(s.bird, KeptPipes(s.pipes)) ==> PipesAdvanced(s).gameOver
  {
  }

  // ---------------------------------------------------------------- power-ups in a frame

  /** powerUps.filter(powerUp => !powerUp.isOffscreen()) */
  function KeptPowerUps(us: seq<PowerUpState>): (ws: seq<PowerUpState>)
    ensures |ws| <= |us|
    ensures forall i :: 0 <= i < |ws| ==> ws[i] in us && !PowerUps.Offscreen(ws[i])
    ensures forall u :: u in us && !PowerUps.Offscreen(u) ==> u in ws
  {
    if us == [] then [] else (if PowerUps.Offscreen(us[0]) then [] else [us[0]]) + KeptPowerUps(us[1..])
  }

  /** filter keeps the order and every copy: it distributes over concatenation. */
  lemma {:induction false} KeptPowerUpsIsFilter(a: seq<PowerUpState>, b: seq<PowerUpState>)
    ensures KeptPowerUps(a + b) == KeptPowerUps(a) + KeptPowerUps(b)
    decreases |a|
  {
    if a == [] {
      assert a + b == b;
    } else {
      var head := if PowerUps.Offscreen(a[0]) then [] else [a[0]];
      assert (a + b)[0] == a[0] && (a + b)[1..] == a[1..] + b;
      KeptPowerUpsIsFilter(a[1..], b);
      calc {
        KeptPowerUps(a + b);
        head + KeptPowerUps(a[1..] + b);
        head + (KeptPowerUps(a[1..]) + KeptPowerUps(b));
        { assert head + (KeptPowerUps(a[1..]) + KeptPowerUps(b)) == (head + KeptPowerUps(a[1..])) + KeptPowerUps(b); }
        (head + KeptPowerUps(a[1..])) + KeptPowerUps(b);
        KeptPowerUps(a) + KeptPowerUps(b);
      }
    }
  }
  /** A single power-up is kept exactly when it is not off-screen. */
  lemma KeptPowerUpsSingle(x: PowerUpState)
    ensures KeptPowerUps([x]) == (if PowerUps.Offscreen(x) then [] else [x])
  {
    assert [x][1..] == [];
  }


  /** The i-th power-up in updateAndDrawPowerUps: move it, and on first contact collect it and
      switch its effect on. Activation may change the speed of every entity, including power-ups
      later in the same loop. */
  function CollectAt(s: GameState, i: nat): (r: GameState)
    requires i < |s.powerUps|
    ensures |r.powerUps| == |s.powerUps| && r.bird == s.bird
  {
    var s1 := PowerUpMoved(s, i);
    var u := s1.powerUps[i];
    if !u.collected && Touches(u, s1.bird) then
      Activated(s1.(powerUps := s1.powerUps[i := u.(collected := true)]), u.kind)
    else s1
  }

  function PowerUpMoved(s: GameState, i: nat): (r: GameState)
    requires i < |s.powerUps|
    ensures |r.powerUps| == |s.powerUps| && r.bird == s.bird
  {
    s.(powerUps := s.powerUps[i := PowerUps.Moved(s.powerUps[i])])
  }

  /** The loop from index i to the end. */
  function CollectFrom(s: GameState, i: nat): (r: GameState)
    requires i <= |s.powerUps|
    ensures |r.powerUps| == |s.powerUps|
    decreases |s.powerUps| - i
  {
    if i == |s.powerUps| then s else CollectFrom(CollectAt(s, i), i + 1)
  }

  /** Activation switches its effect on and leaves every power-up's collected flag as it is. */
  lemma ActivatedKeepsCollected(s: GameState, t: EffectType)
    ensures var r := Activated(s, t);
            r.activeEffects.Active(t) && |r.powerUps| == |s.powerUps| &&
            forall j :: 0 <= j < |s.powerUps| ==> r.powerUps[j].collected == s.powerUps[j].collected
  {
    var s1 := Cancelled(s.(activeEffects := s.activeEffects.With(t, true)), t);
    assert s1.powerUps == s.powerUps && s1.activeEffects.Active(t);
    if t == SlowMotion {
      assert AtSpeed(s1, s.gameSpeed * 0.5, s.pipeSpawnInterval * 2.0).powerUps ==
             PowerUpsAtSpeed(s.powerUps, s.gameSpeed * 0.5);
    }
  }

  /** One iteration of the power-up loop, on first contact: the moved power-up is marked
      collected and its effect is switched on. */
  lemma CollectAtCollects(s: GameState, i: nat)
    requires i < |s.powerUps|
    requires var u := PowerUps.Moved(s.powerUps[i]); !u.collected && Touches(u, s.bird)
    ensures CollectAt(s, i).powerUps[i].collected
    ensures CollectAt(s, i).activeEffects.Active(s.powerUps[i].kind)
  {
    var u := PowerUps.Moved(s.powerUps[i]);
    ActivatedKeepsCollected(s.(powerUps := s.powerUps[i := u.(collected := true)]), u.kind);
  }

  /** One iteration of the power-up loop without contact, or on a power-up already collected:
      only that power-up moves, so nothing is collected twice. */
  lemma CollectAtOnlyMoves(s: GameState, i: nat)
    requires i < |s.powerUps|
    requires var u := PowerUps.Moved(s.powerUps[i]); u.collected || !Touches(u, s.bird)
    ensures CollectAt(s, i) == s.(powerUps := s.powerUps[i := PowerUps.Moved(s.powerUps[i])])
  {
  }

  /** No iteration of the power-up loop clears a collected flag. */
  lemma CollectAtKeepsCollected(s: GameState, i: nat)
    requires i < |s.powerUps|
    ensures forall j :: 0 <= j < |s.powerUps| && s.powerUps[j].collected ==> CollectAt(s, i).powerUps[j].collected
  {
    var u := PowerUps.Moved(s.powerUps[i]);
    if !u.collected && Touches(u, s.bird) {
      ActivatedKeepsCollected(s.(powerUps := s.powerUps[i := u.(collected := true)]), u.kind);
    }
  }

  /** Across the rest of the loop no collected flag is cleared. */
  lemma {:induction false} CollectFromKeepsCollected(s: GameState, i: nat)
    requires i <= |s.powerUps|
    ensures forall j :: 0 <= j < |s.powerUps| && s.powerUps[j].collected ==> CollectFrom(s, i).powerUps[j].collected
    decreases |s.powerUps| - i
  {
    if i < |s.powerUps| {
      CollectAtKeepsCollected(s, i);
      CollectFromKeepsCollected(CollectAt(s, i), i + 1);
    }
  }

  function PowerUpsAdvanced(s: GameState): GameState
  {
    CollectFrom(s.(powerUps := KeptPowerUps(s.powerUps)), 0)
  }

  // ---------------------------------------------------------------- the frame

  /** Every 30 s of session time the sky aims for the next theme. */
  function ThemeClock(s: GameState, t: real): GameState
  {
    if t - s.lastThemeUpdate > ThemeUpdateInterval then
      s.(background := s.background.(theme := ScheduleNext(s.background.theme)), lastThemeUpdate := t)
    else s
  }

  /** The spawn interval the frame compares against: doubled again under slow motion. */
  function CurrentInterval(s: GameState): real
  {
    if s.activeEffects.slowMotion then s.pipeSpawnInterval * 2.0 else s.pipeSpawnInterval
  }

  /** The spawn checks of a running frame; each timestamp advances even when its spawn is declined. */
  function Spawned(s: GameState, t: real, d: FrameDraws): (r: GameState)
    requires IsUnit(d.powerUpKind)
    ensures t - s.lastPipeSpawn > CurrentInterval(s) ==> r.lastPipeSpawn == t
    ensures t - s.lastPipeSpawn <= CurrentInterval(s) ==> r.lastPipeSpawn == s.lastPipeSpawn && r.pipes == s.pipes
    ensures t - s.lastPowerUpSpawn > PowerUpSpawnInterval ==> r.lastPowerUpSpawn == t
    ensures t - s.lastPowerUpSpawn <= PowerUpSpawnInterval ==> r.lastPowerUpSpawn == s.lastPowerUpSpawn && r.powerUps == s.powerUps
  {
    PowerUpSpawnDue(PipeSpawnDue(s, t, d.pipeGap), t, d.powerUpKind, d.powerUpY)
  }

  /** The pipe half of the spawn checks. */
  function PipeSpawnDue(s: GameState, t: real, r: real): GameState
  {
    if t - s.lastPipeSpawn > CurrentInterval(s) then WithPipe(s, r).(lastPipeSpawn := t) else s
  }

  /** The power-up half of the spawn checks. */
  function PowerUpSpawnDue(s: GameState, t: real, kind: real, y: real): GameState
    requires IsUnit(kind)
  {
    if t - s.lastPowerUpSpawn > PowerUpSpawnInterval then WithPowerUp(s, kind, y).(lastPowerUpSpawn := t) else s
  }

  /** Ground check: the bird's bottom edge at the canvas bottom ends the game unless shielded. */
  function Grounded(s: GameState): (r: GameState)
    ensures r.gameOver <==> s.gameOver || (s.bird.y + BirdHeight >= CanvasHeight && !s.activeEffects.shield)
    ensures r == s.(gameOver := r.gameOver)
  {
    if s.bird.y + BirdHeight >= CanvasHeight && !s.activeEffects.shield then s.(gameOver := true) else s
  }

  /** The body of a running frame after the theme clock. */
  function Played(s: GameState, t: real, d: FrameDraws): GameState
    requires IsUnit(d.powerUpKind) && |d.cloudY| == |s.background.clouds|
  {
    var s1 := s.(background := Advanced(s.background, d.cloudY));
    var s2 := PowerUpsAdvanced(PipesAdvanced(Spawned(s1, t, d)));
    Grounded(s2.(bird := Fall(s2.bird)))
  }

  /** animate(currentTime) */
  function Animated(s: GameState, t: real, d: FrameDraws): GameState
    requires IsUnit(d.powerUpKind) && |d.cloudY| == |s.background.clouds|
  {
    var s1 := ThemeClock(s.(lastTime := t), t);
    if s1.gameStarted && !s1.gameOver then Played(s1, t, d)
    else if !s1.gameStarted then s1.(background := Advanced(s1.background, d.cloudY))
    else s1
  }

  /** The constructor: its fields, then one title-screen frame at time 0, then the score display. */
  function Booted(highScore: int, clouds: seq<Cloud>, d: FrameDraws): GameState
    requires IsUnit(d.powerUpKind) && |d.cloudY| == |clouds|
  {
    ScoreShown(Animated(Fresh(highScore, clouds), 0.0, d))
  }

  // ---------------------------------------------------------------- what a frame keeps

  /** What the power-up loop leaves alone or only adds to: it changes speeds, effects and
      timers, never positions, the score or the bird. */
  predicate Steady(s: GameState, r: GameState)
  {
    r.gameStarted == s.gameStarted && r.gameOver == s.gameOver && r.score == s.score &&
    r.highScore == s.highScore && r.bird == s.bird && r.background == s.background &&
    r.lastTime == s.lastTime && r.lastThemeUpdate == s.lastThemeUpdate &&
    r.lastPipeSpawn == s.lastPipeSpawn && r.lastPowerUpSpawn == s.lastPowerUpSpawn &&
    |r.pipes| == |s.pipes| && |r.powerUps| == |s.powerUps| &&
    (forall i :: 0 <= i < |s.pipes| ==> r.pipes[i] == s.pipes[i].(speed := r.pipes[i].speed)) &&
    (s.activeEffects.shield ==> r.activeEffects.shield) &&
    (TimersKnown(s) ==> TimersKnown(r))
  }

  lemma ActivatedSteady(s: GameState, t: EffectType)
    ensures Steady(s, Activated(s, t))
  {
  }

  lemma CollectAtSteady(s: GameState, i: nat)
    requires i < |s.powerUps|
    ensures Steady(s, CollectAt(s, i))
  {
    var s1 := PowerUpMoved(s, i);
    var u := s1.powerUps[i];
    assert Steady(s, s1);
    if !u.collected && Touches(u, s1.bird) {
      var s2 := s1.(powerUps := s1.powerUps[i := u.(collected := true)]);
      assert Steady(s, s2);
      ActivatedSteady(s2, u.kind);
      SteadyTransitive(s, s2, Activated(s2, u.kind));
    }
  }

  lemma SteadyTransitive(a: GameState, b: GameState, c: GameState)
    requires Steady(a, b) && Steady(b, c)
    ensures Steady(a, c)
  {
  }

  lemma {:induction false} CollectFromSteady(s: GameState, i: nat)
    requires i <= |s.powerUps|
    ensures Steady(s, CollectFrom(s, i))
    decreases |s.powerUps| - i
  {
    if i < |s.powerUps| {
      CollectAtSteady(s, i);
      CollectFromSteady(CollectAt(s, i), i + 1);
    }
  }

  // ---------------------------------------------------------------- invariant preservation

  lemma InputKeepsInv(s: GameState)
    requires Inv(s)
    ensures Inv(Input(s))
  {
  }

  lemma RestartKeepsInv(s: GameState)
    requires Inv(s)
    ensures Inv(Restarted(s))
  {
  }

  lemma ActivatedKeepsInv(s: GameState, t: EffectType)
    requires Inv(s)
    ensures Inv(Activated(s, t))
  {
  }

  lemma FiredKeepsInv(s: GameState, id: nat)
    requires Inv(s)
    ensures Inv(Fired(s, id))
  {
  }

  lemma SpawnedKeepsInv(s: GameState, t: real, d: FrameDraws)
    requires Inv(s) && IsUnit(d.pipeGap) && IsUnit(d.powerUpKind)
    ensures Inv(Spawned(s, t, d))
  {
    var s1 := PipeSpawnDue(s, t, d.pipeGap);
    assert Inv(s1);
    assert Inv(PowerUpSpawnDue(s1, t, d.powerUpKind, d.powerUpY));
  }

  /** A frame's pipes keep the invariant, and the high score tracks the score as it rises. */
  lemma PipesAdvancedKeepsInv(s: GameState)
    requires Inv(s) && s.gameStarted
    ensures var r := PipesAdvanced(s);
            Inv(r) && r.highScore == Max(s.highScore, r.score) && r.score >= s.score
  {
    var kept := KeptPipes(s.pipes);
    assert forall i :: 0 <= i < |kept| ==> GapInsideCanvas(kept[i]) by {
      forall i | 0 <= i < |kept|
        ensures GapInsideCanvas(kept[i])
      {
        var j :| 0 <= j < |s.pipes| && s.pipes[j] == kept[i];
      }
    }
  }

  lemma PowerUpsAdvancedKeepsInv(s: GameState)
    requires Inv(s)
    ensures Inv(PowerUpsAdvanced(s)) && Steady(s.(powerUps := KeptPowerUps(s.powerUps)), PowerUpsAdvanced(s))
  {
    CollectFromSteady(s.(powerUps := KeptPowerUps(s.powerUps)), 0);
  }

  lemma LandingKeepsInv(s: GameState)
    requires Inv(s) && s.gameStarted
    ensures Inv(Grounded(s.(bird := Fall(s.bird))))
  {
  }

  /** A running frame keeps the invariant, and the high score is the larger of the old high
      score and the new score. */
  lemma PlayedKeepsInv(s: GameState, t: real, d: FrameDraws)
    requires Inv(s) && DrawsFit(s, d) && s.gameStarted
    ensures var r := Played(s, t, d);
            Inv(r) && r.highScore == Max(s.highScore, r.score)
  {
    TickKeepsValid(s.background.theme);
    var a := s.(background := Advanced(s.background, d.cloudY));
    assert Inv(a);
    var b := Spawned(a, t, d);
    SpawnedKeepsInv(a, t, d);
    assert Inv(b) && b.gameStarted && b.score == s.score && b.highScore == s.highScore;
    var c := PipesAdvanced(b);
    PipesAdvancedKeepsInv(b);
    var e := PowerUpsAdvanced(c);
    PowerUpsAdvancedKeepsInv(c);
    assert Inv(e) && e.gameStarted && e.score == c.score && e.highScore == c.highScore;
    LandingKeepsInv(e);
    assert Played(s, t, d) == Grounded(e.(bird := Fall(e.bird)));
  }

  /** Every frame keeps the invariant, and the high score is the larger of the old high score and
      the new score. */
  lemma FrameKeepsInv(s: GameState, t: real, d: FrameDraws)
    requires Inv(s) && DrawsFit(s, d)
    ensures var r := Animated(s, t, d);
            Inv(r) && r.highScore == Max(s.highScore, r.score)
  {
    var s1 := ThemeClock(s.(lastTime := t), t);
    StartTransitionKeepsValid(s.background.theme, NextTheme(s.background.theme.current));
    assert Inv(s1);
    if s1.gameStarted && !s1.gameOver {
      PlayedKeepsInv(s1, t, d);
    } else if !s1.gameStarted {
      TickKeepsValid(s1.background.theme);
    }
  }

  /** The first frame of a new game leaves it in a state satisfying the invariant. */
  lemma BootedKeepsInv(highScore: int, clouds: seq<Cloud>, d: FrameDraws)
    requires highScore >= 0 && |clouds| == 5 && DrawsFit(Fresh(highScore, clouds), d)
    ensures Inv(Booted(highScore, clouds, d)) && PhaseOf(Booted(highScore, clouds, d)) == NotStarted
  {
    FrameKeepsInv(Fresh(highScore, clouds), 0.0, d);
  }

  // ---------------------------------------------------------------- frame properties

  /** After game over a frame only advances the clocks and may retarget the sky: the bird, the
      pipes, the power-ups, the clouds and the score stay frozen. */
  lemma GameOverFrameFreezesPlay(s: GameState, t: real, d: FrameDraws)
    requires DrawsFit(s, d) && PhaseOf(s) == GameOver
    ensures var r := Animated(s, t, d);
            r == s.(lastTime := t, lastThemeUpdate := r.lastThemeUpdate,
                    background := s.background.(theme := r.background.theme))
  {
  }

  /** On the title screen a frame moves only the scenery and the clocks. */
  lemma TitleFrameMovesOnlyScenery(s: GameState, t: real, d: FrameDraws)
    requires DrawsFit(s, d) && PhaseOf(s) == NotStarted
    ensures var r := Animated(s, t, d);
            r == s.(lastTime := t, lastThemeUpdate := r.lastThemeUpdate, background := r.background) &&
            r.background.clouds == Drifted(s.background.clouds, d.cloudY)
  {
  }

  /** A running frame with the shield on cannot end the game: neither pipes nor the ground count,
      and nothing collected in the frame switches the shield off. */
  lemma ShieldedFrameSurvives(s: GameState, t: real, d: FrameDraws)
    requires DrawsFit(s, d) && PhaseOf(s) == Running && s.activeEffects.shield
    ensures !Animated(s, t, d).gameOver
  {
    var s1 := ThemeClock(s.(lastTime := t), t);
    assert s1.activeEffects == s.activeEffects && PhaseOf(s1) == Running;
    var a := s1.(background := Advanced(s1.background, d.cloudY));
    var b := Spawned(a, t, d);
    assert b.activeEffects.shield && !b.gameOver;
    var c := PipesAdvanced(b);
    assert c.activeEffects.shield && !c.gameOver;
    var e := PowerUpsAdvanced(c);
    CollectFromSteady(c.(powerUps := KeptPowerUps(c.powerUps)), 0);
    assert e.activeEffects.shield && !e.gameOver;
    assert Animated(s, t, d) == Grounded(e.(bird := Fall(e.bird)));
  }

  /** Without the shield a frame in which the moved bird touches a moved pipe ends the game. */
  lemma UnshieldedHitEndsGame(s: GameState, t: real, d: FrameDraws)
    requires DrawsFit(s, d) && PhaseOf(s) == Running && !s.activeEffects.shield
    ensures var s1 := ThemeClock(s.(lastTime := t), t);
            var b := Spawned(s1.(background := Advanced(s1.background, d.cloudY)), t, d);
            AnyHit(b.bird, KeptPipes(b.pipes)) ==> Animated(s, t, d).gameOver
  {
    var s1 := ThemeClock(s.(lastTime := t), t);
    assert s1.activeEffects == s.activeEffects && PhaseOf(s1) == Running;
    var a := s1.(background := Advanced(s1.background, d.cloudY));
    var b := Spawned(a, t, d);
    assert !b.activeEffects.shield;
    var c := PipesAdvanced(b);
    assert AnyHit(b.bird, KeptPipes(b.pipes)) ==> c.gameOver;
    var e := PowerUpsAdvanced(c);
    CollectFromSteady(c.(powerUps := KeptPowerUps(c.powerUps)), 0);
    assert e.gameOver == c.gameOver;
    assert Animated(s, t, d) == Grounded(e.(bird := Fall(e.bird)));
  }

  /** Under slow motion pipes come four times as rarely: the stored interval is doubled on
      activation and doubled again where the frame reads it. */
  lemma SlowMotionQuadruplesPipeGap(s: GameState)
    requires !s.activeEffects.slowMotion
    ensures CurrentInterval(s) == s.pipeSpawnInterval
    ensures CurrentInterval(Activated(s, SlowMotion)) == 4.0 * s.pipeSpawnInterval
  {
  }

  /** When more than 30 s have passed the timer resets; a sky at rest then aims for the next
      theme, while a sky still fading skips this change altogether. */
  lemma ThemeChangesEvery30Seconds(s: GameState, t: real)
    ensures t - s.lastThemeUpdate > ThemeUpdateInterval && !s.background.theme.transitioning ==>
              ThemeClock(s, t).lastThemeUpdate == t &&
              ThemeClock(s, t).background.theme.target == Some(NextTheme(s.background.theme.current))
    ensures t - s.lastThemeUpdate > ThemeUpdateInterval && s.background.theme.transitioning ==>
              ThemeClock(s, t) == s.(lastThemeUpdate := t)
    ensures t - s.lastThemeUpdate <= ThemeUpdateInterval ==> ThemeClock(s, t) == s
  {
    if t - s.lastThemeUpdate > ThemeUpdateInterval && !s.background.theme.transitioning {
      ScheduleNextTargetsNext(s.background.theme);
    }
  }

  /** After game over the background is never updated, so a fade that is running stays where it
      is, every later 30-second change is skipped, and the game stays over: the sky is frozen
      until restart. */
  lemma GameOverFadeStalls(s: GameState, t: real, d: FrameDraws)
    requires DrawsFit(s, d) && PhaseOf(s) == GameOver && s.background.theme.transitioning
    ensures Animated(s, t, d).background == s.background
    ensures PhaseOf(Animated(s, t, d)) == GameOver
  {
  }
}
