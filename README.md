# BirdJump2d in Dafny

A model of the game logic of BirdJump2d, a browser "flappy bird" game. The player's bird falls
under gravity and jumps on input. Pipes scroll in from the right with a 200-unit gap to fly
through. From a score of 5 on, power-ups appear in the gap of a pipe: a shield (no deaths for
5 s), a score multiplier (double points for 8 s) and slow motion (half speed for 6 s). Behind
everything five clouds drift left, and every 30 seconds a sky at rest starts a fade to the next
theme of the cycle day → sunset → night.

Every JavaScript class of the core has a Dafny module:

| file | module | what it holds |
|---|---|---|
| geometry.dfy | `Wrappers`, `Geometry` | `Option`; the 400 × 600 canvas; strict box overlap |
| pipe.dfy | `Pipes` | `PipeState`, the gap formula, and the `Pipe` class |
| bird.dfy | `Birds` | `BirdState`, gravity/jump/tilt/clamp physics, the gap test, and the `Bird` class |
| powerup.dfy | `PowerUps` | `PowerUpState`, falsy-default construction, pick-up test, and the `PowerUp` class |
| background.dfy | `Backgrounds` | the theme state machine, clouds, `lerp`, `hexToRgb`, and the `Background` class |
| game_rules.dfy | `GameRules` | the whole game as a value `GameState`, one function per `Game` operation, and the properties proved about them |
| game.dfy | `Games` | the `Game` class, whose fields are those of the source and whose methods update them in place |

Each module pairs two views of the same entity. A value datatype has functions and lemmas over
it; these state what the code promises. A class has the source's fields, and its methods change
them step by step, as the source does. Each method is proved to leave the object in exactly the
state that the matching function computes: `View() == Fall(old(View()))` for the bird, and
`Snapshot() == Animated(old(Snapshot()), currentTime, d)` for the game. So every property proved
about the functions holds of the objects.

The game's frame is `Game.Animate(currentTime, d)`. `d` holds the `Math.random()` draws the frame
may use. The browser's `setTimeout` queue is part of the model. `pending` maps timer ids to the
callback each will run, and `nextTimerId` is the next id the browser hands out.
`Game.FireTimer(id)` is the browser running one callback. `GameRules.Inv` is the invariant that
every method keeps:
- the game is over only once it has started;
- 0 ≤ score ≤ high score;
- the bird is on the canvas;
- the sky's fade is well formed and there are five clouds;
- every pipe's gap is inside the canvas;
- every timer id was handed out by the browser.

Some behaviours of the code are modelled as written:
- `restart` keeps `pipeSpawnInterval`. It also forgets the effect timers without cancelling them, so a shield callback from before a restart can switch off a shield collected after it (`StaleShieldCallbackSurvivesRestart`).
- Collecting slow motion while it is on halves the speed again. The new callback then restores the already-halved speed (`SlowMotionTwiceCapturesHalved`).
- The frame doubles the spawn interval that slow motion has already doubled, so pipes come 4× as rarely (`SlowMotionQuadruplesPipeGap`).
- `lastPipeSpawn` and `lastPowerUpSpawn` move on even when the spawn is declined (`Spawned`).
- Pipes are filtered before they move, so a pipe leaves the list one frame after it leaves the screen (`LeavingPipeGoesNextFrame`).
- A 30-second theme change that falls while a fade is still running is skipped, and the timer resets anyway (`ThemeChangesEvery30Seconds`). After game over the background is no longer updated, so a running fade never finishes and every later change is skipped until restart (`GameOverFadeStalls`).

## Model

| member | source | states |
|---|---|---|
| Geometry.OverlapSymmetric | static/js/powerup.js:63-68 | box overlap is symmetric |
| Geometry.EdgeContactIsNoOverlap | static/js/powerup.js:63-68 | boxes that only share an edge do not collide (the comparisons are strict) |
| Pipes.GapStartFor | static/js/pipe.js:9 | for a draw r in [0, 1), the gap starts in [50, canvas height − 250) |
| Pipes.NewPipe | static/js/pipe.js:2-11 | a new pipe is at x = canvas width, has the given speed, is not passed, and its gap lies inside the canvas with 50 units to spare |
| Pipes.Moved | static/js/pipe.js:13-15 | update on the pipe's value: x decreases by the speed; `Pipes.Pipe.Update` and `OffscreenIsFinal` state it |
| Pipes.Offscreen | static/js/pipe.js:37-39 | isOffscreen: x + 60 < 0; its properties are `OffscreenIsFinal`, `OffscreenPipeIsHarmless` and `KeptPipes` |
| Pipes.OffscreenIsFinal | static/js/pipe.js:13-15 | a pipe moving left that is off-screen stays off-screen, with its gap unchanged |
| Pipes.Pipe.constructor | static/js/pipe.js:2-11 | the object's state is `NewPipe(speed, r)` |
| Pipes.Pipe.Update | static/js/pipe.js:13-15 | x decreases by exactly the speed; speed and passed do not change |
| Birds.Tilt | static/js/bird.js:24 | rotation is velocity · 0.1 clamped into [−π/4, π/4], with each of the three cases stated |
| Birds.Fall | static/js/bird.js:19-35 | velocity gains gravity 0.35 and y gains the new velocity; the result is clamped into [0, canvas height − 30] with velocity 0 whenever a clamp fires |
| Birds.FallFromRestAtTop | static/js/bird.js:19-35 | from rest at y = 0 one update gives y = 0.35, velocity 0.35, rotation 0.035 |
| Birds.InsideGapIsSafe | static/js/bird.js:76-82 | a bird wholly inside the gap never collides, wherever the pipe is |
| Birds.HitsPipeIsOverlapWithDrawnPipe | static/js/bird.js:76-82 | for a bird on the canvas, the gap test is exactly overlap with the top or the bottom pipe as drawn |
| Birds.OffscreenPipeIsHarmless | static/js/bird.js:76-82 | an off-screen pipe cannot hit the bird |
| Birds.Jumped | static/js/bird.js:15-17 | jump on the bird's value; `Birds.Bird.Jump` and `InputByPhase` state that only the velocity changes, to −8 |
| Birds.HitsPipe | static/js/bird.js:76-82 | checkCollision on values; its properties are `InsideGapIsSafe`, `HitsPipeIsOverlapWithDrawnPipe` and `OffscreenPipeIsHarmless` |
| Birds.Bird.constructor | static/js/bird.js:2-13 | x = canvas width / 3, y = canvas height / 2, velocity 0, rotation 0 |
| Birds.Bird.Jump | static/js/bird.js:15-17 | velocity becomes −8 whatever it was; y and rotation do not change |
| Birds.Bird.Update | static/js/bird.js:19-35 | the new state is `Fall` of the old one |
| PowerUps.NewPowerUp | static/js/powerup.js:2-17 | not collected; a falsy x (missing or 0) falls back to the canvas width; a falsy y falls back to a random height in [100, canvas height − 100) |
| PowerUps.ZeroFallsBack | static/js/powerup.js:7 | an explicit x of 0 is treated like a missing one |
| PowerUps.CollectedNeverTouches | static/js/powerup.js:61 | a collected power-up never collides |
| PowerUps.TouchesIsOverlap | static/js/powerup.js:60-68 | an uncollected power-up collides exactly when its 30 × 30 box strictly overlaps the bird's 40 × 30 box |
| PowerUps.Touches | static/js/powerup.js:60-69 | checkCollision on values; its properties are `CollectedNeverTouches` and `TouchesIsOverlap` |
| PowerUps.PowerUp.constructor | static/js/powerup.js:2-17 | the object's state is `NewPowerUp(...)` |
| PowerUps.Moved | static/js/powerup.js:19-21 | update on the power-up's value: x decreases by the speed; `PowerUps.PowerUp.Update` and `PowerUps.OffscreenIsFinal` state it |
| PowerUps.Offscreen | static/js/powerup.js:56-58 | isOffscreen: x + 30 < 0; its properties are `PowerUps.OffscreenIsFinal` and `KeptPowerUps` |
| PowerUps.OffscreenIsFinal | static/js/powerup.js:19-21 | a power-up moving left that is off-screen stays off-screen, its height and collected flag unchanged |
| PowerUps.PowerUp.Update | static/js/powerup.js:19-21 | x decreases by exactly the speed; speed and collected do not change |
| Backgrounds.NextTheme | static/js/background.js:55-61 | the theme after the current one in the table's order; its property is `ThemeCycle` |
| Backgrounds.ThemeCycle | static/js/background.js:55-61 | the next theme is day → sunset → night → day; no theme follows itself, and three steps return to the start |
| Backgrounds.StartTransition | static/js/background.js:47-53 | no change when the theme is already shown or a fade is running; otherwise a fade towards it starts at progress 0 |
| Backgrounds.StartTransitionKeepsValid | static/js/background.js:47-61 | starting a fade keeps progress in [0, 1) and a running fade's target different from the current theme |
| Backgrounds.TickKeepsValid | static/js/background.js:116-123 | an update keeps the fade well formed: progress in [0, 1), 0 at rest |
| Backgrounds.ScheduleNext | static/js/background.js:55-61 | updateTheme on the theme state; its properties are `ScheduleNextTargetsNext` and `StartTransitionKeepsValid` |
| Backgrounds.Tick | static/js/background.js:116-123 | one update of the fade; its properties are `TickKeepsValid`, `TicksFrom` and `FadeTakes200Updates` |
| Backgrounds.ScheduleNextTargetsNext | static/js/background.js:55-61 | at rest, updateTheme starts a fade towards the next theme of the cycle |
| Backgrounds.TicksFrom | static/js/background.js:116-123 | after j + k < 200 steps of 0.005 the progress is (j + k) · 0.005; at step 200 the target is committed and the fade ends with progress 0 |
| Backgrounds.FadeTakes200Updates | static/js/background.js:116-123 | after a fade starts, each of the first 199 updates leaves it running on the old theme; the 200th shows the new theme, at rest |
| Backgrounds.NewCloud | static/js/background.js:35-45 | for draws in [0, 1) a new cloud has 0 ≤ x ≤ w and 0 ≤ y ≤ h / 2, 50 ≤ width < 150, 0.1 ≤ speed < 0.6, 0.5 ≤ opacity < 1 |
| Backgrounds.Drift | static/js/background.js:107-113 | a cloud moves left by its speed and keeps its height; once wholly past the left edge it re-enters at x = canvas width + width, at height r · (canvas height / 2) for the draw r; width, speed and opacity never change, and a drifted cloud is never wholly left of the canvas |
| Backgrounds.Advanced | static/js/background.js:105-124 | update on the background's value: every cloud drifts (`Drift`), then the fade ticks (`Tick`) |
| Backgrounds.Lerp | static/js/background.js:63-65 | lerp(a, b, 0) = a, lerp(a, b, 1) = b, lerp(a, a, t) = a |
| Backgrounds.LerpBetween | static/js/background.js:63-65 | for t in [0, 1] the result lies between the endpoints |
| Backgrounds.HexToRgb | static/js/background.js:80-87 | a result exactly for six hex digits with an optional leading '#'; every channel in 0..255 |
| Backgrounds.ParseSpelledColour | static/js/background.js:80-87 | parsing the `#rrggbb` spelling of any colour gives the colour back |
| Backgrounds.HashIsOptional | static/js/background.js:81 | with or without '#', six digits parse the same |
| Backgrounds.ParseIgnoresCase | static/js/background.js:81 | upper-casing a string does not change what it parses to (the `i` flag) |
| Backgrounds.Round | static/js/background.js:72-76 | Math.round, as floor(x + 0.5); `LerpChannel` states what it gives on a blended channel |
| Backgrounds.LerpChannel | static/js/background.js:72-76 | a rounded channel lies between its endpoints for t in [0, 1] and equals them at t = 0 and t = 1 |
| Backgrounds.LerpColor | static/js/background.js:67-78 | defined exactly when both colours parse; yields byte channels, and the first or second colour at t = 0 or 1 |
| Backgrounds.EveryThemeColourParses | static/js/background.js:16-78 | every colour of the theme table parses, so blending two themes never reads a channel of null |
| Backgrounds.Background.constructor | static/js/background.js:2-33 | the sky shows day, at rest, with the five clouds `initClouds` makes |
| Backgrounds.Background.InitClouds | static/js/background.js:35-45 | appends exactly the five clouds made from the draws |
| Backgrounds.Background.TransitionTo | static/js/background.js:47-53 | the theme state becomes `StartTransition` of the old one; clouds unchanged |
| Backgrounds.Background.UpdateTheme | static/js/background.js:55-61 | the theme state becomes `ScheduleNext` of the old one |
| Backgrounds.Background.Update | static/js/background.js:105-124 | every cloud drifts and the fade advances, as `Advanced` says |
| GameRules.Effects.With | static/js/game.js:160 | sets one effect and leaves the other two alone |
| GameRules.Input | static/js/game.js:70-77 | handleInput on the game's value; what it does in each phase is `InputByPhase`, and `InputKeepsInv` keeps the invariant |
| GameRules.Restarted | static/js/game.js:85-107 | restart on the game's value; what it resets and keeps is `RestartResets`, with `RestartKeepsInv` and `StaleShieldCallbackSurvivesRestart` |
| GameRules.ScoreShown | static/js/game.js:115-118 | the high score becomes max(high score, score), so it never decreases; nothing else changes |
| GameRules.InputByPhase | static/js/game.js:70-83 | before the start input only starts the game (no jump); while running it sets the velocity to the jump force and nothing else; after game over it changes nothing |
| GameRules.RestartResets | static/js/game.js:85-107 | score 0, no pipes or power-ups, running, speed 3, spawn clocks 0, no effects, new bird; high score, spawn interval, pending callbacks and sky unchanged |
| GameRules.WithPipe | static/js/game.js:121-128 | nothing changes exactly when there is a last pipe and its x > canvas width − 200; otherwise exactly one new pipe, at the game speed, is appended |
| GameRules.SpawnGuardReadsLastPipeOnly | static/js/game.js:123-124 | whether a pipe spawns depends on the last pipe alone |
| GameRules.FirstSafe | static/js/game.js:135-138 | the first pipe with canvas width / 2 < x < canvas width · 0.75, or none when no pipe is in that slot |
| GameRules.KindFor | static/js/game.js:141-142 | the kind is shield for draws below 1/3, slow motion from 2/3 on, multiplier between |
| GameRules.WithPowerUp | static/js/game.js:130-157 | no change below score 5 or with no pipe in the slot; otherwise one power-up appended at the right edge, level with the middle of the first such pipe's gap |
| GameRules.PowerUpSitsInGap | static/js/game.js:144-155 | a new power-up lies wholly inside the gap of its pipe, on the canvas, uncollected, after the existing ones |
| GameRules.NoPowerUpBelowMinimumScore | static/js/game.js:132 | below a score of 5 no power-up ever appears |
| GameRules.PipesAtSpeed | static/js/game.js:189 | every pipe gets the new speed and nothing else changes |
| GameRules.PowerUpsAtSpeed | static/js/game.js:190 | every power-up gets the new speed and nothing else changes |
| GameRules.Activated | static/js/game.js:159-203 | activatePowerUp on the game's value; its properties are `ActivationSchedulesOneExpiry`, `SlowMotionIsRetroactive`, `SlowMotionTwiceCapturesHalved`, `ActivatedSteady`, `ActivatedKeepsCollected` and `ActivatedKeepsInv` |
| GameRules.Fired | static/js/game.js:170-200 | the browser running one pending callback; its properties are `SlowMotionExpiryRestores`, `SlowMotionRoundTrip` and `FiredKeepsInv` |
| GameRules.ActivationSchedulesOneExpiry | static/js/game.js:159-203 | activation turns the effect on and leaves the others; it cancels the effect's previous callback and schedules exactly one new one, with a 5000, 8000 or 6000 ms delay; other callbacks, score and bird are untouched |
| GameRules.SlowMotionIsRetroactive | static/js/game.js:179-192 | slow motion halves the game speed, doubles the spawn interval, gives every pipe and power-up on screen the new speed, and its callback holds the replaced values |
| GameRules.SlowMotionExpiryRestores | static/js/game.js:192-200 | the slow-motion callback puts back the captured speed and interval, on the game and on every entity then on screen, and turns the effect off |
| GameRules.SlowMotionRoundTrip | static/js/game.js:179-200 | a slow motion collected and left to expire restores speed and interval exactly |
| GameRules.SlowMotionTwiceCapturesHalved | static/js/game.js:179-192 | a second slow motion quarters the speed; its callback captures the halved speed; the first callback is cancelled |
| GameRules.StaleShieldCallbackSurvivesRestart | static/js/game.js:85-172 | a shield callback from before a restart is still pending after it and switches off a shield collected after the restart |
| GameRules.KeptPipes | static/js/game.js:230 | keeps every pipe that is not off-screen, and only those |
| GameRules.KeptPipesIsFilter | static/js/game.js:230 | filtering a concatenation is the concatenation of the filtered parts, so order and repeated entries are kept |
| GameRules.KeptPipesSingle | static/js/game.js:230 | a single pipe is kept exactly when it is not off-screen; with the law above this fixes the result for every list |
| GameRules.KeptPipesDrops | static/js/game.js:230 | a list holding an off-screen pipe gets strictly shorter |
| GameRules.Scores | static/js/game.js:236 | a pipe scores when, once moved, it is not yet passed and the bird's x is beyond its right edge; its properties are `PassedOnlyRises` and `ScorersAreFlips` |
| GameRules.Advance | static/js/game.js:232-242 | one pipe of the loop, moved and, on scoring, marked passed; its properties are `PassedOnlyRises` |
| GameRules.AdvanceAll | static/js/game.js:231-242 | the list keeps its length and order, and pipe i becomes `Advance` of pipe i |
| GameRules.PassedOnlyRises | static/js/game.js:236-237 | the passed flag only goes from false to true, and does so exactly when the pipe scores; a scoring pipe cannot score again |
| GameRules.ScorersAreFlips | static/js/game.js:236-242 | the pipes that score in a frame are exactly those whose passed flag flips |
| GameRules.PipeScoresExactlyOnce | static/js/game.js:236-242 | a frame raises the score by 2 (multiplier) or 1 per pipe whose flag flips; passed pipes stay passed |
| GameRules.LeavingPipeGoesNextFrame | static/js/game.js:230-232 | for any kept pipe, at any index, that moves off-screen in a frame: it was on screen before, it is still listed at the same index after the frame, off-screen, and the next frame's filter drops it, so the list shrinks |
| GameRules.PipesAdvanced | static/js/game.js:229-251 | updateAndDrawPipes in closed form; its properties are `PipeScoresExactlyOnce`, `PipeHitsObeyShield`, `LeavingPipeGoesNextFrame`, `PipesAdvancedKeepsInv`, and `PipeSweepIsPipesAdvanced` ties it to the loop |
| GameRules.PipeStep | static/js/game.js:232-249 | one pipe of the forEach loop; it keeps the list length, and `SweepStep` relates it to the closed form |
| GameRules.PipeSweepIsPipesAdvanced | static/js/game.js:229-251 | running the forEach loop pipe by pipe gives the closed form: score up by the points of every scoring pipe, high score following, game over on any unshielded hit |
| GameRules.SweepStep | static/js/game.js:231-250 | one loop iteration extends the swept prefix by one pipe |
| GameRules.SweepRest | static/js/game.js:231-250 | the rest of the loop completes the sweep |
| GameRules.PipeHitsObeyShield | static/js/game.js:245-249 | with the shield no pipe ends the game; without it any hit does |
| GameRules.KeptPowerUps | static/js/game.js:254 | keeps every power-up that is not off-screen, and only those |
| GameRules.KeptPowerUpsIsFilter | static/js/game.js:254 | filtering a concatenation is the concatenation of the filtered parts, so order and repeated entries are kept |
| GameRules.KeptPowerUpsSingle | static/js/game.js:254 | a single power-up is kept exactly when it is not off-screen |
| GameRules.CollectAt | static/js/game.js:256-264 | one power-up of the loop; it keeps the list length and the bird, and its effect is stated by `CollectAtCollects`, `CollectAtOnlyMoves`, `CollectAtKeepsCollected` and `CollectAtSteady` |
| GameRules.ActivatedKeepsCollected | static/js/game.js:159-203 | activation switches its effect on and leaves the list of power-ups, and each one's collected flag, as they were |
| GameRules.CollectAtCollects | static/js/game.js:256-264 | on first contact the moved power-up is marked collected and its effect is on afterwards |
| GameRules.CollectAtOnlyMoves | static/js/game.js:256-264 | without contact, or for a power-up already collected, the iteration only moves that power-up: nothing is collected twice and no effect is switched on |
| GameRules.CollectAtKeepsCollected | static/js/game.js:256-264 | no iteration clears a collected flag |
| GameRules.CollectFromKeepsCollected | static/js/game.js:255-265 | over the rest of the loop collected flags only rise |
| GameRules.PowerUpsAdvanced | static/js/game.js:253-266 | updateAndDrawPowerUps: filter, then the loop; its properties are `KeptPowerUpsIsFilter`, the `CollectAt*` lemmas, `CollectFromSteady`, `CollectFromKeepsCollected` and `PowerUpsAdvancedKeepsInv` |
| GameRules.CollectAtSteady | static/js/game.js:255-264 | one power-up iteration changes pipes only in speed and never changes score, high score, bird, sky, clocks or list lengths; a shield that is on stays on, and timer ids stay known |
| GameRules.CollectFromSteady | static/js/game.js:255-265 | the same for the whole power-up loop |
| GameRules.ActivatedSteady | static/js/game.js:159-203 | the same for one activation |
| GameRules.Spawned | static/js/game.js:284-297 | each spawn clock moves to the current time when its interval has passed, whether or not anything spawns; otherwise its list and clock are unchanged |
| GameRules.Grounded | static/js/game.js:306-311 | game over exactly when already over, or when the bird's bottom reaches the canvas bottom without a shield; nothing else changes |
| GameRules.ThemeClock | static/js/game.js:274-277 | the 30-second sky clock; its property is `ThemeChangesEvery30Seconds` |
| GameRules.Played | static/js/game.js:279-311 | the running branch of animate; its properties are `PlayedKeepsInv`, `ShieldedFrameSurvives` and `UnshieldedHitEndsGame` |
| GameRules.Animated | static/js/game.js:269-320 | one frame of animate; its properties are `FrameKeepsInv`, `GameOverFrameFreezesPlay`, `TitleFrameMovesOnlyScenery`, `ShieldedFrameSurvives` and `SlowMotionQuadruplesPipeGap` |
| GameRules.Booted | static/js/game.js:2-52 | the constructed game: fresh fields, one title-screen frame at time 0, then the score display; its property is `BootedKeepsInv` |
| GameRules.InputKeepsInv | static/js/game.js:70-83 | input keeps the invariant |
| GameRules.RestartKeepsInv | static/js/game.js:85-107 | restart keeps the invariant |
| GameRules.ActivatedKeepsInv | static/js/game.js:159-203 | activation keeps the invariant |
| GameRules.FiredKeepsInv | static/js/game.js:170-200 | any callback keeps the invariant |
| GameRules.SpawnedKeepsInv | static/js/game.js:284-297 | the spawn checks keep the invariant |
| GameRules.PipesAdvancedKeepsInv | static/js/game.js:229-251 | the pipe loop keeps the invariant, the high score tracks the score, and the score never falls |
| GameRules.PowerUpsAdvancedKeepsInv | static/js/game.js:253-266 | the power-up loop keeps the invariant and is steady |
| GameRules.LandingKeepsInv | static/js/game.js:302-311 | the bird's update and the ground check keep the invariant |
| GameRules.PlayedKeepsInv | static/js/game.js:279-311 | a running frame keeps the invariant and the high score is max(old high score, score) |
| GameRules.FrameKeepsInv | static/js/game.js:269-320 | every frame keeps the invariant and the high score is max(old high score, score) |
| GameRules.BootedKeepsInv | static/js/game.js:2-52 | the constructed game satisfies the invariant and is on the title screen |
| GameRules.GameOverFrameFreezesPlay | static/js/game.js:269-320 | after game over a frame changes only lastTime, the theme timer and the sky's theme; clouds, pipes, power-ups, bird and score stay as they are |
| GameRules.TitleFrameMovesOnlyScenery | static/js/game.js:312-317 | on the title screen a frame changes only the clocks and the sky, whose clouds drift |
| GameRules.ShieldedFrameSurvives | static/js/game.js:245-311 | a running frame with the shield on never ends the game |
| GameRules.UnshieldedHitEndsGame | static/js/game.js:245-249 | without the shield a frame in which the bird hits a moved pipe ends the game |
| GameRules.CurrentInterval | static/js/game.js:285-286 | the spawn interval the frame compares against, doubled under slow motion; its property is `SlowMotionQuadruplesPipeGap` |
| GameRules.SlowMotionQuadruplesPipeGap | static/js/game.js:285-286 | under slow motion the interval the frame compares against is 4× the normal one |
| GameRules.ThemeChangesEvery30Seconds | static/js/game.js:274-277 | after more than 30 s the timer resets to now; a sky at rest then aims for the next theme, while a sky still fading is left as it is, so that change is skipped; before 30 s nothing changes |
| GameRules.GameOverFadeStalls | static/js/game.js:269-320 | after game over a frame leaves a running fade exactly where it is, and the game stays over, so the fade never finishes until restart |
| Games.KeptPipeObjectsMirror | static/js/game.js:230 | filtering the pipe objects filters their states |
| Games.KeptPipeObjectsDistinct | static/js/game.js:230 | filtering keeps the pipe objects distinct |
| Games.KeptPowerUpObjectsMirror | static/js/game.js:254 | filtering the power-up objects filters their states |
| Games.KeptPowerUpObjectsDistinct | static/js/game.js:254 | filtering keeps the power-up objects distinct |
| Games.Game.constructor | static/js/game.js:2-52 | the fields as set, one title-screen frame at time 0, then the score display (`Booted`); the invariant holds |
| Games.Game.HandleInput | static/js/game.js:70-77 | the new state is `Input` of the old one; the invariant is kept |
| Games.Game.StartGame | static/js/game.js:79-83 | only gameStarted changes, to true |
| Games.Game.Restart | static/js/game.js:85-107 | the new state is `Restarted` of the old one, with a fresh bird; the invariant is kept |
| Games.Game.UpdateScoreDisplay | static/js/game.js:109-119 | the new state is `ScoreShown` of the old one |
| Games.Game.SpawnPipe | static/js/game.js:121-128 | the new state is `WithPipe` of the old one; the invariant is kept |
| Games.Game.SpawnPowerUp | static/js/game.js:130-157 | the new state is `WithPowerUp` of the old one; the invariant is kept |
| Games.Game.ActivatePowerUp | static/js/game.js:159-203 | the new state is `Activated` of the old one |
| Games.Game.FireTimer | static/js/game.js:170-200 | the new state is `Fired` of the old one; the invariant is kept |
| Games.Game.UpdatePipe | static/js/game.js:232-249 | one loop iteration changes the state as `PipeStep` says |
| Games.Game.SweepPipes | static/js/game.js:231-250 | the loop changes the state as `PipeSweep` says |
| Games.Game.UpdateAndDrawPipes | static/js/game.js:229-251 | the new state is `PipesAdvanced` of the old one; the invariant is kept |
| Games.Game.CollectPowerUp | static/js/game.js:256-264 | one loop iteration changes the state as `CollectAt` says |
| Games.Game.SweepPowerUps | static/js/game.js:255-265 | the loop changes the state as `CollectFrom` says |
| Games.Game.UpdateAndDrawPowerUps | static/js/game.js:253-266 | the new state is `PowerUpsAdvanced` of the old one; the invariant is kept |
| Games.Game.Animate | static/js/game.js:269-320 | the new state is `Animated` of the old one; the invariant is kept |

## Left out

- Drawing: every `draw` method, `drawCloud` and `drawPowerUpEffects` only paint the canvas; `lerpColor`'s CSS string is modelled as the three numbers behind it.
- The DOM: element lookups, `classList`, `textContent` and the listeners of `bindEvents`. Inputs are calls to `HandleInput` and `Restart`.
- Sound: static/js/audio.js is not part of this model; its cues are side effects with no effect on the state.
- `localStorage`: the write in `updateScoreDisplay` has no effect on the state. The read is the constructor's `stored` argument: the parsed number, or none.
- Games.Game.constructor: requires a stored high score to be non-negative. The game itself only ever stores high scores ≥ 0; a negative value planted by hand is not modelled.
- `requestAnimationFrame`: the browser calling `animate` again is the caller calling `Animate` again. `deltaTime` is computed and never used, so it is left out.
- `setTimeout` and `clearTimeout`: modelled by the `pending` map and `nextTimerId`, with ids counting up from 1. The numbering is the model's choice: a browser shares one counter among all the page's timers, so the game's ids need only be distinct and positive, as these are. When a callback fires is the caller's choice, through `FireTimer`; the delays are recorded (`Delay`) but no clock enforces them.
- `Math.random()`: every draw is a parameter, assumed in [0, 1) where a bound depends on it.
- Numbers are Dafny reals, not IEEE doubles. Adding 0.005 exactly 200 times reaches 1, so the model's fade takes 200 updates where the double may take 201. π/4 is the real written out to the digits of the double the source computes.
- The canvas size that `Background` sees at construction is a parameter, because the game builds the background before it resizes the canvas to 400 × 600. Later reads of the size use 400 × 600.
- Backgrounds.Tick: a running fade always has a target, by the invariant. If one had none, the source would set the current theme to null; the model keeps the current theme instead.
- Backgrounds.LerpColor: where the source would read a channel of null and throw, the model returns None. No theme colour reaches that case (`EveryThemeColourParses`).
- Pipes.Pipe.IsOffscreen, PowerUps.PowerUp.IsOffscreen, PowerUps.PowerUp.CheckCollision and Birds.Bird.CheckCollision: predicates equal by definition to `Offscreen`, `Touches` and `HitsPipe`, whose properties are the lemmas above.
