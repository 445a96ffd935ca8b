# Super Platformer: scene state machine and session bookkeeping

A model of the game logic of a Kaboom.js side-scrolling platformer (`game.js`).
The engine draws, integrates gravity and detects collisions; the game file
owns a small state machine on top of that. The state is the active scene
(`title`, `game`, `gameover`, `victory`), the module-level counters `score`,
`lives` and `currentLevel`, and, while the game scene runs, the level data it
captured, the live player, platforms, enemies, coins and goal, the two touch
flags and the one-second post-goal reload. The handlers for keys, taps,
collisions and per-frame updates change that state.

Files and modules:

- `levels.dfy`: `Wrappers` (Option) and `Levels`, the static catalog of three
  levels and the canvas size 1024 x 576. A level number with no entry means
  every level is done.
- `rules.dfy`: `Rules`, the pure decision rules. These are the strict stomp
  test, the fall-off line, the three touch zones, the jump gate, the
  horizontal drift from keys and touch flags, and the enemy patrol step with
  its screen-width bounds.
- `scenes.dfy`: `Scenes`, the whole game as a pure transition system. It
  defines `World`, `Event`, `Next` (the effect of one handler), `Emit` (the
  sound cue and jump impulse a handler requests), the invariant `Inv` that
  every handler keeps, and `Run` for a sequence of events.
- `scene_properties.dfy`: `SceneProperties`, the promises of each handler and
  of whole runs, plus three end-to-end scenarios.
- `session.dfy`: `Session`, the imperative form. `GameSession` is a class
  whose fields are the game's mutable state, with one method per handler. Each
  method is proved to change the fields exactly as `Scenes.Next` says and to
  return what `Scenes.Emit` says. Spawning a level and the enemy patrol keep
  the source's loops.

Engine results come in as inputs. An event `Physics(player, enemyPos)`
carries the positions the engine computed for a frame. Jump requests carry a
`grounded` flag. Collision events are delivered only for entities that are
alive in the game scene (`Scenes.Enabled`).

Points where the code is easy to misread; the model follows the code as written:

- The stomp test is strict: `player.y < enemy.y - 10`. A gap of exactly 10 is
  a hit.
- An enemy hit that ends the game plays the game-over cue. A fall that ends
  the game plays no cue.
- The goal handler has no guard. Touching the goal again before the reload
  fires advances the level number again (`GoalTwiceSkipsLevel`).
- The patrol bounds compare the enemy's x with constants derived from the
  canvas width (50 and 974). They are not platform edges.

## Model

| member | source | states |
|---|---|---|
| Levels.LevelFor | game.js:188-308 | the catalog has an entry exactly for levels 1, 2 and 3, and every entry starts the player at (100, 400) |
| Levels.CatalogWellFormed | game.js:188-308 | every authored enemy of all three levels has direction -1 or +1 and a positive speed |
| Levels.CatalogSizes | game.js:188-308 | the authored counts: 20/19/15 platforms, 2/3/4 enemies, 4/6/10 coins |
| Levels.GoalsInsideCanvas | game.js:225-306 | every level's goal lies strictly inside the 1024 x 576 canvas, in both x and y, and to the right of the player's start |
| Rules.IsStomp | game.js:494 | an enemy overlap is a stomp exactly when the enemy is more than 10 units below the player |
| Rules.FellOff | game.js:578 | the player has fallen off exactly when it is more than 100 units below the canvas height |
| Rules.TouchZone | game.js:443-455 | a tap left of width/3 is the left zone, right of 2*width/3 the right zone, anything between (both bounds included) the jump zone |
| Rules.TouchZoneMonotone | game.js:443-447 | zones are ordered left to right: a tap further right never lands in a zone further left |
| Rules.JumpImpulse | game.js:426-433 | a jump impulse of exactly 500 is given when the player is grounded, and nothing when airborne |
| Rules.Drift | game.js:417-471 | the horizontal speed is 200 per held rightward input (key or touch flag) minus 200 per held leftward one: one input gives exactly ±200, opposite inputs cancel, the range is ±400, and it is never leftward without a left input nor rightward without a right one |
| Rules.DriftMirror | game.js:464-471 | mirroring every input mirrors the drift |
| Rules.PatrolStep | game.js:483-490 | one patrol tick keeps y and speed, and keeps direction in {-1, +1} with a positive speed |
| Rules.PatrolBounceReturns | game.js:487-489 | after a reversal at a bound, a second tick of the same length returns the enemy to its start and, from an interior start, does not reverse again |
| Scenes.EnterGame | game.js:311-415 | entering the game scene keeps the counters, ends in victory exactly when the catalog has no entry for the level, and yields a world satisfying the invariant |
| Scenes.LoseLife | game.js:511-523 | the life-loss branch: exactly one life less, score and level unchanged, game over exactly when no life is left, otherwise only the player moves back to the level's start |
| Scenes.Restart | game.js:623-629 | R from an end scene yields exactly the initial session, whatever the old world held |
| Scenes.TouchDown | game.js:439-456 | a tap raises the left flag exactly when left of width/3 and the right flag exactly when right of 2*width/3; nothing else changes |
| Scenes.ApplyPhysics | game.js:417-490 | the engine's movement puts the player where the engine says and moves enemies without creating or destroying any or changing their patrol; nothing else changes |
| Scenes.Patrol | game.js:483-490 | a patrol tick keeps the set of live enemies and their heights and changes nothing but the enemies |
| Scenes.EnemyCollision | game.js:493-524 | a stomp adds 100, keeps the lives and removes exactly that enemy; a hit is exactly the life-loss branch |
| Scenes.CoinCollision | game.js:526-530 | a pickup adds 50, removes exactly that one coin and keeps every other coin, and keeps the lives and the level |
| Scenes.GoalCollision | game.js:554-568 | the goal keeps the game scene, advances the level, adds 500 and schedules the reload |
| Scenes.FallOffCheck | game.js:577-588 | below the fall line the world is exactly the life-loss branch; otherwise it is unchanged |
| Scenes.Emit | game.js:426-568 | the jump cue comes exactly with the 500 impulse and only from space or a centre tap in the game; the defeat cue exactly with the 250 bounce and only from an enemy contact; the coin and level-complete cues exactly from their pickups; the game-over cue only from an enemy contact at 1 life or fewer; no other handler gives an impulse |
| Scenes.Next | game.js:182-690 | every handler keeps the invariant: score ≥ 0, level ≥ 1, title at {0, 3, 1}, game over exactly at 0 lives, victory only past the catalog, entities only in the game scene |
| Scenes.Run | game.js:182-690 | any sequence of handler invocations from a world satisfying the invariant ends in one that satisfies it |
| SceneProperties.GameOverExactlyWhenNoLives | game.js:516-519 | lives at or below 0 exactly in the game-over scene |
| SceneProperties.StompEffect | game.js:495-500 | a stomp removes exactly that enemy, adds 100, keeps lives, level, scene, coins and player, and bounces with half the jump force plus the defeat cue |
| SceneProperties.HitEffect | game.js:511-523 | a hit costs one life and no points and the enemy survives; at 0 lives it is game over with the game-over cue, otherwise the player is back at the start |
| SceneProperties.StompBoundary | game.js:494 | a gap of exactly 10 is a hit |
| SceneProperties.FallEffect | game.js:577-588 | a fall costs one life and no points and plays no cue; at 0 lives it is game over with nothing left, otherwise only the player is back at the level's start |
| SceneProperties.FallIsLikeHit | game.js:577-588 | a fall leads to the same world as a hit but never plays the game-over cue |
| SceneProperties.NoFallNoChange | game.js:578 | at or above the fall line the fall check changes nothing |
| SceneProperties.CoinEffect | game.js:526-530 | a pickup removes exactly that coin and adds 50; lives, level, scene and enemies unchanged |
| SceneProperties.GoalEffect | game.js:554-568 | the goal adds 1 to the level and 500 to the score, schedules the reload and plays the level-complete cue; nothing else in the world changes |
| SceneProperties.GoalTwiceSkipsLevel | game.js:554-556 | a second goal contact before the reload advances the level again |
| SceneProperties.EnterGameSpawns | game.js:316-407 | a missing level goes to victory with nothing spawned; a catalogued level spawns exactly its start, platforms and goal, one enemy per authored enemy with its position, direction and speed, and one coin per authored coin with its position and float phase index × 60, with no pending reload or touch flag |
| SceneProperties.ReloadEntersNextLevel | game.js:568 | the reload re-enters the game scene for the new level number, and past level 3 that is victory with nothing spawned |
| SceneProperties.RestartResets | game.js:623-629 | R in game over or victory gives exactly the initial world: score 0, lives 3, level 1, title |
| SceneProperties.RestartOnlyFromEndScenes | game.js:684-690 | R in the title or game scene changes nothing |
| SceneProperties.StartFromTitle | game.js:182-184 | space in the title enters level 1 without resetting the counters |
| SceneProperties.JumpOnlyWhenGrounded | game.js:426-433 | space in the game scene changes no state and asks for the 500 impulse exactly when grounded |
| SceneProperties.CenterTapIsSpace | game.js:447-455 | a tap in the middle third has exactly the effect of the space key |
| SceneProperties.SideTapsSetFlags | game.js:439-461 | a side tap raises only its own flag and never jumps; touch end lowers both |
| SceneProperties.TouchFlagsDrive | game.js:439-471 | from a game world with no touch held, a left tap makes the touch drift exactly -200, a right tap exactly +200, a centre tap 0; touch end brings it back to 0 |
| SceneProperties.PatrolMovesEveryEnemy | game.js:483-490 | a patrol tick applies the patrol step to every live enemy and removes none |
| SceneProperties.StepMonotone | game.js:498-579 | apart from restart, no handler lowers the score, raises the lives or lowers the level |
| SceneProperties.RunMonotone | game.js:493-588 | over any run without a restart the score never drops, lives never rise and the level never drops |
| SceneProperties.EndScenesAreFinal | game.js:592-690 | without a restart, no run of events leaves game over or victory or changes anything there |
| SceneProperties.RestartAfterAnyRun | game.js:623-629 | any run that ends in game over or victory is followed by R back to the initial world |
| SceneProperties.Level1Start | game.js:311-407 | starting a fresh session enters level 1 with its own enemies and coins, score 0 and 3 lives |
| SceneProperties.ScenarioStompThenCoin | game.js:493-530 | stomping the first enemy of level 1 and taking the first coin gives 150 points, 3 lives, both removed |
| SceneProperties.ScenarioThreeHits | game.js:511-523 | three hits take lives 3, 2, 1, 0 and end in game over with the score unchanged |
| SceneProperties.ScenarioGoalOnLevel1 | game.js:554-568 | the goal of level 1 and the reload give level 2's exact entity set, 500 points |
| Session.SpawnEnemyList | game.js:370-380 | the spawn loop yields one enemy per authored enemy, keyed by index, with its position, direction and speed |
| Session.SpawnCoinList | game.js:383-397 | the spawn loop yields one coin per authored coin, keyed by index, with float phase index × 60 |
| Session.SpawnPlatformList | game.js:359-367 | the spawn loop yields the authored platforms in order |
| Session.GameSession.constructor | game.js:21-24 | the session starts at score 0, 3 lives, level 1, in the title scene |
| Session.GameSession.Go | game.js:319-689 | going to a scene that spawns nothing drops every entity, timer and touch flag of the old scene and keeps the counters |
| Session.GameSession.GoGame | game.js:311-415 | the fields become exactly `EnterGame` of the old state |
| Session.GameSession.LoseLife | game.js:511-523 | the fields become exactly `LoseLife` of the old state; the result says whether the game is over |
| Session.GameSession.OnSpace | game.js:426-433 | in the title it starts the game; in the game it requests a jump only when grounded |
| Session.GameSession.OnR | game.js:623-629 | resets the counters and goes to the title from game over or victory |
| Session.GameSession.OnTouchStart | game.js:439-456 | sets the touch flag of the tapped zone or requests a jump, as `Next` and `Emit` say |
| Session.GameSession.OnTouchEnd | game.js:458-461 | lowers both touch flags |
| Session.GameSession.OnPhysics | game.js:417-471 | the engine's positions for this frame are applied exactly as `Next` says |
| Session.GameSession.OnPatrol | game.js:483-490 | the loop over live enemies leaves every enemy at its patrol step and changes nothing else |
| Session.GameSession.OnEnemyCollide | game.js:493-524 | stomp or hit exactly as `Next`, with the defeat or game-over cue as `Emit` |
| Session.GameSession.OnCoinCollide | game.js:526-551 | removes the coin and adds 50, with the coin cue |
| Session.GameSession.OnGoalCollide | game.js:554-569 | advances the level, adds 500 and schedules the reload, with the level-complete cue |
| Session.GameSession.OnFallCheck | game.js:577-588 | loses a life exactly when the player is below the fall line |
| Session.GameSession.OnReload | game.js:568 | re-enters the game scene |

## Left out

- Engine internals are inputs, not models. These are gravity, `body()`,
  `area()`, `move`, `isGrounded()`, `jump()` and collision detection. Their
  results arrive as `Physics` events, `grounded` flags and collision events.
- Audio synthesis is left out because it is I/O and timers. A handler only
  names the cue it would play.
- Sprites, `loadSprite`, every text, colour, z-order and the flag pole are
  left out because they are presentation only. The UI counters are
  presentation too. They are not always in step with the modelled counters:
  the goal handler (game.js:554-569) refreshes neither the score nor the level
  text, so until the reload fires the screen shows the old score and level.
- The coin float animation uses floating-point trigonometry over the clock.
  Coins keep their base y and phase offset, but no position is updated.
- The camera follow, and the jump/landing sprite swap through
  `playerIsJumping`, are left out as visual only.
- The "+100", "+50", spin and "LEVEL COMPLETE!" effect entities are left out.
  They are cosmetic, and the engine manages their lifespan.
- The one-second delay of `wait(1, ...)` is not timed. It is a pending flag
  and a `ReloadFires` event. Scene changes drop the pending reload, as they
  drop the scene's timers.
- Kaboom applies `go(...)` at the end of the frame. The model applies it at
  once, so handlers that would still run later in the same frame are not
  modelled.
- The `gameState` variable is never updated by the game and is not modelled.
- Numbers are unbounded integers and exact reals. JavaScript's double rounding
  is not modelled; no realistic score comes near its limits.
