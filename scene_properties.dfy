/**
  What the handlers of the scene state machine promise, one event at a time
  and over whole runs of events.
 */
module SceneProperties {

  import opened Wrappers
  import opened Levels
  import opened Rules
  import opened Scenes

  /** The scene can only be the game-over scene when no life is left, and vice versa. */
  lemma GameOverExactlyWhenNoLives(w: World)
    requires Inv(w)
    ensures w.lives <= 0 <==> w.scene == GameOver
  {
  }

  /**
    A stomp removes exactly that enemy, adds exactly 100 to the score, and
    leaves lives, level, scene, coins and the player where they were; the
    player bounces with half the jump force and the defeat cue plays.
   */
  lemma StompEffect(w: World, id: nat)
    requires Inv(w) && w.scene == Game && id in w.enemies
    requires IsStomp(w.player.value.y, w.enemies[id].pos.y)
    ensures var r := Next(w, EnemyContact(id));
      && r.enemies == w.enemies - {id} && id !in r.enemies
      && r.score == w.score + 100
      && r.lives == w.lives && r.currentLevel == w.currentLevel && r.scene == Game
      && r.coins == w.coins && r.player == w.player && r.reloadPending == w.reloadPending
    ensures Emit(w, EnemyContact(id)) == Output(Some(EnemyDefeatCue), Some(JUMP_FORCE / 2.0))
  {
  }

  /**
    A hit costs exactly one life and no points, and the enemy survives. With
    no life left the scene becomes game over (and the game-over cue plays);
    otherwise the player is back at the level's start in the game scene.
   */
  lemma HitEffect(w: World, id: nat)
    requires Inv(w) && w.scene == Game && id in w.enemies
    requires !IsStomp(w.player.value.y, w.enemies[id].pos.y)
    ensures var r := Next(w, EnemyContact(id));
      && r.lives == w.lives - 1 && r.score == w.score && r.currentLevel == w.currentLevel
      && (r.scene == GameOver <==> r.lives <= 0)
      && (r.scene == Game <==> r.lives > 0)
      && (r.scene == Game ==> r.enemies == w.enemies && r.coins == w.coins
                              && r.player == Some(w.levelData.value.playerStart))
      && (r.scene == GameOver ==> Idle(r))
    ensures Emit(w, EnemyContact(id)).cue == (if w.lives <= 1 then Some(GameOverCue) else None)
  {
  }

  /** The stomp test is strict: a gap of exactly 10 units is a hit. */
  lemma StompBoundary(w: World, id: nat)
    requires Inv(w) && w.scene == Game && id in w.enemies
    requires w.player.value.y == w.enemies[id].pos.y - 10.0
    ensures Next(w, EnemyContact(id)).lives == w.lives - 1
    ensures id in Next(w, EnemyContact(id)).enemies || Next(w, EnemyContact(id)).scene == GameOver
  {
  }

  /**
    Falling off the world costs exactly one life and no points, plays no cue,
    and ends the game when no life is left; otherwise the player is back at
    the start of the level being played and nothing else changes.
   */
  lemma FallEffect(w: World)
    requires Inv(w) && w.scene == Game && FellOff(w.player.value.y)
    ensures var r := Next(w, FallCheck);
      && r == LoseLife(w)
      && r.lives == w.lives - 1 && r.score == w.score && r.currentLevel == w.currentLevel
      && (r.scene == GameOver <==> w.lives <= 1)
      && (r.scene == GameOver ==> Idle(r))
      && (r.scene == Game ==> r == w.(lives := w.lives - 1, player := Some(w.levelData.value.playerStart)))
    ensures Emit(w, FallCheck) == SILENT
  {
  }

  /**
    Falling off the world takes the same life-loss branch as an enemy hit
    (the same next world), but it never plays the game-over cue.
   */
  lemma FallIsLikeHit(w: World, id: nat)
    requires Inv(w) && w.scene == Game && id in w.enemies
    requires !IsStomp(w.player.value.y, w.enemies[id].pos.y)
    requires FellOff(w.player.value.y)
    ensures Next(w, FallCheck) == Next(w, EnemyContact(id))
    ensures Emit(w, FallCheck) == SILENT
  {
  }

  /** At or above the fall line (screen y grows downwards) the fall check changes nothing. */
  lemma NoFallNoChange(w: World)
    requires Inv(w) && w.scene == Game
    requires w.player.value.y <= HEIGHT + 100.0
    ensures Next(w, FallCheck) == w
  {
  }

  /** A coin pickup removes exactly that coin and adds exactly 50; lives, level and enemies stay. */
  lemma CoinEffect(w: World, id: nat)
    requires Inv(w) && w.scene == Game && id in w.coins
    ensures var r := Next(w, CoinContact(id));
      && r.coins == w.coins - {id} && id !in r.coins && |r.coins| == |w.coins| - 1
      && r.score == w.score + 50
      && r.lives == w.lives && r.currentLevel == w.currentLevel && r.scene == Game
      && r.enemies == w.enemies && r.player == w.player
    ensures Emit(w, CoinContact(id)).cue == Some(CoinCue)
  {
  }

  /**
    Reaching the goal: level number +1, score +500, one reload scheduled, and
    nothing else in the session changes (the level being played stays on
    screen until the reload fires).
   */
  lemma GoalEffect(w: World)
    requires Inv(w) && w.scene == Game
    ensures var r := Next(w, GoalContact);
      && r.currentLevel == w.currentLevel + 1 && r.score == w.score + 500 && r.reloadPending
      && r.lives == w.lives && r.scene == Game
      && r == w.(currentLevel := r.currentLevel, score := r.score, reloadPending := true)
    ensures Emit(w, GoalContact) == Output(Some(LevelCompleteCue), None)
  {
  }

  /**
    The goal handler is not guarded against a pending reload: touching the
    goal a second time before the reload fires advances the level number
    again, so the reload loads the level after next.
   */
  lemma GoalTwiceSkipsLevel(w: World)
    requires Inv(w) && w.scene == Game
    ensures var r := Next(Next(w, GoalContact), GoalContact);
      r.currentLevel == w.currentLevel + 2 && r.score == w.score + 1000 && r.reloadPending
  {
  }

  /**
    Entering the game scene for a level number the catalog has no entry for
    ends in the victory scene with nothing spawned; for a catalogued level it
    spawns exactly that level's player start, platforms, enemies, coins and
    goal, and nothing from before survives.
   */
  lemma EnterGameSpawns(w: World)
    requires w.score >= 0 && w.currentLevel >= 1 && w.lives >= 1
    ensures var r := EnterGame(w);
      match LevelFor(w.currentLevel)
      case None => r.scene == Victory && Idle(r)
      case Some(lv) =>
        && r.scene == Game && r.levelData == Some(lv)
        && r.player == Some(lv.playerStart) && r.platforms == lv.platforms && r.goal == Some(lv.goal)
        && (forall i: nat :: i in r.enemies <==> i < |lv.enemies|)
        && (forall i: nat :: i in r.coins <==> i < |lv.coins|)
        && (forall i :: 0 <= i < |lv.enemies| ==>
              r.enemies[i] == Enemy(lv.enemies[i].pos, lv.enemies[i].dir, lv.enemies[i].speed))
        && (forall i :: 0 <= i < |lv.coins| ==> r.coins[i] == Coin(lv.coins[i], lv.coins[i].y, i * 60))
        && !r.reloadPending && !r.touchLeft && !r.touchRight
  {
  }

  /** The pending reload re-enters the game scene for the new level number. */
  lemma ReloadEntersNextLevel(w: World)
    requires Inv(w) && w.scene == Game && w.reloadPending
    ensures Next(w, ReloadFires) == EnterGame(w)
    ensures w.currentLevel >= 4 ==> Next(w, ReloadFires).scene == Victory && Idle(Next(w, ReloadFires))
  {
  }

  /** Restart from game over or victory is exactly the initial session: 0 points, 3 lives, level 1, title. */
  lemma RestartResets(w: World)
    requires Inv(w) && (w.scene == GameOver || w.scene == Victory)
    ensures Next(w, RPressed) == Initial()
  {
  }

  /** R is ignored in the title and game scenes. */
  lemma RestartOnlyFromEndScenes(w: World)
    requires Inv(w) && (w.scene == Title || w.scene == Game)
    ensures Next(w, RPressed) == w
  {
  }

  /** Space in the title scene starts level 1 without resetting the session. */
  lemma StartFromTitle(w: World, grounded: bool)
    requires Inv(w) && w.scene == Title
    ensures var r := Next(w, SpacePressed(grounded));
      r.scene == Game && r.score == w.score && r.lives == w.lives && r.currentLevel == w.currentLevel
      && r.levelData == Some(Level1())
  {
  }

  /**
    The jump gate: in the game scene space changes no session state, and it
    asks for the jump impulse and the jump cue exactly when the player is
    grounded; an airborne request does nothing at all.
   */
  lemma JumpOnlyWhenGrounded(w: World, grounded: bool)
    requires Inv(w) && w.scene == Game
    ensures Next(w, SpacePressed(grounded)) == w
    ensures Emit(w, SpacePressed(grounded)).impulse.Some? <==> grounded
    ensures Emit(w, SpacePressed(grounded)).impulse.Some? ==> Emit(w, SpacePressed(grounded)).impulse.value == JUMP_FORCE
    ensures !grounded ==> Emit(w, SpacePressed(grounded)) == SILENT
  {
  }

  /** A tap in the middle third behaves exactly like the space key. */
  lemma CenterTapIsSpace(w: World, x: real, grounded: bool)
    requires Inv(w) && w.scene == Game
    requires WIDTH / 3.0 <= x <= WIDTH * 2.0 / 3.0
    ensures Next(w, TouchStarted(x, grounded)) == Next(w, SpacePressed(grounded))
    ensures Emit(w, TouchStarted(x, grounded)) == Emit(w, SpacePressed(grounded))
  {
  }

  /** A side tap raises only its own flag and never jumps; touch end lowers both. */
  lemma SideTapsSetFlags(w: World, x: real, grounded: bool)
    requires Inv(w) && w.scene == Game
    ensures x < WIDTH / 3.0 ==>
      Next(w, TouchStarted(x, grounded)) == w.(touchLeft := true) && Emit(w, TouchStarted(x, grounded)) == SILENT
    ensures x > WIDTH * 2.0 / 3.0 ==>
      Next(w, TouchStarted(x, grounded)) == w.(touchRight := true) && Emit(w, TouchStarted(x, grounded)) == SILENT
    ensures var r := Next(w, TouchEnded); !r.touchLeft && !r.touchRight
  {
  }

  /**
    The touch flags drive the player: from a game world with no touch held, a
    left tap makes the drift exactly leftward at the player's speed, a right
    tap exactly rightward, a centre tap none; lifting the finger stops it.
   */
  lemma TouchFlagsDrive(w: World, x: real, grounded: bool)
    requires Inv(w) && w.scene == Game && !w.touchLeft && !w.touchRight
    ensures var r := Next(w, TouchStarted(x, grounded));
      Drift(false, false, r.touchLeft, r.touchRight)
        == (match TouchZone(x) case LeftZone => -PLAYER_SPEED case RightZone => PLAYER_SPEED case CenterZone => 0.0)
    ensures var r := Next(w, TouchEnded); Drift(false, false, r.touchLeft, r.touchRight) == 0.0
  {
  }

  /** A patrol tick moves every live enemy by its own patrol step and kills none. */
  lemma PatrolMovesEveryEnemy(w: World, dt: real)
    requires Inv(w) && w.scene == Game
    ensures var r := Next(w, PatrolTick(dt));
      && r.enemies.Keys == w.enemies.Keys
      && (forall id :: id in w.enemies ==> r.enemies[id] == PatrolStep(w.enemies[id], dt))
      && r.score == w.score && r.lives == w.lives && r.coins == w.coins
  {
  }

  /** One event never lowers the score, never raises the lives and never lowers the level, unless it is a restart. */
  lemma StepMonotone(w: World, e: Event)
    requires Inv(w) && Enabled(w, e) && e != RPressed
    ensures Next(w, e).score >= w.score
    ensures Next(w, e).lives <= w.lives
    ensures Next(w, e).currentLevel >= w.currentLevel
  {
  }

  predicate NoRestart(es: seq<Event>)
  {
    forall i :: 0 <= i < |es| ==> es[i] != RPressed
  }

  /** Over a whole run without a restart, the score never drops, lives never rise and the level never drops. */
  lemma {:induction false} RunMonotone(w: World, es: seq<Event>)
    requires Inv(w) && NoRestart(es)
    ensures Run(w, es).score >= w.score
    ensures Run(w, es).lives <= w.lives
    ensures Run(w, es).currentLevel >= w.currentLevel
    decreases |es|
  {
    if es != [] {
      var w' := if Enabled(w, es[0]) then Next(w, es[0]) else w;
      if Enabled(w, es[0]) {
        StepMonotone(w, es[0]);
      }
      assert NoRestart(es[1..]) by {
        forall i | 0 <= i < |es[1..]| ensures es[1..][i] != RPressed {
          assert es[1..][i] == es[i + 1];
        }
      }
      RunMonotone(w', es[1..]);
    }
  }

  /** Game over and victory are final: without a restart, no run of events leaves them or changes anything. */
  lemma {:induction false} EndScenesAreFinal(w: World, es: seq<Event>)
    requires Inv(w) && (w.scene == GameOver || w.scene == Victory) && NoRestart(es)
    ensures Run(w, es) == w
    decreases |es|
  {
    if es != [] {
      assert es[0] != RPressed;
      assert NoRestart(es[1..]) by {
        forall i | 0 <= i < |es[1..]| ensures es[1..][i] != RPressed {
          assert es[1..][i] == es[i + 1];
        }
      }
      if Enabled(w, es[0]) {
        assert Next(w, es[0]) == w;
      }
      EndScenesAreFinal(w, es[1..]);
    }
  }

  /** From the initial world, a run ending in a restart from game over or victory is back at the initial world. */
  lemma RestartAfterAnyRun(es: seq<Event>)
    requires Run(Initial(), es).scene == GameOver || Run(Initial(), es).scene == Victory
    ensures Run(Run(Initial(), es), [RPressed]) == Initial()
  {
    RestartResets(Run(Initial(), es));
  }

  /** The first world of level 1: the session counters untouched, the level's entities spawned. */
  lemma Level1Start()
    ensures Next(Initial(), SpacePressed(false)) == EnterGame(Initial())
    ensures var w := EnterGame(Initial());
      && w.scene == Game && w.score == 0 && w.lives == 3 && w.currentLevel == 1
      && w.player == Some(Vec2(100.0, 400.0))
      && w.enemies == SpawnEnemies(Enemies1()) && w.coins == SpawnCoins(Coins1())
  {
  }

  /**
    Starting a fresh session, stomping the first enemy of level 1 (the player
    spawns at y = 400, the enemy at y = 480) and then picking up the first
    coin gives 150 points, all three lives, and removes both entities.
   */
  lemma ScenarioStompThenCoin()
    ensures var r := Run(Initial(), [SpacePressed(false), EnemyContact(0), CoinContact(0)]);
      r.scene == Game && r.score == 150 && r.lives == 3 && 0 !in r.enemies && 0 !in r.coins
  {
  }

  /**
    Three hits in a row by the second enemy of level 1 (which sits above the
    player's start, so it is never a stomp): lives go 3, 2, 1, 0 and the game
    is over with the score untouched.
   */
  lemma ScenarioThreeHits()
    ensures var r := Run(Initial(), [SpacePressed(false), EnemyContact(1), EnemyContact(1), EnemyContact(1)]);
      r.scene == GameOver && r.lives == 0 && r.score == 0
  {
  }

  /**
    Reaching the goal of level 1 and waiting for the reload: level 2 is
    entered with exactly its own platforms, enemies and coins, 500 points
    richer, with nothing left of level 1.
   */
  lemma ScenarioGoalOnLevel1()
    ensures var r := Run(Initial(), [SpacePressed(false), GoalContact, ReloadFires]);
      && r.scene == Game && r.currentLevel == 2 && r.score == 500 && r.lives == 3
      && r.levelData == Some(Level2()) && r.platforms == Platforms2()
      && r.enemies == SpawnEnemies(Enemies2()) && r.coins == SpawnCoins(Coins2())
      && !r.reloadPending
  {
  }
}
