/**
  The game as the handlers run it: module-level counters and the game scene's
  live entities are fields of one `GameSession` object that every handler
  updates in place. Each handler method is proved to do to the fields exactly
  what `Scenes.Next` does to a `World`, and to hand out what `Scenes.Emit`
  describes; the properties of the game are proved about those functions.
 */
module Session {

  import opened Wrappers
  import opened Levels
  import opened Rules
  import opened Scenes

  /** `levelData.enemies.forEach(...)`: one live enemy per authored enemy, keyed by its index. */
  method SpawnEnemyList(specs: seq<EnemySpec>) returns (spawned: map<nat, Enemy>)
    ensures spawned == SpawnEnemies(specs)
  {
    spawned := map[];
    var i := 0;
    while i < |specs|
      invariant 0 <= i <= |specs|
      invariant spawned == map k: nat | k < i :: Enemy(specs[k].pos, specs[k].dir, specs[k].speed)
    {
      spawned := spawned[i := Enemy(specs[i].pos, specs[i].dir, specs[i].speed)];
      i := i + 1;
    }
  }

  /** `levelData.coins.forEach((coinData, index) => ...)`: one live coin per authored coin. */
  method SpawnCoinList(specs: seq<Vec2>) returns (spawned: map<nat, Coin>)
    ensures spawned == SpawnCoins(specs)
  {
    spawned := map[];
    var i := 0;
    while i < |specs|
      invariant 0 <= i <= |specs|
      invariant spawned == map k: nat | k < i :: Coin(specs[k], specs[k].y, k * 60)
    {
      spawned := spawned[i := Coin(specs[i], specs[i].y, i * 60)];
      i := i + 1;
    }
  }

  /** `levelData.platforms.forEach(...)`: the static platforms, in authored order. */
  method SpawnPlatformList(specs: seq<Vec2>) returns (spawned: seq<Vec2>)
    ensures spawned == specs
  {
    spawned := [];
    var i := 0;
    while i < |specs|
      invariant 0 <= i <= |specs|
      invariant spawned == specs[..i]
    {
      spawned := spawned + [specs[i]];
      i := i + 1;
    }
  }

  class GameSession {

    var scene: Scene
    var score: int
    var lives: int
    var currentLevel: int
    var levelData: Option<LevelDef>
    var player: Option<Vec2>
    var platforms: seq<Vec2>
    var enemies: map<nat, Enemy>
    var coins: map<nat, Coin>
    var goal: Option<Vec2>
    var reloadPending: bool
    var touchLeft: bool
    var touchRight: bool

    /** The fields as a `World`. */
    function Model(): World
      reads this
    {
      World(scene, score, lives, currentLevel, levelData, player, platforms, enemies, coins, goal,
            reloadPending, touchLeft, touchRight)
    }

    ghost predicate Valid()
      reads this
    {
      Inv(Model())
    }

    /** Start-up: the counters' initial values and `go("title")`. */
    constructor ()
      ensures Valid() && Model() == Initial()
    {
      scene := Title;
      score, lives, currentLevel := 0, 3, 1;
      levelData, player, platforms, enemies, coins, goal := None, None, [], map[], map[], None;
      reloadPending, touchLeft, touchRight := false, false, false;
    }

    /** `go(s)` to a scene that spawns nothing: every entity, timer and flag of the old scene is dropped. */
    method Go(s: Scene)
      modifies this
      ensures Model() == Teardown(old(Model()), s)
    {
      scene := s;
      levelData, player, platforms, enemies, coins, goal := None, None, [], map[], map[], None;
      reloadPending, touchLeft, touchRight := false, false, false;
    }

    /** `go("game")`: victory when the catalog has no entry for `currentLevel`, otherwise spawn the level. */
    method GoGame()
      requires score >= 0 && currentLevel >= 1 && lives >= 1
      modifies this
      ensures Model() == EnterGame(old(Model()))
    {
      var found := LevelFor(currentLevel);
      if found.None? {
        Go(Victory);
        return;
      }
      var lv := found.value;
      Go(Game);
      levelData := Some(lv);
      player := Some(lv.playerStart);
      platforms := SpawnPlatformList(lv.platforms);
      enemies := SpawnEnemyList(lv.enemies);
      coins := SpawnCoinList(lv.coins);
      goal := Some(lv.goal);
    }

    /** Lives minus one; game over at zero or below, otherwise back to the level's start. */
    method LoseLife() returns (over: bool)
      requires Valid() && scene == Game
      modifies this
      ensures Model() == Scenes.LoseLife(old(Model()))
      ensures over <==> old(lives) <= 1
    {
      lives := lives - 1;
      over := lives <= 0;
      if over {
        Go(GameOver);
      } else {
        player := Some(levelData.value.playerStart);
      }
    }

    /** Space: start from the title scene, jump in the game scene when grounded, ignored elsewhere. */
    method OnSpace(grounded: bool) returns (out: Output)
      requires Valid()
      modifies this
      ensures Valid() && Model() == Next(old(Model()), SpacePressed(grounded))
      ensures out == Emit(old(Model()), SpacePressed(grounded))
    {
      out := SILENT;
      if scene == Title {
        GoGame();
      } else if scene == Game && grounded {
        out := Output(Some(JumpCue), Some(JUMP_FORCE));
      }
    }

    /** R in the game-over or victory scene: reset the counters and go to the title. */
    method OnR()
      requires Valid()
      modifies this
      ensures Valid() && Model() == Next(old(Model()), RPressed)
    {
      if scene == GameOver || scene == Victory {
        score := 0;
        lives := 3;
        currentLevel := 1;
        Go(Title);
      }
    }

    /** A tap in the game scene: left third, right third, or a jump from the middle third. */
    method OnTouchStart(x: real, grounded: bool) returns (out: Output)
      requires Valid()
      modifies this
      ensures Valid() && Model() == Next(old(Model()), TouchStarted(x, grounded))
      ensures out == Emit(old(Model()), TouchStarted(x, grounded))
    {
      out := SILENT;
      if scene == Game {
        match TouchZone(x)
        case LeftZone =>
          touchLeft := true;
        case RightZone =>
          touchRight := true;
        case CenterZone =>
          if grounded {
            out := Output(Some(JumpCue), Some(JUMP_FORCE));
          }
      }
    }

    method OnTouchEnd()
      requires Valid()
      modifies this
      ensures Valid() && Model() == Next(old(Model()), TouchEnded)
    {
      if scene == Game {
        touchLeft := false;
        touchRight := false;
      }
    }

    /** The engine's physics result for this frame: the player's and the enemies' new positions. */
    method OnPhysics(p: Vec2, enemyPos: map<nat, Vec2>)
      requires Valid() && scene == Game
      modifies this
      ensures Valid() && Model() == Next(old(Model()), Physics(p, enemyPos))
    {
      player := Some(p);
      enemies := Moved(enemies, enemyPos);
    }

    /** `onUpdate("enemy", ...)`: every live enemy moves and, at a patrol bound, turns round. */
    method OnPatrol(dt: real)
      requires Valid() && scene == Game
      modifies this
      ensures Valid() && Model() == Next(old(Model()), PatrolTick(dt))
    {
      ghost var before := enemies;
      var todo := enemies.Keys;
      while todo != {}
        invariant todo <= before.Keys && enemies.Keys == before.Keys
        invariant Model() == old(Model()).(enemies := enemies)
        invariant forall id :: id in before && id !in todo ==> enemies[id] == PatrolStep(before[id], dt)
        invariant forall id :: id in todo ==> enemies[id] == before[id]
        decreases todo
      {
        var id :| id in todo;
        var e := enemies[id];
        assert e == before[id];
        var x := e.pos.x + MoveBy((e.dir * e.speed) as real, dt);
        var dir := e.dir;
        if AtPatrolBound(x) {
          dir := -dir;
        }
        e := Enemy(Vec2(x, e.pos.y), dir, e.speed);
        enemies := enemies[id := e];
        todo := todo - {id};
      }
      assert enemies == Patrolled(before, dt);
    }

    /** `player.onCollide("enemy", ...)`: stomp or hit. */
    method OnEnemyCollide(id: nat) returns (out: Output)
      requires Valid() && scene == Game && id in enemies
      modifies this
      ensures Valid() && Model() == Next(old(Model()), EnemyContact(id))
      ensures out == Emit(old(Model()), EnemyContact(id))
    {
      if IsStomp(player.value.y, enemies[id].pos.y) {
        enemies := enemies - {id};
        score := score + 100;
        out := Output(Some(EnemyDefeatCue), Some(STOMP_BOUNCE));
      } else {
        var over := LoseLife();
        out := if over then Output(Some(GameOverCue), None) else SILENT;
      }
    }

    /** `player.onCollide("coin", ...)`. */
    method OnCoinCollide(id: nat) returns (out: Output)
      requires Valid() && scene == Game && id in coins
      modifies this
      ensures Valid() && Model() == Next(old(Model()), CoinContact(id))
      ensures out == Emit(old(Model()), CoinContact(id))
    {
      coins := coins - {id};
      score := score + 50;
      out := Output(Some(CoinCue), None);
    }

    /** `player.onCollide("goal", ...)`: next level number, bonus, and `wait(1, () => go("game"))`. */
    method OnGoalCollide() returns (out: Output)
      requires Valid() && scene == Game
      modifies this
      ensures Valid() && Model() == Next(old(Model()), GoalContact)
      ensures out == Emit(old(Model()), GoalContact)
    {
      currentLevel := currentLevel + 1;
      score := score + 500;
      reloadPending := true;
      out := Output(Some(LevelCompleteCue), None);
    }

    /** The per-frame fall check. */
    method OnFallCheck()
      requires Valid() && scene == Game
      modifies this
      ensures Valid() && Model() == Next(old(Model()), FallCheck)
    {
      if FellOff(player.value.y) {
        var _ := LoseLife();
      }
    }

    /** The post-goal timer fires: re-enter the game scene. */
    method OnReload()
      requires Valid() && scene == Game && reloadPending
      modifies this
      ensures Valid() && Model() == Next(old(Model()), ReloadFires)
    {
      GoGame();
    }
  }
}
