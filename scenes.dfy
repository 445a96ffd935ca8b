/**
  The scene state machine and game-session bookkeeping as a pure transition
  system. A `World` is everything the game keeps between events: the active
  scene, the session counters (`score`, `lives`, `currentLevel`), the level
  data captured when the game scene was entered, the live entities, the
  pending post-goal reload and the two touch flags. An `Event` is one handler
  invocation; `Next` is its effect on the world and `Emit` what it hands to the
  engine and the audio device (a jump impulse, a sound cue).

  The engine's physics (gravity, `move` integration, grounding, overlap
  detection) is not modelled: its results arrive as event arguments
  (`Physics`, the `grounded` flag of a jump request) and collision events are
  only enabled for entities that are alive in the game scene.
 */
module Scenes {

  import opened Wrappers
  import opened Levels
  import opened Rules

  datatype Scene = Title | Game | GameOver | Victory

  /** The five sound cues. */
  datatype Cue = JumpCue | CoinCue | EnemyDefeatCue | LevelCompleteCue | GameOverCue

  /** What a handler asks of the outside world: a sound cue and a vertical jump impulse. */
  datatype Output = Output(cue: Option<Cue>, impulse: Option<real>)

  const SILENT: Output := Output(None, None)

  datatype World = World(
    scene: Scene,
    score: int,
    lives: int,
    currentLevel: int,
    levelData: Option<LevelDef>,
    player: Option<Vec2>,
    platforms: seq<Vec2>,
    enemies: map<nat, Enemy>,
    coins: map<nat, Coin>,
    goal: Option<Vec2>,
    reloadPending: bool,
    touchLeft: bool,
    touchRight: bool)

  datatype Event =
    | SpacePressed(grounded: bool)
    | RPressed
    | TouchStarted(x: real, grounded: bool)
    | TouchEnded
    | Physics(playerPos: Vec2, enemyPos: map<nat, Vec2>)
    | PatrolTick(dt: real)
    | EnemyContact(id: nat)
    | CoinContact(id: nat)
    | GoalContact
    | FallCheck
    | ReloadFires

  /** The world after the start-up `go("title")`. */
  function Initial(): World
  {
    World(Title, 0, 3, 1, None, None, [], map[], map[], None, false, false, false)
  }

  /** No entity, no pending reload, no touch flag: what every scene but the game scene holds. */
  predicate Idle(w: World)
  {
    && w.levelData.None? && w.player.None? && w.goal.None?
    && w.platforms == [] && w.enemies == map[] && w.coins == map[]
    && !w.reloadPending && !w.touchLeft && !w.touchRight
  }

  /** What holds while the game scene runs a level. */
  predicate Playing(w: World)
  {
    && w.levelData.Some? && w.player.Some? && w.goal.Some?
    && w.lives >= 1
    && (!w.reloadPending ==> LevelFor(w.currentLevel) == w.levelData)
    && (w.reloadPending ==> w.currentLevel >= 2)
    && (forall id :: id in w.enemies ==> id < |w.levelData.value.enemies| && PatrolsProperly(w.enemies[id]))
    && (forall id :: id in w.coins ==> id < |w.levelData.value.coins|)
  }

  /** The invariant every reachable world satisfies. */
  predicate Inv(w: World)
  {
    && w.score >= 0
    && w.currentLevel >= 1
    && (w.scene == Game ==> Playing(w))
    && (w.scene != Game ==> Idle(w))
    && (w.scene == Title ==> w.score == 0 && w.lives == 3 && w.currentLevel == 1)
    && (w.scene == GameOver ==> w.lives == 0)
    && (w.scene == Victory ==> w.lives >= 1 && LevelFor(w.currentLevel).None?)
  }

  /** `go(s)` to a scene that spawns nothing: the old scene's entities, timers and flags are discarded. */
  function Teardown(w: World, s: Scene): World
  {
    w.(scene := s, levelData := None, player := None, platforms := [], enemies := map[],
       coins := map[], goal := None, reloadPending := false, touchLeft := false, touchRight := false)
  }

  /** The enemies of a level, keyed by their index in the level's list. */
  function SpawnEnemies(specs: seq<EnemySpec>): map<nat, Enemy>
  {
    map i: nat | i < |specs| :: Enemy(specs[i].pos, specs[i].dir, specs[i].speed)
  }

  /** The coins of a level, keyed by their index; each floats about its own y with phase `index * 60`. */
  function SpawnCoins(specs: seq<Vec2>): map<nat, Coin>
  {
    map i: nat | i < |specs| :: Coin(specs[i], specs[i].y, i * 60)
  }

  /**
    `go("game")`: look up `currentLevel` in the catalog; with no entry go to
    the victory scene and spawn nothing, otherwise spawn the player at the
    level's start, its platforms, enemies, coins and goal. The session
    counters are never touched.
   */
  function EnterGame(w: World): (r: World)
    requires w.score >= 0 && w.currentLevel >= 1 && w.lives >= 1
    ensures Inv(r)
    ensures r.score == w.score && r.lives == w.lives && r.currentLevel == w.currentLevel
    ensures r.scene == Victory <==> LevelFor(w.currentLevel).None?
    ensures r.scene == Game <==> LevelFor(w.currentLevel).Some?
  {
    match LevelFor(w.currentLevel)
    case None => Teardown(w, Victory)
    case Some(lv) =>
      CatalogWellFormed(w.currentLevel);
      Teardown(w, Game).(levelData := Some(lv), player := Some(lv.playerStart), platforms := lv.platforms,
                         enemies := SpawnEnemies(lv.enemies), coins := SpawnCoins(lv.coins), goal := Some(lv.goal))
  }

  /**
    The life-loss branch shared by an enemy hit and a fall: one life less;
    at zero or below the game is over, otherwise the player is put back at the
    start of the level that was entered.
   */
  function LoseLife(w: World): (r: World)
    requires Inv(w) && w.scene == Game
    ensures Inv(r)
    ensures r.lives == w.lives - 1 && r.score == w.score && r.currentLevel == w.currentLevel
    ensures r.scene == GameOver <==> w.lives <= 1
    ensures r.scene == Game <==> w.lives > 1
    ensures r.scene == Game ==> r == w.(lives := w.lives - 1, player := Some(w.levelData.value.playerStart))
  {
    if w.lives - 1 <= 0 then Teardown(w.(lives := w.lives - 1), GameOver)
    else w.(lives := w.lives - 1, player := Some(w.levelData.value.playerStart))
  }

  /** `restart`: the R key in the game-over or victory scene. Nothing of the old session survives. */
  function Restart(w: World): (r: World)
    ensures r == Initial()
  {
    Teardown(w, Title).(score := 0, lives := 3, currentLevel := 1)
  }

  /** The positions the engine computed this frame, applied to the player and the live enemies. */
  function Moved(enemies: map<nat, Enemy>, enemyPos: map<nat, Vec2>): map<nat, Enemy>
  {
    map id | id in enemies :: if id in enemyPos then enemies[id].(pos := enemyPos[id]) else enemies[id]
  }

  /** One patrol tick applied to every live enemy. */
  function Patrolled(enemies: map<nat, Enemy>, dt: real): map<nat, Enemy>
  {
    map id | id in enemies :: PatrolStep(enemies[id], dt)
  }

  /**
    Which events have a handler in the world's state: key and touch events
    always arrive (and are ignored by scenes without a handler); the engine
    only reports collisions with live entities, runs the game scene's update
    callbacks while it is active, and fires the reload timer only when one is
    pending.
   */
  predicate Enabled(w: World, e: Event)
  {
    match e
    case SpacePressed(_) => true
    case RPressed => true
    case TouchStarted(_, _) => true
    case TouchEnded => true
    case Physics(_, _) => w.scene == Game
    case PatrolTick(_) => w.scene == Game
    case EnemyContact(id) => w.scene == Game && id in w.enemies
    case CoinContact(id) => w.scene == Game && id in w.coins
    case GoalContact => w.scene == Game
    case FallCheck => w.scene == Game
    case ReloadFires => w.scene == Game && w.reloadPending
  }

  /** Touch start in the game scene: a side tap raises that side's flag, a centre tap leaves the flags alone. */
  function TouchDown(w: World, x: real): (r: World)
    requires Inv(w) && w.scene == Game
    ensures Inv(r)
    ensures r.touchLeft <==> w.touchLeft || x < WIDTH / 3.0
    ensures r.touchRight <==> w.touchRight || x > WIDTH * 2.0 / 3.0
    ensures r == w.(touchLeft := r.touchLeft, touchRight := r.touchRight)
  {
    match TouchZone(x)
    case LeftZone => w.(touchLeft := true)
    case RightZone => w.(touchRight := true)
    case CenterZone => w
  }

  /** The engine moves entities but never creates or destroys them, and never touches the counters. */
  function ApplyPhysics(w: World, p: Vec2, enemyPos: map<nat, Vec2>): (r: World)
    requires Inv(w) && w.scene == Game
    ensures Inv(r)
    ensures r.player == Some(p) && r.enemies.Keys == w.enemies.Keys
    ensures forall id :: id in r.enemies ==> r.enemies[id].dir == w.enemies[id].dir && r.enemies[id].speed == w.enemies[id].speed
    ensures r == w.(player := r.player, enemies := r.enemies)
  {
    w.(player := Some(p), enemies := Moved(w.enemies, enemyPos))
  }

  function Patrol(w: World, dt: real): (r: World)
    requires Inv(w) && w.scene == Game
    ensures Inv(r)
    ensures r.enemies.Keys == w.enemies.Keys
    ensures forall id :: id in r.enemies ==> r.enemies[id].pos.y == w.enemies[id].pos.y
    ensures r == w.(enemies := r.enemies)
  {
    w.(enemies := Patrolled(w.enemies, dt))
  }

  /** Player x enemy: a stomp destroys the enemy and scores 100, a hit costs a life. */
  function EnemyCollision(w: World, id: nat): (r: World)
    requires Inv(w) && w.scene == Game && id in w.enemies
    ensures Inv(r)
    ensures IsStomp(w.player.value.y, w.enemies[id].pos.y) ==>
      r.score == w.score + 100 && r.lives == w.lives && r.enemies.Keys == w.enemies.Keys - {id}
    ensures !IsStomp(w.player.value.y, w.enemies[id].pos.y) ==> r == LoseLife(w)
  {
    if IsStomp(w.player.value.y, w.enemies[id].pos.y) then
      w.(enemies := w.enemies - {id}, score := w.score + 100)
    else
      LoseLife(w)
  }

  function CoinCollision(w: World, id: nat): (r: World)
    requires Inv(w) && w.scene == Game && id in w.coins
    ensures Inv(r)
    ensures r.coins == w.coins - {id} && id !in r.coins && |r.coins| == |w.coins| - 1
    ensures r.score == w.score + 50 && r.lives == w.lives && r.currentLevel == w.currentLevel
  {
    w.(coins := w.coins - {id}, score := w.score + 50)
  }

  /** Player x goal: next level number, 500 points, and the reload scheduled; the goal stays. */
  function GoalCollision(w: World): (r: World)
    requires Inv(w) && w.scene == Game
    ensures Inv(r)
    ensures r.scene == Game && r.reloadPending && r.currentLevel == w.currentLevel + 1 && r.score == w.score + 500
  {
    w.(currentLevel := w.currentLevel + 1, score := w.score + 500, reloadPending := true)
  }

  /** The per-frame fall check: below the fall line the life-loss branch runs, otherwise nothing happens. */
  function FallOffCheck(w: World): (r: World)
    requires Inv(w) && w.scene == Game
    ensures Inv(r)
    ensures FellOff(w.player.value.y) ==> r == LoseLife(w)
    ensures !FellOff(w.player.value.y) ==> r == w
  {
    if FellOff(w.player.value.y) then LoseLife(w) else w
  }

  /** The effect of one handler on the world; every handler keeps the invariant. */
  function Next(w: World, e: Event): (r: World)
    requires Inv(w) && Enabled(w, e)
    ensures Inv(r)
  {
    match e
    case SpacePressed(_) => if w.scene == Title then EnterGame(w) else w
    case RPressed => if w.scene == GameOver || w.scene == Victory then Restart(w) else w
    case TouchStarted(x, _) => if w.scene == Game then TouchDown(w, x) else w
    case TouchEnded => if w.scene == Game then w.(touchLeft := false, touchRight := false) else w
    case Physics(p, enemyPos) => ApplyPhysics(w, p, enemyPos)
    case PatrolTick(dt) => Patrol(w, dt)
    case EnemyContact(id) => EnemyCollision(w, id)
    case CoinContact(id) => CoinCollision(w, id)
    case GoalContact => GoalCollision(w)
    case FallCheck => FallOffCheck(w)
    case ReloadFires => EnterGame(w)
  }

  /** The jump request of the space key or a centre tap. */
  function JumpOutput(grounded: bool): Output
  {
    Output(if grounded then Some(JumpCue) else None, JumpImpulse(grounded))
  }

  /**
    What a handler plays and which impulse it gives the player. Every cue
    belongs to one handler: the jump cue comes with the jump impulse from the
    space key or a centre tap in the game scene, the defeat cue with the
    stomp bounce, the coin and level-complete cues with their pickups, and the
    game-over cue only from the enemy hit that takes the last life.
   */
  function Emit(w: World, e: Event): (o: Output)
    requires Inv(w) && Enabled(w, e)
    ensures o.cue == Some(JumpCue) <==> o.impulse == Some(JUMP_FORCE)
    ensures o.cue == Some(EnemyDefeatCue) <==> o.impulse == Some(STOMP_BOUNCE)
    ensures o.cue == Some(JumpCue) ==>
      w.scene == Game && (e.SpacePressed? || (e.TouchStarted? && TouchZone(e.x) == CenterZone))
    ensures o.cue == Some(EnemyDefeatCue) ==> e.EnemyContact?
    ensures o.cue == Some(CoinCue) <==> e.CoinContact?
    ensures o.cue == Some(LevelCompleteCue) <==> e.GoalContact?
    ensures o.cue == Some(GameOverCue) ==> e.EnemyContact? && w.lives <= 1
    ensures o.impulse.None? <==> o.cue != Some(JumpCue) && o.cue != Some(EnemyDefeatCue)
  {
    match e
    case SpacePressed(g) =>
      if w.scene == Game then JumpOutput(g) else SILENT
    case TouchStarted(x, g) =>
      if w.scene == Game && TouchZone(x) == CenterZone then JumpOutput(g) else SILENT
    case EnemyContact(id) =>
      if IsStomp(w.player.value.y, w.enemies[id].pos.y) then Output(Some(EnemyDefeatCue), Some(STOMP_BOUNCE))
      else if w.lives - 1 <= 0 then Output(Some(GameOverCue), None)
      else SILENT
    case CoinContact(_) => Output(Some(CoinCue), None)
    case GoalContact => Output(Some(LevelCompleteCue), None)
    case _ => SILENT
  }

  /** A run of events from a world; events without a handler in the current state are not delivered. */
  function Run(w: World, es: seq<Event>): (r: World)
    requires Inv(w)
    ensures Inv(r)
    decreases |es|
  {
    if es == [] then w
    else if Enabled(w, es[0]) then Run(Next(w, es[0]), es[1..])
    else Run(w, es[1..])
  }
}
