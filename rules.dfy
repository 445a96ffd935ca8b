/**
  The small decision rules of the game scene: the stomp-versus-hit test, the
  fall-off-the-world test, the touch zones, the jump gate and the enemy patrol
  step. Positions are world coordinates as the engine reports them.
 */
module Rules {

  import opened Wrappers
  import opened Levels

  const PLAYER_SPEED: real := 200.0
  const JUMP_FORCE: real := 500.0

  /** The vertical impulse of the bounce after a stomp (`JUMP_FORCE * 0.5`). */
  const STOMP_BOUNCE: real := JUMP_FORCE * 0.5

  /** A live enemy: position, patrol direction and patrol speed. */
  datatype Enemy = Enemy(pos: Vec2, dir: int, speed: int)

  /** A live coin: position, the y it floats around, and its phase offset (`index * 60`). */
  datatype Coin = Coin(pos: Vec2, baseY: real, floatOffset: int)

  predicate PatrolsProperly(e: Enemy)
  {
    (e.dir == -1 || e.dir == 1) && e.speed > 0
  }

  /**
    `player.pos.y < enemy.pos.y - 10`: the player landed on top of the enemy.
    Screen y grows downwards, so "above by more than 10" is a stomp; a gap of
    exactly 10, a smaller gap or a reversed one is a hit.
   */
  function IsStomp(playerY: real, enemyY: real): (stomp: bool)
    ensures stomp <==> enemyY - playerY > 10.0
  {
    playerY < enemyY - 10.0
  }

  /** `player.pos.y > height() + 100`: the player has fallen below the world. */
  function FellOff(playerY: real): (fell: bool)
    ensures fell <==> playerY - HEIGHT > 100.0
  {
    playerY > HEIGHT + 100.0
  }

  datatype Zone = LeftZone | CenterZone | RightZone

  /**
    The touch zone of a tap at screen x: the left third moves left, the right
    third moves right, the middle third (both boundaries included) jumps.
   */
  function TouchZone(x: real): (z: Zone)
    ensures z == LeftZone <==> x < WIDTH / 3.0
    ensures z == RightZone <==> x > WIDTH * 2.0 / 3.0
    ensures z == CenterZone <==> WIDTH / 3.0 <= x <= WIDTH * 2.0 / 3.0
  {
    if x < WIDTH / 3.0 then LeftZone
    else if x > WIDTH * 2.0 / 3.0 then RightZone
    else CenterZone
  }

  function ZoneRank(z: Zone): nat
  {
    match z
    case LeftZone => 0
    case CenterZone => 1
    case RightZone => 2
  }

  /** Zones are ordered left to right: a tap further right is never in a zone further left. */
  lemma TouchZoneMonotone(x1: real, x2: real)
    requires x1 <= x2
    ensures ZoneRank(TouchZone(x1)) <= ZoneRank(TouchZone(x2))
  {
  }

  /**
    The jump gate shared by the space key and the centre tap: a grounded
    player gets the jump impulse, an airborne request is silently ignored.
   */
  function JumpImpulse(grounded: bool): (impulse: Option<real>)
    ensures impulse.Some? <==> grounded
    ensures impulse.Some? ==> impulse.value == JUMP_FORCE
  {
    if grounded then Some(JUMP_FORCE) else None
  }

  /** How many of the given inputs are active. */
  function Held(inputs: seq<bool>): (n: nat)
    ensures n <= |inputs|
    ensures n == 0 <==> forall i :: 0 <= i < |inputs| ==> !inputs[i]
  {
    if inputs == [] then 0 else (if inputs[0] then 1 else 0) + Held(inputs[1..])
  }

  /**
    The horizontal speed the player is moved at during one tick: each held
    arrow key and each active touch flag calls `move` with its own speed, so
    the speed is `PLAYER_SPEED` per rightward input less `PLAYER_SPEED` per
    leftward input.
   */
  function Drift(keyLeft: bool, keyRight: bool, touchLeft: bool, touchRight: bool): (v: real)
    ensures v == PLAYER_SPEED * (Held([keyRight, touchRight]) as real - Held([keyLeft, touchLeft]) as real)
    ensures -2.0 * PLAYER_SPEED <= v <= 2.0 * PLAYER_SPEED
    ensures !keyLeft && !touchLeft ==> v >= 0.0
    ensures !keyRight && !touchRight ==> v <= 0.0
  {
    (if keyLeft then -PLAYER_SPEED else 0.0) + (if keyRight then PLAYER_SPEED else 0.0)
    + (if touchLeft then -PLAYER_SPEED else 0.0) + (if touchRight then PLAYER_SPEED else 0.0)
  }

  /** Mirroring every input mirrors the drift. */
  lemma DriftMirror(keyLeft: bool, keyRight: bool, touchLeft: bool, touchRight: bool)
    ensures Drift(keyRight, keyLeft, touchRight, touchLeft) == -Drift(keyLeft, keyRight, touchLeft, touchRight)
  {
  }

  /** `x <= 50 || x >= width() - 50`: the enemy is at a patrol bound. */
  predicate AtPatrolBound(x: real)
  {
    x <= 50.0 || x >= WIDTH - 50.0
  }

  /** The engine's `move(velocity, 0)` over a frame of `dt` seconds: the horizontal distance covered. */
  function MoveBy(velocity: real, dt: real): real
  {
    velocity * dt
  }

  /**
    One patrol tick of `dt` seconds: the enemy moves at `dir * speed`
    horizontally and then reverses its direction if it is at a patrol bound.
   */
  function PatrolStep(e: Enemy, dt: real): (r: Enemy)
    ensures r.pos.y == e.pos.y && r.speed == e.speed
    ensures r.pos.x == e.pos.x + MoveBy((e.dir * e.speed) as real, dt)
    ensures r.dir == (if AtPatrolBound(r.pos.x) then -e.dir else e.dir)
    ensures PatrolsProperly(e) ==> PatrolsProperly(r)
  {
    var x := e.pos.x + MoveBy((e.dir * e.speed) as real, dt);
    Enemy(Vec2(x, e.pos.y), if AtPatrolBound(x) then -e.dir else e.dir, e.speed)
  }

  /**
    A reversal never traps an enemy: after it turns at a bound, a second tick
    of the same length brings it back to where it started, and if that start
    was strictly between the bounds it keeps its new direction.
   */
  lemma PatrolBounceReturns(e: Enemy, dt: real)
    requires AtPatrolBound(PatrolStep(e, dt).pos.x)
    ensures PatrolStep(PatrolStep(e, dt), dt).pos.x == e.pos.x
    ensures !AtPatrolBound(e.pos.x) ==> PatrolStep(PatrolStep(e, dt), dt).dir == -e.dir
  {
  }
}
