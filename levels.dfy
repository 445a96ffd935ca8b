/** The Option type used for lookups that may find nothing. */
module Wrappers {

  datatype Option<+T> = None | Some(value: T)
}

/**
  The static level catalog of the platformer: three hand-authored levels keyed
  by level number. A level number with no entry is the signal that every level
  has been completed.
 */
module Levels {

  import opened Wrappers

  /** Canvas size the game is created with. */
  const WIDTH: real := 1024.0
  const HEIGHT: real := 576.0

  /** The y coordinate of the ground row of platforms (`height() - 32`). */
  const GROUND_Y: real := HEIGHT - 32.0

  datatype Vec2 = Vec2(x: real, y: real)

  /** An enemy as authored: spawn position, initial direction (-1 or +1) and speed. */
  datatype EnemySpec = EnemySpec(pos: Vec2, dir: int, speed: int)

  datatype LevelDef = LevelDef(
    playerStart: Vec2,
    platforms: seq<Vec2>,
    enemies: seq<EnemySpec>,
    coins: seq<Vec2>,
    goal: Vec2)

  /** Every authored enemy patrols in one of the two directions at a positive speed. */
  predicate WellFormed(lv: LevelDef)
  {
    forall i :: 0 <= i < |lv.enemies| ==>
      (lv.enemies[i].dir == -1 || lv.enemies[i].dir == 1) && lv.enemies[i].speed > 0
  }

  function Level1(): LevelDef
  {
    LevelDef(Vec2(100.0, 400.0), Platforms1(), Enemies1(), Coins1(), Vec2(900.0, 330.0))
  }

  function Platforms1(): seq<Vec2>
  {
    [Vec2(0.0, GROUND_Y), Vec2(64.0, GROUND_Y), Vec2(128.0, GROUND_Y), Vec2(192.0, GROUND_Y),
     Vec2(256.0, GROUND_Y), Vec2(320.0, GROUND_Y), Vec2(384.0, GROUND_Y), Vec2(448.0, GROUND_Y),
     Vec2(512.0, GROUND_Y), Vec2(576.0, GROUND_Y), Vec2(640.0, GROUND_Y), Vec2(704.0, GROUND_Y),
     Vec2(768.0, GROUND_Y), Vec2(832.0, GROUND_Y), Vec2(896.0, GROUND_Y), Vec2(960.0, GROUND_Y)]
    + [Vec2(300.0, 450.0), Vec2(500.0, 400.0), Vec2(700.0, 420.0), Vec2(800.0, 380.0)]
  }

  function Enemies1(): seq<EnemySpec>
  {
    [EnemySpec(Vec2(400.0, 480.0), 1, 50), EnemySpec(Vec2(600.0, 370.0), -1, 30)]
  }

  function Coins1(): seq<Vec2>
  {
    [Vec2(350.0, 400.0), Vec2(550.0, 350.0), Vec2(750.0, 370.0), Vec2(850.0, 330.0)]
  }

  function Level2(): LevelDef
  {
    LevelDef(Vec2(100.0, 400.0), Platforms2(), Enemies2(), Coins2(), Vec2(950.0, 270.0))
  }

  function Platforms2(): seq<Vec2>
  {
    [Vec2(0.0, GROUND_Y), Vec2(64.0, GROUND_Y), Vec2(128.0, GROUND_Y), Vec2(256.0, GROUND_Y),
     Vec2(320.0, GROUND_Y), Vec2(448.0, GROUND_Y), Vec2(512.0, GROUND_Y), Vec2(640.0, GROUND_Y),
     Vec2(704.0, GROUND_Y), Vec2(832.0, GROUND_Y), Vec2(896.0, GROUND_Y), Vec2(960.0, GROUND_Y)]
    + [Vec2(200.0, 450.0), Vec2(380.0, 420.0), Vec2(580.0, 380.0), Vec2(750.0, 350.0),
       Vec2(900.0, 320.0), Vec2(600.0, 280.0), Vec2(400.0, 250.0)]
  }

  function Enemies2(): seq<EnemySpec>
  {
    [EnemySpec(Vec2(300.0, 480.0), 1, 60), EnemySpec(Vec2(500.0, 350.0), -1, 40),
     EnemySpec(Vec2(700.0, 320.0), 1, 70)]
  }

  function Coins2(): seq<Vec2>
  {
    [Vec2(250.0, 400.0), Vec2(430.0, 370.0), Vec2(630.0, 330.0), Vec2(800.0, 300.0),
     Vec2(950.0, 270.0), Vec2(650.0, 230.0)]
  }

  function Level3(): LevelDef
  {
    LevelDef(Vec2(100.0, 400.0), Platforms3(), Enemies3(), Coins3(), Vec2(950.0, 150.0))
  }

  function Platforms3(): seq<Vec2>
  {
    [Vec2(0.0, GROUND_Y), Vec2(64.0, GROUND_Y), Vec2(960.0, GROUND_Y)]
    + [Vec2(200.0, 450.0), Vec2(300.0, 420.0), Vec2(450.0, 390.0), Vec2(600.0, 360.0),
       Vec2(750.0, 340.0), Vec2(500.0, 320.0), Vec2(350.0, 300.0), Vec2(650.0, 280.0),
       Vec2(800.0, 260.0), Vec2(400.0, 240.0), Vec2(700.0, 220.0), Vec2(900.0, 200.0)]
  }

  function Enemies3(): seq<EnemySpec>
  {
    [EnemySpec(Vec2(250.0, 420.0), 1, 80), EnemySpec(Vec2(500.0, 290.0), -1, 60),
     EnemySpec(Vec2(700.0, 190.0), 1, 90), EnemySpec(Vec2(850.0, 170.0), -1, 50)]
  }

  function Coins3(): seq<Vec2>
  {
    [Vec2(250.0, 400.0), Vec2(400.0, 370.0), Vec2(550.0, 340.0), Vec2(700.0, 310.0),
     Vec2(550.0, 270.0), Vec2(400.0, 190.0), Vec2(700.0, 170.0), Vec2(850.0, 150.0),
     Vec2(450.0, 170.0), Vec2(750.0, 150.0)]
  }

  /**
    `levels[n]`: the definition of level `n`, or None when the catalog has no
    such level. Only the numbers 1, 2 and 3 have entries, every entry is well
    formed (see CatalogWellFormed), and every level starts the player at (100, 400).
   */
  function LevelFor(n: int): (r: Option<LevelDef>)
    ensures r.Some? <==> 1 <= n <= 3
    ensures r.Some? ==> r.value.playerStart == Vec2(100.0, 400.0)
  {
    if n == 1 then Some(Level1())
    else if n == 2 then Some(Level2())
    else if n == 3 then Some(Level3())
    else None
  }

  /** Every enemy of every authored level has direction -1 or +1 and a positive speed. */
  lemma CatalogWellFormed(n: int)
    requires LevelFor(n).Some?
    ensures WellFormed(LevelFor(n).value)
  {
    if n == 1 {
      Level1Facts();
    } else if n == 2 {
      Level2Facts();
    } else {
      Level3Facts();
    }
  }

  /** The authored entity counts: 20/19/15 platforms, 2/3/4 enemies, 4/6/10 coins. */
  lemma CatalogSizes(n: int)
    requires LevelFor(n).Some?
    ensures |LevelFor(n).value.platforms| == [20, 19, 15][n - 1]
    ensures |LevelFor(n).value.enemies| == [2, 3, 4][n - 1]
    ensures |LevelFor(n).value.coins| == [4, 6, 10][n - 1]
  {
    if n == 1 {
      Level1Facts();
    } else if n == 2 {
      Level2Facts();
    } else {
      Level3Facts();
    }
  }

  lemma Level1Facts()
    ensures WellFormed(Level1())
    ensures |Platforms1()| == 20 && |Enemies1()| == 2 && |Coins1()| == 4
  {
  }

  lemma Level2Facts()
    ensures WellFormed(Level2())
    ensures |Platforms2()| == 19 && |Enemies2()| == 3 && |Coins2()| == 6
  {
  }

  lemma Level3Facts()
    ensures WellFormed(Level3())
    ensures |Platforms3()| == 15 && |Enemies3()| == 4 && |Coins3()| == 10
  {
  }

  /** Every level's goal lies inside the canvas, to the right of the player's start. */
  lemma GoalsInsideCanvas(n: int)
    requires LevelFor(n).Some?
    ensures 0.0 < LevelFor(n).value.goal.x < WIDTH
    ensures 0.0 < LevelFor(n).value.goal.y < HEIGHT
    ensures LevelFor(n).value.playerStart.x < LevelFor(n).value.goal.x
  {
  }
}
