/** The per-stage construction scripts of `StartLevel` (main.cpp:249-447),
    as data: each stage's spawn points, belt placements and other fixtures
    (levers, bumpers, walls, the monster). Only the belts take part in the
    game logic, since the player can reverse them; positions and angles are
    main.cpp's literals. */
module Layout {
  import opened Basics
  import opened Belts

  /** Half the window height in world units: the display is opened at
      1280x720 and only its width may be resized (main.cpp:819). */
  const HalfHeight: real := 360.0

  /** One `MakeBelt` call, with the rotation (cos, sin) its body angle
      yields: exact for angle 0, to six decimals for the two rotated belts of
      stage 3. */
  datatype BeltSpot = BeltAt(pos: Vec, angle: real, rot: Vec, flip: bool)

  /** Any other `Make*` call; the game logic never edits these. */
  datatype Fixture =
    | LeverAt(pos: Vec, right: bool)
    | BumperAt(pos: Vec)
    | WallAt(pos: Vec, angle: real)
    | MonsterAt(pos: Vec)

  /** What one branch of `StartLevel` builds: spawn points in push order,
      belts in construction order, and the other fixtures in construction
      order. Only the relative order of the belts matters to the game logic:
      it is how the pointer section's probe names a belt. */
  datatype Layout = Layout(spawns: seq<Vec>, belts: seq<BeltSpot>, fixtures: seq<Fixture>)

  /** The branch `StartLevel` takes for a stage index: 0 to 5 have their own
      scripts; every other index (above 5 or negative) gets the final screen. */
  function StageLayout(s: int): Layout
  {
    if s == 0 then TitleStage
    else if s == 1 then Stage1
    else if s == 2 then Stage2
    else if s == 3 then Stage3
    else if s == 4 then Stage4
    else if s == 5 then Stage5
    else ClearedStage
  }

  /** The belt shapes the placements create, in the same order: each is
      the unreversed or reversed belt its `flip` asks for, at its spot. */
  function BuildBelts(spots: seq<BeltSpot>): (bs: seq<Belt>)
    ensures |bs| == |spots|
    ensures forall i :: 0 <= i < |bs| ==> WellFormed(bs[i])
    ensures forall i :: 0 <= i < |bs| ==>
      bs[i].reversed == spots[i].flip && bs[i].pose == Pose(spots[i].pos, spots[i].rot)
  {
    seq(|spots|, i requires 0 <= i < |spots| => MakeBelt(spots[i].pos, spots[i].rot, spots[i].flip))
  }

  /** Spawn points per stage: 2, 1, 1, 2, 3, 3 for stages 0 to 5, none otherwise. */
  function SpawnCount(s: int): nat
  {
    if s == 0 || s == 3 then 2
    else if s == 1 || s == 2 then 1
    else if s == 4 || s == 5 then 3
    else 0
  }

  lemma SpawnPointCounts(s: int)
    ensures |StageLayout(s).spawns| == SpawnCount(s)
  {
  }

  /** The two tilted belts of stage 3 run slanted in the world, yet both push
      cargo straight along the world x axis: the handler's force does not
      follow the belt's rotation. */
  lemma TiltedBeltsPushLevel()
    ensures var bs := BuildBelts(Stage3.belts);
      && |bs| == 3
      && bs[1].tb.y != bs[1].ta.y && PushForce(bs[1]) == V(PushMagnitude, 0.0)
      && bs[2].tb.y != bs[2].ta.y && PushForce(bs[2]) == V(PushMagnitude, 0.0)
  {
    var bs := BuildBelts(Stage3.belts);
    PushAlongBelt(bs[1]);
    PushAlongBelt(bs[2]);
  }

  /** main.cpp:249-287 */
  const TitleStage: Layout := Layout(
    [V(497.000000, 720.000000), V(-516.000000, 720.000000)],
    [
      BeltAt(V(-313.000000, 618.000000), 0.000000, Level, true),
      BeltAt(V(-312.000000, 521.000000), 0.000000, Level, false),
      BeltAt(V(-118.000000, 621.000000), 0.000000, Level, false),
      BeltAt(V(-118.000000, 520.000000), 0.000000, Level, false),
      BeltAt(V(-115.000000, 407.000000), 0.000000, Level, true),
      BeltAt(V(97.000000, 621.000000), 0.000000, Level, true),
      BeltAt(V(96.000000, 523.000000), 0.000000, Level, true),
      BeltAt(V(97.000000, 407.000000), 0.000000, Level, false)
    ],
    [
      LeverAt(V(643.000122, -7.000000), false),
      LeverAt(V(-643.000305, -3.000001), true),
      WallAt(V(-376.000000, 453.000000), 1.570796),
      WallAt(V(-376.000000, 570.000000), 1.570796),
      MonsterAt(V(-19.000000, 317.000000)),
      WallAt(V(-180.000000, 570.000000), 1.570796),
      WallAt(V(-181.000000, 450.000000), 1.570796),
      WallAt(V(27.000000, 570.000000), 1.570796),
      WallAt(V(28.000000, 455.000000), 1.570796),
      WallAt(V(261.000000, 623.000000), 0.000000),
      WallAt(V(332.000000, 574.000000), 1.963495),
      WallAt(V(259.000000, 408.000000), 0.000000),
      WallAt(V(333.000000, 459.000000), 1.178097),
      WallAt(V(209.000000, 458.000000), 1.570796),
      WallAt(V(209.000000, 572.000000), 1.570796),
      WallAt(V(-150.000000, 202.000000), 1.570796),
      WallAt(V(-151.000000, 263.000000), 0.000000),
      WallAt(V(29.000000, 197.000000), 1.570796),
      WallAt(V(8.000000, 263.000000), 0.000000),
      WallAt(V(-152.000000, 54.000000), 0.000000),
      WallAt(V(-150.000000, 111.000000), 1.570796),
      WallAt(V(67.000000, 263.000000), 0.000000),
      WallAt(V(29.000000, 105.000000), 1.570796),
      BumperAt(V(624.000000, 713.000000)),
      BumperAt(V(-621.000000, 715.000000))
    ])

  /** main.cpp:288-313 */
  const Stage1: Layout := Layout(
    [V(-109.000000, 675.000000)],
    [],
    [
      LeverAt(V(-110.000603, 282.999329), false),
      WallAt(V(-353.000000, 85.000000), 1.570796),
      WallAt(V(-193.000000, 419.000000), 1.570796),
      WallAt(V(-59.000000, 228.000000), -0.785398),
      WallAt(V(-158.000000, 232.000000), 0.785398),
      WallAt(V(-315.000000, 244.000000), 0.785398),
      WallAt(V(-304.000000, 24.000000), 0.000000),
      WallAt(V(-233.000000, 325.000000), 0.785398),
      WallAt(V(97.000000, 241.000000), 2.356194),
      WallAt(V(-253.000000, 24.000000), 0.000000),
      WallAt(V(-26.000000, 415.000000), -1.570796),
      WallAt(V(15.000000, 323.000000), -0.785398),
      WallAt(V(-353.000000, 147.000000), 1.570796),
      WallAt(V(138.000000, 144.000000), 1.570796),
      WallAt(V(-198.000000, 138.000000), 1.570796),
      MonsterAt(V(-275.000000, 77.000000)),
      WallAt(V(-19.000000, 132.000000), 1.570796),
      WallAt(V(159.000000, 34.000000), -1.178097),
      WallAt(V(-40.000000, 27.000000), -1.963495),
      WallAt(V(-198.000000, 75.000000), -1.570796)
    ])

  /** main.cpp:314-348 */
  const Stage2: Layout := Layout(
    [V(-350.0, 675.0)],
    [],
    [
      LeverAt(V(-335.055511, 485.944489), false),
      LeverAt(V(-245.024567, 404.975342), false),
      WallAt(V(-117.0, 254.0), 1.963495),
      WallAt(V(424.0, 243.0), -0.785398),
      WallAt(V(315.0, 666.0), -0.392699),
      WallAt(V(203.0, 688.0), 0.0),
      WallAt(V(424.0, 244.0), 0.785398),
      WallAt(V(-221.0, 257.0), 1.570796),
      WallAt(V(84.0, 688.0), 0.0),
      WallAt(V(-178.0, 345.0), 5.497787),
      WallAt(V(425.0, 199.0), 0.0),
      WallAt(V(-35.0, 688.0), 0.0),
      WallAt(V(-162.0, 206.0), 0.0),
      WallAt(V(426.0, 160.0), 0.785398),
      WallAt(V(-151.0, 688.0), 0.0),
      MonsterAt(V(421.0, 343.0)),
      WallAt(V(418.0, 160.0), 2.356194),
      WallAt(V(-221.0, 333.0), 1.570796),
      WallAt(V(422.0, 112.0), 0.0),
      WallAt(V(427.0, 289.0), 3.141593),
      WallAt(V(490.0, 399.0), 1.570796),
      WallAt(V(372.0, 56.0), 1.570796),
      WallAt(V(467.0, 511.0), 1.963495),
      WallAt(V(475.0, 57.0), 1.570796),
      WallAt(V(490.0, 339.0), 1.570796),
      WallAt(V(-220.0, 639.0), 1.570796),
      WallAt(V(-260.0, 687.0), 0.0),
      WallAt(V(405.0, 606.0), 2.356194),
      WallAt(V(-258.0, 646.0), 2.356194)
    ])

  /** main.cpp:349-377 */
  const Stage3: Layout := Layout(
    [V(-110.0, 675.0), V(308.0, 675.0)],
    [
      BeltAt(V(114.0, 210.0), 0.0, Level, true),
      BeltAt(V(-6.0, 89.0), -6.675885, V(0.923879, -0.382684), true),
      BeltAt(V(-93.0, 148.0), -0.785398, V(0.707107, -0.707107), true)
    ],
    [
      LeverAt(V(-105.000038, 445.999847), true),
      LeverAt(V(317.000977, 430.999023), false),
      WallAt(V(277.0, 370.0), 0.785398),
      WallAt(V(299.0, 311.0), -0.392699),
      WallAt(V(179.0, 688.0), 0.785398),
      WallAt(V(98.0, 486.0), 1.570796),
      WallAt(V(168.0, 143.0), 1.963495),
      WallAt(V(-131.0, 245.0), -1.570796),
      WallAt(V(75.0, 598.0), 1.963495),
      WallAt(V(95.0, 67.0), 0.0),
      WallAt(V(14.0, 691.0), 2.356194),
      WallAt(V(-62.0, 386.0), -0.785398),
      WallAt(V(-99.0, 370.0), 1.570796),
      WallAt(V(-82.0, 325.0), 0.392699),
      WallAt(V(146.0, 135.0), 1.570796),
      WallAt(V(338.0, 346.0), 1.963495),
      WallAt(V(205.0, 54.0), -1.178097),
      WallAt(V(118.0, 597.0), 1.178097),
      MonsterAt(V(86.0, 119.0))
    ])

  /** main.cpp:378-412 */
  const Stage4: Layout := Layout(
    [V(-152.0, 675.0), V(-5.0, 675.0), V(177.0, 675.0)],
    [],
    [
      LeverAt(V(-77.002007, 21.994591), false),
      LeverAt(V(33.000019, 17.999990), true),
      WallAt(V(564.0, 194.0), 1.570796),
      WallAt(V(-284.0, 226.0), -0.785398),
      WallAt(V(467.0, 11.0), 0.0),
      WallAt(V(-360.0, 643.0), 0.392699),
      WallAt(V(564.0, 314.0), 1.570796),
      WallAt(V(564.0, 434.0), 1.570796),
      BumperAt(V(-349.0, 323.0)),
      WallAt(V(564.0, 541.0), 1.570796),
      WallAt(V(527.0, 627.0), 2.356194),
      BumperAt(V(-426.0, 555.0)),
      WallAt(V(431.0, 668.0), 0.0),
      BumperAt(V(386.0, 585.0)),
      BumperAt(V(230.0, 439.0)),
      WallAt(V(338.0, 706.0), 2.356194),
      MonsterAt(V(491.0, 65.0)),
      WallAt(V(-201.0, 143.0), 2.356194),
      WallAt(V(320.0, 132.0), 1.963495),
      WallAt(V(-270.0, 703.0), 0.785398),
      BumperAt(V(27.0, 408.0)),
      WallAt(V(154.0, 144.0), 0.785398),
      WallAt(V(-406.0, 436.0), 1.963495),
      WallAt(V(514.0, 11.0), 0.0),
      WallAt(V(248.0, 183.0), -0.0),
      WallAt(V(564.0, 79.0), 1.570796),
      WallAt(V(378.0, 45.0), -0.785398)
    ])

  /** main.cpp:413-438 */
  const Stage5: Layout := Layout(
    [V(-164.0, 675.0), V(-17.0, 675.0), V(127.0, 675.0)],
    [
      BeltAt(V(-192.0, 541.0), 0.0, Level, true),
      BeltAt(V(178.0, 541.0), 0.0, Level, false),
      BeltAt(V(-100.0, 435.0), 0.0, Level, true),
      BeltAt(V(121.0, 435.0), 0.0, Level, false),
      BeltAt(V(-223.0, 326.0), 0.0, Level, false),
      BeltAt(V(15.0, 326.0), 0.0, Level, true),
      BeltAt(V(265.0, 326.0), 0.0, Level, true),
      BeltAt(V(-331.0, 232.0), 0.0, Level, false),
      BeltAt(V(-116.0, 232.0), 0.0, Level, false),
      BeltAt(V(126.0, 232.0), 0.0, Level, true),
      BeltAt(V(363.0, 232.0), 0.0, Level, true),
      BeltAt(V(-227.0, 103.0), 0.0, Level, false),
      BeltAt(V(7.0, 103.0), 0.0, Level, true),
      BeltAt(V(261.0, 103.0), 0.0, Level, true)
    ],
    [
      BumperAt(V(-484.0, 106.0)),
      BumperAt(V(504.0, 97.0)),
      WallAt(V(-111.0, -4.0), 0.0),
      MonsterAt(V(-111.0, 47.0))
    ])

  /** main.cpp:439-447 */
  const ClearedStage: Layout := Layout(
    [],
    [],
    [
      MonsterAt(V(-250.0, HalfHeight + 20.0)),
      MonsterAt(V(-125.0, HalfHeight + 20.0)),
      MonsterAt(V(0.0, HalfHeight + 20.0)),
      MonsterAt(V(125.0, HalfHeight + 20.0)),
      MonsterAt(V(250.0, HalfHeight + 20.0))
    ])
}
