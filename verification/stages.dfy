/** The stage loader `StartLevel` (main.cpp:230-458): tear the old world
    down, build the chosen stage, set the counters, the mode, the timers and
    the music volume. */
module Stages {
  import opened Basics
  import opened Captions
  import opened Belts
  import opened Layout
  import opened Session

  /** Last stage with its own script; any higher index is the final screen. */
  const LastStage: int := 5

  /** Delay from loading a stage to its first spawn. */
  const FirstSpawnDelay: int := 2000

  /** The `(need, left)` pair a stage's script writes, or `None` when the
      script leaves the counters as they were (title screen, final screen,
      and any index outside 1 to 5). Every playable stage needs some banana
      boxes and sends at least ten more than it needs. */
  function StageCounters(s: int): (r: Option<(int, int)>)
    ensures r.Some? <==> 1 <= s <= 5
    ensures r.Some? ==> 0 < r.value.0 && r.value.0 + 10 <= r.value.1
  {
    if s == 1 || s == 3 then Some((5, 15))
    else if s == 2 then Some((10, 20))
    else if s == 4 || s == 5 then Some((10, 30))
    else None
  }

  function StartMode(s: int): Mode
  {
    if s > LastStage then Finish else if s == 0 then Title else Play
  }

  function MusicVolume(s: int): int
  {
    if s == 0 then 100 else 60
  }

  /** The background colours are drawn again when the old stage is the title
      screen or differs from the new one; reloading the same playable stage
      keeps them. */
  predicate RerollsBackground(oldStage: int, s: int)
  {
    oldStage == 0 || oldStage != s
  }

  /** `StartLevel(s)` at tick `now`. The old world, its spawn points, belts,
      boxes and drag joints are gone and the mouse joint is cleared; the new
      world holds exactly the stage's layout. The accumulator `TICKSUM` and
      the previous frame's `boxesOnScreen` survive. */
  function StartLevel(g: GameState, s: int, now: int): (r: GameState)
    ensures r.mode == (if s > 5 then Finish else if s == 0 then Title else Play)
    ensures s == 1 || s == 3 ==> r.score.need == 5 && r.score.left == 15
    ensures s == 2 ==> r.score.need == 10 && r.score.left == 20
    ensures s == 4 || s == 5 ==> r.score.need == 10 && r.score.left == 30
    ensures !(1 <= s <= 5) ==> r.score == g.score
    ensures ScoreShown(g.score) ==> ScoreShown(r.score)
    ensures r.stage == s && StageShown(r)
    ensures r.modeTick == now && r.tickNextSpawn == now + 2000 && r.tickLastEat == 0
    ensures |r.world.spawns| == SpawnCount(s)
    ensures r.world.spawns == StageLayout(s).spawns
    ensures r.world.belts == BuildBelts(StageLayout(s).belts)
    ensures r.world.created == [] && !r.world.joint && r.world.dragJoints == 0
    ensures r.volume == Some(if s == 0 then 100 else 60)
    ensures r.tickSum == g.tickSum && r.boxesOnScreen == g.boxesOnScreen
    ensures r.backdrops == g.backdrops + (if g.stage == 0 || g.stage != s then 1 else 0)
  {
    var layout := StageLayout(s);
    var world := World(layout.spawns, BuildBelts(layout.belts), [], false, 0);
    var score :=
      match StageCounters(s)
      case Some((need, left)) => UpdateFoodLeft(UpdateFoodNeed(g.score, need), left)
      case None => g.score;
    SpawnPointCounts(s);
    var g1 := g.(
      world := world,
      score := score,
      backdrops := g.backdrops + (if RerollsBackground(g.stage, s) then 1 else 0),
      tickLastEat := 0,
      tickNextSpawn := now + FirstSpawnDelay,
      mode := StartMode(s),
      modeTick := now,
      volume := Some(MusicVolume(s)));
    UpdateStage(g1, s)
  }

  /** Teardown is complete: what survives a stage load is only the counters
      (for stages that keep them), the accumulator, the last on-screen count
      and the background bookkeeping. Two sessions that agree on those load
      to the same state, whatever their worlds, modes and timers were. */
  lemma StartLevelForgets(g1: GameState, g2: GameState, s: int, now: int)
    requires 1 <= s <= 5 || g1.score == g2.score
    requires g1.tickSum == g2.tickSum && g1.boxesOnScreen == g2.boxesOnScreen
    requires g1.backdrops == g2.backdrops && RerollsBackground(g1.stage, s) == RerollsBackground(g2.stage, s)
    ensures StartLevel(g1, s, now) == StartLevel(g2, s, now)
  {
  }

  /** Loading a playable stage twice at one tick is the same as loading it
      once: the second load rebuilds exactly what the first built. */
  lemma StartLevelIdempotent(g: GameState, s: int, now: int)
    requires s != 0
    ensures StartLevel(StartLevel(g, s, now), s, now) == StartLevel(g, s, now)
  {
  }
}
