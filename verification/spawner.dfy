/** The spawn timer of `Draw` (main.cpp:649-656): while the spawn tick lies in
    the past, spawn one box at a randomly chosen spawn point (when there is
    one) and move the spawn tick 2500 ms on. */
module Spawner {
  import opened Basics
  import opened Session
  import opened Feeding

  const SpawnPeriod: int := 2500

  /** The random choices of one iteration: `RAND_VECTORELEMENT` as an index
      into the spawn list (any index, taken modulo the list's length) and the
      `RAND_BOOL` user-data bit. */
  datatype SpawnDraw = SpawnDraw(slot: nat, cargo: Cargo)

  /** Iterations the loop makes: the number of 2500 ms increments that bring
      `next` to or past `now`. */
  function SpawnTicks(now: int, next: int): nat
  {
    if now > next then (now - next + SpawnPeriod - 1) / SpawnPeriod else 0
  }

  /** Banana boxes in a list of boxes. */
  function CountGood(bs: seq<Box>): nat
  {
    if |bs| == 0 then 0 else (if bs[0].cargo == Good then 1 else 0) + CountGood(bs[1..])
  }

  /** One iteration: the spawn (if the list is non-empty) then the tick move. */
  function SpawnOnce(g: GameState, d: SpawnDraw): GameState
  {
    var g1 := if |g.world.spawns| > 0 then SpawnBox(g, g.world.spawns[d.slot % |g.world.spawns|], d.cargo) else g;
    g1.(tickNextSpawn := g1.tickNextSpawn + SpawnPeriod)
  }

  /** One turn of the loop moves the spawn tick 2500 ms on. With no spawn
      point, or when `SpawnBox` refuses, nothing else changes; otherwise one
      box with the drawn cargo is appended at one of the spawn points, and
      left drops by one for a banana box. */
  lemma SpawnOnceSpawns(g: GameState, d: SpawnDraw)
    ensures var r := SpawnOnce(g, d);
      && r.tickNextSpawn == g.tickNextSpawn + SpawnPeriod
      && (|g.world.spawns| == 0 || SpawnRefused(g) ==> r == g.(tickNextSpawn := r.tickNextSpawn))
      && (|g.world.spawns| > 0 && !SpawnRefused(g) ==>
            && |r.world.created| == |g.world.created| + 1
            && r.world.created[..|g.world.created|] == g.world.created
            && r.world.created[|g.world.created|].pos in g.world.spawns
            && r.world.created[|g.world.created|].cargo == d.cargo
            && r.score.left == g.score.left - (if d.cargo == Good then 1 else 0))
  {
    if |g.world.spawns| > 0 && !SpawnRefused(g) {
      var c := g.world.created;
      var r := SpawnOnce(g, d);
      assert r.world.created == c + [Box(g.world.spawns[d.slot % |g.world.spawns|], d.cargo)];
      assert r.world.created[..|c|] == c;
    }
  }

  /** Each iteration uses up one of the counted increments. */
  lemma SpawnTicksStep(now: int, next: int)
    requires now > next
    ensures SpawnTicks(now, next) == 1 + SpawnTicks(now, next + SpawnPeriod)
  {
  }

  /** The loop from iteration `i` on; `draw(i)` are the random choices of
      iteration `i`. On exit the spawn tick is no longer in the past and has
      moved by exactly 2500 per iteration, the boxes made are appended to the
      world's, and need is untouched. */
  function SpawnLoop(g: GameState, now: int, draw: nat -> SpawnDraw, i: nat): (r: GameState)
    ensures now <= r.tickNextSpawn
    ensures r.tickNextSpawn == g.tickNextSpawn + SpawnPeriod * SpawnTicks(now, g.tickNextSpawn)
    ensures g.world.created <= r.world.created
    ensures r.score.need == g.score.need && r.score.left <= g.score.left
    ensures ScoreShown(g.score) ==> ScoreShown(r.score)
    ensures r.world == g.world.(created := r.world.created)
    ensures r == g.(score := r.score, world := r.world, tickNextSpawn := r.tickNextSpawn)
    decreases if now > g.tickNextSpawn then now - g.tickNextSpawn else 0
  {
    if now - g.tickNextSpawn > 0 then
      SpawnTicksStep(now, g.tickNextSpawn);
      SpawnLoop(SpawnOnce(g, draw(i)), now, draw, i + 1)
    else
      g
  }

  /** The boxes one run of the loop makes: at most one per iteration, each
      at one of the spawn points. */
  lemma {:induction false} SpawnLoopBoxes(g: GameState, now: int, draw: nat -> SpawnDraw, i: nat)
    ensures var r := SpawnLoop(g, now, draw, i);
      && |r.world.created| <= |g.world.created| + SpawnTicks(now, g.tickNextSpawn)
      && (forall k :: |g.world.created| <= k < |r.world.created| ==> r.world.created[k].pos in g.world.spawns)
    decreases if now > g.tickNextSpawn then now - g.tickNextSpawn else 0
  {
    if now - g.tickNextSpawn > 0 {
      SpawnTicksStep(now, g.tickNextSpawn);
      SpawnLoopBoxes(SpawnOnce(g, draw(i)), now, draw, i + 1);
    }
  }

  /** Left falls by exactly the number of banana boxes the run made. */
  lemma {:induction false} SpawnLoopLeft(g: GameState, now: int, draw: nat -> SpawnDraw, i: nat)
    ensures var r := SpawnLoop(g, now, draw, i);
      r.score.left == g.score.left - CountGood(r.world.created[|g.world.created|..])
    decreases if now > g.tickNextSpawn then now - g.tickNextSpawn else 0
  {
    if now - g.tickNextSpawn > 0 {
      var g1 := SpawnOnce(g, draw(i));
      SpawnLoopLeft(g1, now, draw, i + 1);
      var r := SpawnLoop(g1, now, draw, i + 1);
      assert SpawnLoop(g, now, draw, i) == r;
      var c0, c1 := |g.world.created|, |g1.world.created|;
      if c1 > c0 {
        var made := r.world.created[c0..];
        assert made[0] == g1.world.created[c0] && made[1..] == r.world.created[c1..];
      }
    }
  }

  /** With no spawn point the loop only moves the spawn tick. */
  lemma {:induction false} SpawnLoopWithoutPoints(g: GameState, now: int, draw: nat -> SpawnDraw, i: nat)
    requires |g.world.spawns| == 0
    ensures var r := SpawnLoop(g, now, draw, i); r == g.(tickNextSpawn := r.tickNextSpawn)
    decreases if now > g.tickNextSpawn then now - g.tickNextSpawn else 0
  {
    if now - g.tickNextSpawn > 0 {
      SpawnLoopWithoutPoints(SpawnOnce(g, draw(i)), now, draw, i + 1);
    }
  }

  /** On the title screen nothing gates spawning: with a spawn point present
      every iteration makes a box. */
  lemma {:induction false} TitleSpawnsEveryTick(g: GameState, now: int, draw: nat -> SpawnDraw, i: nat)
    requires g.mode == Title && |g.world.spawns| > 0
    ensures |SpawnLoop(g, now, draw, i).world.created| == |g.world.created| + SpawnTicks(now, g.tickNextSpawn)
    decreases if now > g.tickNextSpawn then now - g.tickNextSpawn else 0
  {
    if now - g.tickNextSpawn > 0 {
      SpawnTicksStep(now, g.tickNextSpawn);
      TitleSpawnsEveryTick(SpawnOnce(g, draw(i)), now, draw, i + 1);
    }
  }

  /** In play spawning stops exactly when left is used up: a left that was
      not negative never becomes negative, and an iteration that makes no box
      leaves left at or below zero. */
  lemma {:induction false} PlaySpawnsUntilDelivered(g: GameState, now: int, draw: nat -> SpawnDraw, i: nat)
    requires g.mode == Play && |g.world.spawns| > 0
    ensures var r := SpawnLoop(g, now, draw, i);
      && (g.score.left >= 0 ==> r.score.left >= 0)
      && (|r.world.created| < |g.world.created| + SpawnTicks(now, g.tickNextSpawn) ==> r.score.left <= 0)
    decreases if now > g.tickNextSpawn then now - g.tickNextSpawn else 0
  {
    if now - g.tickNextSpawn > 0 {
      SpawnTicksStep(now, g.tickNextSpawn);
      PlaySpawnsUntilDelivered(SpawnOnce(g, draw(i)), now, draw, i + 1);
    }
  }

  /** The loop as `Draw` runs it. */
  method RunSpawnTimer(g: GameState, now: int, draw: nat -> SpawnDraw) returns (r: GameState)
    ensures r == SpawnLoop(g, now, draw, 0)
    ensures now <= r.tickNextSpawn
  {
    r := g;
    var i: nat := 0;
    while now - r.tickNextSpawn > 0
      invariant SpawnLoop(r, now, draw, i) == SpawnLoop(g, now, draw, 0)
      decreases now - r.tickNextSpawn
    {
      if |r.world.spawns| > 0 {
        var d := draw(i);
        r := SpawnBox(r, r.world.spawns[d.slot % |r.world.spawns|], d.cargo);
      }
      r := r.(tickNextSpawn := r.tickNextSpawn + SpawnPeriod);
      i := i + 1;
    }
  }
}
