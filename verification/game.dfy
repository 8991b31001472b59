/** One call of `Draw` (main.cpp:544-810) as a transition of the session,
    the boot sequence of `Init`, and the invariant every frame keeps. */
module Game {
  import opened Basics
  import opened Belts
  import opened Layout
  import opened Session
  import opened Feeding
  import opened Stages
  import opened Spawner
  import opened Stepper
  import opened Pointer
  import opened Modes

  /** Everything a frame learns from outside the game logic: the clock, the
      ticks since the last frame, the pointer and key events, the random
      draws of the spawn loop, the monster contacts of each physics step and
      the number of boxes the drawing pass found on screen. */
  datatype FrameInput = FrameInput(
    now: int,
    elapsed: nat,
    pointer: PointerInput,
    keys: Keys,
    draw: nat -> SpawnDraw,
    eaten: nat -> seq<Cargo>,
    drawn: nat)

  /** The session between frames, apart from the drag joints. Only the title
      screen has stage 0 and only the final screen stage 6; from stage 1 on
      the left counter is not negative; the world holds the stage's spawn
      points and belts (each belt possibly reversed); the captions and the
      music volume match the counters and the stage. */
  predicate Shaped(g: GameState)
  {
    && 0 <= g.stage <= 6
    && (g.mode == Title <==> g.stage == 0)
    && (g.mode == Finish <==> g.stage == 6)
    && (g.stage >= 1 ==> g.score.left >= 0)
    && g.world.spawns == StageLayout(g.stage).spawns
    && BeltsFrom(g.world.belts, BuildBelts(StageLayout(g.stage).belts))
    && (forall i :: 0 <= i < |g.world.belts| ==> WellFormed(g.world.belts[i]))
    && ScoreShown(g.score) && StageShown(g)
    && g.volume == Some(MusicVolume(g.stage))
  }

  /** The invariant of the corrected game: its shape, and at most the one
      drag joint `mouseJoint` refers to. */
  predicate Inv(g: GameState)
  {
    Shaped(g) && JointsAccounted(g.world)
  }

  /** The invariant the game as written keeps: its shape, and a set
      `mouseJoint` refers to a drag joint, though more may be in the world. */
  predicate InvAsWritten(g: GameState)
  {
    Shaped(g) && JointHeld(g.world)
  }

  /** `mouseJoint` and the drag joint count are as in `g`. */
  predicate SameJoints(r: GameState, g: GameState)
  {
    r.world.joint == g.world.joint && r.world.dragJoints == g.world.dragJoints
  }

  /** Neither `mouseJoint` nor any drag joint, as after a stage load. */
  predicate NoJoints(r: GameState)
  {
    !r.world.joint && r.world.dragJoints == 0
  }

  /** A stage load establishes the invariant for any stage from the title
      screen to the final one; the final screen keeps the counters, so it
      needs a left that was not negative. */
  lemma StartLevelEstablishesInv(g: GameState, s: int, now: int)
    requires 0 <= s <= 6 && ScoreShown(g.score)
    requires s == 6 ==> g.score.left >= 0
    ensures Inv(StartLevel(g, s, now)) && NoJoints(StartLevel(g, s, now))
  {
  }

  /** `Init` loads the title screen into the fresh globals. */
  function Boot(now: int): (r: GameState)
    ensures Inv(r) && r.mode == Title && r.stage == 0 && r.tickNextSpawn == now + FirstSpawnDelay
    ensures |r.world.spawns| == 2 && r.world.created == [] && r.tickSum == 0
    ensures r.score.need == 0 && r.score.left == 0
  {
    StartLevelEstablishesInv(Initial(), 0, now);
    StartLevel(Initial(), 0, now)
  }

  /** The state after the spawn timer, with the frame's ticks added to the
      step accumulator. */
  function Charged(g: GameState, inp: FrameInput): GameState
  {
    var s := SpawnLoop(g, inp.now, inp.draw, 0);
    s.(tickSum := s.tickSum + inp.elapsed)
  }

  /** The spawn timer and the physics loop, run on the title screen and in
      play only. */
  function Simulate(g: GameState, inp: FrameInput): GameState
  {
    if g.mode == Play || g.mode == Title then StepLoop(Charged(g, inp), inp.now, inp.eaten, 0).state else g
  }

  /** The frame after its pointer section: simulate, record the drawn box
      count, then the mode's input branch. */
  function Advance(g: GameState, inp: FrameInput): GameState
  {
    ModeInput(Simulate(g, inp).(boxesOnScreen := inp.drawn), inp.pointer.down, inp.keys, inp.now)
  }

  /** A frame as written: the pointer section runs only when the frame
      starts in play. */
  function FrameAsWritten(g: GameState, inp: FrameInput): GameState
  {
    Advance(if g.mode == Play then g.(world := PointerAsWritten(g.world, inp.pointer)) else g, inp)
  }

  /** The shape carries over to a state with the same stage, world layout,
      joints, stage caption and volume, whose counters still show and whose
      mode still matches the stage. */
  lemma ShapeCarries(g: GameState, r: GameState)
    requires Shaped(g)
    requires r.stage == g.stage && r.stageText == g.stageText && r.volume == g.volume
    requires r.world == g.world.(created := r.world.created)
    requires ScoreShown(r.score) && (r.stage >= 1 ==> r.score.left >= 0)
    requires (r.mode == Title <==> r.stage == 0) && (r.mode == Finish <==> r.stage == 6)
    ensures Shaped(r) && SameJoints(r, g)
  {
  }

  /** The spawn timer keeps the shape, the joints, the mode and the stage. */
  lemma SpawnKeepsShape(g: GameState, now: int, draw: nat -> SpawnDraw)
    requires Shaped(g) && (g.mode == Play || g.mode == Title)
    ensures var r := SpawnLoop(g, now, draw, 0); Shaped(r) && SameJoints(r, g) && r.mode == g.mode && r.stage == g.stage
  {
    var r := SpawnLoop(g, now, draw, 0);
    if g.mode == Play {
      if |g.world.spawns| > 0 {
        PlaySpawnsUntilDelivered(g, now, draw, 0);
      } else {
        SpawnLoopWithoutPoints(g, now, draw, 0);
      }
      assert r.score.left >= 0;
    }
    ShapeCarries(g, r);
  }

  /** The physics loop keeps the shape, the joints and the stage, and
      changes the mode only from play to Clear or GameOver. */
  lemma StepKeepsShape(g: GameState, now: int, eaten: nat -> seq<Cargo>)
    requires Shaped(g)
    ensures var r := StepLoop(g, now, eaten, 0).state;
      Shaped(r) && SameJoints(r, g) && r.stage == g.stage
      && (r.mode != g.mode ==> g.mode == Play && (r.mode == Clear || r.mode == GameOver))
  {
    StepLoopFrame(g, now, eaten, 0);
    StepLoopAccounting(g, now, eaten, 0);
    StepLoopStops(g, now, eaten, 0);
    var r := StepLoop(g, now, eaten, 0).state;
    assert r.mode != g.mode ==> g.mode == Play && (r.mode == Clear || r.mode == GameOver);
    ShapeCarries(g, r);
  }

  /** The simulation keeps the shape: spawning and stepping leave the stage,
      the spawn points, belts and joints alone, never drive a non-negative
      left below zero in play, and change the mode only from play to Clear
      or GameOver. */
  lemma SimulateKeepsShape(g: GameState, inp: FrameInput)
    requires Shaped(g)
    ensures var r := Simulate(g, inp);
      Shaped(r) && SameJoints(r, g) && r.stage == g.stage
      && (r.mode != g.mode ==> g.mode == Play && (r.mode == Clear || r.mode == GameOver))
  {
    if g.mode == Play || g.mode == Title {
      var t := Charged(g, inp);
      assert Shaped(t) && SameJoints(t, g) && t.mode == g.mode && t.stage == g.stage by {
        SpawnKeepsShape(g, inp.now, inp.draw);
        ShapeCarries(SpawnLoop(g, inp.now, inp.draw, 0), t);
      }
      StepKeepsShape(t, inp.now, inp.eaten);
    }
  }

  /** The mode input keeps the shape: every branch either changes only the
      mode between play and pause, keeping the joints, or loads a stage from
      0 to 6, which leaves no joint. */
  lemma ModeInputKeepsShape(g: GameState, click: bool, k: Keys, now: int)
    requires Shaped(g)
    requires g.mode in {Play, Pause, GameOver, Clear} ==> 1 <= g.stage <= 5
    ensures var r := ModeInput(g, click, k, now); Shaped(r) && (SameJoints(r, g) || NoJoints(r))
  {
    var r := ModeInput(g, click, k, now);
    match g.mode
    case Title =>
      if click || k.space {
        StartLevelEstablishesInv(g, 1, now);
        assert r == StartLevel(g, 1, now);
      } else {
        assert r == g;
      }
    case Play =>
      assert r == g.(mode := r.mode) && r.mode in {Play, Pause};
    case Pause =>
      if k.escape || click || k.space {
        assert r == g.(mode := Play);
      } else if k.q {
        StartLevelEstablishesInv(g, 0, now);
        assert r == StartLevel(g, 0, now);
      } else if k.r {
        StartLevelEstablishesInv(g, g.stage, now);
        assert r == StartLevel(g, g.stage, now);
      } else {
        assert r == g;
      }
    case GameOver =>
      if now - g.modeTick > AcceptDelay && (click || k.space) {
        StartLevelEstablishesInv(g, g.stage, now);
        assert r == StartLevel(g, g.stage, now);
      } else {
        assert r == g;
      }
    case Clear =>
      if now - g.modeTick > ClearDelay {
        StartLevelEstablishesInv(g, g.stage + 1, now);
        assert r == StartLevel(g, g.stage + 1, now);
      } else {
        assert r == g;
      }
    case Finish =>
      if now - g.modeTick > AcceptDelay && (click || k.space) {
        StartLevelEstablishesInv(g, 1, now);
        assert r == StartLevel(g, 1, now);
      } else {
        assert r == g;
      }
  }

  /** A frame with the replacing press. */
  function Frame(g: GameState, inp: FrameInput): GameState
  {
    Advance(if g.mode == Play then g.(world := PointerStep(g.world, inp.pointer)) else g, inp)
  }

  /** Outside play the pointer counts only as a click: what the queries at
      the pointer find, and whether it was released, change nothing. */
  lemma PointerOnlyInPlay(g: GameState, inp: FrameInput)
    requires g.mode != Play
    ensures var bare := inp.(pointer := PointerInput(inp.pointer.down, false, NoGrab, NoBelt));
      Frame(g, inp) == Frame(g, bare) && FrameAsWritten(g, inp) == FrameAsWritten(g, bare)
  {
  }

  /** What any frame does, in both versions: it records the drawn box
      count; the stage changes only through a stage load at the frame's
      tick, which leaves no box and no joint; and a paused frame without a
      press or a key changes nothing else. */
  lemma FrameEffects(g: GameState, inp: FrameInput)
    ensures var r1, r2 := Frame(g, inp), FrameAsWritten(g, inp);
      && r1.boxesOnScreen == inp.drawn && r2.boxesOnScreen == inp.drawn
      && (r1.stage != g.stage ==> r1.modeTick == inp.now && r1.world.created == [] && NoJoints(r1))
      && (r2.stage != g.stage ==> r2.modeTick == inp.now && r2.world.created == [] && NoJoints(r2))
      && (g.mode == Pause && !inp.pointer.down && inp.keys == Keys(false, false, false, false) ==>
            r1 == g.(boxesOnScreen := inp.drawn) && r2 == r1)
  {
    AdvanceEffects(if g.mode == Play then g.(world := PointerStep(g.world, inp.pointer)) else g, inp);
    AdvanceEffects(if g.mode == Play then g.(world := PointerAsWritten(g.world, inp.pointer)) else g, inp);
  }

  /** The part of `FrameEffects` after the pointer section. */
  lemma AdvanceEffects(g: GameState, inp: FrameInput)
    ensures var r := Advance(g, inp);
      && r.boxesOnScreen == inp.drawn
      && (r.stage != g.stage ==> r.modeTick == inp.now && r.world.created == [] && NoJoints(r))
      && (g.mode == Pause && !inp.pointer.down && inp.keys == Keys(false, false, false, false) ==>
            r == g.(boxesOnScreen := inp.drawn))
  {
    SimulateKeepsStage(g, inp);
  }

  /** Spawning and stepping never change the stage. */
  lemma SimulateKeepsStage(g: GameState, inp: FrameInput)
    ensures Simulate(g, inp).stage == g.stage
  {
    if g.mode == Play || g.mode == Title {
      StepLoopFrame(Charged(g, inp), inp.now, inp.eaten, 0);
    }
  }

  /** Every frame keeps the invariant. */
  lemma FrameKeepsInv(g: GameState, inp: FrameInput)
    requires Inv(g)
    ensures Inv(Frame(g, inp))
  {
    var g0 := if g.mode == Play then g.(world := PointerStep(g.world, inp.pointer)) else g;
    if g.mode == Play {
      PointerKeepsInvariant(g.world, inp.pointer, BuildBelts(StageLayout(g.stage).belts));
    }
    assert Inv(g0);
    SimulateKeepsShape(g0, inp);
    ModeInputKeepsShape(Simulate(g0, inp).(boxesOnScreen := inp.drawn), inp.pointer.down, inp.keys, inp.now);
  }

  /** Every frame of the game as written keeps the weaker invariant: all of
      the session's shape, and a set `mouseJoint` still refers to a joint. */
  lemma FrameAsWrittenKeepsInv(g: GameState, inp: FrameInput)
    requires InvAsWritten(g)
    ensures InvAsWritten(FrameAsWritten(g, inp))
  {
    var g0 := if g.mode == Play then g.(world := PointerAsWritten(g.world, inp.pointer)) else g;
    if g.mode == Play {
      PointerAsWrittenCountsJoint(g.world, inp.pointer, BuildBelts(StageLayout(g.stage).belts));
    }
    assert InvAsWritten(g0);
    SimulateKeepsShape(g0, inp);
    ModeInputKeepsShape(Simulate(g0, inp).(boxesOnScreen := inp.drawn), inp.pointer.down, inp.keys, inp.now);
  }
}
