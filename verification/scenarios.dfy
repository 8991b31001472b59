/** Runs of several frames: the invariant over any run, and concrete
    sessions that show the title screen's first spawn, a stage won by
    feeding, and the drag joint a pause can leave behind. */
module Scenarios {
  import opened Basics
  import opened Session
  import opened Feeding
  import opened Spawner
  import opened Stepper
  import opened Pointer
  import opened Modes
  import opened Game

  /** Frames applied in order. */
  function Run(g: GameState, ins: seq<FrameInput>): GameState
    decreases |ins|
  {
    if |ins| == 0 then g else Run(Frame(g, ins[0]), ins[1..])
  }

  function RunAsWritten(g: GameState, ins: seq<FrameInput>): GameState
    decreases |ins|
  {
    if |ins| == 0 then g else RunAsWritten(FrameAsWritten(g, ins[0]), ins[1..])
  }

  /** A session satisfying the invariant still satisfies it after any number
      of frames. */
  lemma {:induction false} RunKeepsInv(g: GameState, ins: seq<FrameInput>)
    requires Inv(g)
    ensures Inv(Run(g, ins))
    decreases |ins|
  {
    if |ins| > 0 {
      FrameKeepsInv(g, ins[0]);
      RunKeepsInv(Frame(g, ins[0]), ins[1..]);
    }
  }

  /** Every session started by `Init` satisfies the invariant after any
      number of frames. */
  lemma BootedRunKeepsInv(now: int, ins: seq<FrameInput>)
    ensures Inv(Run(Boot(now), ins))
  {
    RunKeepsInv(Boot(now), ins);
  }

  /** The game as written keeps its weaker invariant over any number of
      frames. */
  lemma {:induction false} RunAsWrittenKeepsInv(g: GameState, ins: seq<FrameInput>)
    requires InvAsWritten(g)
    ensures InvAsWritten(RunAsWritten(g, ins))
    decreases |ins|
  {
    if |ins| > 0 {
      FrameAsWrittenKeepsInv(g, ins[0]);
      RunAsWrittenKeepsInv(FrameAsWritten(g, ins[0]), ins[1..]);
    }
  }

  /** Every session of the game as written, started by `Init`, keeps the
      weaker invariant after any number of frames. */
  lemma BootedRunAsWrittenKeepsInv(now: int, ins: seq<FrameInput>)
    ensures InvAsWritten(RunAsWritten(Boot(now), ins))
  {
    RunAsWrittenKeepsInv(Boot(now), ins);
  }

  const NoPointer: PointerInput := PointerInput(false, false, NoGrab, NoBelt)
  const NoKeys: Keys := Keys(false, false, false, false)

  /** A frame at `now` with the given pointer and keys, no elapsed ticks, no
      contacts, and every spawn drawing the first point and a banana box. */
  function At(now: int, p: PointerInput, k: Keys): FrameInput
  {
    FrameInput(now, 0, p, k, FirstPointGood, NoContacts, 0)
  }

  function FirstPointGood(i: nat): SpawnDraw
  {
    SpawnDraw(0, Good)
  }

  function NoContacts(i: nat): seq<Cargo>
  {
    []
  }

  /** Two seconds after boot the title screen drops its first box, a banana
      box at the first spawn point, and left, which the title screen never
      set, falls to -1. */
  lemma TitleFirstSpawn(t: int)
    ensures var r := Frame(Boot(t), At(t + 2001, NoPointer, NoKeys));
      r.mode == Title && r.world.created == [Box(V(497.0, 720.0), Good)] && r.score.left == -1
      && r.tickNextSpawn == t + 4500
  {
    var g := Boot(t);
    var inp := At(t + 2001, NoPointer, NoKeys);
    assert g.world.spawns[0] == V(497.0, 720.0);
    var g1 := SpawnOnce(g, SpawnDraw(0, Good));
    assert g1.world.created == [Box(V(497.0, 720.0), Good)] && g1.score.left == -1;
    assert g1.tickNextSpawn == t + 4500;
    assert SpawnLoop(g1, t + 2001, FirstPointGood, 1) == g1;
    assert SpawnLoop(g, t + 2001, FirstPointGood, 0) == g1;
    QuietSimulate(g1, inp);
  }

  /** A play frame whose first physics step feeds need down to zero ends in
      Clear at that frame's tick, at the same stage, whatever else happens. */
  lemma FeedingClears(g: GameState, inp: FrameInput)
    requires Inv(g) && g.mode == Play
    requires g.tickSum + inp.elapsed > StepTicks
    requires g.score.need - Count(inp.eaten(0), Good) + Count(inp.eaten(0), Poison) <= 0
    ensures var r := Frame(g, inp); r.mode == Clear && r.stage == g.stage && r.modeTick == inp.now
  {
    var g0 := g.(world := PointerStep(g.world, inp.pointer));
    var t := Charged(g0, inp);
    var g1 := Step(t, inp.eaten(0), inp.now);
    assert g1.mode == Clear;
    assert StepLoop(t, inp.now, inp.eaten, 0) == Stepped(g1, 1);
    assert Simulate(g0, inp) == g1;
  }

  /** A frame before the spawn tick, adding no ticks to an accumulator
      that cannot step, simulates nothing. */
  lemma QuietSimulate(g: GameState, inp: FrameInput)
    requires inp.now <= g.tickNextSpawn && inp.elapsed == 0 && g.tickSum <= StepTicks
    ensures Simulate(g, inp) == g
  {
    assert SpawnLoop(g, inp.now, inp.draw, 0) == g;
    assert StepLoop(g, inp.now, inp.eaten, 0) == Stepped(g, 0);
  }

  /** A state none of the frames of `PausedRelease` can spawn or step in. */
  predicate Calm(g: GameState)
  {
    g.tickNextSpawn >= 6 && g.tickSum <= StepTicks
  }

  /** Preconditions shared by the single-frame lemmas below. */
  predicate Quiet(g: GameState, inp: FrameInput)
  {
    inp.now <= g.tickNextSpawn && inp.elapsed == 0 && g.tickSum <= StepTicks
  }

  /** A click on the title screen loads stage 1 in both versions. */
  lemma ClickStarts(g: GameState, inp: FrameInput)
    requires Quiet(g, inp) && g.mode == Title && inp.pointer.down
    ensures var r := Frame(g, inp);
      && r == FrameAsWritten(g, inp)
      && r.mode == Play && r.stage == 1 && !r.world.joint && r.world.dragJoints == 0
      && r.tickSum == g.tickSum && r.tickNextSpawn == inp.now + 2000
  {
    QuietSimulate(g, inp);
  }

  /** A grab in play with no release in the same frame: the as-written
      press adds a joint to those in the world, the corrected one leaves one. */
  lemma GrabInPlay(g: GameState, inp: FrameInput)
    requires Quiet(g, inp) && g.mode == Play && !inp.keys.escape
    requires inp.pointer == PointerInput(true, false, Grabbed(true), NoBelt)
    ensures FrameAsWritten(g, inp) ==
      g.(world := g.world.(joint := true, dragJoints := g.world.dragJoints + 1), boxesOnScreen := inp.drawn)
    ensures Frame(g, inp) == g.(world := g.world.(joint := true, dragJoints := 1), boxesOnScreen := inp.drawn)
  {
    QuietSimulate(g.(world := PointerAsWritten(g.world, inp.pointer)), inp);
    QuietSimulate(g.(world := PointerStep(g.world, inp.pointer)), inp);
  }

  /** Escape in play pauses, without a pointer event. */
  lemma EscapePauses(g: GameState, inp: FrameInput)
    requires Quiet(g, inp) && g.mode == Play && inp.keys.escape && inp.pointer == NoPointer
    ensures Frame(g, inp) == FrameAsWritten(g, inp) == g.(mode := Pause, boxesOnScreen := inp.drawn)
  {
    QuietSimulate(g, inp);
  }

  /** While paused a release is not looked at: without a press or key the
      frame changes nothing but the drawn count, even with `mouseJoint` set. */
  lemma ReleaseIgnoredWhilePaused(g: GameState, inp: FrameInput)
    requires Quiet(g, inp) && g.mode == Pause && !inp.pointer.down && inp.keys == NoKeys
    ensures Frame(g, inp) == FrameAsWritten(g, inp) == g.(boxesOnScreen := inp.drawn)
  {
    QuietSimulate(g, inp);
  }

  /** Escape while paused resumes play. */
  lemma EscapeResumes(g: GameState, inp: FrameInput)
    requires Quiet(g, inp) && g.mode == Pause && inp.keys.escape
    ensures Frame(g, inp) == FrameAsWritten(g, inp) == g.(mode := Play, boxesOnScreen := inp.drawn)
  {
    QuietSimulate(g, inp);
  }

  /** Click to start, then grab a lever. */
  const StartAndGrab: seq<FrameInput> := [StartClick, FirstGrab]

  /** Pause, release the button while paused, resume, grab again. */
  const PausedRelease: seq<FrameInput> := [PausePress, PausedUp, ResumePress, SecondGrab]

  const StartClick: FrameInput := At(1, PointerInput(true, false, NoGrab, NoBelt), NoKeys)
  const FirstGrab: FrameInput := At(2, PointerInput(true, false, Grabbed(true), NoBelt), NoKeys)
  const PausePress: FrameInput := At(3, NoPointer, Keys(true, false, false, false))
  const PausedUp: FrameInput := At(4, PointerInput(false, true, NoGrab, NoBelt), NoKeys)
  const ResumePress: FrameInput := At(5, NoPointer, Keys(true, false, false, false))
  const SecondGrab: FrameInput := At(6, PointerInput(true, false, Grabbed(true), NoBelt), NoKeys)

  /** None of the scripted frames spawns or steps in a calm state. */
  lemma CalmIsQuiet(g: GameState)
    requires Calm(g)
    ensures Quiet(g, FirstGrab) && Quiet(g, PausePress) && Quiet(g, PausedUp)
    ensures Quiet(g, ResumePress) && Quiet(g, SecondGrab)
  {
  }

  /** From boot, a click and a grab leave the session in play holding one
      joint, in both versions. */
  lemma GrabReachable(t: nat) returns (g: GameState)
    ensures g == Run(Boot(t), StartAndGrab) == RunAsWritten(Boot(t), StartAndGrab)
    ensures g.mode == Play && g.world.joint && g.world.dragJoints == 1 && Calm(g)
  {
    var ins := StartAndGrab;
    var g0 := Boot(t);
    ClickStarts(g0, StartClick);
    var g1 := Frame(g0, StartClick);
    CalmIsQuiet(g1);
    GrabInPlay(g1, FirstGrab);
    g := Frame(g1, FirstGrab);
    assert ins[0..] == ins && ins[2..] == [];
    RunStep(g0, ins, 0);
    RunStep(g1, ins, 1);
  }

  /** The first three frames of `PausedRelease` go alike in both versions:
      pause, a release that is not looked at, resume; the joint stays set. */
  lemma PauseReleaseResume(g: GameState) returns (g3: GameState)
    requires g.mode == Play && g.world.joint && g.world.dragJoints == 1 && Calm(g)
    ensures g3.mode == Play && g3.world.joint && g3.world.dragJoints == 1 && Calm(g3)
    ensures RunAsWritten(g, PausedRelease) == FrameAsWritten(g3, SecondGrab)
    ensures Run(g, PausedRelease) == Frame(g3, SecondGrab)
  {
    var ins := PausedRelease;
    CalmIsQuiet(g);
    EscapePauses(g, PausePress);
    var g1 := Frame(g, PausePress);
    CalmIsQuiet(g1);
    ReleaseIgnoredWhilePaused(g1, PausedUp);
    var g2 := Frame(g1, PausedUp);
    CalmIsQuiet(g2);
    EscapeResumes(g2, ResumePress);
    g3 := Frame(g2, ResumePress);
    assert ins[0..] == ins && ins[4..] == [];
    RunStep(g, ins, 0);
    RunStep(g1, ins, 1);
    RunStep(g2, ins, 2);
    RunStep(g3, ins, 3);
  }

  /** As written, a release during a pause is never seen, so the grab after
      resuming adds a joint while the first is still in the world: two drag
      joints, of which `mouseJoint` refers to one. */
  lemma JointLeakAsWritten(g: GameState)
    requires g.mode == Play && g.world.joint && g.world.dragJoints == 1 && Calm(g)
    ensures var r := RunAsWritten(g, PausedRelease);
      r.mode == Play && r.world.joint && r.world.dragJoints == 2 && !JointsAccounted(r.world)
  {
    var g3 := PauseReleaseResume(g);
    CalmIsQuiet(g3);
    GrabInPlay(g3, SecondGrab);
  }

  /** With the replacing press the same frames end with the one joint the
      pointer holds. */
  lemma JointReplaced(g: GameState)
    requires g.mode == Play && g.world.joint && g.world.dragJoints == 1 && Calm(g)
    ensures var r := Run(g, PausedRelease);
      r.mode == Play && r.world.joint && r.world.dragJoints == 1 && JointsAccounted(r.world)
  {
    var g3 := PauseReleaseResume(g);
    CalmIsQuiet(g3);
    GrabInPlay(g3, SecondGrab);
  }

  /** Running from frame `k` is frame `k` followed by the run from `k + 1`. */
  lemma RunStep(g: GameState, ins: seq<FrameInput>, k: nat)
    requires k < |ins|
    ensures Run(g, ins[k..]) == Run(Frame(g, ins[k]), ins[k + 1..])
    ensures RunAsWritten(g, ins[k..]) == RunAsWritten(FrameAsWritten(g, ins[k]), ins[k + 1..])
  {
    assert ins[k..][0] == ins[k] && ins[k..][1..] == ins[k + 1..];
  }
}
