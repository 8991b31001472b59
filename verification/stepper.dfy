/** The fixed-timestep loop of `Draw` (main.cpp:658-680): add the frame's
    elapsed ticks to the static accumulator, then take 16 ms physics steps
    while it holds more than 16; in play, check the win and lose conditions
    after every step and leave the loop, without deducting that step, on
    the first that fires. */
module Stepper {
  import opened Basics
  import opened Session
  import opened Feeding

  const StepTicks: nat := 16

  /** What the accumulator keeps when nothing interrupts the loop: a total of
      16 or less is not stepped at all; anything larger is stepped down into
      the range 1 to 16 (exactly 16 does not trigger a step). */
  function Carry(total: nat): nat
  {
    if total <= StepTicks then total else (total - 1) % StepTicks + 1
  }

  /** The loop's arithmetic without the game checks. */
  method Accumulate(sum: nat, elapsed: nat) returns (steps: nat, rest: nat)
    ensures steps * StepTicks + rest == sum + elapsed
    ensures rest <= StepTicks && (steps > 0 ==> rest >= 1)
    ensures rest == Carry(sum + elapsed)
  {
    rest := sum + elapsed;
    steps := 0;
    while rest > StepTicks
      invariant steps * StepTicks + rest == sum + elapsed
      invariant steps > 0 ==> rest >= 1
      invariant Carry(rest) == Carry(sum + elapsed)
      decreases rest
    {
      rest := rest - StepTicks;
      steps := steps + 1;
    }
  }

  /** The checks after one step (main.cpp:663-678): in play, need at or below
      zero clears the stage, checked first; otherwise nothing left to deliver
      and no box on screen in the last drawn frame loses it. Either records
      the tick; in every other case, and outside play, nothing changes. */
  function Settle(g: GameState, now: int): (r: GameState)
    ensures g.mode != Play ==> r == g
    ensures g.mode == Play ==> (r.mode == Clear <==> g.score.need <= 0)
    ensures g.mode == Play ==> (r.mode == GameOver <==> g.score.need > 0 && g.score.left <= 0 && g.boxesOnScreen <= 0)
    ensures g.mode == Play ==> (r.mode == Play <==> g.score.need > 0 && (g.score.left > 0 || g.boxesOnScreen > 0))
    ensures r.mode != g.mode ==> r.modeTick == now
    ensures r.mode == g.mode ==> r == g
    ensures r == g.(mode := r.mode, modeTick := r.modeTick)
  {
    if g.mode == Play && g.score.need <= 0 then g.(mode := Clear, modeTick := now)
    else if g.mode == Play && g.score.need > 0 && g.score.left <= 0 && g.boxesOnScreen <= 0 then g.(mode := GameOver, modeTick := now)
    else g
  }

  /** One physics step: the monster contacts it reports, then the checks. */
  function Step(g: GameState, eaten: seq<Cargo>, now: int): (r: GameState)
    ensures r.tickSum == g.tickSum
    ensures r.mode != g.mode ==> g.mode == Play && (r.mode == Clear || r.mode == GameOver) && r.modeTick == now
  {
    Settle(EatAll(g, eaten, now), now)
  }

  /** Result of the loop: the state and the number of steps taken. */
  datatype Stepped = Stepped(state: GameState, steps: nat)

  /** The loop from step `i` on, over an accumulator already holding the
      frame's ticks; `eaten(i)` are the monster contacts of step `i`. It
      steps at all only when more than 16 are stored, and unless a check
      changed the mode it stops with at most 16 left. */
  function StepLoop(g: GameState, now: int, eaten: nat -> seq<Cargo>, i: nat): (r: Stepped)
    decreases g.tickSum
  {
    if g.tickSum <= StepTicks then Stepped(g, 0)
    else
      var g1 := Step(g, eaten(i), now);
      if g1.mode != g.mode then Stepped(g1, 1)
      else
        var rest := StepLoop(g1.(tickSum := g1.tickSum - StepTicks), now, eaten, i + 1);
        Stepped(rest.state, rest.steps + 1)
  }

  /** One turn of the loop, spelled out for the proofs below. */
  lemma StepLoopUnfold(g: GameState, now: int, eaten: nat -> seq<Cargo>, i: nat)
    requires g.tickSum > StepTicks
    ensures var g1 := Step(g, eaten(i), now);
      && (g1.mode != g.mode ==> StepLoop(g, now, eaten, i) == Stepped(g1, 1))
      && (g1.mode == g.mode ==>
            var rest := StepLoop(g1.(tickSum := g1.tickSum - StepTicks), now, eaten, i + 1);
            StepLoop(g, now, eaten, i) == Stepped(rest.state, rest.steps + 1))
  {
  }

  /** The loop steps at all only when more than 16 ticks are stored, and
      unless a check changed the mode it stops with at most 16 left. */
  lemma StepLoopDrains(g: GameState, now: int, eaten: nat -> seq<Cargo>, i: nat)
    ensures var r := StepLoop(g, now, eaten, i);
      && (r.steps == 0 <==> g.tickSum <= StepTicks)
      && (r.state.mode == g.mode ==> r.state.tickSum <= StepTicks)
  {
    StepLoopAccounting(g, now, eaten, i);
    if g.tickSum > StepTicks {
      StepLoopUnfold(g, now, eaten, i);
    }
  }

  /** What one call of the loop does to the accumulator when the mode
      stays: it takes `k` steps with `k*16 + after == before` and leaves at
      most 16 (at least 1 once it stepped), exactly what `Carry` predicts. */
  lemma {:induction false} StepLoopAccounting(g: GameState, now: int, eaten: nat -> seq<Cargo>, i: nat)
    ensures var r := StepLoop(g, now, eaten, i);
      r.state.mode == g.mode ==>
        r.steps * StepTicks + r.state.tickSum == g.tickSum && r.state.tickSum == Carry(g.tickSum)
    decreases g.tickSum
  {
    if g.tickSum > StepTicks {
      StepLoopUnfold(g, now, eaten, i);
      var e := EatAll(g, eaten(i), now);
      var g1 := Settle(e, now);
      assert g1 == Step(g, eaten(i), now) && e.mode == g.mode && e.tickSum == g.tickSum;
      if g1.mode == g.mode {
        var g2 := g1.(tickSum := g1.tickSum - StepTicks);
        StepLoopAccounting(g2, now, eaten, i + 1);
        var rest := StepLoop(g2, now, eaten, i + 1);
        if rest.state.mode == g.mode {
          AccountStep(g.tickSum, rest.steps, rest.state.tickSum);
        }
      }
    } else {
      assert Carry(g.tickSum) == g.tickSum;
    }
  }

  /** A mode change happens only in play, to Clear or GameOver; it records
      the tick and stops the loop with that step's 16 still in the
      accumulator, so the steps before it account for the rest. */
  lemma {:induction false} StepLoopStops(g: GameState, now: int, eaten: nat -> seq<Cargo>, i: nat)
    ensures var r := StepLoop(g, now, eaten, i);
      r.state.mode != g.mode ==>
        && g.mode == Play && (r.state.mode == Clear || r.state.mode == GameOver)
        && r.state.modeTick == now && r.steps >= 1
        && (r.steps - 1) * StepTicks + r.state.tickSum == g.tickSum && r.state.tickSum > StepTicks
    decreases g.tickSum
  {
    if g.tickSum > StepTicks {
      StepLoopUnfold(g, now, eaten, i);
      var e := EatAll(g, eaten(i), now);
      var g1 := Settle(e, now);
      assert g1 == Step(g, eaten(i), now) && e.mode == g.mode && e.tickSum == g.tickSum;
      if g1.mode == g.mode {
        StepLoopStops(g1.(tickSum := g1.tickSum - StepTicks), now, eaten, i + 1);
      }
    }
  }

  /** Only the score's need half, the eat tick, the mode, its tick and the
      accumulator change; left is untouched and the captions keep up. */
  lemma {:induction false} StepLoopFrame(g: GameState, now: int, eaten: nat -> seq<Cargo>, i: nat)
    ensures var r := StepLoop(g, now, eaten, i);
      && r.state.score.left == g.score.left
      && (ScoreShown(g.score) ==> ScoreShown(r.state.score))
      && r.state == g.(score := r.state.score, tickLastEat := r.state.tickLastEat, mode := r.state.mode,
                       modeTick := r.state.modeTick, tickSum := r.state.tickSum)
    decreases g.tickSum
  {
    if g.tickSum > StepTicks {
      StepLoopUnfold(g, now, eaten, i);
      var e := EatAll(g, eaten(i), now);
      var g1 := Settle(e, now);
      assert g1 == Step(g, eaten(i), now) && g1 == e.(mode := g1.mode, modeTick := g1.modeTick);
      if g1.mode == g.mode {
        StepLoopFrame(g1.(tickSum := g1.tickSum - StepTicks), now, eaten, i + 1);
      }
    }
  }

  /** The outcome of the loop is justified by the counters it ended with:
      Clear only with need at or below zero, GameOver only with need above
      zero, nothing left and no box on screen; a loop that stepped and stayed
      in play ended with need above zero and something still to come. */
  lemma {:induction false} StepLoopOutcome(g: GameState, now: int, eaten: nat -> seq<Cargo>, i: nat)
    requires g.mode == Play
    ensures var r := StepLoop(g, now, eaten, i);
      && (r.state.mode == Clear ==> r.state.score.need <= 0)
      && (r.state.mode == GameOver ==> r.state.score.need > 0 && r.state.score.left <= 0 && r.state.boxesOnScreen <= 0)
      && (r.state.mode == Play && r.steps > 0 ==> r.state.score.need > 0 && (r.state.score.left > 0 || r.state.boxesOnScreen > 0))
      && (r.state.mode == Play || r.state.mode == Clear || r.state.mode == GameOver)
    decreases g.tickSum
  {
    if g.tickSum > StepTicks {
      StepLoopUnfold(g, now, eaten, i);
      var e := EatAll(g, eaten(i), now);
      var g1 := Settle(e, now);
      assert e.mode == Play && g1 == Step(g, eaten(i), now);
      if g1.mode == g.mode {
        var g2 := g1.(tickSum := g1.tickSum - StepTicks);
        StepLoopOutcome(g2, now, eaten, i + 1);
        assert g2.score == e.score && g2.boxesOnScreen == e.boxesOnScreen;
      }
    }
  }

  /** The two checks of the loop body as written, reporting whether one of
      them fired (and the loop must `break`). */
  method CheckAfterStep(g: GameState, now: int) returns (r: GameState, stop: bool)
    ensures r == Settle(g, now) && stop == (r.mode != g.mode)
  {
    r, stop := g, false;
    if g.mode == Play {
      if g.score.need <= 0 {
        r, stop := g.(mode := Clear, modeTick := now), true;
        return;
      }
      if g.score.need > 0 && g.score.left <= 0 && g.boxesOnScreen <= 0 {
        r, stop := g.(mode := GameOver, modeTick := now), true;
        return;
      }
    }
  }

  /** The loop as `Draw` runs it: `TICKSUM += elapsed`, then the `for` whose
      body steps and checks, leaving by `break` when a check fires. */
  method RunSteps(g: GameState, elapsed: nat, now: int, eaten: nat -> seq<Cargo>) returns (r: GameState, steps: nat)
    ensures Stepped(r, steps) == StepLoop(g.(tickSum := g.tickSum + elapsed), now, eaten, 0)
  {
    var start := g.(tickSum := g.tickSum + elapsed);
    r := start;
    steps := 0;
    while r.tickSum > StepTicks
      invariant StepLoop(start, now, eaten, 0) ==
        Stepped(StepLoop(r, now, eaten, steps).state, steps + StepLoop(r, now, eaten, steps).steps)
      decreases r.tickSum
    {
      ghost var before, i := r, steps;
      var stop;
      r, stop := CheckAfterStep(EatAll(r, eaten(steps), now), now);
      steps := steps + 1;
      if stop {
        assert StepLoop(before, now, eaten, i) == Stepped(r, 1);
        break;
      }
      r := r.(tickSum := r.tickSum - StepTicks);
    }
  }

  /** Total ticks of a list of frame times. */
  function Sum(ds: seq<nat>): nat
  {
    if |ds| == 0 then 0 else ds[0] + Sum(ds[1..])
  }

  /** Frames without a mode change: the steps taken in all and the ticks
      left in the accumulator, starting from `sum`. */
  function Frames(sum: nat, ds: seq<nat>): (nat, nat)
    decreases |ds|
  {
    if |ds| == 0 then (0, sum)
    else
      var rest := Carry(sum + ds[0]);
      var later := Frames(rest, ds[1..]);
      ((sum + ds[0] - rest) / StepTicks + later.0, later.1)
  }

  /** One step does not change what is finally carried over. */
  lemma CarryStep(t: nat)
    requires t > StepTicks
    ensures Carry(t) == Carry(t - StepTicks)
  {
  }

  /** One more step in front of an accounted run keeps it accounted. */
  lemma AccountStep(t: nat, k: nat, rest: nat)
    requires t > StepTicks
    requires k * StepTicks + rest == t - StepTicks && rest == Carry(t - StepTicks)
    ensures (k + 1) * StepTicks + rest == t && rest == Carry(t)
  {
    CarryStep(t);
  }

  /** Stepping what was carried over is the same as stepping the total. */
  lemma CarryAbsorbs(a: nat, e: nat)
    ensures Carry(Carry(a) + e) == Carry(a + e)
    ensures (a - Carry(a)) % StepTicks == 0
  {
    if a > StepTicks {
      var q := (a - 1) / 16;
      assert a - Carry(a) == 16 * q;
      CarryPeriodic(Carry(a) + e, q);
    }
  }

  /** Adding whole steps to a positive total does not change what is
      carried over. */
  lemma {:induction false} CarryPeriodic(t: nat, q: nat)
    requires t >= 1
    ensures Carry(t + 16 * q) == Carry(t)
    decreases q
  {
    if q > 0 {
      CarryPeriodic(t, q - 1);
      CarryStep(t + 16 * q);
    }
  }

  /** The frames leave `Carry` of the total and take `(total - left) / 16`
      steps, whatever the frame times; with no frame at all this needs a
      start value that is itself a carry (at most 16). */
  lemma {:induction false} FramesClosedForm(sum: nat, ds: seq<nat>)
    requires sum <= StepTicks || |ds| > 0
    ensures Frames(sum, ds).1 == Carry(sum + Sum(ds))
    ensures Frames(sum, ds).0 * StepTicks + Frames(sum, ds).1 == sum + Sum(ds)
    decreases |ds|
  {
    if |ds| > 0 {
      var rest := Carry(sum + ds[0]);
      CarryAbsorbs(sum + ds[0], Sum(ds[1..]));
      FramesClosedForm(rest, ds[1..]);
    }
  }

  /** Determinism of the accumulator: how the elapsed time is split into
      frames does not change the steps taken or what is carried over, from
      any start value, 17 to 32 after a `break` included, as long as there
      is a frame on each side. */
  lemma ChunkingIrrelevant(sum: nat, ds1: seq<nat>, ds2: seq<nat>)
    requires (sum <= StepTicks || (|ds1| > 0 && |ds2| > 0)) && Sum(ds1) == Sum(ds2)
    ensures Frames(sum, ds1) == Frames(sum, ds2)
  {
    FramesClosedForm(sum, ds1);
    FramesClosedForm(sum, ds2);
  }

  /** Three 10 ms frames and 8, 8, 8, 6 ms frames both step once and carry 14. */
  lemma ChunkingExample()
    ensures Frames(0, [10, 10, 10]) == (1, 14) == Frames(0, [8, 8, 8, 6])
  {
    assert Carry(20) == 4 && Carry(24) == 8 && Carry(14) == 14;
    assert Frames(4, [10]) == (0, 14);
    assert Frames(8, [6]) == (0, 14);
    assert Frames(0, [8, 8, 8, 6]) == (0 + Frames(8, [8, 8, 6]).0, Frames(8, [8, 8, 6]).1);
  }

  /** Frames in a row from frame `k` on: frame `j` adds `ds[j - k]` ticks
      and runs the loop at tick `now(j)` with contacts `eaten(j)`. The
      result holds the final state and the steps taken in all. */
  function RunFrames(g: GameState, ds: seq<nat>, now: nat -> int, eaten: nat -> nat -> seq<Cargo>, k: nat): Stepped
    decreases |ds|
  {
    if |ds| == 0 then Stepped(g, 0)
    else
      var r := StepLoop(g.(tickSum := g.tickSum + ds[0]), now(k), eaten(k), 0);
      var later := RunFrames(r.state, ds[1..], now, eaten, k + 1);
      Stepped(later.state, r.steps + later.steps)
  }

  /** One call of the loop either keeps the mode or leaves play. */
  lemma StepLoopModes(g: GameState, now: int, eaten: nat -> seq<Cargo>, i: nat)
    ensures var r := StepLoop(g, now, eaten, i);
      r.state.mode == g.mode || (g.mode == Play && r.state.mode != Play)
  {
    StepLoopStops(g, now, eaten, i);
  }

  /** The first frame of a run, spelled out for the proofs below. */
  lemma RunFramesUnfold(g: GameState, ds: seq<nat>, now: nat -> int, eaten: nat -> nat -> seq<Cargo>, k: nat)
    requires |ds| > 0
    ensures var r0 := StepLoop(g.(tickSum := g.tickSum + ds[0]), now(k), eaten(k), 0);
      var later := RunFrames(r0.state, ds[1..], now, eaten, k + 1);
      RunFrames(g, ds, now, eaten, k) == Stepped(later.state, r0.steps + later.steps)
  {
  }

  /** Over several frames the mode either stays or leaves play for good. */
  lemma {:induction false} RunFramesMode(g: GameState, ds: seq<nat>, now: nat -> int, eaten: nat -> nat -> seq<Cargo>, k: nat)
    ensures var r := RunFrames(g, ds, now, eaten, k);
      r.state.mode == g.mode || (g.mode == Play && r.state.mode != Play)
    decreases |ds|
  {
    if |ds| > 0 {
      var g0 := g.(tickSum := g.tickSum + ds[0]);
      var r0 := StepLoop(g0, now(k), eaten(k), 0);
      RunFramesUnfold(g, ds, now, eaten, k);
      StepLoopModes(g0, now(k), eaten(k), 0);
      RunFramesMode(r0.state, ds[1..], now, eaten, k + 1);
    }
  }

  /** The first frame of `Frames` in terms of its step count `k` and what
      it carries over, `rest`. */
  lemma FramesFirst(sum: nat, ds: seq<nat>, k: nat, rest: nat)
    requires |ds| > 0
    requires k * StepTicks + rest == sum + ds[0] && rest == Carry(sum + ds[0])
    ensures Frames(sum, ds).0 == k + Frames(rest, ds[1..]).0
    ensures Frames(sum, ds).1 == Frames(rest, ds[1..]).1
  {
    var t := sum + ds[0];
    assert t - Carry(t) == k * StepTicks;
  }

  /** The frames model the game loop: over frames that end in the mode they
      started in, the steps taken and the ticks left are what `Frames`
      computes from the frame times alone. */
  lemma {:induction false} RunFramesAccounted(g: GameState, ds: seq<nat>, now: nat -> int, eaten: nat -> nat -> seq<Cargo>, k: nat)
    ensures var r := RunFrames(g, ds, now, eaten, k);
      r.state.mode == g.mode ==> r.steps == Frames(g.tickSum, ds).0 && r.state.tickSum == Frames(g.tickSum, ds).1
    decreases |ds|
  {
    if |ds| > 0 {
      var t := g.tickSum + ds[0];
      var g0 := g.(tickSum := t);
      var r0 := StepLoop(g0, now(k), eaten(k), 0);
      var later := RunFrames(r0.state, ds[1..], now, eaten, k + 1);
      RunFramesUnfold(g, ds, now, eaten, k);
      StepLoopModes(g0, now(k), eaten(k), 0);
      RunFramesMode(r0.state, ds[1..], now, eaten, k + 1);
      if later.state.mode == g.mode {
        assert r0.state.mode == g.mode;
        StepLoopAccounting(g0, now(k), eaten(k), 0);
        RunFramesAccounted(r0.state, ds[1..], now, eaten, k + 1);
        FramesFirst(g.tickSum, ds, r0.steps, r0.state.tickSum);
      }
    }
  }
}
