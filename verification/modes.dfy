/** The per-mode input handling at the end of `Draw` (main.cpp:740-809):
    which key or click, after how long in the mode, leads where. */
module Modes {
  import opened Basics
  import opened Session
  import opened Stages

  /** Keys pressed this frame (the click is the pointer press, passed apart). */
  datatype Keys = Keys(escape: bool, space: bool, q: bool, r: bool)

  /** Time a game-over or final screen must be shown before it accepts input. */
  const AcceptDelay: int := 500

  /** Time the stage-clear banner is shown before the next stage loads. */
  const ClearDelay: int := 2000

  /** The input branch of the current mode at tick `now`; `click` is the
      pointer press. Every branch that leaves its mode other than by pausing
      or resuming is a stage load, whose effect `StartLevel` states. Escape
      on the title screen quits the application, which is outside this
      model. */
  function ModeInput(g: GameState, click: bool, k: Keys, now: int): (r: GameState)
    ensures g.mode == Title ==> (r.mode == Play <==> click || k.space) && (r.mode == Title ==> r == g)
    ensures g.mode == Title && !(click || k.space) ==> r == g
    ensures g.mode == Title && r.mode == Play ==> r.stage == 1 && r.modeTick == now
    ensures g.mode == Play ==> (r.mode == Pause <==> k.escape) && r == g.(mode := r.mode)
    ensures g.mode == Play && !k.escape ==> r == g
    ensures g.mode == Pause && (k.escape || click || k.space) ==> r == g.(mode := Play)
    ensures g.mode == Pause && !(k.escape || click || k.space) && k.q ==> r.mode == Title && r.stage == 0
    ensures g.mode == Pause && !(k.escape || click || k.space || k.q) && k.r ==>
      r.mode == StartMode(g.stage) && r.stage == g.stage && r.modeTick == now && r.world.created == []
    ensures g.mode == Pause && !(k.escape || click || k.space || k.q || k.r) ==> r == g
    ensures g.mode == GameOver ==>
      && (r.mode != GameOver <==> now - g.modeTick > AcceptDelay && (click || k.space))
      && (r.mode == GameOver ==> r == g)
      && (r.mode != GameOver ==> r.stage == g.stage && r.modeTick == now)
    ensures g.mode == Clear ==>
      && (r.mode != Clear <==> now - g.modeTick > ClearDelay)
      && (r.mode == Clear ==> r == g)
      && (r.mode != Clear ==> r.stage == g.stage + 1 && r.modeTick == now)
    ensures g.mode == Finish ==>
      && (r.mode == Play <==> now - g.modeTick > AcceptDelay && (click || k.space))
      && (r.mode == Finish ==> r == g)
      && (r.mode == Play ==> r.stage == 1 && r.modeTick == now)
    ensures (g.mode == Title || g.mode == Finish) && r.mode == Play ==> r == StartLevel(g, 1, now)
    ensures g.mode == Pause && !(k.escape || click || k.space) && k.q ==> r == StartLevel(g, 0, now)
    ensures g.mode == Pause && !(k.escape || click || k.space || k.q) && k.r ==> r == StartLevel(g, g.stage, now)
    ensures g.mode == GameOver && r.mode != GameOver ==> r == StartLevel(g, g.stage, now)
    ensures g.mode == Clear && r.mode != Clear ==> r == StartLevel(g, g.stage + 1, now)
  {
    match g.mode
    case Title => if click || k.space then StartLevel(g, 1, now) else g
    case Play => if k.escape then g.(mode := Pause) else g
    case Pause =>
      if k.escape || click || k.space then g.(mode := Play)
      else if k.q then StartLevel(g, 0, now)
      else if k.r then StartLevel(g, g.stage, now)
      else g
    case GameOver => if now - g.modeTick > AcceptDelay && (click || k.space) then StartLevel(g, g.stage, now) else g
    case Clear => if now - g.modeTick > ClearDelay then StartLevel(g, g.stage + 1, now) else g
    case Finish => if now - g.modeTick > AcceptDelay && (click || k.space) then StartLevel(g, 1, now) else g
  }

  /** Pausing and resuming touch nothing but the mode: the stage, counters,
      world and every timer are kept, so the spawn tick is not moved past
      the time spent paused. */
  lemma PauseRoundTrip(g: GameState, k1: Keys, click: bool, k2: Keys, t1: int, t2: int)
    requires g.mode == Play && k1.escape && (k2.escape || click || k2.space)
    ensures ModeInput(ModeInput(g, false, k1, t1), click, k2, t2) == g
  {
  }

  /** Where each mode can go in one frame of input. */
  lemma ModeTransitions(g: GameState, click: bool, k: Keys, now: int)
    requires g.mode in {Play, Pause, GameOver, Clear} ==> 1 <= g.stage <= 5
    ensures var r := ModeInput(g, click, k, now);
      && (g.mode == Title ==> r.mode in {Title, Play})
      && (g.mode == Play ==> r.mode in {Play, Pause})
      && (g.mode == Pause ==> r.mode in {Pause, Play, Title})
      && (g.mode == GameOver ==> r.mode in {GameOver, Play})
      && (g.mode == Clear ==> r.mode in {Clear, Play, Finish})
      && (g.mode == Finish ==> r.mode in {Finish, Play})
  {
  }

  /** Stage 5 cleared leads to the final screen, any earlier stage to the
      next one, once the banner has been shown for more than two seconds. */
  lemma ClearAdvances(g: GameState, click: bool, k: Keys, now: int)
    requires g.mode == Clear && 1 <= g.stage <= 5 && now - g.modeTick > ClearDelay
    ensures var r := ModeInput(g, click, k, now);
      r.stage == g.stage + 1 && r.mode == (if g.stage == 5 then Finish else Play) && r.modeTick == now
  {
  }

  /** Restarting after a loss reloads the same stage with its fresh counters. */
  lemma RetryRestoresCounters(g: GameState, k: Keys, now: int)
    requires g.mode == GameOver && 1 <= g.stage <= 5 && now - g.modeTick > AcceptDelay
    ensures var r := ModeInput(g, true, k, now);
      && r.mode == Play && r.stage == g.stage
      && Some((r.score.need, r.score.left)) == StageCounters(g.stage)
  {
  }
}
