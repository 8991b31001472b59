/** The game session: every global of main.cpp that the discrete game logic
    reads or writes, gathered in one immutable record, and the three counter
    updaters (main.cpp:86-88), the only writers of the counters. */
module Session {
  import opened Basics
  import opened Captions
  import opened Belts

  /** `GameMode` (main.cpp:47-55). */
  datatype Mode = Title | Play | Clear | GameOver | Pause | Finish

  /** A box's user-data bit as `SpawnBox` draws it: clear for a banana box,
      set for a poison box. */
  datatype Cargo = Good | Poison

  /** A cargo box as `SpawnBox` creates it: where and of which kind. */
  datatype Box = Box(pos: Vec, cargo: Cargo)

  /** `foodNeed` and `foodLeft` with the text buffers that display them;
      a buffer is `None` until its updater first runs. */
  datatype Score = Score(need: int, left: int, needText: Option<string>, leftText: Option<string>)

  /** The physics world as far as the game logic sees it: the spawn points,
      the belts, the boxes `SpawnBox` added since the world was built (the
      engine removes eaten and fallen boxes; that is not tracked), whether
      `mouseJoint` is set, and how many pointer drag joints are in the world. */
  datatype World = World(spawns: seq<Vec>, belts: seq<Belt>, created: seq<Box>, joint: bool, dragJoints: nat)

  /** The session. Tick values are milliseconds of the application clock;
      `tickSum` is the static step accumulator `TICKSUM` of `Draw`;
      `volume` is the music volume last set (`None` before the first stage
      load); `backdrops` counts how often the background colours were drawn. */
  datatype GameState = GameState(
    mode: Mode,
    stage: int,
    stageText: Option<string>,
    score: Score,
    world: World,
    boxesOnScreen: int,
    modeTick: int,
    tickNextSpawn: int,
    tickLastEat: int,
    tickSum: nat,
    volume: Option<int>,
    backdrops: nat)

  /** The globals' static initial values, before `Init` loads stage 0: the
      title mode, every number zero, no text set, no world content and no
      joint. The unset counter texts still count as showing their zero
      counters. */
  function Initial(): (g: GameState)
    ensures g.mode == Title && g.stage == 0 && g.stageText.None? && g.volume.None?
    ensures g.score.need == 0 && g.score.left == 0 && ScoreShown(g.score)
    ensures g.world.spawns == [] && g.world.belts == [] && g.world.created == []
    ensures !g.world.joint && g.world.dragJoints == 0
    ensures g.modeTick == 0 && g.tickNextSpawn == 0 && g.tickLastEat == 0 && g.tickSum == 0
  {
    GameState(Title, 0, None, Score(0, 0, None, None), World([], [], [], false, 0), 0, 0, 0, 0, 0, None, 0)
  }

  /** A text buffer shows its counter, or has never been set while the
      counter still holds its zero initial value. */
  predicate Shows(text: Option<string>, caption: string, v: int)
  {
    text == Some(caption) || (text.None? && v == 0)
  }

  predicate ScoreShown(s: Score)
  {
    Shows(s.needText, NeedCaption(s.need), s.need) && Shows(s.leftText, LeftCaption(s.left), s.left)
  }

  predicate StageShown(g: GameState)
  {
    Shows(g.stageText, StageCaption(g.stage), g.stage)
  }

  /** `UpdateFoodNeed(v)`: need becomes `v` and its caption names `v` and no
      other count; the left counter and its caption are untouched. */
  function UpdateFoodNeed(s: Score, v: int): (r: Score)
    ensures r.need == v && r.needText == Some(NeedCaption(v))
    ensures forall u :: r.needText == Some(NeedCaption(u)) ==> u == v
    ensures r.left == s.left && r.leftText == s.leftText
    ensures ScoreShown(s) ==> ScoreShown(r)
  {
    var r := s.(need := v, needText := Some(NeedCaption(v)));
    forall u | r.needText == Some(NeedCaption(u)) ensures u == v {
      NeedCaptionInjective(u, v);
    }
    r
  }

  /** `UpdateFoodLeft(v)`: left becomes `v` and its caption names `v` and no
      other count; the need counter and its caption are untouched. */
  function UpdateFoodLeft(s: Score, v: int): (r: Score)
    ensures r.left == v && r.leftText == Some(LeftCaption(v))
    ensures forall u :: r.leftText == Some(LeftCaption(u)) ==> u == v
    ensures r.need == s.need && r.needText == s.needText
    ensures ScoreShown(s) ==> ScoreShown(r)
  {
    var r := s.(left := v, leftText := Some(LeftCaption(v)));
    forall u | r.leftText == Some(LeftCaption(u)) ensures u == v {
      LeftCaptionInjective(u, v);
    }
    r
  }

  /** `UpdateStage(v)`: the stage becomes `v` and its caption names `v` and
      no other stage; nothing else changes. */
  function UpdateStage(g: GameState, v: int): (r: GameState)
    ensures r.stage == v && r.stageText.Some? && StageShown(r)
    ensures forall u :: r.stageText == Some(StageCaption(u)) ==> u == v
    ensures r == g.(stage := v, stageText := r.stageText)
  {
    var r := g.(stage := v, stageText := Some(StageCaption(v)));
    forall u | r.stageText == Some(StageCaption(u)) ensures u == v {
      StageCaptionInjective(u, v);
    }
    r
  }
}
