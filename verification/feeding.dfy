/** The counter side of the two cargo events: `SpawnBox` (main.cpp:177-190)
    and the cargo-monster begin handler `CollisionBoxToMonster`
    (main.cpp:198-206). */
module Feeding {
  import opened Basics
  import opened Captions
  import opened Session

  /** How many entries of `cs` are `c`. */
  function Count(cs: seq<Cargo>, c: Cargo): nat
  {
    if |cs| == 0 then 0 else (if cs[0] == c then 1 else 0) + Count(cs[1..], c)
  }

  lemma {:induction false} CountIsMultiplicity(cs: seq<Cargo>, c: Cargo)
    ensures Count(cs, c) == multiset(cs)[c]
    decreases |cs|
  {
    if |cs| > 0 {
      assert cs == [cs[0]] + cs[1..];
      assert multiset(cs) == multiset([cs[0]]) + multiset(cs[1..]);
      CountIsMultiplicity(cs[1..], c);
    }
  }

  /** A box of kind `c` touches the monster at tick `now`: a banana box lowers
      need by one, a poison box raises it by one; left is untouched and the
      eat tick is recorded. (Removing the box is the engine's post-step work.) */
  function Eat(g: GameState, c: Cargo, now: int): (r: GameState)
    ensures r.score.need == g.score.need + (if c == Poison then 1 else -1)
    ensures r.score.left == g.score.left && r.score.leftText == g.score.leftText
    ensures r.score.needText == Some(NeedCaption(r.score.need))
    ensures ScoreShown(g.score) ==> ScoreShown(r.score)
    ensures r == g.(score := r.score, tickLastEat := now)
  {
    g.(score := UpdateFoodNeed(g.score, g.score.need - (if c == Poison then -1 else 1)), tickLastEat := now)
  }

  /** The monster contacts of one physics step, in the order the engine
      reports them. */
  function EatAll(g: GameState, cs: seq<Cargo>, now: int): (r: GameState)
    ensures r.score.need == g.score.need - Count(cs, Good) + Count(cs, Poison)
    ensures r.score.left == g.score.left && r.score.leftText == g.score.leftText
    ensures |cs| == 0 ==> r == g
    ensures |cs| > 0 ==> r.score.needText == Some(NeedCaption(r.score.need)) && r.tickLastEat == now
    ensures ScoreShown(g.score) ==> ScoreShown(r.score)
    ensures r == g.(score := r.score, tickLastEat := r.tickLastEat)
    decreases |cs|
  {
    if |cs| == 0 then g else EatAll(Eat(g, cs[0], now), cs[1..], now)
  }

  /** The counters after a step depend only on how many boxes of each kind
      were eaten, not on the order of the contacts. */
  lemma EatOrderIrrelevant(g: GameState, cs1: seq<Cargo>, cs2: seq<Cargo>, now: int)
    requires multiset(cs1) == multiset(cs2)
    ensures EatAll(g, cs1, now) == EatAll(g, cs2, now)
  {
    CountIsMultiplicity(cs1, Good);
    CountIsMultiplicity(cs2, Good);
    CountIsMultiplicity(cs1, Poison);
    CountIsMultiplicity(cs2, Poison);
    assert |cs1| == |multiset(cs1)| == |multiset(cs2)| == |cs2|;
  }

  /** The early return of `SpawnBox`: outside the title screen no box is
      made once nothing is left to deliver. */
  predicate SpawnRefused(g: GameState)
  {
    g.score.left <= 0 && g.mode != Title
  }

  /** `SpawnBox(pos)` with the drawn user-data bit `c`. When refused nothing
      changes; otherwise exactly one box of kind `c` is added at `pos`, a
      banana box lowers left by one, a poison box leaves it, and need is
      never touched. */
  function SpawnBox(g: GameState, pos: Vec, c: Cargo): (r: GameState)
    ensures SpawnRefused(g) ==> r == g
    ensures !SpawnRefused(g) ==> r.world.created == g.world.created + [Box(pos, c)]
    ensures !SpawnRefused(g) ==> r.score.left == g.score.left - (if c == Good then 1 else 0)
    ensures r.score.need == g.score.need && r.score.needText == g.score.needText
    ensures c == Poison ==> r.score == g.score
    ensures ScoreShown(g.score) ==> ScoreShown(r.score)
    ensures r.world == g.world.(created := r.world.created)
    ensures r == g.(score := r.score, world := r.world)
  {
    if SpawnRefused(g) then g
    else
      var g1 := g.(world := g.world.(created := g.world.created + [Box(pos, c)]));
      if c == Good then g1.(score := UpdateFoodLeft(g1.score, g1.score.left - 1)) else g1
  }

  /** On the title screen nothing stops spawning, so left keeps falling with
      every banana box: from the initial zero it turns negative at once. */
  lemma TitleLeftGoesNegative(pos: Vec)
    ensures SpawnBox(Initial(), pos, Good).score.left == -1
  {
  }
}
