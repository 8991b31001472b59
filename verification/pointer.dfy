/** Pointer handling during play (main.cpp:609-641): a press grabs the
    nearest grabbable body with a pivot joint, or, when no grabbable shape is
    near, reverses the belt under the pointer; a release drops the joint.
    What the engine's point queries find is an input. */
module Pointer {
  import opened Belts
  import opened Session

  /** The grabbable query within 120 units: nothing, or a shape whose body
      has finite mass (a lever head) or infinite mass. */
  datatype GrabProbe = NoGrab | Grabbed(finiteMass: bool)

  /** The non-grabbable query within 50 units, asked only when the grabbable
      query found nothing: no shape, or a shape that is not a belt, is
      `NoBelt`; a belt is named by its position in the world's belt list. */
  datatype BeltProbe = NoBelt | OnBelt(index: nat)

  /** The frame's pointer events and what the queries at the pointer find. */
  datatype PointerInput = PointerInput(down: bool, up: bool, grab: GrabProbe, belt: BeltProbe)

  /** The belt list with belt `i` reversed and every other belt as it was;
      an index that names no belt changes nothing. */
  function ToggleAt(belts: seq<Belt>, i: nat): (r: seq<Belt>)
    ensures |r| == |belts|
    ensures forall j :: 0 <= j < |r| ==> r[j] == (if j == i then Toggle(belts[j]) else belts[j])
  {
    if i < |belts| then belts[i := Toggle(belts[i])] else belts
  }

  /** Reversing the same belt twice restores the list. */
  lemma ToggleAtTwice(belts: seq<Belt>, i: nat)
    ensures ToggleAt(ToggleAt(belts, i), i) == belts
  {
    var r := ToggleAt(ToggleAt(belts, i), i);
    forall j | 0 <= j < |belts| ensures r[j] == belts[j] {
      if j == i {
        ToggleTwice(belts[j]);
      }
    }
  }

  /** The belt half of a press, shared by both versions: with nothing
      grabbable near, the probed belt is reversed. */
  function PressBelt(w: World, grab: GrabProbe, belt: BeltProbe): World
  {
    if grab.NoGrab? && belt.OnBelt? then w.(belts := ToggleAt(w.belts, belt.index)) else w
  }

  /** A press as written: a grab makes a new joint, stores it in `mouseJoint`
      and adds it to the world, whether or not `mouseJoint` already held one. */
  function PressAsWritten(w: World, grab: GrabProbe, belt: BeltProbe): (r: World)
    ensures grab == Grabbed(true) ==> r.joint && r.dragJoints == w.dragJoints + 1
    ensures grab != Grabbed(true) ==> r.joint == w.joint && r.dragJoints == w.dragJoints
    ensures r == w.(belts := r.belts, joint := r.joint, dragJoints := r.dragJoints)
  {
    if grab == Grabbed(true) then w.(joint := true, dragJoints := w.dragJoints + 1)
    else PressBelt(w, grab, belt)
  }

  /** A press that replaces the joint `mouseJoint` still holds: after a grab
      exactly one drag joint is in the world. */
  function Press(w: World, grab: GrabProbe, belt: BeltProbe): (r: World)
    ensures grab == Grabbed(true) ==> r.joint && r.dragJoints == 1
    ensures grab != Grabbed(true) ==> r.joint == w.joint && r.dragJoints == w.dragJoints
    ensures r == w.(belts := r.belts, joint := r.joint, dragJoints := r.dragJoints)
  {
    if grab == Grabbed(true) then w.(joint := true, dragJoints := 1)
    else PressBelt(w, grab, belt)
  }

  /** A release with `mouseJoint` set removes that one joint from the world
      and clears it; without a joint it does nothing. */
  function Release(w: World): (r: World)
    ensures !r.joint
    ensures w.joint && w.dragJoints > 0 ==> r.dragJoints == w.dragJoints - 1
    ensures !w.joint ==> r == w
    ensures r == w.(joint := r.joint, dragJoints := r.dragJoints)
  {
    if w.joint then w.(joint := false, dragJoints := if w.dragJoints > 0 then w.dragJoints - 1 else 0) else w
  }

  /** The pointer section of a play frame as written: press, then release. */
  function PointerAsWritten(w: World, p: PointerInput): World
  {
    var w1 := if p.down then PressAsWritten(w, p.grab, p.belt) else w;
    if p.up then Release(w1) else w1
  }

  /** The pointer section with the replacing press. */
  function PointerStep(w: World, p: PointerInput): World
  {
    var w1 := if p.down then Press(w, p.grab, p.belt) else w;
    if p.up then Release(w1) else w1
  }

  /** Either version of the pointer section: without a press or a release
      nothing changes; a release leaves `mouseJoint` clear, after a grab in
      the same frame too; a grab without a release leaves it set; a lone
      release with a joint set removes one drag joint; the spawn points and
      boxes are never touched. */
  lemma PointerSections(w: World, p: PointerInput)
    ensures var r1, r2 := PointerStep(w, p), PointerAsWritten(w, p);
      && (!p.down && !p.up ==> r1 == w && r2 == w)
      && (p.up ==> !r1.joint && !r2.joint)
      && (p.down && p.grab == Grabbed(true) && !p.up ==> r1.joint && r2.joint)
      && (!p.down && p.up && w.joint && w.dragJoints > 0 ==>
            r1.dragJoints == w.dragJoints - 1 && r2.dragJoints == w.dragJoints - 1)
      && r1.spawns == w.spawns && r2.spawns == w.spawns
      && r1.created == w.created && r2.created == w.created
  {
  }

  /** A pointer section changes the belts exactly when it is a press that
      found nothing grabbable and then hit a belt; it then reverses that
      belt alone. */
  lemma BeltChangesOnlyOnEmptyPress(w: World, p: PointerInput)
    ensures var r := PointerStep(w, p);
      r.belts != w.belts <==> p.down && p.grab == NoGrab && p.belt.OnBelt? && p.belt.index < |w.belts|
    ensures var r := PointerAsWritten(w, p); r.belts == PointerStep(w, p).belts
  {
    var r := PointerStep(w, p);
    if p.down && p.grab == NoGrab && p.belt.OnBelt? && p.belt.index < |w.belts| {
      assert r.belts[p.belt.index] != w.belts[p.belt.index];
    }
  }

  /** The world holds a drag joint exactly when `mouseJoint` is set, and at
      most one. */
  predicate JointsAccounted(w: World)
  {
    w.dragJoints == (if w.joint then 1 else 0)
  }

  /** A set `mouseJoint` refers to a drag joint in the world: the weaker
      bookkeeping the press as written keeps. */
  predicate JointHeld(w: World)
  {
    w.joint ==> w.dragJoints >= 1
  }

  /** The stage's belts are there in order, each as built or reversed. */
  predicate BeltsFrom(belts: seq<Belt>, built: seq<Belt>)
  {
    |belts| == |built| && forall i :: 0 <= i < |belts| ==> belts[i] == built[i] || belts[i] == Toggle(built[i])
  }

  /** Reversing any belt keeps the list a reversal pattern of the built one,
      and keeps every belt well formed. */
  lemma ToggleAtKeepsBelts(belts: seq<Belt>, built: seq<Belt>, i: nat)
    requires BeltsFrom(belts, built)
    requires forall j :: 0 <= j < |belts| ==> WellFormed(belts[j])
    ensures BeltsFrom(ToggleAt(belts, i), built)
    ensures forall j :: 0 <= j < |belts| ==> WellFormed(ToggleAt(belts, i)[j])
  {
    if i < |belts| {
      if belts[i] == Toggle(built[i]) {
        ToggleTwice(built[i]);
      }
    }
  }

  /** The corrected pointer section keeps the joint bookkeeping exact and
      the belts a reversal pattern of the stage's, and touches nothing else. */
  lemma PointerKeepsInvariant(w: World, p: PointerInput, built: seq<Belt>)
    requires JointsAccounted(w)
    requires BeltsFrom(w.belts, built) && forall j :: 0 <= j < |w.belts| ==> WellFormed(w.belts[j])
    ensures var r := PointerStep(w, p);
      && JointsAccounted(r)
      && BeltsFrom(r.belts, built) && (forall j :: 0 <= j < |r.belts| ==> WellFormed(r.belts[j]))
      && r.spawns == w.spawns && r.created == w.created
  {
    if p.belt.OnBelt? {
      ToggleAtKeepsBelts(w.belts, built, p.belt.index);
    }
  }

  /** The as-written pointer keeps only the weaker fact that a set joint is
      in the world, and, like the corrected one, keeps the belts a reversal
      pattern of the stage's and touches nothing else. */
  lemma PointerAsWrittenCountsJoint(w: World, p: PointerInput, built: seq<Belt>)
    requires JointHeld(w)
    requires BeltsFrom(w.belts, built) && forall j :: 0 <= j < |w.belts| ==> WellFormed(w.belts[j])
    ensures var r := PointerAsWritten(w, p);
      && JointHeld(r)
      && BeltsFrom(r.belts, built) && (forall j :: 0 <= j < |r.belts| ==> WellFormed(r.belts[j]))
      && r.spawns == w.spawns && r.created == w.created
  {
    if p.belt.OnBelt? {
      ToggleAtKeepsBelts(w.belts, built, p.belt.index);
    }
  }

  /** While no joint is held the two versions agree; they differ only on a
      grab made while `mouseJoint` is already set. */
  lemma PointerVersionsAgree(w: World, p: PointerInput)
    requires JointsAccounted(w)
    ensures !w.joint || !p.down || p.grab != Grabbed(true) <==> PointerAsWritten(w, p) == PointerStep(w, p)
  {
  }
}
