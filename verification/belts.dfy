/** Conveyor belts (main.cpp:119-136, 208-213 and the toggle at 624-632).
    A belt is a static segment whose two endpoints, normal and user-data bit
    are the only state the game ever edits. */
module Belts {
  import opened Basics

  /** Each endpoint sits this far from the body's origin along its local x axis. */
  const HalfLength: real := 60.0

  /** Magnitude of the sideways force the post-solve handler applies to cargo. */
  const PushMagnitude: real := 10000.0

  /** Rotation of an unrotated body: (cos 0, sin 0). */
  const Level: Vec := V(1.0, 0.0)

  /** A static body's placement: origin and rotation as the pair (cos, sin). */
  datatype Pose = Pose(pos: Vec, rot: Vec)

  /** A body-local point carried into world space by the pose, as the engine's
      transform does when it caches a shape's world-space copy. */
  function ToWorld(p: Pose, v: Vec): Vec
  {
    V(p.pos.x + p.rot.x * v.x - p.rot.y * v.y, p.pos.y + p.rot.y * v.x + p.rot.x * v.y)
  }

  /** The belt segment: local endpoints `a`, `b`, their world copies `ta`, `tb`,
      the local normal `n`, and the user-data bit (`reversed`). */
  datatype Belt = Belt(pose: Pose, a: Vec, b: Vec, ta: Vec, tb: Vec, n: Vec, reversed: bool)

  /** The direction bit agrees with the endpoint order, the world copies agree
      with the local endpoints, and the normal is the unit clockwise turn of
      a->b, as the engine's segment constructor computes it. */
  predicate WellFormed(belt: Belt)
  {
    && belt.a == V(if belt.reversed then HalfLength else -HalfLength, 0.0)
    && belt.b == V(if belt.reversed then -HalfLength else HalfLength, 0.0)
    && belt.ta == ToWorld(belt.pose, belt.a)
    && belt.tb == ToWorld(belt.pose, belt.b)
    && belt.n == RPerp(Scale(Sub(belt.b, belt.a), 1.0 / (2.0 * HalfLength)))
  }

  /** `MakeBelt(pos, a, flip)`: endpoints (-60,0) and (60,0), swapped when
      `flip`, the bit set to `flip`; `rot` is the rotation the engine derives
      from the angle `a`. */
  function MakeBelt(pos: Vec, rot: Vec, flip: bool): (belt: Belt)
    ensures WellFormed(belt)
    ensures belt.reversed == flip && belt.pose == Pose(pos, rot)
  {
    var p1 := V(-HalfLength, 0.0);
    var p2 := V(HalfLength, 0.0);
    var a := if flip then p2 else p1;
    var b := if flip then p1 else p2;
    var pose := Pose(pos, rot);
    Belt(pose, a, b, ToWorld(pose, a), ToWorld(pose, b), RPerp(Scale(Sub(b, a), 1.0 / (2.0 * HalfLength))), flip)
  }

  /** Reversal on click: swap `a`/`b` and `ta`/`tb`, negate `n`, and flip the
      user-data bit (`userData ^ 1` on a value that is 0 or 1). */
  function Toggle(belt: Belt): (r: Belt)
    ensures r.pose == belt.pose && r.reversed != belt.reversed
    ensures WellFormed(belt) ==> WellFormed(r)
    ensures WellFormed(belt) ==> PushForce(r) == Neg(PushForce(belt))
  {
    Belt(belt.pose, belt.b, belt.a, belt.tb, belt.ta, Neg(belt.n), !belt.reversed)
  }

  /** Force the post-solve handler applies to cargo on the belt:
      `perp(n) * -10000`, computed from the local normal and applied as a
      world-space force. */
  function PushForce(belt: Belt): Vec
  {
    Scale(Perp(belt.n), -PushMagnitude)
  }

  /** A well-formed belt pushes with magnitude 10000 along the local
      direction from `b` to `a`. Since that local vector is applied in world
      space, the push is along the world x axis whatever the body's pose:
      -x for an unreversed belt, +x for a reversed one. */
  lemma PushAlongBelt(belt: Belt)
    requires WellFormed(belt)
    ensures PushForce(belt) == Scale(Sub(belt.a, belt.b), PushMagnitude / (2.0 * HalfLength))
    ensures PushForce(belt) == V(if belt.reversed then PushMagnitude else -PushMagnitude, 0.0)
  {
  }

  /** Toggling is an involution: twice restores endpoints, normal and bit. */
  lemma ToggleTwice(belt: Belt)
    ensures Toggle(Toggle(belt)) == belt
  {
  }

  /** A belt built with `flip` is the toggle of the one built without it. */
  lemma FlipIsToggle(pos: Vec, rot: Vec)
    ensures MakeBelt(pos, rot, true) == Toggle(MakeBelt(pos, rot, false))
  {
  }
}
