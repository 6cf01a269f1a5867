/**
 * The dimensions of a PPPSR parallel mechanism (PPPSRDimension) and its
 * inverse kinematics. Each leg has a mount position u and a mount orientation
 * O in the world frame, an attachment offset b in the end-effector frame and
 * a redundant link of length l. For an end-effector pose (position p,
 * orientation R) and one redundant angle per leg, a leg's joint target is
 *
 *     p + R (b - Z(angle) (l, 0, 0)) - u,
 *
 * where Z(angle) is the rotation about the z axis; the local target is the
 * same vector seen from the leg's mount frame, O^-1 applied to it.
 *
 * A dimension is an immutable value; the target functions build new
 * sequences and leave it as it was.
 */
module InverseKinematics {
  import opened Vectors
  import opened Rotations

  /** Why a dimension could not be built or read back. */
  datatype Error =
    | LengthMismatch          // the per-leg sequences differ in length
    | MissingKey(key: string) // a dictionary lacks one of the four keys
    | Malformed(key: string)  // the entry under key is not a list of the expected shape
    | ZeroQuaternion(key: string) // a quaternion under key has norm zero

  datatype Result<+T> = Ok(value: T) | Err(error: Error) {
    predicate IsFailure() {
      Err?
    }

    function PropagateFailure<U>(): Result<U>
      requires Err?
    {
      Err(error)
    }

    function Extract(): T
      requires Ok?
    {
      value
    }
  }

  /** The four per-leg sequences, in the order the record declares them. */
  datatype Legs = Legs(mounts: seq<Vec3>, orientations: seq<Rotation>, offsets: seq<Vec3>, links: seq<real>)

  predicate SameLength(g: Legs) {
    |g.mounts| == |g.orientations| == |g.offsets| == |g.links|
  }

  /** A dimension: four per-leg sequences of one common length. */
  type Dimension = g: Legs | SameLength(g) witness Legs([], [], [], [])

  function LegCount(d: Dimension): nat {
    |d.mounts|
  }

  function Min(a: nat, b: nat): nat {
    if a <= b then a else b
  }

  /** Builds a dimension, refusing sequences of unequal length. */
  function New(mounts: seq<Vec3>, orientations: seq<Rotation>, offsets: seq<Vec3>, links: seq<real>): (r: Result<Dimension>)
    ensures r.Ok? <==> |mounts| == |orientations| == |offsets| == |links|
    ensures r.Ok? ==> (r.value.mounts == mounts && r.value.orientations == orientations &&
                       r.value.offsets == offsets && r.value.links == links)
    ensures r.Err? ==> r.error == LengthMismatch
  {
    if |mounts| == |orientations| == |offsets| == |links| then
      var d: Dimension := Legs(mounts, orientations, offsets, links);
      Ok(d)
    else
      Err(LengthMismatch)
  }

  /**
   * The link of length l along the local x axis, turned about z by the
   * redundant angle: it reaches (l cos theta, l sin theta, 0).
   */
  function Link(l: real, angle: ZAngle): (link: Vec3)
    ensures link == Vec3(l * Cos(angle), l * Sin(angle), 0.0)
  {
    ZRotationOfLink(angle, l);
    Apply(ZRotation(angle), Vec3(l, 0.0, 0.0))
  }

  /** The joint target of one leg: p + R (b - Link(l, angle)) - u. */
  function LegTarget(p: Vec3, rot: Rotation, u: Vec3, b: Vec3, l: real, angle: ZAngle): Vec3 {
    Sub(Add(p, Apply(rot, Sub(b, Link(l, angle)))), u)
  }

  /** Where the joint of a leg would be without its redundant link: p + R b - u. */
  function Attachment(p: Vec3, rot: Rotation, u: Vec3, b: Vec3): Vec3 {
    Sub(Add(p, Apply(rot, b)), u)
  }

  /** Leg targets over the four sequences taken together, stopping at the shortest. */
  function Targets(p: Vec3, rot: Rotation, us: seq<Vec3>, bs: seq<Vec3>, ls: seq<real>, angles: seq<ZAngle>): (ts: seq<Vec3>)
    ensures |ts| == Min(Min(|us|, |bs|), Min(|ls|, |angles|))
    ensures forall k :: 0 <= k < |ts| ==> ts[k] == LegTarget(p, rot, us[k], bs[k], ls[k], angles[k])
  {
    if us == [] || bs == [] || ls == [] || angles == [] then []
    else [LegTarget(p, rot, us[0], bs[0], ls[0], angles[0])] + Targets(p, rot, us[1..], bs[1..], ls[1..], angles[1..])
  }

  /** The world-frame joint targets: one per leg, as long as there are angles for it. */
  function WorldTargets(d: Dimension, p: Vec3, rot: Rotation, angles: seq<ZAngle>): (ts: seq<Vec3>)
    ensures |ts| == Min(LegCount(d), |angles|)
    ensures forall k :: 0 <= k < |ts| ==>
              ts[k] == LegTarget(p, rot, d.mounts[k], d.offsets[k], d.links[k], angles[k])
  {
    Targets(p, rot, d.mounts, d.offsets, d.links, angles)
  }

  /** Each vector seen from the frame of its rotation, stopping at the shorter sequence. */
  function Locals(ws: seq<Vec3>, os: seq<Rotation>): (ls: seq<Vec3>)
    ensures |ls| == Min(|ws|, |os|)
    ensures forall k :: 0 <= k < |ls| ==> ls[k] == Apply(Inv(os[k]), ws[k])
  {
    if ws == [] || os == [] then []
    else [Apply(Inv(os[0]), ws[0])] + Locals(ws[1..], os[1..])
  }

  /** The joint targets in each leg's mount frame. */
  function LocalTargets(d: Dimension, p: Vec3, rot: Rotation, angles: seq<ZAngle>): (ts: seq<Vec3>)
    ensures |ts| == Min(LegCount(d), |angles|)
    ensures forall k :: 0 <= k < |ts| ==>
              ts[k] == Apply(Inv(d.orientations[k]), WorldTargets(d, p, rot, angles)[k])
  {
    Locals(WorldTargets(d, p, rot, angles), d.orientations)
  }

  // ---------------------------------------------------------------------------
  // One leg
  // ---------------------------------------------------------------------------

  /** A link of length zero displaces nothing, whatever its angle. */
  lemma ZeroLinkNoDisplacement(p: Vec3, rot: Rotation, u: Vec3, b: Vec3, angle: ZAngle)
    ensures LegTarget(p, rot, u, b, 0.0, angle) == Attachment(p, rot, u, b)
  {
    assert Sub(b, Link(0.0, angle)) == b;
  }

  /** A leg's target is its attachment point p + R b - u less the link turned by R. */
  lemma LegTargetFromAttachment(p: Vec3, rot: Rotation, u: Vec3, b: Vec3, l: real, angle: ZAngle)
    ensures LegTarget(p, rot, u, b, l, angle) == Sub(Attachment(p, rot, u, b), Apply(rot, Link(l, angle)))
  {
    ApplySub(rot, b, Link(l, angle));
  }

  /** The joint always lies at distance l from the attachment point p + R b - u. */
  lemma LinkLengthKept(p: Vec3, rot: Rotation, u: Vec3, b: Vec3, l: real, angle: ZAngle)
    ensures Norm2(Sub(LegTarget(p, rot, u, b, l, angle), Attachment(p, rot, u, b))) == l * l
  {
    var link := Link(l, angle);
    var rb, rl := Apply(rot, b), Apply(rot, link);
    ApplySub(rot, b, link);
    assert Sub(LegTarget(p, rot, u, b, l, angle), Attachment(p, rot, u, b)) == Neg(rl);
    assert Norm2(Neg(rl)) == Norm2(rl);
    ApplyPreservesNorm(rot, link);
    var co, si := Cos(angle), Sin(angle);
    CosSin(angle);
    LinkNorm(l, co, si);
  }

  lemma LinkNorm(l: real, co: real, si: real)
    requires co * co + si * si == 1.0
    ensures Norm2(Vec3(l * co, l * si, 0.0)) == l * l
  {
    assert (l * co) * (l * co) + (l * si) * (l * si) == l * l * (co * co + si * si);
  }

  /** Moving the end effector by t moves the joint target by t. */
  lemma LegTargetTranslates(p: Vec3, t: Vec3, rot: Rotation, u: Vec3, b: Vec3, l: real, angle: ZAngle)
    ensures LegTarget(Add(p, t), rot, u, b, l, angle) == Add(LegTarget(p, rot, u, b, l, angle), t)
  {
  }

  /**
   * At the home pose (origin, no rotation), a leg with a unit link and no
   * offset, mounted at the origin, has its target at -(cos theta, sin theta, 0).
   */
  lemma UnitLinkAtHome(angle: ZAngle)
    ensures LegTarget(Zero, Identity, Zero, Zero, 1.0, angle) == Vec3(-Cos(angle), -Sin(angle), 0.0)
  {
    var link := Link(1.0, angle);
    ApplyIdentity(Sub(Zero, link));
  }

  /** The angle zero puts that target at (-1, 0, 0). */
  lemma UnitLinkAtHomeNoTurn(angle: ZAngle)
    requires angle.s == 0.0
    ensures LegTarget(Zero, Identity, Zero, Zero, 1.0, angle) == Vec3(-1.0, 0.0, 0.0)
  {
    UnitLinkAtHome(angle);
    assert angle.c * angle.c == 1.0;
  }

  /** A quarter turn puts that target at (0, -1, 0). */
  lemma UnitLinkAtHomeQuarterTurn(angle: ZAngle)
    requires angle.c == angle.s
    ensures LegTarget(Zero, Identity, Zero, Zero, 1.0, angle) == Vec3(0.0, -1.0, 0.0)
  {
    UnitLinkAtHome(angle);
    assert angle.c * angle.s == 0.5;
  }

  // ---------------------------------------------------------------------------
  // All legs
  // ---------------------------------------------------------------------------

  /** With as many angles as legs, there is one target per leg; fewer angles truncate. */
  lemma TargetCount(d: Dimension, p: Vec3, rot: Rotation, angles: seq<ZAngle>)
    ensures |angles| >= LegCount(d) ==> |WorldTargets(d, p, rot, angles)| == LegCount(d)
    ensures |angles| < LegCount(d) ==> |WorldTargets(d, p, rot, angles)| == |angles|
    ensures |LocalTargets(d, p, rot, angles)| == |WorldTargets(d, p, rot, angles)|
  {
  }

  /** A leg whose link has length zero has its target at the attachment point. */
  lemma WorldTargetZeroLink(d: Dimension, p: Vec3, rot: Rotation, angles: seq<ZAngle>, k: nat)
    requires k < |WorldTargets(d, p, rot, angles)| && d.links[k] == 0.0
    ensures WorldTargets(d, p, rot, angles)[k] == Attachment(p, rot, d.mounts[k], d.offsets[k])
  {
    ZeroLinkNoDisplacement(p, rot, d.mounts[k], d.offsets[k], angles[k]);
  }

  /** A leg without offset and link has its target at its negated mount position at the home pose. */
  lemma HomeTarget(d: Dimension, angles: seq<ZAngle>, k: nat)
    requires k < |WorldTargets(d, Zero, Identity, angles)|
    requires d.offsets[k] == Zero && d.links[k] == 0.0
    ensures WorldTargets(d, Zero, Identity, angles)[k] == Neg(d.mounts[k])
  {
    var ts := WorldTargets(d, Zero, Identity, angles);
    ZeroLinkNoDisplacement(Zero, Identity, d.mounts[k], Zero, angles[k]);
    assert ts[k] == Attachment(Zero, Identity, d.mounts[k], Zero);
    ApplyIdentity(Zero);
  }

  /** Without offsets and links, the targets at the home pose are the negated mount positions. */
  lemma HomeTargets(d: Dimension, angles: seq<ZAngle>)
    requires forall k :: 0 <= k < LegCount(d) ==> d.offsets[k] == Zero && d.links[k] == 0.0
    ensures forall k :: 0 <= k < |WorldTargets(d, Zero, Identity, angles)| ==>
              WorldTargets(d, Zero, Identity, angles)[k] == Neg(d.mounts[k])
  {
    forall k | 0 <= k < |WorldTargets(d, Zero, Identity, angles)|
      ensures WorldTargets(d, Zero, Identity, angles)[k] == Neg(d.mounts[k])
    {
      HomeTarget(d, angles, k);
    }
  }

  /** Three legs mounted on the unit axes, without offsets and links, at the home pose. */
  lemma ThreeLegsOnTheAxes(d: Dimension, angles: seq<ZAngle>)
    requires d.mounts == [Vec3(1.0, 0.0, 0.0), Vec3(0.0, 1.0, 0.0), Vec3(0.0, 0.0, 1.0)]
    requires d.offsets == [Zero, Zero, Zero] && d.links == [0.0, 0.0, 0.0]
    requires |angles| == 3
    ensures WorldTargets(d, Zero, Identity, angles)
         == [Vec3(-1.0, 0.0, 0.0), Vec3(0.0, -1.0, 0.0), Vec3(0.0, 0.0, -1.0)]
  {
    var ts := WorldTargets(d, Zero, Identity, angles);
    assert LegCount(d) == 3;
    assert |ts| == 3;
    assert ts[0] == Vec3(-1.0, 0.0, 0.0) by {
      assert d.offsets[0] == Zero && d.links[0] == 0.0;
      HomeTarget(d, angles, 0);
    }
    assert ts[1] == Vec3(0.0, -1.0, 0.0) by {
      assert d.offsets[1] == Zero && d.links[1] == 0.0;
      HomeTarget(d, angles, 1);
    }
    assert ts[2] == Vec3(0.0, 0.0, -1.0) by {
      assert d.offsets[2] == Zero && d.links[2] == 0.0;
      HomeTarget(d, angles, 2);
    }
    Three(ts, Vec3(-1.0, 0.0, 0.0), Vec3(0.0, -1.0, 0.0), Vec3(0.0, 0.0, -1.0));
  }

  /**
   * Legs whose mount orientations are all the identity rotation, whatever
   * quaternion stands for it, have local targets equal to their world targets.
   */
  lemma UnrotatedMounts(d: Dimension, p: Vec3, rot: Rotation, angles: seq<ZAngle>)
    requires forall k :: 0 <= k < LegCount(d) ==> SameRotation(d.orientations[k], Identity)
    ensures LocalTargets(d, p, rot, angles) == WorldTargets(d, p, rot, angles)
  {
    var ts, ls := WorldTargets(d, p, rot, angles), LocalTargets(d, p, rot, angles);
    forall k | 0 <= k < |ts|
      ensures ls[k] == ts[k]
    {
      assert SameRotation(d.orientations[k], Identity);
      LocalIdentity(d, p, rot, angles, k);
    }
    SameElements(ls, ts);
  }

  lemma SameElements(s: seq<Vec3>, t: seq<Vec3>)
    requires |s| == |t| && forall k :: 0 <= k < |t| ==> s[k] == t[k]
    ensures s == t
  {
  }

  lemma Three(s: seq<Vec3>, a: Vec3, b: Vec3, c: Vec3)
    requires |s| == 3 && s[0] == a && s[1] == b && s[2] == c
    ensures s == [a, b, c]
  {
  }

  /**
   * A leg mounted without rotation sees its world target unchanged, whatever
   * quaternion stands for its orientation.
   */
  lemma LocalIdentity(d: Dimension, p: Vec3, rot: Rotation, angles: seq<ZAngle>, k: nat)
    requires k < |WorldTargets(d, p, rot, angles)| && SameRotation(d.orientations[k], Identity)
    ensures LocalTargets(d, p, rot, angles)[k] == WorldTargets(d, p, rot, angles)[k]
  {
    var o, w := d.orientations[k], WorldTargets(d, p, rot, angles)[k];
    var x := Apply(Inv(o), w);
    ApplyInvCancels(o, w);
    assert Apply(o, x) == Apply(Identity, x);
    ApplyIdentity(x);
  }

  /** Turning a local target by its mount orientation gives the world target back. */
  lemma LocalBackToWorld(d: Dimension, p: Vec3, rot: Rotation, angles: seq<ZAngle>, k: nat)
    requires k < |WorldTargets(d, p, rot, angles)|
    ensures Apply(d.orientations[k], LocalTargets(d, p, rot, angles)[k]) == WorldTargets(d, p, rot, angles)[k]
  {
    ApplyInvCancels(d.orientations[k], WorldTargets(d, p, rot, angles)[k]);
  }

  /** Changing frames keeps the length of every target. */
  lemma LocalKeepsLength(d: Dimension, p: Vec3, rot: Rotation, angles: seq<ZAngle>, k: nat)
    requires k < |WorldTargets(d, p, rot, angles)|
    ensures Norm2(LocalTargets(d, p, rot, angles)[k]) == Norm2(WorldTargets(d, p, rot, angles)[k])
  {
    ApplyPreservesNorm(Inv(d.orientations[k]), WorldTargets(d, p, rot, angles)[k]);
  }

  /** Every world target keeps its link at distance l from its attachment point. */
  lemma WorldLinkLengths(d: Dimension, p: Vec3, rot: Rotation, angles: seq<ZAngle>, k: nat)
    requires k < |WorldTargets(d, p, rot, angles)|
    ensures Norm2(Sub(WorldTargets(d, p, rot, angles)[k], Attachment(p, rot, d.mounts[k], d.offsets[k])))
         == d.links[k] * d.links[k]
  {
    LinkLengthKept(p, rot, d.mounts[k], d.offsets[k], d.links[k], angles[k]);
  }

  /** Moving the end effector by t moves every world target by t. */
  lemma WorldTargetsTranslate(d: Dimension, p: Vec3, t: Vec3, rot: Rotation, angles: seq<ZAngle>)
    ensures |WorldTargets(d, Add(p, t), rot, angles)| == |WorldTargets(d, p, rot, angles)|
    ensures forall k :: 0 <= k < |WorldTargets(d, p, rot, angles)| ==>
              WorldTargets(d, Add(p, t), rot, angles)[k] == Add(WorldTargets(d, p, rot, angles)[k], t)
  {
    forall k | 0 <= k < |WorldTargets(d, p, rot, angles)|
      ensures WorldTargets(d, Add(p, t), rot, angles)[k] == Add(WorldTargets(d, p, rot, angles)[k], t)
    {
      LegTargetTranslates(p, t, rot, d.mounts[k], d.offsets[k], d.links[k], angles[k]);
    }
  }
}
