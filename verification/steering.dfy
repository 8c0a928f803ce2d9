/** The per-particle rules of one simulation step of fourmis.py, each as a
    function of the particle's values: avoidance, the speed clamp, the
    rotation cap, ground re-orientation, the behaviour random walk and the
    guide-index state machine. */
module Steering {
  import opened Vectors

  // ---------------------------------------------------------------------
  // Avoidance (fourmis.py:133-145)
  // ---------------------------------------------------------------------

  /** Squared offset below which a neighbour is skipped. */
  const MinSqOffset: real := 0.0001

  /** One neighbour's contribution: the unit vector pointing from it towards
      `here`, or nothing when the two nearly coincide (which is the case for
      the particle's own entry in the snapshot). The source divides by the
      length; for the lengths that get here that is what Normalized does. */
  function AvoidTerm(sqrt: Root, here: Vec3, other: Vec3): Vec3 {
    var d := Sub(here, other);
    if LengthSquared(d) < MinSqOffset then Zero else Normalized(sqrt, d)
  }

  /** The sum of `term` over a sequence, accumulated left to right. */
  function SumOver(term: Vec3 -> Vec3, xs: seq<Vec3>): Vec3
    decreases |xs|
  {
    if xs == [] then Zero else Add(SumOver(term, xs[..|xs| - 1]), term(xs[|xs| - 1]))
  }

  /** The accumulated, not yet scaled, avoidance vector. */
  function AvoidSum(sqrt: Root, here: Vec3, nearby: seq<Vec3>): Vec3 {
    SumOver(o => AvoidTerm(sqrt, here, o), nearby)
  }

  /** The loop of fourmis.py:134-145: accumulate over the range-query result,
      then scale by AVOID_STRENGTH. */
  method AvoidVector(sqrt: Root, here: Vec3, tooClose: seq<Vec3>, strength: real) returns (avoid: Vec3)
    ensures avoid == Scale(AvoidSum(sqrt, here, tooClose), strength)
  {
    avoid := Zero;
    var i := 0;
    while i < |tooClose|
      invariant 0 <= i <= |tooClose|
      invariant avoid == AvoidSum(sqrt, here, tooClose[..i])
    {
      assert tooClose[..i + 1][..i] == tooClose[..i];
      ghost var before := avoid;
      var other := Sub(here, tooClose[i]);
      if LengthSquared(other) >= MinSqOffset {
        other := Normalized(sqrt, other);
        avoid := Add(avoid, other);
      } else {
        AddZero(avoid);
      }
      assert avoid == Add(before, AvoidTerm(sqrt, here, tooClose[i]));
      assert tooClose[..i + 1][i] == tooClose[i];
      assert AvoidSum(sqrt, here, tooClose[..i + 1]) == Add(AvoidSum(sqrt, here, tooClose[..i]), AvoidTerm(sqrt, here, tooClose[i]));
      i := i + 1;
    }
    assert tooClose[..i] == tooClose;
    avoid := Scale(avoid, strength);
  }

  /** Every neighbour that is not skipped contributes exactly one unit vector. */
  lemma AvoidTermUnit(sqrt: Root, here: Vec3, other: Vec3)
    requires IsSqrt(sqrt)
    requires MinSqOffset <= SqDist(here, other)
    ensures LengthSquared(AvoidTerm(sqrt, here, other)) == 1.0
    ensures Length(sqrt, AvoidTerm(sqrt, here, other)) == 1.0
  {
    var d := Sub(here, other);
    LengthPositive(sqrt, d);
    WithLengthLength(sqrt, d, 1.0);
    assert WithLength(sqrt, d, 1.0) == AvoidTerm(sqrt, here, other);
  }

  /** Two particles push each other in opposite directions. */
  lemma AvoidTermSymmetric(sqrt: Root, a: Vec3, b: Vec3)
    ensures AvoidTerm(sqrt, a, b) == Neg(AvoidTerm(sqrt, b, a))
  {
    assert Sub(b, a) == Neg(Sub(a, b));
    assert LengthSquared(Sub(b, a)) == LengthSquared(Sub(a, b));
  }

  lemma {:induction false} SumOverAppend(term: Vec3 -> Vec3, a: seq<Vec3>, b: seq<Vec3>)
    ensures SumOver(term, a + b) == Add(SumOver(term, a), SumOver(term, b))
    decreases |b|
  {
    if b == [] {
      assert a + b == a;
      AddZero(SumOver(term, a));
    } else {
      var b' := b[..|b| - 1];
      var x := b[|b| - 1];
      assert (a + b)[..|a + b| - 1] == a + b';
      assert (a + b)[|a + b| - 1] == x;
      SumOverAppend(term, a, b');
      AddAssociative(SumOver(term, a), SumOver(term, b'), term(x));
    }
  }

  /** Reordering the sequence does not change the sum. */
  lemma {:induction false} SumOverPermutation(term: Vec3 -> Vec3, a: seq<Vec3>, b: seq<Vec3>)
    requires multiset(a) == multiset(b)
    ensures SumOver(term, a) == SumOver(term, b)
    decreases |a|
  {
    if a == [] {
      assert |b| == |multiset(b)| == 0;
    } else {
      var x := a[|a| - 1];
      var a' := a[..|a| - 1];
      assert a == a' + [x];
      assert x in multiset(b);
      var k :| 0 <= k < |b| && b[k] == x;
      var front, back := b[..k], b[k + 1..];
      assert b == front + [x] + back;
      assert multiset(front + back) == multiset(b) - multiset{x};
      assert multiset(a') == multiset(a) - multiset{x};
      SumOverPermutation(term, a', front + back);
      // SumOver(a) == SumOver(a') + term(x) == SumOver(front) + SumOver(back) + term(x)
      SumOverAppend(term, front, back);
      SumOverAppend(term, front + [x], back);
      SumOverAppend(term, front, [x]);
      assert [x][..0] == [];
      AddZero(term(x));
      AddAssociative(SumOver(term, front), SumOver(term, back), term(x));
      AddAssociative(SumOver(term, front), term(x), SumOver(term, back));
      AddCommutative(SumOver(term, back), term(x));
    }
  }

  /** The avoidance vector does not depend on the order in which the range
      query lists the neighbours. */
  lemma AvoidSumPermutation(sqrt: Root, here: Vec3, a: seq<Vec3>, b: seq<Vec3>)
    requires multiset(a) == multiset(b)
    ensures AvoidSum(sqrt, here, a) == AvoidSum(sqrt, here, b)
  {
    SumOverPermutation(o => AvoidTerm(sqrt, here, o), a, b);
  }

  // ---------------------------------------------------------------------
  // Velocity (fourmis.py:149-174)
  // ---------------------------------------------------------------------

  /** The new velocity before any limit: previous velocity plus avoidance,
      turbulence weighted by 1 - behaviour and guidance weighted by behaviour. */
  function Compose(previous: Vec3, avoid: Vec3, turbulence: Vec3, guide: Vec3, behaviour: real): Vec3 {
    Add(Add(Add(previous, avoid), Scale(turbulence, 1.0 - behaviour)), Scale(guide, behaviour))
  }

  /** A velocity no faster than maxVel, compared on the squares. */
  predicate SpeedAtMost(v: Vec3, maxVel: real) {
    LengthSquared(v) <= maxVel * maxVel
  }

  /** Speed clamp for a nonnegative maximum (a negative one raises). */
  function ClampSpeed(sqrt: Root, v: Vec3, maxVel: real): Vec3
    requires 0.0 <= maxVel
  {
    if Length(sqrt, v) > maxVel then WithLength(sqrt, v, maxVel) else v
  }

  lemma ClampSpeedBound(sqrt: Root, v: Vec3, maxVel: real)
    requires IsSqrt(sqrt)
    requires 0.0 <= maxVel
    ensures LengthSquared(ClampSpeed(sqrt, v, maxVel)) <= maxVel * maxVel
    ensures Length(sqrt, ClampSpeed(sqrt, v, maxVel)) <= maxVel
    ensures Length(sqrt, v) > maxVel ==> Length(sqrt, ClampSpeed(sqrt, v, maxVel)) == maxVel
  {
    WithLengthLength(sqrt, v, maxVel);
    LengthBound(sqrt, v, maxVel);
    LengthBound(sqrt, ClampSpeed(sqrt, v, maxVel), maxVel);
  }

  /** The raw dot product of the two unnormalised velocities, mapped by
      x * 0.5 + 0.5 and capped from above only. */
  function RotationScalar(previous: Vec3, v: Vec3): (r: real)
    ensures r <= 0.1
    ensures r <= Dot(previous, v) * 0.5 + 0.5
    ensures r == 0.1 || r == Dot(previous, v) * 0.5 + 0.5
  {
    var s := Dot(previous, v) * 0.5 + 0.5;
    if s > 0.1 then 0.1 else s
  }

  function LimitRotation(previous: Vec3, v: Vec3): Vec3 {
    var r := RotationScalar(previous, v);
    Add(Scale(v, r), Scale(previous, 1.0 - r))
  }

  /** For velocities as small as the simulation's (squared speeds summing to
      at most 1.6) the cap always applies: the new velocity is 0.1 of the
      clamped one plus 0.9 of the previous one. */
  lemma RotationSaturates(previous: Vec3, v: Vec3)
    requires LengthSquared(previous) + LengthSquared(v) <= 1.6
    ensures RotationScalar(previous, v) == 0.1
    ensures LimitRotation(previous, v) == Add(Scale(v, 0.1), Scale(previous, 0.9))
  {
    DotLowerBound(previous, v);
  }

  lemma TwoBelowOne(p: real, q: real, bound: real)
    requires p <= bound && q <= bound && bound <= 1.0
    ensures p + q <= 2.0
  {
  }

  /** For velocities whose squared speeds sum to at most 2 the blend weight
      lies in [0, 0.1]. */
  lemma RotationScalarRange(previous: Vec3, v: Vec3)
    requires LengthSquared(previous) + LengthSquared(v) <= 2.0
    ensures 0.0 <= RotationScalar(previous, v) <= 0.1
  {
    DotLowerBound(previous, v);
  }

  /** Blending two velocities within the speed bound stays within it. */
  lemma LimitRotationBound(previous: Vec3, v: Vec3, m: real)
    requires 0.0 <= m <= 1.0
    requires LengthSquared(previous) <= m * m && LengthSquared(v) <= m * m
    ensures LengthSquared(LimitRotation(previous, v)) <= m * m
  {
    SquareAtMostOne(m);
    TwoBelowOne(LengthSquared(previous), LengthSquared(v), m * m);
    RotationScalarRange(previous, v);
    var r := RotationScalar(previous, v);
    BlendLengthSquared(v, previous, r);
    ConvexBound(LengthSquared(v), LengthSquared(previous), m * m, r);
  }

  /** Ground re-orientation: n x (v x n), rescaled to the speed v had. */
  function GroundVelocity(sqrt: Root, normal: Vec3, v: Vec3): Vec3 {
    WithLength(sqrt, Cross(normal, Cross(v, normal)), Length(sqrt, v))
  }

  /** The re-oriented velocity is tangent to the ground. */
  lemma GroundVelocityTangent(sqrt: Root, normal: Vec3, v: Vec3)
    ensures Dot(GroundVelocity(sqrt, normal, v), normal) == 0.0
  {
    var w := Cross(normal, Cross(v, normal));
    CrossPerpendicular(normal, Cross(v, normal));
    WithLengthPerpendicular(sqrt, w, Length(sqrt, v), normal);
  }

  /** The re-oriented velocity keeps the speed v had, except when
      n x (v x n) vanishes (v along the normal, or a zero normal): the setter
      then has nothing to rescale and the speed drops to zero. */
  lemma GroundVelocitySpeed(sqrt: Root, normal: Vec3, v: Vec3)
    requires IsSqrt(sqrt)
    ensures LengthSquared(GroundVelocity(sqrt, normal, v)) <= LengthSquared(v)
    ensures Length(sqrt, Cross(normal, Cross(v, normal))) != 0.0 ==>
              Length(sqrt, GroundVelocity(sqrt, normal, v)) == Length(sqrt, v)
    ensures Length(sqrt, Cross(normal, Cross(v, normal))) == 0.0 ==>
              LengthSquared(GroundVelocity(sqrt, normal, v)) == 0.0
  {
    var w := Cross(normal, Cross(v, normal));
    WithLengthOf(sqrt, w, v);
    WithLengthLength(sqrt, w, Length(sqrt, v));
  }

  /** Lines 155-174 in order: clamp, rotation cap, ground re-orientation. */
  function Settle(sqrt: Root, previous: Vec3, v: Vec3, maxVel: real, normal: Vec3): Vec3
    requires 0.0 <= maxVel
  {
    GroundVelocity(sqrt, normal, LimitRotation(previous, ClampSpeed(sqrt, v, maxVel)))
  }

  /** A particle whose previous velocity is within its maximum speed (at
      most 1) leaves lines 155-174 with a velocity within it, tangent to the
      ground. The limit of 1 is needed: see SpeedBoundFailsAboveOne. */
  lemma SettleBound(sqrt: Root, previous: Vec3, v: Vec3, maxVel: real, normal: Vec3)
    requires IsSqrt(sqrt)
    requires 0.0 <= maxVel <= 1.0
    requires SpeedAtMost(previous, maxVel)
    ensures SpeedAtMost(Settle(sqrt, previous, v, maxVel, normal), maxVel)
    ensures Length(sqrt, Settle(sqrt, previous, v, maxVel, normal)) <= maxVel
    ensures Dot(Settle(sqrt, previous, v, maxVel, normal), normal) == 0.0
  {
    var c := ClampSpeed(sqrt, v, maxVel);
    ClampSpeedBound(sqrt, v, maxVel);
    var rotated := LimitRotation(previous, c);
    LimitRotationBound(previous, c, maxVel);
    var settled := GroundVelocity(sqrt, normal, rotated);
    assert settled == Settle(sqrt, previous, v, maxVel, normal);
    GroundVelocitySpeed(sqrt, normal, rotated);
    GroundVelocityTangent(sqrt, normal, rotated);
    LengthBound(sqrt, settled, maxVel);
  }

  /** The bound needs a maximum speed of at most 1. Above 1 the raw dot
      product of two opposite velocities at full speed pushes the rotation
      scalar below 0, the blend extrapolates, and on flat ground
      (normal (0, 0, 1)) the settled velocity is faster than the maximum. */
  lemma SpeedBoundFailsAboveOne(sqrt: Root)
    requires IsSqrt(sqrt)
    ensures SpeedAtMost(Vec3(1.2, 0.0, 0.0), 1.2) && SpeedAtMost(Vec3(-1.2, 0.0, 0.0), 1.2)
    ensures RotationScalar(Vec3(1.2, 0.0, 0.0), Vec3(-1.2, 0.0, 0.0)) < 0.0
    ensures Settle(sqrt, Vec3(1.2, 0.0, 0.0), Vec3(-1.2, 0.0, 0.0), 1.2, Vec3(0.0, 0.0, 1.0)) == Vec3(1.728, 0.0, 0.0)
    ensures !SpeedAtMost(Settle(sqrt, Vec3(1.2, 0.0, 0.0), Vec3(-1.2, 0.0, 0.0), 1.2, Vec3(0.0, 0.0, 1.0)), 1.2)
  {
    FullSpeedPair();
    RotationExtrapolates();
    SettleExtrapolates(sqrt);
    TooFast();
  }

  lemma SettleExtrapolates(sqrt: Root)
    requires IsSqrt(sqrt)
    ensures Settle(sqrt, Vec3(1.2, 0.0, 0.0), Vec3(-1.2, 0.0, 0.0), 1.2, Vec3(0.0, 0.0, 1.0)) == Vec3(1.728, 0.0, 0.0)
  {
    ClampAtFullSpeed(sqrt);
    RotationExtrapolates();
    FlatGroundKeeps(sqrt);
  }

  lemma TooFast()
    ensures !SpeedAtMost(Vec3(1.728, 0.0, 0.0), 1.2)
  {
  }

  lemma FullSpeedPair()
    ensures SpeedAtMost(Vec3(1.2, 0.0, 0.0), 1.2) && SpeedAtMost(Vec3(-1.2, 0.0, 0.0), 1.2)
  {
  }

  lemma ClampAtFullSpeed(sqrt: Root)
    requires IsSqrt(sqrt)
    ensures ClampSpeed(sqrt, Vec3(-1.2, 0.0, 0.0), 1.2) == Vec3(-1.2, 0.0, 0.0)
  {
    assert LengthSquared(Vec3(-1.2, 0.0, 0.0)) == 1.2 * 1.2;
    SqrtOfSquare(sqrt, 1.2);
  }

  lemma RotationExtrapolates()
    ensures RotationScalar(Vec3(1.2, 0.0, 0.0), Vec3(-1.2, 0.0, 0.0)) == -0.22
    ensures LimitRotation(Vec3(1.2, 0.0, 0.0), Vec3(-1.2, 0.0, 0.0)) == Vec3(1.728, 0.0, 0.0)
  {
    var previous, v := Vec3(1.2, 0.0, 0.0), Vec3(-1.2, 0.0, 0.0);
    assert Dot(previous, v) == -1.44;
    assert Scale(v, -0.22) == Vec3(0.264, 0.0, 0.0);
    assert Scale(previous, 1.22) == Vec3(1.464, 0.0, 0.0);
  }

  lemma FlatGroundKeeps(sqrt: Root)
    requires IsSqrt(sqrt)
    ensures GroundVelocity(sqrt, Vec3(0.0, 0.0, 1.0), Vec3(1.728, 0.0, 0.0)) == Vec3(1.728, 0.0, 0.0)
  {
    FullLength(sqrt);
    AlongGroundKeeps(sqrt);
  }

  lemma FullLength(sqrt: Root)
    requires IsSqrt(sqrt)
    ensures Length(sqrt, Vec3(1.728, 0.0, 0.0)) == 1.728
  {
    assert LengthSquared(Vec3(1.728, 0.0, 0.0)) == 1.728 * 1.728;
    SqrtOfSquare(sqrt, 1.728);
  }

  lemma AlongGroundKeeps(sqrt: Root)
    requires Length(sqrt, Vec3(1.728, 0.0, 0.0)) == 1.728
    ensures GroundVelocity(sqrt, Vec3(0.0, 0.0, 1.0), Vec3(1.728, 0.0, 0.0)) == Vec3(1.728, 0.0, 0.0)
  {
    FlatCross();
    RescaleToOwnLength(sqrt, Vec3(1.728, 0.0, 0.0), 1.728);
  }

  lemma FlatCross()
    ensures Cross(Vec3(0.0, 0.0, 1.0), Cross(Vec3(1.728, 0.0, 0.0), Vec3(0.0, 0.0, 1.0))) == Vec3(1.728, 0.0, 0.0)
  {
  }

  /** Setting a vector's length to the length it has leaves it unchanged. */
  lemma RescaleToOwnLength(sqrt: Root, w: Vec3, m: real)
    requires 0.0 < m && Length(sqrt, w) == m
    ensures WithLength(sqrt, w, m) == w
  {
    assert m / m == 1.0;
    assert Scale(w, 1.0) == w;
  }

  // ---------------------------------------------------------------------
  // Behaviour (fourmis.py:181-185)
  // ---------------------------------------------------------------------

  /** behaviour += random()*0.1 - 0.05, then clamped to [0.8, 0.9]. */
  function DriftBehaviour(behaviour: real, draw: real): (r: real)
    ensures 0.8 <= r <= 0.9
    ensures 0.8 <= behaviour + draw * 0.1 - 0.05 <= 0.9 ==> r == behaviour + draw * 0.1 - 0.05
    ensures behaviour + draw * 0.1 - 0.05 < 0.8 ==> r == 0.8
    ensures behaviour + draw * 0.1 - 0.05 > 0.9 ==> r == 0.9
    ensures 0.8 <= behaviour <= 0.9 && 0.0 <= draw < 1.0 ==> -0.05 <= r - behaviour < 0.05
  {
    var b := behaviour + draw * 0.1 - 0.05;
    var b := if b < 0.8 then 0.8 else b;
    if b > 0.9 then 0.9 else b
  }

  // ---------------------------------------------------------------------
  // Guide index (fourmis.py:188-202)
  // ---------------------------------------------------------------------

  function Abs(n: int): nat { if n < 0 then -n else n }

  /** Advance the target by `direction` when the nearest guide vertex is
      within one index of it; then, if the target reached the last vertex or
      vertex 1, flip the direction and step once the new way. Returns the new
      (guide_index, direction). */
  function GuideStep(index: int, direction: int, nearest: int, count: int): (r: (int, int))
    ensures r.1 == direction || r.1 == -direction
    // behind its target and away from the ends: nothing changes
    ensures Abs(nearest - index) >= 2 && index != 1 && index < count - 1 ==> r == (index, direction)
    // caught up, and the next target is not an end: move the target on
    ensures (Abs(nearest - index) < 2 && index + direction != 1 && index + direction < count - 1)
            ==> r == (index + direction, direction)
    // caught up, and the next target would be an end: turn round, keep the target
    ensures (Abs(nearest - index) < 2 && (index + direction == 1 || index + direction >= count - 1))
            ==> r == (index, -direction)
    // behind, but already on an end: turn round and step back
    ensures (Abs(nearest - index) >= 2 && (index == 1 || index >= count - 1))
            ==> r == (index - direction, -direction)
  {
    var advanced := if Abs(nearest - index) < 2 then index + direction else index;
    if advanced >= count - 1 || advanced == 1 then (advanced - direction, -direction)
    else (advanced, direction)
  }

  /** The (guide_index, direction) pairs a particle can be in: any target from
      1 to count - 2, or, after leaving through vertex 1 (which the reflection
      test does not always catch), a target of 0, -1 or -2 while moving down.
      Python reads indices -1 and -2 as the last two vertices. */
  predicate GuideSafe(index: int, direction: int, count: int) {
    && count >= 3
    && (direction == 1 || direction == -1)
    && (1 <= index <= count - 2 || (direction == -1 && -2 <= index <= 0))
  }

  /** GuideSafe is kept by every step, and every index it allows is a valid
      Python index into the guide vertices, so fourmis.py:122 never raises. */
  lemma GuideStepKeepsSafe(index: int, direction: int, nearest: int, count: int)
    requires GuideSafe(index, direction, count)
    requires 0 <= nearest < count
    ensures GuideSafe(GuideStep(index, direction, nearest, count).0, GuideStep(index, direction, nearest, count).1, count)
    ensures -count <= GuideStep(index, direction, nearest, count).0 < count
  {
  }

  /** With at least four guide vertices, a target strictly inside [2, count - 2]
      stays there. */
  lemma GuideInteriorKept(index: int, direction: int, nearest: int, count: int)
    requires count >= 4
    requires 2 <= index <= count - 2
    requires direction == 1 || direction == -1
    requires 0 <= nearest < count
    ensures 2 <= GuideStep(index, direction, nearest, count).0 <= count - 2
  {
  }

  /** The initial range [1, count - 2] is not kept: from target 1 a particle
      can move its target to 0, and from there to -1, the last vertex. */
  lemma GuideLeavesFromOne(count: int)
    requires count >= 4
    ensures GuideStep(1, 1, count - 1, count) == (0, -1)
    ensures GuideStep(1, -1, 1, count) == (0, -1)
    ensures GuideStep(0, -1, 0, count) == (-1, -1)
  {
  }

  /** From target -1 the target can move on to -2, and -2 is a sink: no
      nearest vertex is within 1 of it, and it is neither 1 nor at or past
      count - 1, so every later step keeps (-2, -1). Python reads -2 as
      vertex count - 2, which the particle then heads for forever. */
  lemma GuideSinkAtMinusTwo(count: int)
    requires count >= 3
    ensures GuideStep(-1, -1, 0, count) == (-2, -1)
    ensures forall nearest :: 0 <= nearest < count ==> GuideStep(-2, -1, nearest, count) == (-2, -1)
  {
  }
}
