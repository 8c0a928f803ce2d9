/** The two KD-tree queries the step uses, defined by brute force over a
    snapshot of points (the tree's balancing is not modelled, only what its
    queries return). Distances are compared squared, so no square root is
    needed. */
module Spatial {
  import opened Vectors

  /** `tree.find(q)`: the index of a point closest to q. Among equally close
      points this picks the lowest index. */
  function Nearest(points: seq<Vec3>, q: Vec3): (k: nat)
    requires |points| > 0
    ensures k < |points|
    ensures forall j :: 0 <= j < |points| ==> SqDist(points[k], q) <= SqDist(points[j], q)
    ensures forall j :: 0 <= j < k ==> SqDist(points[k], q) < SqDist(points[j], q)
  {
    if |points| == 1 then 0
    else
      var k := Nearest(points[..|points| - 1], q);
      var last := |points| - 1;
      if SqDist(points[last], q) < SqDist(points[k], q) then last else k
  }

  /** `tree.find_range(c, radius)`: the points within radius of c, kept in
      index order (the tree returns them in an order of its own; the sums
      taken over them do not depend on it). */
  function FindRange(points: seq<Vec3>, c: Vec3, radius: real): (r: seq<Vec3>)
    ensures |r| <= |points|
    ensures forall v :: v in r ==> v in points && SqDist(v, c) <= radius * radius
    ensures forall v :: multiset(r)[v] == if SqDist(v, c) <= radius * radius then multiset(points)[v] else 0
  {
    if points == [] then []
    else
      var last := points[|points| - 1];
      var front := FindRange(points[..|points| - 1], c, radius);
      assert points == points[..|points| - 1] + [last];
      assert forall j :: 0 <= j < |points| - 1 ==> points[j] == points[..|points| - 1][j];
      if SqDist(last, c) <= radius * radius then front + [last] else front
  }

  /** A query point that is itself in the snapshot is returned by the range
      query at its own position, whatever the radius. */
  lemma FindRangeHasSelf(points: seq<Vec3>, i: nat, radius: real)
    requires i < |points|
    ensures points[i] in FindRange(points, points[i], radius)
  {
    var p := points[i];
    SquareNonNegative(radius);
    assert Sub(p, p) == Zero;
    assert SqDist(p, p) <= radius * radius;
    assert multiset(points)[p] > 0;
    assert multiset(FindRange(points, p, radius))[p] > 0;
  }
}
