/**
  Per-axis perspective (`getPerspectiveInfo`) and the cross-wired corner
  construction (`constructCorner`) of vectors.js.
*/
module Perspective {
  import opened Wrappers
  import opened Geometry

  /** Convergence factors at or below this select parallel mode. */
  const ParallelThreshold: real := 0.001

  /** Either a plain displacement (parallel mode) or a vanishing point. */
  datatype Info = Parallel(dx: real, dy: real) | Converging(vp: Point)

  /** `len` is the Euclidean length of `d`: the value `Math.sqrt` would return, exactly. */
  ghost predicate IsLength(d: Point, len: real) {
    len >= 0.0 && len * len == d.x * d.x + d.y * d.y
  }

  /**
    The perspective information of the axis origin -> tip. `len` stands for
    `Math.sqrt(dx*dx + dy*dy)`; in converging mode the source divides by it,
    so a zero-length axis is excluded there.
  */
  function PerspectiveInfo(origin: Point, tip: Point, convergence: real, len: real): (r: Info)
    requires IsLength(Sub(tip, origin), len)
    requires convergence > ParallelThreshold ==> len > 0.0
    ensures r.Parallel? <==> convergence <= ParallelThreshold
  {
    var dx := tip.x - origin.x;
    var dy := tip.y - origin.y;
    if convergence <= ParallelThreshold then
      Parallel(dx, dy)
    else
      var distToVP := len / convergence;
      var dirX := dx / len;
      var dirY := dy / len;
      Converging(Point(origin.x + dirX * distToVP, origin.y + dirY * distToVP))
  }

  /** `(a / len) * (len / c) == a / c` for non-zero len and c. */
  lemma CancelLength(a: real, len: real, c: real)
    requires len != 0.0 && c != 0.0
    ensures (a / len) * (len / c) == a / c
  {
    var q := a / len;
    var s := len / c;
    assert q * len == a;
    assert s * c == len;
    assert (q * s) * c == q * len;
  }

  /** In parallel mode the direction is exactly the axis displacement. */
  lemma ParallelIsDisplacement(origin: Point, tip: Point, convergence: real, len: real)
    requires IsLength(Sub(tip, origin), len)
    requires convergence <= ParallelThreshold
    ensures PerspectiveInfo(origin, tip, convergence, len) == Parallel(tip.x - origin.x, tip.y - origin.y)
  {
  }

  /**
    In converging mode the vanishing point is origin + (tip - origin) / convergence:
    on the origin -> tip line, on the tip's side of the origin, at distance
    len / convergence from the origin, and at the tip itself when convergence == 1.
  */
  lemma VanishingPointOnAxis(origin: Point, tip: Point, convergence: real, len: real)
    requires IsLength(Sub(tip, origin), len)
    requires convergence > ParallelThreshold && len > 0.0
    ensures PerspectiveInfo(origin, tip, convergence, len).Converging?
    ensures PerspectiveInfo(origin, tip, convergence, len).vp
         == Add(origin, Scale(1.0 / convergence, Sub(tip, origin)))
    ensures OnLine(PerspectiveInfo(origin, tip, convergence, len).vp, origin, tip)
    ensures convergence == 1.0 ==> PerspectiveInfo(origin, tip, convergence, len).vp == tip
    ensures IsLength(Sub(PerspectiveInfo(origin, tip, convergence, len).vp, origin), len / convergence)
  {
    var d := Sub(tip, origin);
    var k := 1.0 / convergence;
    CancelLength(d.x, len, convergence);
    CancelLength(d.y, len, convergence);
    assert d.x / convergence == k * d.x;
    assert d.y / convergence == k * d.y;
    var vp := PerspectiveInfo(origin, tip, convergence, len).vp;
    assert Sub(vp, origin) == Scale(k, d);
    assert Cross(d, Scale(k, d)) == k * (d.x * d.y) - k * (d.y * d.x);
    var m := len / convergence;
    assert m == k * len;
    assert m >= 0.0;
    assert m * m == k * k * (len * len);
  }

  /** Where the line from `s` aims: `s + (dx, dy)` in parallel mode, the vanishing point otherwise. */
  function Target(s: Point, info: Info): Point {
    match info
    case Parallel(dx, dy) => Point(s.x + dx, s.y + dy)
    case Converging(vp) => vp
  }

  /**
    `p` is the corner closing the lines s1 -> t1 and s2 -> t2: missing
    exactly when they are parallel, otherwise on both.
  */
  ghost predicate ClosesFace(p: Option<Point>, s1: Point, t1: Point, s2: Point, t2: Point) {
    && (p.None? <==> Cross(Sub(t1, s1), Sub(t2, s2)) == 0.0)
    && (p.Some? ==> OnLine(p.value, s1, t1) && OnLine(p.value, s2, t2))
  }

  /**
    The corner closing the face spanned by S1 and S2: the line from S1 aims
    along axis 2's info and the line from S2 along axis 1's info. The corner
    is missing exactly when those two lines are parallel, and otherwise lies
    on both of them.
  */
  function ConstructCorner(s1: Point, info1: Info, s2: Point, info2: Info): (r: Option<Point>)
    ensures ClosesFace(r, s1, Target(s1, info2), s2, Target(s2, info1))
  {
    var p2 := Target(s1, info2);
    var p4 := Target(s2, info1);
    if Intersection(s1, p2, s2, p4).Some? then
      IntersectionOnFirstLine(s1, p2, s2, p4);
      IntersectionOnSecondLine(s1, p2, s2, p4);
      Intersection(s1, p2, s2, p4)
    else None
  }

  /**
    A present corner is the only point on both the line from S1 toward axis
    2's target and the line from S2 toward axis 1's target.
  */
  lemma CornerIsUnique(s1: Point, info1: Info, s2: Point, info2: Info, q: Point)
    requires ConstructCorner(s1, info1, s2, info2).Some?
    requires OnLine(q, s1, Target(s1, info2)) && OnLine(q, s2, Target(s2, info1))
    ensures q == ConstructCorner(s1, info1, s2, info2).value
  {
    IntersectionUnique(s1, Target(s1, info2), s2, Target(s2, info1), q);
  }

  /**
    Where an axis with tip `tip` and factor `convergence` aims a line from
    `s`, written without the square root: `s + (tip - origin)` in parallel
    mode, otherwise origin + (tip - origin) / convergence.
  */
  function AxisTarget(s: Point, origin: Point, tip: Point, convergence: real): Point
  {
    if convergence <= ParallelThreshold then Add(s, Sub(tip, origin))
    else Add(origin, Scale(1.0 / convergence, Sub(tip, origin)))
  }

  /** The target of an axis's perspective info, from any start point, is its `AxisTarget`. */
  lemma TargetOfInfo(origin: Point, tip: Point, convergence: real, len: real)
    requires IsLength(Sub(tip, origin), len)
    requires convergence > ParallelThreshold ==> len > 0.0
    ensures forall s :: Target(s, PerspectiveInfo(origin, tip, convergence, len))
                     == AxisTarget(s, origin, tip, convergence)
  {
    if convergence > ParallelThreshold {
      VanishingPointOnAxis(origin, tip, convergence, len);
    }
  }

  /**
    Two parallel-mode axes from a common origin close a parallelogram: the
    face corner of tips A and B is A + B - O.
  */
  lemma ParallelFaceIsParallelogram(o: Point, a: Point, b: Point)
    requires Cross(Sub(a, o), Sub(b, o)) != 0.0
    ensures ConstructCorner(a, Parallel(a.x - o.x, a.y - o.y), b, Parallel(b.x - o.x, b.y - o.y))
         == Some(Sub(Add(a, b), o))
  {
    var u := Sub(a, o);
    var v := Sub(b, o);
    var q := Sub(Add(a, b), o);
    var p2 := Target(a, Parallel(v.x, v.y));
    var p4 := Target(b, Parallel(u.x, u.y));
    assert Sub(p2, a) == v && Sub(q, a) == v;
    assert Sub(p4, b) == u && Sub(q, b) == u;
    assert Cross(v, u) == -Cross(u, v);
    CommonPointIsIntersection(a, p2, b, p4, q);
  }

  /**
    The far corner in parallel mode: closing the face corners A + B - O and
    B + C - O with the infos of A and C gives A + B + C - 2O.
  */
  lemma ParallelFarCorner(o: Point, a: Point, b: Point, c: Point)
    requires Cross(Sub(c, o), Sub(a, o)) != 0.0
    ensures ConstructCorner(Sub(Add(a, b), o), Parallel(a.x - o.x, a.y - o.y),
                            Sub(Add(b, c), o), Parallel(c.x - o.x, c.y - o.y))
         == Some(Sub(Add(Add(a, b), c), Scale(2.0, o)))
  {
    var pab := Sub(Add(a, b), o);
    var pbc := Sub(Add(b, c), o);
    var q := Sub(Add(Add(a, b), c), Scale(2.0, o));
    var p2 := Target(pab, Parallel(c.x - o.x, c.y - o.y));
    var p4 := Target(pbc, Parallel(a.x - o.x, a.y - o.y));
    assert p2 == q && p4 == q;
    assert Sub(p2, pab) == Sub(c, o);
    assert Sub(p4, pbc) == Sub(a, o);
    assert Sub(q, q) == Point(0.0, 0.0);
    CommonPointIsIntersection(pab, p2, pbc, p4, q);
  }

  /**
    Two axes whose vanishing points sit on their own tips (convergence 1)
    aim each line at the other tip, so both lines lie on line A-B and the
    face corner is missing.
  */
  lemma TipVanishingPointsDegenerate(a: Point, b: Point)
    ensures ConstructCorner(a, Converging(a), b, Converging(b)).None?
  {
    assert Cross(Sub(b, a), Sub(a, b)) == 0.0;
  }
}
