/**
  Points of the canvas plane over exact reals, and the line intersection
  used to close every corner of the box (`getIntersection`, vectors.js).
*/
module Geometry {
  import opened Wrappers

  /** A canvas point, or a displacement between two canvas points. */
  datatype Point = Point(x: real, y: real)

  function Add(p: Point, q: Point): Point {
    Point(p.x + q.x, p.y + q.y)
  }

  function Sub(p: Point, q: Point): Point {
    Point(p.x - q.x, p.y - q.y)
  }

  function Scale(k: real, p: Point): Point {
    Point(k * p.x, k * p.y)
  }

  /** The 2D cross product: zero exactly when `u` and `v` are parallel. */
  function Cross(u: Point, v: Point): real {
    u.x * v.y - u.y * v.x
  }

  /** `q` lies on the infinite line through `p` and `r` (every point does when p == r). */
  ghost predicate OnLine(q: Point, p: Point, r: Point) {
    Cross(Sub(r, p), Sub(q, p)) == 0.0
  }

  /**
    The intersection of the infinite lines p1-p2 and p3-p4, by the 2x2
    determinant form; `None` when the determinant is exactly zero.
  */
  function Intersection(p1: Point, p2: Point, p3: Point, p4: Point): (r: Option<Point>)
    ensures r.None? <==> Cross(Sub(p2, p1), Sub(p4, p3)) == 0.0
  {
    var d := (p1.x - p2.x) * (p3.y - p4.y) - (p1.y - p2.y) * (p3.x - p4.x);
    assert d == Cross(Sub(p2, p1), Sub(p4, p3));
    if d == 0.0 then None
    else
      var t := ((p1.x - p3.x) * (p3.y - p4.y) - (p1.y - p3.y) * (p3.x - p4.x)) / d;
      Some(Point(p1.x + t * (p2.x - p1.x), p1.y + t * (p2.y - p1.y)))
  }

  /** A non-`None` intersection is `p1 + t*(p2 - p1)` for some t, so it lies on the first line. */
  lemma IntersectionOnFirstLine(p1: Point, p2: Point, p3: Point, p4: Point)
    requires Intersection(p1, p2, p3, p4).Some?
    ensures exists t: real :: Intersection(p1, p2, p3, p4).value == Add(p1, Scale(t, Sub(p2, p1)))
    ensures OnLine(Intersection(p1, p2, p3, p4).value, p1, p2)
  {
    var d := (p1.x - p2.x) * (p3.y - p4.y) - (p1.y - p2.y) * (p3.x - p4.x);
    var t := ((p1.x - p3.x) * (p3.y - p4.y) - (p1.y - p3.y) * (p3.x - p4.x)) / d;
    var u := Sub(p2, p1);
    var r := Intersection(p1, p2, p3, p4).value;
    assert r == Add(p1, Scale(t, u));
    assert Sub(r, p1) == Scale(t, u);
    assert Cross(u, Scale(t, u)) == t * (u.x * u.y) - t * (u.y * u.x);
  }

  /** A non-`None` intersection also lies on the second line. */
  lemma IntersectionOnSecondLine(p1: Point, p2: Point, p3: Point, p4: Point)
    requires Intersection(p1, p2, p3, p4).Some?
    ensures OnLine(Intersection(p1, p2, p3, p4).value, p3, p4)
  {
    var u := Sub(p2, p1);
    var v := Sub(p4, p3);
    var w := Sub(p1, p3);
    var d := (p1.x - p2.x) * (p3.y - p4.y) - (p1.y - p2.y) * (p3.x - p4.x);
    var n := (p1.x - p3.x) * (p3.y - p4.y) - (p1.y - p3.y) * (p3.x - p4.x);
    assert d == u.x * v.y - u.y * v.x;
    assert n == w.y * v.x - w.x * v.y;
    var t := n / d;
    assert t * d == n;
    var r := Intersection(p1, p2, p3, p4).value;
    assert Sub(r, p3) == Point(w.x + t * u.x, w.y + t * u.y);
    CrossAlongLine(v, w, u, t);
  }

  /** Cross(v, w + t*u) expands to Cross(v, w) - t * Cross(u, v). */
  lemma CrossAlongLine(v: Point, w: Point, u: Point, t: real)
    ensures Cross(v, Point(w.x + t * u.x, w.y + t * u.y))
         == (v.x * w.y - v.y * w.x) - t * (u.x * v.y - u.y * v.x)
  {
    calc {
      Cross(v, Point(w.x + t * u.x, w.y + t * u.y));
      v.x * (w.y + t * u.y) - v.y * (w.x + t * u.x);
      (v.x * w.y + v.x * (t * u.y)) - (v.y * w.x + v.y * (t * u.x));
      (v.x * w.y - v.y * w.x) - t * (u.x * v.y - u.y * v.x);
    }
  }

  /** Two vectors that are both parallel to two non-parallel directions are zero. */
  lemma ParallelToBothIsZero(u: Point, v: Point, e: Point)
    requires Cross(u, v) != 0.0
    requires Cross(u, e) == 0.0 && Cross(v, e) == 0.0
    ensures e == Point(0.0, 0.0)
  {
    assert e.x * Cross(u, v) == Cross(v, e) * u.x - Cross(u, e) * v.x;
    assert e.y * Cross(u, v) == Cross(v, e) * u.y - Cross(u, e) * v.y;
  }

  /** A non-`None` intersection is the only point the two lines have in common. */
  lemma IntersectionUnique(p1: Point, p2: Point, p3: Point, p4: Point, q: Point)
    requires Intersection(p1, p2, p3, p4).Some?
    requires OnLine(q, p1, p2) && OnLine(q, p3, p4)
    ensures q == Intersection(p1, p2, p3, p4).value
  {
    var r := Intersection(p1, p2, p3, p4).value;
    IntersectionOnFirstLine(p1, p2, p3, p4);
    IntersectionOnSecondLine(p1, p2, p3, p4);
    var u := Sub(p2, p1);
    var v := Sub(p4, p3);
    var e := Sub(q, r);
    assert Cross(u, e) == Cross(u, Sub(q, p1)) - Cross(u, Sub(r, p1));
    assert Cross(v, e) == Cross(v, Sub(q, p3)) - Cross(v, Sub(r, p3));
    ParallelToBothIsZero(u, v, e);
  }

  /**
    The converse of uniqueness: when the lines are not parallel, any point
    on both of them is what `Intersection` returns.
  */
  lemma CommonPointIsIntersection(p1: Point, p2: Point, p3: Point, p4: Point, q: Point)
    requires Cross(Sub(p2, p1), Sub(p4, p3)) != 0.0
    requires OnLine(q, p1, p2) && OnLine(q, p3, p4)
    ensures Intersection(p1, p2, p3, p4) == Some(q)
  {
    IntersectionUnique(p1, p2, p3, p4, q);
  }
}
