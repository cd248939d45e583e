/**
  The geometry of `drawBoxConstruction` (vectors.js): three face corners,
  the far corner, and the solid and dashed edge lists, with every edge to a
  missing corner silently left out. The canvas calls become two lists.
*/
module Box {
  import opened Wrappers
  import opened Geometry
  import opened Perspective

  /** A line segment to be stroked, from `from` to `to`. */
  datatype Segment = Segment(from: Point, to: Point)

  /** Everything the box drawing derives from the three axes. */
  datatype BoxGeometry = BoxGeometry(
    ab: Option<Point>, ac: Option<Point>, bc: Option<Point>,
    far: Option<Point>,
    solid: seq<Segment>,
    dashed: seq<Segment>)

  /** One segment from `from` to `to`, or none when `to` is missing. */
  function EdgeTo(from: Point, to: Option<Point>): seq<Segment> {
    if to.Some? then [Segment(from, to.value)] else []
  }

  /** 1 for a present corner, 0 for a missing one. */
  function Present(p: Option<Point>): nat {
    if p.Some? then 1 else 0
  }

  /**
    Reference grouping of the visible edges by face corner: a present corner
    of the face spanned by tips s and t joins both of them.
  */
  function CornerEdges(corner: Option<Point>, s: Point, t: Point): seq<Segment> {
    if corner.Some? then [Segment(s, corner.value), Segment(t, corner.value)] else []
  }

  /** `e` is a visible edge from one of the two tips of a present face corner to that corner. */
  ghost predicate JoinsTipToCorner(e: Segment, corner: Option<Point>, s: Point, t: Point) {
    corner.Some? && e.to == corner.value && (e.from == s || e.from == t)
  }

  /**
    The solid edges, in the order the source strokes them (from A, then B,
    then C). Each present face corner gets exactly its two tip edges.
  */
  function SolidEdges(a: Point, b: Point, c: Point,
                      ab: Option<Point>, ac: Option<Point>, bc: Option<Point>): (r: seq<Segment>)
    ensures multiset(r) == multiset(CornerEdges(ab, a, b))
                         + multiset(CornerEdges(ac, a, c))
                         + multiset(CornerEdges(bc, b, c))
    ensures |r| == 2 * (Present(ab) + Present(ac) + Present(bc))
  {
    var r := EdgeTo(a, ab) + EdgeTo(a, ac)
             + EdgeTo(b, ab) + EdgeTo(b, bc)
             + EdgeTo(c, ac) + EdgeTo(c, bc);
    SolidEdgesRegroup(a, b, c, ab, ac, bc, r);
    r
  }

  /** A tip's edge to a corner, seen from both tips, is that corner's pair of edges. */
  lemma CornerEdgesSplit(corner: Option<Point>, s: Point, t: Point)
    ensures multiset(CornerEdges(corner, s, t)) == multiset(EdgeTo(s, corner)) + multiset(EdgeTo(t, corner))
  {
    if corner.Some? {
      assert CornerEdges(corner, s, t) == EdgeTo(s, corner) + EdgeTo(t, corner);
    }
  }

  /** The stroke order of the source regroups into the per-corner reference. */
  lemma SolidEdgesRegroup(a: Point, b: Point, c: Point,
                          ab: Option<Point>, ac: Option<Point>, bc: Option<Point>, r: seq<Segment>)
    requires r == EdgeTo(a, ab) + EdgeTo(a, ac) + EdgeTo(b, ab) + EdgeTo(b, bc) + EdgeTo(c, ac) + EdgeTo(c, bc)
    ensures multiset(r) == multiset(CornerEdges(ab, a, b))
                         + multiset(CornerEdges(ac, a, c))
                         + multiset(CornerEdges(bc, b, c))
  {
    var s1, s2 := EdgeTo(a, ab), EdgeTo(a, ac);
    var s3, s4 := EdgeTo(b, ab), EdgeTo(b, bc);
    var s5, s6 := EdgeTo(c, ac), EdgeTo(c, bc);
    calc {
      multiset(r);
      multiset(s1 + s2 + s3 + s4 + s5) + multiset(s6);
      multiset(s1 + s2 + s3 + s4) + multiset(s5) + multiset(s6);
      multiset(s1 + s2 + s3) + multiset(s4) + multiset(s5) + multiset(s6);
      multiset(s1 + s2) + multiset(s3) + multiset(s4) + multiset(s5) + multiset(s6);
      multiset(s1) + multiset(s2) + multiset(s3) + multiset(s4) + multiset(s5) + multiset(s6);
      { MultisetRegroup(multiset(s1), multiset(s2), multiset(s3), multiset(s4), multiset(s5), multiset(s6)); }
      (multiset(s1) + multiset(s3)) + (multiset(s2) + multiset(s5)) + (multiset(s4) + multiset(s6));
      { CornerEdgesSplit(ab, a, b); CornerEdgesSplit(ac, a, c); CornerEdgesSplit(bc, b, c); }
      multiset(CornerEdges(ab, a, b)) + multiset(CornerEdges(ac, a, c)) + multiset(CornerEdges(bc, b, c));
    }
  }

  lemma MultisetRegroup<T>(m1: multiset<T>, m2: multiset<T>, m3: multiset<T>,
                           m4: multiset<T>, m5: multiset<T>, m6: multiset<T>)
    ensures m1 + m2 + m3 + m4 + m5 + m6 == (m1 + m3) + (m2 + m5) + (m4 + m6)
  {
  }

  /** Every solid edge joins a present face corner to one of its two tips. */
  lemma SolidEdgesJoinTips(a: Point, b: Point, c: Point,
                           ab: Option<Point>, ac: Option<Point>, bc: Option<Point>)
    ensures forall e :: e in SolidEdges(a, b, c, ab, ac, bc) ==>
              JoinsTipToCorner(e, ab, a, b) || JoinsTipToCorner(e, ac, a, c) || JoinsTipToCorner(e, bc, b, c)
  {
    var r := SolidEdges(a, b, c, ab, ac, bc);
    forall e | e in r
      ensures JoinsTipToCorner(e, ab, a, b) || JoinsTipToCorner(e, ac, a, c) || JoinsTipToCorner(e, bc, b, c)
    {
      assert e in multiset(r);
      if e in multiset(CornerEdges(ab, a, b)) {
        InCornerEdges(e, ab, a, b);
      } else if e in multiset(CornerEdges(ac, a, c)) {
        InCornerEdges(e, ac, a, c);
      } else {
        InCornerEdges(e, bc, b, c);
      }
    }
  }

  /** A member of a corner's edge pair joins one of the two tips to that corner. */
  lemma InCornerEdges(e: Segment, corner: Option<Point>, s: Point, t: Point)
    requires e in multiset(CornerEdges(corner, s, t))
    ensures JoinsTipToCorner(e, corner, s, t)
  {
  }

  /** One segment from the corner `from` to `to`, or none when the corner is missing. */
  function EdgeFrom(from: Option<Point>, to: Point): seq<Segment> {
    if from.Some? then [Segment(from.value, to)] else []
  }

  /**
    Reference contents of the dashed edges: nothing without a far corner,
    otherwise one edge from each present face corner to it.
  */
  function HiddenEdges(ab: Option<Point>, ac: Option<Point>, bc: Option<Point>,
                       far: Option<Point>): multiset<Segment> {
    if far.None? then multiset{}
    else multiset(EdgeFrom(ab, far.value)) + multiset(EdgeFrom(ac, far.value)) + multiset(EdgeFrom(bc, far.value))
  }

  /**
    The dashed (hidden) edges: none without a far corner, otherwise one from
    each present face corner to the far corner, P_AC checked on its own.
  */
  function DashedEdges(ab: Option<Point>, ac: Option<Point>, bc: Option<Point>,
                       far: Option<Point>): (r: seq<Segment>)
    ensures multiset(r) == HiddenEdges(ab, ac, bc, far)
    ensures far.None? ==> r == []
    ensures far.Some? ==> |r| == Present(ab) + Present(ac) + Present(bc)
  {
    if far.None? then []
    else
      var f := far.value;
      EdgeFrom(ab, f) + EdgeFrom(ac, f) + EdgeFrom(bc, f)
  }

  /** Every dashed edge runs from a present face corner to the far corner. */
  lemma DashedEdgesEndAtFar(ab: Option<Point>, ac: Option<Point>, bc: Option<Point>, far: Option<Point>)
    ensures forall e :: e in DashedEdges(ab, ac, bc, far) ==>
              far.Some? && e.to == far.value && (ab == Some(e.from) || ac == Some(e.from) || bc == Some(e.from))
  {
    var r := DashedEdges(ab, ac, bc, far);
    forall e | e in r
      ensures far.Some? && e.to == far.value && (ab == Some(e.from) || ac == Some(e.from) || bc == Some(e.from))
    {
      assert e in multiset(r);
      var f := far.value;
      if e in multiset(EdgeFrom(ab, f)) {
        assert e in EdgeFrom(ab, f);
      } else if e in multiset(EdgeFrom(ac, f)) {
        assert e in EdgeFrom(ac, f);
      } else {
        assert e in EdgeFrom(bc, f);
      }
    }
  }

  /**
    The far corner: the line from P_AB aims along C's info and the line from
    P_BC along A's info. It is missing when either face corner is, and
    otherwise exactly when those two lines are parallel.
  */
  function FarCorner(ab: Option<Point>, bc: Option<Point>, infoA: Info, infoC: Info): (r: Option<Point>)
    ensures r.Some? ==> ab.Some? && bc.Some?
    ensures ab.Some? && bc.Some? ==>
              ClosesFace(r, ab.value, Target(ab.value, infoC), bc.value, Target(bc.value, infoA))
  {
    if ab.Some? && bc.Some? then ConstructCorner(ab.value, infoA, bc.value, infoC)
    else None
  }

  /**
    The box from the three tips and their perspective infos: each face
    corner closes the crossed lines of its two tips, the far corner closes
    the crossed lines of P_AB and P_BC, and the edge lists hold exactly the
    reference edges.
  */
  function Assemble(a: Point, b: Point, c: Point, infoA: Info, infoB: Info, infoC: Info): (r: BoxGeometry)
    ensures ClosesFace(r.ab, a, Target(a, infoB), b, Target(b, infoA))
    ensures ClosesFace(r.ac, a, Target(a, infoC), c, Target(c, infoA))
    ensures ClosesFace(r.bc, b, Target(b, infoC), c, Target(c, infoB))
    ensures r.far.Some? ==> r.ab.Some? && r.bc.Some?
    ensures r.ab.Some? && r.bc.Some? ==>
              ClosesFace(r.far, r.ab.value, Target(r.ab.value, infoC), r.bc.value, Target(r.bc.value, infoA))
    ensures multiset(r.solid) == multiset(CornerEdges(r.ab, a, b))
                               + multiset(CornerEdges(r.ac, a, c))
                               + multiset(CornerEdges(r.bc, b, c))
    ensures multiset(r.dashed) == HiddenEdges(r.ab, r.ac, r.bc, r.far)
  {
    var ab := ConstructCorner(a, infoA, b, infoB);
    var ac := ConstructCorner(a, infoA, c, infoC);
    var bc := ConstructCorner(b, infoB, c, infoC);
    var far := FarCorner(ab, bc, infoA, infoC);
    BoxGeometry(ab, ac, bc, far, SolidEdges(a, b, c, ab, ac, bc), DashedEdges(ab, ac, bc, far))
  }

  /**
    The assembled box has two solid edges per present face corner, and
    dashed edges exactly when it has a far corner, one per present face corner.
  */
  lemma AssembleEdgeCounts(a: Point, b: Point, c: Point, infoA: Info, infoB: Info, infoC: Info)
    ensures var r := Assemble(a, b, c, infoA, infoB, infoC);
            |r.solid| == 2 * (Present(r.ab) + Present(r.ac) + Present(r.bc))
    ensures var r := Assemble(a, b, c, infoA, infoB, infoC);
            r.dashed != [] <==> r.far.Some?
    ensures var r := Assemble(a, b, c, infoA, infoB, infoC);
            r.far.Some? ==> |r.dashed| == Present(r.ab) + Present(r.ac) + Present(r.bc)
  {
    var r := Assemble(a, b, c, infoA, infoB, infoC);
    assert r.solid == SolidEdges(a, b, c, r.ab, r.ac, r.bc);
    assert r.dashed == DashedEdges(r.ab, r.ac, r.bc, r.far);
    if r.far.Some? {
      assert r.ab.Some?;
      assert |r.dashed| >= 1;
    }
  }

  /**
    A missing face corner removes exactly its own two solid edges and
    leaves every other solid edge in place.
  */
  lemma MissingCornerDropsOnlyItsEdges(a: Point, b: Point, c: Point,
                                       ab: Option<Point>, ac: Option<Point>, bc: Option<Point>)
    ensures multiset(SolidEdges(a, b, c, None, ac, bc))
         == multiset(SolidEdges(a, b, c, ab, ac, bc)) - multiset(CornerEdges(ab, a, b))
    ensures multiset(SolidEdges(a, b, c, ab, None, bc))
         == multiset(SolidEdges(a, b, c, ab, ac, bc)) - multiset(CornerEdges(ac, a, c))
    ensures multiset(SolidEdges(a, b, c, ab, ac, None))
         == multiset(SolidEdges(a, b, c, ab, ac, bc)) - multiset(CornerEdges(bc, b, c))
  {
    DropAB(a, b, c, ab, ac, bc);
    DropAC(a, b, c, ab, ac, bc);
    DropBC(a, b, c, ab, ac, bc);
  }

  lemma DropAB(a: Point, b: Point, c: Point, ab: Option<Point>, ac: Option<Point>, bc: Option<Point>)
    ensures multiset(SolidEdges(a, b, c, None, ac, bc))
         == multiset(SolidEdges(a, b, c, ab, ac, bc)) - multiset(CornerEdges(ab, a, b))
  {
    var m1, m2, m3 := multiset(CornerEdges(ab, a, b)), multiset(CornerEdges(ac, a, c)), multiset(CornerEdges(bc, b, c));
    var none: Option<Point> := None;
    assert CornerEdges(none, a, b) == [];
    RemoveSummand(m1, m2, m3);
  }

  lemma DropAC(a: Point, b: Point, c: Point, ab: Option<Point>, ac: Option<Point>, bc: Option<Point>)
    ensures multiset(SolidEdges(a, b, c, ab, None, bc))
         == multiset(SolidEdges(a, b, c, ab, ac, bc)) - multiset(CornerEdges(ac, a, c))
  {
    var m1, m2, m3 := multiset(CornerEdges(ab, a, b)), multiset(CornerEdges(ac, a, c)), multiset(CornerEdges(bc, b, c));
    var none: Option<Point> := None;
    assert CornerEdges(none, a, c) == [];
    RemoveSummand(m1, m2, m3);
  }

  lemma DropBC(a: Point, b: Point, c: Point, ab: Option<Point>, ac: Option<Point>, bc: Option<Point>)
    ensures multiset(SolidEdges(a, b, c, ab, ac, None))
         == multiset(SolidEdges(a, b, c, ab, ac, bc)) - multiset(CornerEdges(bc, b, c))
  {
    var m1, m2, m3 := multiset(CornerEdges(ab, a, b)), multiset(CornerEdges(ac, a, c)), multiset(CornerEdges(bc, b, c));
    var none: Option<Point> := None;
    assert CornerEdges(none, b, c) == [];
    RemoveSummand(m1, m2, m3);
  }

  lemma RemoveSummand<T>(m1: multiset<T>, m2: multiset<T>, m3: multiset<T>)
    ensures multiset{} + m2 + m3 == (m1 + m2 + m3) - m1
    ensures m1 + multiset{} + m3 == (m1 + m2 + m3) - m2
    ensures m1 + m2 + multiset{} == (m1 + m2 + m3) - m3
  {
  }

  /**
    drawBoxConstruction: each axis's info from its convergence factor, then
    the box. Stated without the infos: every line aims at the axis's
    `AxisTarget`, a displacement by the axis in parallel mode (factor at most
    0.001) and its vanishing point otherwise.
  */
  function DrawBoxConstruction(o: Point, a: Point, b: Point, c: Point,
                               convA: real, convB: real, convC: real,
                               lenA: real, lenB: real, lenC: real): (r: BoxGeometry)
    requires IsLength(Sub(a, o), lenA) && (convA > ParallelThreshold ==> lenA > 0.0)
    requires IsLength(Sub(b, o), lenB) && (convB > ParallelThreshold ==> lenB > 0.0)
    requires IsLength(Sub(c, o), lenC) && (convC > ParallelThreshold ==> lenC > 0.0)
    ensures ClosesFace(r.ab, a, AxisTarget(a, o, b, convB), b, AxisTarget(b, o, a, convA))
    ensures ClosesFace(r.ac, a, AxisTarget(a, o, c, convC), c, AxisTarget(c, o, a, convA))
    ensures ClosesFace(r.bc, b, AxisTarget(b, o, c, convC), c, AxisTarget(c, o, b, convB))
    ensures r.far.Some? ==> r.ab.Some? && r.bc.Some?
    ensures r.ab.Some? && r.bc.Some? ==>
              ClosesFace(r.far, r.ab.value, AxisTarget(r.ab.value, o, c, convC),
                         r.bc.value, AxisTarget(r.bc.value, o, a, convA))
    ensures multiset(r.solid) == multiset(CornerEdges(r.ab, a, b))
                               + multiset(CornerEdges(r.ac, a, c))
                               + multiset(CornerEdges(r.bc, b, c))
    ensures multiset(r.dashed) == HiddenEdges(r.ab, r.ac, r.bc, r.far)
  {
    TargetOfInfo(o, a, convA, lenA);
    TargetOfInfo(o, b, convB, lenB);
    TargetOfInfo(o, c, convC, lenC);
    Assemble(a, b, c,
             PerspectiveInfo(o, a, convA, lenA),
             PerspectiveInfo(o, b, convB, lenB),
             PerspectiveInfo(o, c, convC, lenC))
  }

  /**
    With every axis in parallel mode and no two axes parallel, the box is the
    parallelepiped on the three axes: face corners A+B-O, A+C-O, B+C-O, far
    corner A+B+C-2O, six solid edges and three dashed ones.
  */
  lemma ParallelBoxCloses(o: Point, a: Point, b: Point, c: Point,
                          convA: real, convB: real, convC: real,
                          lenA: real, lenB: real, lenC: real)
    requires IsLength(Sub(a, o), lenA) && IsLength(Sub(b, o), lenB) && IsLength(Sub(c, o), lenC)
    requires convA <= ParallelThreshold && convB <= ParallelThreshold && convC <= ParallelThreshold
    requires Cross(Sub(a, o), Sub(b, o)) != 0.0
    requires Cross(Sub(a, o), Sub(c, o)) != 0.0
    requires Cross(Sub(b, o), Sub(c, o)) != 0.0
    ensures DrawBoxConstruction(o, a, b, c, convA, convB, convC, lenA, lenB, lenC).ab == Some(Sub(Add(a, b), o))
    ensures DrawBoxConstruction(o, a, b, c, convA, convB, convC, lenA, lenB, lenC).ac == Some(Sub(Add(a, c), o))
    ensures DrawBoxConstruction(o, a, b, c, convA, convB, convC, lenA, lenB, lenC).bc == Some(Sub(Add(b, c), o))
    ensures DrawBoxConstruction(o, a, b, c, convA, convB, convC, lenA, lenB, lenC).far
         == Some(Sub(Add(Add(a, b), c), Scale(2.0, o)))
    ensures |DrawBoxConstruction(o, a, b, c, convA, convB, convC, lenA, lenB, lenC).solid| == 6
    ensures |DrawBoxConstruction(o, a, b, c, convA, convB, convC, lenA, lenB, lenC).dashed| == 3
  {
    ParallelIsDisplacement(o, a, convA, lenA);
    ParallelIsDisplacement(o, b, convB, lenB);
    ParallelIsDisplacement(o, c, convC, lenC);
    ParallelFaceIsParallelogram(o, a, b);
    ParallelFaceIsParallelogram(o, a, c);
    ParallelFaceIsParallelogram(o, b, c);
    assert Cross(Sub(c, o), Sub(a, o)) == -Cross(Sub(a, o), Sub(c, o));
    ParallelFarCorner(o, a, b, c);
  }
}
