/**
  The parameter state of vectors.js and the events that replace it:
  `generateVectors`, `handleBoxLengthChange`, `getBoxBaseVectors` and the
  draw-box button. `polarToCartesian` is trigonometry and enters as the
  parameter `polar`, mapping (length, angle in degrees) to a canvas point.
*/
module Scene {
  import opened Wrappers
  import opened Geometry
  import opened Settings
  import opened Angles

  datatype AxisName = A | B | C

  /** One axis: its angle, its length (the box length slider) and its tip. */
  datatype Axis = Axis(angle: int, length: int, tip: Point)

  datatype Scene = Scene(sizes: Sizes, a: Axis, b: Axis, c: Axis, showBox: bool)

  function Get(s: Scene, n: AxisName): Axis {
    match n
    case A => s.a
    case B => s.b
    case C => s.c
  }

  /** Every tip is the polar image of its own length and angle. */
  ghost predicate Coherent(s: Scene, polar: (int, int) -> Point) {
    forall n: AxisName :: Get(s, n).tip == polar(Get(s, n).length, Get(s, n).angle)
  }

  /**
    A length slider moved: the chosen axis takes the new length and its tip
    is recomputed at the unchanged angle; nothing else changes.
  */
  function SetLength(s: Scene, n: AxisName, value: int, polar: (int, int) -> Point): (r: Scene)
    ensures Get(r, n) == Axis(Get(s, n).angle, value, polar(value, Get(s, n).angle))
    ensures forall m: AxisName :: m != n ==> Get(r, m) == Get(s, m)
    ensures r.sizes == s.sizes && r.showBox == s.showBox
    ensures Coherent(s, polar) ==> Coherent(r, polar)
  {
    var cur := Get(s, n);
    var axis := Axis(cur.angle, value, polar(value, cur.angle));
    match n
    case A => s.(a := axis)
    case B => s.(b := axis)
    case C => s.(c := axis)
  }

  /** Setting an axis back to the length it has changes nothing in a coherent scene. */
  lemma SetSameLengthIsIdentity(s: Scene, n: AxisName, polar: (int, int) -> Point)
    requires Coherent(s, polar)
    ensures SetLength(s, n, Get(s, n).length, polar) == s
  {
    var r := SetLength(s, n, Get(s, n).length, polar);
    assert Get(r, A) == Get(s, A) && Get(r, B) == Get(s, B) && Get(r, C) == Get(s, C);
  }

  /** The base vectors the box is built on: each axis's polar image of its length and angle. */
  function BoxBase(s: Scene, polar: (int, int) -> Point): (r: (Point, Point, Point))
    ensures Coherent(s, polar) ==> r == (s.a.tip, s.b.tip, s.c.tip)
  {
    assert Coherent(s, polar) ==> Get(s, A).tip == polar(s.a.length, s.a.angle)
                                  && Get(s, B).tip == polar(s.b.length, s.b.angle)
                                  && Get(s, C).tip == polar(s.c.length, s.c.angle);
    (polar(s.a.length, s.a.angle), polar(s.b.length, s.b.angle), polar(s.c.length, s.c.angle))
  }

  /** The draw-box button: the box becomes visible, the axes are untouched. */
  function ShowBox(s: Scene): (r: Scene)
    ensures r.showBox
    ensures r.sizes == s.sizes
    ensures forall n: AxisName :: Get(r, n) == Get(s, n)
  {
    s.(showBox := true)
  }

  /**
    `generateVectors`: validate the bounds, draw three lengths, run the
    rejection loop over the supplied candidates, and build a coherent scene
    with the box hidden. None when every candidate triple is rejected.
  */
  method Generate(minIn: Option<int>, maxIn: Option<int>,
                  drawA: real, drawB: real, drawC: real,
                  candidates: seq<Draws>, polar: (int, int) -> Point)
    returns (r: Option<Scene>)
    requires 0.0 <= drawA < 1.0 && 0.0 <= drawB < 1.0 && 0.0 <= drawC < 1.0
    requires forall i :: 0 <= i < |candidates| ==> ValidDraws(candidates[i])
    ensures r.None? <==> forall i :: 0 <= i < |candidates| ==> !Separated(DrawTriple(candidates[i]))
    ensures r.Some? ==> !r.value.showBox && r.value.sizes == ValidateSizes(minIn, maxIn)
    ensures r.Some? ==> Coherent(r.value, polar)
    ensures r.Some? ==> Separated(Triple(r.value.a.angle, r.value.b.angle, r.value.c.angle))
    ensures r.Some? ==> forall n: AxisName ::
              IsAngle(Get(r.value, n).angle)
              && r.value.sizes.min <= Get(r.value, n).length <= r.value.sizes.max
    // each length is the one its own draw selects
    ensures r.Some? ==> (&& r.value.a.length == RandLen(r.value.sizes.min, r.value.sizes.max, drawA)
                         && r.value.b.length == RandLen(r.value.sizes.min, r.value.sizes.max, drawB)
                         && r.value.c.length == RandLen(r.value.sizes.min, r.value.sizes.max, drawC))
    // the angles are the first candidate the loop accepts
    ensures r.Some? ==> exists i :: (&& 0 <= i < |candidates|
                                     && DrawTriple(candidates[i]) == Triple(r.value.a.angle, r.value.b.angle, r.value.c.angle)
                                     && forall j :: 0 <= j < i ==> !Separated(DrawTriple(candidates[j])))
  {
    var sizes := ValidateSizes(minIn, maxIn);
    var lenA := RandLen(sizes.min, sizes.max, drawA);
    var lenB := RandLen(sizes.min, sizes.max, drawB);
    var lenC := RandLen(sizes.min, sizes.max, drawC);
    var angles := SampleAngles(candidates);
    if angles.None? {
      return None;
    }
    var t := angles.value;
    var s := Scene(sizes,
                   Axis(t.a, lenA, polar(lenA, t.a)),
                   Axis(t.b, lenB, polar(lenB, t.b)),
                   Axis(t.c, lenC, polar(lenC, t.c)),
                   false);
    return Some(s);
  }
}
