/**
  Direction angles of the three axes: the shorter-arc distance
  (`angularDistance`) and the rejection loop of `generateVectors` that
  accepts only triples at least 90 degrees apart (vectors.js).
*/
module Angles {
  import opened Wrappers
  import Settings

  const FullTurn: int := 360
  /** The minimum pairwise separation the loop demands. */
  const MinSeparation: int := 90

  function Abs(x: int): nat {
    if x < 0 then -x else x
  }

  /** An integer angle as the loop draws it: in [0, 360). */
  predicate IsAngle(a: int) {
    0 <= a < FullTurn
  }

  /** `min(|a - b|, 360 - |a - b|)`, the length of the shorter arc between a and b. */
  function AngularDistance(a: int, b: int): (r: int)
    ensures IsAngle(a) && IsAngle(b) ==> 0 <= r <= FullTurn / 2
    ensures a == b ==> r == 0
    ensures IsAngle(a) && IsAngle(b) && r == 0 ==> a == b
  {
    var diff := Abs(a - b);
    if diff <= FullTurn - diff then diff else FullTurn - diff
  }

  lemma AngularDistanceSymmetric(a: int, b: int)
    ensures AngularDistance(a, b) == AngularDistance(b, a)
  {
    assert Abs(a - b) == Abs(b - a);
  }

  /**
    Independent characterisation: for angles in [0, 360) the distance is how
    far a - b is from the nearest multiple of 360.
  */
  lemma DistanceToNearestTurn(a: int, b: int)
    requires IsAngle(a) && IsAngle(b)
    ensures forall k: int :: AngularDistance(a, b) <= Abs(a - b - FullTurn * k)
    ensures exists k: int :: AngularDistance(a, b) == Abs(a - b - FullTurn * k)
  {
    var r := AngularDistance(a, b);
    var d := a - b;
    forall k: int ensures r <= Abs(d - FullTurn * k) {
      if k >= 2 {
        assert d - FullTurn * k <= -FullTurn;
      } else if k <= -2 {
        assert d - FullTurn * k >= FullTurn;
      }
    }
    if r == Abs(d) {
      assert r == Abs(d - FullTurn * 0);
    } else if d > 0 {
      assert r == Abs(d - FullTurn * 1);
    } else {
      assert r == Abs(d - FullTurn * -1);
    }
  }

  /** Turning both angles by the same amount (mod 360) keeps their distance. */
  lemma AngularDistanceRotationInvariant(a: int, b: int, s: int)
    requires IsAngle(a) && IsAngle(b)
    ensures AngularDistance((a + s) % FullTurn, (b + s) % FullTurn) == AngularDistance(a, b)
  {
    var a', b' := (a + s) % FullTurn, (b + s) % FullTurn;
    var m := (a + s) / FullTurn - (b + s) / FullTurn;
    assert a' - b' == a - b - FullTurn * m;
    DistanceToNearestTurn(a, b);
    DistanceToNearestTurn(a', b');
    var r, r' := AngularDistance(a, b), AngularDistance(a', b');
    var k :| r == Abs(a - b - FullTurn * k);
    var k' :| r' == Abs(a' - b' - FullTurn * k');
    assert a - b - FullTurn * k == a' - b' - FullTurn * (k - m);
    assert r' <= r;
    assert a' - b' - FullTurn * k' == a - b - FullTurn * (k' + m);
    assert r <= r';
  }

  datatype Triple = Triple(a: int, b: int, c: int)

  /**
    The loop's acceptance test: all three pairwise distances are at least 90.
    An accepted triple has three distinct angles.
  */
  predicate Separated(t: Triple)
    ensures Separated(t) ==> t.a != t.b && t.a != t.c && t.b != t.c
  {
    && AngularDistance(t.a, t.b) >= MinSeparation
    && AngularDistance(t.a, t.c) >= MinSeparation
    && AngularDistance(t.b, t.c) >= MinSeparation
  }

  /** The three random numbers in [0, 1) one pass of the loop consumes. */
  datatype Draws = Draws(ra: real, rb: real, rc: real)

  predicate ValidDraws(d: Draws) {
    0.0 <= d.ra < 1.0 && 0.0 <= d.rb < 1.0 && 0.0 <= d.rc < 1.0
  }

  /**
    One candidate triple, `Math.floor(Math.random() * 360)` three times: each
    angle is the integer whose unit interval holds its draw times 360.
  */
  function DrawTriple(d: Draws): (t: Triple)
    requires ValidDraws(d)
    ensures IsAngle(t.a) && IsAngle(t.b) && IsAngle(t.c)
    ensures t.a as real <= d.ra * FullTurn as real < t.a as real + 1.0
    ensures t.b as real <= d.rb * FullTurn as real < t.b as real + 1.0
    ensures t.c as real <= d.rc * FullTurn as real < t.c as real + 1.0
  {
    Triple(Settings.FloorDraw(d.ra, FullTurn), Settings.FloorDraw(d.rb, FullTurn), Settings.FloorDraw(d.rc, FullTurn))
  }

  /** The draws fix the candidate: a triple in the unit intervals of all three draws is the drawn one. */
  lemma DrawTripleUnique(d: Draws, t: Triple)
    requires ValidDraws(d)
    requires t.a as real <= d.ra * FullTurn as real < t.a as real + 1.0
    requires t.b as real <= d.rb * FullTurn as real < t.b as real + 1.0
    requires t.c as real <= d.rc * FullTurn as real < t.c as real + 1.0
    ensures DrawTriple(d) == t
  {
    Settings.FloorDrawUnique(d.ra, FullTurn, t.a);
    Settings.FloorDrawUnique(d.rb, FullTurn, t.b);
    Settings.FloorDrawUnique(d.rc, FullTurn, t.c);
  }

  /**
    The rejection loop over a finite supply of draws: the first candidate
    triple that is separated, or None when every candidate is rejected.
  */
  method SampleAngles(candidates: seq<Draws>) returns (r: Option<Triple>)
    requires forall i :: 0 <= i < |candidates| ==> ValidDraws(candidates[i])
    ensures r.Some? ==> Separated(r.value) && IsAngle(r.value.a) && IsAngle(r.value.b) && IsAngle(r.value.c)
    ensures r.Some? ==> exists i :: 0 <= i < |candidates| && DrawTriple(candidates[i]) == r.value
                          && forall j :: 0 <= j < i ==> !Separated(DrawTriple(candidates[j]))
    ensures r.None? <==> forall i :: 0 <= i < |candidates| ==> !Separated(DrawTriple(candidates[i]))
  {
    var n := 0;
    while n < |candidates|
      invariant 0 <= n <= |candidates|
      invariant forall j :: 0 <= j < n ==> !Separated(DrawTriple(candidates[j]))
    {
      var t := DrawTriple(candidates[n]);
      var dAB := AngularDistance(t.a, t.b);
      var dAC := AngularDistance(t.a, t.c);
      var dBC := AngularDistance(t.b, t.c);
      if dAB >= MinSeparation && dAC >= MinSeparation && dBC >= MinSeparation {
        return Some(t);
      }
      n := n + 1;
    }
    return None;
  }

  /** 90 degrees apart passes the test; 45 degrees apart fails it. */
  lemma SeparationBoundary()
    ensures AngularDistance(0, 90) >= MinSeparation
    ensures AngularDistance(0, 45) < MinSeparation
    ensures AngularDistance(0, 270) == 90
  {
  }

  /** The constraint can be met, so the loop has triples to accept, e.g. (0, 120, 240). */
  lemma SeparatedTripleExists()
    ensures exists t: Triple :: IsAngle(t.a) && IsAngle(t.b) && IsAngle(t.c) && Separated(t)
  {
    assert Separated(Triple(0, 120, 240));
  }
}
