/** 2D profile generators (scad_tree/src/dim2.rs): arcs, circles, rounded
    rectangles, chamfers, stars and bezier curves and chains. */
module Dim2 {
  import opened Wrappers
  import opened Numeric
  import opened Point2

  // ---------------------------------------------------------------------------
  // Arcs and circles
  // ---------------------------------------------------------------------------

  /** How many points `arc` produces: a full turn does not repeat its start. */
  function ArcPointCount(degrees: real, segments: nat): nat
  {
    if degrees == 360.0 then segments else segments + 1
  }

  /** The rotation of point i: i * -degrees / segments, so clockwise. */
  function ArcAngle(degrees: real, segments: nat, i: nat): real
    requires segments > 0
  {
    (i as real * -degrees) / segments as real
  }

  /** `arc`: None where the source panics (more than a full turn). */
  function ArcPoints(t: Trig, start: Pt2, degrees: real, segments: nat): Option<seq<Pt2>>
    requires segments > 0 || degrees >= 360.0
  {
    if degrees > 360.0 then None
    else Some(seq(ArcPointCount(degrees, segments), i requires 0 <= i < ArcPointCount(degrees, segments) =>
      Rotated(t, start, ArcAngle(degrees, segments, i))))
  }

  /** `arc`: the push loop. */
  method Arc(t: Trig, start: Pt2, degrees: real, segments: nat) returns (r: Option<seq<Pt2>>)
    requires segments > 0 || degrees >= 360.0
    ensures r == ArcPoints(t, start, degrees, segments)
  {
    if degrees > 360.0 {
      return None;
    }
    var nPts := if degrees == 360.0 then segments else segments + 1;
    var pts: seq<Pt2> := [];
    for i := 0 to nPts
      invariant |pts| == i
      invariant forall k :: 0 <= k < i ==> pts[k] == Rotated(t, start, ArcAngle(degrees, segments, k))
    {
      var a := (i as real * -degrees) / segments as real;
      assert a == ArcAngle(degrees, segments, i);
      pts := pts + [Rotated(t, start, a)];
    }
    assert pts == ArcPoints(t, start, degrees, segments).value;
    return Some(pts);
  }

  /** What an arc is: None exactly above a full turn; otherwise `segments`
      points for a full turn and `segments + 1` for less; the first point is
      `start`, the last of a partial arc is `start` turned by -degrees; and
      every point is as far from the origin as `start`. */
  lemma ArcProperties(t: Trig, start: Pt2, degrees: real, segments: nat)
    requires segments > 0 || degrees >= 360.0
    ensures ArcPoints(t, start, degrees, segments).None? <==> degrees > 360.0
    ensures degrees <= 360.0 ==>
      |ArcPoints(t, start, degrees, segments).value| == (if degrees == 360.0 then segments else segments + 1)
    ensures degrees <= 360.0 && segments > 0 && ExactAtZero(t) ==>
      ArcPoints(t, start, degrees, segments).value[0] == start
    ensures degrees < 360.0 ==>
      ArcPoints(t, start, degrees, segments).value[segments] == Rotated(t, start, -degrees)
    ensures degrees <= 360.0 ==>
      forall i :: 0 <= i < |ArcPoints(t, start, degrees, segments).value| && Pythagorean(t, ArcAngle(degrees, segments, i))
        ==> Len2(ArcPoints(t, start, degrees, segments).value[i]) == Len2(start)
  {
    if degrees <= 360.0 {
      var pts := ArcPoints(t, start, degrees, segments).value;
      if segments > 0 {
        assert ArcAngle(degrees, segments, 0) == 0.0;
        if ExactAtZero(t) {
          RotatedZero(t, start);
        }
      }
      if degrees < 360.0 {
        assert ArcAngle(degrees, segments, segments) == -degrees;
      }
      forall i | 0 <= i < |pts| && Pythagorean(t, ArcAngle(degrees, segments, i))
        ensures Len2(pts[i]) == Len2(start)
      {
        RotatedKeepsLength(t, start, ArcAngle(degrees, segments, i));
      }
    }
  }

  /** `circle`: the full-turn arc from (radius, 0); exactly `segments` points,
      each at distance `radius` from the origin where the Pythagorean identity
      holds for its angle. */
  function Circle(t: Trig, radius: real, segments: nat): (r: seq<Pt2>)
    ensures |r| == segments
    ensures forall i :: 0 <= i < |r| ==> r[i] == Rotated(t, Pt2(radius, 0.0), ArcAngle(360.0, segments, i))
    ensures forall i :: 0 <= i < |r| && Pythagorean(t, ArcAngle(360.0, segments, i)) ==>
      Len2(r[i]) == radius * radius
  {
    ArcProperties(t, Pt2(radius, 0.0), 360.0, segments);
    ArcPoints(t, Pt2(radius, 0.0), 360.0, segments).value
  }

  /** `inscribed_polygon`: the polygon whose `nSides` vertices lie on the
      circle of the given radius. */
  function InscribedPolygon(t: Trig, nSides: nat, radius: real): (r: seq<Pt2>)
    ensures |r| == nSides
    ensures forall i :: 0 <= i < |r| && Pythagorean(t, ArcAngle(360.0, nSides, i)) ==>
      Len2(r[i]) == radius * radius
  {
    Circle(t, radius, nSides)
  }

  // ---------------------------------------------------------------------------
  // Rounded rectangle and chamfer
  // ---------------------------------------------------------------------------

  /** The shift `center` applies, or none. */
  function Centering(width: real, height: real, center: bool): Pt2
  {
    if center then Pt2(-width / 2.0, -height / 2.0) else Origin
  }

  /** The point corner k's quarter arc starts from, before it is moved to
      the corner: k = 0, 1, 2, 3 for the top-right, bottom-right,
      bottom-left and top-left corners. */
  function RectArcStart(radius: real, k: nat): Pt2
  {
    if k == 0 then Pt2(0.0, radius)
    else if k == 1 then Pt2(radius, 0.0)
    else if k == 2 then Pt2(-0.0, -radius)
    else Pt2(-radius, 0.0)
  }

  /** The centre of corner k's rounding, inset by the radius from both
      sides that meet there. */
  function RectCorner(width: real, height: real, radius: real, k: nat): Pt2
  {
    if k == 0 then Pt2(width - radius, height - radius)
    else if k == 1 then Pt2(width - radius, radius)
    else if k == 2 then Pt2(radius, radius)
    else Pt2(radius, height - radius)
  }

  /** `rounded_rect`: four quarter arcs, translated to the corners and
      appended in the order top-right, bottom-right, bottom-left, top-left,
      then optionally centred.  Block k holds point j of corner k's quarter
      arc moved to that corner and then by the centring shift, so every
      point of the block lies on the circle of the given radius about the
      (shifted) corner; each block starts where a straight side ends, so
      the outline runs clockwise. */
  method RoundedRect(t: Trig, width: real, height: real, radius: real, segments: nat, center: bool)
    returns (r: seq<Pt2>)
    requires segments > 0
    ensures |r| == 4 * (segments + 1)
    ensures forall k, j :: 0 <= k < 4 && 0 <= j <= segments ==>
      r[k * (segments + 1) + j] == RectPoint(t, width, height, radius, segments, center, k, j)
    ensures forall k, j :: 0 <= k < 4 && 0 <= j <= segments && Pythagorean(t, ArcAngle(90.0, segments, j)) ==>
      Len2(Sub(r[k * (segments + 1) + j], Add(RectCorner(width, height, radius, k), Centering(width, height, center))))
        == radius * radius
    ensures var c := Centering(width, height, center);
      ExactAtZero(t) ==>
        r[0] == Add(Pt2(width - radius, height), c) &&
        r[segments + 1] == Add(Pt2(width, radius), c) &&
        r[2 * (segments + 1)] == Add(Pt2(radius, 0.0), c) &&
        r[3 * (segments + 1)] == Add(Pt2(0.0, height - radius), c)
  {
    var n := segments + 1;
    var tr := Arc(t, Pt2(0.0, radius), 90.0, segments);
    var trPts := Translated(tr.value, Pt2(width - radius, height - radius));
    var br := Arc(t, Pt2(radius, 0.0), 90.0, segments);
    var brPts := Translated(br.value, Pt2(width - radius, radius));
    var bl := Arc(t, Pt2(-0.0, -radius), 90.0, segments);
    var blPts := Translated(bl.value, Pt2(radius, radius));
    var tl := Arc(t, Pt2(-radius, 0.0), 90.0, segments);
    var tlPts := Translated(tl.value, Pt2(radius, height - radius));
    var joined := trPts + brPts + blPts + tlPts;
    RectJoined(t, width, height, radius, segments, trPts, brPts, blPts, tlPts);
    if center {
      r := Translated(joined, Pt2(-width / 2.0, -height / 2.0));
    } else {
      r := joined;
    }
    RectCentred(t, width, height, radius, segments, center, joined, r);
    RoundedRectOnCircles(t, width, height, radius, segments, center, r);
    RoundedRectTangentPoints(t, width, height, radius, segments, center, r);
  }

  /** The four corner blocks laid end to end, before centring. */
  lemma RectJoined(t: Trig, width: real, height: real, radius: real, segments: nat,
                   trPts: seq<Pt2>, brPts: seq<Pt2>, blPts: seq<Pt2>, tlPts: seq<Pt2>)
    requires segments > 0
    requires trPts == Translated(ArcPoints(t, RectArcStart(radius, 0), 90.0, segments).value, RectCorner(width, height, radius, 0))
    requires brPts == Translated(ArcPoints(t, RectArcStart(radius, 1), 90.0, segments).value, RectCorner(width, height, radius, 1))
    requires blPts == Translated(ArcPoints(t, RectArcStart(radius, 2), 90.0, segments).value, RectCorner(width, height, radius, 2))
    requires tlPts == Translated(ArcPoints(t, RectArcStart(radius, 3), 90.0, segments).value, RectCorner(width, height, radius, 3))
    ensures |trPts + brPts + blPts + tlPts| == 4 * (segments + 1)
    ensures forall k, j :: 0 <= k < 4 && 0 <= j <= segments ==>
      (trPts + brPts + blPts + tlPts)[k * (segments + 1) + j] == RectPoint(t, width, height, radius, segments, false, k, j)
  {
    RectBlock(t, width, height, radius, segments, 0, trPts);
    RectBlock(t, width, height, radius, segments, 1, brPts);
    RectBlock(t, width, height, radius, segments, 2, blPts);
    RectBlock(t, width, height, radius, segments, 3, tlPts);
    forall k, j | 0 <= k < 4 && 0 <= j <= segments
      ensures (trPts + brPts + blPts + tlPts)[k * (segments + 1) + j] == RectPoint(t, width, height, radius, segments, false, k, j)
    {
      FourBlocks(trPts, brPts, blPts, tlPts, segments + 1, k, j);
    }
  }

  /** Centring shifts every point of the outline by (-width/2, -height/2). */
  lemma RectCentred(t: Trig, width: real, height: real, radius: real, segments: nat, center: bool,
                    joined: seq<Pt2>, r: seq<Pt2>)
    requires segments > 0 && |joined| == 4 * (segments + 1)
    requires forall k, j :: 0 <= k < 4 && 0 <= j <= segments ==>
      joined[k * (segments + 1) + j] == RectPoint(t, width, height, radius, segments, false, k, j)
    requires r == if center then Translated(joined, Pt2(-width / 2.0, -height / 2.0)) else joined
    ensures |r| == 4 * (segments + 1)
    ensures forall k, j :: 0 <= k < 4 && 0 <= j <= segments ==>
      r[k * (segments + 1) + j] == RectPoint(t, width, height, radius, segments, center, k, j)
  {
    forall k, j | 0 <= k < 4 && 0 <= j <= segments
      ensures r[k * (segments + 1) + j] == RectPoint(t, width, height, radius, segments, center, k, j)
    {
      assert joined[k * (segments + 1) + j] == RectPoint(t, width, height, radius, segments, false, k, j);
    }
  }

  /** Corner k's quarter arc moved to the corner is the uncentred block k. */
  lemma RectBlock(t: Trig, width: real, height: real, radius: real, segments: nat, k: nat, pts: seq<Pt2>)
    requires segments > 0 && k < 4
    requires pts == Translated(ArcPoints(t, RectArcStart(radius, k), 90.0, segments).value, RectCorner(width, height, radius, k))
    ensures |pts| == segments + 1
    ensures forall j :: 0 <= j <= segments ==> pts[j] == RectPoint(t, width, height, radius, segments, false, k, j)
  {
    forall j | 0 <= j <= segments
      ensures pts[j] == RectPoint(t, width, height, radius, segments, false, k, j)
    {
      var p := Rotated(t, RectArcStart(radius, k), ArcAngle(90.0, segments, j));
      var q := RectCorner(width, height, radius, k);
      assert pts[j] == Add(p, q);
      assert Add(Add(p, q), Origin) == Add(p, q);
    }
  }

  /** Entry j of block k of four equal-length blocks laid end to end. */
  lemma FourBlocks<T>(a: seq<T>, b: seq<T>, c: seq<T>, d: seq<T>, n: nat, k: nat, j: nat)
    requires |a| == n && |b| == n && |c| == n && |d| == n && k < 4 && j < n
    ensures (a + b + c + d)[k * n + j] == if k == 0 then a[j] else if k == 1 then b[j] else if k == 2 then c[j] else d[j]
  {
  }

  /** Point j of block k of `rounded_rect`: point j of corner k's quarter
      arc, moved to the corner and then by the centring shift. */
  function RectPoint(t: Trig, width: real, height: real, radius: real, segments: nat, center: bool, k: nat, j: nat): Pt2
    requires segments > 0
  {
    Add(Add(Rotated(t, RectArcStart(radius, k), ArcAngle(90.0, segments, j)), RectCorner(width, height, radius, k)),
        Centering(width, height, center))
  }

  /** Every point of the outline lies on the circle of the given radius about
      its (shifted) corner, where the Pythagorean identity holds. */
  lemma RoundedRectOnCircles(t: Trig, width: real, height: real, radius: real, segments: nat, center: bool, r: seq<Pt2>)
    requires segments > 0 && |r| == 4 * (segments + 1)
    requires forall k, j :: 0 <= k < 4 && 0 <= j <= segments ==>
      r[k * (segments + 1) + j] == RectPoint(t, width, height, radius, segments, center, k, j)
    ensures forall k, j :: 0 <= k < 4 && 0 <= j <= segments && Pythagorean(t, ArcAngle(90.0, segments, j)) ==>
      Len2(Sub(r[k * (segments + 1) + j], Add(RectCorner(width, height, radius, k), Centering(width, height, center))))
        == radius * radius
  {
    forall k, j | 0 <= k < 4 && 0 <= j <= segments && Pythagorean(t, ArcAngle(90.0, segments, j))
      ensures Len2(Sub(r[k * (segments + 1) + j], Add(RectCorner(width, height, radius, k), Centering(width, height, center))))
        == radius * radius
    {
      assert r[k * (segments + 1) + j] == RectPoint(t, width, height, radius, segments, center, k, j);
      RectArcOnCircle(t, radius, k, ArcAngle(90.0, segments, j), RectCorner(width, height, radius, k),
        Centering(width, height, center));
    }
  }

  /** With an exact zero rotation, each block starts where a straight side
      of the rectangle ends. */
  lemma RoundedRectTangentPoints(t: Trig, width: real, height: real, radius: real, segments: nat, center: bool, r: seq<Pt2>)
    requires segments > 0 && |r| == 4 * (segments + 1)
    requires forall k, j :: 0 <= k < 4 && 0 <= j <= segments ==>
      r[k * (segments + 1) + j] == RectPoint(t, width, height, radius, segments, center, k, j)
    ensures var c := Centering(width, height, center);
      ExactAtZero(t) ==>
        r[0] == Add(Pt2(width - radius, height), c) &&
        r[segments + 1] == Add(Pt2(width, radius), c) &&
        r[2 * (segments + 1)] == Add(Pt2(radius, 0.0), c) &&
        r[3 * (segments + 1)] == Add(Pt2(0.0, height - radius), c)
  {
    if ExactAtZero(t) {
      var n := segments + 1;
      assert ArcAngle(90.0, segments, 0) == 0.0;
      forall k | 0 <= k < 4
        ensures Rotated(t, RectArcStart(radius, k), ArcAngle(90.0, segments, 0)) == RectArcStart(radius, k)
      {
        RotatedZero(t, RectArcStart(radius, k));
      }
      assert r[0 * n + 0] == RectPoint(t, width, height, radius, segments, center, 0, 0);
      assert r[1 * n + 0] == RectPoint(t, width, height, radius, segments, center, 1, 0);
      assert r[2 * n + 0] == RectPoint(t, width, height, radius, segments, center, 2, 0);
      assert r[3 * n + 0] == RectPoint(t, width, height, radius, segments, center, 3, 0);
    }
  }

  /** A quarter-arc point moved to its corner and then shifted lies on the
      circle of the given radius about the shifted corner. */
  lemma RectArcOnCircle(t: Trig, radius: real, k: nat, degrees: real, corner: Pt2, c: Pt2)
    requires Pythagorean(t, degrees)
    ensures Len2(Sub(Add(Add(Rotated(t, RectArcStart(radius, k), degrees), corner), c), Add(corner, c))) == radius * radius
  {
    var p := Rotated(t, RectArcStart(radius, k), degrees);
    assert Sub(Add(Add(p, corner), c), Add(corner, c)) == p;
    RotatedKeepsLength(t, RectArcStart(radius, k), degrees);
  }

  /** `chamfer`: the seven-point outline of a chamfer profile. */
  function Chamfer(size: real, oversize: real): (r: seq<Pt2>)
    ensures |r| == 7
    ensures r[0] == Pt2(0.0, size + oversize) && r[6] == Origin
    ensures 0.0 <= size && 0.0 <= oversize ==>
      forall i :: 0 <= i < |r| ==> 0.0 <= r[i].x <= size + oversize && 0.0 <= r[i].y <= size + oversize
  {
    [Pt2(0.0, size + oversize), Pt2(oversize, size + oversize), Pt2(oversize, size),
     Pt2(size, oversize), Pt2(size + oversize, oversize), Pt2(oversize + size, 0.0), Pt2(0.0, 0.0)]
  }

  // ---------------------------------------------------------------------------
  // Stars
  // ---------------------------------------------------------------------------

  /** The polar point (cos a, sin a) * radius. */
  function Polar(t: Trig, degrees: real, radius: real): Pt2
  {
    Pt2(t.dcos(degrees) * radius, t.dsin(degrees) * radius)
  }

  /** A polar point lies on its circle where the Pythagorean identity holds. */
  lemma PolarLength(t: Trig, degrees: real, radius: real)
    requires Pythagorean(t, degrees)
    ensures Len2(Polar(t, degrees, radius)) == radius * radius
  {
    var c, s := t.dcos(degrees), t.dsin(degrees);
    assert (c * radius) * (c * radius) + (s * radius) * (s * radius) == (c * c + s * s) * (radius * radius);
  }

  /** The angle of vertex k of an n-pointed star: inner vertex i (k = 2i)
      at -360 i / n, outer vertex i (k = 2i + 1) half a step further. */
  function StarAngle(nPoints: nat, k: nat): real
    requires nPoints > 0
  {
    var angle := -360.0 / nPoints as real;
    if k % 2 == 0 then angle * (k / 2) as real else angle * ((k / 2) as real + 0.5)
  }

  /** Even vertices lie on the inner circle, odd ones on the outer. */
  function StarRadius(k: nat, innerRadius: real, outerRadius: real): real
  {
    if k % 2 == 0 then innerRadius else outerRadius
  }

  /** `star`: 2 n vertices alternating between the inner and the outer
      circle; each lies on its circle where the Pythagorean identity holds. */
  method Star(t: Trig, nPoints: nat, innerRadius: real, outerRadius: real) returns (r: seq<Pt2>)
    ensures |r| == 2 * nPoints
    ensures forall k :: 0 <= k < |r| ==>
      r[k] == Polar(t, StarAngle(nPoints, k), StarRadius(k, innerRadius, outerRadius))
    ensures forall k :: 0 <= k < |r| && Pythagorean(t, StarAngle(nPoints, k)) ==>
      Len2(r[k]) == StarRadius(k, innerRadius, outerRadius) * StarRadius(k, innerRadius, outerRadius)
  {
    // With no points the source's angle is infinite but never used.
    var angle := if nPoints == 0 then 0.0 else -360.0 / nPoints as real;
    r := [];
    for i := 0 to nPoints
      invariant |r| == 2 * i
      invariant forall k :: 0 <= k < |r| ==>
        r[k] == Polar(t, StarAngle(nPoints, k), StarRadius(k, innerRadius, outerRadius))
    {
      assert StarAngle(nPoints, 2 * i) == angle * i as real;
      assert StarAngle(nPoints, 2 * i + 1) == angle * (i as real + 0.5);
      r := r + [Polar(t, angle * i as real, innerRadius)];
      r := r + [Polar(t, angle * (i as real + 0.5), outerRadius)];
    }
    forall k | 0 <= k < |r| && Pythagorean(t, StarAngle(nPoints, k))
      ensures Len2(r[k]) == StarRadius(k, innerRadius, outerRadius) * StarRadius(k, innerRadius, outerRadius)
    {
      PolarLength(t, StarAngle(nPoints, k), StarRadius(k, innerRadius, outerRadius));
    }
  }

  // ---------------------------------------------------------------------------
  // Bezier curves
  // ---------------------------------------------------------------------------

  /** The quadratic Bernstein blend at parameter u. */
  function QuadraticPoint(start: Pt2, control: Pt2, end: Pt2, u: real): Pt2
  {
    Add(Add(Scale(Scale(start, 1.0 - u), 1.0 - u), Scale(Scale(Scale(control, u), 1.0 - u), 2.0)),
        Scale(Scale(end, u), u))
  }

  /** The cubic Bernstein blend at parameter u. */
  function CubicPoint(start: Pt2, control1: Pt2, control2: Pt2, end: Pt2, u: real): Pt2
  {
    Add(Add(Add(Scale(Scale(Scale(start, 1.0 - u), 1.0 - u), 1.0 - u),
                Scale(Scale(Scale(Scale(control1, u), 1.0 - u), 1.0 - u), 3.0)),
            Scale(Scale(Scale(Scale(control2, u), u), 1.0 - u), 3.0)),
        Scale(Scale(Scale(end, u), u), u))
  }

  /** The parameter of sample i: i * (1 / segments). */
  function Sample(segments: nat, i: nat): real
    requires segments > 0
  {
    i as real * (1.0 / segments as real)
  }

  /** The first sample is at 0 and the last at 1. */
  lemma SampleEnds(segments: nat)
    requires segments > 0
    ensures Sample(segments, 0) == 0.0 && Sample(segments, segments) == 1.0
  {
  }

  /** The quadratic blend starts at `start` and stops at `end`. */
  lemma QuadraticEnds(start: Pt2, control: Pt2, end: Pt2)
    ensures QuadraticPoint(start, control, end, 0.0) == start
    ensures QuadraticPoint(start, control, end, 1.0) == end
  {
    ScaleByConstants(start);
    ScaleByConstants(control);
    ScaleByConstants(end);
  }

  /** The cubic blend starts at `start` and stops at `end`. */
  lemma CubicEnds(start: Pt2, control1: Pt2, control2: Pt2, end: Pt2)
    ensures CubicPoint(start, control1, control2, end, 0.0) == start
    ensures CubicPoint(start, control1, control2, end, 1.0) == end
  {
    ScaleByConstants(start);
    ScaleByConstants(control1);
    ScaleByConstants(control2);
    ScaleByConstants(end);
  }

  lemma ScaleByConstants(p: Pt2)
    ensures Scale(p, 1.0) == p && Scale(p, 0.0) == Origin
    ensures Scale(Origin, 1.0) == Origin && Scale(Origin, 0.0) == Origin
    ensures Scale(Origin, 2.0) == Origin && Scale(Origin, 3.0) == Origin
    ensures Add(p, Origin) == p && Add(Origin, p) == p && Add(Origin, Origin) == Origin
  {
  }

  /** `quadratic_bezier`: segments + 1 samples from `start` to `end`. */
  method QuadraticBezier(start: Pt2, control: Pt2, end: Pt2, segments: nat) returns (r: seq<Pt2>)
    requires segments > 0
    ensures |r| == segments + 1
    ensures forall i :: 0 <= i < |r| ==> r[i] == QuadraticPoint(start, control, end, Sample(segments, i))
    ensures r[0] == start && r[segments] == end
  {
    var delta := 1.0 / segments as real;
    r := [];
    for i := 0 to segments + 1
      invariant |r| == i
      invariant forall k :: 0 <= k < i ==> r[k] == QuadraticPoint(start, control, end, Sample(segments, k))
    {
      var u := i as real * delta;
      assert u == Sample(segments, i);
      r := r + [QuadraticPoint(start, control, end, u)];
    }
    SampleEnds(segments);
    QuadraticEnds(start, control, end);
  }

  /** The samples of one cubic curve. */
  function CubicPoints(start: Pt2, control1: Pt2, control2: Pt2, end: Pt2, segments: nat): (r: seq<Pt2>)
    requires segments > 0
    ensures |r| == segments + 1
    ensures r[0] == start && r[segments] == end
  {
    var r := seq(segments + 1, i requires 0 <= i < segments + 1 =>
      CubicPoint(start, control1, control2, end, Sample(segments, i)));
    SampleEnds(segments);
    CubicEnds(start, control1, control2, end);
    assert r[0] == CubicPoint(start, control1, control2, end, 0.0);
    assert r[segments] == CubicPoint(start, control1, control2, end, 1.0);
    r
  }

  /** `cubic_bezier`: segments + 1 samples from `start` to `end`. */
  method CubicBezier(start: Pt2, control1: Pt2, control2: Pt2, end: Pt2, segments: nat) returns (r: seq<Pt2>)
    requires segments > 0
    ensures r == CubicPoints(start, control1, control2, end, segments)
  {
    var delta := 1.0 / segments as real;
    r := [];
    for i := 0 to segments + 1
      invariant |r| == i
      invariant forall k :: 0 <= k < i ==> r[k] == CubicPoint(start, control1, control2, end, Sample(segments, k))
    {
      var u := i as real * delta;
      assert u == Sample(segments, i);
      r := r + [CubicPoint(start, control1, control2, end, u)];
    }
  }

  // ---------------------------------------------------------------------------
  // Bezier chains
  // ---------------------------------------------------------------------------

  datatype CubicBezier2D = CubicBezier2D(start: Pt2, control1: Pt2, control2: Pt2, end: Pt2, segments: nat)

  /** Every curve after the first starts where the previous one ends. */
  predicate Continuous(curves: seq<CubicBezier2D>)
  {
    forall i :: 1 <= i < |curves| ==> curves[i].start == curves[i - 1].end
  }

  /** Every curve has at least one segment (the sampling divides by it). */
  predicate Sampled(curves: seq<CubicBezier2D>)
  {
    forall i :: 0 <= i < |curves| ==> curves[i].segments > 0
  }

  /** The total number of segments. */
  function SegmentCount(curves: seq<CubicBezier2D>): nat
  {
    if |curves| == 0 then 0 else SegmentCount(curves[..|curves| - 1]) + curves[|curves| - 1].segments
  }

  /** The first control point that continues the tangent of `last` at its
      end: on the line through its second control point and its end, at
      distance `length` past the end (with the environment's `unit3`). */
  function TangentControl(t: Trig, last: CubicBezier2D, length: real): (r: Pt2)
    ensures Sub(r, last.end) == Scale(Normalized(t, Sub(last.end, last.control2)), length)
  {
    Add(last.end, Scale(Normalized(t, Sub(last.end, last.control2)), length))
  }

  /** The curve `add` appends: it starts at the chain's end and continues its
      tangent. */
  function Extension(t: Trig, last: CubicBezier2D, control1Length: real, control2: Pt2, end: Pt2, segments: nat): CubicBezier2D
  {
    CubicBezier2D(last.end, TangentControl(t, last, control1Length), control2, end, segments)
  }

  /** The points `gen_points` collects before the final pop of a closed chain:
      each curve's samples with the previous last point dropped, starting from
      a placeholder that the first curve drops. */
  function Joined(curves: seq<CubicBezier2D>): (r: seq<Pt2>)
    requires Sampled(curves)
    ensures |r| == SegmentCount(curves) + 1
  {
    if |curves| == 0 then [Origin]
    else
      var c := curves[|curves| - 1];
      var prev := Joined(curves[..|curves| - 1]);
      prev[..|prev| - 1] + CubicPoints(c.start, c.control1, c.control2, c.end, c.segments)
  }

  /** The points of the first i + 1 curves: those of the first i without
      their last, then the samples of curve i. */
  lemma JoinedStep(curves: seq<CubicBezier2D>, i: nat)
    requires Sampled(curves) && i < |curves|
    ensures var prev := Joined(curves[..i]); var c := curves[i];
      Joined(curves[..i + 1]) == prev[..|prev| - 1] + CubicPoints(c.start, c.control1, c.control2, c.end, c.segments)
  {
    assert curves[..i + 1][..i] == curves[..i];
  }

  /** A continuous chain's points run from the first curve's start to the
      last curve's end. */
  lemma {:induction false} JoinedEnds(curves: seq<CubicBezier2D>)
    requires |curves| >= 1 && Sampled(curves)
    ensures Joined(curves)[0] == curves[0].start
    ensures Joined(curves)[|Joined(curves)| - 1] == curves[|curves| - 1].end
  {
    var c := curves[|curves| - 1];
    var pts := CubicPoints(c.start, c.control1, c.control2, c.end, c.segments);
    if |curves| > 1 {
      var init := curves[..|curves| - 1];
      JoinedEnds(init);
      assert init[0] == curves[0];
      var prev := Joined(init);
      assert |prev| >= 2;
      assert Joined(curves)[0] == prev[0];
    }
    assert Joined(curves)[|Joined(curves)| - 1] == pts[|pts| - 1];
  }

  /** The points `gen_points` returns: a closed chain drops its last point,
      which repeats the first. */
  function ChainPoints(curves: seq<CubicBezier2D>, closed: bool): (r: seq<Pt2>)
    requires Sampled(curves)
    ensures |r| == SegmentCount(curves) + (if closed then 0 else 1)
  {
    var pts := Joined(curves);
    if closed then pts[..|pts| - 1] else pts
  }

  /** A chain whose last curve ends at the first curve's start returns every
      point once: dropping the last point loses nothing. */
  lemma {:induction false} ClosedChainDropsDuplicate(curves: seq<CubicBezier2D>)
    requires |curves| >= 1 && Sampled(curves)
    requires curves[|curves| - 1].end == curves[0].start
    ensures ChainPoints(curves, true) + [ChainPoints(curves, true)[0]] == Joined(curves)
  {
    var pts := Joined(curves);
    assert |pts| >= 2;
    JoinedEnds(curves);
    assert pts[0] == pts[|pts| - 1];
    assert ChainPoints(curves, true) == pts[..|pts| - 1];
  }

  /** `CubicBezierChain2D`: a chain of cubic curves, each starting where the
      previous one ends. */
  class CubicBezierChain2D {
    var curves: seq<CubicBezier2D>
    var closed: bool

    /** The chain is never empty and has no gaps. */
    ghost predicate Valid()
      reads this
    {
      |curves| >= 1 && Continuous(curves)
    }

    constructor(start: Pt2, control1: Pt2, control2: Pt2, end: Pt2, segments: nat)
      ensures Valid() && !closed
      ensures curves == [CubicBezier2D(start, control1, control2, end, segments)]
    {
      curves := [CubicBezier2D(start, control1, control2, end, segments)];
      closed := false;
    }

    /** `add`: appends the extension of the last curve. */
    method Add(t: Trig, control1Length: real, control2: Pt2, end: Pt2, segments: nat)
      requires Valid()
      modifies this
      ensures Valid() && closed == old(closed)
      ensures curves == old(curves) + [Extension(t, old(curves[|curves| - 1]), control1Length, control2, end, segments)]
    {
      var chainEnd := curves[|curves| - 1];
      curves := curves + [Extension(t, chainEnd, control1Length, control2, end, segments)];
    }

    /** `close`: appends a curve ending at the chain's start and re-aims the
      first curve's first control point along the closing tangent. */
    method Close(t: Trig, control1Length: real, control2: Pt2, startControl1Len: real, segments: nat)
      requires Valid()
      modifies this
      ensures Valid() && closed
      ensures |curves| == |old(curves)| + 1
      ensures curves[1..|curves| - 1] == old(curves[1..])
      ensures curves[|curves| - 1] == Extension(t, old(curves[|curves| - 1]), control1Length, control2, old(curves[0].start), segments)
      ensures curves[|curves| - 1].end == curves[0].start
      ensures curves[0] == old(curves[0]).(control1 := TangentControl(t, curves[|curves| - 1], startControl1Len))
    {
      closed := true;
      Add(t, control1Length, control2, curves[0].start, segments);
      var chainEnd := curves[|curves| - 1];
      var c1 := Point2.Add(chainEnd.end, Scale(Normalized(t, Sub(chainEnd.end, chainEnd.control2)), startControl1Len));
      curves := curves[0 := curves[0].(control1 := c1)];
    }

    /** `gen_points`: concatenates the curves' samples, dropping each shared
      junction once, and drops the repeated start of a closed chain. */
    method GenPoints() returns (pts: seq<Pt2>)
      requires Valid() && Sampled(curves)
      ensures pts == ChainPoints(curves, closed)
      ensures |pts| == SegmentCount(curves) + (if closed then 0 else 1)
    {
      pts := [Origin];
      for i := 0 to |curves|
        invariant pts == Joined(curves[..i])
      {
        JoinedStep(curves, i);
        pts := pts[..|pts| - 1];
        var c := curves[i];
        var more := CubicBezier(c.start, c.control1, c.control2, c.end, c.segments);
        pts := pts + more;
      }
      assert curves[..|curves|] == curves;
      if closed {
        pts := pts[..|pts| - 1];
      }
    }
  }

  /** A chain whose curves all have the same number of segments. */
  lemma {:induction false} SegmentCountUniform(curves: seq<CubicBezier2D>, segments: nat)
    requires forall i :: 0 <= i < |curves| ==> curves[i].segments == segments
    ensures SegmentCount(curves) == |curves| * segments
  {
    if |curves| > 0 {
      var init := curves[..|curves| - 1];
      SegmentCountUniform(init, segments);
      assert SegmentCount(curves) == (|curves| - 1) * segments + segments;
    }
  }

  // ---------------------------------------------------------------------------
  // Bezier star
  // ---------------------------------------------------------------------------

  /** `bezier_star`: 2 n knots alternating between the outer and the inner
      circle, joined by a closed chain of 2 n cubic curves whose handles are
      aligned with the neighbouring knots.  None where the source panics
      (no points: there is no first knot).  The star's points are the
      closed chain of the star curves over those knots and controls, and
      the star passes through every knot in order, one curve's segments
      apart. */
  method BezierStar(t: Trig, nPoints: nat, innerRadius: real, innerHandleLength: real,
                    outerRadius: real, outerHandleLength: real, segments: nat)
    returns (r: Option<seq<Pt2>>)
    requires segments > 0
    ensures r.None? <==> nPoints == 0
    ensures r.Some? ==> |r.value| == 2 * nPoints * segments
    ensures r.Some? ==> var knots := StarKnots(t, nPoints, innerRadius, outerRadius);
      r.value == ChainPoints(StarCurves(t, knots, StarControls(t, knots, innerHandleLength, outerHandleLength),
                                        innerHandleLength, outerHandleLength, segments), true)
    ensures r.Some? ==> forall k :: 0 <= k < 2 * nPoints ==>
      0 <= k * segments < |r.value| && r.value[k * segments] == Polar(t, BezierStarAngle(nPoints, k), BezierStarRadius(k, innerRadius, outerRadius))
  {
    if nPoints == 0 {
      return None;
    }
    var knots := BezierStarKnots(t, nPoints, innerRadius, outerRadius);
    assert knots == StarKnots(t, nPoints, innerRadius, outerRadius);
    var controls := BezierStarControls(t, knots, innerHandleLength, outerHandleLength);
    assert controls == StarControls(t, knots, innerHandleLength, outerHandleLength);
    var chain := StarChain(t, knots, controls, innerHandleLength, outerHandleLength, segments);
    var pts := chain.GenPoints();
    StarChainCurves(t, knots, controls, innerHandleLength, outerHandleLength, segments, chain.curves);
    SegmentCountUniform(chain.curves, segments);
    StarPassesKnots(t, nPoints, innerRadius, outerRadius, segments, knots, chain.curves, pts);
    return Some(pts);
  }

  /** The knots of an n-pointed Bezier star. */
  function StarKnots(t: Trig, nPoints: nat, innerRadius: real, outerRadius: real): (r: seq<Pt2>)
    requires nPoints > 0
    ensures |r| == 2 * nPoints
  {
    seq(2 * nPoints, k requires 0 <= k < 2 * nPoints =>
      Polar(t, BezierStarAngle(nPoints, k), BezierStarRadius(k, innerRadius, outerRadius)))
  }

  /** The controls of a Bezier star, one per knot. */
  function StarControls(t: Trig, knots: seq<Pt2>, innerHandleLength: real, outerHandleLength: real): (r: seq<Pt2>)
    ensures |r| == |knots|
  {
    seq(|knots|, k requires 0 <= k < |knots| => BezierStarControl(t, knots, k, innerHandleLength, outerHandleLength))
  }

  /** The length of curve k's first handle in a closed star chain of n
      curves: the outer length for the first curve (set when the chain is
      closed), the inner length for the closing curve, and in between the
      outer length at even positions and the inner one at odd. */
  function StarHandle(n: nat, k: nat, innerHandleLength: real, outerHandleLength: real): real
  {
    if k == 0 then outerHandleLength
    else if k == n - 1 then innerHandleLength
    else if k % 2 == 0 then outerHandleLength
    else innerHandleLength
  }

  /** Curve k of the closed star chain: from knot k to the next knot (the
      last back to the first), with control k as its second control and a
      first control that continues, at knot k, the tangent the curve before
      ends with. */
  function StarCurve(t: Trig, knots: seq<Pt2>, controls: seq<Pt2>, innerHandleLength: real,
                     outerHandleLength: real, segments: nat, k: nat): CubicBezier2D
    requires |knots| >= 2 && |controls| == |knots| && k < |knots|
  {
    var n := |knots|;
    var before := (k + n - 1) % n;
    CubicBezier2D(knots[k],
      Add(knots[k], Scale(Normalized(t, Sub(knots[k], controls[before])), StarHandle(n, k, innerHandleLength, outerHandleLength))),
      controls[k], knots[(k + 1) % n], segments)
  }

  /** The curves of the closed star chain. */
  function StarCurves(t: Trig, knots: seq<Pt2>, controls: seq<Pt2>, innerHandleLength: real,
                      outerHandleLength: real, segments: nat): (r: seq<CubicBezier2D>)
    requires |knots| >= 2 && |controls| == |knots|
    ensures |r| == |knots|
  {
    seq(|knots|, k requires 0 <= k < |knots| =>
      StarCurve(t, knots, controls, innerHandleLength, outerHandleLength, segments, k))
  }

  /** The chain loop of `bezier_star`: a first curve between the first two
      knots, one extension per further knot, and the closing curve. Curve k
      runs from knot k to the next knot, the last back to the first, with
      control k as its second control; its first control continues the
      tangent of the curve before it. */
  method StarChain(t: Trig, knots: seq<Pt2>, controls: seq<Pt2>, innerHandleLength: real,
                   outerHandleLength: real, segments: nat)
    returns (chain: CubicBezierChain2D)
    requires |knots| >= 2 && |controls| == |knots|
    ensures fresh(chain) && chain.Valid() && chain.closed && |chain.curves| == |knots|
    ensures forall k :: 0 <= k < |chain.curves| ==> chain.curves[k].segments == segments
    ensures forall k :: 0 <= k < |knots| ==>
      chain.curves[k].start == knots[k] && chain.curves[k].end == knots[(k + 1) % |knots|] &&
      chain.curves[k].control2 == controls[k]
    ensures forall k :: 0 <= k < |knots| ==>
      chain.curves[k] == StarCurve(t, knots, controls, innerHandleLength, outerHandleLength, segments, k)
  {
    var nKnots := |knots|;
    chain := new CubicBezierChain2D(knots[0], controls[0], controls[0], knots[1], segments);
    ghost var first := chain.curves[0];
    for i := 1 to nKnots - 1
      invariant fresh(chain) && chain.Valid() && |chain.curves| == i
      invariant forall k :: 0 <= k < |chain.curves| ==> chain.curves[k].segments == segments
      invariant chain.curves[0] == first
      invariant chain.curves[i - 1].end == knots[i] && chain.curves[i - 1].control2 == controls[i - 1]
      invariant forall k :: 1 <= k < i ==>
        chain.curves[k] == StarCurve(t, knots, controls, innerHandleLength, outerHandleLength, segments, k)
    {
      ModOnce(i + 1, nKnots);
      assert StarHandle(nKnots, i, innerHandleLength, outerHandleLength)
        == if i % 2 == 0 then outerHandleLength else innerHandleLength;
      StarExtension(t, knots, controls, innerHandleLength, outerHandleLength, segments, i, chain.curves[i - 1]);
      chain.Add(t, if i % 2 == 0 then outerHandleLength else innerHandleLength, controls[i], knots[i + 1], segments);
    }
    ModOnce(nKnots, nKnots);
    StarExtension(t, knots, controls, innerHandleLength, outerHandleLength, segments, nKnots - 1, chain.curves[nKnots - 2]);
    ghost var middle := chain.curves[1..];
    chain.Close(t, innerHandleLength, controls[nKnots - 1], outerHandleLength, segments);
    StarFirst(t, knots, controls, innerHandleLength, outerHandleLength, segments, first);
    forall k | 0 <= k < nKnots
      ensures chain.curves[k] == StarCurve(t, knots, controls, innerHandleLength, outerHandleLength, segments, k)
    {
      if 1 <= k < nKnots - 1 {
        assert chain.curves[k] == middle[k - 1];
      }
    }
    forall k | 0 <= k < nKnots
      ensures chain.curves[k].start == knots[k] && chain.curves[k].end == knots[(k + 1) % nKnots] &&
        chain.curves[k].control2 == controls[k]
    {
      StarCurveEnds(t, knots, controls, innerHandleLength, outerHandleLength, segments, k);
    }
  }

  /** The curve `add` appends at knot i continues the curve before and is
      star curve i. */
  lemma StarExtension(t: Trig, knots: seq<Pt2>, controls: seq<Pt2>, innerHandleLength: real,
                      outerHandleLength: real, segments: nat, i: nat, last: CubicBezier2D)
    requires |knots| >= 2 && |controls| == |knots| && 1 <= i < |knots|
    requires last.end == knots[i] && last.control2 == controls[i - 1]
    ensures Extension(t, last, StarHandle(|knots|, i, innerHandleLength, outerHandleLength), controls[i],
                      knots[(i + 1) % |knots|], segments)
      == StarCurve(t, knots, controls, innerHandleLength, outerHandleLength, segments, i)
  {
    ModOnce(i + |knots| - 1, |knots|);
  }

  /** Re-aiming the first curve's first control along the closing curve's
      end tangent makes it star curve 0. */
  lemma StarFirst(t: Trig, knots: seq<Pt2>, controls: seq<Pt2>, innerHandleLength: real,
                  outerHandleLength: real, segments: nat, first: CubicBezier2D)
    requires |knots| >= 2 && |controls| == |knots|
    requires first == CubicBezier2D(knots[0], controls[0], controls[0], knots[1], segments)
    ensures var n := |knots|;
      first.(control1 := TangentControl(t, StarCurve(t, knots, controls, innerHandleLength, outerHandleLength, segments, n - 1),
                                        outerHandleLength))
      == StarCurve(t, knots, controls, innerHandleLength, outerHandleLength, segments, 0)
  {
    var n := |knots|;
    ModOnce(n - 1, n);
    ModOnce(1, n);
    ModOnce(n, n);
  }

  /** Star curve k runs from knot k to the next one, with control k as its
      second control. */
  lemma StarCurveEnds(t: Trig, knots: seq<Pt2>, controls: seq<Pt2>, innerHandleLength: real,
                      outerHandleLength: real, segments: nat, k: nat)
    requires |knots| >= 2 && |controls| == |knots| && k < |knots|
    ensures var c := StarCurve(t, knots, controls, innerHandleLength, outerHandleLength, segments, k);
      c.start == knots[k] && c.end == knots[(k + 1) % |knots|] && c.control2 == controls[k]
  {
  }

  /** Curves that are the star curves one by one are the star's curves. */
  lemma StarChainCurves(t: Trig, knots: seq<Pt2>, controls: seq<Pt2>, innerHandleLength: real,
                        outerHandleLength: real, segments: nat, curves: seq<CubicBezier2D>)
    requires |knots| >= 2 && |controls| == |knots| && |curves| == |knots|
    requires forall k :: 0 <= k < |knots| ==>
      curves[k] == StarCurve(t, knots, controls, innerHandleLength, outerHandleLength, segments, k)
    ensures curves == StarCurves(t, knots, controls, innerHandleLength, outerHandleLength, segments)
  {
  }

  /** The points of the closed star chain pass through knot k of the star
      at position k · segments. */
  lemma StarPassesKnots(t: Trig, nPoints: nat, innerRadius: real, outerRadius: real, segments: nat,
                        knots: seq<Pt2>, curves: seq<CubicBezier2D>, pts: seq<Pt2>)
    requires nPoints > 0 && segments > 0
    requires knots == StarKnots(t, nPoints, innerRadius, outerRadius) && |curves| == |knots|
    requires forall i :: 0 <= i < |curves| ==> curves[i].segments == segments && curves[i].start == knots[i]
    requires pts == ChainPoints(curves, true)
    ensures forall k :: 0 <= k < 2 * nPoints ==>
      0 <= k * segments < |pts| &&
      pts[k * segments] == Polar(t, BezierStarAngle(nPoints, k), BezierStarRadius(k, innerRadius, outerRadius))
  {
    ChainPassesStarts(curves, segments);
  }

  /** A position at most one turn past the ring's end wraps round once. */
  lemma ModOnce(a: nat, n: nat)
    requires 0 < n && a < 2 * n
    ensures a % n == if a < n then a else a - n
  {
    if a >= n {
      assert a == n + (a - n);
    }
  }

  /** The points of a closed chain whose curves all have `segments`
      segments start curve k at position k · segments. */
  lemma ChainPassesStarts(curves: seq<CubicBezier2D>, segments: nat)
    requires segments > 0 && forall i :: 0 <= i < |curves| ==> curves[i].segments == segments
    ensures forall k :: 0 <= k < |curves| ==>
      0 <= k * segments < |ChainPoints(curves, true)| && ChainPoints(curves, true)[k * segments] == curves[k].start
  {
    forall k | 0 <= k < |curves|
      ensures 0 <= k * segments < |ChainPoints(curves, true)| && ChainPoints(curves, true)[k * segments] == curves[k].start
    {
      ChainPassesStart(curves, segments, k);
    }
  }

  /** Curve k of a closed chain of equal curves starts at point k · segments. */
  lemma ChainPassesStart(curves: seq<CubicBezier2D>, segments: nat, k: nat)
    requires segments > 0 && forall i :: 0 <= i < |curves| ==> curves[i].segments == segments
    requires k < |curves|
    ensures 0 <= k * segments < |ChainPoints(curves, true)| && ChainPoints(curves, true)[k * segments] == curves[k].start
  {
    var before := curves[..k];
    SegmentCountUniform(before, segments);
    JoinedAtStart(curves, k);
    var at := SegmentCount(before);
    assert at == k * segments;
    var joined := Joined(curves);
    assert at < |joined| - 1;
    assert joined[..|joined| - 1][at] == joined[at];
  }

  /** Curve k's samples begin in the joined points right after the segments
      of the curves before it, before the last joined point. */
  lemma {:induction false} JoinedAtStart(curves: seq<CubicBezier2D>, k: nat)
    requires Sampled(curves) && k < |curves|
    ensures SegmentCount(curves[..k]) < SegmentCount(curves)
    ensures Joined(curves)[SegmentCount(curves[..k])] == curves[k].start
  {
    var n := |curves|;
    var init := curves[..n - 1];
    var last := curves[n - 1];
    var prev := Joined(init);
    var pts := CubicPoints(last.start, last.control1, last.control2, last.end, last.segments);
    assert Joined(curves) == prev[..|prev| - 1] + pts;
    assert SegmentCount(curves) == SegmentCount(init) + last.segments;
    if k == n - 1 {
      assert curves[..k] == init;
    } else {
      assert init[..k] == curves[..k];
      assert init[k] == curves[k];
      JoinedAtStart(init, k);
    }
  }

  /** The even knots of a Bezier star lie on the outer circle, the odd ones
      on the inner. */
  function BezierStarRadius(k: nat, innerRadius: real, outerRadius: real): real
  {
    if k % 2 == 0 then outerRadius else innerRadius
  }

  /** The angle of knot k of an n-pointed Bezier star, in degrees: the even
      knots at whole steps of 360/n degrees, the odd ones half a step further
      on. */
  function BezierStarAngle(nPoints: nat, k: nat): real
    requires nPoints > 0
  {
    var angle := 360.0 / nPoints as real;
    if k % 2 == 0 then angle * (k / 2) as real else angle * ((k / 2) as real + 0.5)
  }

  /** The knot loop of `bezier_star`: two knots per point, outer then
      inner. */
  method BezierStarKnots(t: Trig, nPoints: nat, innerRadius: real, outerRadius: real) returns (knots: seq<Pt2>)
    requires nPoints > 0
    ensures |knots| == 2 * nPoints
    ensures forall k :: 0 <= k < |knots| ==>
      knots[k] == Polar(t, BezierStarAngle(nPoints, k), BezierStarRadius(k, innerRadius, outerRadius))
  {
    var angle := 360.0 / nPoints as real;
    knots := [];
    for i := 0 to nPoints
      invariant |knots| == 2 * i
      invariant forall k :: 0 <= k < |knots| ==>
        knots[k] == Polar(t, BezierStarAngle(nPoints, k), BezierStarRadius(k, innerRadius, outerRadius))
    {
      assert BezierStarAngle(nPoints, 2 * i) == angle * i as real;
      assert BezierStarAngle(nPoints, 2 * i + 1) == angle * (i as real + 0.5);
      assert BezierStarRadius(2 * i, innerRadius, outerRadius) == outerRadius;
      assert BezierStarRadius(2 * i + 1, innerRadius, outerRadius) == innerRadius;
      knots := knots + [Polar(t, angle * i as real, outerRadius)];
      knots := knots + [Polar(t, angle * (i as real + 0.5), innerRadius)];
    }
  }

  /** Control point k of the star: the knot after k, pulled back along the
      direction from knot k to the knot two on, by the inner handle length
      at even k and the outer one at odd k. */
  function BezierStarControl(t: Trig, knots: seq<Pt2>, k: nat, innerHandleLength: real, outerHandleLength: real): Pt2
    requires k < |knots|
  {
    var n := |knots|;
    var handle := if k % 2 == 0 then innerHandleLength else outerHandleLength;
    Sub(knots[(k + 1) % n], Scale(Normalized(t, Sub(knots[(k + 2) % n], knots[k])), handle))
  }

  /** The control loop of `bezier_star`: one control point per knot. */
  method BezierStarControls(t: Trig, knots: seq<Pt2>, innerHandleLength: real, outerHandleLength: real)
    returns (controls: seq<Pt2>)
    ensures |controls| == |knots|
    ensures forall k :: 0 <= k < |controls| ==> controls[k] == BezierStarControl(t, knots, k, innerHandleLength, outerHandleLength)
  {
    var nKnots := |knots|;
    controls := [];
    for i := 0 to nKnots
      invariant |controls| == i
      invariant forall k :: 0 <= k < i ==> controls[k] == BezierStarControl(t, knots, k, innerHandleLength, outerHandleLength)
    {
      var handle := if i % 2 == 0 then innerHandleLength else outerHandleLength;
      controls := controls + [Sub(knots[(i + 1) % nKnots],
                                  Scale(Normalized(t, Sub(knots[(i + 2) % nKnots], knots[i])), handle))];
    }
  }
}
