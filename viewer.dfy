/** The point viewer (scad_tree/src/viewer.rs): collects a small sphere at
    each added point into one scene, joining each new marker to the scene so
    far with `+`. */
module Viewer {
  import opened Wrappers
  import P2 = Point2
  import P3 = Point3
  import opened Scad

  /** The marker drawn at a point: a sphere of the given radius and
      segment count, moved to the point. */
  function Marker(radius: real, segments: nat, p: P3.Pt3): Scad
  {
    TranslateBy(P3.Pt3(p.x, p.y, p.z), [SphereR(radius, None, None, Some(segments))])
  }

  /** The scene after adding one marker: the marker itself when the scene
      was empty, otherwise the union of the scene and the marker. */
  function Join(scene: Option<Scad>, marker: Scad): (r: Option<Scad>)
    ensures r.Some?
  {
    if scene.Some? then Some(Plus(scene.value, marker)) else Some(marker)
  }

  /** The scene after adding the markers in order. */
  function Gathered(scene: Option<Scad>, markers: seq<Scad>): (r: Option<Scad>)
    ensures r.None? <==> scene.None? && |markers| == 0
  {
    if |markers| == 0 then scene
    else Join(Gathered(scene, markers[..|markers| - 1]), markers[|markers| - 1])
  }

  /** The markers of a scene built by joining: the left spine of unions,
      read from the innermost out. */
  function Flattened(s: Scad): seq<Scad>
  {
    if s.op == Union && |s.children| == 2 then Flattened(s.children[0]) + [s.children[1]] else [s]
  }

  /** Joining never loses or reorders a marker: starting from nothing, the
      scene's spine holds exactly the markers added, in order. */
  lemma {:induction false} GatheredMarkers(markers: seq<Scad>)
    requires |markers| > 0
    requires forall i :: 0 <= i < |markers| ==> markers[i].op != Union
    ensures Flattened(Gathered(None, markers).value) == markers
  {
    var n := |markers|;
    var init := markers[..n - 1];
    if n == 1 {
      assert Gathered(None, markers) == Some(markers[0]);
      assert markers == [markers[0]];
    } else {
      GatheredMarkers(init);
      var g := Gathered(None, init).value;
      assert Gathered(None, markers) == Some(Plus(g, markers[n - 1]));
      assert Flattened(Plus(g, markers[n - 1])) == init + [markers[n - 1]];
      assert init + [markers[n - 1]] == markers;
    }
  }

  /** The markers of points in the z = 0 plane. */
  function PlaneMarkers(radius: real, segments: nat, points: seq<P2.Pt2>): (r: seq<Scad>)
    ensures |r| == |points|
    ensures forall i :: 0 <= i < |r| ==> r[i].op == Translate(P3.Pt3(points[i].x, points[i].y, 0.0))
  {
    seq(|points|, i requires 0 <= i < |points| => Marker(radius, segments, P2.AsPt3(points[i], 0.0)))
  }

  class Viewer {
    var pointRadius: real
    var segments: nat
    var scad: Option<Scad>

    /** `Viewer::new`: no scene yet. */
    constructor (pointRadius: real, segments: nat)
      ensures this.pointRadius == pointRadius && this.segments == segments
      ensures scad == None
    {
      this.pointRadius := pointRadius;
      this.segments := segments;
      scad := None;
    }

    /** `add_point`: the scene gains a marker at the point. */
    method AddPoint(p: P3.Pt3)
      modifies this
      ensures pointRadius == old(pointRadius) && segments == old(segments)
      ensures scad == Join(old(scad), Marker(pointRadius, segments, p))
    {
      var s := Marker(pointRadius, segments, p);
      if scad.Some? {
        scad := Some(Plus(scad.value, s));
      } else {
        scad := Some(s);
      }
    }

    /** `add_pt2s`: one marker per point, in order, in the z = 0 plane. */
    method AddPt2s(points: seq<P2.Pt2>)
      modifies this
      ensures pointRadius == old(pointRadius) && segments == old(segments)
      ensures scad == Gathered(old(scad), PlaneMarkers(pointRadius, segments, points))
    {
      ghost var markers := PlaneMarkers(pointRadius, segments, points);
      for i := 0 to |points|
        invariant pointRadius == old(pointRadius) && segments == old(segments)
        invariant scad == Gathered(old(scad), markers[..i])
      {
        AddPoint(P2.AsPt3(points[i], 0.0));
        assert markers[..i + 1][..i] == markers[..i];
      }
      assert markers[..|points|] == markers;
    }

    /** `into_scad`: the scene; the `unwrap` panics (None) when no point
        was ever added. */
    method IntoScad() returns (r: Option<Scad>)
      ensures r.None? <==> scad.None?
      ensures r.Some? ==> r == scad
    {
      if scad.None? {
        return None;
      }
      r := Some(scad.value);
    }
  }
}
