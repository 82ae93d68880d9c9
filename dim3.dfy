/** Polyhedron builders and 3D bezier curves (scad_tree/src/dim3.rs).  A
    builder lays out its points ring by ring, one ring per copy of the
    profile, and joins consecutive rings by quads; caps are triangulations
    of the profile. */
module Dim3 {
  import opened Wrappers
  import opened Numeric
  import P2 = Point2
  import opened Point3
  import P4 = Point4
  import M = Matrix4
  import Mesh
  import T = Triangulate
  import Dim2

  /** `Polyhedron`: points and faces indexing into them. */
  datatype Polyhedron = Polyhedron(points: seq<Pt3>, faces: seq<seq<nat>>)

  /** Every face refers only to existing points. */
  predicate WellIndexed(poly: Polyhedron)
  {
    Mesh.IndicesBelow(poly.faces, |poly.points|)
  }

  // ---------------------------------------------------------------------------
  // Rings and the quads between them
  // ---------------------------------------------------------------------------

  /** The wall quad joining edge (p, p + 1) of the ring that starts at point
      `lower` to the same edge of the ring that starts at point `upper`. */
  function Quad(lower: nat, upper: nat, len: nat, p: nat): seq<nat>
    requires p < len
  {
    [lower + p, lower + (p + 1) % len, upper + (p + 1) % len, upper + p]
  }

  /** The band of quads joining two rings of `len` points. */
  function Band(lower: nat, upper: nat, len: nat): (r: seq<seq<nat>>)
    ensures |r| == len
  {
    seq(len, p requires 0 <= p < len => Quad(lower, upper, len, p))
  }

  /** A band refers only to points of its two rings. */
  lemma BandBelow(lower: nat, upper: nat, len: nat, n: nat)
    requires lower + len <= n && upper + len <= n
    ensures Mesh.IndicesBelow(Band(lower, upper, len), n)
  {
    var b := Band(lower, upper, len);
    forall k, j | 0 <= k < |b| && 0 <= j < |b[k]|
      ensures b[k][j] < n
    {
      assert b[k] == Quad(lower, upper, len, k);
    }
  }

  /** The bands joining rings 0, 1, ..., n - 1 of a stack, each ring to the
      next. */
  function Strips(len: nat, n: nat): (r: seq<seq<nat>>)
    ensures |r| == (if n == 0 then 0 else (n - 1) * len)
  {
    if n <= 1 then []
    else
      var r := Strips(len, n - 1) + Band((n - 2) * len, (n - 1) * len, len);
      assert (n - 2) * len + len == (n - 1) * len;
      r
  }

  /** One more ring adds the band between it and the ring before. */
  lemma StripsPush(len: nat, k: nat)
    requires k >= 1
    ensures Strips(len, k + 1) == Strips(len, k) + Band((k - 1) * len, k * len, len)
  {
    assert (k + 1) - 2 == k - 1;
  }

  /** The bands of a stack of n rings refer only to its n * len points. */
  lemma {:induction false} StripsBelow(len: nat, n: nat)
    ensures Mesh.IndicesBelow(Strips(len, n), n * len)
  {
    if n > 1 {
      StripsBelow(len, n - 1);
      assert (n - 1) * len <= n * len && (n - 2) * len + len == (n - 1) * len;
      assert (n - 1) * len + len == n * len;
      BandBelow((n - 2) * len, (n - 1) * len, len, n * len);
      Mesh.IndicesBelowAppend(Strips(len, n - 1), [], (n - 1) * len, n * len);
      Mesh.IndicesBelowAppend(Strips(len, n - 1), Band((n - 2) * len, (n - 1) * len, len), n * len, n * len);
    }
  }

  /** The inner loop of the builders: pushes each point of a ring together
      with the quad joining it and its successor to the previous ring. */
  method ExtrudeRing(points: seq<Pt3>, faces: seq<seq<nat>>, ring: seq<Pt3>, lower: nat, upper: nat)
    returns (points': seq<Pt3>, faces': seq<seq<nat>>)
    ensures points' == points + ring
    ensures faces' == faces + Band(lower, upper, |ring|)
  {
    points', faces' := points, faces;
    var len := |ring|;
    for p := 0 to len
      invariant points' == points + ring[..p]
      invariant faces' == faces + Band(lower, upper, len)[..p]
    {
      points' := points' + [ring[p]];
      var p0 := lower + p;
      var p1 := lower + (p + 1) % len;
      var p2 := upper + (p + 1) % len;
      var p3 := upper + p;
      faces' := faces' + [[p0, p1, p2, p3]];
      assert Band(lower, upper, len)[..p + 1] == Band(lower, upper, len)[..p] + [[p0, p1, p2, p3]];
    }
    assert ring[..len] == ring;
    assert Band(lower, upper, len)[..len] == Band(lower, upper, len);
  }

  /** The closing loop: pushes only the quads of a band. */
  method AppendBand(faces: seq<seq<nat>>, lower: nat, upper: nat, len: nat) returns (faces': seq<seq<nat>>)
    ensures faces' == faces + Band(lower, upper, len)
  {
    faces' := faces;
    for p := 0 to len
      invariant faces' == faces + Band(lower, upper, len)[..p]
    {
      faces' := faces' + [[lower + p, lower + (p + 1) % len, upper + (p + 1) % len, upper + p]];
      assert Band(lower, upper, len)[..p + 1] == Band(lower, upper, len)[..p] + [Quad(lower, upper, len, p)];
    }
    assert Band(lower, upper, len)[..len] == Band(lower, upper, len);
  }

  // ---------------------------------------------------------------------------
  // linear_extrude and cylinder
  // ---------------------------------------------------------------------------

  /** The profile lifted to height z. */
  function Lifted(profile: seq<P2.Pt2>, z: real): (r: seq<Pt3>)
    ensures |r| == |profile|
  {
    seq(|profile|, i requires 0 <= i < |profile| => P2.AsPt3(profile[i], z))
  }

  /** The loop pushing every profile point at height z. */
  method LiftPoints(profile: seq<P2.Pt2>, z: real) returns (vertices: seq<Pt3>)
    ensures vertices == Lifted(profile, z)
  {
    vertices := [];
    for i := 0 to |profile|
      invariant vertices == Lifted(profile[..i], z)
    {
      vertices := vertices + [P2.AsPt3(profile[i], z)];
    }
    assert profile[..|profile|] == profile;
  }

  /** `linear_extrude`, given the bottom cap (the reversed triangulation) and
      the top cap (the triangulation) of the profile. */
  function LinearExtrusion(profile: seq<P2.Pt2>, height: real, bottom: seq<nat>, top: seq<nat>): Polyhedron
  {
    var n := |profile|;
    Polyhedron(Lifted(profile, 0.0) + Lifted(profile, height),
               Mesh.Triples(bottom, 0) + Mesh.Triples(top, n) + Band(0, n, n))
  }

  /** `linear_extrude`: None where the source's triangulation panics. */
  method LinearExtrude(profile: seq<P2.Pt2>, height: real, bottomCap: seq<nat>) returns (r: Option<Polyhedron>)
    requires |bottomCap| % 3 == 0
    ensures r.None? <==> T.Triangulation2d(profile).None?
    ensures r.Some? ==> r.value == LinearExtrusion(profile, height, bottomCap, T.Triangulation2d(profile).value)
  {
    var n := |profile|;
    var vertices := LiftPoints(profile, 0.0);
    var faces := Mesh.AppendTriples([], bottomCap, 0);
    assert faces == Mesh.Triples(bottomCap, 0);
    vertices := vertices + Lifted(profile, height);
    var top := T.Triangulate2d(profile);
    if top.None? {
      return None;
    }
    T.Triangulation2dIndices(profile);
    faces := Mesh.AppendTriples(faces, top.value, n);
    faces := AppendBand(faces, 0, n, n);
    return Some(Polyhedron(vertices, faces));
  }

  /** What `linear_extrude` builds: the profile at z = 0 followed by the
      profile at z = height; the bottom cap unshifted, the top cap shifted by
      n, then n wall quads [i, i+1, i+1+n, i+n] (i+1 taken mod n); every face refers to existing points when the bottom cap does. */
  lemma LinearExtrusionShape(profile: seq<P2.Pt2>, height: real, bottom: seq<nat>)
    requires Mesh.FlatBelow(bottom, |profile|)
    requires T.Triangulation2d(profile).Some?
    ensures var poly := LinearExtrusion(profile, height, bottom, T.Triangulation2d(profile).value);
      var n := |profile|;
      var caps := |bottom| / 3 + |T.Triangulation2d(profile).value| / 3;
      |poly.points| == 2 * n &&
      (forall i :: 0 <= i < n ==>
         poly.points[i] == P2.AsPt3(profile[i], 0.0) && poly.points[n + i] == P2.AsPt3(profile[i], height)) &&
      |poly.faces| == caps + n &&
      (forall k :: caps <= k < caps + n ==> poly.faces[k] == Quad(0, n, n, k - caps)) &&
      WellIndexed(poly)
  {
    var n := |profile|;
    var top := T.Triangulation2d(profile).value;
    var poly := LinearExtrusion(profile, height, bottom, top);
    T.Triangulation2dIndices(profile);
    Mesh.TriplesBelow(bottom, 0, n);
    Mesh.TriplesBelow(top, n, n);
    BandBelow(0, n, n, 2 * n);
    Mesh.IndicesBelowAppend(Mesh.Triples(bottom, 0), Mesh.Triples(top, n), 2 * n, 2 * n);
    Mesh.IndicesBelowAppend(Mesh.Triples(bottom, 0) + Mesh.Triples(top, n), Band(0, n, n), 2 * n, 2 * n);
  }

  /** `Polyhedron::cylinder`: the extruded circle. */
  method Cylinder(t: Trig, radius: real, height: real, segments: nat, bottomCap: seq<nat>) returns (r: Option<Polyhedron>)
    requires |bottomCap| % 3 == 0
    ensures r.None? <==> T.Triangulation2d(Dim2.Circle(t, radius, segments)).None?
    ensures r.Some? ==> |r.value.points| == 2 * segments
    ensures r.Some? ==> r.value == LinearExtrusion(Dim2.Circle(t, radius, segments), height, bottomCap,
                                                   T.Triangulation2d(Dim2.Circle(t, radius, segments)).value)
  {
    var circle := Dim2.Arc(t, P2.Pt2(radius, 0.0), 360.0, segments);
    assert circle.value == Dim2.Circle(t, radius, segments);
    r := LinearExtrude(circle.value, height, bottomCap);
  }

  // ---------------------------------------------------------------------------
  // Stacks of rings
  // ---------------------------------------------------------------------------

  /** The rings' points one ring after the other, as the builders push them. */
  function Flatten(rings: seq<seq<Pt3>>): seq<Pt3>
  {
    if |rings| == 0 then [] else Flatten(rings[..|rings| - 1]) + rings[|rings| - 1]
  }

  /** Every ring has `len` points. */
  predicate Uniform(rings: seq<seq<Pt3>>, len: nat)
  {
    forall k :: 0 <= k < |rings| ==> |rings[k]| == len
  }

  /** Pushing one more ring appends its points. */
  lemma FlattenPush(rings: seq<seq<Pt3>>, k: nat)
    requires k < |rings|
    ensures Flatten(rings[..k + 1]) == Flatten(rings[..k]) + rings[k]
  {
    assert rings[..k + 1][..k] == rings[..k];
  }

  /** The first ring alone is its own points. */
  lemma FlattenFirst(rings: seq<seq<Pt3>>)
    requires |rings| > 0
    ensures Flatten(rings[..1]) == rings[0]
  {
    assert rings[..1][..0] == [];
  }

  /** The points of all rings but the last, followed by the last ring, are
      the points of the stack, which holds one ring of `len` points more
      than it leaves out. */
  lemma FlattenLast(rings: seq<seq<Pt3>>, len: nat, before: seq<Pt3>)
    requires |rings| >= 1 && Uniform(rings, len)
    requires before == Flatten(rings[..|rings| - 1])
    ensures before + rings[|rings| - 1] == Flatten(rings)
    ensures |Flatten(rings)| - len == (|rings| - 1) * len
  {
    assert rings[..|rings|] == rings;
    FlattenPush(rings, |rings| - 1);
    FlattenLength(rings, len, |rings|);
  }

  /** A stack of n uniform rings has n * len points. */
  lemma {:induction false} FlattenLength(rings: seq<seq<Pt3>>, len: nat, count: nat)
    requires Uniform(rings, len) && |rings| == count
    ensures |Flatten(rings)| == count * len
  {
    if |rings| > 0 {
      var n := |rings| - 1;
      FlattenLength(rings[..n], len, n);
      assert |Flatten(rings)| == n * len + len;
    }
  }

  /** Ring k of a uniform stack occupies points k * len up to
      (k + 1) * len. */
  lemma {:induction false} FlattenSlice(rings: seq<seq<Pt3>>, len: nat, k: nat)
    requires Uniform(rings, len) && k < |rings|
    ensures k * len + len <= |Flatten(rings)|
    ensures Flatten(rings)[k * len .. k * len + len] == rings[k]
  {
    var n := |rings| - 1;
    var front := rings[..n];
    if k == n {
      FlattenLength(front, len, n);
    } else {
      FlattenSlice(front, len, k);
      assert front[k] == rings[k];
    }
  }

  // ---------------------------------------------------------------------------
  // rotate_extrude
  // ---------------------------------------------------------------------------

  /** The profile placed in the xz plane. */
  function XzProfile(profile: seq<P2.Pt2>): (r: seq<Pt3>)
    ensures |r| == |profile|
  {
    seq(|profile|, i requires 0 <= i < |profile| => P2.ToXz(profile[i]))
  }

  /** One ring of `rotate_extrude`: the x coordinate swung by `degrees`
      around the z axis. */
  function RevolvedRing(t: Trig, xz: seq<Pt3>, degrees: real): (r: seq<Pt3>)
    ensures |r| == |xz|
  {
    var s := t.dsin(degrees);
    var c := t.dcos(degrees);
    seq(|xz|, p requires 0 <= p < |xz| => Pt3(xz[p].x * c, xz[p].x * s, xz[p].z))
  }

  /** Each ring is the profile rotated about the z axis, since the profile
      has y = 0. */
  lemma RevolvedRingIsRotation(t: Trig, profile: seq<P2.Pt2>, degrees: real)
    ensures forall p :: 0 <= p < |profile| ==>
      RevolvedRing(t, XzProfile(profile), degrees)[p] == RotatedZ(t, P2.ToXz(profile[p]), degrees)
  {
  }

  /** Ring k of `rotate_extrude`: ring 0 is the profile itself, ring k the
      profile swung by k times the step angle `a`. */
  function RevolutionRing(t: Trig, xz: seq<Pt3>, a: real, k: nat): (r: seq<Pt3>)
    ensures |r| == |xz|
  {
    if k == 0 then xz else RevolvedRing(t, xz, a * k as real)
  }

  /** The rings of `rotate_extrude`. */
  function RevolutionRings(t: Trig, xz: seq<Pt3>, a: real, count: nat): (r: seq<seq<Pt3>>)
    ensures |r| == count
    ensures Uniform(r, |xz|)
  {
    seq(count, k requires 0 <= k < count => RevolutionRing(t, xz, a, k))
  }

  /** Adding ring k to the first k rings appends its points. */
  lemma RevolutionRingsPush(t: Trig, xz: seq<Pt3>, a: real, k: nat)
    ensures Flatten(RevolutionRings(t, xz, a, k + 1)) == Flatten(RevolutionRings(t, xz, a, k)) + RevolutionRing(t, xz, a, k)
  {
    assert RevolutionRings(t, xz, a, k + 1)[..k] == RevolutionRings(t, xz, a, k);
  }

  /** The polyhedron `rotate_extrude` assembles from the profile `xz`, the
      step angle `a`, and its start and end caps: `count` rings, the start
      cap, the bands between consecutive rings, then either the end cap on
      the last ring (partial turn) or the band closing the last ring back
      onto ring 0 (full turn). */
  function Revolution(t: Trig, xz: seq<Pt3>, a: real, segments: nat, closed: bool, start: seq<nat>, endCap: seq<nat>): Polyhedron
    requires segments >= 1
  {
    var len := |xz|;
    var count := if closed then segments else segments + 1;
    Polyhedron(
      Flatten(RevolutionRings(t, xz, a, count)),
      Mesh.Triples(start, 0) + Strips(len, count)
        + (if closed then Band((segments - 1) * len, 0, len) else Mesh.Triples(endCap, segments * len)))
  }

  /** `rotate_extrude`, given the start cap (the triangulation of the
      profile in the xz plane, seen along -y) and the end cap (its reversed
      triangulation): None where the source's assertions or its start-cap
      triangulation panic. A full turn has no caps. */
  function RotateExtrusion(t: Trig, profile: seq<P2.Pt2>, degrees: real, segments: nat,
                           startCap: Option<seq<nat>>, endCap: seq<nat>): Option<Polyhedron>
  {
    if !(0.0 <= degrees <= 360.0) || segments < 3 then None
    else if degrees == 360.0 then
      Some(Revolution(t, XzProfile(profile), degrees / segments as real, segments, true, [], endCap))
    else if startCap.None? then None
    else Some(Revolution(t, XzProfile(profile), degrees / segments as real, segments, false, startCap.value, endCap))
  }

  /** The loop over segments 1 .. segments - 1 of `rotate_extrude`: each
      swung ring and the band joining it to the ring before. */
  method SwingRings(t: Trig, xz: seq<Pt3>, a: real, segments: nat, faces0: seq<seq<nat>>)
    returns (points: seq<Pt3>, faces: seq<seq<nat>>)
    requires segments >= 1
    ensures points == Flatten(RevolutionRings(t, xz, a, segments))
    ensures faces == faces0 + Strips(|xz|, segments)
  {
    var len := |xz|;
    points, faces := xz, faces0;
    RevolutionRingsPush(t, xz, a, 0);
    for segment := 1 to segments
      invariant points == Flatten(RevolutionRings(t, xz, a, segment))
      invariant faces == faces0 + Strips(len, segment)
    {
      RevolutionRingsPush(t, xz, a, segment);
      points, faces := ExtrudeRing(points, faces, RevolvedRing(t, xz, a * segment as real), (segment - 1) * len, segment * len);
    }
  }

  /** The end of a partial turn: the ring at the full angle, the band
      joining it to the ring before, and the end cap on it. */
  method FinishPartialTurn(t: Trig, xz: seq<Pt3>, a: real, segments: nat, start: seq<nat>, endCap: seq<nat>,
                           points: seq<Pt3>, faces: seq<seq<nat>>)
    returns (poly: Polyhedron)
    requires segments >= 1 && |endCap| % 3 == 0
    requires points == Flatten(RevolutionRings(t, xz, a, segments))
    requires faces == Mesh.Triples(start, 0) + Strips(|xz|, segments)
    ensures poly == Revolution(t, xz, a, segments, false, start, endCap)
  {
    var len := |xz|;
    RevolutionRingsPush(t, xz, a, segments);
    var points', faces' := ExtrudeRing(points, faces, RevolvedRing(t, xz, a * segments as real), (segments - 1) * len, segments * len);
    assert Strips(len, segments + 1) == Strips(len, segments) + Band((segments - 1) * len, segments * len, len);
    faces' := Mesh.AppendTriples(faces', endCap, segments * len);
    return Polyhedron(points', faces');
  }

  /** The end of a full turn: the band closing the last ring onto ring 0. */
  method FinishFullTurn(t: Trig, xz: seq<Pt3>, a: real, segments: nat, endCap: seq<nat>,
                        points: seq<Pt3>, faces: seq<seq<nat>>)
    returns (poly: Polyhedron)
    requires segments >= 1
    requires points == Flatten(RevolutionRings(t, xz, a, segments))
    requires faces == Strips(|xz|, segments)
    ensures poly == Revolution(t, xz, a, segments, true, [], endCap)
  {
    var len := |xz|;
    var faces' := AppendBand(faces, (segments - 1) * len, 0, len);
    assert Mesh.Triples([], 0) == [];
    return Polyhedron(points, faces');
  }

  /** `rotate_extrude`. */
  method RotateExtrude(t: Trig, profile: seq<P2.Pt2>, degrees: real, segments: nat, endCap: seq<nat>)
    returns (r: Option<Polyhedron>)
    requires |endCap| % 3 == 0
    ensures r == RotateExtrusion(t, profile, degrees, segments, T.Triangulation3d(XzProfile(profile), Pt3(0.0, -1.0, 0.0)), endCap)
  {
    if !(degrees >= 0.0 && degrees <= 360.0) || segments < 3 {
      return None;
    }
    var notClosed := degrees != 360.0;
    var xz := XzProfile(profile);
    var a := degrees / segments as real;
    var start: seq<nat> := [];
    if notClosed {
      var triangles := T.Triangulate3d(xz, Pt3(0.0, -1.0, 0.0));
      if triangles.None? {
        return None;
      }
      T.Triangulation3dIndices(xz, Pt3(0.0, -1.0, 0.0));
      start := triangles.value;
    }
    var faces := Mesh.AppendTriples([], start, 0);
    var points;
    points, faces := SwingRings(t, xz, a, segments, faces);
    var poly;
    if notClosed {
      poly := FinishPartialTurn(t, xz, a, segments, start, endCap, points, faces);
    } else {
      poly := FinishFullTurn(t, xz, a, segments, endCap, points, faces);
    }
    return Some(poly);
  }

  /** Looking along -y, `triangulate3d` projects a profile placed in the xz
      plane back onto the profile itself, so the start cap is the profile's
      2D triangulation. */
  lemma StartCapIsProfileTriangulation(profile: seq<P2.Pt2>)
    ensures T.Triangulation3d(XzProfile(profile), Pt3(0.0, -1.0, 0.0)) == T.Triangulation2d(profile)
  {
    var xz := XzProfile(profile);
    assert T.DominantAxis(Pt3(0.0, -1.0, 0.0)) == T.NY;
    assert T.Tag3d(xz, T.NY) == T.Tag2d(profile);
  }

  /** `rotate_extrude` builds a polyhedron exactly when the angle lies in
      [0, 360], there are at least three segments, and either the sweep is
      a full turn or the profile has a 2D triangulation. */
  lemma RotateExtrusionDefined(t: Trig, profile: seq<P2.Pt2>, degrees: real, segments: nat, endCap: seq<nat>)
    ensures RotateExtrusion(t, profile, degrees, segments, T.Triangulation3d(XzProfile(profile), Pt3(0.0, -1.0, 0.0)), endCap).Some?
      <==> 0.0 <= degrees <= 360.0 && segments >= 3 && (degrees == 360.0 || T.Triangulation2d(profile).Some?)
  {
    StartCapIsProfileTriangulation(profile);
  }

  /** A revolution has `count` rings of |xz| points. */
  lemma RevolutionSize(t: Trig, xz: seq<Pt3>, a: real, segments: nat, closed: bool, start: seq<nat>, endCap: seq<nat>)
    requires segments >= 1
    ensures |Revolution(t, xz, a, segments, closed, start, endCap).points| == (if closed then segments else segments + 1) * |xz|
  {
    FlattenLength(RevolutionRings(t, xz, a, if closed then segments else segments + 1), |xz|, if closed then segments else segments + 1);
  }

  /** Ring k of a revolution, from 1 on, is the profile swung by k * a:
      the `len` points from k * len on, where len = |xz|. */
  lemma RevolutionRingAt(t: Trig, xz: seq<Pt3>, a: real, segments: nat, closed: bool, start: seq<nat>, endCap: seq<nat>,
                         len: nat, k: nat)
    requires segments >= 1 && 1 <= k < (if closed then segments else segments + 1) && len == |xz|
    ensures var points := Revolution(t, xz, a, segments, closed, start, endCap).points;
      k * len + len <= |points| && points[k * len .. k * len + len] == RevolutionRing(t, xz, a, k)
  {
    FlattenSlice(RevolutionRings(t, xz, a, if closed then segments else segments + 1), len, k);
  }

  /** Every face of a revolution refers to an existing point when both caps
      refer to points of the profile. */
  lemma RevolutionIndexed(t: Trig, xz: seq<Pt3>, a: real, segments: nat, closed: bool, start: seq<nat>, endCap: seq<nat>)
    requires segments >= 1
    requires Mesh.FlatBelow(start, |xz|) && Mesh.FlatBelow(endCap, |xz|)
    ensures WellIndexed(Revolution(t, xz, a, segments, closed, start, endCap))
  {
    var len := |xz|;
    var count := if closed then segments else segments + 1;
    var poly := Revolution(t, xz, a, segments, closed, start, endCap);
    RevolutionSize(t, xz, a, segments, closed, start, endCap);
    var total := count * len;
    StripsBelow(len, count);
    Mesh.TriplesBelow(start, 0, len);
    assert len <= total;
    Mesh.IndicesBelowAppend(Mesh.Triples(start, 0), [], len, total);
    Mesh.IndicesBelowAppend(Mesh.Triples(start, 0), Strips(len, count), total, total);
    if closed {
      assert (segments - 1) * len + len == total;
      BandBelow((segments - 1) * len, 0, len, total);
      Mesh.IndicesBelowAppend(Mesh.Triples(start, 0) + Strips(len, count), Band((segments - 1) * len, 0, len), total, total);
    } else {
      assert segments * len + len == total;
      Mesh.TriplesBelow(endCap, segments * len, len);
      Mesh.IndicesBelowAppend(Mesh.Triples(start, 0) + Strips(len, count), Mesh.Triples(endCap, segments * len), total, total);
    }
  }

  /** The points `rotate_extrude` produces: one ring of |profile| points
      per segment, one more for a partial turn. */
  lemma RotateExtrusionSize(t: Trig, profile: seq<P2.Pt2>, degrees: real, segments: nat,
                            startCap: Option<seq<nat>>, endCap: seq<nat>)
    requires RotateExtrusion(t, profile, degrees, segments, startCap, endCap).Some?
    ensures |RotateExtrusion(t, profile, degrees, segments, startCap, endCap).value.points|
            == (if degrees == 360.0 then segments else segments + 1) * |profile|
  {
    if degrees == 360.0 {
      RevolutionSize(t, XzProfile(profile), degrees / segments as real, segments, true, [], endCap);
    } else {
      RevolutionSize(t, XzProfile(profile), degrees / segments as real, segments, false, startCap.value, endCap);
    }
  }

  /** Ring k (from 1 on) of the points `rotate_extrude` produces is the
      profile swung about z by k * degrees / segments. */
  lemma RotateExtrusionRing(t: Trig, profile: seq<P2.Pt2>, degrees: real, segments: nat,
                            startCap: Option<seq<nat>>, endCap: seq<nat>, k: nat)
    requires RotateExtrusion(t, profile, degrees, segments, startCap, endCap).Some?
    requires 1 <= k < (if degrees == 360.0 then segments else segments + 1)
    ensures var points := RotateExtrusion(t, profile, degrees, segments, startCap, endCap).value.points;
      k * |profile| + |profile| <= |points| &&
      points[k * |profile| .. k * |profile| + |profile|] == RevolutionRing(t, XzProfile(profile), degrees / segments as real, k)
  {
    if degrees == 360.0 {
      RevolutionRingAt(t, XzProfile(profile), degrees / segments as real, segments, true, [], endCap, |profile|, k);
    } else {
      RevolutionRingAt(t, XzProfile(profile), degrees / segments as real, segments, false, startCap.value, endCap, |profile|, k);
    }
  }

  /** Every face `rotate_extrude` produces refers to an existing point,
      provided the end cap refers to points of the profile. */
  lemma RotateExtrudeIndexed(t: Trig, profile: seq<P2.Pt2>, degrees: real, segments: nat, endCap: seq<nat>)
    requires RotateExtrusion(t, profile, degrees, segments, T.Triangulation3d(XzProfile(profile), Pt3(0.0, -1.0, 0.0)), endCap).Some?
    requires Mesh.FlatBelow(endCap, |profile|)
    ensures WellIndexed(RotateExtrusion(t, profile, degrees, segments, T.Triangulation3d(XzProfile(profile), Pt3(0.0, -1.0, 0.0)), endCap).value)
  {
    var xz := XzProfile(profile);
    var closed := degrees == 360.0;
    var start := if closed then [] else T.Triangulation3d(xz, Pt3(0.0, -1.0, 0.0)).value;
    T.Triangulation3dIndices(xz, Pt3(0.0, -1.0, 0.0));
    RevolutionIndexed(t, xz, degrees / segments as real, segments, closed, start, endCap);
  }

  // ---------------------------------------------------------------------------
  // sweep
  // ---------------------------------------------------------------------------

  /** The twist added from one ring of a sweep to the next: spread over n
      steps when the path is closed, over n - 1 when it is open. */
  function TwistStep(twist: real, n: nat, closed: bool): (r: real)
    requires n >= 2
    ensures closed ==> r * n as real == twist
    ensures !closed ==> r * (n - 1) as real == twist
  {
    if closed then twist / n as real else twist / (n - 1) as real
  }

  /** The up direction every sweep frame uses. */
  const Up := Pt3(0.0, 0.0, 1.0)

  /** The frame of ring k: a look-at matrix from the path point before k to
      the one after it; the first ring looks from path[0] (open) or the last
      point (closed) to path[1], and the last ring from path[n - 2] to the
      last point (open) or to path[0] (closed). */
  function Frame(t: Trig, path: seq<Pt3>, closed: bool, k: nat): M.Mt4
    requires |path| >= 2 && k < |path|
  {
    var n := |path|;
    if k == 0 then
      (if closed then M.LookAtMatrixLh(t, path[n - 1], path[1], Up) else M.LookAtMatrixLh(t, path[0], path[1], Up))
    else if k < n - 1 then M.LookAtMatrixLh(t, path[k - 1], path[k + 1], Up)
    else M.LookAtMatrixLh(t, path[n - 2], if closed then path[0] else path[n - 1], Up)
  }

  /** The profile point `q` placed by ring k's frame, with homogeneous
      coordinate w, and moved to path[k]. */
  function Place(m: M.Mt4, q: Pt3, w: real, at: Pt3): Pt3
  {
    Add(P4.AsPt3(M.MulPt4(m, P4.AsPt4(q, w))), at)
  }

  /** Profile point i as ring k carries it before placing: untouched on the
      first ring, turned about z by k twist steps on the others. */
  function Twisted(t: Trig, prof: seq<Pt3>, path: seq<Pt3>, twist: real, closed: bool, k: nat, i: nat): Pt3
    requires |path| >= 2 && i < |prof|
  {
    if k == 0 then prof[i] else RotatedZ(t, prof[i], TwistStep(twist, |path|, closed) * k as real)
  }

  /** The points `qs` placed one after another by the frame `m`, with
      homogeneous coordinate w, and moved to `at`. */
  function PlacedPoints(m: M.Mt4, qs: seq<Pt3>, w: real, at: Pt3): (r: seq<Pt3>)
    ensures |r| == |qs|
  {
    if |qs| == 0 then [] else PlacedPoints(m, qs[..|qs| - 1], w, at) + [Place(m, qs[|qs| - 1], w, at)]
  }

  /** Point i of the placed points is `qs[i]` placed. */
  lemma {:induction false} PlacedPointsAt(m: M.Mt4, qs: seq<Pt3>, w: real, at: Pt3, i: nat)
    requires i < |qs|
    ensures PlacedPoints(m, qs, w, at)[i] == Place(m, qs[i], w, at)
  {
    var n := |qs|;
    if i < n - 1 {
      PlacedPointsAt(m, qs[..n - 1], w, at, i);
    }
  }

  /** The profile as ring k carries it before placing. */
  function TwistedProfile(t: Trig, prof: seq<Pt3>, path: seq<Pt3>, twist: real, closed: bool, k: nat): (r: seq<Pt3>)
    requires |path| >= 2
    ensures |r| == |prof|
  {
    seq(|prof|, i requires 0 <= i < |prof| => Twisted(t, prof, path, twist, closed, k, i))
  }

  /** Ring k of a sweep: every profile point placed by the frame of ring k
      (the first ring with w = 1, the others with w = 0). */
  function SweepRing(t: Trig, prof: seq<Pt3>, path: seq<Pt3>, twist: real, closed: bool, k: nat): (r: seq<Pt3>)
    requires |path| >= 2 && k < |path|
    ensures |r| == |prof|
  {
    PlacedPoints(Frame(t, path, closed, k), TwistedProfile(t, prof, path, twist, closed, k),
                 if k == 0 then 1.0 else 0.0, path[k])
  }

  /** Point i of ring k is profile point i, twisted, placed by the ring's
      frame and moved to path[k]. */
  lemma SweepRingAt(t: Trig, prof: seq<Pt3>, path: seq<Pt3>, twist: real, closed: bool, k: nat, i: nat)
    requires |path| >= 2 && k < |path| && i < |prof|
    ensures SweepRing(t, prof, path, twist, closed, k)[i]
            == Place(Frame(t, path, closed, k), Twisted(t, prof, path, twist, closed, k, i), if k == 0 then 1.0 else 0.0, path[k])
  {
    PlacedPointsAt(Frame(t, path, closed, k), TwistedProfile(t, prof, path, twist, closed, k),
                   if k == 0 then 1.0 else 0.0, path[k], i);
  }

  /** The rings of a sweep, one per path point. */
  function SweepRings(t: Trig, prof: seq<Pt3>, path: seq<Pt3>, twist: real, closed: bool): (r: seq<seq<Pt3>>)
    requires |path| >= 2
    ensures |r| == |path|
    ensures Uniform(r, |prof|)
  {
    seq(|path|, k requires 0 <= k < |path| => SweepRing(t, prof, path, twist, closed, k))
  }

  /** Adding ring k to the first k rings appends its points. */
  lemma SweepRingsPush(t: Trig, prof: seq<Pt3>, path: seq<Pt3>, twist: real, closed: bool, k: nat)
    requires |path| >= 2 && k < |path|
    ensures Flatten(SweepRings(t, prof, path, twist, closed)[..k + 1])
            == Flatten(SweepRings(t, prof, path, twist, closed)[..k]) + SweepRing(t, prof, path, twist, closed, k)
  {
    FlattenPush(SweepRings(t, prof, path, twist, closed), k);
  }

  /** `sweep`, given the start cap (the reversed triangulation of the
      profile) and the end cap (the triangulation of the last ring): an
      open sweep has the start cap, a band between consecutive rings and the
      end cap on the last ring; a closed one has the bands and the band
      joining the last ring back to the first. None where the end-cap
      triangulation panics. */
  function Sweeping(t: Trig, profile: seq<P2.Pt2>, path: seq<Pt3>, twist: real, closed: bool,
                    startCap: seq<nat>, endCap: Option<seq<nat>>): Option<Polyhedron>
    requires |path| >= 2
  {
    var prof := Lifted(profile, 0.0);
    var len := |prof|;
    var n := |path|;
    var points := Flatten(SweepRings(t, prof, path, twist, closed));
    if closed then Some(Polyhedron(points, Strips(len, n) + Band((n - 1) * len, 0, len)))
    else if endCap.None? then None
    else Some(Polyhedron(points, Mesh.Triples(startCap, 0) + Strips(len, n) + Mesh.Triples(endCap.value, (n - 1) * len)))
  }

  /** The first ring of a sweep (no faces yet). */
  method FirstSweepRing(t: Trig, prof: seq<Pt3>, path: seq<Pt3>, twist: real, closed: bool) returns (points: seq<Pt3>)
    requires |path| >= 2
    ensures points == SweepRing(t, prof, path, twist, closed, 0)
  {
    var n := |path|;
    var m := if closed then M.LookAtMatrixLh(t, path[n - 1], path[1], Up) else M.LookAtMatrixLh(t, path[0], path[1], Up);
    points := [];
    for i := 0 to |prof|
      invariant points == PlacedPoints(m, prof[..i], 1.0, path[0])
    {
      assert prof[..i + 1][..i] == prof[..i];
      points := points + [Add(P4.AsPt3(M.MulPt4(m, P4.AsPt4(prof[i], 1.0))), path[0])];
    }
    assert prof[..|prof|] == prof == TwistedProfile(t, prof, path, twist, closed, 0);
  }

  /** The rings 1 .. n - 2 of a sweep, each with the band joining it to the
      ring before. */
  method SweepMiddle(t: Trig, prof: seq<Pt3>, path: seq<Pt3>, twist: real, closed: bool,
                     points0: seq<Pt3>, faces0: seq<seq<nat>>)
    returns (points: seq<Pt3>, faces: seq<seq<nat>>)
    requires |path| >= 2
    requires points0 == Flatten(SweepRings(t, prof, path, twist, closed)[..1])
    ensures points == Flatten(SweepRings(t, prof, path, twist, closed)[..|path| - 1])
    ensures faces == faces0 + Strips(|prof|, |path| - 1)
  {
    var len := |prof|;
    ghost var rings := SweepRings(t, prof, path, twist, closed);
    points, faces := points0, faces0;
    for k := 1 to |path| - 1
      invariant points == Flatten(rings[..k])
      invariant faces == faces0 + Strips(len, k)
    {
      FlattenPush(rings, k);
      StripsPush(len, k);
      T.AppendAssociative(faces0, Strips(len, k), Band((k - 1) * len, k * len, len));
      points, faces := ExtrudeRing(points, faces, SweepRing(t, prof, path, twist, closed, k), (k - 1) * len, k * len);
    }
  }

  /** All rings of a sweep and the bands between consecutive rings, after
      the faces `faces0` (the start cap of an open sweep). */
  method SweepRingsAndBands(t: Trig, prof: seq<Pt3>, path: seq<Pt3>, twist: real, closed: bool, faces0: seq<seq<nat>>)
    returns (points: seq<Pt3>, faces: seq<seq<nat>>)
    requires |path| >= 2
    ensures points == Flatten(SweepRings(t, prof, path, twist, closed))
    ensures faces == faces0 + Strips(|prof|, |path|)
    ensures |points| - |prof| == (|path| - 1) * |prof|
  {
    var len := |prof|;
    var k := |path| - 1;
    ghost var rings := SweepRings(t, prof, path, twist, closed);
    points := FirstSweepRing(t, prof, path, twist, closed);
    FlattenFirst(rings);
    points, faces := SweepMiddle(t, prof, path, twist, closed, points, faces0);
    ghost var before := points;
    var lastPoints := SweepRing(t, prof, path, twist, closed, k);
    points, faces := ExtrudeRing(points, faces, lastPoints, (k - 1) * len, k * len);
    FlattenLast(rings, len, before);
    StripsPush(len, k);
    T.AppendAssociative(faces0, Strips(len, k), Band((k - 1) * len, k * len, len));
  }

  /** The end cap of a sweep: the triangulation of its last ring, seen
      along the path's last step. */
  function EndCap(t: Trig, profile: seq<P2.Pt2>, path: seq<Pt3>, twist: real, closed: bool): Option<seq<nat>>
    requires |path| >= 2
  {
    T.Triangulation3d(LastRing(t, profile, path, twist, closed), LastStep(path))
  }

  /** The last ring of a sweep, one point per profile point. */
  function LastRing(t: Trig, profile: seq<P2.Pt2>, path: seq<Pt3>, twist: real, closed: bool): (r: seq<Pt3>)
    requires |path| >= 2
    ensures |r| == |profile|
  {
    SweepRing(t, Lifted(profile, 0.0), path, twist, closed, |path| - 1)
  }

  /** The path's last step, the direction the end cap is seen along. */
  function LastStep(path: seq<Pt3>): Pt3
    requires |path| >= 2
  {
    Sub(path[|path| - 1], path[|path| - 2])
  }

  /** `sweep`. */
  method Sweep(t: Trig, profile: seq<P2.Pt2>, path: seq<Pt3>, twist: real, closed: bool, startCap: seq<nat>)
    returns (r: Option<Polyhedron>)
    requires |path| >= 2 && |startCap| % 3 == 0
    ensures r == Sweeping(t, profile, path, twist, closed, startCap, EndCap(t, profile, path, twist, closed))
  {
    var prof := Lifted(profile, 0.0);
    var len := |profile|;
    var n := |path|;
    var faces: seq<seq<nat>> := [];
    if !closed {
      faces := Mesh.AppendTriples(faces, startCap, 0);
    }
    ghost var caps := faces;
    var points;
    points, faces := SweepRingsAndBands(t, prof, path, twist, closed, faces);
    ghost var endCap := EndCap(t, profile, path, twist, closed);
    if !closed {
      r := SweepEnd(t, profile, path, twist, points, faces);
      SweepingOpen(t, profile, path, twist, closed, startCap, endCap, points, caps, faces, |points| - len);
    } else {
      ghost var bands := faces;
      faces := AppendBand(faces, (n - 1) * len, 0, len);
      SweepingClosed(t, profile, path, twist, closed, startCap, endCap, points, bands, faces);
      r := Some(Polyhedron(points, faces));
    }
  }

  /** The end of an open sweep: the end cap (the triangulation of the last
      ring) shifted onto the last ring's points, or None where the
      triangulation panics. */
  method SweepEnd(t: Trig, profile: seq<P2.Pt2>, path: seq<Pt3>, twist: real, points: seq<Pt3>, bands: seq<seq<nat>>)
    returns (r: Option<Polyhedron>)
    requires |path| >= 2 && |points| >= |profile|
    ensures var cap := EndCap(t, profile, path, twist, false);
      r == if cap.None? then None else Some(Polyhedron(points, bands + Mesh.Triples(cap.value, |points| - |profile|)))
  {
    var lastPoints := LastRing(t, profile, path, twist, false);
    var indices := T.Triangulate3d(lastPoints, LastStep(path));
    if indices.None? {
      return None;
    }
    T.Triangulation3dIndices(lastPoints, LastStep(path));
    var faces := Mesh.AppendTriples(bands, indices.value, |points| - |profile|);
    r := Some(Polyhedron(points, faces));
  }

  /** An open sweep is the polyhedron of its rings with the start cap, the
      bands and the end cap on the last ring, or None without an end cap. */
  lemma SweepingOpen(t: Trig, profile: seq<P2.Pt2>, path: seq<Pt3>, twist: real, closed: bool,
                     startCap: seq<nat>, endCap: Option<seq<nat>>, points: seq<Pt3>,
                     caps: seq<seq<nat>>, bands: seq<seq<nat>>, lastRing: nat)
    requires |path| >= 2 && !closed
    requires points == Flatten(SweepRings(t, Lifted(profile, 0.0), path, twist, closed))
    requires caps == [] + Mesh.Triples(startCap, 0)
    requires bands == caps + Strips(|Lifted(profile, 0.0)|, |path|)
    requires lastRing == (|path| - 1) * |profile|
    ensures Sweeping(t, profile, path, twist, closed, startCap, endCap)
            == if endCap.None? then None else Some(Polyhedron(points, bands + Mesh.Triples(endCap.value, lastRing)))
  {
    assert [] + Mesh.Triples(startCap, 0) == Mesh.Triples(startCap, 0);
  }

  /** A closed sweep is the polyhedron of its rings with the bands and the
      band from the last ring back to the first. */
  lemma SweepingClosed(t: Trig, profile: seq<P2.Pt2>, path: seq<Pt3>, twist: real, closed: bool,
                       startCap: seq<nat>, endCap: Option<seq<nat>>, points: seq<Pt3>,
                       bands: seq<seq<nat>>, faces: seq<seq<nat>>)
    requires |path| >= 2 && closed
    requires points == Flatten(SweepRings(t, Lifted(profile, 0.0), path, twist, closed))
    requires bands == [] + Strips(|Lifted(profile, 0.0)|, |path|)
    requires faces == bands + Band((|path| - 1) * |profile|, 0, |profile|)
    ensures Sweeping(t, profile, path, twist, closed, startCap, endCap) == Some(Polyhedron(points, faces))
  {
    assert [] + Strips(|profile|, |path|) == Strips(|profile|, |path|);
  }

  /** The points a sweep produces: one ring of |profile| points per path
      point, ring k being `SweepRing` k. */
  lemma SweepLayout(t: Trig, profile: seq<P2.Pt2>, path: seq<Pt3>, twist: real, closed: bool,
                    startCap: seq<nat>, endCap: Option<seq<nat>>, k: nat)
    requires |path| >= 2 && k < |path|
    requires Sweeping(t, profile, path, twist, closed, startCap, endCap).Some?
    ensures var points := Sweeping(t, profile, path, twist, closed, startCap, endCap).value.points;
      var len := |profile|;
      |points| == |path| * len && 0 <= k * len && k * len + len <= |points| &&
      points[k * len .. k * len + len] == SweepRing(t, Lifted(profile, 0.0), path, twist, closed, k)
  {
    RingStartNat(k, |profile|);
    var rings := SweepRings(t, Lifted(profile, 0.0), path, twist, closed);
    FlattenLength(rings, |profile|, |path|);
    FlattenSlice(rings, |profile|, k);
  }

  /** Ring k starts at a point index. */
  lemma RingStartNat(k: nat, len: nat)
    ensures 0 <= k * len
  {
  }

  /** Every face of a sweep refers to an existing point when both caps
      refer to points of the profile. */
  lemma SweepIndexed(t: Trig, profile: seq<P2.Pt2>, path: seq<Pt3>, twist: real, closed: bool,
                     startCap: seq<nat>, endCap: Option<seq<nat>>)
    requires |path| >= 2
    requires Sweeping(t, profile, path, twist, closed, startCap, endCap).Some?
    requires Mesh.FlatBelow(startCap, |profile|)
    requires endCap.Some? ==> Mesh.FlatBelow(endCap.value, |profile|)
    ensures WellIndexed(Sweeping(t, profile, path, twist, closed, startCap, endCap).value)
  {
    var len := |profile|;
    var n := |path|;
    var poly := Sweeping(t, profile, path, twist, closed, startCap, endCap).value;
    FlattenLength(SweepRings(t, Lifted(profile, 0.0), path, twist, closed), len, n);
    var total := n * len;
    assert |poly.points| == total;
    assert (n - 1) * len + len == total;
    StripsBelow(len, n);
    if closed {
      BandBelow((n - 1) * len, 0, len, total);
      Mesh.IndicesBelowAppend(Strips(len, n), Band((n - 1) * len, 0, len), total, total);
    } else {
      Mesh.TriplesBelow(startCap, 0, len);
      Mesh.TriplesBelow(endCap.value, (n - 1) * len, len);
      Mesh.IndicesBelowAppend(Mesh.Triples(startCap, 0), [], len, total);
      Mesh.IndicesBelowAppend(Mesh.Triples(startCap, 0), Strips(len, n), total, total);
      Mesh.IndicesBelowAppend(Mesh.Triples(startCap, 0) + Strips(len, n), Mesh.Triples(endCap.value, (n - 1) * len), total, total);
    }
  }

  /** Every face of the polyhedron `sweep` builds refers to an existing
      point, provided the start cap refers to points of the profile. */
  lemma SweepBuiltIndexed(t: Trig, profile: seq<P2.Pt2>, path: seq<Pt3>, twist: real, closed: bool, startCap: seq<nat>)
    requires |path| >= 2
    requires Mesh.FlatBelow(startCap, |profile|)
    ensures var endCap := EndCap(t, profile, path, twist, closed);
      Sweeping(t, profile, path, twist, closed, startCap, endCap).Some? ==>
        WellIndexed(Sweeping(t, profile, path, twist, closed, startCap, endCap).value)
  {
    var endCap := EndCap(t, profile, path, twist, closed);
    EndCapIndices(t, profile, path, twist, closed);
    if Sweeping(t, profile, path, twist, closed, startCap, endCap).Some? {
      SweepIndexed(t, profile, path, twist, closed, startCap, endCap);
    }
  }

  /** The end cap refers to points of the last ring only. */
  lemma EndCapIndices(t: Trig, profile: seq<P2.Pt2>, path: seq<Pt3>, twist: real, closed: bool)
    requires |path| >= 2
    ensures var endCap := EndCap(t, profile, path, twist, closed);
      endCap.Some? ==> Mesh.FlatBelow(endCap.value, |profile|)
  {
    T.Triangulation3dIndices(LastRing(t, profile, path, twist, closed), LastStep(path));
  }

  /** Where a frame's w row carries no translation, placing a point with
      z = 0 puts it at `at` plus x times the frame's x row plus y times its
      y row, whatever w is; the product as written gives the same point. */
  lemma PlaceInFramePlane(m: M.Mt4, q: Pt3, w: real, at: Pt3)
    requires m.w.x == 0.0 && m.w.y == 0.0 && m.w.z == 0.0 && q.z == 0.0
    ensures Place(m, q, w, at) == Add(at, Add(Scale(P4.AsPt3(m.x), q.x), Scale(P4.AsPt3(m.y), q.y)))
    ensures Place(m, q, w, at) == Add(P4.AsPt3(M.MulPt4AsWritten(m, P4.AsPt4(q, w))), at)
  {
    M.MulPt4Agrees(m, P4.AsPt4(q, w));
  }

  /** Each point of ring k lies in the plane through path[k] spanned by the
      x and y rows of the ring's look-at frame, at the (twisted) profile
      coordinates; the product as written places it identically. */
  lemma SweepPointPlacement(t: Trig, profile: seq<P2.Pt2>, path: seq<Pt3>, twist: real, closed: bool, k: nat, i: nat)
    requires |path| >= 2 && k < |path| && i < |profile|
    ensures var prof := Lifted(profile, 0.0);
      var m := Frame(t, path, closed, k);
      var q := Twisted(t, prof, path, twist, closed, k, i);
      q.z == 0.0 &&
      SweepRing(t, prof, path, twist, closed, k)[i] == Add(path[k], Add(Scale(P4.AsPt3(m.x), q.x), Scale(P4.AsPt3(m.y), q.y))) &&
      SweepRing(t, prof, path, twist, closed, k)[i]
        == Add(P4.AsPt3(M.MulPt4AsWritten(m, P4.AsPt4(q, if k == 0 then 1.0 else 0.0))), path[k])
  {
    var prof := Lifted(profile, 0.0);
    var m := Frame(t, path, closed, k);
    var q := Twisted(t, prof, path, twist, closed, k, i);
    SweepRingAt(t, prof, path, twist, closed, k, i);
    assert m.w == P4.Pt4(0.0, 0.0, 0.0, 1.0);
    PlaceInFramePlane(m, q, if k == 0 then 1.0 else 0.0, path[k]);
  }

  /** The last ring of an open sweep is turned by the whole twist. */
  lemma SweepTwistTotal(t: Trig, prof: seq<Pt3>, path: seq<Pt3>, twist: real, i: nat)
    requires |path| >= 2 && i < |prof|
    ensures Twisted(t, prof, path, twist, false, |path| - 1, i) == RotatedZ(t, prof[i], twist)
  {
    TwistedLater(t, prof, path, twist, false, |path| - 1, i);
    SameTurn(t, prof[i], TwistStep(twist, |path|, false) * (|path| - 1) as real, twist);
  }

  /** Turning by equal angles gives the same point. */
  lemma SameTurn(t: Trig, p: Pt3, a: real, b: real)
    requires a == b
    ensures RotatedZ(t, p, a) == RotatedZ(t, p, b)
  {
  }

  /** Every ring after the first turns the profile by its number of twist
      steps. */
  lemma TwistedLater(t: Trig, prof: seq<Pt3>, path: seq<Pt3>, twist: real, closed: bool, k: nat, i: nat)
    requires |path| >= 2 && i < |prof| && k > 0
    ensures Twisted(t, prof, path, twist, closed, k, i) == RotatedZ(t, prof[i], TwistStep(twist, |path|, closed) * k as real)
  {
  }

  // ---------------------------------------------------------------------------
  // Bezier curves in space
  // ---------------------------------------------------------------------------

  /** The quadratic Bernstein blend at parameter u. */
  function QuadraticPoint(start: Pt3, control: Pt3, end: Pt3, u: real): Pt3
  {
    Add(Add(Scale(Scale(start, 1.0 - u), 1.0 - u), Scale(Scale(Scale(control, u), 1.0 - u), 2.0)),
        Scale(Scale(end, u), u))
  }

  /** The cubic Bernstein blend at parameter u. */
  function CubicPoint(start: Pt3, control1: Pt3, control2: Pt3, end: Pt3, u: real): Pt3
  {
    Add(Add(Add(Scale(Scale(Scale(start, 1.0 - u), 1.0 - u), 1.0 - u),
                Scale(Scale(Scale(Scale(control1, u), 1.0 - u), 1.0 - u), 3.0)),
            Scale(Scale(Scale(Scale(control2, u), u), 1.0 - u), 3.0)),
        Scale(Scale(Scale(end, u), u), u))
  }

  lemma ScaleByConstants(p: Pt3)
    ensures Scale(p, 1.0) == p && Scale(p, 0.0) == Origin
    ensures Scale(Origin, 1.0) == Origin && Scale(Origin, 0.0) == Origin
    ensures Scale(Origin, 2.0) == Origin && Scale(Origin, 3.0) == Origin
    ensures Add(p, Origin) == p && Add(Origin, p) == p && Add(Origin, Origin) == Origin
  {
  }

  /** The quadratic blend starts at `start` and stops at `end`. */
  lemma QuadraticEnds(start: Pt3, control: Pt3, end: Pt3)
    ensures QuadraticPoint(start, control, end, 0.0) == start
    ensures QuadraticPoint(start, control, end, 1.0) == end
  {
    ScaleByConstants(start);
    ScaleByConstants(control);
    ScaleByConstants(end);
  }

  /** The cubic blend starts at `start` and stops at `end`. */
  lemma CubicEnds(start: Pt3, control1: Pt3, control2: Pt3, end: Pt3)
    ensures CubicPoint(start, control1, control2, end, 0.0) == start
    ensures CubicPoint(start, control1, control2, end, 1.0) == end
  {
    ScaleByConstants(start);
    ScaleByConstants(control1);
    ScaleByConstants(control2);
    ScaleByConstants(end);
  }

  /** `quadratic_bezier`: segments + 1 samples from `start` to `end`. */
  method QuadraticBezier(start: Pt3, control: Pt3, end: Pt3, segments: nat) returns (r: seq<Pt3>)
    requires segments > 0
    ensures |r| == segments + 1
    ensures forall i :: 0 <= i < |r| ==> r[i] == QuadraticPoint(start, control, end, Dim2.Sample(segments, i))
    ensures r[0] == start && r[segments] == end
  {
    var delta := 1.0 / segments as real;
    r := [];
    for i := 0 to segments + 1
      invariant |r| == i
      invariant forall k :: 0 <= k < i ==> r[k] == QuadraticPoint(start, control, end, Dim2.Sample(segments, k))
    {
      var u := i as real * delta;
      assert u == Dim2.Sample(segments, i);
      r := r + [QuadraticPoint(start, control, end, u)];
    }
    Dim2.SampleEnds(segments);
    QuadraticEnds(start, control, end);
  }

  /** The samples of one cubic curve. */
  function CubicPoints(start: Pt3, control1: Pt3, control2: Pt3, end: Pt3, segments: nat): (r: seq<Pt3>)
    requires segments > 0
    ensures |r| == segments + 1
    ensures r[0] == start && r[segments] == end
  {
    var r := seq(segments + 1, i requires 0 <= i < segments + 1 =>
      CubicPoint(start, control1, control2, end, Dim2.Sample(segments, i)));
    Dim2.SampleEnds(segments);
    CubicEnds(start, control1, control2, end);
    assert r[0] == CubicPoint(start, control1, control2, end, 0.0);
    assert r[segments] == CubicPoint(start, control1, control2, end, 1.0);
    r
  }

  /** `cubic_bezier`: segments + 1 samples from `start` to `end`. */
  method CubicBezier(start: Pt3, control1: Pt3, control2: Pt3, end: Pt3, segments: nat) returns (r: seq<Pt3>)
    requires segments > 0
    ensures r == CubicPoints(start, control1, control2, end, segments)
  {
    var delta := 1.0 / segments as real;
    r := [];
    for i := 0 to segments + 1
      invariant |r| == i
      invariant forall k :: 0 <= k < i ==> r[k] == CubicPoint(start, control1, control2, end, Dim2.Sample(segments, k))
    {
      var u := i as real * delta;
      assert u == Dim2.Sample(segments, i);
      r := r + [CubicPoint(start, control1, control2, end, u)];
    }
  }

  // ---------------------------------------------------------------------------
  // Bezier chains in space
  // ---------------------------------------------------------------------------

  datatype CubicBezier3D = CubicBezier3D(start: Pt3, control1: Pt3, control2: Pt3, end: Pt3, segments: nat)

  /** Every curve after the first starts where the previous one ends. */
  predicate Continuous(curves: seq<CubicBezier3D>)
  {
    forall i :: 1 <= i < |curves| ==> curves[i].start == curves[i - 1].end
  }

  /** Every curve has at least one segment (the sampling divides by it). */
  predicate Sampled(curves: seq<CubicBezier3D>)
  {
    forall i :: 0 <= i < |curves| ==> curves[i].segments > 0
  }

  /** The total number of segments. */
  function SegmentCount(curves: seq<CubicBezier3D>): nat
  {
    if |curves| == 0 then 0 else SegmentCount(curves[..|curves| - 1]) + curves[|curves| - 1].segments
  }

  /** The first control point that continues the tangent of `last` at its
      end: on the line through its second control point and its end, at
      distance `length` past the end (with the environment's `unit3`). */
  function TangentControl(t: Trig, last: CubicBezier3D, length: real): (r: Pt3)
    ensures Sub(r, last.end) == Scale(Normalized(t, Sub(last.end, last.control2)), length)
  {
    Add(last.end, Scale(Normalized(t, Sub(last.end, last.control2)), length))
  }

  /** The curve `add` appends: it starts at the chain's end and continues its
      tangent. */
  function Extension(t: Trig, last: CubicBezier3D, control1Length: real, control2: Pt3, end: Pt3, segments: nat): CubicBezier3D
  {
    CubicBezier3D(last.end, TangentControl(t, last, control1Length), control2, end, segments)
  }

  /** The points `gen_points` collects before the final pop of a closed chain:
      each curve's samples with the previous last point dropped, starting from
      a placeholder that the first curve drops. */
  function Joined(curves: seq<CubicBezier3D>): (r: seq<Pt3>)
    requires Sampled(curves)
    ensures |r| == SegmentCount(curves) + 1
  {
    if |curves| == 0 then [Origin]
    else
      var c := curves[|curves| - 1];
      var prev := Joined(curves[..|curves| - 1]);
      prev[..|prev| - 1] + CubicPoints(c.start, c.control1, c.control2, c.end, c.segments)
  }

  /** The points of the first i + 1 curves: those of the first i without
      their last, then the samples of curve i. */
  lemma JoinedStep(curves: seq<CubicBezier3D>, i: nat)
    requires Sampled(curves) && i < |curves|
    ensures var prev := Joined(curves[..i]); var c := curves[i];
      Joined(curves[..i + 1]) == prev[..|prev| - 1] + CubicPoints(c.start, c.control1, c.control2, c.end, c.segments)
  {
    assert curves[..i + 1][..i] == curves[..i];
  }

  /** A chain's points run from the first curve's start to the last curve's
      end. */
  lemma {:induction false} JoinedEnds(curves: seq<CubicBezier3D>)
    requires |curves| >= 1 && Sampled(curves)
    ensures Joined(curves)[0] == curves[0].start
    ensures Joined(curves)[|Joined(curves)| - 1] == curves[|curves| - 1].end
  {
    var c := curves[|curves| - 1];
    var pts := CubicPoints(c.start, c.control1, c.control2, c.end, c.segments);
    if |curves| > 1 {
      var init := curves[..|curves| - 1];
      JoinedEnds(init);
      assert init[0] == curves[0];
      var prev := Joined(init);
      assert |prev| >= 2;
      assert Joined(curves)[0] == prev[0];
    }
    assert Joined(curves)[|Joined(curves)| - 1] == pts[|pts| - 1];
  }

  /** Each curve's samples appear in the joined points, starting at the
      offset given by the segments of the curves before it; only its last
      sample may be replaced, by the next curve's first. */
  lemma {:induction false} JoinedContainsCurve(curves: seq<CubicBezier3D>, k: nat)
    requires Sampled(curves) && k < |curves|
    ensures var c := curves[k];
      SegmentCount(curves[..k]) + c.segments < |Joined(curves)| &&
      Joined(curves)[SegmentCount(curves[..k]) .. SegmentCount(curves[..k]) + c.segments]
        == CubicPoints(c.start, c.control1, c.control2, c.end, c.segments)[..c.segments]
  {
    var n := |curves|;
    var init := curves[..n - 1];
    var last := curves[n - 1];
    var prev := Joined(init);
    var pts := CubicPoints(last.start, last.control1, last.control2, last.end, last.segments);
    assert Joined(curves) == prev[..|prev| - 1] + pts;
    var s := SegmentCount(curves[..k]);
    var c := curves[k];
    if k == n - 1 {
      assert curves[..k] == init;
      SliceOfTail(prev[..|prev| - 1], pts, c.segments);
    } else {
      assert init[..k] == curves[..k];
      assert init[k] == c;
      JoinedContainsCurve(init, k);
      SliceOfHead(prev, pts, s, c.segments);
    }
  }

  /** The first n points after a dropped-last prefix are the tail's. */
  lemma SliceOfTail<T>(head: seq<T>, tail: seq<T>, n: nat)
    requires n <= |tail|
    ensures (head + tail)[|head| .. |head| + n] == tail[..n]
  {
  }

  /** A slice that ends before the last point of `prev` survives dropping
      that point and appending `tail`. */
  lemma SliceOfHead<T>(prev: seq<T>, tail: seq<T>, s: nat, n: nat)
    requires s + n < |prev|
    ensures (prev[..|prev| - 1] + tail)[s .. s + n] == prev[s .. s + n]
  {
  }

  /** The segments of a prefix and of the curve after it are at most those
      of the whole chain. */
  lemma {:induction false} SegmentCountPrefix(curves: seq<CubicBezier3D>, k: nat)
    requires k < |curves|
    ensures SegmentCount(curves[..k]) + curves[k].segments <= SegmentCount(curves)
  {
    var n := |curves|;
    var init := curves[..n - 1];
    assert SegmentCount(curves) == SegmentCount(init) + curves[n - 1].segments;
    if k < n - 1 {
      assert init[..k] == curves[..k];
      assert init[k] == curves[k];
      SegmentCountPrefix(init, k);
    } else {
      assert curves[..k] == init;
    }
  }

  /** The points `gen_points` returns: a closed chain drops its last point,
      which repeats the first. */
  function ChainPoints(curves: seq<CubicBezier3D>, closed: bool): (r: seq<Pt3>)
    requires Sampled(curves)
    ensures |r| == SegmentCount(curves) + (if closed then 0 else 1)
  {
    var pts := Joined(curves);
    if closed then pts[..|pts| - 1] else pts
  }

  /** A chain whose last curve ends at the first curve's start returns every
      point once: dropping the last point loses nothing. */
  lemma {:induction false} ClosedChainDropsDuplicate(curves: seq<CubicBezier3D>)
    requires |curves| >= 1 && Sampled(curves)
    requires curves[|curves| - 1].end == curves[0].start
    ensures ChainPoints(curves, true) + [ChainPoints(curves, true)[0]] == Joined(curves)
  {
    var pts := Joined(curves);
    assert |pts| >= 2;
    JoinedEnds(curves);
    assert pts[0] == pts[|pts| - 1];
    assert ChainPoints(curves, true) == pts[..|pts| - 1];
  }

  /** `CubicBezierChain3D`: a chain of cubic curves in space, each starting
      where the previous one ends. */
  class CubicBezierChain3D {
    var curves: seq<CubicBezier3D>
    var closed: bool

    /** The chain is never empty and has no gaps. */
    ghost predicate Valid()
      reads this
    {
      |curves| >= 1 && Continuous(curves)
    }

    constructor(start: Pt3, control1: Pt3, control2: Pt3, end: Pt3, segments: nat)
      ensures Valid() && !closed
      ensures curves == [CubicBezier3D(start, control1, control2, end, segments)]
    {
      curves := [CubicBezier3D(start, control1, control2, end, segments)];
      closed := false;
    }

    /** `add`: appends the extension of the last curve. */
    method Add(t: Trig, control1Length: real, control2: Pt3, end: Pt3, segments: nat)
      requires Valid()
      modifies this
      ensures Valid() && closed == old(closed)
      ensures curves == old(curves) + [Extension(t, old(curves[|curves| - 1]), control1Length, control2, end, segments)]
    {
      var chainEnd := curves[|curves| - 1];
      curves := curves + [Extension(t, chainEnd, control1Length, control2, end, segments)];
    }

    /** `close`: appends a curve ending at the chain's start and re-aims the
      first curve's first control point along the closing tangent. */
    method Close(t: Trig, control1Length: real, control2: Pt3, startControl1Len: real, segments: nat)
      requires Valid()
      modifies this
      ensures Valid() && closed
      ensures |curves| == |old(curves)| + 1
      ensures curves[1..|curves| - 1] == old(curves[1..])
      ensures curves[|curves| - 1] == Extension(t, old(curves[|curves| - 1]), control1Length, control2, old(curves[0].start), segments)
      ensures curves[|curves| - 1].end == curves[0].start
      ensures curves[0] == old(curves[0]).(control1 := TangentControl(t, curves[|curves| - 1], startControl1Len))
    {
      closed := true;
      Add(t, control1Length, control2, curves[0].start, segments);
      var chainEnd := curves[|curves| - 1];
      var c1 := Point3.Add(chainEnd.end, Scale(Normalized(t, Sub(chainEnd.end, chainEnd.control2)), startControl1Len));
      curves := curves[0 := curves[0].(control1 := c1)];
    }

    /** `gen_points`: concatenates the curves' samples, dropping each shared
      junction once, and drops the repeated start of a closed chain. */
    method GenPoints() returns (pts: seq<Pt3>)
      requires Valid() && Sampled(curves)
      ensures pts == ChainPoints(curves, closed)
      ensures |pts| == SegmentCount(curves) + (if closed then 0 else 1)
    {
      pts := [Origin];
      for i := 0 to |curves|
        invariant pts == Joined(curves[..i])
      {
        JoinedStep(curves, i);
        pts := pts[..|pts| - 1];
        var c := curves[i];
        var more := CubicBezier(c.start, c.control1, c.control2, c.end, c.segments);
        pts := pts + more;
      }
      assert curves[..|curves|] == curves;
      if closed {
        pts := pts[..|pts| - 1];
      }
    }
  }
}
