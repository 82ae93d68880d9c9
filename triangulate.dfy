/** Ear-clipping triangulation of simple polygons (scad_tree/src/triangulate.rs).
    The polygon's vertices are tagged with their index in the caller's vertex
    list; the result is a flat list of tags, three per triangle. */
module Triangulate {
  import opened Wrappers
  import opened Numeric
  import opened Point2
  import P3 = Point3
  import Mesh

  /** A polygon vertex: its index in the caller's list and its 2D position. */
  datatype Vertex = Vertex(tag: nat, pt: Pt2)

  // ---------------------------------------------------------------------------
  // Geometric predicates
  // ---------------------------------------------------------------------------

  /** Twice the signed area of the triangle a, b, c: positive when the corner
      turns counter-clockwise. */
  function Orientation(a: Pt2, b: Pt2, c: Pt2): real
  {
    (b.x - a.x) * (c.y - a.y) - (c.x - a.x) * (b.y - a.y)
  }

  /** `is_ccw`: the three points wind counter-clockwise. */
  predicate IsCcw(a: Pt2, b: Pt2, c: Pt2)
  {
    Orientation(a, b, c) > 0.0
  }

  /** The winding of a corner does not depend on which of its three vertices
      is listed first, and reversing the order flips it: a triangle is never
      counter-clockwise both ways round. */
  lemma IsCcwRotationAndReversal(a: Pt2, b: Pt2, c: Pt2)
    ensures IsCcw(a, b, c) <==> IsCcw(b, c, a)
    ensures Orientation(a, c, b) == -Orientation(a, b, c)
    ensures !(IsCcw(a, b, c) && IsCcw(a, c, b))
  {
  }

  /** Three collinear points (c on the line through a and b) never count as
      counter-clockwise. */
  lemma CollinearIsNotCcw(a: Pt2, b: Pt2, k: real)
    ensures !IsCcw(a, b, Lerp(a, b, k))
  {
    var dx, dy := b.x - a.x, b.y - a.y;
    assert Orientation(a, b, Lerp(a, b, k)) == dx * (dy * k) - (dx * k) * dy;
  }

  /** The determinant that `in_triangle` divides by (twice the signed area of
      a, b, c, up to sign). */
  function Denom(a: Pt2, b: Pt2, c: Pt2): real
  {
    (b.y - c.y) * (a.x - c.x) + (c.x - b.x) * (a.y - c.y)
  }

  /** The barycentric weight of a, before the division by Denom. */
  function AlphaNumer(p: Pt2, a: Pt2, b: Pt2, c: Pt2): real
  {
    (b.y - c.y) * (p.x - c.x) + (c.x - b.x) * (p.y - c.y)
  }

  /** The barycentric weight of b, before the division by Denom. */
  function BetaNumer(p: Pt2, a: Pt2, b: Pt2, c: Pt2): real
  {
    (c.y - a.y) * (p.x - c.x) + (a.x - c.x) * (p.y - c.y)
  }

  /** `in_triangle`: a degenerate (nearly zero-area) triangle contains every
      point; otherwise p is inside when its three barycentric weights are all
      non-negative, checked in the order alpha, beta, gamma. */
  function InTriangle(p: Pt2, a: Pt2, b: Pt2, c: Pt2): (r: bool)
    ensures ApproxEq(Denom(a, b, c), 0.0, 1.0e-5) ==> r
    ensures !ApproxEq(Denom(a, b, c), 0.0, 1.0e-5) ==>
      (r <==> var inv := 1.0 / Denom(a, b, c);
              inv * AlphaNumer(p, a, b, c) >= 0.0 && inv * BetaNumer(p, a, b, c) >= 0.0 &&
              1.0 - inv * AlphaNumer(p, a, b, c) - inv * BetaNumer(p, a, b, c) >= 0.0)
  {
    var denom := Denom(a, b, c);
    if ApproxEq(denom, 0.0, 1.0e-5) then true
    else
      var inv := 1.0 / denom;
      var alpha := inv * AlphaNumer(p, a, b, c);
      if alpha < 0.0 then false
      else
        var beta := inv * BetaNumer(p, a, b, c);
        if beta < 0.0 then false
        else
          var gamma := 1.0 - alpha - beta;
          if gamma < 0.0 then false else true
  }

  /** The weights `in_triangle` computes are barycentric coordinates: scaled by
      Denom they rebuild p from a, b and c (p - c == alpha (a - c) + beta (b - c)). */
  lemma BarycentricReconstruction(p: Pt2, a: Pt2, b: Pt2, c: Pt2)
    ensures AlphaNumer(p, a, b, c) * (a.x - c.x) + BetaNumer(p, a, b, c) * (b.x - c.x)
            == Denom(a, b, c) * (p.x - c.x)
    ensures AlphaNumer(p, a, b, c) * (a.y - c.y) + BetaNumer(p, a, b, c) * (b.y - c.y)
            == Denom(a, b, c) * (p.y - c.y)
  {
    var ux, uy, vx, vy, wx, wy := a.x - c.x, a.y - c.y, b.x - c.x, b.y - c.y, p.x - c.x, p.y - c.y;
    assert Denom(a, b, c) == vy * ux - vx * uy;
    assert AlphaNumer(p, a, b, c) == vy * wx - vx * wy;
    assert BetaNumer(p, a, b, c) == -uy * wx + ux * wy;
    BarycentricIdentity(ux, uy, vx, vy, wx, wy);
  }

  lemma BarycentricIdentity(ux: real, uy: real, vx: real, vy: real, wx: real, wy: real)
    ensures (vy * wx - vx * wy) * ux + (-uy * wx + ux * wy) * vx == (vy * ux - vx * uy) * wx
    ensures (vy * wx - vx * wy) * uy + (-uy * wx + ux * wy) * vy == (vy * ux - vx * uy) * wy
  {
  }

  /** Each corner of a non-degenerate triangle lies in it (weights 1, 0, 0). */
  lemma CornerInTriangle(a: Pt2, b: Pt2, c: Pt2)
    ensures InTriangle(a, a, b, c)
  {
    var d := Denom(a, b, c);
    assert AlphaNumer(a, a, b, c) == d;
    assert BetaNumer(a, a, b, c) == 0.0;
    if !ApproxEq(d, 0.0, 1.0e-5) {
      assert (1.0 / d) * d == 1.0;
    }
  }

  // ---------------------------------------------------------------------------
  // Ear clipping, as a specification on sequences
  // ---------------------------------------------------------------------------

  /** The vertex before position i on a closed ring of n vertices. */
  function PrevIndex(n: nat, i: nat): (r: nat)
    requires i < n
    ensures r < n && (r + 1) % n == i
  {
    ModRing(n, i);
    if i == 0 then n - 1 else i - 1
  }

  /** The vertex after position i on a closed ring of n vertices. */
  function NextIndex(n: nat, i: nat): (r: nat)
    requires i < n
    ensures r < n && r == (i + 1) % n
  {
    ModRing(n, i);
    if i == n - 1 then 0 else i + 1
  }

  /** Going one step further round a ring of n positions. */
  lemma ModRing(n: nat, i: nat)
    requires i < n
    ensures (i + 1) % n == if i == n - 1 then 0 else i + 1
    ensures i % n == i
  {
    if i < n - 1 {
      assert (i + 1) % n == i + 1 by {
        var q := (i + 1) / n;
        assert i + 1 == q * n + (i + 1) % n;
      }
    }
  }

  /** Position i is an ear tip: its corner does not wind counter-clockwise and
      no vertex at a LATER position (other than its two neighbours) lies in
      the corner's triangle.  Vertices before i are not examined. */
  predicate IsEar(ring: seq<Vertex>, i: nat)
    requires i < |ring|
  {
    var p := PrevIndex(|ring|, i);
    var n := NextIndex(|ring|, i);
    !IsCcw(ring[p].pt, ring[i].pt, ring[n].pt) &&
    forall j :: i < j < |ring| && j != p && j != n ==>
      !InTriangle(ring[j].pt, ring[p].pt, ring[i].pt, ring[n].pt)
  }

  /** The first ear tip at or after position `from`. */
  function FirstEar(ring: seq<Vertex>, from: nat): (r: Option<nat>)
    requires from <= |ring|
    ensures r.Some? ==> from <= r.value < |ring| && IsEar(ring, r.value)
    ensures r.Some? ==> forall k :: from <= k < r.value ==> !IsEar(ring, k)
    ensures r.None? ==> forall k :: from <= k < |ring| ==> !IsEar(ring, k)
    decreases |ring| - from
  {
    if from == |ring| then None
    else if IsEar(ring, from) then Some(from)
    else FirstEar(ring, from + 1)
  }

  /** The ear tip at position e is the first one exactly when every earlier
      position is not an ear tip. */
  lemma FirstEarUnique(ring: seq<Vertex>, e: nat)
    requires e < |ring| && IsEar(ring, e)
    requires forall k :: 0 <= k < e ==> !IsEar(ring, k)
    ensures FirstEar(ring, 0) == Some(e)
  {
  }

  lemma AppendAssociative<T>(a: seq<T>, b: seq<T>, c: seq<T>)
    ensures a + (b + c) == (a + b) + c
  {
  }

  /** One step of ear clipping. */
  lemma EarClipStep(ring: seq<Vertex>, e: nat)
    requires |ring| >= 3 && FirstEar(ring, 0) == Some(e)
    ensures EarClip(ring) == EarTriangle(ring, e) + EarClip(RemoveAt(ring, e))
  {
  }

  /** The sequence without its element at position i (`Vec::remove`). */
  function RemoveAt<T>(s: seq<T>, i: nat): (r: seq<T>)
    requires i < |s|
    ensures |r| == |s| - 1
    ensures forall k :: 0 <= k < i ==> r[k] == s[k]
    ensures forall k :: i <= k < |r| ==> r[k] == s[k + 1]
  {
    s[..i] + s[i + 1..]
  }

  /** The triangle cut off at ear tip e: previous, tip, next. */
  function EarTriangle(ring: seq<Vertex>, e: nat): seq<nat>
    requires e < |ring|
  {
    [ring[PrevIndex(|ring|, e)].tag, ring[e].tag, ring[NextIndex(|ring|, e)].tag]
  }

  /** The triangles ear clipping emits: cut the first ear tip off while at
      least three vertices remain and some ear tip exists. */
  function EarClip(ring: seq<Vertex>): seq<nat>
    decreases |ring|
  {
    if |ring| < 3 then []
    else match FirstEar(ring, 0)
      case None => []
      case Some(e) => EarTriangle(ring, e) + EarClip(RemoveAt(ring, e))
  }

  // ---------------------------------------------------------------------------
  // The leftmost vertex
  // ---------------------------------------------------------------------------

  /** q replaces the current leftmost point: strictly smaller x, or x equal
      within 1e-5 and strictly smaller y. */
  predicate FurtherLeft(q: Pt2, left: Pt2)
  {
    q.x < left.x || (ApproxEq(q.x, left.x, 1.0e-5) && q.y < left.y)
  }

  /** The scan for the leftmost vertex from position i on, with `best` the
      position chosen so far. */
  function LeftmostFrom(ring: seq<Vertex>, i: nat, best: nat): (r: nat)
    requires best < |ring| && i <= |ring|
    ensures r < |ring|
    decreases |ring| - i
  {
    if i == |ring| then best
    else LeftmostFrom(ring, i + 1, if FurtherLeft(ring[i].pt, ring[best].pt) then i else best)
  }

  /** The position of the leftmost vertex, as the source's scan finds it. */
  function Leftmost(ring: seq<Vertex>): (r: nat)
    requires |ring| >= 1
    ensures r < |ring|
  {
    LeftmostFrom(ring, 0, 0)
  }

  /** No vertex after the chosen one would have replaced it. */
  lemma {:induction false} LeftmostFromNotBeaten(ring: seq<Vertex>, i: nat, best: nat)
    requires best < |ring| && i <= |ring|
    ensures var r := LeftmostFrom(ring, i, best);
      (r == best || i <= r) &&
      forall j :: i <= j < |ring| && r < j ==> !FurtherLeft(ring[j].pt, ring[r].pt)
    decreases |ring| - i
  {
    if i < |ring| {
      var b := if FurtherLeft(ring[i].pt, ring[best].pt) then i else best;
      LeftmostFromNotBeaten(ring, i + 1, b);
    }
  }

  /** No two vertices have x coordinates within the 1e-5 tolerance. */
  predicate SeparatedX(ring: seq<Vertex>)
  {
    forall j, k :: 0 <= j < |ring| && 0 <= k < |ring| && j != k ==>
      !ApproxEq(ring[j].pt.x, ring[k].pt.x, 1.0e-5)
  }

  /** When the tolerance never applies, the scan finds a vertex of least x. */
  lemma {:induction false} LeftmostFromMinimal(ring: seq<Vertex>, i: nat, best: nat)
    requires best < |ring| && i <= |ring| && SeparatedX(ring)
    requires best < i || (i == 0 && best == 0)
    requires forall k :: 0 <= k < i ==> ring[best].pt.x <= ring[k].pt.x
    ensures forall k :: 0 <= k < |ring| ==> ring[LeftmostFrom(ring, i, best)].pt.x <= ring[k].pt.x
    decreases |ring| - i
  {
    if i < |ring| {
      var b := if FurtherLeft(ring[i].pt, ring[best].pt) then i else best;
      if b == i && i != best {
        assert ring[i].pt.x < ring[best].pt.x;
      }
      LeftmostFromMinimal(ring, i + 1, b);
    }
  }

  /** The leftmost vertex has the least x coordinate when the tolerance never
      applies, and no later vertex would have replaced it. */
  lemma LeftmostProperties(ring: seq<Vertex>)
    requires |ring| >= 1
    ensures forall j :: Leftmost(ring) < j < |ring| ==>
      !FurtherLeft(ring[j].pt, ring[Leftmost(ring)].pt)
    ensures SeparatedX(ring) ==>
      forall k :: 0 <= k < |ring| ==> ring[Leftmost(ring)].pt.x <= ring[k].pt.x
  {
    LeftmostFromNotBeaten(ring, 0, 0);
    if SeparatedX(ring) {
      LeftmostFromMinimal(ring, 0, 0);
    }
  }

  // ---------------------------------------------------------------------------
  // What the emitted triangles are
  // ---------------------------------------------------------------------------

  /** The tags carried by a ring. */
  function Tags(ring: seq<Vertex>): set<nat>
  {
    set v | v in ring :: v.tag
  }

  /** No tag occurs twice in a ring. */
  predicate DistinctTags(ring: seq<Vertex>)
  {
    forall i, j :: 0 <= i < j < |ring| ==> ring[i].tag != ring[j].tag
  }

  /** Ear clipping emits whole triangles, at most n - 2 of them. */
  lemma {:induction false} EarClipCount(ring: seq<Vertex>)
    ensures |EarClip(ring)| % 3 == 0
    ensures |ring| >= 2 ==> |EarClip(ring)| <= 3 * (|ring| - 2)
    decreases |ring|
  {
    if |ring| < 3 {
      assert EarClip(ring) == [];
    } else {
      match FirstEar(ring, 0)
      case None =>
        assert EarClip(ring) == [];
      case Some(e) =>
        var rest := RemoveAt(ring, e);
        EarClipCount(rest);
        assert |EarClip(ring)| == 3 + |EarClip(rest)|;
        Mesh.WholeTriplesGrow(|EarClip(rest)|);
    }
  }

  /** Ear clipping emits only tags of the ring's own vertices. */
  lemma {:induction false} EarClipTags(ring: seq<Vertex>)
    ensures forall k :: 0 <= k < |EarClip(ring)| ==> EarClip(ring)[k] in Tags(ring)
    decreases |ring|
  {
    if |ring| >= 3 {
      match FirstEar(ring, 0)
      case None =>
      case Some(e) =>
        var rest := RemoveAt(ring, e);
        assert EarClip(ring) == EarTriangle(ring, e) + EarClip(rest);
        forall k | 0 <= k < |EarClip(ring)|
          ensures EarClip(ring)[k] in Tags(ring)
        {
          if k < 3 {
            EarTriangleTags(ring, e, k);
          } else {
            assert EarClip(ring)[k] in Tags(rest) by {
              EarClipTags(rest);
            }
            RemoveAtSubset(ring, e);
          }
        }
    }
  }

  /** Each corner of an ear triangle is the tag of a vertex of the ring. */
  lemma EarTriangleTags(ring: seq<Vertex>, e: nat, k: nat)
    requires e < |ring| && k < 3
    ensures EarTriangle(ring, e)[k] in Tags(ring)
  {
    var i := if k == 0 then PrevIndex(|ring|, e) else if k == 1 then e else NextIndex(|ring|, e);
    assert ring[i] in ring;
  }

  /** Ear clipping emits whole triangles, at most n - 2 of them, and only tags
      of the ring's own vertices. */
  lemma EarClipShape(ring: seq<Vertex>)
    ensures |EarClip(ring)| % 3 == 0
    ensures |ring| >= 2 ==> |EarClip(ring)| <= 3 * (|ring| - 2)
    ensures forall k :: 0 <= k < |EarClip(ring)| ==> EarClip(ring)[k] in Tags(ring)
  {
    EarClipCount(ring);
    EarClipTags(ring);
  }

  /** Removing a vertex keeps only tags the ring had. */
  lemma RemoveAtSubset(ring: seq<Vertex>, e: nat)
    requires e < |ring|
    ensures Tags(RemoveAt(ring, e)) <= Tags(ring)
  {
    var rest := RemoveAt(ring, e);
    forall v | v in rest
      ensures v in ring
    {
      var k :| 0 <= k < |rest| && rest[k] == v;
      assert k < e ==> ring[k] == v;
      assert k >= e ==> ring[k + 1] == v;
    }
  }

  /** Removing a vertex of a ring with distinct tags removes exactly its tag. */
  lemma RemoveAtTags(ring: seq<Vertex>, e: nat)
    requires e < |ring| && DistinctTags(ring)
    ensures DistinctTags(RemoveAt(ring, e))
    ensures ring[e].tag !in Tags(RemoveAt(ring, e))
  {
    var rest := RemoveAt(ring, e);
    forall i, j | 0 <= i < j < |rest|
      ensures rest[i].tag != rest[j].tag
    {
      var i', j' := if i < e then i else i + 1, if j < e then j else j + 1;
      assert rest[i] == ring[i'] && rest[j] == ring[j'];
    }
    forall k | 0 <= k < |rest|
      ensures rest[k].tag != ring[e].tag
    {
      assert rest[k] == ring[if k < e then k else k + 1];
    }
  }

  /** The three corners of an ear triangle are distinct positions, so on a
      ring with distinct tags they carry distinct tags. */
  lemma EarTriangleDistinct(ring: seq<Vertex>, e: nat)
    requires 3 <= |ring| && e < |ring| && DistinctTags(ring)
    ensures var tri := EarTriangle(ring, e);
      tri[0] != tri[1] && tri[1] != tri[2] && tri[0] != tri[2]
  {
    var n := |ring|;
    var p, q := PrevIndex(n, e), NextIndex(n, e);
    assert p != e && q != e && p != q;
    assert ring[p].tag != ring[e].tag && ring[e].tag != ring[q].tag && ring[p].tag != ring[q].tag;
  }

  /** Three distinct corners in every triangle of a flat list. */
  predicate CornersDistinct(tris: seq<seq<nat>>)
  {
    forall t :: 0 <= t < |tris| && |tris[t]| == 3 ==>
      tris[t][0] != tris[t][1] && tris[t][1] != tris[t][2] && tris[t][0] != tris[t][2]
  }

  /** No two triangles share their middle (ear tip) corner. */
  predicate TipsDistinct(tris: seq<seq<nat>>)
  {
    forall s, t :: 0 <= s < t < |tris| && |tris[s]| == 3 && |tris[t]| == 3 ==> tris[s][1] != tris[t][1]
  }

  /** On a ring with distinct tags, every emitted triangle has three distinct
      corners, and no vertex is cut off as an ear tip twice. */
  lemma {:induction false} EarClipDistinct(ring: seq<Vertex>)
    requires DistinctTags(ring)
    ensures |EarClip(ring)| % 3 == 0
    ensures CornersDistinct(Mesh.Triples(EarClip(ring), 0))
    ensures TipsDistinct(Mesh.Triples(EarClip(ring), 0))
    decreases |ring|
  {
    EarClipShape(ring);
    if |ring| >= 3 {
      match FirstEar(ring, 0)
      case None =>
      case Some(e) =>
        var rest := RemoveAt(ring, e);
        var tri := EarTriangle(ring, e);
        RemoveAtTags(ring, e);
        EarClipDistinct(rest);
        EarClipShape(rest);
        EarTriangleDistinct(ring, e);
        Mesh.TriplesAppend(tri, EarClip(rest), 0);
        var later := Mesh.Triples(EarClip(rest), 0);
        assert Mesh.Triples(tri, 0) == [tri];
        PrependTriangle(tri, later, Tags(rest));
    }
  }

  /** Putting a triangle with distinct corners, whose tip is not among the
      later corners, in front of a list keeps both properties. */
  lemma PrependTriangle(tri: seq<nat>, later: seq<seq<nat>>, rest: set<nat>)
    requires |tri| == 3 && tri[0] != tri[1] && tri[1] != tri[2] && tri[0] != tri[2]
    requires CornersDistinct(later) && TipsDistinct(later)
    requires forall t :: 0 <= t < |later| && |later[t]| == 3 ==> later[t][1] in rest
    requires tri[1] !in rest
    ensures CornersDistinct([tri] + later) && TipsDistinct([tri] + later)
  {
    var all := [tri] + later;
    forall s, t | 0 <= s < t < |all| && |all[s]| == 3 && |all[t]| == 3
      ensures all[s][1] != all[t][1]
    {
      assert all[t] == later[t - 1];
      if s > 0 {
        assert all[s] == later[s - 1];
      }
    }
  }

  // ---------------------------------------------------------------------------
  // The triangulation routine
  // ---------------------------------------------------------------------------

  /** `triangulate` (the private routine): None where the source's assertion
      fails, i.e. the corner at the leftmost vertex winds counter-clockwise
      (the polygon is not clockwise); otherwise the ear-clipped triangles. */
  function Triangulation(polygon: seq<Vertex>): Option<seq<nat>>
    requires |polygon| >= 2
  {
    var n := |polygon|;
    var i := Leftmost(polygon);
    if IsCcw(polygon[PrevIndex(n, i)].pt, polygon[i].pt, polygon[NextIndex(n, i)].pt) then None
    else Some(EarClip(polygon))
  }

  /** The source's loop: find the leftmost vertex, check the winding there,
      then repeatedly scan for the first ear tip, emit its triangle and remove
      it, until fewer than three vertices remain or no ear tip is found. */
  method Triangulate(polygon0: seq<Vertex>) returns (r: Option<seq<nat>>)
    requires |polygon0| >= 2
    ensures r == Triangulation(polygon0)
  {
    var polygon := polygon0;
    var triangles: seq<nat> := [];
    var index := FindLeftmost(polygon);
    var prev := if index == 0 then |polygon| - 1 else index - 1;
    var next := if index == |polygon| - 1 then 0 else index + 1;
    var tri := [polygon[prev], polygon[index], polygon[next]];
    assert index == Leftmost(polygon0);
    if IsCcw(tri[0].pt, tri[1].pt, tri[2].pt) {
      return None;
    }
    assert Triangulation(polygon0) == Some(EarClip(polygon0));
    while |polygon| >= 3
      invariant triangles + EarClip(polygon) == EarClip(polygon0)
      decreases |polygon|
    {
      var eartip := FindEar(polygon);
      if eartip < 0 {
        assert EarClip(polygon) == [];
        break;
      }
      var p := if eartip == 0 then |polygon| - 1 else eartip - 1;
      var n := if eartip == |polygon| - 1 then 0 else eartip + 1;
      var ear := [polygon[p].tag, polygon[eartip].tag, polygon[n].tag];
      EarClipStep(polygon, eartip);
      assert ear == EarTriangle(polygon, eartip);
      AppendAssociative(triangles, ear, EarClip(RemoveAt(polygon, eartip)));
      triangles := triangles + ear;
      polygon := RemoveAt(polygon, eartip);
    }
    assert |polygon| < 3 ==> EarClip(polygon) == [];
    assert triangles + [] == triangles;
    return Some(triangles);
  }

  /** One pass of the source's `for i in &polygon` scan: the position of the
      first ear tip, or -1 when there is none. */
  method FindEar(polygon: seq<Vertex>) returns (eartip: int)
    requires |polygon| >= 3
    ensures eartip < 0 <==> FirstEar(polygon, 0).None?
    ensures eartip >= 0 ==> FirstEar(polygon, 0) == Some(eartip)
  {
    eartip := -1;
    var index := -1;
    for k := 0 to |polygon|
      invariant index == k - 1
      invariant eartip == -1 || (0 <= eartip < k && IsEar(polygon, eartip))
      invariant forall q :: 0 <= q < k && (eartip == -1 || q < eartip) ==> !IsEar(polygon, q)
    {
      index := index + 1;
      if eartip >= 0 {
        break;
      }
      var p := if index == 0 then |polygon| - 1 else index - 1;
      var n := if index == |polygon| - 1 then 0 else index + 1;
      var corner := [polygon[p], polygon[k], polygon[n]];
      if IsCcw(corner[0].pt, corner[1].pt, corner[2].pt) {
        continue;
      }
      var ear := NothingInside(polygon, index, p, n);
      if ear {
        eartip := index;
      }
    }
    if eartip >= 0 {
      FirstEarUnique(polygon, eartip);
    }
  }

  /** The inner scan over later vertices: true when none of them (other than
      the corner's own vertices) lies in the corner's triangle. */
  method NothingInside(polygon: seq<Vertex>, index: nat, p: nat, n: nat) returns (ear: bool)
    requires index < |polygon| && p < |polygon| && n < |polygon|
    ensures ear <==> forall q :: index < q < |polygon| && q != p && q != n ==>
      !InTriangle(polygon[q].pt, polygon[p].pt, polygon[index].pt, polygon[n].pt)
  {
    ear := true;
    for j := index + 1 to |polygon|
      invariant forall q :: index < q < j && q != p && q != n ==>
        !InTriangle(polygon[q].pt, polygon[p].pt, polygon[index].pt, polygon[n].pt)
    {
      if j == p || j == n || j == index {
        continue;
      }
      if InTriangle(polygon[j].pt, polygon[p].pt, polygon[index].pt, polygon[n].pt) {
        ear := false;
        return;
      }
    }
  }

  /** The source's scan for the leftmost vertex. */
  method FindLeftmost(polygon: seq<Vertex>) returns (index: nat)
    requires |polygon| >= 1
    ensures index == Leftmost(polygon)
  {
    var left := polygon[0].pt;
    index := 0;
    for i := 0 to |polygon|
      invariant index < |polygon| && left == polygon[index].pt
      invariant LeftmostFrom(polygon, i, index) == Leftmost(polygon)
    {
      if polygon[i].pt.x < left.x || (ApproxEq(polygon[i].pt.x, left.x, 1.0e-5) && polygon[i].pt.y < left.y) {
        index := i;
        left := polygon[i].pt;
      }
    }
  }

  // ---------------------------------------------------------------------------
  // The public entry points
  // ---------------------------------------------------------------------------

  /** Each 2D vertex tagged with its position in the list. */
  function Tag2d(vertices: seq<Pt2>): seq<Vertex>
  {
    seq(|vertices|, i requires 0 <= i < |vertices| => Vertex(i, vertices[i]))
  }

  /** `triangulate2d`: None where the source panics (three or fewer vertices,
      or a polygon that is not clockwise at its leftmost vertex). */
  function Triangulation2d(vertices: seq<Pt2>): Option<seq<nat>>
  {
    if |vertices| <= 3 then None else Triangulation(Tag2d(vertices))
  }

  method Triangulate2d(vertices: seq<Pt2>) returns (r: Option<seq<nat>>)
    ensures r == Triangulation2d(vertices)
  {
    if |vertices| <= 3 {
      return None;
    }
    var polygon: seq<Vertex> := [];
    for i := 0 to |vertices|
      invariant |polygon| == i
      invariant forall k :: 0 <= k < i ==> polygon[k] == Vertex(k, vertices[k])
    {
      polygon := polygon + [Vertex(i, vertices[i])];
    }
    assert polygon == Tag2d(vertices);
    r := Triangulate(polygon);
  }

  /** A ring tagged 0, 1, ..., n - 1 in order. */
  predicate TaggedByPosition(ring: seq<Vertex>)
  {
    forall i :: 0 <= i < |ring| ==> ring[i].tag == i
  }

  /** What any successful triangulation of a ring tagged by position returns:
      whole triangles, at most n - 2 of them, indices into the vertex list,
      three distinct corners each and no ear tip used twice. */
  predicate WellFormedTriangles(ts: seq<nat>, n: nat)
  {
    |ts| % 3 == 0 && (n >= 2 ==> |ts| <= 3 * (n - 2)) && Mesh.FlatBelow(ts, n) &&
    CornersDistinct(Mesh.Triples(ts, 0)) && TipsDistinct(Mesh.Triples(ts, 0))
  }

  lemma TriangulationWellFormed(ring: seq<Vertex>)
    requires |ring| >= 2 && TaggedByPosition(ring)
    ensures Triangulation(ring).Some? ==> WellFormedTriangles(Triangulation(ring).value, |ring|)
  {
    assert DistinctTags(ring);
    EarClipShape(ring);
    EarClipDistinct(ring);
    TagsBelow(ring);
  }

  /** A ring tagged by position only carries tags below its length. */
  lemma TagsBelow(ring: seq<Vertex>)
    requires TaggedByPosition(ring)
    ensures forall t :: t in Tags(ring) ==> t < |ring|
  {
    forall t | t in Tags(ring)
      ensures t < |ring|
    {
      var v :| v in ring && v.tag == t;
    }
  }

  /** The indices `triangulate2d` returns are well formed. */
  lemma Triangulation2dWellFormed(vertices: seq<Pt2>)
    ensures Triangulation2d(vertices).Some? ==>
      WellFormedTriangles(Triangulation2d(vertices).value, |vertices|)
  {
    if |vertices| > 3 {
      TriangulationWellFormed(Tag2d(vertices));
    }
  }

  /** The part of `Triangulation2dWellFormed` the mesh builders use: whole
      triangles of indices into the vertices. */
  lemma Triangulation2dIndices(vertices: seq<Pt2>)
    ensures var r := Triangulation2d(vertices);
      r.Some? ==> |r.value| % 3 == 0 && Mesh.FlatBelow(r.value, |vertices|)
  {
    Triangulation2dWellFormed(vertices);
  }

  /** The six projection planes `triangulate3d` chooses between, named by the
      signed axis the normal is closest to. */
  datatype Axis = PX | NX | PY | NY | PZ | NZ

  /** The unit vector of a signed axis. */
  function Direction(axis: Axis): P3.Pt3
  {
    match axis
    case PX => P3.Pt3(1.0, 0.0, 0.0)
    case NX => P3.Pt3(-1.0, 0.0, 0.0)
    case PY => P3.Pt3(0.0, 1.0, 0.0)
    case NY => P3.Pt3(0.0, -1.0, 0.0)
    case PZ => P3.Pt3(0.0, 0.0, 1.0)
    case NZ => P3.Pt3(0.0, 0.0, -1.0)
  }

  /** The source's choice of projection plane: the component of largest
      magnitude, ties going to x, then y; a zero component counts as positive.
      The chosen signed axis is the one best aligned with the normal. */
  function DominantAxis(normal: P3.Pt3): (r: Axis)
    ensures P3.Dot(normal, Direction(r)) >= Abs(normal.x)
    ensures P3.Dot(normal, Direction(r)) >= Abs(normal.y)
    ensures P3.Dot(normal, Direction(r)) >= Abs(normal.z)
    ensures r in {PX, NX} <==> Abs(normal.x) >= Abs(normal.y) && Abs(normal.x) >= Abs(normal.z)
  {
    var ax, ay, az := Abs(normal.x), Abs(normal.y), Abs(normal.z);
    if ax >= ay && ax >= az then
      if normal.x >= 0.0 then PX else NX
    else if ay >= ax && ay >= az then
      if normal.y >= 0.0 then PY else NY
    else
      // The source's third test always holds here for real-valued normals.
      if normal.z >= 0.0 then PZ else NZ
  }

  /** The source's projection of a vertex onto the chosen plane. */
  function ProjectOnto(axis: Axis, v: P3.Pt3): Pt2
  {
    match axis
    case PX => Pt2(v.y, v.z)
    case NX => Pt2(-v.y, v.z)
    case PY => Pt2(-v.x, v.z)
    case NY => Pt2(v.x, v.z)
    case PZ => Pt2(v.x, v.y)
    case NZ => Pt2(-v.x, v.y)
  }

  /** The projection onto x = 0 winds as the x component of the normal. */
  lemma WindingPX(a: P3.Pt3, b: P3.Pt3, c: P3.Pt3)
    ensures Orientation(ProjectOnto(PX, a), ProjectOnto(PX, b), ProjectOnto(PX, c)) == P3.Cross(P3.Sub(b, a), P3.Sub(c, a)).x
  {
    var u, v := P3.Sub(b, a), P3.Sub(c, a);
    OrientationOfSides(ProjectOnto(PX, a), ProjectOnto(PX, b), ProjectOnto(PX, c), u.y, u.z, v.y, v.z);
    Commute(v.y, u.z);
  }

  /** The projection onto y = 0 seen from -y winds as minus the y component
      of the normal. */
  lemma WindingNY(a: P3.Pt3, b: P3.Pt3, c: P3.Pt3)
    ensures Orientation(ProjectOnto(NY, a), ProjectOnto(NY, b), ProjectOnto(NY, c)) == -P3.Cross(P3.Sub(b, a), P3.Sub(c, a)).y
  {
    var u, v := P3.Sub(b, a), P3.Sub(c, a);
    OrientationOfSides(ProjectOnto(NY, a), ProjectOnto(NY, b), ProjectOnto(NY, c), u.x, u.z, v.x, v.z);
    Commute(v.x, u.z);
  }

  /** The projection onto z = 0 winds as the z component of the normal. */
  lemma WindingPZ(a: P3.Pt3, b: P3.Pt3, c: P3.Pt3)
    ensures Orientation(ProjectOnto(PZ, a), ProjectOnto(PZ, b), ProjectOnto(PZ, c)) == P3.Cross(P3.Sub(b, a), P3.Sub(c, a)).z
  {
    var u, v := P3.Sub(b, a), P3.Sub(c, a);
    OrientationOfSides(ProjectOnto(PZ, a), ProjectOnto(PZ, b), ProjectOnto(PZ, c), u.x, u.y, v.x, v.y);
    Commute(v.x, u.y);
  }

  /** The point with its first coordinate negated. */
  function FlipX(p: Pt2): Pt2
  {
    Pt2(-p.x, p.y)
  }

  /** Negating the first coordinate reverses the winding. */
  lemma FlipXWinding(p: Pt2, q: Pt2, r: Pt2)
    ensures Orientation(FlipX(p), FlipX(q), FlipX(r)) == -Orientation(p, q, r)
  {
    OrientationOfSides(FlipX(p), FlipX(q), FlipX(r), -(q.x - p.x), q.y - p.y, -(r.x - p.x), r.y - p.y);
    Negate(q.x - p.x, r.y - p.y);
    Negate(r.x - p.x, q.y - p.y);
  }

  /** Each projection keeps orientation: a projected corner winds
      counter-clockwise exactly when the 3D corner's normal points along the
      chosen signed axis. */
  lemma ProjectionWinding(axis: Axis, a: P3.Pt3, b: P3.Pt3, c: P3.Pt3)
    ensures Orientation(ProjectOnto(axis, a), ProjectOnto(axis, b), ProjectOnto(axis, c))
            == P3.Dot(P3.Cross(P3.Sub(b, a), P3.Sub(c, a)), Direction(axis))
    ensures IsCcw(ProjectOnto(axis, a), ProjectOnto(axis, b), ProjectOnto(axis, c))
            <==> P3.Dot(P3.Cross(P3.Sub(b, a), P3.Sub(c, a)), Direction(axis)) > 0.0
  {
    var n := P3.Cross(P3.Sub(b, a), P3.Sub(c, a));
    match axis
    case PX =>
      WindingPX(a, b, c);
      assert P3.Dot(n, Direction(axis)) == n.x;
    case NX =>
      WindingPX(a, b, c);
      FlipXWinding(ProjectOnto(PX, a), ProjectOnto(PX, b), ProjectOnto(PX, c));
      assert P3.Dot(n, Direction(axis)) == -n.x;
    case PY =>
      WindingNY(a, b, c);
      FlipXWinding(ProjectOnto(NY, a), ProjectOnto(NY, b), ProjectOnto(NY, c));
      assert P3.Dot(n, Direction(axis)) == n.y;
    case NY =>
      WindingNY(a, b, c);
      assert P3.Dot(n, Direction(axis)) == -n.y;
    case PZ =>
      WindingPZ(a, b, c);
      assert P3.Dot(n, Direction(axis)) == n.z;
    case NZ =>
      WindingPZ(a, b, c);
      FlipXWinding(ProjectOnto(PZ, a), ProjectOnto(PZ, b), ProjectOnto(PZ, c));
      assert P3.Dot(n, Direction(axis)) == -n.z;
  }

  /** The orientation of three points from the two sides leaving the first. */
  lemma OrientationOfSides(p: Pt2, q: Pt2, r: Pt2, ux: real, uy: real, vx: real, vy: real)
    requires q.x - p.x == ux && q.y - p.y == uy && r.x - p.x == vx && r.y - p.y == vy
    ensures Orientation(p, q, r) == ux * vy - vx * uy
  {
  }

  /** Products commute. */
  lemma Commute(a: real, b: real)
    ensures a * b == b * a
  {
  }

  /** Negating a factor negates the product. */
  lemma Negate(a: real, b: real)
    ensures (-a) * b == -(a * b)
  {
  }

  /** Each 3D vertex projected onto the plane and tagged with its position. */
  function Tag3d(vertices: seq<P3.Pt3>, axis: Axis): seq<Vertex>
  {
    seq(|vertices|, i requires 0 <= i < |vertices| => Vertex(i, ProjectOnto(axis, vertices[i])))
  }

  /** `triangulate3d`: None where the source panics. */
  function Triangulation3d(vertices: seq<P3.Pt3>, normal: P3.Pt3): Option<seq<nat>>
  {
    if |vertices| <= 3 then None else Triangulation(Tag3d(vertices, DominantAxis(normal)))
  }

  method Triangulate3d(vertices: seq<P3.Pt3>, normal: P3.Pt3) returns (r: Option<seq<nat>>)
    ensures r == Triangulation3d(vertices, normal)
  {
    if |vertices| <= 3 {
      return None;
    }
    var axis: Axis;
    var ax, ay, az := Abs(normal.x), Abs(normal.y), Abs(normal.z);
    if ax >= ay && ax >= az {
      axis := if normal.x >= 0.0 then PX else NX;
    } else if ay >= ax && ay >= az {
      axis := if normal.y >= 0.0 then PY else NY;
    } else {
      axis := if normal.z >= 0.0 then PZ else NZ;
    }
    var polygon: seq<Vertex> := [];
    for i := 0 to |vertices|
      invariant |polygon| == i
      invariant forall k :: 0 <= k < i ==> polygon[k] == Vertex(k, ProjectOnto(axis, vertices[k]))
    {
      polygon := polygon + [Vertex(i, ProjectOnto(axis, vertices[i]))];
    }
    assert polygon == Tag3d(vertices, DominantAxis(normal));
    r := Triangulate(polygon);
  }

  /** The indices `triangulate3d` returns are well formed. */
  lemma Triangulation3dWellFormed(vertices: seq<P3.Pt3>, normal: P3.Pt3)
    ensures Triangulation3d(vertices, normal).Some? ==>
      WellFormedTriangles(Triangulation3d(vertices, normal).value, |vertices|)
  {
    if |vertices| > 3 {
      TriangulationWellFormed(Tag3d(vertices, DominantAxis(normal)));
    }
  }

  /** The part of `Triangulation3dWellFormed` the mesh builders use: whole
      triangles of indices into the vertices. */
  lemma Triangulation3dIndices(vertices: seq<P3.Pt3>, normal: P3.Pt3)
    ensures var r := Triangulation3d(vertices, normal);
      r.Some? ==> |r.value| % 3 == 0 && Mesh.FlatBelow(r.value, |vertices|)
  {
    Triangulation3dWellFormed(vertices, normal);
  }
}
