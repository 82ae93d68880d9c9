/** `Pt4` (scad_tree_math/src/pt4.rs): homogeneous points. Their dot
    product, length and cross product ignore the w coordinate. */
module Point4 {
  import opened Numeric
  import Point3

  datatype Pt4 = Pt4(x: real, y: real, z: real, w: real)

  /** Indexing: 0, 1, 2, 3 select x, y, z, w; any other index panics. */
  function At(p: Pt4, i: nat): (r: real)
    requires i < 4
    ensures i == 0 ==> r == p.x
    ensures i == 1 ==> r == p.y
    ensures i == 2 ==> r == p.z
    ensures i == 3 ==> r == p.w
  {
    if i == 0 then p.x else if i == 1 then p.y else if i == 2 then p.z else p.w
  }

  /** Mutable indexing: replaces the selected coordinate. */
  function SetAt(p: Pt4, i: nat, v: real): (r: Pt4)
    requires i < 4
    ensures At(r, i) == v
    ensures forall j :: 0 <= j < 4 && j != i ==> At(r, j) == At(p, j)
  {
    if i == 0 then p.(x := v) else if i == 1 then p.(y := v)
    else if i == 2 then p.(z := v) else p.(w := v)
  }

  function Add(a: Pt4, b: Pt4): Pt4 { Pt4(a.x + b.x, a.y + b.y, a.z + b.z, a.w + b.w) }
  function Sub(a: Pt4, b: Pt4): Pt4 { Pt4(a.x - b.x, a.y - b.y, a.z - b.z, a.w - b.w) }
  function Scale(a: Pt4, k: real): Pt4 { Pt4(a.x * k, a.y * k, a.z * k, a.w * k) }
  function Div(a: Pt4, k: real): Pt4
    requires k != 0.0
  {
    Pt4(a.x / k, a.y / k, a.z / k, a.w / k)
  }
  /** Negation is multiplication by -1. */
  function Neg(a: Pt4): Pt4 { Scale(a, -1.0) }

  /** `as_pt3`: drops w. */
  function AsPt3(p: Pt4): Point3.Pt3 { Point3.Pt3(p.x, p.y, p.z) }

  /** `Pt3::as_pt4` (scad_tree_math/src/pt3.rs): appends w. */
  function AsPt4(p: Point3.Pt3, w: real): (r: Pt4)
    ensures AsPt3(r) == p && r.w == w
  {
    Pt4(p.x, p.y, p.z, w)
  }

  /** `dot` sums over x, y and z only: it is the 3D dot product of the
      points without w. */
  function Dot(a: Pt4, b: Pt4): (r: real)
    ensures r == Point3.Dot(AsPt3(a), AsPt3(b))
  {
    a.x * b.x + a.y * b.y + a.z * b.z
  }

  function Len2(a: Pt4): real { Dot(a, a) }

  /** `cross` is the 3D cross product with w set to 0. */
  function Cross(a: Pt4, b: Pt4): (r: Pt4)
    ensures r == AsPt4(Point3.Cross(AsPt3(a), AsPt3(b)), 0.0)
  {
    Pt4(a.y * b.z - a.z * b.y, a.z * b.x - a.x * b.z, a.x * b.y - a.y * b.x, 0.0)
  }

  /** `normalized` divides x, y and z by the length without w and sets w
      to 0: the 3D normalisation of the point without w. */
  function Normalized(t: Trig, a: Pt4): (r: Pt4)
    ensures r == AsPt4(Point3.Normalized(t, AsPt3(a)), 0.0)
  {
    var (x, y, z) := t.unit3(a.x, a.y, a.z);
    Pt4(x, y, z, 0.0)
  }

  function Lerp(a: Pt4, b: Pt4, k: real): Pt4 { Add(a, Scale(Sub(b, a), k)) }

  /** The dot product, and therefore the length, does not see w. */
  lemma DotIgnoresW(a: Pt4, b: Pt4, w: real)
    ensures Dot(a.(w := w), b) == Dot(a, b)
    ensures Len2(a.(w := w)) == Len2(a)
  {
  }

  /** `lerp` starts at `a` for 0 and reaches `b` for 1. */
  lemma LerpEnds(a: Pt4, b: Pt4)
    ensures Lerp(a, b, 0.0) == a
    ensures Lerp(a, b, 1.0) == b
  {
  }

  /** Converting to 4D and back is the identity. */
  lemma AsPt4RoundTrip(p: Point3.Pt3, w: real)
    ensures AsPt3(AsPt4(p, w)) == p
    ensures AsPt4(AsPt3(AsPt4(p, w)), w) == AsPt4(p, w)
  {
  }
}
