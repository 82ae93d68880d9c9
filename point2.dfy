/** `Pt2` and `Pt2s` (scad_tree_math/src/pt2.rs): 2D points, their
    arithmetic, and the in-place translation of a point list. */
module Point2 {
  import opened Numeric
  import Point3

  datatype Pt2 = Pt2(x: real, y: real)

  const Origin: Pt2 := Pt2(0.0, 0.0)

  /** Indexing: 0 selects x, 1 selects y; any other index panics. */
  function At(p: Pt2, i: nat): (r: real)
    requires i < 2
    ensures i == 0 ==> r == p.x
    ensures i == 1 ==> r == p.y
  {
    if i == 0 then p.x else p.y
  }

  /** Mutable indexing: replaces the selected coordinate. */
  function SetAt(p: Pt2, i: nat, v: real): (r: Pt2)
    requires i < 2
    ensures At(r, i) == v
    ensures forall j :: 0 <= j < 2 && j != i ==> At(r, j) == At(p, j)
  {
    if i == 0 then p.(x := v) else p.(y := v)
  }

  function Add(a: Pt2, b: Pt2): Pt2 { Pt2(a.x + b.x, a.y + b.y) }
  function Sub(a: Pt2, b: Pt2): Pt2 { Pt2(a.x - b.x, a.y - b.y) }
  function Scale(a: Pt2, k: real): Pt2 { Pt2(a.x * k, a.y * k) }
  function Div(a: Pt2, k: real): Pt2
    requires k != 0.0
  {
    Pt2(a.x / k, a.y / k)
  }
  /** Negation is multiplication by -1. */
  function Neg(a: Pt2): Pt2 { Scale(a, -1.0) }

  function Dot(a: Pt2, b: Pt2): real { a.x * b.x + a.y * b.y }
  function Len2(a: Pt2): real { Dot(a, a) }
  function Len(t: Trig, a: Pt2): real { t.sqrt(Len2(a)) }

  /** `normalized`: the length of (x, y) equals the 3D length of (x, y, 0),
      so the 2D normalisation is the environment's `unit3` on (x, y, 0). */
  function Normalized(t: Trig, a: Pt2): Pt2
  {
    var (x, y, _) := t.unit3(a.x, a.y, 0.0);
    Pt2(x, y)
  }

  /** `rotated`: counter-clockwise rotation by `degrees` about the origin. */
  function Rotated(t: Trig, p: Pt2, degrees: real): Pt2
  {
    var c := t.dcos(degrees);
    var s := t.dsin(degrees);
    Pt2(p.x * c - p.y * s, p.x * s + p.y * c)
  }

  function Lerp(a: Pt2, b: Pt2, k: real): Pt2 { Add(a, Scale(Sub(b, a), k)) }

  /** `to_xz`: the point placed in the xz plane. */
  function ToXz(p: Pt2): (r: Point3.Pt3)
    ensures r.y == 0.0
    ensures Project(r) == p
  {
    Point3.Pt3(p.x, 0.0, p.y)
  }

  /** `as_pt3`: the point lifted to height `z`. */
  function AsPt3(p: Pt2, z: real): (r: Point3.Pt3)
    ensures r.z == z
    ensures Pt2(r.x, r.y) == p
  {
    Point3.Pt3(p.x, p.y, z)
  }

  /** Drops y: the inverse of `ToXz` on the xz plane. */
  function Project(q: Point3.Pt3): Pt2 { Pt2(q.x, q.z) }

  /** Addition and subtraction undo each other, negation is an involution. */
  lemma AddSubInverse(a: Pt2, b: Pt2)
    ensures Sub(Add(a, b), b) == a
    ensures Add(Sub(a, b), b) == a
    ensures Neg(Neg(a)) == a
    ensures Add(a, Neg(a)) == Origin
  {
  }

  /** The dot product is symmetric and a squared length never negative. */
  lemma DotProperties(a: Pt2, b: Pt2)
    ensures Dot(a, b) == Dot(b, a)
    ensures Len2(a) >= 0.0
  {
    SquareNonNegative(a.x);
    SquareNonNegative(a.y);
  }

  /** `lerp` starts at `a` for 0 and reaches `b` for 1. */
  lemma LerpEnds(a: Pt2, b: Pt2)
    ensures Lerp(a, b, 0.0) == a
    ensures Lerp(a, b, 1.0) == b
  {
  }

  /** A rotation keeps the squared length where the Pythagorean identity
      holds for the angle. */
  lemma RotatedKeepsLength(t: Trig, p: Pt2, degrees: real)
    requires Pythagorean(t, degrees)
    ensures Len2(Rotated(t, p, degrees)) == Len2(p)
  {
    var q := Rotated(t, p, degrees);
    Point3.PlaneRotationKeepsLength(p.x, p.y, t.dsin(degrees), t.dcos(degrees), q.x, q.y);
  }

  /** A rotation by `-degrees` undoes one by `degrees` where sine is odd,
      cosine even, and the Pythagorean identity holds. */
  lemma RotatedInverse(t: Trig, p: Pt2, degrees: real)
    requires Pythagorean(t, degrees) && Symmetric(t, degrees)
    ensures Rotated(t, Rotated(t, p, degrees), -degrees) == p
  {
    Point3.RotatedZInverse(t, Point3.Pt3(p.x, p.y, 0.0), degrees);
  }

  /** A rotation by zero degrees is the identity where it is exact. */
  lemma RotatedZero(t: Trig, p: Pt2)
    requires ExactAtZero(t)
    ensures Rotated(t, p, 0.0) == p
  {
  }

  /** `Pt2s::translate`, as a value. */
  function Translated(s: seq<Pt2>, offset: Pt2): (r: seq<Pt2>)
    ensures |r| == |s|
  {
    seq(|s|, i requires 0 <= i < |s| => Add(s[i], offset))
  }

  /** Translating by `offset` and then by its negation restores the list. */
  lemma TranslatedInverse(s: seq<Pt2>, offset: Pt2)
    ensures Translated(Translated(s, offset), Neg(offset)) == s
  {
    assert forall i :: 0 <= i < |s| ==> Add(Add(s[i], offset), Neg(offset)) == s[i];
  }

  /** `Pt2s::translate`: adds `offset` to every point in place. */
  method Translate(pts: array<Pt2>, offset: Pt2)
    modifies pts
    ensures pts[..] == Translated(old(pts[..]), offset)
  {
    for i := 0 to pts.Length
      invariant pts[..i] == Translated(old(pts[..i]), offset)
      invariant pts[i..] == old(pts[i..])
    {
      pts[i] := Add(pts[i], offset);
    }
  }
}
