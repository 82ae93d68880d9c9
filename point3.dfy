/** `Pt3` and `Pt3s` (scad_tree_math/src/pt3.rs): 3D points, their
    arithmetic, and the in-place transformations of a point list. */
module Point3 {
  import opened Numeric

  datatype Pt3 = Pt3(x: real, y: real, z: real)

  const Origin: Pt3 := Pt3(0.0, 0.0, 0.0)

  /** Indexing: 0, 1, 2 select x, y, z; any other index panics. */
  function At(p: Pt3, i: nat): (r: real)
    requires i < 3
    ensures i == 0 ==> r == p.x
    ensures i == 1 ==> r == p.y
    ensures i == 2 ==> r == p.z
  {
    if i == 0 then p.x else if i == 1 then p.y else p.z
  }

  /** Mutable indexing: replaces the selected coordinate. */
  function SetAt(p: Pt3, i: nat, v: real): (r: Pt3)
    requires i < 3
    ensures At(r, i) == v
    ensures forall j :: 0 <= j < 3 && j != i ==> At(r, j) == At(p, j)
  {
    if i == 0 then p.(x := v) else if i == 1 then p.(y := v) else p.(z := v)
  }

  function Add(a: Pt3, b: Pt3): Pt3 { Pt3(a.x + b.x, a.y + b.y, a.z + b.z) }
  function Sub(a: Pt3, b: Pt3): Pt3 { Pt3(a.x - b.x, a.y - b.y, a.z - b.z) }
  function Scale(a: Pt3, k: real): Pt3 { Pt3(a.x * k, a.y * k, a.z * k) }
  function Div(a: Pt3, k: real): Pt3
    requires k != 0.0
  {
    Pt3(a.x / k, a.y / k, a.z / k)
  }
  /** Negation is multiplication by -1. */
  function Neg(a: Pt3): Pt3 { Scale(a, -1.0) }

  function Dot(a: Pt3, b: Pt3): real { a.x * b.x + a.y * b.y + a.z * b.z }
  function Cross(a: Pt3, b: Pt3): Pt3
  {
    Pt3(a.y * b.z - a.z * b.y, a.z * b.x - a.x * b.z, a.x * b.y - a.y * b.x)
  }
  function Len2(a: Pt3): real { Dot(a, a) }
  function Len(t: Trig, a: Pt3): real { t.sqrt(Len2(a)) }

  /** `normalized`: division by the length, the environment's `unit3`. */
  function Normalized(t: Trig, a: Pt3): Pt3
  {
    var (x, y, z) := t.unit3(a.x, a.y, a.z);
    Pt3(x, y, z)
  }

  function RotatedX(t: Trig, p: Pt3, degrees: real): Pt3
  {
    var s := t.dsin(degrees);
    var c := t.dcos(degrees);
    Pt3(p.x, p.y * c - p.z * s, p.y * s + p.z * c)
  }

  function RotatedY(t: Trig, p: Pt3, degrees: real): Pt3
  {
    var s := t.dsin(degrees);
    var c := t.dcos(degrees);
    Pt3(p.x * c - p.z * s, p.y, p.x * s + p.z * c)
  }

  function RotatedZ(t: Trig, p: Pt3, degrees: real): Pt3
  {
    var s := t.dsin(degrees);
    var c := t.dcos(degrees);
    Pt3(p.x * c - p.y * s, p.x * s + p.y * c, p.z)
  }

  function Lerp(a: Pt3, b: Pt3, k: real): Pt3 { Add(a, Scale(Sub(b, a), k)) }

  /** Addition and subtraction undo each other, negation is an involution. */
  lemma AddSubInverse(a: Pt3, b: Pt3)
    ensures Sub(Add(a, b), b) == a
    ensures Add(Sub(a, b), b) == a
    ensures Neg(Neg(a)) == a
    ensures Add(a, Neg(a)) == Origin
  {
  }

  /** The dot product is symmetric. */
  lemma DotSymmetric(a: Pt3, b: Pt3)
    ensures Dot(a, b) == Dot(b, a)
  {
  }

  /** The squared length is never negative. */
  lemma Len2NonNegative(a: Pt3)
    ensures Len2(a) >= 0.0
  {
    SquareNonNegative(a.x);
    SquareNonNegative(a.y);
    SquareNonNegative(a.z);
  }

  /** The cross product is orthogonal to both factors, anti-commutative, and
      vanishes for a vector with itself. */
  lemma CrossProperties(a: Pt3, b: Pt3)
    ensures Dot(Cross(a, b), a) == 0.0
    ensures Dot(Cross(a, b), b) == 0.0
    ensures Cross(b, a) == Neg(Cross(a, b))
    ensures Cross(a, a) == Origin
  {
  }

  /** `lerp` starts at `a` for 0 and reaches `b` for 1. */
  lemma LerpEnds(a: Pt3, b: Pt3)
    ensures Lerp(a, b, 0.0) == a
    ensures Lerp(a, b, 1.0) == b
  {
  }

  /** Each rotation keeps the coordinate of its own axis and, where the
      Pythagorean identity holds for the angle, the squared length. */
  lemma RotatedXKeepsLength(t: Trig, p: Pt3, degrees: real)
    requires Pythagorean(t, degrees)
    ensures RotatedX(t, p, degrees).x == p.x
    ensures Len2(RotatedX(t, p, degrees)) == Len2(p)
  {
    var q := RotatedX(t, p, degrees);
    PlaneRotationKeepsLength(p.y, p.z, t.dsin(degrees), t.dcos(degrees), q.y, q.z);
  }

  lemma RotatedYKeepsLength(t: Trig, p: Pt3, degrees: real)
    requires Pythagorean(t, degrees)
    ensures RotatedY(t, p, degrees).y == p.y
    ensures Len2(RotatedY(t, p, degrees)) == Len2(p)
  {
    var q := RotatedY(t, p, degrees);
    PlaneRotationKeepsLength(p.x, p.z, t.dsin(degrees), t.dcos(degrees), q.x, q.z);
  }

  lemma RotatedZKeepsLength(t: Trig, p: Pt3, degrees: real)
    requires Pythagorean(t, degrees)
    ensures RotatedZ(t, p, degrees).z == p.z
    ensures Len2(RotatedZ(t, p, degrees)) == Len2(p)
  {
    var q := RotatedZ(t, p, degrees);
    PlaneRotationKeepsLength(p.x, p.y, t.dsin(degrees), t.dcos(degrees), q.x, q.y);
  }

  lemma PlaneRotationKeepsLength(u: real, v: real, s: real, c: real, u': real, v': real)
    requires c * c + s * s == 1.0
    requires u' == u * c - v * s && v' == u * s + v * c
    ensures u' * u' + v' * v' == u * u + v * v
  {
    calc {
      u' * u' + v' * v';
      (u * c - v * s) * (u * c - v * s) + (u * s + v * c) * (u * s + v * c);
      u * u * (c * c + s * s) + v * v * (c * c + s * s);
      u * u + v * v;
    }
  }

  /** A rotation about z by `-degrees` undoes one by `degrees` where sine is
      odd, cosine even, and the Pythagorean identity holds. */
  lemma RotatedZInverse(t: Trig, p: Pt3, degrees: real)
    requires Pythagorean(t, degrees) && Symmetric(t, degrees)
    ensures RotatedZ(t, RotatedZ(t, p, degrees), -degrees) == p
  {
    var s, c := t.dsin(degrees), t.dcos(degrees);
    var q := RotatedZ(t, p, degrees);
    calc {
      q.x * c + q.y * s;
      (p.x * c - p.y * s) * c + (p.x * s + p.y * c) * s;
      p.x * (c * c + s * s);
    }
    calc {
      -q.x * s + q.y * c;
      -(p.x * c - p.y * s) * s + (p.x * s + p.y * c) * c;
      p.y * (c * c + s * s);
    }
  }

  /** `Pt3s::translate` and the rotations of a point list, as values. */
  function Translated(s: seq<Pt3>, offset: Pt3): (r: seq<Pt3>)
    ensures |r| == |s|
  {
    seq(|s|, i requires 0 <= i < |s| => Add(s[i], offset))
  }

  function Mapped(s: seq<Pt3>, f: Pt3 -> Pt3): (r: seq<Pt3>)
    ensures |r| == |s|
  {
    seq(|s|, i requires 0 <= i < |s| => f(s[i]))
  }

  /** Translating by `offset` and then by its negation restores the list. */
  lemma TranslatedInverse(s: seq<Pt3>, offset: Pt3)
    ensures Translated(Translated(s, offset), Neg(offset)) == s
  {
    assert forall i :: 0 <= i < |s| ==> Add(Add(s[i], offset), Neg(offset)) == s[i];
  }

  /** `Pt3s::translate`: adds `offset` to every point in place. */
  method Translate(pts: array<Pt3>, offset: Pt3)
    modifies pts
    ensures pts[..] == Translated(old(pts[..]), offset)
  {
    for i := 0 to pts.Length
      invariant pts[..i] == Translated(old(pts[..i]), offset)
      invariant pts[i..] == old(pts[i..])
    {
      pts[i] := Add(pts[i], offset);
    }
  }

  /** `Pt3s::rotate_x`: rotates every point about the x axis in place. */
  method RotateX(t: Trig, pts: array<Pt3>, degrees: real)
    modifies pts
    ensures pts[..] == Mapped(old(pts[..]), p => RotatedX(t, p, degrees))
  {
    for i := 0 to pts.Length
      invariant pts[..i] == Mapped(old(pts[..i]), p => RotatedX(t, p, degrees))
      invariant pts[i..] == old(pts[i..])
    {
      pts[i] := RotatedX(t, pts[i], degrees);
    }
  }

  /** `Pt3s::rotate_y`: rotates every point about the y axis in place. */
  method RotateY(t: Trig, pts: array<Pt3>, degrees: real)
    modifies pts
    ensures pts[..] == Mapped(old(pts[..]), p => RotatedY(t, p, degrees))
  {
    for i := 0 to pts.Length
      invariant pts[..i] == Mapped(old(pts[..i]), p => RotatedY(t, p, degrees))
      invariant pts[i..] == old(pts[i..])
    {
      pts[i] := RotatedY(t, pts[i], degrees);
    }
  }

  /** `Pt3s::rotate_z`: rotates every point about the z axis in place. */
  method RotateZ(t: Trig, pts: array<Pt3>, degrees: real)
    modifies pts
    ensures pts[..] == Mapped(old(pts[..]), p => RotatedZ(t, p, degrees))
  {
    for i := 0 to pts.Length
      invariant pts[..i] == Mapped(old(pts[..i]), p => RotatedZ(t, p, degrees))
      invariant pts[i..] == old(pts[i..])
    {
      pts[i] := RotatedZ(t, pts[i], degrees);
    }
  }
}
