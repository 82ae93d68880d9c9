/** `Mt4` (scadder_math/src/mt4.rs): 4x4 transforms stored as four rows
    x, y, z, w of `Pt4`. A matrix maps a point p to
    p.x * row x + p.y * row y + p.z * row z + p.w * row w. */
module Matrix4 {
  import opened Numeric
  import opened Wrappers
  import P3 = Point3
  import P4 = Point4

  datatype Mt4 = Mt4(x: P4.Pt4, y: P4.Pt4, z: P4.Pt4, w: P4.Pt4)

  /** Row `k` (0..3) of the matrix. */
  function Row(m: Mt4, k: nat): P4.Pt4
    requires k < 4
  {
    if k == 0 then m.x else if k == 1 then m.y else if k == 2 then m.z else m.w
  }

  /** `Index`: entry `i` is coordinate `i % 4` of row `i / 4`; any index
      from 16 on panics. */
  function At(m: Mt4, i: nat): real
    requires i < 16
  {
    if i < 4 then P4.At(m.x, i)
    else if i < 8 then P4.At(m.y, i - 4)
    else if i < 12 then P4.At(m.z, i - 8)
    else P4.At(m.w, i - 12)
  }

  /** `Index` is row-major: entry `i` is coordinate `i % 4` of row `i / 4`. */
  lemma AtRowMajor(m: Mt4, i: nat)
    requires i < 16
    ensures At(m, i) == P4.At(Row(m, i / 4), i % 4)
  {
  }

  /** `IndexMut`: writes the slot `At` reads and no other. */
  function SetAt(m: Mt4, i: nat, v: real): (r: Mt4)
    requires i < 16
    ensures At(r, i) == v
    ensures forall j :: 0 <= j < 16 && j != i ==> At(r, j) == At(m, j)
  {
    if i < 4 then m.(x := P4.SetAt(m.x, i, v))
    else if i < 8 then m.(y := P4.SetAt(m.y, i - 4, v))
    else if i < 12 then m.(z := P4.SetAt(m.z, i - 8, v))
    else m.(w := P4.SetAt(m.w, i - 12, v))
  }

  function Transposed(m: Mt4): Mt4
  {
    Mt4(
      P4.Pt4(m.x.x, m.y.x, m.z.x, m.w.x),
      P4.Pt4(m.x.y, m.y.y, m.z.y, m.w.y),
      P4.Pt4(m.x.z, m.y.z, m.z.z, m.w.z),
      P4.Pt4(m.x.w, m.y.w, m.z.w, m.w.w))
  }

  /** Transposition swaps entry (i, j) with entry (j, i) and is an
      involution. */
  lemma TransposedProperties(m: Mt4)
    ensures forall i, j :: 0 <= i < 4 && 0 <= j < 4 ==>
      P4.At(Row(Transposed(m), i), j) == P4.At(Row(m, j), i)
    ensures Transposed(Transposed(m)) == m
  {
  }

  function Identity(): Mt4
  {
    Mt4(
      P4.Pt4(1.0, 0.0, 0.0, 0.0),
      P4.Pt4(0.0, 1.0, 0.0, 0.0),
      P4.Pt4(0.0, 0.0, 1.0, 0.0),
      P4.Pt4(0.0, 0.0, 0.0, 1.0))
  }

  /** `scale_matrix`: the identity with x.x, y.y and z.z replaced. */
  function ScaleMatrix(x: real, y: real, z: real): (r: Mt4)
    ensures At(r, 0) == x && At(r, 5) == y && At(r, 10) == z
    ensures forall i :: 0 <= i < 16 && i != 0 && i != 5 && i != 10 ==> At(r, i) == At(Identity(), i)
  {
    var r0 := Identity();
    var r1 := r0.(x := r0.x.(x := x));
    var r2 := r1.(y := r1.y.(y := y));
    r2.(z := r2.z.(z := z))
  }

  /** `translate_matrix`: the identity with w.x, w.y and w.z replaced. */
  function TranslateMatrix(x: real, y: real, z: real): (r: Mt4)
    ensures At(r, 12) == x && At(r, 13) == y && At(r, 14) == z
    ensures forall i :: 0 <= i < 12 || i == 15 ==> At(r, i) == At(Identity(), i)
  {
    var r0 := Identity();
    var r1 := r0.(w := r0.w.(x := x));
    var r2 := r1.(w := r1.w.(y := y));
    r2.(w := r2.w.(z := z))
  }

  /** `rot_x_matrix`, `rot_y_matrix`, `rot_z_matrix`: rotations about the
      principal axes, written row-wise and then transposed. */
  function RotXMatrix(t: Trig, degrees: real): Mt4
  {
    var c := t.dcos(degrees);
    var s := t.dsin(degrees);
    Transposed(Mt4(
      P4.Pt4(1.0, 0.0, 0.0, 0.0),
      P4.Pt4(0.0, c, -s, 0.0),
      P4.Pt4(0.0, s, c, 0.0),
      P4.Pt4(0.0, 0.0, 0.0, 1.0)))
  }

  function RotYMatrix(t: Trig, degrees: real): Mt4
  {
    var c := t.dcos(degrees);
    var s := t.dsin(degrees);
    Transposed(Mt4(
      P4.Pt4(c, 0.0, s, 0.0),
      P4.Pt4(0.0, 1.0, 0.0, 0.0),
      P4.Pt4(-s, 0.0, c, 0.0),
      P4.Pt4(0.0, 0.0, 0.0, 1.0)))
  }

  function RotZMatrix(t: Trig, degrees: real): Mt4
  {
    var c := t.dcos(degrees);
    var s := t.dsin(degrees);
    Transposed(Mt4(
      P4.Pt4(c, -s, 0.0, 0.0),
      P4.Pt4(s, c, 0.0, 0.0),
      P4.Pt4(0.0, 0.0, 1.0, 0.0),
      P4.Pt4(0.0, 0.0, 0.0, 1.0)))
  }

  /** `rot_vec` as written: the rotation about the axis (x, y, z), whose
      third row has `z * s` where the axis-angle formula has `y * s`. */
  function RotVecAsWritten(t: Trig, x: real, y: real, z: real, degrees: real): Mt4
  {
    var c := t.dcos(degrees);
    var s := t.dsin(degrees);
    Transposed(Mt4(
      P4.Pt4(c + x * x * (1.0 - c), x * y * (1.0 - c) - z * s, x * z * (1.0 - c) + y * s, 0.0),
      P4.Pt4(y * x * (1.0 - c) + z * s, c + y * y * (1.0 - c), y * z * (1.0 - c) - x * s, 0.0),
      P4.Pt4(z * x * (1.0 - c) - z * s, z * y * (1.0 - c) + x * s, c + z * z * (1.0 - c), 0.0),
      P4.Pt4(0.0, 0.0, 0.0, 1.0)))
  }

  /** About the y axis, `rot_vec` as written disagrees with `rot_y_matrix`
      whenever the sine of the angle is not zero. */
  lemma RotVecAsWrittenMissesYAxis(t: Trig, degrees: real)
    requires t.dsin(degrees) != 0.0
    ensures RotVecAsWritten(t, 0.0, 1.0, 0.0, degrees) != RotYMatrix(t, degrees)
  {
    assert RotVecAsWritten(t, 0.0, 1.0, 0.0, degrees).x.z == 0.0;
    assert RotYMatrix(t, degrees).x.z == -t.dsin(degrees);
  }

  /** `rot_vec` with the axis-angle (Rodrigues) formula. */
  function RotVec(t: Trig, x: real, y: real, z: real, degrees: real): Mt4
  {
    var c := t.dcos(degrees);
    var s := t.dsin(degrees);
    Transposed(Mt4(
      P4.Pt4(c + x * x * (1.0 - c), x * y * (1.0 - c) - z * s, x * z * (1.0 - c) + y * s, 0.0),
      P4.Pt4(y * x * (1.0 - c) + z * s, c + y * y * (1.0 - c), y * z * (1.0 - c) - x * s, 0.0),
      P4.Pt4(z * x * (1.0 - c) - y * s, z * y * (1.0 - c) + x * s, c + z * z * (1.0 - c), 0.0),
      P4.Pt4(0.0, 0.0, 0.0, 1.0)))
  }

  /** About each principal axis, `RotVec` is the matching principal
      rotation matrix. */
  lemma RotVecPrincipalAxes(t: Trig, degrees: real)
    ensures RotVec(t, 1.0, 0.0, 0.0, degrees) == RotXMatrix(t, degrees)
    ensures RotVec(t, 0.0, 1.0, 0.0, degrees) == RotYMatrix(t, degrees)
    ensures RotVec(t, 0.0, 0.0, 1.0, degrees) == RotZMatrix(t, degrees)
  {
  }

  /** The 16 entries in index order. */
  function Entries(m: Mt4): (r: seq<real>)
    ensures |r| == 16
    ensures forall i :: 0 <= i < 16 ==> r[i] == At(m, i)
  {
    [m.x.x, m.x.y, m.x.z, m.x.w, m.y.x, m.y.y, m.y.z, m.y.w,
     m.z.x, m.z.y, m.z.z, m.z.w, m.w.x, m.w.y, m.w.z, m.w.w]
  }

  /** Entry `i` of the adjugate that `inverse` computes before dividing by
      the determinant (scadder_math/src/mt4.rs:164-252). */
  function CofactorAt(m: Mt4, i: nat): real
    requires i < 16
  {
    var a := Entries(m);
    match i
    case 0 => a[5] * a[10] * a[15] - a[5] * a[11] * a[14] - a[9] * a[6] * a[15]
              + a[9] * a[7] * a[14] + a[13] * a[6] * a[11] - a[13] * a[7] * a[10]
    case 4 => -a[4] * a[10] * a[15] + a[4] * a[11] * a[14] + a[8] * a[6] * a[15]
              - a[8] * a[7] * a[14] - a[12] * a[6] * a[11] + a[12] * a[7] * a[10]
    case 8 => a[4] * a[9] * a[15] - a[4] * a[11] * a[13] - a[8] * a[5] * a[15]
              + a[8] * a[7] * a[13] + a[12] * a[5] * a[11] - a[12] * a[7] * a[9]
    case 12 => -a[4] * a[9] * a[14] + a[4] * a[10] * a[13] + a[8] * a[5] * a[14]
               - a[8] * a[6] * a[13] - a[12] * a[5] * a[10] + a[12] * a[6] * a[9]
    case 1 => -a[1] * a[10] * a[15] + a[1] * a[11] * a[14] + a[9] * a[2] * a[15]
              - a[9] * a[3] * a[14] - a[13] * a[2] * a[11] + a[13] * a[3] * a[10]
    case 5 => a[0] * a[10] * a[15] - a[0] * a[11] * a[14] - a[8] * a[2] * a[15]
              + a[8] * a[3] * a[14] + a[12] * a[2] * a[11] - a[12] * a[3] * a[10]
    case 9 => -a[0] * a[9] * a[15] + a[0] * a[11] * a[13] + a[8] * a[1] * a[15]
              - a[8] * a[3] * a[13] - a[12] * a[1] * a[11] + a[12] * a[3] * a[9]
    case 13 => a[0] * a[9] * a[14] - a[0] * a[10] * a[13] - a[8] * a[1] * a[14]
               + a[8] * a[2] * a[13] + a[12] * a[1] * a[10] - a[12] * a[2] * a[9]
    case 2 => a[1] * a[6] * a[15] - a[1] * a[7] * a[14] - a[5] * a[2] * a[15]
              + a[5] * a[3] * a[14] + a[13] * a[2] * a[7] - a[13] * a[3] * a[6]
    case 6 => -a[0] * a[6] * a[15] + a[0] * a[7] * a[14] + a[4] * a[2] * a[15]
              - a[4] * a[3] * a[14] - a[12] * a[2] * a[7] + a[12] * a[3] * a[6]
    case 10 => a[0] * a[5] * a[15] - a[0] * a[7] * a[13] - a[4] * a[1] * a[15]
               + a[4] * a[3] * a[13] + a[12] * a[1] * a[7] - a[12] * a[3] * a[5]
    case 14 => -a[0] * a[5] * a[14] + a[0] * a[6] * a[13] + a[4] * a[1] * a[14]
               - a[4] * a[2] * a[13] - a[12] * a[1] * a[6] + a[12] * a[2] * a[5]
    case 3 => -a[1] * a[6] * a[11] + a[1] * a[7] * a[10] + a[5] * a[2] * a[11]
              - a[5] * a[3] * a[10] - a[9] * a[2] * a[7] + a[9] * a[3] * a[6]
    case 7 => a[0] * a[6] * a[11] - a[0] * a[7] * a[10] - a[4] * a[2] * a[11]
              + a[4] * a[3] * a[10] + a[8] * a[2] * a[7] - a[8] * a[3] * a[6]
    case 11 => -a[0] * a[5] * a[11] + a[0] * a[7] * a[9] + a[4] * a[1] * a[11]
               - a[4] * a[3] * a[9] - a[8] * a[1] * a[7] + a[8] * a[3] * a[5]
    case 15 => a[0] * a[5] * a[10] - a[0] * a[6] * a[9] - a[4] * a[1] * a[10]
               + a[4] * a[2] * a[9] + a[8] * a[1] * a[6] - a[8] * a[2] * a[5]
  }

  /** The determinant, expanded along the first row. */
  function Det(m: Mt4): real
  {
    At(m, 0) * CofactorAt(m, 0) + At(m, 1) * CofactorAt(m, 4)
    + At(m, 2) * CofactorAt(m, 8) + At(m, 3) * CofactorAt(m, 12)
  }

  /** The first half of `inverse`: a matrix filled with the adjugate
      through `IndexMut`, in the source's order. */
  method FillAdjugate(m: Mt4) returns (out: Mt4)
    ensures forall j :: 0 <= j < 16 ==> At(out, j) == CofactorAt(m, j)
  {
    out := Identity();
    out := SetAt(out, 0, CofactorAt(m, 0));
    out := SetAt(out, 4, CofactorAt(m, 4));
    out := SetAt(out, 8, CofactorAt(m, 8));
    out := SetAt(out, 12, CofactorAt(m, 12));
    out := SetAt(out, 1, CofactorAt(m, 1));
    out := SetAt(out, 5, CofactorAt(m, 5));
    out := SetAt(out, 9, CofactorAt(m, 9));
    out := SetAt(out, 13, CofactorAt(m, 13));
    out := SetAt(out, 2, CofactorAt(m, 2));
    out := SetAt(out, 6, CofactorAt(m, 6));
    out := SetAt(out, 10, CofactorAt(m, 10));
    out := SetAt(out, 14, CofactorAt(m, 14));
    out := SetAt(out, 3, CofactorAt(m, 3));
    out := SetAt(out, 7, CofactorAt(m, 7));
    out := SetAt(out, 11, CofactorAt(m, 11));
    out := SetAt(out, 15, CofactorAt(m, 15));
  }

  /** The second half of `inverse`: every entry multiplied by `k`, one
      index at a time through `IndexMut`. */
  method ScaleEntries(adj: Mt4, k: real) returns (out: Mt4)
    ensures forall i :: 0 <= i < 16 ==> At(out, i) == At(adj, i) * k
  {
    out := adj;
    for i := 0 to 16
      invariant forall j :: 0 <= j < i ==> At(out, j) == At(adj, j) * k
      invariant forall j :: i <= j < 16 ==> At(out, j) == At(adj, j)
    {
      out := SetAt(out, i, At(out, i) * k);
    }
  }

  /** `inverse`: the adjugate and, unless the determinant is zero, every
      entry scaled by 1/det. */
  method Inverse(m: Mt4) returns (r: Option<Mt4>)
    ensures r.None? <==> Det(m) == 0.0
    ensures r.Some? ==> forall i :: 0 <= i < 16 ==> At(r.value, i) == CofactorAt(m, i) * (1.0 / Det(m))
  {
    var out := FillAdjugate(m);
    var det := At(m, 0) * At(out, 0) + At(m, 1) * At(out, 4) + At(m, 2) * At(out, 8) + At(m, 3) * At(out, 12);
    DetThroughAdjugate(m, out);
    if det == 0.0 {
      return None;
    }
    out := ScaleEntries(out, 1.0 / det);
    return Some(out);
  }

  /** The determinant as `inverse` computes it, from the first column of the
      adjugate already filled in. */
  lemma DetThroughAdjugate(m: Mt4, adj: Mt4)
    requires forall j :: 0 <= j < 16 ==> At(adj, j) == CofactorAt(m, j)
    ensures At(m, 0) * At(adj, 0) + At(m, 1) * At(adj, 4) + At(m, 2) * At(adj, 8) + At(m, 3) * At(adj, 12) == Det(m)
  {
    assert At(adj, 0) == CofactorAt(m, 0) && At(adj, 4) == CofactorAt(m, 4);
    assert At(adj, 8) == CofactorAt(m, 8) && At(adj, 12) == CofactorAt(m, 12);
  }

  /** The identity's adjugate is the identity and its determinant is 1. */
  lemma IdentityInverse()
    ensures Det(Identity()) == 1.0
    ensures forall i :: 0 <= i < 16 ==> CofactorAt(Identity(), i) == At(Identity(), i)
  {
  }

  /** `Mt4 * Pt4` as written: each component is a transposed row dotted
      with the point through `Pt4::dot`, which ignores w. */
  function MulPt4AsWritten(m: Mt4, p: P4.Pt4): P4.Pt4
  {
    var t := Transposed(m);
    P4.Pt4(P4.Dot(t.x, p), P4.Dot(t.y, p), P4.Dot(t.z, p), P4.Dot(t.w, p))
  }

  /** As written, the product drops the point's w: the identity maps every
      point to itself with w = 0, and a translation has no effect. */
  lemma MulPt4AsWrittenDropsW(p: P4.Pt4, a: real, b: real, c: real)
    ensures MulPt4AsWritten(Identity(), p) == p.(w := 0.0)
    ensures MulPt4AsWritten(TranslateMatrix(a, b, c), P4.Pt4(0.0, 0.0, 0.0, 1.0)) == P4.Pt4(0.0, 0.0, 0.0, 0.0)
  {
  }

  /** The full homogeneous dot product over x, y, z and w. */
  function Dot4(a: P4.Pt4, b: P4.Pt4): real
  {
    a.x * b.x + a.y * b.y + a.z * b.z + a.w * b.w
  }

  /** `Mt4 * Pt4` with the w term included. */
  function MulPt4(m: Mt4, p: P4.Pt4): P4.Pt4
  {
    var t := Transposed(m);
    P4.Pt4(Dot4(t.x, p), Dot4(t.y, p), Dot4(t.z, p), Dot4(t.w, p))
  }

  /** With the w term the identity fixes every point, a translation moves a
      point with w = 1 by its offset, and a scaling scales it. */
  lemma MulPt4Transforms(q: P3.Pt3, a: real, b: real, c: real, p: P4.Pt4)
    ensures MulPt4(Identity(), p) == p
    ensures MulPt4(TranslateMatrix(a, b, c), P4.AsPt4(q, 1.0)) == P4.AsPt4(P3.Add(q, P3.Pt3(a, b, c)), 1.0)
    ensures MulPt4(ScaleMatrix(a, b, c), p) == P4.Pt4(p.x * a, p.y * b, p.z * c, p.w)
  {
  }

  /** Where the w row carries no translation, both products give the same
      x, y and z. */
  lemma MulPt4Agrees(m: Mt4, p: P4.Pt4)
    requires m.w.x == 0.0 && m.w.y == 0.0 && m.w.z == 0.0
    ensures P4.AsPt3(MulPt4(m, p)) == P4.AsPt3(MulPt4AsWritten(m, p))
  {
  }

  /** `Mt4 * Pt3`: the upper-left 3x3 block applied to the point. */
  function MulPt3(m: Mt4, p: P3.Pt3): (r: P3.Pt3)
    ensures r == P4.AsPt3(MulPt4AsWritten(m, P4.AsPt4(p, 0.0)))
  {
    var t := Transposed(m);
    P3.Pt3(P3.Dot(P4.AsPt3(t.x), p), P3.Dot(P4.AsPt3(t.y), p), P3.Dot(P4.AsPt3(t.z), p))
  }

  /** `Mt4 * Mt4` as written: every row of `rhs` is multiplied through the
      w-dropping product. */
  function MulMt4AsWritten(m: Mt4, rhs: Mt4): Mt4
  {
    Mt4(MulPt4AsWritten(m, rhs.x), MulPt4AsWritten(m, rhs.y),
        MulPt4AsWritten(m, rhs.z), MulPt4AsWritten(m, rhs.w))
  }

  /** As written, the identity is not a unit of the product: I * I has
      w.w = 0 where I has 1. */
  lemma MulMt4AsWrittenIdentity()
    ensures MulMt4AsWritten(Identity(), Identity()).w.w == 0.0
    ensures Identity().w.w == 1.0
  {
    var i := Identity();
    var p := MulMt4AsWritten(i, i);
    assert p.w == MulPt4AsWritten(i, i.w);
    MulPt4AsWrittenDropsW(i.w, 0.0, 0.0, 0.0);
  }

  /** `Mt4 * Mt4` with the w term included. */
  function MulMt4(m: Mt4, rhs: Mt4): Mt4
  {
    Mt4(MulPt4(m, rhs.x), MulPt4(m, rhs.y), MulPt4(m, rhs.z), MulPt4(m, rhs.w))
  }

  /** With the w term the identity is a two-sided unit of the product. */
  lemma MulMt4Identity(m: Mt4)
    ensures MulMt4(Identity(), m) == m
    ensures MulMt4(m, Identity()) == m
  {
  }

  /** The normalised direction from `eye` to `center`. */
  function Forward(t: Trig, eye: P3.Pt3, center: P3.Pt3): P3.Pt3
  {
    P3.Normalized(t, P3.Sub(center, eye))
  }

  /** `look_at_matrix_lh`: the basis whose z row is the forward direction;
      when `up` is parallel to it, a rotation by 180 degrees about x (for
      opposite directions) or the identity. */
  function LookAtMatrixLh(t: Trig, eye: P3.Pt3, center: P3.Pt3, up: P3.Pt3): (r: Mt4)
    ensures var f := Forward(t, eye, center);
      P3.Cross(up, f) == P3.Origin ==>
        r == (if P3.Dot(up, f) < 0.0 then RotXMatrix(t, 180.0) else Identity())
    ensures var f := Forward(t, eye, center);
      P3.Cross(up, f) != P3.Origin ==>
        P4.AsPt3(r.z) == f && r.z.w == -P3.Dot(f, eye)
        && P3.Dot(P4.AsPt3(r.y), f) == 0.0 && P3.Dot(P4.AsPt3(r.y), P4.AsPt3(r.x)) == 0.0
    ensures r.w == P4.Pt4(0.0, 0.0, 0.0, 1.0)
  {
    var f := Forward(t, eye, center);
    var s := P3.Cross(up, f);
    if s == P3.Origin then
      if P3.Dot(up, f) < 0.0 then RotXMatrix(t, 180.0) else Identity()
    else
      var sn := P3.Normalized(t, s);
      var u := P3.Cross(f, sn);
      P3.CrossProperties(f, sn);
      Mt4(
        P4.Pt4(sn.x, sn.y, sn.z, -P3.Dot(sn, eye)),
        P4.Pt4(u.x, u.y, u.z, -P3.Dot(u, eye)),
        P4.Pt4(f.x, f.y, f.z, -P3.Dot(f, eye)),
        P4.Pt4(0.0, 0.0, 0.0, 1.0))
  }

  /** `Pt3s::apply_matrix` (scad_tree_math/src/pt3.rs): transforms every
      point, lifted with w = 1, in place. */
  method ApplyMatrix(pts: array<P3.Pt3>, m: Mt4)
    modifies pts
    ensures pts[..] == P3.Mapped(old(pts[..]), p => P4.AsPt3(MulPt4(m, P4.AsPt4(p, 1.0))))
  {
    for i := 0 to pts.Length
      invariant pts[..i] == P3.Mapped(old(pts[..i]), p => P4.AsPt3(MulPt4(m, P4.AsPt4(p, 1.0))))
      invariant pts[i..] == old(pts[i..])
    {
      pts[i] := P4.AsPt3(MulPt4(m, P4.AsPt4(pts[i], 1.0)));
    }
  }
}
