# scad_tree core in Dafny

This project models the core of `scad_tree`, a Rust library that builds
OpenSCAD scene trees and meshes. It also models the `scadder_math` helpers
the core relies on. The model covers:

- the point and matrix algebra (`Pt2`, `Pt3`, `Pt4`, `Mt4`, `approx_eq`);
- the ear-clipping triangulator;
- the polyhedron builders `linear_extrude`, `rotate_extrude` and `sweep`,
  with the cubic bezier chains;
- the 2D profile generators;
- the ISO metric thread mesh;
- the Mersenne Twister;
- the text writers of `Indices`, `Paths` and the `Scad` tree, and the
  `Scad` operators and builders;
- the point `Viewer`.

There is one Dafny module per source file, and each keeps the source's form:

- Pure expressions become functions.
- Loops that push onto vectors become methods with loop invariants. Each is
  proved equal to a function that states the result.
- Types whose fields change in place become classes: `MersenneTwister`
  keeps its 624 words in an `array<bv32>`, and `Viewer` holds its
  `Option<Scad>` field.
- In-place point-list transforms work on arrays.

`dsin`, `dcos`, `sqrt` and vector normalisation are not computed. They are
uninterpreted functions carried in a `Trig` record. The lemmas that need a
trigonometric identity state it as a precondition.

How an `f64`, a `u64` or a quoted string is written is also not modelled. It
is a `Formatter` parameter. Every text the model writes is built from these
pieces.

A panic in the source becomes `None` in the model. This covers `assert!`, a
`len() - 1` that underflows, and `unwrap` on `None`. An index out of range
becomes a precondition.

Module map:

| module | source |
|---|---|
| Numeric | scadder_math/src/lib.rs |
| Point2, Point3, Point4 | scad_tree_math/src/pt2.rs, pt3.rs, pt4.rs |
| Matrix4 | scadder_math/src/mt4.rs |
| Render, IndexLists | the list writers of pt2.rs/pt3.rs, scad_tree/src/lib.rs and scadder/src/lib.rs |
| Mesh | the face-building loops shared by dim3.rs and metric_thread.rs |
| Triangulate | scad_tree/src/triangulate.rs |
| Dim2 | scad_tree/src/dim2.rs |
| Dim3 | scad_tree/src/dim3.rs |
| MetricThread | scad_tree/src/metric_thread.rs |
| Rng | scadder_math/src/rng.rs |
| Scad | scad_tree/src/scad.rs |
| Viewer | scad_tree/src/viewer.rs |

`Indices` and `Paths` are plain datatypes. Their constructors `new`,
`from_indices`, `with_capacity`, `from_paths` and `from_faces` wrap the
vector unchanged. `Faces` is a type synonym of `Paths`.

## Model

| member | source | states |
|---|---|---|
| Numeric.Abs | scadder_math/src/lib.rs:76-78 | the absolute value `approx_eq` takes is non-negative and is x or -x |
| Numeric.ApproxEqInterval | scadder_math/src/lib.rs:76-78 | `approx_eq(a, b, e)` holds exactly when a lies strictly inside (b - e, b + e) |
| Numeric.ApproxEqProperties | scadder_math/src/lib.rs:76-78 | `approx_eq` is symmetric; `approx_eq(a, a, e)` holds iff e > 0; it never holds for e <= 0 |
| Point2.At | scad_tree_math/src/pt2.rs:89-99 | `Index` maps 0 to x and 1 to y; other indices are excluded (the source panics) |
| Point2.SetAt | scad_tree_math/src/pt2.rs:101-109 | `IndexMut` writes the slot `Index` reads and leaves the other coordinate |
| Point2.ToXz | scad_tree_math/src/pt2.rs:215-217 | `to_xz` puts (x, y) at (x, 0, y); projecting back gives the point |
| Point2.AsPt3 | scad_tree_math/src/pt2.rs:219-221 | `as_pt3(z)` keeps x and y and sets z |
| Point2.AddSubInverse | scad_tree_math/src/pt2.rs:111-173 | the componentwise `+` and `-` undo each other; negation is an involution and a + (-a) is the origin |
| Point2.DotProperties | scad_tree_math/src/pt2.rs:180-186 | `dot` is symmetric and `len2` is never negative |
| Point2.LerpEnds | scad_tree_math/src/pt2.rs:211-213 | `lerp(b, 0)` is the point and `lerp(b, 1)` is b |
| Point2.RotatedKeepsLength | scad_tree_math/src/pt2.rs:205-209 | `rotated` keeps the squared length when cos² + sin² = 1 at the angle |
| Point2.RotatedInverse | scad_tree_math/src/pt2.rs:205-209 | rotating by -degrees undoes rotating by degrees (cosine even, sine odd, Pythagorean identity) |
| Point2.RotatedZero | scad_tree_math/src/pt2.rs:205-209 | a rotation by 0 degrees is the identity when cos 0 = 1 and sin 0 = 0 |
| Point2.Translated | scad_tree_math/src/pt2.rs:70-74 | translating a point list keeps its length |
| Point2.TranslatedInverse | scad_tree_math/src/pt2.rs:70-74 | translating by the offset and then by its negation restores the list |
| Point2.Translate | scad_tree_math/src/pt2.rs:70-74 | `Pt2s::translate` adds the offset to every element in place, keeping length and order |
| Point3.At | scad_tree_math/src/pt3.rs:119-130 | `Index` maps 0, 1, 2 to x, y, z; other indices are excluded (the source panics) |
| Point3.SetAt | scad_tree_math/src/pt3.rs:132-141 | `IndexMut` writes the slot `Index` reads and leaves the others |
| Point3.AddSubInverse | scad_tree_math/src/pt3.rs:143-205 | the componentwise `+` and `-` undo each other; negation is an involution |
| Point3.DotSymmetric | scad_tree_math/src/pt3.rs:212-214 | `dot` is symmetric |
| Point3.Len2NonNegative | scad_tree_math/src/pt3.rs:224-226 | `len2` is never negative |
| Point3.CrossProperties | scad_tree_math/src/pt3.rs:216-222 | `cross(a, b)` is orthogonal to a and to b, is anticommutative, and a × a is zero |
| Point3.LerpEnds | scad_tree_math/src/pt3.rs:271-273 | `lerp(b, 0)` is the point and `lerp(b, 1)` is b |
| Point3.RotatedXKeepsLength | scad_tree_math/src/pt3.rs:241-245 | `rotated_x` keeps x, and keeps the squared length when cos² + sin² = 1 |
| Point3.RotatedYKeepsLength | scad_tree_math/src/pt3.rs:251-255 | `rotated_y` keeps y, and keeps the squared length when cos² + sin² = 1 |
| Point3.RotatedZKeepsLength | scad_tree_math/src/pt3.rs:261-265 | `rotated_z` keeps z, and keeps the squared length when cos² + sin² = 1 |
| Point3.RotatedZInverse | scad_tree_math/src/pt3.rs:261-265 | rotating about z by -degrees undoes rotating by degrees |
| Point3.Translated | scad_tree_math/src/pt3.rs:71-75 | translating a point list keeps its length |
| Point3.Mapped | scad_tree_math/src/pt3.rs:83-102 | mapping a transform over a point list keeps its length |
| Point3.TranslatedInverse | scad_tree_math/src/pt3.rs:71-75 | translating by the offset and then by its negation restores the list |
| Point3.Translate | scad_tree_math/src/pt3.rs:71-75 | `Pt3s::translate` adds the offset to every element in place |
| Point3.RotateX | scad_tree_math/src/pt3.rs:83-88 | `Pt3s::rotate_x` replaces every element by its rotation, in place and in order |
| Point3.RotateY | scad_tree_math/src/pt3.rs:90-95 | `Pt3s::rotate_y` replaces every element by its rotation, in place and in order |
| Point3.RotateZ | scad_tree_math/src/pt3.rs:97-102 | `Pt3s::rotate_z` replaces every element by its rotation, in place and in order |
| Point4.At | scad_tree_math/src/pt4.rs:87-99 | `Index` maps 0..3 to x, y, z, w; other indices are excluded (the source panics) |
| Point4.SetAt | scad_tree_math/src/pt4.rs:101-111 | `IndexMut` writes the slot `Index` reads and leaves the others |
| Point4.AsPt4 | scad_tree_math/src/pt3.rs:275-277 | `as_pt4(w)` keeps x, y, z and sets w |
| Point4.Dot | scad_tree_math/src/pt4.rs:192-194 | `Pt4::dot` is the 3D dot product of the points without w: w takes no part |
| Point4.Cross | scad_tree_math/src/pt4.rs:196-203 | `cross` is the 3D cross product with w = 0 |
| Point4.Normalized | scad_tree_math/src/pt4.rs:217-220 | `normalized` is the 3D normalisation of (x, y, z) with w = 0 |
| Point4.DotIgnoresW | scad_tree_math/src/pt4.rs:192-194 | changing w changes neither `dot` nor `len2` |
| Point4.LerpEnds | scad_tree_math/src/pt4.rs:222-224 | `lerp(b, 0)` is the point and `lerp(b, 1)` is b |
| Point4.AsPt4RoundTrip | scad_tree_math/src/pt4.rs:226-228 | `as_pt3` after `as_pt4` is the identity |
| Matrix4.AtRowMajor | scadder_math/src/mt4.rs:387-411 | `Index` is row-major: entry i is coordinate i % 4 of row i / 4 (x.x, x.y, … w.w) |
| Matrix4.SetAt | scadder_math/src/mt4.rs:413-435 | `IndexMut` writes the slot `Index` reads and no other |
| Matrix4.TransposedProperties | scadder_math/src/mt4.rs:48-55 | `transposed` swaps entry (i, j) with (j, i) and is an involution |
| Matrix4.ScaleMatrix | scadder_math/src/mt4.rs:66-72 | `scale_matrix` is the identity with only x.x, y.y, z.z replaced |
| Matrix4.TranslateMatrix | scadder_math/src/mt4.rs:74-80 | `translate_matrix` is the identity with only w.x, w.y, w.z replaced |
| Matrix4.RotVecAsWrittenMissesYAxis | scadder_math/src/mt4.rs:118-143 | as written, `rot_vec` about the y axis differs from `rot_y_matrix` whenever sin ≠ 0 |
| Matrix4.RotVecPrincipalAxes | scadder_math/src/mt4.rs:82-143 | the corrected `rot_vec` about each principal axis equals `rot_x/y/z_matrix` |
| Matrix4.Entries | scadder_math/src/mt4.rs:387-411 | the 16 entries in index order |
| Matrix4.FillAdjugate | scadder_math/src/mt4.rs:161-252 | `inverse` fills entry j of `out` with cofactor j, through `IndexMut` |
| Matrix4.ScaleEntries | scadder_math/src/mt4.rs:264-268 | the scaling loop multiplies every entry, and only once |
| Matrix4.Inverse | scadder_math/src/mt4.rs:161-271 | `inverse` is None exactly when det = 0; otherwise entry i is cofactor i times 1/det |
| Matrix4.DetThroughAdjugate | scadder_math/src/mt4.rs:254 | the `det` computed from the filled-in adjugate is the first-row expansion of the determinant |
| Matrix4.IdentityInverse | scadder_math/src/mt4.rs:57-64 | the identity has determinant 1 and is its own adjugate |
| Matrix4.MulPt4AsWrittenDropsW | scadder_math/src/mt4.rs:331-338 | as written, `Mt4 * Pt4` maps every point to w = 0 under the identity, and a translation does not move the point (0, 0, 0, 1) |
| Matrix4.MulPt4Transforms | scadder_math/src/mt4.rs:57-80 | with the w term, the identity fixes every point, `translate_matrix` moves a w = 1 point by its offset, and `scale_matrix` scales it |
| Matrix4.MulPt4Agrees | scadder_math/src/mt4.rs:331-338 | both products agree on x, y, z when the matrix's w row has no translation |
| Matrix4.MulPt3 | scadder_math/src/mt4.rs:340-351 | `Mt4 * Pt3` is the as-written `Mt4 * Pt4` of the point with w = 0 |
| Matrix4.MulMt4AsWrittenIdentity | scadder_math/src/mt4.rs:353-385 | as written, I * I has w.w = 0, so the identity is not a unit of `Mt4 * Mt4` |
| Matrix4.MulMt4Identity | scadder_math/src/mt4.rs:353-385 | with the w term, the identity is a two-sided unit of the product |
| Matrix4.LookAtMatrixLh | scadder_math/src/mt4.rs:289-309 | when up × f is zero, `look_at_matrix_lh` is `rot_x_matrix(180)` if up · f < 0 and the identity otherwise; when it is not zero, the z row is f with -f · eye, and the y row is orthogonal to f and to the x row; the w row is (0, 0, 0, 1) |
| Matrix4.ApplyMatrix | scad_tree_math/src/pt3.rs:77-81 | `apply_matrix` replaces every point by the matrix times the point with w = 1, in place |
| Render.Bracketed | scad_tree/src/lib.rs:89-97 | the list writer fails exactly on an empty list; otherwise the text starts with "[" and ends with "]" |
| Render.WriteBracketed | scad_tree/src/lib.rs:89-97 | the `Display` loop writes exactly the text of `Bracketed` |
| Render.PrefixExtend | scad_tree/src/lib.rs:92-94 | appending an item does not change the text written before the old items |
| Render.PrefixLength | scad_tree/src/lib.rs:92-94 | the text before item k is as long as the first k items and k separators |
| Render.PrefixItem | scad_tree/src/lib.rs:92-94 | item j sits in the text after the items before it and their separators |
| Render.ItemInBracketed | scad_tree/src/lib.rs:89-97 | every item appears in the written list in order, after "[" and the j items and separators before it |
| Render.BracketedLength | scad_tree/src/lib.rs:89-97 | the written list is as long as its items, n - 1 separators and two brackets |
| Render.ShowPt2s | scad_tree_math/src/pt2.rs:45-53 | `Display for Pt2s` fails exactly on an empty list |
| Render.ShowPt3s | scad_tree_math/src/pt3.rs:46-54 | `Display for Pt3s` fails exactly on an empty list |
| IndexLists.ShowIndices | scad_tree/src/lib.rs:89-97 | `Display for Indices` fails exactly on an empty list (the `len() - 1` underflow) |
| IndexLists.PathTexts | scad_tree/src/lib.rs:133-141 | each path's text is its `Indices` text |
| IndexLists.ShowPaths | scad_tree/src/lib.rs:133-141 | `Display for Paths` fails exactly when there is no path or some path is empty |
| IndexLists.DisplayIndices | scadder/src/lib.rs:66-74 | the `Display` loop of `Indices` writes the text of `ShowIndices` |
| IndexLists.DisplayPaths | scadder/src/lib.rs:105-113 | the `Display` loop of `Paths` writes exactly the text of `ShowPaths`, failing exactly when it fails |
| IndexLists.PathsStep | scad_tree/src/lib.rs:136-138 | one more path keeps the texts written so far |
| IndexLists.PathsClose | scad_tree/src/lib.rs:139 | with the last path written, the output is the whole list's text |
| IndexLists.IndexInText | scad_tree/src/lib.rs:89-97 | index j appears in the text after "[", the numbers before it and one ", " per number |
| IndexLists.SingleIndex | scad_tree/src/lib.rs:89-97 | a one-element list is its number in brackets |
| Mesh.Triples | scad_tree/src/dim3.rs:69-86 | grouping a flat index list into faces of three gives one face per whole triple |
| Mesh.TriplesAppend | scad_tree/src/dim3.rs:69-86 | the faces of two concatenated whole-triple lists are the faces of the first followed by the faces of the second |
| Mesh.TriplesBelow | scad_tree/src/dim3.rs:80-86 | faces of indices below n, shifted by the offset o, refer only to points below n + o |
| Mesh.IndicesBelowAppend | scad_tree/src/dim3.rs:69-97 | two face lists that refer only to points below n together refer only to points below any m >= n |
| Mesh.AppendTriples | scad_tree/src/dim3.rs:69-86 | the `step_by(3)` loop appends exactly the shifted triples to the faces already there |
| Triangulate.IsCcwRotationAndReversal | scad_tree/src/triangulate.rs:33-37 | `is_ccw` does not depend on which corner the triple starts at, swapping two corners negates the signed area, and a triple and its reversal are never both counter-clockwise |
| Triangulate.CollinearIsNotCcw | scad_tree/src/triangulate.rs:33-37 | three collinear points are never counter-clockwise, so a straight corner is never skipped as convex-outward |
| Triangulate.InTriangle | scad_tree/src/triangulate.rs:50-72 | a triangle whose denominator is within 1e-5 of zero contains every point; otherwise p is inside exactly when its three barycentric weights are all non-negative |
| Triangulate.BarycentricReconstruction | scad_tree/src/triangulate.rs:51-62 | the weights `in_triangle` computes are barycentric coordinates: alpha·(a - c) + beta·(b - c) = denom·(p - c) |
| Triangulate.CornerInTriangle | scad_tree/src/triangulate.rs:50-72 | each corner of a triangle lies in it |
| Triangulate.PrevIndex | scad_tree/src/triangulate.rs:209-213 | the neighbour before position i wraps from 0 to n - 1 and is followed by i round the ring |
| Triangulate.NextIndex | scad_tree/src/triangulate.rs:214-218 | the neighbour after position i wraps from n - 1 to 0 |
| Triangulate.FirstEar | scad_tree/src/triangulate.rs:203-244 | the ear scan finds the first position whose corner is not counter-clockwise and whose triangle holds no later vertex other than its neighbours; None means there is no such position |
| Triangulate.FirstEarUnique | scad_tree/src/triangulate.rs:203-244 | an ear tip with no ear tip before it is the one the scan finds |
| Triangulate.EarClipStep | scad_tree/src/triangulate.rs:199-263 | one pass of the loop emits the triangle at the first ear tip and goes on with that vertex removed |
| Triangulate.RemoveAt | scad_tree/src/triangulate.rs:262 | `Vec::remove` shortens the list by one, keeps the elements before i and shifts the later ones down |
| Triangulate.LeftmostFrom | scad_tree/src/triangulate.rs:172-182 | the leftmost scan from any position returns a position in the ring |
| Triangulate.Leftmost | scad_tree/src/triangulate.rs:172-182 | the leftmost scan returns a position in the ring |
| Triangulate.LeftmostFromNotBeaten | scad_tree/src/triangulate.rs:172-182 | no vertex scanned after the chosen one is further left by the scan's own test (smaller x, or equal x within 1e-5 and smaller y) |
| Triangulate.LeftmostFromMinimal | scad_tree/src/triangulate.rs:172-182 | when no two x coordinates are within 1e-5, the scan ends at a vertex of least x |
| Triangulate.LeftmostProperties | scad_tree/src/triangulate.rs:172-182 | the chosen vertex is not beaten by any later one, and it has the least x whenever the tolerance never applies |
| Triangulate.EarClipCount | scad_tree/src/triangulate.rs:199-263 | ear clipping emits whole triangles, at most n - 2 of them |
| Triangulate.EarClipTags | scad_tree/src/triangulate.rs:258-260 | every index emitted is the tag of a vertex of the input |
| Triangulate.EarTriangleTags | scad_tree/src/triangulate.rs:258-260 | each corner of an emitted triangle is the tag of a vertex of the ring |
| Triangulate.EarClipShape | scad_tree/src/triangulate.rs:199-263 | whole triangles, at most n - 2, using only the input's tags |
| Triangulate.RemoveAtSubset | scad_tree/src/triangulate.rs:262 | removing a vertex keeps only tags the ring had |
| Triangulate.RemoveAtTags | scad_tree/src/triangulate.rs:262 | removing a vertex from a ring with distinct tags keeps them distinct and removes exactly that vertex's tag |
| Triangulate.EarTriangleDistinct | scad_tree/src/triangulate.rs:248-260 | on a ring of three or more vertices with distinct tags, the triangle's three corners are distinct |
| Triangulate.EarClipDistinct | scad_tree/src/triangulate.rs:199-263 | on a ring with distinct tags, every emitted triangle has three distinct corners and no two triangles share an ear tip |
| Triangulate.PrependTriangle | scad_tree/src/triangulate.rs:258-262 | a triangle with distinct corners whose tip is removed from the ring can go in front of the later triangles without breaking either property |
| Triangulate.Triangulate | scad_tree/src/triangulate.rs:169-266 | the routine panics (None) exactly when the corner at the leftmost vertex is counter-clockwise, and otherwise returns the ear-clipped triangles |
| Triangulate.FindEar | scad_tree/src/triangulate.rs:200-247 | the `for i in &polygon` pass leaves `eartip` negative exactly when there is no ear tip, and otherwise at the first one |
| Triangulate.NothingInside | scad_tree/src/triangulate.rs:225-239 | the inner loop keeps `ear` true exactly when no later vertex other than the two neighbours lies in the corner's triangle |
| Triangulate.FindLeftmost | scad_tree/src/triangulate.rs:172-182 | the scan loop finds the leftmost vertex |
| Triangulate.Triangulate2d | scad_tree/src/triangulate.rs:158-166 | `triangulate2d` fails for three or fewer points and otherwise triangulates the points tagged by position |
| Triangulate.TriangulationWellFormed | scad_tree/src/triangulate.rs:169-266 | on a ring tagged by position, a result is whole triangles, at most n - 2, indices below n, three distinct corners each, no ear tip used twice |
| Triangulate.TagsBelow | scad_tree/src/triangulate.rs:161-163 | a ring tagged by position only carries tags below its length |
| Triangulate.Triangulation2dWellFormed | scad_tree/src/triangulate.rs:158-166 | every result of `triangulate2d` is well formed for its vertex list |
| Triangulate.Triangulation2dIndices | scad_tree/src/triangulate.rs:158-166 | every result of `triangulate2d` is whole triples of indices into the vertex list |
| Triangulate.DominantAxis | scad_tree/src/triangulate.rs:89-108 | the chosen signed axis is at least as aligned with the normal as any coordinate's magnitude, and it is an x axis exactly when |x| is the largest magnitude |
| Triangulate.WindingPX | scad_tree/src/triangulate.rs:111-116 | projecting onto (y, z) keeps the winding the normal's x component gives |
| Triangulate.WindingNY | scad_tree/src/triangulate.rs:129-134 | projecting onto (x, z) gives the winding seen from -y |
| Triangulate.WindingPZ | scad_tree/src/triangulate.rs:135-140 | projecting onto (x, y) keeps the winding the normal's z component gives |
| Triangulate.FlipXWinding | scad_tree/src/triangulate.rs:117-146 | negating the first coordinate reverses the winding |
| Triangulate.ProjectionWinding | scad_tree/src/triangulate.rs:109-148 | for every one of the six projections, the projected triangle is counter-clockwise exactly when its 3D normal points along the chosen axis |
| Triangulate.Triangulate3d | scad_tree/src/triangulate.rs:81-151 | `triangulate3d` fails for three or fewer points and otherwise triangulates the points projected onto the plane of the dominant axis |
| Triangulate.Triangulation3dWellFormed | scad_tree/src/triangulate.rs:81-151 | every result of `triangulate3d` is well formed for its vertex list |
| Triangulate.Triangulation3dIndices | scad_tree/src/triangulate.rs:81-151 | every result of `triangulate3d` is whole triples of indices into the vertex list |
| Rng.Seeded | scadder_math/src/rng.rs:104-119 | the seeded buffer holds 624 words |
| Rng.ZeroSeedWord | scadder_math/src/rng.rs:112-117 | a zero seed fills the whole buffer with zeros |
| Rng.ZeroWord | scadder_math/src/rng.rs:45-64 | the recurrence keeps an all-zero buffer at zero for ever |
| Rng.ZeroSeedOutput | scadder_math/src/rng.rs:42-119 | a generator seeded with 0 only ever outputs 0 |
| Rng.Outputs | scadder_math/src/rng.rs:42-72 | the first n outputs are n words |
| Rng.OutputsAt | scadder_math/src/rng.rs:42-72 | entry j of the first n outputs is output j, whatever n > j |
| Rng.MersenneTwister.WithSeed | scadder_math/src/rng.rs:104-119 | word 0 is the seed and each later word is 6069 times the one before modulo 2^32; the index is past the end, so the first `next` regenerates |
| Rng.MersenneTwister.Next | scadder_math/src/rng.rs:42-72 | the k-th call returns the tempered word 624 + k of the MT19937 recurrence from the seeded buffer; it regenerates exactly when the index is past the end, and otherwise leaves the buffer alone |
| Rng.MersenneTwister.Regenerate | scadder_math/src/rng.rs:45-64 | rewriting the buffer in place moves it on by exactly 624 words of the recurrence, although later words read words already rewritten |
| Rng.MersenneTwister.TwistFirst | scadder_math/src/rng.rs:47-51 | the first loop rewrites words 0..226, each from words not yet rewritten |
| Rng.MersenneTwister.TwistMiddle | scadder_math/src/rng.rs:52-59 | the second loop rewrites words 227..622, each reading a word the same pass rewrote 227 places back |
| Rng.MersenneTwister.Raw | scadder_math/src/rng.rs:74-76 | `raw` is exactly the next output |
| Rng.Draw | scadder_math/src/rng.rs:42-119 | the first n outputs of a generator depend on its seed alone: equal seeds give equal sequences |
| Viewer.Join | scad_tree/src/viewer.rs:45-49 | after a marker is added there is always a scene |
| Viewer.Gathered | scad_tree/src/viewer.rs:52-56 | the scene is empty only when it was empty and no marker was added |
| Viewer.GatheredMarkers | scad_tree/src/viewer.rs:41-56 | adding markers one by one to an empty viewer keeps every marker, in order, along the chain of unions |
| Viewer.PlaneMarkers | scad_tree/src/viewer.rs:52-56 | one marker per 2D point, moved to the point at z = 0 |
| Viewer.Viewer.constructor | scad_tree/src/viewer.rs:33-39 | a new viewer keeps the radius and segment count and has no scene |
| Viewer.Viewer.AddPoint | scad_tree/src/viewer.rs:41-50 | the marker, a sphere of the viewer's radius moved to the point, becomes the scene or is added to it with `+` |
| Viewer.Viewer.AddPt2s | scad_tree/src/viewer.rs:52-56 | the points' markers are added in order |
| Viewer.Viewer.IntoScad | scad_tree/src/viewer.rs:58-60 | the scene is handed back unchanged, and the `unwrap` panics (None) exactly when no point was ever added |
| Dim2.Arc | scad_tree/src/dim2.rs:26-39 | the loop builds exactly the arc points of the specification function |
| Dim2.ArcProperties | scad_tree/src/dim2.rs:26-39 | the arc panics exactly past 360 degrees; it has `segments` points for a full turn and one more otherwise; it starts at `start` (when a zero rotation is exact), ends at `start` turned by -degrees on a partial turn, and every point is as far from the origin as `start` wherever the trigonometry is Pythagorean |
| Dim2.Circle | scad_tree/src/dim2.rs:41-43 | `segments` points, point i the point (radius, 0) turned by the i-th arc angle, each at distance `radius` from the origin |
| Dim2.InscribedPolygon | scad_tree/src/dim2.rs:46-48 | `n_sides` corners, each on the circle of the given radius |
| Dim2.RoundedRect | scad_tree/src/dim2.rs:56-74 | four blocks of segments + 1 points, for the top-right, bottom-right, bottom-left and top-left corners; point j of block k is point j of that corner's 90-degree arc, moved to the corner's centre and then by (-width/2, -height/2) when centred; every point lies on the circle of the given radius about its shifted corner centre; each block starts where a straight side ends |
| Dim2.RoundedRectOnCircles | scad_tree/src/dim2.rs:56-74 | every point of the outline lies on the circle of the given radius about its (shifted) corner centre |
| Dim2.RoundedRectTangentPoints | scad_tree/src/dim2.rs:56-74 | with an exact zero rotation, the four blocks start at (width - radius, height), (width, radius), (radius, 0) and (0, height - radius), shifted when centred |
| Dim2.RectBlock | scad_tree/src/dim2.rs:57-64 | corner k's 90-degree arc moved to the corner's centre has segments + 1 points, point j being the arc's point j moved there |
| Dim2.RectJoined | scad_tree/src/dim2.rs:57-68 | the four corner blocks appended in order put point j of corner k at position k · (segments + 1) + j |
| Dim2.RectCentred | scad_tree/src/dim2.rs:70-72 | centring shifts every point of the outline by (-width/2, -height/2) and leaves the order alone |
| Dim2.RectArcOnCircle | scad_tree/src/dim2.rs:57-64 | a quarter-arc point moved to its corner and then shifted stays at the radius from the shifted corner |
| Dim2.Chamfer | scad_tree/src/dim2.rs:76-86 | the seven-point profile starts at (0, size + oversize), ends at the origin, and stays inside the square of side size + oversize for non-negative sizes |
| Dim2.PolarLength | scad_tree/src/dim2.rs:117-124 | the point (cos a · r, sin a · r) is at distance r from the origin |
| Dim2.Star | scad_tree/src/dim2.rs:113-127 | 2 · n points alternating between the inner radius (at i · -360/n) and the outer radius (half a step further on), each at its radius from the origin |
| Dim2.SampleEnds | scad_tree/src/dim2.rs:89-92 | the curve parameter i · (1 / segments) is 0 at the first sample and 1 at the last |
| Dim2.QuadraticEnds | scad_tree/src/dim2.rs:93 | the quadratic curve passes through its start at t = 0 and its end at t = 1 |
| Dim2.CubicEnds | scad_tree/src/dim2.rs:103-108 | the cubic curve passes through its start at t = 0 and its end at t = 1 |
| Dim2.QuadraticBezier | scad_tree/src/dim2.rs:88-96 | segments + 1 samples of the curve at evenly spaced parameters, the first the start and the last the end |
| Dim2.CubicPoints | scad_tree/src/dim2.rs:98-111 | segments + 1 samples of the cubic curve, the first the start and the last the end |
| Dim2.CubicBezier | scad_tree/src/dim2.rs:98-111 | the sampling loop builds exactly the cubic curve's samples |
| Dim2.TangentControl | scad_tree/src/dim2.rs:270-272 | the new first control point continues the previous curve's end tangent: it lies `length` along the normalised direction from the previous second control to the previous end |
| Dim2.Joined | scad_tree/src/dim2.rs:294-305 | the joined curves have one point per segment of every curve plus one |
| Dim2.JoinedStep | scad_tree/src/dim2.rs:296-305 | each curve's samples replace the last point written so far (the pop before the append) |
| Dim2.JoinedEnds | scad_tree/src/dim2.rs:294-305 | the joined points start at the first curve's start and end at the last curve's end |
| Dim2.ChainPoints | scad_tree/src/dim2.rs:294-310 | a closed chain has one point per segment; an open chain one more |
| Dim2.ClosedChainDropsDuplicate | scad_tree/src/dim2.rs:306-308 | when the last curve ends where the first starts, the closed chain is the joined points without the repeated start |
| Dim2.CubicBezierChain2D.constructor | scad_tree/src/dim2.rs:248-259 | a new chain holds the one given curve and is open |
| Dim2.CubicBezierChain2D.Add | scad_tree/src/dim2.rs:261-278 | one curve is appended, starting at the chain's end with its first control continuing the end tangent; the earlier curves and the open flag are unchanged |
| Dim2.CubicBezierChain2D.Close | scad_tree/src/dim2.rs:280-292 | the chain is closed by a curve back to the first start, and the first curve's first control is moved to continue the closing curve's end tangent; the curves in between are unchanged |
| Dim2.CubicBezierChain2D.GenPoints | scad_tree/src/dim2.rs:294-310 | the pop-and-append loop yields the chain's points, one per segment (plus one when open) |
| Dim2.SegmentCountUniform | scad_tree/src/dim2.rs:164-182 | a chain whose curves all have the same segment count has that count times the number of curves segments |
| Dim2.BezierStar | scad_tree/src/dim2.rs:129-185 | with zero points the source panics on `knots[0]`, which does not exist (None); otherwise the star is the closed chain of the star curves over the star's knots and controls, has 2 · n · segments points, and passes through knot k at position k · segments, in order |
| Dim2.StarChain | scad_tree/src/dim2.rs:164-182 | the chain built over the knots is closed and has one curve per knot, each with `segments` segments; curve k runs from knot k to knot (k + 1) mod n with control k as its second control, and its first control continues the previous curve's end tangent (the first curve's continues the closing curve's, by the outer handle length) |
| Dim2.StarExtension | scad_tree/src/dim2.rs:164-182 | the curve `add` appends at knot i, after a curve ending at knot i with control i - 1, is star curve i |
| Dim2.StarFirst | scad_tree/src/dim2.rs:177-182 | re-aiming the first curve's first control on `close` makes it star curve 0 |
| Dim2.StarCurveEnds | scad_tree/src/dim2.rs:164-182 | star curve k runs from knot k to knot (k + 1) mod n, with control k as its second control |
| Dim2.StarChainCurves | scad_tree/src/dim2.rs:164-182 | curves that are the star curves one by one are exactly the star's curve list |
| Dim2.StarPassesKnots | scad_tree/src/dim2.rs:164-184 | the closed star chain's points pass through knot k of the star at position k · segments |
| Dim2.ChainPassesStarts | scad_tree/src/dim2.rs:294-308 | in a closed chain of curves with `segments` segments each, curve k starts at point k · segments |
| Dim2.ChainPassesStart | scad_tree/src/dim2.rs:294-308 | curve k of a closed chain of curves with `segments` segments each starts at point k · segments |
| Dim2.JoinedAtStart | scad_tree/src/dim2.rs:294-305 | curve k's first sample sits in the joined points right after the segments of the curves before it |
| Dim2.ModOnce | scad_tree/src/dim2.rs:153-157 | a ring position at most one turn past the end wraps round once, as the `% n_knots` indexing does |
| Dim2.BezierStarKnots | scad_tree/src/dim2.rs:140-150 | 2 · n knots alternating between the outer radius (at i · 360/n) and the inner radius (half a step further on) |
| Dim2.BezierStarControls | scad_tree/src/dim2.rs:151-162 | one control per knot: the next knot moved back along the normalised chord from this knot to the one after next, by the inner handle length at even positions and the outer one at odd |
| Dim3.Band | scad_tree/src/dim3.rs:88-97 | a band of side faces has one quad per point of the ring |
| Dim3.BandBelow | scad_tree/src/dim3.rs:88-97 | a band between two rings that both lie inside the point list only uses indices of that list |
| Dim3.Strips | scad_tree/src/dim3.rs:128-141 | n rings joined ring to ring give (n - 1) bands, one quad per point of a ring each |
| Dim3.StripsPush | scad_tree/src/dim3.rs:128-141 | each further ring adds the band between it and the ring before it |
| Dim3.StripsBelow | scad_tree/src/dim3.rs:128-141 | the bands between n rings only use indices of the n rings' points |
| Dim3.ExtrudeRing | scad_tree/src/dim3.rs:131-140 | one pass of the inner loop appends the ring's points and the band joining it to the ring before |
| Dim3.AppendBand | scad_tree/src/dim3.rs:88-97 | the side loop appends exactly one band of quads |
| Dim3.Lifted | scad_tree/src/dim3.rs:64-66 | lifting a profile to a height keeps one point per profile point |
| Dim3.LiftPoints | scad_tree/src/dim3.rs:64-66 | the loop lifts every profile point, in order |
| Dim3.LinearExtrude | scad_tree/src/dim3.rs:61-103 | the extrusion panics (None) exactly when triangulating the profile does, and otherwise is the extrusion built from the bottom cap and the profile's triangulation |
| Dim3.LinearExtrusionShape | scad_tree/src/dim3.rs:61-103 | the extrusion has the profile at height 0 then at `height`, the two caps' triangles, then one side quad (i, i+1, i+1+n, i+n, wrapping) per profile point; every face index is a point of the solid |
| Dim3.Cylinder | scad_tree/src/dim3.rs:277-279 | the cylinder is the linear extrusion of the circle of `segments` points, so it has 2 · segments points |
| Dim3.XzProfile | scad_tree/src/dim3.rs:109-110 | the profile moved into the x-z plane keeps one point per profile point |
| Dim3.RevolvedRing | scad_tree/src/dim3.rs:129-132 | a revolved ring has one point per profile point |
| Dim3.RevolvedRingIsRotation | scad_tree/src/dim3.rs:129-132 | the point (x·cos a, x·sin a, z) the loop writes is the x-z profile point turned by a about the z axis |
| Dim3.RevolutionRing | scad_tree/src/dim3.rs:128-132 | the k-th ring has one point per profile point |
| Dim3.RevolutionRings | scad_tree/src/dim3.rs:113-141 | the rings of the revolution, all of the profile's length |
| Dim3.RevolutionRingsPush | scad_tree/src/dim3.rs:128-132 | the points grow ring by ring |
| Dim3.SwingRings | scad_tree/src/dim3.rs:113-141 | the segment loop writes the rings turned by 0, a, 2a, … and the bands between consecutive rings |
| Dim3.FinishPartialTurn | scad_tree/src/dim3.rs:143-164 | on a partial turn the last ring, its band and the end cap shifted to the last ring complete the revolution |
| Dim3.FinishFullTurn | scad_tree/src/dim3.rs:165-175 | on a full turn the last band joins the last ring back to the first and there is no cap |
| Dim3.RotateExtrude | scad_tree/src/dim3.rs:105-177 | `rotate_extrude` builds exactly the revolution of the specification function, with the start cap from triangulating the x-z profile seen along -y |
| Dim3.StartCapIsProfileTriangulation | scad_tree/src/dim3.rs:116-126 | triangulating the x-z profile seen along -y gives the same triangles as triangulating the 2D profile |
| Dim3.RotateExtrusionDefined | scad_tree/src/dim3.rs:106-126 | the revolution panics (None) exactly when the angle is outside 0..360, there are fewer than 3 segments, or a partial turn's start cap cannot be triangulated |
| Dim3.RevolutionSize | scad_tree/src/dim3.rs:113-175 | a full turn has `segments` rings, a partial one segments + 1 |
| Dim3.RevolutionRingAt | scad_tree/src/dim3.rs:128-164 | points k·len .. (k+1)·len of the solid are ring k |
| Dim3.RevolutionIndexed | scad_tree/src/dim3.rs:113-175 | with caps whose indices are below the profile length, every face index of the revolution is a point of the solid |
| Dim3.RotateExtrusionSize | scad_tree/src/dim3.rs:105-177 | the revolved solid has `segments` rings of the profile for a full turn, segments + 1 otherwise |
| Dim3.RotateExtrusionRing | scad_tree/src/dim3.rs:112-164 | ring k of the solid is the x-z profile turned by k · degrees / segments |
| Dim3.RotateExtrudeIndexed | scad_tree/src/dim3.rs:105-177 | every face index of `rotate_extrude`'s solid is a point of the solid |
| Dim3.TwistStep | scad_tree/src/dim3.rs:185-189 | the twist per ring spreads the total twist over n steps on a closed path and n - 1 on an open one |
| Dim3.PlacedPoints | scad_tree/src/dim3.rs:196-198 | one placed point per profile point |
| Dim3.PlacedPointsAt | scad_tree/src/dim3.rs:196-198 | point i is profile point i placed by the frame at the path point |
| Dim3.TwistedProfile | scad_tree/src/dim3.rs:217 | the twisted profile has one point per profile point |
| Dim3.SweepRing | scad_tree/src/dim3.rs:191-251 | a swept ring has one point per profile point |
| Dim3.SweepRingAt | scad_tree/src/dim3.rs:191-251 | point i of ring k is the twisted profile point multiplied by ring k's look-at frame (w = 1 for the first ring, 0 after it) and moved to path point k |
| Dim3.SweepRings | scad_tree/src/dim3.rs:191-251 | one ring per path point, each of the profile's length |
| Dim3.SweepRingsPush | scad_tree/src/dim3.rs:196-251 | the points grow ring by ring |
| Dim3.FirstSweepRing | scad_tree/src/dim3.rs:191-198 | the first loop writes ring 0 |
| Dim3.SweepMiddle | scad_tree/src/dim3.rs:210-227 | the middle loop writes rings 1 .. n - 2 and the bands before each |
| Dim3.SweepRingsAndBands | scad_tree/src/dim3.rs:191-251 | all rings are written, with one band before every ring after the first |
| Dim3.LastRing | scad_tree/src/dim3.rs:238-243 | the ring kept for the end cap has one point per profile point |
| Dim3.Sweep | scad_tree/src/dim3.rs:179-275 | `sweep` builds exactly the swept solid of the specification function, with the end cap from triangulating the last ring along the last path direction |
| Dim3.SweepEnd | scad_tree/src/dim3.rs:253-261 | on an open path the end cap's triangles are shifted to the last ring, and a cap that cannot be triangulated panics (None) |
| Dim3.SweepingOpen | scad_tree/src/dim3.rs:199-261 | on an open path the solid is the start cap, the bands and the end cap on the last ring |
| Dim3.SweepingClosed | scad_tree/src/dim3.rs:262-272 | on a closed path the solid is the bands plus one band from the last ring back to the first, with no caps |
| Dim3.SweepLayout | scad_tree/src/dim3.rs:191-251 | the solid has one ring of |profile| points per path point, and ring k is the k-th swept ring |
| Dim3.SweepIndexed | scad_tree/src/dim3.rs:179-275 | with caps whose indices are below the profile length, every face index of the swept solid is a point of it |
| Dim3.SweepBuiltIndexed | scad_tree/src/dim3.rs:179-275 | every face index of `sweep`'s solid, with its own end cap, is a point of it |
| Dim3.EndCapIndices | scad_tree/src/dim3.rs:254 | the end cap only uses positions of the last ring |
| Dim3.PlaceInFramePlane | scad_tree/src/dim3.rs:197-241 | for a frame with a zero last row and a point in the z = 0 plane, placing it is the path point plus x times the frame's first row plus y times its second, whatever w is |
| Dim3.SweepPointPlacement | scad_tree/src/dim3.rs:197-241 | every swept point is the path point plus the twisted profile point's x and y along the frame's first two rows |
| Dim3.SweepTwistTotal | scad_tree/src/dim3.rs:240 | on an open path the last ring carries the full twist |
| Dim3.TwistedLater | scad_tree/src/dim3.rs:217-240 | ring k > 0 is turned by k times the twist step |
| Dim3.QuadraticEnds | scad_tree/src/dim3.rs:287 | the quadratic curve passes through its start at t = 0 and its end at t = 1 |
| Dim3.CubicEnds | scad_tree/src/dim3.rs:297-302 | the cubic curve passes through its start at t = 0 and its end at t = 1 |
| Dim3.QuadraticBezier | scad_tree/src/dim3.rs:282-290 | segments + 1 samples of the curve at evenly spaced parameters, the first the start and the last the end |
| Dim3.CubicPoints | scad_tree/src/dim3.rs:292-305 | segments + 1 samples of the cubic curve, the first the start and the last the end |
| Dim3.CubicBezier | scad_tree/src/dim3.rs:292-305 | the sampling loop builds exactly the cubic curve's samples |
| Dim3.TangentControl | scad_tree/src/dim3.rs:390-392 | the new first control point continues the previous curve's end tangent by `length` |
| Dim3.Joined | scad_tree/src/dim3.rs:414-427 | the joined curves have one point per segment of every curve plus one |
| Dim3.JoinedStep | scad_tree/src/dim3.rs:416-427 | each curve's samples replace the last point written so far |
| Dim3.JoinedEnds | scad_tree/src/dim3.rs:414-427 | the joined points start at the first curve's start and end at the last curve's end |
| Dim3.JoinedContainsCurve | scad_tree/src/dim3.rs:414-427 | curve k's samples, but its last, sit in the joined points right after the segments of the curves before it |
| Dim3.SegmentCountPrefix | scad_tree/src/dim3.rs:414-427 | the curves up to and including k have no more segments than the whole chain |
| Dim3.ChainPoints | scad_tree/src/dim3.rs:414-430 | a closed chain has one point per segment; an open chain one more |
| Dim3.ClosedChainDropsDuplicate | scad_tree/src/dim3.rs:426-428 | when the last curve ends where the first starts, the closed chain is the joined points without the repeated start |
| Dim3.CubicBezierChain3D.constructor | scad_tree/src/dim3.rs:368-379 | a new chain holds the one given curve and is open |
| Dim3.CubicBezierChain3D.Add | scad_tree/src/dim3.rs:381-398 | one curve is appended, starting at the chain's end with its first control continuing the end tangent; the rest is unchanged |
| Dim3.CubicBezierChain3D.Close | scad_tree/src/dim3.rs:400-412 | the chain is closed by a curve back to the first start, and the first curve's first control is moved to continue the closing curve's end tangent |
| Dim3.CubicBezierChain3D.GenPoints | scad_tree/src/dim3.rs:414-430 | the pop-and-append loop yields the chain's points |
| MetricThread.StepLerpEnds | scad_tree/src/metric_thread.rs:30-32 | stepping from `start` to `end` in n steps is at `start` after 0 steps and at `end` after n, and step k is the straight-line blend at k / n |
| MetricThread.TableKey | scad_tree/src/metric_thread.rs:43-56 | the size the lookup settles on is always in the table |
| MetricThread.TableKeyLargest | scad_tree/src/metric_thread.rs:43-56 | the lookup settles on the largest size in the table that is at most the requested size (raised to 2 when below it) |
| MetricThread.MTableLookup | scad_tree/src/metric_thread.rs:43-56 | the counting-down loop returns the table row of that size |
| MetricThread.LookupExamples | scad_tree/src/metric_thread.rs:43-56 | M6 has pitch 1.0 and external major diameter 5.794; M13 falls back to M12, M101 to M100, and sizes below 2 to M2 |
| MetricThread.PitchesPositive | scad_tree/src/metric_thread.rs:623-1216 | every size in the table has a positive pitch |
| MetricThread.ThreadDepth | scad_tree/src/metric_thread.rs:63-76 | the minor diameter is the major diameter less 5/8 · sqrt 3 · pitch (twice 5/8 of the thread height sqrt 3 / 2 · pitch), so it is smaller |
| MetricThread.AsUsize | scad_tree/src/metric_thread.rs:114-118 | the `as usize` cast truncates a non-negative number toward zero and saturates a negative one to 0 |
| MetricThread.Convexity | scad_tree/src/metric_thread.rs:405 | the convexity is one more than the number of whole pitches in the length |
| MetricThread.Shifted | scad_tree/src/metric_thread.rs:286-369 | offsetting corner indices keeps their number |
| MetricThread.StartCorners | scad_tree/src/metric_thread.rs:158-164 | the start face is two triangles |
| MetricThread.StepCorners | scad_tree/src/metric_thread.rs:286-369 | each step adds eight triangles |
| MetricThread.EndCorners | scad_tree/src/metric_thread.rs:372-395 | the end face is two triangles |
| MetricThread.StepsTriangles | scad_tree/src/metric_thread.rs:182-370 | k steps add 8 · k whole triangles |
| MetricThread.ShiftedBelow | scad_tree/src/metric_thread.rs:286 | corners below n offset by o stay below n + o |
| MetricThread.StepsTrianglesBelow | scad_tree/src/metric_thread.rs:182-370 | after k steps every index written is a vertex among the 4 · k + 4 pushed |
| MetricThread.StepCornersBelow | scad_tree/src/metric_thread.rs:286-369 | one step's corners only use the previous ring and the new one (offsets 0 to 7) |
| MetricThread.ThreadIndicesLayout | scad_tree/src/metric_thread.rs:152-404 | with n steps the index list is 8 · n - 4 whole triangles, all of them vertices among the 4 · n pushed |
| MetricThread.ReversedTriples | scad_tree/src/metric_thread.rs:158-395 | reversing every triangle's winding keeps the list's length |
| MetricThread.ReversedTriplesFaces | scad_tree/src/metric_thread.rs:158-395 | face f of the reversed list is face f with its corners in the opposite order |
| MetricThread.ReversedTriplesAppend | scad_tree/src/metric_thread.rs:158-395 | reversing windings distributes over joining index lists |
| MetricThread.ShiftedReversed | scad_tree/src/metric_thread.rs:286-369 | offsetting and reversing windings commute |
| MetricThread.StepCornersMirror | scad_tree/src/metric_thread.rs:287-369 | the left-hand step triangles are the right-hand ones with their windings reversed |
| MetricThread.EndCornersMirror | scad_tree/src/metric_thread.rs:158-164 | the left-hand start and end faces are the right-hand ones with their windings reversed |
| MetricThread.StepsTrianglesMirror | scad_tree/src/metric_thread.rs:182-370 | the left-hand triangles of k steps are the right-hand ones reversed |
| MetricThread.StartStepsMirror | scad_tree/src/metric_thread.rs:152-370 | the start face and the step triangles of a left-hand thread are the right-hand ones reversed |
| MetricThread.EndMirror | scad_tree/src/metric_thread.rs:372-395 | the left-hand end face, offset to the last ring, is the right-hand one reversed |
| MetricThread.ThreadIndicesMirror | scad_tree/src/metric_thread.rs:152-395 | the whole left-hand index list is the right-hand one with every triangle reversed |
| MetricThread.ThreadFacesMirror | scad_tree/src/metric_thread.rs:397-404 | every face of a left-hand thread is the matching right-hand face with its corners reversed |
| MetricThread.LeadsAt | scad_tree/src/metric_thread.rs:119-147 | before every step the lead-in counter is at least 3 and the lead-out counter at most its start |
| MetricThread.Profiles | scad_tree/src/metric_thread.rs:189-279 | each step uses four profile corners |
| MetricThread.Ring | scad_tree/src/metric_thread.rs:183-284 | each step pushes four vertices |
| MetricThread.Rings | scad_tree/src/metric_thread.rs:182-370 | k steps push 4 · k vertices |
| MetricThread.ThreadVertices | scad_tree/src/metric_thread.rs:152-370 | n steps leave 4 · n vertices: the start face's four and four per step |
| MetricThread.LeadInCounter | scad_tree/src/metric_thread.rs:189-211 | with a lead-in of more than 3 steps, the counter before step k is 3 + k until it reaches the lead-in step count, and stays at 3 otherwise |
| MetricThread.LeadInSteps | scad_tree/src/metric_thread.rs:189 | step k is a lead-in step exactly when there is a lead-in and 3 + k is below the lead-in step count |
| MetricThread.LeadInCorners | scad_tree/src/metric_thread.rs:130-144 | the lead-in corners 1 and 3 start at the lead-in start, and after the counter has moved they are that many steps of the way to the thread profile |
| MetricThread.LeadInReachesProfile | scad_tree/src/metric_thread.rs:211-223 | the lead-in ends exactly on the thread profile, after which the step is no longer a lead-in step |
| MetricThread.LeadOutCorners | scad_tree/src/metric_thread.rs:245-257 | the lead-out corners are as many steps of the way from the thread profile to the lead-out end as the counter has gone down, and reach the end when it hits 0 |
| MetricThread.LeadCounters | scad_tree/src/metric_thread.rs:189-257 | each step moves the lead-in counter up by at most one or the lead-out counter down by at most one, never both |
| MetricThread.RingIsRotation | scad_tree/src/metric_thread.rs:183-279 | each vertex of a step is its profile corner raised by zStep · step and turned about z by the step's angle |
| MetricThread.RingMirror | scad_tree/src/metric_thread.rs:184-186 | a left-hand step's vertices are the right-hand ones reflected in the x-z plane |
| MetricThread.RingsMirror | scad_tree/src/metric_thread.rs:182-370 | all left-hand step vertices are the right-hand ones reflected |
| MetricThread.ThreadVerticesMirror | scad_tree/src/metric_thread.rs:152-370 | every vertex of a left-hand thread is the matching right-hand vertex reflected in the x-z plane |
| MetricThread.PanicStep | scad_tree/src/metric_thread.rs:224 | the loop panics at a step exactly when `n_steps - n_lead_out_steps` underflows there, and getting through the last step rules the underflow out |
| MetricThread.Step | scad_tree/src/metric_thread.rs:183-284 | one pass picks the lead-in, lead-out or thread profile, pushes that ring and moves the counters on; it panics exactly on the underflow |
| MetricThread.Pass | scad_tree/src/metric_thread.rs:182-370 | one pass keeps the buffers equal to the first step + 1 rings and their triangles, and panics only on the lead-out underflow |
| MetricThread.ThreadLoop | scad_tree/src/metric_thread.rs:152-370 | the loop panics exactly on the lead-out underflow, and otherwise leaves every step's vertices and the start face and step triangles |
| MetricThread.ThreadMesh | scad_tree/src/metric_thread.rs:152-395 | the thread buffers are all vertices and the full index list with the end face, or a panic exactly on the lead-out underflow |
| MetricThread.ThreadShape | scad_tree/src/metric_thread.rs:110-147 | the rise per step spreads the thread length (length - 0.7 · pitch) over the steps, the turn per step is 360 / segments, the profile is pitch-proportioned (3/4 pitch between the minor corners, 1/8 between the major ones, (dMaj - dMin)/2 deep), and lead-in and lead-out are on exactly when their angles are positive |
| MetricThread.ThreadNodeLayout | scad_tree/src/metric_thread.rs:397-406 | the thread polyhedron has 4 · n vertices and 8 · n - 4 triangular faces, every index a vertex, with the given convexity |
| MetricThread.ThreadNodeMirror | scad_tree/src/metric_thread.rs:152-406 | a left-hand thread is the right-hand one reflected in the x-z plane with every face reversed |
| MetricThread.Threads | scad_tree/src/metric_thread.rs:397-406 | the thread part is the polyhedron of the loop's buffers, or a panic |
| MetricThread.Rod | scad_tree/src/metric_thread.rs:408 | the rod is the cylinder extrusion as a polyhedron node |
| MetricThread.ThreadedCylinder | scad_tree/src/metric_thread.rs:99-416 | `threaded_cylinder` is the thread plus the rod of radius dMin / 2 + 0.0001, moved down by half the length when centred; it panics (None) with fewer than two steps, on the lead-out underflow or when the rod cannot be triangulated |
| MetricThread.NoLeads | scad_tree/src/metric_thread.rs:189-279 | without lead-in or lead-out every step uses the thread profile and the counters never move |
| MetricThread.PlainThread | scad_tree/src/metric_thread.rs:549-566 | with both lead angles 0 (as `tap` passes) the loop cannot panic and every ring is the thread profile |
| MetricThread.ThreadedRod | scad_tree/src/metric_thread.rs:435-460 | `threaded_rod` is `threaded_cylinder` with the size's pitch and external major diameter and the minor diameter derived from them |
| MetricThread.Tap | scad_tree/src/metric_thread.rs:549-566 | `tap` is `threaded_cylinder` with the size's pitch and internal major diameter and no leads |
| Scad.ResolutionOrder | scad_tree/src/scad.rs:268-278 | with no resolution settings nothing is written; otherwise `$fa` comes first when set and `$fn` last when set |
| Scad.ResolutionAllSet | scad_tree/src/scad.rs:268-278 | with all three settings the text is `$fa`, `$fs`, `$fn` in that order; `$fs` alone is written as just its own part |
| Scad.PolygonHeaderMissingComma | scad_tree/src/scad.rs:292-297 | as written, a polygon with paths has a space and no comma between the paths and `convexity` |
| Scad.PolygonHeaderComma | scad_tree/src/scad.rs:292-304 | the corrected header has a comma there, and without paths it is the header as written |
| Scad.Statement | scad_tree/src/scad.rs:268-447 | a leaf call is closed by a semicolon |
| Scad.Block | scad_tree/src/scad.rs:253-519 | a group call ends by opening a block and a newline |
| Scad.LeafHeader | scad_tree/src/scad.rs:262-447 | every leaf operation's text ends in a semicolon; a polygon with paths gets its header as written, with no comma before `convexity` |
| Scad.WrittenPolygon | scad_tree/src/scad.rs:292-304 | a childless polygon node fails exactly when its outline or paths cannot be written, and is otherwise the polygon header as the source writes it (with paths, a space and no comma before `convexity`, as Scad.PolygonHeaderMissingComma shows) and a newline |
| Scad.GroupHeader | scad_tree/src/scad.rs:253-261 | every group operation's text is empty (a colour or offset with nothing set) or ends with "{" and a newline |
| Scad.Header | scad_tree/src/scad.rs:252-520 | every operation's header is empty or ends in a semicolon or a newline |
| Scad.Written | scad_tree/src/scad.rs:250-528 | the text of a node, when it can be written, ends with a newline |
| Scad.ChildTexts | scad_tree/src/scad.rs:521-523 | one text per child |
| Scad.ConcatNone | scad_tree/src/scad.rs:521-523 | the `?` on each child's write makes the node fail exactly when some child fails |
| Scad.ConcatPair | scad_tree/src/scad.rs:521-523 | two children's texts are joined in order, and fail when either fails |
| Scad.Write | scad_tree/src/scad.rs:250-528 | the recursive `fmt` produces exactly the node's text |
| Scad.BraceIffChildren | scad_tree/src/scad.rs:524-527 | the text ends with "}" and a newline exactly when the node has children |
| Scad.BraceWithChildren | scad_tree/src/scad.rs:524-527 | a node with children closes its block |
| Scad.NoBraceWithoutChildren | scad_tree/src/scad.rs:524-527 | a childless node writes no closing brace |
| Scad.ChildlessText | scad_tree/src/scad.rs:520-527 | a childless node's text is its header and a newline |
| Scad.Plus | scad_tree/src/scad.rs:241-247 | `a + b` is a union with children a then b |
| Scad.Minus | scad_tree/src/scad.rs:233-239 | `a - b` is a difference with children a then b |
| Scad.PairWritten | scad_tree/src/scad.rs:250-528 | a node with two children is written as its header, both children's texts and "}" with a newline, and fails exactly when one of the three does |
| Scad.PairChildren | scad_tree/src/scad.rs:521-523 | two children's texts in order, or failure |
| Scad.PlusWritten | scad_tree/src/scad.rs:241-255 | `a + b` is written "union() {", a newline, a's text, b's text, "}" and a newline |
| Scad.MinusWritten | scad_tree/src/scad.rs:233-258 | `a - b` is written "difference() {", a newline, a's text, b's text, "}" and a newline |
| Scad.CircleD | scad_tree/src/scad.rs:937-948 | `circle!(d=…)` makes a childless circle whose radius is half the diameter |
| Scad.SphereD | scad_tree/src/scad.rs:1571-1582 | `sphere!(d=…)` makes a childless sphere whose radius is half the diameter |
| Scad.CylinderD | scad_tree/src/scad.rs:1887-1901 | `cylinder!(h, d1, d2, …)` makes a cylinder whose radii are half the diameters |
| Scad.StraightCylinder | scad_tree/src/scad.rs:2266-2279 | `cylinder!(h, r)` is a straight, uncentred cylinder with both radii r and no resolution settings |
| Scad.PlainPolygon | scad_tree/src/scad.rs:1221-1230 | `polygon!(points)` keeps the outline, has no paths and convexity 1 |
| Scad.PlainPolyhedron | scad_tree/src/scad.rs:2323-2332 | `polyhedron!(points, faces)` keeps the points and faces and defaults the convexity to 1 |
| Scad.FullRotateExtrude | scad_tree/src/scad.rs:2547-2558 | `rotate_extrude!` without settings turns its children a full 360 degrees with convexity 1 and no resolution settings |
| Scad.RotateWritten | scad_tree/src/scad.rs:451-461 | a rotation is written with three angles, with a scalar angle, or with a scalar angle about an axis, as the `rotate!` form chose |
| Scad.ColorAndOffsetPreference | scad_tree/src/scad.rs:489-513 | an RGBA colour wins over a named colour and a hex string, a hex string is written quoted, and with nothing set nothing is written; an offset radius wins over a delta, and with neither nothing is written |
| Scad.ExternalCylinderChamfer | scad_tree/src/scad.rs:203-223 | two circle chamfers, the second turned over and raised to the cylinder's height, joined by a union and moved down by half the height when centred |
| Scad.AsFaces | scad_tree/src/lib.rs:106-168 | the face list keeps every face's indices, in order |
| Scad.PolyhedronNode | scad_tree/src/dim3.rs:35-37 | `into_scad` makes a childless polyhedron with the solid's points and faces and convexity 1 |

## Left out

- Floating point: coordinates are `real`, so rounding, NaN and infinities are not modelled. Exact float comparisons such as `degrees != 360.0` become real equality.
- `dsin`, `dcos`, `dtan`, the inverse trigonometric functions, `sqrt`, `len` and `normalized` are uninterpreted (the `Trig` record). Lemmas that need an identity (sin² + cos² = 1, exact values at 0) take it as a precondition.
- The `*Assign` operators, `Pt2::normalize`, `Pt3::normalize`, `Pt4::normalize` and the single-point `rotate` mutators are not modelled. The pure operators they update with are.
- `Mt4::perspective_matrix`, `look_at_matrix_rh` and `rotation_from_direction` are not modelled. They are trigonometric and no core builder calls them.
- `MersenneTwister::new` is not modelled, because it seeds from the clock. The `f32`, `i32` and `f64` range helpers are not modelled either, because they are floating-point scaling of `next`.
- Rng: tempering is not proved invertible. Only the seeding, regeneration and output order are modelled.
- `triangulate2d_rev` and `triangulate3d_rev` are not defined in the source files of this model. The caps they produce are therefore parameters: `bottomCap` of Dim3.LinearExtrude, `endCap` of Dim3.RotateExtrude, `startCap` of Dim3.Sweep and `rodCap` of the thread builders. They are only required to be whole triangles, and the indexing lemmas require them to use profile positions only.
- Dim3.LinearExtrude: the capacity `(points.len() - 2) * 2` underflows for fewer than two points. That case is already a panic (None) of the triangulation, so it is not modelled separately.
- Dim3.Sweep requires a path of at least two points. Shorter paths index out of range in the source.
- The `Polyhedron` delegations `translate`, `apply_matrix` and `rotate_x/y/z` forward to the point-list operations of Point3 and Matrix4. They are not repeated on `Polyhedron`.
- `circumscribed_polygon` is not modelled, because it only scales the radius by a cosine before calling `inscribed_polygon`. `QuadraticBezier2D`, `QuadraticBezier3D`, `CubicBezier2D` and `CubicBezier3D` `new`/`gen_points` are not modelled either: they are a record constructor and a call of the modelled sampling functions.
- Dim2.Arc requires `segments > 0` unless the arc is a full turn. With zero segments the source divides by zero and produces NaN points.
- Dim2.QuadraticBezier, Dim2.CubicPoints, Dim2.CubicBezier, Dim3.QuadraticBezier, Dim3.CubicPoints and Dim3.CubicBezier require `segments > 0`, for the same reason (`1.0 / 0`).
- Dim2.RoundedRect requires `segments > 0`, because it calls `arc` with 90 degrees.
- Dim2.BezierStar requires `segments > 0`, and the chain members' `GenPoints` require every curve to have at least one segment, for the same reason.
- MetricThread.ThreadedCylinder requires a positive pitch and a positive lead-in step count. A zero pitch makes the source divide by zero; a lead-in angle below -360/segments (zero lead-in steps) makes the source divide by zero and push non-finite start-face vertices.
- MetricThread.ThreadShape: the counts `n_steps`, `n_lead_in_steps` and `n_lead_out_steps` are the `as usize` casts of real products, as AsUsize states. The rounding of those products is not modelled.
- Integer widths: `u64` and `usize` arithmetic is unbounded `nat`, so overflow is not modelled. Triangulate.Triangulate keeps the `i16`/`u16` counters as integers, so polygons of more than 32767 vertices, where the counters wrap, are not modelled.
- Viewer and the `Scad` builders build values only. `Scad::save`, the `scad_file!` macro and `fat_thread!` are not modelled, because they write files and spawn threads.
- Only the macro arms listed under "## Model" are modelled. The other arms of `circle!`, `cylinder!`, `polygon!` and the other macros fill the same `ScadOp` fields from their arguments. `external_circle_chamfer` is modelled only as part of Scad.ExternalCylinderChamfer.
- The `text`, `import`, `surface`, `projection`, `resize`, `linear_extrude` and other operations are written through Scad.Header. Their exact argument text is stated only for `rotate`, `color`, `offset`, `polygon` and the resolution settings.
- The list of named colours (`ScadColor`) is kept as a name, because it is reference data.
- The numeric rows of `m_table` are copied for M2 to M100. Only their keys and positive pitches are proved.
- Matrix4.ApplyMatrix uses the corrected `Mt4 * Pt4` (see Findings), whereas the source's `apply_matrix` drops the translation. Dim3's sweep placement (Dim3.Place and the first-ring loop of Dim3.FirstSweepRing) also uses the corrected product; Dim3.PlaceInFramePlane proves it equal to the product as written for the look-at frames the sweep uses, so the swept points are those the source computes.
- `scad_tree/src/pipe.rs` and the examples under `scad_tree/examples/` are not part of this model. They assemble scenes and write files.

## Findings

| source | as written | input that shows it | evidently intended | confidence | as-written member | corrected member |
|---|---|---|---|---|---|---|
| scadder_math/src/mt4.rs:135 | the third row of `rot_vec` starts `z * x * (1 - c) - z * s` | axis (0, 1, 0), any angle whose sine is not 0: entry x.z of the matrix is 0 instead of -sin | `- y * s`, as in the axis-angle (Rodrigues) formula | high, not executed | Matrix4.RotVecAsWrittenMissesYAxis | Matrix4.RotVecPrincipalAxes |
| scadder_math/src/mt4.rs:331-338 | `Mt4 * Pt4` dots each transposed row with `Pt4::dot`, which ignores w | `translate_matrix((1, 2, 3)) * (0, 0, 0, 1)` gives (0, 0, 0, 0), not (1, 2, 3, 1) | a full four-term dot product, so that w carries translations | medium, not executed | Matrix4.MulPt4AsWrittenDropsW | Matrix4.MulPt4Transforms |
| scadder_math/src/mt4.rs:353-385 | `Mt4 * Mt4` uses the same three-term dot product | `identity() * identity()` has w.w = 0 | a four-term dot product, so that the identity is a unit | high, not executed | Matrix4.MulMt4AsWrittenIdentity | Matrix4.MulMt4Identity |
| scad_tree/src/scad.rs:292-297 | the polygon format with paths is `paths={} convexity={}` | any polygon with `Some(paths)` writes `paths=[[0, 1, 2]] convexity=1` | `paths={}, convexity={}`, as in the `paths=undef` branch | high, not executed | Scad.PolygonHeaderMissingComma | Scad.PolygonHeaderComma |
