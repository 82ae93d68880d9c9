/** The OpenSCAD scene tree (scad_tree/src/scad.rs): an operation with its
    arguments and an ordered list of children, written out as OpenSCAD
    source text; the `+` and `-` operators, the constructor macros and the
    chamfer builders. */
module Scad {
  import opened Wrappers
  import opened Render
  import P2 = Point2
  import P3 = Point3
  import P4 = Point4
  import opened IndexLists
  import Dim2
  import Dim3

  datatype TextHalign = HalignLeft | HalignCenter | HalignRight
  datatype TextValign = ValignTop | ValignCenter | ValignBaseline | ValignBottom
  datatype TextDirection = Ltr | Rtl | Ttb | Btt

  /** The debug names of the text enums, as the source's variants are
      spelled. */
  function HalignName(h: TextHalign): string
  {
    match h
    case HalignLeft => "left"
    case HalignCenter => "center"
    case HalignRight => "right"
  }

  function ValignName(v: TextValign): string
  {
    match v
    case ValignTop => "top"
    case ValignCenter => "center"
    case ValignBaseline => "baseline"
    case ValignBottom => "bottom"
  }

  function DirectionName(d: TextDirection): string
  {
    match d
    case Ltr => "ltr"
    case Rtl => "rtl"
    case Ttb => "ttb"
    case Btt => "btt"
  }

  /** A named OpenSCAD colour, by the name of its variant. */
  datatype ScadColor = ScadColor(name: string)

  datatype ScadOp =
    | Union
    | Difference
    | Intersection
    | Circle(radius: real, fa: Option<real>, fs: Option<real>, fn: Option<nat>)
    | Square(extent: P2.Pt2, center: bool)
    | Polygon(outline: seq<P2.Pt2>, paths: Option<Paths>, convexity: nat)
    | Text(content: string, size: real, font: string, halign: TextHalign, valign: TextValign,
           spacing: real, direction: TextDirection, language: string, script: string, fn: Option<nat>)
    | Import(file: string, convexity: nat)
    | Projection(cut: bool)
    | Sphere(radius: real, fa: Option<real>, fs: Option<real>, fn: Option<nat>)
    | Cube(dims: P3.Pt3, center: bool)
    | Cylinder(height: real, radius1: real, radius2: real, center: bool,
               fa: Option<real>, fs: Option<real>, fn: Option<nat>)
    | Polyhedron(vertices: seq<P3.Pt3>, faces: Faces, convexity: nat)
    | LinearExtrude(height: real, center: bool, convexity: nat, twist: real, scale: P2.Pt2,
                    slices: Option<nat>, fn: Option<nat>)
    | RotateExtrude(angle: real, convexity: nat, fa: Option<real>, fs: Option<real>, fn: Option<nat>)
    | Surface(file: string, center: bool, invert: bool, convexity: nat)
    | Translate(v: P3.Pt3)
    | Rotate(a: Option<real>, aIsScalar: bool, v: P3.Pt3)
    | Scale(v: P3.Pt3)
    | Resize(newsize: P3.Pt3, auto: bool, autoIsVec: bool, autovec: (bool, bool, bool), convexity: nat)
    | Mirror(v: P3.Pt3)
    | Color(rgba: Option<P4.Pt4>, color: Option<ScadColor>, hex: Option<string>, alpha: Option<real>)
    | Offset(r: Option<real>, delta: Option<real>, chamfer: bool)
    | Hull
    | Minkowski(convexity: nat)

  /** A node of the tree: its operation and its children, in order. */
  datatype Scad = Scad(op: ScadOp, children: seq<Scad>)

  // ---------------------------------------------------------------------------
  // Writing the tree
  // ---------------------------------------------------------------------------

  /** The optional `$fa`, `$fs`, `$fn` arguments, in that order, each only
      when present. */
  function Resolution(f: Formatter, fa: Option<real>, fs: Option<real>, fn: Option<nat>): string
  {
    (if fa.Some? then ", $fa=" + f.showReal(fa.value) else "")
    + (if fs.Some? then ", $fs=" + f.showReal(fs.value) else "")
    + (if fn.Some? then ", $fn=" + f.showNat(fn.value) else "")
  }

  /** The resolution arguments are exactly the present ones, in order. */
  lemma ResolutionOrder(f: Formatter, fa: Option<real>, fs: Option<real>, fn: Option<nat>)
    ensures Resolution(f, None, None, None) == ""
    ensures fa.Some? ==> Resolution(f, fa, fs, fn)[..|", $fa=" + f.showReal(fa.value)|] == ", $fa=" + f.showReal(fa.value)
    ensures fn.Some? ==> var tail := ", $fn=" + f.showNat(fn.value);
      |tail| <= |Resolution(f, fa, fs, fn)| &&
      Resolution(f, fa, fs, fn)[|Resolution(f, fa, fs, fn)| - |tail|..] == tail
  {
    var a := if fa.Some? then ", $fa=" + f.showReal(fa.value) else "";
    var b := if fs.Some? then ", $fs=" + f.showReal(fs.value) else "";
    var c := if fn.Some? then ", $fn=" + f.showNat(fn.value) else "";
    assert Resolution(f, fa, fs, fn) == a + b + c;
    assert (a + b + c)[..|a|] == a;
    assert (a + b + c)[|a + b + c| - |c|..] == c;
  }

  /** With all three settings present the text is exactly `$fa`, `$fs`,
      `$fn` in that order; `$fs` alone is written on its own. */
  lemma ResolutionAllSet(f: Formatter, fa: real, fs: real, fn: nat)
    ensures Resolution(f, Some(fa), Some(fs), Some(fn))
            == ", $fa=" + f.showReal(fa) + ", $fs=" + f.showReal(fs) + ", $fn=" + f.showNat(fn)
    ensures Resolution(f, None, Some(fs), None) == ", $fs=" + f.showReal(fs)
  {
  }

  /** The header of `polygon` as the source writes it: with explicit paths,
      no comma separates the paths from `convexity`. */
  function PolygonHeaderAsWritten(points: string, paths: Option<string>, convexity: string): string
  {
    if paths.Some? then "polygon(points=" + points + ", paths=" + paths.value + " convexity=" + convexity + ");"
    else "polygon(points=" + points + ", paths=undef, convexity=" + convexity + ");"
  }

  /** The header of `polygon` with its arguments separated by commas in both
      cases. */
  function PolygonHeader(points: string, paths: Option<string>, convexity: string): string
  {
    Statement("polygon(points=" + points + ", paths=" + (if paths.Some? then paths.value else "undef")
    + ", convexity=" + convexity)
  }

  /** With explicit paths the header as written runs the paths and
      `convexity` together, which OpenSCAD does not accept as an argument
      list. */
  lemma PolygonHeaderMissingComma(points: string, paths: string, convexity: string)
    ensures var w := PolygonHeaderAsWritten(points, Some(paths), convexity);
      var at := |"polygon(points=" + points + ", paths=" + paths|;
      w[at .. at + 2] == " c"
  {
    var pre := "polygon(points=" + points + ", paths=" + paths;
    assert PolygonHeaderAsWritten(points, Some(paths), convexity) == pre + " convexity=" + convexity + ");";
  }

  /** The corrected header separates the paths from `convexity` by a comma,
      and agrees with the header as written when the paths are left
      undefined. */
  lemma PolygonHeaderComma(points: string, paths: string, convexity: string)
    ensures var c := PolygonHeader(points, Some(paths), convexity);
      var at := |"polygon(points=" + points + ", paths=" + paths|;
      c[at .. at + 2] == ", "
    ensures PolygonHeaderAsWritten(points, None, convexity) == PolygonHeader(points, None, convexity)
  {
    var pre := "polygon(points=" + points + ", paths=" + paths;
    assert PolygonHeader(points, Some(paths), convexity) == pre + ", convexity=" + convexity + ");";
  }

  /** A leaf operation's text: its name and arguments, closed by ");". */
  function Statement(call: string): (r: string)
    ensures |r| > 0 && r[|r| - 1] == ';'
  {
    call + ");"
  }

  /** A group operation's text: its name and arguments, then " {" and a
      newline that open the children. */
  function Block(call: string): (r: string)
    ensures |r| > 0 && r[|r| - 1] == '\n'
  {
    call + ") {\n"
  }

  /** A leaf operation: one that takes no children and is written as a
      complete statement. */
  predicate IsLeaf(op: ScadOp)
  {
    op.Circle? || op.Square? || op.Polygon? || op.Text? || op.Import? || op.Sphere? ||
    op.Cube? || op.Cylinder? || op.Polyhedron? || op.Surface?
  }

  /** The text of a leaf operation: a complete statement ending in ";".
      Writing fails when a point, path or face list it holds is empty. A
      polygon with paths gets its header as written, without the comma
      before `convexity`. */
  function LeafHeader(f: Formatter, op: ScadOp): (r: Option<string>)
    requires IsLeaf(op)
    ensures r.Some? ==> |r.value| > 0 && r.value[|r.value| - 1] == ';'
  {
    match op
    case Circle(radius, fa, fs, fn) =>
      Some(Statement("circle(r=" + f.showReal(radius) + Resolution(f, fa, fs, fn)))
    case Square(extent, center) =>
      Some(Statement("square(size=[" + f.showReal(extent.x) + ", " + f.showReal(extent.y) + "], center=" + ShowBool(center)))
    case Polygon(outline, paths, convexity) =>
      var pts := ShowPt2s(f, outline);
      var ps := if paths.Some? then ShowPaths(f, paths.value) else None;
      if pts.None? || (paths.Some? && ps.None?) then None
      else Some(PolygonHeaderAsWritten(pts.value, if paths.Some? then Some(ps.value) else None, f.showNat(convexity)))
    case Text(content, size, font, halign, valign, spacing, direction, language, script, fn) =>
      Some(Statement("text(text=" + f.showQuoted(content) + ", "
        + "size=" + f.showReal(size) + ", "
        + "font=" + f.showQuoted(font) + ", "
        + "halign=\"" + HalignName(halign) + "\", "
        + "valign=\"" + ValignName(valign) + "\", "
        + "spacing=" + f.showReal(spacing) + ", "
        + "direction=\"" + DirectionName(direction) + "\", "
        + "language=" + f.showQuoted(language) + ", "
        + "script=" + f.showQuoted(script)
        + (if fn.Some? then ", $fn=" + f.showNat(fn.value) else "")))
    case Import(file, convexity) =>
      Some(Statement("import(" + f.showQuoted(file) + ", " + f.showNat(convexity)))
    case Sphere(radius, fa, fs, fn) =>
      Some(Statement("sphere(r=" + f.showReal(radius) + Resolution(f, fa, fs, fn)))
    case Cube(dims, center) =>
      Some(Statement("cube(size=" + ShowPt3(f, dims) + ", center=" + ShowBool(center)))
    case Cylinder(height, radius1, radius2, center, fa, fs, fn) =>
      Some(Statement("cylinder(h=" + f.showReal(height) + ", r1=" + f.showReal(radius1) + ", r2=" + f.showReal(radius2)
        + ", center=" + ShowBool(center) + Resolution(f, fa, fs, fn)))
    case Polyhedron(vertices, faces, convexity) =>
      var pts := ShowPt3s(f, vertices);
      var fs := ShowPaths(f, faces);
      if pts.None? || fs.None? then None
      else Some(Statement("polyhedron(points=" + pts.value + ", faces=" + fs.value + ", convexity=" + f.showNat(convexity)))
    case Surface(file, center, invert, convexity) =>
      Some(Statement("surface(file=" + f.showQuoted(file) + ", center=" + ShowBool(center) + ", invert=" + ShowBool(invert)
        + ", convexity=" + f.showNat(convexity)))
  }

  /** The text of a group operation: its name and arguments, then an opening
      "{" and a newline; `color` with no colour and `offset` with neither
      `r` nor `delta` write nothing. */
  function GroupHeader(f: Formatter, op: ScadOp): (r: string)
    requires !IsLeaf(op)
    ensures r == "" || r[|r| - 1] == '\n'
  {
    match op
    case Union => "union() {\n"
    case Difference => "difference() {\n"
    case Intersection => "intersection() {\n"
    case Projection(cut) =>
      Block("projection(cut=" + ShowBool(cut))
    case LinearExtrude(height, center, convexity, twist, scale, slices, fn) =>
      Block("linear_extrude(height=" + f.showReal(height) + ", center=" + ShowBool(center)
        + ", convexity=" + f.showNat(convexity) + ", twist=" + f.showReal(twist) + ", scale=" + ShowPt2(f, scale)
        + (if slices.Some? then ", slices=" + f.showNat(slices.value) else "")
        + (if fn.Some? then ", $fn=" + f.showNat(fn.value) else ""))
    case RotateExtrude(angle, convexity, fa, fs, fn) =>
      Block("rotate_extrude(angle=" + f.showReal(angle) + ", convexity=" + f.showNat(convexity)
        + Resolution(f, fa, fs, fn))
    case Translate(v) => Block("translate(v=" + ShowPt3(f, v))
    case Rotate(a, aIsScalar, v) =>
      if a.Some? then
        if aIsScalar then Block("rotate(a=" + f.showReal(a.value))
        else Block("rotate(a=" + f.showReal(a.value) + ", v=" + ShowPt3(f, v))
      else Block("rotate(a=" + ShowPt3(f, v))
    case Scale(v) => Block("scale(v=" + ShowPt3(f, v))
    case Resize(newsize, auto, autoIsVec, autovec, convexity) =>
      if autoIsVec then
        Block("resize(newsize=" + ShowPt3(f, newsize) + ", auto=" + ShowBool(auto) + ", convexity=" + f.showNat(convexity))
      else
        Block("resize(newsize=" + ShowPt3(f, newsize) + ", auto=[" + ShowBool(autovec.0) + ", " + ShowBool(autovec.1)
          + ", " + ShowBool(autovec.2) + "], convexity=" + f.showNat(convexity))
    case Mirror(v) => Block("mirror(v=" + ShowPt3(f, v))
    case Color(rgba, color, hex, alpha) =>
      if rgba.Some? then Block("color(c=" + ShowPt4(f, rgba.value))
      else if color.Some? then
        Block("color(\"" + color.value.name + "\""
          + (if alpha.Some? then ", alpha=" + f.showReal(alpha.value) else ""))
      else if hex.Some? then Block("color(" + f.showQuoted(hex.value))
      else ""
    case Offset(r, delta, chamfer) =>
      if r.Some? then Block("offset(r=" + f.showReal(r.value))
      else if delta.Some? then Block("offset(delta=" + f.showReal(delta.value) + ", chamfer=" + ShowBool(chamfer))
      else ""
    case Hull => "hull() {\n"
    case Minkowski(convexity) => Block("minkowski(convexity=" + f.showNat(convexity))
  }

  /** The text of a node's own operation. */
  function Header(f: Formatter, op: ScadOp): (r: Option<string>)
    ensures r.Some? ==> var h := r.value; h == "" || h[|h| - 1] == ';' || h[|h| - 1] == '\n'
  {
    if IsLeaf(op) then LeafHeader(f, op) else Some(GroupHeader(f, op))
  }

  /** `Display for Scad`: the header, every child's text in order, "}" when
      there are children, and a newline. */
  function Written(f: Formatter, s: Scad): (r: Option<string>)
    decreases s, 1
    ensures r.Some? ==> |r.value| >= 1 && r.value[|r.value| - 1] == '\n'
  {
    var h := Header(f, s.op);
    var body := Concat(ChildTexts(f, s.children));
    if h.None? || body.None? then None
    else Some(h.value + body.value + (if |s.children| > 0 then "}" else "") + "\n")
  }

  /** The text of each child, in order. */
  function ChildTexts(f: Formatter, cs: seq<Scad>): (r: seq<Option<string>>)
    decreases cs, 0
    ensures |r| == |cs|
  {
    seq(|cs|, i requires 0 <= i < |cs| => Written(f, cs[i]))
  }

  /** Texts written one after another; the first that fails makes the whole
      fail. */
  function Concat(parts: seq<Option<string>>): Option<string>
  {
    if |parts| == 0 then Some("")
    else
      var prev := Concat(parts[..|parts| - 1]);
      var last := parts[|parts| - 1];
      if prev.None? || last.None? then None else Some(prev.value + last.value)
  }

  /** The texts fail together exactly when one of them fails. */
  lemma {:induction false} ConcatNone(parts: seq<Option<string>>)
    ensures Concat(parts).None? <==> exists i :: 0 <= i < |parts| && parts[i].None?
  {
    var n := |parts|;
    if n > 0 {
      var init := parts[..n - 1];
      ConcatNone(init);
      if Concat(init).None? {
        var i :| 0 <= i < |init| && init[i].None?;
        assert parts[i].None?;
      }
      if exists i :: 0 <= i < n && parts[i].None? {
        var i :| 0 <= i < n && parts[i].None?;
        if i < n - 1 {
          assert init[i].None?;
        }
      }
    }
  }

  /** Two texts one after the other. */
  lemma ConcatPair(x: Option<string>, y: Option<string>)
    ensures Concat([x, y]) == if x.Some? && y.Some? then Some(x.value + y.value) else None
  {
    assert [x, y][..1] == [x];
    assert [x][..0] == [];
    assert Concat([x]) == x by {
      if x.Some? {
        assert "" + x.value == x.value;
      }
    }
  }

  /** The writer: the header, a loop writing each child in turn, then the
      closing brace when there are children and the final newline. */
  method Write(f: Formatter, s: Scad) returns (r: Option<string>)
    decreases s
    ensures r == Written(f, s)
  {
    var h := Header(f, s.op);
    if h.None? {
      return None;
    }
    var out := h.value;
    ghost var texts := ChildTexts(f, s.children);
    for i := 0 to |s.children|
      invariant Concat(texts[..i]).Some?
      invariant out == h.value + Concat(texts[..i]).value
    {
      var child := Write(f, s.children[i]);
      if child.None? {
        assert texts[i].None?;
        ConcatNone(texts);
        return None;
      }
      ghost var before := Concat(texts[..i]).value;
      assert texts[..i + 1][..i] == texts[..i];
      assert Concat(texts[..i + 1]) == Some(before + child.value);
      Regroup(h.value, before, child.value);
      out := out + child.value;
    }
    assert texts[..|s.children|] == texts;
    if |s.children| > 0 {
      out := out + "}";
    }
    out := out + "\n";
    return Some(out);
  }

  /** Appending to a text that already ends in another. */
  lemma Regroup(h: string, x: string, y: string)
    ensures h + x + y == h + (x + y)
  {
  }

  /** A node's text closes with "}" and a newline exactly when the node has
      children. */
  lemma BraceIffChildren(f: Formatter, s: Scad)
    requires Written(f, s).Some?
    ensures var out := Written(f, s).value;
      |s.children| > 0 <==> (|out| >= 2 && out[|out| - 2] == '}')
  {
    if |s.children| > 0 {
      BraceWithChildren(f, s);
    } else {
      NoBraceWithoutChildren(f, s);
    }
  }

  /** A node with children closes its text with a brace. */
  lemma BraceWithChildren(f: Formatter, s: Scad)
    requires Written(f, s).Some? && |s.children| > 0
    ensures var out := Written(f, s).value; |out| >= 2 && out[|out| - 2] == '}'
  {
    var h := Header(f, s.op).value;
    var body := Concat(ChildTexts(f, s.children)).value;
    BraceBeforeNewline(h + body);
  }

  /** A childless node's text is its header and a newline. */
  lemma NoBraceWithoutChildren(f: Formatter, s: Scad)
    requires Written(f, s).Some? && |s.children| == 0
    ensures var out := Written(f, s).value; !(|out| >= 2 && out[|out| - 2] == '}')
  {
    ChildlessText(f, s);
    NoBraceBeforeNewline(Header(f, s.op).value);
  }

  /** A childless node's text is its header followed by the newline. */
  lemma ChildlessText(f: Formatter, s: Scad)
    requires Written(f, s).Some? && |s.children| == 0
    ensures Header(f, s.op).Some? && Written(f, s).value == Header(f, s.op).value + "" + "" + "\n"
  {
    assert ChildTexts(f, s.children) == [];
  }

  /** A childless polygon node is written with the polygon header as the
      source writes it, and a newline. Writing fails exactly when the
      outline or the paths cannot be written. */
  lemma WrittenPolygon(f: Formatter, outline: seq<P2.Pt2>, paths: Option<Paths>, convexity: nat)
    ensures var out := Written(f, Scad(Polygon(outline, paths, convexity), []));
      out.None? <==> (ShowPt2s(f, outline).None? || (paths.Some? && ShowPaths(f, paths.value).None?))
    ensures var out := Written(f, Scad(Polygon(outline, paths, convexity), []));
      out.Some? ==> out.value == PolygonHeaderAsWritten(ShowPt2s(f, outline).value,
        if paths.Some? then Some(ShowPaths(f, paths.value).value) else None, f.showNat(convexity)) + "\n"
  {
    ChildlessWritten(f, Scad(Polygon(outline, paths, convexity), []));
    PolygonLeafHeader(f, outline, paths, convexity);
  }

  /** A childless node is its header and a newline, or fails with it. */
  lemma ChildlessWritten(f: Formatter, s: Scad)
    requires |s.children| == 0
    ensures Written(f, s) == if Header(f, s.op).None? then None else Some(Header(f, s.op).value + "" + "" + "\n")
  {
    assert ChildTexts(f, s.children) == [];
  }

  /** The polygon header fails exactly when the outline or the paths cannot
      be written, and is otherwise the header as written. */
  lemma PolygonLeafHeader(f: Formatter, outline: seq<P2.Pt2>, paths: Option<Paths>, convexity: nat)
    ensures var h := LeafHeader(f, Polygon(outline, paths, convexity));
      (h.None? <==> (ShowPt2s(f, outline).None? || (paths.Some? && ShowPaths(f, paths.value).None?))) &&
      (h.Some? ==> h.value == PolygonHeaderAsWritten(ShowPt2s(f, outline).value,
        if paths.Some? then Some(ShowPaths(f, paths.value).value) else None, f.showNat(convexity)))
  {
  }

  /** A text closed by a brace has the brace just before its newline. */
  lemma BraceBeforeNewline(x: string)
    ensures var out := x + "}" + "\n"; |out| >= 2 && out[|out| - 2] == '}'
  {
  }

  /** A header followed directly by the newline has no brace before it. */
  lemma NoBraceBeforeNewline(h: string)
    requires h == "" || h[|h| - 1] == ';' || h[|h| - 1] == '\n'
    ensures var out := h + "" + "" + "\n"; !(|out| >= 2 && out[|out| - 2] == '}')
  {
    var out := h + "" + "" + "\n";
    if |out| >= 2 {
      assert out[|out| - 2] == h[|h| - 1];
    }
  }

  // ---------------------------------------------------------------------------
  // Operators and builders
  // ---------------------------------------------------------------------------

  /** `a + b`: the union of the two, in order. */
  function Plus(a: Scad, b: Scad): (r: Scad)
    ensures r.op == Union && r.children == [a, b]
  {
    Scad(Union, [a, b])
  }

  /** `a - b`: `b` taken away from `a`. */
  function Minus(a: Scad, b: Scad): (r: Scad)
    ensures r.op == Difference && r.children == [a, b]
  {
    Scad(Difference, [a, b])
  }

  /** A group of two nodes is written as its header, the two texts in order
      and the closing brace; it fails exactly when one of the three fails. */
  lemma PairWritten(f: Formatter, op: ScadOp, a: Scad, b: Scad)
    ensures Written(f, Scad(op, [a, b])).Some? <==>
      Header(f, op).Some? && Written(f, a).Some? && Written(f, b).Some?
    ensures Written(f, Scad(op, [a, b])).Some? ==>
      Written(f, Scad(op, [a, b])).value == Header(f, op).value + Written(f, a).value + Written(f, b).value + "}\n"
  {
    PairChildren(f, a, b);
    if Header(f, op).Some? && Written(f, a).Some? && Written(f, b).Some? {
      CloseGroup(Header(f, op).value, Written(f, a).value, Written(f, b).value);
    }
  }

  /** The children of a group of two are written one after the other. */
  lemma PairChildren(f: Formatter, a: Scad, b: Scad)
    ensures Concat(ChildTexts(f, [a, b])) ==
      if Written(f, a).Some? && Written(f, b).Some? then Some(Written(f, a).value + Written(f, b).value) else None
  {
    assert ChildTexts(f, [a, b]) == [Written(f, a), Written(f, b)];
    ConcatPair(Written(f, a), Written(f, b));
  }

  /** The text of a group of two, regrouped. */
  lemma CloseGroup(h: string, x: string, y: string)
    ensures h + (x + y) + "}" + "\n" == h + x + y + "}\n"
  {
  }

  /** A union of two nodes is written as a union block holding their texts
      in order; it fails exactly when one of them fails. */
  lemma PlusWritten(f: Formatter, a: Scad, b: Scad)
    ensures Written(f, Plus(a, b)).Some? <==> Written(f, a).Some? && Written(f, b).Some?
    ensures Written(f, Plus(a, b)).Some? ==>
      Written(f, Plus(a, b)).value == "union() {\n" + Written(f, a).value + Written(f, b).value + "}\n"
  {
    PairWritten(f, Union, a, b);
  }

  /** A difference of two nodes is written as a difference block holding
      their texts in order. */
  lemma MinusWritten(f: Formatter, a: Scad, b: Scad)
    ensures Written(f, Minus(a, b)).Some? <==> Written(f, a).Some? && Written(f, b).Some?
    ensures Written(f, Minus(a, b)).Some? ==>
      Written(f, Minus(a, b)).value == "difference() {\n" + Written(f, a).value + Written(f, b).value + "}\n"
  {
    PairWritten(f, Difference, a, b);
  }

  /** The macro forms used by the model: a diameter form stores half the
      diameter as the radius, and omitted arguments take their defaults
      (`center` false, convexity 1, a full-turn `rotate_extrude`). */
  function CircleR(radius: real, fa: Option<real>, fs: Option<real>, fn: Option<nat>): Scad
  {
    Scad(Circle(radius, fa, fs, fn), [])
  }

  function CircleD(diameter: real, fa: Option<real>, fs: Option<real>, fn: Option<nat>): (r: Scad)
    ensures r.op.Circle? && r.op.radius * 2.0 == diameter && r.children == []
  {
    Scad(Circle(diameter / 2.0, fa, fs, fn), [])
  }

  function SphereR(radius: real, fa: Option<real>, fs: Option<real>, fn: Option<nat>): Scad
  {
    Scad(Sphere(radius, fa, fs, fn), [])
  }

  function SphereD(diameter: real, fa: Option<real>, fs: Option<real>, fn: Option<nat>): (r: Scad)
    ensures r.op.Sphere? && r.op.radius * 2.0 == diameter && r.children == []
  {
    Scad(Sphere(diameter / 2.0, fa, fs, fn), [])
  }

  function CylinderR(height: real, radius1: real, radius2: real, center: bool,
                     fa: Option<real>, fs: Option<real>, fn: Option<nat>): Scad
  {
    Scad(Cylinder(height, radius1, radius2, center, fa, fs, fn), [])
  }

  function CylinderD(height: real, diameter1: real, diameter2: real, center: bool,
                     fa: Option<real>, fs: Option<real>, fn: Option<nat>): (r: Scad)
    ensures r.op.Cylinder? && r.op.radius1 * 2.0 == diameter1 && r.op.radius2 * 2.0 == diameter2
  {
    Scad(Cylinder(height, diameter1 / 2.0, diameter2 / 2.0, center, fa, fs, fn), [])
  }

  /** `cylinder!(h, r)` and `cylinder!(h=, d=)`: a straight cylinder, not
      centred, with no resolution arguments. */
  function StraightCylinder(height: real, radius: real): (r: Scad)
    ensures r.op.Cylinder? && r.op.height == height && r.op.radius1 == radius && r.op.radius2 == radius
    ensures !r.op.center && r.op.fa.None? && r.op.fs.None? && r.op.fn.None? && r.children == []
  {
    Scad(Cylinder(height, radius, radius, false, None, None, None), [])
  }

  function PolygonOf(points: seq<P2.Pt2>, paths: Option<Paths>, convexity: nat): Scad
  {
    Scad(Polygon(points, paths, convexity), [])
  }

  /** `polygon!(points)`: no paths, convexity 1. */
  function PlainPolygon(points: seq<P2.Pt2>): (r: Scad)
    ensures r.op.Polygon? && r.op.outline == points && r.op.paths.None? && r.op.convexity == 1 && r.children == []
  {
    Scad(Polygon(points, None, 1), [])
  }

  /** `polyhedron!(points, faces)`: convexity 1. */
  function PlainPolyhedron(points: seq<P3.Pt3>, faces: Faces): (r: Scad)
    ensures r.op == Polyhedron(points, faces, 1) && r.children == []
  {
    Scad(Polyhedron(points, faces, 1), [])
  }

  /** `rotate_extrude!(children)`: a full turn, convexity 1. */
  function FullRotateExtrude(children: seq<Scad>): (r: Scad)
    ensures r.op == RotateExtrude(360.0, 1, None, None, None) && r.children == children
  {
    Scad(RotateExtrude(360.0, 1, None, None, None), children)
  }

  function TranslateBy(v: P3.Pt3, children: seq<Scad>): Scad
  {
    Scad(Translate(v), children)
  }

  /** The three forms of `rotate!`: an angle about an axis, a vector of
      angles about x, y and z, and a single angle for 2D shapes. */
  function RotateAbout(a: real, v: P3.Pt3, children: seq<Scad>): Scad
  {
    Scad(Rotate(Some(a), false, v), children)
  }

  function RotateXyz(angles: P3.Pt3, children: seq<Scad>): Scad
  {
    Scad(Rotate(None, false, angles), children)
  }

  function RotatePlanar(a: real, children: seq<Scad>): Scad
  {
    Scad(Rotate(Some(a), true, P3.Origin), children)
  }

  /** The three rotate forms are written as `rotate(a=v)` for a vector of
      angles, `rotate(a=a)` for a scalar and `rotate(a=a, v=v)` for an
      angle about an axis. */
  lemma RotateWritten(f: Formatter, a: real, v: P3.Pt3)
    ensures Header(f, RotateXyz(v, []).op) == Some("rotate(a=" + ShowPt3(f, v) + ") {\n")
    ensures Header(f, RotatePlanar(a, []).op) == Some("rotate(a=" + f.showReal(a) + ") {\n")
    ensures Header(f, RotateAbout(a, v, []).op) == Some("rotate(a=" + f.showReal(a) + ", v=" + ShowPt3(f, v) + ") {\n")
  {
  }

  /** `color` prefers an rgba value, then a named colour, then a hex string,
      and writes no header when none is given; `offset` prefers `r` over
      `delta`. */
  lemma ColorAndOffsetPreference(f: Formatter, rgba: Option<P4.Pt4>, color: Option<ScadColor>, hex: Option<string>,
                                 alpha: Option<real>, r: Option<real>, delta: Option<real>, chamfer: bool)
    ensures rgba.Some? ==> Header(f, Color(rgba, color, hex, alpha)) == Some("color(c=" + ShowPt4(f, rgba.value) + ") {\n")
    ensures rgba.None? && color.None? && hex.Some? ==>
      Header(f, Color(rgba, color, hex, alpha)) == Some("color(" + f.showQuoted(hex.value) + ") {\n")
    ensures rgba.None? && color.None? && hex.None? ==> Header(f, Color(rgba, color, hex, alpha)) == Some("")
    ensures r.Some? ==> Header(f, Offset(r, delta, chamfer)) == Some("offset(r=" + f.showReal(r.value) + ") {\n")
    ensures r.None? && delta.None? ==> Header(f, Offset(r, delta, chamfer)) == Some("")
  {
  }

  /** `external_circle_chamfer`: the chamfer profile stood up by a quarter
      turn, moved out to the radius and swept around z through `degrees`. */
  function ExternalCircleChamfer(size: real, oversize: real, radius: real, degrees: real, segments: nat): Scad
  {
    Scad(RotateExtrude(degrees, 5, None, None, Some(segments)),
      [TranslateBy(P3.Pt3(radius + size / 2.0 + oversize / 2.0, -oversize, 0.0),
         [RotatePlanar(90.0, [PlainPolygon(Dim2.Chamfer(size, oversize))])])])
  }

  /** `external_cylinder_chamfer`: a full-turn chamfer at the bottom and a
      flipped one at `height`, moved down by half the height when centred. */
  function ExternalCylinderChamfer(size: real, oversize: real, radius: real, height: real, segments: nat, center: bool): (r: Scad)
    ensures var pair := Scad(Union, [ExternalCircleChamfer(size, oversize, radius, 360.0, segments),
        TranslateBy(P3.Pt3(0.0, 0.0, height),
          [RotateXyz(P3.Pt3(180.0, 0.0, 0.0), [ExternalCircleChamfer(size, oversize, radius, 360.0, segments)])])]);
      r == if center then TranslateBy(P3.Pt3(0.0, 0.0, -height / 2.0), [pair]) else pair
  {
    var chamfer := ExternalCircleChamfer(size, oversize, radius, 360.0, segments);
    var result := Scad(Union, [chamfer, TranslateBy(P3.Pt3(0.0, 0.0, height), [RotateXyz(P3.Pt3(180.0, 0.0, 0.0), [chamfer])])]);
    if center then TranslateBy(P3.Pt3(0.0, 0.0, -height / 2.0), [result]) else result
  }

  /** A face list of index sequences as `Faces`. */
  function AsFaces(faces: seq<seq<nat>>): (r: Faces)
    ensures |r.inner| == |faces|
    ensures forall i :: 0 <= i < |faces| ==> r.inner[i].inner == faces[i]
  {
    Paths(seq(|faces|, i requires 0 <= i < |faces| => Indices(faces[i])))
  }

  /** `Polyhedron::into_scad`: a `polyhedron` node of the same points and
      faces, with convexity 1. */
  function PolyhedronNode(p: Dim3.Polyhedron): (r: Scad)
    ensures r.op.Polyhedron? && r.op.vertices == p.points && r.op.convexity == 1 && r.children == []
    ensures |r.op.faces.inner| == |p.faces| && forall i :: 0 <= i < |p.faces| ==> r.op.faces.inner[i].inner == p.faces[i]
  {
    PlainPolyhedron(p.points, AsFaces(p.faces))
  }
}
