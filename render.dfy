/** The text output shared by the `Display` implementations: how numbers and
    quoted strings are written (a parameter of the model), the bracketed
    list writer used for point lists (scad_tree_math/src/pt2.rs,
    scad_tree_math/src/pt3.rs) and index lists (scad_tree/src/lib.rs), and
    the rendering of single points. */
module Render {
  import opened Wrappers
  import P2 = Point2
  import P3 = Point3
  import P4 = Point4

  /** How the host language writes a floating-point number (`{}` on f64), an
      unsigned integer, and a string in debug form (quoted and
      escaped). These are not modelled character by character. */
  datatype Formatter = Formatter(showReal: real -> string, showNat: nat -> string, showQuoted: string -> string)

  function ShowBool(b: bool): string
  {
    if b then "true" else "false"
  }

  /** The text written by the loop over all but the last item: each item
      followed by the separator. */
  function Prefix(items: seq<string>, sep: string, k: nat): string
    requires k <= |items|
  {
    if k == 0 then "" else Prefix(items, sep, k - 1) + items[k - 1] + sep
  }

  /** The list writer: "[", every item but the last followed by `sep`, the
      last item, "]". The source computes `len() - 1` first, which fails on
      an empty list. */
  function Bracketed(items: seq<string>, sep: string): (r: Option<string>)
    ensures r.None? <==> |items| == 0
    ensures r.Some? ==> |r.value| >= 2 && r.value[0] == '[' && r.value[|r.value| - 1] == ']'
  {
    if |items| == 0 then None
    else Some("[" + Prefix(items, sep, |items| - 1) + items[|items| - 1] + "]")
  }

  /** The `Display` loop of a list: `write!("[")`, one write per item but the
      last, then the last item and "]". */
  method WriteBracketed(items: seq<string>, sep: string) returns (r: Option<string>)
    ensures r == Bracketed(items, sep)
  {
    if |items| == 0 {
      return None;
    }
    var out := "[";
    for i := 0 to |items| - 1
      invariant out == "[" + Prefix(items, sep, i)
    {
      out := out + items[i] + sep;
    }
    out := out + items[|items| - 1] + "]";
    return Some(out);
  }

  /** Appending an item does not change the text before the old items. */
  lemma {:induction false} PrefixExtend(items: seq<string>, x: string, sep: string, k: nat)
    requires k <= |items|
    ensures Prefix(items + [x], sep, k) == Prefix(items, sep, k)
  {
    if k > 0 {
      PrefixExtend(items, x, sep, k - 1);
      assert (items + [x])[k - 1] == items[k - 1];
    }
  }

  /** The total length of the items. */
  function TotalLength(items: seq<string>): nat
  {
    if |items| == 0 then 0 else TotalLength(items[..|items| - 1]) + |items[|items| - 1]|
  }

  /** The text before item k is as long as the first k items and k
      separators. */
  lemma {:induction false} PrefixLength(items: seq<string>, sep: string, k: nat)
    requires k <= |items|
    ensures |Prefix(items, sep, k)| == TotalLength(items[..k]) + k * |sep|
  {
    if k > 0 {
      PrefixLength(items, sep, k - 1);
      assert items[..k][..k - 1] == items[..k - 1];
      assert TotalLength(items[..k]) == TotalLength(items[..k - 1]) + |items[k - 1]|;
      assert |Prefix(items, sep, k)| == |Prefix(items, sep, k - 1)| + |items[k - 1]| + |sep|;
      assert (k - 1) * |sep| + |sep| == k * |sep|;
    }
  }

  /** Item j of the first k starts after the earlier items and their
      separators. */
  lemma {:induction false} PrefixItem(items: seq<string>, sep: string, k: nat, j: nat)
    requires j < k <= |items|
    ensures var at := TotalLength(items[..j]) + j * |sep|;
      at + |items[j]| <= |Prefix(items, sep, k)| &&
      Prefix(items, sep, k)[at .. at + |items[j]|] == items[j]
  {
    var p := Prefix(items, sep, k - 1);
    assert Prefix(items, sep, k) == p + items[k - 1] + sep;
    var at := TotalLength(items[..j]) + j * |sep|;
    if j < k - 1 {
      PrefixItem(items, sep, k - 1, j);
      assert Prefix(items, sep, k)[at .. at + |items[j]|] == p[at .. at + |items[j]|];
    } else {
      PrefixLength(items, sep, k - 1);
    }
  }

  /** Every item appears in the written list, in order: item j starts after
      the opening bracket, the j items before it and j separators. */
  lemma ItemInBracketed(items: seq<string>, sep: string, j: nat)
    requires j < |items|
    ensures var out := Bracketed(items, sep).value;
      var at := 1 + TotalLength(items[..j]) + j * |sep|;
      at + |items[j]| < |out| && out[at .. at + |items[j]|] == items[j]
  {
    var n := |items|;
    var p := Prefix(items, sep, n - 1);
    var off := TotalLength(items[..j]) + j * |sep|;
    if j < n - 1 {
      PrefixItem(items, sep, n - 1, j);
      InsideBrackets(p, items[n - 1], off, |items[j]|);
    } else {
      PrefixLength(items, sep, n - 1);
      LastInBrackets(p, items[n - 1]);
    }
  }

  /** A slice of the text before the last item, seen through the opening
      bracket. */
  lemma InsideBrackets(p: string, last: string, off: nat, len: nat)
    requires off + len <= |p|
    ensures var out := "[" + p + last + "]";
      off + 1 + len < |out| && out[off + 1 .. off + 1 + len] == p[off .. off + len]
  {
  }

  /** The last item sits right after the opening bracket and the text
      before it. */
  lemma LastInBrackets(p: string, last: string)
    ensures var out := "[" + p + last + "]";
      |p| + 1 + |last| < |out| && out[|p| + 1 .. |p| + 1 + |last|] == last
  {
  }

  /** The written list is as long as its items, its separators and the two
      brackets. */
  lemma BracketedLength(items: seq<string>, sep: string)
    requires |items| > 0
    ensures |Bracketed(items, sep).value| == 2 + TotalLength(items) + (|items| - 1) * |sep|
  {
    var n := |items|;
    PrefixLength(items, sep, n - 1);
    assert items[..n] == items;
    assert TotalLength(items) == TotalLength(items[..n - 1]) + |items[n - 1]|;
  }

  /** `Display for Pt2`: "[x, y]". */
  function ShowPt2(f: Formatter, p: P2.Pt2): string
  {
    "[" + f.showReal(p.x) + ", " + f.showReal(p.y) + "]"
  }

  /** `Display for Pt3`: "[x, y, z]". */
  function ShowPt3(f: Formatter, p: P3.Pt3): string
  {
    "[" + f.showReal(p.x) + ", " + f.showReal(p.y) + ", " + f.showReal(p.z) + "]"
  }

  /** `Display for Pt4`: "[x, y, z, w]". */
  function ShowPt4(f: Formatter, p: P4.Pt4): string
  {
    "[" + f.showReal(p.x) + ", " + f.showReal(p.y) + ", " + f.showReal(p.z) + ", " + f.showReal(p.w) + "]"
  }

  /** `Display for Pt2s`: the points in brackets, separated by a bare comma;
      an empty list fails. */
  function ShowPt2s(f: Formatter, ps: seq<P2.Pt2>): (r: Option<string>)
    ensures r.None? <==> |ps| == 0
  {
    Bracketed(seq(|ps|, i requires 0 <= i < |ps| => ShowPt2(f, ps[i])), ",")
  }

  /** `Display for Pt3s`: the points in brackets, separated by a bare comma;
      an empty list fails. */
  function ShowPt3s(f: Formatter, ps: seq<P3.Pt3>): (r: Option<string>)
    ensures r.None? <==> |ps| == 0
  {
    Bracketed(seq(|ps|, i requires 0 <= i < |ps| => ShowPt3(f, ps[i])), ",")
  }
}
