/** `Indices` and `Paths` (scad_tree/src/lib.rs, repeated verbatim in
    scadder/src/lib.rs): wrappers around a vector of indices and a vector of
    index lists, written as bracketed lists. `Faces` is another name for
    `Paths`. The constructors `new`, `from_indices`, `with_capacity`,
    `from_paths` and `from_faces` are the datatype constructors below. */
module IndexLists {
  import opened Wrappers
  import opened Render

  datatype Indices = Indices(inner: seq<nat>)

  datatype Paths = Paths(inner: seq<Indices>)

  type Faces = Paths

  /** The numbers of an index list, each written on its own. */
  function IndexTexts(f: Formatter, xs: Indices): seq<string>
  {
    seq(|xs.inner|, i requires 0 <= i < |xs.inner| => f.showNat(xs.inner[i]))
  }

  /** `Display for Indices`: "[a, b, c]"; an empty list fails. */
  function ShowIndices(f: Formatter, xs: Indices): (r: Option<string>)
    ensures r.None? <==> |xs.inner| == 0
  {
    Bracketed(IndexTexts(f, xs), ", ")
  }

  /** No path of the list is empty. */
  predicate AllNonEmpty(ps: Paths)
  {
    forall i :: 0 <= i < |ps.inner| ==> |ps.inner[i].inner| > 0
  }

  /** The texts of the paths, each written as an index list. */
  function PathTexts(f: Formatter, ps: Paths): (r: seq<string>)
    requires AllNonEmpty(ps)
    ensures |r| == |ps.inner|
    ensures forall i :: 0 <= i < |r| ==> Some(r[i]) == ShowIndices(f, ps.inner[i])
  {
    seq(|ps.inner|, i requires 0 <= i < |ps.inner| => ShowIndices(f, ps.inner[i]).value)
  }

  /** `Display for Paths`: the paths as index lists, in brackets, separated
      by ", "; it fails when there is no path or when a path is empty. */
  function ShowPaths(f: Formatter, ps: Paths): (r: Option<string>)
    ensures r.None? <==> |ps.inner| == 0 || exists i :: 0 <= i < |ps.inner| && |ps.inner[i].inner| == 0
  {
    if AllNonEmpty(ps) then Bracketed(PathTexts(f, ps), ", ") else None
  }

  /** The `Display` loop of `Indices`. */
  method DisplayIndices(f: Formatter, xs: Indices) returns (r: Option<string>)
    ensures r == ShowIndices(f, xs)
  {
    r := WriteBracketed(IndexTexts(f, xs), ", ");
  }

  /** The `Display` loop of `Paths`: "[" then every path but the last
      followed by ", ", then the last path and "]"; the first failing write
      ends it. */
  method DisplayPaths(f: Formatter, ps: Paths) returns (r: Option<string>)
    ensures r == ShowPaths(f, ps)
  {
    var n := |ps.inner|;
    if n == 0 {
      return None;
    }
    var out := "[";
    var texts: seq<string> := [];
    for i := 0 to n - 1
      invariant PathsWritten(f, ps, texts, i)
      invariant out == "[" + Prefix(texts, ", ", i)
    {
      var s := DisplayIndices(f, ps.inner[i]);
      if s.None? {
        return None;
      }
      PathsStep(f, ps, texts, s.value, i);
      texts := texts + [s.value];
      out := out + s.value + ", ";
    }
    var last := DisplayIndices(f, ps.inner[n - 1]);
    if last.None? {
      return None;
    }
    PathsClose(f, ps, texts, last.value);
    out := out + last.value + "]";
    return Some(out);
  }

  /** The first i paths are non-empty and `texts` holds their texts. */
  predicate PathsWritten(f: Formatter, ps: Paths, texts: seq<string>, i: nat)
  {
    i <= |ps.inner| && |texts| == i &&
    forall k :: 0 <= k < i ==> |ps.inner[k].inner| > 0 && Some(texts[k]) == ShowIndices(f, ps.inner[k])
  }

  /** One more path written keeps the texts and the prefix before them. */
  lemma PathsStep(f: Formatter, ps: Paths, texts: seq<string>, s: string, i: nat)
    requires i < |ps.inner| && PathsWritten(f, ps, texts, i)
    requires Some(s) == ShowIndices(f, ps.inner[i])
    ensures PathsWritten(f, ps, texts + [s], i + 1)
    ensures Prefix(texts + [s], ", ", i + 1) == Prefix(texts, ", ", i) + s + ", "
  {
    PrefixExtend(texts, s, ", ", i);
  }

  /** With the last path written the output is the whole list's text. */
  lemma PathsClose(f: Formatter, ps: Paths, texts: seq<string>, last: string)
    requires |ps.inner| > 0 && PathsWritten(f, ps, texts, |ps.inner| - 1)
    requires Some(last) == ShowIndices(f, ps.inner[|ps.inner| - 1])
    ensures ShowPaths(f, ps) == Some("[" + Prefix(texts, ", ", |ps.inner| - 1) + last + "]")
  {
    var n := |ps.inner|;
    var all := texts + [last];
    assert AllNonEmpty(ps);
    assert all == PathTexts(f, ps);
    PrefixExtend(texts, last, ", ", n - 1);
    assert all[..n - 1] == texts;
  }

  /** Index j of a list appears in its text, after the opening bracket, the
      numbers before it and one ", " per number. */
  lemma IndexInText(f: Formatter, xs: Indices, j: nat)
    requires j < |xs.inner|
    ensures var texts := IndexTexts(f, xs);
      var out := ShowIndices(f, xs).value;
      var at := 1 + TotalLength(texts[..j]) + 2 * j;
      at + |texts[j]| < |out| && out[at .. at + |texts[j]|] == f.showNat(xs.inner[j])
  {
    ItemInBracketed(IndexTexts(f, xs), ", ", j);
  }

  /** A one-element list is written as its number in brackets. */
  lemma SingleIndex(f: Formatter, x: nat)
    ensures ShowIndices(f, Indices([x])) == Some("[" + f.showNat(x) + "]")
  {
    var texts := IndexTexts(f, Indices([x]));
    assert texts == [f.showNat(x)];
    assert Prefix(texts, ", ", 0) == "";
    assert "[" + "" + f.showNat(x) + "]" == "[" + f.showNat(x) + "]";
  }
}
