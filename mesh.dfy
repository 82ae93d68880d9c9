/** Index lists shared by the mesh builders: a flat list of triangle
    indices grouped into faces (the `step_by(3)` loops of
    scad_tree/src/dim3.rs and scad_tree/src/metric_thread.rs), and the
    bound that makes a face list refer only to existing points. */
module Mesh {
  /** The faces [flat[3t] + offset, flat[3t+1] + offset, flat[3t+2] + offset]
      for every whole triple of the list. */
  function Triples(flat: seq<nat>, offset: nat): (r: seq<seq<nat>>)
    ensures |r| == |flat| / 3
  {
    seq(|flat| / 3, t requires 0 <= t < |flat| / 3 =>
      [flat[3 * t] + offset, flat[3 * t + 1] + offset, flat[3 * t + 2] + offset])
  }

  /** Every index of every face is below `n`. */
  predicate IndicesBelow(faces: seq<seq<nat>>, n: nat)
  {
    forall k, j :: 0 <= k < |faces| && 0 <= j < |faces[k]| ==> faces[k][j] < n
  }

  /** Every index of a flat list is below `n`. */
  predicate FlatBelow(flat: seq<nat>, n: nat)
  {
    forall k :: 0 <= k < |flat| ==> flat[k] < n
  }

  /** Grouping distributes over concatenation of whole triples. */
  lemma TriplesAppend(a: seq<nat>, b: seq<nat>, offset: nat)
    requires |a| % 3 == 0 && |b| % 3 == 0
    ensures Triples(a + b, offset) == Triples(a, offset) + Triples(b, offset)
  {
    var l, r := Triples(a + b, offset), Triples(a, offset) + Triples(b, offset);
    assert |l| == |r|;
    forall t | 0 <= t < |l|
      ensures l[t] == r[t]
    {
      if t >= |a| / 3 {
        var u := t - |a| / 3;
        assert 3 * t == |a| + 3 * u;
      }
    }
  }

  /** Grouping with an offset keeps the bound: indices below `n` become
      indices below `n + offset`. */
  lemma TriplesBelow(flat: seq<nat>, offset: nat, n: nat)
    requires FlatBelow(flat, n)
    ensures IndicesBelow(Triples(flat, offset), n + offset)
  {
    var r := Triples(flat, offset);
    forall k, j | 0 <= k < |r| && 0 <= j < |r[k]|
      ensures r[k][j] < n + offset
    {
      assert r[k] == [flat[3 * k] + offset, flat[3 * k + 1] + offset, flat[3 * k + 2] + offset];
    }
  }

  /** The bound is kept by concatenation and by raising it. */
  lemma IndicesBelowAppend(a: seq<seq<nat>>, b: seq<seq<nat>>, n: nat, m: nat)
    requires IndicesBelow(a, n) && IndicesBelow(b, n) && n <= m
    ensures IndicesBelow(a + b, m)
  {
    forall k, j | 0 <= k < |a + b| && 0 <= j < |(a + b)[k]|
      ensures (a + b)[k][j] < m
    {
      if k >= |a| {
        assert (a + b)[k] == b[k - |a|];
      }
    }
  }

  /** The `step_by(3)` loop: pushes one face per triple of `flat`, each index
      shifted by `offset`; a list that is not whole triples makes the source
      index past its end. */
  method AppendTriples(faces: seq<seq<nat>>, flat: seq<nat>, offset: nat) returns (r: seq<seq<nat>>)
    requires |flat| % 3 == 0
    ensures r == faces + Triples(flat, offset)
  {
    r := faces;
    var i := 0;
    while i < |flat|
      invariant i % 3 == 0 && i <= |flat|
      invariant |r| == |faces| + i / 3 && r[..|faces|] == faces
      invariant forall k :: 0 <= k < i / 3 ==>
        r[|faces| + k] == [flat[3 * k] + offset, flat[3 * k + 1] + offset, flat[3 * k + 2] + offset]
    {
      r := r + [[flat[i] + offset, flat[i + 1] + offset, flat[i + 2] + offset]];
      i := i + 3;
    }
    assert r == faces + Triples(flat, offset);
  }

  /** Adding one triple to a whole number of triples leaves a whole number. */
  lemma WholeTriplesGrow(n: nat)
    ensures (n + 3) % 3 == n % 3
  {
  }
}
