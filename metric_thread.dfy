/** ISO metric threads (scad_tree/src/metric_thread.rs): the table of thread
    sizes and its lookup, the helical thread mesh of `threaded_cylinder`, and
    the rod and tap built from it. */
module MetricThread {
  import opened Wrappers
  import opened Numeric
  import opened Point3
  import Mesh
  import T = Triangulate
  import Dim2
  import Dim3
  import S = Scad

  // ---------------------------------------------------------------------------
  // Interpolation, sizes and the thread table
  // ---------------------------------------------------------------------------

  /** `lerp`: the point `step` n-ths of the way from `start` to `end`. */
  function StepLerp(start: Pt3, end: Pt3, n: nat, step: nat): Pt3
    requires n > 0
  {
    Add(start, Scale(Div(Sub(end, start), n as real), step as real))
  }

  /** Step 0 is the start, step n the end, and every step is the point's
      fraction step / n of the way, as `Pt3::lerp` computes it. */
  lemma StepLerpEnds(start: Pt3, end: Pt3, n: nat, step: nat)
    requires n > 0
    ensures StepLerp(start, end, n, 0) == start
    ensures StepLerp(start, end, n, n) == end
    ensures StepLerp(start, end, n, step) == Lerp(start, end, step as real / n as real)
  {
    var d := Sub(end, start);
    var k := n as real;
    assert d.x / k * k == d.x && d.y / k * k == d.y && d.z / k * k == d.z;
    assert d.x / k * step as real == d.x * (step as real / k);
    assert d.y / k * step as real == d.y * (step as real / k);
    assert d.z / k * step as real == d.z * (step as real / k);
  }

  /** One row of the thread table. */
  datatype ThreadInfo = ThreadInfo(pitch: real, externalDMaj: real, internalDMaj: real, nutWidth: real, chamferSize: real)

  /** `m_table`: the ISO metric coarse-thread sizes M2 to M100 with their
      pitch, external and internal major diameters, nut width and chamfer
      size; looking up a size the table lacks gives None. */
  function MTable(m: int): Option<ThreadInfo>
  {
    match m
    case 2 => Some(ThreadInfo(0.4, 1.886, 2.148, 4.0, 1.45))
    case 3 => Some(ThreadInfo(0.5, 2.874, 3.172, 5.5, 1.6))
    case 4 => Some(ThreadInfo(0.7, 3.838, 4.219, 7.0, 1.8))
    case 5 => Some(ThreadInfo(0.8, 4.826, 5.24, 8.0, 1.9))
    case 6 => Some(ThreadInfo(1.0, 5.794, 6.294, 10.0, 2.1))
    case 7 => Some(ThreadInfo(1.0, 6.794, 7.294, 13.0, 2.45))
    case 8 => Some(ThreadInfo(1.25, 7.76, 8.34, 13.0, 2.45))
    case 9 => Some(ThreadInfo(1.25, 8.76, 9.34, 16.0, 2.8))
    case 10 => Some(ThreadInfo(1.5, 9.732, 10.396, 16.0, 2.8))
    case 11 => Some(ThreadInfo(1.5, 10.73, 11.387, 18.0, 3.0))
    case 12 => Some(ThreadInfo(1.75, 11.7, 12.453, 18.0, 3.0))
    case 14 => Some(ThreadInfo(2.0, 13.68, 14.501, 21.0, 3.35))
    case 15 => Some(ThreadInfo(1.5, 14.73, 15.407, 24.0, 3.7))
    case 16 => Some(ThreadInfo(2.0, 15.68, 16.501, 24.0, 3.7))
    case 17 => Some(ThreadInfo(1.5, 16.73, 17.407, 27.0, 3.9))
    case 18 => Some(ThreadInfo(2.5, 17.62, 18.585, 27.0, 3.9))
    case 20 => Some(ThreadInfo(2.5, 19.62, 20.585, 30.0, 4.25))
    case 22 => Some(ThreadInfo(3.0, 21.58, 22.677, 34.0, 4.75))
    case 24 => Some(ThreadInfo(3.0, 23.58, 24.698, 36.0, 4.9))
    case 25 => Some(ThreadInfo(2.0, 24.68, 25.513, 41.0, 5.5))
    case 26 => Some(ThreadInfo(1.5, 25.73, 26.417, 41.0, 5.5))
    case 27 => Some(ThreadInfo(3.0, 26.58, 27.698, 41.0, 5.5))
    case 28 => Some(ThreadInfo(2.0, 27.68, 28.513, 46.0, 6.0))
    case 30 => Some(ThreadInfo(3.5, 29.52, 30.785, 46.0, 6.0))
    case 32 => Some(ThreadInfo(2.0, 31.68, 32.513, 49.0, 6.4))
    case 33 => Some(ThreadInfo(3.5, 32.54, 33.785, 49.0, 6.4))
    case 35 => Some(ThreadInfo(1.5, 34.73, 35.416, 55.0, 7.0))
    case 36 => Some(ThreadInfo(4.0, 35.47, 36.877, 55.0, 7.0))
    case 38 => Some(ThreadInfo(1.5, 37.73, 38.417, 60.0, 7.5))
    case 39 => Some(ThreadInfo(4.0, 38.47, 39.877, 60.0, 7.5))
    case 40 => Some(ThreadInfo(3.0, 39.58, 40.698, 65.0, 8.2))
    case 42 => Some(ThreadInfo(4.5, 41.44, 42.965, 65.0, 8.2))
    case 45 => Some(ThreadInfo(4.5, 44.44, 45.965, 70.0, 8.75))
    case 48 => Some(ThreadInfo(5.0, 47.4, 49.057, 75.0, 9.25))
    case 50 => Some(ThreadInfo(4.0, 49.47, 50.892, 80.0, 9.5))
    case 52 => Some(ThreadInfo(5.0, 51.4, 53.037, 80.0, 9.5))
    case 55 => Some(ThreadInfo(4.0, 54.47, 55.892, 85.0, 10.25))
    case 56 => Some(ThreadInfo(5.5, 55.37, 57.149, 85.0, 10.25))
    case 58 => Some(ThreadInfo(4.0, 57.47, 58.892, 90.0, 10.75))
    case 60 => Some(ThreadInfo(5.5, 59.37, 61.149, 90.0, 10.75))
    case 62 => Some(ThreadInfo(4.0, 61.47, 62.892, 95.0, 11.25))
    case 63 => Some(ThreadInfo(1.5, 62.73, 63.429, 95.0, 11.25))
    case 64 => Some(ThreadInfo(6.0, 63.32, 65.421, 95.0, 11.25))
    case 65 => Some(ThreadInfo(4.0, 64.47, 65.892, 100.0, 11.75))
    case 68 => Some(ThreadInfo(6.0, 67.32, 69.241, 100.0, 11.75))
    case 70 => Some(ThreadInfo(6.0, 69.32, 71.241, 100.0, 11.75))
    case 72 => Some(ThreadInfo(6.0, 71.32, 73.241, 110.0, 13.0))
    case 75 => Some(ThreadInfo(6.0, 74.32, 76.241, 110.0, 13.0))
    case 76 => Some(ThreadInfo(6.0, 75.32, 77.241, 110.0, 13.0))
    case 78 => Some(ThreadInfo(2.0, 77.68, 78.525, 120.0, 14.25))
    case 80 => Some(ThreadInfo(6.0, 79.32, 81.241, 120.0, 14.25))
    case 82 => Some(ThreadInfo(2.0, 81.68, 82.525, 120.0, 14.25))
    case 85 => Some(ThreadInfo(6.0, 84.32, 86.241, 130.0, 15.25))
    case 90 => Some(ThreadInfo(6.0, 89.32, 91.241, 130.0, 15.25))
    case 95 => Some(ThreadInfo(6.0, 94.32, 96.266, 130.0, 15.25))
    case 100 => Some(ThreadInfo(6.0, 99.32, 101.27, 140.0, 16.5))
    case _ => None
  }

  /** The key `m_table_lookup` settles on: m clamped up to 2, then stepped
      down until it is a key of the table. */
  function TableKey(m: int): (k: int)
    decreases m
    ensures MTable(k).Some?
  {
    if m <= 2 then 2 else if MTable(m).Some? then m else TableKey(m - 1)
  }

  /** The key found is the largest key of the table not above m, or 2 when m
      is below 2. */
  lemma {:induction false} TableKeyLargest(m: int)
    ensures TableKey(m) <= if m < 2 then 2 else m
    ensures forall j :: TableKey(m) < j <= m ==> MTable(j).None?
  {
    if m > 2 && MTable(m).None? {
      TableKeyLargest(m - 1);
      assert TableKey(m) == TableKey(m - 1);
      forall j | TableKey(m) < j <= m
        ensures MTable(j).None?
      {
        if j == m {
          assert MTable(m).None?;
        }
      }
    }
  }

  /** `m_table_lookup`: the loop stepping down from the clamped size. */
  method MTableLookup(m: int) returns (info: ThreadInfo)
    ensures Some(info) == MTable(TableKey(m))
  {
    var k := if m < 2 then 2 else m;
    while MTable(k).None?
      invariant 2 <= k && TableKey(k) == TableKey(m)
      decreases k
    {
      k := k - 1;
    }
    info := MTable(k).value;
  }

  /** Sizes the table lists are found as they are, a size between two rows
      falls back to the smaller, and sizes below M2 to M2. */
  lemma LookupExamples()
    ensures TableKey(6) == 6 && MTable(6).value.pitch == 1.0 && MTable(6).value.externalDMaj == 5.794
    ensures TableKey(13) == 12 && TableKey(101) == 100
    ensures TableKey(-5) == 2 && TableKey(1) == 2
  {
    assert TableKey(12) == 12;
    assert TableKey(100) == 100;
  }

  /** Every pitch of the table is positive. */
  lemma PitchesPositive(k: int)
    requires MTable(k).Some?
    ensures MTable(k).value.pitch > 0.0
  {
  }

  /** `thread_height_from_pitch`: the height of the fundamental triangle. */
  function ThreadHeightFromPitch(t: Trig, pitch: real): real
  {
    t.sqrt(3.0) / 2.0 * pitch
  }

  /** `d_min_from_d_maj_pitch`: the minor diameter. */
  function DMinFromDMajPitch(t: Trig, dMaj: real, pitch: real): real
  {
    dMaj - 2.0 * 5.0 / 8.0 * ThreadHeightFromPitch(t, pitch)
  }

  /** The thread is 5/8 of the fundamental triangle deep on each side: the
      minor diameter is below the major one for a positive pitch, and the
      difference is 5/8 of sqrt(3) times the pitch. */
  lemma ThreadDepth(t: Trig, dMaj: real, pitch: real)
    requires t.sqrt(3.0) > 0.0 && pitch > 0.0
    ensures dMaj - DMinFromDMajPitch(t, dMaj, pitch) == 5.0 / 8.0 * t.sqrt(3.0) * pitch
    ensures DMinFromDMajPitch(t, dMaj, pitch) < dMaj
  {
  }

  /** `x as usize` on a float: negative values become 0, the rest are
      truncated. */
  function AsUsize(x: real): (r: nat)
    ensures x >= 0.0 ==> r as real <= x < r as real + 1.0
    ensures x < 0.0 ==> r == 0
  {
    if x < 0.0 then 0 else x.Floor
  }

  /** The convexity passed to the polyhedron: the whole number of pitches in
      the length, plus one. */
  function Convexity(length: real, pitch: real): (r: nat)
    requires pitch != 0.0
    ensures r >= 1
    ensures length / pitch >= 0.0 ==> (r - 1) as real <= length / pitch < r as real
  {
    AsUsize(length / pitch) + 1
  }

  // ---------------------------------------------------------------------------
  // Triangles of the thread mesh
  // ---------------------------------------------------------------------------

  /** A list of corner numbers, each shifted by the offset. */
  function Shifted(corners: seq<nat>, o: nat): (r: seq<nat>)
    ensures |r| == |corners|
  {
    seq(|corners|, j requires 0 <= j < |corners| => corners[j] + o)
  }

  /** The two triangles closing the start of the thread, on the first four
      vertices. */
  function StartCorners(left: bool): (r: seq<nat>)
    ensures |r| == 6
  {
    if left then [2, 1, 0, 3, 1, 2] else [0, 1, 2, 2, 1, 3]
  }

  /** The eight triangles of one loop step, joining the ring at corners 0-3
      to the ring at corners 4-7. */
  function StepCorners(left: bool): (r: seq<nat>)
    ensures |r| == 24
  {
    if left then [3, 5, 1, 7, 5, 3, 1, 4, 0, 5, 4, 1, 0, 6, 2, 4, 6, 0, 2, 7, 3, 6, 7, 2]
    else [1, 5, 3, 3, 5, 7, 0, 4, 1, 1, 4, 5, 2, 6, 0, 0, 6, 4, 3, 7, 2, 2, 7, 6]
  }

  /** The two triangles closing the end of the thread, on corners 4-7. */
  function EndCorners(left: bool): (r: seq<nat>)
    ensures |r| == 6
  {
    if left then [5, 7, 6, 4, 5, 6] else [6, 7, 5, 6, 5, 4]
  }

  /** The triangles of the first k loop steps, step s at offset 4s. */
  function StepsTriangles(k: nat, left: bool): (r: seq<nat>)
    ensures |r| == 24 * k && |r| % 3 == 0
  {
    if k == 0 then [] else StepsTriangles(k - 1, left) + Shifted(StepCorners(left), 4 * (k - 1))
  }

  /** The index list of a thread of n steps: the start triangles, n - 1 loop
      steps and the end triangles at offset 4(n - 2). */
  function ThreadIndices(n: nat, left: bool): seq<nat>
    requires n >= 2
  {
    StartCorners(left) + StepsTriangles(n - 1, left) + Shifted(EndCorners(left), 4 * (n - 2))
  }

  /** A table of corners below 8, shifted by o, stays below o + 8. */
  lemma ShiftedBelow(corners: seq<nat>, o: nat, n: nat)
    requires Mesh.FlatBelow(corners, n)
    ensures Mesh.FlatBelow(Shifted(corners, o), n + o)
  {
  }

  /** The bound is kept by concatenation. */
  lemma FlatBelowAppend(a: seq<nat>, b: seq<nat>, n: nat)
    requires Mesh.FlatBelow(a, n) && Mesh.FlatBelow(b, n)
    ensures Mesh.FlatBelow(a + b, n)
  {
    forall i | 0 <= i < |a + b|
      ensures (a + b)[i] < n
    {
      if i >= |a| {
        assert (a + b)[i] == b[i - |a|];
      }
    }
  }

  /** The loop steps only refer to the first 4(k + 1) vertices. */
  lemma {:induction false} StepsTrianglesBelow(k: nat, left: bool)
    ensures Mesh.FlatBelow(StepsTriangles(k, left), 4 * k + 4)
  {
    if k > 0 {
      StepsTrianglesBelow(k - 1, left);
      FlatBelowWeaken(StepsTriangles(k - 1, left), 4 * (k - 1) + 4, 4 * k + 4);
      StepCornersBelow(left);
      ShiftedBelow(StepCorners(left), 4 * (k - 1), 8);
      assert 8 + 4 * (k - 1) == 4 * k + 4;
      FlatBelowAppend(StepsTriangles(k - 1, left), Shifted(StepCorners(left), 4 * (k - 1)), 4 * k + 4);
    }
  }

  /** A bound holds of every larger bound. */
  lemma FlatBelowWeaken(a: seq<nat>, m: nat, n: nat)
    requires Mesh.FlatBelow(a, m) && m <= n
    ensures Mesh.FlatBelow(a, n)
  {
  }

  /** One loop step's triangles use the eight corners of two rings. */
  lemma StepCornersBelow(left: bool)
    ensures Mesh.FlatBelow(StepCorners(left), 8)
  {
  }

  /** A thread of n steps has 2 + 8(n - 1) + 2 = 8n - 4 triangles, and every
      index names one of its 4n vertices. */
  lemma ThreadIndicesLayout(n: nat, left: bool)
    requires n >= 2
    ensures |ThreadIndices(n, left)| == 3 * (8 * n - 4)
    ensures |Mesh.Triples(ThreadIndices(n, left), 0)| == 8 * n - 4
    ensures Mesh.FlatBelow(ThreadIndices(n, left), 4 * n)
    ensures Mesh.IndicesBelow(Mesh.Triples(ThreadIndices(n, left), 0), 4 * n)
  {
    var start, steps, end := StartCorners(left), StepsTriangles(n - 1, left), Shifted(EndCorners(left), 4 * (n - 2));
    StepsTrianglesBelow(n - 1, left);
    assert Mesh.FlatBelow(start, 4 * n);
    assert Mesh.FlatBelow(EndCorners(left), 8);
    ShiftedBelow(EndCorners(left), 4 * (n - 2), 8);
    FlatBelowAppend(start, steps, 4 * n);
    FlatBelowAppend(start + steps, end, 4 * n);
    Mesh.TriplesBelow(start + steps + end, 0, 4 * n);
  }

  /** Every whole triple of a list with its order reversed. */
  function ReversedTriples(s: seq<nat>): (r: seq<nat>)
    requires |s| % 3 == 0
    ensures |r| == |s|
  {
    seq(|s|, i requires 0 <= i < |s| => s[i - i % 3 + 2 - i % 3])
  }

  /** Grouped into faces, the reversed list holds each face of the original
      with its three indices in the opposite order. */
  lemma ReversedTriplesFaces(s: seq<nat>)
    requires |s| % 3 == 0
    ensures forall f :: 0 <= f < |s| / 3 ==>
      var face := Mesh.Triples(s, 0)[f];
      Mesh.Triples(ReversedTriples(s), 0)[f] == [face[2], face[1], face[0]]
  {
    var r := ReversedTriples(s);
    forall f | 0 <= f < |s| / 3
      ensures Mesh.Triples(r, 0)[f] == [s[3 * f + 2], s[3 * f + 1], s[3 * f]]
    {
      assert (3 * f) % 3 == 0 && (3 * f + 1) % 3 == 1 && (3 * f + 2) % 3 == 2;
      assert r[3 * f] == s[3 * f + 2];
      assert r[3 * f + 1] == s[3 * f + 1];
      assert r[3 * f + 2] == s[3 * f];
    }
  }

  /** Two lists of whole triples make a list of whole triples. */
  lemma WholeTriples(a: seq<nat>, b: seq<nat>)
    requires |a| % 3 == 0 && |b| % 3 == 0
    ensures |a + b| % 3 == 0
  {
  }

  /** Reversing triples is done triple by triple, so it distributes over
      concatenation. */
  lemma ReversedTriplesAppend(a: seq<nat>, b: seq<nat>)
    requires |a| % 3 == 0 && |b| % 3 == 0
    ensures ReversedTriples(a + b) == ReversedTriples(a) + ReversedTriples(b)
  {
    var l, r := ReversedTriples(a + b), ReversedTriples(a) + ReversedTriples(b);
    forall i | 0 <= i < |l|
      ensures l[i] == r[i]
    {
      if i >= |a| {
        var q := |a| / 3;
        assert |a| == 3 * q;
        assert (i - |a|) % 3 == i % 3;
      }
    }
  }

  /** Shifting and reversing commute. */
  lemma ShiftedReversed(corners: seq<nat>, o: nat)
    requires |corners| % 3 == 0
    ensures ReversedTriples(Shifted(corners, o)) == Shifted(ReversedTriples(corners), o)
  {
  }

  /** The left-hand step table is the right-hand one reversed. */
  lemma StepCornersMirror()
    ensures StepCorners(true) == ReversedTriples(StepCorners(false))
  {
    ReversedTriples24(StepCorners(false));
  }

  /** Reversing the triples of a 24-entry table, written out entry by
      entry. */
  lemma ReversedTriples24(s: seq<nat>)
    requires |s| == 24
    ensures ReversedTriples(s) == [s[2], s[1], s[0], s[5], s[4], s[3], s[8], s[7], s[6], s[11], s[10], s[9], s[14], s[13], s[12], s[17], s[16], s[15], s[20], s[19], s[18], s[23], s[22], s[21]]
  {
  }

  /** The left-hand start and end tables are the right-hand ones
      reversed. */
  lemma EndCornersMirror()
    ensures StartCorners(true) == ReversedTriples(StartCorners(false))
    ensures EndCorners(true) == ReversedTriples(EndCorners(false))
  {
  }

  /** The left-hand loop steps are the right-hand ones reversed. */
  lemma {:induction false} StepsTrianglesMirror(k: nat)
    ensures StepsTriangles(k, true) == ReversedTriples(StepsTriangles(k, false))
  {
    if k > 0 {
      var prev, step := StepsTriangles(k - 1, false), Shifted(StepCorners(false), 4 * (k - 1));
      assert |prev| % 3 == 0 && |step| % 3 == 0 by {
        assert |prev| == 3 * (8 * (k - 1));
      }
      assert ReversedTriples(step) == Shifted(StepCorners(true), 4 * (k - 1)) by {
        StepCornersMirror();
        ShiftedReversed(StepCorners(false), 4 * (k - 1));
      }
      assert ReversedTriples(prev) == StepsTriangles(k - 1, true) by {
        StepsTrianglesMirror(k - 1);
      }
      ReversedTriplesAppend(prev, step);
    }
  }

  /** The start triangles and the loop steps of a left-hand thread are the
      right-hand ones reversed. */
  lemma StartStepsMirror(k: nat)
    ensures ReversedTriples(StartCorners(false) + StepsTriangles(k, false)) == StartCorners(true) + StepsTriangles(k, true)
  {
    EndCornersMirror();
    StepsTrianglesMirror(k);
    ReversedTriplesAppend(StartCorners(false), StepsTriangles(k, false));
  }

  /** The shifted end triangles of a left-hand thread are the right-hand
      ones reversed. */
  lemma EndMirror(o: nat)
    ensures ReversedTriples(Shifted(EndCorners(false), o)) == Shifted(EndCorners(true), o)
  {
    EndCornersMirror();
    ShiftedReversed(EndCorners(false), o);
  }

  /** A left-hand thread has the same triangles as a right-hand one, each
      with its vertex order reversed, so that the mirrored mesh still faces
      outwards. */
  lemma ThreadIndicesMirror(n: nat)
    requires n >= 2
    ensures ThreadIndices(n, true) == ReversedTriples(ThreadIndices(n, false))
  {
    var head, end := StartCorners(false) + StepsTriangles(n - 1, false), Shifted(EndCorners(false), 4 * (n - 2));
    StartStepsMirror(n - 1);
    EndMirror(4 * (n - 2));
    WholeTriples(StartCorners(false), StepsTriangles(n - 1, false));
    ReversedTriplesAppend(head, end);
  }

  /** Face f of a left-hand thread is face f of the right-hand thread read
      backwards. */
  lemma ThreadFacesMirror(n: nat)
    requires n >= 2
    ensures forall f :: 0 <= f < 8 * n - 4 ==>
      var face := Mesh.Triples(ThreadIndices(n, false), 0)[f];
      Mesh.Triples(ThreadIndices(n, true), 0)[f] == [face[2], face[1], face[0]]
  {
    ThreadIndicesLayout(n, false);
    ThreadIndicesMirror(n);
    ReversedTriplesFaces(ThreadIndices(n, false));
  }

  // ---------------------------------------------------------------------------
  // Vertices of the thread mesh
  // ---------------------------------------------------------------------------

  /** Everything the thread loop reads: the four corners of the thread
      profile in the xz plane (minor diameter at the top, major diameter,
      minor diameter at the bottom, major diameter), the profile corners 1
      and 3 where the lead-in starts and where the lead-out ends, the rise
      and the turn per step, the step counts, and whether the thread has a
      lead-in and a lead-out. */
  datatype Shape = Shape(
    profile0: Pt3, profile1: Pt3, profile2: Pt3, profile3: Pt3,
    leadInStart1: Pt3, leadInStart3: Pt3, leadOutEnd1: Pt3, leadOutEnd3: Pt3,
    zStep: real, stepAngle: real,
    nSteps: nat, nLeadIn: nat, nLeadOut: nat,
    leadIn: bool, leadOut: bool)

  /** The loop's mutable state: the lead counters and the current lead-in
      and lead-out corners 1 and 3. */
  datatype Leads = Leads(inStep: nat, outStep: nat, in1: Pt3, in3: Pt3, out1: Pt3, out3: Pt3)

  /** The state before the first step: the lead-in counter has already
      moved from 2 to 3, the lead-out counter holds all lead-out steps. */
  function InitialLeads(sh: Shape): Leads
  {
    Leads(3, sh.nLeadOut, sh.leadInStart1, sh.leadInStart3, sh.profile1, sh.profile3)
  }

  /** The step is a lead-in step. */
  predicate InLeadIn(sh: Shape, st: Leads)
  {
    st.inStep < sh.nLeadIn && sh.leadIn
  }

  /** The step is a lead-out step (considered only when it is not a lead-in
      step). */
  predicate InLeadOut(sh: Shape, st: Leads, step: nat)
  {
    st.outStep > 0 && step >= sh.nSteps - sh.nLeadOut && sh.leadOut
  }

  /** The state after one step: a lead-in step moves corners 1 and 3 a step
      further from the lead-in start towards the thread profile; a lead-out
      step moves them a step further from the thread profile towards the
      lead-out end. */
  function Next(sh: Shape, st: Leads, step: nat): Leads
    requires st.outStep <= sh.nLeadOut
  {
    if InLeadIn(sh, st) then
      var i := st.inStep + 1;
      st.(inStep := i,
          in1 := StepLerp(sh.leadInStart1, sh.profile1, sh.nLeadIn, i),
          in3 := StepLerp(sh.leadInStart3, sh.profile3, sh.nLeadIn, i))
    else if InLeadOut(sh, st, step) then
      var o := st.outStep - 1;
      st.(outStep := o,
          out1 := StepLerp(sh.profile1, sh.leadOutEnd1, sh.nLeadOut, sh.nLeadOut - o),
          out3 := StepLerp(sh.profile3, sh.leadOutEnd3, sh.nLeadOut, sh.nLeadOut - o))
    else st
  }

  /** The state before step k. The lead-in counter starts at 3 and the
      lead-out counter never goes below 0 nor above its start. */
  function LeadsAt(sh: Shape, k: nat): (r: Leads)
    ensures 3 <= r.inStep && r.outStep <= sh.nLeadOut
  {
    if k == 0 then InitialLeads(sh) else Next(sh, LeadsAt(sh, k - 1), k - 1)
  }

  /** The four profile corners used at a step. */
  function Profiles(sh: Shape, st: Leads, step: nat): (r: seq<Pt3>)
    ensures |r| == 4
  {
    if InLeadIn(sh, st) then [sh.profile0, st.in1, sh.profile2, st.in3]
    else if InLeadOut(sh, st, step) then [sh.profile0, st.out1, sh.profile2, st.out3]
    else [sh.profile0, sh.profile1, sh.profile2, sh.profile3]
  }

  /** The angle of step `step`: one step further than the step number,
      negated for a left-hand thread. */
  function StepAngle(sh: Shape, step: nat, left: bool): real
  {
    var a := sh.stepAngle * (step + 1) as real;
    if left then a * -1.0 else a
  }

  /** A profile corner swung about z to the given cosine and sine and raised
      by `z`. */
  function RingPoint(c: real, s: real, q: Pt3, z: real): Pt3
  {
    Pt3(c * q.x, s * q.x, z + q.z)
  }

  /** The four vertices pushed at a step. */
  function Ring(t: Trig, sh: Shape, st: Leads, step: nat, left: bool): (r: seq<Pt3>)
    ensures |r| == 4
  {
    var angle := StepAngle(sh, step, left);
    var c, s := t.dcos(angle), t.dsin(angle);
    var q := Profiles(sh, st, step);
    var z := sh.zStep * step as real;
    [RingPoint(c, s, q[0], z), RingPoint(c, s, q[1], z), RingPoint(c, s, q[2], z), RingPoint(c, s, q[3], z)]
  }

  /** The vertices of the first k steps. */
  function Rings(t: Trig, sh: Shape, left: bool, k: nat): (r: seq<Pt3>)
    ensures |r| == 4 * k
  {
    if k == 0 then [] else Rings(t, sh, left, k - 1) + Ring(t, sh, LeadsAt(sh, k - 1), k - 1, left)
  }

  /** The start face: the profile with the lead-in start corners. */
  function StartVertices(sh: Shape): seq<Pt3>
  {
    [sh.profile0, sh.leadInStart1, sh.profile2, sh.leadInStart3]
  }

  /** The vertex list of the thread: the start face, then one ring per loop
      step. */
  function ThreadVertices(t: Trig, sh: Shape, left: bool): (r: seq<Pt3>)
    requires sh.nSteps >= 1
    ensures |r| == 4 * sh.nSteps
  {
    StartVertices(sh) + Rings(t, sh, left, sh.nSteps - 1)
  }

  /** The lead-in counter counts the lead-in steps taken, up to the number
      of lead-in steps. */
  lemma {:induction false} LeadInCounter(sh: Shape, k: nat)
    ensures LeadsAt(sh, k).inStep == if sh.leadIn && sh.nLeadIn > 3 then (if 3 + k < sh.nLeadIn then 3 + k else sh.nLeadIn) else 3
  {
    if k > 0 {
      LeadInCounter(sh, k - 1);
    }
  }

  /** Step k is a lead-in step exactly when the thread has a lead-in and
      3 + k is below the number of lead-in steps, so the lead-in steps are
      the first ones. */
  lemma LeadInSteps(sh: Shape, k: nat)
    ensures InLeadIn(sh, LeadsAt(sh, k)) <==> sh.leadIn && 3 + k < sh.nLeadIn
  {
    LeadInCounter(sh, k);
  }

  /** During the lead-in, corners 1 and 3 are `inStep` n-ths of the way from
      the lead-in start to the thread profile. */
  lemma {:induction false} LeadInCorners(sh: Shape, k: nat)
    ensures var st := LeadsAt(sh, k);
      st.inStep == 3 ==> st.in1 == sh.leadInStart1 && st.in3 == sh.leadInStart3
    ensures var st := LeadsAt(sh, k);
      st.inStep > 3 ==> (sh.nLeadIn > 0 &&
        st.in1 == StepLerp(sh.leadInStart1, sh.profile1, sh.nLeadIn, st.inStep) &&
        st.in3 == StepLerp(sh.leadInStart3, sh.profile3, sh.nLeadIn, st.inStep))
    ensures LeadsAt(sh, k).inStep <= 3 || LeadsAt(sh, k).inStep <= sh.nLeadIn
  {
    if k > 0 {
      LeadInCorners(sh, k - 1);
    }
  }

  /** When the lead-in is over, corners 1 and 3 have reached the thread
      profile. */
  lemma LeadInReachesProfile(sh: Shape)
    requires sh.leadIn && sh.nLeadIn > 3
    ensures LeadsAt(sh, sh.nLeadIn - 3).in1 == sh.profile1
    ensures LeadsAt(sh, sh.nLeadIn - 3).in3 == sh.profile3
    ensures !InLeadIn(sh, LeadsAt(sh, sh.nLeadIn - 3))
  {
    var k := sh.nLeadIn - 3;
    LeadInSteps(sh, k);
    LeadInCorners(sh, k);
    StepLerpEnds(sh.leadInStart1, sh.profile1, sh.nLeadIn, sh.nLeadIn);
    StepLerpEnds(sh.leadInStart3, sh.profile3, sh.nLeadIn, sh.nLeadIn);
  }

  /** During the lead-out, corners 1 and 3 are as many n-ths of the way
      from the thread profile to the lead-out end as lead-out steps have
      been taken; the first lead-out ring has the full profile and the last
      state holds the lead-out end. */
  lemma {:induction false} LeadOutCorners(sh: Shape, k: nat)
    requires sh.nLeadOut > 0
    ensures var st := LeadsAt(sh, k);
      st.out1 == StepLerp(sh.profile1, sh.leadOutEnd1, sh.nLeadOut, sh.nLeadOut - st.outStep) &&
      st.out3 == StepLerp(sh.profile3, sh.leadOutEnd3, sh.nLeadOut, sh.nLeadOut - st.outStep)
    ensures LeadsAt(sh, k).outStep == 0 ==>
      LeadsAt(sh, k).out1 == sh.leadOutEnd1 && LeadsAt(sh, k).out3 == sh.leadOutEnd3
  {
    if k == 0 {
      StepLerpEnds(sh.profile1, sh.leadOutEnd1, sh.nLeadOut, 0);
      StepLerpEnds(sh.profile3, sh.leadOutEnd3, sh.nLeadOut, 0);
    } else {
      LeadOutCorners(sh, k - 1);
    }
    StepLerpEnds(sh.profile1, sh.leadOutEnd1, sh.nLeadOut, sh.nLeadOut);
    StepLerpEnds(sh.profile3, sh.leadOutEnd3, sh.nLeadOut, sh.nLeadOut);
  }

  /** The lead-in counter only grows, the lead-out counter only shrinks, by
      at most one per step, and at most one of them moves. */
  lemma LeadCounters(sh: Shape, k: nat)
    ensures LeadsAt(sh, k + 1).inStep == LeadsAt(sh, k).inStep || LeadsAt(sh, k + 1).inStep == LeadsAt(sh, k).inStep + 1
    ensures LeadsAt(sh, k + 1).outStep == LeadsAt(sh, k).outStep || LeadsAt(sh, k + 1).outStep + 1 == LeadsAt(sh, k).outStep
    ensures LeadsAt(sh, k + 1).inStep == LeadsAt(sh, k).inStep || LeadsAt(sh, k + 1).outStep == LeadsAt(sh, k).outStep
  {
  }

  /** Each ring vertex is its profile corner, raised by zStep per step,
      rotated about z by the step's angle. */
  lemma RingIsRotation(t: Trig, sh: Shape, st: Leads, step: nat, left: bool, i: nat)
    requires i < 4
    ensures var q := Profiles(sh, st, step)[i];
      Ring(t, sh, st, step, left)[i] == RotatedZ(t, Pt3(q.x, 0.0, sh.zStep * step as real + q.z), StepAngle(sh, step, left))
  {
  }

  /** The reflection in the xz plane. */
  function MirrorY(p: Pt3): Pt3
  {
    Pt3(p.x, -p.y, p.z)
  }

  /** Sine and cosine of a right-hand step angle are odd and even. */
  predicate SymmetricAt(t: Trig, sh: Shape, step: nat)
  {
    Symmetric(t, StepAngle(sh, step, false))
  }

  /** With symmetric sine and cosine, a left-hand ring is the right-hand
      ring reflected in the xz plane. */
  lemma RingMirror(t: Trig, sh: Shape, st: Leads, step: nat)
    requires SymmetricAt(t, sh, step)
    ensures forall i :: 0 <= i < 4 ==> Ring(t, sh, st, step, true)[i] == MirrorY(Ring(t, sh, st, step, false)[i])
  {
    var a := StepAngle(sh, step, false);
    assert StepAngle(sh, step, true) == -a;
  }

  /** The first k rings of a left-hand thread are those of the right-hand
      thread reflected. */
  lemma {:induction false} RingsMirror(t: Trig, sh: Shape, k: nat)
    requires forall step :: 0 <= step < k ==> SymmetricAt(t, sh, step)
    ensures forall i :: 0 <= i < 4 * k ==> Rings(t, sh, true, k)[i] == MirrorY(Rings(t, sh, false, k)[i])
  {
    if k > 0 {
      RingsMirror(t, sh, k - 1);
      RingMirror(t, sh, LeadsAt(sh, k - 1), k - 1);
      var l, r := Rings(t, sh, true, k), Rings(t, sh, false, k);
      forall i | 0 <= i < 4 * k
        ensures l[i] == MirrorY(r[i])
      {
        if i < 4 * (k - 1) {
          assert l[i] == Rings(t, sh, true, k - 1)[i];
          assert r[i] == Rings(t, sh, false, k - 1)[i];
        } else {
          assert l[i] == Ring(t, sh, LeadsAt(sh, k - 1), k - 1, true)[i - 4 * (k - 1)];
          assert r[i] == Ring(t, sh, LeadsAt(sh, k - 1), k - 1, false)[i - 4 * (k - 1)];
        }
      }
    }
  }

  /** The start face lies in the xz plane. */
  predicate StartInXzPlane(sh: Shape)
  {
    sh.profile0.y == 0.0 && sh.leadInStart1.y == 0.0 && sh.profile2.y == 0.0 && sh.leadInStart3.y == 0.0
  }

  /** A left-hand thread is the right-hand thread reflected in the xz plane,
      vertex by vertex. */
  lemma ThreadVerticesMirror(t: Trig, sh: Shape)
    requires sh.nSteps >= 1 && StartInXzPlane(sh)
    requires forall step :: 0 <= step < sh.nSteps - 1 ==> SymmetricAt(t, sh, step)
    ensures forall i :: 0 <= i < 4 * sh.nSteps ==>
      ThreadVertices(t, sh, true)[i] == MirrorY(ThreadVertices(t, sh, false)[i])
  {
    RingsMirror(t, sh, sh.nSteps - 1);
    var l, r := ThreadVertices(t, sh, true), ThreadVertices(t, sh, false);
    forall i | 0 <= i < 4 * sh.nSteps
      ensures l[i] == MirrorY(r[i])
    {
      if i >= 4 {
        assert l[i] == Rings(t, sh, true, sh.nSteps - 1)[i - 4];
        assert r[i] == Rings(t, sh, false, sh.nSteps - 1)[i - 4];
      }
    }
  }

  // ---------------------------------------------------------------------------
  // The thread loop
  // ---------------------------------------------------------------------------

  /** The lead-out test computes `n_steps - n_lead_out_steps` in unsigned
      arithmetic at the first step that is not a lead-in step; with more
      lead-out steps than steps that subtraction overflows and the source
      panics. */
  predicate LeadOutUnderflow(sh: Shape)
  {
    sh.nLeadOut > sh.nSteps && !(sh.leadIn && sh.nSteps + 1 < sh.nLeadIn)
  }

  /** The step panics: it is not a lead-in step, the lead-out counter is
      not yet zero, and the lead-out test's subtraction overflows. */
  predicate Panics(sh: Shape, st: Leads)
  {
    !InLeadIn(sh, st) && st.outStep > 0 && sh.nSteps < sh.nLeadOut
  }

  /** No step before `step` has panicked: with more lead-out steps than
      steps, every earlier step was a lead-in step and the lead-out counter
      is untouched. */
  predicate NoPanicBefore(sh: Shape, step: nat)
  {
    sh.nLeadOut > sh.nSteps ==>
      LeadsAt(sh, step).outStep == sh.nLeadOut && (step == 0 || (sh.leadIn && 2 + step < sh.nLeadIn))
  }

  /** The loop panics at its first step that is not a lead-in step when
      there are more lead-out steps than steps, and only then: a step that
      panics shows the overflow, a step that does not keeps the lead-out
      counter untouched, and getting through the last step rules the
      overflow out. */
  lemma PanicStep(sh: Shape, step: nat)
    requires step + 1 < sh.nSteps && NoPanicBefore(sh, step)
    ensures Panics(sh, LeadsAt(sh, step)) ==> LeadOutUnderflow(sh)
    ensures !Panics(sh, LeadsAt(sh, step)) ==> NoPanicBefore(sh, step + 1)
    ensures !Panics(sh, LeadsAt(sh, step)) && step + 2 == sh.nSteps ==> !LeadOutUnderflow(sh)
  {
    LeadInSteps(sh, step);
  }

  /** The vertex and index buffers the loop fills. */
  datatype Buffers = Buffers(vertices: seq<Pt3>, indices: seq<nat>)

  /** One pass of the thread loop: the four vertices of the step's ring,
      pushed from the profile corners the lead counters select, and the
      counters and corners after the step. `panics` where the lead-out test
      overflows. */
  method Step(t: Trig, sh: Shape, st: Leads, step: nat, left: bool) returns (ring: seq<Pt3>, next: Leads, panics: bool)
    requires st.outStep <= sh.nLeadOut
    ensures panics <==> Panics(sh, st)
    ensures !panics ==> ring == Ring(t, sh, st, step, left)
    ensures !panics ==> next == Next(sh, st, step)
  {
    var angle := sh.stepAngle * (step + 1) as real;
    assert angle == StepAngle(sh, step, false);
    if left {
      angle := angle * -1.0;
      assert angle == StepAngle(sh, step, true);
    }
    var c, s := t.dcos(angle), t.dsin(angle);
    var z := sh.zStep * step as real;
    var q0, q1, q2, q3;
    next, panics := st, false;
    if st.inStep < sh.nLeadIn && sh.leadIn {
      q0, q1, q2, q3 := sh.profile0, st.in1, sh.profile2, st.in3;
      var i := st.inStep + 1;
      next := st.(inStep := i,
                  in1 := StepLerp(sh.leadInStart1, sh.profile1, sh.nLeadIn, i),
                  in3 := StepLerp(sh.leadInStart3, sh.profile3, sh.nLeadIn, i));
    } else if st.outStep > 0 && sh.nSteps < sh.nLeadOut {
      return [], st, true;
    } else if st.outStep > 0 && step >= sh.nSteps - sh.nLeadOut && sh.leadOut {
      q0, q1, q2, q3 := sh.profile0, st.out1, sh.profile2, st.out3;
      var o := st.outStep - 1;
      next := st.(outStep := o,
                  out1 := StepLerp(sh.profile1, sh.leadOutEnd1, sh.nLeadOut, sh.nLeadOut - o),
                  out3 := StepLerp(sh.profile3, sh.leadOutEnd3, sh.nLeadOut, sh.nLeadOut - o));
    } else {
      q0, q1, q2, q3 := sh.profile0, sh.profile1, sh.profile2, sh.profile3;
    }
    assert [q0, q1, q2, q3] == Profiles(sh, st, step);
    ring := [RingPoint(c, s, q0, z), RingPoint(c, s, q1, z), RingPoint(c, s, q2, z), RingPoint(c, s, q3, z)];
    assert ring[0] == Ring(t, sh, st, step, left)[0] && ring[1] == Ring(t, sh, st, step, left)[1];
  }

  /** The buffers after the start face and `step` passes of the loop. */
  predicate Filled(t: Trig, sh: Shape, left: bool, step: nat, vertices: seq<Pt3>, indices: seq<nat>)
  {
    vertices == StartVertices(sh) + Rings(t, sh, left, step) &&
    indices == StartCorners(left) + StepsTriangles(step, left)
  }

  /** One pass of the loop on the buffers: the ring's four vertices and the
      step's eight triangles are pushed, or the pass panics. */
  method Pass(t: Trig, sh: Shape, left: bool, step: nat, st: Leads, vertices: seq<Pt3>, indices: seq<nat>)
      returns (vertices': seq<Pt3>, indices': seq<nat>, next: Leads, panics: bool)
    requires step + 1 < sh.nSteps && st == LeadsAt(sh, step) && NoPanicBefore(sh, step)
    requires Filled(t, sh, left, step, vertices, indices)
    ensures panics ==> LeadOutUnderflow(sh)
    ensures !panics ==> next == LeadsAt(sh, step + 1) && NoPanicBefore(sh, step + 1)
    ensures !panics ==> Filled(t, sh, left, step + 1, vertices', indices')
    ensures !panics && step + 2 == sh.nSteps ==> !LeadOutUnderflow(sh)
  {
    var ring;
    ring, next, panics := Step(t, sh, st, step, left);
    PanicStep(sh, step);
    if panics {
      return vertices, indices, next, true;
    }
    vertices' := vertices + ring;
    indices' := indices + Shifted(StepCorners(left), 4 * step);
    assert vertices' == StartVertices(sh) + Rings(t, sh, left, step + 1) by {
      assert Rings(t, sh, left, step + 1) == Rings(t, sh, left, step) + ring;
    }
    assert indices' == StartCorners(left) + StepsTriangles(step + 1, left) by {
      assert StepsTriangles(step + 1, left) == StepsTriangles(step, left) + Shifted(StepCorners(left), 4 * step);
    }
  }

  /** The loop of `threaded_cylinder`: the start face and its two
      triangles, then per step a ring of four vertices and eight triangles.
      `panicked` where the source panics. */
  method ThreadLoop(t: Trig, sh: Shape, left: bool) returns (vertices: seq<Pt3>, indices: seq<nat>, panicked: bool)
    requires sh.nSteps >= 2
    ensures panicked <==> LeadOutUnderflow(sh)
    ensures !panicked ==> vertices == ThreadVertices(t, sh, left)
    ensures !panicked ==> indices == StartCorners(left) + StepsTriangles(sh.nSteps - 1, left)
  {
    vertices := [sh.profile0, sh.leadInStart1, sh.profile2, sh.leadInStart3];
    indices := StartCorners(left);
    var st := InitialLeads(sh);
    for step := 0 to sh.nSteps - 1
      invariant st == LeadsAt(sh, step) && NoPanicBefore(sh, step)
      invariant Filled(t, sh, left, step, vertices, indices)
    {
      var panics;
      vertices, indices, st, panics := Pass(t, sh, left, step, st, vertices, indices);
      if panics {
        return vertices, indices, true;
      }
    }
    panicked := false;
  }

  /** The mesh of `threaded_cylinder`: the loop, then the two end triangles
      on the last ring. None where the source panics. */
  method ThreadMesh(t: Trig, sh: Shape, left: bool) returns (r: Option<Buffers>)
    requires sh.nSteps >= 2
    ensures r.None? <==> LeadOutUnderflow(sh)
    ensures r.Some? ==> r.value == Buffers(ThreadVertices(t, sh, left), ThreadIndices(sh.nSteps, left))
  {
    var vertices, indices, panicked := ThreadLoop(t, sh, left);
    if panicked {
      return None;
    }
    indices := indices + Shifted(EndCorners(left), 4 * (sh.nSteps - 2));
    assert indices == ThreadIndices(sh.nSteps, left);
    return Some(Buffers(vertices, indices));
  }

  // ---------------------------------------------------------------------------
  // threaded_cylinder, threaded_rod and tap
  // ---------------------------------------------------------------------------

  /** The number of loop steps: the thread runs the length less 0.7 of a
      pitch, `segments` steps per turn, truncated to a whole number. */
  function StepCount(pitch: real, length: real, segments: nat): nat
    requires pitch != 0.0
  {
    AsUsize((length - 0.7 * pitch) / pitch * segments as real)
  }

  /** The number of lead-in steps: the steps in `degrees` of a turn, plus 2,
      truncated. */
  function LeadInStepCount(segments: nat, degrees: real): nat
  {
    AsUsize(segments as real * degrees / 360.0 + 2.0)
  }

  /** The number of lead-out steps: the steps in `degrees` of a turn,
      truncated. */
  function LeadOutStepCount(segments: nat, degrees: real): nat
  {
    AsUsize(segments as real * degrees / 360.0)
  }

  /** The set-up of `threaded_cylinder` before its loop. The thread profile
      is a trapezoid in the xz plane: corners 0 and 2 on the minor radius at
      3/4 and 0 of a pitch, corners 1 and 3 on the major radius at 7/16 and
      5/16 of a pitch. Corners 1 and 3 start the lead-in two lead-in steps
      of the way from the minor radius to the profile, and end the lead-out
      one lead-out step of the way. Without lead-out steps the source's end
      corners are not numbers (a division by zero); the loop never reads
      them, and the model puts the thread profile there. */
  function ThreadShape(dMin: real, dMaj: real, pitch: real, length: real, segments: nat,
                       leadInDegrees: real, leadOutDegrees: real): (sh: Shape)
    requires pitch != 0.0 && StepCount(pitch, length, segments) >= 2
    requires LeadInStepCount(segments, leadInDegrees) > 0
    ensures sh.nSteps == StepCount(pitch, length, segments) && segments > 0
    ensures sh.zStep * sh.nSteps as real == length - 0.7 * pitch
    ensures sh.stepAngle * segments as real == 360.0
    ensures StartInXzPlane(sh)
    ensures sh.profile1.x - sh.profile0.x == (dMaj - dMin) / 2.0 && sh.profile3.x - sh.profile2.x == (dMaj - dMin) / 2.0
    ensures sh.profile0.z - sh.profile2.z == 3.0 / 4.0 * pitch && sh.profile1.z - sh.profile3.z == 1.0 / 8.0 * pitch
    ensures sh.leadIn <==> leadInDegrees > 0.0
    ensures sh.leadOut <==> leadOutDegrees > 0.0
  {
    var threadLength := length - 0.7 * pitch;
    var nSteps := StepCount(pitch, length, segments);
    var nLeadIn := LeadInStepCount(segments, leadInDegrees);
    var nLeadOut := LeadOutStepCount(segments, leadOutDegrees);
    var p0 := Pt3(dMin / 2.0, 0.0, 3.0 / 4.0 * pitch);
    var p1 := Pt3(dMaj / 2.0, 0.0, 7.0 / 16.0 * pitch);
    var p2 := Pt3(dMin / 2.0, 0.0, 0.0);
    var p3 := Pt3(dMaj / 2.0, 0.0, 5.0 / 16.0 * pitch);
    var lerp1 := Pt3(dMin / 2.0, 0.0, 7.0 / 16.0 * pitch);
    var lerp3 := Pt3(dMin / 2.0, 0.0, 5.0 / 16.0 * pitch);
    assert segments > 0;
    Shape(p0, p1, p2, p3,
          StepLerp(lerp1, p1, nLeadIn, 2), StepLerp(lerp3, p3, nLeadIn, 2),
          if nLeadOut > 0 then StepLerp(lerp1, p1, nLeadOut, 1) else p1,
          if nLeadOut > 0 then StepLerp(lerp3, p3, nLeadOut, 1) else p3,
          threadLength / nSteps as real, 360.0 / segments as real,
          nSteps, nLeadIn, nLeadOut,
          leadInDegrees > 0.0, leadOutDegrees > 0.0)
  }

  /** The polyhedron of the thread: its vertices, one face per triple of
      the index list, and the convexity. */
  function ThreadNode(t: Trig, sh: Shape, left: bool, convexity: nat): S.Scad
    requires sh.nSteps >= 2
  {
    S.Scad(S.Polyhedron(ThreadVertices(t, sh, left), S.AsFaces(Mesh.Triples(ThreadIndices(sh.nSteps, left), 0)), convexity), [])
  }

  /** The thread polyhedron has four vertices per step, 8n - 4 triangles
      for n steps, and every triangle names three of its vertices. */
  lemma ThreadNodeLayout(t: Trig, sh: Shape, left: bool, convexity: nat)
    requires sh.nSteps >= 2
    ensures var op := ThreadNode(t, sh, left, convexity).op;
      op.Polyhedron? && op.convexity == convexity &&
      |op.vertices| == 4 * sh.nSteps && |op.faces.inner| == 8 * sh.nSteps - 4 &&
      (forall f :: 0 <= f < |op.faces.inner| ==> |op.faces.inner[f].inner| == 3) &&
      Mesh.IndicesBelow(seq(|op.faces.inner|, f requires 0 <= f < |op.faces.inner| => op.faces.inner[f].inner), |op.vertices|)
  {
    ThreadIndicesLayout(sh.nSteps, left);
    var op := ThreadNode(t, sh, left, convexity).op;
    var triples := Mesh.Triples(ThreadIndices(sh.nSteps, left), 0);
    assert seq(|op.faces.inner|, f requires 0 <= f < |op.faces.inner| => op.faces.inner[f].inner) == triples;
  }

  /** With symmetric sine and cosine at every step, the left-hand thread
      polyhedron is the right-hand one reflected in the xz plane, with every
      triangle's corners in the opposite order. */
  lemma ThreadNodeMirror(t: Trig, sh: Shape, convexity: nat)
    requires sh.nSteps >= 2 && StartInXzPlane(sh)
    requires forall step :: 0 <= step < sh.nSteps - 1 ==> SymmetricAt(t, sh, step)
    ensures var l, r := ThreadNode(t, sh, true, convexity).op, ThreadNode(t, sh, false, convexity).op;
      |l.vertices| == |r.vertices| && |l.faces.inner| == |r.faces.inner| &&
      (forall i :: 0 <= i < |l.vertices| ==> l.vertices[i] == MirrorY(r.vertices[i])) &&
      forall f :: 0 <= f < |l.faces.inner| ==>
        |r.faces.inner[f].inner| == 3 &&
        l.faces.inner[f].inner == [r.faces.inner[f].inner[2], r.faces.inner[f].inner[1], r.faces.inner[f].inner[0]]
  {
    ThreadVerticesMirror(t, sh);
    ThreadFacesMirror(sh.nSteps);
    ThreadIndicesLayout(sh.nSteps, true);
    ThreadIndicesLayout(sh.nSteps, false);
  }

  /** The rod: the circle of the given radius extruded to the length, as a
      polyhedron node; None where the triangulation refuses the circle. */
  function RodNode(t: Trig, radius: real, length: real, segments: nat, rodCap: seq<nat>): Option<S.Scad>
  {
    var profile := Dim2.Circle(t, radius, segments);
    var tri := T.Triangulation2d(profile);
    if tri.None? then None else Some(S.PolyhedronNode(Dim3.LinearExtrusion(profile, length, rodCap, tri.value)))
  }

  /** The thread of a shape as a polyhedron node; None where the loop
      panics. */
  function ThreadPart(t: Trig, sh: Shape, left: bool, convexity: nat): Option<S.Scad>
    requires sh.nSteps >= 2
  {
    if LeadOutUnderflow(sh) then None else Some(ThreadNode(t, sh, left, convexity))
  }

  /** The thread joined to the rod, moved down by half the length when
      centred; None when either part failed. */
  function Assembled(threads: Option<S.Scad>, rod: Option<S.Scad>, length: real, center: bool): Option<S.Scad>
  {
    if threads.None? || rod.None? then None
    else
      var result := S.Plus(threads.value, rod.value);
      Some(if center then S.TranslateBy(Pt3(0.0, 0.0, -length / 2.0), [result]) else result)
  }

  /** `threaded_cylinder`: the thread joined to a rod of the minor radius
      (plus 0.0001) and the full length, moved down by half the length when
      centred. `rodCap` is the reversed triangulation of the rod's circle.
      None where the source panics: fewer than two steps, the lead-out
      overflow, or a rod circle the triangulation refuses. */
  function ThreadedCylinderScene(t: Trig, dMin: real, dMaj: real, pitch: real, length: real, segments: nat,
                                 leadInDegrees: real, leadOutDegrees: real, left: bool, center: bool,
                                 rodCap: seq<nat>): (r: Option<S.Scad>)
    requires pitch > 0.0 && LeadInStepCount(segments, leadInDegrees) > 0
  {
    if StepCount(pitch, length, segments) < 2 then None
    else
      var sh := ThreadShape(dMin, dMaj, pitch, length, segments, leadInDegrees, leadOutDegrees);
      Assembled(ThreadPart(t, sh, left, Convexity(length, pitch)),
                RodNode(t, RodRadius(dMin), length, segments, rodCap), length, center)
  }

  /** The rod's radius: the minor radius and a little more, so that the rod
      and the thread overlap. */
  function RodRadius(dMin: real): real
  {
    dMin / 2.0 + 0.0001
  }

  /** The thread part of `threaded_cylinder`: the loop's buffers, the index
      list cut into triangles, as a polyhedron node. */
  method Threads(t: Trig, sh: Shape, left: bool, convexity: nat) returns (r: Option<S.Scad>)
    requires sh.nSteps >= 2
    ensures r == ThreadPart(t, sh, left, convexity)
  {
    var mesh := ThreadMesh(t, sh, left);
    if mesh.None? {
      return None;
    }
    ThreadIndicesLayout(sh.nSteps, left);
    var faces := Mesh.AppendTriples([], mesh.value.indices, 0);
    assert [] + Mesh.Triples(ThreadIndices(sh.nSteps, left), 0) == Mesh.Triples(ThreadIndices(sh.nSteps, left), 0);
    return Some(S.Scad(S.Polyhedron(mesh.value.vertices, S.AsFaces(faces), convexity), []));
  }

  /** The rod part of `threaded_cylinder`: `Polyhedron::cylinder` and
      `into_scad`. */
  method Rod(t: Trig, radius: real, length: real, segments: nat, rodCap: seq<nat>) returns (r: Option<S.Scad>)
    requires |rodCap| % 3 == 0
    ensures r == RodNode(t, radius, length, segments, rodCap)
  {
    var p := Dim3.Cylinder(t, radius, length, segments, rodCap);
    if p.None? {
      return None;
    }
    return Some(S.PolyhedronNode(p.value));
  }

  /** `threaded_cylinder`. */
  method ThreadedCylinder(t: Trig, dMin: real, dMaj: real, pitch: real, length: real, segments: nat,
                          leadInDegrees: real, leadOutDegrees: real, left: bool, center: bool,
                          rodCap: seq<nat>) returns (r: Option<S.Scad>)
    requires pitch > 0.0 && LeadInStepCount(segments, leadInDegrees) > 0
    requires |rodCap| % 3 == 0
    ensures r == ThreadedCylinderScene(t, dMin, dMaj, pitch, length, segments, leadInDegrees, leadOutDegrees, left, center, rodCap)
  {
    if StepCount(pitch, length, segments) < 2 {
      return None;
    }
    var sh := ThreadShape(dMin, dMaj, pitch, length, segments, leadInDegrees, leadOutDegrees);
    var threads := Threads(t, sh, left, Convexity(length, pitch));
    var rod := Rod(t, RodRadius(dMin), length, segments, rodCap);
    r := Assembled(threads, rod, length, center);
  }

  /** Without lead-in or lead-out the lead state never changes and every
      step uses the thread profile. */
  lemma {:induction false} NoLeads(sh: Shape, k: nat)
    requires !sh.leadIn && !sh.leadOut
    ensures LeadsAt(sh, k) == InitialLeads(sh)
    ensures Profiles(sh, LeadsAt(sh, k), k) == [sh.profile0, sh.profile1, sh.profile2, sh.profile3]
  {
    if k > 0 {
      NoLeads(sh, k - 1);
    }
  }

  /** A thread without lead-in or lead-out degrees (the tap's) never
      panics, starts with the thread profile itself, and uses the thread
      profile at every step. */
  lemma PlainThread(dMin: real, dMaj: real, pitch: real, length: real, segments: nat)
    requires pitch != 0.0 && StepCount(pitch, length, segments) >= 2
    ensures LeadInStepCount(segments, 0.0) == 2
    ensures var sh := ThreadShape(dMin, dMaj, pitch, length, segments, 0.0, 0.0);
      !LeadOutUnderflow(sh) &&
      StartVertices(sh) == [sh.profile0, sh.profile1, sh.profile2, sh.profile3] &&
      forall k: nat :: Profiles(sh, LeadsAt(sh, k), k) == [sh.profile0, sh.profile1, sh.profile2, sh.profile3]
  {
    assert LeadInStepCount(segments, 0.0) == 2;
    var sh := ThreadShape(dMin, dMaj, pitch, length, segments, 0.0, 0.0);
    StepLerpEnds(Pt3(dMin / 2.0, 0.0, 7.0 / 16.0 * pitch), sh.profile1, 2, 2);
    StepLerpEnds(Pt3(dMin / 2.0, 0.0, 5.0 / 16.0 * pitch), sh.profile3, 2, 2);
    forall k: nat
      ensures Profiles(sh, LeadsAt(sh, k), k) == [sh.profile0, sh.profile1, sh.profile2, sh.profile3]
    {
      NoLeads(sh, k);
    }
  }

  /** The thread table row `m_table_lookup` gives for a size. */
  function SizeInfo(m: int): ThreadInfo
  {
    MTable(TableKey(m)).value
  }

  /** `threaded_rod`: a thread of the size's pitch and external major
      diameter. */
  method ThreadedRod(t: Trig, m: int, length: real, segments: nat, leadInDegrees: real, leadOutDegrees: real,
                     left: bool, center: bool, rodCap: seq<nat>) returns (r: Option<S.Scad>)
    requires LeadInStepCount(segments, leadInDegrees) > 0
    requires |rodCap| % 3 == 0
    ensures SizeInfo(m).pitch > 0.0
    ensures var info := SizeInfo(m);
      r == ThreadedCylinderScene(t, DMinFromDMajPitch(t, info.externalDMaj, info.pitch), info.externalDMaj, info.pitch,
                                 length, segments, leadInDegrees, leadOutDegrees, left, center, rodCap)
  {
    var info := MTableLookup(m);
    PitchesPositive(TableKey(m));
    var dMin := DMinFromDMajPitch(t, info.externalDMaj, info.pitch);
    r := ThreadedCylinder(t, dMin, info.externalDMaj, info.pitch, length, segments,
                          leadInDegrees, leadOutDegrees, left, center, rodCap);
  }

  /** `tap`: a thread of the size's pitch and internal major diameter,
      without lead-in or lead-out. */
  method Tap(t: Trig, m: int, length: real, segments: nat, left: bool, center: bool, rodCap: seq<nat>)
      returns (r: Option<S.Scad>)
    requires |rodCap| % 3 == 0
    ensures SizeInfo(m).pitch > 0.0
    ensures var info := SizeInfo(m);
      r == ThreadedCylinderScene(t, DMinFromDMajPitch(t, info.internalDMaj, info.pitch), info.internalDMaj, info.pitch,
                                 length, segments, 0.0, 0.0, left, center, rodCap)
  {
    var info := MTableLookup(m);
    PitchesPositive(TableKey(m));
    var dMin := DMinFromDMajPitch(t, info.internalDMaj, info.pitch);
    assert LeadInStepCount(segments, 0.0) == 2;
    r := ThreadedCylinder(t, dMin, info.internalDMaj, info.pitch, length, segments, 0.0, 0.0, left, center, rodCap);
  }
}
