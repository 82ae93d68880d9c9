/** The Mersenne Twister of scadder_math/src/rng.rs (a port of mtwister):
    MT19937 on a buffer of 624 32-bit words that `next` regenerates in place
    once every word has been used, with mtwister's own seeding (each word
    6069 times the previous one, modulo 2^32). */
module Rng {
  const StateLength: nat := 624
  const StateM: nat := 397
  const UpperMask: bv32 := 0x8000_0000
  const LowerMask: bv32 := 0x7fff_ffff
  const TemperingMaskB: bv32 := 0x9d2c_5680
  const TemperingMaskC: bv32 := 0xefc6_0000
  const MatrixA: bv32 := 0x9908_b0df

  /** Seeding: the next word is 6069 times the previous one, reduced to 32
      bits. The source multiplies in `usize` and masks the product to 32
      bits, which is the wrapping 32-bit product. */
  function SeedStep(x: bv32): bv32
  {
    6069 * x
  }

  /** Word i of a freshly seeded buffer. */
  function SeedWord(seed: bv32, i: nat): bv32
  {
    if i == 0 then seed & 0xffff_ffff else SeedStep(SeedWord(seed, i - 1))
  }

  /** The buffer `with_seed` fills. */
  function Seeded(seed: bv32): (r: seq<bv32>)
    ensures |r| == StateLength
  {
    seq(StateLength, i requires 0 <= i < StateLength => SeedWord(seed, i))
  }

  /** The entry of the two-word table `mag` picked by the low bit of y:
      0 for an even y, the twist matrix's bottom row for an odd one. */
  function Mag(y: bv32): bv32
  {
    if y & 1 == 0 then 0 else MatrixA
  }

  /** The top bit of one word joined to the low 31 bits of the next. */
  function Mix(a: bv32, b: bv32): bv32
  {
    (a & UpperMask) | (b & LowerMask)
  }

  /** One step of the recurrence: the word M places on, xor the mixed pair
      shifted and twisted. */
  function Twist(far: bv32, a: bv32, b: bv32): bv32
  {
    far ^ (Mix(a, b) >> 1) ^ Mag(Mix(a, b))
  }

  /** The MT19937 recurrence as published, independent of any buffer: the
      words of the initial buffer, then each word j >= 624 computed from the
      words j - 227, j - 624 and j - 623. */
  function Word(b: seq<bv32>, j: nat): bv32
    requires |b| == StateLength
  {
    if j < StateLength then b[j]
    else Twist(Word(b, j - StateLength + StateM), Word(b, j - StateLength), Word(b, j - StateLength + 1))
  }

  /** The tempering applied to each word on its way out. */
  function Temper(w: bv32): bv32
  {
    var y1 := w ^ (w >> 11);
    var y2 := y1 ^ ((y1 << 7) & TemperingMaskB);
    var y3 := y2 ^ ((y2 << 15) & TemperingMaskC);
    y3 ^ (y3 >> 18)
  }

  /** Output j of a generator whose buffer started as `origin`: word
      624 + j of the sequence, tempered. */
  function Output(origin: seq<bv32>, j: nat): bv32
    requires |origin| == StateLength
  {
    Temper(Word(origin, StateLength + j))
  }

  /** A zero seed fills the buffer with zeros. */
  lemma {:induction false} ZeroSeedWord(i: nat)
    ensures SeedWord(0, i) == 0
  {
    if i > 0 {
      ZeroSeedWord(i - 1);
      assert SeedStep(0) == 0;
    }
  }

  /** The recurrence keeps an all-zero start at zero forever. */
  lemma {:induction false} ZeroWord(j: nat)
    ensures Word(Seeded(0), j) == 0
  {
    if j < StateLength {
      ZeroSeedWord(j);
    } else {
      ZeroWord(j - StateLength + StateM);
      ZeroWord(j - StateLength);
      ZeroWord(j - StateLength + 1);
      assert Twist(0, 0, 0) == 0;
    }
  }

  /** A generator seeded with zero only ever produces zero. */
  lemma ZeroSeedOutput(j: nat)
    ensures Output(Seeded(0), j) == 0
  {
    ZeroWord(StateLength + j);
    assert Temper(0) == 0;
  }

  /** The first n outputs of a generator whose buffer started as
      `origin`. */
  function Outputs(origin: seq<bv32>, n: nat): (r: seq<bv32>)
    requires |origin| == StateLength
    ensures |r| == n
  {
    if n == 0 then [] else Outputs(origin, n - 1) + [Output(origin, n - 1)]
  }

  /** Entry j of the outputs is output j. */
  lemma {:induction false} OutputsAt(origin: seq<bv32>, n: nat, j: nat)
    requires |origin| == StateLength && j < n
    ensures Outputs(origin, n)[j] == Output(origin, j)
  {
    if j < n - 1 {
      OutputsAt(origin, n - 1, j);
    }
  }

  /** Equal words give equal positions' words. */
  lemma SameWord(b: seq<bv32>, x: nat, y: nat)
    requires |b| == StateLength && x == y
    ensures Word(b, x) == Word(b, y)
  {
  }

  class MersenneTwister {
    var buffer: array<bv32>
    var index: nat
    /** The buffer as seeded. */
    ghost var origin: seq<bv32>
    /** The position in the sequence of the buffer's first word. */
    ghost var start: nat
    /** Words produced so far. */
    ghost var count: nat

    /** The buffer holds 624 consecutive words of the sequence, and the next
        word to be read is word 624 + count of it. */
    ghost predicate Valid()
      reads this, buffer
    {
      buffer.Length == StateLength && |origin| == StateLength && index <= StateLength &&
      (forall i :: 0 <= i < StateLength ==> buffer[i] == Word(origin, start + i)) &&
      start + index == StateLength + count
    }

    /** `with_seed`: word 0 is the seed, each further word 6069 times the
        one before modulo 2^32, and the index past the end, so that the
        first `next` regenerates. */
    constructor WithSeed(seed: bv32)
      ensures Valid() && fresh(buffer)
      ensures buffer[..] == Seeded(seed) && index == StateLength
      ensures origin == Seeded(seed) && start == 0 && count == 0
    {
      var b := new bv32[StateLength];
      b[0] := seed & 0xffff_ffff;
      var i := 1;
      while i < StateLength
        invariant 1 <= i <= StateLength
        invariant forall j :: 0 <= j < i ==> b[j] == SeedWord(seed, j)
      {
        b[i] := SeedStep(b[i - 1]);
        i := i + 1;
      }
      assert b[..] == Seeded(seed);
      buffer := b;
      index := i;
      origin := b[..];
      start := 0;
      count := 0;
    }

    /** `next`: regenerate the buffer when every word has been used, then
        temper the word at the index and move the index on. */
    method Next() returns (y: bv32)
      requires Valid()
      modifies this, buffer
      ensures Valid() && buffer == old(buffer) && origin == old(origin)
      ensures count == old(count) + 1 && y == Output(origin, old(count))
      ensures 1 <= index <= StateLength
      ensures old(index) >= StateLength ==> start == old(start) + StateLength && index == 1
      ensures old(index) < StateLength ==> buffer[..] == old(buffer[..]) && start == old(start) && index == old(index) + 1
      ensures y == Temper(buffer[index - 1])
    {
      if index >= StateLength {
        Regenerate(origin, start);
        index := 0;
        start := start + StateLength;
      }
      var w := buffer[index];
      SameWord(origin, start + index, StateLength + count);
      index := index + 1;
      count := count + 1;
      y := Temper(w);
    }

    /** The three regeneration loops, rewriting the buffer in place: the
        first 227 words read words still to be rewritten, the next 396 read
        words rewritten earlier in the same pass, and the last one pairs the
        old last word with the new first word and reads the new word 396.
        Together they move the buffer on by 624 words of the recurrence. */
    method Regenerate(ghost origin: seq<bv32>, ghost start: nat)
      requires buffer.Length == StateLength && |origin| == StateLength
      requires forall i :: 0 <= i < StateLength ==> buffer[i] == Word(origin, start + i)
      modifies buffer
      ensures forall i :: 0 <= i < StateLength ==> buffer[i] == Word(origin, start + StateLength + i)
    {
      TwistFirst(origin, start);
      TwistMiddle(origin, start);
      buffer[StateLength - 1] := Twist(buffer[StateM - 1], buffer[StateLength - 1], buffer[0]);
    }

    /** Words k rewritten in place, words from k on still as they were. */
    ghost predicate TwistedUpTo(origin: seq<bv32>, start: nat, k: nat)
      requires |origin| == StateLength
      reads this, buffer
    {
      buffer.Length == StateLength && k <= StateLength &&
      (forall j :: 0 <= j < k ==> buffer[j] == Word(origin, start + StateLength + j)) &&
      (forall j :: k <= j < StateLength ==> buffer[j] == Word(origin, start + j))
    }

    /** The first loop: the words that read a word 397 places on, not yet
        rewritten. */
    method TwistFirst(ghost origin: seq<bv32>, ghost start: nat)
      requires |origin| == StateLength && TwistedUpTo(origin, start, 0)
      modifies buffer
      ensures TwistedUpTo(origin, start, StateLength - StateM)
    {
      var kk := 0;
      while kk < StateLength - StateM
        invariant kk <= StateLength - StateM && TwistedUpTo(origin, start, kk)
      {
        buffer[kk] := Twist(buffer[kk + StateM], buffer[kk], buffer[kk + 1]);
        kk := kk + 1;
      }
    }

    /** The second loop: the words that read a word 227 places back,
        rewritten earlier in the same pass. */
    method TwistMiddle(ghost origin: seq<bv32>, ghost start: nat)
      requires |origin| == StateLength && TwistedUpTo(origin, start, StateLength - StateM)
      modifies buffer
      ensures TwistedUpTo(origin, start, StateLength - 1)
    {
      var kk := StateLength - StateM;
      while kk < StateLength - 1
        invariant StateLength - StateM <= kk <= StateLength - 1 && TwistedUpTo(origin, start, kk)
      {
        buffer[kk] := Twist(buffer[kk + StateM - StateLength], buffer[kk], buffer[kk + 1]);
        kk := kk + 1;
      }
    }

    /** `raw`: exactly the next word. */
    method Raw() returns (y: bv32)
      requires Valid()
      modifies this, buffer
      ensures Valid() && buffer == old(buffer) && origin == old(origin)
      ensures count == old(count) + 1 && y == Output(origin, old(count))
    {
      y := Next();
    }
  }

  /** The first n words of a generator seeded with `seed`: they depend on
      the seed alone, so equal seeds give equal sequences. */
  method Draw(seed: bv32, n: nat) returns (ys: seq<bv32>)
    ensures ys == Outputs(Seeded(seed), n)
  {
    var g := new MersenneTwister.WithSeed(seed);
    ys := [];
    while |ys| < n
      invariant fresh(g.buffer)
      invariant g.Valid() && g.origin == Seeded(seed) && g.count == |ys| <= n
      invariant ys == Outputs(Seeded(seed), |ys|)
    {
      var y := g.Next();
      ys := ys + [y];
    }
  }
}
