/** Chords, note histograms and the tables of chords that both replicated choir
    objects are built on. A chord is a 64-bit set of notes; the model uses the
    set itself instead of its bit pattern. */
module Chords {
  import opened Tables

  const CHORD_BITS: nat := 64
  const NUM_CHOIR_NOTES: nat := 21
  const UINT32_SPAN: nat := 0x1_0000_0000

  type Note = n: nat | n < CHORD_BITS
  type Chord = c: set<nat> | forall n :: n in c ==> n < CHORD_BITS
  type Positive = n: nat | 0 < n witness 1
  type Histogram = map<nat, Positive>

  /** The library checksums of strings, of 64-bit values and of peer IDs. */
  datatype Sums = Sums(str: string -> nat, pod: Chord -> nat, peer: nat -> nat)

  // ----- Tables of chords -----

  /** An absent entry reads as the empty chord. */
  function At<K>(chords: map<K, Chord>, k: K): Chord {
    if k in chords then chords[k] else {}
  }

  /** Storing the empty chord means removing the entry. */
  function Put<K>(chords: map<K, Chord>, k: K, c: Chord): map<K, Chord> {
    if c == {} then chords - {k} else chords[k := c]
  }

  ghost predicate NoZero<K>(chords: map<K, Chord>) {
    forall k :: k in chords ==> chords[k] != {}
  }

  /** A table without empty chords is determined by what it reads as. */
  lemma SameReadings<K(!new)>(a: map<K, Chord>, b: map<K, Chord>)
    requires NoZero(a) && NoZero(b)
    requires forall k :: At(a, k) == At(b, k)
    ensures a == b
  {
    forall k | k in a
      ensures k in b && a[k] == b[k]
    {
      assert At(a, k) == At(b, k);
    }
    forall k | k in b
      ensures k in a
    {
      assert At(a, k) == At(b, k);
    }
  }

  // ----- Counting notes from scratch -----

  ghost function Holds<K>(n: nat): (K, Chord) -> int {
    (k: K, c: Chord) => if n in c then 1 else 0
  }

  /** In how many entries of the table note `n` appears. */
  ghost function Count<K>(chords: map<K, Chord>, n: nat): int {
    Total(chords, Holds(n))
  }

  lemma CountPositive<K>(chords: map<K, Chord>, n: nat)
    ensures Count(chords, n) >= 0
    ensures Count(chords, n) > 0 <==> exists k :: k in chords && n in chords[k]
  {
    TotalNonNegative(chords, Holds(n));
    if k :| k in chords && n in chords[k] {
      TotalTake(chords, Holds(n), k);
      TotalNonNegative(chords - {k}, Holds(n));
    } else {
      NobodyHolds(chords, n);
    }
  }

  lemma {:induction false} NobodyHolds<K>(chords: map<K, Chord>, n: nat)
    requires forall k :: k in chords ==> n !in chords[k]
    ensures Count(chords, n) == 0
    decreases |chords|
  {
    if k :| k in chords {
      TotalTake(chords, Holds(n), k);
      NobodyHolds(chords - {k}, n);
    }
  }

  ghost function FullHistogram<K>(chords: map<K, Chord>): Histogram {
    map n: nat | n < CHORD_BITS && Count(chords, n) > 0 :: Count(chords, n)
  }

  /** The notes some entry uses, by a scan of the whole table. */
  ghost function FullUsed<K>(chords: map<K, Chord>): Chord {
    FullHistogram(chords).Keys
  }

  lemma UsedExactly<K>(chords: map<K, Chord>, n: nat)
    ensures n in FullUsed(chords) <==> n < CHORD_BITS && exists k :: k in chords && n in chords[k]
  {
    CountPositive(chords, n);
  }

  // ----- Counting notes incrementally -----

  function CountAt(histogram: Histogram, n: nat): nat {
    if n in histogram then histogram[n] else 0
  }

  function Tally(count: nat, isAdd: bool): nat {
    if isAdd then count + 1 else if count > 0 then count - 1 else 0
  }

  /** The histogram after a chord is added, or after one is taken away. */
  ghost predicate Tallied(h: Histogram, chord: Chord, isAdd: bool, h': Histogram) {
    forall n :: CountAt(h', n) == if n in chord then Tally(CountAt(h, n), isAdd) else CountAt(h, n)
  }

  method UpdateNoteHistogram(chord: Chord, isAdd: bool, histogram: Histogram, bitchord: Chord)
    returns (h: Histogram, bits: Chord)
    ensures Tallied(histogram, chord, isAdd, h)
    ensures bitchord == histogram.Keys ==> bits == h.Keys
  {
    h, bits := histogram, bitchord;
    for i := 0 to CHORD_BITS
      invariant forall n: nat :: CountAt(h, n) ==
                  if n < i && n in chord then Tally(CountAt(histogram, n), isAdd) else CountAt(histogram, n)
      invariant bitchord == histogram.Keys ==> bits == h.Keys
    {
      assert CountAt(h, i) == CountAt(histogram, i);
      if i in chord {
        if isAdd {
          var v := CountAt(h, i) + 1;
          h := h[i := v];
          if v == 1 {
            bits := bits + {i};
          }
        } else if i in h {
          var v: nat := CountAt(h, i) - 1;
          if v == 0 {
            h := h - {i};
            bits := bits - {i};
          } else {
            h := h[i := v];
          }
        }
      }
    }
  }

  lemma SameCounts(a: Histogram, b: Histogram)
    requires forall n :: CountAt(a, n) == CountAt(b, n)
    ensures a == b
  {
    forall n | n in a
      ensures n in b && a[n] == b[n]
    {
      assert CountAt(a, n) == CountAt(b, n);
    }
    forall n | n in b
      ensures n in a
    {
      assert CountAt(a, n) == CountAt(b, n);
    }
  }

  lemma FullCountAt<K>(chords: map<K, Chord>, n: nat)
    ensures CountAt(FullHistogram(chords), n) == Count(chords, n)
  {
    CountPositive(chords, n);
  }

  /** Counting a new entry's chord in gives the histogram of the larger table. */
  lemma TallyAdd<K>(chords: map<K, Chord>, k: K, c: Chord, h': Histogram)
    requires k !in chords && Tallied(FullHistogram(chords), c, true, h')
    ensures h' == FullHistogram(chords[k := c])
  {
    var full := FullHistogram(chords[k := c]);
    forall n: nat
      ensures CountAt(h', n) == CountAt(full, n)
    {
      FullCountAt(chords, n);
      FullCountAt(chords[k := c], n);
      TotalPut(chords, Holds(n), k, c);
      assert chords - {k} == chords;
    }
    SameCounts(h', full);
  }

  /** Counting an entry's chord out gives the histogram of the table without it. */
  lemma TallyRemove<K>(chords: map<K, Chord>, k: K, h': Histogram)
    requires k in chords && Tallied(FullHistogram(chords), chords[k], false, h')
    ensures h' == FullHistogram(chords - {k})
  {
    var h, full := FullHistogram(chords), FullHistogram(chords - {k});
    forall n: nat
      ensures CountAt(h', n) == CountAt(full, n)
    {
      FullCountAt(chords, n);
      FullCountAt(chords - {k}, n);
      CountPositive(chords - {k}, n);
      TotalTake(chords, Holds(n), k);
      assert CountAt(h, n) == Count(chords, n);
    }
    SameCounts(h', full);
  }

  /** The histogram and the bit-chord are what a full scan would give. */
  ghost predicate Counted<K>(chords: map<K, Chord>, histogram: Histogram, bits: Chord) {
    histogram == FullHistogram(chords) && bits == histogram.Keys
  }

  method CountIn<K>(ghost chords: map<K, Chord>, ghost k: K, c: Chord, histogram: Histogram, bitchord: Chord)
    returns (h: Histogram, bits: Chord)
    requires k !in chords && Counted(chords, histogram, bitchord)
    ensures Counted(chords[k := c], h, bits)
  {
    h, bits := UpdateNoteHistogram(c, true, histogram, bitchord);
    TallyAdd(chords, k, c, h);
  }

  method CountOut<K>(ghost chords: map<K, Chord>, ghost k: K, c: Chord, histogram: Histogram, bitchord: Chord)
    returns (h: Histogram, bits: Chord)
    requires k in chords && c == chords[k] && Counted(chords, histogram, bitchord)
    ensures Counted(chords - {k}, h, bits)
  {
    h, bits := UpdateNoteHistogram(c, false, histogram, bitchord);
    TallyRemove(chords, k, h);
  }

  lemma NothingCounted<K>()
    ensures Counted<K>(map[], map[], {})
  {
    assert forall n: nat :: Count<K>(map[], n) == 0;
  }

  // ----- Running checksums, modulo 2^32 -----

  function Wrap32(n: int): nat {
    n % UINT32_SPAN
  }

  lemma WrapPlus(a: int, b: int)
    ensures Wrap32(Wrap32(a) + b) == Wrap32(a + b)
    ensures Wrap32(Wrap32(a) - b) == Wrap32(a - b)
  {
  }
}
