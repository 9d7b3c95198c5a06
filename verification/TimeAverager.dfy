/** The round-trip averager and the clock offset that rests on it: a window of
    samples, a running total, and an average of the samples within one standard
    deviation of the raw average. */
module TimeAverager {
  const UINT64_MAX: nat := 0xFFFF_FFFF_FFFF_FFFF
  const NOT_CACHED: nat := UINT64_MAX

  // ----- The library's arithmetic -----

  function SaturatingAdd(a: nat, b: nat): nat {
    if a + b > UINT64_MAX then UINT64_MAX else a + b
  }

  function SaturatingMultiply(a: nat, b: nat): nat {
    if a * b > UINT64_MAX then UINT64_MAX else a * b
  }

  function Abs(n: int): nat {
    if n < 0 then -n else n
  }

  /** The square root, rounded down. */
  function Isqrt(n: nat): (r: nat)
    ensures r * r <= n < (r + 1) * (r + 1)
  {
    if n == 0 then 0
    else
      var r := Isqrt(n - 1);
      if (r + 1) * (r + 1) <= n then SquareNext(r); r + 1 else r
  }

  lemma SquareNext(r: nat)
    ensures (r + 2) * (r + 2) == (r + 1) * (r + 1) + 2 * r + 3
  {
  }

  // ----- What the averager computes -----

  function Sum(window: seq<nat>): nat {
    if window == [] then 0 else Sum(window[..|window| - 1]) + window[|window| - 1]
  }

  function RawAverage(window: seq<nat>, total: nat): nat {
    if window == [] then 0 else total / |window|
  }

  /** The sum of squared differences from `center`, as it is accumulated. */
  function SumOfDiffs(window: seq<nat>, center: nat, n: nat): nat
    requires n <= |window|
  {
    if n == 0 then 0
    else
      var diff := Abs(window[n - 1] - center);
      SaturatingAdd(SumOfDiffs(window, center, n - 1), SaturatingMultiply(diff, diff))
  }

  function MaxDelta(window: seq<nat>, center: nat): nat
    requires window != []
  {
    Isqrt(SumOfDiffs(window, center, |window|) / |window|)
  }

  /** The sum and the number of the samples within `delta` of `center`. */
  function Close(window: seq<nat>, center: nat, delta: nat, n: nat): (nat, nat)
    requires n <= |window|
  {
    if n == 0 then (0, 0)
    else
      var (sum, count) := Close(window, center, delta, n - 1);
      if Abs(window[n - 1] - center) <= delta then (sum + window[n - 1], count + 1) else (sum, count)
  }

  /** GetAverageValueIgnoringOutliersAux. */
  function Filtered(window: seq<nat>, total: nat): nat {
    if window == [] then 0
    else
      var center := RawAverage(window, total);
      var (sum, count) := Close(window, center, MaxDelta(window, center), |window|);
      if count > 0 then sum / count else 0
  }

  // ----- At least one sample survives -----

  /** The sum of squared differences without saturation. */
  ghost function TrueDiffs(window: seq<nat>, center: nat, n: nat): nat
    requires n <= |window|
  {
    if n == 0 then 0
    else TrueDiffs(window, center, n - 1) + Abs(window[n - 1] - center) * Abs(window[n - 1] - center)
  }

  function Capped(n: nat): nat {
    if n > UINT64_MAX then UINT64_MAX else n
  }

  /** Saturating at every step is saturating once at the end. */
  lemma {:induction false} SumOfDiffsCapped(window: seq<nat>, center: nat, n: nat)
    requires n <= |window|
    ensures SumOfDiffs(window, center, n) == Capped(TrueDiffs(window, center, n))
  {
    if n > 0 {
      SumOfDiffsCapped(window, center, n - 1);
    }
  }

  lemma SquareMonotone(a: nat, b: nat)
    requires a <= b
    ensures a * a <= b * b
  {
  }

  lemma {:induction false} FarSamplesAddUp(window: seq<nat>, center: nat, delta: nat, n: nat)
    requires n <= |window| && forall i :: 0 <= i < n ==> Abs(window[i] - center) > delta
    ensures TrueDiffs(window, center, n) >= n * ((delta + 1) * (delta + 1))
  {
    if n > 0 {
      FarSamplesAddUp(window, center, delta, n - 1);
      SquareMonotone(delta + 1, Abs(window[n - 1] - center));
      var b := (delta + 1) * (delta + 1);
      assert n * b == (n - 1) * b + b;
    }
  }

  lemma BelowAverageTimesCount(total: nat, n: nat, b: nat)
    requires n > 0 && b > total / n
    ensures n * b > total
  {
    assert total == n * (total / n) + total % n;
    assert n * b >= n * (total / n + 1) == n * (total / n) + n by {
      ProductMonotone(n, total / n + 1, b);
    }
  }

  lemma ProductMonotone(n: nat, a: nat, b: nat)
    requires a <= b
    ensures n * a <= n * b
  {
  }

  /** The squares of the window's differences add up to less than 2^64. */
  ghost predicate NoOverflow(window: seq<nat>, center: nat) {
    TrueDiffs(window, center, |window|) <= UINT64_MAX
  }

  ghost predicate SomeWithin(window: seq<nat>, center: nat, delta: nat) {
    exists i :: 0 <= i < |window| && Abs(window[i] - center) <= delta
  }

  /** Unless the squares overflow, some sample is within one standard deviation of
      the center, whatever the center. */
  lemma SomeSampleIsClose(window: seq<nat>, center: nat)
    requires window != [] && NoOverflow(window, center)
    ensures SomeWithin(window, center, MaxDelta(window, center))
  {
    var n, delta := |window|, MaxDelta(window, center);
    if !SomeWithin(window, center, delta) {
      var total := TrueDiffs(window, center, n);
      assert forall i :: 0 <= i < n ==> Abs(window[i] - center) > delta;
      FarSamplesAddUp(window, center, delta, n);
      SumOfDiffsCapped(window, center, n);
      BelowAverageTimesCount(total, n, (delta + 1) * (delta + 1));
    }
  }

  /** When some sample survives: the squares add up to less than 2^64, or some sample
      is within the deviation that a saturated sum amounts to. */
  ghost predicate Survivable(window: seq<nat>, center: nat)
    requires window != []
  {
    NoOverflow(window, center) || SomeWithin(window, center, Isqrt(UINT64_MAX / |window|))
  }

  lemma SurvivesIff(window: seq<nat>, center: nat)
    requires window != []
    ensures SomeWithin(window, center, MaxDelta(window, center)) <==> Survivable(window, center)
  {
    hide Isqrt, SomeWithin;
    if NoOverflow(window, center) {
      SomeSampleIsClose(window, center);
    } else {
      SumOfDiffsCapped(window, center, |window|);
      assert MaxDelta(window, center) == Isqrt(UINT64_MAX / |window|);
    }
  }

  lemma {:induction false} CloseIsCounted(window: seq<nat>, center: nat, delta: nat, n: nat, i: nat)
    requires i < n <= |window| && Abs(window[i] - center) <= delta
    ensures Close(window, center, delta, n).1 > 0
  {
    if i < n - 1 {
      CloseIsCounted(window, center, delta, n - 1, i);
    }
  }

  // ----- The result lies within the window -----

  ghost predicate Within(window: seq<nat>, lo: nat, hi: nat) {
    forall i :: 0 <= i < |window| ==> lo <= window[i] <= hi
  }

  lemma {:induction false} CloseBetween(window: seq<nat>, center: nat, delta: nat, n: nat, lo: nat, hi: nat)
    requires n <= |window| && Within(window, lo, hi)
    ensures var (sum, count) := Close(window, center, delta, n);
            lo * count <= sum <= hi * count
  {
    if n > 0 {
      CloseBetween(window, center, delta, n - 1, lo, hi);
      var (_, count) := Close(window, center, delta, n - 1);
      assert lo * (count + 1) == lo * count + lo && hi * (count + 1) == hi * count + hi;
    }
  }

  lemma QuotientBetween(sum: nat, count: nat, lo: nat, hi: nat)
    requires count > 0 && lo * count <= sum <= hi * count
    ensures lo <= sum / count <= hi
  {
    var q := sum / count;
    assert sum == q * count + sum % count;
    assert q < lo ==> (q + 1) * count <= lo * count;
    assert q > hi ==> (hi + 1) * count <= q * count;
  }

  lemma {:induction false} NoneClose(window: seq<nat>, center: nat, delta: nat, n: nat)
    requires n <= |window| && !SomeWithin(window, center, delta)
    ensures Close(window, center, delta, n) == (0, 0)
  {
    if n > 0 {
      NoneClose(window, center, delta, n - 1);
    }
  }

  /** If some sample survives, the filtered average lies between any bounds all
      samples keep to, the smallest and the largest sample among them; if none
      does, it is 0. */
  lemma FilteredBetween(window: seq<nat>, total: nat, lo: nat, hi: nat)
    requires window != [] && Within(window, lo, hi)
    ensures if Survivable(window, RawAverage(window, total)) then lo <= Filtered(window, total) <= hi
            else Filtered(window, total) == 0
  {
    hide MaxDelta, Survivable, RawAverage;
    var center := RawAverage(window, total);
    var delta := MaxDelta(window, center);
    SurvivesIff(window, center);
    if Survivable(window, center) {
      var i: nat :| i < |window| && Abs(window[i] as int - center) <= delta;
      CloseIsCounted(window, center, delta, |window|, i);
      CloseBetween(window, center, delta, |window|, lo, hi);
      var (sum, count) := Close(window, center, delta, |window|);
      QuotientBetween(sum, count, lo, hi);
    } else {
      NoneClose(window, center, delta, |window|);
    }
  }

  // ----- When nothing overflows -----

  const SAMPLE_LIMIT: nat := 0x2000_0000
  const WINDOW_LIMIT: nat := 32

  lemma {:induction false} DiffsBounded(window: seq<nat>, center: nat, n: nat)
    requires n <= |window| && Within(window, 0, SAMPLE_LIMIT) && center <= SAMPLE_LIMIT
    ensures TrueDiffs(window, center, n) <= n * (SAMPLE_LIMIT * SAMPLE_LIMIT)
  {
    if n > 0 {
      DiffsBounded(window, center, n - 1);
      SquareMonotone(Abs(window[n - 1] - center), SAMPLE_LIMIT);
      assert n * (SAMPLE_LIMIT * SAMPLE_LIMIT) == (n - 1) * (SAMPLE_LIMIT * SAMPLE_LIMIT) + SAMPLE_LIMIT * SAMPLE_LIMIT;
    }
  }

  lemma {:induction false} SumBetween(window: seq<nat>, lo: nat, hi: nat)
    requires Within(window, lo, hi)
    ensures lo * |window| <= Sum(window) <= hi * |window|
  {
    if window != [] {
      var n := |window| - 1;
      SumBetween(window[..n], lo, hi);
      assert lo * (n + 1) == lo * n + lo && hi * (n + 1) == hi * n + hi;
    }
  }

  /** With an exact total the raw average lies within the window too. */
  lemma RawBetween(window: seq<nat>, lo: nat, hi: nat)
    requires window != [] && Within(window, lo, hi)
    ensures lo <= RawAverage(window, Sum(window)) <= hi
  {
    SumBetween(window, lo, hi);
    QuotientBetween(Sum(window), |window|, lo, hi);
  }

  /** Samples of up to nine minutes in a window of up to 32 overflow nothing, so
      their filtered average lies within the window. */
  lemma SmallSamplesAreSafe(window: seq<nat>, total: nat)
    requires window != [] && |window| <= WINDOW_LIMIT && Within(window, 0, SAMPLE_LIMIT) && total <= Sum(window)
    ensures Sum(window) <= UINT64_MAX && Survivable(window, RawAverage(window, total))
  {
    SumBetween(window, 0, SAMPLE_LIMIT);
    var center := RawAverage(window, total);
    QuotientBetween(total, |window|, 0, SAMPLE_LIMIT);
    DiffsBounded(window, center, |window|);
    ProductMonotone(SAMPLE_LIMIT * SAMPLE_LIMIT, |window|, WINDOW_LIMIT);
  }

  /** With samples far enough apart the squares saturate, every sample is taken for
      an outlier, and the average is 0. */
  lemma SaturationExample()
    ensures Filtered([0x100_0000_0000, 0x200_0000_0000], 0x300_0000_0000) == 0
    ensures !Survivable([0x100_0000_0000, 0x200_0000_0000], 0x180_0000_0000)
  {
    var window: seq<nat> := [0x100_0000_0000, 0x200_0000_0000];
    var center := RawAverage(window, 0x300_0000_0000);
    assert center == 0x180_0000_0000;
    assert SumOfDiffs(window, center, 0) == 0;
    assert SumOfDiffs(window, center, 1) == UINT64_MAX;
    assert SumOfDiffs(window, center, 2) == UINT64_MAX;
    var delta := MaxDelta(window, center);
    assert delta < 0x80_0000_0000 by {
      SquareBelow(delta, 0x80_0000_0000);
    }
    assert Close(window, center, delta, 1) == (0, 0);
    assert Close(window, center, delta, 2) == (0, 0);
    FilteredBetween(window, 0x300_0000_0000, 0x100_0000_0000, 0x200_0000_0000);
  }

  lemma SquareBelow(a: nat, b: nat)
    requires a * a < b * b
    ensures a < b
  {
    if a >= b {
      SquareMonotone(b, a);
    }
  }

  // ----- The clock offset -----

  const TWO_63: int := 0x8000_0000_0000_0000
  const TWO_64: int := 0x1_0000_0000_0000_0000

  function ToUint64(n: int): nat {
    n % TWO_64
  }

  function ToInt64(n: int): int {
    (n + TWO_63) % TWO_64 - TWO_63
  }

  /** UpdateToNetworkTimeOffset on a peer that is not the senior, in the source's
      unsigned arithmetic. */
  function NetworkTimeOffset(seniorNetTime: nat, localRecvTime: nat, roundTrip: nat): int {
    ToInt64(ToUint64(seniorNetTime - ToUint64(localRecvTime - roundTrip / 2)))
  }

  lemma WrapsCancel(a: int, b: int)
    requires -TWO_63 <= a - b < TWO_63
    ensures ToInt64(ToUint64(a - ToUint64(b))) == a - b
  {
    var k := b / TWO_64;
    assert ToUint64(b) == b - k * TWO_64;
    var j := (a - ToUint64(b)) / TWO_64;
    assert ToUint64(a - ToUint64(b)) == a - b + (k - j) * TWO_64;
    ModUnique(a - b + TWO_63, k - j);
  }

  lemma ModUnique(x: int, k: int)
    requires 0 <= x < TWO_64
    ensures (x + k * TWO_64) % TWO_64 == x
  {
  }

  /** If every sample in the window is within `e` of twice the one-way delay, the
      offset found is within (e + 1) / 2, so within e / 2 + 1, of the true one:
      the senior's clock now, less ours. */
  lemma ClockErrorBounded(window: seq<nat>, total: nat, seniorNetTime: nat, localRecvTime: nat, delay: nat, e: nat)
    requires window != [] && Survivable(window, RawAverage(window, total))
    requires forall i :: 0 <= i < |window| ==> Abs(window[i] - 2 * delay) <= e
    requires -TWO_63 <= seniorNetTime - localRecvTime + Filtered(window, total) / 2 < TWO_63
    ensures var found := NetworkTimeOffset(seniorNetTime, localRecvTime, Filtered(window, total));
            var correct := seniorNetTime + delay - localRecvTime;
            2 * Abs(found - correct) <= e + 1 && Abs(found - correct) <= e / 2 + 1
  {
    hide Filtered, ToInt64, ToUint64, Survivable;
    var rtt := Filtered(window, total);
    var lo := if 2 * delay < e then 0 else 2 * delay - e;
    assert Within(window, lo, 2 * delay + e);
    FilteredBetween(window, total, lo, 2 * delay + e);
    WrapsCancel(seniorNetTime, localRecvTime - rtt / 2);
  }

  // ----- Which samples are averaged -----

  /** The samples within `delta` of `center`. */
  ghost function Kept(window: seq<nat>, center: nat, delta: nat): (r: seq<nat>)
    ensures forall x :: x in r <==> x in window && Abs(x - center) <= delta
  {
    if window == [] then []
    else
      var n := |window| - 1;
      var rest := Kept(window[..n], center, delta);
      assert window == window[..n] + [window[n]];
      if Abs(window[n] - center) <= delta then rest + [window[n]] else rest
  }

  lemma {:induction false} CloseIsSum(window: seq<nat>, center: nat, delta: nat, n: nat)
    requires n <= |window|
    ensures Close(window, center, delta, n) == (Sum(Kept(window[..n], center, delta)), |Kept(window[..n], center, delta)|)
  {
    if n > 0 {
      CloseIsSum(window, center, delta, n - 1);
      assert window[..n][..n - 1] == window[..n - 1];
      var rest := Kept(window[..n - 1], center, delta);
      assert (rest + [window[n - 1]])[..|rest|] == rest;
    }
  }

  /** The whole multiset of samples is split by the limit: as often as a value is in
      the window, as often it is kept. */
  lemma {:induction false} KeptCounts(window: seq<nat>, center: nat, delta: nat, x: nat)
    requires Abs(x - center) <= delta
    ensures multiset(Kept(window, center, delta))[x] == multiset(window)[x]
  {
    if window != [] {
      var n := |window| - 1;
      KeptCounts(window[..n], center, delta, x);
      assert window == window[..n] + [window[n]];
    }
  }

  /** The filtered average is the average, rounded down, of the samples within the
      deviation found, or 0 if there are none. */
  lemma FilteredIsMean(window: seq<nat>, total: nat)
    requires window != []
    ensures var center := RawAverage(window, total);
            var kept := Kept(window, center, MaxDelta(window, center));
            Filtered(window, total) == if kept == [] then 0 else Sum(kept) / |kept|
  {
    hide RawAverage, MaxDelta, Kept;
    var center := RawAverage(window, total);
    CloseIsSum(window, center, MaxDelta(window, center), |window|);
    assert window[..|window|] == window;
  }

  /** A sample is kept exactly if its squared distance from the center, taken for every
      sample, does not exceed the sum of the squared distances, as far as 64 bits
      can hold that sum. */
  lemma KeptIff(window: seq<nat>, center: nat, x: nat)
    requires window != []
    ensures x in Kept(window, center, MaxDelta(window, center)) <==>
            x in window && |window| * (Abs(x - center) * Abs(x - center)) <= Capped(TrueDiffs(window, center, |window|))
  {
    SumOfDiffsCapped(window, center, |window|);
    hide Isqrt, TrueDiffs, Kept, SumOfDiffs;
    WithinRoot(Abs(x - center), Capped(TrueDiffs(window, center, |window|)), |window|);
  }

  lemma WithinRoot(d: nat, total: nat, n: nat)
    requires n > 0
    ensures d <= Isqrt(total / n) <==> n * (d * d) <= total
  {
    var r, q := Isqrt(total / n), total / n;
    assert r * r <= q < (r + 1) * (r + 1);
    assert d <= r <==> d * d <= q by {
      if d <= r {
        SquareMonotone(d, r);
      } else {
        SquareMonotone(r + 1, d);
      }
    }
    if d * d <= q {
      ProductMonotone(n, d * d, q);
      assert n * q <= total;
    } else {
      BelowAverageTimesCount(total, n, d * d);
    }
  }
}
