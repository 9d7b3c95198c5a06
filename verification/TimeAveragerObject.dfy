/** The averager object: samples enter and leave the window, the total follows, and
    the filtered average is cached until the next change. */
module TimeAveragerObject {
  import opened TimeAverager

  class ZGTimeAverager {
    const maxMeasurements: nat
    var measurements: seq<nat>
    var totalMicros: nat
    var lastMeasurementTime: nat
    var cachedAverageWithoutOutliers: nat

    /** The total never exceeds the window's sum, and a cached average is what
        computing it afresh would give. */
    ghost predicate Valid()
      reads this
    {
      && |measurements| <= maxMeasurements
      && totalMicros <= Sum(measurements)
      && (cachedAverageWithoutOutliers != NOT_CACHED ==>
            cachedAverageWithoutOutliers == Filtered(measurements, totalMicros))
    }

    constructor (maxMeasurements: nat)
      ensures Valid() && this.maxMeasurements == maxMeasurements && measurements == [] && totalMicros == 0
    {
      this.maxMeasurements := maxMeasurements;
      measurements, totalMicros, lastMeasurementTime, cachedAverageWithoutOutliers := [], 0, 0, NOT_CACHED;
    }

    method Clear()
      requires Valid()
      modifies this
      ensures Valid() && measurements == [] && totalMicros == 0 && lastMeasurementTime == 0
    {
      measurements, totalMicros, lastMeasurementTime, cachedAverageWithoutOutliers := [], 0, 0, NOT_CACHED;
    }

    method RemoveOldMeasurement()
      requires Valid()
      modifies this`measurements, this`totalMicros, this`cachedAverageWithoutOutliers
      ensures Valid()
      ensures measurements == if old(measurements) == [] then [] else old(measurements)[1..]
      ensures old(totalMicros) == Sum(old(measurements)) ==> totalMicros == Sum(measurements)
    {
      if measurements != [] {
        SumOfTail(measurements);
        var oldMeasurement := measurements[0];
        measurements := measurements[1..];
        totalMicros := if totalMicros > oldMeasurement then totalMicros - oldMeasurement else 0;
        cachedAverageWithoutOutliers := NOT_CACHED;
      }
    }

    method MakeRoom()
      requires Valid() && 0 < maxMeasurements
      modifies this`measurements, this`totalMicros, this`cachedAverageWithoutOutliers
      ensures Valid() && measurements == Latest(old(measurements), maxMeasurements - 1)
      ensures old(totalMicros) == Sum(old(measurements)) ==> totalMicros == Sum(measurements)
    {
      hide Filtered, Sum;
      ghost var was := measurements;
      ghost var dropped := 0;
      while |measurements| >= maxMeasurements
        invariant Valid() && dropped <= |was| && measurements == was[dropped..]
        invariant dropped > 0 ==> |measurements| >= maxMeasurements - 1
        invariant old(totalMicros) == Sum(was) ==> totalMicros == Sum(measurements)
        decreases |measurements|
      {
        RemoveOldMeasurement();
        dropped := dropped + 1;
      }
    }

    /** The window becomes its latest samples with the new one at the end; the total
        stays exact as long as it fits in 64 bits. */
    method AddMeasurement(newMeasurementMicros: nat, now: nat)
      requires Valid() && 0 < maxMeasurements
      modifies this
      ensures Valid() && lastMeasurementTime == now
      ensures measurements == Latest(old(measurements) + [newMeasurementMicros], maxMeasurements)
      ensures old(totalMicros) == Sum(old(measurements)) && Sum(measurements) <= UINT64_MAX ==> totalMicros == Sum(measurements)
    {
      hide Filtered, Latest;
      LatestSnoc(measurements, newMeasurementMicros, maxMeasurements);
      MakeRoom();
      assert (measurements + [newMeasurementMicros])[..|measurements|] == measurements;
      measurements := measurements + [newMeasurementMicros];
      totalMicros := SaturatingAdd(totalMicros, newMeasurementMicros);
      lastMeasurementTime := now;
      cachedAverageWithoutOutliers := NOT_CACHED;
    }

    /** The largest value that, taken for every sample, does not exceed the total;
        with an exact total it lies between the smallest and the largest sample. */
    method GetRawAverageValue() returns (r: nat)
      ensures measurements != [] ==> r * |measurements| <= totalMicros < (r + 1) * |measurements|
      ensures measurements != [] && totalMicros == Sum(measurements) ==>
                forall lo: nat, hi: nat :: Within(measurements, lo, hi) ==> lo <= r <= hi
      ensures measurements == [] ==> r == 0
      ensures r == RawAverage(measurements, totalMicros)
    {
      r := if measurements != [] then totalMicros / |measurements| else 0;
      if measurements != [] {
        QuotientTimes(totalMicros, |measurements|);
        if totalMicros == Sum(measurements) {
          forall lo: nat, hi: nat | Within(measurements, lo, hi)
            ensures lo <= r <= hi
          {
            RawBetween(measurements, lo, hi);
          }
        }
      }
    }

    method AccumulateDiffs(rawAverage: nat) returns (sumOfDiffs: nat)
      ensures sumOfDiffs == SumOfDiffs(measurements, rawAverage, |measurements|)
    {
      sumOfDiffs := 0;
      for i := 0 to |measurements|
        invariant sumOfDiffs == SumOfDiffs(measurements, rawAverage, i)
      {
        var diff := Abs(measurements[i] - rawAverage);
        sumOfDiffs := SaturatingAdd(sumOfDiffs, SaturatingMultiply(diff, diff));
      }
    }

    method FindMaxDelta(rawAverage: nat) returns (maxDelta: nat)
      requires measurements != []
      ensures maxDelta == MaxDelta(measurements, rawAverage)
    {
      hide SumOfDiffs;
      var sumOfDiffs := AccumulateDiffs(rawAverage);
      maxDelta := Isqrt(sumOfDiffs / |measurements|);
    }

    method AccumulateClose(rawAverage: nat, maxDelta: nat) returns (newSum: nat, newCount: nat)
      ensures (newSum, newCount) == Close(measurements, rawAverage, maxDelta, |measurements|)
    {
      newSum, newCount := 0, 0;
      for i := 0 to |measurements|
        invariant (newSum, newCount) == Close(measurements, rawAverage, maxDelta, i)
      {
        var m := measurements[i];
        if Abs(m - rawAverage) <= maxDelta {
          newSum, newCount := newSum + m, newCount + 1;
        }
      }
    }

    method GetAverageValueIgnoringOutliersAux() returns (r: nat)
      ensures r == Filtered(measurements, totalMicros)
    {
      hide MaxDelta, RawAverage, Close;
      if measurements == [] {
        return 0;
      }
      var rawAverage := GetRawAverageValue();
      var maxDelta := FindMaxDelta(rawAverage);
      var newSum, newCount := AccumulateClose(rawAverage, maxDelta);
      return if newCount > 0 then newSum / newCount else 0;
    }

    /** Cached or not, the value returned is the freshly computed one. */
    method GetAverageValueIgnoringOutliers() returns (r: nat)
      requires Valid()
      modifies this`cachedAverageWithoutOutliers
      ensures Valid() && r == Filtered(measurements, totalMicros)
    {
      if cachedAverageWithoutOutliers == NOT_CACHED {
        var computed := GetAverageValueIgnoringOutliersAux();
        cachedAverageWithoutOutliers := computed;
      }
      return cachedAverageWithoutOutliers;
    }
  }

  lemma QuotientTimes(total: nat, n: nat)
    requires n > 0
    ensures total / n * n <= total < (total / n + 1) * n
  {
    assert total == n * (total / n) + total % n;
  }

  /** The last `n` samples. */
  function Latest(samples: seq<nat>, n: nat): (r: seq<nat>)
    ensures |r| == if |samples| <= n then |samples| else n
    ensures forall i :: 0 <= i < |r| ==> r[i] == samples[|samples| - |r| + i]
  {
    if |samples| <= n then samples else samples[|samples| - n..]
  }

  lemma LatestSnoc(samples: seq<nat>, x: nat, n: nat)
    requires n > 0
    ensures Latest(samples, n - 1) + [x] == Latest(samples + [x], n)
  {
  }

  lemma {:induction false} SumOfTail(window: seq<nat>)
    requires window != []
    ensures Sum(window) == window[0] + Sum(window[1..])
  {
    if |window| > 1 {
      var n := |window| - 1;
      SumOfTail(window[..n]);
      assert window[1..][..n - 1] == window[..n][1..];
    }
  }
}
