/** The boid record and the container that owns the boids together with the
    rolling minimum/maximum neighbour-count statistic (`src/boid.hpp`). */
module Boids {
  import opened Geometry

  /** One boid. `id` is also its index in the container's array. */
  datatype Boid = Boid(position: Vec3, velocity: Vec3, acceleration: Vec3, id: int, countAround: real)

  /** Number of slots of the rolling statistic. */
  const HISTORY: int := 100

  /** A float that may hold the value INFINITY, which the engines store in
      `boidMinCount` before taking minima. */
  datatype Count = Finite(value: real) | Infinity

  function MinCount(v: real, c: Count): (r: Count)
    ensures r.Finite? && r.value <= v
    ensures c.Finite? ==> r.value <= c.value
    ensures r.value == v || r == c
  {
    if c.Infinity? || v < c.value then Finite(v) else c
  }

  /** Sum of the first `n` elements, accumulated from the front. */
  function SumTo(s: seq<real>, n: int): real
    requires 0 <= n <= |s|
    decreases n
  {
    if n == 0 then 0.0 else SumTo(s, n - 1) + s[n - 1]
  }

  function Sum(s: seq<real>): real {
    SumTo(s, |s|)
  }

  /** A prefix sum only looks at the prefix. */
  lemma {:induction false} SumToPrefix(a: seq<real>, b: seq<real>, n: int)
    requires 0 <= n <= |a|
    ensures SumTo(a + b, n) == SumTo(a, n)
  {
    if n > 0 {
      SumToPrefix(a, b, n - 1);
    }
  }

  lemma {:induction false} SumToConcat(a: seq<real>, b: seq<real>, m: int)
    requires 0 <= m <= |b|
    ensures SumTo(a + b, |a| + m) == Sum(a) + SumTo(b, m)
  {
    if m == 0 {
      SumToPrefix(a, b, |a|);
    } else {
      SumToConcat(a, b, m - 1);
    }
  }

  lemma SumConcat(a: seq<real>, b: seq<real>)
    ensures Sum(a + b) == Sum(a) + Sum(b)
  {
    SumToConcat(a, b, |b|);
  }

  lemma {:induction false} SumToUpdate(s: seq<real>, k: int, v: real, n: int)
    requires 0 <= k < |s| && 0 <= n <= |s|
    ensures n <= k ==> SumTo(s[k := v], n) == SumTo(s, n)
    ensures n > k ==> SumTo(s[k := v], n) == SumTo(s, n) - s[k] + v
  {
    if n > 0 {
      SumToUpdate(s, k, v, n - 1);
    }
  }

  /** Overwriting one element changes the sum by the difference. */
  lemma SumUpdate(s: seq<real>, k: int, v: real)
    requires 0 <= k < |s|
    ensures Sum(s[k := v]) == Sum(s) - s[k] + v
  {
    SumToUpdate(s, k, v, |s|);
  }

  function Zeros(): (r: seq<real>)
    ensures |r| == HISTORY
    ensures forall k :: 0 <= k < HISTORY ==> r[k] == 0.0
  {
    seq(HISTORY, _ => 0.0)
  }

  lemma {:induction false} SumToZeros(s: seq<real>, n: int)
    requires 0 <= n <= |s| && forall k :: 0 <= k < |s| ==> s[k] == 0.0
    ensures SumTo(s, n) == 0.0
  {
    if n > 0 {
      SumToZeros(s, n - 1);
    }
  }

  lemma SumZeros()
    ensures Sum(Zeros()) == 0.0
  {
    SumToZeros(Zeros(), HISTORY);
  }

  /** The content of the HISTORY slots after the first `n` inputs of `h`,
      in order, were written starting at slot 0 into initially zeroed slots. */
  function WindowTo(h: seq<real>, n: int): (r: seq<real>)
    requires 0 <= n <= |h|
    ensures |r| == HISTORY
    decreases n
  {
    if n == 0 then Zeros() else WindowTo(h, n - 1)[(n - 1) % HISTORY := h[n - 1]]
  }

  /** The slots after all of `h` was written. */
  function Window(h: seq<real>): (r: seq<real>)
    ensures |r| == HISTORY
  {
    WindowTo(h, |h|)
  }

  /** Advancing the slot index modulo HISTORY tracks the number of inputs. */
  lemma SlotSuccessor(n: int)
    requires n >= 0
    ensures (n % HISTORY + 1) % HISTORY == (n + 1) % HISTORY
  {
  }

  lemma {:induction false} WindowToPrefix(h: seq<real>, x: real, n: int)
    requires 0 <= n <= |h|
    ensures WindowTo(h + [x], n) == WindowTo(h, n)
  {
    if n > 0 {
      WindowToPrefix(h, x, n - 1);
      assert (h + [x])[n - 1] == h[n - 1];
    }
  }

  lemma WindowStep(h: seq<real>, x: real)
    ensures Window(h + [x]) == Window(h)[|h| % HISTORY := x]
  {
    WindowToPrefix(h, x, |h|);
    assert (h + [x])[|h|] == x;
  }

  /** Slot `j % HISTORY` holds input `j` for each of the last HISTORY inputs. */
  lemma {:induction false} WindowToSlot(h: seq<real>, n: int, j: int)
    requires 0 <= j < n <= |h| && n - HISTORY <= j
    ensures WindowTo(h, n)[j % HISTORY] == h[j]
  {
    if j < n - 1 {
      WindowToSlot(h, n - 1, j);
      assert (n - 1) % HISTORY != j % HISTORY;
    }
  }

  /** Slots that no input has reached yet still hold zero. */
  lemma {:induction false} WindowToUnwritten(h: seq<real>, n: int, k: int)
    requires 0 <= n <= |h| && n <= k < HISTORY
    ensures WindowTo(h, n)[k] == 0.0
  {
    if n > 0 {
      WindowToUnwritten(h, n - 1, k);
    }
  }

  /** Index of the oldest of the last HISTORY inputs (0 while fewer than
      HISTORY were written). */
  function Oldest(h: seq<real>): (r: int)
    ensures 0 <= r <= |h| && |h| - r <= HISTORY
    ensures |h| >= HISTORY ==> |h| - r == HISTORY
  {
    if |h| < HISTORY then 0 else |h| - HISTORY
  }

  /** Sum of the last `min(|h|, HISTORY)` inputs `h[Oldest(h)..]`. */
  function RecentSum(h: seq<real>): real {
    SumTo(h, |h|) - SumTo(h, Oldest(h))
  }

  lemma ModBack(n: int)
    requires n >= HISTORY
    ensures (n - HISTORY) % HISTORY == n % HISTORY
  {
  }

  /** Once HISTORY inputs are present, the slot the next input overwrites
      holds the input HISTORY steps back. */
  lemma WindowOldest(p: seq<real>)
    requires |p| >= HISTORY
    ensures Window(p)[|p| % HISTORY] == p[|p| - HISTORY]
  {
    WindowToSlot(p, |p|, |p| - HISTORY);
    ModBack(|p|);
  }

  /** While fewer than HISTORY inputs are present, the slot the next input
      overwrites still holds zero. */
  lemma WindowFresh(p: seq<real>)
    requires |p| < HISTORY
    ensures Window(p)[|p| % HISTORY] == 0.0
  {
    WindowToUnwritten(p, |p|, |p|);
  }

  /** One more input drops the oldest of the recent inputs once HISTORY of
      them are present. */
  lemma RecentStep(p: seq<real>, x: real)
    ensures RecentSum(p + [x]) == RecentSum(p) - (if |p| >= HISTORY then p[|p| - HISTORY] else 0.0) + x
  {
    var h := p + [x];
    SumToPrefix(p, [x], |p|);
    SumToPrefix(p, [x], Oldest(p));
    assert SumTo(h, |h|) == SumTo(p, |p|) + x;
    if |p| >= HISTORY {
      SumToPrefix(p, [x], Oldest(h));
      assert Oldest(h) == Oldest(p) + 1;
    }
  }

  /** The slots always sum to the sum of the last HISTORY inputs (fewer, when
      fewer have been written): this is what the two partial sums track. */
  lemma {:induction false} WindowSum(h: seq<real>)
    ensures Sum(Window(h)) == RecentSum(h)
    decreases |h|
  {
    if h == [] {
      SumZeros();
    } else {
      var p := h[..|h| - 1];
      var x := h[|h| - 1];
      assert h == p + [x];
      WindowStep(p, x);
      WindowSum(p);
      if |p| >= HISTORY {
        WindowOldest(p);
      } else {
        WindowFresh(p);
      }
      SumUpdate(Window(p), |p| % HISTORY, x);
      RecentStep(p, x);
    }
  }

  /** `BoidContainer`: the boids plus the rolling statistic. `mins`/`maxs`
      are the HISTORY slots, `statIdx` the next slot to overwrite. */
  class BoidContainer {
    const boids: array<Boid>
    const mins: array<real>
    const maxs: array<real>
    var partialSumMin: real
    var partialSumMax: real
    var statIdx: int
    var boidMaxCount: real
    var boidMinCount: Count

    /** All inputs ever passed to `updateStats`, oldest first. */
    ghost var minHistory: seq<real>
    ghost var maxHistory: seq<real>

    ghost predicate Valid()
      reads this`partialSumMin, this`partialSumMax, this`statIdx, this`minHistory, this`maxHistory, mins, maxs
    {
      && mins.Length == HISTORY && maxs.Length == HISTORY
      && mins != maxs
      && |minHistory| == |maxHistory|
      && statIdx == |minHistory| % HISTORY
      && mins[..] == Window(minHistory)
      && maxs[..] == Window(maxHistory)
      && partialSumMin == Sum(mins[..])
      && partialSumMax == Sum(maxs[..])
    }

    /** Zeroes every slot, both partial sums and the slot index. The boid
        array is the one the engine attaches right after construction. */
    constructor(boids: array<Boid>)
      ensures Valid()
      ensures this.boids == boids
      ensures minHistory == [] && maxHistory == []
      ensures statIdx == 0 && partialSumMin == 0.0 && partialSumMax == 0.0
      ensures forall k :: 0 <= k < HISTORY ==> mins[k] == 0.0 && maxs[k] == 0.0
    {
      this.boids := boids;
      var mn := new real[HISTORY];
      var mx := new real[HISTORY];
      var i := 0;
      while i < HISTORY
        invariant 0 <= i <= HISTORY
        invariant forall k :: 0 <= k < i ==> mn[k] == 0.0 && mx[k] == 0.0
      {
        mn[i], mx[i] := 0.0, 0.0;
        i := i + 1;
      }
      mins, maxs := mn, mx;
      statIdx := 0;
      partialSumMin, partialSumMax := 0.0, 0.0;
      boidMaxCount, boidMinCount := 0.0, Finite(0.0);
      minHistory, maxHistory := [], [];
      new;
      assert mins[..] == Zeros() && maxs[..] == Zeros();
      SumZeros();
    }

    /** `updateStats(minCount, maxCount)`: overwrite the oldest slot, adjust
        the partial sums in O(1) and publish their averages. */
    method UpdateStats(minCount: real, maxCount: real)
      requires Valid()
      modifies this`partialSumMin, this`partialSumMax, this`statIdx, this`boidMaxCount, this`boidMinCount
      modifies this`minHistory, this`maxHistory, mins, maxs
      ensures Valid()
      ensures mins[..] == old(mins[..])[old(statIdx) := minCount]
      ensures maxs[..] == old(maxs[..])[old(statIdx) := maxCount]
      ensures statIdx == (old(statIdx) + 1) % HISTORY
      ensures minHistory == old(minHistory) + [minCount]
      ensures maxHistory == old(maxHistory) + [maxCount]
      ensures partialSumMin == old(partialSumMin) - old(mins[statIdx]) + minCount
      ensures partialSumMax == old(partialSumMax) - old(maxs[statIdx]) + maxCount
      ensures boidMaxCount == partialSumMax / HISTORY as real
      ensures boidMinCount == Finite(partialSumMin / HISTORY as real)
      ensures boidMaxCount == RecentSum(maxHistory) / HISTORY as real
      ensures boidMinCount == Finite(RecentSum(minHistory) / HISTORY as real)
    {
      Store(minCount, maxCount);
      Publish();
    }

    /** The slot and partial-sum half of `updateStats`. */
    method Store(minCount: real, maxCount: real)
      requires Valid()
      modifies this`partialSumMin, this`partialSumMax, this`statIdx, this`minHistory, this`maxHistory, mins, maxs
      ensures Valid()
      ensures mins[..] == old(mins[..])[old(statIdx) := minCount]
      ensures maxs[..] == old(maxs[..])[old(statIdx) := maxCount]
      ensures statIdx == (old(statIdx) + 1) % HISTORY
      ensures minHistory == old(minHistory) + [minCount]
      ensures maxHistory == old(maxHistory) + [maxCount]
      ensures partialSumMin == old(partialSumMin) - old(mins[statIdx]) + minCount
      ensures partialSumMax == old(partialSumMax) - old(maxs[statIdx]) + maxCount
    {
      ghost var n := |minHistory|;
      ghost var hMin, hMax := minHistory, maxHistory;
      ghost var sMin, sMax := mins[..], maxs[..];
      SlotSuccessor(n);
      WindowStep(hMin, minCount);
      WindowStep(hMax, maxCount);
      SumUpdate(sMin, n % HISTORY, minCount);
      SumUpdate(sMax, n % HISTORY, maxCount);
      var oldMin, oldMax := mins[statIdx], maxs[statIdx];
      mins[statIdx] := minCount;
      assert mins[..] == sMin[n % HISTORY := minCount];
      maxs[statIdx] := maxCount;
      assert maxs[..] == sMax[n % HISTORY := maxCount];
      assert mins[..] == sMin[n % HISTORY := minCount];
      partialSumMin, partialSumMax := partialSumMin - oldMin, partialSumMax - oldMax;
      partialSumMin, partialSumMax := partialSumMin + minCount, partialSumMax + maxCount;
      statIdx := (statIdx + 1) % HISTORY;
      minHistory, maxHistory := hMin + [minCount], hMax + [maxCount];
      assert |minHistory| == n + 1 == |maxHistory|;
      assert mins[..] == Window(minHistory) && maxs[..] == Window(maxHistory);
    }

    /** The averaging half of `updateStats`: each average is a partial sum
        over HISTORY, i.e. the mean of the last HISTORY inputs with
        zeros standing in for inputs not yet written. */
    method Publish()
      requires Valid()
      modifies this`boidMaxCount, this`boidMinCount
      ensures boidMaxCount == partialSumMax / HISTORY as real
      ensures boidMinCount == Finite(partialSumMin / HISTORY as real)
      ensures boidMaxCount == RecentSum(maxHistory) / HISTORY as real
      ensures boidMinCount == Finite(RecentSum(minHistory) / HISTORY as real)
    {
      WindowSum(minHistory);
      WindowSum(maxHistory);
      boidMaxCount := partialSumMax / HISTORY as real;
      boidMinCount := Finite(partialSumMin / HISTORY as real);
    }
  }
}
