/** The host side of the GPU engines (`src/glcontext.cpp`): how many work
    groups are dispatched, the bitonic-sort dispatch schedule, the index
    buffer of the boid geometry and the number of tree nodes uploaded and
    drawn. Shaders and GL calls are represented by a log of dispatches. */
module Gpu {
  import opened Geometry
  import opened TreeNodes
  import opened Boids
  import opened Tree
  import opened Settings

  /** The compute programs the host dispatches. */
  datatype Program =
    | UpdateBoids
    | Reduce
    | NaiveFlock
    | SortPass(segmentSize: int, iteration: int)
    | Reindex
    | GridFlock

  /** One `glDispatchCompute(groups, 1, 1)` with the program in use. */
  datatype Dispatch = Dispatch(program: Program, groups: int)

  /** Primitives per boid in the instanced geometry. */
  const BASE := 4

  /** Invocations per work group, the minimum every implementation allows. */
  const INVOCATIONS := 1024

  const UINT32 := 0x1_0000_0000

  function Pow2(k: nat): (r: nat)
    ensures r >= 1
  {
    if k == 0 then 1 else 2 * Pow2(k - 1)
  }

  // ---------------------------------------------------------- arithmetic

  lemma {:induction false} PowAdd(a: nat, b: nat)
    ensures Pow2(a + b) == Pow2(a) * Pow2(b)
    decreases b
  {
    if b > 0 {
      PowAdd(a, b - 1);
      assert Pow2(a + b) == 2 * Pow2(a + b - 1);
    }
  }

  lemma NonNegativeMul(a: int, b: int)
    requires a >= 0 && b >= 0
    ensures a * b >= 0
  {
  }

  /** Division is determined by quotient and remainder. */
  lemma DivUnique(x: int, m: int, q: int, r: int)
    requires m > 0 && 0 <= r < m && x == m * q + r
    ensures x / m == q
  {
    var d, e := x / m, x % m;
    assert m * (q - d) == e - r;
    if q - d >= 1 {
      NonNegativeMul(m, q - d - 1);
      assert false;
    } else if q - d <= -1 {
      NonNegativeMul(m, d - q - 1);
      assert false;
    }
  }

  /** Exact division of a product. */
  lemma MulDiv(a: int, b: int)
    requires a >= 0 && b > 0
    ensures (a * b) / b == a
  {
    DivUnique(a * b, b, a, 0);
  }

  // -------------------------------------------------------------- groups

  /** `groups = max(boidCount / invocations, 1)`. */
  function Groups(boidCount: int, invocations: int): (g: int)
    requires boidCount >= 0 && invocations > 0
    ensures g >= 1
    ensures g == 1 || g == boidCount / invocations
  {
    if boidCount / invocations > 1 then boidCount / invocations else 1
  }

  /** For the boid counts the engines create, 2^n with n below 31, the
      dispatched groups give every boid an invocation, and exactly one each
      from 1024 boids on. */
  lemma GroupsCover(n: nat)
    requires n < 31
    ensures Groups(Pow2(n), INVOCATIONS) * INVOCATIONS >= Pow2(n)
    ensures n >= 10 ==> Groups(Pow2(n), INVOCATIONS) * INVOCATIONS == Pow2(n)
  {
    if n >= 10 {
      PowAdd(n - 10, 10);
      assert Pow2(10) == INVOCATIONS;
      MulDiv(Pow2(n - 10), INVOCATIONS);
    } else {
      PowMonotone(n, 10);
    }
  }

  lemma {:induction false} PowMonotone(a: nat, b: nat)
    requires a <= b
    ensures Pow2(a) <= Pow2(b)
    decreases b
  {
    if a < b {
      PowMonotone(a, b - 1);
    }
  }

  // ---------------------------------------------------- the sort schedule

  /** The independent block `seg / 2^it`, computed by halving. */
  function Block(seg: int, it: nat): int {
    if it == 0 then seg else Block(seg, it - 1) / 2
  }

  /** Halving a quotient is dividing by twice the divisor. */
  lemma DivHalf(x: int, p: int)
    requires x >= 0 && p > 0
    ensures (x / p) / 2 == x / (2 * p)
  {
    var q, r := x / p, x % p;
    var q2, r2 := q / 2, q % 2;
    assert x == p * q + r;
    assert p * q == (2 * p) * q2 + p * r2 by {
      assert q == 2 * q2 + r2;
    }
    NonNegativeMul(p, r2);
    NonNegativeMul(p, 1 - r2);
    DivUnique(x, 2 * p, q2, p * r2 + r);
  }

  /** Halving `it` times is the quotient the source computes. */
  lemma {:induction false} BlockIsQuotient(seg: int, it: nat)
    requires seg >= 0
    ensures Block(seg, it) == seg / Pow2(it)
  {
    if it > 0 {
      BlockIsQuotient(seg, it - 1);
      DivHalf(seg, Pow2(it - 1));
    }
  }

  /** The inner do-while of `computeShaderSortBoids` from `it` on: a pass
      is dispatched, then the loop goes on while the independent block
      still exceeds the invocations of one group. */
  function Passes(seg: int, it: nat, inv: int, groups: int): seq<Dispatch>
    requires inv >= 1
    decreases if Block(seg, it) > 0 then Block(seg, it) else 0
  {
    var pass := [Dispatch(SortPass(seg, it), groups)];
    if Block(seg, it) > inv then pass + Passes(seg, it + 1, inv, groups) else pass
  }

  /** The outer do-while from segment size `seg` on: the passes of `seg`,
      then the doubled size while it does not exceed `size`. */
  function Schedule(seg: int, size: int, inv: int, groups: int): seq<Dispatch>
    requires inv >= 1 && seg >= 1
    decreases size - seg
  {
    Passes(seg, 0, inv, groups) + (if 2 * seg <= size then Schedule(2 * seg, size, inv, groups) else [])
  }

  /** One outer step: after the passes of `seg` what is left is the
      schedule from the doubled size, or nothing once that exceeds `size`. */
  lemma ScheduleStep(before: seq<Dispatch>, seg: int, size: int, inv: int, groups: int)
    requires inv >= 1 && seg >= 1
    ensures 2 * seg <= size ==>
      before + Schedule(seg, size, inv, groups) == (before + Passes(seg, 0, inv, groups)) + Schedule(2 * seg, size, inv, groups)
    ensures 2 * seg > size ==> before + Schedule(seg, size, inv, groups) == before + Passes(seg, 0, inv, groups)
  {
    var p := Passes(seg, 0, inv, groups);
    if 2 * seg <= size {
      assert before + (p + Schedule(2 * seg, size, inv, groups)) == (before + p) + Schedule(2 * seg, size, inv, groups);
    } else {
      assert p + [] == p;
    }
  }

  /** A segment no larger than one group takes exactly one dispatch. */
  lemma SmallSegmentOnePass(seg: int, inv: int, groups: int)
    requires 1 <= seg <= inv
    ensures Passes(seg, 0, inv, groups) == [Dispatch(SortPass(seg, 0), groups)]
  {
  }

  /** The block of a segment `inv·2^k` after `it <= k` halvings. */
  lemma {:induction false} BlockOfPower(inv: int, k: nat, it: nat)
    requires inv >= 1 && it <= k
    ensures Block(inv * Pow2(k), it) == inv * Pow2(k - it)
  {
    if it > 0 {
      BlockOfPower(inv, k, it - 1);
      assert Pow2(k - it + 1) == 2 * Pow2(k - it);
      assert inv * Pow2(k - it + 1) == 2 * (inv * Pow2(k - it));
    }
  }

  /** A segment of `inv·2^k` takes `k + 1` dispatches, with iterations
      0 … k. */
  lemma {:induction false} LargeSegmentPasses(inv: int, k: nat, it: nat, groups: int)
    requires inv >= 1 && it <= k
    ensures |Passes(inv * Pow2(k), it, inv, groups)| == k - it + 1
    ensures forall j :: 0 <= j < k - it + 1 ==>
      Passes(inv * Pow2(k), it, inv, groups)[j] == Dispatch(SortPass(inv * Pow2(k), it + j), groups)
    decreases k - it
  {
    var seg := inv * Pow2(k);
    BlockOfPower(inv, k, it);
    if it < k {
      assert Pow2(k - it) == 2 * Pow2(k - it - 1);
      NonNegativeMul(inv, Pow2(k - it) - 2);
      assert Block(seg, it) > inv;
      LargeSegmentPasses(inv, k, it + 1, groups);
    } else {
      assert Block(seg, it) == inv;
    }
  }

  /** `seg` doubled `j` times. */
  function Doubled(seg: int, j: nat): int
    decreases j
  {
    if j == 0 then seg else Doubled(2 * seg, j - 1)
  }

  /** `n` is `seg` doubled some number of times. */
  ghost predicate IsDoubling(seg: int, n: int) {
    exists j: nat :: n == Doubled(seg, j)
  }

  /** Every dispatch of the schedule is a sort pass of the given groups
      whose segment is `seg` doubled some number of times, no larger than
      `size` unless it is the first. */
  lemma {:induction false} ScheduleSegments(seg: int, size: int, inv: int, groups: int)
    requires inv >= 1 && seg >= 1
    ensures forall d :: d in Schedule(seg, size, inv, groups) ==> d.groups == groups && d.program.SortPass?
    ensures forall d :: d in Schedule(seg, size, inv, groups) ==>
      d.program.SortPass? && (d.program.segmentSize == seg || seg < d.program.segmentSize <= size)
    ensures forall d :: d in Schedule(seg, size, inv, groups) ==>
      d.program.SortPass? && IsDoubling(seg, d.program.segmentSize)
    decreases size - seg
  {
    var here := Passes(seg, 0, inv, groups);
    PassesShape(seg, 0, inv, groups);
    assert forall d :: d in here ==> d.program.segmentSize == Doubled(seg, 0);
    if 2 * seg <= size {
      ScheduleSegments(2 * seg, size, inv, groups);
      var rest := Schedule(2 * seg, size, inv, groups);
      forall d | d in rest
        ensures IsDoubling(seg, d.program.segmentSize)
      {
        var j: nat :| d.program.segmentSize == Doubled(2 * seg, j);
        assert d.program.segmentSize == Doubled(seg, j + 1);
      }
      assert Schedule(seg, size, inv, groups) == here + rest;
      forall d | d in Schedule(seg, size, inv, groups)
        ensures d.groups == groups && d.program.SortPass?
        ensures d.program.segmentSize == seg || seg < d.program.segmentSize <= size
        ensures IsDoubling(seg, d.program.segmentSize)
      {
        if d in here {
          assert d.program.segmentSize == Doubled(seg, 0);
        } else {
          assert d in rest;
        }
      }
    } else {
      assert Schedule(seg, size, inv, groups) == here + [];
    }
  }

  /** The outer loop stops at the first segment whose double exceeds
      `size`: the last dispatch is of such a segment. */
  lemma {:induction false} ScheduleLast(seg: int, size: int, inv: int, groups: int)
    requires inv >= 1 && seg >= 1
    ensures var s := Schedule(seg, size, inv, groups);
      s != [] && s[|s| - 1].program.SortPass? && 2 * s[|s| - 1].program.segmentSize > size
    decreases size - seg
  {
    var here := Passes(seg, 0, inv, groups);
    PassesShape(seg, 0, inv, groups);
    if 2 * seg <= size {
      ScheduleLast(2 * seg, size, inv, groups);
      var rest := Schedule(2 * seg, size, inv, groups);
      assert Schedule(seg, size, inv, groups) == here + rest;
    } else {
      assert Schedule(seg, size, inv, groups) == here + [];
      assert here[|here| - 1] in here;
    }
  }

  /** The passes of one segment all carry that segment and the groups. */
  lemma {:induction false} PassesShape(seg: int, it: nat, inv: int, groups: int)
    requires inv >= 1
    ensures Passes(seg, it, inv, groups) != []
    ensures forall d :: d in Passes(seg, it, inv, groups) ==>
      d.groups == groups && d.program.SortPass? && d.program.segmentSize == seg
    decreases if Block(seg, it) > 0 then Block(seg, it) else 0
  {
    if Block(seg, it) > inv {
      PassesShape(seg, it + 1, inv, groups);
    }
  }

  // -------------------------------------------------------- index buffer

  /** Entry `j` of the index buffer: triangle `j / 3` is
      `(i, (i + 1) mod BASE, BASE)`. */
  function IndexEntry(j: int): int
    requires 0 <= j < 3 * BASE
  {
    var i := j / 3;
    if j % 3 == 0 then i else if j % 3 == 1 then (i + 1) % BASE else BASE
  }

  /** Every index names one of the `BASE + 1` vertices, and the three
      corners of each triangle are distinct. */
  lemma IndexEntriesBound(i: int)
    requires 0 <= i < BASE
    ensures forall j :: 3 * i <= j < 3 * i + 3 ==> 0 <= IndexEntry(j) <= BASE
    ensures IndexEntry(3 * i) != IndexEntry(3 * i + 1)
    ensures IndexEntry(3 * i + 1) != IndexEntry(3 * i + 2) && IndexEntry(3 * i) != IndexEntry(3 * i + 2)
  {
  }

  /** The `for` loop of `initBuffers` filling `indices`. */
  method InitIndices() returns (indices: array<int>)
    ensures fresh(indices) && indices.Length == 3 * BASE
    ensures forall j :: 0 <= j < 3 * BASE ==> indices[j] == IndexEntry(j)
  {
    indices := new int[3 * BASE];
    var i := 0;
    while i < BASE
      invariant 0 <= i <= BASE
      invariant forall j :: 0 <= j < 3 * i ==> indices[j] == IndexEntry(j)
    {
      indices[i * 3] := i;
      indices[i * 3 + 1] := (i + 1) % BASE;
      indices[i * 3 + 2] := BASE;
      i := i + 1;
    }
  }

  // ----------------------------------------------------------- the grid

  /** `uvec3` of a non-negative float vector: truncation. */
  function Unsigned(x: real): (r: int)
    requires x >= 0.0
    ensures r >= 0 && r as real <= x < r as real + 1.0
  {
    x.Floor
  }

  /** Entries of the grid offset buffer: `1 + gx·gy·gz` in 32-bit unsigned
      arithmetic. */
  function GridEntries(res: Vec3): (n: int)
    requires res.x >= 0.0 && res.y >= 0.0 && res.z >= 0.0
    ensures 0 <= n < UINT32
  {
    var cells := (Unsigned(res.x) * Unsigned(res.y) * Unsigned(res.z)) % UINT32;
    (1 + cells) % UINT32
  }

  /** Without wrap-around the buffer holds one entry per cell and one
      more. */
  lemma GridEntriesExact(res: Vec3)
    requires res.x >= 0.0 && res.y >= 0.0 && res.z >= 0.0
    requires Unsigned(res.x) * Unsigned(res.y) * Unsigned(res.z) < UINT32 - 1
    ensures GridEntries(res) == 1 + Unsigned(res.x) * Unsigned(res.y) * Unsigned(res.z)
  {
    var cells := Unsigned(res.x) * Unsigned(res.y) * Unsigned(res.z);
    assert cells >= 0 by {
      NonNegativeMul(Unsigned(res.x), Unsigned(res.y));
      NonNegativeMul(Unsigned(res.x) * Unsigned(res.y), Unsigned(res.z));
    }
  }

  /** `std::min` on the node counts. */
  function IntMin(a: int, b: int): (r: int)
    ensures r <= a && r <= b && (r == a || r == b)
  {
    if b < a then b else a
  }

  // ---------------------------------------------------------- the context

  /** `Context`, restricted to the state the host logic keeps. */
  class Context {
    const agents: BoidContainer
    var tree: OctalTreeContainer?
    const boidSize: real
    const treeMemoryLimit: int
    const darkMode: bool
    var treeNodeCount: int
    const invocations: int
    const groups: int
    const indices: array<int>
    const gridEntries: int
    /** Tree nodes copied into the box buffer by the last upload. */
    var uploaded: int
    /** Every compute dispatch issued so far, in order. */
    var dispatched: seq<Dispatch>

    /** The constructor with `initBuffers`: settings read from `env`, the
        boid count `1 << boidCount`, the group count and the buffers. */
    constructor(agents: BoidContainer, env: Environment)
      requires 0 <= env.GetInt(BOID_COUNT) < 31
      requires env.GetVec(GRID).x >= 0.0 && env.GetVec(GRID).y >= 0.0 && env.GetVec(GRID).z >= 0.0
      ensures this.agents == agents && tree == null
      ensures boidSize == env.GetFloat(BOID_SIZE) && treeMemoryLimit == env.GetInt(TREE_MEMORY_LIMIT)
      ensures darkMode == (env.GetInt(DARK) != 0)
      ensures invocations == INVOCATIONS && groups == Groups(Pow2(env.GetInt(BOID_COUNT)), INVOCATIONS)
      ensures groups >= 1
      ensures fresh(indices) && indices.Length == 3 * BASE
      ensures forall j :: 0 <= j < 3 * BASE ==> indices[j] == IndexEntry(j)
      ensures gridEntries == GridEntries(env.GetVec(GRID))
      ensures treeNodeCount == 0 && uploaded == 0 && dispatched == []
    {
      this.agents := agents;
      tree := null;
      boidSize := env.GetFloat(BOID_SIZE);
      treeMemoryLimit := env.GetInt(TREE_MEMORY_LIMIT);
      darkMode := env.GetInt(DARK) != 0;
      var boidCount := Pow2(env.GetInt(BOID_COUNT));
      invocations := INVOCATIONS;
      groups := Groups(boidCount, INVOCATIONS);
      var idx := InitIndices();
      indices := idx;
      gridEntries := GridEntries(env.GetVec(GRID));
      treeNodeCount := 0;
      uploaded := 0;
      dispatched := [];
    }

    /** `setupBox`: a single root box is uploaded for drawing. */
    method SetupBox()
      modifies this`treeNodeCount, this`uploaded
      ensures treeNodeCount == 1 && uploaded == 1
    {
      uploaded := 1;
      treeNodeCount := 1;
    }

    /** `setupGrid`: the single root box of `setupBox`; the grid resolution
        goes to the shaders as uniforms. */
    method SetupGrid()
      modifies this`treeNodeCount, this`uploaded
      ensures treeNodeCount == 1 && uploaded == 1
    {
      SetupBox();
    }

    /** `setupTree(tree)`: the tree engine attaches its tree. */
    method AttachTree(t: OctalTreeContainer)
      modifies this`tree
      ensures tree == t
    {
      tree := t;
    }

    /** `setupTree()`: with a tree attached, its live node count is read
        and at most `treeMemoryLimit` nodes are uploaded; without one
        nothing happens. */
    method SetupTree()
      requires tree != null ==> tree.Valid()
      modifies this`treeNodeCount, this`uploaded
      ensures tree == null ==> treeNodeCount == old(treeNodeCount) && uploaded == old(uploaded)
      ensures tree != null ==> treeNodeCount == tree.filled && uploaded == IntMin(treeMemoryLimit, tree.filled)
      ensures tree != null ==> uploaded <= treeMemoryLimit && uploaded <= tree.filled
    {
      if tree == null {
        return;
      }
      var nodes, count := tree.GetTrees();
      treeNodeCount := count;
      uploaded := IntMin(treeMemoryLimit, treeNodeCount);
    }

    /** `drawBoxes`: the number of boxes drawn, never more than were
        uploaded room for. */
    function DrawnBoxes(): (n: int)
      reads this`treeNodeCount
      ensures n <= treeMemoryLimit && n <= treeNodeCount
      ensures n == treeMemoryLimit || n == treeNodeCount
    {
      IntMin(treeMemoryLimit, treeNodeCount)
    }

    /** `computeShaderUpdateBoids`: the update program over all groups,
        one reduction group, then the reduced minimum and maximum (read
        back from the GPU, here parameters) go into the rolling statistic. */
    method ComputeShaderUpdateBoids(minCount: real, maxCount: real)
      requires agents.Valid()
      modifies this`dispatched, agents`partialSumMin, agents`partialSumMax, agents`statIdx
      modifies agents`boidMaxCount, agents`boidMinCount, agents`minHistory, agents`maxHistory
      modifies agents.mins, agents.maxs
      ensures dispatched == old(dispatched) + [Dispatch(UpdateBoids, groups), Dispatch(Reduce, 1)]
      ensures agents.Valid()
      ensures agents.minHistory == old(agents.minHistory) + [minCount]
      ensures agents.maxHistory == old(agents.maxHistory) + [maxCount]
      ensures agents.boidMaxCount == RecentSum(agents.maxHistory) / HISTORY as real
      ensures agents.boidMinCount == Finite(RecentSum(agents.minHistory) / HISTORY as real)
    {
      dispatched := dispatched + [Dispatch(UpdateBoids, groups)];
      dispatched := dispatched + [Dispatch(Reduce, 1)];
      agents.UpdateStats(minCount, maxCount);
    }

    /** `computeShaderNaiveFlock`. */
    method ComputeShaderNaiveFlock()
      modifies this`dispatched
      ensures dispatched == old(dispatched) + [Dispatch(NaiveFlock, groups)]
    {
      dispatched := dispatched + [Dispatch(NaiveFlock, groups)];
    }

    /** `computeShaderGridFlock`. */
    method ComputeShaderGridFlock()
      modifies this`dispatched
      ensures dispatched == old(dispatched) + [Dispatch(GridFlock, groups)]
    {
      dispatched := dispatched + [Dispatch(GridFlock, groups)];
    }

    /** `computeShaderSortBoids`: every sort pass of the bitonic schedule,
        then one reindex pass. The 32-bit `segmentSize` would wrap to 0
        after 2^31 and loop for ever, so the boid count stays below. */
    method ComputeShaderSortBoids()
      requires invocations >= 1 && agents.boids.Length < 0x8000_0000
      modifies this`dispatched
      ensures dispatched == old(dispatched) + Schedule(2, agents.boids.Length, invocations, groups)
        + [Dispatch(Reindex, groups)]
    {
      var size := agents.boids.Length;
      var segmentSize := 2;
      var more := true;
      while more
        invariant segmentSize >= 2 && (more ==> segmentSize == 2 || segmentSize <= size)
        invariant more ==>
          dispatched + Schedule(segmentSize, size, invocations, groups) == old(dispatched) + Schedule(2, size, invocations, groups)
        invariant !more ==> dispatched == old(dispatched) + Schedule(2, size, invocations, groups)
        decreases if more then 2 * size + 3 - segmentSize else 0
      {
        ghost var before := dispatched;
        SortSegment(segmentSize);
        ScheduleStep(before, segmentSize, size, invocations, groups);
        segmentSize := segmentSize * 2;
        more := segmentSize <= size;
      }
      dispatched := dispatched + [Dispatch(Reindex, groups)];
    }

    /** The inner do-while for one segment size. */
    method SortSegment(segmentSize: int)
      requires invocations >= 1 && segmentSize >= 1
      modifies this`dispatched
      ensures dispatched == old(dispatched) + Passes(segmentSize, 0, invocations, groups)
    {
      var iteration: nat := 0;
      var more := true;
      while more
        invariant more ==>
          dispatched + Passes(segmentSize, iteration, invocations, groups) == old(dispatched) + Passes(segmentSize, 0, invocations, groups)
        invariant !more ==> dispatched == old(dispatched) + Passes(segmentSize, 0, invocations, groups)
        decreases if more then (if Block(segmentSize, iteration) > 0 then Block(segmentSize, iteration) else 0) + 1 else 0
      {
        dispatched := dispatched + [Dispatch(SortPass(segmentSize, iteration), groups)];
        // `int32_t(pow(2, iteration))` is exact for these exponents
        var sizeOfIndependentBlock := segmentSize / Pow2(iteration);
        BlockIsQuotient(segmentSize, iteration);
        iteration := iteration + 1;
        more := sizeOfIndependentBlock > invocations;
      }
    }
  }

  /** The sort never dispatches the reindex program: the one reindex pass
      comes after all sort passes. */
  lemma ScheduleHasNoReindex(size: int, inv: int, groups: int)
    requires inv >= 1
    ensures forall d :: d in Schedule(2, size, inv, groups) ==> d.program.SortPass?
    ensures Dispatch(Reindex, groups) !in Schedule(2, size, inv, groups)
  {
    ScheduleSegments(2, size, inv, groups);
  }
}
