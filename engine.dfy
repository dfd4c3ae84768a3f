/** `SimulationEngine` (`src/engine.cpp`): the state every engine shares,
    the per-boid steps `updateBoid`, `flockInit`, `flockIndividual` and
    `flockApply`, and the value-level specification of one CPU frame. */
module Engine {
  import opened Geometry
  import opened Boids
  import opened TreeNodes
  import opened Flocking
  import opened Settings
  import opened Gpu

  // ------------------------------------------------------ neighbour loops

  /** The accumulator after the loop of `EngineCPUBasic::flock(me)` has
      looked at the first `n` boids: every boid with another id and a
      squared distance of at most `range2` went through `flockIndividual`. */
  function NaiveAcc(num: Numerics, me: Boid, bs: seq<Boid>, range2: real, n: int): Acc
    requires 0 <= n <= |bs|
  {
    if n == 0 then Initial
    else if bs[n - 1].id != me.id && Dist2(me.position, bs[n - 1].position) <= range2
    then Individual(num, NaiveAcc(num, me, bs, range2, n - 1), me, bs[n - 1])
    else NaiveAcc(num, me, bs, range2, n - 1)
  }

  /** The accumulator after the loop of `EngineCPUTree::flock(me)` has
      looked at the first `k` reported ids: every one but me's own went
      through `flockIndividual`. */
  function TreeAcc(num: Numerics, me: Boid, bs: seq<Boid>, ids: seq<int>, k: int): Acc
    requires Indices(ids, |bs|) && 0 <= k <= |ids|
  {
    if k == 0 then Initial
    else if bs[ids[k - 1]].id != me.id
    then Individual(num, TreeAcc(num, me, bs, ids, k - 1), me, bs[ids[k - 1]])
    else TreeAcc(num, me, bs, ids, k - 1)
  }

  /** The naive loop accumulates exactly over the naive neighbours, in
      array order. */
  lemma {:induction false} NaiveAccNeighbours(num: Numerics, me: Boid, bs: seq<Boid>, range2: real, n: int)
    requires 0 <= n <= |bs|
    ensures NaiveAcc(num, me, bs, range2, n) == Accumulate(num, me, bs, NaiveNeighbours(bs, me, range2, n))
  {
    if n > 0 {
      NaiveAccNeighbours(num, me, bs, range2, n - 1);
      var before := NaiveNeighbours(bs, me, range2, n - 1);
      assert Indices(before, |bs|);
      var near := bs[n - 1].id != me.id && Dist2(me.position, bs[n - 1].position) <= range2;
      if near {
        assert NaiveNeighbours(bs, me, range2, n) == before + [n - 1];
        AccumulateSnoc(num, me, bs, before, n - 1);
      } else {
        assert NaiveNeighbours(bs, me, range2, n) == before;
        assert NaiveAcc(num, me, bs, range2, n) == NaiveAcc(num, me, bs, range2, n - 1);
      }
    }
  }

  /** The tree loop accumulates exactly over the reported ids other than
      me's own, in the order the search reported them. */
  lemma {:induction false} TreeAccNeighbours(num: Numerics, me: Boid, bs: seq<Boid>, ids: seq<int>, k: int)
    requires Indices(ids, |bs|) && 0 <= k <= |ids|
    ensures TreeAcc(num, me, bs, ids, k) == Accumulate(num, me, bs, TreeNeighbours(bs, ids[..k], me))
  {
    if k > 0 {
      TreeAccNeighbours(num, me, bs, ids, k - 1);
      var seen := ids[..k];
      var last := ids[k - 1];
      assert seen[..k - 1] == ids[..k - 1] && seen[k - 1] == last;
      var before := TreeNeighbours(bs, ids[..k - 1], me);
      assert TreeNeighbours(bs, seen, me) == before + (if bs[last].id != me.id then [last] else []);
      if bs[last].id != me.id {
        AccumulateSnoc(num, me, bs, before, last);
      } else {
        assert before + [] == before;
      }
    }
  }

  // ------------------------------------------------------ frame framing

  /** Two boid arrays that agree on everything the flocking rules read of
      the other boids: positions, velocities and ids. */
  predicate SameMotion(bs: seq<Boid>, cs: seq<Boid>) {
    |bs| == |cs| &&
    forall j :: 0 <= j < |bs| ==>
      bs[j].position == cs[j].position && bs[j].velocity == cs[j].velocity && bs[j].id == cs[j].id
  }

  /** Replacing boid `i` by one with the same motion keeps the motion. */
  lemma SameMotionUpdate(bs: seq<Boid>, cs: seq<Boid>, i: int, b: Boid)
    requires SameMotion(bs, cs) && 0 <= i < |bs|
    requires b.position == cs[i].position && b.velocity == cs[i].velocity && b.id == cs[i].id
    ensures SameMotion(bs[i := b], cs)
  {
  }

  lemma SameMotionPositions(bs: seq<Boid>, cs: seq<Boid>)
    requires SameMotion(bs, cs)
    ensures SamePositions(bs, cs)
  {
  }

  /** The naive loop reads positions, velocities and ids only. */
  lemma {:induction false} NaiveAccSameMotion(num: Numerics, me: Boid, bs: seq<Boid>, cs: seq<Boid>, range2: real, n: int)
    requires SameMotion(bs, cs) && 0 <= n <= |bs|
    ensures NaiveAcc(num, me, bs, range2, n) == NaiveAcc(num, me, cs, range2, n)
  {
    if n > 0 {
      NaiveAccSameMotion(num, me, bs, cs, range2, n - 1);
    }
  }

  /** So does the tree loop. */
  lemma {:induction false} TreeAccSameMotion(num: Numerics, me: Boid, bs: seq<Boid>, cs: seq<Boid>, ids: seq<int>, k: int)
    requires SameMotion(bs, cs) && Indices(ids, |bs|) && 0 <= k <= |ids|
    ensures TreeAcc(num, me, bs, ids, k) == TreeAcc(num, me, cs, ids, k)
  {
    if k > 0 {
      TreeAccSameMotion(num, me, bs, cs, ids, k - 1);
    }
  }

  // ------------------------------------------------------- frame specs

  /** Every boid after `updateBoid`. */
  function MoveAll(bs: seq<Boid>, low: Vec3, d: Vec3): (r: seq<Boid>)
    requires Positive(d)
    ensures |r| == |bs|
  {
    seq(|bs|, i requires 0 <= i < |bs| => Moved(bs[i], low, d))
  }

  /** Boid `i` after `EngineCPUBasic::flock` over the moved boids `ms`. */
  function NaiveFlocked(num: Numerics, ms: seq<Boid>, i: int, range2: real, speedFactor: real, forceLimit: real): Boid
    requires 0 <= i < |ms|
  {
    Apply(num, NaiveAcc(num, ms[i], ms, range2, |ms|), ms[i], speedFactor, forceLimit)
  }

  /** Boid `i` after `EngineCPUTree::flock`: the loop runs over the ids the
      tree search around it reports. */
  function TreeFlocked(num: Numerics, nodes: seq<OctalTree>, domain: Box, ms: seq<Boid>, i: int,
                       rangeSqr: real, speedFactor: real, forceLimit: real): Boid
    requires Wf(nodes) && Placed(nodes, ms, domain) && 0 <= i < |ms|
  {
    var found := Query(nodes, ms, ms[i].position, rangeSqr, 0).found;
    FoundIndices(nodes, ms, domain, ms[i].position, rangeSqr);
    Apply(num, TreeAcc(num, ms[i], ms, found, |found|), ms[i], speedFactor, forceLimit)
  }

  /** The first `n` results of `step`, in order. */
  function Build(step: int --> Boid, n: int): (r: seq<Boid>)
    requires 0 <= n && forall j :: 0 <= j < n ==> step.requires(j)
    ensures |r| == n
  {
    if n == 0 then [] else Build(step, n - 1) + [step(n - 1)]
  }

  lemma {:induction false} BuildAt(step: int --> Boid, n: int, j: int)
    requires 0 <= j < n && forall k :: 0 <= k < n ==> step.requires(k)
    ensures Build(step, n)[j] == step(j)
  {
    if j < n - 1 {
      BuildAt(step, n - 1, j);
    }
  }

  /** The first `n` boids after a naive flocking pass over `ms`, built
      boid by boid. */
  function NaiveFrame(num: Numerics, ms: seq<Boid>, range2: real, speedFactor: real, forceLimit: real, n: int): (r: seq<Boid>)
    requires 0 <= n <= |ms|
    ensures |r| == n
  {
    if n == 0 then []
    else NaiveFrame(num, ms, range2, speedFactor, forceLimit, n - 1) + [NaiveFlocked(num, ms, n - 1, range2, speedFactor, forceLimit)]
  }

  lemma {:induction false} NaiveFrameBuild(num: Numerics, ms: seq<Boid>, range2: real, speedFactor: real, forceLimit: real, n: int)
    requires 0 <= n <= |ms|
    ensures NaiveFrame(num, ms, range2, speedFactor, forceLimit, n)
         == Build(j requires 0 <= j < |ms| => NaiveFlocked(num, ms, j, range2, speedFactor, forceLimit), n)
  {
    if n > 0 {
      NaiveFrameBuild(num, ms, range2, speedFactor, forceLimit, n - 1);
    }
  }

  /** Boid `j` of the naive frame is boid `j` flocked over `ms`. */
  lemma NaiveFrameAt(num: Numerics, ms: seq<Boid>, range2: real, speedFactor: real, forceLimit: real, n: int, j: int)
    requires 0 <= j < n <= |ms|
    ensures NaiveFrame(num, ms, range2, speedFactor, forceLimit, n)[j] == NaiveFlocked(num, ms, j, range2, speedFactor, forceLimit)
  {
    NaiveFrameBuild(num, ms, range2, speedFactor, forceLimit, n);
    BuildAt(j requires 0 <= j < |ms| => NaiveFlocked(num, ms, j, range2, speedFactor, forceLimit), n, j);
  }

  /** Part way through the naive pass the array agrees with `ms` on every
      position, velocity and id. */
  lemma NaiveFramePartial(num: Numerics, ms: seq<Boid>, range2: real, speedFactor: real, forceLimit: real, i: int)
    requires 0 <= i <= |ms|
    ensures SameMotion(NaiveFrame(num, ms, range2, speedFactor, forceLimit, |ms|)[..i] + ms[i..], ms)
  {
    var frame := NaiveFrame(num, ms, range2, speedFactor, forceLimit, |ms|);
    var bs := frame[..i] + ms[i..];
    forall j | 0 <= j < |bs|
      ensures bs[j].position == ms[j].position && bs[j].velocity == ms[j].velocity && bs[j].id == ms[j].id
    {
      if j < i {
        NaiveFrameAt(num, ms, range2, speedFactor, forceLimit, |ms|, j);
        NaiveFlockedMotion(num, ms, j, range2, speedFactor, forceLimit);
      }
    }
  }

  /** Before a pass the array is the untouched `ms`; after it, the frame. */
  lemma PassEnds(frame: seq<Boid>, ms: seq<Boid>)
    requires |frame| == |ms|
    ensures frame[..0] + ms[0..] == ms && frame[..|ms|] + ms[|ms|..] == frame
  {
    assert frame[..0] + ms[0..] == ms;
    assert frame[..|ms|] + ms[|ms|..] == frame;
  }

  /** Flocking boid `i` moves the boundary between the flocked prefix and
      the untouched rest by one. */
  lemma FrameStep(frame: seq<Boid>, ms: seq<Boid>, i: int)
    requires |frame| == |ms| && 0 <= i < |ms|
    ensures (frame[..i] + ms[i..])[i := frame[i]] == frame[..i + 1] + ms[i + 1..]
    ensures (frame[..i] + ms[i..])[i] == ms[i]
  {
    var bs := (frame[..i] + ms[i..])[i := frame[i]];
    var cs := frame[..i + 1] + ms[i + 1..];
    assert |bs| == |cs|;
    forall j | 0 <= j < |bs|
      ensures bs[j] == cs[j]
    {
    }
  }

  /** The first `n` boids after a tree flocking pass over `ms`. */
  function TreeFrame(num: Numerics, nodes: seq<OctalTree>, domain: Box, ms: seq<Boid>,
                     rangeSqr: real, speedFactor: real, forceLimit: real, n: int): (r: seq<Boid>)
    requires Wf(nodes) && Placed(nodes, ms, domain) && 0 <= n <= |ms|
    ensures |r| == n
  {
    if n == 0 then []
    else
      var prefix := TreeFrame(num, nodes, domain, ms, rangeSqr, speedFactor, forceLimit, n - 1);
      prefix + [TreeFlocked(num, nodes, domain, ms, n - 1, rangeSqr, speedFactor, forceLimit)]
  }

  lemma {:induction false} TreeFrameBuild(num: Numerics, nodes: seq<OctalTree>, domain: Box, ms: seq<Boid>,
                                          rangeSqr: real, speedFactor: real, forceLimit: real, n: int)
    requires Wf(nodes) && Placed(nodes, ms, domain) && 0 <= n <= |ms|
    ensures TreeFrame(num, nodes, domain, ms, rangeSqr, speedFactor, forceLimit, n)
         == Build(j requires 0 <= j < |ms| && Wf(nodes) && Placed(nodes, ms, domain) =>
                    TreeFlocked(num, nodes, domain, ms, j, rangeSqr, speedFactor, forceLimit), n)
  {
    if n > 0 {
      TreeFrameBuild(num, nodes, domain, ms, rangeSqr, speedFactor, forceLimit, n - 1);
    }
  }

  /** Boid `j` of the tree frame is boid `j` flocked over `ms`. */
  lemma TreeFrameAt(num: Numerics, nodes: seq<OctalTree>, domain: Box, ms: seq<Boid>,
                    rangeSqr: real, speedFactor: real, forceLimit: real, n: int, j: int)
    requires Wf(nodes) && Placed(nodes, ms, domain) && 0 <= j < n <= |ms|
    ensures TreeFrame(num, nodes, domain, ms, rangeSqr, speedFactor, forceLimit, n)[j]
         == TreeFlocked(num, nodes, domain, ms, j, rangeSqr, speedFactor, forceLimit)
  {
    TreeFrameBuild(num, nodes, domain, ms, rangeSqr, speedFactor, forceLimit, n);
    BuildAt(j requires 0 <= j < |ms| && Wf(nodes) && Placed(nodes, ms, domain) =>
              TreeFlocked(num, nodes, domain, ms, j, rangeSqr, speedFactor, forceLimit), n, j);
  }

  /** Flocking only writes the acceleration and the count. */
  lemma NaiveFlockedMotion(num: Numerics, ms: seq<Boid>, i: int, range2: real, speedFactor: real, forceLimit: real)
    requires 0 <= i < |ms|
    ensures var r := NaiveFlocked(num, ms, i, range2, speedFactor, forceLimit);
      r.position == ms[i].position && r.velocity == ms[i].velocity && r.id == ms[i].id
  {
  }

  lemma TreeFlockedMotion(num: Numerics, nodes: seq<OctalTree>, domain: Box, ms: seq<Boid>, i: int,
                          rangeSqr: real, speedFactor: real, forceLimit: real)
    requires Wf(nodes) && Placed(nodes, ms, domain) && 0 <= i < |ms|
    ensures var r := TreeFlocked(num, nodes, domain, ms, i, rangeSqr, speedFactor, forceLimit);
      r.position == ms[i].position && r.velocity == ms[i].velocity && r.id == ms[i].id
  {
  }

  /** Flocking boid `i` inside the pass, over an array whose earlier boids
      already carry their new acceleration and count, gives the same boid as
      flocking it over the moved array. */
  lemma NaiveFlockedSameMotion(num: Numerics, bs: seq<Boid>, cs: seq<Boid>, i: int,
                               range2: real, speedFactor: real, forceLimit: real)
    requires SameMotion(bs, cs) && 0 <= i < |bs| && bs[i] == cs[i]
    ensures NaiveFlocked(num, bs, i, range2, speedFactor, forceLimit) == NaiveFlocked(num, cs, i, range2, speedFactor, forceLimit)
  {
    NaiveAccSameMotion(num, bs[i], bs, cs, range2, |bs|);
  }

  /** The same for the tree pass: the search reads positions only. */
  lemma TreeFlockedSameMotion(num: Numerics, nodes: seq<OctalTree>, domain: Box, bs: seq<Boid>, cs: seq<Boid>, i: int,
                              rangeSqr: real, speedFactor: real, forceLimit: real)
    requires Wf(nodes) && Placed(nodes, cs, domain)
    requires SameMotion(bs, cs) && 0 <= i < |bs| && bs[i] == cs[i]
    ensures Placed(nodes, bs, domain)
    ensures TreeFlocked(num, nodes, domain, bs, i, rangeSqr, speedFactor, forceLimit)
         == TreeFlocked(num, nodes, domain, cs, i, rangeSqr, speedFactor, forceLimit)
  {
    SameMotionPositions(cs, bs);
    PlacedSamePositions(nodes, cs, bs, domain);
    QuerySamePositions(nodes, bs, cs, bs[i].position, rangeSqr, 0);
    var found := Query(nodes, cs, cs[i].position, rangeSqr, 0).found;
    FoundIndices(nodes, cs, domain, cs[i].position, rangeSqr);
    TreeAccSameMotion(num, bs[i], bs, cs, found, |found|);
  }

  /** A naive-flocked boid flocks with exactly its naive neighbours: its
      count is at most their number, and with none at all its acceleration
      is untouched. */
  lemma NaiveFlockedCount(num: Numerics, ms: seq<Boid>, i: int, range2: real, speedFactor: real, forceLimit: real)
    requires 0 <= i < |ms|
    ensures NaiveFlocked(num, ms, i, range2, speedFactor, forceLimit)
         == Apply(num, Accumulate(num, ms[i], ms, NaiveNeighbours(ms, ms[i], range2, |ms|)), ms[i], speedFactor, forceLimit)
    ensures var r := NaiveFlocked(num, ms, i, range2, speedFactor, forceLimit);
      && 0.0 <= r.countAround <= |NaiveNeighbours(ms, ms[i], range2, |ms|)| as real
      && (NaiveNeighbours(ms, ms[i], range2, |ms|) == [] ==> r.acceleration == ms[i].acceleration)
  {
    var idxs := NaiveNeighbours(ms, ms[i], range2, |ms|);
    NaiveAccNeighbours(num, ms[i], ms, range2, |ms|);
    AccumulateCounts(num, ms[i], ms, idxs);
    ApplyEffect(num, Accumulate(num, ms[i], ms, idxs), ms[i], speedFactor, forceLimit);
  }

  /** A tree-flocked boid flocks with exactly the reported ids other than
      its own. */
  lemma TreeFlockedCount(num: Numerics, nodes: seq<OctalTree>, domain: Box, ms: seq<Boid>, i: int,
                         rangeSqr: real, speedFactor: real, forceLimit: real)
    requires Wf(nodes) && Placed(nodes, ms, domain) && 0 <= i < |ms|
    ensures Indices(Query(nodes, ms, ms[i].position, rangeSqr, 0).found, |ms|)
    ensures TreeFlocked(num, nodes, domain, ms, i, rangeSqr, speedFactor, forceLimit)
         == Apply(num, Accumulate(num, ms[i], ms, TreeNeighbours(ms, Query(nodes, ms, ms[i].position, rangeSqr, 0).found, ms[i])),
                  ms[i], speedFactor, forceLimit)
    ensures var r := TreeFlocked(num, nodes, domain, ms, i, rangeSqr, speedFactor, forceLimit);
      0.0 <= r.countAround <= |TreeNeighbours(ms, Query(nodes, ms, ms[i].position, rangeSqr, 0).found, ms[i])| as real
  {
    var found := Query(nodes, ms, ms[i].position, rangeSqr, 0).found;
    FoundIndices(nodes, ms, domain, ms[i].position, rangeSqr);
    TreeAccNeighbours(num, ms[i], ms, found, |found|);
    assert found[..|found|] == found;
    var idxs := TreeNeighbours(ms, found, ms[i]);
    AccumulateCounts(num, ms[i], ms, idxs);
    ApplyEffect(num, Accumulate(num, ms[i], ms, idxs), ms[i], speedFactor, forceLimit);
  }

  /** `max((float) viewCount, boidMaxCount)`. */
  function MaxStep(v: real, acc: real): (r: real)
    ensures r >= v && r >= acc && (r == v || r == acc)
  {
    if v < acc then acc else v
  }

  /** The statistics after the first `n` boids were flocked from the reset
      values 0 and infinity. */
  function MaxAround(bs: seq<Boid>, n: int): real
    requires 0 <= n <= |bs|
  {
    if n == 0 then 0.0 else MaxStep(bs[n - 1].countAround, MaxAround(bs, n - 1))
  }

  function MinAround(bs: seq<Boid>, n: int): Count
    requires 0 <= n <= |bs|
  {
    if n == 0 then Infinity else MinCount(bs[n - 1].countAround, MinAround(bs, n - 1))
  }

  /** Part way through the tree pass the array agrees with `ms` on every
      position, velocity and id. */
  lemma TreeFramePartial(num: Numerics, nodes: seq<OctalTree>, domain: Box, ms: seq<Boid>,
                         rangeSqr: real, speedFactor: real, forceLimit: real, i: int)
    requires Wf(nodes) && Placed(nodes, ms, domain) && 0 <= i <= |ms|
    ensures SameMotion(TreeFrame(num, nodes, domain, ms, rangeSqr, speedFactor, forceLimit, |ms|)[..i] + ms[i..], ms)
  {
    var frame := TreeFrame(num, nodes, domain, ms, rangeSqr, speedFactor, forceLimit, |ms|);
    var bs := frame[..i] + ms[i..];
    forall j | 0 <= j < |bs|
      ensures bs[j].position == ms[j].position && bs[j].velocity == ms[j].velocity && bs[j].id == ms[j].id
    {
      if j < i {
        TreeFrameAt(num, nodes, domain, ms, rangeSqr, speedFactor, forceLimit, |ms|, j);
        TreeFlockedMotion(num, nodes, domain, ms, j, rangeSqr, speedFactor, forceLimit);
      }
    }
  }

  /** One turn of the tree pass: with the boids before `i` already
      flocked, boid `i` is where it was in `ms`, the search around it
      reports the same ids, and flocking it extends the flocked prefix by
      one. */
  lemma TreeStep(num: Numerics, nodes: seq<OctalTree>, domain: Box, ms: seq<Boid>,
                 rangeSqr: real, speedFactor: real, forceLimit: real, i: int)
    requires Wf(nodes) && Placed(nodes, ms, domain) && 0 <= i < |ms|
    ensures var frame := TreeFrame(num, nodes, domain, ms, rangeSqr, speedFactor, forceLimit, |ms|);
      var cur := frame[..i] + ms[i..];
      && Placed(nodes, cur, domain) && cur[i] == ms[i]
      && Query(nodes, cur, ms[i].position, rangeSqr, 0) == Query(nodes, ms, ms[i].position, rangeSqr, 0)
      && TreeFlocked(num, nodes, domain, cur, i, rangeSqr, speedFactor, forceLimit) == frame[i]
      && cur[i := frame[i]] == frame[..i + 1] + ms[i + 1..]
  {
    var frame := TreeFrame(num, nodes, domain, ms, rangeSqr, speedFactor, forceLimit, |ms|);
    var cur := frame[..i] + ms[i..];
    TreeFramePartial(num, nodes, domain, ms, rangeSqr, speedFactor, forceLimit, i);
    FrameStep(frame, ms, i);
    TreeFlockedSameMotion(num, nodes, domain, cur, ms, i, rangeSqr, speedFactor, forceLimit);
    TreeFrameAt(num, nodes, domain, ms, rangeSqr, speedFactor, forceLimit, |ms|, i);
    SameMotionPositions(cur, ms);
    QuerySamePositions(nodes, cur, ms, ms[i].position, rangeSqr, 0);
  }

  /** After a CPU frame every boid's count lies between the two
      statistics, the maximum is one of the counts or 0, and the minimum is
      one of the counts once a boid exists. */
  lemma {:induction false} AroundBounds(bs: seq<Boid>, n: int)
    requires 0 <= n <= |bs|
    ensures MaxAround(bs, n) >= 0.0
    ensures forall j :: 0 <= j < n ==> bs[j].countAround <= MaxAround(bs, n)
    ensures forall j :: 0 <= j < n ==> MinAround(bs, n).Finite? && MinAround(bs, n).value <= bs[j].countAround
    ensures MaxAround(bs, n) == 0.0 || exists j :: 0 <= j < n && MaxAround(bs, n) == bs[j].countAround
    ensures n > 0 ==> exists j :: 0 <= j < n && MinAround(bs, n) == Finite(bs[j].countAround)
  {
    if n > 0 {
      AroundBounds(bs, n - 1);
      if MaxAround(bs, n) != 0.0 && MaxAround(bs, n) != bs[n - 1].countAround {
        assert MaxAround(bs, n) == MaxAround(bs, n - 1);
      }
      if MinAround(bs, n) != Finite(bs[n - 1].countAround) {
        assert MinAround(bs, n) == MinAround(bs, n - 1);
      }
    }
  }

  // ------------------------------------------------------------- engine

  /** Boid `i` as the constructor draws it: at rest, counting no one, its
      drawn velocity normalised, its id its index. */
  function Spawned(num: Numerics, position: Vec3, velocity: Vec3, i: int): (b: Boid)
    ensures b.position == position && b.id == i && b.acceleration == Zero && b.countAround == 0.0
    ensures InverseSqrt(num.rsqrt) && velocity != Zero ==> Len2(b.velocity) == 1.0
  {
    Boid(position, Normalize(num.rsqrt, velocity), Zero, i, 0.0)
  }

  class SimulationEngine {
    const env: Environment
    const agents: BoidContainer
    const context: Context
    const low: Vec3
    const high: Vec3
    const diagonal: Vec3
    const boidCount: int
    const range: real
    const range2: real
    const speedFactor: real
    const forceLimit: real
    /** The float operations of glm, fixed for the run. */
    const num: Numerics

    var align: Vec3
    var cohesion: Vec3
    var separation: Vec3
    var view: seq<Rotation>
    var alignCount: nat
    var cohesCount: nat
    var separCount: nat
    var viewCount: nat

    /** Cleared by the pause key; every `update` does nothing while it is. */
    var run: bool

    function Accumulated(): Acc
      reads this`align, this`cohesion, this`separation, this`view
      reads this`alignCount, this`cohesCount, this`separCount, this`viewCount
    {
      Acc(align, cohesion, separation, view, alignCount, cohesCount, separCount, viewCount)
    }

    ghost predicate Valid()
      reads agents`partialSumMin, agents`partialSumMax, agents`statIdx
      reads agents`minHistory, agents`maxHistory, agents.mins, agents.maxs
    {
      && agents.Valid()
      && agents.boids.Length == boidCount
      && context.agents == agents
      && diagonal == Sub(high, low)
      && range2 == Sq(range)
    }

    /** `SimulationEngine(env)`: the space and flocking constants from the
        settings, `1 << boidCount` boids with the random draws given as
        `positions` and `velocities` (normalised), ids equal to indices,
        the boid container and the GPU context. The accumulators start out
        as `flockInit` leaves them. */
    constructor(env: Environment, num: Numerics, positions: seq<Vec3>, velocities: seq<Vec3>)
      requires 0 <= env.GetInt(BOID_COUNT) < 31
      requires env.GetVec(GRID).x >= 0.0 && env.GetVec(GRID).y >= 0.0 && env.GetVec(GRID).z >= 0.0
      requires |positions| == Pow2(env.GetInt(BOID_COUNT)) && |velocities| == |positions|
      ensures Valid() && run
      ensures this.env == env && this.num == num
      ensures low == env.GetVec(SPACE_LOW) && high == env.GetVec(SPACE_HIGH)
      ensures boidCount == Pow2(env.GetInt(BOID_COUNT)) == |positions|
      ensures range == env.GetFloat(FLOCKING_ZONE)
      ensures speedFactor == env.GetFloat(SPEED_FACTOR) && forceLimit == env.GetFloat(FORCE_LIMIT)
      ensures fresh(agents) && fresh(agents.boids) && fresh(context)
      ensures context.tree == null && context.dispatched == [] && context.treeNodeCount == 0
      ensures context.invocations == INVOCATIONS && context.groups == Groups(boidCount, INVOCATIONS)
      ensures forall i :: 0 <= i < boidCount ==>
        agents.boids[i] == Spawned(num, positions[i], velocities[i], i)
      ensures Accumulated() == Initial
    {
      this.env := env;
      this.num := num;
      low := env.GetVec(SPACE_LOW);
      high := env.GetVec(SPACE_HIGH);
      diagonal := Sub(env.GetVec(SPACE_HIGH), env.GetVec(SPACE_LOW));
      var count := Pow2(env.GetInt(BOID_COUNT));
      boidCount := count;
      var zone := env.GetFloat(FLOCKING_ZONE);
      range := zone;
      range2 := Sq(zone);
      speedFactor := env.GetFloat(SPEED_FACTOR);
      forceLimit := env.GetFloat(FORCE_LIMIT);
      var container := InitAgents(num, positions, velocities);
      agents := container;
      var ctx := new Context(container, env);
      context := ctx;
      align, cohesion, separation, view := Zero, Zero, Zero, [];
      alignCount, cohesCount, separCount, viewCount := 0, 0, 0, 0;
      run := true;
    }

    /** The boid container over the drawn boids. */
    static method InitAgents(num: Numerics, positions: seq<Vec3>, velocities: seq<Vec3>) returns (agents: BoidContainer)
      requires |velocities| == |positions|
      ensures fresh(agents) && fresh(agents.boids) && agents.Valid()
      ensures agents.boids.Length == |positions|
      ensures forall i :: 0 <= i < agents.boids.Length ==>
        agents.boids[i] == Spawned(num, positions[i], velocities[i], i)
    {
      var boids := InitBoids(num, positions, velocities);
      agents := new BoidContainer(boids);
    }

    /** The boid loop of the constructor: the random draws are the
        parameters, each velocity is normalised, the id is the index. */
    static method InitBoids(num: Numerics, positions: seq<Vec3>, velocities: seq<Vec3>) returns (boids: array<Boid>)
      requires |velocities| == |positions|
      ensures fresh(boids) && boids.Length == |positions|
      ensures forall i :: 0 <= i < boids.Length ==>
        boids[i] == Spawned(num, positions[i], velocities[i], i)
    {
      boids := new Boid[|positions|];
      var i := 0;
      while i < |positions|
        invariant 0 <= i <= |positions|
        invariant forall j :: 0 <= j < i ==>
          boids[j] == Spawned(num, positions[j], velocities[j], j)
      {
        boids[i] := Spawned(num, positions[i], velocities[i], i);
        i := i + 1;
      }
    }

    /** `updateBoid(agents->boids[i])`. */
    method UpdateBoid(i: int)
      requires 0 <= i < agents.boids.Length && Positive(diagonal)
      modifies agents.boids
      ensures agents.boids[..] == old(agents.boids[..])[i := Moved(old(agents.boids[i]), low, diagonal)]
    {
      var me := agents.boids[i];
      var p := Add(me.position, me.velocity);
      var position := Vec3(Wrap(p.x, low.x, diagonal.x), Wrap(p.y, low.y, diagonal.y), Wrap(p.z, low.z, diagonal.z));
      agents.boids[i] := me.(position := position, velocity := Add(me.velocity, me.acceleration), acceleration := Zero);
    }

    /** `flockInit()`. */
    method FlockInit()
      modifies this`align, this`cohesion, this`separation, this`view
      modifies this`alignCount, this`cohesCount, this`separCount, this`viewCount
      ensures Accumulated() == Initial
    {
      align, cohesion, separation := Zero, Zero, Zero;
      view := [];
      alignCount, cohesCount, separCount, viewCount := 0, 0, 0, 0;
    }

    /** `flockIndividual(me, other)`. */
    method FlockIndividual(me: Boid, other: Boid)
      modifies this`align, this`cohesion, this`separation, this`view
      modifies this`alignCount, this`cohesCount, this`separCount, this`viewCount
      ensures Accumulated() == Individual(num, old(Accumulated()), me, other)
    {
      var dist := num.length(Sub(me.position, other.position));
      align, alignCount := Add(align, other.velocity), alignCount + 1;
      cohesion, cohesCount := Add(cohesion, other.position), cohesCount + 1;
      separation, separCount := Add(separation, Divide(num, Sub(me.position, other.position), dist)), separCount + 1;
      var tmp := Sub(other.position, me.position);
      var ang := num.angle(me.velocity, tmp);
      if ang < 1.0 {
        view := view + [Rotation(-ang * ANGLEDELTA, Cross(me.velocity, tmp))];
        viewCount := viewCount + 1;
      }
    }

    /** The four `if` branches of `flockApply`: each rule with a
        neighbour behind it is added to the acceleration. */
    method Acceleration(me: Boid) returns (acc: Vec3)
      ensures acc == Apply(num, Accumulated(), me, speedFactor, forceLimit).acceleration
    {
      var a := Accumulated();
      acc := me.acceleration;
      if alignCount > 0 {
        acc := Add(acc, AlignRule(num, a, me, speedFactor, forceLimit));
      }
      assert acc == Add(me.acceleration, AlignRule(num, a, me, speedFactor, forceLimit));
      ghost var sum := acc;
      if cohesCount > 0 {
        acc := Add(acc, CohesionRule(num, a, me, speedFactor, forceLimit));
      }
      assert acc == Add(sum, CohesionRule(num, a, me, speedFactor, forceLimit));
      sum := acc;
      if separCount > 0 {
        acc := Add(acc, SeparationRule(num, a, me, speedFactor, forceLimit));
      }
      assert acc == Add(sum, SeparationRule(num, a, me, speedFactor, forceLimit));
      sum := acc;
      if viewCount > 0 {
        acc := Add(acc, ViewRule(num, a, me, speedFactor, forceLimit));
      }
      assert acc == Add(sum, ViewRule(num, a, me, speedFactor, forceLimit));
    }

    /** `flockApply(agents->boids[m])`: the four rules into the boid's
        acceleration, its count, and both running statistics. */
    method FlockApply(m: int)
      requires 0 <= m < agents.boids.Length
      modifies agents.boids, agents`boidMaxCount, agents`boidMinCount
      ensures agents.boids[..] == old(agents.boids[..])[m := Apply(num, Accumulated(), old(agents.boids[m]), speedFactor, forceLimit)]
      ensures agents.boidMaxCount == MaxStep(viewCount as real, old(agents.boidMaxCount))
      ensures agents.boidMinCount == MinCount(viewCount as real, old(agents.boidMinCount))
    {
      var me := agents.boids[m];
      var acc := Acceleration(me);
      agents.boids[m] := me.(acceleration := acc, countAround := viewCount as real);
      agents.boidMaxCount := MaxStep(viewCount as real, agents.boidMaxCount);
      agents.boidMinCount := MinCount(viewCount as real, agents.boidMinCount);
    }
  }
}
