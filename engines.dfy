/** The four engines of `src/engine.cpp`. Each is a `SimulationEngine`
    (the `base`) with its own constructor and `update()`; the two CPU
    engines also have their own `flock(me)`. Drawing, the interface and
    the frame timer are left to the caller. */
module Engines {
  import opened Geometry
  import opened Boids
  import opened TreeNodes
  import opened Tree
  import opened Flocking
  import opened Settings
  import opened Gpu
  import opened Engine

  /** The boid counts the engines create, `1 << n` with `n` below 31, fit
      the 32-bit signed sizes of the GPU sort. */
  lemma CountFits(n: nat)
    requires n < 31
    ensures Pow2(n) < 0x8000_0000
  {
    PowMonotone(n, 30);
    PowAdd(10, 10);
    PowAdd(20, 10);
    assert Pow2(10) == 1024;
  }

  /** A boid with too many boids in range makes the array crowded. */
  lemma CrowdedAt(nodes: seq<OctalTree>, bs: seq<Boid>, rangeSqr: real, i: int)
    requires |nodes| >= 1 && 0 <= i < |bs|
    requires |Query(nodes, bs, bs[i].position, rangeSqr, 0).found| > MAXFOUND
    ensures Crowded(nodes, bs, rangeSqr)
  {
  }

  /** Some boid of `bs` has more boids in range than the search buffer of
      the tree engine holds. */
  ghost predicate Crowded(nodes: seq<OctalTree>, bs: seq<Boid>, rangeSqr: real)
    requires |nodes| >= 1
  {
    exists j :: 0 <= j < |bs| && |Query(nodes, bs, bs[j].position, rangeSqr, 0).found| > MAXFOUND
  }

  // ------------------------------------------------------------ CPU basic

  /** `EngineCPUBasic`: every boid moves, then every boid flocks with every
      other boid in range, found by scanning the whole array. */
  class EngineCPUBasic {
    const base: SimulationEngine

    /** `EngineCPUBasic(env)`: the shared engine, and the space box set up
        once for drawing. */
    constructor(env: Environment, num: Numerics, positions: seq<Vec3>, velocities: seq<Vec3>)
      requires 0 <= env.GetInt(BOID_COUNT) < 31
      requires env.GetVec(GRID).x >= 0.0 && env.GetVec(GRID).y >= 0.0 && env.GetVec(GRID).z >= 0.0
      requires |positions| == Pow2(env.GetInt(BOID_COUNT)) && |velocities| == |positions|
      ensures base.Valid() && base.run && base.env == env && base.num == num
      ensures fresh(base) && fresh(base.agents) && fresh(base.agents.boids) && fresh(base.context)
      ensures base.boidCount == |positions|
      ensures forall i :: 0 <= i < base.boidCount ==>
        base.agents.boids[i] == Spawned(num, positions[i], velocities[i], i)
      ensures base.context.treeNodeCount == 1 && base.context.uploaded == 1
    {
      var engine := new SimulationEngine(env, num, positions, velocities);
      base := engine;
      new;
      base.context.SetupBox();
    }

    /** `flock(agents->boids[m])`: one accumulation over every other boid
        within `range2`, in array order, then `flockApply`. */
    method Flock(m: int)
      requires 0 <= m < base.agents.boids.Length
      modifies base`align, base`cohesion, base`separation, base`view
      modifies base`alignCount, base`cohesCount, base`separCount, base`viewCount
      modifies base.agents.boids, base.agents`boidMaxCount, base.agents`boidMinCount
      ensures base.agents.boids[..] == old(base.agents.boids[..])[m :=
        NaiveFlocked(base.num, old(base.agents.boids[..]), m, base.range2, base.speedFactor, base.forceLimit)]
      ensures base.agents.boidMaxCount == MaxStep(
        NaiveFlocked(base.num, old(base.agents.boids[..]), m, base.range2, base.speedFactor, base.forceLimit).countAround,
        old(base.agents.boidMaxCount))
      ensures base.agents.boidMinCount == MinCount(
        NaiveFlocked(base.num, old(base.agents.boids[..]), m, base.range2, base.speedFactor, base.forceLimit).countAround,
        old(base.agents.boidMinCount))
    {
      base.FlockInit();
      var me := base.agents.boids[m];
      Gather(me);
      base.FlockApply(m);
    }

    /** The loop of `flock(me)`: every other boid within `range2`, in array
        order, goes through `flockIndividual`. */
    method Gather(me: Boid)
      requires base.Accumulated() == Initial
      modifies base`align, base`cohesion, base`separation, base`view
      modifies base`alignCount, base`cohesCount, base`separCount, base`viewCount
      ensures base.Accumulated() == NaiveAcc(base.num, me, base.agents.boids[..], base.range2, base.agents.boids.Length)
    {
      var i := 0;
      while i < base.agents.boids.Length
        invariant 0 <= i <= base.agents.boids.Length
        invariant base.Accumulated() == NaiveAcc(base.num, me, base.agents.boids[..], base.range2, i)
      {
        var other := base.agents.boids[i];
        if other.id != me.id && Dist2(me.position, other.position) <= base.range2 {
          base.FlockIndividual(me, other);
        }
        i := i + 1;
      }
    }

    /** The first loop of `update()`: `updateBoid` on every boid. */
    method MoveBoids()
      requires Positive(base.diagonal)
      modifies base.agents.boids
      ensures base.agents.boids[..] == MoveAll(old(base.agents.boids[..]), base.low, base.diagonal)
    {
      var i := 0;
      while i < base.agents.boids.Length
        invariant 0 <= i <= base.agents.boids.Length
        invariant forall j :: 0 <= j < i ==> base.agents.boids[j] == Moved(old(base.agents.boids[j]), base.low, base.diagonal)
        invariant forall j :: i <= j < base.agents.boids.Length ==> base.agents.boids[j] == old(base.agents.boids[j])
      {
        base.UpdateBoid(i);
        i := i + 1;
      }
    }

    /** `flock` on boid `i` inside the pass over `ms`: the boids before it
        are already flocked, but they differ from `ms` only in accelerations
        and counts, which the rules do not read, so boid `i` becomes boid
        `i` of `ms`'s frame. */
    method FlockStep(i: int, ghost ms: seq<Boid>, ghost frame: seq<Boid>)
      requires 0 <= i < base.agents.boids.Length == |ms|
      requires frame == NaiveFrame(base.num, ms, base.range2, base.speedFactor, base.forceLimit, |ms|)
      requires base.agents.boids[..] == frame[..i] + ms[i..]
      requires base.agents.boidMaxCount == MaxAround(frame, i) && base.agents.boidMinCount == MinAround(frame, i)
      modifies base`align, base`cohesion, base`separation, base`view
      modifies base`alignCount, base`cohesCount, base`separCount, base`viewCount
      modifies base.agents.boids, base.agents`boidMaxCount, base.agents`boidMinCount
      ensures base.agents.boids[..] == frame[..i + 1] + ms[i + 1..]
      ensures base.agents.boidMaxCount == MaxAround(frame, i + 1)
      ensures base.agents.boidMinCount == MinAround(frame, i + 1)
    {
      ghost var cur := base.agents.boids[..];
      NaiveFramePartial(base.num, ms, base.range2, base.speedFactor, base.forceLimit, i);
      FrameStep(frame, ms, i);
      NaiveFlockedSameMotion(base.num, cur, ms, i, base.range2, base.speedFactor, base.forceLimit);
      NaiveFrameAt(base.num, ms, base.range2, base.speedFactor, base.forceLimit, |ms|, i);
      Flock(i);
    }

    /** The second loop of `update()`: `flock` on every boid in turn. The
        boids flocked earlier already carry their new acceleration, but the
        rules read only positions, velocities and ids, so each boid sees
        the moved array. */
    method FlockAll()
      requires base.agents.boidMaxCount == 0.0 && base.agents.boidMinCount == Infinity
      modifies base`align, base`cohesion, base`separation, base`view
      modifies base`alignCount, base`cohesCount, base`separCount, base`viewCount
      modifies base.agents.boids, base.agents`boidMaxCount, base.agents`boidMinCount
      ensures base.agents.boids[..] == NaiveFrame(base.num, old(base.agents.boids[..]), base.range2, base.speedFactor, base.forceLimit, base.agents.boids.Length)
      ensures base.agents.boidMaxCount == MaxAround(base.agents.boids[..], base.agents.boids.Length)
      ensures base.agents.boidMinCount == MinAround(base.agents.boids[..], base.agents.boids.Length)
    {
      ghost var ms := base.agents.boids[..];
      ghost var frame := NaiveFrame(base.num, ms, base.range2, base.speedFactor, base.forceLimit, |ms|);
      PassEnds(frame, ms);
      var i := 0;
      while i < base.agents.boids.Length
        invariant 0 <= i <= base.agents.boids.Length == |ms| == |frame|
        invariant base.agents.boids[..] == frame[..i] + ms[i..]
        invariant base.agents.boidMaxCount == MaxAround(frame, i)
        invariant base.agents.boidMinCount == MinAround(frame, i)
      {
        FlockStep(i, ms, frame);
        i := i + 1;
      }
    }

    /** `update()`: nothing while paused; otherwise the statistics restart
        at 0 and infinity, every boid moves, and every boid flocks. */
    method Update()
      requires base.Valid() && Positive(base.diagonal)
      modifies base`align, base`cohesion, base`separation, base`view
      modifies base`alignCount, base`cohesCount, base`separCount, base`viewCount
      modifies base.agents.boids, base.agents`boidMaxCount, base.agents`boidMinCount
      ensures base.Valid()
      ensures !base.run ==> (base.agents.boids[..] == old(base.agents.boids[..])
        && base.agents.boidMaxCount == old(base.agents.boidMaxCount)
        && base.agents.boidMinCount == old(base.agents.boidMinCount))
      ensures base.run ==> (base.agents.boids[..] ==
        NaiveFrame(base.num, MoveAll(old(base.agents.boids[..]), base.low, base.diagonal),
                   base.range2, base.speedFactor, base.forceLimit, base.boidCount))
      ensures base.run ==> (base.agents.boidMaxCount == MaxAround(base.agents.boids[..], base.boidCount)
        && base.agents.boidMinCount == MinAround(base.agents.boids[..], base.boidCount))
    {
      if !base.run {
        return;
      }
      base.agents.boidMaxCount := 0.0;
      base.agents.boidMinCount := Infinity;
      MoveBoids();
      assert base.Valid();
      FlockAll();
    }
  }

  // ------------------------------------------------------------- CPU tree

  /** `EngineCPUTree`: every boid moves and is inserted into a rebuilt
      octree, then every boid flocks with the boids the tree search
      reports. */
  class EngineCPUTree {
    const base: SimulationEngine
    const tree: OctalTreeContainer

    ghost predicate Valid()
      reads base.agents`partialSumMin, base.agents`partialSumMax, base.agents`statIdx
      reads base.agents`minHistory, base.agents`maxHistory, base.agents.mins, base.agents.maxs
      reads tree`trees, tree`filled, tree`size, tree`rangeCount, tree`found, tree.trees, tree.rangeStack
      reads base.agents.boids
    {
      && base.Valid()
      && tree.boids == base.agents
      && tree.bbox == Box(base.low, base.high)
      && tree.Valid()
      && IdsAreIndices(base.agents.boids[..])
    }

    /** `EngineCPUTree(env)`: the shared engine and a tree over the space
        box and the engine's boids, attached to the context. */
    constructor(env: Environment, num: Numerics, positions: seq<Vec3>, velocities: seq<Vec3>)
      requires 0 <= env.GetInt(BOID_COUNT) < 31
      requires env.GetVec(GRID).x >= 0.0 && env.GetVec(GRID).y >= 0.0 && env.GetVec(GRID).z >= 0.0
      requires |positions| == Pow2(env.GetInt(BOID_COUNT)) && |velocities| == |positions|
      ensures base.Valid() && tree.Valid() && IdsAreIndices(base.agents.boids[..])
      ensures Valid() && base.run && base.env == env && base.num == num
      ensures fresh(base) && fresh(base.agents) && fresh(base.agents.boids) && fresh(base.context) && fresh(tree)
      ensures base.boidCount == |positions|
      ensures forall i :: 0 <= i < base.boidCount ==>
        base.agents.boids[i] == Spawned(num, positions[i], velocities[i], i)
      ensures base.context.tree == tree && tree.filled == 1
    {
      var engine, t := Assemble(env, num, positions, velocities);
      base := engine;
      tree := t;
    }

    /** The engine and its tree, with the tree attached to the context. */
    static method Assemble(env: Environment, num: Numerics, positions: seq<Vec3>, velocities: seq<Vec3>)
      returns (engine: SimulationEngine, t: OctalTreeContainer)
      requires 0 <= env.GetInt(BOID_COUNT) < 31
      requires env.GetVec(GRID).x >= 0.0 && env.GetVec(GRID).y >= 0.0 && env.GetVec(GRID).z >= 0.0
      requires |positions| == Pow2(env.GetInt(BOID_COUNT)) && |velocities| == |positions|
      ensures engine.Valid() && t.Valid() && t.boids == engine.agents && t.bbox == Box(engine.low, engine.high)
      ensures IdsAreIndices(engine.agents.boids[..])
      ensures engine.run && engine.env == env && engine.num == num
      ensures fresh(engine) && fresh(engine.agents) && fresh(engine.agents.boids) && fresh(engine.context) && fresh(t)
      ensures engine.boidCount == |positions|
      ensures forall i :: 0 <= i < engine.boidCount ==>
        engine.agents.boids[i] == Spawned(num, positions[i], velocities[i], i)
      ensures engine.context.tree == t && t.filled == 1
    {
      engine := new SimulationEngine(env, num, positions, velocities);
      assert IdsAreIndices(engine.agents.boids[..]);
      t := new OctalTreeContainer(Box(engine.low, engine.high), engine.agents);
      engine.context.AttachTree(t);
    }

    /** One turn of the rebuild loop: `updateBoid` on boid `i`, then
        `tree->insert` of the moved boid, which lands inside the box. */
    method InsertStep(i: int)
      requires Valid() && Positive(base.diagonal) && 0 <= i < base.agents.boids.Length
      requires IdsBelow(tree.trees[..tree.filled], i)
      requires Placed(tree.trees[..tree.filled], base.agents.boids[..], tree.bbox)
      requires forall y :: Stored(tree.trees[..tree.filled], y) == if 0 <= y < i then 1 else 0
      modifies base.agents.boids, tree`trees, tree`size, tree`filled, tree.trees
      ensures Valid()
      ensures tree.trees == old(tree.trees) || fresh(tree.trees)
      ensures base.agents.boids[..] == old(base.agents.boids[..])[i := Moved(old(base.agents.boids[i]), base.low, base.diagonal)]
      ensures IdsBelow(tree.trees[..tree.filled], i + 1)
      ensures Placed(tree.trees[..tree.filled], base.agents.boids[..], tree.bbox)
      ensures forall y :: Stored(tree.trees[..tree.filled], y) == if 0 <= y < i + 1 then 1 else 0
    {
      ghost var nodes := tree.trees[..tree.filled];
      ghost var bs := base.agents.boids[..];
      base.UpdateBoid(i);
      PlacedMoveUnstored(nodes, bs, tree.bbox, i, base.agents.boids[i]);
      var b := base.agents.boids[i];
      MovedInDomain(bs[i], base.low, base.diagonal);
      DomainInBox(b.position, base.low, base.diagonal);
      assert Add(base.low, base.diagonal) == base.high;
      tree.Insert(b);
      InsertIdsBelow(nodes, i, b.position, 0, i + 1);
      InsertPlaced(nodes, base.agents.boids[..], tree.bbox, i, b.position, 0);
      forall y
        ensures Stored(tree.trees[..tree.filled], y) == if 0 <= y < i + 1 then 1 else 0
      {
        InsertStored(nodes, i, b.position, 0, y);
      }
    }

    /** The first loop of `update()`, after `tree->reset()`: each boid is
        moved and then inserted, so the rebuilt tree stores every boid
        exactly once, in a node whose box holds its new position. */
    method Rebuild()
      requires Valid() && Positive(base.diagonal) && tree.filled == 1 && tree.trees[0].filled == 0
      modifies base.agents.boids, tree`trees, tree`size, tree`filled, tree.trees
      ensures Valid() && tree.IdsValid()
      ensures base.agents.boids[..] == MoveAll(old(base.agents.boids[..]), base.low, base.diagonal)
      ensures Indexes(tree.trees[..tree.filled], base.agents.boids[..], tree.bbox)
      ensures forall y :: Stored(tree.trees[..tree.filled], y) == if 0 <= y < base.boidCount then 1 else 0
    {
      forall y
        ensures Stored(tree.trees[..tree.filled], y) == 0
      {
        ghost var nodes := tree.trees[..tree.filled];
        assert |nodes| == 1 && nodes[0] == tree.trees[0];
        assert Entries(nodes[0]) == [];
        assert StoredUpTo(nodes, 0, y) == 0;
      }
      var i := 0;
      while i < base.agents.boids.Length
        invariant 0 <= i <= base.agents.boids.Length
        invariant Valid()
        invariant tree.trees == old(tree.trees) || fresh(tree.trees)
        invariant forall j :: 0 <= j < i ==> base.agents.boids[j] == Moved(old(base.agents.boids[j]), base.low, base.diagonal)
        invariant forall j :: i <= j < base.agents.boids.Length ==> base.agents.boids[j] == old(base.agents.boids[j])
        invariant IdsBelow(tree.trees[..tree.filled], i)
        invariant Placed(tree.trees[..tree.filled], base.agents.boids[..], tree.bbox)
        invariant forall y :: Stored(tree.trees[..tree.filled], y) == if 0 <= y < i then 1 else 0
      {
        InsertStep(i);
        i := i + 1;
      }
      forall j | 0 <= j < base.agents.boids.Length
        ensures InBox(base.agents.boids[j].position, tree.bbox)
      {
        MovedInDomain(old(base.agents.boids[j]), base.low, base.diagonal);
        DomainInBox(base.agents.boids[j].position, base.low, base.diagonal);
      }
    }

    /** `flock(agents->boids[m])`: a range search around the boid, then one
        accumulation over the reported ids other than its own, then
        `flockApply`. The search buffer holds MAXFOUND ids; when more boids
        are in range the model reports failure and leaves the boid alone. */
    method Flock(m: int) returns (ok: bool)
      requires Valid() && tree.IdsValid() && 0 <= m < base.agents.boids.Length
      requires Placed(tree.trees[..tree.filled], base.agents.boids[..], tree.bbox)
      modifies base`align, base`cohesion, base`separation, base`view
      modifies base`alignCount, base`cohesCount, base`separCount, base`viewCount
      modifies base.agents.boids, base.agents`boidMaxCount, base.agents`boidMinCount
      modifies tree`rangeCount, tree`found, tree`traversedLast, tree`traversed, tree`maxTraversed, tree`queries, tree.rangeStack
      ensures Valid() && tree.IdsValid()
      ensures ok == old(|Query(tree.trees[..tree.filled], base.agents.boids[..], base.agents.boids[m].position, Sq(base.range), 0).found| <= MAXFOUND)
      ensures ok ==>
        var flocked := old(TreeFlocked(base.num, tree.trees[..tree.filled], tree.bbox, base.agents.boids[..], m,
                                       Sq(base.range), base.speedFactor, base.forceLimit));
        && base.agents.boids[..] == old(base.agents.boids[..])[m := flocked]
        && base.agents.boidMaxCount == MaxStep(flocked.countAround, old(base.agents.boidMaxCount))
        && base.agents.boidMinCount == MinCount(flocked.countAround, old(base.agents.boidMinCount))
      ensures !ok ==> (base.agents.boids[..] == old(base.agents.boids[..])
        && base.agents.boidMaxCount == old(base.agents.boidMaxCount)
        && base.agents.boidMinCount == old(base.agents.boidMinCount))
    {
      base.FlockInit();
      var me := base.agents.boids[m];
      ghost var bs := base.agents.boids[..];
      var r := Search(me.position);
      if r.Overflow? {
        return false;
      }
      ok := true;
      FlockFound(m, me, r.ids);
    }

    /** The rest of `flock(me)` once the search succeeded: the loop over
        the reported ids, then `flockApply`. The engine stays valid, since
        only one boid's acceleration and count change, never its id. */
    method FlockFound(m: int, me: Boid, ids: seq<int>)
      requires Valid() && 0 <= m < base.agents.boids.Length && me == base.agents.boids[m]
      requires Indices(ids, base.agents.boids.Length) && base.Accumulated() == Initial
      modifies base`align, base`cohesion, base`separation, base`view
      modifies base`alignCount, base`cohesCount, base`separCount, base`viewCount
      modifies base.agents.boids, base.agents`boidMaxCount, base.agents`boidMinCount
      ensures Valid()
      ensures base.agents.boids[..] == old(base.agents.boids[..])[m :=
        Apply(base.num, TreeAcc(base.num, me, old(base.agents.boids[..]), ids, |ids|), me, base.speedFactor, base.forceLimit)]
      ensures base.agents.boidMaxCount == MaxStep(
        Apply(base.num, TreeAcc(base.num, me, old(base.agents.boids[..]), ids, |ids|), me, base.speedFactor, base.forceLimit).countAround,
        old(base.agents.boidMaxCount))
      ensures base.agents.boidMinCount == MinCount(
        Apply(base.num, TreeAcc(base.num, me, old(base.agents.boids[..]), ids, |ids|), me, base.speedFactor, base.forceLimit).countAround,
        old(base.agents.boidMinCount))
    {
      Gather(me, ids);
      FlockApply(m);
    }

    /** `flockApply` keeps the engine valid: it changes one boid's
        acceleration and count, never its id. */
    method FlockApply(m: int)
      requires Valid() && 0 <= m < base.agents.boids.Length
      modifies base.agents.boids, base.agents`boidMaxCount, base.agents`boidMinCount
      ensures Valid()
      ensures base.agents.boids[..] == old(base.agents.boids[..])[m :=
        Apply(base.num, base.Accumulated(), old(base.agents.boids[m]), base.speedFactor, base.forceLimit)]
      ensures base.agents.boidMaxCount == MaxStep(
        Apply(base.num, base.Accumulated(), old(base.agents.boids[m]), base.speedFactor, base.forceLimit).countAround,
        old(base.agents.boidMaxCount))
      ensures base.agents.boidMinCount == MinCount(
        Apply(base.num, base.Accumulated(), old(base.agents.boids[m]), base.speedFactor, base.forceLimit).countAround,
        old(base.agents.boidMinCount))
    {
      ApplyEffect(base.num, base.Accumulated(), base.agents.boids[m], base.speedFactor, base.forceLimit);
      base.FlockApply(m);
    }

    /** The search of `flock(me)`: `findRange` around the point, then
        `getBoidsInRange`, which fails when more than MAXFOUND boids are in
        range. The tree itself does not change. */
    method Search(point: Vec3) returns (r: RangeResult)
      requires Valid() && tree.IdsValid()
      requires Placed(tree.trees[..tree.filled], base.agents.boids[..], tree.bbox)
      modifies tree`rangeCount, tree`found, tree`traversedLast, tree`traversed, tree`maxTraversed, tree`queries, tree.rangeStack
      ensures Valid() && tree.IdsValid()
      ensures r.InRange? == (|Query(tree.trees[..tree.filled], base.agents.boids[..], point, Sq(base.range), 0).found| <= MAXFOUND)
      ensures r.InRange? ==> (r.ids == Query(tree.trees[..tree.filled], base.agents.boids[..], point, Sq(base.range), 0).found
        && Indices(r.ids, base.agents.boids.Length))
    {
      tree.FindRange(point, base.range);
      r := tree.GetBoidsInRange();
      FoundIndices(tree.trees[..tree.filled], base.agents.boids[..], tree.bbox, point, Sq(base.range));
    }

    /** The loop of `flock(me)`: every reported id other than me's own goes
        through `flockIndividual`, in the order the search reported them. */
    method Gather(me: Boid, ids: seq<int>)
      requires Indices(ids, base.agents.boids.Length) && base.Accumulated() == Initial
      modifies base`align, base`cohesion, base`separation, base`view
      modifies base`alignCount, base`cohesCount, base`separCount, base`viewCount
      ensures base.Accumulated() == TreeAcc(base.num, me, base.agents.boids[..], ids, |ids|)
    {
      var i := 0;
      while i < |ids|
        invariant 0 <= i <= |ids|
        invariant base.Accumulated() == TreeAcc(base.num, me, base.agents.boids[..], ids, i)
      {
        var other := base.agents.boids[ids[i]];
        if other.id != me.id {
          base.FlockIndividual(me, other);
        }
        i := i + 1;
      }
    }

    /** `flock` on boid `i` inside the pass over `ms`: the search reads
        positions only and the rules read no accelerations or counts, so
        the boid becomes boid `i` of `ms`'s frame, unless the search around
        it overflows. */
    method FlockStep(i: int, ghost ms: seq<Boid>, ghost nodes: seq<OctalTree>, ghost frame: seq<Boid>) returns (ok: bool)
      requires Valid() && tree.IdsValid() && 0 <= i < base.agents.boids.Length == |ms|
      requires nodes == tree.trees[..tree.filled] && Placed(nodes, ms, tree.bbox)
      requires frame == TreeFrame(base.num, nodes, tree.bbox, ms, Sq(base.range), base.speedFactor, base.forceLimit, |ms|)
      requires base.agents.boids[..] == frame[..i] + ms[i..]
      requires base.agents.boidMaxCount == MaxAround(frame, i) && base.agents.boidMinCount == MinAround(frame, i)
      modifies base`align, base`cohesion, base`separation, base`view
      modifies base`alignCount, base`cohesCount, base`separCount, base`viewCount
      modifies base.agents.boids, base.agents`boidMaxCount, base.agents`boidMinCount
      modifies tree`rangeCount, tree`found, tree`traversedLast, tree`traversed, tree`maxTraversed, tree`queries, tree.rangeStack
      ensures Valid() && tree.IdsValid() && tree.trees[..tree.filled] == nodes
      ensures ok == (|Query(nodes, ms, ms[i].position, Sq(base.range), 0).found| <= MAXFOUND)
      ensures ok ==> base.agents.boids[..] == frame[..i + 1] + ms[i + 1..]
      ensures ok ==> base.agents.boidMaxCount == MaxAround(frame, i + 1)
      ensures ok ==> base.agents.boidMinCount == MinAround(frame, i + 1)
    {
      TreeStep(base.num, nodes, tree.bbox, ms, Sq(base.range), base.speedFactor, base.forceLimit, i);
      ok := Flock(i);
    }

    /** The second loop of `update()`: `flock` on every boid in turn; the
        tree is not touched and positions do not change, so every search
        sees the rebuilt tree over the moved boids. */
    method FlockAll() returns (ok: bool)
      requires Valid() && tree.IdsValid()
      requires Placed(tree.trees[..tree.filled], base.agents.boids[..], tree.bbox)
      requires base.agents.boidMaxCount == 0.0 && base.agents.boidMinCount == Infinity
      modifies base`align, base`cohesion, base`separation, base`view
      modifies base`alignCount, base`cohesCount, base`separCount, base`viewCount
      modifies base.agents.boids, base.agents`boidMaxCount, base.agents`boidMinCount
      modifies tree`rangeCount, tree`found, tree`traversedLast, tree`traversed, tree`maxTraversed, tree`queries, tree.rangeStack
      ensures Valid() && tree.IdsValid()
      ensures ok ==> base.agents.boids[..] == TreeFrame(base.num, tree.trees[..tree.filled], tree.bbox,
                                                       old(base.agents.boids[..]), Sq(base.range), base.speedFactor, base.forceLimit, base.agents.boids.Length)
      ensures ok ==> base.agents.boidMaxCount == MaxAround(base.agents.boids[..], base.agents.boids.Length)
      ensures ok ==> base.agents.boidMinCount == MinAround(base.agents.boids[..], base.agents.boids.Length)
      ensures !ok ==> Crowded(tree.trees[..tree.filled], old(base.agents.boids[..]), Sq(base.range))
    {
      ghost var ms := base.agents.boids[..];
      ghost var nodes := tree.trees[..tree.filled];
      ghost var frame := TreeFrame(base.num, nodes, tree.bbox, ms, Sq(base.range), base.speedFactor, base.forceLimit, |ms|);
      PassEnds(frame, ms);
      var i := 0;
      ok := true;
      while ok && i < base.agents.boids.Length
        invariant 0 <= i <= base.agents.boids.Length == |ms| == |frame|
        invariant Valid() && tree.IdsValid() && tree.trees[..tree.filled] == nodes
        invariant ok ==> base.agents.boids[..] == frame[..i] + ms[i..]
        invariant ok ==> base.agents.boidMaxCount == MaxAround(frame, i)
        invariant ok ==> base.agents.boidMinCount == MinAround(frame, i)
        invariant !ok ==> i < |ms| && |Query(nodes, ms, ms[i].position, Sq(base.range), 0).found| > MAXFOUND
      {
        ok := FlockStep(i, ms, nodes, frame);
        if ok {
          i := i + 1;
        }
      }
      if !ok {
        CrowdedAt(nodes, ms, Sq(base.range), i);
      }
    }

    /** `update()`: nothing while paused; otherwise the tree is reset, the
        statistics restart at 0 and infinity, every boid moves into the
        rebuilt tree, and every boid flocks. */
    method Update() returns (ok: bool)
      requires Valid() && Positive(base.diagonal)
      modifies base`align, base`cohesion, base`separation, base`view
      modifies base`alignCount, base`cohesCount, base`separCount, base`viewCount
      modifies base.agents.boids, base.agents`boidMaxCount, base.agents`boidMinCount
      modifies tree, tree.trees, tree.rangeStack
      ensures Valid()
      ensures !base.run ==> (ok && base.agents.boids[..] == old(base.agents.boids[..])
        && base.agents.boidMaxCount == old(base.agents.boidMaxCount)
        && base.agents.boidMinCount == old(base.agents.boidMinCount))
      ensures base.run ==> Indexes(tree.trees[..tree.filled], MoveAll(old(base.agents.boids[..]), base.low, base.diagonal), tree.bbox)
      ensures base.run && ok ==> (base.agents.boids[..] == TreeFrame(base.num, tree.trees[..tree.filled], tree.bbox,
        MoveAll(old(base.agents.boids[..]), base.low, base.diagonal), Sq(base.range), base.speedFactor, base.forceLimit, base.boidCount))
      ensures base.run && ok ==> (base.agents.boidMaxCount == MaxAround(base.agents.boids[..], base.boidCount)
        && base.agents.boidMinCount == MinAround(base.agents.boids[..], base.boidCount))
      ensures base.run && !ok ==> Crowded(tree.trees[..tree.filled], MoveAll(old(base.agents.boids[..]), base.low, base.diagonal), Sq(base.range))
    {
      if !base.run {
        return true;
      }
      ok := Advance();
    }

    /** The body of a running `update()`. */
    method Advance() returns (ok: bool)
      requires Valid() && Positive(base.diagonal)
      modifies base`align, base`cohesion, base`separation, base`view
      modifies base`alignCount, base`cohesCount, base`separCount, base`viewCount
      modifies base.agents.boids, base.agents`boidMaxCount, base.agents`boidMinCount
      modifies tree, tree.trees, tree.rangeStack
      ensures Valid()
      ensures Indexes(tree.trees[..tree.filled], MoveAll(old(base.agents.boids[..]), base.low, base.diagonal), tree.bbox)
      ensures ok ==> (base.agents.boids[..] == TreeFrame(base.num, tree.trees[..tree.filled], tree.bbox,
        MoveAll(old(base.agents.boids[..]), base.low, base.diagonal), Sq(base.range), base.speedFactor, base.forceLimit, base.boidCount))
      ensures ok ==> (base.agents.boidMaxCount == MaxAround(base.agents.boids[..], base.boidCount)
        && base.agents.boidMinCount == MinAround(base.agents.boids[..], base.boidCount))
      ensures !ok ==> Crowded(tree.trees[..tree.filled], MoveAll(old(base.agents.boids[..]), base.low, base.diagonal), Sq(base.range))
    {
      Prepare();
      ok := FlockAll();
    }

    /** The first half of a running `update()`: the reset, the restarted
        statistics and the rebuild loop. */
    method Prepare()
      requires Valid() && Positive(base.diagonal)
      modifies base.agents.boids, base.agents`boidMaxCount, base.agents`boidMinCount
      modifies tree, tree.trees
      ensures Valid() && tree.IdsValid()
      ensures base.agents.boids[..] == MoveAll(old(base.agents.boids[..]), base.low, base.diagonal)
      ensures Indexes(tree.trees[..tree.filled], base.agents.boids[..], tree.bbox)
      ensures base.agents.boidMaxCount == 0.0 && base.agents.boidMinCount == Infinity
    {
      Restart();
      Rebuild();
    }

    /** The start of a running `update()`: `tree->reset()`, then the
        statistics restart at 0 and infinity. The boids are untouched. */
    method Restart()
      requires Valid()
      modifies base.agents`boidMaxCount, base.agents`boidMinCount, tree, tree.trees
      ensures Valid() && tree.filled == 1 && tree.trees[0].filled == 0
      ensures tree.trees == old(tree.trees) && tree.trees[0] == TreeNodes.Reset(old(tree.trees[0])).(bbox := tree.bbox)
      ensures tree.traversed == 0 && tree.queries == 0 && tree.maxTraversed == 0
      ensures base.agents.boidMaxCount == 0.0 && base.agents.boidMinCount == Infinity
    {
      tree.Reset();
      base.agents.boidMaxCount := 0.0;
      base.agents.boidMinCount := Infinity;
    }
  }

  // ------------------------------------------------------------ GPU basic

  /** `EngineGPUBasic`: the update and naive flocking run as compute
      shaders; the CPU only dispatches them and keeps the statistic the
      reduction pass reads back. */
  class EngineGPUBasic {
    const base: SimulationEngine

    constructor(env: Environment, num: Numerics, positions: seq<Vec3>, velocities: seq<Vec3>)
      requires 0 <= env.GetInt(BOID_COUNT) < 31
      requires env.GetVec(GRID).x >= 0.0 && env.GetVec(GRID).y >= 0.0 && env.GetVec(GRID).z >= 0.0
      requires |positions| == Pow2(env.GetInt(BOID_COUNT)) && |velocities| == |positions|
      ensures base.Valid() && base.run && base.env == env && base.num == num
      ensures fresh(base) && fresh(base.agents) && fresh(base.context)
      ensures base.context.treeNodeCount == 1 && base.context.dispatched == []
    {
      var engine := new SimulationEngine(env, num, positions, velocities);
      base := engine;
      new;
      base.context.SetupBox();
    }

    /** `update()`: nothing while paused; otherwise the update pass with
        its reduction (`minCount` and `maxCount` are what the reduction
        reads back), then the naive flocking pass. */
    method Update(minCount: real, maxCount: real)
      requires base.Valid()
      modifies base.context`dispatched, base.agents`partialSumMin, base.agents`partialSumMax, base.agents`statIdx
      modifies base.agents`boidMaxCount, base.agents`boidMinCount, base.agents`minHistory, base.agents`maxHistory
      modifies base.agents.mins, base.agents.maxs
      ensures base.Valid()
      ensures !base.run ==> (base.context.dispatched == old(base.context.dispatched)
        && base.agents.minHistory == old(base.agents.minHistory))
      ensures base.run ==> (base.context.dispatched == old(base.context.dispatched)
        + [Dispatch(UpdateBoids, base.context.groups), Dispatch(Reduce, 1), Dispatch(NaiveFlock, base.context.groups)])
      ensures base.run ==> (base.agents.minHistory == old(base.agents.minHistory) + [minCount]
        && base.agents.maxHistory == old(base.agents.maxHistory) + [maxCount])
      ensures base.run ==> (base.agents.boidMaxCount == RecentSum(base.agents.maxHistory) / HISTORY as real
        && base.agents.boidMinCount == Finite(RecentSum(base.agents.minHistory) / HISTORY as real))
    {
      if !base.run {
        return;
      }
      base.context.ComputeShaderUpdateBoids(minCount, maxCount);
      base.context.ComputeShaderNaiveFlock();
    }
  }

  // ------------------------------------------------------------- GPU grid

  /** `EngineGPUGrid`: the update pass, a bitonic sort of the boids by grid
      cell, the reindex pass and the grid flocking pass, all on the GPU. */
  class EngineGPUGrid {
    const base: SimulationEngine

    ghost predicate Valid()
      reads base.agents`partialSumMin, base.agents`partialSumMax, base.agents`statIdx
      reads base.agents`minHistory, base.agents`maxHistory, base.agents.mins, base.agents.maxs
    {
      && base.Valid()
      && base.context.invocations == INVOCATIONS
      && base.agents.boids.Length < 0x8000_0000
    }

    /** `EngineGPUGrid(env)`: the shared engine and `setupGrid`. */
    constructor(env: Environment, num: Numerics, positions: seq<Vec3>, velocities: seq<Vec3>)
      requires 0 <= env.GetInt(BOID_COUNT) < 31
      requires env.GetVec(GRID).x >= 0.0 && env.GetVec(GRID).y >= 0.0 && env.GetVec(GRID).z >= 0.0
      requires |positions| == Pow2(env.GetInt(BOID_COUNT)) && |velocities| == |positions|
      ensures Valid() && base.run && base.env == env && base.num == num
      ensures fresh(base) && fresh(base.agents) && fresh(base.context)
      ensures base.context.treeNodeCount == 1 && base.context.dispatched == []
    {
      var engine := new SimulationEngine(env, num, positions, velocities);
      CountFits(env.GetInt(BOID_COUNT));
      base := engine;
      new;
      base.context.SetupGrid();
    }

    /** `update()`: nothing while paused; otherwise the update pass with its
        reduction, every pass of the sort followed by the reindex pass, and
        the grid flocking pass. */
    method Update(minCount: real, maxCount: real)
      requires Valid()
      modifies base.context`dispatched, base.agents`partialSumMin, base.agents`partialSumMax, base.agents`statIdx
      modifies base.agents`boidMaxCount, base.agents`boidMinCount, base.agents`minHistory, base.agents`maxHistory
      modifies base.agents.mins, base.agents.maxs
      ensures Valid()
      ensures !base.run ==> (base.context.dispatched == old(base.context.dispatched)
        && base.agents.minHistory == old(base.agents.minHistory))
      ensures base.run ==> (base.context.dispatched == old(base.context.dispatched)
        + [Dispatch(UpdateBoids, base.context.groups), Dispatch(Reduce, 1)]
        + Schedule(2, base.boidCount, INVOCATIONS, base.context.groups)
        + [Dispatch(Reindex, base.context.groups), Dispatch(GridFlock, base.context.groups)])
      ensures base.run ==> (base.agents.minHistory == old(base.agents.minHistory) + [minCount]
        && base.agents.maxHistory == old(base.agents.maxHistory) + [maxCount])
    {
      if !base.run {
        return;
      }
      base.context.ComputeShaderUpdateBoids(minCount, maxCount);
      base.context.ComputeShaderSortBoids();
      base.context.ComputeShaderGridFlock();
    }
  }
}
