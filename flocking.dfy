/** The flocking rules of the CPU engines (`src/engine.cpp`) on values: the
    neighbour accumulator that `flockIndividual` updates, the four limited
    steering terms of `flockApply`, the toroidal move of `updateBoid`, and the
    neighbour selections of the naive and the tree engine. */
module Flocking {
  import opened Geometry
  import opened Boids
  import opened TreeNodes

  /** Scale of the view rotation per neighbour (`ANGLEDELTA`). */
  const ANGLEDELTA: real := 0.01

  /** One `glm::rotate(view, angle, axis)` step; the view matrix is the
      sequence of rotations composed onto the identity, in order. */
  datatype Rotation = Rotation(angle: real, axis: Vec3)

  /** The floating-point operations the engine leaves to glm and the C
      library: the inverse square root inside `glm::normalize`,
      `glm::length`, `angle(a, b)`, the result of a division of a vector by
      zero (an IEEE infinity or NaN), and the product of the view matrix with
      `vec4(v, 1)`. */
  datatype Numerics = Numerics(
    rsqrt: real -> real,
    length: Vec3 -> real,
    angle: (Vec3, Vec3) -> real,
    overZero: Vec3 -> Vec3,
    rotateBy: (seq<Rotation>, Vec3) -> Vec3)

  /** `v / d` on floats: exact for a non-zero divisor. */
  function Divide(num: Numerics, v: Vec3, d: real): (r: Vec3)
    ensures d != 0.0 ==> Scale(d, r) == v
  {
    if d != 0.0 then
      ScaleScale(d, 1.0 / d, v);
      assert d * (1.0 / d) == 1.0;
      Scale(1.0 / d, v)
    else num.overZero(v)
  }

  // ------------------------------------------------------------ accumulator

  /** The accumulator fields of `SimulationEngine`: the three sums and the
      view matrix with their counts. */
  datatype Acc = Acc(align: Vec3, cohesion: Vec3, separation: Vec3, view: seq<Rotation>,
                     alignCount: nat, cohesCount: nat, separCount: nat, viewCount: nat)

  /** The state `flockInit` establishes: zero sums, identity view, zero counts. */
  const Initial: Acc := Acc(Zero, Zero, Zero, [], 0, 0, 0, 0)

  /** `flockIndividual(me, other)`: adds the other boid's velocity, its
      position and the distance-weighted direction away from it; when the
      angle between me's heading and the other boid is below 1 the view is
      rotated about their cross product. */
  function Individual(num: Numerics, a: Acc, me: Boid, other: Boid): Acc {
    var dist := num.length(Sub(me.position, other.position));
    var tmp := Sub(other.position, me.position);
    var ang := num.angle(me.velocity, tmp);
    var summed := a.(align := Add(a.align, other.velocity), alignCount := a.alignCount + 1,
                     cohesion := Add(a.cohesion, other.position), cohesCount := a.cohesCount + 1,
                     separation := Add(a.separation, Divide(num, Sub(me.position, other.position), dist)),
                     separCount := a.separCount + 1);
    if ang < 1.0 then
      summed.(view := summed.view + [Rotation(-ang * ANGLEDELTA, Cross(me.velocity, tmp))],
              viewCount := summed.viewCount + 1)
    else summed
  }

  /** The counting invariant: alignment, cohesion and separation count every
      neighbour, the view counts some of them, one rotation per count. */
  predicate Balanced(a: Acc) {
    && a.alignCount == a.cohesCount == a.separCount
    && a.viewCount <= a.alignCount
    && |a.view| == a.viewCount
  }

  /** Each call counts the other boid once for the three sums and at most
      once for the view. */
  lemma IndividualCounts(num: Numerics, a: Acc, me: Boid, other: Boid)
    requires Balanced(a)
    ensures var r := Individual(num, a, me, other);
      && Balanced(r)
      && r.alignCount == a.alignCount + 1
      && a.viewCount <= r.viewCount <= a.viewCount + 1
      && (r.viewCount == a.viewCount + 1 <==> num.angle(me.velocity, Sub(other.position, me.position)) < 1.0)
  {
  }

  predicate Indices(idxs: seq<int>, n: int) {
    forall k :: 0 <= k < |idxs| ==> 0 <= idxs[k] < n
  }

  /** The accumulator after `flockInit` and one `flockIndividual` per index
      of `idxs`, in order. */
  function Accumulate(num: Numerics, me: Boid, bs: seq<Boid>, idxs: seq<int>): Acc
    requires Indices(idxs, |bs|)
  {
    if idxs == [] then Initial
    else Individual(num, Accumulate(num, me, bs, idxs[..|idxs| - 1]), me, bs[idxs[|idxs| - 1]])
  }

  lemma AccumulateSnoc(num: Numerics, me: Boid, bs: seq<Boid>, idxs: seq<int>, j: int)
    requires Indices(idxs, |bs|) && 0 <= j < |bs|
    ensures Indices(idxs + [j], |bs|)
    ensures Accumulate(num, me, bs, idxs + [j]) == Individual(num, Accumulate(num, me, bs, idxs), me, bs[j])
  {
    assert (idxs + [j])[..|idxs|] == idxs;
  }

  /** After a whole neighbour loop the three counts equal the number of
      neighbours and the view count is at most that. */
  lemma {:induction false} AccumulateCounts(num: Numerics, me: Boid, bs: seq<Boid>, idxs: seq<int>)
    requires Indices(idxs, |bs|)
    ensures Balanced(Accumulate(num, me, bs, idxs))
    ensures Accumulate(num, me, bs, idxs).alignCount == |idxs|
    ensures Accumulate(num, me, bs, idxs).viewCount <= |idxs|
  {
    if idxs != [] {
      var prefix := idxs[..|idxs| - 1];
      AccumulateCounts(num, me, bs, prefix);
      IndividualCounts(num, Accumulate(num, me, bs, prefix), me, bs[idxs[|idxs| - 1]]);
    }
  }

  // --------------------------------------------------------------- steering

  /** `limit(normalize(target) * speedFactor - velocity, forceLimit)`. */
  function Steer(num: Numerics, target: Vec3, velocity: Vec3, speedFactor: real, forceLimit: real): (r: Vec3)
    ensures InverseSqrt(num.rsqrt) ==> Len2(r) <= Sq(forceLimit)
  {
    Limit(num.rsqrt, Sub(Scale(speedFactor, Normalize(num.rsqrt, target)), velocity), forceLimit)
  }

  /** Alignment: steer toward the mean velocity of the neighbours. */
  function AlignRule(num: Numerics, a: Acc, me: Boid, speedFactor: real, forceLimit: real): (r: Vec3)
    ensures a.alignCount == 0 ==> r == Zero
    ensures InverseSqrt(num.rsqrt) ==> Len2(r) <= Sq(forceLimit)
  {
    if a.alignCount > 0 then
      Steer(num, Scale(1.0 / a.alignCount as real, a.align), me.velocity, speedFactor, forceLimit)
    else
      SqNonNegative(forceLimit);
      Zero
  }

  /** Cohesion: steer toward the mean position of the neighbours. */
  function CohesionRule(num: Numerics, a: Acc, me: Boid, speedFactor: real, forceLimit: real): (r: Vec3)
    ensures a.cohesCount == 0 ==> r == Zero
    ensures InverseSqrt(num.rsqrt) ==> Len2(r) <= Sq(forceLimit)
  {
    if a.cohesCount > 0 then
      Steer(num, Sub(Scale(1.0 / a.cohesCount as real, a.cohesion), me.position), me.velocity, speedFactor, forceLimit)
    else
      SqNonNegative(forceLimit);
      Zero
  }

  /** Separation: steer along the mean distance-weighted direction away. */
  function SeparationRule(num: Numerics, a: Acc, me: Boid, speedFactor: real, forceLimit: real): (r: Vec3)
    ensures a.separCount == 0 ==> r == Zero
    ensures InverseSqrt(num.rsqrt) ==> Len2(r) <= Sq(forceLimit)
  {
    if a.separCount > 0 then
      Steer(num, Scale(1.0 / a.separCount as real, a.separation), me.velocity, speedFactor, forceLimit)
    else
      SqNonNegative(forceLimit);
      Zero
  }

  /** View: steer toward the heading rotated by the accumulated view. */
  function ViewRule(num: Numerics, a: Acc, me: Boid, speedFactor: real, forceLimit: real): (r: Vec3)
    ensures a.viewCount == 0 ==> r == Zero
    ensures InverseSqrt(num.rsqrt) ==> Len2(r) <= Sq(forceLimit)
  {
    if a.viewCount > 0 then
      Steer(num, num.rotateBy(a.view, me.velocity), me.velocity, speedFactor, forceLimit)
    else
      SqNonNegative(forceLimit);
      Zero
  }

  /** The boid after `flockApply(me)`: the four rule terms added to its
      acceleration in order, and the view count stored as `countAround`. */
  function Apply(num: Numerics, a: Acc, me: Boid, speedFactor: real, forceLimit: real): Boid {
    var acc := Add(Add(Add(Add(me.acceleration,
                 AlignRule(num, a, me, speedFactor, forceLimit)),
                 CohesionRule(num, a, me, speedFactor, forceLimit)),
                 SeparationRule(num, a, me, speedFactor, forceLimit)),
                 ViewRule(num, a, me, speedFactor, forceLimit));
    me.(acceleration := acc, countAround := a.viewCount as real)
  }

  /** `flockApply` only touches the acceleration and the count; with no
      neighbour at all the acceleration is left as it was. */
  lemma ApplyEffect(num: Numerics, a: Acc, me: Boid, speedFactor: real, forceLimit: real)
    ensures var r := Apply(num, a, me, speedFactor, forceLimit);
      && r.position == me.position && r.velocity == me.velocity && r.id == me.id
      && r.countAround == a.viewCount as real
      && (a.alignCount == 0 && a.cohesCount == 0 && a.separCount == 0 && a.viewCount == 0
          ==> r.acceleration == me.acceleration)
  {
  }

  // ------------------------------------------------------------------- move

  /** `glm::mod(x, d)`, that is `x - d * floor(x / d)`. */
  function Mod(x: real, d: real): real
    requires d != 0.0
  {
    x - d * (x / d).Floor as real
  }

  lemma ModRange(x: real, d: real)
    requires d > 0.0
    ensures 0.0 <= Mod(x, d) < d
  {
    var q := x / d;
    var t := q - q.Floor as real;
    assert 0.0 <= t < 1.0;
    assert x == d * q;
    assert Mod(x, d) == d * t;
    NonNegativeProduct(d, t);
    PositiveProduct(d, 1.0 - t);
    assert d * (1.0 - t) == d - d * t;
  }

  /** A value in [d, 2d) has quotient floor 1. */
  lemma FloorOne(y: real, d: real)
    requires d > 0.0 && d <= y < 2.0 * d
    ensures (y / d).Floor == 1
  {
    var q := y / d;
    assert y == d * q;
    if q < 1.0 {
      PositiveProduct(d, 1.0 - q);
      assert false;
    }
    if q >= 2.0 {
      NonNegativeProduct(d, q - 2.0);
      assert false;
    }
  }

  /** The coordinate update of `updateBoid`: `mod(x - low + d, d) + low`. */
  function Wrap(x: real, low: real, d: real): real
    requires d != 0.0
  {
    Mod(x - low + d, d) + low
  }

  /** A positive extent wraps every coordinate into [low, low + d). */
  lemma WrapRange(x: real, low: real, d: real)
    requires d > 0.0
    ensures low <= Wrap(x, low, d) < low + d
  {
    ModRange(x - low + d, d);
  }

  /** A coordinate already inside [low, low + d) is left where it is. */
  lemma WrapInside(x: real, low: real, d: real)
    requires d > 0.0 && low <= x < low + d
    ensures Wrap(x, low, d) == x
  {
    FloorOne(x - low + d, d);
  }

  predicate Positive(d: Vec3) {
    d.x > 0.0 && d.y > 0.0 && d.z > 0.0
  }

  /** Inside the half-open box [low, low + d). */
  predicate InDomain(p: Vec3, low: Vec3, d: Vec3) {
    && low.x <= p.x < low.x + d.x
    && low.y <= p.y < low.y + d.y
    && low.z <= p.z < low.z + d.z
  }

  /** `updateBoid(me)`: the position advances by the old velocity and wraps
      around the space, the velocity takes the acceleration, and the
      acceleration is cleared. */
  function Moved(b: Boid, low: Vec3, d: Vec3): Boid
    requires Positive(d)
  {
    var p := Add(b.position, b.velocity);
    b.(position := Vec3(Wrap(p.x, low.x, d.x), Wrap(p.y, low.y, d.y), Wrap(p.z, low.z, d.z)),
       velocity := Add(b.velocity, b.acceleration),
       acceleration := Zero)
  }

  /** After a move the boid is inside the space; a move that stays inside is
      the plain step `position + velocity`. */
  lemma MovedInDomain(b: Boid, low: Vec3, d: Vec3)
    requires Positive(d)
    ensures InDomain(Moved(b, low, d).position, low, d)
    ensures InDomain(Add(b.position, b.velocity), low, d) ==>
      Moved(b, low, d).position == Add(b.position, b.velocity)
    ensures Moved(b, low, d).velocity == Add(b.velocity, b.acceleration)
    ensures Moved(b, low, d).acceleration == Zero
    ensures Moved(b, low, d).id == b.id && Moved(b, low, d).countAround == b.countAround
  {
    var p := Add(b.position, b.velocity);
    WrapRange(p.x, low.x, d.x);
    WrapRange(p.y, low.y, d.y);
    WrapRange(p.z, low.z, d.z);
    if InDomain(p, low, d) {
      WrapInside(p.x, low.x, d.x);
      WrapInside(p.y, low.y, d.y);
      WrapInside(p.z, low.z, d.z);
    }
  }

  /** The half-open space lies in the closed box of the tree's domain. */
  lemma DomainInBox(p: Vec3, low: Vec3, d: Vec3)
    requires InDomain(p, low, d)
    ensures InBox(p, Box(low, Add(low, d)))
  {
  }

  // ------------------------------------------------------------- neighbours

  /** The indices `EngineCPUBasic::flock(me)` hands to `flockIndividual`
      among the first `n` boids: every boid with another id whose squared
      distance is at most `range2`, in array order. */
  function NaiveNeighbours(bs: seq<Boid>, me: Boid, range2: real, n: int): (r: seq<int>)
    requires 0 <= n <= |bs|
    ensures Indices(r, n)
  {
    if n == 0 then []
    else
      NaiveNeighbours(bs, me, range2, n - 1)
      + (if bs[n - 1].id != me.id && Dist2(me.position, bs[n - 1].position) <= range2 then [n - 1] else [])
  }

  lemma {:induction false} NaiveMembers(bs: seq<Boid>, me: Boid, range2: real, n: int, j: int)
    requires 0 <= n <= |bs|
    ensures j in NaiveNeighbours(bs, me, range2, n) <==>
      0 <= j < n && bs[j].id != me.id && Dist2(me.position, bs[j].position) <= range2
  {
    if n > 0 {
      NaiveMembers(bs, me, range2, n - 1, j);
    }
  }

  /** The indices `EngineCPUTree::flock(me)` hands to `flockIndividual`:
      the reported ids in order, without me's own. */
  function TreeNeighbours(bs: seq<Boid>, ids: seq<int>, me: Boid): (r: seq<int>)
    requires Indices(ids, |bs|)
    ensures Indices(r, |bs|)
  {
    if ids == [] then []
    else
      var last := ids[|ids| - 1];
      TreeNeighbours(bs, ids[..|ids| - 1], me) + (if bs[last].id != me.id then [last] else [])
  }

  lemma {:induction false} TreeMembers(bs: seq<Boid>, ids: seq<int>, me: Boid, x: int)
    requires Indices(ids, |bs|)
    ensures x in TreeNeighbours(bs, ids, me) <==> x in ids && bs[x].id != me.id
  {
    if ids != [] {
      var prefix := ids[..|ids| - 1];
      TreeMembers(bs, prefix, me, x);
      assert ids == prefix + [ids[|ids| - 1]];
    }
  }

  /** Each boid's id is its index in the array. */
  predicate IdsAreIndices(bs: seq<Boid>) {
    forall j :: 0 <= j < |bs| ==> bs[j].id == j
  }

  /** What a finished rebuild of the tree gives the search: a well-formed
      pool that stores every boid, places every stored id in the box of its
      node, and a domain that holds every boid. */
  ghost predicate Indexes(nodes: seq<OctalTree>, bs: seq<Boid>, domain: Box) {
    && Wf(nodes)
    && Placed(nodes, bs, domain)
    && forall j :: 0 <= j < |bs| ==> Stored(nodes, j) > 0 && InBox(bs[j].position, domain)
  }

  /** Every id the search reports indexes the boid array. */
  lemma FoundIndices(nodes: seq<OctalTree>, bs: seq<Boid>, domain: Box, q: Vec3, range2: real)
    requires Wf(nodes) && Placed(nodes, bs, domain)
    ensures Indices(Query(nodes, bs, q, range2, 0).found, |bs|)
  {
    var found := Query(nodes, bs, q, range2, 0).found;
    forall k | 0 <= k < |found|
      ensures 0 <= found[k] < |bs|
    {
      RootQuery(nodes, bs, domain, q, range2, found[k]);
    }
  }

  /** The tree engine flocks with a subset of the naive engine's neighbours
      that contains every neighbour strictly inside the range; only boids at
      squared distance exactly `range2` may be missed, because `covered`
      prunes a box whose closest point is at that distance. */
  lemma TreeNeighboursAgree(nodes: seq<OctalTree>, bs: seq<Boid>, domain: Box, me: Boid, range2: real, x: int)
    requires Indexes(nodes, bs, domain) && IdsAreIndices(bs)
    ensures Indices(Query(nodes, bs, me.position, range2, 0).found, |bs|)
    ensures x in TreeNeighbours(bs, Query(nodes, bs, me.position, range2, 0).found, me) ==>
      x in NaiveNeighbours(bs, me, range2, |bs|)
    ensures x in NaiveNeighbours(bs, me, range2, |bs|) && Dist2(me.position, bs[x].position) < range2 ==>
      x in TreeNeighbours(bs, Query(nodes, bs, me.position, range2, 0).found, me)
  {
    FoundIndices(nodes, bs, domain, me.position, range2);
    var found := Query(nodes, bs, me.position, range2, 0).found;
    TreeMembers(bs, found, me, x);
    NaiveMembers(bs, me, range2, |bs|, x);
    RootQuery(nodes, bs, domain, me.position, range2, x);
    if 0 <= x < |bs| {
      Dist2Symmetric(me.position, bs[x].position);
    }
  }
}
