/** The `OctalTree` node of the neighbour index (`src/tree.hpp`,
    `src/tree.cpp`) as a value, and the specification of the pool of nodes:
    octant boxes, the insertion routing, the pruned radius query, and the
    invariants that make the query find every stored boid near the query
    point. The container class that mutates a pool lives in module `Tree`. */
module TreeNodes {
  import opened Geometry
  import opened Boids

  /** Child link / id value meaning "no child" / "no id". */
  const NONE: int := -1
  /** Ids a node stores before it routes further ones to its octants. */
  const CHILDPERNODE: int := 16
  /** Child slots per node: one per octant. */
  const SUBTREES: int := 8

  /** One node: its box, 8 child indices into the pool, 16 id slots of which
      the first `filled` are used. */
  datatype OctalTree = OctalTree(bbox: Box, subtree: seq<int>, boidIdx: seq<int>, filled: int)

  predicate Shaped(n: OctalTree) {
    |n.subtree| == SUBTREES && |n.boidIdx| == CHILDPERNODE && 0 <= n.filled <= CHILDPERNODE
  }

  /** `OctalTree::reset`: every child link and id slot becomes NONE and the
      node is empty; the box is left as it was. */
  function Reset(n: OctalTree): (r: OctalTree)
    ensures Shaped(r) && r.filled == 0 && r.bbox == n.bbox
    ensures forall k :: 0 <= k < SUBTREES ==> r.subtree[k] == NONE
    ensures forall e :: 0 <= e < CHILDPERNODE ==> r.boidIdx[e] == NONE
  {
    OctalTree(n.bbox, seq(SUBTREES, _ => NONE), seq(CHILDPERNODE, _ => NONE), 0)
  }

  /** The ids stored in a node, in slot order. */
  function Entries(n: OctalTree): seq<int> {
    if 0 <= n.filled <= |n.boidIdx| then n.boidIdx[..n.filled] else []
  }

  // ---------------------------------------------------------------- boxes

  /** `OctalTree::set(box, treeIdx)`: the octant of `b` whose upper half on
      x, y and z is selected by the bits 4, 2 and 1 of `k`. */
  function Octant(b: Box, k: nat): Box {
    var k1 := if k >= 4 then k - 4 else k;
    var k2 := if k1 >= 2 then k1 - 2 else k1;
    var lx := if k >= 4 then b.low.x + (b.high.x - b.low.x) / 2.0 else b.low.x;
    var hx := if k >= 4 then b.high.x else b.high.x - (b.high.x - b.low.x) / 2.0;
    var ly := if k1 >= 2 then b.low.y + (b.high.y - b.low.y) / 2.0 else b.low.y;
    var hy := if k1 >= 2 then b.high.y else b.high.y - (b.high.y - b.low.y) / 2.0;
    var lz := if k2 >= 1 then b.low.z + (b.high.z - b.low.z) / 2.0 else b.low.z;
    var hz := if k2 >= 1 then b.high.z else b.high.z - (b.high.z - b.low.z) / 2.0;
    Box(Vec3(lx, ly, lz), Vec3(hx, hy, hz))
  }

  /** Every octant lies inside its parent box. */
  lemma OctantInside(b: Box, k: nat, p: Vec3)
    requires InBox(p, Octant(b, k))
    ensures InBox(p, b)
  {
  }

  /** The octant a point is routed to by `insert`: bit 4/2/1 is set when the
      coordinate is strictly above the box midpoint, so a point on a
      midpoint goes to the lower half. */
  function OctantIndex(b: Box, p: Vec3): (k: int)
    ensures 0 <= k < SUBTREES
    ensures (k >= 4) == (p.x > (b.low.x + b.high.x) / 2.0)
    ensures (k % 4 >= 2) == (p.y > (b.low.y + b.high.y) / 2.0)
    ensures (k % 2 == 1) == (p.z > (b.low.z + b.high.z) / 2.0)
  {
    (if p.x > (b.low.x + b.high.x) / 2.0 then 4 else 0)
    + (if p.y > (b.low.y + b.high.y) / 2.0 then 2 else 0)
    + (if p.z > (b.low.z + b.high.z) / 2.0 then 1 else 0)
  }

  /** A point of a box lies in the octant it is routed to; with
      `OctantInside` this says the eight octants tile the box. */
  lemma RoutedOctantContains(b: Box, p: Vec3)
    requires InBox(p, b)
    ensures InBox(p, Octant(b, OctantIndex(b, p)))
  {
  }

  function Min(a: real, b: real): real { if b < a then b else a }

  function Max(a: real, b: real): real { if a < b then b else a }

  /** The point of box `b` closest to `q`: `q` clamped coordinate-wise. */
  function Closest(b: Box, q: Vec3): Vec3 {
    Vec3(Min(Max(b.low.x, q.x), b.high.x),
         Min(Max(b.low.y, q.y), b.high.y),
         Min(Max(b.low.z, q.z), b.high.z))
  }

  /** `OctalTree::covered`: the closest point of the node's box is strictly
      within the squared range of the query point. */
  predicate Covered(n: OctalTree, q: Vec3, rangeSqr: real) {
    Dist2(q, Closest(n.bbox, q)) < rangeSqr
  }

  /** Clamping into the interval [lo, hi] never moves farther from t than
      any point p of the interval. */
  lemma ClampCloser(t: real, lo: real, hi: real, p: real)
    requires lo <= p <= hi
    ensures Sq(t - Min(Max(lo, t), hi)) <= Sq(t - p)
  {
    var c := Min(Max(lo, t), hi);
    if t < lo {
      assert c == lo;
      SqMonotone(lo - t, p - t);
      SqNeg(t - lo);
      SqNeg(t - p);
    } else if t > hi {
      assert c == hi;
      SqMonotone(t - hi, t - p);
    } else {
      assert c == t;
      SqNonNegative(t - p);
    }
  }

  lemma ClosestIsClosest(b: Box, q: Vec3, p: Vec3)
    requires InBox(p, b)
    ensures Dist2(q, Closest(b, q)) <= Dist2(q, p)
  {
    ClampCloser(q.x, b.low.x, b.high.x, p.x);
    ClampCloser(q.y, b.low.y, b.high.y, p.y);
    ClampCloser(q.z, b.low.z, b.high.z, p.z);
  }

  /** A node whose box holds a point strictly within range is never pruned. */
  lemma CoveredWhenNear(n: OctalTree, q: Vec3, rangeSqr: real, p: Vec3)
    requires InBox(p, n.bbox) && Dist2(p, q) < rangeSqr
    ensures Covered(n, q, rangeSqr)
  {
    ClosestIsClosest(n.bbox, q, p);
    Dist2Symmetric(p, q);
  }

  // ----------------------------------------------------- pool invariants

  /** Every node has the fixed layout. */
  ghost predicate AllShaped(nodes: seq<OctalTree>) {
    forall i :: 0 <= i < |nodes| ==> Shaped(nodes[i])
  }

  /** Every child link is NONE or a later node of the pool. */
  ghost predicate LinksForward(nodes: seq<OctalTree>)
    requires AllShaped(nodes)
  {
    forall i, k :: 0 <= i < |nodes| && 0 <= k < SUBTREES ==>
      nodes[i].subtree[k] == NONE || i < nodes[i].subtree[k] < |nodes|
  }

  /** A child's box is the octant of its parent's box for its slot. */
  ghost predicate Nested(nodes: seq<OctalTree>)
    requires AllShaped(nodes) && LinksForward(nodes)
  {
    forall i, k :: 0 <= i < |nodes| && 0 <= k < SUBTREES && nodes[i].subtree[k] != NONE ==>
      nodes[nodes[i].subtree[k]].bbox == Octant(nodes[i].bbox, k)
  }

  ghost predicate HasParent(nodes: seq<OctalTree>, j: int)
    requires AllShaped(nodes)
  {
    exists i, k :: 0 <= i < j && 0 <= k < SUBTREES && i < |nodes| && nodes[i].subtree[k] == j
  }

  /** Every node but the root hangs below an earlier node. */
  ghost predicate Rooted(nodes: seq<OctalTree>)
    requires AllShaped(nodes)
  {
    forall j :: 0 < j < |nodes| ==> HasParent(nodes, j)
  }

  ghost predicate Wf(nodes: seq<OctalTree>) {
    && |nodes| >= 1
    && AllShaped(nodes)
    && LinksForward(nodes)
    && Nested(nodes)
    && Rooted(nodes)
  }

  /** A well-formed pool has shaped nodes and forward links. */
  lemma WfShapedForward(nodes: seq<OctalTree>)
    requires Wf(nodes)
    ensures AllShaped(nodes) && LinksForward(nodes)
  {
  }

  /** An id stored in a node with box `b` is placed correctly when its
      position lies in `b` whenever it lies in the domain. */
  predicate PlacedId(boids: seq<Boid>, x: int, domain: Box, b: Box) {
    0 <= x < |boids| && InBox(boids[x].position, domain) ==> InBox(boids[x].position, b)
  }

  ghost predicate Placed(nodes: seq<OctalTree>, boids: seq<Boid>, domain: Box)
    requires AllShaped(nodes)
  {
    forall i, e :: 0 <= i < |nodes| && 0 <= e < nodes[i].filled ==>
      PlacedId(boids, nodes[i].boidIdx[e], domain, nodes[i].bbox)
  }

  /** Every stored id is a valid index into an array of `n` boids. */
  ghost predicate IdsBelow(nodes: seq<OctalTree>, n: int)
    requires AllShaped(nodes)
  {
    forall i, e :: 0 <= i < |nodes| && 0 <= e < nodes[i].filled ==> 0 <= nodes[i].boidIdx[e] < n
  }

  /** How often `y` occurs in `s`. */
  function Occurrences(s: seq<int>, y: int): nat {
    if s == [] then 0
    else Occurrences(s[..|s| - 1], y) + (if s[|s| - 1] == y then 1 else 0)
  }

  lemma {:induction false} OccurrencesMember(s: seq<int>, y: int)
    ensures Occurrences(s, y) > 0 <==> y in s
  {
    if s != [] {
      OccurrencesMember(s[..|s| - 1], y);
      assert s == s[..|s| - 1] + [s[|s| - 1]];
    }
  }

  /** How often id `y` is stored in the first `m` nodes. */
  function StoredUpTo(nodes: seq<OctalTree>, m: int, y: int): nat
    requires 0 <= m <= |nodes|
  {
    if m == 0 then 0 else StoredUpTo(nodes, m - 1, y) + Occurrences(Entries(nodes[m - 1]), y)
  }

  /** How often id `y` is stored in the pool. */
  function Stored(nodes: seq<OctalTree>, y: int): nat {
    StoredUpTo(nodes, |nodes|, y)
  }

  // ------------------------------------------------------------- insert

  /** Writes id `x` into the next free slot of node `j`. */
  function AddEntry(nodes: seq<OctalTree>, j: int, x: int): seq<OctalTree>
    requires 0 <= j < |nodes| && Shaped(nodes[j]) && nodes[j].filled < CHILDPERNODE
  {
    var n := nodes[j];
    nodes[j := n.(boidIdx := n.boidIdx[n.filled := x], filled := n.filled + 1)]
  }

  /** `newTree` plus the linking done by `insert`: a fresh empty node for
      octant `k` of node `j` is appended and linked from slot `k`. */
  function Grow(nodes: seq<OctalTree>, j: int, k: int): seq<OctalTree>
    requires 0 <= j < |nodes| && Shaped(nodes[j]) && 0 <= k < SUBTREES
  {
    var n := nodes[j];
    nodes[j := n.(subtree := n.subtree[k := |nodes|])] + [Reset(n).(bbox := Octant(n.bbox, k))]
  }

  /** `insert(boid, idx)` on the pool: a node with a free slot takes the id;
      a full node routes it to the octant of the boid's position, creating
      that child first if the slot is NONE. */
  function Insert(nodes: seq<OctalTree>, x: int, p: Vec3, idx: int): seq<OctalTree>
    requires Wf(nodes) && 0 <= idx < |nodes|
    decreases |nodes| - idx
  {
    var n := nodes[idx];
    if n.filled != CHILDPERNODE then AddEntry(nodes, idx, x)
    else
      var k := OctantIndex(n.bbox, p);
      if n.subtree[k] == NONE then AddEntry(Grow(nodes, idx, k), |nodes|, x)
      else Insert(nodes, x, p, n.subtree[k])
  }

  /** Inserting into a node with a free slot writes the id at slot `filled`,
      increments that node's count and leaves every other node alone. */
  lemma InsertIntoFreeSlot(nodes: seq<OctalTree>, x: int, p: Vec3, idx: int)
    requires Wf(nodes) && 0 <= idx < |nodes| && nodes[idx].filled < CHILDPERNODE
    ensures var r := Insert(nodes, x, p, idx);
      && |r| == |nodes|
      && r[idx].boidIdx == nodes[idx].boidIdx[nodes[idx].filled := x]
      && r[idx].filled == nodes[idx].filled + 1
      && r[idx].bbox == nodes[idx].bbox && r[idx].subtree == nodes[idx].subtree
      && forall j :: 0 <= j < |nodes| && j != idx ==> r[j] == nodes[j]
  {
  }

  lemma {:induction false} StoredNodeUpdate(nodes: seq<OctalTree>, j: int, n: OctalTree, m: int, y: int)
    requires 0 <= j < |nodes| && 0 <= m <= |nodes|
    ensures StoredUpTo(nodes[j := n], m, y)
            == StoredUpTo(nodes, m, y)
               + (if j < m then Occurrences(Entries(n), y) - Occurrences(Entries(nodes[j]), y) else 0)
  {
    if m > 0 {
      StoredNodeUpdate(nodes, j, n, m - 1, y);
      var updated := nodes[j := n];
      assert updated[m - 1] == if j == m - 1 then n else nodes[m - 1];
      var before := StoredUpTo(nodes, m - 1, y);
      var here := Occurrences(Entries(nodes[m - 1]), y);
      assert StoredUpTo(nodes, m, y) == before + here;
      if j == m - 1 {
        assert StoredUpTo(updated, m, y) == StoredUpTo(updated, m - 1, y) + Occurrences(Entries(n), y);
      } else {
        assert StoredUpTo(updated, m, y) == StoredUpTo(updated, m - 1, y) + here;
      }
    }
  }

  lemma {:induction false} StoredPrefix(nodes: seq<OctalTree>, more: seq<OctalTree>, m: int, y: int)
    requires 0 <= m <= |nodes|
    ensures StoredUpTo(nodes + more, m, y) == StoredUpTo(nodes, m, y)
  {
    if m > 0 {
      StoredPrefix(nodes, more, m - 1, y);
      assert (nodes + more)[m - 1] == nodes[m - 1];
    }
  }

  lemma {:induction false} AddEntryStored(nodes: seq<OctalTree>, j: int, x: int, y: int)
    requires 0 <= j < |nodes| && Shaped(nodes[j]) && nodes[j].filled < CHILDPERNODE
    ensures Stored(AddEntry(nodes, j, x), y) == Stored(nodes, y) + (if y == x then 1 else 0)
  {
    var n := nodes[j];
    var n' := n.(boidIdx := n.boidIdx[n.filled := x], filled := n.filled + 1);
    assert Entries(n')[..|Entries(n')| - 1] == Entries(n);
    StoredNodeUpdate(nodes, j, n', |nodes|, y);
  }

  lemma {:induction false} GrowStored(nodes: seq<OctalTree>, j: int, k: int, y: int)
    requires 0 <= j < |nodes| && Shaped(nodes[j]) && 0 <= k < SUBTREES
    ensures Stored(Grow(nodes, j, k), y) == Stored(nodes, y)
  {
    var n := nodes[j];
    var n' := n.(subtree := n.subtree[k := |nodes|]);
    var linked := nodes[j := n'];
    var child := Reset(n).(bbox := Octant(n.bbox, k));
    assert Entries(n') == Entries(n);
    StoredNodeUpdate(nodes, j, n', |nodes|, y);
    StoredPrefix(linked, [child], |linked|, y);
    assert Entries(child) == [];
    assert (linked + [child])[|linked|] == child;
  }

  /** Each insert stores the id exactly once more in the pool; every other
      id is stored as often as before. */
  lemma {:induction false} InsertStored(nodes: seq<OctalTree>, x: int, p: Vec3, idx: int, y: int)
    requires Wf(nodes) && 0 <= idx < |nodes|
    ensures Stored(Insert(nodes, x, p, idx), y) == Stored(nodes, y) + (if y == x then 1 else 0)
    decreases |nodes| - idx
  {
    var n := nodes[idx];
    if n.filled != CHILDPERNODE {
      AddEntryStored(nodes, idx, x, y);
    } else {
      var k := OctantIndex(n.bbox, p);
      if n.subtree[k] == NONE {
        var g := Grow(nodes, idx, k);
        GrowStored(nodes, idx, k, y);
        AddEntryStored(g, |nodes|, x, y);
      } else {
        InsertStored(nodes, x, p, n.subtree[k], y);
      }
    }
  }

  lemma AddEntryWf(nodes: seq<OctalTree>, j: int, x: int)
    requires Wf(nodes) && 0 <= j < |nodes| && nodes[j].filled < CHILDPERNODE
    ensures Wf(AddEntry(nodes, j, x))
  {
    var r := AddEntry(nodes, j, x);
    forall c | 0 < c < |r|
      ensures HasParent(r, c)
    {
      assert HasParent(nodes, c);
      var i, k :| 0 <= i < c && 0 <= k < SUBTREES && i < |nodes| && nodes[i].subtree[k] == c;
      assert r[i].subtree[k] == c;
    }
  }

  lemma GrowWf(nodes: seq<OctalTree>, j: int, k: int)
    requires Wf(nodes) && 0 <= j < |nodes| && 0 <= k < SUBTREES && nodes[j].subtree[k] == NONE
    ensures Wf(Grow(nodes, j, k))
    ensures |Grow(nodes, j, k)| == |nodes| + 1
    ensures Grow(nodes, j, k)[|nodes|].filled == 0
    ensures forall i :: 0 <= i < |nodes| ==> Grow(nodes, j, k)[i].bbox == nodes[i].bbox
  {
    var r := Grow(nodes, j, k);
    forall i, s | 0 <= i < |r| && 0 <= s < SUBTREES
      ensures r[i].subtree[s] == NONE || i < r[i].subtree[s] < |r|
    {
      if i < |nodes| && !(i == j && s == k) {
        assert r[i].subtree[s] == nodes[i].subtree[s];
      }
    }
    forall i, s | 0 <= i < |r| && 0 <= s < SUBTREES && r[i].subtree[s] != NONE
      ensures r[r[i].subtree[s]].bbox == Octant(r[i].bbox, s)
    {
      if i < |nodes| && !(i == j && s == k) {
        assert r[i].subtree[s] == nodes[i].subtree[s];
      }
    }
    forall c | 0 < c < |r|
      ensures HasParent(r, c)
    {
      if c == |nodes| {
        assert r[j].subtree[k] == c;
      } else {
        assert HasParent(nodes, c);
        var i, s :| 0 <= i < c && 0 <= s < SUBTREES && i < |nodes| && nodes[i].subtree[s] == c;
        assert r[i].subtree[s] == c;
      }
    }
  }

  /** Insertion keeps the pool well formed (fixed layout, forward child
      links, octant boxes, every node reachable) and never changes the box of
      an existing node. */
  lemma {:induction false} InsertWf(nodes: seq<OctalTree>, x: int, p: Vec3, idx: int)
    requires Wf(nodes) && 0 <= idx < |nodes|
    ensures Wf(Insert(nodes, x, p, idx))
    ensures |nodes| <= |Insert(nodes, x, p, idx)| <= |nodes| + 1
    ensures forall i :: 0 <= i < |nodes| ==> Insert(nodes, x, p, idx)[i].bbox == nodes[i].bbox
    decreases |nodes| - idx
  {
    var n := nodes[idx];
    if n.filled != CHILDPERNODE {
      AddEntryWf(nodes, idx, x);
    } else {
      var k := OctantIndex(n.bbox, p);
      if n.subtree[k] == NONE {
        GrowWf(nodes, idx, k);
        AddEntryWf(Grow(nodes, idx, k), |nodes|, x);
      } else {
        InsertWf(nodes, x, p, n.subtree[k]);
      }
    }
  }

  /** Ids stored so far stay valid indices when the inserted one is. */
  lemma {:induction false} InsertIdsBelow(nodes: seq<OctalTree>, x: int, p: Vec3, idx: int, count: int)
    requires Wf(nodes) && 0 <= idx < |nodes| && IdsBelow(nodes, count) && 0 <= x < count
    ensures Wf(Insert(nodes, x, p, idx))
    ensures IdsBelow(Insert(nodes, x, p, idx), count)
    decreases |nodes| - idx
  {
    InsertWf(nodes, x, p, idx);
    var n := nodes[idx];
    if n.filled == CHILDPERNODE {
      var k := OctantIndex(n.bbox, p);
      if n.subtree[k] != NONE {
        InsertIdsBelow(nodes, x, p, n.subtree[k], count);
      } else {
        GrowWf(nodes, idx, k);
      }
    }
  }

  /** The inserted boid ends in a node whose box contains its position
      whenever the domain (the root box) does, so correct placement of every
      stored id is preserved. */
  lemma {:induction false} InsertPlaced(nodes: seq<OctalTree>, boids: seq<Boid>, domain: Box, x: int, p: Vec3, idx: int)
    requires Wf(nodes) && 0 <= idx < |nodes| && Placed(nodes, boids, domain)
    requires 0 <= x < |boids| ==> boids[x].position == p
    requires InBox(p, domain) ==> InBox(p, nodes[idx].bbox)
    ensures Wf(Insert(nodes, x, p, idx))
    ensures Placed(Insert(nodes, x, p, idx), boids, domain)
    decreases |nodes| - idx
  {
    InsertWf(nodes, x, p, idx);
    var n := nodes[idx];
    if n.filled != CHILDPERNODE {
      var r := AddEntry(nodes, idx, x);
      forall i, e | 0 <= i < |r| && 0 <= e < r[i].filled
        ensures PlacedId(boids, r[i].boidIdx[e], domain, r[i].bbox)
      {
        if i != idx || e != n.filled {
          assert r[i].boidIdx[e] == nodes[i].boidIdx[e];
        }
      }
    } else {
      var k := OctantIndex(n.bbox, p);
      if InBox(p, domain) {
        RoutedOctantContains(n.bbox, p);
      }
      if n.subtree[k] == NONE {
        GrowWf(nodes, idx, k);
        var g := Grow(nodes, idx, k);
        var r := AddEntry(g, |nodes|, x);
        forall i, e | 0 <= i < |r| && 0 <= e < r[i].filled
          ensures PlacedId(boids, r[i].boidIdx[e], domain, r[i].bbox)
        {
          if i < |nodes| {
            assert r[i].boidIdx[e] == nodes[i].boidIdx[e];
          }
        }
      } else {
        InsertPlaced(nodes, boids, domain, x, p, n.subtree[k]);
      }
    }
  }

  // -------------------------------------------------------------- query

  /** The per-id test of `findRange`: a valid index whose boid's squared
      distance to `q` is at most `rangeSqr`. */
  predicate Near(boids: seq<Boid>, x: int, q: Vec3, rangeSqr: real) {
    0 <= x < |boids| && Dist2(boids[x].position, q) <= rangeSqr
  }

  /** The ids of `ids` that pass the per-id test, in order. */
  function Filter(ids: seq<int>, boids: seq<Boid>, q: Vec3, rangeSqr: real): seq<int> {
    if ids == [] then []
    else Filter(ids[..|ids| - 1], boids, q, rangeSqr)
         + (if Near(boids, ids[|ids| - 1], q, rangeSqr) then [ids[|ids| - 1]] else [])
  }

  lemma {:induction false} FilterMembers(ids: seq<int>, boids: seq<Boid>, q: Vec3, rangeSqr: real, x: int)
    ensures x in Filter(ids, boids, q, rangeSqr) <==> x in ids && Near(boids, x, q, rangeSqr)
  {
    if ids != [] {
      FilterMembers(ids[..|ids| - 1], boids, q, rangeSqr, x);
      assert ids == ids[..|ids| - 1] + [ids[|ids| - 1]];
    }
  }

  /** What one radius search reports (`found`, in report order) and how many
      nodes it visits. */
  datatype Trace = Trace(found: seq<int>, visits: nat)

  /** `findRange(point, rangeSqr, idx)`: the ids of node `idx` that pass the
      per-id test, then for each child slot in order the search below that
      child, if its box is covered. */
  function Query(nodes: seq<OctalTree>, boids: seq<Boid>, q: Vec3, rangeSqr: real, idx: int): Trace
    requires 0 <= idx < |nodes|
    decreases |nodes| - idx, SUBTREES + 1
  {
    var below := ChildQueries(nodes, boids, q, rangeSqr, idx, SUBTREES);
    Trace(Filter(Entries(nodes[idx]), boids, q, rangeSqr) + below.found, 1 + below.visits)
  }

  /** The child node in slot `k` of node `idx`, if the link is a live later node. */
  predicate IsChild(nodes: seq<OctalTree>, idx: int, k: int)
    requires 0 <= idx < |nodes|
  {
    0 <= k < |nodes[idx].subtree| && idx < nodes[idx].subtree[k] < |nodes|
  }

  /** The searches below the child slots `0..k-1` of node `idx`. */
  function ChildQueries(nodes: seq<OctalTree>, boids: seq<Boid>, q: Vec3, rangeSqr: real, idx: int, k: int): Trace
    requires 0 <= idx < |nodes| && 0 <= k <= SUBTREES
    decreases |nodes| - idx, k
  {
    if k == 0 then Trace([], 0)
    else
      var before := ChildQueries(nodes, boids, q, rangeSqr, idx, k - 1);
      if IsChild(nodes, idx, k - 1) && Covered(nodes[nodes[idx].subtree[k - 1]], q, rangeSqr) then
        var sub := Query(nodes, boids, q, rangeSqr, nodes[idx].subtree[k - 1]);
        Trace(before.found + sub.found, before.visits + sub.visits)
      else before
  }

  /** The search below child slot `k` of node `idx`: the child's own search
      when the slot is a live child whose box is covered, nothing otherwise. */
  function ChildVisit(nodes: seq<OctalTree>, boids: seq<Boid>, q: Vec3, rangeSqr: real, idx: int, k: int): Trace
    requires 0 <= idx < |nodes| && 0 <= k < SUBTREES
  {
    if IsChild(nodes, idx, k) && Covered(nodes[nodes[idx].subtree[k]], q, rangeSqr) then
      Query(nodes, boids, q, rangeSqr, nodes[idx].subtree[k])
    else Trace([], 0)
  }

  /** One more child slot of the search appends that slot's visit. */
  lemma ChildQueriesStep(nodes: seq<OctalTree>, boids: seq<Boid>, q: Vec3, rangeSqr: real, idx: int, k: int)
    requires 0 <= idx < |nodes| && 0 <= k < SUBTREES
    ensures ChildQueries(nodes, boids, q, rangeSqr, idx, k + 1) ==
      Trace(ChildQueries(nodes, boids, q, rangeSqr, idx, k).found + ChildVisit(nodes, boids, q, rangeSqr, idx, k).found,
            ChildQueries(nodes, boids, q, rangeSqr, idx, k).visits + ChildVisit(nodes, boids, q, rangeSqr, idx, k).visits)
  {
    var before := ChildQueries(nodes, boids, q, rangeSqr, idx, k);
    if !(IsChild(nodes, idx, k) && Covered(nodes[nodes[idx].subtree[k]], q, rangeSqr)) {
      assert before.found + [] == before.found;
    }
  }

  /** The ids stored at node `idx` and below it. */
  function Contents(nodes: seq<OctalTree>, idx: int): set<int>
    requires 0 <= idx < |nodes|
    decreases |nodes| - idx, SUBTREES + 1
  {
    (set x | x in Entries(nodes[idx])) + ChildContents(nodes, idx, SUBTREES)
  }

  function ChildContents(nodes: seq<OctalTree>, idx: int, k: int): set<int>
    requires 0 <= idx < |nodes| && 0 <= k <= SUBTREES
    decreases |nodes| - idx, k
  {
    if k == 0 then {}
    else
      ChildContents(nodes, idx, k - 1)
      + (if IsChild(nodes, idx, k - 1) then Contents(nodes, nodes[idx].subtree[k - 1]) else {})
  }

  /** Soundness: the search reports only ids stored below the start node
      that pass the per-id test (`dist2 <= rangeSqr`). */
  lemma {:induction false} QuerySound(nodes: seq<OctalTree>, boids: seq<Boid>, q: Vec3, rangeSqr: real, idx: int, x: int)
    requires 0 <= idx < |nodes|
    requires x in Query(nodes, boids, q, rangeSqr, idx).found
    ensures Near(boids, x, q, rangeSqr) && x in Contents(nodes, idx)
    decreases |nodes| - idx, SUBTREES + 1
  {
    var own := Filter(Entries(nodes[idx]), boids, q, rangeSqr);
    FilterMembers(Entries(nodes[idx]), boids, q, rangeSqr, x);
    if x !in own {
      ChildQueriesSound(nodes, boids, q, rangeSqr, idx, SUBTREES, x);
    }
  }

  lemma {:induction false} ChildQueriesSound(nodes: seq<OctalTree>, boids: seq<Boid>, q: Vec3, rangeSqr: real, idx: int, k: int, x: int)
    requires 0 <= idx < |nodes| && 0 <= k <= SUBTREES
    requires x in ChildQueries(nodes, boids, q, rangeSqr, idx, k).found
    ensures Near(boids, x, q, rangeSqr) && x in ChildContents(nodes, idx, k)
    decreases |nodes| - idx, k
  {
    var before := ChildQueries(nodes, boids, q, rangeSqr, idx, k - 1);
    if x in before.found {
      ChildQueriesSound(nodes, boids, q, rangeSqr, idx, k - 1, x);
    } else {
      QuerySound(nodes, boids, q, rangeSqr, nodes[idx].subtree[k - 1], x);
    }
  }

  /** Under correct placement and octant nesting, every id stored below a
      node lies in that node's box (when it lies in the domain). */
  lemma {:induction false} ContentsInBox(nodes: seq<OctalTree>, boids: seq<Boid>, domain: Box, idx: int, x: int)
    requires Wf(nodes) && Placed(nodes, boids, domain) && 0 <= idx < |nodes|
    requires x in Contents(nodes, idx) && 0 <= x < |boids| && InBox(boids[x].position, domain)
    ensures InBox(boids[x].position, nodes[idx].bbox)
    decreases |nodes| - idx, SUBTREES + 1
  {
    if x in Entries(nodes[idx]) {
      var e :| 0 <= e < nodes[idx].filled && nodes[idx].boidIdx[e] == x;
      assert PlacedId(boids, nodes[idx].boidIdx[e], domain, nodes[idx].bbox);
    } else {
      ChildContentsInBox(nodes, boids, domain, idx, SUBTREES, x);
    }
  }

  lemma {:induction false} ChildContentsInBox(nodes: seq<OctalTree>, boids: seq<Boid>, domain: Box, idx: int, k: int, x: int)
    requires Wf(nodes) && Placed(nodes, boids, domain) && 0 <= idx < |nodes| && 0 <= k <= SUBTREES
    requires x in ChildContents(nodes, idx, k) && 0 <= x < |boids| && InBox(boids[x].position, domain)
    ensures InBox(boids[x].position, nodes[idx].bbox)
    decreases |nodes| - idx, k
  {
    if x in ChildContents(nodes, idx, k - 1) {
      ChildContentsInBox(nodes, boids, domain, idx, k - 1, x);
    } else {
      var c := nodes[idx].subtree[k - 1];
      ContentsInBox(nodes, boids, domain, c, x);
      OctantInside(nodes[idx].bbox, k - 1, boids[x].position);
    }
  }

  /** Completeness: every id stored below the start node whose boid lies in
      the domain strictly within range is reported. Boids exactly on the
      radius may be pruned with their node, because `covered` is strict. */
  lemma {:induction false} QueryComplete(nodes: seq<OctalTree>, boids: seq<Boid>, domain: Box, q: Vec3, rangeSqr: real, idx: int, x: int)
    requires Wf(nodes) && Placed(nodes, boids, domain) && 0 <= idx < |nodes|
    requires x in Contents(nodes, idx) && 0 <= x < |boids|
    requires InBox(boids[x].position, domain) && Dist2(boids[x].position, q) < rangeSqr
    ensures x in Query(nodes, boids, q, rangeSqr, idx).found
    decreases |nodes| - idx, SUBTREES + 1
  {
    if x in Entries(nodes[idx]) {
      FilterMembers(Entries(nodes[idx]), boids, q, rangeSqr, x);
    } else {
      ChildQueriesComplete(nodes, boids, domain, q, rangeSqr, idx, SUBTREES, x);
    }
  }

  lemma {:induction false} ChildQueriesComplete(nodes: seq<OctalTree>, boids: seq<Boid>, domain: Box, q: Vec3, rangeSqr: real, idx: int, k: int, x: int)
    requires Wf(nodes) && Placed(nodes, boids, domain) && 0 <= idx < |nodes| && 0 <= k <= SUBTREES
    requires x in ChildContents(nodes, idx, k) && 0 <= x < |boids|
    requires InBox(boids[x].position, domain) && Dist2(boids[x].position, q) < rangeSqr
    ensures x in ChildQueries(nodes, boids, q, rangeSqr, idx, k).found
    decreases |nodes| - idx, k
  {
    if x in ChildContents(nodes, idx, k - 1) {
      ChildQueriesComplete(nodes, boids, domain, q, rangeSqr, idx, k - 1, x);
    } else {
      var c := nodes[idx].subtree[k - 1];
      ContentsInBox(nodes, boids, domain, c, x);
      CoveredWhenNear(nodes[c], q, rangeSqr, boids[x].position);
      QueryComplete(nodes, boids, domain, q, rangeSqr, c, x);
    }
  }

  /** Below every child there is nothing the parent does not also hold. */
  lemma {:induction false} ChildContentsInclude(nodes: seq<OctalTree>, idx: int, k: int, s: int)
    requires 0 <= idx < |nodes| && 0 <= s < k <= SUBTREES && IsChild(nodes, idx, s)
    ensures Contents(nodes, nodes[idx].subtree[s]) <= ChildContents(nodes, idx, k)
    decreases k
  {
    if s < k - 1 {
      ChildContentsInclude(nodes, idx, k - 1, s);
    }
  }

  /** In a well-formed pool every node hangs below the root, so the root's
      contents are all the ids stored anywhere. */
  lemma {:induction false} ReachableFromRoot(nodes: seq<OctalTree>, j: int)
    requires Wf(nodes) && 0 <= j < |nodes|
    ensures Contents(nodes, j) <= Contents(nodes, 0)
  {
    if j > 0 {
      assert HasParent(nodes, j);
      var i, k :| 0 <= i < j && 0 <= k < SUBTREES && i < |nodes| && nodes[i].subtree[k] == j;
      ReachableFromRoot(nodes, i);
      ChildContentsInclude(nodes, i, SUBTREES, k);
    }
  }

  lemma {:induction false} StoredInContents(nodes: seq<OctalTree>, m: int, x: int)
    requires Wf(nodes) && 0 <= m <= |nodes| && StoredUpTo(nodes, m, x) > 0
    ensures x in Contents(nodes, 0)
  {
    if StoredUpTo(nodes, m - 1, x) > 0 {
      StoredInContents(nodes, m - 1, x);
    } else {
      OccurrencesMember(Entries(nodes[m - 1]), x);
      ReachableFromRoot(nodes, m - 1);
    }
  }

  /** The radius search from the root, against the brute-force filter:
      every reported id passes `dist2 <= rangeSqr` and is stored, and every
      stored id whose boid lies in the domain strictly within range is
      reported. */
  lemma RootQuery(nodes: seq<OctalTree>, boids: seq<Boid>, domain: Box, q: Vec3, rangeSqr: real, x: int)
    requires Wf(nodes) && Placed(nodes, boids, domain)
    ensures x in Query(nodes, boids, q, rangeSqr, 0).found ==> Near(boids, x, q, rangeSqr) && x in Contents(nodes, 0)
    ensures Stored(nodes, x) > 0 && 0 <= x < |boids| && InBox(boids[x].position, domain)
            && Dist2(boids[x].position, q) < rangeSqr
            ==> x in Query(nodes, boids, q, rangeSqr, 0).found
  {
    if x in Query(nodes, boids, q, rangeSqr, 0).found {
      QuerySound(nodes, boids, q, rangeSqr, 0, x);
    }
    if Stored(nodes, x) > 0 && 0 <= x < |boids| && InBox(boids[x].position, domain)
       && Dist2(boids[x].position, q) < rangeSqr {
      StoredInContents(nodes, |nodes|, x);
      QueryComplete(nodes, boids, domain, q, rangeSqr, 0, x);
    }
  }
  // ------------------------------------------------- positions only

  /** Two boid arrays of the same length whose boids stand at the same
      positions. */
  predicate SamePositions(bs: seq<Boid>, cs: seq<Boid>) {
    |bs| == |cs| && forall j :: 0 <= j < |bs| ==> bs[j].position == cs[j].position
  }

  lemma {:induction false} FilterSamePositions(ids: seq<int>, bs: seq<Boid>, cs: seq<Boid>, q: Vec3, rangeSqr: real)
    requires SamePositions(bs, cs)
    ensures Filter(ids, bs, q, rangeSqr) == Filter(ids, cs, q, rangeSqr)
  {
    if ids != [] {
      FilterSamePositions(ids[..|ids| - 1], bs, cs, q, rangeSqr);
    }
  }

  /** The search reads nothing of a boid but its position. */
  lemma {:induction false} QuerySamePositions(nodes: seq<OctalTree>, bs: seq<Boid>, cs: seq<Boid>, q: Vec3, rangeSqr: real, idx: int)
    requires SamePositions(bs, cs) && 0 <= idx < |nodes|
    ensures Query(nodes, bs, q, rangeSqr, idx) == Query(nodes, cs, q, rangeSqr, idx)
    decreases |nodes| - idx, SUBTREES + 1
  {
    FilterSamePositions(Entries(nodes[idx]), bs, cs, q, rangeSqr);
    ChildQueriesSamePositions(nodes, bs, cs, q, rangeSqr, idx, SUBTREES);
  }

  lemma {:induction false} ChildQueriesSamePositions(nodes: seq<OctalTree>, bs: seq<Boid>, cs: seq<Boid>, q: Vec3, rangeSqr: real, idx: int, k: int)
    requires SamePositions(bs, cs) && 0 <= idx < |nodes| && 0 <= k <= SUBTREES
    ensures ChildQueries(nodes, bs, q, rangeSqr, idx, k) == ChildQueries(nodes, cs, q, rangeSqr, idx, k)
    decreases |nodes| - idx, k
  {
    if k > 0 {
      ChildQueriesSamePositions(nodes, bs, cs, q, rangeSqr, idx, k - 1);
      if IsChild(nodes, idx, k - 1) && Covered(nodes[nodes[idx].subtree[k - 1]], q, rangeSqr) {
        QuerySamePositions(nodes, bs, cs, q, rangeSqr, nodes[idx].subtree[k - 1]);
      }
    }
  }

  /** Placement reads nothing of a boid but its position. */
  lemma PlacedSamePositions(nodes: seq<OctalTree>, bs: seq<Boid>, cs: seq<Boid>, domain: Box)
    requires AllShaped(nodes) && SamePositions(bs, cs) && Placed(nodes, bs, domain)
    ensures Placed(nodes, cs, domain)
  {
    forall i, e | 0 <= i < |nodes| && 0 <= e < nodes[i].filled
      ensures PlacedId(cs, nodes[i].boidIdx[e], domain, nodes[i].bbox)
    {
      assert PlacedId(bs, nodes[i].boidIdx[e], domain, nodes[i].bbox);
    }
  }

  /** Moving a boid whose id is not stored yet keeps the placement. */
  lemma PlacedMoveUnstored(nodes: seq<OctalTree>, bs: seq<Boid>, domain: Box, i: int, b: Boid)
    requires AllShaped(nodes) && IdsBelow(nodes, i) && Placed(nodes, bs, domain) && 0 <= i < |bs|
    ensures Placed(nodes, bs[i := b], domain)
  {
    forall n, e | 0 <= n < |nodes| && 0 <= e < nodes[n].filled
      ensures PlacedId(bs[i := b], nodes[n].boidIdx[e], domain, nodes[n].bbox)
    {
      assert PlacedId(bs, nodes[n].boidIdx[e], domain, nodes[n].bbox);
    }
  }
}
