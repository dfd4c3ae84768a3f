/** `OctalTreeContainer` (`src/tree.hpp`, `src/tree.cpp`): a growable pool
    of octree nodes addressed by index, with recursive insertion and a
    recursive box-pruned radius search that writes into one shared result
    buffer. Every method is proved against the pool specification of module
    `TreeNodes`. */
module Tree {
  import opened Geometry
  import opened Boids
  import opened TreeNodes

  /** Capacity of a fresh pool. */
  const INITSIZE: int := 32
  /** Capacity of the shared result buffer. */
  const MAXFOUND: int := 1024

  /** What `getBoidsInRange` hands out: the ids found, or, when the last
      search matched more ids than the buffer holds, the number matched. */
  datatype RangeResult = InRange(ids: seq<int>) | Overflow(count: int)

  lemma ConcatAssoc(a: seq<int>, b: seq<int>, c: seq<int>)
    ensures (a + b) + c == a + (b + c)
  {
  }

  class OctalTreeContainer {
    /** The node pool; the first `filled` of its `size` nodes are live. */
    var trees: array<OctalTree>
    /** The boids whose positions the search reads; never written here. */
    const boids: BoidContainer
    var size: int
    var filled: int
    /** The domain: the root node's box. */
    const bbox: Box

    var traversed: int
    var traversedLast: int
    var queries: int
    var maxTraversed: int

    const rangeStack: array<int>
    var rangeCount: int
    /** Every id the current search has matched, in report order; the
        buffer holds its first MAXFOUND entries. */
    ghost var found: seq<int>

    /** The shared buffer agrees with `found` on its first MAXFOUND
        entries and `rangeCount` counts every match. */
    ghost predicate StackValid()
      reads this`rangeCount, this`found, rangeStack
    {
      && rangeStack.Length == MAXFOUND
      && rangeCount == |found|
      && forall i :: 0 <= i < |found| && i < MAXFOUND ==> rangeStack[i] == found[i]
    }

    /** The live prefix of the pool is a well-formed tree rooted at the domain. */
    ghost predicate Pool()
      reads this`trees, this`filled, this`size, trees
    {
      && trees.Length == size
      && 1 <= filled <= size
      && Wf(trees[..filled])
      && trees[0].bbox == bbox
    }

    ghost predicate Valid()
      reads this`trees, this`filled, this`size, this`rangeCount, this`found, trees, rangeStack
    {
      Pool() && StackValid()
    }

    /** Every stored id is an index into the boid array. */
    ghost predicate IdsValid()
      reads this`trees, this`filled, trees
    {
      && 0 <= filled <= trees.Length
      && AllShaped(trees[..filled])
      && IdsBelow(trees[..filled], boids.boids.Length)
    }

    /** What the search needs of the pool: shaped nodes, forward child
        links and ids that index the boid array. */
    ghost predicate Searchable()
      reads this`trees, this`filled, trees
    {
      && 0 <= filled <= trees.Length
      && AllShaped(trees[..filled])
      && LinksForward(trees[..filled])
      && IdsBelow(trees[..filled], boids.boids.Length)
    }

    /** Every stored boid is in the box of its node whenever it is in the
        domain, for the boids' current positions. */
    ghost predicate Placement()
      reads this`trees, this`filled, trees, boids.boids
    {
      && 0 <= filled <= trees.Length
      && AllShaped(trees[..filled])
      && Placed(trees[..filled], boids.boids[..], bbox)
    }

    /** Allocates INITSIZE nodes and resets the pool to a single root
        covering `box`. The slots of the pool carry the domain box until a
        node is created in them. */
    constructor(box: Box, boids: BoidContainer)
      ensures Valid()
      ensures bbox == box && this.boids == boids && size == INITSIZE
      ensures filled == 1 && trees[0] == TreeNodes.Reset(trees[0]) && trees[0].bbox == box
      ensures traversed == 0 && queries == 0 && maxTraversed == 0
      ensures found == [] && rangeCount == 0
      ensures fresh(trees) && fresh(rangeStack)
    {
      this.boids := boids;
      bbox := box;
      trees := new OctalTree[INITSIZE](_ => TreeNodes.Reset(OctalTree(box, [], [], 0)));
      size := INITSIZE;
      filled := 0;
      rangeStack := new int[MAXFOUND](_ => NONE);
      rangeCount := 0;
      found := [];
      traversed, traversedLast, queries, maxTraversed := 0, 0, 0, 0;
      new;
      Reset();
    }

    /** `reset()`: the root becomes an empty node with the domain box, the
        pool holds just the root again and the statistics restart. The
        capacity and every other slot are untouched. */
    method Reset()
      requires trees.Length == size && size >= 1 && StackValid()
      modifies this, trees
      ensures Valid()
      ensures filled == 1 && trees[0] == TreeNodes.Reset(old(trees[0])).(bbox := bbox)
      ensures traversed == 0 && queries == 0 && maxTraversed == 0
      ensures trees == old(trees) && size == old(size)
      ensures forall i :: 1 <= i < trees.Length ==> trees[i] == old(trees[i])
      ensures found == old(found) && rangeCount == old(rangeCount) && traversedLast == old(traversedLast)
    {
      trees[0] := TreeNodes.Reset(trees[0]);
      trees[0] := trees[0].(bbox := bbox);
      filled := 1;
      traversed := 0;
      queries := 0;
      maxTraversed := 0;
      assert trees[..filled] == [trees[0]];
    }

    /** `newTree()`: hands out slot `filled` as a reset node. When the pool
        is full it first doubles its capacity and copies the live nodes. */
    method NewTree() returns (idx: int)
      requires Pool()
      modifies this`trees, this`size, this`filled, trees
      ensures idx == old(filled) && filled == old(filled) + 1
      ensures old(filled) < old(size) ==> trees == old(trees) && size == old(size)
      ensures old(filled) == old(size) ==> fresh(trees) && size == 2 * old(size)
      ensures trees.Length == size && filled <= size
      ensures trees[..idx] == old(trees[..filled])
      ensures trees[idx] == TreeNodes.Reset(trees[idx])
    {
      if filled < size {
        trees[filled] := TreeNodes.Reset(trees[filled]);
        idx := filled;
        filled := filled + 1;
        return;
      }
      var tmp := trees;
      var grown := new OctalTree[2 * size](_ => TreeNodes.Reset(OctalTree(bbox, [], [], 0)));
      var i := 0;
      while i < filled
        invariant 0 <= i <= filled == size == tmp.Length && grown.Length == 2 * size
        invariant grown[..i] == tmp[..i]
        modifies grown
      {
        grown[i] := tmp[i];
        i := i + 1;
      }
      trees := grown;
      trees[filled] := TreeNodes.Reset(trees[filled]);
      size := 2 * size;
      idx := filled;
      filled := filled + 1;
    }

    /** `insert(boid)`: insertion from the root. */
    method Insert(b: Boid)
      requires Pool()
      modifies this`trees, this`size, this`filled, trees
      ensures Pool()
      ensures trees[..filled] == TreeNodes.Insert(old(trees[..filled]), b.id, b.position, 0)
      ensures size >= old(size) && (trees == old(trees) || fresh(trees))
    {
      InsertAt(b, 0);
    }

    /** `insert(boid, idx)`: a node with a free slot takes the id; a full
        node computes the octant of the boid's position from its box
        midpoint, creates that child if the slot is NONE, and recurses. */
    method InsertAt(b: Boid, idx: int)
      requires Pool() && 0 <= idx < filled
      modifies this`trees, this`size, this`filled, trees
      ensures Pool()
      ensures trees[..filled] == TreeNodes.Insert(old(trees[..filled]), b.id, b.position, idx)
      ensures size >= old(size) && (trees == old(trees) || fresh(trees))
      decreases filled - idx + (if trees[idx].filled == CHILDPERNODE then 1 else 0)
    {
      ghost var nodes := trees[..filled];
      if trees[idx].filled != CHILDPERNODE {
        AddHere(b.id, idx);
        return;
      }
      var k := Route(trees[idx].bbox, b.position);
      var child := trees[idx].subtree[k];
      assert child == NONE || idx < child < filled by {
        assert LinksForward(nodes);
      }
      if child == NONE {
        child := Sprout(idx, k);
        ghost var grown := trees[..filled];
        InsertAt(b, child);
        assert TreeNodes.Insert(grown, b.id, b.position, child) == AddEntry(grown, child, b.id);
      } else {
        InsertAt(b, child);
      }
    }

    /** The slot arithmetic of `insert`: bit 4, 2 and 1 select the upper
        half of the box on x, y and z. */
    static method Route(box: Box, p: Vec3) returns (k: int)
      ensures k == OctantIndex(box, p)
    {
      var cx := (box.low.x + box.high.x) / 2.0;
      var cy := (box.low.y + box.high.y) / 2.0;
      var cz := (box.low.z + box.high.z) / 2.0;
      k := 0;
      k := k + (if p.x > cx then 4 else 0);
      k := k + (if p.y > cy then 2 else 0);
      k := k + (if p.z > cz then 1 else 0);
    }

    /** The leaf case of `insert`: the id goes to slot `filled` of node `idx`. */
    method AddHere(x: int, idx: int)
      requires Pool() && 0 <= idx < filled && trees[idx].filled != CHILDPERNODE
      modifies trees
      ensures Pool()
      ensures trees[..filled] == AddEntry(old(trees[..filled]), idx, x)
    {
      ghost var nodes := trees[..filled];
      assert Shaped(nodes[idx]);
      var n := trees[idx];
      trees[idx] := n.(boidIdx := n.boidIdx[n.filled := x], filled := n.filled + 1);
      assert trees[..filled] == AddEntry(nodes, idx, x);
      AddEntryWf(nodes, idx, x);
    }

    /** The new-child case of `insert`: a node from `newTree` is linked from
        slot `k` of node `idx` and takes the octant `k` of its box. */
    method Sprout(idx: int, k: int) returns (child: int)
      requires Pool() && 0 <= idx < filled && 0 <= k < SUBTREES && trees[idx].subtree[k] == NONE
      modifies this`trees, this`size, this`filled, trees
      ensures Pool() && child == old(filled)
      ensures trees[..filled] == Grow(old(trees[..filled]), idx, k)
      ensures trees[child].filled == 0 && size >= old(size)
      ensures trees == old(trees) || fresh(trees)
    {
      ghost var nodes := trees[..filled];
      assert Shaped(nodes[idx]);
      child := NewTree();
      trees[idx] := trees[idx].(subtree := trees[idx].subtree[k := child]);
      trees[child] := trees[child].(bbox := Octant(trees[idx].bbox, k));
      assert trees[..filled] == Grow(nodes, idx, k);
      GrowWf(nodes, idx, k);
    }

    /** `getTrees(count)`: the pool and its number of live nodes. */
    method GetTrees() returns (t: array<OctalTree>, count: int)
      requires Valid()
      ensures t == trees && count == filled
      ensures 1 <= count <= t.Length && Wf(t[..count]) && t[0].bbox == bbox
    {
      t, count := trees, filled;
    }

    /** Appends one match to the shared buffer. The buffer has MAXFOUND
        slots and the source writes past them without a check; the model
        drops such writes but keeps counting, so `rangeCount` still says how
        many ids matched. */
    method Push(x: int)
      requires StackValid()
      modifies this`rangeCount, this`found, rangeStack
      ensures StackValid() && found == old(found) + [x]
    {
      if rangeCount < MAXFOUND {
        rangeStack[rangeCount] := x;
      }
      rangeCount := rangeCount + 1;
      found := found + [x];
    }

    /** `findRange(point, range)`: clears the buffer, searches from the
        root with the squared range and updates the traversal statistics. */
    method FindRange(point: Vec3, range: real)
      requires Valid() && IdsValid()
      modifies this`rangeCount, this`found, this`traversedLast, this`traversed, this`maxTraversed, this`queries, rangeStack
      ensures Valid()
      ensures found == Query(trees[..filled], boids.boids[..], point, Sq(range), 0).found
      ensures traversedLast == Query(trees[..filled], boids.boids[..], point, Sq(range), 0).visits
      ensures traversed == old(traversed) + traversedLast
      ensures maxTraversed >= old(maxTraversed) && maxTraversed >= traversedLast
      ensures maxTraversed == old(maxTraversed) || maxTraversed == traversedLast
      ensures queries == old(queries) + 1
    {
      WfShapedForward(trees[..filled]);
      SearchFromRoot(point, Sq(range));
      traversed := traversed + traversedLast;
      maxTraversed := if maxTraversed < traversedLast then traversedLast else maxTraversed;
      queries := queries + 1;
    }

    /** The clearing of the buffer and the search from the root. */
    method SearchFromRoot(point: Vec3, rangeSqr: real)
      requires Searchable() && 1 <= filled && rangeStack.Length == MAXFOUND
      modifies this`rangeCount, this`found, this`traversedLast, rangeStack
      ensures StackValid()
      ensures found == Query(trees[..filled], boids.boids[..], point, rangeSqr, 0).found
      ensures traversedLast == Query(trees[..filled], boids.boids[..], point, rangeSqr, 0).visits
    {
      rangeCount := 0;
      found := [];
      traversedLast := 0;
      FindRangeAt(point, rangeSqr, 0);
    }

    /** The loop of `findRange(point, rangeSqr, idx)` over the ids of one
        node: each id whose boid is within the squared range is pushed. */
    method ScanEntries(point: Vec3, rangeSqr: real, n: OctalTree)
      requires StackValid() && Shaped(n)
      requires forall e :: 0 <= e < n.filled ==> 0 <= n.boidIdx[e] < boids.boids.Length
      modifies this`rangeCount, this`found, rangeStack
      ensures StackValid()
      ensures found == old(found) + Filter(Entries(n), boids.boids[..], point, rangeSqr)
    {
      ghost var bs := boids.boids[..];
      ghost var found0 := found;
      var i := 0;
      while i < n.filled
        invariant 0 <= i <= n.filled
        invariant StackValid()
        invariant found == found0 + Filter(n.boidIdx[..i], bs, point, rangeSqr)
      {
        var lidx := n.boidIdx[i];
        if Dist2(boids.boids[lidx].position, point) <= rangeSqr {
          Push(lidx);
        }
        assert n.boidIdx[..i + 1][..i] == n.boidIdx[..i];
        i := i + 1;
      }
    }

    /** `findRange(point, rangeSqr, idx)`: reports the ids of node `idx`
        whose boids are within the squared range, then searches every child
        whose box is covered. */
    method FindRangeAt(point: Vec3, rangeSqr: real, idx: int)
      requires Searchable() && StackValid() && 0 <= idx < filled
      modifies this`rangeCount, this`found, this`traversedLast, rangeStack
      ensures StackValid()
      ensures found == old(found) + Query(trees[..filled], boids.boids[..], point, rangeSqr, idx).found
      ensures traversedLast == old(traversedLast) + Query(trees[..filled], boids.boids[..], point, rangeSqr, idx).visits
      decreases filled - idx, 2
    {
      ghost var nodes := trees[..filled];
      ghost var bs := boids.boids[..];
      traversedLast := traversedLast + 1;
      var n := trees[idx];
      assert n == nodes[idx] && Shaped(n);
      assert forall e :: 0 <= e < n.filled ==> 0 <= n.boidIdx[e] < boids.boids.Length by {
        assert IdsBelow(nodes, boids.boids.Length);
      }
      ScanEntries(point, rangeSqr, n);
      ghost var found1 := found;
      SearchChildren(point, rangeSqr, idx);
      ghost var entries := Filter(Entries(nodes[idx]), bs, point, rangeSqr);
      ghost var below := ChildQueries(nodes, bs, point, rangeSqr, idx, SUBTREES);
      assert Query(nodes, bs, point, rangeSqr, idx).found == entries + below.found;
      ConcatAssoc(old(found), entries, below.found);
    }

    /** The loop of `findRange(point, rangeSqr, idx)` over the child slots:
        a live child whose box is covered is searched. */
    method SearchChildren(point: Vec3, rangeSqr: real, idx: int)
      requires Searchable() && StackValid() && 0 <= idx < filled
      modifies this`rangeCount, this`found, this`traversedLast, rangeStack
      ensures StackValid()
      ensures found == old(found) + ChildQueries(trees[..filled], boids.boids[..], point, rangeSqr, idx, SUBTREES).found
      ensures traversedLast == old(traversedLast) + ChildQueries(trees[..filled], boids.boids[..], point, rangeSqr, idx, SUBTREES).visits
      decreases filled - idx, 1
    {
      ghost var nodes := trees[..filled];
      ghost var bs := boids.boids[..];
      var k := 0;
      while k < SUBTREES
        invariant 0 <= k <= SUBTREES
        invariant StackValid()
        invariant found == old(found) + ChildQueries(nodes, bs, point, rangeSqr, idx, k).found
        invariant traversedLast == old(traversedLast) + ChildQueries(nodes, bs, point, rangeSqr, idx, k).visits
      {
        SearchChild(point, rangeSqr, idx, k);
        ChildQueriesStep(nodes, bs, point, rangeSqr, idx, k);
        ConcatAssoc(old(found), ChildQueries(nodes, bs, point, rangeSqr, idx, k).found,
                    ChildVisit(nodes, bs, point, rangeSqr, idx, k).found);
        k := k + 1;
      }
    }

    /** One child slot of `findRange`: recurse into the child when it exists
        and its box is covered. */
    method SearchChild(point: Vec3, rangeSqr: real, idx: int, k: int)
      requires Searchable() && StackValid() && 0 <= idx < filled && 0 <= k < SUBTREES
      modifies this`rangeCount, this`found, this`traversedLast, rangeStack
      ensures StackValid()
      ensures found == old(found) + ChildVisit(trees[..filled], boids.boids[..], point, rangeSqr, idx, k).found
      ensures traversedLast == old(traversedLast) + ChildVisit(trees[..filled], boids.boids[..], point, rangeSqr, idx, k).visits
      decreases filled - idx, 0
    {
      ghost var nodes := trees[..filled];
      var child := trees[idx].subtree[k];
      assert child == NONE || idx < child < filled by {
        assert Shaped(nodes[idx]) && LinksForward(nodes);
      }
      if child != NONE && Covered(trees[child], point, rangeSqr) {
        assert IsChild(nodes, idx, k) && trees[child] == nodes[child];
        FindRangeAt(point, rangeSqr, child);
      } else {
        assert !(IsChild(nodes, idx, k) && Covered(nodes[nodes[idx].subtree[k]], point, rangeSqr));
        assert found == found + [];
      }
    }

    /** `getBoidsInRange(count)`: the ids the last search matched, or an
        overflow when they did not fit the buffer. */
    method GetBoidsInRange() returns (r: RangeResult)
      requires StackValid()
      ensures |found| <= MAXFOUND ==> r == InRange(found)
      ensures |found| > MAXFOUND ==> r == Overflow(|found|)
    {
      if rangeCount <= MAXFOUND {
        r := InRange(rangeStack[..rangeCount]);
      } else {
        r := Overflow(rangeCount);
      }
    }
  }
}
