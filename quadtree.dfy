/** The point quadtree of the web demo: closed rectangular boundaries, nodes
    that keep up to four points and then split into four quarters, and a
    range query that collects the points a rectangle contains. */
module Quadrants {
  import opened Plane

  /** How many points a node keeps before it passes new ones to its children. */
  const CAPACITY: nat := 4

  /** A rectangle given by its top-left corner, width and height (`Boundry`). */
  datatype Boundary = Boundary(x: real, y: real, w: real, h: real)

  /** `Boundry.contains`: the rectangle is closed, its edges belong to it. */
  function Contains(b: Boundary, p: Vec2): (r: bool)
    ensures r <==> b.x <= p.x <= b.x + b.w && b.y <= p.y <= b.y + b.h
  {
    if b.x > p.x || b.y > p.y then false
    else if b.x + b.w < p.x || b.y + b.h < p.y then false
    else true
  }

  /** `Boundry.intersects`: the open overlap of the two rectangles is not
      empty; rectangles that only share an edge do not intersect. */
  function Intersects(b: Boundary, other: Boundary): (r: bool)
    ensures r <==> (other.x < b.x + b.w && b.x < other.x + other.w
                    && other.y < b.y + b.h && b.y < other.y + other.h)
  {
    if other.x + other.w <= b.x || other.y + other.h <= b.y
       || other.x >= b.x + b.w || other.y >= b.y + b.h then false
    else true
  }

  lemma IntersectsSymmetric(a: Boundary, b: Boundary)
    ensures Intersects(a, b) == Intersects(b, a)
  {
  }

  /** A point strictly inside both rectangles makes them intersect. */
  lemma InteriorPointIntersects(a: Boundary, b: Boundary, p: Vec2)
    requires a.x < p.x < a.x + a.w && a.y < p.y < a.y + a.h
    requires b.x < p.x < b.x + b.w && b.y < p.y < b.y + b.h
    ensures Intersects(a, b)
  {
  }

  /** The quarters `subdivide` creates, in the order nw, ne, sw, se. */
  function Quarter(b: Boundary, k: nat): (q: Boundary)
    requires k < 4
    ensures q.w == b.w / 2.0 && q.h == b.h / 2.0
  {
    var w := b.w / 2.0;
    var h := b.h / 2.0;
    if k == 0 then Boundary(b.x, b.y, w, h)
    else if k == 1 then Boundary(b.x + w, b.y, w, h)
    else if k == 2 then Boundary(b.x, b.y + h, w, h)
    else Boundary(b.x + w, b.y + h, w, h)
  }

  /** The four quarters cover their rectangle: a point it contains is contained by one of them. */
  lemma QuartersCover(b: Boundary, p: Vec2)
    requires Contains(b, p)
    ensures exists k :: 0 <= k < 4 && Contains(Quarter(b, k), p)
  {
    if p.x <= b.x + b.w / 2.0 {
      if p.y <= b.y + b.h / 2.0 {
        assert Contains(Quarter(b, 0), p);
      } else {
        assert Contains(Quarter(b, 2), p);
      }
    } else {
      if p.y <= b.y + b.h / 2.0 {
        assert Contains(Quarter(b, 1), p);
      } else {
        assert Contains(Quarter(b, 3), p);
      }
    }
  }

  /** A point of a quarter is a point of its rectangle. */
  lemma QuarterInside(b: Boundary, k: nat, p: Vec2)
    requires k < 4
    requires Contains(Quarter(b, k), p)
    ensures Contains(b, p)
  {
  }

  /** A stored item with the position it had when it was inserted. */
  datatype Entry<T> = Entry(item: T, at: Vec2)

  /** The entries of `es[..n]` that `range` contains, in order (the loop of `query`). */
  function Within<T>(es: seq<Entry<T>>, range: Boundary, n: nat): seq<Entry<T>>
    requires n <= |es|
  {
    if n == 0 then []
    else Within(es, range, n - 1) + (if Contains(range, es[n - 1].at) then [es[n - 1]] else [])
  }

  lemma {:induction false} WithinSound<T>(es: seq<Entry<T>>, range: Boundary, n: nat)
    requires n <= |es|
    ensures forall e :: e in Within(es, range, n) ==> Contains(range, e.at)
    ensures multiset(Within(es, range, n)) <= multiset(es[..n])
  {
    if n > 0 {
      WithinSound(es, range, n - 1);
      assert es[..n] == es[..n - 1] + [es[n - 1]];
    }
  }

  lemma {:induction false} WithinComplete<T>(es: seq<Entry<T>>, range: Boundary, n: nat, i: nat)
    requires i < n <= |es| && Contains(range, es[i].at)
    ensures es[i] in Within(es, range, n)
  {
    if i < n - 1 {
      WithinComplete(es, range, n - 1, i);
    }
  }

  /** A quadtree node: its boundary, the points it keeps itself, how many
      points it has accepted, its area and, once split, its four children. */
  datatype Node<T> = Node(boundary: Boundary, points: seq<Entry<T>>, pointsCount: int,
                          area: real, kids: Kids<T>)

  /** The child fields nw, ne, sw and se, set together by `subdivide`. */
  datatype Kids<T> = Undivided | Divided(nw: Node<T>, ne: Node<T>, sw: Node<T>, se: Node<T>)

  /** `new Quadtree(p)`; its boundary is undefined until `init`, here the empty box at the origin. */
  function Empty<T>(): (n: Node<T>)
    ensures n.points == [] && n.pointsCount == 0 && n.kids == Undivided
  {
    Node(Boundary(0.0, 0.0, 0.0, 0.0), [], 0, 0.0, Undivided)
  }

  /** `init(x, y, w, h)`. */
  function Init<T>(n: Node<T>, x: real, y: real, w: real, h: real): (r: Node<T>)
    ensures r.boundary == Boundary(x, y, w, h) && r.area == w * h
    ensures r.(boundary := n.boundary, area := n.area) == n
  {
    n.(boundary := Boundary(x, y, w, h), area := w * h)
  }

  /** A new node initialised on `b`. */
  function Leaf<T>(b: Boundary): (n: Node<T>)
    ensures n.boundary == b && n.points == [] && n.pointsCount == 0 && n.kids == Undivided
  {
    Init(Empty(), b.x, b.y, b.w, b.h)
  }

  /** `subdivide`: four new children on the quarters of the boundary. */
  function Subdivide<T>(n: Node<T>): (r: Node<T>)
    ensures r.kids.Divided?
    ensures r.kids.nw == Leaf(Quarter(n.boundary, 0)) && r.kids.ne == Leaf(Quarter(n.boundary, 1))
    ensures r.kids.sw == Leaf(Quarter(n.boundary, 2)) && r.kids.se == Leaf(Quarter(n.boundary, 3))
    ensures r.(kids := n.kids) == n
  {
    var b := n.boundary;
    var x, y, w, h := b.x, b.y, b.w, b.h;
    n.(kids := Divided(Init(Empty(), x, y, w / 2.0, h / 2.0),
                       Init(Empty(), x + w / 2.0, y, w / 2.0, h / 2.0),
                       Init(Empty(), x, y + h / 2.0, w / 2.0, h / 2.0),
                       Init(Empty(), x + w / 2.0, y + h / 2.0, w / 2.0, h / 2.0)))
  }

  /** Whether a node keeps a new point itself. */
  predicate HasRoom<T>(n: Node<T>) {
    |n.points| < CAPACITY
  }

  /** Termination rank of `insert`: a node with room does not recurse. */
  function Rank<T>(n: Node<T>): nat {
    if HasRoom(n) then 0 else 1
  }

  function KidsRank<T>(k: Kids<T>): nat {
    if k.Divided? && HasRoom(k.nw) && HasRoom(k.ne) && HasRoom(k.sw) && HasRoom(k.se) then 0 else 1
  }

  /** `insert(point)`: the updated node and whether the point was accepted. */
  function Insert<T>(n: Node<T>, p: Entry<T>): (Node<T>, bool)
    decreases Rank(n), n, 1
  {
    if !Contains(n.boundary, p.at) then (n, false)
    else if HasRoom(n) then (n.(pointsCount := n.pointsCount + 1, points := n.points + [p]), true)
    else
      var split := if n.kids.Divided? then n else Subdivide(n);
      (split.(pointsCount := n.pointsCount + 1, kids := Offer(split.kids, p)), true)
  }

  /** The chain `nw.insert(point) || ne.insert(point) || sw.insert(point) || se.insert(point)`. */
  function Offer<T>(k: Kids<T>, p: Entry<T>): (r: Kids<T>)
    requires k.Divided?
    ensures r.Divided?
    decreases KidsRank(k), k, 0
  {
    var (nw, inNw) := Insert(k.nw, p);
    if inNw then k.(nw := nw)
    else
      var (ne, inNe) := Insert(k.ne, p);
      if inNe then k.(ne := ne)
      else
        var (sw, inSw) := Insert(k.sw, p);
        if inSw then k.(sw := sw)
        else k.(se := Insert(k.se, p).0)
  }

  /** Every entry a node holds, its own and its children's. */
  function Contents<T(==)>(n: Node<T>): multiset<Entry<T>> {
    multiset(n.points)
    + match n.kids
      case Undivided => multiset{}
      case Divided(nw, ne, sw, se) => Contents(nw) + Contents(ne) + Contents(sw) + Contents(se)
  }

  /** No node keeps more than `CAPACITY` points. */
  predicate Bounded<T>(n: Node<T>) {
    && |n.points| <= CAPACITY
    && match n.kids
       case Undivided => true
       case Divided(nw, ne, sw, se) => Bounded(nw) && Bounded(ne) && Bounded(sw) && Bounded(se)
  }

  /** The geometry `insert` keeps: each node's points lie in its boundary
      and its children sit on its quarters. */
  predicate Fitted<T>(n: Node<T>) {
    && (forall i :: 0 <= i < |n.points| ==> Contains(n.boundary, n.points[i].at))
    && match n.kids
       case Undivided => true
       case Divided(nw, ne, sw, se) =>
         && nw.boundary == Quarter(n.boundary, 0) && ne.boundary == Quarter(n.boundary, 1)
         && sw.boundary == Quarter(n.boundary, 2) && se.boundary == Quarter(n.boundary, 3)
         && Fitted(nw) && Fitted(ne) && Fitted(sw) && Fitted(se)
  }

  /** What `query(range)` appends: the node's points in range, then those of
      nw, ne, sw and se; nothing when the boundary misses the range. */
  function Found<T>(n: Node<T>, range: Boundary): seq<Entry<T>> {
    if !Intersects(n.boundary, range) then []
    else
      Within(n.points, range, |n.points|)
      + match n.kids
        case Undivided => []
        case Divided(nw, ne, sw, se) => Found(nw, range) + Found(ne, range) + Found(sw, range) + Found(se, range)
  }

  /** `dispose`: no points and no children; the count stays. */
  function Dispose<T(==)>(n: Node<T>): (r: Node<T>)
    ensures Contents(r) == multiset{} && Bounded(r) && Fitted(r)
    ensures r.pointsCount == n.pointsCount && r.boundary == n.boundary
  {
    n.(points := [], kids := Undivided)
  }

  /** `reset`: `dispose` and a zero count. */
  function Reset<T(==)>(n: Node<T>): (r: Node<T>)
    ensures Contents(r) == multiset{} && r.pointsCount == 0 && r == Leaf(n.boundary).(area := n.area)
  {
    Dispose(n).(pointsCount := 0)
  }

  /** A point outside the boundary is refused and changes nothing; an
      accepted one raises the count by one. */
  lemma InsertAccepts<T>(n: Node<T>, p: Entry<T>)
    ensures Insert(n, p).1 == Contains(n.boundary, p.at)
    ensures !Insert(n, p).1 ==> Insert(n, p).0 == n
    ensures Insert(n, p).1 ==> Insert(n, p).0.pointsCount == n.pointsCount + 1
    ensures Insert(n, p).0.boundary == n.boundary
  {
  }

  /** While the node has room the point is appended to its own points;
      once full the points stay and the node is (or stays) split. */
  lemma InsertKeeps<T>(n: Node<T>, p: Entry<T>)
    requires Contains(n.boundary, p.at)
    ensures HasRoom(n) ==> Insert(n, p).0.points == n.points + [p] && Insert(n, p).0.kids == n.kids
    ensures !HasRoom(n) ==> Insert(n, p).0.points == n.points && Insert(n, p).0.kids.Divided?
    ensures n.kids.Divided? ==> Insert(n, p).0.kids.Divided?
  {
  }

  /** A split node is not split again: the first child, in the order nw,
      ne, sw, se, whose boundary contains the point takes it, and the
      others stay as they were. */
  lemma InsertKeepsChildren<T>(n: Node<T>, p: Entry<T>)
    requires Contains(n.boundary, p.at) && !HasRoom(n) && n.kids.Divided?
    ensures var k, was := Insert(n, p).0.kids, n.kids;
      if Contains(was.nw.boundary, p.at) then k == was.(nw := Insert(was.nw, p).0)
      else if Contains(was.ne.boundary, p.at) then k == was.(ne := Insert(was.ne, p).0)
      else if Contains(was.sw.boundary, p.at) then k == was.(sw := Insert(was.sw, p).0)
      else k == was.(se := Insert(was.se, p).0)
  {
    InsertAccepts(n.kids.nw, p);
    InsertAccepts(n.kids.ne, p);
    InsertAccepts(n.kids.sw, p);
  }

  lemma {:induction false} InsertBounded<T>(n: Node<T>, p: Entry<T>)
    requires Bounded(n)
    ensures Bounded(Insert(n, p).0)
    decreases Rank(n), n, 1
  {
    if Contains(n.boundary, p.at) && !HasRoom(n) {
      var split := if n.kids.Divided? then n else Subdivide(n);
      OfferBounded(split.kids, p);
    }
  }

  lemma {:induction false} OfferBounded<T>(k: Kids<T>, p: Entry<T>)
    requires k.Divided? && Bounded(k.nw) && Bounded(k.ne) && Bounded(k.sw) && Bounded(k.se)
    ensures var r := Offer(k, p); Bounded(r.nw) && Bounded(r.ne) && Bounded(r.sw) && Bounded(r.se)
    decreases KidsRank(k), k, 0
  {
    InsertBounded(k.nw, p);
    if !Insert(k.nw, p).1 {
      InsertBounded(k.ne, p);
      if !Insert(k.ne, p).1 {
        InsertBounded(k.sw, p);
        if !Insert(k.sw, p).1 {
          InsertBounded(k.se, p);
        }
      }
    }
  }

  /** In a fitted tree an accepted point is stored exactly once and the tree stays fitted. */
  lemma {:induction false} InsertStores<T>(n: Node<T>, p: Entry<T>)
    requires Fitted(n)
    ensures Fitted(Insert(n, p).0)
    ensures Insert(n, p).1 ==> Contents(Insert(n, p).0) == Contents(n) + multiset{p}
    ensures !Insert(n, p).1 ==> Contents(Insert(n, p).0) == Contents(n)
    decreases Rank(n), n, 1
  {
    if Contains(n.boundary, p.at) && !HasRoom(n) {
      var split := if n.kids.Divided? then n else Subdivide(n);
      SplitFitted(n);
      QuartersCover(n.boundary, p.at);
      OfferStores(split.kids, n.boundary, p);
      assert Insert(n, p).0 == split.(pointsCount := n.pointsCount + 1, kids := Offer(split.kids, p));
    }
  }

  /** The node a full node passes points through: split on its quarters if
      it was not yet, with the same points and the same contents. */
  lemma SplitFitted<T>(n: Node<T>)
    requires Fitted(n)
    ensures var split := if n.kids.Divided? then n else Subdivide(n);
      && split.boundary == n.boundary && split.points == n.points && split.kids.Divided?
      && split.kids.nw.boundary == Quarter(n.boundary, 0) && split.kids.ne.boundary == Quarter(n.boundary, 1)
      && split.kids.sw.boundary == Quarter(n.boundary, 2) && split.kids.se.boundary == Quarter(n.boundary, 3)
      && Fitted(split.kids.nw) && Fitted(split.kids.ne) && Fitted(split.kids.sw) && Fitted(split.kids.se)
      && Contents(split) == Contents(n)
  {
  }

  lemma {:induction false} OfferStores<T>(k: Kids<T>, b: Boundary, p: Entry<T>)
    requires k.Divided?
    requires k.nw.boundary == Quarter(b, 0) && k.ne.boundary == Quarter(b, 1)
    requires k.sw.boundary == Quarter(b, 2) && k.se.boundary == Quarter(b, 3)
    requires Fitted(k.nw) && Fitted(k.ne) && Fitted(k.sw) && Fitted(k.se)
    requires exists i :: 0 <= i < 4 && Contains(Quarter(b, i), p.at)
    ensures var r := Offer(k, p);
      && r.nw.boundary == Quarter(b, 0) && r.ne.boundary == Quarter(b, 1)
      && r.sw.boundary == Quarter(b, 2) && r.se.boundary == Quarter(b, 3)
      && Fitted(r.nw) && Fitted(r.ne) && Fitted(r.sw) && Fitted(r.se)
      && Contents(r.nw) + Contents(r.ne) + Contents(r.sw) + Contents(r.se)
         == Contents(k.nw) + Contents(k.ne) + Contents(k.sw) + Contents(k.se) + multiset{p}
    decreases KidsRank(k), k, 0
  {
    InsertStores(k.nw, p);
    InsertAccepts(k.nw, p);
    if Insert(k.nw, p).1 {
      assert Offer(k, p) == k.(nw := Insert(k.nw, p).0);
    } else {
      InsertStores(k.ne, p);
      InsertAccepts(k.ne, p);
      if Insert(k.ne, p).1 {
        assert Offer(k, p) == k.(ne := Insert(k.ne, p).0);
      } else {
        InsertStores(k.sw, p);
        InsertAccepts(k.sw, p);
        if Insert(k.sw, p).1 {
          assert Offer(k, p) == k.(sw := Insert(k.sw, p).0);
        } else {
          InsertStores(k.se, p);
          InsertAccepts(k.se, p);
          assert Offer(k, p) == k.(se := Insert(k.se, p).0);
        }
      }
    }
  }

  /** `query` returns only points the range contains, each one stored in the tree. */
  lemma {:induction false} FoundSound<T>(n: Node<T>, range: Boundary)
    ensures forall e :: e in Found(n, range) ==> Contains(range, e.at)
    ensures multiset(Found(n, range)) <= Contents(n)
  {
    if Intersects(n.boundary, range) {
      WithinSound(n.points, range, |n.points|);
      assert n.points[..|n.points|] == n.points;
      match n.kids
      case Undivided =>
      case Divided(nw, ne, sw, se) =>
        FoundSound(nw, range);
        FoundSound(ne, range);
        FoundSound(sw, range);
        FoundSound(se, range);
    }
  }

  /** The loop of `query` over the node's own points: those in range, in order, after `found`. */
  method QueryPoints<T>(points: seq<Entry<T>>, range: Boundary, found: seq<Entry<T>>) returns (result: seq<Entry<T>>)
    ensures result == found + Within(points, range, |points|)
  {
    result := found;
    var i := 0;
    while i < |points|
      invariant 0 <= i <= |points|
      invariant result == found + Within(points, range, i)
    {
      if Contains(range, points[i].at) {
        result := result + [points[i]];
      }
      i := i + 1;
    }
  }

  /** `query(range, found)` on a node: `found` followed by what it holds in range. */
  method Query<T>(n: Node<T>, range: Boundary, found: seq<Entry<T>>) returns (result: seq<Entry<T>>)
    ensures result == found + Found(n, range)
  {
    if !Intersects(n.boundary, range) {
      return found;
    }
    result := QueryPoints(n.points, range, found);
    ghost var own := Within(n.points, range, |n.points|);
    if n.kids.Divided? {
      var k := n.kids;
      ghost var a, b, c, d := Found(k.nw, range), Found(k.ne, range), Found(k.sw, range), Found(k.se, range);
      assert Found(n, range) == own + (a + b + c + d);
      result := Query(k.nw, range, result);
      result := Query(k.ne, range, result);
      result := Query(k.sw, range, result);
      result := Query(k.se, range, result);
      AppendFour(found + own, a, b, c, d);
    } else {
      assert Found(n, range) == own + [];
    }
  }

  lemma AppendFour<T>(s: seq<T>, a: seq<T>, b: seq<T>, c: seq<T>, d: seq<T>)
    ensures s + a + b + c + d == s + (a + b + c + d)
  {
  }

  /** Closed overlap: the two rectangles share a point, an edge point included. */
  function Touches(b: Boundary, other: Boundary): (r: bool)
    ensures forall p :: Contains(b, p) && Contains(other, p) ==> r
  {
    other.x <= b.x + b.w && b.x <= other.x + other.w && other.y <= b.y + b.h && b.y <= other.y + other.h
  }

  /** `query` with the closed overlap test in place of `intersects`. */
  function FoundClosed<T>(n: Node<T>, range: Boundary): seq<Entry<T>> {
    if !Touches(n.boundary, range) then []
    else
      Within(n.points, range, |n.points|)
      + match n.kids
        case Undivided => []
        case Divided(nw, ne, sw, se) =>
          FoundClosed(nw, range) + FoundClosed(ne, range) + FoundClosed(sw, range) + FoundClosed(se, range)
  }

  /** `query` with the closed overlap test: `found` followed by what the node holds in range. */
  method QueryClosed<T>(n: Node<T>, range: Boundary, found: seq<Entry<T>>) returns (result: seq<Entry<T>>)
    ensures result == found + FoundClosed(n, range)
  {
    if !Touches(n.boundary, range) {
      return found;
    }
    result := QueryPoints(n.points, range, found);
    ghost var own := Within(n.points, range, |n.points|);
    if n.kids.Divided? {
      var k := n.kids;
      ghost var a, b, c, d := FoundClosed(k.nw, range), FoundClosed(k.ne, range), FoundClosed(k.sw, range), FoundClosed(k.se, range);
      assert FoundClosed(n, range) == own + (a + b + c + d);
      result := QueryClosed(k.nw, range, result);
      result := QueryClosed(k.ne, range, result);
      result := QueryClosed(k.sw, range, result);
      result := QueryClosed(k.se, range, result);
      AppendFour(found + own, a, b, c, d);
    } else {
      assert FoundClosed(n, range) == own + [];
    }
  }

  /** In a fitted tree every stored point lies in the root's boundary. */
  lemma {:induction false} StoredInside<T>(n: Node<T>, e: Entry<T>)
    requires Fitted(n) && e in Contents(n)
    ensures Contains(n.boundary, e.at)
  {
    if e !in multiset(n.points) {
      var k := n.kids;
      var i: nat := if e in Contents(k.nw) then 0 else if e in Contents(k.ne) then 1
                    else if e in Contents(k.sw) then 2 else 3;
      var child := [k.nw, k.ne, k.sw, k.se][i];
      assert e in Contents(child);
      StoredInside(child, e);
      QuarterInside(n.boundary, i, e.at);
    } else {
      var j :| 0 <= j < |n.points| && n.points[j] == e;
    }
  }

  /** With the closed test a query finds every stored point its range contains. */
  lemma {:induction false} FoundClosedComplete<T>(n: Node<T>, range: Boundary, e: Entry<T>)
    requires Fitted(n) && e in Contents(n) && Contains(range, e.at)
    ensures e in FoundClosed(n, range)
  {
    StoredInside(n, e);
    if e in multiset(n.points) {
      var j :| 0 <= j < |n.points| && n.points[j] == e;
      WithinComplete(n.points, range, |n.points|, j);
    } else {
      var k := n.kids;
      if e in Contents(k.nw) {
        FoundClosedComplete(k.nw, range, e);
      } else if e in Contents(k.ne) {
        FoundClosedComplete(k.ne, range, e);
      } else if e in Contents(k.sw) {
        FoundClosedComplete(k.sw, range, e);
      } else {
        FoundClosedComplete(k.se, range, e);
      }
    }
  }

  /** A point strictly inside the rectangle, on none of its edges. */
  predicate Interior(b: Boundary, p: Vec2) {
    b.x < p.x < b.x + b.w && b.y < p.y < b.y + b.h
  }

  /** The query as written still finds every stored point strictly inside
      its range: only points on the range's edges can be missed. */
  lemma {:induction false} FoundInteriorComplete<T>(n: Node<T>, range: Boundary, e: Entry<T>)
    requires Fitted(n) && e in Contents(n) && Interior(range, e.at)
    ensures e in Found(n, range)
  {
    StoredInside(n, e);
    assert Intersects(n.boundary, range);
    if e in multiset(n.points) {
      var j :| 0 <= j < |n.points| && n.points[j] == e;
      WithinComplete(n.points, range, |n.points|, j);
    } else {
      var k := n.kids;
      if e in Contents(k.nw) {
        FoundInteriorComplete(k.nw, range, e);
      } else if e in Contents(k.ne) {
        FoundInteriorComplete(k.ne, range, e);
      } else if e in Contents(k.sw) {
        FoundInteriorComplete(k.sw, range, e);
      } else {
        FoundInteriorComplete(k.se, range, e);
      }
    }
  }

  /** `query` as written misses a stored point on the shared edge of the
      node and the range: the open test rejects the node. */
  lemma QueryMissesEdgePoint()
    ensures var e := Entry(0, Vec2(100.0, 50.0));
      var n := Insert(Leaf(Boundary(0.0, 0.0, 100.0, 100.0)), e).0;
      var range := Boundary(100.0, 0.0, 50.0, 100.0);
      && Fitted(n) && e in Contents(n) && Contains(range, e.at)
      && Found(n, range) == [] && e in FoundClosed(n, range)
  {
    var e := Entry(0, Vec2(100.0, 50.0));
    var n := Insert(Leaf(Boundary(0.0, 0.0, 100.0, 100.0)), e).0;
    assert n.points == [e];
    var range := Boundary(100.0, 0.0, 50.0, 100.0);
    FoundClosedComplete(n, range, e);
  }
}
