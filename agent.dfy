/** The agents of the web demo: a flocking rule driven by the DNA's radii,
    a mood that neighbours spread, foraging for the nearest food, wrapping at
    the canvas edges and an ageing step that respawns an agent whose health
    runs out. */
module Agents {
  import opened Geometry
  import opened Plane
  import opened Genome
  import opened Pantry
  import Quadrants

  /** The accumulators of `forces`, without the scratch vectors `tmp`,
      `tmp2` and the constant `origin`. */
  datatype Forces = Forces(align: Vec2, cohes: Vec2, separ: Vec2, food: Vec2,
                           view: real, mood: real, moodNormal: real)

  /** The neighbour counters of `count`. */
  datatype Counts = Counts(align: int, cohes: int, separ: int, view: int,
                           happy: int, uncom: int, mood: int)

  const NoCounts: Counts := Counts(0, 0, 0, 0, 0, 0, 0)

  /** Both accumulators together. */
  datatype Tally = Tally(forces: Forces, count: Counts)

  /** What `prepare` leaves: every accumulator zero but `moodNormal`. */
  function Prepared(f: Forces): (r: Forces)
    ensures r.align == r.cohes == r.separ == r.food == Origin
    ensures r.view == r.mood == 0.0 && r.moodNormal == f.moodNormal
  {
    Forces(Origin, Origin, Origin, Origin, 0.0, 0.0, f.moodNormal)
  }

  /** What the loop of `flock` reads of another agent, and whether it is the agent itself. */
  datatype Peer = Peer(self: bool, pos: Vec2, vel: Vec2, mood: real)

  /** The agent running `flock`: its position, velocity and DNA sequence. */
  datatype Viewer = Viewer(pos: Vec2, vel: Vec2, genes: seq<real>)

  /** The DNA getter `g` of the viewer. */
  function Trait(me: Viewer, g: Gene): real
    requires |me.genes| == LENGTH
  {
    me.genes[Slot(g)]
  }

  /** Lines 128-131: an agent inside the alignment radius adds its velocity. */
  function AlignStep(me: Viewer, d: real, o: Peer, t: Tally): Tally
    requires |me.genes| == LENGTH
  {
    if d < Trait(me, AlignmentZone)
    then Tally(t.forces.(align := Add2(t.forces.align, o.vel)), t.count.(align := t.count.align + 1))
    else t
  }

  /** Lines 134-137: an agent inside the cohesion radius adds its position. */
  function CohesStep(me: Viewer, d: real, o: Peer, t: Tally): Tally
    requires |me.genes| == LENGTH
  {
    if d < Trait(me, CohesionZone)
    then Tally(t.forces.(cohes := Add2(t.forces.cohes, o.pos)), t.count.(cohes := t.count.cohes + 1))
    else t
  }

  /** Lines 140-145: an agent inside the separation radius adds the offset
      away from it divided by the distance. */
  function SeparStep(fl: Floats, me: Viewer, d: real, o: Peer, t: Tally): Tally
    requires |me.genes| == LENGTH
  {
    if d < Trait(me, SeparationZone)
    then Tally(t.forces.(separ := Add2(t.forces.separ, Divide2(fl, Sub2(me.pos, o.pos), d))),
               t.count.(separ := t.count.separ + 1))
    else t
  }

  /** Lines 148-157: an agent inside the view radius and less than one
      radian off the heading adds its angle, signed by the side it is on. */
  function ViewStep(fl: Floats, me: Viewer, d: real, o: Peer, t: Tally): Tally
    requires |me.genes| == LENGTH
  {
    var toOther := Sub2(o.pos, me.pos);
    var angle := fl.angle(me.vel, toOther);
    if d < Trait(me, ViewZone) && angle < 1.0 then
      var turn := if Dot2(fl.rotate(me.vel, fl.halfPi), toOther) > 0.0 then -angle else angle;
      Tally(t.forces.(view := t.forces.view + turn), t.count.(view := t.count.view + 1))
    else t
  }

  /** Lines 159-163: an agent is uncomfortably close, or else happily near, or neither. */
  function CrowdStep(me: Viewer, d: real, t: Tally): Tally
    requires |me.genes| == LENGTH
  {
    if d < Trait(me, CloseZone) then t.(count := t.count.(uncom := t.count.uncom + 1))
    else if d < Trait(me, HappyZone) then t.(count := t.count.(happy := t.count.happy + 1))
    else t
  }

  /** Lines 165-168: an agent inside the sensitive radius adds its mood. */
  function MoodStep(me: Viewer, d: real, o: Peer, t: Tally): Tally
    requires |me.genes| == LENGTH
  {
    if d < Trait(me, SensitiveZone)
    then Tally(t.forces.(mood := t.forces.mood + o.mood), t.count.(mood := t.count.mood + 1))
    else t
  }

  /** One pass of the loop of `flock` over `o`: nothing for the agent itself. */
  function Meet(fl: Floats, me: Viewer, t: Tally, o: Peer): Tally
    requires |me.genes| == LENGTH
  {
    if o.self then t
    else
      var d := Dist(fl, me.pos, o.pos);
      MoodStep(me, d, o, CrowdStep(me, d, ViewStep(fl, me, d, o, SeparStep(fl, me, d, o,
        CohesStep(me, d, o, AlignStep(me, d, o, t))))))
  }

  /** The loop of `flock` over the first `n` peers. */
  function Gather(fl: Floats, me: Viewer, t: Tally, peers: seq<Peer>, n: nat): Tally
    requires |me.genes| == LENGTH && n <= |peers|
  {
    if n == 0 then t else Meet(fl, me, Gather(fl, me, t, peers, n - 1), peers[n - 1])
  }

  /** Whether `o` is another agent closer than `zone`. */
  function Hit(fl: Floats, me: Viewer, o: Peer, zone: real): nat {
    if !o.self && Dist(fl, me.pos, o.pos) < zone then 1 else 0
  }

  /** How many of the first `n` peers other than the agent itself lie closer than `zone`. */
  function Near(fl: Floats, me: Viewer, peers: seq<Peer>, n: nat, zone: real): nat
    requires n <= |peers|
  {
    if n == 0 then 0 else Near(fl, me, peers, n - 1, zone) + Hit(fl, me, peers[n - 1], zone)
  }

  /** The sum of the moods of the first `n` peers other than the agent itself closer than `zone`. */
  function MoodNear(fl: Floats, me: Viewer, peers: seq<Peer>, n: nat, zone: real): real
    requires n <= |peers|
  {
    if n == 0 then 0.0
    else MoodNear(fl, me, peers, n - 1, zone) + Hit(fl, me, peers[n - 1], zone) as real * peers[n - 1].mood
  }

  /** One peer moves each counter by one exactly when it lies inside the counter's radius. */
  lemma MeetCounts(fl: Floats, me: Viewer, t: Tally, o: Peer)
    requires |me.genes| == LENGTH
    ensures var c, c0 := Meet(fl, me, t, o).count, t.count;
      && c.align == c0.align + Hit(fl, me, o, Trait(me, AlignmentZone))
      && c.cohes == c0.cohes + Hit(fl, me, o, Trait(me, CohesionZone))
      && c.separ == c0.separ + Hit(fl, me, o, Trait(me, SeparationZone))
      && c.mood == c0.mood + Hit(fl, me, o, Trait(me, SensitiveZone))
      && c.uncom == c0.uncom + Hit(fl, me, o, Trait(me, CloseZone))
      && c.uncom + c.happy == c0.uncom + c0.happy + Hit(fl, me, o, Max(Trait(me, CloseZone), Trait(me, HappyZone)))
      && c0.view <= c.view <= c0.view + Hit(fl, me, o, Trait(me, ViewZone))
    ensures Meet(fl, me, t, o).forces.mood
            == t.forces.mood + Hit(fl, me, o, Trait(me, SensitiveZone)) as real * o.mood
  {
    if !o.self {
      var d := Dist(fl, me.pos, o.pos);
      var t1 := AlignStep(me, d, o, t);
      var t2 := CohesStep(me, d, o, t1);
      var t3 := SeparStep(fl, me, d, o, t2);
      var t4 := ViewStep(fl, me, d, o, t3);
      var t5 := CrowdStep(me, d, t4);
      assert t1.count == t.count.(align := t.count.align + Hit(fl, me, o, Trait(me, AlignmentZone)));
      assert t2.count == t1.count.(cohes := t.count.cohes + Hit(fl, me, o, Trait(me, CohesionZone)));
      assert t3.count == t2.count.(separ := t.count.separ + Hit(fl, me, o, Trait(me, SeparationZone)));
      assert t4.count == t3.count.(view := t4.count.view) && t.count.view <= t4.count.view <= t.count.view + 1;
      assert t5.count.uncom == t.count.uncom + Hit(fl, me, o, Trait(me, CloseZone));
      assert t5.count.(uncom := t4.count.uncom, happy := t4.count.happy) == t4.count;
      assert t5.forces == t4.forces;
    }
  }

  /** Each counter of `flock` counts the other agents inside its radius; an
      agent is either uncomfortably close or happy, never both; only the
      view counter also needs the angle; the mood sum adds up the moods
      inside the sensitive radius. */
  lemma {:induction false} GatherCounts(fl: Floats, me: Viewer, t: Tally, peers: seq<Peer>, n: nat)
    requires |me.genes| == LENGTH && n <= |peers|
    ensures var c, c0 := Gather(fl, me, t, peers, n).count, t.count;
      && c.align == c0.align + Near(fl, me, peers, n, Trait(me, AlignmentZone))
      && c.cohes == c0.cohes + Near(fl, me, peers, n, Trait(me, CohesionZone))
      && c.separ == c0.separ + Near(fl, me, peers, n, Trait(me, SeparationZone))
      && c.mood == c0.mood + Near(fl, me, peers, n, Trait(me, SensitiveZone))
      && c.uncom == c0.uncom + Near(fl, me, peers, n, Trait(me, CloseZone))
      && c.uncom + c.happy == c0.uncom + c0.happy
         + Near(fl, me, peers, n, Max(Trait(me, CloseZone), Trait(me, HappyZone)))
      && c0.view <= c.view <= c0.view + Near(fl, me, peers, n, Trait(me, ViewZone))
    ensures Gather(fl, me, t, peers, n).forces.mood
            == t.forces.mood + MoodNear(fl, me, peers, n, Trait(me, SensitiveZone))
  {
    if n > 0 {
      GatherCounts(fl, me, t, peers, n - 1);
      MeetCounts(fl, me, Gather(fl, me, t, peers, n - 1), peers[n - 1]);
    }
  }

  /** `Math.max` and `Math.min` on numbers that are not NaN. */
  function Max(a: real, b: real): real {
    if a < b then b else a
  }

  function Min(a: real, b: real): real {
    if b < a then b else a
  }

  /** Gather looks only at the first `n` peers. */
  lemma {:induction false} GatherPrefix(fl: Floats, me: Viewer, t: Tally, a: seq<Peer>, b: seq<Peer>, n: nat)
    requires |me.genes| == LENGTH && n <= |a| && n <= |b| && a[..n] == b[..n]
    ensures Gather(fl, me, t, a, n) == Gather(fl, me, t, b, n)
  {
    if n > 0 {
      assert a[..n - 1] == a[..n][..n - 1] == b[..n][..n - 1] == b[..n - 1];
      assert a[n - 1] == a[..n][n - 1] == b[n - 1];
      GatherPrefix(fl, me, t, a, b, n - 1);
    }
  }

  /** The agent's own entry in the list plays no part: dropping it leaves the tally as it was. */
  lemma {:induction false} SelfIgnored(fl: Floats, me: Viewer, t: Tally, peers: seq<Peer>, n: nat, j: nat)
    requires |me.genes| == LENGTH && j < n <= |peers| && peers[j].self
    ensures Gather(fl, me, t, peers, n) == Gather(fl, me, t, peers[..j] + peers[j + 1..], n - 1)
  {
    var rest := peers[..j] + peers[j + 1..];
    if n - 1 == j {
      assert peers[..j] == rest[..j];
      GatherPrefix(fl, me, t, peers, rest, j);
    } else {
      SelfIgnored(fl, me, t, peers, n - 1, j);
      assert rest[n - 2] == peers[n - 1];
    }
  }

  /** What `flock` does after its loop: the new `forces`, the acceleration and the mood swing. */
  datatype Steering = Steering(forces: Forces, acc: Vec2, swing: real)

  /** The factor of the separation limit: 0.75 for the best mood, 1.25 for the worst. */
  function MoodNormal(me: Viewer, mood: real): real
    requires |me.genes| == LENGTH && Trait(me, MoodLimit) > 0.0
  {
    (Trait(me, MoodLimit) - mood) / (Trait(me, MoodLimit) * 4.0) + 0.75
  }

  /** Lines 172-178: towards the mean velocity of the aligned agents, at most the force. */
  function AlignPush(fl: Floats, me: Viewer, sum: Vec2, count: int): (r: Vec2)
    requires |me.genes| == LENGTH && count > 0
    ensures SquareRoot(fl.sqrt) ==> SqrLen(r) <= Sq(Trait(me, Force))
  {
    Limit2(fl, Sub2(SetMag(fl, Scale2(1.0 / count as real, sum), Trait(me, Speed)), me.vel), Trait(me, Force))
  }

  /** Lines 181-188: towards the mean position of the cohesive agents, at most the force. */
  function CohesPush(fl: Floats, me: Viewer, sum: Vec2, count: int): (r: Vec2)
    requires |me.genes| == LENGTH && count > 0
    ensures SquareRoot(fl.sqrt) ==> SqrLen(r) <= Sq(Trait(me, Force))
  {
    Limit2(fl, Sub2(SetMag(fl, Sub2(Scale2(1.0 / count as real, sum), me.pos), Trait(me, Speed)), me.vel),
           Trait(me, Force))
  }

  /** Lines 191-198: away from the crowding agents, at most `moodNormal` times the force. */
  function SeparPush(fl: Floats, me: Viewer, sum: Vec2, count: int, moodNormal: real): (r: Vec2)
    requires |me.genes| == LENGTH && count > 0
    ensures SquareRoot(fl.sqrt) ==> SqrLen(r) <= Sq(moodNormal * Trait(me, Force))
  {
    Limit2(fl, Sub2(SetMag(fl, Scale2(1.0 / count as real, sum), Trait(me, Speed)), me.vel),
           moodNormal * Trait(me, Force))
  }

  /** Lines 201-207: the velocity turned by the mean view angle, at most the
      force (it is left in the scratch vector `tmp`). */
  function ViewPush(fl: Floats, me: Viewer, view: real, count: int): (r: Vec2)
    requires |me.genes| == LENGTH && count > 0
    ensures SquareRoot(fl.sqrt) ==> SqrLen(r) <= Sq(Trait(me, Force))
  {
    Limit2(fl, Add2(SetMag(fl, fl.rotate(me.vel, view / count as real), Trait(me, Speed)), me.vel), Trait(me, Force))
  }

  /** Line 214: the swing from crowding (two per uncomfortable neighbour
      against one per happy one) and from the agent's mental health. */
  function Temper(me: Viewer, c: Counts): real
    requires |me.genes| == LENGTH
  {
    Trait(me, Moodiness) * (Trait(me, MentalEndurance) * (-(c.uncom as real) * 2.0 + c.happy as real) + Trait(me, MentalHealth))
  }

  /** Lines 172-178 on the steering state: with aligned agents, the align
      force becomes the push and the acceleration gains it. */
  function AlignSteer(fl: Floats, me: Viewer, s: Steering, c: Counts): Steering
    requires |me.genes| == LENGTH
  {
    if c.align > 0 then
      var push := AlignPush(fl, me, s.forces.align, c.align);
      s.(forces := s.forces.(align := push), acc := Add2(s.acc, push))
    else s
  }

  /** Lines 181-188 on the steering state. */
  function CohesSteer(fl: Floats, me: Viewer, s: Steering, c: Counts): Steering
    requires |me.genes| == LENGTH
  {
    if c.cohes > 0 then
      var push := CohesPush(fl, me, s.forces.cohes, c.cohes);
      s.(forces := s.forces.(cohes := push), acc := Add2(s.acc, push))
    else s
  }

  /** Lines 191-198 on the steering state: `moodNormal` is recomputed from the mood first. */
  function SeparSteer(fl: Floats, me: Viewer, mood: real, s: Steering, c: Counts): Steering
    requires |me.genes| == LENGTH && Trait(me, MoodLimit) > 0.0
  {
    if c.separ > 0 then
      var moodNormal := MoodNormal(me, mood);
      var push := SeparPush(fl, me, s.forces.separ, c.separ, moodNormal);
      s.(forces := s.forces.(separ := push, moodNormal := moodNormal), acc := Add2(s.acc, push))
    else s
  }

  /** Lines 201-207 on the steering state: only the acceleration changes. */
  function ViewSteer(fl: Floats, me: Viewer, s: Steering, c: Counts): Steering
    requires |me.genes| == LENGTH
  {
    if c.view > 0 then s.(acc := Add2(s.acc, ViewPush(fl, me, s.forces.view, c.view))) else s
  }

  /** Lines 210-214 on the steering state: the mood of the sensed agents,
      then crowding and mental health, move the swing. */
  function SwingSteer(me: Viewer, s: Steering, c: Counts): Steering
    requires |me.genes| == LENGTH
  {
    var swing := if c.mood > 0 then s.swing + Trait(me, Moodiness) * s.forces.mood / c.mood as real else s.swing;
    s.(swing := swing + Temper(me, c))
  }

  /** The part of `flock` after the loop, steering by each non-empty tally
      and shifting the mood swing. */
  function Steer(fl: Floats, me: Viewer, mood: real, acc: Vec2, swing: real, t: Tally): Steering
    requires |me.genes| == LENGTH && Trait(me, MoodLimit) > 0.0
  {
    var c := t.count;
    var s1 := AlignSteer(fl, me, Steering(t.forces, acc, swing), c);
    var s2 := CohesSteer(fl, me, s1, c);
    var s3 := SeparSteer(fl, me, mood, s2, c);
    var s4 := ViewSteer(fl, me, s3, c);
    SwingSteer(me, s4, c)
  }

  /** A mood within the limit puts the separation limit between 0.75 and 1.25 times the force. */
  lemma MoodNormalRange(me: Viewer, mood: real)
    requires |me.genes| == LENGTH && Trait(me, MoodLimit) > 0.0
    requires -Trait(me, MoodLimit) <= mood <= Trait(me, MoodLimit)
    ensures 0.75 <= MoodNormal(me, mood) <= 1.25
    ensures mood == Trait(me, MoodLimit) ==> MoodNormal(me, mood) == 0.75
  {
    var l := Trait(me, MoodLimit);
    assert (l - mood) / (l * 4.0) == (l - mood) / l / 4.0;
    assert 0.0 <= (l - mood) / l <= 2.0 by {
      assert (l - mood) / l * l == l - mood;
    }
  }

  /** The acceleration gains exactly the pushes whose tally is not empty;
      with no neighbour at all it stays and only the agent's mental health
      moves the mood swing. */
  lemma SteerAccumulates(fl: Floats, me: Viewer, mood: real, acc: Vec2, swing: real, t: Tally)
    requires |me.genes| == LENGTH && Trait(me, MoodLimit) > 0.0
    ensures var s, c, f := Steer(fl, me, mood, acc, swing, t), t.count, t.forces;
      s.acc == Add2(Add2(Add2(Add2(acc,
                 if c.align > 0 then AlignPush(fl, me, f.align, c.align) else Origin),
                 if c.cohes > 0 then CohesPush(fl, me, f.cohes, c.cohes) else Origin),
                 if c.separ > 0 then SeparPush(fl, me, f.separ, c.separ, MoodNormal(me, mood)) else Origin),
                 if c.view > 0 then ViewPush(fl, me, f.view, c.view) else Origin)
    ensures t.count == NoCounts ==>
      && Steer(fl, me, mood, acc, swing, t).acc == acc
      && Steer(fl, me, mood, acc, swing, t).swing == swing + Trait(me, Moodiness) * Trait(me, MentalHealth)
  {
  }

  /** What the loop of `eat` reads of a food item. */
  datatype Dish = Dish(eaten: bool, pos: Vec2)

  /** The `target` of `eat`: `undefined` or the index of the chosen item. */
  datatype Target = NoTarget | Target(index: nat)

  /** `minDist` and `target` of `eat`. */
  datatype Choice = Choice(minDist: real, target: Target)

  /** The loop of `eat` over the first `n` items: -1 stands for no distance
      yet; an uneaten item inside the food radius replaces the current choice
      when it is strictly closer. */
  function Choose(fl: Floats, pos: Vec2, zone: real, dishes: seq<Dish>, n: nat): (c: Choice)
    requires n <= |dishes|
    ensures c.target.Target? ==> c.target.index < n
  {
    if n == 0 then Choice(-1.0, NoTarget)
    else
      var c := Choose(fl, pos, zone, dishes, n - 1);
      var d := Dist(fl, pos, dishes[n - 1].pos);
      if !dishes[n - 1].eaten && (d < c.minDist || c.minDist == -1.0) && d < zone
      then Choice(d, Target(n - 1))
      else c
  }

  /** An item `eat` may choose: not eaten and inside the food radius. */
  predicate Edible(fl: Floats, pos: Vec2, zone: real, d: Dish) {
    !d.eaten && Dist(fl, pos, d.pos) < zone
  }

  /** `eat` finds no target exactly when no item is edible; otherwise it
      finds the first of the nearest edible items and records its distance. */
  lemma {:induction false} ChooseNearest(fl: Floats, pos: Vec2, zone: real, dishes: seq<Dish>, n: nat)
    requires SquareRoot(fl.sqrt) && n <= |dishes|
    ensures var c := Choose(fl, pos, zone, dishes, n);
      && (c.target == NoTarget <==> forall k :: 0 <= k < n ==> !Edible(fl, pos, zone, dishes[k]))
      && (c.target == NoTarget <==> c.minDist == -1.0)
      && (c.target.Target? ==>
           && c.target.index < n && Edible(fl, pos, zone, dishes[c.target.index])
           && c.minDist == Dist(fl, pos, dishes[c.target.index].pos)
           && (forall k :: 0 <= k < n && Edible(fl, pos, zone, dishes[k]) ==> c.minDist <= Dist(fl, pos, dishes[k].pos))
           && (forall k :: 0 <= k < c.target.index && Edible(fl, pos, zone, dishes[k]) ==>
                 c.minDist < Dist(fl, pos, dishes[k].pos)))
  {
    if n > 0 {
      ChooseNearest(fl, pos, zone, dishes, n - 1);
      var d := Dist(fl, pos, dishes[n - 1].pos);
      assert d >= 0.0;
    }
  }

  /** Lines 244-249: towards the chosen item at the given distance, at most a tenth of the force. */
  function FoodPush(fl: Floats, me: Viewer, target: Vec2, minDist: real): (r: Vec2)
    requires |me.genes| == LENGTH && minDist != 0.0
    ensures SquareRoot(fl.sqrt) ==> SqrLen(r) <= Sq(0.1 * Trait(me, Force))
  {
    Limit2(fl, Sub2(SetMag(fl, Scale2(1.0 / minDist, Sub2(target, me.pos)), Trait(me, Speed)), me.vel),
           0.1 * Trait(me, Force))
  }

  /** `edges` on one coordinate: past the far edge to 0, below 0 to the far edge. */
  function Wrap(v: real, limit: real): (r: real)
    ensures limit >= 0.0 ==> 0.0 <= r <= limit
    ensures 0.0 <= v <= limit ==> r == v
  {
    if v > limit then 0.0 else if v < 0.0 then limit else v
  }

  /** Wrapping a second time changes nothing. */
  lemma WrapIdempotent(v: real, limit: real)
    requires limit >= 0.0
    ensures Wrap(Wrap(v, limit), limit) == Wrap(v, limit)
  {
  }

  /** The square of half-side `r` around `c` that `flockBoundry` and `foodBoundry` build. */
  function Square(c: Vec2, r: real): (b: Quadrants.Boundary)
    ensures b.w == b.h == 2.0 * r
  {
    Quadrants.Boundary(c.x - r, c.y - r, r * 2.0, r * 2.0)
  }

  lemma SqBelow(a: real, r: real)
    requires r >= 0.0 && Sq(a) < Sq(r)
    ensures -r < a < r
  {
    if a >= r {
      SqMonotone(r, a);
    } else if a <= -r {
      SqMonotone(r, -a);
      SqNeg(a);
    }
  }

  lemma SqStrict(a: real, b: real)
    requires 0.0 <= a < b
    ensures Sq(a) < Sq(b)
  {
    assert b * b - a * a == (b - a) * (b + a);
    PositiveProduct(b - a, b + a);
  }

  /** Every point closer to `c` than `r` lies strictly inside the square around `c`. */
  lemma NearInSquare(fl: Floats, c: Vec2, q: Vec2, r: real)
    requires SquareRoot(fl.sqrt) && Dist(fl, c, q) < r
    ensures Quadrants.Interior(Square(c, r), q) && Quadrants.Contains(Square(c, r), q)
  {
    var d := Dist(fl, c, q);
    SqStrict(d, r);
    SqNonNegative(c.x - q.x);
    SqNonNegative(c.y - q.y);
    SqBelow(c.x - q.x, r);
    SqBelow(c.y - q.y, r);
  }

  /** The square `flockBoundry` queries holds every agent inside any radius `flock` uses. */
  lemma FlockSquareCovers(fl: Floats, genes: seq<real>, c: Vec2, q: Vec2, i: int)
    requires SquareRoot(fl.sqrt) && |genes| == LENGTH && ScannedSlot(i) && Dist(fl, c, q) < genes[i]
    ensures Quadrants.Interior(Square(c, ZoneMax(genes)), q) && Quadrants.Contains(Square(c, ZoneMax(genes)), q)
  {
    ZoneMaxBounds(genes);
    NearInSquare(fl, c, q, ZoneMax(genes));
  }

  /** A quadtree query over the `flockBoundry` square, even with the open
      overlap test as written, reports every stored agent inside any radius
      `flock` uses. */
  lemma FlockQueryFinds<T>(fl: Floats, genes: seq<real>, c: Vec2, n: Quadrants.Node<T>, e: Quadrants.Entry<T>, i: int)
    requires SquareRoot(fl.sqrt) && |genes| == LENGTH && ScannedSlot(i) && Dist(fl, c, e.at) < genes[i]
    requires Quadrants.Fitted(n) && e in Quadrants.Contents(n)
    ensures e in Quadrants.Found(n, Square(c, ZoneMax(genes)))
  {
    FlockSquareCovers(fl, genes, c, e.at, i);
    Quadrants.FoundInteriorComplete(n, Square(c, ZoneMax(genes)), e);
  }

  /** The square `foodBoundry` builds holds every item `eat` may choose. */
  lemma FoodSquareCovers(fl: Floats, genes: seq<real>, c: Vec2, d: Dish)
    requires SquareRoot(fl.sqrt) && |genes| == LENGTH && Edible(fl, c, genes[Slot(FoodZone)], d)
    ensures Quadrants.Interior(Square(c, genes[Slot(FoodZone)]), d.pos) && Quadrants.Contains(Square(c, genes[Slot(FoodZone)]), d.pos)
  {
    NearInSquare(fl, c, d.pos, genes[Slot(FoodZone)]);
  }

  /** A quadtree query over the `foodBoundry` square, as written, reports
      every stored item that `eat` may choose. */
  lemma FoodQueryFinds<T>(fl: Floats, genes: seq<real>, c: Vec2, n: Quadrants.Node<T>, e: Quadrants.Entry<T>, eaten: bool)
    requires SquareRoot(fl.sqrt) && |genes| == LENGTH && Edible(fl, c, genes[Slot(FoodZone)], Dish(eaten, e.at))
    requires Quadrants.Fitted(n) && e in Quadrants.Contents(n)
    ensures e in Quadrants.Found(n, Square(c, genes[Slot(FoodZone)]))
  {
    FoodSquareCovers(fl, genes, c, Dish(eaten, e.at));
    Quadrants.FoundInteriorComplete(n, Square(c, genes[Slot(FoodZone)]), e);
  }

  /** The state `update` ages; `tmp` vectors and the DNA are not part of it. */
  datatype Body = Body(pos: Vec2, vel: Vec2, acc: Vec2, mood: real, moodSwing: real,
                       health: real, fade: real)

  /** The draws of `init`: a random position on the canvas and random
      velocity and acceleration vectors (of lengths speed and force). */
  datatype Spawn = Spawn(pos: Vec2, vel: Vec2, acc: Vec2)

  /** The state `init` leaves. */
  function Spawned(s: Spawn): (b: Body)
    ensures b.mood == b.moodSwing == b.fade == 0.0 && b.health == 100.0
    ensures b.pos == s.pos && b.vel == s.vel && b.acc == s.acc
  {
    Body(s.pos, s.vel, s.acc, 0.0, 0.0, 100.0, 0.0)
  }

  /** Line 291: `v` within `-limit .. limit`. */
  function Clamp(v: real, limit: real): (r: real)
    ensures limit >= 0.0 ==> -limit <= r <= limit
    ensures -limit <= v <= limit ==> r == v
  {
    Max(Min(v, limit), -limit)
  }

  /** `update`: the mood takes the swing within the limit, the agent moves
      with its old velocity, the velocity takes the acceleration within the
      speed, health decays by 0.1 and moves with the mood; an agent whose
      health reaches 0 starts over. */
  function Aged(fl: Floats, genes: seq<real>, b: Body, s: Spawn): Body
    requires |genes| == LENGTH
  {
    var lived := Lived(fl, genes, b);
    if lived.health == 0.0 then Spawned(s) else lived
  }

  /** `update` before the health test. */
  function Lived(fl: Floats, genes: seq<real>, b: Body): Body
    requires |genes| == LENGTH
  {
    var mood := Clamp(b.mood + b.moodSwing, genes[Slot(MoodLimit)]);
    Body(Add2(b.pos, b.vel), Limit2(fl, Add2(b.vel, b.acc), genes[Slot(Speed)]), Origin,
         mood, 0.0, Max(b.health - 0.1 + mood / 100.0, 0.0), Min(1.0, b.fade + 0.05))
  }

  /** After `update` the mood is within the limit, the health is positive and the fade stays in [0, 1]. */
  lemma AgedBounds(fl: Floats, genes: seq<real>, b: Body, s: Spawn)
    requires |genes| == LENGTH && genes[Slot(MoodLimit)] > 0.0 && 0.0 <= b.fade <= 1.0
    ensures var a, limit := Aged(fl, genes, b, s), genes[Slot(MoodLimit)];
      && -limit <= a.mood <= limit
      && a.health > 0.0
      && 0.0 <= a.fade <= 1.0
  {
  }

  /** The law of the draws of `init` (lines 47-48): `vec2.random` gives the
      velocity the length `speed` and the acceleration the length `force`. */
  predicate Drawn(genes: seq<real>, s: Spawn)
    requires |genes| == LENGTH
  {
    SqrLen(s.vel) == Sq(genes[Slot(Speed)]) && SqrLen(s.acc) == Sq(genes[Slot(Force)])
  }

  /** With draws that obey their law, every aged agent, a respawned one
      included, keeps within its speed. */
  lemma AgedSpeed(fl: Floats, genes: seq<real>, b: Body, s: Spawn)
    requires |genes| == LENGTH && SquareRoot(fl.sqrt) && Drawn(genes, s)
    ensures SqrLen(Aged(fl, genes, b, s).vel) <= Sq(genes[Slot(Speed)])
  {
    AgedCases(fl, genes, b, s);
  }

  /** An agent whose decayed health is not positive starts over; any other
      has moved by its old velocity, keeps within its speed, has no
      acceleration or swing left and its health is the decayed one, which
      with a mood limit of at most 10 is no more than before. */
  lemma AgedCases(fl: Floats, genes: seq<real>, b: Body, s: Spawn)
    requires |genes| == LENGTH
    ensures var a, limit := Aged(fl, genes, b, s), genes[Slot(MoodLimit)];
      var mood := Clamp(b.mood + b.moodSwing, limit);
      var decayed := b.health - 0.1 + mood / 100.0;
      && (decayed <= 0.0 ==> a == Spawned(s))
      && (decayed > 0.0 ==>
            && a.pos == Add2(b.pos, b.vel) && a.acc == Origin && a.moodSwing == 0.0
            && a.mood == mood && a.health == decayed
            && (SquareRoot(fl.sqrt) ==> SqrLen(a.vel) <= Sq(genes[Slot(Speed)]))
            && (0.0 <= limit <= 10.0 ==> a.health <= b.health))
  {
  }

  /** What `eat` reads of each item of the list. */
  function Dishes(food: seq<Food>): (r: seq<Dish>)
    reads food
    ensures |r| == |food|
    ensures forall k :: 0 <= k < |food| ==> r[k] == Dish(food[k].Eaten(), food[k].pos)
  {
    if food == [] then []
    else Dishes(food[..|food| - 1]) + [Dish(food[|food| - 1].Eaten(), food[|food| - 1].pos)]
  }

  class Agent {
    const dna: DNA
    var forces: Forces
    var count: Counts
    var pos: Vec2
    var vel: Vec2
    var acc: Vec2
    var mood: real
    var moodSwing: real
    var health: real
    var fadeAnimation: real

    /** A valid DNA, the mood within its limit and the fade in [0, 1]. */
    ghost predicate Valid()
      reads this, dna
    {
      && dna.Valid()
      && -dna.Get(MoodLimit) <= mood <= dna.Get(MoodLimit)
      && 0.0 <= fadeAnimation <= 1.0
    }

    /** The fields `update` changes. */
    function State(): Body
      reads this`pos, this`vel, this`acc, this`mood, this`moodSwing, this`health, this`fadeAnimation
    {
      Body(pos, vel, acc, mood, moodSwing, health, fadeAnimation)
    }

    /** The agent as `flock` sees itself. */
    function Me(): Viewer
      reads this`pos, this`vel, dna
    {
      Viewer(pos, vel, dna.sequence)
    }

    /** What the loop of `flock` reads of `boids`. */
    function Observe(boids: seq<Agent>): (r: seq<Peer>)
      reads boids
      ensures |r| == |boids|
      ensures forall k :: 0 <= k < |boids| ==>
        r[k] == Peer(boids[k] == this, boids[k].pos, boids[k].vel, boids[k].mood)
    {
      if boids == [] then []
      else
        var last := boids[|boids| - 1];
        Observe(boids[..|boids| - 1]) + [Peer(last == this, last.pos, last.vel, last.mood)]
    }

    /** `draws` are the five `random` calls of the DNA, `spawn` those of `init`. */
    constructor (draws: seq<real>, spawn: Spawn)
      requires |draws| >= 5
      ensures Valid() && fresh(dna) && dna.sequence == Initial(draws)
      ensures State() == Spawned(spawn)
      ensures forces == Forces(Origin, Origin, Origin, Origin, 0.0, 0.0, 0.0) && count == NoCounts
    {
      dna := new DNA(draws);
      forces := Forces(Origin, Origin, Origin, Origin, 0.0, 0.0, 0.0);
      count := NoCounts;
      new;
      Init(spawn);
    }

    /** `init`: a new start at the drawn position with the drawn vectors. */
    method Init(spawn: Spawn)
      modifies this`pos, this`vel, this`acc, this`mood, this`moodSwing, this`health, this`fadeAnimation
      ensures State() == Spawned(spawn)
    {
      pos := spawn.pos;
      vel := spawn.vel;
      acc := spawn.acc;
      mood := 0.0;
      moodSwing := 0.0;
      health := 100.0;
      fadeAnimation := 0.0;
    }

    /** `edges`: each coordinate wraps to the opposite edge of the canvas. */
    method Edges(width: real, height: real)
      modifies this`pos
      ensures pos == Vec2(Wrap(old(pos).x, width), Wrap(old(pos).y, height))
    {
      if pos.x > width {
        pos := pos.(x := 0.0);
      } else if pos.x < 0.0 {
        pos := pos.(x := width);
      }
      if pos.y > height {
        pos := pos.(y := 0.0);
      } else if pos.y < 0.0 {
        pos := pos.(y := height);
      }
    }

    /** `flockBoundry`: the square around the agent of half-side `maxZone`. */
    method FlockBoundary() returns (b: Quadrants.Boundary)
      requires dna.Valid()
      ensures b == Square(pos, ZoneMax(dna.sequence))
    {
      var max := dna.MaxZone();
      b := Square(pos, max);
    }

    /** `foodBoundry`: the square around the agent of half-side `foodZone`. */
    function FoodBoundary(): (b: Quadrants.Boundary)
      reads this, dna
      requires dna.Valid()
      ensures b.w == 2.0 * dna.Get(FoodZone)
    {
      Square(pos, dna.Get(FoodZone))
    }

    /** `prepare`: every accumulator and counter back to zero. */
    method Prepare()
      modifies this`forces, this`count
      ensures forces == Prepared(old(forces)) && count == NoCounts
    {
      forces := forces.(align := Origin, cohes := Origin, separ := Origin, food := Origin);
      forces := forces.(view := 0.0, mood := 0.0);
      count := NoCounts;
    }

    /** The loop of `flock`: every other agent of the list adds to the
        accumulators whose radius it lies in. */
    method Survey(boids: seq<Agent>, fl: Floats)
      requires dna.Valid()
      modifies this`forces, this`count
      ensures Tally(forces, count) == Gather(fl, Me(), old(Tally(forces, count)), old(Observe(boids)), |boids|)
    {
      ghost var peers := Observe(boids);
      ghost var start := Tally(forces, count);
      var i := 0;
      while i < |boids|
        invariant 0 <= i <= |boids|
        invariant Tally(forces, count) == Gather(fl, Me(), start, peers, i)
      {
        Notice(boids[i], fl);
        assert Seen(boids[i]) == peers[i];
        i := i + 1;
      }
    }

    /** What the loop of `flock` reads of `other`. */
    function Seen(other: Agent): Peer
      reads other`pos, other`vel, other`mood
    {
      Peer(other == this, other.pos, other.vel, other.mood)
    }

    /** One pass of the loop of `flock`, over `other`. */
    method Notice(other: Agent, fl: Floats)
      requires dna.Valid()
      modifies this`forces, this`count
      ensures Tally(forces, count) == Meet(fl, Me(), old(Tally(forces, count)), Seen(other))
    {
      var dist := Dist(fl, pos, other.pos);
      if other != this {
        AlignWith(other, dist);
        CohereWith(other, dist);
        SeparateFrom(other, dist, fl);
        Watch(other, dist, fl);
        Crowd(dist);
        Sense(other, dist);
      }
    }

    method AlignWith(other: Agent, dist: real)
      requires dna.Valid()
      modifies this`forces, this`count
      ensures Tally(forces, count) == AlignStep(Me(), dist, Seen(other), old(Tally(forces, count)))
    {
      if dist < dna.Get(AlignmentZone) {
        forces := forces.(align := Add2(forces.align, other.vel));
        count := count.(align := count.align + 1);
      }
    }

    method CohereWith(other: Agent, dist: real)
      requires dna.Valid()
      modifies this`forces, this`count
      ensures Tally(forces, count) == CohesStep(Me(), dist, Seen(other), old(Tally(forces, count)))
    {
      if dist < dna.Get(CohesionZone) {
        forces := forces.(cohes := Add2(forces.cohes, other.pos));
        count := count.(cohes := count.cohes + 1);
      }
    }

    method SeparateFrom(other: Agent, dist: real, fl: Floats)
      requires dna.Valid()
      modifies this`forces, this`count
      ensures Tally(forces, count) == SeparStep(fl, Me(), dist, Seen(other), old(Tally(forces, count)))
    {
      if dist < dna.Get(SeparationZone) {
        var away := Divide2(fl, Sub2(pos, other.pos), dist);
        forces := forces.(separ := Add2(forces.separ, away));
        count := count.(separ := count.separ + 1);
      }
    }

    method Watch(other: Agent, dist: real, fl: Floats)
      requires dna.Valid()
      modifies this`forces, this`count
      ensures Tally(forces, count) == ViewStep(fl, Me(), dist, Seen(other), old(Tally(forces, count)))
    {
      if dist < dna.Get(ViewZone) {
        var toOther := Sub2(other.pos, pos);
        var angle := fl.angle(vel, toOther);
        if angle < 1.0 {
          var dot := Dot2(fl.rotate(vel, fl.halfPi), toOther);
          count := count.(view := count.view + 1);
          forces := forces.(view := forces.view + if dot > 0.0 then -angle else angle);
        }
      }
    }

    method Crowd(dist: real)
      requires dna.Valid()
      modifies this`count
      ensures Tally(forces, count) == CrowdStep(Me(), dist, old(Tally(forces, count)))
    {
      if dist < dna.Get(CloseZone) {
        count := count.(uncom := count.uncom + 1);
      } else if dist < dna.Get(HappyZone) {
        count := count.(happy := count.happy + 1);
      }
    }

    method Sense(other: Agent, dist: real)
      requires dna.Valid()
      modifies this`forces, this`count
      ensures Tally(forces, count) == MoodStep(Me(), dist, Seen(other), old(Tally(forces, count)))
    {
      if dist < dna.Get(SensitiveZone) {
        forces := forces.(mood := forces.mood + other.mood);
        count := count.(mood := count.mood + 1);
      }
    }

    /** The part of `flock` after its loop (lines 171-214). */
    method Respond(fl: Floats)
      requires dna.Valid()
      modifies this`forces, this`acc, this`moodSwing
      ensures Steering(forces, acc, moodSwing)
              == Steer(fl, Me(), mood, old(acc), old(moodSwing), old(Tally(forces, count)))
    {
      SteerAlign(fl);
      SteerCohes(fl);
      SteerSepar(fl);
      SteerView(fl);
      SwingMood();
    }

    method SteerAlign(fl: Floats)
      requires dna.Valid()
      modifies this`forces, this`acc
      ensures Steering(forces, acc, moodSwing) == AlignSteer(fl, Me(), old(Steering(forces, acc, moodSwing)), count)
    {
      if count.align > 0 {
        forces := forces.(align := Scale2(1.0 / count.align as real, forces.align));
        forces := forces.(align := SetMag(fl, forces.align, dna.Get(Speed)));
        forces := forces.(align := Sub2(forces.align, vel));
        forces := forces.(align := Limit2(fl, forces.align, dna.Get(Force)));
        acc := Add2(acc, forces.align);
      }
    }

    method SteerCohes(fl: Floats)
      requires dna.Valid()
      modifies this`forces, this`acc
      ensures Steering(forces, acc, moodSwing) == CohesSteer(fl, Me(), old(Steering(forces, acc, moodSwing)), count)
    {
      if count.cohes > 0 {
        forces := forces.(cohes := Scale2(1.0 / count.cohes as real, forces.cohes));
        forces := forces.(cohes := Sub2(forces.cohes, pos));
        forces := forces.(cohes := SetMag(fl, forces.cohes, dna.Get(Speed)));
        forces := forces.(cohes := Sub2(forces.cohes, vel));
        forces := forces.(cohes := Limit2(fl, forces.cohes, dna.Get(Force)));
        acc := Add2(acc, forces.cohes);
      }
    }

    method SteerSepar(fl: Floats)
      requires dna.Valid()
      modifies this`forces, this`acc
      ensures Steering(forces, acc, moodSwing) == SeparSteer(fl, Me(), mood, old(Steering(forces, acc, moodSwing)), count)
    {
      if count.separ > 0 {
        var limit := dna.Get(MoodLimit);
        var mn := (limit - mood) / (limit * 4.0) + 0.75;
        assert mn == MoodNormal(Me(), mood);
        SeparateBy(fl, mn);
      }
    }

    /** Lines 192-194 and 196-197: the separation push, limited by `mn` times the force,
        and `moodNormal` set to `mn`. */
    method SeparateBy(fl: Floats, mn: real)
      requires dna.Valid() && count.separ > 0
      modifies this`forces, this`acc
      ensures forces == old(forces).(separ := SeparPush(fl, Me(), old(forces.separ), count.separ, mn), moodNormal := mn)
      ensures acc == Add2(old(acc), forces.separ)
    {
      ghost var me, sum := Me(), forces.separ;
      var separ := Scale2(1.0 / count.separ as real, forces.separ);
      separ := SetMag(fl, separ, dna.Get(Speed));
      separ := Sub2(separ, vel);
      ghost var pre := separ;
      assert pre == Sub2(SetMag(fl, Scale2(1.0 / count.separ as real, sum), Trait(me, Speed)), me.vel);
      var bound := mn * dna.Get(Force);
      assert bound == mn * Trait(me, Force);
      separ := Limit2(fl, separ, bound);
      assert separ == SeparPush(fl, me, sum, count.separ, mn);
      forces := forces.(separ := separ, moodNormal := mn);
      acc := Add2(acc, separ);
    }

    method SteerView(fl: Floats)
      requires dna.Valid()
      modifies this`acc
      ensures Steering(forces, acc, moodSwing) == ViewSteer(fl, Me(), old(Steering(forces, acc, moodSwing)), count)
    {
      if count.view > 0 {
        var tmp := fl.rotate(vel, forces.view / count.view as real);
        tmp := SetMag(fl, tmp, dna.Get(Speed));
        tmp := Add2(tmp, vel);
        tmp := Limit2(fl, tmp, dna.Get(Force));
        acc := Add2(acc, tmp);
      }
    }

    method SwingMood()
      requires dna.Valid()
      modifies this`moodSwing
      ensures Steering(forces, acc, moodSwing) == SwingSteer(Me(), old(Steering(forces, acc, moodSwing)), count)
    {
      ghost var me, s := Me(), Steering(forces, acc, moodSwing);
      var moodiness := dna.Get(Moodiness);
      assert moodiness == Trait(me, Moodiness);
      if count.mood > 0 {
        var sensed := moodiness * forces.mood / count.mood as real;
        assert sensed == Trait(me, Moodiness) * s.forces.mood / count.mood as real;
        moodSwing := moodSwing + sensed;
      }
      ghost var swing := moodSwing;
      moodSwing := moodSwing + moodiness
        * (dna.Get(MentalEndurance) * (-(count.uncom as real) * 2.0 + count.happy as real) + dna.Get(MentalHealth));
      assert moodSwing == swing + Temper(me, count);
      assert Me() == me;
    }

    /** `flock`: the accumulators start from zero, every other agent of the
        list is tallied, and the tallies steer the acceleration and move the
        mood swing. */
    method Flock(boids: seq<Agent>, fl: Floats)
      requires dna.Valid()
      modifies this`forces, this`count, this`acc, this`moodSwing
      ensures var t := Gather(fl, Me(), Tally(Prepared(old(forces)), NoCounts), old(Observe(boids)), |boids|);
        var s := Steer(fl, Me(), mood, old(acc), old(moodSwing), t);
        count == t.count && forces == s.forces && acc == s.acc && moodSwing == s.swing
    {
      ghost var peers := Observe(boids);
      Prepare();
      assert Observe(boids) == peers;
      Survey(boids, fl);
      Respond(fl);
    }

    /** `eat`: the accumulators start from zero; the first of the nearest
        uneaten items inside the food radius is eaten when closer than 4,
        and otherwise steers the acceleration towards it. */
    method Eat(food: seq<Food>, spot: Vec2, fl: Floats)
      requires dna.Valid()
      modifies this`forces, this`count, this`acc, this`health, food
      ensures var ch := Choose(fl, pos, dna.Get(FoodZone), old(Dishes(food)), |food|);
        var aim := if ch.target.Target? then old(food[ch.target.index].pos) else Origin;
        && count == NoCounts
        && forces.(food := Origin) == Prepared(old(forces))
        && (forall f :: f in food ==> f.value == old(f.value))
        && if ch.minDist != -1.0 && ch.target.Target? then
             var chosen := food[ch.target.index];
             if ch.minDist < 4.0 then
               && chosen.Eaten() && chosen.pos == spot
               && health == old(health) + old(chosen.value)
               && (forall f :: f in food && f != chosen ==> f.pos == old(f.pos) && f.available == old(f.available))
               && forces.food == aim && acc == old(acc)
             else
               && (forall f :: f in food ==> f.pos == old(f.pos) && f.available == old(f.available))
               && forces.food == FoodPush(fl, Me(), aim, ch.minDist)
               && acc == Add2(old(acc), forces.food) && health == old(health)
           else
             && (forall f :: f in food ==> f.pos == old(f.pos) && f.available == old(f.available))
             && forces.food == aim && acc == old(acc) && health == old(health)
    {
      Prepare();
      var minDist, target := Seek(food, fl);
      if minDist != -1.0 && target.Target? {
        if minDist < 4.0 {
          var value := food[target.index].Eat(spot);
          health := health + value;
        } else {
          Approach(fl, minDist);
        }
      }
    }

    /** The loop of `eat`: the choice of target, whose position is copied into `forces.food`. */
    method Seek(food: seq<Food>, fl: Floats) returns (minDist: real, target: Target)
      requires dna.Valid()
      modifies this`forces
      ensures Choice(minDist, target) == Choose(fl, pos, dna.Get(FoodZone), Dishes(food), |food|)
      ensures forces == old(forces).(food := if target.Target? then food[target.index].pos else old(forces.food))
    {
      ghost var dishes := Dishes(food);
      var zone := dna.Get(FoodZone);
      minDist := -1.0;
      target := NoTarget;
      var i := 0;
      while i < |food|
        invariant 0 <= i <= |food|
        invariant Choice(minDist, target) == Choose(fl, pos, zone, dishes, i)
        invariant forces == old(forces).(food := if target.Target? then food[target.index].pos else old(forces.food))
      {
        var f := food[i];
        if !f.Eaten() {
          var dist := Dist(fl, pos, f.pos);
          if (dist < minDist || minDist == -1.0) && dist < zone {
            forces := forces.(food := f.pos);
            minDist := dist;
            target := Target(i);
          }
        }
        i := i + 1;
      }
    }

    /** Lines 244-249: steering towards the target at distance `minDist`. */
    method Approach(fl: Floats, minDist: real)
      requires dna.Valid() && minDist >= 4.0
      modifies this`forces, this`acc
      ensures forces == old(forces).(food := FoodPush(fl, Me(), old(forces.food), minDist))
      ensures acc == Add2(old(acc), forces.food)
    {
      var tmp := Sub2(forces.food, pos);
      forces := forces.(food := Scale2(1.0 / minDist, tmp));
      forces := forces.(food := SetMag(fl, forces.food, dna.Get(Speed)));
      forces := forces.(food := Sub2(forces.food, vel));
      forces := forces.(food := Limit2(fl, forces.food, 0.1 * dna.Get(Force)));
      acc := Add2(acc, forces.food);
    }

    /** `update`: one step of mood, motion and health, and a new start for
        an agent whose health ran out. */
    method Update(fl: Floats, spawn: Spawn)
      requires dna.Valid()
      modifies this`pos, this`vel, this`acc, this`mood, this`moodSwing, this`health, this`fadeAnimation
      ensures State() == Aged(fl, dna.sequence, old(State()), spawn)
      ensures old(Valid()) ==> Valid() && health > 0.0
    {
      ghost var before, valid := State(), Valid();
      Live(fl);
      if health == 0.0 {
        Init(spawn);
      }
      if valid {
        AgedBounds(fl, dna.sequence, before, spawn);
      }
    }

    /** Lines 291-299. */
    method Live(fl: Floats)
      requires dna.Valid()
      modifies this`pos, this`vel, this`acc, this`mood, this`moodSwing, this`health, this`fadeAnimation
      ensures State() == Lived(fl, dna.sequence, old(State()))
    {
      ghost var b := State();
      var limit := dna.Get(MoodLimit);
      mood := Max(Min(mood + moodSwing, limit), -limit);
      Move(fl);
      assert pos == Add2(b.pos, b.vel);
      assert vel == Limit2(fl, Add2(b.vel, b.acc), dna.sequence[Slot(Speed)]);
      health := Max(health - 0.1 + mood / 100.0, 0.0);
      acc := Origin;
      moodSwing := 0.0;
      fadeAnimation := Min(1.0, fadeAnimation + 0.05);
    }

    /** Lines 292-294: the move by the old velocity and the new velocity within the speed. */
    method Move(fl: Floats)
      requires dna.Valid()
      modifies this`pos, this`vel
      ensures pos == Add2(old(pos), old(vel))
      ensures vel == Limit2(fl, Add2(old(vel), acc), dna.Get(Speed))
    {
      pos := Add2(pos, vel);
      vel := Add2(vel, acc);
      vel := Limit2(fl, vel, dna.Get(Speed));
    }
  }
}
