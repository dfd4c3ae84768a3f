/** The DNA of the web demo's agents: one array of fourteen numbers, six
    general traits followed by eight perception radii, read through fixed
    slots. */
module Genome {
  const GENERAL_INDEX: nat := 0
  const GENERAL_COUNT: nat := 6
  const ZONE_INDEX: nat := 6
  const ZONE_COUNT: nat := 7
  /** Length of the sequence the constructor builds. */
  const LENGTH: nat := 14

  /** The traits the getters expose, in slot order. */
  datatype Gene =
    | Force | Speed | Moodiness | MentalEndurance | MentalHealth | MoodLimit
    | FoodZone | AlignmentZone | CohesionZone | SeparationZone | ViewZone
    | CloseZone | HappyZone | SensitiveZone

  /** The slot each getter reads. */
  function Slot(g: Gene): (i: nat)
    ensures i < LENGTH
    ensures i < GENERAL_INDEX + GENERAL_COUNT <==> g in {Force, Speed, Moodiness, MentalEndurance, MentalHealth, MoodLimit}
  {
    match g
    case Force => GENERAL_INDEX + 0
    case Speed => GENERAL_INDEX + 1
    case Moodiness => GENERAL_INDEX + 2
    case MentalEndurance => GENERAL_INDEX + 3
    case MentalHealth => GENERAL_INDEX + 4
    case MoodLimit => GENERAL_INDEX + 5
    case FoodZone => ZONE_INDEX + 0
    case AlignmentZone => ZONE_INDEX + 1
    case CohesionZone => ZONE_INDEX + 2
    case SeparationZone => ZONE_INDEX + 3
    case ViewZone => ZONE_INDEX + 4
    case CloseZone => ZONE_INDEX + 5
    case HappyZone => ZONE_INDEX + 6
    case SensitiveZone => ZONE_INDEX + 7
  }

  /** Every slot belongs to exactly one getter. */
  lemma SlotsDistinct(g: Gene, h: Gene)
    requires g != h
    ensures Slot(g) != Slot(h)
  {
  }

  /** The slots the radius bound `maxZone` ranges over: all radii but the food radius. */
  predicate ScannedSlot(i: int) {
    ZONE_INDEX + 1 <= i <= ZONE_INDEX + ZONE_COUNT
  }

  /** The largest of 0 and the slots `ZONE_INDEX + 1 .. n - 1`. */
  function MaxBelow(s: seq<real>, n: nat): real
    requires n <= |s| && n <= ZONE_INDEX + ZONE_COUNT + 1
  {
    if n <= ZONE_INDEX + 1 then 0.0
    else
      var m := MaxBelow(s, n - 1);
      if s[n - 1] > m then s[n - 1] else m
  }

  /** `maxZone` as a value. */
  function ZoneMax(s: seq<real>): real
    requires |s| == LENGTH
  {
    MaxBelow(s, ZONE_INDEX + ZONE_COUNT + 1)
  }

  lemma {:induction false} MaxBelowBounds(s: seq<real>, n: nat)
    requires n <= |s| && n <= ZONE_INDEX + ZONE_COUNT + 1
    ensures MaxBelow(s, n) >= 0.0
    ensures forall i :: ScannedSlot(i) && i < n ==> MaxBelow(s, n) >= s[i]
    ensures MaxBelow(s, n) == 0.0 || exists i :: ScannedSlot(i) && i < n && MaxBelow(s, n) == s[i]
  {
    if n > ZONE_INDEX + 1 {
      MaxBelowBounds(s, n - 1);
      if s[n - 1] > MaxBelow(s, n - 1) {
        assert ScannedSlot(n - 1) && MaxBelow(s, n) == s[n - 1];
      }
    }
  }

  /** `maxZone` is the larger of 0 and the largest scanned radius; the food radius plays no part. */
  lemma ZoneMaxBounds(s: seq<real>)
    requires |s| == LENGTH
    ensures ZoneMax(s) >= 0.0
    ensures forall i :: ScannedSlot(i) ==> ZoneMax(s) >= s[i]
    ensures ZoneMax(s) == 0.0 || exists i :: ScannedSlot(i) && ZoneMax(s) == s[i]
    ensures ZoneMax(s) == ZoneMax(s[Slot(FoodZone) := 0.0])
  {
    MaxBelowBounds(s, ZONE_INDEX + ZONE_COUNT + 1);
    FoodZoneIgnored(s, 0.0, ZONE_INDEX + ZONE_COUNT + 1);
  }

  lemma {:induction false} FoodZoneIgnored(s: seq<real>, v: real, n: nat)
    requires |s| == LENGTH && n <= ZONE_INDEX + ZONE_COUNT + 1
    ensures MaxBelow(s, n) == MaxBelow(s[Slot(FoodZone) := v], n)
  {
    if n > ZONE_INDEX + 1 {
      FoodZoneIgnored(s, v, n - 1);
    }
  }

  /** The sequence a new DNA holds: five draws of `Math.random()` shaped into
      the general traits, the mood limit 10 and the fixed radii. */
  function Initial(draws: seq<real>): (s: seq<real>)
    requires |draws| >= 5
    ensures |s| == LENGTH
  {
    [draws[0] * 0.6, draws[1] + 1.5, draws[2] * 0.1 + 0.001, draws[3] * 2.0 + 1.0,
     draws[4] * 20.0 - 10.0, 10.0,
     200.0, 40.0, 40.0, 40.0, 40.0, 20.0, 40.0, 30.0]
  }

  /** A new DNA: mood limit 10 and the radius bound 40, whatever the draws. */
  lemma InitialZones(draws: seq<real>)
    requires |draws| >= 5
    ensures Initial(draws)[Slot(MoodLimit)] == 10.0
    ensures ZoneMax(Initial(draws)) == 40.0
  {
    var s := Initial(draws);
    assert MaxBelow(s, 8) == 40.0;
    assert MaxBelow(s, 9) == 40.0;
    assert MaxBelow(s, 10) == 40.0;
    assert MaxBelow(s, 11) == 40.0;
    assert MaxBelow(s, 12) == 40.0;
    assert MaxBelow(s, 13) == 40.0;
  }

  class DNA {
    var sequence: seq<real>

    ghost predicate Valid()
      reads this
    {
      |sequence| == LENGTH && sequence[Slot(MoodLimit)] > 0.0
    }

    /** Takes the five random draws in the order the array literal evaluates them. */
    constructor (draws: seq<real>)
      requires |draws| >= 5
      ensures sequence == Initial(draws)
      ensures Valid()
    {
      sequence := Initial(draws);
    }

    /** The getter for `g`. */
    function Get(g: Gene): real
      reads this
      requires Valid()
    {
      sequence[Slot(g)]
    }

    /** The `maxZone` getter: a running maximum over the scanned radii. */
    method MaxZone() returns (m: real)
      requires Valid()
      ensures m == ZoneMax(sequence)
      ensures m >= 0.0 && forall i :: ScannedSlot(i) ==> m >= sequence[i]
    {
      m := 0.0;
      var i := ZONE_INDEX + 1;
      while i <= ZONE_INDEX + ZONE_COUNT
        invariant ZONE_INDEX + 1 <= i <= ZONE_INDEX + ZONE_COUNT + 1
        invariant m == MaxBelow(sequence, i)
      {
        m := if sequence[i] > m then sequence[i] else m;
        i := i + 1;
      }
      ZoneMaxBounds(sequence);
    }
  }
}
