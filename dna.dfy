// The genetic traits of the desktop application's agents: five uniform draws
// mapped onto fixed intervals, and a constant mood limit.

module Genetics {
  /** The six traits, as the `set` operation leaves them. */
  datatype Genes = Genes(
    force: real,
    speed: real,
    moodiness: real,
    mentalEndurance: real,
    mentalHealth: real,
    moodLimit: real)

  /** Whether `d` lies in the half-open unit interval of the distribution. */
  predicate UnitDraw(d: real) {
    0.0 <= d < 1.0
  }

  /**
   * The traits made from the first five draws of the stream, in the order
   * force, speed, moodiness, mental endurance, mental health.
   */
  function FromDraws(draws: seq<real>): (g: Genes)
    requires |draws| >= 5
    ensures UnitDraw(draws[0]) ==> 0.8 <= g.force < 1.2
    ensures UnitDraw(draws[1]) ==> 1.5 <= g.speed < 2.5
    ensures UnitDraw(draws[2]) ==> 0.001 <= g.moodiness < 0.101
    ensures UnitDraw(draws[3]) ==> 1.0 <= g.mentalEndurance < 3.0
    ensures UnitDraw(draws[4]) ==> -10.0 <= g.mentalHealth < 10.0
    ensures g.moodLimit == 10.0
  {
    Genes(draws[0] * 0.4 + 0.8,
          draws[1] + 1.5,
          draws[2] * 0.1 + 0.001,
          draws[3] * 2.0 + 1.0,
          draws[4] * 20.0 - 10.0,
          10.0)
  }

  /** The draws a set of traits was made from, undoing each trait's affine map. */
  function Draws(g: Genes): seq<real> {
    [(g.force - 0.8) / 0.4,
     g.speed - 1.5,
     (g.moodiness - 0.001) / 0.1,
     (g.mentalEndurance - 1.0) / 2.0,
     (g.mentalHealth + 10.0) / 20.0]
  }

  /**
   * Exactly the first five draws are used, each for its own trait and in
   * order: they can be read back from the traits.
   */
  lemma DrawsRecovered(draws: seq<real>)
    requires |draws| >= 5
    ensures Draws(FromDraws(draws)) == draws[..5]
  {
    var g := FromDraws(draws);
    assert (g.force - 0.8) / 0.4 == draws[0];
    assert (g.moodiness - 0.001) / 0.1 == draws[2];
    assert (g.mentalEndurance - 1.0) / 2.0 == draws[3];
    assert (g.mentalHealth + 10.0) / 20.0 == draws[4];
  }

  /** Draws after the fifth play no part in the traits. */
  lemma OnlyFiveDraws(a: seq<real>, b: seq<real>)
    requires |a| >= 5 && |b| >= 5 && a[..5] == b[..5]
    ensures FromDraws(a) == FromDraws(b)
  {
    assert forall i :: 0 <= i < 5 ==> a[i] == a[..5][i] == b[..5][i] == b[i];
  }

  /** The traits record of one agent. */
  class DNA {
    var force: real
    var speed: real
    var moodiness: real
    var mentalEndurance: real
    var mentalHealth: real
    var moodLimit: real

    function Traits(): Genes
      reads this
    {
      Genes(force, speed, moodiness, mentalEndurance, mentalHealth, moodLimit)
    }

    /** Draws five values from `draws` and returns the stream that is left. */
    method Set(draws: seq<real>) returns (rest: seq<real>)
      requires |draws| >= 5
      modifies this
      ensures Traits() == FromDraws(draws)
      ensures rest == draws[5..]
    {
      rest := draws;
      force := rest[0] * 0.4 + 0.8;
      rest := rest[1..];
      speed := rest[0] + 1.5;
      rest := rest[1..];
      moodiness := rest[0] * 0.1 + 0.001;
      rest := rest[1..];
      mentalEndurance := rest[0] * 2.0 + 1.0;
      rest := rest[1..];
      mentalHealth := rest[0] * 20.0 - 10.0;
      rest := rest[1..];
      moodLimit := 10.0;
    }
  }
}
