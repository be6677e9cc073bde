/** The particle world as the source keeps it: an object owning its particles
    and the swarm-wide best, spawned from a seeded generator and updated in place
    one step at a time. */
module World {
  import opened Scores
  import opened Vectors
  import opened Benchmark
  import opened Generator
  import opened Swarm

  /** A freshly spawned particle: at `position`, at rest, with its personal best
      at the +infinity sentinel and the origin. */
  function Spawned(position: Vec): (p: Particle)
    ensures Shaped(p, |position|) && p.position == position
    ensures p.bestScore == PosInf && p.speed == p.bestPosition == Zeros(|position|)
  {
    Particle(position, Zeros(|position|), Zeros(|position|), PosInf)
  }

  /** Spawns one particle of dimension `d`, drawing its coordinates in order
      from the closed range [-distribution, distribution]. */
  method NewParticle(rng: Rng, d: nat, distribution: real) returns (p: Particle)
    requires UnitStream(rng.unit) && (d == 0 || 0.0 <= distribution)
    modifies rng
    ensures rng.drawn == old(rng.drawn) + d
    ensures p == Spawned(Draws(rng.unit, old(rng.drawn), d, distribution))
  {
    var position: Vec := [];
    for k := 0 to d
      invariant rng.drawn == old(rng.drawn) + k
      invariant |position| == k
      invariant forall j :: 0 <= j < k ==> position[j] == Sample(rng.unit, old(rng.drawn) + j, distribution)
    {
      var x := rng.GenRange(distribution);
      position := position + [x];
    }
    assert position == Draws(rng.unit, old(rng.drawn), d, distribution);
    p := Spawned(position);
  }

  class ParticleWorld {
    /** The dimension of the search space. */
    const D: nat
    var particles: seq<Particle>
    var globalBestPosition: Vec
    var globalBestScore: Score

    function State(): Swarm
      reads this
    {
      Swarm(particles, Best(globalBestPosition, globalBestScore))
    }

    ghost predicate Valid()
      reads this
    {
      |globalBestPosition| == D && Invariant(State())
    }

    /** Spawns `particleAmount` particles one after the other from one generator,
        each coordinate drawn from [-distribution, distribution]; the global best
        starts at the +infinity sentinel and the origin.  A negative range is a
        panic in the source unless nothing is drawn. */
    constructor (d: nat, particleAmount: nat, distribution: real, rng: Rng)
      requires UnitStream(rng.unit) && (d == 0 || particleAmount == 0 || 0.0 <= distribution)
      modifies rng
      ensures Valid() && D == d
      ensures forall scorer: Vec -> Score :: Consistent(State(), scorer)
      ensures |particles| == particleAmount
      ensures forall i :: 0 <= i < particleAmount ==>
        particles[i] == Spawned(Draws(rng.unit, old(rng.drawn) + i * d, d, distribution))
      ensures forall i, k :: 0 <= i < particleAmount && 0 <= k < d ==>
        -distribution <= particles[i].position[k] <= distribution
      ensures globalBestPosition == Zeros(d) && globalBestScore == PosInf
      ensures rng.drawn == old(rng.drawn) + particleAmount * d
    {
      var spawned: seq<Particle> := [];
      for i := 0 to particleAmount
        invariant rng.drawn == old(rng.drawn) + i * d
        invariant |spawned| == i
        invariant forall j :: 0 <= j < i ==>
          spawned[j] == Spawned(Draws(rng.unit, old(rng.drawn) + j * d, d, distribution))
      {
        var p := NewParticle(rng, d, distribution);
        spawned := spawned + [p];
        assert (i + 1) * d == i * d + d;
      }
      D := d;
      particles := spawned;
      globalBestPosition := Zeros(d);
      globalBestScore := PosInf;
    }

    /** One step: each particle in index order moves by its speed, is scored,
        keeps a strictly better personal best (and then a strictly better global
        best), and takes its new speed.  The new state is the sweep of the old
        one; the invariant and agreement with the scorer are kept, and no best
        score goes up. */
    method Step(scorer: Vec -> Score, settings: StepSettings)
      requires Valid()
      modifies this
      ensures Valid()
      ensures State() == Sweep(old(State()), scorer, settings)
      ensures old(Consistent(State(), scorer)) ==> Consistent(State(), scorer)
      ensures |particles| == old(|particles|)
      ensures AtMost(globalBestScore, old(globalBestScore))
      ensures forall i :: 0 <= i < |particles| ==> AtMost(particles[i].bestScore, old(particles[i].bestScore))
    {
      ghost var before := State();
      for i := 0 to |particles|
        invariant State() == Swept(before, i, scorer, settings)
      {
        var particle := particles[i];
        var position := Add(particle.position, particle.speed);
        var score := scorer(position);
        var bestPosition, bestScore := particle.bestPosition, particle.bestScore;
        if Less(score, bestScore) {
          bestPosition, bestScore := position, score;
          if Less(score, globalBestScore) {
            globalBestPosition, globalBestScore := position, score;
          }
        }
        var speed := Add(Add(Scale(particle.speed, settings.inertiaFactor),
                             Scale(Sub(bestPosition, position), settings.myPositionFactor)),
                         Scale(Sub(globalBestPosition, position), settings.swarmPositionFactor));
        particles := particles[i := Particle(position, speed, bestPosition, bestScore)];
      }
      SweepPreservesInvariant(before, scorer, settings);
      if Consistent(before, scorer) {
        SweepPreservesConsistency(before, scorer, settings);
      }
      StepsPreserveInvariant(before, scorer, settings, 1);
    }

    /** The best solution found so far, as stored: a score at most every
        particle's personal best, which is some particle's personal best unless
        it is still the +infinity sentinel at the origin. */
    function BestSolution(): (r: (Score, Vec))
      reads this
      requires Valid()
      ensures r.0 == globalBestScore && r.1 == globalBestPosition
      ensures |r.1| == D
      ensures forall i :: 0 <= i < |particles| ==> AtMost(r.0, particles[i].bestScore)
      ensures r.0 == PosInf ==> r.1 == Zeros(D)
      ensures r.0 == PosInf || exists i :: 0 <= i < |particles| && Holds(particles[i], Best(r.1, r.0))
    {
      (globalBestScore, globalBestPosition)
    }
  }

  /** One particle spawned with radius zero sits at the origin; after one step
      on Himmelblau's function, whatever the weights, the global best is the
      origin with score 170. */
  lemma HimmelblauFromOrigin(unit: nat -> real, start: nat, s: StepSettings)
    requires UnitStream(unit)
    ensures var origin := Draws(unit, start, 2, 0.0);
      var sw := Swarm([Spawned(origin)], Best(Zeros(2), PosInf));
      origin == [0.0, 0.0] && Sweep(sw, HimmelblauScore, s).best == Best([0.0, 0.0], Fin(170.0))
  {
    var origin := Draws(unit, start, 2, 0.0);
    DrawsFromZeroRadius(unit, start, 2);
    assert origin == [0.0, 0.0];
    assert Zeros(2) == origin;
    var sw := Swarm([Spawned(origin)], Best(Zeros(2), PosInf));
    assert Add(origin, Zeros(2)) == origin;
    HimmelblauValues();
    SweepVisits(sw, 0, HimmelblauScore, s);
  }
}
