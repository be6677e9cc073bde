/** The particle swarm and its update rule, as values.
    A sweep visits the particles in index order; visiting one particle advances
    it by its speed, scores the new position, records a strictly better personal
    best (and then, on a further strict improvement, a new global best), and
    recomputes its speed from the inertia, cognitive and social weights.  The
    global best a particle sees is the one left by the particles visited before
    it in the same sweep. */
module Swarm {
  import opened Scores
  import opened Vectors

  datatype Particle = Particle(position: Vec, speed: Vec, bestPosition: Vec, bestScore: Score)

  /** The weights of the update law: cognitive, social and inertia. */
  datatype StepSettings = StepSettings(myPositionFactor: real, swarmPositionFactor: real, inertiaFactor: real)

  /** A best solution: where it was found and its score. */
  datatype Best = Best(position: Vec, score: Score)

  /** The state of a world: its particles, in order, and the swarm-wide best. */
  datatype Swarm = Swarm(particles: seq<Particle>, best: Best)

  /** The default weights: cognitive 1.5, social 1.5, inertia 0.7. */
  function DefaultSettings(): (s: StepSettings)
    ensures s.myPositionFactor == 1.5 && s.swarmPositionFactor == 1.5 && s.inertiaFactor == 0.7
  {
    StepSettings(1.5, 1.5, 0.7)
  }

  /** All three weights zero. */
  function ZeroSettings(): StepSettings {
    StepSettings(0.0, 0.0, 0.0)
  }

  // ---------------------------------------------------------------------------
  // What a consistent world looks like

  /** All vectors of a particle have dimension `d`. */
  predicate Shaped(p: Particle, d: nat) {
    |p.position| == d && |p.speed| == d && |p.bestPosition| == d
  }

  /** Every particle has the dimension of the global best position. */
  predicate WellShaped(sw: Swarm) {
    forall i :: 0 <= i < |sw.particles| ==> Shaped(sw.particles[i], |sw.best.position|)
  }

  /** A best still at its +infinity sentinel sits at the origin. */
  predicate SentinelAtOrigin(position: Vec, score: Score) {
    score == PosInf ==> position == Zeros(|position|)
  }

  /** Particle `p` holds best `b` as its personal best. */
  predicate Holds(p: Particle, b: Best) {
    p.bestPosition == b.position && p.bestScore == b.score
  }

  /** The invariant of the world that holds whatever scorer it is stepped with:
      dimensions agree, no best is NaN, sentinels sit at the origin, the global
      best score is at most every personal best score, and unless it is still
      the sentinel, the global best is some particle's personal best. */
  predicate Invariant(sw: Swarm) {
    && WellShaped(sw)
    && !sw.best.score.NaN?
    && SentinelAtOrigin(sw.best.position, sw.best.score)
    && (forall i :: 0 <= i < |sw.particles| ==>
          SentinelAtOrigin(sw.particles[i].bestPosition, sw.particles[i].bestScore))
    && (forall i :: 0 <= i < |sw.particles| ==> AtMost(sw.best.score, sw.particles[i].bestScore))
    && (sw.best.score == PosInf || exists i :: 0 <= i < |sw.particles| && Holds(sw.particles[i], sw.best))
  }

  /** A stored best other than the sentinel is the scorer's value at its position. */
  predicate Scored(position: Vec, score: Score, scorer: Vec -> Score) {
    score != PosInf ==> score == scorer(position)
  }

  /** Every stored best of the world agrees with `scorer`. */
  predicate Consistent(sw: Swarm, scorer: Vec -> Score) {
    && Scored(sw.best.position, sw.best.score, scorer)
    && forall i :: 0 <= i < |sw.particles| ==>
         Scored(sw.particles[i].bestPosition, sw.particles[i].bestScore, scorer)
  }

  /** The personal-best rule of a visit: the best moves to the particle's new
      position, with its score, exactly when that score is strictly lower. */
  predicate PersonalBestRule(before: Particle, after: Particle, scorer: Vec -> Score) {
    var score := scorer(after.position);
    if Less(score, before.bestScore) then
      after.bestPosition == after.position && after.bestScore == score
    else
      after.bestPosition == before.bestPosition && after.bestScore == before.bestScore
  }

  // ---------------------------------------------------------------------------
  // The update rule

  /** One particle's turn in a sweep, against the global best `g` as it stands;
      gives the updated particle and the global best after its turn. */
  function Visit(p: Particle, g: Best, scorer: Vec -> Score, s: StepSettings): (r: (Particle, Best))
    requires Shaped(p, |g.position|)
    ensures Shaped(r.0, |g.position|) && |r.1.position| == |g.position|
    ensures r.0.bestScore == p.bestScore || Less(r.0.bestScore, p.bestScore)
    ensures r.1 == g || (Less(r.1.score, g.score) && Less(r.0.bestScore, p.bestScore) && Holds(r.0, r.1))
    ensures scorer(r.0.position).NaN? ==> Holds(r.0, Best(p.bestPosition, p.bestScore)) && r.1 == g
  {
    var position := Add(p.position, p.speed);
    var score := scorer(position);
    var improved := Less(score, p.bestScore);
    var bestPosition := if improved then position else p.bestPosition;
    var bestScore := if improved then score else p.bestScore;
    var global := if improved && Less(score, g.score) then Best(position, score) else g;
    var speed := Add(Add(Scale(p.speed, s.inertiaFactor),
                         Scale(Sub(bestPosition, position), s.myPositionFactor)),
                     Scale(Sub(global.position, position), s.swarmPositionFactor));
    (Particle(position, speed, bestPosition, bestScore), global)
  }

  /** The world after visiting particle `i`: only that particle and the global
      best can change. */
  function VisitAt(sw: Swarm, i: nat, scorer: Vec -> Score, s: StepSettings): (r: Swarm)
    requires WellShaped(sw) && i < |sw.particles|
    ensures WellShaped(r) && |r.particles| == |sw.particles| && |r.best.position| == |sw.best.position|
    ensures forall j :: 0 <= j < |sw.particles| && j != i ==> r.particles[j] == sw.particles[j]
  {
    var (p, g) := Visit(sw.particles[i], sw.best, scorer, s);
    Swarm(sw.particles[i := p], g)
  }

  /** The world after the first `i` particles of a sweep have been visited. */
  function Swept(sw: Swarm, i: nat, scorer: Vec -> Score, s: StepSettings): (r: Swarm)
    requires WellShaped(sw) && i <= |sw.particles|
    ensures WellShaped(r) && |r.particles| == |sw.particles| && |r.best.position| == |sw.best.position|
    ensures forall j :: i <= j < |sw.particles| ==> r.particles[j] == sw.particles[j]
    decreases i
  {
    if i == 0 then sw else VisitAt(Swept(sw, i - 1, scorer, s), i - 1, scorer, s)
  }

  /** One step of the world: every particle visited once, in index order.
      The particle count, their order and the dimension are preserved. */
  function Sweep(sw: Swarm, scorer: Vec -> Score, s: StepSettings): (r: Swarm)
    requires WellShaped(sw)
    ensures WellShaped(r) && |r.particles| == |sw.particles| && |r.best.position| == |sw.best.position|
  {
    Swept(sw, |sw.particles|, scorer, s)
  }

  /** `n` steps in a row with the same scorer and weights. */
  function Steps(sw: Swarm, scorer: Vec -> Score, s: StepSettings, n: nat): (r: Swarm)
    requires WellShaped(sw)
    ensures WellShaped(r) && |r.particles| == |sw.particles| && |r.best.position| == |sw.best.position|
    decreases n
  {
    if n == 0 then sw else Sweep(Steps(sw, scorer, s, n - 1), scorer, s)
  }

  // ---------------------------------------------------------------------------
  // What one sweep does to each particle

  /** Once visited, a particle is not touched again in the same sweep. */
  lemma {:induction false} SweptSettled(sw: Swarm, i: nat, j: nat, scorer: Vec -> Score, s: StepSettings)
    requires WellShaped(sw) && i < j <= |sw.particles|
    ensures Swept(sw, j, scorer, s).particles[i] == Swept(sw, i + 1, scorer, s).particles[i]
    decreases j
  {
    if j > i + 1 {
      SweptSettled(sw, i, j - 1, scorer, s);
    }
  }

  /** Particle `i` ends the sweep as its visit against the global best left by
      particles 0 .. i-1 made it, and the global best after its visit is the
      one that visit produced. */
  lemma SweepVisits(sw: Swarm, i: nat, scorer: Vec -> Score, s: StepSettings)
    requires WellShaped(sw) && i < |sw.particles|
    ensures Sweep(sw, scorer, s).particles[i] == Visit(sw.particles[i], Swept(sw, i, scorer, s).best, scorer, s).0
    ensures Swept(sw, i + 1, scorer, s).best == Visit(sw.particles[i], Swept(sw, i, scorer, s).best, scorer, s).1
  {
    SweptSettled(sw, i, |sw.particles|, scorer, s);
  }

  /** Each particle's new position is its old position plus its old speed. */
  lemma SweepAdvancesPositions(sw: Swarm, scorer: Vec -> Score, s: StepSettings)
    requires WellShaped(sw)
    ensures forall i :: 0 <= i < |sw.particles| ==>
      Sweep(sw, scorer, s).particles[i].position == Add(sw.particles[i].position, sw.particles[i].speed)
  {
    forall i | 0 <= i < |sw.particles|
      ensures Sweep(sw, scorer, s).particles[i].position == Add(sw.particles[i].position, sw.particles[i].speed)
    {
      SweepVisits(sw, i, scorer, s);
    }
  }

  /** Each particle's personal best moves to its new position exactly on a
      strict improvement of the score there, so a tie leaves it as it was, and
      a personal best score never goes up. */
  lemma SweepPersonalBests(sw: Swarm, scorer: Vec -> Score, s: StepSettings)
    requires WellShaped(sw)
    ensures forall i :: 0 <= i < |sw.particles| ==>
      PersonalBestRule(sw.particles[i], Sweep(sw, scorer, s).particles[i], scorer)
    ensures forall i :: 0 <= i < |sw.particles| ==>
      var after := Sweep(sw, scorer, s).particles[i].bestScore;
      after == sw.particles[i].bestScore || Less(after, sw.particles[i].bestScore)
  {
    forall i | 0 <= i < |sw.particles|
      ensures PersonalBestRule(sw.particles[i], Sweep(sw, scorer, s).particles[i], scorer)
    {
      SweepVisits(sw, i, scorer, s);
    }
  }

  /** The speed law of one visit, coordinate by coordinate. */
  predicate SpeedRule(before: Particle, after: Particle, g: Best, s: StepSettings)
    requires Shaped(before, |g.position|) && Shaped(after, |g.position|)
  {
    forall k :: 0 <= k < |g.position| ==>
      after.speed[k] == before.speed[k] * s.inertiaFactor
                        + (after.bestPosition[k] - after.position[k]) * s.myPositionFactor
                        + (g.position[k] - after.position[k]) * s.swarmPositionFactor
  }

  lemma VisitSpeed(p: Particle, g: Best, scorer: Vec -> Score, s: StepSettings)
    requires Shaped(p, |g.position|)
    ensures SpeedRule(p, Visit(p, g, scorer, s).0, Visit(p, g, scorer, s).1, s)
  {
    var (q, h) := Visit(p, g, scorer, s);
    var a := Scale(p.speed, s.inertiaFactor);
    var b := Scale(Sub(q.bestPosition, q.position), s.myPositionFactor);
    var c := Scale(Sub(h.position, q.position), s.swarmPositionFactor);
    assert q.speed == Add(Add(a, b), c);
  }

  /** Each particle's new speed is, coordinate by coordinate,
      inertia * old speed + cognitive * (personal best - position)
      + social * (global best - position), where position and personal best are
      the particle's new ones and the global best is the one in force right
      after its own visit, which earlier particles of the same sweep may
      already have moved. */
  lemma SweepSpeeds(sw: Swarm, scorer: Vec -> Score, s: StepSettings)
    requires WellShaped(sw)
    ensures forall i :: 0 <= i < |sw.particles| ==>
      SpeedRule(sw.particles[i], Sweep(sw, scorer, s).particles[i], Swept(sw, i + 1, scorer, s).best, s)
  {
    forall i | 0 <= i < |sw.particles|
      ensures SpeedRule(sw.particles[i], Sweep(sw, scorer, s).particles[i], Swept(sw, i + 1, scorer, s).best, s)
    {
      SweepVisits(sw, i, scorer, s);
      VisitSpeed(sw.particles[i], Swept(sw, i, scorer, s).best, scorer, s);
    }
  }

  // ---------------------------------------------------------------------------
  // What one sweep does to the global best

  lemma {:induction false} SweptGlobalBest(sw: Swarm, j: nat, scorer: Vec -> Score, s: StepSettings)
    requires WellShaped(sw) && j <= |sw.particles|
    ensures var r := Swept(sw, j, scorer, s);
      r.best == sw.best
      || (Less(r.best.score, sw.best.score)
          && exists i :: 0 <= i < j && Less(r.particles[i].bestScore, sw.particles[i].bestScore)
                                    && Holds(r.particles[i], r.best))
    decreases j
  {
    if j > 0 {
      SweptGlobalBest(sw, j - 1, scorer, s);
      var prev := Swept(sw, j - 1, scorer, s);
      var r := Swept(sw, j, scorer, s);
      assert r == VisitAt(prev, j - 1, scorer, s);
      assert prev.particles[j - 1] == sw.particles[j - 1];
      if r.best != prev.best {
        assert Less(r.particles[j - 1].bestScore, sw.particles[j - 1].bestScore)
            && Holds(r.particles[j - 1], r.best);
        if prev.best != sw.best {
          LessIsStrictOrder(r.best.score, prev.best.score, sw.best.score);
        }
      } else if prev.best != sw.best {
        var i :| 0 <= i < j - 1 && Less(prev.particles[i].bestScore, sw.particles[i].bestScore)
                                && Holds(prev.particles[i], prev.best);
        assert r.particles[i] == prev.particles[i];
      }
    }
  }

  /** The global best changes only when some particle strictly improves its
      personal best to a score strictly below the old global best, and then it
      is that particle's new personal best; so the global best score never goes
      up, and a tie never replaces it. */
  lemma SweepGlobalBest(sw: Swarm, scorer: Vec -> Score, s: StepSettings)
    requires WellShaped(sw)
    ensures var r := Sweep(sw, scorer, s);
      r.best == sw.best
      || (Less(r.best.score, sw.best.score)
          && exists i :: 0 <= i < |sw.particles|
               && Less(r.particles[i].bestScore, sw.particles[i].bestScore)
               && Holds(r.particles[i], r.best))
  {
    SweptGlobalBest(sw, |sw.particles|, scorer, s);
  }

  // ---------------------------------------------------------------------------
  // Invariants a sweep preserves

  /** Visiting one particle preserves the world invariant. */
  lemma VisitAtPreservesInvariant(sw: Swarm, i: nat, scorer: Vec -> Score, s: StepSettings)
    requires Invariant(sw) && i < |sw.particles|
    ensures Invariant(VisitAt(sw, i, scorer, s))
  {
    var p, g := sw.particles[i], sw.best;
    var r := VisitAt(sw, i, scorer, s);
    var q := r.particles[i];
    var score := scorer(q.position);
    assert q == Visit(p, g, scorer, s).0 && r.best == Visit(p, g, scorer, s).1;
    // the global best is at most every personal best
    forall j | 0 <= j < |r.particles|
      ensures AtMost(r.best.score, r.particles[j].bestScore)
    {
      if j != i {
        AtMostTransitive(r.best.score, g.score, r.particles[j].bestScore);
      } else if Less(score, p.bestScore) {
        if !Less(score, g.score) {
          LessIsStrictOrder(score, g.score, p.bestScore);
        }
      } else {
        assert r.best == g;
      }
    }
    // the global best is still some particle's personal best
    if r.best.score != PosInf {
      if r.best == g {
        var j :| 0 <= j < |sw.particles| && Holds(sw.particles[j], g);
        if j == i {
          assert !Less(score, p.bestScore);
        }
        assert Holds(r.particles[j], r.best);
      } else {
        assert Holds(r.particles[i], r.best);
      }
    }
  }

  lemma {:induction false} SweptPreservesInvariant(sw: Swarm, j: nat, scorer: Vec -> Score, s: StepSettings)
    requires Invariant(sw) && j <= |sw.particles|
    ensures Invariant(Swept(sw, j, scorer, s))
    decreases j
  {
    if j > 0 {
      SweptPreservesInvariant(sw, j - 1, scorer, s);
      VisitAtPreservesInvariant(Swept(sw, j - 1, scorer, s), j - 1, scorer, s);
    }
  }

  /** A step preserves the world invariant; in particular the global best score
      stays at most every personal best score. */
  lemma SweepPreservesInvariant(sw: Swarm, scorer: Vec -> Score, s: StepSettings)
    requires Invariant(sw)
    ensures Invariant(Sweep(sw, scorer, s))
  {
    SweptPreservesInvariant(sw, |sw.particles|, scorer, s);
  }

  lemma {:induction false} SweptPreservesConsistency(sw: Swarm, j: nat, scorer: Vec -> Score, s: StepSettings)
    requires WellShaped(sw) && j <= |sw.particles| && Consistent(sw, scorer)
    ensures Consistent(Swept(sw, j, scorer, s), scorer)
    decreases j
  {
    if j > 0 {
      SweptPreservesConsistency(sw, j - 1, scorer, s);
    }
  }

  /** Stepping with a scorer keeps every stored best score equal to that
      scorer's value at the stored best position. */
  lemma SweepPreservesConsistency(sw: Swarm, scorer: Vec -> Score, s: StepSettings)
    requires WellShaped(sw) && Consistent(sw, scorer)
    ensures Consistent(Sweep(sw, scorer, s), scorer)
  {
    SweptPreservesConsistency(sw, |sw.particles|, scorer, s);
  }

  // ---------------------------------------------------------------------------
  // Many steps, special weights, special worlds

  /** Over any number of steps the invariant and agreement with the scorer are
      kept, and no personal or global best score goes up. */
  lemma {:induction false} StepsPreserveInvariant(sw: Swarm, scorer: Vec -> Score, s: StepSettings, n: nat)
    requires Invariant(sw)
    ensures Invariant(Steps(sw, scorer, s, n))
    ensures Consistent(sw, scorer) ==> Consistent(Steps(sw, scorer, s, n), scorer)
    ensures AtMost(Steps(sw, scorer, s, n).best.score, sw.best.score)
    ensures forall i :: 0 <= i < |sw.particles| ==>
      AtMost(Steps(sw, scorer, s, n).particles[i].bestScore, sw.particles[i].bestScore)
    decreases n
  {
    if n == 0 {
      forall i | 0 <= i < |sw.particles|
        ensures AtMost(sw.particles[i].bestScore, sw.particles[i].bestScore)
      {
        AtMostTransitive(sw.best.score, sw.particles[i].bestScore, sw.particles[i].bestScore);
      }
    } else {
      var prev := Steps(sw, scorer, s, n - 1);
      var r := Steps(sw, scorer, s, n);
      StepsPreserveInvariant(sw, scorer, s, n - 1);
      SweepPreservesInvariant(prev, scorer, s);
      if Consistent(sw, scorer) {
        SweepPreservesConsistency(prev, scorer, s);
      }
      SweepGlobalBest(prev, scorer, s);
      AtMostTransitive(r.best.score, prev.best.score, sw.best.score);
      SweepPersonalBests(prev, scorer, s);
      forall i | 0 <= i < |sw.particles|
        ensures AtMost(r.particles[i].bestScore, sw.particles[i].bestScore)
      {
        AtMostTransitive(r.particles[i].bestScore, prev.particles[i].bestScore, sw.particles[i].bestScore);
      }
    }
  }

  /** A world without particles keeps its global best through any number of
      steps. */
  lemma {:induction false} EmptySwarmKeepsBest(g: Best, scorer: Vec -> Score, s: StepSettings, n: nat)
    ensures Steps(Swarm([], g), scorer, s, n) == Swarm([], g)
    decreases n
  {
    if n > 0 {
      EmptySwarmKeepsBest(g, scorer, s, n - 1);
    }
  }

  /** With all three weights zero every particle's speed becomes the zero
      vector, and in a further such step no particle moves. */
  lemma ZeroWeightsStopParticles(sw: Swarm, scorer: Vec -> Score)
    requires WellShaped(sw)
    ensures var r := Sweep(sw, scorer, ZeroSettings());
      (forall i :: 0 <= i < |r.particles| ==> r.particles[i].speed == Zeros(|sw.best.position|))
      && (forall i :: 0 <= i < |r.particles| ==>
            Sweep(r, scorer, ZeroSettings()).particles[i].position == r.particles[i].position)
  {
    var d := |sw.best.position|;
    var r := Sweep(sw, scorer, ZeroSettings());
    forall i | 0 <= i < |r.particles|
      ensures r.particles[i].speed == Zeros(d)
    {
      SweepVisits(sw, i, scorer, ZeroSettings());
      var p := sw.particles[i];
      var q := r.particles[i];
      var g := Swept(sw, i + 1, scorer, ZeroSettings()).best;
      ScaleByZero(p.speed);
      ScaleByZero(Sub(q.bestPosition, q.position));
      ScaleByZero(Sub(g.position, q.position));
    }
    SweepAdvancesPositions(r, scorer, ZeroSettings());
    forall i | 0 <= i < |r.particles|
      ensures Sweep(r, scorer, ZeroSettings()).particles[i].position == r.particles[i].position
    {
      AddZeros(r.particles[i].position);
    }
  }
}
