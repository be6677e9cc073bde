# Particle swarm optimizer — verified model

This project models the core of a small particle swarm optimization (PSO)
engine written in Rust: the `ParticleWorld` container and its in-place
`step` update, the `Particle` record and its spawning from a seeded generator,
the `StepSettings` weights and their defaults, `best_solution`, and the
Himmelblau benchmark function.

A world holds particles in order. Each particle has a position, a speed, and a
personal best position and score. The world also holds a swarm-wide (global)
best position and score. One step visits the particles in index order. Each
visit does four things:

- it moves the particle by its speed;
- it scores the new position with a caller-supplied pure scorer;
- on a strict improvement it replaces the personal best, and on a further
  strict improvement the global best;
- it recomputes the speed as
  `inertia·speed + cognitive·(best − position) + social·(global best − position)`.

Later particles in a sweep see a global best that earlier particles of the same
sweep may already have moved.

Modules:

- `Scores` (`scores.dfy`) models 32-bit float scores as `NegInf | Fin(real) | PosInf | NaN`.
  It defines the float comparisons `<` (`Less`) and `<=` (`AtMost`).
- `Vectors` (`vectors.dfy`) models fixed-dimension vectors as `seq<real>`, with
  elementwise add, subtract and scale.
- `Benchmark` (`benchmark.dfy`) holds Himmelblau's function.
- `Generator` (`generator.dfy`) models the seeded generator. Its state is a
  stream of unit-interval samples plus the number of samples drawn so far.
  `GenRange(r)` maps the next sample into `[-r, r]`.
- `Swarm` (`swarm.dfy`) models the world state as values. It defines the update
  of one particle (`Visit`), one step (`Sweep`, the fold of `VisitAt` over
  indices `0 .. n-1`, through the intermediate states `Swept`), and the lemmas
  about them.
- `World` (`world.dfy`) holds `NewParticle` and the `ParticleWorld` class.
  The class has fields `particles`, `globalBestPosition` and `globalBestScore`.
  Its `Step` method updates them in a loop, and is proved equal to `Sweep` of
  the old state.

The world invariant (`Swarm.Invariant`) does not depend on the scorer:

- all vectors share one dimension;
- no stored best is NaN;
- a best still at the `+inf` sentinel sits at the origin;
- the global best score is at most every personal best score;
- unless it is still the sentinel, the global best is some particle's personal best.

Agreement with the scorer (`Swarm.Consistent`) is kept separately, because a
caller may step the same world with different scorers. It states that every
stored best score other than the sentinel equals the scorer's value at the
stored position.

## Model

| member | source | states |
|---|---|---|
| `Scores.LessIsStrictOrder` | src/lib.rs:70-73 | float `<` is irreflexive, asymmetric and transitive; NaN is never below or above anything; +inf is below nothing; non-NaN scores are totally ordered |
| `Benchmark.Himmelblau` | src/lib.rs:10-14 | the benchmark is never negative, and it is zero wherever `x²+y = 11` and `x+y² = 7` |
| `Benchmark.HimmelblauValues` | src/lib.rs:10-14 | f(3,2) = 0, f(0,0) = 170, f(−2.805118, 3.131312) < 0.001 |
| `Benchmark.HimmelblauScore` | src/lib.rs:10-14 | as a scorer on 2-dimensional vectors it gives a finite, non-negative score |
| `Generator.Sample` | src/lib.rs:26 | every draw from the closed range lies in `[-r, r]` |
| `Generator.Draws` | src/lib.rs:26 | the `count` coordinates drawn in sequence each lie in `[-r, r]` |
| `Generator.DrawsFromZeroRadius` | src/lib.rs:26 | a spawn radius of 0 puts every coordinate at 0 |
| `Generator.Rng.GenRange` | src/lib.rs:26 | one draw consumes exactly one sample of the stream, and its value lies in `[-r, r]` |
| `Swarm.DefaultSettings` | src/lib.rs:40-48 | default weights: cognitive 1.5, social 1.5, inertia 0.7 |
| `Swarm.Visit` | src/lib.rs:68-80 | a visit never raises the personal best score; it changes the global best only on a strict improvement below it, and then to the particle's new personal best; a NaN score changes no best |
| `Swarm.VisitAt` | src/lib.rs:67-81 | visiting particle `i` leaves every other particle unchanged and keeps count and dimension |
| `Swarm.Swept` | src/lib.rs:67-81 | after the first `i` visits, particles `i..` are still untouched; count and dimension are kept |
| `Swarm.Sweep` | src/lib.rs:66-82 | a step keeps the particle count, their order and the dimension |
| `Swarm.Steps` | src/lib.rs:66-82 | repeated steps keep the particle count and the dimension |
| `Swarm.SweptSettled` | src/lib.rs:67 | once visited, a particle is not changed again in the same sweep |
| `Swarm.SweepVisits` | src/lib.rs:67-80 | particle `i` ends the step as its visit against the global best left by particles `0..i-1` (mid-sweep visibility) |
| `Swarm.SweepAdvancesPositions` | src/lib.rs:68 | every new position is the old position plus the old speed |
| `Swarm.SweepPersonalBests` | src/lib.rs:69-72 | the personal best moves to the new position, with its score, exactly on a strict improvement; a tie or a worse score leaves it unchanged; the personal best score never goes up |
| `Swarm.VisitSpeed` | src/lib.rs:78-80 | the new speed of one visit is, per coordinate, speed·inertia + (best − position)·cognitive + (global best − position)·social |
| `Swarm.SweepSpeeds` | src/lib.rs:73-80 | in a step, each particle's speed follows that law with the global best in force right after its own visit |
| `Swarm.SweptGlobalBest` | src/lib.rs:70-76 | after the first `j` visits, the global best is unchanged, or strictly lower and equal to the new personal best of a particle among them that strictly improved |
| `Swarm.SweepGlobalBest` | src/lib.rs:70-76 | after a step, the global best is unchanged, or strictly lower and equal to the new personal best of a particle that strictly improved |
| `Swarm.VisitAtPreservesInvariant` | src/lib.rs:70-76 | one visit preserves the world invariant |
| `Swarm.SweptPreservesInvariant` | src/lib.rs:67-81 | every intermediate state of a step satisfies the world invariant |
| `Swarm.SweepPreservesInvariant` | src/lib.rs:66-82 | a step preserves the world invariant, so the global best stays at most every personal best |
| `Swarm.SweptPreservesConsistency` | src/lib.rs:69-75 | every intermediate state of a step keeps stored bests equal to the scorer's values |
| `Swarm.SweepPreservesConsistency` | src/lib.rs:69-75 | a step keeps every non-sentinel stored best score equal to the scorer at the stored position |
| `Swarm.StepsPreserveInvariant` | src/lib.rs:66-82 | over any number of steps: the invariant and scorer agreement hold, and no personal or global best score goes up |
| `Swarm.EmptySwarmKeepsBest` | src/lib.rs:67 | a world without particles keeps its global best through any number of steps |
| `Swarm.ZeroWeightsStopParticles` | src/lib.rs:68-80 | with all weights 0 every speed becomes the zero vector, and in a further such step no particle moves |
| `World.Spawned` | src/lib.rs:24-31 | a spawned particle is at rest, with its personal best at the +inf sentinel and the origin |
| `World.NewParticle` | src/lib.rs:24-31 | draws the `d` coordinates in order from the generator (exactly `d` draws); zero speed, zero best position, best score +inf |
| `World.ParticleWorld.constructor` | src/lib.rs:57-64 | exactly `particleAmount` particles, particle `i` built from draws `i·d .. i·d+d-1` of one stream; every coordinate in `[-r, r]`; global best (+inf, origin); the invariant holds, and every scorer agrees with it |
| `World.ParticleWorld.Step` | src/lib.rs:66-82 | the new state is `Sweep` of the old one; the invariant and scorer agreement are kept; the count is kept; no best score goes up |
| `World.ParticleWorld.BestSolution` | src/lib.rs:84-86 | returns the stored global best score and position; that score is at most every personal best; it is some particle's personal best, or the +inf sentinel at the origin |
| `World.HimmelblauFromOrigin` | src/lib.rs:57-76 | one particle spawned with radius 0 sits at the origin; after one step on Himmelblau, with any weights, the global best is (170, origin) |

## Left out

- The graphical front end (`src/main.rs`): windows, widgets, rendering and the
  event loop. Its centre-of-mass computation exists only for drawing.
- The PCG generator's internals and its seed `0xcafef00dd15ea5e5`. The stream
  the seed produces is a constructor parameter (`Rng.unit`, samples in
  `[0, 1]`). Determinism is therefore stated relative to that stream: equal
  streams and equal draw counts give equal worlds.
- 32-bit float arithmetic. Coordinates, speeds, weights and finite scores are
  exact reals, so rounding, overflow to infinity and `powf` are not modelled.
  The float special values that matter to the comparisons (±inf, NaN) are
  modelled.
- Benchmark.Himmelblau: states only the "if" direction of "zero exactly at the
  four minima". The "only if" direction needs nonlinear real reasoning that the
  solver does not do reliably.
- Benchmark.HimmelblauScore: the source's vector type fixes the dimension at 2.
  The model's scorer must be total, so it scores vectors of any other length
  as NaN. Such vectors never reach it in a two-dimensional world.
- nalgebra's vector internals. Vectors are sequences, and the shared dimension
  is a precondition instead of a type parameter.
- Generator.Rng.GenRange: requires `r ≥ 0`. `gen_range` panics on an empty
  range, and the model excludes that panic instead of modelling it.
