/** The seeded pseudo-random generator that spawns particles.  Its internal
    state is abstracted as the stream of unit-interval samples it produces and
    the number of samples drawn so far; each `gen_range(-r..=r)` draw maps the
    next sample into the closed interval [-r, r]. */
module Generator {

  /** Every sample of the stream lies in the closed unit interval. */
  ghost predicate UnitStream(unit: nat -> real) {
    forall k: nat :: 0.0 <= unit(k) <= 1.0
  }

  /** The value of the draw with index `k` from the range [-r, r]. */
  function Sample(unit: nat -> real, k: nat, r: real): (x: real)
    requires UnitStream(unit) && 0.0 <= r
    ensures -r <= x <= r
  {
    var u := unit(k);
    assert 0.0 <= r * u <= r by {
      assert r * u <= r * 1.0 by { assert r * (1.0 - u) >= 0.0; }
    }
    -r + 2.0 * r * u
  }

  /** The `count` draws from [-r, r] that follow the first `start` draws, in order. */
  function Draws(unit: nat -> real, start: nat, count: nat, r: real): (v: seq<real>)
    requires UnitStream(unit) && (count == 0 || 0.0 <= r)
    ensures |v| == count
    ensures forall i :: 0 <= i < count ==> -r <= v[i] <= r
  {
    var v := seq(count, i requires 0 <= i < count => Sample(unit, start + i, r));
    assert forall i :: 0 <= i < count ==> v[i] == Sample(unit, start + i, r);
    v
  }

  /** A spawn radius of zero puts every coordinate at the origin. */
  lemma DrawsFromZeroRadius(unit: nat -> real, start: nat, count: nat)
    requires UnitStream(unit)
    ensures Draws(unit, start, count, 0.0) == seq(count, _ => 0.0)
  {
    assert forall i :: 0 <= i < count ==> Draws(unit, start, count, 0.0)[i] == 0.0;
  }

  class Rng {
    /** The stream of samples the seed determines. */
    const unit: nat -> real
    /** How many samples have been drawn. */
    var drawn: nat

    constructor (unit: nat -> real)
      requires UnitStream(unit)
      ensures this.unit == unit && drawn == 0
    {
      this.unit := unit;
      drawn := 0;
    }

    /** Draws the next value from the closed range [-r, r]; an empty range
        (r < 0) is a panic in the source and is excluded. */
    method GenRange(r: real) returns (x: real)
      requires UnitStream(unit) && 0.0 <= r
      modifies this
      ensures drawn == old(drawn) + 1
      ensures x == Sample(unit, old(drawn), r) && -r <= x <= r
    {
      x := Sample(unit, drawn, r);
      drawn := drawn + 1;
    }
  }
}
