/** Fixed-dimension vectors of coordinates.  The source uses a statically sized
    32-bit float vector; here a vector is a sequence of reals and the dimension is
    its length, kept equal across operands by the preconditions. */
module Vectors {

  type Vec = seq<real>

  /** The zero vector of dimension `d`. */
  function Zeros(d: nat): (z: Vec)
    ensures |z| == d
  {
    seq(d, _ => 0.0)
  }

  /** Elementwise sum. */
  function Add(a: Vec, b: Vec): (r: Vec)
    requires |a| == |b|
    ensures |r| == |a|
  {
    seq(|a|, i requires 0 <= i < |a| => a[i] + b[i])
  }

  /** Elementwise difference. */
  function Sub(a: Vec, b: Vec): (r: Vec)
    requires |a| == |b|
    ensures |r| == |a|
  {
    seq(|a|, i requires 0 <= i < |a| => a[i] - b[i])
  }

  /** Multiplication by a scalar. */
  function Scale(a: Vec, k: real): (r: Vec)
    ensures |r| == |a|
  {
    seq(|a|, i requires 0 <= i < |a| => a[i] * k)
  }

  /** Adding the zero vector changes nothing. */
  lemma AddZeros(a: Vec)
    ensures Add(a, Zeros(|a|)) == a
  {
    assert forall i :: 0 <= i < |a| ==> Add(a, Zeros(|a|))[i] == a[i];
  }

  /** Scaling by zero gives the zero vector, and zero vectors add up to zero. */
  lemma ScaleByZero(a: Vec)
    ensures Scale(a, 0.0) == Zeros(|a|)
    ensures Add(Zeros(|a|), Zeros(|a|)) == Zeros(|a|)
  {
    assert forall i :: 0 <= i < |a| ==> Scale(a, 0.0)[i] == Zeros(|a|)[i];
    assert forall i :: 0 <= i < |a| ==> Add(Zeros(|a|), Zeros(|a|))[i] == Zeros(|a|)[i];
  }
}
