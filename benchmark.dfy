/** The Himmelblau function, the two-dimensional test objective shipped with
    the optimizer: f(x, y) = (x^2 + y - 11)^2 + (x + y^2 - 7)^2. */
module Benchmark {
  import opened Scores
  import opened Vectors

  /** `t` raised to the power 2 (the source's `powf(2.0)`). */
  function Square(t: real): real {
    t * t
  }

  lemma SquareIsNonNegative(t: real)
    ensures Square(t) >= 0.0
  {
  }

  /** Himmelblau's function is never negative, and it is zero wherever both
      squared terms vanish (its four global minima). */
  function Himmelblau(input: Vec): (r: real)
    requires |input| == 2
    ensures r >= 0.0
    ensures input[0] * input[0] + input[1] == 11.0 && input[0] + input[1] * input[1] == 7.0 ==> r == 0.0
  {
    var x := input[0];
    var y := input[1];
    var a, b := x * x + y - 11.0, x + y * y - 7.0;
    SquareIsNonNegative(a);
    SquareIsNonNegative(b);
    Square(a) + Square(b)
  }

  /** Values the benchmark is known for: the minimum at (3, 2), the value 170 at
      the origin, and a near-zero value at another of the four minima. */
  lemma HimmelblauValues()
    ensures Himmelblau([3.0, 2.0]) == 0.0
    ensures Himmelblau([0.0, 0.0]) == 170.0
    ensures Himmelblau([-2.805118, 3.131312]) < 0.001
  {
  }

  /** Himmelblau's function as a scorer for a two-dimensional swarm.  The
      source's vector type fixes the dimension to 2; a vector of any other
      length never reaches this scorer in a two-dimensional world, and is
      scored NaN (never an improvement) to keep the scorer total. */
  function HimmelblauScore(v: Vec): (s: Score)
    ensures |v| == 2 ==> s.Fin? && s.value >= 0.0
  {
    if |v| == 2 then Fin(Himmelblau(v)) else NaN
  }
}
