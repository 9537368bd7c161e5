/** Numeric building blocks of the simulator: `Math.abs`, and the three
    transcendental functions of JavaScript's `Math` object that the closed-form
    solutions call. Dafny's reals have no `exp`, `tanh` or `sqrt`, so those are
    carried as a value, and `Valid()` lists the facts of real analysis that the
    proofs rely on. */
module Numerics {

  /** `Math.abs` */
  function Abs(x: real): (r: real)
    ensures r >= 0.0
    ensures r == x || r == -x
  {
    if x < 0.0 then -x else x
  }

  /** `Math.exp`, `Math.tanh` and `Math.sqrt`. */
  datatype Transcendentals = Transcendentals(exp: real -> real, tanh: real -> real, sqrt: real -> real)
  {
    /** The facts about the real functions that the model uses, and no more. */
    ghost predicate Valid()
    {
      && exp(0.0) == 1.0
      && (forall x :: exp(x) > 0.0)
      && tanh(0.0) == 0.0
      && (forall x :: -1.0 < tanh(x) < 1.0)
      && (forall x :: x >= 0.0 ==> sqrt(x) >= 0.0 && sqrt(x) * sqrt(x) == x)
    }
  }
}
