/** The floating-point primitives the forecasting services call and the
    model keeps abstract: `math.exp`, `np.log` and `np.std` (the population
    standard deviation). `Lawful` lists the only facts the model relies
    on. */
module Numerics {

  datatype Primitives = Primitives(exp: real -> real, ln: real -> real, std: seq<real> -> real)

  /** `exp(0) == 1`, `exp` is positive and monotone, and a standard
      deviation is never negative. */
  ghost predicate Lawful(m: Primitives)
  {
    m.exp(0.0) == 1.0
    && (forall x :: m.exp(x) > 0.0)
    && (forall x, y :: x <= y ==> m.exp(x) <= m.exp(y))
    && (forall s :: m.std(s) >= 0.0)
  }
}
