/** The random source. Each call of `Math.random()` is modelled as reading the
    next entry of a caller-supplied stream: the k-th call returns `rand(k)`. */
module Randomness {

  /** What `Math.random()` promises of each value it returns: it lies in [0, 1). */
  ghost predicate UnitDraws(rand: nat -> real)
  {
    forall k: nat :: 0.0 <= rand(k) < 1.0
  }

  /** The stream left over after the first `n` draws have been used. */
  function Shifted(rand: nat -> real, n: nat): (rest: nat -> real)
    ensures forall k: nat :: rest(k) == rand(n + k)
  {
    (k: nat) => rand(n + k)
  }

  lemma ShiftedDraws(rand: nat -> real, n: nat)
    requires UnitDraws(rand)
    ensures UnitDraws(Shifted(rand, n))
  {
  }
}
