/** Math.random() as the model sees it: a stream of draws, the k-th call of an
    operation reading draw k. Every draw Math.random returns lies in [0, 1). */
module Randomness {

  /** The first n draws lie in [0, 1). */
  predicate UnitDraws(rand: nat -> real, n: nat) {
    forall k: nat | k < n :: 0.0 <= rand(k) < 1.0
  }

  /** Every draw lies in [0, 1): UnitDraws for every n. */
  ghost predicate IsUnitStream(rand: nat -> real) {
    forall n: nat :: UnitDraws(rand, n)
  }

  /** The draws left after the first n have been consumed. */
  function Skip(rand: nat -> real, n: nat): nat -> real
  {
    (k: nat) => rand(n + k)
  }

  /** Each single draw of a unit stream lies in [0, 1). */
  lemma UnitDraw(rand: nat -> real, k: nat)
    requires IsUnitStream(rand)
    ensures 0.0 <= rand(k) < 1.0
  {
    assert UnitDraws(rand, k + 1);
  }

  lemma SkipUnit(rand: nat -> real, n: nat)
    requires IsUnitStream(rand)
    ensures IsUnitStream(Skip(rand, n))
  {
    forall m: nat ensures UnitDraws(Skip(rand, n), m) {
      forall k: nat | k < m ensures 0.0 <= Skip(rand, n)(k) < 1.0 {
        UnitDraw(rand, n + k);
      }
    }
  }
}
