/** `Math.random()`, injected: the generator's calls to it read a stream of
    draws, each in [0, 1), one after the other. A real number stands for the
    double the runtime returns. */
module Draws {

  /** The results of successive `Math.random()` calls, in call order. */
  type Random = nat -> real

  ghost predicate Valid(rand: Random) {
    forall k: nat :: 0.0 <= rand(k) < 1.0
  }

  /** `Math.floor(d * n)`: the index a draw `d` selects in a list of `n`
      elements. It lies in the list whenever the list is not empty, and is 0
      for the empty list. */
  function Pick(d: real, n: nat): (i: nat)
    requires 0.0 <= d < 1.0
    ensures n == 0 ==> i == 0
    ensures n > 0 ==> i < n
  {
    var x := d * n as real;
    assert n as real - x == (1.0 - d) * n as real;
    assert n > 0 ==> (1.0 - d) * n as real > 0.0;
    x.Floor
  }

  /** The pick is the `i` whose slice [i/n, (i+1)/n) of [0, 1) holds the
      draw. */
  lemma PickExactly(d: real, n: nat, i: nat)
    requires 0.0 <= d < 1.0 && n > 0
    ensures Pick(d, n) == i <==> i as real <= d * n as real < i as real + 1.0
  {
  }
}
