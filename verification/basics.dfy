/** Small shared vocabulary: an optional value and caller-supplied random draws. */
module Basics {

  datatype Option<+T> = None | Some(value: T)

  /** A value that `Math.random()` may return: a number in [0, 1). */
  predicate InUnit(r: real) {
    0.0 <= r < 1.0
  }

  /** `Math.floor(r * n)` for a draw `r`: an index into a collection of `n` entries. */
  function PickIndex(r: real, n: nat): (k: nat)
    requires InUnit(r) && n > 0
    ensures k < n
    ensures k as real <= r * n as real < k as real + 1.0
  {
    var x := r * n as real;
    assert 0.0 <= x < n as real by { ScaleBelow(r, n as real); }
    x.Floor
  }

  /** Scaling a draw by a positive extent stays below the extent. */
  lemma ScaleBelow(r: real, m: real)
    requires InUnit(r) && m > 0.0
    ensures 0.0 <= r * m < m
  {
    assert m - r * m == (1.0 - r) * m;
  }

  /** The entry of `xs` chosen by the draw `r`, as `xs[Math.floor(r * xs.length)]`. */
  function Pick<T>(r: real, xs: seq<T>): (x: T)
    requires InUnit(r) && |xs| > 0
    ensures x in xs
  {
    xs[PickIndex(r, |xs|)]
  }
}
