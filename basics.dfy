/** Small building blocks shared by the modules of this model. */
module Basics {

  /** A value that may be absent: JavaScript's `undefined`, or a Python loop that never returns. */
  datatype Option<T> = None | Some(value: T)

  /** A number or JavaScript's `-Infinity`, the start value of a running maximum. */
  datatype ExtReal = NegInf | Fin(r: real)

  /** `x > e` for a finite `x`. */
  predicate Above(x: real, e: ExtReal)
  {
    e.NegInf? || x > e.r
  }

  /** `Σ s` over integers, folded from the left like Python's `sum` and JavaScript's `reduce`. */
  function Total(s: seq<int>): int
  {
    if |s| == 0 then 0 else Total(s[..|s| - 1]) + s[|s| - 1]
  }

  lemma TotalSnoc(s: seq<int>, x: int)
    ensures Total(s + [x]) == Total(s) + x
  {
    assert (s + [x])[..|s|] == s;
  }
}
