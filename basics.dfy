/** Small shared vocabulary: optional values and the subsequence relation. */
module Basics {

  /** A value that may be missing (a NaN / NaT cell, a `None` component). */
  datatype Option<+T> = None | Some(value: T)

  /** `a` is obtained from `b` by deleting elements, keeping the order of the rest. */
  predicate Subsequence<T(==)>(a: seq<T>, b: seq<T>)
    decreases |b|
  {
    a == [] || (|b| > 0 && ((a[0] == b[0] && Subsequence(a[1..], b[1..])) || Subsequence(a, b[1..])))
  }

  function Min(a: int, b: int): (m: int)
    ensures m <= a && m <= b && (m == a || m == b)
  {
    if a <= b then a else b
  }
}
