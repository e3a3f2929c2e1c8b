/** Sequences of events: a run of frames that all deliver the same input. */
module Sequences {
  /** `n` copies of `e`. */
  function Repeat<T>(e: T, n: nat): (r: seq<T>)
    ensures |r| == n
    ensures forall i :: 0 <= i < n ==> r[i] == e
  {
    if n == 0 then [] else [e] + Repeat(e, n - 1)
  }
}
