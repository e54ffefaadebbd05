/** Small value helpers shared by the grade-calculation modules. */
module Common {

  /** A value that may be absent: JavaScript's `null` for a number. */
  datatype Option<+T> = None | Some(value: T)

  /** `n` copies of `x`. */
  function Repeat<T>(x: T, n: nat): (r: seq<T>)
    ensures |r| == n
    ensures forall i :: 0 <= i < n ==> r[i] == x
  {
    if n == 0 then [] else Repeat(x, n - 1) + [x]
  }
}
