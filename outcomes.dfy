/** Values shared by every module of the model: optional values, the
    success-or-thrown-error outcome of an asynchronous JavaScript call, and
    occurrence counting over the call traces the connection model records. */
module Outcomes {

  datatype Option<+T> = None | Some(value: T)

  /** What an awaited call produced: a value, or the error it threw. */
  datatype Result<+T, +E> = Ok(value: T) | Err(error: E)

  /** Number of occurrences of `x` in `s`. */
  function Count<T(==)>(x: T, s: seq<T>): (n: nat)
    ensures n <= |s|
    ensures n == 0 <==> x !in s
  {
    if s == [] then 0 else (if s[0] == x then 1 else 0) + Count(x, s[1..])
  }

  lemma {:induction false} CountAppend<T>(x: T, s: seq<T>, t: seq<T>)
    ensures Count(x, s + t) == Count(x, s) + Count(x, t)
  {
    if s == [] {
      assert s + t == t;
    } else {
      assert (s + t)[1..] == s[1..] + t;
      CountAppend(x, s[1..], t);
    }
  }
}
