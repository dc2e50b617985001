/** Failure-carrying values shared by every module of the model. */
module Common {

  /** A value that may be absent; `None` also stands for a non-finite float (NaN or infinity). */
  datatype Option<T> = None | Some(value: T)

  /** The outcome of an operation that the source can abort with an exception. */
  datatype Result<T, E> = Ok(value: T) | Err(error: E)

  /** No value occurs twice in `s`. */
  predicate Distinct<T(==)>(s: seq<T>) {
    forall i, j :: 0 <= i < j < |s| ==> s[i] != s[j]
  }

  /** The sum of the values, left to right. */
  function Sum(xs: seq<real>): real {
    if |xs| == 0 then 0.0 else xs[0] + Sum(xs[1..])
  }
}
