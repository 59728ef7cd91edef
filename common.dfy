/** Failure-carrying values and sequence helpers shared by the other modules. */
module Common {

  /** A value that may be absent; Python's `None` stands for `None` here. */
  datatype Option<T> = None | Some(value: T)

  /** The result of an operation that either returns a value or raises. */
  datatype Result<T, E> = Success(value: T) | Failure(error: E)

  /** The result of an operation that returns nothing but may raise. */
  datatype Outcome<E> = Pass | Fail(error: E)

  /** The elements of a list, as a set. */
  function Elems<T>(s: seq<T>): set<T>
  {
    set x | x in s
  }

  /** `a` is `b` with some elements left out, the rest in their order. */
  predicate IsSubsequence<T(==)>(a: seq<T>, b: seq<T>)
    decreases |b|
  {
    if a == [] then true
    else if b == [] then false
    else (a[|a| - 1] == b[|b| - 1] && IsSubsequence(a[..|a| - 1], b[..|b| - 1]))
         || IsSubsequence(a, b[..|b| - 1])
  }
}
