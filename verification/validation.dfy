/** Applicative validation results, as used by the source generator to collect
    every diagnostic of a declaration instead of stopping at the first one.

    A `Validation` is either a success carrying a value, or a failure carrying
    the (non-empty, ordered) list of errors found so far. */
module Validation {

  datatype Validation<+E, +T> = Success(value: T) | Fail(errors: seq<E>)
  {
    /** A failure always carries at least one error. */
    predicate Valid() {
      Fail? ==> |errors| > 0
    }
  }

  /** The errors carried by `v`: none for a success. */
  function ErrorsOf<E, T>(v: Validation<E, T>): seq<E> {
    match v
    case Success(_) => []
    case Fail(es) => es
  }

  /** A failure carrying exactly one error. */
  function FailWith<E, T>(e: E): (r: Validation<E, T>)
    ensures r.Fail? && r.Valid()
    ensures ErrorsOf(r) == [e]
  {
    Fail([e])
  }

  /** Applicative combination of two independent validations: the function is
      applied only when both succeed; otherwise the errors of both sides are
      kept, those of the left one first. */
  function Apply<E, A, B, R>(va: Validation<E, A>, vb: Validation<E, B>, f: (A, B) -> R): (r: Validation<E, R>)
    ensures r.Success? <==> va.Success? && vb.Success?
    ensures r.Success? ==> r.value == f(va.value, vb.value)
    ensures ErrorsOf(r) == ErrorsOf(va) + ErrorsOf(vb)
    ensures va.Valid() && vb.Valid() ==> r.Valid()
  {
    match (va, vb)
    case (Success(a), Success(b)) => Success(f(a, b))
    case _ => Fail(ErrorsOf(va) + ErrorsOf(vb))
  }
}
