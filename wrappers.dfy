/** Option and Result, the two failure-compatible wrappers the rest of the model uses. */
module Wrappers {

  /** A value that may be absent: a JavaScript `undefined`, a Python `None`, a cache miss. */
  datatype Option<+T> = None | Some(value: T)

  /** The outcome of code that may raise: `Err` names the exception the source would raise. */
  datatype Result<+T> = Ok(value: T) | Err(error: string) {

    predicate IsFailure() {
      Err?
    }

    function PropagateFailure<U>(): Result<U>
      requires Err?
    {
      Err(error)
    }

    function Extract(): T
      requires Ok?
    {
      value
    }
  }

  /** An absent value turned into the failure `error`. */
  function Need<T>(o: Option<T>, error: string): Result<T> {
    match o
    case Some(v) => Ok(v)
    case None => Err(error)
  }

  /**
   * Apply `f` to each element in order, as JavaScript's `Array.prototype.map` or a Python
   * `for` loop does when the body may raise: the first failure aborts the whole traversal.
   */
  function MapOrThrow<A, B>(xs: seq<A>, f: A -> Result<B>): (r: Result<seq<B>>)
    ensures r.Ok? ==> |r.value| == |xs| && forall i :: 0 <= i < |xs| ==> f(xs[i]) == Ok(r.value[i])
    ensures r.Err? <==> exists i :: 0 <= i < |xs| && f(xs[i]).Err?
  {
    if xs == [] then Ok([])
    else
      var head :- f(xs[0]);
      var tail :- MapOrThrow(xs[1..], f);
      Ok([head] + tail)
  }
}
