/** Failure-compatible wrappers used throughout the model: `Option` for the
    JavaScript `undefined`/present distinction, `Result` for every operation the
    program lets throw, and `MapAll`, the "map in order, stop at the first throw"
    traversal that `Array.prototype.map` with a throwing callback performs. */
module Results {

  datatype Option<+T> = None | Some(value: T)

  datatype Result<+T, +E> = Ok(value: T) | Err(error: E) {

    predicate IsFailure() {
      Err?
    }

    function PropagateFailure<U>(): Result<U, E>
      requires Err?
    {
      Err(error)
    }

    function Extract(): T
      requires Ok?
    {
      value
    }
  }

  /** The first failing element of a traversal and what it failed with. */
  datatype Fault<+E> = Fault(index: nat, error: E)

  /** Applies `f` to every element from left to right. Succeeds with the
      results in input order when every application succeeds; otherwise
      reports the smallest index whose application failed. */
  function MapAll<A, B, E>(xs: seq<A>, f: A -> Result<B, E>): (r: Result<seq<B>, Fault<E>>)
    ensures r.Ok? <==> forall i :: 0 <= i < |xs| ==> f(xs[i]).Ok?
    ensures r.Ok? ==> |r.value| == |xs| && forall i :: 0 <= i < |xs| ==> f(xs[i]) == Ok(r.value[i])
    ensures r.Err? ==>
              && r.error.index < |xs|
              && f(xs[r.error.index]) == Err(r.error.error)
              && forall i :: 0 <= i < r.error.index ==> f(xs[i]).Ok?
  {
    if |xs| == 0 then Ok([])
    else
      match f(xs[0])
      case Err(e) => Err(Fault(0, e))
      case Ok(y) =>
        match MapAll(xs[1..], f)
        case Ok(ys) => Ok([y] + ys)
        case Err(Fault(i, e)) => Err(Fault(i + 1, e))
  }
}
