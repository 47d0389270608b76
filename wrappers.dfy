/** Option and Result values shared by every module of the model. */
module Wrappers {

  datatype Option<T> = None | Some(value: T)

  /** The outcome of an operation that may throw: `Err` carries the exception. */
  datatype Result<T, E> = Ok(value: T) | Err(error: E)
  {
    predicate IsFailure() { Err? }

    function PropagateFailure<U>(): Result<U, E>
      requires Err?
    {
      Err(error)
    }

    function Extract(): T
      requires Ok?
    {
      value
    }
  }

  /**
   * `xs.map(f)` where `f` may throw: the first element whose mapping fails
   * aborts the whole list with that failure; otherwise one result per element.
   */
  function MapAll<T, U, E(==)>(xs: seq<T>, f: T -> Result<U, E>): (r: Result<seq<U>, E>)
    ensures r.Ok? <==> forall i :: 0 <= i < |xs| ==> f(xs[i]).Ok?
    ensures r.Ok? ==> |r.value| == |xs| && forall i :: 0 <= i < |xs| ==> r.value[i] == f(xs[i]).value
    ensures r.Err? ==> exists i :: 0 <= i < |xs| && f(xs[i]).Err? && f(xs[i]).error == r.error
                                   && forall j :: 0 <= j < i ==> f(xs[j]).Ok?
  {
    if xs == [] then Ok([])
    else
      match f(xs[0])
      case Err(e) => Err(e)
      case Ok(head) =>
        match MapAll(xs[1..], f)
        case Err(e) =>
          assert exists i :: 1 <= i < |xs| && f(xs[i]).Err? && f(xs[i]).error == e
                             && forall j :: 0 <= j < i ==> f(xs[j]).Ok? by {
            var i :| 0 <= i < |xs[1..]| && f(xs[1..][i]).Err? && f(xs[1..][i]).error == e
                     && forall j :: 0 <= j < i ==> f(xs[1..][j]).Ok?;
            assert forall j :: 1 <= j < i + 1 ==> xs[j] == xs[1..][j - 1];
            assert xs[i + 1] == xs[1..][i];
          }
          Err(e)
        case Ok(tail) =>
          var all := [head] + tail;
          assert forall i :: 1 <= i < |xs| ==> xs[i] == xs[1..][i - 1] && all[i] == tail[i - 1];
          Ok(all)
  }
}
