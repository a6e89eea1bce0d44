/** Option and Result, the two wrappers the model threads through its
    functions in place of Python's None and exceptions, and the loop that
    maps over a list until the first exception. */
module Wrappers {

  datatype Option<+T> = None | Some(value: T) {
    predicate IsFailure() { None? }

    function PropagateFailure<U>(): Option<U>
      requires None?
    {
      None
    }

    function Extract(): T
      requires Some?
    {
      value
    }
  }

  datatype Result<+T, +E> = Ok(value: T) | Err(error: E)

  /** Applies `f` to each element in order, stopping at the first error:
      the shape of a Python loop that appends to a list and lets an
      exception escape. */
  function MapUntilError<T, U, E>(f: T -> Result<U, E>, xs: seq<T>): Result<seq<U>, E>
  {
    if xs == [] then Ok([])
    else
      match MapUntilError(f, xs[..|xs| - 1])
      case Err(e) => Err(e)
      case Ok(ys) =>
        match f(xs[|xs| - 1])
        case Err(e) => Err(e)
        case Ok(y) => Ok(ys + [y])
  }

  lemma {:induction false} MapUntilErrorSucceeds<T, U, E>(f: T -> Result<U, E>, xs: seq<T>)
    ensures MapUntilError(f, xs).Ok? <==> forall i :: 0 <= i < |xs| ==> f(xs[i]).Ok?
  {
    if xs != [] {
      var init := xs[..|xs| - 1];
      MapUntilErrorSucceeds(f, init);
      assert forall i :: 0 <= i < |init| ==> init[i] == xs[i];
    }
  }

  lemma {:induction false} MapUntilErrorInOrder<T, U, E>(f: T -> Result<U, E>, xs: seq<T>)
    requires MapUntilError(f, xs).Ok?
    ensures |MapUntilError(f, xs).value| == |xs|
    ensures forall i :: 0 <= i < |xs| ==> f(xs[i]).Ok? && MapUntilError(f, xs).value[i] == f(xs[i]).value
  {
    if xs != [] {
      var init := xs[..|xs| - 1];
      MapUntilErrorInOrder(f, init);
      assert forall i :: 0 <= i < |init| ==> init[i] == xs[i];
    }
  }

  lemma {:induction false} MapUntilErrorStops<T, U, E>(f: T -> Result<U, E>, xs: seq<T>)
    requires MapUntilError(f, xs).Err?
    ensures exists k :: 0 <= k < |xs| && f(xs[k]) == Err(MapUntilError(f, xs).error)
                        && forall i :: 0 <= i < k ==> f(xs[i]).Ok?
  {
    var init := xs[..|xs| - 1];
    assert forall i :: 0 <= i < |init| ==> init[i] == xs[i];
    if MapUntilError(f, init).Err? {
      MapUntilErrorStops(f, init);
      var k :| 0 <= k < |init| && f(init[k]) == Err(MapUntilError(f, init).error)
               && forall i :: 0 <= i < k ==> f(init[i]).Ok?;
      assert f(xs[k]) == Err(MapUntilError(f, xs).error);
    } else {
      MapUntilErrorSucceeds(f, init);
      var k := |xs| - 1;
      assert f(xs[k]) == Err(MapUntilError(f, xs).error);
    }
  }

  /** Once a prefix has failed, so has the whole sequence, with the same error. */
  lemma {:induction false} MapUntilErrorAfterError<T, U, E>(f: T -> Result<U, E>, xs: seq<T>, k: nat)
    requires k <= |xs| && MapUntilError(f, xs[..k]).Err?
    ensures MapUntilError(f, xs) == MapUntilError(f, xs[..k])
    decreases |xs| - k
  {
    if k < |xs| {
      assert xs[..k + 1][..k] == xs[..k];
      MapUntilErrorAfterError(f, xs, k + 1);
    } else {
      assert xs[..k] == xs;
    }
  }
}
