/**
  The classification step of the `useFetch` hook: the hook keeps one state
  cell `result`, `undefined` until the awaited promise has produced something,
  and derives `{data, error, isLoading}` from it on every render.
 */
module UseFetch {
  import opened Js

  /** The record the hook returns. Absent fields are `undefined`. */
  datatype FetchState = FetchState(data: Value, error: Value, isLoading: bool)

  /** The value `await promise.catch(err => err)` yields: the fulfilment value,
      or, when the promise rejects, the rejection reason itself. */
  function Awaited(o: Outcome): (r: Value)
    ensures o.Ok? ==> r == o.value
    ensures o.Err? ==> r == o.error
  {
    match o
    case Ok(v) => v
    case Err(e) => e
  }

  /** The three-way branch on `result`: undefined means loading, an `Error`
      instance is an error, anything else is data. */
  function Classify(result: Value): (s: FetchState)
    ensures s.isLoading <==> result == Undefined
    ensures s.error != Undefined <==> IsError(result)
    ensures s.data != Undefined <==> result != Undefined && !IsError(result)
    ensures s.error == Undefined || s.error == result
    ensures s.data == Undefined || s.data == result
    ensures s.data == Undefined || s.error == Undefined
  {
    if result == Undefined then
      FetchState(Undefined, Undefined, true)
    else if IsError(result) then
      FetchState(Undefined, result, false)
    else
      FetchState(result, Undefined, false)
  }

  /** Reads the state cell back from a returned record. */
  function Recover(s: FetchState): Value {
    if s.isLoading then Undefined
    else if s.error != Undefined then s.error
    else s.data
  }

  /** Classification loses nothing: the state cell can be read back from the
      record the hook returns, so no two results render alike. */
  lemma ClassifyLossless(result: Value)
    ensures Recover(Classify(result)) == result
  {
  }

  /** What the hook reports once the promise has settled with `o`. A rejection
      whose reason is not an `Error` is reported as data, a fulfilment with an
      `Error` instance is reported as an error, and a promise that settles with
      `undefined` keeps the hook loading. */
  lemma ClassifyOutcome(o: Outcome)
    ensures var s := Classify(Awaited(o));
      match o
      case Ok(v) =>
        (v == Undefined ==> s == FetchState(Undefined, Undefined, true)) &&
        (IsError(v) ==> s == FetchState(Undefined, v, false)) &&
        (v != Undefined && !IsError(v) ==> s == FetchState(v, Undefined, false))
      case Err(e) =>
        (e == Undefined ==> s == FetchState(Undefined, Undefined, true)) &&
        (IsError(e) ==> s == FetchState(Undefined, e, false)) &&
        (e != Undefined && !IsError(e) ==> s == FetchState(e, Undefined, false))
  {
  }
}
