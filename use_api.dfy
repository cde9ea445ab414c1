/** The useApi hook: one state record {data, loading, error} that `execute`
    overwrites when a call starts and again when it settles, and `reset` clears. */
module UseApi {
  import opened Web
  import opened ApiTypes

  datatype ApiState<T> = ApiState(data: Option<T>, loading: bool, error: Option<ApiError>)

  /** The state before any call and after reset. */
  function Idle<T>(): ApiState<T> {
    ApiState(None, false, None)
  }

  /** What every reachable state satisfies: a call in flight has no error, and
      data and error are never both present. */
  predicate Consistent<T>(s: ApiState<T>) {
    (s.loading ==> s.error.None?) && !(s.data.Some? && s.error.Some?)
  }

  class UseApiHook<T> {
    var state: ApiState<T>

    constructor ()
      ensures state == Idle() && Consistent(state)
    {
      state := ApiState(None, false, None);
    }

    /** The first setState of execute: loading, error cleared, data kept. */
    method Begin()
      modifies this
      ensures state == ApiState(old(state).data, true, None)
      ensures Consistent(state)
    {
      state := state.(loading := true, error := None);
    }

    /** The second setState of execute, once apiFunction settles: Ok(d) is a
        response whose data is d, Err(e) what it threw. Returns what execute returns. */
    method Settle(outcome: Result<T, ApiError>) returns (r: Option<T>)
      modifies this
      ensures outcome.Ok? ==> state == ApiState(Some(outcome.value), false, None) && r == Some(outcome.value)
      ensures outcome.Err? ==> state == ApiState(None, false, Some(outcome.error)) && r == None
      ensures Consistent(state) && !state.loading
    {
      match outcome {
        case Ok(d) =>
          state := ApiState(Some(d), false, None);
          r := Some(d);
        case Err(e) =>
          state := ApiState(None, false, Some(e));
          r := None;
      }
    }

    /** execute: start the call, then record how it settled. */
    method Execute(outcome: Result<T, ApiError>) returns (r: Option<T>)
      modifies this
      ensures r == (if outcome.Ok? then Some(outcome.value) else None)
      ensures state == (if outcome.Ok? then ApiState(Some(outcome.value), false, None)
                        else ApiState(None, false, Some(outcome.error)))
      ensures Consistent(state) && !state.loading
    {
      Begin();
      r := Settle(outcome);
    }

    method Reset()
      modifies this
      ensures state == Idle() && Consistent(state)
    {
      state := ApiState(None, false, None);
    }
  }
}
