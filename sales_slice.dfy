/**
 * The client's `sales` slice: the last report received, whether a fetch is in
 * flight, and the last error, updated in place by the three fetch actions.
 */
module SalesSlice {
  import opened Wrappers
  import opened SalesTypes

  datatype SalesState = SalesState(data: Option<SalesReport>, loading: bool, error: Option<string>)

  /** The fetch actions; `Other` stands for every action type the slice does not handle. */
  datatype Action =
    | FetchStart(period: string, topSellingLimit: int)
    | FetchSuccess(payload: SalesReport)
    | FetchFailure(error: string)
    | Other(actionType: string)

  const InitialState: SalesState := SalesState(None, false, None)

  /** The reducer, case by case. */
  function Reduce(s: SalesState, a: Action): (r: SalesState)
    ensures a.FetchStart? ==> r.loading && r.error.None? && r.data == s.data
    ensures a.FetchSuccess? ==> r.data == Some(a.payload) && !r.loading && r.error == s.error
    ensures a.FetchFailure? ==> r.error == Some(a.error) && !r.loading && r.data == s.data
    ensures a.Other? ==> r == s
  {
    match a
    case FetchStart(_, _) => s.(loading := true, error := None)
    case FetchSuccess(payload) => s.(data := Some(payload), loading := false)
    case FetchFailure(error) => s.(error := Some(error), loading := false)
    case Other(_) => s
  }

  /** The state after dispatching `actions` in order. */
  function ReduceAll(s: SalesState, actions: seq<Action>): SalesState
    decreases |actions|
  {
    if actions == [] then s else ReduceAll(Reduce(s, actions[0]), actions[1..])
  }

  /** While a fetch is in flight no error is shown. */
  predicate InFlightClean(s: SalesState)
  {
    s.loading ==> s.error.None?
  }

  /** Every action keeps `InFlightClean`, and the initial state has it. */
  lemma ReducePreservesInFlightClean(s: SalesState, a: Action)
    requires InFlightClean(s)
    ensures InFlightClean(Reduce(s, a))
    ensures InFlightClean(InitialState)
  {
  }

  /** Every state reached from the initial state by any actions has `InFlightClean`. */
  lemma {:induction false} ReachableInFlightClean(s: SalesState, actions: seq<Action>)
    requires InFlightClean(s)
    ensures InFlightClean(ReduceAll(s, actions))
    decreases |actions|
  {
    if actions != [] {
      ReducePreservesInFlightClean(s, actions[0]);
      ReachableInFlightClean(Reduce(s, actions[0]), actions[1..]);
    }
  }

  /** Dispatching the same action twice is the same as dispatching it once. */
  lemma ReduceIdempotent(s: SalesState, a: Action)
    ensures Reduce(Reduce(s, a), a) == Reduce(s, a)
  {
  }

  /** A fetch that starts and then succeeds shows the payload, no error and no loading. */
  lemma StartThenSuccess(s: SalesState, period: string, limit: int, payload: SalesReport)
    ensures ReduceAll(s, [FetchStart(period, limit), FetchSuccess(payload)]) == SalesState(Some(payload), false, None)
  {
    var actions := [FetchStart(period, limit), FetchSuccess(payload)];
    var started := Reduce(s, actions[0]);
    assert actions[1..] == [FetchSuccess(payload)] && actions[1..][1..] == [];
    assert ReduceAll(s, actions) == ReduceAll(Reduce(started, FetchSuccess(payload)), []);
  }

  /** A failed refetch keeps the previously received report on screen. */
  lemma FailureKeepsPreviousData(s: SalesState, payload: SalesReport, period: string, limit: int, error: string)
    ensures ReduceAll(s, [FetchSuccess(payload), FetchStart(period, limit), FetchFailure(error)])
      == SalesState(Some(payload), false, Some(error))
  {
    var actions := [FetchSuccess(payload), FetchStart(period, limit), FetchFailure(error)];
    var loaded := Reduce(s, actions[0]);
    var started := Reduce(loaded, FetchStart(period, limit));
    assert actions[1..] == [FetchStart(period, limit), FetchFailure(error)];
    assert actions[1..][1..] == [FetchFailure(error)] && actions[1..][1..][1..] == [];
    assert ReduceAll(s, actions) == ReduceAll(started, [FetchFailure(error)]);
    assert ReduceAll(started, [FetchFailure(error)]) == ReduceAll(Reduce(started, FetchFailure(error)), []);
  }

  /** The slice as the store holds it: three fields the reducer cases assign in place. */
  class Slice {
    var data: Option<SalesReport>
    var loading: bool
    var error: Option<string>

    function State(): SalesState
      reads this
    {
      SalesState(data, loading, error)
    }

    constructor()
      ensures State() == InitialState
    {
      data := None;
      loading := false;
      error := None;
    }

    /** `fetchSalesDataStart`: sets `loading` and clears `error`. */
    method Start(period: string, topSellingLimit: int)
      modifies this
      ensures State() == Reduce(old(State()), FetchStart(period, topSellingLimit))
      ensures loading && error.None? && data == old(data)
    {
      loading := true;
      error := None;
    }

    /** `fetchSalesDataSuccess`: stores the payload and clears `loading`. */
    method Success(payload: SalesReport)
      modifies this
      ensures State() == Reduce(old(State()), FetchSuccess(payload))
      ensures data == Some(payload) && !loading && error == old(error)
    {
      data := Some(payload);
      loading := false;
    }

    /** `fetchSalesDataFailure`: stores the payload's error and clears `loading`. */
    method Failure(payloadError: string)
      modifies this
      ensures State() == Reduce(old(State()), FetchFailure(payloadError))
      ensures error == Some(payloadError) && !loading && data == old(data)
    {
      error := Some(payloadError);
      loading := false;
    }

    /** Dispatches any action; the three fetch actions go to their cases and every other action changes nothing. */
    method Dispatch(a: Action)
      modifies this
      ensures State() == Reduce(old(State()), a)
    {
      match a
      case FetchStart(period, limit) => Start(period, limit);
      case FetchSuccess(payload) => Success(payload);
      case FetchFailure(e) => Failure(e);
      case Other(_) =>
    }
  }
}
