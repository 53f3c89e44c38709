/**
 * The discrete request engine of the web client (webapp/src/hooks/useRequest.ts):
 * the reducer over `{loading, data, error}` and the dispatch protocol of `request`.
 */
module ApiRequest {
  import opened Wrappers

  /**
   * The reducer's state. `rest` stands for every other field of the state
   * object, which the reducer copies unchanged through the object spread.
   */
  datatype ApiState<T, E, R> = ApiState(loading: bool, data: Option<T>, error: Option<E>, rest: R)

  /** The three actions the reducer handles. */
  datatype ApiAction<T, E> = Request | Success(payload: T) | Error(cause: E)

  /** How a request settles: the promise resolves with response data or rejects with a cause. */
  datatype Response<T, E> = Resolved(data: T) | Rejected(cause: E)

  /** The state invariant: never both data and an error. */
  predicate Exclusive<T, E, R>(s: ApiState<T, E, R>) {
    !(s.data.Some? && s.error.Some?)
  }

  /** `apiReducer`: the new state after one action. */
  function Reduce<T, E, R>(s: ApiState<T, E, R>, a: ApiAction<T, E>): (r: ApiState<T, E, R>)
    ensures Exclusive(r)
    ensures r.rest == s.rest
    ensures r.loading <==> a.Request?
    ensures r.loading ==> r.data == None && r.error == None
    ensures r.data.Some? <==> a.Success?
    ensures a.Success? ==> r.data == Some(a.payload)
    ensures r.error.Some? <==> a.Error?
    ensures a.Error? ==> r.error == Some(a.cause)
  {
    match a
    case Request => s.(loading := true, data := None, error := None)
    case Success(payload) => s.(loading := false, data := Some(payload), error := None)
    case Error(cause) => s.(loading := false, data := None, error := Some(cause))
  }

  /** The state after the reducer has consumed `acts` in order. */
  function Run<T, E, R>(s: ApiState<T, E, R>, acts: seq<ApiAction<T, E>>): ApiState<T, E, R>
    decreases |acts|
  {
    if acts == [] then s else Run(Reduce(s, acts[0]), acts[1..])
  }

  /** Running `acts` then one more action is reducing the result with that action. */
  lemma {:induction false} RunSnoc<T, E, R>(s: ApiState<T, E, R>, acts: seq<ApiAction<T, E>>, a: ApiAction<T, E>)
    ensures Run(s, acts + [a]) == Reduce(Run(s, acts), a)
    decreases |acts|
  {
    if acts == [] {
      assert acts + [a] == [a];
    } else {
      assert (acts + [a])[1..] == acts[1..] + [a];
      RunSnoc(Reduce(s, acts[0]), acts[1..], a);
    }
  }

  /**
   * There is no sequencing: the state after any non-empty run of actions is the
   * state the LAST action alone produces, whatever came before it.
   */
  lemma {:induction false} LastActionWins<T, E, R>(s: ApiState<T, E, R>, acts: seq<ApiAction<T, E>>)
    requires acts != []
    ensures Run(s, acts) == Reduce(s, acts[|acts| - 1])
    decreases |acts|
  {
    if |acts| > 1 {
      LastActionWins(Reduce(s, acts[0]), acts[1..]);
    }
  }

  /** Every run keeps the invariant, given an initial state that has it. */
  lemma {:induction false} RunKeepsExclusive<T, E, R>(s: ApiState<T, E, R>, acts: seq<ApiAction<T, E>>)
    requires Exclusive(s)
    ensures Exclusive(Run(s, acts))
    ensures Run(s, acts).rest == s.rest
    decreases |acts|
  {
    if acts != [] {
      RunKeepsExclusive(Reduce(s, acts[0]), acts[1..]);
    }
  }

  /** The action dispatched when a request settles. */
  function Settlement<T, E>(resp: Response<T, E>): (a: ApiAction<T, E>)
    ensures a.Success? <==> resp.Resolved?
    ensures resp.Resolved? ==> a == Success(resp.data)
    ensures resp.Rejected? ==> a == Error(resp.cause)
  {
    match resp
    case Resolved(d) => Success(d)
    case Rejected(c) => Error(c)
  }

  /** `{ ...config, ...subConfig }`: the base request config overridden key by key. */
  function MergeConfig<K, V>(config: map<K, V>, subConfig: map<K, V>): (r: map<K, V>)
    ensures r.Keys == config.Keys + subConfig.Keys
    ensures forall k :: k in subConfig ==> r[k] == subConfig[k]
    ensures forall k :: k in config && k !in subConfig ==> r[k] == config[k]
  {
    config + subConfig
  }

  /** The number of Request actions in `acts`. */
  function Requests<T, E>(acts: seq<ApiAction<T, E>>): nat
    decreases |acts|
  {
    if acts == [] then 0 else (if acts[0].Request? then 1 else 0) + Requests(acts[1..])
  }

  /** The number of Success and Error actions in `acts`. */
  function Settlements<T, E>(acts: seq<ApiAction<T, E>>): nat
    decreases |acts|
  {
    if acts == [] then 0 else (if acts[0].Request? then 0 else 1) + Settlements(acts[1..])
  }

  /** Counting over a sequence extended by one action. */
  lemma {:induction false} CountSnoc<T, E>(acts: seq<ApiAction<T, E>>, a: ApiAction<T, E>)
    ensures Requests(acts + [a]) == Requests(acts) + (if a.Request? then 1 else 0)
    ensures Settlements(acts + [a]) == Settlements(acts) + (if a.Request? then 0 else 1)
    decreases |acts|
  {
    if acts == [] {
      assert acts + [a] == [a];
    } else {
      assert (acts + [a])[1..] == acts[1..] + [a];
      CountSnoc(acts[1..], a);
    }
  }

  /**
   * The hook returned by `useRequest(config)`: the reducer-held state, the
   * requests whose promise has not settled yet (with the config each was sent
   * with), and the actions dispatched so far.
   */
  class RequestHook<T, E, R> {
    const config: map<string, string>
    var state: ApiState<T, E, R>
    var inFlight: seq<map<string, string>>
    ghost var dispatched: seq<ApiAction<T, E>>
    ghost const initial: ApiState<T, E, R>

    /**
     * The state is the reducer run over every dispatched action, and every
     * Request is matched by exactly one settlement or is still in flight.
     */
    ghost predicate Valid()
      reads this
    {
      && Exclusive(initial)
      && state == Run(initial, dispatched)
      && Requests(dispatched) == Settlements(dispatched) + |inFlight|
    }

    /** `useReducer(apiReducer, defaultApiState)`, with a default state that holds the invariant. */
    constructor (config: map<string, string>, defaultState: ApiState<T, E, R>)
      requires Exclusive(defaultState)
      ensures Valid()
      ensures this.config == config && state == defaultState
      ensures inFlight == [] && dispatched == []
    {
      this.config := config;
      state := defaultState;
      inFlight := [];
      dispatched := [];
      initial := defaultState;
    }

    /** `request(subConfig)`: dispatch Request and send the merged config. */
    method Request(subConfig: map<string, string>)
      requires Valid()
      modifies this
      ensures Valid()
      ensures dispatched == old(dispatched) + [ApiAction.Request]
      ensures inFlight == old(inFlight) + [MergeConfig(config, subConfig)]
      ensures state == Reduce(old(state), ApiAction.Request)
      ensures state.loading && state.data == None && state.error == None
    {
      RunSnoc(initial, dispatched, ApiAction.Request);
      CountSnoc(dispatched, ApiAction.Request);
      dispatched := dispatched + [ApiAction.Request];
      state := Reduce(state, ApiAction.Request);
      inFlight := inFlight + [MergeConfig(config, subConfig)];
    }

    /**
     * The promise of the in-flight request at index `k` settles, in whatever
     * order responses arrive, and its Success or Error is dispatched.
     */
    method Settle(k: nat, resp: Response<T, E>)
      requires Valid()
      requires k < |inFlight|
      modifies this
      ensures Valid()
      ensures dispatched == old(dispatched) + [Settlement(resp)]
      ensures inFlight == old(inFlight[..k] + inFlight[k + 1..])
      ensures state == Reduce(old(state), Settlement(resp))
      ensures !state.loading
    {
      var a := Settlement(resp);
      RunSnoc(initial, dispatched, a);
      CountSnoc(dispatched, a);
      dispatched := dispatched + [a];
      state := Reduce(state, a);
      inFlight := inFlight[..k] + inFlight[k + 1..];
    }
  }

  /**
   * Two overlapping requests whose responses arrive out of order: the state
   * shows the response that settled last, the older request's.
   */
  method OverlappingRequests<T, E, R>(config: map<string, string>, init: ApiState<T, E, R>,
                                     subA: map<string, string>, subB: map<string, string>,
                                     respA: Response<T, E>, respB: Response<T, E>)
    returns (final: ApiState<T, E, R>)
    requires Exclusive(init)
    ensures final == Reduce(init, Settlement(respA))
  {
    var hook := new RequestHook(config, init);
    hook.Request(subA);
    hook.Request(subB);
    hook.Settle(1, respB);
    hook.Settle(0, respA);
    final := hook.state;
  }
}
