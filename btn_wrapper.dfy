/**
 * The submission controller of src/components/BtnWrapper/index.tsx:
 * validating the two search fields, submitting and resetting, accepting
 * the job token, mapping transport errors to messages, and the three-way
 * handling of the job's status with a bounded number of re-polls.
 *
 * Each effect is a transition of the store's state (a pure function here)
 * and an imperative method that performs the same transition on the store
 * through its setters, in the source's order. The requests the component
 * causes are results of the transitions: the job creation that `onSubmit`
 * sends, and the poll that the polling `useFetch` issues whenever its URL
 * (built from the token and the stamp) changes while the token is not empty.
 */
module BtnWrapper {
  import opened Wrappers
  import opened Constants
  import opened Store
  import Geo
  import opened UseFetch

  /** The job-creation reply. */
  datatype TokenRes = TokenRes(token: string)

  /** The poll reply; `path` is in the server's coordinate order. */
  datatype RouteRes = RouteRes(status: string, totalDistance: real, totalTime: real, path: seq<Point>, error: Option<string>)

  /** A request the component causes: create a job for the two places, or poll a job. */
  datatype Request = CreateJob(origin: string, destination: string) | PollJob(token: string, stamp: string)

  /** A transition: the new store state and the request it sets off, if any. */
  datatype Transition = Transition(state: StoreState, request: Option<Request>)

  // ---------------------------------------------------------------------
  // Validation
  // ---------------------------------------------------------------------

  /** Some field's value is empty (the falsy string). */
  predicate HasEmpty(search: Search) {
    search.origin.value == "" || search.destination.value == ""
  }

  /** One field as `checkIsInvalid` leaves it. */
  function Mark(f: Field): Field {
    if f.value == "" then f.(error := [ERR_EMPTY]) else f
  }

  /** The search as `checkIsInvalid` leaves it. */
  function Validated(search: Search): (r: Search)
    ensures forall k :: r.Get(k).value == search.Get(k).value
    ensures forall k :: r.Get(k).error == if search.Get(k).value == "" then [ERR_EMPTY] else search.Get(k).error
  {
    Search(Mark(search.origin), Mark(search.destination))
  }

  /**
   * The `forEach` of `checkIsInvalid`: the replacement entries `errorObj`,
   * one per field whose value is empty, and whether there was any.
   */
  method CollectEmptyFields(search: Search) returns (errorObj: map<Key, Field>, invalid: bool)
    ensures invalid <==> HasEmpty(search)
    ensures forall k :: k in errorObj <==> search.Get(k).value == ""
    ensures search.Overlay(errorObj) == Validated(search)
  {
    errorObj := map[];
    invalid := false;
    for i := 0 to |KEYS|
      invariant forall k :: k in errorObj <==> k in KEYS[..i] && search.Get(k).value == ""
      invariant forall k :: k in errorObj ==> errorObj[k] == search.Get(k).(error := [ERR_EMPTY])
      invariant invalid <==> exists k :: k in KEYS[..i] && search.Get(k).value == ""
    {
      var key := KEYS[i];
      if search.Get(key).value == "" {
        errorObj := errorObj[key := search.Get(key).(error := [ERR_EMPTY])];
        invalid := true;
      }
    }
    assert KEYS[..|KEYS|] == KEYS;
    forall k: Key
      ensures k in KEYS
    {
      match k
      case Origin =>
      case Destination =>
    }
    assert search.Get(Origin) == search.origin && search.Get(Destination) == search.destination;
  }

  // ---------------------------------------------------------------------
  // Transitions
  // ---------------------------------------------------------------------

  /** The poll the polling `useFetch` issues when the token changes from `before` to `after`. */
  function PollFor(before: GeoToken, after: GeoToken): (r: Option<Request>)
    ensures r.Some? <==> after.token != "" && (after.token, after.stamp) != (before.token, before.stamp)
    ensures r.Some? ==> r.value == PollJob(after.token, after.stamp)
  {
    if after.token != "" && (after.token != before.token || after.stamp != before.stamp)
    then Some(PollJob(after.token, after.stamp))
    else None
  }

  /** `onReset(onlyResult)`: route and message cleared; the fields too unless `onlyResult`. */
  function Reset(s: StoreState, onlyResult: bool): (r: StoreState)
    ensures r.geoData == None && r.errMsg == ""
    ensures r.geoToken == s.geoToken
    ensures r.search == if onlyResult then s.search else DEFAULT_SEARCH
  {
    StoreState(if onlyResult then s.search else DEFAULT_SEARCH, s.geoToken, None, "")
  }

  /**
   * `onSubmit`: the previous route and message are cleared, the fields are
   * validated, and the job is requested only when no field is empty.
   */
  function Submit(s: StoreState): (t: Transition)
    ensures t.state.geoData == None && t.state.errMsg == "" && t.state.geoToken == s.geoToken
    ensures t.state.search == Validated(s.search)
    ensures t.request.Some? <==> !HasEmpty(s.search)
    ensures t.request.Some? ==> t.request.value == CreateJob(s.search.origin.value, s.search.destination.value)
  {
    var cleared := Reset(s, true);
    var checked := cleared.(search := Validated(cleared.search));
    if HasEmpty(cleared.search) then Transition(checked, None)
    else Transition(checked, Some(CreateJob(s.search.origin.value, s.search.destination.value)))
  }

  /** The `[resToken]` effect: a reply starts a job with a fresh stamp and the full retry budget. */
  function AcceptToken(s: StoreState, res: Option<TokenRes>, stamp: string): (t: Transition)
    ensures res.None? ==> t == Transition(s, None)
    ensures res.Some? ==> t.state == s.(geoToken := GeoToken(res.value.token, stamp, RETRY_TIMES))
    ensures res.Some? ==> t.request == PollFor(s.geoToken, t.state.geoToken)
  {
    if res.None? then Transition(s, None)
    else
      var token := MergeToken(s.geoToken, TokenPatch(Some(res.value.token), Some(stamp), Some(RETRY_TIMES)));
      Transition(s.(geoToken := token), PollFor(s.geoToken, token))
  }

  /** The message for a failed request: SERVER_ERR when either error is an HTTP 500, OTHER_ERR otherwise. */
  function TransportMessage(errToken: Option<FetchError>, errData: Option<FetchError>): (m: string)
    ensures m == ERR_SERVER <==> errToken == Some(CustomError(HTTP_SERVER_ERROR)) || errData == Some(CustomError(HTTP_SERVER_ERROR))
    ensures m == ERR_SERVER || m == ERR_OTHER
  {
    if IsServerError(errToken) || IsServerError(errData) then ERR_SERVER else ERR_OTHER
  }

  /** The `[errToken, errData]` effect: with either error present, only the message changes. */
  function TransportError(s: StoreState, errToken: Option<FetchError>, errData: Option<FetchError>): (r: StoreState)
    ensures errToken.None? && errData.None? ==> r == s
    ensures errToken.Some? || errData.Some? ==> r == s.(errMsg := TransportMessage(errToken, errData))
  {
    if errToken.None? && errData.None? then s
    else s.(errMsg := TransportMessage(errToken, errData))
  }

  /** `resData.error || SERVER_ERR`: the server's text unless it is missing or empty. */
  function FailureMessage(error: Option<string>): (m: string)
    ensures m != ""
    ensures error.Some? && error.value != "" ==> m == error.value
    ensures error.None? || error.value == "" ==> m == ERR_SERVER
  {
    if error.Some? && error.value != "" then error.value else ERR_SERVER
  }

  /** The `[resData]` effect: the job status decides between storing the route, polling again, and a message. */
  function RouteResponse(s: StoreState, res: Option<RouteRes>, stamp: string): (t: Transition)
    ensures t.state.search == s.search
    ensures res.None? ==> t == Transition(s, None)
    ensures t.request.Some? ==> res.Some? && res.value.status == STATUS_BUSY && s.geoToken.retry != 0
    ensures t.state.geoToken != s.geoToken ==>
      t.state.geoToken == GeoToken(s.geoToken.token, stamp, s.geoToken.retry - 1)
  {
    if res.None? then Transition(s, None)
    else
      var r := res.value;
      if r.status != STATUS_SUCCESS then
        if r.status == STATUS_BUSY then
          if s.geoToken.retry != 0 then
            var token := MergeToken(s.geoToken, TokenPatch(None, Some(stamp), Some(s.geoToken.retry - 1)));
            Transition(s.(geoToken := token), PollFor(s.geoToken, token))
          else Transition(s.(errMsg := ERR_SERVER_BUSY), None)
        else if r.status == STATUS_FAIL then Transition(s.(errMsg := FailureMessage(r.error)), None)
        else Transition(s, None)
      else
        Transition(s.(geoData := Some(GeoData(Geo.ParseGeoJSON(r.path), r.totalDistance, r.totalTime)), errMsg := ""), None)
  }

  /** Still running with budget left: one retry is spent, the token is kept, and a fresh stamp polls again. */
  lemma BusyWithBudgetPollsAgain(s: StoreState, res: RouteRes, stamp: string)
    requires res.status == STATUS_BUSY && s.geoToken.retry > 0
    ensures var t := RouteResponse(s, Some(res), stamp);
      t.state == s.(geoToken := GeoToken(s.geoToken.token, stamp, s.geoToken.retry - 1))
      && (s.geoToken.token != "" && stamp != s.geoToken.stamp ==> t.request == Some(PollJob(s.geoToken.token, stamp)))
  {
    StatusesDistinct();
  }

  /** Still running with no budget left: the message is SERVER_BUSY and nothing is polled. */
  lemma BusyExhaustedReportsBusy(s: StoreState, res: RouteRes, stamp: string)
    requires res.status == STATUS_BUSY && s.geoToken.retry == 0
    ensures RouteResponse(s, Some(res), stamp) == Transition(s.(errMsg := ERR_SERVER_BUSY), None)
  {
    StatusesDistinct();
  }

  /** A failed job sets the server's message, or SERVER_ERR when it sent none. */
  lemma FailureSetsMessage(s: StoreState, res: RouteRes, stamp: string)
    requires res.status == STATUS_FAIL
    ensures RouteResponse(s, Some(res), stamp) == Transition(s.(errMsg := FailureMessage(res.error)), None)
  {
    StatusesDistinct();
  }

  /** Any status other than the three known ones changes nothing. */
  lemma UnknownStatusIgnored(s: StoreState, res: RouteRes, stamp: string)
    requires res.status != STATUS_SUCCESS && res.status != STATUS_BUSY && res.status != STATUS_FAIL
    ensures RouteResponse(s, Some(res), stamp) == Transition(s, None)
  {
  }

  /** Success stores the route with its coordinates turned around and the totals, and clears the message. */
  lemma SuccessStoresRoute(s: StoreState, res: RouteRes, stamp: string)
    requires res.status == STATUS_SUCCESS
    ensures var t := RouteResponse(s, Some(res), stamp);
      t.request == None && t.state.errMsg == "" && t.state.geoToken == s.geoToken
      && t.state.geoData == Some(GeoData(Geo.ParseGeoJSON(res.path), res.totalDistance, res.totalTime))
  {
  }

  // ---------------------------------------------------------------------
  // The machine: events, runs, the retry budget
  // ---------------------------------------------------------------------

  /** What can happen to the component: a button press, or a reply arriving in one of the fetch hooks. */
  datatype Event =
    | Submitted
    | ResetPressed
    | TokenArrived(tokenRes: Option<TokenRes>, tokenStamp: string)
    | TransportFailed(errToken: Option<FetchError>, errData: Option<FetchError>)
    | RouteArrived(routeRes: Option<RouteRes>, routeStamp: string)

  function Next(s: StoreState, e: Event): Transition {
    match e
    case Submitted => Submit(s)
    case ResetPressed => Transition(Reset(s, false), None)
    case TokenArrived(res, stamp) => AcceptToken(s, res, stamp)
    case TransportFailed(errToken, errData) => Transition(TransportError(s, errToken, errData), None)
    case RouteArrived(res, stamp) => RouteResponse(s, res, stamp)
  }

  /** The final state of a run of events and the requests it set off, in order. */
  datatype Trace = Trace(state: StoreState, requests: seq<Request>)

  function Run(s: StoreState, events: seq<Event>): Trace
    decreases |events|
  {
    if |events| == 0 then Trace(s, [])
    else
      var t := Next(s, events[0]);
      var rest := Run(t.state, events[1..]);
      Trace(rest.state, (if t.request.Some? then [t.request.value] else []) + rest.requests)
  }

  /** The retry count lies within the budget. */
  predicate InBudget(s: StoreState) {
    0 <= s.geoToken.retry <= RETRY_TIMES
  }

  lemma StepKeepsRetryInBudget(s: StoreState, e: Event)
    requires InBudget(s)
    ensures InBudget(Next(s, e).state)
  {
  }

  /** From the initial store, every run keeps `0 <= retry <= RETRY_TIMES`. */
  lemma {:induction false} RunKeepsRetryInBudget(s: StoreState, events: seq<Event>)
    requires InBudget(s)
    ensures InBudget(Run(s, events).state)
    decreases |events|
  {
    if |events| > 0 {
      StepKeepsRetryInBudget(s, events[0]);
      RunKeepsRetryInBudget(Next(s, events[0]).state, events[1..]);
    }
  }

  /** The initial store is within the budget. */
  lemma InitialInBudget()
    ensures InBudget(INITIAL_STATE)
  {
  }

  /** A run of poll replies that all report the job still running, one stamp per re-poll. */
  function BusyReplies(res: RouteRes, stamps: seq<string>): (events: seq<Event>)
    ensures |events| == |stamps|
    ensures forall i :: 0 <= i < |stamps| ==> events[i] == RouteArrived(Some(res), stamps[i])
  {
    seq(|stamps|, i requires 0 <= i < |stamps| => RouteArrived(Some(res), stamps[i]))
  }

  function Min(a: int, b: int): int {
    if a <= b then a else b
  }

  /**
   * However the stamps turn out, a job that keeps reporting "in progress"
   * is polled again at most `retry` times, and once the replies outnumber
   * the budget the message is SERVER_BUSY. The token and route stay.
   */
  lemma {:induction false} BusyRunAtMostRetryPolls(s: StoreState, res: RouteRes, stamps: seq<string>)
    requires res.status == STATUS_BUSY && 0 <= s.geoToken.retry
    ensures var tr := Run(s, BusyReplies(res, stamps));
      |tr.requests| <= s.geoToken.retry
      && 0 <= tr.state.geoToken.retry
      && tr.state.geoToken.token == s.geoToken.token
      && tr.state.geoData == s.geoData
      && (|stamps| > s.geoToken.retry ==> tr.state.errMsg == ERR_SERVER_BUSY)
    decreases |stamps|
  {
    if |stamps| > 0 {
      var s1 := Next(s, RouteArrived(Some(res), stamps[0])).state;
      StatusesDistinct();
      assert BusyReplies(res, stamps)[1..] == BusyReplies(res, stamps[1..]);
      BusyRunAtMostRetryPolls(s1, res, stamps[1..]);
    }
  }

  /**
   * With fresh stamps (each differs from every earlier one), a running job
   * is polled again exactly once per reply while budget lasts: the polls
   * carry the job's token and the stamps in order, the count drops by one
   * each time, and a reply beyond the budget sets SERVER_BUSY.
   */
  lemma {:induction false} BusyRunPollsExactly(s: StoreState, res: RouteRes, stamps: seq<string>)
    requires res.status == STATUS_BUSY && 0 <= s.geoToken.retry && s.geoToken.token != ""
    requires forall i :: 0 <= i < |stamps| ==> stamps[i] != s.geoToken.stamp
    requires forall i, j :: 0 <= i < j < |stamps| ==> stamps[i] != stamps[j]
    ensures var n := Min(|stamps|, s.geoToken.retry); var tr := Run(s, BusyReplies(res, stamps));
      |tr.requests| == n
      && (forall i :: 0 <= i < n ==> tr.requests[i] == PollJob(s.geoToken.token, stamps[i]))
      && tr.state.geoToken.retry == s.geoToken.retry - n
      && tr.state.geoToken.token == s.geoToken.token
      && (|stamps| > s.geoToken.retry ==> tr.state.errMsg == ERR_SERVER_BUSY)
      && (|stamps| <= s.geoToken.retry ==> tr.state.errMsg == s.errMsg)
    decreases |stamps|
  {
    if |stamps| > 0 {
      var t := Next(s, RouteArrived(Some(res), stamps[0]));
      StatusesDistinct();
      assert BusyReplies(res, stamps)[1..] == BusyReplies(res, stamps[1..]);
      BusyRunPollsExactly(t.state, res, stamps[1..]);
    }
  }

  /** The number of job polls among some requests. */
  function Polls(requests: seq<Request>): nat {
    if |requests| == 0 then 0
    else (if requests[0].PollJob? then 1 else 0) + Polls(requests[1..])
  }

  lemma {:induction false} PollsAppend(a: seq<Request>, b: seq<Request>)
    ensures Polls(a + b) == Polls(a) + Polls(b)
    decreases |a|
  {
    if |a| == 0 {
      assert a + b == b;
    } else {
      assert (a + b)[1..] == a[1..] + b;
      PollsAppend(a[1..], b);
    }
  }

  /** No event of the run is a token reply carrying a token. */
  predicate NoTokenReply(events: seq<Event>) {
    forall i :: 0 <= i < |events| ==> !(events[i].TokenArrived? && events[i].tokenRes.Some?)
  }

  /**
   * Whatever happens while no new token arrives (submissions, resets,
   * transport errors, replies of any status or none), the job is polled at
   * most `retry` more times: only an "in progress" reply with budget left
   * polls, and it spends one retry; nothing else raises the count.
   */
  lemma {:induction false} PollsWithinRetry(s: StoreState, events: seq<Event>)
    requires 0 <= s.geoToken.retry && NoTokenReply(events)
    ensures Polls(Run(s, events).requests) <= s.geoToken.retry
    decreases |events|
  {
    if |events| > 0 {
      var t := Next(s, events[0]);
      StatusesDistinct();
      var head: seq<Request> := if t.request.Some? then [t.request.value] else [];
      assert Polls(head) <= 1;
      assert t.request.Some? && t.request.value.PollJob? ==> t.state.geoToken.retry == s.geoToken.retry - 1;
      assert t.state.geoToken.retry <= s.geoToken.retry;
      assert NoTokenReply(events[1..]) by {
        forall i | 0 <= i < |events[1..]|
          ensures !(events[1..][i].TokenArrived? && events[1..][i].tokenRes.Some?)
        {
          assert events[1..][i] == events[i + 1];
        }
      }
      PollsWithinRetry(t.state, events[1..]);
      PollsAppend(head, Run(t.state, events[1..]).requests);
    }
  }

  /**
   * One accepted token is followed by at most RETRY_TIMES re-polls: a token
   * reply and then any events that bring no other token set off at most
   * 1 + RETRY_TIMES polls in all.
   */
  lemma OneTokenBoundedPolls(s: StoreState, tokenRes: TokenRes, stamp: string, events: seq<Event>)
    requires NoTokenReply(events)
    ensures Polls(Run(s, [TokenArrived(Some(tokenRes), stamp)] + events).requests) <= 1 + RETRY_TIMES
  {
    var all := [TokenArrived(Some(tokenRes), stamp)] + events;
    assert all[1..] == events;
    var t := Next(s, all[0]);
    assert t.state.geoToken.retry == RETRY_TIMES;
    var head: seq<Request> := if t.request.Some? then [t.request.value] else [];
    PollsWithinRetry(t.state, events);
    PollsAppend(head, Run(t.state, events).requests);
  }

  /**
   * Submit "X" to "Y", get token "t1", see "in progress" once and then
   * success with path [[1, 2], [3, 4]], distance 10 and time 20: the route
   * is stored as [[2, 1], [4, 3]] with those totals, no message is shown,
   * and the job creation and two polls were issued.
   */
  lemma EndToEndScenario()
    ensures var s0 := INITIAL_STATE.(search := Search(Field("X", []), Field("Y", [])));
      var busy := RouteRes(STATUS_BUSY, 0.0, 0.0, [], None);
      var done := RouteRes(STATUS_SUCCESS, 10.0, 20.0, [(1.0, 2.0), (3.0, 4.0)], None);
      var tr := Run(s0, [Submitted, TokenArrived(Some(TokenRes("t1")), "s1"),
                         RouteArrived(Some(busy), "s2"), RouteArrived(Some(done), "s3")]);
      tr.state.geoData == Some(GeoData([(2.0, 1.0), (4.0, 3.0)], 10.0, 20.0))
      && tr.state.errMsg == ""
      && tr.requests == [CreateJob("X", "Y"), PollJob("t1", "s1"), PollJob("t1", "s2")]
  {
    var s0 := INITIAL_STATE.(search := Search(Field("X", []), Field("Y", [])));
    var busy := RouteRes(STATUS_BUSY, 0.0, 0.0, [], None);
    var done := RouteRes(STATUS_SUCCESS, 10.0, 20.0, [(1.0, 2.0), (3.0, 4.0)], None);
    var events := [Submitted, TokenArrived(Some(TokenRes("t1")), "s1"),
                   RouteArrived(Some(busy), "s2"), RouteArrived(Some(done), "s3")];
    StatusesDistinct();
    var t1 := Next(s0, events[0]);
    assert t1.request == Some(CreateJob("X", "Y"));
    var t2 := Next(t1.state, events[1]);
    assert t2.state.geoToken == GeoToken("t1", "s1", RETRY_TIMES);
    assert t2.request == Some(PollJob("t1", "s1"));
    var t3 := Next(t2.state, events[2]);
    assert t3.state.geoToken == GeoToken("t1", "s2", RETRY_TIMES - 1);
    assert t3.request == Some(PollJob("t1", "s2"));
    var t4 := Next(t3.state, events[3]);
    assert Geo.ParseGeoJSON([(1.0, 2.0), (3.0, 4.0)]) == [(2.0, 1.0), (4.0, 3.0)];
    assert t4.request == None;
    assert t4.state.geoData == Some(GeoData([(2.0, 1.0), (4.0, 3.0)], 10.0, 20.0)) && t4.state.errMsg == "";
    var e1 := events[1..];
    var e2 := e1[1..];
    var e3 := e2[1..];
    assert e3[1..] == [];
    assert Run(t4.state, e3[1..]) == Trace(t4.state, []);
    assert Run(t3.state, e3) == Trace(t4.state, []);
    assert Run(t2.state, e2) == Trace(t4.state, [PollJob("t1", "s2")]);
    assert Run(t1.state, e1) == Trace(t4.state, [PollJob("t1", "s1"), PollJob("t1", "s2")]);
  }

  // ---------------------------------------------------------------------
  // The component's handlers, acting on the store
  // ---------------------------------------------------------------------

  /** `checkIsInvalid`: marks the empty fields in the store and reports whether there was any. */
  method CheckIsInvalid(store: RouteStore) returns (invalid: bool)
    modifies store
    ensures invalid <==> HasEmpty(old(store.search))
    ensures store.Snapshot() == old(store.Snapshot()).(search := Validated(old(store.search)))
  {
    var errorObj, flag := CollectEmptyFields(store.search);
    store.MergeSearch(errorObj);
    invalid := flag;
  }

  /** `onReset` */
  method OnReset(store: RouteStore, onlyResult: bool)
    modifies store
    ensures store.Snapshot() == Reset(old(store.Snapshot()), onlyResult)
  {
    if !onlyResult {
      store.ResetSearch();
    }
    store.ResetGeoData();
    if store.errMsg != "" {
      store.SetErrMsg("");
    }
  }

  /** `onSubmit` */
  method OnSubmit(store: RouteStore) returns (request: Option<Request>)
    modifies store
    ensures store.Snapshot() == Submit(old(store.Snapshot())).state
    ensures request == Submit(old(store.Snapshot())).request
  {
    var origin, destination := store.search.origin, store.search.destination;
    OnReset(store, true);
    var invalid := CheckIsInvalid(store);
    if invalid {
      return None;
    }
    request := Some(CreateJob(origin.value, destination.value));
  }

  /** The `[resToken]` effect. */
  method OnTokenResponse(store: RouteStore, resToken: Option<TokenRes>, stamp: string) returns (request: Option<Request>)
    modifies store
    ensures store.Snapshot() == AcceptToken(old(store.Snapshot()), resToken, stamp).state
    ensures request == AcceptToken(old(store.Snapshot()), resToken, stamp).request
  {
    if resToken.None? {
      return None;
    }
    var before := store.geoToken;
    store.SetGeoToken(TokenPatch(Some(resToken.value.token), Some(stamp), Some(RETRY_TIMES)));
    request := PollFor(before, store.geoToken);
  }

  /** The `[errToken, errData]` effect. */
  method OnFetchError(store: RouteStore, errToken: Option<FetchError>, errData: Option<FetchError>)
    modifies store
    ensures store.Snapshot() == TransportError(old(store.Snapshot()), errToken, errData)
  {
    if errToken.None? && errData.None? {
      return;
    }
    if IsServerError(errToken) || IsServerError(errData) {
      store.SetErrMsg(ERR_SERVER);
    } else {
      store.SetErrMsg(ERR_OTHER);
    }
  }

  /** The `[resData]` effect. */
  method OnRouteResponse(store: RouteStore, resData: Option<RouteRes>, stamp: string) returns (request: Option<Request>)
    modifies store
    ensures store.Snapshot() == RouteResponse(old(store.Snapshot()), resData, stamp).state
    ensures request == RouteResponse(old(store.Snapshot()), resData, stamp).request
  {
    request := None;
    if resData.None? {
      return;
    }
    var res := resData.value;
    if res.status != STATUS_SUCCESS {
      if res.status == STATUS_BUSY {
        if store.geoToken.retry != 0 {
          var before := store.geoToken;
          store.SetGeoToken(TokenPatch(None, Some(stamp), Some(before.retry - 1)));
          request := PollFor(before, store.geoToken);
        } else {
          store.SetErrMsg(ERR_SERVER_BUSY);
        }
      } else if res.status == STATUS_FAIL {
        store.SetErrMsg(if res.error.Some? && res.error.value != "" then res.error.value else ERR_SERVER);
      }
      return;
    }
    store.SetGeoData(GeoData(Geo.ParseGeoJSON(res.path), res.totalDistance, res.totalTime));
    if store.errMsg != "" {
      store.SetErrMsg("");
    }
  }
}
