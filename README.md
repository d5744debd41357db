# Route resolution and display state of the picking-system front end

This project models the part of the route-picking web client that resolves a route and keeps its display state:

- **Geo.** Every position of a path the backend returns is turned around into the map's coordinate order (`parseGeoJSON`).
- **UseFetch.** The fetch hook classifies how a request ended (`data`, `error`, `loading`, `isServerError`).
- **Store.** The global store holds the two search fields, the route job's token with its retry count, the resolved route and the single error message. Each setter replaces one slice.
- **BtnWrapper.** The submit button validates the fields, requests a route job, accepts its token and polls the job. A job still "in progress" is polled again at most `RETRY_TIMES = 3` times. The handlers map failures to messages.
- **MapPanel.** The map panel splits the route's waypoints into consecutive pairs and asks a routing service for one segment per pair. It folds the answers back into one path in pair order.

Coordinates, distances and times are JavaScript numbers that are only carried, never computed with. They are `real` values (or a type parameter) here.

The store and the fetch hook are classes whose methods change their fields. Each method has frame conditions saying what stays the same.

Each handler of the submit button appears twice:
- a pure transition of the store's state (`BtnWrapper.Submit`, `AcceptToken`, `TransportError`, `RouteResponse`, `Reset`);
- an imperative method that performs it on the store object through the setters, in the source's order, and is proved to equal the transition.

Requests are outputs of the transitions:
- the job creation `onSubmit` sends;
- the poll the polling fetch hook issues each time its URL changes while the token is not empty.

Server replies and timestamps are inputs. `Run` drives the transitions with a sequence of events. The retry ceiling and the end-to-end scenario are proved about runs.

The code behaves in some ways that its tests or an obvious reading would not lead one to expect. The model follows the code:
- **Some late replies are applied.** There is no generation counter. Each fetch hook aborts its own request in flight when it starts a new one, and the polling hook aborts its poll when the poll URL changes, so a reply to a superseded token request or poll URL never arrives. A Reset or a new Submit changes neither URL, however, so a reply still in flight across them is applied to the store.
- **`geoToken` is kept on submit and reset.** Neither `onSubmit` nor `onReset` resets it.
- **The caller's positions are changed.** `parseGeoJSON` reverses them in place (see Findings).
- **A route and an error message can both be set.** When a segment fetch rejects, the message becomes OTHER_ERR while the resolved route stays in the store (`MapPanel.RoutePanel.OnGeoData`).
- **The Reset button clears the fields too.** It calls `onReset()` with `onlyResult` false. Only `onSubmit` keeps them.
- **A job is polled at most four times.** The first poll follows the token. A job that stays "in progress" is then re-polled three times and then reported busy. The bound holds per token whatever other events come between (`BtnWrapper.PollsWithinRetry`).

## Model

| member | source | states |
|---|---|---|
| Geo.ParseGeoJSON | src/lib/geo.ts:8-12 | the result has the input's length and order, and position `i` is position `i` of the input with its two coordinates exchanged; every position is a pair by its type, so the tests' two-element check holds for every input |
| Geo.ParseGeoJSONInvolutive | src/lib/geo.ts:9-11 | converting twice gives the original path |
| Geo.ParseGeoJSONAppend | src/lib/geo.ts:9-11 | the conversion works position by position: it distributes over concatenation |
| Geo.ParseGeoJSONExamples | src/lib/geo.test.js:5-54 | the tests' cases: two points, one point, the empty path, negative values carried unchanged |
| Geo.ParseGeoJSONInPlace | src/lib/geo.ts:8-12 | as written: the result holds the caller's arrays; each array is reversed in place once per occurrence, so it ends up swapped exactly when it occurs an odd number of times |
| Geo.Reverse | src/lib/geo.ts:10 | `reverse()` on a two-element position turns that array itself around |
| Geo.InPlaceMutationWitness | src/lib/geo.test.js:33-42 | the caller's `[100.123, 50.123]` reads `[50.123, 100.123]` after the call, and the first position of a shallow copy of the outer array taken before the call reads the same changed contents, so comparing with the copy cannot see the change |
| Geo.ParseGeoJSONCopying | src/lib/geo.ts:8-12 | intended behaviour: fresh reversed positions, `out[i] == [in[i][1], in[i][0]]`, and nothing that existed before is modified |
| Constants.MessagesDistinct | src/constants/text.ts:19-24 | the error messages are non-empty and pairwise distinct |
| Constants.StatusesDistinct | src/constants/api.ts:7-11 | the three job statuses are pairwise distinct |
| UseFetch.IsServerError | src/hooks/useFetch.ts:24-26 | true exactly for a present error that carries `errCode` 500; false for no error, for other codes and for `Error` objects |
| UseFetch.Recorded | src/hooks/useFetch.ts:63-66 | the catch block records every thrown value except an `AbortError` |
| UseFetch.Caught | src/hooks/useFetch.ts:54-66 | the error left by a request: none exactly for a parsed 200 body or an abort; `{errCode: status}` for every status other than 200; the `Error` itself for other failures |
| UseFetch.Thrown | src/hooks/useFetch.ts:48-61 | the try block completes exactly for a 200 response whose body parses; any other status throws `{errCode: status}`; a failed request throws its `Error` |
| UseFetch.Delivered | src/hooks/useFetch.ts:54-61 | `data` is replaced only by the parsed body of a 200 response |
| UseFetch.ServerErrorIffStatus500 | src/hooks/useFetch.ts:24-58 | `isServerError` of the recorded error holds exactly when the response status was 500 |
| UseFetch.AbortNotRecorded | src/hooks/useFetch.ts:63-66 | an aborted request leaves no error and no data |
| UseFetch.FetchHook.constructor | src/hooks/useFetch.ts:30-32 | no data, not loading, no error |
| UseFetch.FetchHook.Begin | src/hooks/useFetch.ts:42-43 | the error is cleared and loading is on before the request is awaited; data is kept |
| UseFetch.FetchHook.Catch | src/hooks/useFetch.ts:63-66 | stores the caught value unless it is an abort; nothing else changes |
| UseFetch.FetchHook.Complete | src/hooks/useFetch.ts:54-69 | after the request, loading is off; a non-200 status or a parse failure is stored as the error unless aborted; a parsed 200 body replaces `data` |
| UseFetch.FetchHook.Execute | src/hooks/useFetch.ts:35-70 | loading is off on every path, the error is exactly `Caught` of the outcome (the previous error never survives), data changes only for a parsed 200 body |
| Store.Search.Set | src/store/store.ts:55-66 | the named field gets the new value, the other field keeps its own |
| Store.Search.Overlay | src/components/BtnWrapper/index.tsx:37-42 | the fields named in the map are replaced, the others kept |
| Store.MergeToken | src/store/store.ts:72-76 | every key the patch supplies is replaced, every other key kept; an empty patch changes nothing |
| Store.TokenSurvivesStampRetryPatch | src/store/store.ts:72-76 | a `{stamp, retry}` update keeps the job's token |
| Store.RouteStore.constructor | src/store/store.ts:33-53 | both fields `{value: '', error: []}`, token `{'', '', 3}`, no route, empty message |
| Store.RouteStore.SetSearchValue | src/store/store.ts:55-66 | the field becomes `{value, error: []}`; the other field and every other slice are unchanged |
| Store.RouteStore.MergeSearch | src/components/BtnWrapper/index.tsx:24-43 | the search becomes the old search overlaid with the given fields; other slices unchanged |
| Store.RouteStore.ResetSearch | src/store/store.ts:68-70 | the search becomes the default; token, route and message unchanged |
| Store.RouteStore.SetGeoToken | src/store/store.ts:72-76 | the token is merged with the patch; other slices unchanged |
| Store.RouteStore.SetGeoData | src/store/store.ts:78-80 | only the route changes, to the given one |
| Store.RouteStore.ResetGeoData | src/store/store.ts:82-84 | only the route changes, to none |
| Store.RouteStore.SetErrMsg | src/store/store.ts:86-88 | only the message changes |
| MapPanel.Pairs | src/components/MapPanel/index.tsx:51-53 | `n - 1` pairs for `n >= 1` waypoints and none for an empty route; pair `i` is `(points[i], points[i+1])` |
| MapPanel.PromiseAll | src/components/MapPanel/index.tsx:61-78 | the answers come back in input order exactly when every fetch fulfilled; any rejection gives none |
| MapPanel.Step | src/components/MapPanel/index.tsx:63-70 | the reducer only appends to the accumulated path; for an Ok answer the next entry is the pair's first waypoint |
| MapPanel.Reduce | src/components/MapPanel/index.tsx:63-71 | `reduce` from `[]`: when answer `k - 1` is Ok, its pair's first waypoint is on the path after `k` answers (that later answers only extend the path is `ReduceGrows`) |
| MapPanel.Assemble | src/components/MapPanel/index.tsx:63-71 | `newRoutePath`: empty for fewer than two waypoints; when the last pair is Ok its first waypoint is on the path |
| MapPanel.ReduceIsWoven | src/components/MapPanel/index.tsx:63-71 | after `k` answers the fold holds the pieces of pairs `0..k-1` in order, plus the final waypoint after the last answer when the last pair is Ok |
| MapPanel.AssembleIsWovenThenClosing | src/components/MapPanel/index.tsx:63-71 | the assembled path equals an independent right fold of the Ok pairs' pieces, followed by the final waypoint exactly when the last pair is Ok; with the last pair not Ok the final waypoint is not used |
| MapPanel.LastWaypointWhenLastPairOk | src/components/MapPanel/index.tsx:67-69 | when the last pair is Ok the path is non-empty and ends with the final waypoint |
| MapPanel.AssembleLength | src/components/MapPanel/index.tsx:63-71 | the length is the sum over Ok pairs of one plus their geometry's length, plus one when the last pair is Ok |
| MapPanel.AllFailedGivesEmptyPath | src/components/MapPanel/index.tsx:63-71 | when no pair is Ok the path is empty |
| MapPanel.FailedPairAddsNothing | src/components/MapPanel/index.tsx:64 | a pair that is not Ok leaves the accumulated path unchanged |
| MapPanel.ReduceGrows | src/components/MapPanel/index.tsx:63-71 | the fold only appends: the path after `k` answers is a prefix of the path after any later answer |
| MapPanel.OkPairPlacedInOrder | src/components/MapPanel/index.tsx:63-66 | an Ok pair `i` places its first waypoint and then its geometry right after everything pairs before `i` contributed, and this stays a prefix of the final path |
| MapPanel.ThreeWaypointsAllOk | src/components/MapPanel/index.tsx:63-71 | waypoints A, B, C, both Ok: A, AB's geometry, B, BC's geometry, C |
| MapPanel.ThreeWaypointsFirstFails | src/components/MapPanel/index.tsx:63-71 | (A, B) not Ok: B, BC's geometry, C |
| MapPanel.ThreeWaypointsLastFails | src/components/MapPanel/index.tsx:63-71 | (B, C) not Ok: A and AB's geometry only, C left out |
| MapPanel.RoutePanel.constructor | src/components/MapPanel/index.tsx:18 | no route path |
| MapPanel.RoutePanel.OnGeoData | src/components/MapPanel/index.tsx:41-79 | no route: the path is cleared and the store untouched; any rejected fetch: the message becomes OTHER_ERR and the path is kept; otherwise the path is the assembly of the answers and the store untouched |
| BtnWrapper.Validated | src/components/BtnWrapper/index.tsx:21-46 | values are kept; an empty field's errors become exactly `[EMPTY]`; a non-empty field is untouched |
| BtnWrapper.CollectEmptyFields | src/components/BtnWrapper/index.tsx:27-35 | the returned flag is true iff some field is empty; the entries are exactly the empty fields, and overlaying them gives the validated search |
| BtnWrapper.PollFor | src/components/BtnWrapper/index.tsx:67-72 | a poll of `(token, stamp)` is issued exactly when the token is non-empty and the token or the stamp changed |
| BtnWrapper.Reset | src/components/BtnWrapper/index.tsx:147-151 | route and message cleared, token kept, fields kept when `onlyResult` and set to default otherwise |
| BtnWrapper.Submit | src/components/BtnWrapper/index.tsx:75-89 | route and message cleared, token kept, fields validated; the job is requested with the two values iff no field is empty |
| BtnWrapper.AcceptToken | src/components/BtnWrapper/index.tsx:91-99 | a token reply sets the token to `{token, stamp, RETRY_TIMES}` and changes nothing else; no reply changes nothing |
| BtnWrapper.TransportMessage | src/components/BtnWrapper/index.tsx:106-111 | SERVER_ERR iff either error is `{errCode: 500}`, otherwise OTHER_ERR |
| BtnWrapper.TransportError | src/components/BtnWrapper/index.tsx:101-112 | with no error nothing changes; otherwise only the message changes, to the transport message |
| BtnWrapper.FailureMessage | src/components/BtnWrapper/index.tsx:131-133 | the server's text when present and non-empty, SERVER_ERR otherwise; never empty |
| BtnWrapper.RouteResponse | src/components/BtnWrapper/index.tsx:114-144 | the fields are never touched; no reply changes nothing; a poll is set off only by an "in progress" reply with retries left; the token changes only to the same token with the new stamp and one retry fewer |
| BtnWrapper.BusyWithBudgetPollsAgain | src/components/BtnWrapper/index.tsx:120-127 | "in progress" with `retry > 0`: exactly one retry spent, token kept, nothing else changed, and a fresh stamp polls the same token again |
| BtnWrapper.BusyExhaustedReportsBusy | src/components/BtnWrapper/index.tsx:128-130 | "in progress" with `retry == 0`: only the message changes, to SERVER_BUSY, and nothing is polled |
| BtnWrapper.FailureSetsMessage | src/components/BtnWrapper/index.tsx:131-133 | "failure": only the message changes, to the failure message |
| BtnWrapper.UnknownStatusIgnored | src/components/BtnWrapper/index.tsx:119-136 | any other status than the three known ones changes nothing |
| BtnWrapper.SuccessStoresRoute | src/components/BtnWrapper/index.tsx:138-143 | "success": the route is the reply's path with coordinates turned around plus its totals, the message is empty, the token kept, nothing polled |
| BtnWrapper.StepKeepsRetryInBudget | src/components/BtnWrapper/index.tsx:91-130 | every event keeps `0 <= retry <= RETRY_TIMES` |
| BtnWrapper.RunKeepsRetryInBudget | src/components/BtnWrapper/index.tsx:91-130 | every run of events keeps `0 <= retry <= RETRY_TIMES` |
| BtnWrapper.InitialInBudget | src/store/store.ts:44-53 | the initial store is within the retry budget |
| BtnWrapper.BusyRunAtMostRetryPolls | src/components/BtnWrapper/index.tsx:120-130 | any run of "in progress" replies sets off at most `retry` polls and keeps token and route; more replies than the budget end with SERVER_BUSY |
| BtnWrapper.BusyRunPollsExactly | src/components/BtnWrapper/index.tsx:120-130 | with fresh stamps: exactly `min(replies, retry)` polls, of the same token with the stamps in order, and the count drops by as many; beyond the budget the message is SERVER_BUSY, within it the message is unchanged |
| BtnWrapper.PollsWithinRetry | src/components/BtnWrapper/index.tsx:67-130 | any run of events that brings no new token (submits, resets, transport errors, replies of any status or none) sets off at most `retry` polls |
| BtnWrapper.OneTokenBoundedPolls | src/components/BtnWrapper/index.tsx:91-130 | a token reply followed by any events that bring no other token sets off at most `1 + RETRY_TIMES` polls |
| BtnWrapper.EndToEndScenario | src/components/BtnWrapper/index.tsx:75-144 | submit X to Y, token t1, one "in progress", then success with path [[1,2],[3,4]]: the route is [[2,1],[4,3]] with distance 10 and time 20, no message, and the requests are the job creation and two polls |
| BtnWrapper.CheckIsInvalid | src/components/BtnWrapper/index.tsx:21-46 | returns true iff some field is empty, and the store's search becomes the validated search with every other slice unchanged |
| BtnWrapper.OnReset | src/components/BtnWrapper/index.tsx:147-151 | the store ends in the `Reset` state |
| BtnWrapper.OnSubmit | src/components/BtnWrapper/index.tsx:75-89 | the store ends in the `Submit` state and the returned request is `Submit`'s: none when validation fails |
| BtnWrapper.OnTokenResponse | src/components/BtnWrapper/index.tsx:91-99 | the store ends in the `AcceptToken` state and the poll it sets off is returned |
| BtnWrapper.OnFetchError | src/components/BtnWrapper/index.tsx:101-112 | the store ends in the `TransportError` state |
| BtnWrapper.OnRouteResponse | src/components/BtnWrapper/index.tsx:114-144 | the store ends in the `RouteResponse` state and the re-poll it sets off is returned |

## Left out

- Map rendering is not modelled: creating the map, markers, drawing and clearing the route, and fitting the bounds. These are calls into the Mapbox library and the DOM.
- The `fetch` calls and the concurrency of `Promise.all` are not modelled. How each request ended is an input: an `Outcome` for the fetch hook, a `Settled` value per segment for the map panel.
- `AbortController`, the hook's `abort` and the effect cleanups are not modelled. They are request cancellation and React lifecycle. The model therefore applies every reply it is given, including replies the source would have aborted because a newer request of the same hook started or the poll URL changed.
- React effect scheduling is not modelled. Each effect is a transition applied when its input arrives, and it reads the store as it is at that moment, not as captured at an earlier render.
- The `isSubmitting` state is not modelled. It shows the spinner and disables the Submit button while a chain is pending, so the model's runs include submissions the UI prevents.
- `Date().getTime()` is not modelled. The stamp is an input string.
- `PollFor` compares the poll URL as the pair (token, stamp), not as the concatenated string. It assumes that different pairs give different URLs.
- A repeated stamp is modelled faithfully: the code then issues no poll, because the URL did not change.
- An Ok segment answer is assumed to carry a route. With `routes` empty, the source throws inside the fulfilment handler and the rejection goes unhandled. That path is not modelled.
- MapPanel.RoutePanel.OnGeoData: the settled answers are taken to belong to the current route. The source has no check against a route that changed while the segments were being fetched, and the model does not add one.
- The place-search autocomplete, the other UI components, the page and app shells, the class-name helper tests and the build configuration are not part of this model. They are UI, timers, foreign libraries or build configuration.
- Floating-point behaviour is not modelled. No arithmetic is done on coordinates, distances or times; they are only carried.

## Findings

| source | as written | input that shows it | evidently intended | confidence | as-written member | corrected member |
|---|---|---|---|---|---|---|
| src/lib/geo.ts:10 | `path.reverse()` reverses each of the caller's position arrays in place, so the input is changed and the result shares its arrays | the caller's `[100.123, 50.123]` reads `[50.123, 100.123]` after the call | return reversed positions and leave the input as it was, as the test "no modify for old" (src/lib/geo.test.js:33-42) intends; that test passes only because it compares against a shallow copy that shares the inner arrays; the rest of the model uses the value-level form Geo.ParseGeoJSON | medium; not executed | Geo.InPlaceMutationWitness | Geo.ParseGeoJSONCopying |
