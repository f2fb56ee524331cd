# Kadoa real-time subscriber: connection lifecycle in Dafny

This project models the connection lifecycle of the Kadoa SDK's real-time
event subscriber, and proves properties about it. It covers two classes that
run the same lifecycle:

- `Realtime` (node/src/realtime.ts).
- The older `Kadoa` (node/src/index.ts), which never acknowledges events.

A client is constructed with a key. `listen(callback)` stores the callback
and calls `connect()`. `connect()` does these steps in order:

1. It raises the `isConnecting` guard.
2. It requests a token.
3. It opens a WebSocket with the token's access token.
4. It attaches four handlers to the socket.

The handlers do this:

- `onopen` subscribes to the token's `team_id` and starts a 10 s liveness
  interval.
- `onmessage` sorts inbound frames into three kinds:
  - a heartbeat refreshes `lastHeartbeat`;
  - an application event goes to the callback; `Realtime` first
    acknowledges it when it has a truthy `id`;
  - a frame that cannot be handled is swallowed.
- `onclose` stops the liveness check and schedules a reconnect after 5 s.
- `onerror` only lowers the guard.

A failed token request also schedules a reconnect. The liveness interval
closes the socket when more than 30 s have passed since the last heartbeat.

## Structure

- `wrappers.dfy` (`Wrappers`): `Option` and `Result`.
- `json.dfy` (`JsonValues`): parsed JSON values, plus the two JavaScript
  rules the handlers use: reading a property (`undefined` when absent) and
  truthiness.
- `lifecycle.dfy` (`Lifecycle`): the lifecycle as a pure state machine.
  - `State` holds the client's fields, plus the bookkeeping the runtime keeps:
    - the team id each socket's handlers closed over;
    - the interval handles handed out and still running;
    - the outstanding token requests;
    - the outstanding reconnect timeouts.
  - There is one function per event. It returns the new state and the side
    effects (`Effect`) in the order the handler performs them.
  - `Step` and `Run` drive the machine with sequences of events.
  - Both classes share the machine. The `acks` flag of `OnMessage` chooses
    whether to acknowledge: true for `Realtime`, false for `Kadoa`.
- `lifecycle_properties.dfy` (`LifecycleProperties`): the properties of each
  handler, and invariants over every run.
- `scenarios.dfy` (`LifecycleScenarios`): end-to-end runs from construction.
  - Some are the runs the client's tests exercise.
  - Others show guarantees the code does not give.
- `realtime.dfy` (`RealtimeClient`) and `kadoa.dfy` (`KadoaClient`): the two
  classes.
  - They keep the source's mutable fields: `socket`, `lastHeartbeat`,
    `isConnecting`, `missedHeartbeatCheckTimer`, `handleEvent` and the key.
    The source's fixed fields `heartbeatInterval`, `reconnectDelay` and
    `missedHeartbeatsLimit` are the module constants of `Lifecycle`.
  - Two further fields have no source counterpart:
    - `channels` stands for the `team_id` each socket's handler closures
      captured;
    - `timersCreated` stands for the runtime's allocation of interval
      handles.
  - Ghost fields count the running intervals and the outstanding token
    requests and reconnect timeouts.
  - There is one method per event and per private helper, and each updates
    the fields in place.
  - A ghost `log` records the side effects performed.
  - Every method requires and ensures the object invariant `Valid()`. Every
    method also ensures `Performed(L.<Step>(old(Snapshot()), ...))`, where
    `<Step>` is the machine's function for that event or helper. The
    object's new fields and the growth of its log are exactly what that
    function gives.

How the outside world is modelled:

- Time is a parameter `now`.
- Parameters stand for three inputs: the settled token request
  (`TokenOutcome`), the socket's readiness at open (`ready`) and inbound
  frames (`Frame`).
- Outbound requests, frames and timer operations are `Effect` values.
- Sockets and intervals are named by their creation index.

## Guarantees the code does not give

The model follows the code as written, including these behaviours.

- **Which token outcomes reach the catch block.** `fetch` resolves on any
  HTTP status, so a non-2xx response whose body is a JSON object still opens
  a socket. `Lifecycle.TokenFails` names the outcomes that reach the catch
  block (realtime.ts:88-92):
  - a rejected request;
  - a body that is not JSON;
  - a `null` body, whose destructuring throws.

  A throwing `WebSocket` constructor also reaches it; the model folds that
  case into a rejected request (see "Left out").
- **`listen` while connected.** `onopen` lowers the guard (realtime.ts:42),
  so a second `listen` on a connected client opens a second socket. See
  `LifecycleScenarios.SecondListenOpensSecondSocket`.
- **The `isConnecting` guard.** Its comments in index.ts say it is meant to
  "Prevent concurrent connections" (index.ts:16) and "Prevent multiple
  simultaneous connection attempts" (index.ts:29). `onerror` lowers it even
  while a token request is pending (realtime.ts:84-87), so two attempts can
  be in flight at once. See
  `LifecycleScenarios.ErrorReleasesGuardWhileTokenPending`.
- **The heartbeat timer.** The handle field does not track whether an
  interval is running:
  - `startHeartbeatCheck` overwrites the handle without clearing the old
    interval (realtime.ts:101);
  - `stopHeartbeatCheck` leaves the handle set (realtime.ts:111-115).

  See `LifecycleScenarios.RestartedCheckLeaksInterval`.
- **Reconnects.** Nothing deduplicates them; the same scenario ends with two
  scheduled.
- **A late `onopen`.** Each socket's `onopen` sends its own `team_id`, but on
  `this.socket`, the newest socket (realtime.ts:45-51). An older socket
  that opens late subscribes the newest socket to the older team id. See
  `LifecycleScenarios.LateOpenSubscribesOnNewestSocket`.
- **Frames parsing to `null`.** Reading `type` of a frame that parses to
  `null` throws inside the handler's `try`. Such frames are swallowed like
  unparseable ones.
- **A failed acknowledgment.** The ack `fetch` (realtime.ts:64-68) is
  neither awaited nor given a `.catch`, so the handler's `try` does not cover
  it. If it rejects, the rejection is unhandled and never logged; under
  Node's default `--unhandled-rejections=throw` that ends the process.

## Model

| member | source | states |
|---|---|---|
| JsonValues.Get | node/src/realtime.ts:35 | A property read yields a value exactly when the value is an object with that key, and then it is that key's value. |
| JsonValues.Truthy | node/src/realtime.ts:63 | A possibly undefined value is truthy exactly when it is defined and is none of `null`, `false`, `0` and `""`. |
| JsonValues.Present | node/src/realtime.ts:16 | A key argument is truthy exactly when it is defined and not the empty string. |
| RealtimeClient.CheckTeamApiKey | node/src/realtime.ts:15-20 | The check fails exactly when the key is missing or empty, with the message "teamApiKey is required for Realtime connection". Otherwise it yields the key itself. |
| RealtimeClient.Realtime.New | node/src/realtime.ts:15-20 | Construction throws that message exactly for a falsy key. Otherwise it yields a fresh client: it holds the key, the callback slot holds the do-nothing default, `lastHeartbeat` is the time of construction, nothing is connecting, and the log is empty. |
| RealtimeClient.Realtime.constructor | node/src/realtime.ts:5-20 | The initial fields equal `Lifecycle.Init` with the key and the do-nothing callback, and the invariant holds. |
| RealtimeClient.Realtime.Connect | node/src/realtime.ts:22-35 | The fields and the log change exactly as `Lifecycle.Connect` says: nothing happens while the guard is up; otherwise the guard is raised and one token request is logged. |
| RealtimeClient.Realtime.Listen | node/src/realtime.ts:117-120 | The callback slot is overwritten, then `Connect` runs, as `Lifecycle.OnListen` says. |
| RealtimeClient.Realtime.OnTokenResult | node/src/realtime.ts:35-39 | Either a new socket is opened with the response's access token and becomes `socket`, its handlers keeping the response's team id; or, on the catch path (lines 88-92), the guard is lowered and a reconnect is scheduled. This matches `Lifecycle.OnTokenResult`. |
| RealtimeClient.Realtime.ScheduleReconnect | node/src/realtime.ts:81 | One reconnect timeout of 5000 ms is logged and counted as pending. |
| RealtimeClient.Realtime.OnReconnectTimer | node/src/realtime.ts:81 | A pending reconnect fires and runs `Connect`. |
| RealtimeClient.Realtime.OnOpen | node/src/realtime.ts:41-55 | The guard is lowered and `lastHeartbeat := now`. If the newest socket is OPEN, one subscribe frame naming socket `k`'s team id is logged. Then the liveness check starts. This matches `Lifecycle.OnOpen`. |
| RealtimeClient.Realtime.OnMessage | node/src/realtime.ts:57-75 | Fields and log change exactly as `Lifecycle.OnMessage` with acknowledgments gives. |
| RealtimeClient.Realtime.HandleHeartbeat | node/src/realtime.ts:95-98 | Only `lastHeartbeat` changes, to `now`, and nothing is logged. |
| RealtimeClient.Realtime.StartHeartbeatCheck | node/src/realtime.ts:100-109 | A new 10000 ms interval is logged under a fresh handle, which overwrites the field. |
| RealtimeClient.Realtime.StopHeartbeatCheck | node/src/realtime.ts:111-115 | The interval the field names, if any, is cleared. The field keeps its value. |
| RealtimeClient.Realtime.OnClose | node/src/realtime.ts:77-82 | The guard is lowered, the check is stopped, then a reconnect is scheduled, as `Lifecycle.OnClose` says. |
| RealtimeClient.Realtime.OnError | node/src/realtime.ts:84-87 | Only the guard is lowered. |
| RealtimeClient.Realtime.OnLivenessTick | node/src/realtime.ts:101-107 | When `now - lastHeartbeat > 30000` and a socket exists, closing the newest socket is logged. Otherwise nothing happens. |
| KadoaClient.CheckProps | node/src/index.ts:20-25 | The check fails exactly when both keys are falsy, with "apiKey or teamApiKey must be passed". Otherwise it yields `teamApiKey` as given, possibly undefined. |
| KadoaClient.Kadoa.New | node/src/index.ts:20-25 | Construction throws exactly when both keys are falsy. Otherwise it yields a fresh client holding `teamApiKey`, with the logging default callback. |
| KadoaClient.Kadoa.constructor | node/src/index.ts:10-25 | The initial fields equal `Lifecycle.Init` with the team key and the logging callback. |
| KadoaClient.Kadoa.Connect | node/src/index.ts:27-40 | As `Lifecycle.Connect`: a no-op while the guard is up; otherwise the guard is raised and one token request is logged with the possibly undefined team key. |
| KadoaClient.Kadoa.Listen | node/src/index.ts:121-124 | The callback slot is replaced, then `Connect` runs. |
| KadoaClient.Kadoa.OnTokenResult | node/src/index.ts:42-47 | As `Lifecycle.OnTokenResult`: a socket is opened from the response, or the catch path (lines 88-92) lowers the guard and schedules a reconnect. |
| KadoaClient.Kadoa.ScheduleReconnect | node/src/index.ts:81 | One reconnect timeout of 5000 ms is logged and counted as pending. |
| KadoaClient.Kadoa.OnReconnectTimer | node/src/index.ts:81 | A pending reconnect fires and runs `Connect`. |
| KadoaClient.Kadoa.OnOpen | node/src/index.ts:48-62 | As `Lifecycle.OnOpen`: the guard is lowered, `lastHeartbeat := now`, one subscribe frame if OPEN, then the check starts. |
| KadoaClient.Kadoa.OnMessage | node/src/index.ts:64-75 | As `Lifecycle.OnMessage` without acknowledgments: heartbeats refresh liveness, other parsed frames go to the callback, and failures are swallowed. |
| KadoaClient.Kadoa.HandleHeartbeat | node/src/index.ts:95-98 | Only `lastHeartbeat` changes, to `now`. |
| KadoaClient.Kadoa.StartHeartbeatCheck | node/src/index.ts:104-113 | A new 10000 ms interval is logged under a fresh handle, which overwrites the field. |
| KadoaClient.Kadoa.StopHeartbeatCheck | node/src/index.ts:115-119 | The named interval is cleared, and the field keeps its value. |
| KadoaClient.Kadoa.OnClose | node/src/index.ts:77-82 | The guard is lowered, the check is stopped, then a reconnect is scheduled. |
| KadoaClient.Kadoa.OnError | node/src/index.ts:84-87 | Only the guard is lowered. |
| KadoaClient.Kadoa.OnLivenessTick | node/src/index.ts:105-111 | The newest socket is closed exactly when `now - lastHeartbeat > 30000`. |
| Lifecycle.Init | node/src/realtime.ts:5-13 | A new client is valid: it is not connecting, has no socket and no timer, and has nothing pending; `lastHeartbeat` is the construction time. |
| Lifecycle.Connect | node/src/realtime.ts:22-33 | Afterwards the guard is always up. There are no effects exactly when it was already up. The callback and the sockets are unchanged. |
| Lifecycle.OnListen | node/src/realtime.ts:117-120 | Afterwards the slot holds the new callback and the guard is up. |
| Lifecycle.OnReconnectTimer | node/src/realtime.ts:81 | One pending reconnect is used up, and afterwards the guard is up. |
| Lifecycle.ScheduleRetry | node/src/realtime.ts:91 | Exactly one 5000 ms reconnect is scheduled and counted as pending. The invariant is kept. |
| Lifecycle.TokenFails | node/src/realtime.ts:35-92 | The catch path is taken exactly for a rejected request or unparseable body (`Failed`) or a `null` body. |
| Lifecycle.OnTokenResult | node/src/realtime.ts:26-92 | One pending token request is used up. Earlier sockets' team ids are kept, and the list grows by one socket exactly when the outcome does not fail. The invariant is kept. |
| Lifecycle.StartHeartbeatCheck | node/src/realtime.ts:100-109 | The field names a handle that was not running before, and that handle is added to the running intervals. The invariant is kept. |
| Lifecycle.StopHeartbeatCheck | node/src/realtime.ts:111-115 | The field keeps its value. The interval it names is no longer running, and no interval starts. The invariant is kept. |
| Lifecycle.OnOpen | node/src/realtime.ts:41-55 | Afterwards the guard is down and `lastHeartbeat` is `now`. The sockets are unchanged. The invariant is kept. |
| Lifecycle.Classify | node/src/realtime.ts:58-71 | A frame is swallowed exactly when it is unparseable or `null`. It is a heartbeat exactly when it is an object whose `type` is the string "heartbeat". Otherwise it is delivered whole, and acknowledged, with its `id`, exactly when acknowledgments are on and its top-level `id` is truthy. |
| Lifecycle.HandleHeartbeat | node/src/realtime.ts:95-98 | No effects. Only `lastHeartbeat` changes, to `now`. |
| Lifecycle.OnMessage | node/src/realtime.ts:57-75 | The state is either unchanged or changed only in `lastHeartbeat`, and there are at most two effects. |
| Lifecycle.OnClose | node/src/realtime.ts:77-82 | Afterwards the guard is down and one more reconnect is pending. The sockets are unchanged. The invariant is kept. |
| Lifecycle.OnError | node/src/realtime.ts:84-87 | Afterwards the guard is down, and there are no effects. |
| Lifecycle.OnLivenessTick | node/src/realtime.ts:101-107 | No state changes. There is an effect exactly when more than 30000 ms have passed and a socket exists. |
| Lifecycle.Step | node/src/realtime.ts:22-120 | An event that cannot occur changes nothing. No event changes the credential. |
| LifecycleProperties.ConnectIsGuarded | node/src/realtime.ts:22-24 | While `isConnecting`, `connect` changes nothing and has no effect. Otherwise it raises the guard and issues exactly one token request with the credential, and changes nothing else. |
| LifecycleProperties.ListenReplacesCallback | node/src/realtime.ts:117-120 | After `listen`, the slot holds the new callback. A token request is issued exactly when no attempt was in flight. |
| LifecycleProperties.LastListenWins | node/src/index.ts:121-124 | After any run of events, the slot holds the callback of the last `listen`, or the earlier one if there was no `listen`. |
| LifecycleProperties.TokenResponseOpensSocket | node/src/realtime.ts:35-39 | A readable token response opens exactly one socket, the newest, with the response's access token. It records the response's team id for that socket and leaves the guard up. |
| LifecycleProperties.TokenFailureSchedulesReconnect | node/src/realtime.ts:88-92 | A failed token request lowers the guard and schedules exactly one 5000 ms reconnect. The socket and the liveness check are untouched. |
| LifecycleProperties.OpenSubscribesThenStartsCheck | node/src/realtime.ts:41-55 | On open, the guard is lowered and `lastHeartbeat = now`. The effects are exactly one subscribe to the newest socket if it is OPEN, then one new 10000 ms interval under a fresh handle. Earlier intervals stay live. |
| LifecycleProperties.SubscribeUsesSameResponse | node/src/realtime.ts:35-49 | After a token response, any events, and then the open of the socket that response created, the first effect is the subscribe frame on the newest socket. It names that same response's `team_id`. |
| LifecycleProperties.HeartbeatOnlyRefreshesLiveness | node/src/realtime.ts:60-61 | A heartbeat frame sets `lastHeartbeat := now` and nothing else. It produces no callback and no acknowledgment. |
| LifecycleProperties.ApplicationFrameDelivered | node/src/realtime.ts:62-70 | Any other non-null parsed frame is delivered whole to the current callback, and the state is unchanged. With acknowledgments on and a truthy top-level `id`, exactly one `Ack(id)` comes first. Otherwise there is none. |
| LifecycleProperties.SwallowedFrameIsInert | node/src/realtime.ts:57-75 | An unparseable frame, or one that parses to `null`, changes no state and has no effect. |
| LifecycleProperties.NestedIdIsNotAcknowledged | node/test/realtime.test.ts:84-88 | `{event:"update", data:{id:1}}` is delivered without acknowledgment. |
| LifecycleProperties.StepAcksWithDelivery | node/src/realtime.ts:63-70 | In every step, acknowledgments are no more than deliveries. |
| LifecycleProperties.AcksNeverOutnumberDeliveries | node/src/realtime.ts:63-70 | Over any run, acknowledgments are no more than deliveries. |
| LifecycleProperties.StepWithoutAcks | node/src/index.ts:64-75 | A client without acknowledgments issues none in any step. |
| LifecycleProperties.NoAcksWithoutAcking | node/src/index.ts:64-75 | A `Kadoa` client issues no acknowledgment over any run. |
| LifecycleProperties.CloseClearsCheckThenReconnects | node/src/realtime.ts:77-82 | On close, the guard is lowered. The effects are exactly a clear of the named interval (if any), then one 5000 ms reconnect. The field keeps the cleared handle. |
| LifecycleProperties.ErrorOnlyLowersGuard | node/src/realtime.ts:84-87 | On error, the state changes only in the guard, and there are no effects. |
| LifecycleProperties.TickClosesExactlyWhenStale | node/src/realtime.ts:100-109 | A liveness tick changes no state. It closes the newest socket exactly when `now - lastHeartbeat > 30000`, and otherwise does nothing. |
| LifecycleProperties.ReconnectsOnlyAfterCloseOrFailure | node/src/realtime.ts:77-92 | A step schedules exactly one reconnect if it is a close or a failed token request, and none otherwise. Every scheduled reconnect has delay 5000. |
| LifecycleProperties.StepKeepsChannels | node/src/realtime.ts:37-49 | No event removes or changes the team id recorded for a socket; the list only grows. |
| LifecycleProperties.ChannelsOnlyGrow | node/src/realtime.ts:37-49 | Over any run, the team ids recorded for earlier sockets stay as they were. |
| LifecycleProperties.StepPreservesValid | node/src/realtime.ts:37-39 | Every event keeps the invariant: `socket` is the newest socket, and every held or running interval handle was handed out. |
| LifecycleProperties.RunPreservesValid | node/src/realtime.ts:37-39 | The invariant holds after any run from a valid state. |
| LifecycleProperties.StepTokenAccounting | node/src/realtime.ts:27-39 | In each step, the sockets opened match the growth of the socket list. Sockets opened plus requests outstanding grow no faster than requests issued. |
| LifecycleProperties.EverySocketHasItsOwnToken | node/src/realtime.ts:27-39 | The same accounting holds over any run, so every socket uses a token request of its own. |
| LifecycleProperties.SocketsNeverOutnumberTokenRequests | node/src/realtime.ts:27-39 | From construction, the sockets created are exactly the sockets opened, and never more than the token requests issued. |
| LifecycleScenarios.Connects | node/test/realtime.test.ts:67-82 | Listen, then a token response, then open gives exactly four effects in order: one token request, one socket with the access token, one subscribe naming the response's team id, one 10000 ms interval. Afterwards the guard is down and the callback is the one registered. |
| LifecycleScenarios.IdentifiedEventScenario | node/test/realtime.test.ts:166-201 | After connecting, a frame with a truthy top-level `id` gives one `Ack(id)`, then the delivery of the whole payload. External requests total 2. |
| LifecycleScenarios.UnidentifiedEventScenario | node/test/realtime.test.ts:206-221 | After connecting, a frame without `id` is delivered with no acknowledgment. External requests total 1. |
| LifecycleScenarios.SecondListenOpensSecondSocket | node/src/realtime.ts:42 | A second `listen` on a connected client issues a second token request and opens a second socket, which becomes `socket`. |
| LifecycleScenarios.LateOpenSubscribesOnNewestSocket | node/src/realtime.ts:45-51 | With two sockets, the older socket's `onopen` sends its subscribe frame on socket 1, naming socket 0's team id. |
| LifecycleScenarios.ErrorReleasesGuardWhileTokenPending | node/src/realtime.ts:84-87 | An error while a token request is pending lowers the guard, so a further `listen` puts two token requests in flight. |
| LifecycleScenarios.RestartedCheckLeaksInterval | node/src/realtime.ts:100-115 | After a second open and two closes, interval 0 is still live, the field names interval 1, and two reconnects are pending. |

## Left out

- The network: `fetch`, the `ws` WebSocket and the WebSocket protocol
  (RFC 6455). Parameters stand for the token response, socket readiness and
  inbound frames. Requests and frames sent are logged effects.
- The ordering of socket events: which socket events can arrive after which
  is decided by the WebSocket implementation. `Lifecycle.Enabled` lets any
  created socket raise any event at any time, which over-approximates that
  ordering.
- Timers and the clock: `setTimeout`, `setInterval` and `Date.now()`. The
  time is a parameter. Scheduling and clearing are logged effects, and a
  pending reconnect or a running interval is an event that may fire.
- JSON: parsing and serialisation. A frame is either unparseable or a parsed
  value. Only the four properties the client reads are modelled, through
  `JsonValues.Get`.
- A rejected ack request: the model logs the request as an `Ack` effect
  and does not capture its rejection. In the code that rejection is
  unhandled (see "Guarantees the code does not give").
- A callback that throws: the handler's `catch` only logs, and nothing runs
  after the callback in the `try`, so the model has nothing to record. The
  callback is an opaque identity.
- A throwing `WebSocket` constructor: it reaches the same catch block as a
  failed token request, and the model folds it into the `Failed` outcome.
  It is not a separate outcome.
- Console logging, and the URI constants (node/src/constants.ts,
  node/src/index.ts:6-8). The URLs built from them are not modelled.
- The build, version and example files, and the Python implementation. The
  Python code is not part of this model.
- RealtimeClient.Realtime.OnMessage: the model logs one `Ack(id)` effect. It
  does not model the ack request's URL, headers or body.
