/** The connection lifecycle of the real-time subscriber as a pure state
    machine: the fields a client object keeps, the state its event handlers
    close over, and one function per event giving the new state and the side
    effects the handler performs, in the order it performs them.

    Both client classes (`Realtime` and the older `Kadoa`) run this machine;
    they differ only in whether application frames carrying an id are
    acknowledged, which the `acks` parameter of `OnMessage` selects. */
module Lifecycle {
  import opened Wrappers
  import opened JsonValues

  /** Delay before a reconnect attempt, in milliseconds. */
  const ReconnectDelay: nat := 5000
  /** Period of the liveness check, in milliseconds. */
  const HeartbeatInterval: nat := 10000
  /** Silence after which the liveness check closes the socket, in milliseconds. */
  const MissedHeartbeatsLimit: nat := 30000

  /** The function in the single `handleEvent` slot: the do-nothing default of
      `Realtime`, the logging default of `Kadoa`, or one passed to `listen`. */
  datatype Callback = Noop | LogEvent | Consumer(id: nat)

  /** The data of an inbound socket message: text that `JSON.parse` rejects,
      or the value it parses to. */
  datatype Frame = Unparseable | Parsed(data: Json)

  /** How the two awaits of the token request end: the request or the body
      parse rejects, or the body parses to a value. */
  datatype TokenOutcome = Failed | Received(body: Json)

  /** Frames the client sends on a socket. */
  datatype Outbound = Subscribe(channel: Option<Json>)

  /** Side effects on the outside world, in the order they are performed.
      Sockets and interval timers are named by their creation index. */
  datatype Effect =
    | TokenRequest(credential: Option<string>)       // POST /v4/oauth2/token with the bearer credential
    | OpenSocket(socket: nat, accessToken: Option<Json>)  // new WebSocket(...?access_token=...)
    | Send(socket: nat, frame: Outbound)
    | Ack(id: Json)                                   // POST /api/v1/events/ack with body {id}
    | Deliver(callback: Callback, payload: Json)      // handleEvent(data)
    | ScheduleReconnect(delay: nat)                   // setTimeout(connect, delay)
    | StartInterval(handle: nat, period: nat)         // setInterval(check, period)
    | ClearInterval(handle: nat)
    | CloseSocket(socket: nat)

  /** The client object's fields, the state captured by its handlers and the
      timer and request bookkeeping of the runtime:
      - credential: the key sent as bearer token;
      - handler: the `handleEvent` slot;
      - isConnecting, lastHeartbeat, socket, heartbeatTimer: the fields of the
        same names (`heartbeatTimer` is `missedHeartbeatCheckTimer`);
      - channels: for each socket created so far, the `team_id` of the token
        response its handlers were created with;
      - timersCreated: how many intervals the runtime has handed out;
      - liveIntervals: the intervals not cleared yet;
      - pendingTokens: token requests whose outcome has not arrived;
      - pendingReconnects: reconnect timeouts that have not fired. */
  datatype State = State(
    credential: Option<string>,
    handler: Callback,
    isConnecting: bool,
    lastHeartbeat: nat,
    socket: Option<nat>,
    heartbeatTimer: Option<nat>,
    channels: seq<Option<Json>>,
    timersCreated: nat,
    liveIntervals: set<nat>,
    pendingTokens: nat,
    pendingReconnects: nat)

  /** The state after a handler runs, and what it did. */
  datatype Next = Next(state: State, effects: seq<Effect>)

  /** The object invariant: `socket` is the newest socket created, and every
      interval handle the object holds or the runtime runs was handed out. */
  predicate Valid(s: State) {
    && s.socket == (if |s.channels| == 0 then None else Some(|s.channels| - 1))
    && (s.heartbeatTimer.Some? ==> s.heartbeatTimer.value < s.timersCreated)
    && (forall h | h in s.liveIntervals :: h < s.timersCreated)
  }

  /** A freshly constructed client at time `now`. */
  function Init(credential: Option<string>, handler: Callback, now: nat): (s: State)
    ensures Valid(s)
    ensures !s.isConnecting && s.socket.None? && s.heartbeatTimer.None?
    ensures s.lastHeartbeat == now && s.pendingTokens == 0 && s.pendingReconnects == 0
  {
    State(credential, handler, false, now, None, None, [], 0, {}, 0, 0)
  }

  /** `connect()` up to its first await: nothing while an attempt is in
      flight, otherwise raise the guard and request a token. */
  function Connect(s: State): (n: Next)
    ensures n.state.isConnecting
    ensures n.effects == [] <==> s.isConnecting
    ensures n.state.handler == s.handler && n.state.channels == s.channels
  {
    if s.isConnecting then Next(s, [])
    else Next(s.(isConnecting := true, pendingTokens := s.pendingTokens + 1),
              [TokenRequest(s.credential)])
  }

  /** `listen(callback)`: overwrite the callback slot, then `connect()`. */
  function OnListen(s: State, callback: Callback): (n: Next)
    ensures n.state.handler == callback && n.state.isConnecting
  {
    Connect(s.(handler := callback))
  }

  /** A reconnect timeout fires and calls `connect()`. */
  function OnReconnectTimer(s: State): (n: Next)
    requires s.pendingReconnects > 0
    ensures n.state.isConnecting && n.state.pendingReconnects == s.pendingReconnects - 1
  {
    Connect(s.(pendingReconnects := s.pendingReconnects - 1))
  }

  /** `setTimeout(() => this.connect(), this.reconnectDelay)`. */
  function ScheduleRetry(s: State): (n: Next)
    ensures Valid(s) ==> Valid(n.state)
    ensures n.state.pendingReconnects == s.pendingReconnects + 1
    ensures n.effects == [ScheduleReconnect(5000)]
  {
    Next(s.(pendingReconnects := s.pendingReconnects + 1), [ScheduleReconnect(ReconnectDelay)])
  }

  /** Whether the rest of `connect()` ends in its catch block: the request or
      the body parse rejected, or the body is `null`, which the destructuring
      of `access_token` and `team_id` cannot read. */
  predicate TokenFails(outcome: TokenOutcome): (r: bool)
    ensures r <==> outcome == Failed || outcome == Received(JNull)
  {
    outcome.Failed? || outcome.body.JNull?
  }

  /** The rest of `connect()` once the token request has settled: open a
      socket with the response's access token, its handlers closing over the
      response's team id; or, in the catch block, lower the guard and schedule
      a reconnect. */
  function OnTokenResult(s: State, outcome: TokenOutcome): (n: Next)
    requires s.pendingTokens > 0
    ensures Valid(s) ==> Valid(n.state)
    ensures |n.state.channels| == |s.channels| + (if TokenFails(outcome) then 0 else 1)
    ensures n.state.channels[..|s.channels|] == s.channels
    ensures n.state.pendingTokens == s.pendingTokens - 1
  {
    var s := s.(pendingTokens := s.pendingTokens - 1);
    if TokenFails(outcome) then
      ScheduleRetry(s.(isConnecting := false))
    else
      var k := |s.channels|;
      Next(s.(socket := Some(k), channels := s.channels + [Get(outcome.body, "team_id")]),
           [OpenSocket(k, Get(outcome.body, "access_token"))])
  }

  /** `startHeartbeatCheck()`: a new interval whose handle overwrites the field. */
  function StartHeartbeatCheck(s: State): (n: Next)
    ensures Valid(s) ==> Valid(n.state) && s.timersCreated !in s.liveIntervals
    ensures n.state.heartbeatTimer == Some(s.timersCreated)
    ensures n.state.liveIntervals == s.liveIntervals + {s.timersCreated}
  {
    var h := s.timersCreated;
    Next(s.(heartbeatTimer := Some(h), timersCreated := h + 1, liveIntervals := s.liveIntervals + {h}),
         [StartInterval(h, HeartbeatInterval)])
  }

  /** `stopHeartbeatCheck()`: clear the interval the field names, if any; the
      field keeps its value. */
  function StopHeartbeatCheck(s: State): (n: Next)
    ensures Valid(s) ==> Valid(n.state)
    ensures n.state.heartbeatTimer == s.heartbeatTimer
    ensures n.state.liveIntervals <= s.liveIntervals
    ensures s.heartbeatTimer.Some? ==> s.heartbeatTimer.value !in n.state.liveIntervals
  {
    match s.heartbeatTimer
    case None => Next(s, [])
    case Some(h) => Next(s.(liveIntervals := s.liveIntervals - {h}), [ClearInterval(h)])
  }

  /** The `onopen` handler of socket `k`; `ready` is whether `this.socket`,
      the newest socket, is in the OPEN state. */
  function OnOpen(s: State, k: nat, now: nat, ready: bool): (n: Next)
    requires k < |s.channels|
    ensures Valid(s) ==> Valid(n.state)
    ensures !n.state.isConnecting && n.state.lastHeartbeat == now
    ensures n.state.channels == s.channels && n.state.socket == s.socket
  {
    var s1 := s.(isConnecting := false, lastHeartbeat := now);
    var subscribe := if ready && s1.socket.Some? then [Send(s1.socket.value, Subscribe(s.channels[k]))] else [];
    var started := StartHeartbeatCheck(s1);
    Next(started.state, subscribe + started.effects)
  }

  /** What the `onmessage` handler does with a frame. */
  datatype Route = Swallowed | Heartbeat | Application(ack: Option<Json>, payload: Json)

  /** Classification of an inbound frame: a parse failure, or the `null`
      whose `type` cannot be read, is caught; `type === "heartbeat"` is a
      heartbeat; anything else is delivered, acknowledged first (when the
      client acknowledges) if its top-level `id` is truthy. */
  function Classify(frame: Frame, acks: bool): (r: Route)
    ensures r.Swallowed? <==> frame.Unparseable? || frame.data == JNull
    ensures r.Heartbeat? <==>
      frame.Parsed? && frame.data.JObj? && "type" in frame.data.fields && frame.data.fields["type"] == JStr("heartbeat")
    ensures r.Application? ==> r.payload == frame.data
    ensures r.Application? ==>
      (r.ack.Some? <==> acks && frame.data.JObj? && "id" in frame.data.fields && Truthy(Some(frame.data.fields["id"])))
    ensures r.Application? && r.ack.Some? ==> r.ack.value == frame.data.fields["id"]
  {
    match frame
    case Unparseable => Swallowed
    case Parsed(data) =>
      if data.JNull? then Swallowed
      else if Get(data, "type") == Some(JStr("heartbeat")) then Heartbeat
      else Application(if acks && Truthy(Get(data, "id")) then Get(data, "id") else None, data)
  }

  /** `handleHeartbeat()`: the liveness timestamp becomes `now`. */
  function HandleHeartbeat(s: State, now: nat): (n: Next)
    ensures n.effects == [] && n.state.lastHeartbeat == now
    ensures n.state.(lastHeartbeat := s.lastHeartbeat) == s
  {
    Next(s.(lastHeartbeat := now), [])
  }

  /** The `onmessage` handler of socket `k` at time `now`. */
  function OnMessage(s: State, k: nat, frame: Frame, now: nat, acks: bool): (n: Next)
    requires k < |s.channels|
    ensures n.state == s || n.state == s.(lastHeartbeat := now)
    ensures |n.effects| <= 2
  {
    match Classify(frame, acks)
    case Swallowed => Next(s, [])
    case Heartbeat => HandleHeartbeat(s, now)
    case Application(ack, payload) =>
      Next(s, (if ack.Some? then [Ack(ack.value)] else []) + [Deliver(s.handler, payload)])
  }

  /** The `onclose` handler of socket `k`. */
  function OnClose(s: State, k: nat): (n: Next)
    requires k < |s.channels|
    ensures Valid(s) ==> Valid(n.state)
    ensures !n.state.isConnecting && n.state.pendingReconnects == s.pendingReconnects + 1
    ensures n.state.socket == s.socket && n.state.channels == s.channels
  {
    var stopped := StopHeartbeatCheck(s.(isConnecting := false));
    var scheduled := ScheduleRetry(stopped.state);
    Next(scheduled.state, stopped.effects + scheduled.effects)
  }

  /** The `onerror` handler of socket `k`. */
  function OnError(s: State, k: nat): (n: Next)
    requires k < |s.channels|
    ensures !n.state.isConnecting && n.effects == []
  {
    Next(s.(isConnecting := false), [])
  }

  /** Whether `now - lastHeartbeat` exceeds the limit. */
  predicate Stale(now: nat, lastHeartbeat: nat) {
    now - lastHeartbeat > MissedHeartbeatsLimit
  }

  /** One run of the liveness check: `this.socket?.close()` when stale. */
  function OnLivenessTick(s: State, now: nat): (n: Next)
    requires s.liveIntervals != {}
    ensures n.state == s
    ensures n.effects != [] <==> Stale(now, s.lastHeartbeat) && s.socket.Some?
  {
    if Stale(now, s.lastHeartbeat) && s.socket.Some? then Next(s, [CloseSocket(s.socket.value)])
    else Next(s, [])
  }

  /** The events that drive a client. */
  datatype Event =
    | ListenCalled(callback: Callback)
    | ReconnectTimerFired
    | TokenSettled(outcome: TokenOutcome)
    | SocketOpen(socket: nat, now: nat, ready: bool)
    | SocketMessage(socket: nat, frame: Frame, now: nat)
    | SocketClose(socket: nat)
    | SocketError(socket: nat)
    | LivenessTick(now: nat)

  /** Whether the runtime can deliver event `e` in state `s`: a timer fires
      only when scheduled, a token request settles only when one is pending,
      and only a socket that was created raises socket events. */
  predicate Enabled(s: State, e: Event) {
    match e
    case ListenCalled(_) => true
    case ReconnectTimerFired => s.pendingReconnects > 0
    case TokenSettled(_) => s.pendingTokens > 0
    case SocketOpen(k, _, _) => k < |s.channels|
    case SocketMessage(k, _, _) => k < |s.channels|
    case SocketClose(k) => k < |s.channels|
    case SocketError(k) => k < |s.channels|
    case LivenessTick(_) => s.liveIntervals != {}
  }

  /** One event; an event that cannot occur in `s` leaves it as it is. */
  function Step(acks: bool, s: State, e: Event): (n: Next)
    ensures !Enabled(s, e) ==> n == Next(s, [])
    ensures n.state.credential == s.credential
  {
    if !Enabled(s, e) then Next(s, [])
    else match e
      case ListenCalled(cb) => OnListen(s, cb)
      case ReconnectTimerFired => OnReconnectTimer(s)
      case TokenSettled(outcome) => OnTokenResult(s, outcome)
      case SocketOpen(k, now, ready) => OnOpen(s, k, now, ready)
      case SocketMessage(k, frame, now) => OnMessage(s, k, frame, now, acks)
      case SocketClose(k) => OnClose(s, k)
      case SocketError(k) => OnError(s, k)
      case LivenessTick(now) => OnLivenessTick(s, now)
  }

  /** A sequence of events, with all the effects in order. */
  function Run(acks: bool, s: State, events: seq<Event>): Next
    decreases |events|
  {
    if events == [] then Next(s, [])
    else
      var first := Step(acks, s, events[0]);
      var rest := Run(acks, first.state, events[1..]);
      Next(rest.state, first.effects + rest.effects)
  }
}
