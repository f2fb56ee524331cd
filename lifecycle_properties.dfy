/** What the lifecycle machine guarantees, event by event and over whole runs,
    and, as concrete runs, what it does not guarantee. */
module LifecycleProperties {
  import opened Wrappers
  import opened JsonValues
  import opened Lifecycle

  // ---------------------------------------------------------------------
  // Counting effects by kind

  predicate IsTokenRequest(e: Effect) { e.TokenRequest? }
  predicate IsOpenSocket(e: Effect) { e.OpenSocket? }
  predicate IsAck(e: Effect) { e.Ack? }
  predicate IsDeliver(e: Effect) { e.Deliver? }
  predicate IsScheduleReconnect(e: Effect) { e.ScheduleReconnect? }

  /** How many of `effects` are of the given kind. */
  function Count(effects: seq<Effect>, kind: Effect -> bool): nat {
    if effects == [] then 0 else (if kind(effects[0]) then 1 else 0) + Count(effects[1..], kind)
  }

  lemma {:induction false} CountConcat(a: seq<Effect>, b: seq<Effect>, kind: Effect -> bool)
    ensures Count(a + b, kind) == Count(a, kind) + Count(b, kind)
    decreases |a|
  {
    if a == [] {
      assert a + b == b;
    } else {
      assert (a + b)[0] == a[0];
      assert (a + b)[1..] == a[1..] + b;
      CountConcat(a[1..], b, kind);
    }
  }

  /** A frame whose parsed value has top-level `type` equal to the string "heartbeat". */
  predicate IsHeartbeatFrame(frame: Frame) {
    frame.Parsed? && frame.data.JObj? && "type" in frame.data.fields
    && frame.data.fields["type"] == JStr("heartbeat")
  }

  // ---------------------------------------------------------------------
  // connect and listen

  /** `connect()` does nothing at all while an attempt is in flight; otherwise
      it raises the guard and issues exactly one token request carrying the
      credential, changing nothing else. */
  lemma ConnectIsGuarded(s: State)
    ensures s.isConnecting ==> Connect(s) == Next(s, [])
    ensures !s.isConnecting ==>
      && Connect(s).effects == [TokenRequest(s.credential)]
      && Connect(s).state.isConnecting
      && Connect(s).state == s.(isConnecting := true, pendingTokens := s.pendingTokens + 1)
  {
  }

  /** `listen` replaces the callback slot whether or not it then connects, and
      connects exactly when no attempt is in flight. */
  lemma ListenReplacesCallback(s: State, callback: Callback)
    ensures OnListen(s, callback).state.handler == callback
    ensures OnListen(s, callback).effects == if s.isConnecting then [] else [TokenRequest(s.credential)]
  {
  }

  /** The callback registered by the last `listen` call of a run, if any. */
  function LastListener(events: seq<Event>): Option<Callback> {
    if events == [] then None
    else match LastListener(events[1..])
      case Some(cb) => Some(cb)
      case None => if events[0].ListenCalled? then Some(events[0].callback) else None
  }

  /** Last registration wins: after any run, the slot holds the callback of
      the last `listen` call in it, or what it held before if there was none. */
  lemma {:induction false} LastListenWins(acks: bool, s: State, events: seq<Event>)
    ensures Run(acks, s, events).state.handler ==
      match LastListener(events) case Some(cb) => cb case None => s.handler
    decreases |events|
  {
    if events != [] {
      var first := Step(acks, s, events[0]);
      LastListenWins(acks, first.state, events[1..]);
      assert first.state.handler == if events[0].ListenCalled? then events[0].callback else s.handler;
    }
  }

  // ---------------------------------------------------------------------
  // The token response

  /** A token response that can be read opens exactly one new socket, the
      newest, with the response's access token; the socket's handlers keep
      the response's team id; the guard stays up until the socket reports. */
  lemma TokenResponseOpensSocket(s: State, outcome: TokenOutcome)
    requires s.pendingTokens > 0 && !TokenFails(outcome)
    ensures var n := OnTokenResult(s, outcome);
      && n.effects == [OpenSocket(|s.channels|, Get(outcome.body, "access_token"))]
      && n.state == s.(socket := Some(|s.channels|),
                       channels := s.channels + [Get(outcome.body, "team_id")],
                       pendingTokens := s.pendingTokens - 1)
  {
  }

  /** A failed token request lowers the guard and schedules exactly one
      reconnect after 5000 ms; unlike a close, it leaves the liveness check
      and the socket alone. */
  lemma TokenFailureSchedulesReconnect(s: State, outcome: TokenOutcome)
    requires s.pendingTokens > 0 && TokenFails(outcome)
    ensures var n := OnTokenResult(s, outcome);
      && n.effects == [ScheduleReconnect(5000)]
      && n.state == s.(isConnecting := false,
                       pendingTokens := s.pendingTokens - 1,
                       pendingReconnects := s.pendingReconnects + 1)
  {
  }

  // ---------------------------------------------------------------------
  // Socket open

  /** On open: the guard is lowered and the liveness timestamp is `now`; if
      the newest socket is OPEN, exactly one subscribe frame goes to it,
      naming the team id socket `k` was created with, before anything else;
      then a new 10000 ms interval starts under a fresh handle, and intervals
      started earlier are left running. */
  lemma OpenSubscribesThenStartsCheck(s: State, k: nat, now: nat, ready: bool)
    requires Valid(s) && k < |s.channels|
    ensures var n := OnOpen(s, k, now, ready);
      && n.effects == (if ready then [Send(|s.channels| - 1, Subscribe(s.channels[k]))] else [])
                      + [StartInterval(s.timersCreated, 10000)]
      && n.state == s.(isConnecting := false, lastHeartbeat := now,
                       heartbeatTimer := Some(s.timersCreated), timersCreated := s.timersCreated + 1,
                       liveIntervals := s.liveIntervals + {s.timersCreated})
      && s.timersCreated !in s.liveIntervals
  {
  }

  /** The subscribe frame names the `team_id` of the same token response that
      created the socket, whatever events come between the response and the
      socket's open: `channels` only grows, so socket `k` keeps its entry. */
  lemma {:induction false} SubscribeUsesSameResponse(acks: bool, s: State, body: Json, events: seq<Event>, now: nat)
    requires Valid(s) && s.pendingTokens > 0 && body != JNull
    ensures var k := |s.channels|;
      var m := Run(acks, OnTokenResult(s, Received(body)).state, events).state;
      var n := Step(acks, m, SocketOpen(k, now, true));
      && k < |m.channels|
      && |n.effects| > 0 && n.effects[0] == Send(|m.channels| - 1, Subscribe(Get(body, "team_id")))
  {
    var k := |s.channels|;
    var first := OnTokenResult(s, Received(body));
    TokenResponseOpensSocket(s, Received(body));
    RunPreservesValid(acks, first.state, events);
    ChannelsOnlyGrow(acks, first.state, events);
    var m := Run(acks, first.state, events).state;
    assert m.channels[k] == m.channels[..|first.state.channels|][k];
    OpenSubscribesThenStartsCheck(m, k, now, true);
  }

  // ---------------------------------------------------------------------
  // Inbound frames

  /** A heartbeat frame only refreshes the liveness timestamp: no callback,
      no acknowledgment, nothing else changed. */
  lemma HeartbeatOnlyRefreshesLiveness(s: State, k: nat, frame: Frame, now: nat, acks: bool)
    requires k < |s.channels| && IsHeartbeatFrame(frame)
    ensures OnMessage(s, k, frame, now, acks) == Next(s.(lastHeartbeat := now), [])
  {
  }

  /** Any other parsed frame that is not `null` is delivered, with its full
      payload, to the callback in the slot; when the client acknowledges and
      the frame's top-level `id` is truthy, exactly one acknowledgment with
      that id is issued before the delivery. The state does not change. */
  lemma ApplicationFrameDelivered(s: State, k: nat, frame: Frame, now: nat, acks: bool)
    requires k < |s.channels| && frame.Parsed? && frame.data != JNull && !IsHeartbeatFrame(frame)
    ensures var n := OnMessage(s, k, frame, now, acks);
      var identified := acks && frame.data.JObj? && "id" in frame.data.fields
                        && Truthy(Some(frame.data.fields["id"]));
      && n.state == s
      && n.effects == (if identified then [Ack(frame.data.fields["id"])] else []) + [Deliver(s.handler, frame.data)]
      && Count(n.effects, IsAck) == (if identified then 1 else 0)
  {
    var n := OnMessage(s, k, frame, now, acks);
    assert Count([Deliver(s.handler, frame.data)], IsAck) == 0;
    var identified := acks && frame.data.JObj? && "id" in frame.data.fields
                      && Truthy(Some(frame.data.fields["id"]));
    if identified {
      assert n.effects == [Ack(frame.data.fields["id"]), Deliver(s.handler, frame.data)];
      assert n.effects[1..] == [Deliver(s.handler, frame.data)];
    } else {
      assert n.effects == [Deliver(s.handler, frame.data)];
    }
  }

  /** A frame that does not parse, or parses to `null`, is caught and changes
      nothing. */
  lemma SwallowedFrameIsInert(s: State, k: nat, frame: Frame, now: nat, acks: bool)
    requires k < |s.channels| && (frame.Unparseable? || frame.data == JNull)
    ensures OnMessage(s, k, frame, now, acks) == Next(s, [])
  {
  }

  /** An `id` nested under `data` does not count: the frame is delivered
      without acknowledgment. */
  lemma NestedIdIsNotAcknowledged(s: State, k: nat, now: nat)
    requires k < |s.channels|
    ensures var payload := JObj(map["event" := JStr("update"), "data" := JObj(map["id" := JNum(1.0)])]);
      OnMessage(s, k, Parsed(payload), now, true) == Next(s, [Deliver(s.handler, payload)])
  {
    var payload := JObj(map["event" := JStr("update"), "data" := JObj(map["id" := JNum(1.0)])]);
    assert "id" !in payload.fields by { assert "id" != "event" && "id" != "data"; }
    assert "type" !in payload.fields by { assert "type" != "event" && "type" != "data"; }
  }

  /** In every step an acknowledgment comes with a delivery. */
  lemma StepAcksWithDelivery(acks: bool, s: State, e: Event)
    ensures var n := Step(acks, s, e);
      Count(n.effects, IsAck) <= Count(n.effects, IsDeliver)
  {
    var n := Step(acks, s, e);
    if Enabled(s, e) && e.SocketMessage? {
      var c := Classify(e.frame, acks);
      if c.Application? {
        var d := [Deliver(s.handler, c.payload)];
        if c.ack.Some? {
          CountConcat([Ack(c.ack.value)], d, IsAck);
          CountConcat([Ack(c.ack.value)], d, IsDeliver);
        }
      }
    } else if Enabled(s, e) && e.SocketOpen? {
      var s1 := s.(isConnecting := false, lastHeartbeat := e.now);
      var sub := if e.ready && s1.socket.Some? then [Send(s1.socket.value, Subscribe(s.channels[e.socket]))] else [];
      CountConcat(sub, StartHeartbeatCheck(s1).effects, IsAck);
    } else if Enabled(s, e) && e.SocketClose? {
      var stopped := StopHeartbeatCheck(s.(isConnecting := false));
      CountConcat(stopped.effects, [ScheduleReconnect(ReconnectDelay)], IsAck);
    }
  }

  /** Over any run there are never more acknowledgments than deliveries. */
  lemma {:induction false} AcksNeverOutnumberDeliveries(acks: bool, s: State, events: seq<Event>)
    ensures var n := Run(acks, s, events);
      Count(n.effects, IsAck) <= Count(n.effects, IsDeliver)
    decreases |events|
  {
    if events != [] {
      var first := Step(acks, s, events[0]);
      var rest := Run(acks, first.state, events[1..]);
      StepAcksWithDelivery(acks, s, events[0]);
      AcksNeverOutnumberDeliveries(acks, first.state, events[1..]);
      CountConcat(first.effects, rest.effects, IsAck);
      CountConcat(first.effects, rest.effects, IsDeliver);
    }
  }

  /** A client that does not acknowledge issues no acknowledgment in a step. */
  lemma StepWithoutAcks(s: State, e: Event)
    ensures Count(Step(false, s, e).effects, IsAck) == 0
  {
    var n := Step(false, s, e);
    if Enabled(s, e) && e.SocketOpen? {
      var s1 := s.(isConnecting := false, lastHeartbeat := e.now);
      var sub := if e.ready && s1.socket.Some? then [Send(s1.socket.value, Subscribe(s.channels[e.socket]))] else [];
      CountConcat(sub, StartHeartbeatCheck(s1).effects, IsAck);
    } else if Enabled(s, e) && e.SocketClose? {
      var stopped := StopHeartbeatCheck(s.(isConnecting := false));
      CountConcat(stopped.effects, [ScheduleReconnect(ReconnectDelay)], IsAck);
    }
  }

  /** ... and none over any run. */
  lemma {:induction false} NoAcksWithoutAcking(s: State, events: seq<Event>)
    ensures Count(Run(false, s, events).effects, IsAck) == 0
    decreases |events|
  {
    if events != [] {
      var first := Step(false, s, events[0]);
      StepWithoutAcks(s, events[0]);
      NoAcksWithoutAcking(first.state, events[1..]);
      CountConcat(first.effects, Run(false, first.state, events[1..]).effects, IsAck);
    }
  }

  // ---------------------------------------------------------------------
  // Close, error and the liveness check

  /** On close: the guard is lowered, the interval the field names (if any) is
      cleared first, then exactly one reconnect is scheduled after 5000 ms.
      The field keeps naming the cleared interval. */
  lemma CloseClearsCheckThenReconnects(s: State, k: nat)
    requires k < |s.channels|
    ensures var n := OnClose(s, k);
      && n.effects == (match s.heartbeatTimer
                       case Some(h) => [ClearInterval(h), ScheduleReconnect(5000)]
                       case None => [ScheduleReconnect(5000)])
      && n.state == s.(isConnecting := false,
                       liveIntervals := match s.heartbeatTimer
                                        case Some(h) => s.liveIntervals - {h}
                                        case None => s.liveIntervals,
                       pendingReconnects := s.pendingReconnects + 1)
  {
  }

  /** On error only the guard is lowered: nothing is scheduled or cleared. */
  lemma ErrorOnlyLowersGuard(s: State, k: nat)
    requires k < |s.channels|
    ensures OnError(s, k).effects == []
    ensures OnError(s, k).state == s.(isConnecting := false)
  {
  }

  /** The liveness check changes no state, never schedules a reconnect, and
      closes the newest socket exactly when more than 30000 ms have passed
      since the last heartbeat or open. */
  lemma TickClosesExactlyWhenStale(s: State, now: nat)
    requires Valid(s) && s.liveIntervals != {} && |s.channels| > 0
    ensures var n := OnLivenessTick(s, now);
      && n.state == s
      && (n.effects == [CloseSocket(|s.channels| - 1)] <==> now - s.lastHeartbeat > 30000)
      && (n.effects == [] <==> now - s.lastHeartbeat <= 30000)
  {
  }

  /** Only a close or a failed token request schedules a reconnect, exactly
      one each, and every reconnect is scheduled 5000 ms ahead. */
  lemma ReconnectsOnlyAfterCloseOrFailure(acks: bool, s: State, e: Event)
    ensures var n := Step(acks, s, e);
      Count(n.effects, IsScheduleReconnect) ==
        (if Enabled(s, e) && (e.SocketClose? || (e.TokenSettled? && TokenFails(e.outcome))) then 1 else 0)
    ensures forall i | 0 <= i < |Step(acks, s, e).effects| ::
      Step(acks, s, e).effects[i].ScheduleReconnect? ==> Step(acks, s, e).effects[i].delay == 5000
  {
    var n := Step(acks, s, e);
    if Enabled(s, e) && e.SocketOpen? {
      var s1 := s.(isConnecting := false, lastHeartbeat := e.now);
      var sub := if e.ready && s1.socket.Some? then [Send(s1.socket.value, Subscribe(s.channels[e.socket]))] else [];
      CountConcat(sub, StartHeartbeatCheck(s1).effects, IsScheduleReconnect);
    } else if Enabled(s, e) && e.SocketClose? {
      var stopped := StopHeartbeatCheck(s.(isConnecting := false));
      CountConcat(stopped.effects, [ScheduleReconnect(ReconnectDelay)], IsScheduleReconnect);
    } else if Enabled(s, e) && e.SocketMessage? {
      var c := Classify(e.frame, acks);
      if c.Application? && c.ack.Some? {
        CountConcat([Ack(c.ack.value)], [Deliver(s.handler, c.payload)], IsScheduleReconnect);
      }
    }
  }

  // ---------------------------------------------------------------------
  // Invariants over runs

  /** No event removes or rewrites the team id a socket was created with. */
  lemma StepKeepsChannels(acks: bool, s: State, e: Event)
    ensures var n := Step(acks, s, e);
      |s.channels| <= |n.state.channels| && n.state.channels[..|s.channels|] == s.channels
  {
  }

  /** Over any run, `channels` only grows at its end. */
  lemma {:induction false} ChannelsOnlyGrow(acks: bool, s: State, events: seq<Event>)
    ensures var n := Run(acks, s, events);
      |s.channels| <= |n.state.channels| && n.state.channels[..|s.channels|] == s.channels
    decreases |events|
  {
    if events != [] {
      var first := Step(acks, s, events[0]);
      StepKeepsChannels(acks, s, events[0]);
      ChannelsOnlyGrow(acks, first.state, events[1..]);
      var m := Run(acks, first.state, events[1..]).state;
      assert m.channels[..|s.channels|] == m.channels[..|first.state.channels|][..|s.channels|];
    }
  }

  /** The state after a run of `a + b` is the state after running `b` from
      where `a` ends. */
  lemma {:induction false} RunConcatState(acks: bool, s: State, a: seq<Event>, b: seq<Event>)
    ensures Run(acks, s, a + b).state == Run(acks, Run(acks, s, a).state, b).state
    decreases |a|
  {
    if a == [] {
      assert a + b == b;
    } else {
      assert (a + b)[0] == a[0];
      assert (a + b)[1..] == a[1..] + b;
      RunConcatState(acks, Step(acks, s, a[0]).state, a[1..], b);
    }
  }

  /** The effects of a run of `a + b` are those of `a`, then those of `b`
      run from where `a` ends. */
  lemma {:induction false} RunConcatEffects(acks: bool, s: State, a: seq<Event>, b: seq<Event>)
    ensures Run(acks, s, a + b).effects == Run(acks, s, a).effects + Run(acks, Run(acks, s, a).state, b).effects
    decreases |a|
  {
    if a == [] {
      assert a + b == b;
    } else {
      assert (a + b)[0] == a[0];
      assert (a + b)[1..] == a[1..] + b;
      RunConcatEffects(acks, Step(acks, s, a[0]).state, a[1..], b);
    }
  }

  /** A run of `a + b` is the run of `a` followed by the run of `b`. */
  lemma RunConcat(acks: bool, s: State, a: seq<Event>, b: seq<Event>)
    ensures Run(acks, s, a + b).effects == Run(acks, s, a).effects + Run(acks, Run(acks, s, a).state, b).effects
    ensures Run(acks, s, a + b).state == Run(acks, Run(acks, s, a).state, b).state
  {
    RunConcatState(acks, s, a, b);
    RunConcatEffects(acks, s, a, b);
  }

  lemma StepPreservesValid(acks: bool, s: State, e: Event)
    requires Valid(s)
    ensures Valid(Step(acks, s, e).state)
  {
  }

  /** Every state reached from a valid one is valid. */
  lemma {:induction false} RunPreservesValid(acks: bool, s: State, events: seq<Event>)
    requires Valid(s)
    ensures Valid(Run(acks, s, events).state)
    decreases |events|
  {
    if events != [] {
      StepPreservesValid(acks, s, events[0]);
      RunPreservesValid(acks, Step(acks, s, events[0]).state, events[1..]);
    }
  }

  lemma StepTokenAccounting(acks: bool, s: State, e: Event)
    ensures var n := Step(acks, s, e);
      && |n.state.channels| == |s.channels| + Count(n.effects, IsOpenSocket)
      && Count(n.effects, IsOpenSocket) + n.state.pendingTokens <= Count(n.effects, IsTokenRequest) + s.pendingTokens
  {
    var n := Step(acks, s, e);
    if Enabled(s, e) && e.SocketOpen? {
      var s1 := s.(isConnecting := false, lastHeartbeat := e.now);
      var sub := if e.ready && s1.socket.Some? then [Send(s1.socket.value, Subscribe(s.channels[e.socket]))] else [];
      CountConcat(sub, StartHeartbeatCheck(s1).effects, IsOpenSocket);
      CountConcat(sub, StartHeartbeatCheck(s1).effects, IsTokenRequest);
    } else if Enabled(s, e) && e.SocketClose? {
      var stopped := StopHeartbeatCheck(s.(isConnecting := false));
      CountConcat(stopped.effects, [ScheduleReconnect(ReconnectDelay)], IsOpenSocket);
      CountConcat(stopped.effects, [ScheduleReconnect(ReconnectDelay)], IsTokenRequest);
    } else if Enabled(s, e) && e.SocketMessage? {
      var c := Classify(e.frame, acks);
      if c.Application? && c.ack.Some? {
        CountConcat([Ack(c.ack.value)], [Deliver(s.handler, c.payload)], IsOpenSocket);
        CountConcat([Ack(c.ack.value)], [Deliver(s.handler, c.payload)], IsTokenRequest);
      }
    }
  }

  /** Each socket opened in a run used up a token request of its own: sockets
      opened plus requests still outstanding never exceed requests issued. */
  lemma {:induction false} EverySocketHasItsOwnToken(acks: bool, s: State, events: seq<Event>)
    ensures var n := Run(acks, s, events);
      && |n.state.channels| == |s.channels| + Count(n.effects, IsOpenSocket)
      && Count(n.effects, IsOpenSocket) + n.state.pendingTokens <= Count(n.effects, IsTokenRequest) + s.pendingTokens
    decreases |events|
  {
    if events != [] {
      var first := Step(acks, s, events[0]);
      var rest := Run(acks, first.state, events[1..]);
      StepTokenAccounting(acks, s, events[0]);
      EverySocketHasItsOwnToken(acks, first.state, events[1..]);
      CountConcat(first.effects, rest.effects, IsOpenSocket);
      CountConcat(first.effects, rest.effects, IsTokenRequest);
    }
  }

  /** From construction, tokens are never reused: no run opens more sockets
      than it requested tokens. */
  lemma SocketsNeverOutnumberTokenRequests(acks: bool, credential: Option<string>, handler: Callback, now: nat, events: seq<Event>)
    ensures var n := Run(acks, Init(credential, handler, now), events);
      |n.state.channels| == Count(n.effects, IsOpenSocket) <= Count(n.effects, IsTokenRequest)
  {
    EverySocketHasItsOwnToken(acks, Init(credential, handler, now), events);
  }
}
