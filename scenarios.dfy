/** Runs of the lifecycle from construction: the end-to-end scenarios the
    client's tests exercise, and runs showing guarantees the code does not
    give. */
module LifecycleScenarios {
  import opened Wrappers
  import opened JsonValues
  import opened Lifecycle
  import opened LifecycleProperties

  /** One step of a run, unfolded. */
  lemma RunCons(acks: bool, s: State, e: Event, rest: seq<Event>)
    ensures Run(acks, s, [e] + rest).state == Run(acks, Step(acks, s, e).state, rest).state
    ensures Run(acks, s, [e] + rest).effects == Step(acks, s, e).effects + Run(acks, Step(acks, s, e).state, rest).effects
  {
    assert ([e] + rest)[0] == e;
    assert ([e] + rest)[1..] == rest;
  }

  /** A run of one event is that event's step. */
  lemma RunOne(acks: bool, s: State, e: Event)
    ensures Run(acks, s, [e]) == Step(acks, s, e)
  {
    assert [e][1..] == [];
  }

  /** The events that connect a new client: `listen`, a token response, and
      the socket it opens reporting open while OPEN. */
  function ConnectEvents(callback: Callback, body: Json, now: nat): seq<Event> {
    [ListenCalled(callback), TokenSettled(Received(body)), SocketOpen(0, now, true)]
  }

  /** Connecting a new client: one token request with the credential, one
      socket opened with the response's access token, one subscribe frame on
      it naming the response's team id, then the 10000 ms liveness check. The
      guard is down and nothing is pending afterwards. */
  lemma Connects(acks: bool, credential: Option<string>, initial: Callback, callback: Callback, body: Json, start: nat, now: nat)
    requires body.JObj?
    ensures var n := Run(acks, Init(credential, initial, start), ConnectEvents(callback, body, now));
      && n.effects == [TokenRequest(credential), OpenSocket(0, Get(body, "access_token")),
                       Send(0, Subscribe(Get(body, "team_id"))), StartInterval(0, 10000)]
      && n.state == State(credential, callback, false, now, Some(0), Some(0), [Get(body, "team_id")], 1, {0}, 0, 0)
  {
    var events := ConnectEvents(callback, body, now);
    var s0 := Init(credential, initial, start);
    var s1 := Step(acks, s0, events[0]);
    var s2 := Step(acks, s1.state, events[1]);
    assert s2.state.channels == [Get(body, "team_id")];
    RunOne(acks, s2.state, events[2]);
    RunCons(acks, s1.state, events[1], [events[2]]);
    RunCons(acks, s0, events[0], events[1..]);
    assert events == [events[0]] + events[1..] && events[1..] == [events[1]] + [events[2]];
  }

  /** After connecting, a frame with a truthy top-level id is acknowledged
      with that id, the only outbound request besides the token request, and
      then delivered whole to the callback. */
  lemma IdentifiedEventScenario(credential: Option<string>, callback: Callback, body: Json, now: nat, payload: Json, later: nat)
    requires body.JObj? && payload.JObj? && "type" !in payload.fields
    requires "id" in payload.fields && Truthy(Some(payload.fields["id"]))
    ensures var n := Run(true, Init(credential, Noop, 0),
                         ConnectEvents(callback, body, now) + [SocketMessage(0, Parsed(payload), later)]);
      && n.effects == [TokenRequest(credential), OpenSocket(0, Get(body, "access_token")),
                       Send(0, Subscribe(Get(body, "team_id"))), StartInterval(0, 10000),
                       Ack(payload.fields["id"]), Deliver(callback, payload)]
      && Count(n.effects, IsTokenRequest) + Count(n.effects, IsAck) == 2
  {
    var prefix := ConnectEvents(callback, body, now);
    var msg := SocketMessage(0, Parsed(payload), later);
    Connects(true, credential, Noop, callback, body, 0, now);
    var c := Run(true, Init(credential, Noop, 0), prefix);
    RunConcat(true, Init(credential, Noop, 0), prefix, [msg]);
    RunOne(true, c.state, msg);
    var tail := [Ack(payload.fields["id"]), Deliver(callback, payload)];
    assert Step(true, c.state, msg).effects == tail;
    CountConcat(c.effects, tail, IsTokenRequest);
    CountConcat(c.effects, tail, IsAck);
    CountConnectEffects(credential, body);
    assert Count(tail, IsTokenRequest) == 0 && Count(tail, IsAck) == 1 by {
      var a, d := [tail[0]], [tail[1]];
      assert tail == a + d;
      CountSingle(tail[0]);
      CountSingle(tail[1]);
      CountConcat(a, d, IsTokenRequest);
      CountConcat(a, d, IsAck);
    }
  }

  /** After connecting, a frame without a top-level id is delivered whole,
      and the token request stays the only outbound request. */
  lemma UnidentifiedEventScenario(credential: Option<string>, callback: Callback, body: Json, now: nat, payload: Json, later: nat)
    requires body.JObj? && payload.JObj? && "type" !in payload.fields && "id" !in payload.fields
    ensures var n := Run(true, Init(credential, Noop, 0),
                         ConnectEvents(callback, body, now) + [SocketMessage(0, Parsed(payload), later)]);
      && n.effects == [TokenRequest(credential), OpenSocket(0, Get(body, "access_token")),
                       Send(0, Subscribe(Get(body, "team_id"))), StartInterval(0, 10000),
                       Deliver(callback, payload)]
      && Count(n.effects, IsTokenRequest) + Count(n.effects, IsAck) == 1
  {
    var prefix := ConnectEvents(callback, body, now);
    var msg := SocketMessage(0, Parsed(payload), later);
    Connects(true, credential, Noop, callback, body, 0, now);
    var c := Run(true, Init(credential, Noop, 0), prefix);
    RunConcat(true, Init(credential, Noop, 0), prefix, [msg]);
    RunOne(true, c.state, msg);
    var tail := [Deliver(callback, payload)];
    assert Step(true, c.state, msg).effects == tail;
    CountConcat(c.effects, tail, IsTokenRequest);
    CountConcat(c.effects, tail, IsAck);
    CountConnectEffects(credential, body);
    CountSingle(tail[0]);
  }

  /** Counting a single effect. */
  lemma CountSingle(x: Effect)
    ensures Count([x], IsTokenRequest) == (if x.TokenRequest? then 1 else 0)
    ensures Count([x], IsAck) == (if x.Ack? then 1 else 0)
  {
    assert [x][1..] == [];
  }

  /** The connect effects hold one token request and no acknowledgment. */
  lemma CountConnectEffects(credential: Option<string>, body: Json)
    ensures var e := [TokenRequest(credential), OpenSocket(0, Get(body, "access_token")),
                      Send(0, Subscribe(Get(body, "team_id"))), StartInterval(0, 10000)];
      Count(e, IsTokenRequest) == 1 && Count(e, IsAck) == 0
  {
    var a, b, c, d := TokenRequest(credential), OpenSocket(0, Get(body, "access_token")),
                      Send(0, Subscribe(Get(body, "team_id"))), StartInterval(0, 10000);
    CountSingle(a); CountSingle(b); CountSingle(c); CountSingle(d);
    CountConcat([a], [b], IsTokenRequest); CountConcat([a], [b], IsAck);
    CountConcat([a, b], [c], IsTokenRequest); CountConcat([a, b], [c], IsAck);
    CountConcat([a, b, c], [d], IsTokenRequest); CountConcat([a, b, c], [d], IsAck);
    assert [a] + [b] == [a, b] && [a, b] + [c] == [a, b, c] && [a, b, c] + [d] == [a, b, c, d];
  }

  /** A second `listen` on a connected client is not a no-op: the guard is
      down after open, so it requests a second token and, once that settles,
      opens a second socket while the first is still open. */
  lemma SecondListenOpensSecondSocket(credential: Option<string>, first: Callback, second: Callback, body: Json, now: nat)
    requires body.JObj?
    ensures var n := Run(true, Init(credential, Noop, 0),
                         ConnectEvents(first, body, now) + [ListenCalled(second), TokenSettled(Received(body))]);
      && |n.state.channels| == 2 && n.state.socket == Some(1)
      && |n.effects| == 6
      && n.effects[4..] == [TokenRequest(credential), OpenSocket(1, Get(body, "access_token"))]
  {
    var prefix := ConnectEvents(first, body, now);
    var tail := [ListenCalled(second), TokenSettled(Received(body))];
    Connects(true, credential, Noop, first, body, 0, now);
    var c := Run(true, Init(credential, Noop, 0), prefix);
    RunConcat(true, Init(credential, Noop, 0), prefix, tail);
    var t1 := Step(true, c.state, tail[0]);
    RunCons(true, c.state, tail[0], [tail[1]]);
    RunOne(true, t1.state, tail[1]);
    assert tail == [tail[0]] + [tail[1]];
  }

  /** A late `onopen` of an older socket sends the subscribe frame on the
      newest socket, naming the older socket's own team id. */
  lemma LateOpenSubscribesOnNewestSocket(s: State, now: nat)
    requires Valid(s) && |s.channels| == 2
    ensures var n := OnOpen(s, 0, now, true);
      |n.effects| > 0 && n.effects[0] == Send(1, Subscribe(s.channels[0]))
  {
  }

  /** The guard does not keep attempts exclusive: an error on the open socket
      while a new token request is in flight lowers it, so a further `listen`
      puts a second token request in flight. */
  lemma ErrorReleasesGuardWhileTokenPending(credential: Option<string>, callback: Callback, body: Json, now: nat)
    requires body.JObj?
    ensures var n := Run(true, Init(credential, Noop, 0),
                         ConnectEvents(callback, body, now) + [ListenCalled(callback), SocketError(0), ListenCalled(callback)]);
      n.state.pendingTokens == 2 && n.state.isConnecting
  {
    var prefix := ConnectEvents(callback, body, now);
    var tail := [ListenCalled(callback), SocketError(0), ListenCalled(callback)];
    Connects(true, credential, Noop, callback, body, 0, now);
    var c := Run(true, Init(credential, Noop, 0), prefix);
    RunConcat(true, Init(credential, Noop, 0), prefix, tail);
    var t1 := Step(true, c.state, tail[0]);
    var t2 := Step(true, t1.state, tail[1]);
    RunOne(true, t2.state, tail[2]);
    RunCons(true, t1.state, tail[1], [tail[2]]);
    RunCons(true, c.state, tail[0], tail[1..]);
    assert tail == [tail[0]] + tail[1..] && tail[1..] == [tail[1]] + [tail[2]];
  }

  /** A second `listen`, token response and open on a connected client start
      interval 1 while interval 0 keeps running. */
  lemma ReopenStartsSecondInterval(c: State, callback: Callback, body: Json, later: nat)
    requires c.liveIntervals == {0} && c.heartbeatTimer == Some(0) && c.timersCreated == 1
    requires !c.isConnecting && c.pendingTokens == 0 && c.pendingReconnects == 0
    requires c.socket == Some(0) && |c.channels| == 1 && body.JObj?
    ensures var r := Run(true, c, [ListenCalled(callback), TokenSettled(Received(body)), SocketOpen(1, later, true)]).state;
      && r.liveIntervals == {0, 1} && r.heartbeatTimer == Some(1) && r.pendingReconnects == 0 && |r.channels| == 2
  {
    var tail := [ListenCalled(callback), TokenSettled(Received(body)), SocketOpen(1, later, true)];
    var t1 := Step(true, c, tail[0]);
    var t2 := Step(true, t1.state, tail[1]);
    assert |t2.state.channels| == 2;
    RunOne(true, t2.state, tail[2]);
    RunCons(true, t1.state, tail[1], tail[2..]);
    RunCons(true, c, tail[0], tail[1..]);
    assert tail == [tail[0]] + tail[1..] && tail[1..] == [tail[1]] + tail[2..] && tail[2..] == [tail[2]];
  }

  /** Closing the newest socket, then the older one, clears only interval 1
      (twice) and schedules two reconnects. */
  lemma TwoClosesClearOnlyNamedInterval(r: State)
    requires r.liveIntervals == {0, 1} && r.heartbeatTimer == Some(1) && r.pendingReconnects == 0 && |r.channels| == 2
    ensures var f := Run(true, r, [SocketClose(1), SocketClose(0)]).state;
      f.liveIntervals == {0} && f.heartbeatTimer == Some(1) && f.pendingReconnects == 2
  {
    var tail := [SocketClose(1), SocketClose(0)];
    var t1 := Step(true, r, tail[0]);
    assert t1.state.liveIntervals == {0};
    RunOne(true, t1.state, tail[1]);
    RunCons(true, r, tail[0], [tail[1]]);
    assert tail == [tail[0]] + [tail[1]];
  }

  /** Opening a second socket starts a second interval without clearing the
      first, and a close clears only the one the field names: interval 0
      keeps running after both sockets close. The two closes leave two
      reconnects scheduled; nothing merges them. */
  lemma RestartedCheckLeaksInterval(credential: Option<string>, callback: Callback, body: Json, now: nat, later: nat)
    requires body.JObj?
    ensures var n := Run(true, Init(credential, Noop, 0),
                         ConnectEvents(callback, body, now)
                         + [ListenCalled(callback), TokenSettled(Received(body)), SocketOpen(1, later, true),
                            SocketClose(1), SocketClose(0)]);
      && n.state.liveIntervals == {0}
      && n.state.heartbeatTimer == Some(1)
      && n.state.pendingReconnects == 2
  {
    var s0 := Init(credential, Noop, 0);
    var prefix := ConnectEvents(callback, body, now);
    var reopen := [ListenCalled(callback), TokenSettled(Received(body)), SocketOpen(1, later, true)];
    var closes := [SocketClose(1), SocketClose(0)];
    Connects(true, credential, Noop, callback, body, 0, now);
    var c := Run(true, s0, prefix).state;
    ReopenStartsSecondInterval(c, callback, body, later);
    var r := Run(true, c, reopen).state;
    TwoClosesClearOnlyNamedInterval(r);
    RunConcat(true, c, reopen, closes);
    RunConcat(true, s0, prefix, reopen + closes);
    assert reopen + closes == [ListenCalled(callback), TokenSettled(Received(body)), SocketOpen(1, later, true),
                               SocketClose(1), SocketClose(0)];
  }
}
