/** The `Realtime` client: construction with a team key, and one method per
    event its handlers react to. Each method changes the object's fields as
    the handler does and appends the handler's side effects to `log`; its
    contract ties the result to the corresponding step of the `Lifecycle`
    machine (with acknowledgments on), whose properties are proved there. */
module RealtimeClient {
  import opened Wrappers
  import opened JsonValues
  import L = Lifecycle

  const MissingKeyMessage: string := "teamApiKey is required for Realtime connection"

  /** The constructor's check: a missing or empty team key throws. */
  function CheckTeamApiKey(teamApiKey: Option<string>): (r: Result<string, string>)
    ensures r.Failure? <==> teamApiKey == None || teamApiKey == Some("")
    ensures r.Failure? ==> r.error == MissingKeyMessage
    ensures r.Success? ==> teamApiKey == Some(r.value) && r.value != ""
  {
    if Present(teamApiKey) then Success(teamApiKey.value) else Failure(MissingKeyMessage)
  }

  class Realtime {
    const teamApiKey: string
    var socket: Option<nat>
    var lastHeartbeat: nat
    var isConnecting: bool
    var missedHeartbeatCheckTimer: Option<nat>
    var handleEvent: L.Callback
    /** For each socket created, the `team_id` its handlers close over. */
    var channels: seq<Option<Json>>
    /** Interval handles handed out so far; the next one is this number. */
    var timersCreated: nat
    /** Intervals running, token requests and reconnect timeouts outstanding. */
    ghost var liveIntervals: set<nat>
    ghost var pendingTokens: nat
    ghost var pendingReconnects: nat
    /** Every side effect performed so far, in order. */
    ghost var log: seq<L.Effect>

    ghost function Snapshot(): L.State
      reads this
    {
      L.State(Some(teamApiKey), handleEvent, isConnecting, lastHeartbeat, socket, missedHeartbeatCheckTimer,
              channels, timersCreated, liveIntervals, pendingTokens, pendingReconnects)
    }

    ghost predicate Valid()
      reads this
    {
      teamApiKey != "" && L.Valid(Snapshot())
    }

    /** The method did what step `n` describes: the state is `n`'s and the
        log grew by `n`'s effects. */
    twostate predicate Performed(n: L.Next)
      reads this
    {
      Snapshot() == n.state && log == old(log) + n.effects
    }

    /** Construction once the key has passed the check; the callback slot
        holds the do-nothing default and `lastHeartbeat` is the time of
        construction. */
    constructor (teamApiKey: string, now: nat)
      requires teamApiKey != ""
      ensures Valid() && Snapshot() == L.Init(Some(teamApiKey), L.Noop, now) && log == []
    {
      this.teamApiKey := teamApiKey;
      socket := None;
      lastHeartbeat := now;
      isConnecting := false;
      missedHeartbeatCheckTimer := None;
      handleEvent := L.Noop;
      channels := [];
      timersCreated := 0;
      liveIntervals := {};
      pendingTokens := 0;
      pendingReconnects := 0;
      log := [];
    }

    /** `new Realtime(teamApiKey)`: throws exactly when the key is missing or
        empty; otherwise a client holding that key. */
    static method New(teamApiKey: Option<string>, now: nat) returns (r: Result<Realtime, string>)
      ensures r.Failure? <==> teamApiKey == None || teamApiKey == Some("")
      ensures r.Failure? ==> r.error == MissingKeyMessage
      ensures r.Success? ==>
        && fresh(r.value) && r.value.Valid() && teamApiKey == Some(r.value.teamApiKey)
        && r.value.Snapshot() == L.Init(teamApiKey, L.Noop, now) && r.value.log == []
    {
      match CheckTeamApiKey(teamApiKey)
      case Failure(message) =>
        r := Failure(message);
      case Success(key) =>
        var client := new Realtime(key, now);
        r := Success(client);
    }

    /** `connect()` up to its first await. */
    method Connect()
      requires Valid()
      modifies this
      ensures Valid() && Performed(L.Connect(old(Snapshot())))
    {
      if isConnecting {
        return;
      }
      isConnecting := true;
      pendingTokens := pendingTokens + 1;
      log := log + [L.TokenRequest(Some(teamApiKey))];
    }

    /** `listen(callback)`. */
    method Listen(callback: L.Callback)
      requires Valid()
      modifies this
      ensures Valid() && Performed(L.OnListen(old(Snapshot()), callback))
    {
      handleEvent := callback;
      Connect();
    }

    /** A reconnect timeout fires. */
    method OnReconnectTimer()
      requires Valid() && pendingReconnects > 0
      modifies this
      ensures Valid() && Performed(L.OnReconnectTimer(old(Snapshot())))
    {
      pendingReconnects := pendingReconnects - 1;
      Connect();
    }

    /** `setTimeout(() => this.connect(), this.reconnectDelay)`. */
    method ScheduleReconnect()
      requires Valid()
      modifies this
      ensures Valid() && Performed(L.ScheduleRetry(old(Snapshot())))
    {
      pendingReconnects := pendingReconnects + 1;
      log := log + [L.ScheduleReconnect(L.ReconnectDelay)];
    }

    /** The rest of `connect()` once the token request settles. */
    method OnTokenResult(outcome: L.TokenOutcome)
      requires Valid() && pendingTokens > 0
      modifies this
      ensures Valid() && Performed(L.OnTokenResult(old(Snapshot()), outcome))
    {
      pendingTokens := pendingTokens - 1;
      if L.TokenFails(outcome) {
        isConnecting := false;
        ScheduleReconnect();
      } else {
        var k := |channels|;
        log := log + [L.OpenSocket(k, Get(outcome.body, "access_token"))];
        socket := Some(k);
        channels := channels + [Get(outcome.body, "team_id")];
      }
    }

    /** `startHeartbeatCheck()`. */
    method StartHeartbeatCheck()
      requires Valid()
      modifies this
      ensures Valid() && Performed(L.StartHeartbeatCheck(old(Snapshot())))
    {
      var h := timersCreated;
      timersCreated := h + 1;
      liveIntervals := liveIntervals + {h};
      missedHeartbeatCheckTimer := Some(h);
      log := log + [L.StartInterval(h, L.HeartbeatInterval)];
    }

    /** `stopHeartbeatCheck()`. */
    method StopHeartbeatCheck()
      requires Valid()
      modifies this
      ensures Valid() && Performed(L.StopHeartbeatCheck(old(Snapshot())))
    {
      if missedHeartbeatCheckTimer.Some? {
        var h := missedHeartbeatCheckTimer.value;
        liveIntervals := liveIntervals - {h};
        log := log + [L.ClearInterval(h)];
      }
    }

    /** The `onopen` handler of socket `k`; `ready` is whether the newest
        socket is OPEN. */
    method OnOpen(k: nat, now: nat, ready: bool)
      requires Valid() && k < |channels|
      modifies this
      ensures Valid() && Performed(L.OnOpen(old(Snapshot()), k, now, ready))
    {
      isConnecting := false;
      lastHeartbeat := now;
      if ready && socket.Some? {
        log := log + [L.Send(socket.value, L.Subscribe(channels[k]))];
      }
      StartHeartbeatCheck();
    }

    /** `handleHeartbeat()`. */
    method HandleHeartbeat(now: nat)
      requires Valid()
      modifies this
      ensures Valid() && Performed(L.HandleHeartbeat(old(Snapshot()), now))
    {
      lastHeartbeat := now;
    }

    /** The `onmessage` handler of socket `k`. */
    method OnMessage(k: nat, frame: L.Frame, now: nat)
      requires Valid() && k < |channels|
      modifies this
      ensures Valid() && Performed(L.OnMessage(old(Snapshot()), k, frame, now, true))
    {
      match frame
      case Unparseable =>
        // JSON.parse threw; the catch block only logs.
      case Parsed(data) =>
        if data.JNull? {
          // Reading `type` of null threw; the catch block only logs.
          return;
        }
        if Get(data, "type") == Some(JStr("heartbeat")) {
          HandleHeartbeat(now);
        } else {
          var id := Get(data, "id");
          if Truthy(id) {
            log := log + [L.Ack(id.value)];
          }
          log := log + [L.Deliver(handleEvent, data)];
        }
    }

    /** The `onclose` handler of socket `k`. */
    method OnClose(k: nat)
      requires Valid() && k < |channels|
      modifies this
      ensures Valid() && Performed(L.OnClose(old(Snapshot()), k))
    {
      isConnecting := false;
      StopHeartbeatCheck();
      ScheduleReconnect();
    }

    /** The `onerror` handler of socket `k`. */
    method OnError(k: nat)
      requires Valid() && k < |channels|
      modifies this
      ensures Valid() && Performed(L.OnError(old(Snapshot()), k))
    {
      isConnecting := false;
    }

    /** One run of the interval set up by `startHeartbeatCheck()`. */
    method OnLivenessTick(now: nat)
      requires Valid() && liveIntervals != {}
      modifies this
      ensures Valid() && Performed(L.OnLivenessTick(old(Snapshot()), now))
    {
      if now - lastHeartbeat > L.MissedHeartbeatsLimit && socket.Some? {
        log := log + [L.CloseSocket(socket.value)];
      }
    }
  }
}
