/** One authenticated WebSocket session to a Lavalink audio node
    (src/lib/LavalinkNode.ts). The socket is reduced to its ready state, what
    the node writes to the transport is an appended `wire` log, the events it
    emits on its manager are an appended `emitted` log, and reconnect timers are
    a set of pending timer ids. */
module Lavalink {
  import opened Values

  const DefaultPort: nat := 2333
  const DefaultReconnectInterval: nat := 5000
  const DefaultPassword: string := "youshallnotpass"
  const DefaultResumeTimeout: int := 120
  /** The close code and reason of a deliberate teardown. */
  const NormalClosure: int := 1000
  const DestroyReason: string := "destroy"

  /** The options a node is created with; `None` is an option left out. */
  datatype NodeOptions = NodeOptions(
    host: string,
    port: Option<nat>,
    password: Option<string>,
    reconnectInterval: Option<nat>)

  /** The `readyState` of a WebSocket. */
  datatype ReadyState = Connecting | Open | Closing | Closed

  /** What the node hands to the transport, in order. */
  datatype WireAction =
    | Dial(address: string, headers: map<string, string>)  // a new WebSocket and its handshake headers
    | Frame(msg: Obj)                                      // one JSON text frame
    | Close(code: Option<int>, reason: string)             // ws.close(code, reason)

  /** The events a node emits on its manager. */
  datatype NodeEvent =
    | Ready
    | Raw(msg: Obj)
    | Error(error: Json)
    | Disconnect(code: int, reason: string)
    | Reconnecting

  /** `a || b` for a numeric option: zero and absent both take the default. */
  function NatOr(v: Option<nat>, default: nat): (r: nat)
    ensures v.Some? && v.value != 0 ==> r == v.value
    ensures (v.None? || v.value == 0) ==> r == default
  {
    if v.Some? && v.value != 0 then v.value else default
  }

  /** `a || b` for a string option: the empty string and absent both take the default. */
  function StringOr(v: Option<string>, default: string): (r: string)
    ensures v.Some? && v.value != "" ==> r == v.value
    ensures (v.None? || v.value == "") ==> r == default
  {
    if v.Some? && v.value != "" then v.value else default
  }

  /** `ws://host:port` */
  function Address(host: string, port: nat): (a: string)
    ensures |a| > 6 + |host|
    ensures a[..5] == "ws://" && a[5..5 + |host|] == host && a[5 + |host|] == ':'
    ensures Denotes(a[6 + |host|..], port)
  {
    var a := "ws://" + host + ":" + NatToString(port);
    assert a[6 + |host|..] == NatToString(port);
    NatToStringRoundTrip(port);
    a
  }

  /** The handshake headers a node presents when it dials. */
  function Headers(password: string, shards: nat, user: string, resumeKey: Option<string>): (h: map<string, string>)
    ensures "Authorization" in h && h["Authorization"] == password
    ensures "User-Id" in h && h["User-Id"] == user
    ensures "Num-Shards" in h && Denotes(h["Num-Shards"], NatOr(Some(shards), 1))
    ensures "Resume-Key" in h <==> resumeKey.Some? && resumeKey.value != ""
    ensures "Resume-Key" in h ==> h["Resume-Key"] == resumeKey.value
    ensures h.Keys <= {"Authorization", "Num-Shards", "User-Id", "Resume-Key"}
  {
    NatToStringRoundTrip(NatOr(Some(shards), 1));
    var base := map[
      "Authorization" := password,
      "Num-Shards" := NatToString(NatOr(Some(shards), 1)),
      "User-Id" := user];
    if resumeKey.Some? && resumeKey.value != "" then base["Resume-Key" := resumeKey.value] else base
  }

  /** The stats a node holds before its first stats frame. */
  function InitialStats(): Obj {
    map[
      "players" := Number(0.0),
      "playingPlayers" := Number(0.0),
      "uptime" := Number(0.0),
      "memory" := Object(map[
        "free" := Number(0.0), "used" := Number(0.0),
        "allocated" := Number(0.0), "reservable" := Number(0.0)]),
      "cpu" := Object(map[
        "cores" := Number(0.0), "systemLoad" := Number(0.0), "lavalinkLoad" := Number(0.0)])]
  }

  /** `msg.op && msg.op === "stats"` */
  predicate IsStatsFrame(msg: Obj) {
    "op" in msg && msg["op"] == String("stats")
  }

  /** The stats a node keeps after an inbound message: a stats frame replaces them by a
      copy of itself without its `op` field, any other message leaves them as they were. */
  function StatsAfter(stats: Obj, msg: Obj): (r: Obj)
    ensures "op" !in r
    ensures IsStatsFrame(msg) ==> r.Keys == msg.Keys - {"op"}
    ensures IsStatsFrame(msg) ==> forall k :: k in r ==> r[k] == msg[k]
    ensures !IsStatsFrame(msg) && "op" !in stats ==> r == stats
  {
    (if IsStatsFrame(msg) then msg else stats) - {"op"}
  }

  /** The guild whose player an inbound message is handed to: its `guildId`,
      when that is a non-empty string naming a guild that has a player. */
  function ForwardTarget(msg: Obj, registered: set<string>): (r: Option<string>)
    ensures r.Some? ==> r.value in registered && "guildId" in msg && msg["guildId"] == String(r.value)
    ensures r.None? ==> forall g :: g in registered && g != "" ==> Field(msg, "guildId") != Some(String(g))
  {
    if "guildId" in msg && Truthy(msg["guildId"]) && msg["guildId"].String? && msg["guildId"].s in registered
    then Some(msg["guildId"].s)
    else None
  }

  /** Whether a close is the node's own teardown, the one closure that is not reconnected. */
  predicate IsDestroyClose(code: int, reason: string) {
    code == NormalClosure && reason == DestroyReason
  }

  /** The command that asks the node to keep a resumable session. */
  function ConfigureResumingFrame(key: string, timeout: int): (m: Obj)
    ensures m.Keys == {"op", "key", "timeout"}
    ensures m["op"] == String("configureResuming") && m["key"] == String(key)
    ensures m["timeout"] == Number(timeout as real)
  {
    map["op" := String("configureResuming"), "key" := String(key), "timeout" := Number(timeout as real)]
  }

  class LavalinkNode {
    const host: string
    const port: nat
    const reconnectInterval: nat
    const password: string
    const address: string
    /** `manager.user` and `manager.shards`, fixed once the manager exists. */
    const user: string
    const shards: nat

    /** The socket: None is `ws === null`. */
    var ws: Option<ReadyState>
    /** The most recent reconnect timer handle. */
    var reconnect: Option<nat>
    /** Reconnect timers scheduled and not yet fired or cleared. */
    var pending: set<nat>
    /** The id the next timer gets. */
    var nextTimer: nat
    var stats: Obj
    var resumeKey: Option<string>
    var wire: seq<WireAction>
    var emitted: seq<NodeEvent>

    ghost predicate Valid()
      reads this
    {
      && "op" !in stats
      && (forall t :: t in pending ==> t < nextTimer)
      && (reconnect.Some? ==> reconnect.value < nextTimer)
    }

    /** `ws && ws.readyState === WebSocket.OPEN` */
    predicate Connected()
      reads this
    {
      ws == Some(Open)
    }

    /** The handshake the node presents when it dials now. */
    function Handshake(): (h: WireAction)
      reads this`resumeKey
      ensures h.Dial? && h.address == address
      ensures "Authorization" in h.headers && h.headers["Authorization"] == password
      ensures "User-Id" in h.headers && h.headers["User-Id"] == user
      ensures "Resume-Key" in h.headers <==> resumeKey.Some? && resumeKey.value != ""
      ensures "Resume-Key" in h.headers ==> h.headers["Resume-Key"] == resumeKey.value
    {
      Dial(address, Headers(password, shards, user, resumeKey))
    }

    /** A node is built with the defaults filled in and starts connecting at once. */
    constructor (options: NodeOptions, user: string, shards: nat)
      ensures Valid()
      ensures host == options.host
      ensures port == NatOr(options.port, DefaultPort)
      ensures reconnectInterval == NatOr(options.reconnectInterval, DefaultReconnectInterval)
      ensures password == StringOr(options.password, DefaultPassword)
      ensures address == Address(host, port)
      ensures this.user == user && this.shards == shards
      ensures stats == InitialStats() && resumeKey == None
      ensures reconnect == None && pending == {} && nextTimer == 0
      ensures ws == Some(Connecting)
      ensures wire == [Dial(address, Headers(password, shards, user, None))]
      ensures emitted == []
    {
      host := options.host;
      port := NatOr(options.port, DefaultPort);
      reconnectInterval := NatOr(options.reconnectInterval, DefaultReconnectInterval);
      password := StringOr(options.password, DefaultPassword);
      address := Address(options.host, NatOr(options.port, DefaultPort));
      this.user := user;
      this.shards := shards;
      ws := None;
      reconnect := None;
      pending := {};
      nextTimer := 0;
      stats := InitialStats();
      resumeKey := None;
      wire := [];
      emitted := [];
      new;
      Connect();
    }

    /** Opens a new socket with the current handshake, closing a connected one first. */
    method Connect()
      modifies this`ws, this`wire
      ensures ws == Some(Connecting)
      ensures wire == old(wire) + (if old(Connected()) then [Close(None, "")] else []) + [Handshake()]
    {
      if Connected() {
        wire := wire + [Close(None, "")];
      }
      wire := wire + [Handshake()];
      ws := Some(Connecting);
    }

    /** The socket opened: clear the most recent reconnect timer, report ready and
        ask the node for a resumable session under the user's id. */
    method OnOpen(delivered: bool) returns (r: Settled)
      requires Valid()
      requires ws == Some(Connecting)
      modifies this`ws, this`pending, this`emitted, this`resumeKey, this`wire
      ensures Valid()
      ensures ws == Some(Open)
      ensures old(reconnect).Some? ==> pending == old(pending) - {old(reconnect).value}
      ensures old(reconnect).None? ==> pending == old(pending)
      ensures emitted == old(emitted) + [Ready]
      ensures resumeKey == Some(user)
      ensures wire == old(wire) + [Frame(ConfigureResumingFrame(user, DefaultResumeTimeout))]
      ensures r == if delivered then Resolved(true) else Rejected
    {
      ws := Some(Open);
      if reconnect.Some? {
        pending := pending - {reconnect.value};
      }
      emitted := emitted + [Ready];
      r := ConfigureResuming(None, None, delivered);
    }

    /** An inbound message, already parsed: a stats frame replaces the stats, every
        message is reported raw, and the guild whose player should receive it is returned. */
    method OnMessage(msg: Obj, registered: set<string>) returns (forward: Option<string>)
      requires Valid()
      modifies this`stats, this`emitted
      ensures Valid()
      ensures stats == StatsAfter(old(stats), msg)
      ensures emitted == old(emitted) + [Raw(msg)]
      ensures forward == ForwardTarget(msg, registered)
    {
      stats := StatsAfter(stats, msg);
      forward := ForwardTarget(msg, registered);
      emitted := emitted + [Raw(msg)];
    }

    /** A transport error: a falsy error is ignored, any other is reported and reconnected.
        `listened` says whether the manager has an "error" listener: without one, emitting
        the error throws before the reconnect is scheduled, and `thrown` is true. */
    method OnError(event: Json, listened: bool) returns (thrown: bool)
      requires Valid()
      modifies this`emitted, this`pending, this`reconnect, this`nextTimer
      ensures Valid()
      ensures thrown == (Truthy(ErrorOf(event)) && !listened)
      ensures !Truthy(ErrorOf(event)) || !listened ==>
        && emitted == old(emitted) && pending == old(pending)
        && reconnect == old(reconnect) && nextTimer == old(nextTimer)
      ensures Truthy(ErrorOf(event)) && listened ==>
        && emitted == old(emitted) + [Error(ErrorOf(event))]
        && old(nextTimer) !in old(pending)
        && pending == old(pending) + {old(nextTimer)} && reconnect == Some(old(nextTimer))
        && nextTimer == old(nextTimer) + 1
    {
      var error := ErrorOf(event);
      if !Truthy(error) {
        return false;
      }
      if !listened {
        return true;
      }
      emitted := emitted + [Error(error)];
      Reconnect();
      thrown := false;
    }

    /** The socket closed: reported, and reconnected unless it was the node's own destroy. */
    method OnClose(code: int, reason: string)
      requires Valid()
      modifies this`ws, this`emitted, this`pending, this`reconnect, this`nextTimer
      ensures Valid()
      ensures ws == if old(ws).Some? then Some(Closed) else None
      ensures emitted == old(emitted) + [Disconnect(code, reason)]
      ensures IsDestroyClose(code, reason) ==>
        pending == old(pending) && reconnect == old(reconnect) && nextTimer == old(nextTimer)
      ensures !IsDestroyClose(code, reason) ==>
        && old(nextTimer) !in old(pending)
        && pending == old(pending) + {old(nextTimer)} && reconnect == Some(old(nextTimer))
        && nextTimer == old(nextTimer) + 1
    {
      if ws.Some? {
        ws := Some(Closed);
      }
      emitted := emitted + [Disconnect(code, reason)];
      if !IsDestroyClose(code, reason) {
        Reconnect();
      }
    }

    /** Transmits a message when connected; resolves false without transmitting otherwise,
        and rejects when the transport reports a failure. */
    method Send(msg: Obj, delivered: bool) returns (r: Settled)
      modifies this`wire
      ensures !Connected() ==> r == Resolved(false) && wire == old(wire)
      ensures Connected() ==> wire == old(wire) + [Frame(msg)]
      ensures Connected() ==> r == if delivered then Resolved(true) else Rejected
    {
      if !Connected() {
        return Resolved(false);
      }
      wire := wire + [Frame(msg)];
      r := if delivered then Resolved(true) else Rejected;
    }

    /** Records the resume key (the user's id by default) before sending the command,
        so that later handshakes present it. */
    method ConfigureResuming(key: Option<string>, timeout: Option<int>, delivered: bool) returns (r: Settled)
      modifies this`resumeKey, this`wire
      ensures resumeKey == Some(key.GetOr(user))
      ensures var frame := ConfigureResumingFrame(key.GetOr(user), timeout.GetOr(DefaultResumeTimeout));
        wire == old(wire) + (if Connected() then [Frame(frame)] else [])
      ensures !Connected() ==> r == Resolved(false)
      ensures Connected() ==> r == if delivered then Resolved(true) else Rejected
    {
      resumeKey := Some(key.GetOr(user));
      r := Send(ConfigureResumingFrame(key.GetOr(user), timeout.GetOr(DefaultResumeTimeout)), delivered);
    }

    /** Closes a connected socket with the teardown code and reason and forgets it.
        Pending reconnect timers are left as they are. */
    method Destroy() returns (b: bool)
      modifies this`ws, this`wire
      ensures b == old(Connected())
      ensures b ==> ws == None && wire == old(wire) + [Close(Some(NormalClosure), DestroyReason)]
      ensures !b ==> ws == old(ws) && wire == old(wire)
    {
      if !Connected() {
        return false;
      }
      wire := wire + [Close(Some(NormalClosure), DestroyReason)];
      ws := None;
      b := true;
    }

    /** Schedules one more reconnect timer; earlier ones stay scheduled. */
    method Reconnect()
      requires Valid()
      modifies this`pending, this`reconnect, this`nextTimer
      ensures Valid()
      ensures old(nextTimer) !in old(pending)
      ensures pending == old(pending) + {old(nextTimer)}
      ensures reconnect == Some(old(nextTimer)) && nextTimer == old(nextTimer) + 1
    {
      pending := pending + {nextTimer};
      reconnect := Some(nextTimer);
      nextTimer := nextTimer + 1;
    }

    /** A reconnect timer fires: the current socket is dropped and a new one dialled.
        With no socket left (after destroy) the callback fails on `ws.removeAllListeners`
        and `ok` is false. */
    method FireReconnect(t: nat) returns (ok: bool)
      requires Valid()
      requires t in pending
      modifies this`pending, this`ws, this`emitted, this`wire
      ensures Valid()
      ensures pending == old(pending) - {t}
      ensures ok == old(ws).Some?
      ensures !ok ==> ws == old(ws) && emitted == old(emitted) && wire == old(wire)
      ensures ok ==> ws == Some(Connecting)
      ensures ok ==> emitted == old(emitted) + [Reconnecting]
      ensures ok ==> wire == old(wire) + [Handshake()]
    {
      pending := pending - {t};
      if ws.None? {
        return false;
      }
      ws := None;
      emitted := emitted + [Reconnecting];
      Connect();
      ok := true;
    }
  }

  /** `event && event.error ? event.error : event` */
  function ErrorOf(event: Json): (error: Json)
    ensures Truthy(error) ==> Truthy(event)
    ensures event.Object? && "error" in event.fields && Truthy(event.fields["error"]) ==> error == event.fields["error"]
    ensures !(event.Object? && "error" in event.fields && Truthy(event.fields["error"])) ==> error == event
  {
    if Truthy(event) && event.Object? && "error" in event.fields && Truthy(event.fields["error"])
    then event.fields["error"]
    else event
  }

  /** A connection attempt that fails is reported as an error (to the manager's error
      listener) and then as a close. Each schedules its own reconnect and opening cancels
      neither, so both timers fire and the node dials twice more, the first new socket
      dropped without being closed. A new node is connecting with no timer pending. */
  method FailedAttemptDialsTwice(node: LavalinkNode)
    requires node.Valid() && node.ws == Some(Connecting) && node.pending == {}
    modifies node
    ensures node.ws == Some(Connecting) && node.pending == {} && node.reconnect == Some(old(node.nextTimer) + 1)
    ensures node.wire == old(node.wire) + [old(node.Handshake()), old(node.Handshake())]
    ensures node.emitted == old(node.emitted) + [Error(String("ECONNREFUSED")), Disconnect(1006, ""), Reconnecting, Reconnecting]
  {
    var t := node.nextTimer;
    var event := Object(map["error" := String("ECONNREFUSED")]);
    assert ErrorOf(event) == String("ECONNREFUSED");
    var thrown := node.OnError(event, true);
    assert node.pending == {t};
    node.OnClose(1006, "");
    assert node.pending == {t, t + 1};
    var first := node.FireReconnect(t);
    assert node.pending == {t + 1};
    var second := node.FireReconnect(t + 1);
  }

  /** Destroying a node whose socket has already closed does nothing, so the reconnect the
      close scheduled still fires and the node dials again. */
  method DestroyDoesNotStopReconnect(node: LavalinkNode) returns (destroyed: bool, fired: bool)
    requires node.Valid() && node.ws == Some(Connecting) && node.pending == {}
    modifies node
    ensures !destroyed && fired
    ensures node.ws == Some(Connecting) && node.pending == {}
    ensures node.wire == old(node.wire) + [old(node.Handshake())]
    ensures node.emitted == old(node.emitted) + [Disconnect(1006, ""), Reconnecting]
  {
    var t := node.nextTimer;
    node.OnClose(1006, "");
    assert node.pending == {t};
    destroyed := node.Destroy();
    fired := node.FireReconnect(t);
  }
}
