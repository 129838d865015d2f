/** The per-guild player (src/lib/Player.ts): a local mirror of the node's playback
    state, changed by the commands it sends once they settle and by the events its
    node forwards. Re-emitted events go to an appended `emitted` log. */
module Playback {
  import opened Values
  import opened Lavalink

  /** Events a player re-emits to its listeners. */
  datatype PlayerEvent =
    | Ended(data: Obj)
    | Errored(data: Obj)
    | Warned(eventType: Option<Json>)   // "Unexpected event type: ..." for this type

  const Replaced: Json := String("REPLACED")

  /** `{...data, op, guildId}`: the command envelope, where `op` and `guildId` win over
      same-named fields of the data. */
  function Command(op: string, data: Obj, guild: string): Obj {
    data + map["op" := String(op), "guildId" := String(guild)]
  }

  /** The envelope keeps every field of the data except `op` and `guildId`, which it sets. */
  lemma CommandEnvelope(op: string, data: Obj, guild: string)
    ensures var m := Command(op, data, guild);
      && m.Keys == data.Keys + {"op", "guildId"}
      && m["op"] == String(op) && m["guildId"] == String(guild)
      && forall k :: k in data && k != "op" && k != "guildId" ==> m[k] == data[k]
  {
  }

  /** A track as JSON: `null` or its identifier. */
  function TrackValue(track: Option<string>): Json {
    if track.Some? then String(track.value) else Null
  }

  /** The state a new player starts with. */
  function InitialState(): Obj {
    map["volume" := Number(100.0), "equalizer" := Array([])]
  }

  /** `{volume: prev.volume, ...update}`: the state after a player update from the node. */
  function MergeState(prev: Obj, update: Option<Json>): (r: Obj)
    ensures "volume" in prev ==> "volume" in r
    ensures "volume" in Spread(update) ==> Field(r, "volume") == Some(Spread(update)["volume"])
    ensures "volume" !in Spread(update) ==> Field(r, "volume") == Field(prev, "volume")
    ensures forall k :: k != "volume" ==> Field(r, k) == Field(Spread(update), k)
  {
    Put(map[], "volume", Field(prev, "volume")) + Spread(update)
  }

  class Player {
    const id: string
    const channel: string
    var node: LavalinkNode
    var state: Obj
    var playing: bool
    /** When the last play command was accepted; the clock is a parameter. */
    var timestamp: Option<int>
    var paused: bool
    var track: Option<string>
    var voiceUpdateState: Obj
    /** Whether the handlers for "event" and "playerUpdate" are still registered. */
    var handlersAttached: bool
    /** Event names that have at least one application listener. */
    var listening: set<string>
    var emitted: seq<PlayerEvent>

    /** The state always knows a volume, and a play stamp is only held while playing. */
    ghost predicate Valid()
      reads this
    {
      "volume" in state && (timestamp.Some? ==> playing)
    }

    /** The fields of a player nobody has used yet. */
    predicate Initial()
      reads this
    {
      && state == InitialState()
      && !playing && !paused
      && track == None && timestamp == None
      && voiceUpdateState == map[]
      && handlersAttached && listening == {} && emitted == []
    }

    constructor (node: LavalinkNode, id: string, channel: string)
      ensures Valid() && Initial()
      ensures this.node == node && this.id == id && this.channel == channel
    {
      this.id := id;
      this.channel := channel;
      this.node := node;
      state := InitialState();
      playing := false;
      timestamp := None;
      paused := false;
      track := None;
      voiceUpdateState := map[];
      handlersAttached := true;
      listening := {};
      emitted := [];
    }

    /** Whether a command sent now settles resolved: the node is connected and the
        transport reports no failure. */
    predicate Accepts(delivered: bool)
      reads this, node
    {
      node.Connected() && delivered
    }

    /** What a command sent now puts on the node's wire. */
    function Sent(op: string, data: Obj): seq<WireAction>
      reads this, node
    {
      if node.Connected() then [Frame(Command(op, data, id))] else []
    }

    /** Rejects without transmitting when the node is not connected; otherwise hands
        the node the command envelope. */
    method Send(op: string, data: Obj, delivered: bool) returns (r: Settled)
      modifies node`wire
      ensures node.wire == old(node.wire) + old(Sent(op, data))
      ensures r == if old(Accepts(delivered)) then Resolved(true) else Rejected
    {
      if !node.Connected() {
        return Rejected;
      }
      r := node.Send(Command(op, data, id), delivered);
    }

    method Play(trk: Option<string>, options: Obj, delivered: bool, now: int) returns (r: Settled)
      requires Valid()
      modifies this`track, this`playing, this`timestamp, node`wire
      ensures Valid()
      ensures node.wire == old(node.wire) + old(Sent("play", options["track" := TrackValue(trk)]))
      ensures r == if old(Accepts(delivered)) then Resolved(true) else Rejected
      ensures r.Resolved? ==> track == trk && playing && timestamp == Some(now)
      ensures r.Rejected? ==> track == old(track) && playing == old(playing) && timestamp == old(timestamp)
    {
      r := Send("play", options["track" := TrackValue(trk)], delivered);
      if r.Resolved? {
        track := trk;
        playing := true;
        timestamp := Some(now);
      }
    }

    method Stop(delivered: bool) returns (r: Settled)
      requires Valid()
      modifies this`playing, this`timestamp, node`wire
      ensures Valid()
      ensures node.wire == old(node.wire) + old(Sent("stop", map[]))
      ensures r == if old(Accepts(delivered)) then Resolved(true) else Rejected
      ensures r.Resolved? ==> !playing && timestamp == None
      ensures r.Rejected? ==> playing == old(playing) && timestamp == old(timestamp)
    {
      r := Send("stop", map[], delivered);
      if r.Resolved? {
        playing := false;
        timestamp := None;
      }
    }

    /** `pause(pause = true)` */
    method Pause(pause: Option<bool>, delivered: bool) returns (r: Settled)
      modifies this`paused, node`wire
      ensures node.wire == old(node.wire) + old(Sent("pause", map["pause" := Bool(pause.GetOr(true))]))
      ensures r == if old(Accepts(delivered)) then Resolved(true) else Rejected
      ensures paused == if r.Resolved? then pause.GetOr(true) else old(paused)
    {
      r := Send("pause", map["pause" := Bool(pause.GetOr(true))], delivered);
      if r.Resolved? {
        paused := pause.GetOr(true);
      }
    }

    /** Exactly `pause(false)`. */
    method Resume(delivered: bool) returns (r: Settled)
      modifies this`paused, node`wire
      ensures node.wire == old(node.wire) + old(Sent("pause", map["pause" := Bool(false)]))
      ensures r == if old(Accepts(delivered)) then Resolved(true) else Rejected
      ensures paused == if r.Resolved? then false else old(paused)
    {
      r := Pause(Some(false), delivered);
    }

    method Volume(volume: Json, delivered: bool) returns (r: Settled)
      requires Valid()
      modifies this`state, node`wire
      ensures Valid()
      ensures node.wire == old(node.wire) + old(Sent("volume", map["volume" := volume]))
      ensures r == if old(Accepts(delivered)) then Resolved(true) else Rejected
      ensures state == if r.Resolved? then old(state)["volume" := volume] else old(state)
    {
      r := Send("volume", map["volume" := volume], delivered);
      if r.Resolved? {
        state := state["volume" := volume];
      }
    }

    /** The local state is left alone: the position comes from the node's next update. */
    method Seek(position: Json, delivered: bool) returns (r: Settled)
      modifies node`wire
      ensures node.wire == old(node.wire) + old(Sent("seek", map["position" := position]))
      ensures r == if old(Accepts(delivered)) then Resolved(true) else Rejected
    {
      r := Send("seek", map["position" := position], delivered);
    }

    /** `bands` is None where the caller passes `undefined`, which the frame then leaves out. */
    method Equalizer(bands: Option<Json>, delivered: bool) returns (r: Settled)
      requires Valid()
      modifies this`state, node`wire
      ensures Valid()
      ensures node.wire == old(node.wire) + old(Sent("equalizer", Put(map[], "bands", bands)))
      ensures r == if old(Accepts(delivered)) then Resolved(true) else Rejected
      ensures state == if r.Resolved? then Put(old(state), "equalizer", bands) else old(state)
    {
      r := Send("equalizer", Put(map[], "bands", bands), delivered);
      if r.Resolved? {
        state := Put(state, "equalizer", bands);
      }
    }

    /** Tears the player down on its node; no local field changes. */
    method Destroy(delivered: bool) returns (r: Settled)
      modifies node`wire
      ensures node.wire == old(node.wire) + old(Sent("destroy", map[]))
      ensures r == if old(Accepts(delivered)) then Resolved(true) else Rejected
    {
      r := Send("destroy", map[], delivered);
    }

    /** Records the voice grant before sending it, so it is kept even if the send rejects. */
    method Connect(data: Obj, delivered: bool) returns (r: Settled)
      modifies this`voiceUpdateState, node`wire
      ensures voiceUpdateState == data
      ensures node.wire == old(node.wire) + old(Sent("voiceUpdate", data))
      ensures r == if old(Accepts(delivered)) then Resolved(true) else Rejected
    {
      voiceUpdateState := data;
      r := Send("voiceUpdate", data, delivered);
    }

    /** An application registers a listener for `name`. */
    method AddListener(name: string)
      modifies this`listening
      ensures listening == old(listening) + {name}
    {
      listening := listening + {name};
    }

    /** Every listener goes, the player's own handlers included. */
    method RemoveAllListeners()
      modifies this`listening, this`handlersAttached
      ensures listening == {} && !handlersAttached
    {
      listening := {};
      handlersAttached := false;
    }

    /** `emit(name, data)` for a listener that may or may not be registered. */
    method Notify(name: string, event: PlayerEvent)
      modifies this`emitted
      ensures emitted == old(emitted) + (if name in listening then [event] else [])
    {
      if name in listening {
        emitted := emitted + [event];
      }
    }

    /** The handler for "event" messages: a small state machine on the event's type. */
    method HandleEvent(data: Obj, delivered: bool)
      requires Valid()
      modifies this`playing, this`track, this`timestamp, this`emitted, node`wire
      ensures Valid()
      ensures EventHandled(this, data, delivered)
    {
      var eventType := Field(data, "type");
      if eventType == Some(String("TrackEndEvent")) {
        if Field(data, "reason") != Some(Replaced) {
          playing := false;
        }
        track := None;
        timestamp := None;
        Notify("end", Ended(data));
      } else if eventType == Some(String("TrackExceptionEvent")) {
        Notify("error", Errored(data));
      } else if eventType == Some(String("TrackStuckEvent")) {
        var _ := Stop(delivered);
        Notify("end", Ended(data));
      } else if eventType == Some(String("WebSocketClosedEvent")) {
        Notify("error", Errored(data));
      } else {
        Notify("warn", Warned(eventType));
      }
    }

    /** The handler for "playerUpdate" messages: the node's state replaces the local one,
        except that the volume is kept unless the node reports one. */
    method HandlePlayerUpdate(data: Obj)
      requires Valid()
      modifies this`state
      ensures Valid()
      ensures state == MergeState(old(state), Field(data, "state"))
    {
      state := MergeState(state, Field(data, "state"));
    }

    /** `player.emit(op, data)` from the node: only "event" and "playerUpdate" have handlers,
        and only until the listeners are removed. */
    method Emit(op: Json, data: Obj, delivered: bool)
      requires Valid()
      modifies this`playing, this`track, this`timestamp, this`emitted, this`state, node`wire
      ensures Valid()
      ensures Dispatched(this, op, data, delivered)
    {
      if !handlersAttached {
        return;
      }
      if op == String("event") {
        HandleEvent(data, delivered);
      } else if op == String("playerUpdate") {
        HandlePlayerUpdate(data);
      }
    }
  }

  /** What the "event" handler does, by the event's type. */
  twostate predicate EventHandled(p: Player, data: Obj, delivered: bool)
    reads p, p.node
  {
    var eventType := Field(data, "type");
    var quiet := p.node.wire == old(p.node.wire);
    var mirrorKept := p.playing == old(p.playing) && p.track == old(p.track) && p.timestamp == old(p.timestamp);
    && p.node == old(p.node)
    && (eventType == Some(String("TrackEndEvent")) ==>
          && p.playing == (old(p.playing) && Field(data, "reason") == Some(Replaced))
          && p.track == None && p.timestamp == None
          && p.emitted == old(p.emitted) + (if "end" in p.listening then [Ended(data)] else [])
          && quiet)
    && (eventType == Some(String("TrackExceptionEvent")) || eventType == Some(String("WebSocketClosedEvent")) ==>
          && mirrorKept
          && p.emitted == old(p.emitted) + (if "error" in p.listening then [Errored(data)] else [])
          && quiet)
    && (eventType == Some(String("TrackStuckEvent")) ==>
          && p.node.wire == old(p.node.wire) + old(p.Sent("stop", map[]))
          && p.track == old(p.track)
          && (old(p.Accepts(delivered)) ==> !p.playing && p.timestamp == None)
          && (!old(p.Accepts(delivered)) ==> p.playing == old(p.playing) && p.timestamp == old(p.timestamp))
          && p.emitted == old(p.emitted) + (if "end" in p.listening then [Ended(data)] else []))
    && (eventType !in {Some(String("TrackEndEvent")), Some(String("TrackExceptionEvent")),
                       Some(String("TrackStuckEvent")), Some(String("WebSocketClosedEvent"))} ==>
          && mirrorKept
          && p.emitted == old(p.emitted) + (if "warn" in p.listening then [Warned(eventType)] else [])
          && quiet)
  }

  /** What `p.emit(op, data)` does: only "event" and "playerUpdate" have handlers, and only
      until the listeners are removed. */
  twostate predicate Dispatched(p: Player, op: Json, data: Obj, delivered: bool)
    reads p, p.node
  {
    var untouched := p.playing == old(p.playing) && p.track == old(p.track) && p.timestamp == old(p.timestamp)
      && p.emitted == old(p.emitted) && p.node.wire == old(p.node.wire);
    && (p.handlersAttached && op == String("event") ==> EventHandled(p, data, delivered) && p.state == old(p.state))
    && (p.handlersAttached && op == String("playerUpdate") ==>
          p.state == MergeState(old(p.state), Field(data, "state")) && untouched)
    && (!p.handlersAttached || (op != String("event") && op != String("playerUpdate")) ==>
          p.state == old(p.state) && untouched)
  }
}
