# discord.js-lavalink core, modelled in Dafny

This project models the three cooperating components of `src/lib` in discord.js-lavalink.

- **`LavalinkNode`** (module `Lavalink`, `lavalink_node.dfy`) is one authenticated WebSocket session to a Lavalink audio node. It covers:
  - the option defaults and the handshake headers;
  - the resume key, which is recorded on every open and presented on every later dial;
  - the rule that sending works only while the socket is open;
  - the stats frame, which replaces the node's stats;
  - the reconnect decision on error and close, where the node's own destroy is the one close that is not reconnected;
  - the reconnect timers themselves.
- **`Player`** (module `Playback`, `player.dfy`) is the per-guild mirror of the node's playback state. Commands change the mirror only after their send settles. Events from the node (`event`, `playerUpdate`) change it as they arrive.
- **`PlayerManager`** (module `Manager`, `player_manager.dfy`) is the registry of nodes and players. It:
  - buffers the two halves of a Discord voice grant per guild and joins them, in either arrival order, into a single `voiceUpdate` for the guild's player;
  - joins and leaves voice channels;
  - adds and removes nodes;
  - ranks connected nodes by CPU load;
  - moves a player to another node.

Module `Values` (`values.dfy`) holds the shared vocabulary: parsed JSON, JavaScript truthiness, `undefined` as an absent key, object spread as map union, decimal text for numbers, and how a promise settles.

Abstractions used throughout:

- **JSON payloads.** A payload is a `map<string, Json>`, so `{...a, ...b}` is `a + b`.
- **Sends.** A send takes a `delivered` flag, which stands for the transport reporting no error. Its result is a `Settled` value: `Resolved(b)` or `Rejected`.
- **The socket.** It is reduced to its ready state (`None` is `ws === null`). Everything a node hands to the transport (dials with their headers, frames, closes) is appended to its `wire` log.
- **Events.** Events a node emits on its manager go to the node's `emitted` log. Events a player re-emits go to the player's `emitted` log, and only for names in its `listening` set.
- **Timers.** Reconnect timers are a set of pending ids with a fresh-id counter. `FireReconnect` is a timer callback.
- **The clock.** `Date.now()` is the parameter `now`.
- **The discord.js client.** It is the fixed set `guilds` of known guilds plus the `gateway` log of packets sent through it.

## Model

| member | source | states |
|---|---|---|
| Values.NatToStringRoundTrip | src/lib/LavalinkNode.ts:84 | `String(n)` is decimal text that reads back as `n`, so different shard counts and ports give different header and address text |
| Lavalink.NatOr | src/lib/LavalinkNode.ts:52-55 | `a \|\| b` for a number: a given non-zero value is kept, zero or absent takes the default |
| Lavalink.StringOr | src/lib/LavalinkNode.ts:55 | `a \|\| b` for a string: a given non-empty value is kept, empty or absent takes the default |
| Lavalink.Address | src/lib/LavalinkNode.ts:56 | the address is `ws://`, then the host, then `:`, then decimal text denoting the port |
| Lavalink.Headers | src/lib/LavalinkNode.ts:82-88 | `Authorization` is the password, `User-Id` the user, `Num-Shards` the text of `shards \|\| 1`; `Resume-Key` is present exactly when a non-empty key is set and then carries it; no other header |
| Lavalink.StatsAfter | src/lib/LavalinkNode.ts:114-115 | the stats never hold `op`; a stats frame replaces them by its own fields without `op`; any other message leaves op-free stats unchanged |
| Lavalink.ForwardTarget | src/lib/LavalinkNode.ts:117 | a message is routed to guild `g` only if `g` has a player and the message's `guildId` is `g`; when nothing is routed, no guild with a player is named by the message |
| Lavalink.ConfigureResumingFrame | src/lib/LavalinkNode.ts:150 | the resume command has exactly the fields `op` = "configureResuming", `key` and `timeout` |
| Lavalink.IsDestroyClose | src/lib/LavalinkNode.ts:132 | the one close that is not reconnected: code 1000 with reason "destroy" |
| Lavalink.ErrorOf | src/lib/LavalinkNode.ts:123 | the reported error is the event's truthy `error` field when it has one, otherwise the event itself; a truthy error implies a truthy event |
| Lavalink.LavalinkNode.Connected | src/lib/LavalinkNode.ts:170-172 | the `connected` getter: a socket exists and is open |
| Lavalink.LavalinkNode.Handshake | src/lib/LavalinkNode.ts:82-90 | a dial of the node's address presenting its password and user, and a `Resume-Key` exactly when a non-empty resume key is recorded |
| Lavalink.LavalinkNode.constructor | src/lib/LavalinkNode.ts:47-77 | port 2333, reconnect interval 5000 and password "youshallnotpass" stand in for falsy options; the address is `ws://host:port`; the stats are all zero; no timers; connecting is started once with a handshake that has no resume key |
| Lavalink.LavalinkNode.Connect | src/lib/LavalinkNode.ts:79-96 | a connected socket is closed first; the node then dials its address with the current handshake and is connecting |
| Lavalink.LavalinkNode.OnOpen | src/lib/LavalinkNode.ts:98-102 | the socket is open; only the most recent reconnect timer is cleared; ready is reported; the resume key becomes the user and the resume command with timeout 120 is sent |
| Lavalink.LavalinkNode.OnMessage | src/lib/LavalinkNode.ts:114-119 | the stats become `StatsAfter` of the message, the message is reported raw, and the routing target is returned |
| Lavalink.LavalinkNode.OnError | src/lib/LavalinkNode.ts:122-128 | a falsy error changes nothing; when the manager has no "error" listener, emitting a truthy error throws and no reconnect is scheduled; otherwise the error is reported and schedules a fresh timer that becomes the most recent one, earlier timers staying pending |
| Lavalink.LavalinkNode.OnClose | src/lib/LavalinkNode.ts:130-133 | the close is reported; a fresh reconnect timer is scheduled unless the code is 1000 and the reason is "destroy" |
| Lavalink.LavalinkNode.Send | src/lib/LavalinkNode.ts:135-145 | when not connected it resolves false and transmits nothing; otherwise it transmits the frame and resolves true, or rejects on a transport failure |
| Lavalink.LavalinkNode.ConfigureResuming | src/lib/LavalinkNode.ts:147-151 | the key (the user by default) is recorded before sending; the command carries the key and the timeout (120 by default) |
| Lavalink.LavalinkNode.Destroy | src/lib/LavalinkNode.ts:153-158 | returns whether the node was connected; if so it closes with (1000, "destroy") and forgets the socket; otherwise nothing changes; timers are never touched |
| Lavalink.LavalinkNode.Reconnect | src/lib/LavalinkNode.ts:160-168 | every call adds a fresh pending timer, cancels none, and records it as the most recent |
| Lavalink.LavalinkNode.FireReconnect | src/lib/LavalinkNode.ts:161-166 | the timer is no longer pending; with a socket the node drops it, reports reconnecting and dials again with the current handshake; with no socket (after destroy) the callback fails and nothing else changes |
| Lavalink.FailedAttemptDialsTwice | src/lib/LavalinkNode.ts:122-133 | on a connecting node with no timer pending (a new node), an error followed by a close leaves two pending timers, and both fire, so the node dials two more times |
| Lavalink.DestroyDoesNotStopReconnect | src/lib/LavalinkNode.ts:130-166 | after a close, destroy finds no open socket and returns false, and the reconnect scheduled by the close still fires and dials again |
| Playback.Command | src/lib/Player.ts:141-145 | `{...data, op, guildId}`, the command a player sends; its properties are those of `CommandEnvelope` |
| Playback.CommandEnvelope | src/lib/Player.ts:139-146 | the transmitted command keeps every data field and sets `op` and `guildId`, which override same-named data fields |
| Playback.MergeState | src/lib/Player.ts:84-86 | after a player update the volume is kept unless the node sends one; every other field, the equalizer included, is exactly what the node sent |
| Playback.Player.constructor | src/lib/Player.ts:44-60 | volume 100, empty equalizer, not playing, not paused, no track, no timestamp, empty voice state, handlers attached, bound to the given node |
| Playback.Player.Send | src/lib/Player.ts:139-146 | rejects without transmitting when the node is not connected; otherwise the node transmits the command envelope |
| Playback.Player.Play | src/lib/Player.ts:89-95 | sends `{...options, track}`; once the send resolves, track, playing and the timestamp are set; a rejected send leaves all three |
| Playback.Player.Stop | src/lib/Player.ts:97-102 | once the send resolves, not playing and no timestamp; the track is kept |
| Playback.Player.Pause | src/lib/Player.ts:104-108 | sends `pause` (true by default) and records it once the send resolves |
| Playback.Player.Resume | src/lib/Player.ts:110-112 | exactly a pause with false |
| Playback.Player.Volume | src/lib/Player.ts:114-118 | sends the volume and records it in the state once the send resolves |
| Playback.Player.Seek | src/lib/Player.ts:120-122 | sends the position and changes no field of the player |
| Playback.Player.Equalizer | src/lib/Player.ts:124-128 | sends the bands and records them as the state's equalizer once the send resolves |
| Playback.Player.Destroy | src/lib/Player.ts:130-132 | sends `destroy` and changes no field of the player |
| Playback.Player.Connect | src/lib/Player.ts:134-137 | the voice state is recorded before sending, so it is kept even when the send rejects |
| Playback.Player.RemoveAllListeners | src/lib/PlayerManager.ts:118 | no application listener is left and the event handlers are detached |
| Playback.Player.Notify | src/lib/Player.ts:67-80 | an event is re-emitted only when its name has a listener |
| Playback.Player.HandleEvent | src/lib/Player.ts:61-83 | the "event" handler: TrackEnd stops playing unless the reason is REPLACED and always clears track and timestamp; exception and socket-closed events change nothing; TrackStuck sends stop and applies its outcome; other types only warn; each re-emission only with a listener |
| Playback.Player.HandlePlayerUpdate | src/lib/Player.ts:84-86 | the state becomes `MergeState` of the old state and the update's `state` |
| Playback.Player.Emit | src/lib/Player.ts:61-86 | only "event" and "playerUpdate" have handlers, and only while they are attached; any other op changes nothing |
| Manager.InChannel | src/lib/PlayerManager.ts:147 | `if (data.channel_id)`: the state grant names a non-empty channel |
| Manager.VoiceUpdate | src/lib/PlayerManager.ts:169 | the voice grant has exactly the fields `sessionId`, from the state grant, and `event`, the server grant |
| Manager.Attempt | src/lib/PlayerManager.ts:158-173 | a grant is dispatched exactly when both halves are buffered, the guild is known and it has a player; both halves are consumed only when that send resolves; otherwise the buffers are unchanged |
| Manager.ServerGrant | src/lib/PlayerManager.ts:139-142 | the guild's buffered server grant becomes `data`, replacing an older one, and is dispatched with the buffered state grant when the guild is ready; both halves leave the buffers exactly when that dispatch is accepted, and otherwise the state grants are unchanged; other guilds' grants are untouched |
| Manager.StateGrant | src/lib/PlayerManager.ts:144-156 | another user's state changes nothing; a state without a channel drops both halves of the guild and dispatches nothing; any other state becomes the guild's buffered state grant and is dispatched with the buffered server grant when the guild is ready; both halves leave the buffers exactly when that dispatch is accepted, and otherwise the server grants are unchanged |
| Manager.CorrelationCommutes | src/lib/PlayerManager.ts:139-172 | server-then-state and state-then-server dispatch the same single voice grant on the second packet and leave the same buffers, which are back to their start when the send resolves |
| Manager.ConsumedPairNotRedispatched | src/lib/PlayerManager.ts:158-172 | after a pair has been consumed, a retransmission of either half alone dispatches nothing |
| Manager.Load | src/lib/PlayerManager.ts:190-191 | a node with no truthy `cpu` has load 0; one reporting `systemLoad` and a non-zero `cores` has load `systemLoad / cores * 100` |
| Manager.InsertByLoad | src/lib/PlayerManager.ts:189-193 | inserting into a list sorted by load keeps it sorted and adds exactly the one entry |
| Manager.InsertByLoadStable | src/lib/PlayerManager.ts:189-193 | the inserted entry goes before the entries of equal load that were already there, and the entries of every other load are unchanged |
| Manager.SortByLoad | src/lib/PlayerManager.ts:189-193 | the result is sorted by load, lightest first, and is a permutation of the input |
| Manager.SortByLoadStable | src/lib/PlayerManager.ts:189-193 | the sort is stable: entries of equal load keep their relative order |
| Manager.LighterNodeRanksFirst | src/lib/PlayerManager.ts:188-194 | a node at 0.1 load on 2 cores (load 5) ranks before a node at 0.8 on 4 cores (load 20) |
| Manager.SortByLoadKeepsOrder | src/lib/PlayerManager.ts:189-193 | sorting keeps the hosts free of repeats, and the hosts of each load stay in the order they had |
| Manager.StartTime | src/lib/PlayerManager.ts:125 | a moved player resumes at its numeric position plus 2000, or at 2000 when it has none |
| Manager.Attempted | src/lib/PlayerManager.ts:127-134 | a chain of awaited sends makes every send up to and including the first rejected one, and all of them when none is rejected |
| Manager.PlayerManager.constructor | src/lib/PlayerManager.ts:60-68 | `shards \|\| 1`; one node stored per configured host; no players, no buffered grants, no gateway packets |
| Manager.PlayerManager.CreateNode | src/lib/PlayerManager.ts:76-82 | a fresh node is stored under its host, replacing any node there; a new host is appended to the iteration order |
| Manager.PlayerManager.RemoveNode | src/lib/PlayerManager.ts:84-89 | false when no node is stored under the host; otherwise only that key is removed and true is returned; the other hosts keep their iteration order |
| Manager.Without | src/lib/PlayerManager.ts:88 | deleting a key from a Map: the other entries stay, in their order, without repeats |
| Manager.PlayerManager.SendWS | src/lib/PlayerManager.ts:196-200 | a gateway packet goes out exactly when its guild is known to the client |
| Manager.PlayerManager.Join | src/lib/PlayerManager.ts:91-104 | a guild with a player gets that player back and no packet is sent; otherwise the join packet (mute and deaf false by default) is sent, then a fresh player bound to the host's node is added, or INVALID_HOST is returned with the players unchanged |
| Manager.PlayerManager.SpawnPlayer | src/lib/PlayerManager.ts:175-186 | an existing player is returned as is; an unknown host gives INVALID_HOST; otherwise exactly one fresh player is added for the guild, on the host's node |
| Manager.PlayerManager.Leave | src/lib/PlayerManager.ts:106-121 | the leave packet (no channel) always goes out; a guild without a player gives false; otherwise the player's listeners are removed and `destroy` is sent, and the guild's entry alone is removed once that resolves |
| Manager.PlayerManager.Switch | src/lib/PlayerManager.ts:123-137 | `destroy` on the old node; the player is rebound only if that resolves; the new node then receives voice grant, volume, equalizer and play from the start time, in that order, up to the first rejection; state and voice state are unchanged |
| Manager.MoveFrames | src/lib/PlayerManager.ts:131-134 | the four commands a moved player sends, in order |
| Manager.MoveFramesCarryState | src/lib/PlayerManager.ts:124-134 | a move sends, for the player's guild: the saved voice state, then the saved volume, then the replay frames |
| Manager.ReplayFrames | src/lib/PlayerManager.ts:133-134 | the equalizer and play commands of a move, in order |
| Manager.ReplayFramesCarryState | src/lib/PlayerManager.ts:124-134 | a replay sends, for the player's guild: the saved equalizer bands (absent when the state has none), then the saved track from the start time |
| Manager.Restore | src/lib/PlayerManager.ts:131-134 | the voice grant and volume are sent; the equalizer and track follow while each send resolves; the exact frames sent depend on how far the chain got |
| Manager.Replay | src/lib/PlayerManager.ts:133-134 | the equalizer, then the track from the start time once the equalizer resolves; resolving both means playing, stamped now |
| Manager.PlayerManager.AttemptConnection | src/lib/PlayerManager.ts:158-173 | the buffers become those of `Attempt`; a dispatched grant is recorded on the guild's player and sent to its node |
| Manager.PlayerManager.VoiceServerUpdate | src/lib/PlayerManager.ts:139-142 | the buffers and the dispatch are those of `ServerGrant` |
| Manager.PlayerManager.VoiceStateUpdate | src/lib/PlayerManager.ts:144-156 | the buffers and the dispatch are those of `StateGrant`, with the bot's user id |
| Manager.PlayerManager.Eligible | src/lib/PlayerManager.ts:189 | exactly the connected hosts, each with its load, as a subsequence of the iteration order (so without repeats when that order has none); the hosts of each load are in iteration order too |
| Manager.PlayerManager.IdealNodes | src/lib/PlayerManager.ts:188-194 | exactly the connected nodes, each once and with its load, ordered by non-decreasing load; nodes of equal load keep the order in which they were stored |
| Manager.PlayerManager.Route | src/lib/LavalinkNode.ts:117 | a message naming a guild with a player is emitted on that player under the message's `op`, with the effect `Emit` states; other players are untouched |

The manager's `Valid` invariant states three things. Every host is listed once in iteration order. Every player is stored under its own guild. Every buffered grant is stored under its own guild, and every buffered state grant is the bot's own and names a channel.

## Left out

- The `ws` transport is not modelled: binary framing, the Buffer/ArrayBuffer/array normalisation and `JSON.parse` of inbound frames, and `JSON.stringify` of outbound ones. Messages are taken already parsed.
- A socket's own listeners (`onopen`, `onmessage`, ...) are not modelled. Opening, messages, errors and closes are method calls on the node.
- Lavalink.LavalinkNode.Connect: reconnecting while connected leaves the old socket's handlers attached in the source. The model does not track handlers.
- discord.js is not modelled: the client object and its `INVALID_CLIENT` check, shard routing inside `sendWS`, and the `raw` packet subscription that feeds the two voice handlers. `client.user.id` is taken to be the manager's `user`, and `client.guilds` does not change during a run.
- The EventEmitter is reduced to logs. Whether the manager has an "error" listener is a parameter of `OnError`; the other events have none. Application listeners are only recorded as names in `listening` (`Player.AddListener`). `removeNode` also detaches the node's own listeners, and nodes' listeners are not modelled.
- Asynchronous interleaving is not modelled, for example events arriving in the middle of `switch` or of `leave`. Every operation runs to completion before the next one starts.
- Events on different objects go to different logs, so their relative order across objects is not recorded. In particular, the raw event for a message and the player's handling of it are not ordered in the model. `OnMessage` and `Route` model the two halves of the node's message handler.
- Manager.Load: floating point is not modelled. Loads are real numbers. A node reporting zero cores (the initial stats do) would give NaN or Infinity in the comparator, so `IdealNodes` requires every connected node to report a computable load.
- Manager.StartTime: a truthy position that is not a number (string concatenation in JavaScript) is treated as no position.
- Playback.Player.HandleEvent: the `stop` issued for a stuck track is awaited by nobody in the source. The model applies its outcome at once, and does not model the unhandled rejection a failed stop produces.
- Playback.PlayerEvent: the warning text is reduced to the event type it names.
- Manager.PlayerManager.Switch returns the settled outcome instead of the player object, which is always the one passed in.
- A port given as a string (`port?: number | string`) is not modelled. Ports are natural numbers, and the address writes them in decimal.
- The nodes keep their own copy of the manager's `user` and `shards`, fixed when the manager is built.
- The `client` and `manager` fields of a player, and the configurable `Player` class of the manager, are not modelled. Players are always of the one class.
- The compiled `dist/` output, the type declarations and `example/app.js` are not part of this model.
