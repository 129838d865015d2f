/** The registry of nodes and players (src/lib/PlayerManager.ts): it buffers the two
    halves of a voice grant per guild until both are there, creates and removes
    players and nodes, ranks connected nodes by CPU load and moves a player to
    another node. The discord.js client is reduced to the set of guilds it knows
    and a log of the gateway packets sent through it. */
module Manager {
  import opened Values
  import opened Lavalink
  import opened Playback

  /** How far ahead of the last known position a moved player resumes, in milliseconds. */
  const SkipAhead: real := 2000.0

  /** A VOICE_SERVER_UPDATE from the gateway. */
  datatype VoiceServerUpdate = VoiceServerUpdate(token: string, guildId: string, endpoint: string)

  /** A VOICE_STATE_UPDATE from the gateway, reduced to the fields the registry reads. */
  datatype VoiceStateUpdate = VoiceStateUpdate(guildId: string, channelId: Option<string>, userId: string, sessionId: string)

  /** The gateway's op 4 "update voice state" packet; a None channel leaves the channel. */
  datatype GatewayPacket = VoiceStateIntent(guildId: string, channelId: Option<string>, selfMute: bool, selfDeaf: bool)

  /** What `join` gives back: the player, or the INVALID_HOST error it throws. */
  datatype JoinResult = Joined(player: Player) | InvalidHost(host: string)

  /** `if (data.channel_id)`: the state grant says the bot is in a channel. */
  predicate InChannel(data: VoiceStateUpdate) {
    data.channelId.Some? && data.channelId.value != ""
  }

  /** The server grant as the JSON object the node receives. */
  function ServerEvent(server: VoiceServerUpdate): Obj {
    map["token" := String(server.token), "guild_id" := String(server.guildId), "endpoint" := String(server.endpoint)]
  }

  /** `{sessionId: state.session_id, event: server}`: the voice grant a player sends its node. */
  function VoiceUpdate(state: VoiceStateUpdate, server: VoiceServerUpdate): (m: Obj)
    ensures m.Keys == {"sessionId", "event"}
    ensures m["sessionId"] == String(state.sessionId) && m["event"] == Object(ServerEvent(server))
  {
    map["sessionId" := String(state.sessionId), "event" := Object(ServerEvent(server))]
  }

  // ---------------------------------------------------------------------------
  // Voice grant correlation, on the two buffers alone

  /** The buffered server and state grants, by guild. */
  datatype Grants = Grants(servers: map<string, VoiceServerUpdate>, states: map<string, VoiceStateUpdate>)

  /** The buffers after one gateway packet, and the voice grant handed to the guild's player, if any. */
  datatype Step = Step(grants: Grants, dispatched: Option<Obj>)

  /** `_attemptConnection`: with both grants buffered and the guild ready (known to the client
      and holding a player), the pair is dispatched, and consumed only if the send is accepted. */
  function Attempt(b: Grants, guild: string, ready: bool, accepted: bool): (s: Step)
    ensures s.dispatched.Some? <==> guild in b.servers && guild in b.states && ready
    ensures s.dispatched.Some? ==> s.dispatched.value == VoiceUpdate(b.states[guild], b.servers[guild])
    ensures s.dispatched.Some? && accepted ==> s.grants == Grants(b.servers - {guild}, b.states - {guild})
    ensures s.dispatched.None? || !accepted ==> s.grants == b
  {
    if guild in b.servers && guild in b.states && ready then
      Step(if accepted then Grants(b.servers - {guild}, b.states - {guild}) else b,
           Some(VoiceUpdate(b.states[guild], b.servers[guild])))
    else
      Step(b, None)
  }

  /** `voiceServerUpdate`: buffer the server grant (replacing an older one) and attempt. */
  function ServerGrant(b: Grants, data: VoiceServerUpdate, ready: bool, accepted: bool): (s: Step)
    ensures s.dispatched.Some? <==> data.guildId in b.states && ready
    ensures s.dispatched.Some? ==> s.dispatched.value == VoiceUpdate(b.states[data.guildId], data)
    ensures s.grants.servers - {data.guildId} == b.servers - {data.guildId}
    ensures s.grants.states - {data.guildId} == b.states - {data.guildId}
    ensures data.guildId in s.grants.servers <==> s.dispatched.None? || !accepted
    ensures data.guildId in s.grants.servers ==> s.grants.servers[data.guildId] == data
    ensures s.grants.states == if s.dispatched.Some? && accepted then b.states - {data.guildId} else b.states
  {
    Attempt(Grants(b.servers[data.guildId := data], b.states), data.guildId, ready, accepted)
  }

  /** `voiceStateUpdate`: another user's state is ignored; a state outside any channel drops
      both buffered grants of the guild; any other is buffered and attempted. */
  function StateGrant(b: Grants, data: VoiceStateUpdate, user: string, ready: bool, accepted: bool): (s: Step)
    ensures data.userId != user ==> s == Step(b, None)
    ensures data.userId == user && !InChannel(data) ==>
      s == Step(Grants(b.servers - {data.guildId}, b.states - {data.guildId}), None)
    ensures data.userId == user && InChannel(data) ==>
      && (s.dispatched.Some? <==> data.guildId in b.servers && ready)
      && (s.dispatched.Some? ==> s.dispatched.value == VoiceUpdate(data, b.servers[data.guildId]))
      && s.grants.servers - {data.guildId} == b.servers - {data.guildId}
      && s.grants.states - {data.guildId} == b.states - {data.guildId}
      && (data.guildId in s.grants.states <==> s.dispatched.None? || !accepted)
      && (data.guildId in s.grants.states ==> s.grants.states[data.guildId] == data)
      && s.grants.servers == if s.dispatched.Some? && accepted then b.servers - {data.guildId} else b.servers
  {
    if data.userId != user then Step(b, None)
    else if InChannel(data) then
      Attempt(Grants(b.servers, b.states[data.guildId := data]), data.guildId, ready, accepted)
    else
      Step(Grants(b.servers - {data.guildId}, b.states - {data.guildId}), None)
  }

  /** The two halves of a grant may arrive in either order: for a guild with nothing buffered,
      server-then-state and state-then-server dispatch the same voice grant once, on the
      second packet, and leave the same buffers. */
  lemma {:induction false} CorrelationCommutes(
    b: Grants, server: VoiceServerUpdate, state: VoiceStateUpdate, user: string, ready: bool, accepted: bool)
    requires server.guildId == state.guildId
    requires state.userId == user && InChannel(state)
    requires server.guildId !in b.servers && server.guildId !in b.states
    ensures var first := ServerGrant(b, server, ready, accepted);
            var second := StateGrant(first.grants, state, user, ready, accepted);
            var first' := StateGrant(b, state, user, ready, accepted);
            var second' := ServerGrant(first'.grants, server, ready, accepted);
            && first.dispatched == None && first'.dispatched == None
            && second.dispatched == second'.dispatched
            && second.grants == second'.grants
            && (ready <==> second.dispatched == Some(VoiceUpdate(state, server)))
            && (ready && accepted ==> second.grants == b)
  {
    var g := server.guildId;
    var first := ServerGrant(b, server, ready, accepted);
    var first' := StateGrant(b, state, user, ready, accepted);
    assert first.grants == Grants(b.servers[g := server], b.states);
    assert first'.grants == Grants(b.servers, b.states[g := state]);
    var both := Grants(b.servers[g := server], b.states[g := state]);
    assert StateGrant(first.grants, state, user, ready, accepted) == Attempt(both, g, ready, accepted);
    assert ServerGrant(first'.grants, server, ready, accepted) == Attempt(both, g, ready, accepted);
    if ready && accepted {
      assert both.servers - {g} == b.servers;
      assert both.states - {g} == b.states;
    }
  }

  /** Once a pair has been consumed, a retransmission of either half alone dispatches nothing. */
  lemma {:induction false} ConsumedPairNotRedispatched(
    b: Grants, server: VoiceServerUpdate, state: VoiceStateUpdate, user: string, ready: bool)
    requires server.guildId == state.guildId
    requires state.userId == user && InChannel(state)
    requires server.guildId !in b.servers && server.guildId !in b.states
    ensures var done := StateGrant(ServerGrant(b, server, ready, true).grants, state, user, ready, true).grants;
            && ServerGrant(done, server, ready, true).dispatched == None
            && StateGrant(done, state, user, ready, true).dispatched == None
  {
    CorrelationCommutes(b, server, state, user, ready, true);
    var done := StateGrant(ServerGrant(b, server, ready, true).grants, state, user, ready, true).grants;
    if ready {
      assert done == b;
    } else {
      assert done.servers == b.servers[server.guildId := server];
      assert done.states == b.states[state.guildId := state];
      assert ServerGrant(done, server, ready, true).dispatched == None;
    }
  }

  // ---------------------------------------------------------------------------
  // Ranking connected nodes by CPU load

  /** A connected node's host and its load, `systemLoad / cores * 100`. */
  datatype Ranked = Ranked(host: string, load: real)

  /** `stats.cpu ? stats.cpu.systemLoad / stats.cpu.cores * 100 : 0`; None where JavaScript
      would compute NaN or divide by zero cores. */
  function Load(stats: Obj): (r: Option<real>)
    ensures !("cpu" in stats && Truthy(stats["cpu"])) ==> r == Some(0.0)
    ensures forall systemLoad, cores :: CpuReport(stats, systemLoad, cores) ==>
      r == if cores != 0.0 then Some(systemLoad / cores * 100.0) else None
    ensures r.Some? && "cpu" in stats && Truthy(stats["cpu"]) ==>
      exists systemLoad, cores :: CpuReport(stats, systemLoad, cores) && cores != 0.0
  {
    if "cpu" !in stats || !Truthy(stats["cpu"]) then Some(0.0)
    else match stats["cpu"]
      case Object(cpu) =>
        if "systemLoad" in cpu && "cores" in cpu && cpu["systemLoad"].Number? && cpu["cores"].Number?
           && cpu["cores"].n != 0.0
        then
          assert CpuReport(stats, cpu["systemLoad"].n, cpu["cores"].n);
          Some(cpu["systemLoad"].n / cpu["cores"].n * 100.0)
        else None
      case _ => None
  }

  /** `stats.cpu` is an object reporting `systemLoad` and `cores` as numbers. */
  predicate CpuReport(stats: Obj, systemLoad: real, cores: real) {
    && "cpu" in stats && stats["cpu"].Object?
    && Field(stats["cpu"].fields, "systemLoad") == Some(Number(systemLoad))
    && Field(stats["cpu"].fields, "cores") == Some(Number(cores))
  }

  predicate SortedByLoad(s: seq<Ranked>) {
    forall i, j :: 0 <= i < j < |s| ==> s[i].load <= s[j].load
  }

  /** The entries of `s` whose load is `l`, in their order in `s`. */
  function WithLoad(s: seq<Ranked>, l: real): seq<Ranked> {
    if s == [] then [] else (if s[0].load == l then [s[0]] else []) + WithLoad(s[1..], l)
  }

  lemma {:induction false} WithLoadAppend(a: seq<Ranked>, b: seq<Ranked>, l: real)
    ensures WithLoad(a + b, l) == WithLoad(a, l) + WithLoad(b, l)
  {
    if a == [] {
      assert a + b == b;
    } else {
      var head := if a[0].load == l then [a[0]] else [];
      assert (a + b)[0] == a[0];
      assert (a + b)[1..] == a[1..] + b;
      WithLoadAppend(a[1..], b, l);
      assert WithLoad(a + b, l) == head + (WithLoad(a[1..], l) + WithLoad(b, l));
      assert head + (WithLoad(a[1..], l) + WithLoad(b, l)) == (head + WithLoad(a[1..], l)) + WithLoad(b, l);
    }
  }

  lemma SortedCons(y: Ranked, t: seq<Ranked>)
    requires SortedByLoad(t) && (t == [] || y.load <= t[0].load)
    ensures SortedByLoad([y] + t)
  {
    var r := [y] + t;
    forall i, j | 0 <= i < j < |r| ensures r[i].load <= r[j].load {
      if i == 0 && 1 < j {
        assert r[j] == t[j - 1] && t[0].load <= t[j - 1].load;
      }
    }
  }

  /** Puts `x` before the first entry that is not lighter than it. */
  function InsertByLoad(x: Ranked, s: seq<Ranked>): (r: seq<Ranked>)
    requires SortedByLoad(s)
    ensures SortedByLoad(r)
    ensures multiset(r) == multiset(s) + multiset{x}
    ensures r[0] == x || (s != [] && r[0] == s[0])
  {
    if s == [] || x.load <= s[0].load then
      SortedCons(x, s);
      [x] + s
    else
      assert SortedByLoad(s[1..]) by {
        forall i, j | 0 <= i < j < |s[1..]| ensures s[1..][i].load <= s[1..][j].load {
          assert s[1..][i] == s[i + 1] && s[1..][j] == s[j + 1];
        }
      }
      var rest := InsertByLoad(x, s[1..]);
      assert s[1..] != [] ==> s[0].load <= s[1..][0].load;
      SortedCons(s[0], rest);
      assert s == [s[0]] + s[1..];
      assert multiset(s) == multiset{s[0]} + multiset(s[1..]);
      assert multiset([s[0]] + rest) == multiset{s[0]} + multiset(rest);
      [s[0]] + rest
  }

  /** Inserting adds `x` to the entries of its load right before those already there and
      changes no other load's entries. */
  lemma {:induction false} InsertByLoadStable(x: Ranked, s: seq<Ranked>, l: real)
    requires SortedByLoad(s)
    ensures WithLoad(InsertByLoad(x, s), l) == (if x.load == l then [x] else []) + WithLoad(s, l)
  {
    var r := InsertByLoad(x, s);
    if s == [] || x.load <= s[0].load {
      assert r[1..] == s;
    } else {
      var rest := InsertByLoad(x, s[1..]);
      assert r == [s[0]] + rest && r[1..] == rest;
      InsertByLoadStable(x, s[1..], l);
      assert WithLoad(s, l) == (if s[0].load == l then [s[0]] else []) + WithLoad(s[1..], l);
      if s[0].load == l {
        assert x.load != l;
      }
    }
  }

  /** A sort by load, lightest first. */
  function SortByLoad(s: seq<Ranked>): (r: seq<Ranked>)
    ensures SortedByLoad(r)
    ensures multiset(r) == multiset(s)
  {
    if s == [] then []
    else
      var sorted := SortByLoad(s[1..]);
      var r := InsertByLoad(s[0], sorted);
      assert multiset(r) == multiset(s[1..]) + multiset{s[0]};
      assert s == [s[0]] + s[1..];
      r
  }

  /** The sort is stable: for every load, its entries keep their order. */
  lemma {:induction false} SortByLoadStable(s: seq<Ranked>, l: real)
    ensures WithLoad(SortByLoad(s), l) == WithLoad(s, l)
  {
    if s != [] {
      SortByLoadStable(s[1..], l);
      InsertByLoadStable(s[0], SortByLoad(s[1..]), l);
    }
  }

  /** Sequences with the same elements in any order have the same members. */
  lemma SameMembers(a: seq<Ranked>, b: seq<Ranked>)
    requires multiset(a) == multiset(b)
    ensures forall x :: x in a <==> x in b
  {
    forall x ensures x in a <==> x in b {
      assert x in a <==> x in multiset(a);
      assert x in b <==> x in multiset(b);
    }
  }

  /** Two orders of the same entries name the same hosts. */
  lemma HostsOfSameMembers(a: seq<Ranked>, b: seq<Ranked>)
    requires forall x :: x in a <==> x in b
    ensures forall h :: h in Hosts(a) <==> h in Hosts(b)
  {
    forall h | h in Hosts(a) ensures h in Hosts(b) {
      var i :| 0 <= i < |a| && Hosts(a)[i] == h;
      assert a[i] in b;
      var j :| 0 <= j < |b| && b[j] == a[i];
      assert Hosts(b)[j] == h;
    }
    forall h | h in Hosts(b) ensures h in Hosts(a) {
      var i :| 0 <= i < |b| && Hosts(b)[i] == h;
      assert b[i] in a;
      var j :| 0 <= j < |a| && a[j] == b[i];
      assert Hosts(a)[j] == h;
    }
  }

  /** Two connected nodes reporting loads of 20 (0.8 over 4 cores) and 5 (0.1 over 2 cores)
      rank the lighter one first. */
  lemma LighterNodeRanksFirst()
    ensures var statsA := map["cpu" := Object(map["systemLoad" := Number(0.8), "cores" := Number(4.0)])];
            var statsB := map["cpu" := Object(map["systemLoad" := Number(0.1), "cores" := Number(2.0)])];
            && Load(statsA) == Some(20.0) && Load(statsB) == Some(5.0)
            && SortByLoad([Ranked("A", 20.0), Ranked("B", 5.0)]) == [Ranked("B", 5.0), Ranked("A", 20.0)]
  {
    assert SortByLoad([Ranked("A", 20.0), Ranked("B", 5.0)])
        == InsertByLoad(Ranked("A", 20.0), SortByLoad([Ranked("B", 5.0)]));
    assert [Ranked("A", 20.0), Ranked("B", 5.0)][1..] == [Ranked("B", 5.0)];
    assert SortByLoad([Ranked("B", 5.0)]) == [Ranked("B", 5.0)] by {
      assert [Ranked("B", 5.0)][1..] == [];
    }
  }

  function Hosts(s: seq<Ranked>): (r: seq<string>)
    ensures |r| == |s| && forall i :: 0 <= i < |s| ==> r[i] == s[i].host
  {
    if s == [] then [] else [s[0].host] + Hosts(s[1..])
  }

  /** No entry occurs twice. */
  predicate Distinct<T(==)>(s: seq<T>) {
    forall i, j :: 0 <= i < j < |s| ==> s[i] != s[j]
  }

  /** `a` is `b` with some entries left out and the others in their order in `b`. */
  predicate Subsequence(a: seq<string>, b: seq<string>)
    decreases |b|
  {
    || a == []
    || (b != [] && ((a[0] == b[0] && Subsequence(a[1..], b[1..])) || Subsequence(a, b[1..])))
  }

  lemma {:induction false} SubsequenceOfItself(s: seq<string>)
    ensures Subsequence(s, s)
  {
    if s != [] {
      SubsequenceOfItself(s[1..]);
    }
  }

  lemma SubsequenceCons(h: string, a: seq<string>, b: seq<string>)
    requires Subsequence(a, b)
    ensures Subsequence([h] + a, [h] + b)
  {
    assert ([h] + a)[1..] == a && ([h] + b)[1..] == b;
  }

  lemma SubsequenceSkip(h: string, a: seq<string>, b: seq<string>)
    requires Subsequence(a, b)
    ensures Subsequence(a, [h] + b)
  {
    assert ([h] + b)[1..] == b;
  }

  /** Without repeats, the first entry is not among the others, which have no repeats either. */
  lemma DistinctTail(s: seq<string>)
    requires s != [] && Distinct(s)
    ensures Distinct(s[1..]) && s[0] !in s[1..]
  {
    forall i, j | 0 <= i < j < |s[1..]| ensures s[1..][i] != s[1..][j] {
      assert s[1..][i] == s[i + 1] && s[1..][j] == s[j + 1];
    }
    forall k | 0 <= k < |s[1..]| ensures s[1..][k] != s[0] {
      assert s[1..][k] == s[k + 1];
    }
  }

  /** A connected node put in front of the ranking of the hosts after it keeps the ranking,
      and each load's hosts, in iteration order. */
  lemma EligibleCons(x: Ranked, rest: seq<Ranked>, order: seq<string>)
    requires order != [] && x.host == order[0]
    requires forall h :: h in Hosts(rest) ==> h in order[1..]
    requires Distinct(order[1..]) ==> Distinct(Hosts(rest))
    requires Subsequence(Hosts(rest), order[1..])
    requires forall l :: Subsequence(Hosts(WithLoad(rest, l)), order[1..])
    ensures forall h :: h in Hosts([x] + rest) <==> h == x.host || h in Hosts(rest)
    ensures Distinct(order) ==> Distinct(Hosts([x] + rest))
    ensures Subsequence(Hosts([x] + rest), order)
    ensures forall l :: Subsequence(Hosts(WithLoad([x] + rest, l)), order)
  {
    assert order == [x.host] + order[1..];
    assert Hosts([x] + rest) == [x.host] + Hosts(rest);
    if Distinct(order) {
      DistinctTail(order);
    }
    SubsequenceCons(x.host, Hosts(rest), order[1..]);
    forall l ensures Subsequence(Hosts(WithLoad([x] + rest, l)), order) {
      assert ([x] + rest)[1..] == rest;
      var tail := Hosts(WithLoad(rest, l));
      if x.load == l {
        assert WithLoad([x] + rest, l) == [x] + WithLoad(rest, l);
        assert Hosts(WithLoad([x] + rest, l)) == [x.host] + tail;
        SubsequenceCons(x.host, tail, order[1..]);
      } else {
        assert WithLoad([x] + rest, l) == WithLoad(rest, l);
        SubsequenceSkip(x.host, tail, order[1..]);
      }
    }
  }

  /** A host left out of the ranking keeps the ranking of the hosts after it in iteration order. */
  lemma EligibleSkip(rest: seq<Ranked>, order: seq<string>)
    requires order != []
    requires Distinct(order[1..]) ==> Distinct(Hosts(rest))
    requires Subsequence(Hosts(rest), order[1..])
    requires forall l :: Subsequence(Hosts(WithLoad(rest, l)), order[1..])
    ensures Distinct(order) ==> Distinct(Hosts(rest))
    ensures Subsequence(Hosts(rest), order)
    ensures forall l :: Subsequence(Hosts(WithLoad(rest, l)), order)
  {
    if Distinct(order) {
      DistinctTail(order);
    }
    assert order == [order[0]] + order[1..];
    SubsequenceSkip(order[0], Hosts(rest), order[1..]);
    forall l ensures Subsequence(Hosts(WithLoad(rest, l)), order) {
      SubsequenceSkip(order[0], Hosts(WithLoad(rest, l)), order[1..]);
    }
  }

  /** In a sequence without repeats every entry occurs once. */
  lemma {:induction false} OccursOnce(s: seq<Ranked>, x: Ranked)
    requires Distinct(s)
    ensures multiset(s)[x] <= 1
  {
    if s != [] {
      assert Distinct(s[1..]) by {
        forall i, j | 0 <= i < j < |s[1..]| ensures s[1..][i] != s[1..][j] {
          assert s[1..][i] == s[i + 1] && s[1..][j] == s[j + 1];
        }
      }
      OccursOnce(s[1..], x);
      assert s == [s[0]] + s[1..];
      assert multiset(s) == multiset{s[0]} + multiset(s[1..]);
      if s[0] == x {
        forall k | 0 <= k < |s[1..]| ensures s[1..][k] != x {
          assert s[1..][k] == s[k + 1];
        }
        assert x !in s[1..];
      }
    }
  }

  /** A rearrangement of a sequence without repeats has none. */
  lemma DistinctPermutation(a: seq<Ranked>, b: seq<Ranked>)
    requires multiset(a) == multiset(b) && Distinct(b)
    ensures Distinct(a)
  {
    forall i, j | 0 <= i < j < |a| ensures a[i] != a[j] {
      if a[i] == a[j] {
        assert a == a[..j] + a[j..];
        assert a[..j][i] == a[i] && a[j..][0] == a[j];
        assert multiset(a)[a[i]] == multiset(a[..j])[a[i]] + multiset(a[j..])[a[i]];
        OccursOnce(b, a[i]);
      }
    }
  }

  /** Sorting by load keeps the hosts free of repeats and each load's hosts in their order. */
  lemma SortByLoadKeepsOrder(s: seq<Ranked>, order: seq<string>)
    requires Distinct(Hosts(s))
    requires forall l :: Subsequence(Hosts(WithLoad(s, l)), order)
    ensures Distinct(Hosts(SortByLoad(s)))
    ensures forall l :: Subsequence(Hosts(WithLoad(SortByLoad(s), l)), order)
  {
    var r := SortByLoad(s);
    forall l ensures Subsequence(Hosts(WithLoad(r, l)), order) {
      SortByLoadStable(s, l);
    }
    assert Distinct(s) by {
      forall i, j | 0 <= i < j < |s| ensures s[i] != s[j] {
        assert Hosts(s)[i] != Hosts(s)[j];
      }
    }
    DistinctPermutation(r, s);
    SameMembers(r, s);
    forall i, j | 0 <= i < j < |r| ensures Hosts(r)[i] != Hosts(r)[j] {
      assert r[i] in s && r[j] in s;
    }
  }

  // ---------------------------------------------------------------------------
  // Moving a player

  /** `state.position ? state.position + 2000 : 2000`: the start time on the new node. */
  function StartTime(state: Obj): (t: real)
    ensures (forall p :: Field(state, "position") != Some(Number(p))) ==> t == SkipAhead
    ensures forall p :: Field(state, "position") == Some(Number(p)) ==> t == p + SkipAhead
  {
    if "position" in state && state["position"].Number? && Truthy(state["position"])
    then state["position"].n + SkipAhead
    else SkipAhead
  }

  /** How many of a chain of sends are made when each waits for the previous one to
      succeed: all of them, or up to and including the first that fails. */
  function Attempted(ok: seq<bool>): (n: nat)
    ensures n <= |ok|
    ensures forall i :: 0 <= i < n - 1 ==> ok[i]
    ensures n < |ok| ==> 0 < n && !ok[n - 1]
  {
    if ok == [] then 0 else if ok[0] then 1 + Attempted(ok[1..]) else 1
  }

  /** The frames a moved player sends its new node, in order: its voice grant, volume,
      equalizer, and its track from the start time. */
  lemma AttemptedOfFour(ok: seq<bool>)
    requires |ok| == 4
    ensures Attempted(ok) == if !ok[0] then 1 else if !ok[1] then 2 else if !ok[2] then 3 else 4
  {
    assert ok[1..][1..][1..][1..] == [];
  }

  function MoveFrames(guild: string, voiceUpdateState: Obj, state: Obj, track: Option<string>): seq<WireAction>
    requires "volume" in state
  {
    [ Frame(Command("voiceUpdate", voiceUpdateState, guild)),
      Frame(Command("volume", map["volume" := state["volume"]], guild)) ]
    + ReplayFrames(guild, state, track)
  }

  function ReplayFrames(guild: string, state: Obj, track: Option<string>): seq<WireAction> {
    [ Frame(Command("equalizer", Put(map[], "bands", Field(state, "equalizer")), guild)),
      Frame(Command("play", map["startTime" := Number(StartTime(state))]["track" := TrackValue(track)], guild)) ]
  }

  /** A moved player sends, for its guild and in this order: its voice grant, its volume,
      and then the frames of `ReplayFramesCarryState`. */
  lemma MoveFramesCarryState(guild: string, voiceUpdateState: Obj, state: Obj, track: Option<string>)
    requires "volume" in state
    ensures var f := MoveFrames(guild, voiceUpdateState, state, track);
      && |f| == 4 && f[2..] == ReplayFrames(guild, state, track)
      && f[0].Frame? && Field(f[0].msg, "guildId") == Some(String(guild))
      && Field(f[0].msg, "op") == Some(String("voiceUpdate"))
      && (forall k :: k in voiceUpdateState && k != "op" && k != "guildId" ==> Field(f[0].msg, k) == Some(voiceUpdateState[k]))
      && f[1].Frame? && Field(f[1].msg, "guildId") == Some(String(guild))
      && Field(f[1].msg, "op") == Some(String("volume")) && Field(f[1].msg, "volume") == Some(state["volume"])
  {
    var f := MoveFrames(guild, voiceUpdateState, state, track);
    assert f[0].msg == Command("voiceUpdate", voiceUpdateState, guild);
    assert f[1].msg == Command("volume", map["volume" := state["volume"]], guild);
    CommandEnvelope("voiceUpdate", voiceUpdateState, guild);
  }

  /** A player's replay sends, for its guild and in this order: its equalizer (the state's
      bands, absent when the state has none) and its track from the start time. */
  lemma ReplayFramesCarryState(guild: string, state: Obj, track: Option<string>)
    ensures var f := ReplayFrames(guild, state, track);
      && |f| == 2
      && f[0].Frame? && Field(f[0].msg, "guildId") == Some(String(guild))
      && Field(f[0].msg, "op") == Some(String("equalizer")) && Field(f[0].msg, "bands") == Field(state, "equalizer")
      && f[1].Frame? && Field(f[1].msg, "guildId") == Some(String(guild))
      && Field(f[1].msg, "op") == Some(String("play"))
      && Field(f[1].msg, "startTime") == Some(Number(StartTime(state)))
      && Field(f[1].msg, "track") == Some(TrackValue(track))
  {
    var f := ReplayFrames(guild, state, track);
    var equalizer := Put(map[], "bands", Field(state, "equalizer"));
    assert f[0].msg == Command("equalizer", equalizer, guild);
    assert Field(equalizer, "bands") == Field(state, "equalizer");
  }

  lemma PutOwnField(o: Obj, k: string)
    ensures Put(o, k, Field(o, k)) == o
  {
  }

  class PlayerManager {
    const user: string
    const shards: nat
    /** The guilds the client knows; `client.guilds` is not changed in this model. */
    const guilds: set<string>

    var nodes: map<string, LavalinkNode>
    /** The hosts in the order they were first stored, as a Map iterates them. */
    var nodeOrder: seq<string>
    var players: map<string, Player>
    var voiceServers: map<string, VoiceServerUpdate>
    var voiceStates: map<string, VoiceStateUpdate>
    /** Packets sent to the gateway through the client. */
    var gateway: seq<GatewayPacket>

    ghost predicate Valid()
      reads this
    {
      && NodesListed()
      && (forall g :: g in players ==> players[g].id == g)
      && (forall g :: g in voiceServers ==> voiceServers[g].guildId == g)
      && (forall g :: g in voiceStates ==>
            voiceStates[g].guildId == g && voiceStates[g].userId == user && InChannel(voiceStates[g]))
    }

    /** `nodeOrder` lists every stored host once. */
    ghost predicate NodesListed()
      reads this
    {
      && (forall h :: h in nodes <==> h in nodeOrder)
      && (forall i, j :: 0 <= i < j < |nodeOrder| ==> nodeOrder[i] != nodeOrder[j])
    }

    ghost predicate PlayersValid()
      reads this, players.Values
    {
      forall g :: g in players ==> players[g].Valid()
    }

    /** The player of a guild, as a frame. */
    ghost function PlayerAt(guild: string): set<Player>
      reads this
    {
      if guild in players then {players[guild]} else {}
    }

    /** The node of a guild's player, as a frame. */
    ghost function NodeAt(guild: string): set<LavalinkNode>
      reads this, players.Values
    {
      if guild in players then {players[guild].node} else {}
    }

    function Buffered(): Grants
      reads this
    {
      Grants(voiceServers, voiceStates)
    }

    /** The guild is known to the client and has a player. */
    predicate Ready(guild: string)
      reads this
    {
      guild in guilds && guild in players
    }

    /** A command the guild's player sends now is accepted. */
    predicate Accepting(guild: string, delivered: bool)
      reads this, players.Values, NodeAt(guild)
    {
      guild in players && players[guild].Accepts(delivered)
    }

    /** The guild's player was handed `dispatched` (if any) by `_attemptConnection`, which
        settled as `r`; without a dispatch, nothing about the player changed. */
    twostate predicate Handed(guild: string, dispatched: Option<Obj>, delivered: bool, r: Settled)
      reads this, players.Values, NodeAt(guild)
    {
      && players == old(players)
      && (dispatched.None? ==>
            && r == Resolved(false)
            && (guild in players ==>
                  && players[guild].voiceUpdateState == old(players[guild].voiceUpdateState)
                  && players[guild].node.wire == old(players[guild].node.wire)))
      && (dispatched.Some? ==>
            && guild in players
            && players[guild].voiceUpdateState == dispatched.value
            && players[guild].node.wire == old(players[guild].node.wire) + old(players[guild].Sent("voiceUpdate", dispatched.value))
            && r == if old(Accepting(guild, delivered)) then Resolved(true) else Rejected)
    }

    constructor (user: string, shards: Option<nat>, guilds: set<string>, options: seq<NodeOptions>)
      ensures Valid()
      ensures this.user == user && this.shards == NatOr(shards, 1) && this.guilds == guilds
      ensures nodes.Keys == set o | o in options :: o.host
      ensures players == map[] && voiceServers == map[] && voiceStates == map[] && gateway == []
    {
      this.user := user;
      this.shards := NatOr(shards, 1);
      this.guilds := guilds;
      nodes := map[];
      nodeOrder := [];
      players := map[];
      voiceServers := map[];
      voiceStates := map[];
      gateway := [];
      new;
      var i := 0;
      while i < |options|
        invariant 0 <= i <= |options|
        invariant Valid()
        invariant nodes.Keys == set o | o in options[..i] :: o.host
        invariant players == map[] && voiceServers == map[] && voiceStates == map[] && gateway == []
      {
        assert options[..i + 1] == options[..i] + [options[i]];
        var _ := CreateNode(options[i]);
        i := i + 1;
      }
      assert options[..i] == options;
    }

    /** Stores a new node under its host, replacing a node already stored there. */
    method CreateNode(options: NodeOptions) returns (node: LavalinkNode)
      requires Valid()
      modifies this`nodes, this`nodeOrder
      ensures Valid()
      ensures fresh(node) && nodes == old(nodes)[options.host := node]
      ensures nodeOrder == if options.host in old(nodes) then old(nodeOrder) else old(nodeOrder) + [options.host]
      ensures node.Valid() && node.host == options.host && node.user == user && node.shards == shards
      ensures node.ws == Some(Connecting) && node.stats == InitialStats() && node.pending == {}
    {
      node := new LavalinkNode(options, user, shards);
      if options.host !in nodes {
        nodeOrder := nodeOrder + [options.host];
      }
      nodes := nodes[options.host := node];
    }

    /** Forgets the node under `host`, if any. Players bound to it stay bound to it. */
    method RemoveNode(host: string) returns (removed: bool)
      requires Valid()
      modifies this`nodes, this`nodeOrder
      ensures Valid()
      ensures removed == (host in old(nodes))
      ensures nodes == old(nodes) - {host}
      ensures forall h :: h in nodeOrder <==> h in old(nodeOrder) && h != host
      ensures Subsequence(nodeOrder, old(nodeOrder))
    {
      if host !in nodes {
        SubsequenceOfItself(nodeOrder);
        return false;
      }
      nodeOrder := Without(nodeOrder, host);
      nodes := nodes - {host};
      removed := true;
    }

    /** `sendWS`: the packet goes out only for a guild the client knows. */
    method SendWS(packet: GatewayPacket)
      modifies this`gateway
      ensures gateway == old(gateway) + if packet.guildId in guilds then [packet] else []
    {
      if packet.guildId in guilds {
        gateway := gateway + [packet];
      }
    }

    /** Returns the guild's player if it has one, sending nothing. Otherwise asks the gateway
        to join the channel and creates the player on the node under `host`; with no such
        node it fails after the packet has gone out. */
    method Join(guild: string, channel: string, host: string, selfMute: Option<bool>, selfDeaf: Option<bool>)
      returns (r: JoinResult)
      requires Valid()
      modifies this`gateway, this`players
      ensures Valid()
      ensures old(guild in players) ==> r == Joined(old(players[guild])) && players == old(players) && gateway == old(gateway)
      ensures old(guild !in players) ==>
        gateway == old(gateway) + (if guild in guilds
                                   then [VoiceStateIntent(guild, Some(channel), selfMute.GetOr(false), selfDeaf.GetOr(false))]
                                   else [])
      ensures old(guild !in players) && host !in nodes ==> r == InvalidHost(host) && players == old(players)
      ensures old(guild !in players) && host in nodes ==>
        && r.Joined? && fresh(r.player)
        && players == old(players)[guild := r.player]
        && r.player.node == nodes[host] && r.player.id == guild && r.player.channel == channel
        && r.player.Initial()
    {
      if guild in players {
        return Joined(players[guild]);
      }
      SendWS(VoiceStateIntent(guild, Some(channel), selfMute.GetOr(false), selfDeaf.GetOr(false)));
      r := SpawnPlayer(guild, channel, host);
    }

    method SpawnPlayer(guild: string, channel: string, host: string) returns (r: JoinResult)
      requires Valid()
      modifies this`players
      ensures Valid()
      ensures guild in old(players) ==> r == Joined(old(players[guild])) && players == old(players)
      ensures guild !in old(players) && host !in nodes ==> r == InvalidHost(host) && players == old(players)
      ensures guild !in old(players) && host in nodes ==>
        && r.Joined? && fresh(r.player)
        && players == old(players)[guild := r.player]
        && r.player.node == nodes[host] && r.player.id == guild && r.player.channel == channel
        && r.player.Initial()
    {
      if guild in players {
        return Joined(players[guild]);
      }
      if host !in nodes {
        return InvalidHost(host);
      }
      var player := new Player(nodes[host], guild, channel);
      players := players[guild := player];
      r := Joined(player);
    }

    /** Always asks the gateway to leave the channel. A guild with a player then loses its
        listeners, has it destroyed on its node and, once that resolves, forgotten. */
    method Leave(guild: string, delivered: bool) returns (r: Settled)
      requires Valid()
      modifies this`gateway, this`players, PlayerAt(guild)`listening, PlayerAt(guild)`handlersAttached, NodeAt(guild)`wire
      ensures Valid()
      ensures gateway == old(gateway) + if guild in guilds then [VoiceStateIntent(guild, None, false, false)] else []
      ensures guild !in old(players) ==> r == Resolved(false) && players == old(players)
      ensures guild in old(players) ==>
        var p := old(players[guild]);
        && p.listening == {} && !p.handlersAttached
        && p.node.wire == old(p.node.wire) + old(p.Sent("destroy", map[]))
        && r == (if old(p.Accepts(delivered)) then Resolved(true) else Rejected)
        && players == if r.Resolved? then old(players) - {guild} else old(players)
    {
      SendWS(VoiceStateIntent(guild, None, false, false));
      if guild !in players {
        return Resolved(false);
      }
      var player := players[guild];
      player.RemoveAllListeners();
      r := player.Destroy(delivered);
      if r.Rejected? {
        return;
      }
      players := players - {guild};
      r := Resolved(true);
    }

    /** Moves `player` to `target`: destroyed on its node, rebound, then given its voice grant,
        volume, equalizer and track, resuming 2000 ms past its last known position. Each step
        waits for the previous one; the first rejection ends the move. */
    method Switch(player: Player, target: LavalinkNode, delivered: seq<bool>, now: int) returns (r: Settled)
      requires player.Valid()
      requires |delivered| == 5
      modifies player`node, player`voiceUpdateState, player`state, player`track, player`playing, player`timestamp
      modifies player.node`wire, target`wire
      ensures player.Valid()
      ensures player.state == old(player.state) && player.voiceUpdateState == old(player.voiceUpdateState)
      ensures var from := old(player.node);
        var moved := old(from.Connected()) && delivered[0];
        var onTarget := if moved && old(target.Connected()) then Attempted(delivered[1..]) else 0;
        var frames := MoveFrames(player.id, old(player.voiceUpdateState), old(player.state), old(player.track));
        var destroy := if old(from.Connected()) then [Frame(Command("destroy", map[], player.id))] else [];
        && player.node == (if moved then target else from)
        && (from == target ==> target.wire == old(target.wire) + destroy + frames[..onTarget])
        && (from != target ==> from.wire == old(from.wire) + destroy && target.wire == old(target.wire) + frames[..onTarget])
        && (r == if moved && old(target.Connected()) && delivered[1] && delivered[2] && delivered[3] && delivered[4]
                 then Resolved(true) else Rejected)
      ensures r.Resolved? ==> player.track == old(player.track) && player.playing && player.timestamp == Some(now)
      ensures r.Rejected? ==>
        player.track == old(player.track) && player.playing == old(player.playing) && player.timestamp == old(player.timestamp)
    {
      var voiceUpdateState := player.voiceUpdateState;
      r := player.Destroy(delivered[0]);
      if r.Rejected? {
        return;
      }
      player.node := target;
      r := Restore(player, voiceUpdateState, delivered[1..], now);
    }

    /** `_attemptConnection` for one guild. */
    method AttemptConnection(guild: string, delivered: bool) returns (r: Settled)
      requires Valid()
      modifies this`voiceServers, this`voiceStates, PlayerAt(guild)`voiceUpdateState, NodeAt(guild)`wire
      ensures Valid()
      ensures var step := Attempt(old(Buffered()), guild, old(Ready(guild)), old(Accepting(guild, delivered)));
        Buffered() == step.grants && Handed(guild, step.dispatched, delivered, r)
    {
      if guild !in voiceServers || guild !in voiceStates || guild !in guilds || guild !in players {
        return Resolved(false);
      }
      var payload := VoiceUpdate(voiceStates[guild], voiceServers[guild]);
      r := players[guild].Connect(payload, delivered);
      if r.Rejected? {
        return;
      }
      voiceServers := voiceServers - {guild};
      voiceStates := voiceStates - {guild};
      r := Resolved(true);
    }

    method VoiceServerUpdate(data: VoiceServerUpdate, delivered: bool) returns (r: Settled)
      requires Valid()
      modifies this`voiceServers, this`voiceStates, PlayerAt(data.guildId)`voiceUpdateState, NodeAt(data.guildId)`wire
      ensures Valid()
      ensures var step := ServerGrant(old(Buffered()), data, old(Ready(data.guildId)), old(Accepting(data.guildId, delivered)));
        Buffered() == step.grants && Handed(data.guildId, step.dispatched, delivered, r)
    {
      voiceServers := voiceServers[data.guildId := data];
      r := AttemptConnection(data.guildId, delivered);
    }

    method VoiceStateUpdate(data: VoiceStateUpdate, delivered: bool) returns (r: Settled)
      requires Valid()
      modifies this`voiceServers, this`voiceStates, PlayerAt(data.guildId)`voiceUpdateState, NodeAt(data.guildId)`wire
      ensures Valid()
      ensures var step := StateGrant(old(Buffered()), data, user, old(Ready(data.guildId)), old(Accepting(data.guildId, delivered)));
        Buffered() == step.grants && Handed(data.guildId, step.dispatched, delivered, r)
    {
      if data.userId != user {
        return Resolved(false);
      }
      if InChannel(data) {
        voiceStates := voiceStates[data.guildId := data];
        r := AttemptConnection(data.guildId, delivered);
        return;
      }
      voiceServers := voiceServers - {data.guildId};
      voiceStates := voiceStates - {data.guildId};
      r := Resolved(false);
    }

    /** Every connected node has a computable load. */
    predicate LoadsKnown()
      reads this, nodes.Values
    {
      forall h :: h in nodes && nodes[h].Connected() ==> Load(nodes[h].stats).Some?
    }

    /** The connected nodes among `order`, with their loads, in that order. */
    function Eligible(order: seq<string>): (r: seq<Ranked>)
      reads this, nodes.Values
      requires forall h :: h in order ==> h in nodes
      requires LoadsKnown()
      ensures forall x :: x in r ==> x.host in order && nodes[x.host].Connected() && Load(nodes[x.host].stats) == Some(x.load)
      ensures forall h :: h in Hosts(r) <==> h in order && nodes[h].Connected()
      ensures Subsequence(Hosts(r), order)
      ensures forall l :: Subsequence(Hosts(WithLoad(r, l)), order)
      ensures Distinct(order) ==> Distinct(Hosts(r))
    {
      if order == [] then []
      else
        var rest := Eligible(order[1..]);
        if nodes[order[0]].Connected() then
          var x := Ranked(order[0], Load(nodes[order[0]].stats).value);
          EligibleCons(x, rest, order);
          [x] + rest
        else
          EligibleSkip(rest, order);
          rest
    }

    /** `idealNodes`: the connected nodes with their loads, lightest first. Each host occurs
        once, and nodes of equal load keep the order in which they were stored. */
    function IdealNodes(): (r: seq<Ranked>)
      reads this, nodes.Values
      requires NodesListed() && LoadsKnown()
      ensures forall h :: h in Hosts(r) <==> h in nodes && nodes[h].Connected()
      ensures forall x :: x in r ==> x.host in nodes && Load(nodes[x.host].stats) == Some(x.load)
      ensures SortedByLoad(r)
      ensures Distinct(Hosts(r))
      ensures forall l :: Subsequence(Hosts(WithLoad(r, l)), nodeOrder)
    {
      var eligible := Eligible(nodeOrder);
      var ranked := SortByLoad(eligible);
      SameMembers(ranked, eligible);
      HostsOfSameMembers(ranked, eligible);
      SortByLoadKeepsOrder(eligible, nodeOrder);
      ranked
    }

    /** The routing step of a node's message handler: a message whose `guildId` names a
        guild with a player is emitted on that player under the message's `op`. */
    method Route(msg: Obj, delivered: bool) returns (forward: Option<string>)
      requires PlayersValid()
      modifies Receiver(msg)`playing, Receiver(msg)`track, Receiver(msg)`timestamp, Receiver(msg)`emitted, Receiver(msg)`state
      modifies ReceiverNode(msg)`wire
      ensures PlayersValid()
      ensures forward == ForwardTarget(msg, players.Keys)
      ensures forward.Some? ==> Dispatched(players[forward.value], Field(msg, "op").GetOr(Null), msg, delivered)
    {
      forward := ForwardTarget(msg, players.Keys);
      if forward.Some? {
        players[forward.value].Emit(Field(msg, "op").GetOr(Null), msg, delivered);
      }
    }

    ghost function Receiver(msg: Obj): set<Player>
      reads this
    {
      var target := ForwardTarget(msg, players.Keys);
      if target.Some? then {players[target.value]} else {}
    }

    ghost function ReceiverNode(msg: Obj): set<LavalinkNode>
      reads this, players.Values
    {
      var target := ForwardTarget(msg, players.Keys);
      if target.Some? then {players[target.value].node} else {}
    }
  }

  /** `s` without `x`, order kept. */
  function Without(s: seq<string>, x: string): (r: seq<string>)
    requires forall i, j :: 0 <= i < j < |s| ==> s[i] != s[j]
    ensures forall y :: y in r <==> y in s && y != x
    ensures forall i, j :: 0 <= i < j < |r| ==> r[i] != r[j]
    ensures Subsequence(r, s)
  {
    if s == [] then []
    else
      assert s == [s[0]] + s[1..];
      if s[0] == x then
        SubsequenceSkip(s[0], Without(s[1..], x), s[1..]);
        Without(s[1..], x)
      else
        assert s[0] !in s[1..];
        SubsequenceCons(s[0], Without(s[1..], x), s[1..]);
        [s[0]] + Without(s[1..], x)
  }

  /** The second half of a move: the player, already bound to its new node, sends its voice
      grant and volume, then replays its equalizer and track, each once the previous send
      has resolved. */
  method Restore(player: Player, voiceUpdateState: Obj, delivered: seq<bool>, now: int) returns (r: Settled)
    requires player.Valid()
    requires |delivered| == 4
    modifies player`voiceUpdateState, player`state, player`track, player`playing, player`timestamp, player.node`wire
    ensures player.Valid()
    ensures player.state == old(player.state) && player.voiceUpdateState == voiceUpdateState
    ensures var sent := if old(player.node.Connected()) then Attempted(delivered) else 0;
      player.node.wire == old(player.node.wire)
        + MoveFrames(player.id, voiceUpdateState, old(player.state), old(player.track))[..sent]
    ensures r == if old(player.node.Connected()) && delivered[0] && delivered[1] && delivered[2] && delivered[3]
                 then Resolved(true) else Rejected
    ensures r.Resolved? ==> player.track == old(player.track) && player.playing && player.timestamp == Some(now)
    ensures r.Rejected? ==>
      player.track == old(player.track) && player.playing == old(player.playing) && player.timestamp == old(player.timestamp)
  {
    var state := player.state;
    ghost var frames := MoveFrames(player.id, voiceUpdateState, state, player.track);
    ghost var wire := player.node.wire;
    assert state["volume" := state["volume"]] == state;
    AttemptedOfFour(delivered);
    r := player.Connect(voiceUpdateState, delivered[0]);
    if r.Rejected? {
      return;
    }
    r := player.Volume(state["volume"], delivered[1]);
    if r.Rejected? {
      return;
    }
    assert player.node.wire == wire + frames[..2];
    r := Replay(player, delivered[2..], now);
    assert frames == frames[..2] + frames[2..];
  }

  /** The end of a move: the equalizer, then the track from the start time. */
  method Replay(player: Player, delivered: seq<bool>, now: int) returns (r: Settled)
    requires player.Valid()
    requires |delivered| == 2
    modifies player`state, player`track, player`playing, player`timestamp, player.node`wire
    ensures player.Valid()
    ensures player.state == old(player.state)
    ensures var sent := if !old(player.node.Connected()) then 0 else if delivered[0] then 2 else 1;
      player.node.wire == old(player.node.wire) + ReplayFrames(player.id, old(player.state), old(player.track))[..sent]
    ensures r == if old(player.node.Connected()) && delivered[0] && delivered[1] then Resolved(true) else Rejected
    ensures r.Resolved? ==> player.track == old(player.track) && player.playing && player.timestamp == Some(now)
    ensures r.Rejected? ==>
      player.track == old(player.track) && player.playing == old(player.playing) && player.timestamp == old(player.timestamp)
  {
    var state := player.state;
    PutOwnField(state, "equalizer");
    r := player.Equalizer(Field(state, "equalizer"), delivered[0]);
    if r.Rejected? {
      return;
    }
    r := player.Play(player.track, map["startTime" := Number(StartTime(state))], delivered[1], now);
  }
}
