/** The relay as the program runs it: an object whose methods update its indexes, queues and counters in
    place, loop by loop. Each method is proved to take the relay through one step of its specification. */
module RelayObject {
  import opened Types
  import opened RateLimit
  import opened RelayState
  import opened RelayIndex
  import opened RelayRuns
  import opened RelayFrames
  import opened RelayNotices
  import opened RelayCounts
  import opened RelayForward

  // ---------------------------------------------------------------- what the loops add up to

  /** One frame sent to every session of a set. */
  function SentTo(all: Sessions, ids: set<SessionId>, f: Frame, depth: nat): Sessions {
    map i | i in all :: if i in ids then Send(all[i], [f], depth) else all[i]
  }

  lemma SentToNobody(all: Sessions, f: Frame, depth: nat)
    ensures SentTo(all, {}, f, depth) == all
  {
  }

  lemma SentToMore(all: Sessions, ids: set<SessionId>, w: SessionId, f: Frame, depth: nat)
    requires w in all && w !in ids
    ensures var part := SentTo(all, ids, f, depth);
      w in part && part[w := Send(part[w], [f], depth)] == SentTo(all, ids + {w}, f, depth)
  {
    hide Send;
  }

  function AsSet(ids: seq<SessionId>): set<SessionId> {
    set i | i in ids
  }

  predicate MayMesh(s: State, id: SessionId) {
    id in s.sessions && s.sessions[id].info.canMesh
  }

  /** A session set lists exactly the live sessions of its key, each once. */
  lemma GroupIsLive(s: State, k: NodeKey)
    requires Sound(s) && k in s.index.peers
    ensures var ids := s.index.peers[k].sessions;
      && Increasing(ids)
      && forall i :: i in ids <==> i in s.sessions && s.sessions[i].info.key == k && Live(s, i)
  {
    hide PickActive, RouteRefs, ActiveRefs, IdsBelow;
    assert Agrees(s.index, k);
    assert GroupRefs(s.index.peers, s.sessions);
  }

  function Warn(x: Session, depth: nat): Session {
    Send(x.(duplicate := true), [Health(DUPLICATE_TEXT)], depth)
  }

  function WarnedAmong(all: Sessions, ids: seq<SessionId>, depth: nat): Sessions {
    map i | i in all :: if i in ids then Warn(all[i], depth) else all[i]
  }

  function ClosedAmong(all: Sessions, ids: seq<SessionId>): Sessions {
    map i | i in all :: if i in ids then all[i].(closed := true) else all[i]
  }

  /** One frame sent to whoever is the current route of a key of the set. */
  function ToldTo(all: Sessions, active: map<NodeKey, SessionId>, keys: set<NodeKey>, f: Frame, depth: nat): Sessions {
    map i | i in all ::
      if all[i].info.key in keys && all[i].info.key in active && active[all[i].info.key] == i
      then Send(all[i], [f], depth) else all[i]
  }

  lemma ToldNobody(all: Sessions, active: map<NodeKey, SessionId>, f: Frame, depth: nat)
    ensures ToldTo(all, active, {}, f, depth) == all
  {
  }

  lemma ToldMore(all: Sessions, active: map<NodeKey, SessionId>, keys: set<NodeKey>, k: NodeKey, f: Frame, depth: nat)
    requires ActiveRefs(active, all) && k !in keys
    ensures var part := ToldTo(all, active, keys, f, depth);
      && part.Keys == all.Keys
      && ToldTo(all, active, keys + {k}, f, depth) ==
         if k in active then part[active[k] := Send(part[active[k]], [f], depth)] else part
  {
    hide Send;
  }

  /** The announcement made to the sessions of some keys. */
  function RestartedAmong(s: State, keys: set<NodeKey>, f: Frame): Sessions {
    map i | i in s.sessions ::
      if s.sessions[i].info.key in keys && Live(s, i) then Send(s.sessions[i], [f], s.depth) else s.sessions[i]
  }

  /** The reverse paths once `key` is gone from the entries of `done`. */
  function PathsCleared(paths: Paths, key: NodeKey, done: set<NodeKey>): Paths {
    map a | a in paths :: if a in done then paths[a] - {key} else paths[a]
  }

  /** The duplicate warnings followed by the presence broadcast are what registering offers. */
  lemma RegisterLoops(x: Index, all: Sessions, info: Info, depth: nat)
    requires x.watchers <= all.Keys && x.nextId !in x.watchers
    ensures var warned := if |Joined(x, info.key)| > 1 then WarnedAmong(all, Joined(x, info.key), depth) else all;
      SentTo(warned, x.watchers - {x.nextId}, PresentFrame(info.key, info), depth) ==
          RegisteredSessions(x, all, info, depth)
  {
    hide PushAll, Joined, PresentFrame;
    var ids, f := Joined(x, info.key), PresentFrame(info.key, info);
    var warned := if |ids| > 1 then WarnedAmong(all, ids, depth) else all;
    forall i | i in all
      ensures SentTo(warned, x.watchers - {x.nextId}, f, depth)[i] == RegisteredSessions(x, all, info, depth)[i]
    {
      var dup := |ids| > 1 && i in ids;
      var b := all[i].box;
      PushNone(b, f, depth);
      PushAllCat(b, [Health(DUPLICATE_TEXT)], [f], depth);
      assert RegisterEmit(x, info, i) ==
             if dup then (if i in x.watchers then [Health(DUPLICATE_TEXT)] + [f] else [Health(DUPLICATE_TEXT)])
             else if i in x.watchers then [f] else [];
    }
  }

  lemma EraseEmits(s: State, key: NodeKey, id: SessionId, i: SessionId)
    requires i in s.sessions
    ensures var gone := PeerGone(key, DISCONNECTED);
      var x := s.sessions[i];
      var y := if i in s.index.watchers - {id} then Send(x, [gone], s.depth) else x;
      Send(x, EraseEmit(s, key, id, i), s.depth) == if HeardFrom(s, key, i) then Send(y, [gone], s.depth) else y
  {
    hide PushAll, HeardFrom;
    var gone, b := PeerGone(key, DISCONNECTED), s.sessions[i].box;
    PushNone(b, gone, s.depth);
    PushAllCat(b, [gone], [gone], s.depth);
    var watching, listening := i in s.index.watchers && i != id, HeardFrom(s, key, i);
    assert EraseEmit(s, key, id, i) ==
           if watching then (if listening then [gone] + [gone] else [gone]) else if listening then [gone] else [];
  }

  /** The presence broadcast followed by the reverse-path notices are what erasing a key offers. */
  lemma EraseLoops(s: State, id: SessionId)
    requires id in s.sessions
    ensures var key := s.sessions[id].info.key;
      var gone := PeerGone(key, DISCONNECTED);
      var heard := if key in s.paths then s.paths[key] else {};
      ToldTo(SentTo(s.sessions, s.index.watchers - {id}, gone, s.depth), s.index.active - {key}, heard, gone, s.depth)
      == ErasedSessions(s, key, id)
  {
    hide PushAll, EraseEmit;
    var key := s.sessions[id].info.key;
    var gone := PeerGone(key, DISCONNECTED);
    var heard := if key in s.paths then s.paths[key] else {};
    var first := SentTo(s.sessions, s.index.watchers - {id}, gone, s.depth);
    forall i | i in s.sessions
      ensures ToldTo(first, s.index.active - {key}, heard, gone, s.depth)[i] == ErasedSessions(s, key, id)[i]
    {
      EraseEmits(s, key, id, i);
      assert first[i].info.key == s.sessions[i].info.key;
    }
  }

  class Relay {
    var peers: map<NodeKey, PeerSet>
    var active: map<NodeKey, SessionId>
    var reversePaths: Paths
    var watchers: set<SessionId>
    var meshRoutes: map<NodeKey, seq<MeshRoute>>
    var nextId: SessionId
    const depth: nat
    /** The session handles, by id. */
    var sessions: Sessions
    /** The senders of mesh connections, by id. */
    var channels: map<ChannelId, Channel>
    var stats: Stats
    /** Everything that was done to the relay since it was made. */
    ghost var history: Run

    function Value(): State
      reads this
    {
      State(Index(peers, active, watchers, nextId), sessions, reversePaths, Mesh(meshRoutes, channels), stats, depth)
    }

    /** The relay is where a run of its operations leads, so whatever holds of every run holds of it. */
    ghost predicate Valid()
      reads this
    {
      Sound(Value()) && IsRun(history) && Last(history) == Value()
    }

    /** Writes an operation done in state s into the history. */
    ghost method Record(s: State, op: Op, now: real)
      requires Sound(s) && IsRun(history) && Last(history) == s && Enabled(s, op)
      modifies `history
      ensures history == Extend(old(history), op, now) && IsRun(history)
      ensures Last(history) == Step(s, op, now) && Sound(Step(s, op, now))
    {
      hide IsRun, Enabled, Step, Agreement;
      SoundStep(s, op, now);
      ExtendIsRun(history, op, now);
      history := Extend(history, op, now);
    }

    /** What every run keeps: the indexes agree, the books balance, every session is told whether it is a
        duplicate, and the queues are first in, first out within their bound. */
    lemma Keeps()
      requires Valid()
      ensures Sound(Value()) && Balanced(Value()) && HealthOk(Value()) && BoxesOk(Value())
    {
      hide Sound, Balanced, HealthOk, BoxesOk, Next;
      BooksBalance(history, |history.ops|);
      HealthAgreement(history, |history.ops|);
      QueuesAreFifo(history, |history.ops|);
    }

    constructor (queueDepth: nat)
      ensures Valid() && Value() == Init(queueDepth)
      ensures depth == (if queueDepth >= 1 then queueDepth else 1) && nextId == 1
      ensures peers == map[] && active == map[] && reversePaths == map[] && watchers == {} && meshRoutes == map[]
      ensures sessions == map[] && channels == map[] && stats == Stats(0, 0, 0, 0, 0, 0, 0, 0, 0, [])
    {
      peers, active, reversePaths, watchers, meshRoutes := map[], map[], map[], {}, map[];
      nextId := 1;
      depth := if queueDepth < 1 then 1 else queueDepth;
      sessions, channels := map[], map[];
      stats := Stats(0, 0, 0, 0, 0, 0, 0, 0, 0, []);
      history := Start(queueDepth);
      new;
      InitAgrees(queueDepth);
      StartIsRun(queueDepth);
    }

    // -------------------------------------------------------------- sending

    method TrySend(id: SessionId, f: Frame) returns (ok: bool)
      requires id in sessions
      modifies `sessions
      ensures ok == CanTake(old(sessions)[id].box, depth)
      ensures sessions == old(sessions)[id := Send(old(sessions)[id], [f], depth)]
      ensures var b := old(sessions)[id].box;
        && ok == (!b.receiverGone && |b.queue| < depth)
        && sessions[id].box.queue == if ok then b.queue + [f] else b.queue
    {
      var x := sessions[id];
      ok := !x.box.receiverGone && |x.box.queue| < depth;
      if ok {
        sessions := sessions[id :=
            x.(box := x.box.(queue := x.box.queue + [f], offers := x.box.offers + [Offer(f, true)]))];
      } else {
        sessions := sessions[id := x.(box := x.box.(offers := x.box.offers + [Offer(f, false)]))];
      }
      PushNone(x.box, f, depth);
    }

    /** `broadcast_presence`, in whatever order the watchers come. */
    method BroadcastPresence(id: SessionId, f: Frame)
      requires watchers <= sessions.Keys
      modifies `sessions
      ensures sessions == SentTo(old(sessions), watchers - {id}, f, depth)
    {
      hide Send, CanTake, SentTo;
      var todo := watchers;
      ghost var done: set<SessionId> := {};
      SentToNobody(sessions, f, depth);
      while todo != {}
        invariant todo <= watchers && done == watchers - todo - {id}
        invariant sessions == SentTo(old(sessions), done, f, depth)
        decreases |todo|
      {
        var w :| w in todo;
        todo := todo - {w};
        if w != id {
          SentToMore(old(sessions), done, w, f, depth);
          var _ := TrySend(w, f);
          done := done + {w};
        }
      }
      assert done == watchers - {id};
    }

    // -------------------------------------------------------------- register, activity, preference

    /** Flags and warns every session of a key. */
    method WarnDuplicates(ids: seq<SessionId>)
      requires Increasing(ids) && forall i :: i in ids ==> i in sessions
      modifies `sessions
      ensures sessions == WarnedAmong(old(sessions), ids, depth)
    {
      hide Send, CanTake;
      assert sessions == WarnedAmong(sessions, ids[..0], depth);
      for n := 0 to |ids|
        invariant sessions == WarnedAmong(old(sessions), ids[..n], depth)
      {
        var id := ids[n];
        assert ids[..n + 1] == ids[..n] + [id] && id !in ids[..n] && id in ids;
        sessions := sessions[id := sessions[id].(duplicate := true)];
        var _ := TrySend(id, Health(DUPLICATE_TEXT));
        assert sessions == WarnedAmong(old(sessions), ids[..n + 1], depth);
      }
      assert ids[..|ids|] == ids;
    }

    /** Hands out an id and enters the new session into both indexes; yields the sessions of its key. */
    method Enter(info: Info, now: real) returns (id: SessionId, group: seq<SessionId>)
      modifies `nextId, `sessions, `peers, `active
      ensures id == old(nextId) && group == Joined(old(Value()).index, info.key)
      ensures Value().index == RegisteredIndex(old(Value()).index, info.key)
      ensures sessions == old(sessions)[id := NewSession(info, now)]
    {
      id := nextId;
      nextId := nextId + 1;
      sessions := sessions[id := NewSession(info, now)];
      if info.key !in peers {
        peers := peers[info.key := PeerSet([], id)];
      }
      group := peers[info.key].sessions + [id];
      peers := peers[info.key := PeerSet(group, id)];
      active := active[info.key := id];
      assert peers == old(peers)[info.key := PeerSet(group, id)];
    }

    method Register(info: Info, now: real) returns (id: SessionId)
      requires Valid()
      modifies this
      ensures Valid() && id == old(nextId)
      ensures Value() == Step(old(Value()), Op.Register(info), now)
      ensures history == Extend(old(history), Op.Register(info), now)
    {
      hide WarnedAmong, SentTo, RegisteredSessions, RegisteredIndex, Agreement, IsRun, Refs, PresentFrame, NewSession,
        Joined;
      ghost var s := Value();
      Record(Value(), Op.Register(info), now);
      JoinedOk(s, info, now);
      var group;
      id, group := Enter(info, now);
      ghost var all := sessions;
      if |group| > 1 {
        WarnDuplicates(group);
        WarnedKeys(all, group, depth);
      }
      stats := stats.(currentClients := stats.currentClients + 1);
      KeepsWatchers(s.index, info.key);
      BroadcastPresence(id, PresentFrame(info.key, info));
      RegisterLoops(s.index, all, info, depth);
      assert Value() == Registered(s, info, now);
    }

    method NoteActivity(id: SessionId, ghost now: real)
      requires Valid() && Live(Value(), id)
      modifies `peers, `active, `history
      ensures Valid() && Value() == Step(old(Value()), Op.NoteActivity(id), now)
      ensures history == Extend(old(history), Op.NoteActivity(id), now)
    {
      hide Agreement, IsRun, Refs;
      Record(Value(), Op.NoteActivity(id), now);
      if !sessions[id].duplicate {
        return;
      }
      var key := sessions[id].info.key;
      if key in peers {
        peers := peers[key := PeerSet(peers[key].sessions, id)];
        var pick := PickActive(peers[key]);
        if pick.Some? {
          active := active[key := pick.value];
        }
      }
    }

    method NotePreferred(id: SessionId, preferred: bool, ghost now: real)
      requires Valid() && Live(Value(), id)
      modifies `sessions, `stats, `history
      ensures Valid() && Value() == Step(old(Value()), Op.Prefer(id, preferred), now)
      ensures history == Extend(old(history), Op.Prefer(id, preferred), now)
    {
      hide Agreement, IsRun, Refs, Members;
      Record(Value(), Op.Prefer(id, preferred), now);
      var wasPreferred, wasSeen := sessions[id].preferred, sessions[id].preferredSeen;
      sessions := sessions[id := sessions[id].(preferred := preferred, preferredSeen := true)];
      if wasPreferred == preferred {
        return;
      }
      if preferred {
        stats := stats.(preferredClients := stats.preferredClients + 1);
        if wasSeen {
          stats := stats.(homeMovesIn := stats.homeMovesIn + 1);
        }
      } else {
        stats := stats.(preferredClients := stats.preferredClients - 1);
        if wasSeen {
          stats := stats.(homeMovesOut := stats.homeMovesOut + 1);
        }
      }
    }

    // -------------------------------------------------------------- unregister

    /** The part of `unregister` under the lock of the key's session set; says whether the key is gone. */
    method Detach(id: SessionId) returns (gone: bool)
      requires Refs(Value()) && id in sessions
      modifies `peers, `active, `watchers, `sessions, `stats
      ensures Value() == Detached(old(Value()), id)
      ensures gone == Departs(old(Value()), id)
    {
      hide Send, CanTake, RouteRefs, ActiveRefs, Without;
      ghost var s := Value();
      var key := sessions[id].info.key;
      WithoutMembers(Members(Value().index, key), id);
      assert |Survivors(s, id)| >= 1 ==> Survivors(s, id)[0] in Survivors(s, id);
      watchers := watchers - {id};
      if sessions[id].preferred {
        stats := stats.(preferredClients := stats.preferredClients - 1);
      }
      sessions := sessions[id := sessions[id].(closed := true, preferred := false)];
      gone := false;
      if key in peers {
        var rest := Without(peers[key].sessions, id);
        if rest == [] {
          peers := peers[key := PeerSet([], peers[key].active)];
          gone := true;
        } else {
          var last := rest[|rest| - 1];
          peers := peers[key := PeerSet(rest, last)];
          active := active[key := last];
          if |rest| == 1 {
            var alone := rest[0];
            assert alone in rest;
            sessions := sessions[alone := sessions[alone].(duplicate := false)];
            var _ := TrySend(alone, Health([]));
          }
        }
      }
      assert sessions == DetachedSessions(s.sessions, id, Survivors(s, id), depth);
      assert Value().index == DetachedIndex(s.index, key, id);
    }

    /** Tells the current route of every listed key that a peer left. */
    method TellListeners(keys: set<NodeKey>, f: Frame)
      requires ActiveRefs(active, sessions)
      modifies `sessions
      ensures sessions == ToldTo(old(sessions), active, keys, f, depth)
    {
      hide CanTake, Send, ToldTo;
      var todo := keys;
      ghost var done: set<NodeKey> := {};
      ToldNobody(sessions, active, f, depth);
      while todo != {}
        invariant todo <= keys && done == keys - todo
        invariant sessions == ToldTo(old(sessions), active, done, f, depth)
        decreases |todo|
      {
        var k :| k in todo;
        todo := todo - {k};
        ToldMore(old(sessions), active, done, k, f, depth);
        if k in active {
          var _ := TrySend(active[k], f);
        }
        done := done + {k};
      }
      assert done == keys;
    }

    /** Takes a key out of everyone's reverse paths. */
    method ForgetListener(key: NodeKey)
      modifies `reversePaths
      ensures reversePaths == PathsCleared(old(reversePaths), key, old(reversePaths).Keys)
    {
      var todo := reversePaths.Keys;
      assert reversePaths == PathsCleared(reversePaths, key, {});
      while todo != {}
        invariant todo <= old(reversePaths).Keys == reversePaths.Keys
        invariant reversePaths == PathsCleared(old(reversePaths), key, old(reversePaths).Keys - todo)
        decreases |todo|
      {
        var a :| a in todo;
        todo := todo - {a};
        reversePaths := reversePaths[a := reversePaths[a] - {key}];
      }
    }

    /** The rest of `unregister` for a key that is gone. */
    method Erase(id: SessionId)
      requires IndexRefs(Value().index, sessions) && id in sessions
      modifies `peers, `active, `sessions, `reversePaths
      ensures Value() == Erased(old(Value()), id)
    {
      hide SentTo, ToldTo, ErasedSessions, PathsCleared;
      ghost var s := Value();
      var key := sessions[id].info.key;
      var gone := PeerGone(key, DISCONNECTED);
      EraseLoops(s, id);
      peers := peers - {key};
      active := active - {key};
      BroadcastPresence(id, gone);
      SentToHandles(s.sessions, watchers - {id}, gone, depth);
      if key in reversePaths {
        var heard := reversePaths[key];
        reversePaths := reversePaths - {key};
        TellListeners(heard, gone);
      } else {
        ToldNobody(sessions, active, gone, depth);
      }
      ForgetListener(key);
      PathsForgotten(s.paths, key);
    }

    method Unregister(id: SessionId, ghost now: real)
      requires Valid() && Live(Value(), id)
      modifies this
      ensures Valid() && Value() == Step(old(Value()), Op.Unregister(id), now)
      ensures history == Extend(old(history), Op.Unregister(id), now)
    {
      hide Agreement, IsRun, Detached, Erased, Departs, RouteRefs;
      ghost var s := Value();
      Record(Value(), Op.Unregister(id), now);
      var gone := Detach(id);
      RefsDetached(s, id);
      DetachedHandles(s, id);
      if gone {
        Erase(id);
      }
      stats := stats.(currentClients := stats.currentClients - 1);
    }

    // -------------------------------------------------------------- routing

    /** Puts the packet on the first mesh connection of its destination that has room. */
    method ForwardToMesh(p: Packet) returns (ok: bool)
      requires RouteRefs(Mesh(meshRoutes, channels))
      modifies `channels
      ensures ok <==> !NoRoom(Mesh(meshRoutes, old(channels)), p.dst)
      ensures !ok ==> channels == old(channels)
      ensures forall i: nat :: FirstWithRoom(Mesh(meshRoutes, old(channels)), p.dst, i) ==>
        var c := meshRoutes[p.dst][i].tx;
        var x := old(channels)[c];
        channels == old(channels)[c := x.(queue := x.queue + [ForwardPacket(p.src, p.dst, p.bytes)])]
    {
      hide RouteRefs;
      ghost var mesh := Mesh(meshRoutes, channels);
      if p.dst !in meshRoutes {
        return false;
      }
      var routes := meshRoutes[p.dst];
      for n := 0 to |routes|
        invariant channels == old(channels)
        invariant forall j :: 0 <= j < n ==> !HasRoom(mesh, routes[j])
      {
        var tx := routes[n].tx;
        RouteHasChannel(mesh, p.dst, n);
        if !channels[tx].receiverGone && |channels[tx].queue| < channels[tx].capacity {
          assert HasRoom(mesh, routes[n]) && FirstWithRoom(mesh, p.dst, n);
          forall i: nat | FirstWithRoom(mesh, p.dst, i) ensures i == n { OneFirst(mesh, p.dst, i, n); }
          channels := channels[tx :=
              channels[tx].(queue := channels[tx].queue + [ForwardPacket(p.src, p.dst, p.bytes)])];
          return true;
        }
      }
      return false;
    }

    method SendPeerNotHere(id: SessionId, peer: NodeKey, packet: Bytes, now: real)
      requires id in sessions
      modifies `sessions
      ensures sessions == old(sessions)[id := NotHere(old(sessions)[id], peer, packet, now, depth)]
    {
      hide Send, CanTake;
      if LooksLikeDisco(packet) {
        var allowed := Allows(sessions[id].limiter, now);
        sessions := sessions[id := sessions[id].(limiter := AfterAsk(sessions[id].limiter, now))];
        if allowed {
          var _ := TrySend(id, PeerGone(peer, NOT_HERE));
        }
      }
      assert sessions == old(sessions)[id := NotHere(old(sessions)[id], peer, packet, now, depth)];
    }

    /** Hands the packet to the destination's current session and records the reverse path on first sight. */
    method Deliver(t: SessionId, p: Packet)
      requires t in sessions
      modifies `sessions, `reversePaths, `stats
      ensures var x := old(sessions)[t];
        var y := Send(x, [RecvPacket(p.src, p.bytes)], depth);
        if CanTake(x.box, depth) then
          && sessions == old(sessions)[t := Heard(y, p.src)]
          && reversePaths == PathsAfter(old(reversePaths), x, p.src, p.dst)
          && stats == old(stats).(sent := old(stats).sent + 1)
        else
          sessions == old(sessions)[t := y] && reversePaths == old(reversePaths) && stats == CountDrop(old(stats), p)
    {
      hide PushAll, CanTake;
      var ok := TrySend(t, RecvPacket(p.src, p.bytes));
      if ok {
        stats := stats.(sent := stats.sent + 1);
        if p.src !in sessions[t].seenSources {
          sessions := sessions[t := sessions[t].(seenSources := sessions[t].seenSources + {p.src})];
          if p.src !in reversePaths {
            reversePaths := reversePaths[p.src := {}];
          }
          reversePaths := reversePaths[p.src := reversePaths[p.src] + {p.dst}];
        }
        assert sessions[t].seenSources == old(sessions)[t].seenSources + {p.src};
        assert sessions ==
          old(sessions)[t := Heard(Send(old(sessions)[t], [RecvPacket(p.src, p.bytes)], depth), p.src)];
        assert reversePaths == PathsAfter(old(reversePaths), old(sessions)[t], p.src, p.dst);
      } else {
        stats := stats.(dropped := stats.dropped + 1, lost := stats.lost + [p]);
      }
    }

    method Route(source: SessionId, p: Packet, forwarded: bool, now: real)
      requires Valid() && Live(Value(), source)
      modifies `sessions, `reversePaths, `channels, `stats, `history
      ensures Valid() && Value() == Step(old(Value()), Op.Route(source, p, forwarded), now)
      ensures history == Extend(old(history), Op.Route(source, p, forwarded), now)
      ensures p.dst !in active && !forwarded ==> ForwardsOrDrops(old(Value()), Value(), p)
    {
      hide ForwardsOrDrops, FirstWithRoom, NoRoom, Agreement, IsRun, Refs, RouteRefs, FirstOpen, CanTake, Send,
        NotHere, Heard, PathsAfter, Members;
      ghost var s := Value();
      RefsUse(s, p.dst);
      Record(Value(), Op.Route(source, p, forwarded), now);
      stats := stats.(received := stats.received + 1);
      if p.dst in active {
        Deliver(active[p.dst], p);
      } else {
        var sent := false;
        if !forwarded {
          sent := ForwardToMesh(p);
          FirstOpenIff(s.mesh, p.dst);
          RouteForwards(s, source, p, now);
        }
        if sent {
          stats := stats.(forwardedOut := stats.forwardedOut + 1);
        } else {
          stats := stats.(dropped := stats.dropped + 1, lost := stats.lost + [p]);
          SendPeerNotHere(source, p.dst, p.bytes, now);
        }
      }
      if forwarded {
        stats := stats.(forwardedIn := stats.forwardedIn + 1);
      }
      assert Value() == Routed(s, source, p, forwarded, now);
    }

    // -------------------------------------------------------------- mesh routes

    method AddMeshRoute(m: MeshId, peer: NodeKey, tx: ChannelId, ghost now: real)
      requires Valid() && tx in channels
      modifies `meshRoutes, `history
      ensures Valid() && Value() == Step(old(Value()), Op.AddRoute(m, peer, tx), now)
      ensures history == Extend(old(history), Op.AddRoute(m, peer, tx), now)
    {
      hide Agreement, IsRun, Refs;
      Record(Value(), Op.AddRoute(m, peer, tx), now);
      if peer !in meshRoutes {
        meshRoutes := meshRoutes[peer := []];
      }
      var routes, found := meshRoutes[peer], false;
      for n := 0 to |routes|
        invariant found <==> HasMesh(routes[..n], m)
      {
        found := found || routes[n].meshId == m;
      }
      assert routes[..|routes|] == routes;
      if !found {
        meshRoutes := meshRoutes[peer := routes + [MeshRoute(m, tx)]];
      }
      assert Value().mesh == RouteAdded(old(Value()).mesh, m, peer, tx);
    }

    method DropRoute(m: MeshId, peer: NodeKey)
      modifies `meshRoutes
      ensures Value().mesh == RouteRemoved(old(Value()).mesh, m, peer)
    {
      if peer in meshRoutes {
        meshRoutes := meshRoutes[peer := WithoutMesh(meshRoutes[peer], m)];
        if meshRoutes[peer] == [] {
          meshRoutes := meshRoutes - {peer};
        }
        assert meshRoutes == RouteRemoved(old(Value()).mesh, m, peer).routes;
      }
    }

    method RemoveMeshRoute(m: MeshId, peer: NodeKey, ghost now: real)
      requires Valid()
      modifies `meshRoutes, `history
      ensures Valid() && Value() == Step(old(Value()), Op.RemoveRoute(m, peer), now)
      ensures history == Extend(old(history), Op.RemoveRoute(m, peer), now)
    {
      hide Agreement, Refs, IsRun, RouteRemoved;
      Record(Value(), Op.RemoveRoute(m, peer), now);
      DropRoute(m, peer);
    }

    method RemoveMesh(m: MeshId, ghost now: real)
      requires Valid()
      modifies `meshRoutes, `history
      ensures Valid() && Value() == Step(old(Value()), Op.RemoveMesh(m), now)
      ensures history == Extend(old(history), Op.RemoveMesh(m), now)
    {
      hide Agreement, IsRun, Refs, MeshRemoved, RouteRemoved, HasMesh, ClearedFrom;
      Record(Value(), Op.RemoveMesh(m), now);
      ghost var mesh := Value().mesh;
      var todo := set k | k in meshRoutes && HasMesh(meshRoutes[k], m);
      ghost var keys, done: set<NodeKey> := todo, {};
      ClearedFromNone(mesh, m);
      while todo != {}
        invariant todo <= keys && done == keys - todo
        invariant Value().mesh == ClearedFrom(mesh, m, done)
        modifies `meshRoutes
        decreases |todo|
      {
        var peer :| peer in todo;
        todo := todo - {peer};
        ClearedFromMore(mesh, m, done, peer);
        DropRoute(m, peer);
        done := done + {peer};
      }
      assert done == keys;
      ClearedFromAll(mesh, m);
    }

    /** `try_send` on the channel of a mesh connection, as the mesh reader answers a ping. */
    method OfferChannel(m: ChannelId, f: Frame, ghost now: real)
      requires Valid() && m in channels
      modifies `channels, `history
      ensures Valid() && Value() == Step(old(Value()), Op.OfferChannel(m, f), now)
      ensures history == Extend(old(history), Op.OfferChannel(m, f), now)
    {
      hide Agreement, Refs, IsRun;
      Record(Value(), Op.OfferChannel(m, f), now);
      var c := channels[m];
      if !c.receiverGone && |c.queue| < c.capacity {
        channels := channels[m := c.(queue := c.queue + [f])];
      }
    }

    // -------------------------------------------------------------- watching, closing, restarting

    /** The snapshot loop: one PeerPresent for every peer, in whatever order they come. */
    method SendSnapshot(id: SessionId, ghost s: State) returns (ghost order: seq<NodeKey>)
      requires Refs(s) && id in sessions && s.index.peers == peers && s.sessions == sessions && s.depth == depth
      modifies `sessions
      ensures Enumerates(order, peers.Keys)
      ensures sessions == s.sessions[id := Send(s.sessions[id], Snapshot(s, order), depth)]
    {
      hide Refs, Send, CanTake, Snapshot, PickActive, PresentFrame;
      order := [];
      var todo := peers.Keys;
      SnapshotNone(s, id);
      while todo != {}
        invariant todo <= peers.Keys && Enumerates(order, peers.Keys - todo)
        invariant sessions == s.sessions[id := Send(s.sessions[id], Snapshot(s, order), depth)]
        decreases |todo|
      {
        var k :| k in todo;
        todo := todo - {k};
        SnapshotMore(s, id, order, k);
        var pick := PickActive(peers[k]);
        if pick.Some? {
          assert sessions[pick.value].info == s.sessions[pick.value].info;
          var _ := TrySend(id, PresentFrame(k, sessions[pick.value].info));
        }
        order := order + [k];
        assert sessions == s.sessions[id := Send(s.sessions[id], Snapshot(s, order), depth)];
      }
      assert peers.Keys - todo == peers.Keys;
    }

    /** Says whether the session may watch; if so it is sent the snapshot. */
    method Watch(id: SessionId, ghost now: real) returns (ok: bool, ghost order: seq<NodeKey>)
      requires Valid() && Live(Value(), id)
      modifies `watchers, `sessions, `history
      ensures Enumerates(order, peers.Keys)
      ensures Value() == Step(old(Value()), Op.Watch(id, order), now)
      ensures history == Extend(old(history), Op.Watch(id, order), now)
      ensures ok == MayMesh(old(Value()), id) && Valid()
    {
      hide Agreement, IsRun, Refs, Send, Snapshot, Members, Enumerates;
      ghost var s := Value();
      ok := sessions[id].info.canMesh;
      if ok {
        watchers := watchers + {id};
        order := SendSnapshot(id, s);
      } else {
        order := Listed(peers.Keys);
      }
      Record(s, Op.Watch(id, order), now);
      assert Value() == Watched(s, id, order);
    }

    method CloseEach(ids: seq<SessionId>)
      requires forall i :: i in ids ==> i in sessions
      modifies `sessions
      ensures sessions == ClosedAmong(old(sessions), ids)
    {
      assert sessions == ClosedAmong(sessions, ids[..0]);
      for n := 0 to |ids|
        invariant sessions == ClosedAmong(old(sessions), ids[..n])
      {
        assert ids[n] in ids && ids[..n + 1] == ids[..n] + [ids[n]];
        sessions := sessions[ids[n] := sessions[ids[n]].(closed := true)];
      }
      assert ids[..|ids|] == ids;
    }

    method ClosePeer(requester: SessionId, peer: NodeKey, ghost now: real) returns (ok: bool)
      requires Valid() && Live(Value(), requester)
      modifies `sessions, `history
      ensures Value() == Step(old(Value()), Op.Close(requester, peer), now)
      ensures history == Extend(old(history), Op.Close(requester, peer), now)
      ensures ok == (MayMesh(old(Value()), requester) && peer in peers) && Valid()
    {
      hide Agreement, IsRun, Refs, ClosedAmong, Increasing;
      Record(Value(), Op.Close(requester, peer), now);
      if !sessions[requester].info.canMesh || peer !in peers {
        return false;
      }
      GroupIsLive(Value(), peer);
      CloseEach(peers[peer].sessions);
      ClosedAmongPeer(old(Value()), requester, peer);
      return true;
    }

    method SendEach(ids: seq<SessionId>, f: Frame)
      requires Increasing(ids) && forall i :: i in ids ==> i in sessions
      modifies `sessions
      ensures sessions == SentTo(old(sessions), AsSet(ids), f, depth)
    {
      hide Send, CanTake, SentTo;
      ghost var done: set<SessionId> := {};
      SentToNobody(sessions, f, depth);
      for n := 0 to |ids|
        invariant done == AsSet(ids[..n])
        invariant sessions == SentTo(old(sessions), done, f, depth)
      {
        assert ids[..n + 1] == ids[..n] + [ids[n]] && ids[n] !in ids[..n] && ids[n] in ids;
        SentToMore(old(sessions), done, ids[n], f, depth);
        var _ := TrySend(ids[n], f);
        done := done + {ids[n]};
      }
      assert ids[..|ids|] == ids;
    }

    method BroadcastRestart(reconnectInMs: U32, tryForMs: U32, ghost now: real)
      requires Valid()
      modifies `sessions, `history
      ensures Valid() && Value() == Step(old(Value()), Op.Restart(reconnectInMs, tryForMs), now)
      ensures history == Extend(old(history), Op.Restart(reconnectInMs, tryForMs), now)
    {
      hide Agreement, IsRun, Refs, SentTo, RestartedAmong, RestartAnnounced;
      ghost var s := Value();
      Record(Value(), Op.Restart(reconnectInMs, tryForMs), now);
      var f := Restarting(reconnectInMs, tryForMs);
      var todo := peers.Keys;
      ghost var done: set<NodeKey> := {};
      RestartedNone(s, f);
      while todo != {}
        invariant todo <= peers.Keys && done == peers.Keys - todo
        invariant sessions == RestartedAmong(s, done, f)
        modifies `sessions
        decreases |todo|
      {
        var k :| k in todo;
        todo := todo - {k};
        RestartedMore(s, done, k, f);
        SendEach(peers[k].sessions, f);
        done := done + {k};
      }
      assert done == peers.Keys;
      RestartedAll(s, reconnectInMs, tryForMs);
    }

    method AnswerPing(id: SessionId, value: U64, ghost now: real)
      requires Valid() && Live(Value(), id)
      modifies `sessions, `history
      ensures Valid() && Value() == Step(old(Value()), Op.SendPong(id, value), now)
      ensures history == Extend(old(history), Op.SendPong(id, value), now)
    {
      hide Agreement, Refs, IsRun, Send, CanTake, Members;
      Record(Value(), Op.SendPong(id, value), now);
      var _ := TrySend(id, Pong(value));
    }

    /** The receiving end of a session's queue: the first frames are taken out. */
    method Dequeue(id: SessionId, count: nat, ghost now: real)
      requires Valid() && id in sessions && count <= |sessions[id].box.queue|
      modifies `sessions, `history
      ensures Valid() && Value() == Step(old(Value()), Op.Dequeue(id, count), now)
      ensures history == Extend(old(history), Op.Dequeue(id, count), now)
    {
      hide Agreement, Refs, IsRun;
      Record(Value(), Op.Dequeue(id, count), now);
      var b := sessions[id].box;
      sessions := sessions[id :=
          sessions[id].(box := b.(queue := b.queue[count..], output := b.output + b.queue[..count]))];
    }

    /** `client_count` adds up the session sets: the number of live sessions, which the gauge always shows. */
    method ClientCount() returns (n: nat)
      requires Valid()
      ensures n == |LiveIds(Value())|
      ensures n == stats.currentClients
    {
      hide Sound, IsRun, HealthOk, BoxesOk, LiveAmong, LiveIds;
      Keeps();
      var todo := peers.Keys;
      n := 0;
      LiveAmongAll(Value());
      assert peers.Keys - todo == {};
      while todo != {}
        invariant todo <= peers.Keys && n == |LiveAmong(Value(), peers.Keys - todo)|
        decreases |todo|
      {
        var k :| k in todo;
        LiveAmongMore(Value(), peers.Keys - todo, k);
        assert peers.Keys - todo + {k} == peers.Keys - (todo - {k});
        todo := todo - {k};
        n := n + |peers[k].sessions|;
      }
      assert peers.Keys - todo == peers.Keys;
    }
  }

  // ---------------------------------------------------------------- one turn of each loop

  /** The mesh routes once those of connection m are gone from the lists of `done`. */
  function ClearedFrom(mesh: Mesh, m: MeshId, done: set<NodeKey>): Mesh {
    mesh.(routes := map k | k in mesh.routes && !(k in done && WithoutMesh(mesh.routes[k], m) == [])
                      :: if k in done then WithoutMesh(mesh.routes[k], m) else mesh.routes[k])
  }

  lemma ClearedFromNone(mesh: Mesh, m: MeshId)
    ensures ClearedFrom(mesh, m, {}) == mesh
  {
    assert ClearedFrom(mesh, m, {}).routes == mesh.routes;
  }

  lemma ClearedFromMore(mesh: Mesh, m: MeshId, done: set<NodeKey>, k: NodeKey)
    requires k !in done && k in mesh.routes
    ensures RouteRemoved(ClearedFrom(mesh, m, done), m, k) == ClearedFrom(mesh, m, done + {k})
  {
    hide WithoutMesh;
    assert RouteRemoved(ClearedFrom(mesh, m, done), m, k).routes == ClearedFrom(mesh, m, done + {k}).routes;
  }

  lemma {:induction false} WithoutMeshSame(routes: seq<MeshRoute>, m: MeshId)
    requires !HasMesh(routes, m)
    ensures WithoutMesh(routes, m) == routes
  {
    if routes != [] {
      var front := routes[..|routes| - 1];
      assert !HasMesh(front, m) by {
        if i :| 0 <= i < |front| && front[i].meshId == m {
          assert routes[i].meshId == m;
        }
      }
      WithoutMeshSame(front, m);
      assert routes == front + [routes[|routes| - 1]];
    }
  }

  lemma ClearedFromAll(mesh: Mesh, m: MeshId)
    ensures ClearedFrom(mesh, m, set k | k in mesh.routes && HasMesh(mesh.routes[k], m)) == MeshRemoved(mesh, m)
  {
    hide HasMesh, WithoutMesh;
    var all := set k | k in mesh.routes && HasMesh(mesh.routes[k], m);
    forall k | k in mesh.routes && k !in all ensures WithoutMesh(mesh.routes[k], m) == mesh.routes[k] {
      WithoutMeshSame(mesh.routes[k], m);
    }
    assert ClearedFrom(mesh, m, all).routes == MeshRemoved(mesh, m).routes;
  }

  /** Some order of a set of keys. */
  ghost function Listed(keys: set<NodeKey>): (order: seq<NodeKey>)
    ensures Enumerates(order, keys)
  {
    if keys == {} then []
    else var k :| k in keys; Listed(keys - {k}) + [k]
  }

  lemma SnapshotNone(s: State, id: SessionId)
    requires Refs(s) && id in s.sessions
    ensures s.sessions[id := Send(s.sessions[id], Snapshot(s, []), s.depth)] == s.sessions
  {
    hide Refs;
  }

  lemma SnapshotMore(s: State, id: SessionId, order: seq<NodeKey>, k: NodeKey)
    requires Refs(s) && id in s.sessions && k in s.index.peers
    ensures var pick := PickActive(s.index.peers[k]);
      var x := Send(s.sessions[id], Snapshot(s, order), s.depth);
      && (pick.Some? ==> pick.value in s.sessions) && x.info == s.sessions[id].info
      && Send(s.sessions[id], Snapshot(s, order + [k]), s.depth) ==
         if pick.Some? then Send(x, [PresentFrame(k, s.sessions[pick.value].info)], s.depth) else x
  {
    hide RouteRefs, ActiveRefs, Flags, PushAll;
    assert (order + [k])[..|order + [k]| - 1] == order;
    var pick := PickActive(s.index.peers[k]);
    if pick.Some? {
      assert pick.value in s.index.peers[k].sessions;
      PushAllCat(s.sessions[id].box, Snapshot(s, order), [PresentFrame(k, s.sessions[pick.value].info)], s.depth);
    } else {
      assert Snapshot(s, order + [k]) == Snapshot(s, order);
    }
  }

  lemma ClosedAmongPeer(s: State, requester: SessionId, peer: NodeKey)
    requires MayMesh(s, requester) && peer in s.index.peers
    ensures s.(sessions := ClosedAmong(s.sessions, s.index.peers[peer].sessions)) == PeerClosed(s, requester, peer)
  {
    assert ClosedAmong(s.sessions, s.index.peers[peer].sessions) == PeerClosed(s, requester, peer).sessions;
  }

  lemma RestartedNone(s: State, f: Frame)
    ensures RestartedAmong(s, {}, f) == s.sessions
  {
  }

  lemma RestartedMore(s: State, done: set<NodeKey>, k: NodeKey, f: Frame)
    requires Sound(s) && k in s.index.peers && k !in done
    ensures var ids := s.index.peers[k].sessions;
      && RestartedAmong(s, done, f).Keys == s.sessions.Keys
      && Increasing(ids) && (forall i :: i in ids ==> i in s.sessions)
      && SentTo(RestartedAmong(s, done, f), AsSet(ids), f, s.depth) == RestartedAmong(s, done + {k}, f)
  {
    hide Send, Sound, Live, Increasing;
    GroupIsLive(s, k);
  }

  lemma RestartedAll(s: State, reconnectInMs: U32, tryForMs: U32)
    ensures s.(sessions := RestartedAmong(s, s.index.peers.Keys, Restarting(reconnectInMs, tryForMs)))
         == RestartAnnounced(s, reconnectInMs, tryForMs)
  {
    hide Push;
    var f := Restarting(reconnectInMs, tryForMs);
    assert RestartedAmong(s, s.index.peers.Keys, f) == RestartAnnounced(s, reconnectInMs, tryForMs).sessions;
  }

  /** The live sessions of some keys. */
  function LiveAmong(s: State, keys: set<NodeKey>): set<SessionId> {
    set i | i in s.sessions && s.sessions[i].info.key in keys && Live(s, i)
  }

  lemma LiveAmongAll(s: State)
    ensures LiveAmong(s, s.index.peers.Keys) == LiveIds(s) && LiveAmong(s, {}) == {}
  {
  }

  lemma {:induction false} IncreasingSize(ids: seq<SessionId>)
    requires Increasing(ids)
    ensures |AsSet(ids)| == |ids|
  {
    if ids != [] {
      var front, last := ids[..|ids| - 1], ids[|ids| - 1];
      IncreasingSize(front);
      assert AsSet(ids) == AsSet(front) + {last};
    } else {
      assert AsSet(ids) == {};
    }
  }

  lemma LiveAmongMore(s: State, done: set<NodeKey>, k: NodeKey)
    requires Sound(s) && k in s.index.peers && k !in done
    ensures |LiveAmong(s, done + {k})| == |LiveAmong(s, done)| + |s.index.peers[k].sessions|
  {
    hide Sound, Live, Increasing;
    var ids := s.index.peers[k].sessions;
    GroupIsLive(s, k);
    IncreasingSize(ids);
    var these := AsSet(ids);
    assert LiveAmong(s, done + {k}) == LiveAmong(s, done) + these;
    assert LiveAmong(s, done) !! these;
  }


  lemma KeepsWatchers(x: Index, key: NodeKey)
    ensures RegisteredIndex(x, key).watchers == x.watchers
  {
  }

  lemma WarnedKeys(all: Sessions, ids: seq<SessionId>, depth: nat)
    ensures WarnedAmong(all, ids, depth).Keys == all.Keys
  {
  }

  lemma RouteHasChannel(mesh: Mesh, k: NodeKey, n: nat)
    requires RouteRefs(mesh) && k in mesh.routes && n < |mesh.routes[k]|
    ensures mesh.routes[k][n].tx in mesh.channels
  {
    assert mesh.routes[k][n] in mesh.routes[k];
  }

  /** Where the specification finds an open channel there is a first route with room, and its channel is the one. */
  lemma FirstOpenIff(mesh: Mesh, k: NodeKey)
    ensures var c := FirstOpen(mesh.channels, RoutesTo(mesh, k));
      if c.None? then NoRoom(mesh, k)
      else !NoRoom(mesh, k) && exists i: nat :: FirstWithRoom(mesh, k, i) && mesh.routes[k][i].tx == c.value
  {
    hide HasRoom;
    if NoRoom(mesh, k) {
      NothingOpen(mesh, RoutesTo(mesh, k));
    } else {
      var j := SomeRoom(mesh, k);
      var i := FirstExists(mesh, k, j);
      FirstOpenAt(mesh, mesh.routes[k], i);
      assert FirstWithRoom(mesh, k, i);
    }
  }

  lemma RefsUse(s: State, k: NodeKey)
    requires Refs(s)
    ensures RouteRefs(s.mesh) && (k in s.index.active ==> s.index.active[k] in s.sessions)
  {
  }

  lemma JoinedOk(s: State, info: Info, now: real)
    requires Sound(s)
    ensures s.index.nextId !in s.index.watchers && s.index.watchers <= s.sessions.Keys
    ensures Increasing(Joined(s.index, info.key))
    ensures forall i :: i in Joined(s.index, info.key) ==> i in s.sessions || i == s.index.nextId
  {
    hide PickActive, RouteRefs, ActiveRefs;
    RegisterAgrees(s.index, map[], info.key);
    var y := RegisteredIndex(s.index, info.key);
    assert Agrees(y, info.key);
    assert GroupRefs(s.index.peers, s.sessions);
  }

  lemma SentToHandles(all: Sessions, ids: set<SessionId>, f: Frame, depth: nat)
    ensures SameHandles(all, SentTo(all, ids, f, depth))
  {
  }

  lemma PathsForgotten(paths: Paths, key: NodeKey)
    ensures PathsCleared(paths - {key}, key, (paths - {key}).Keys) == ErasedPaths(paths, key)
    ensures key !in paths ==> paths - {key} == paths
  {
  }
}
