/** A run in which a peer's departure goes unnoticed: the cache of seen sources outlives a stay, so a peer that
    comes back, is heard again and leaves again is not announced to the one that heard it. */
module RelayStays {
  import opened Types
  import opened RelayState
  import opened RelayIndex
  import opened RelayRuns
  import opened RelayFrames
  import opened RelayPaths

  /** Session t is the route of b, its client reads on, and it does not watch. */
  predicate Listening(s: State, t: SessionId, b: NodeKey) {
    && Sound(s) && s.depth >= 1 && b in s.index.active && s.index.active[b] == t && t !in s.index.watchers
    && t in s.sessions && s.sessions[t].info.key == b && !s.sessions[t].box.receiverGone
  }

  lemma WithoutOnly(id: SessionId)
    ensures Without([id], id) == []
  {
  }

  lemma RegisterFirst(depth: nat, info: Info, now: real)
    requires depth >= 1
    ensures Init(depth).depth == depth && Refs(Init(depth))
    ensures var s := Registered(Init(depth), info, now);
      && Listening(s, 1, info.key) && s.index.peers.Keys ==
          {info.key} && s.index.nextId == 2 && s.depth == depth && 1 in s.sessions
      && CanTake(s.sessions[1].box, s.depth) && Next(Init(depth), Register(info), now, s)
  {
    hide Agreement, RegisteredSessions, PushAll;
    InitAgrees(depth);
    SoundStep(Init(depth), Register(info), now);
    RegisteredHandles(Init(depth), info, now);
    RegisterBoxes(Init(depth), info, now, 1);
    assert Joined(Init(depth).index, info.key) == [1];
    assert RegisterEmit(Init(depth).index, info, 1) == [];
    PushNone(Mailbox([], false, [], []), KeepAlive, depth);
  }

  lemma RegisterOther(s: State, t: SessionId, b: NodeKey, info: Info, now: real)
    requires Listening(s, t, b) && info.key != b && info.key !in s.index.peers
    ensures var id, u := s.index.nextId, Registered(s, info, now);
      && Listening(u, t, b) && u.sessions[t].box == s.sessions[t].box
      && u.sessions[t].seenSources == s.sessions[t].seenSources && u.paths == s.paths
      && Live(u, id) && u.sessions[id].info == info && Members(u.index, info.key) == [id] && id != t
      && u.index.nextId == id + 1 && u.depth == s.depth
  {
    hide Agreement, RouteRefs, GroupRefs, RegisteredSessions, PushAll;
    SoundStep(s, Register(info), now);
    RegisteredHandles(s, info, now);
    SeenRegister(s, info, now, t);
    RegisterBoxes(s, info, now, t);
    assert Joined(s.index, info.key) == [s.index.nextId];
    assert RegisterEmit(s.index, info, t) == [];
    PushNone(s.sessions[t].box, KeepAlive, s.depth);
  }

  lemma RouteTo(s: State, t: SessionId, id: SessionId, p: Packet, now: real)
    requires Listening(s, t, p.dst) && CanTake(s.sessions[t].box, s.depth) && Live(s, id)
    ensures var u := Routed(s, id, p, false, now);
      && OutcomeOf(s, p.dst, false) == Delivered(t)
      && Listening(u, t, p.dst) && u.index == s.index && u.depth == s.depth
      && Live(u, id) && u.sessions[id].info == s.sessions[id].info
      && p.src in u.sessions[t].seenSources
      && (p.src in s.sessions[t].seenSources ==> u.paths == s.paths)
  {
    hide Agreement, IndexRefs, RouteRefs, RoutedSessions, RoutedMesh, RoutedStats, PushAll, Members;
    SoundStep(s, Route(id, p, false), now);
    RoutedHandles(s, id, p, false, now);
    SeenRoute(s, id, p, false, now, t);
    RouteBoxes(s, id, p, false, now, t);
    PushAllFrames(s.sessions[t].box, RouteEmit(s, id, p, false, now, t), s.depth);
  }

  lemma LastOneLeaves(s: State, t: SessionId, b: NodeKey, id: SessionId)
    requires Listening(s, t, b) && Live(s, id) && s.sessions[id].info.key != b
    requires Members(s.index, s.sessions[id].info.key) == [id]
    ensures var a, u := s.sessions[id].info.key, Unregistered(s, id);
      && Departs(s, id) && Listening(u, t, b) && u.sessions[t].seenSources == s.sessions[t].seenSources
      && a !in u.index.peers && !InPaths(u.paths, a, b) && u.index.nextId == s.index.nextId && u.depth == s.depth
  {
    hide Agreement, RouteRefs, GroupRefs, DetachedSessions, ErasedSessions, ErasedPaths, PushAll, UnregisterEmit,
      InPaths;
    WithoutOnly(id);
    SoundStep(s, Unregister(id), 0.0);
    HandlesStep(s, Unregister(id), 0.0);
    DetachedHandles(s, id);
    SeenUnregister(s, id, t);
    UnregisterPaths(s, id, s.sessions[id].info.key, b);
    UnregisterBoxes(s, id, t);
    PushAllFrames(s.sessions[t].box, UnregisterEmit(s, id, t), s.depth);
  }

  lemma ReadAll(s: State, t: SessionId, b: NodeKey, now: real)
    requires Listening(s, t, b)
    ensures t in s.sessions
    ensures var count := |s.sessions[t].box.queue|;
      var u := Dequeued(s, t, count);
      && Next(s, Dequeue(t, count), now, u)
      && Listening(u, t, b) && CanTake(u.sessions[t].box, u.depth) && u.index == s.index && u.paths == s.paths
      && u.sessions[t].seenSources == s.sessions[t].seenSources && u.depth == s.depth
  {
    hide Agreement, Refs;
    SoundStep(s, Dequeue(t, |s.sessions[t].box.queue|), now);
  }

  lemma NextStep(s: State, op: Op, now: real)
    requires Sound(s) && Enabled(s, op)
    ensures Next(s, op, now, Step(s, op, now))
  {
    hide Agreement, Enabled, Step, IndexRefs, RouteRefs;
  }

  /** One stay of a: it connects, sends to b and leaves. If b's route had seen a before without a being recorded,
      the departure offers it nothing. */
  lemma OneStay(s: State, t: SessionId, b: NodeKey, a: Info, bytes: Bytes, now: real)
    requires Listening(s, t, b) && CanTake(s.sessions[t].box, s.depth) && a.key != b && a.key !in s.index.peers
    ensures var id, p := s.index.nextId, Packet(a.key, b, bytes);
      var s1 := Registered(s, a, now);
      && Next(s, Register(a), now, s1) && Refs(s1) && Live(s1, id) && OutcomeOf(s1, b, false) == Delivered(t)
      && var s2 := Routed(s1, id, p, false, now);
         && Next(s1, Route(id, p, false), now, s2) && Refs(s2) && Live(s2, id) && t in s2.sessions
         && (a.key in s.sessions[t].seenSources && !InPaths(s.paths, a.key, b) ==> UnregisterEmit(s2, id, t) == [])
         && var s3 := Unregistered(s2, id);
            && Next(s2, Unregister(id), now, s3) && Leaves(s2, s3, a.key) && Listening(s3, t, b) &&
                a.key !in s3.index.peers
            && a.key in s3.sessions[t].seenSources && !InPaths(s3.paths, a.key, b) && s3.index.nextId == id + 1
  {
    hide Registered, Unregistered, RoutedSessions, RoutedPaths, RoutedMesh, RoutedStats, Agreement, IndexRefs,
      RouteRefs, OutcomeOf, InPaths, Next, UnregisterEmit, Departs, Members;
    var id, p := s.index.nextId, Packet(a.key, b, bytes);
    RegisterOther(s, t, b, a, now);
    var s1 := Registered(s, a, now);
    RouteTo(s1, t, id, p, now);
    var s2 := Routed(s1, id, p, false, now);
    LastOneLeaves(s2, t, b, id);
    NextStep(s, Register(a), now);
    NextStep(s1, Route(id, p, false), now);
    NextStep(s2, Unregister(id), now);
    DepartureEmit(s2, id, t);
    LiveHasKey(s2, id);
  }

  /** The whole run, for any two keys, any packet and any queue depth: b connects, a connects, sends to b and
      leaves, b's client reads, a connects again, sends to b again and leaves again. The second packet is
      delivered, yet the second departure offers b nothing. */
  lemma SecondDepartureUntold(a: Info, b: Info, bytes: Bytes, depth: nat, now: real) returns (r: Run)
    requires a.key != b.key && depth >= 1
    ensures IsRun(r) && |r.ops| == 8 && r.states[0] == Init(depth)
    ensures r.ops[6] == Route(3, Packet(a.key, b.key, bytes), false) && Refs(r.states[6])
    ensures OutcomeOf(r.states[6], b.key, false) == Delivered(1)
    ensures r.ops[7] == Unregister(3) && Leaves(r.states[7], r.states[8], a.key)
    ensures Refs(r.states[7]) && Live(r.states[7], 3) && 1 in r.states[7].sessions
    ensures UnregisterEmit(r.states[7], 3, 1) == []
  {
    hide Init, Registered, Unregistered, Routed, Dequeued, Sound, Refs, Listening, CanTake, OutcomeOf, InPaths, Next,
      UnregisterEmit, Members, Leaves;
    var p := Packet(a.key, b.key, bytes);
    var s0 := Init(depth);
    RegisterFirst(depth, b, now);
    var s1 := Registered(s0, b, now);
    OneStay(s1, 1, b.key, a, bytes, now);
    var s2 := Registered(s1, a, now);
    var s3 := Routed(s2, 2, p, false, now);
    var s4 := Unregistered(s3, 2);
    ReadAll(s4, 1, b.key, now);
    var count := |s4.sessions[1].box.queue|;
    var s5 := Dequeued(s4, 1, count);
    OneStay(s5, 1, b.key, a, bytes, now);
    var s6 := Registered(s5, a, now);
    var s7 := Routed(s6, 3, p, false, now);
    var s8 := Unregistered(s7, 3);
    r := Run([s0, s1, s2, s3, s4, s5, s6, s7, s8],
      [Register(b), Register(a), Route(2, p, false), Unregister(2), Dequeue(1, count), Register(a), Route(3, p, false),
       Unregister(3)],
      [now, now, now, now, now, now, now, now]);
    IsRunOf(r);
  }

  lemma IsRunOf(r: Run)
    requires |r.states| == 9 && |r.ops| == |r.times| == 8 && r.states[0] == Init(r.states[0].depth)
    requires Next(r.states[0], r.ops[0], r.times[0], r.states[1]) &&
            Next(r.states[1], r.ops[1], r.times[1], r.states[2])
    requires Next(r.states[2], r.ops[2], r.times[2], r.states[3]) &&
            Next(r.states[3], r.ops[3], r.times[3], r.states[4])
    requires Next(r.states[4], r.ops[4], r.times[4], r.states[5]) &&
            Next(r.states[5], r.ops[5], r.times[5], r.states[6])
    requires Next(r.states[6], r.ops[6], r.times[6], r.states[7]) &&
            Next(r.states[7], r.ops[7], r.times[7], r.states[8])
    ensures IsRun(r)
  {
    hide Next, Init;
  }
}
