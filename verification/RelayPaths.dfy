/** Reverse paths: who is told that a peer is gone because it has heard from it. */
module RelayPaths {
  import opened Types
  import opened RelayState
  import opened RelayIndex
  import opened RelayRuns
  import opened RelayFrames

  predicate InPaths(paths: Paths, a: NodeKey, b: NodeKey) {
    a in paths && b in paths[a]
  }

  /** This step hands a packet from a to a session of b that has never had one from a before. */
  predicate FirstContact(s: State, op: Op, a: NodeKey, b: NodeKey)
    requires Refs(s)
  {
    && op.Route? && op.p.src == a && op.p.dst == b
    && var o := OutcomeOf(s, b, op.forwarded);
       o.Delivered? && a !in s.sessions[o.to].seenSources
  }

  /** This step hands session t its first packet from a. */
  predicate FirstContactWith(s: State, op: Op, a: NodeKey, t: SessionId)
    requires Refs(s)
  {
    && op.Route? && op.p.src == a && OutcomeOf(s, op.p.dst, op.forwarded) == Delivered(t)
    && t in s.sessions && a !in s.sessions[t].seenSources
  }

  /** The last session of k leaves. */
  predicate Leaves(s: State, t: State, k: NodeKey) {
    k in s.index.peers && k !in t.index.peers
  }

  lemma UnregisterPaths(s: State, id: SessionId, a: NodeKey, b: NodeKey)
    requires Refs(s) && Live(s, id)
    ensures var t := Unregistered(s, id);
      && (InPaths(t.paths, a, b) <==>
            && InPaths(s.paths, a, b)
            && !(Departs(s, id) && (a == s.sessions[id].info.key || b == s.sessions[id].info.key)))
      && (Leaves(s, t, a) <==> Departs(s, id) && a == s.sessions[id].info.key)
  {
    hide DetachedSessions, DetachedStats, ErasedSessions, IndexRefs, RouteRefs, Without;
    DetachedHandles(s, id);
  }

  lemma RoutePaths(s: State, p: Packet, forwarded: bool, a: NodeKey, b: NodeKey)
    requires Refs(s)
    ensures InPaths(RoutedPaths(s, p, forwarded), a, b) <==>
            InPaths(s.paths, a, b) ||
            (p.src == a && p.dst == b && OutcomeOf(s, b, forwarded).Delivered?
             && a !in s.sessions[OutcomeOf(s, b, forwarded).to].seenSources)
  {
    hide GroupRefs, RouteRefs, FirstOpen, CanTake;
  }

  lemma OtherPaths(s: State, op: Op, now: real)
    requires Refs(s) && Enabled(s, op) && !op.Unregister? && !op.Route?
    ensures Step(s, op, now).paths == s.paths && s.index.peers.Keys <= Step(s, op, now).index.peers.Keys
  {
    hide Refs, Unregistered, RegisteredSessions, Routed, Snapshot, Enumerates, RouteAdded, RouteRemoved, MeshRemoved,
      PreferredStats, PushAll, PickActive;
  }

  /** The reverse paths gain an entry by first contact only, and lose it when either end leaves, only. */
  lemma PathsStep(s: State, op: Op, now: real, a: NodeKey, b: NodeKey)
    requires Sound(s) && Enabled(s, op)
    requires InPaths(s.paths, a, b) ==> b in s.index.peers
    ensures var t := Step(s, op, now);
      && (InPaths(t.paths, a, b) <==>
            FirstContact(s, op, a, b) || (InPaths(s.paths, a, b) && !Leaves(s, t, a) && !Leaves(s, t, b)))
      && (FirstContact(s, op, a, b) ==> b in t.index.peers && !Leaves(s, t, a))
  {
    hide Registered, Unregistered, ActivityNoted, RoutedSessions, RoutedPaths, RoutedMesh, RoutedStats, Watched,
      PeerClosed, RestartAnnounced, IndexRefs, RouteRefs, PickActive, InPaths, CanTake, FirstOpen;
    match op
    case Unregister(id) =>
      UnregisterPaths(s, id, a, b);
      UnregisterPaths(s, id, b, a);
    case Route(_, p, forwarded) => RoutePaths(s, p, forwarded, a, b);
    case _ => OtherPaths(s, op, now);
  }

  // ---------------------------------------------------------------- over a run

  predicate ContactAt(r: Run, i: nat, a: NodeKey, b: NodeKey)
    requires IsRun(r) && i < |r.ops|
  {
    assert Next(r.states[i], r.ops[i], r.times[i], r.states[i + 1]);
    FirstContact(r.states[i], r.ops[i], a, b)
  }

  predicate ContactWith(r: Run, i: nat, a: NodeKey, t: SessionId)
    requires IsRun(r) && i < |r.ops|
  {
    assert Next(r.states[i], r.ops[i], r.times[i], r.states[i + 1]);
    FirstContactWith(r.states[i], r.ops[i], a, t)
  }

  predicate StaysFrom(r: Run, i: nat, n: nat, b: NodeKey)
    requires n < |r.states|
  {
    forall j :: i < j <= n ==> b in r.states[j].index.peers
  }

  predicate NoLeaveBetween(r: Run, i: nat, n: nat, a: NodeKey)
    requires n < |r.states|
  {
    forall j :: i < j < n ==> !Leaves(r.states[j], r.states[j + 1], a)
  }

  /** Before state n, a session of b had its first packet from a; since then b has been connected all along
      and a has not left. */
  predicate HasHeard(r: Run, n: nat, a: NodeKey, b: NodeKey)
    requires IsRun(r) && n < |r.states|
  {
    exists i :: 0 <= i < n && ContactAt(r, i, a, b) && StaysFrom(r, i, n, b) && NoLeaveBetween(r, i, n, a)
  }

  /** The reverse paths, exactly: b is recorded for a if and only if some session of b first heard from a
      during b's current stay and since a last left. */
  lemma {:induction false} ReversePathExact(r: Run, n: nat, a: NodeKey, b: NodeKey)
    requires IsRun(r) && n < |r.states|
    ensures InPaths(r.states[n].paths, a, b) <==> HasHeard(r, n, a, b)
    ensures InPaths(r.states[n].paths, a, b) ==> b in r.states[n].index.peers
  {
    hide Step, Enabled, Sound, FirstContact, InPaths, Leaves;
    if n == 0 {
      InitPaths(r.states[0].depth, a, b);
    } else {
      var s, op, t := r.states[n - 1], r.ops[n - 1], r.states[n];
      assert Next(s, op, r.times[n - 1], t);
      ReversePathExact(r, n - 1, a, b);
      IndexAgreement(r, n - 1);
      PathsStep(s, op, r.times[n - 1], a, b);
      if HasHeard(r, n, a, b) {
        HeardBackward(r, n, a, b);
      }
      if InPaths(t.paths, a, b) {
        HeardForward(r, n, a, b);
      }
    }
  }

  lemma InitPaths(depth: nat, a: NodeKey, b: NodeKey)
    ensures !InPaths(Init(depth).paths, a, b)
  {
  }

  lemma HeardForward(r: Run, n: nat, a: NodeKey, b: NodeKey)
    requires IsRun(r) && 0 < n < |r.states|
    requires Sound(r.states[n - 1])
    requires InPaths(r.states[n - 1].paths, a, b) ==> HasHeard(r, n - 1, a, b) && b in r.states[n - 1].index.peers
    requires InPaths(r.states[n].paths, a, b)
    ensures HasHeard(r, n, a, b) && b in r.states[n].index.peers
  {
    hide Step, Enabled, FirstContact, InPaths, Agreement, IndexRefs, RouteRefs;
    var s, op, t := r.states[n - 1], r.ops[n - 1], r.states[n];
    assert Next(s, op, r.times[n - 1], t);
    PathsStep(s, op, r.times[n - 1], a, b);
    if FirstContact(s, op, a, b) {
      assert ContactAt(r, n - 1, a, b);
      assert StaysFrom(r, n - 1, n, b) && NoLeaveBetween(r, n - 1, n, a);
    } else {
      var i :| 0 <= i < n - 1 && ContactAt(r, i, a, b) && StaysFrom(r, i, n - 1, b) && NoLeaveBetween(r, i, n - 1, a);
      assert StaysFrom(r, i, n, b) && NoLeaveBetween(r, i, n, a);
    }
  }

  lemma HeardBackward(r: Run, n: nat, a: NodeKey, b: NodeKey)
    requires IsRun(r) && 0 < n < |r.states| && HasHeard(r, n, a, b)
    requires Sound(r.states[n - 1])
    requires HasHeard(r, n - 1, a, b) ==> InPaths(r.states[n - 1].paths, a, b)
    requires InPaths(r.states[n - 1].paths, a, b) ==> b in r.states[n - 1].index.peers
    ensures InPaths(r.states[n].paths, a, b)
  {
    hide Step, Enabled, FirstContact, InPaths, Agreement, IndexRefs, RouteRefs;
    var s, op, t := r.states[n - 1], r.ops[n - 1], r.states[n];
    assert Next(s, op, r.times[n - 1], t);
    var i :| 0 <= i < n && ContactAt(r, i, a, b) && StaysFrom(r, i, n, b) && NoLeaveBetween(r, i, n, a);
    if i < n - 1 {
      assert StaysFrom(r, i, n - 1, b) && NoLeaveBetween(r, i, n - 1, a);
    }
    PathsStep(s, op, r.times[n - 1], a, b);
  }

  /** When the last session of a leaves, session i is told through the reverse path if and only if it is the
      current route of another key that has heard from a; watchers are told in any case. */
  lemma DepartureNotices(r: Run, n: nat, i: SessionId)
    requires IsRun(r) && n < |r.ops| && r.ops[n].Unregister? && i in r.states[n].sessions
    requires Next(r.states[n], r.ops[n], r.times[n], r.states[n + 1]) && Departs(r.states[n], r.ops[n].id)
    ensures var s, id := r.states[n], r.ops[n].id;
      var a, b := s.sessions[id].info.key, s.sessions[i].info.key;
      Emit(s, r.ops[n], r.times[n], i) ==
      (if i in s.index.watchers && i != id then [PeerGone(a, DISCONNECTED)] else [])
      + (if b != a && b in s.index.active && s.index.active[b] == i && HasHeard(r, n, a, b)
         then [PeerGone(a, DISCONNECTED)] else [])
  {
    hide HasHeard, IndexRefs, RouteRefs, Step, UnregisterEmit, InPaths;
    var s, id := r.states[n], r.ops[n].id;
    ReversePathExact(r, n, s.sessions[id].info.key, s.sessions[i].info.key);
    DepartureEmit(s, id, i);
  }

  lemma DepartureEmit(s: State, id: SessionId, i: SessionId)
    requires Refs(s) && id in s.sessions && i in s.sessions && Departs(s, id)
    ensures var a, b := s.sessions[id].info.key, s.sessions[i].info.key;
      UnregisterEmit(s, id, i) ==
      (if i in s.index.watchers && i != id then [PeerGone(a, DISCONNECTED)] else [])
      + (if b != a && b in s.index.active && s.index.active[b] == i && InPaths(s.paths, a, b)
         then [PeerGone(a, DISCONNECTED)] else [])
  {
    hide DetachedSessions, DetachedStats, IndexRefs, RouteRefs, Without;
    DetachedHandles(s, id);
  }

  // ---------------------------------------------------------------- the per-session cache

  lemma SeenRegister(s: State, info: Info, now: real, t: SessionId)
    requires Refs(s) && t in Registered(s, info, now).sessions
    ensures Registered(s, info, now).sessions[t].seenSources ==
            if t == s.index.nextId then {} else if t in s.sessions then s.sessions[t].seenSources else {}
  {
    hide RegisterEmit, ActiveRefs, GroupRefs, RouteRefs, PushAll, Joined;
  }

  lemma SeenUnregister(s: State, id: SessionId, t: SessionId)
    requires Refs(s) && Live(s, id) && t in s.sessions
    ensures t in Unregistered(s, id).sessions && Unregistered(s, id).sessions[t].seenSources ==
            s.sessions[t].seenSources
  {
    hide EraseEmit, DetachedIndex, DetachedStats, ErasedPaths, ErasedIndex, ActiveRefs, RouteRefs, Departs, Without,
      PushAll;
    DetachedHandles(s, id);
    var d, rest := Detached(s, id), Survivors(s, id);
    WithoutMembers(Members(s.index, s.sessions[id].info.key), id);
    assert |rest| == 1 ==> rest[0] in rest;
    assert d.sessions[t].seenSources == s.sessions[t].seenSources;
  }

  lemma SeenRoute(s: State, source: SessionId, p: Packet, forwarded: bool, now: real, t: SessionId)
    requires Refs(s) && source in s.sessions && t in s.sessions
    ensures t in RoutedSessions(s, source, p, forwarded, now)
    ensures RoutedSessions(s, source, p, forwarded, now)[t].seenSources ==
            s.sessions[t].seenSources + if OutcomeOf(s, p.dst, forwarded) == Delivered(t) then {p.src} else {}
  {
    hide GroupRefs, RouteRefs, LooksLikeDisco, FirstOpen, PushAll;
  }

  lemma SeenOther(s: State, op: Op, now: real, t: SessionId)
    requires Refs(s) && Enabled(s, op) && t in s.sessions && !op.Register? && !op.Unregister? && !op.Route?
    ensures t in Step(s, op, now).sessions && Step(s, op, now).sessions[t].seenSources == s.sessions[t].seenSources
  {
    hide Registered, Unregistered, Routed, Snapshot, Enumerates, Refs, RouteAdded, RouteRemoved, MeshRemoved,
      PreferredStats, PushAll, ActivityIndex, Members;
  }

  /** A session's set of seen sources grows by first contact only. */
  lemma SeenStep(s: State, op: Op, now: real, t: SessionId, a: NodeKey)
    requires Refs(s) && Enabled(s, op) && t in Step(s, op, now).sessions
    requires a in Step(s, op, now).sessions[t].seenSources
    ensures t in s.sessions
    ensures a in s.sessions[t].seenSources || FirstContactWith(s, op, a, t)
  {
    hide Registered, ActivityNoted, PreferredNoted, Unregistered, RoutedSessions, RoutedPaths, RoutedMesh,
      RoutedStats, Watched, PeerClosed, RestartAnnounced, Ponged, Dequeued, ReceiverDropped, Members, Enumerates,
      Refs, OutcomeOf;
    HandlesStep(s, op, now);
    match op
    case Register(info) => SeenRegister(s, info, now, t);
    case Unregister(id) => SeenUnregister(s, id, t);
    case Route(source, p, forwarded) => SeenRoute(s, source, p, forwarded, now, t);
    case _ => SeenOther(s, op, now, t);
  }

  /** A session stays live from its registration to its one unregister. */
  lemma LiveBefore(s: State, op: Op, now: real, t: SessionId)
    requires Refs(s) && Enabled(s, op) && t in s.sessions && Live(Step(s, op, now), t)
    ensures Live(s, t)
  {
    hide Registered, ActivityNoted, Unregistered, Routed, Watched, PeerClosed, RestartAnnounced, PreferredNoted,
      ActiveRefs, GroupRefs, RouteRefs, Live;
    if op.Register? {
      LiveRegister(s, op.info, now, t);
    } else if op.Unregister? {
      LiveUnregister(s, op.id, t);
    } else {
      LiveOther(s, op, now, t);
    }
  }

  lemma {:induction false} LiveSince(r: Run, i: nat, j: nat, n: nat, t: SessionId)
    requires IsRun(r) && i <= j <= n < |r.states| && t in r.states[i].sessions && Live(r.states[n], t)
    ensures Live(r.states[j], t) && r.states[j].sessions[t].info == r.states[i].sessions[t].info
    decreases n - j
  {
    hide Step, Enabled, Sound, Live;
    HandlesSince(r, i, j, t);
    if j < n {
      LiveSince(r, i, j + 1, n, t);
      IndexAgreement(r, j);
      assert Next(r.states[j], r.ops[j], r.times[j], r.states[j + 1]);
      LiveBefore(r.states[j], r.ops[j], r.times[j], t);
    }
  }

  lemma {:induction false} HandlesSince(r: Run, i: nat, j: nat, t: SessionId)
    requires IsRun(r) && i <= j < |r.states| && t in r.states[i].sessions
    ensures t in r.states[j].sessions && r.states[j].sessions[t].info == r.states[i].sessions[t].info
    decreases j
  {
    hide Step, Enabled;
    if i < j {
      HandlesSince(r, i, j - 1, t);
      assert Next(r.states[j - 1], r.ops[j - 1], r.times[j - 1], r.states[j]);
      HandlesStep(r.states[j - 1], r.ops[j - 1], r.times[j - 1]);
    }
  }

  /** A source that a session has seen made first contact with it at some earlier step. */
  lemma {:induction false} SeenByContact(r: Run, n: nat, t: SessionId, a: NodeKey) returns (i: nat)
    requires IsRun(r) && n < |r.states| && t in r.states[n].sessions && a in r.states[n].sessions[t].seenSources
    ensures i < n && i < |r.ops| && t in r.states[i].sessions && ContactWith(r, i, a, t)
  {
    hide Step, Enabled, FirstContactWith;
    if n == 0 {
      assert false;
    } else {
      var s, op := r.states[n - 1], r.ops[n - 1];
      assert Next(s, op, r.times[n - 1], r.states[n]);
      SeenStep(s, op, r.times[n - 1], t, a);
      if a in s.sessions[t].seenSources {
        i := SeenByContact(r, n - 1, t, a);
      } else {
        i := n - 1;
        assert ContactWith(r, n - 1, a, t);
      }
    }
  }

  /** First contact with a session of b is first contact with b. */
  lemma ContactWithKey(r: Run, i: nat, a: NodeKey, t: SessionId)
    requires IsRun(r) && i < |r.ops| && ContactWith(r, i, a, t)
    ensures t in r.states[i].sessions && ContactAt(r, i, a, r.states[i].sessions[t].info.key)
  {
    hide Step, Enabled, GroupRefs, RouteRefs, CanTake, FirstOpen;
    assert Next(r.states[i], r.ops[i], r.times[i], r.states[i + 1]);
  }

  /** Every source in a live session's cache either has its reverse path recorded or has left since it made
      first contact with that very session. */
  lemma SeenOrLeft(r: Run, n: nat, t: SessionId, a: NodeKey)
    requires IsRun(r) && n < |r.states| && Live(r.states[n], t) && a in r.states[n].sessions[t].seenSources
    ensures var b := r.states[n].sessions[t].info.key;
      || InPaths(r.states[n].paths, a, b)
      || exists i, j :: 0 <= i < j < n && ContactWith(r, i, a, t) && Leaves(r.states[j], r.states[j + 1], a)
  {
    hide IsRun, ContactAt, ContactWith, InPaths, Leaves, Members;
    var i := SeenByContact(r, n, t, a);
    ContactWithKey(r, i, a, t);
    var b := r.states[n].sessions[t].info.key;
    LiveSince(r, i, n, n, t);
    if !exists j :: i < j < n && Leaves(r.states[j], r.states[j + 1], a) {
      forall j | i < j <= n ensures b in r.states[j].index.peers {
        LiveSince(r, i, j, n, t);
        LiveHasKey(r.states[j], t);
      }
      assert StaysFrom(r, i, n, b) && NoLeaveBetween(r, i, n, a);
      ReversePathExact(r, n, a, b);
    }
  }

  lemma LiveHasKey(s: State, t: SessionId)
    requires Live(s, t)
    ensures s.sessions[t].info.key in s.index.peers
  {
  }
}
