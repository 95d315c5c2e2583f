/** The hot-path index `active` against the session sets in `peers`, over every interleaving of the relay's
    operations, with `unregister` as one step or as its two halves. */
module RelayIndex {
  import opened Types
  import opened RelayState

  // ---------------------------------------------------------------- references stay sound

  /** b knows exactly a's handles, each with what it was registered with. */
  predicate SameHandles(a: Sessions, b: Sessions) {
    && a.Keys == b.Keys
    && (forall id :: id in a ==> b[id].info == a[id].info)
  }

  lemma SameHandlesRefs(x: Index, a: Sessions, b: Sessions)
    requires SameHandles(a, b)
    ensures IndexRefs(x, a) ==> IndexRefs(x, b)
  {
  }

  lemma RegisteredHandles(s: State, info: Info, now: real)
    requires Refs(s)
    ensures var t := Registered(s, info, now);
      && t.sessions.Keys == s.sessions.Keys + {s.index.nextId}
      && t.sessions[s.index.nextId].info == info
      && forall id :: id in s.sessions ==> t.sessions[id].info == s.sessions[id].info
  {
    hide RegisterEmit, ActiveRefs, GroupRefs, RouteRefs, PushAll, Joined;
  }

  lemma RefsRegistered(s: State, info: Info, now: real)
    requires Refs(s)
    ensures Refs(Registered(s, info, now))
  {
    hide RegisteredSessions;
    RegisteredHandles(s, info, now);
  }

  lemma RefsActivity(s: State, key: NodeKey, id: SessionId)
    requires Refs(s) && id in Members(s.index, key)
    ensures IndexRefs(ActivityIndex(s.index, key, id), s.sessions)
  {
  }

  lemma DetachedHandles(s: State, id: SessionId)
    requires Refs(s) && id in s.sessions
    ensures SameHandles(s.sessions, Detached(s, id).sessions)
    ensures id in Detached(s, id).sessions && Detached(s, id).sessions[id].info == s.sessions[id].info
  {
    hide DetachedIndex, PushAll, Without, RouteRefs, ActiveRefs, DetachedStats;
    var rest := Survivors(s, id);
    WithoutMembers(Members(s.index, s.sessions[id].info.key), id);
    assert |rest| == 1 ==> rest[0] in rest;
  }

  lemma RefsDetached(s: State, id: SessionId)
    requires Refs(s) && id in s.sessions
    ensures Refs(Detached(s, id))
  {
    hide DetachedSessions, DetachedStats, Without;
    var key := s.sessions[id].info.key;
    WithoutMembers(Members(s.index, key), id);
    DetachedHandles(s, id);
    assert IndexRefs(DetachedIndex(s.index, key, id), s.sessions);
    SameHandlesRefs(DetachedIndex(s.index, key, id), s.sessions, Detached(s, id).sessions);
  }

  lemma RefsErased(s: State, id: SessionId)
    requires Refs(s) && id in s.sessions
    ensures Refs(Erased(s, id)) && SameHandles(s.sessions, Erased(s, id).sessions)
  {
    hide EraseEmit, PushAll, ErasedPaths, RouteRefs;
  }

  lemma RoutedHandles(s: State, source: SessionId, p: Packet, forwarded: bool, now: real)
    requires Refs(s) && source in s.sessions
    ensures SameHandles(s.sessions, RoutedSessions(s, source, p, forwarded, now))
  {
    hide GroupRefs, RouteRefs, LooksLikeDisco, FirstOpen, PushAll;
  }

  lemma RefsRouted(s: State, source: SessionId, p: Packet, forwarded: bool, now: real)
    requires Refs(s) && source in s.sessions
    ensures Refs(Routed(s, source, p, forwarded, now))
  {
    hide IndexRefs, RoutedSessions, RoutedPaths, RoutedStats, OutcomeOf;
    RoutedHandles(s, source, p, forwarded, now);
    SameHandlesRefs(s.index, s.sessions, RoutedSessions(s, source, p, forwarded, now));
  }

  lemma {:induction false} WithoutMeshMembers(routes: seq<MeshRoute>, m: MeshId)
    ensures forall r :: r in WithoutMesh(routes, m) <==> r in routes && r.meshId != m
  {
    if routes != [] {
      WithoutMeshMembers(routes[..|routes| - 1], m);
      assert routes == routes[..|routes| - 1] + [routes[|routes| - 1]];
    }
  }

  lemma RefsRoutes(mesh: Mesh, m: MeshId, peer: NodeKey, tx: ChannelId)
    requires RouteRefs(mesh)
    ensures RouteRefs(RouteRemoved(mesh, m, peer)) && RouteRefs(MeshRemoved(mesh, m))
    ensures tx in mesh.channels ==> RouteRefs(RouteAdded(mesh, m, peer, tx))
  {
    hide WithoutMesh, HasMesh;
    forall k | k in mesh.routes ensures forall r :: r in WithoutMesh(mesh.routes[k], m) ==> r in mesh.routes[k] {
      WithoutMeshMembers(mesh.routes[k], m);
    }
  }

  lemma RefsWatched(s: State, id: SessionId, order: seq<NodeKey>)
    requires Refs(s) && id in s.sessions
    ensures Refs(Watched(s, id, order))
  {
    hide RouteRefs, Snapshot, PushAll;
  }

  predicate Quiet(op: Op) {
    op.Prefer? || op.Close? || op.Restart? || op.SendPong? || op.Dequeue? || op.DropReceiver?
  }

  lemma QuietHandles(s: State, op: Op, now: real)
    requires Refs(s) && Enabled(s, op) && Quiet(op)
    ensures var t := Step(s, op, now);
      t.index == s.index && t.mesh == s.mesh && t.paths == s.paths && SameHandles(s.sessions, t.sessions)
  {
    hide Registered, Unregistered, Routed, RouteAdded, RouteRemoved, MeshRemoved, ActivityNoted, Watched, Refs,
      PushAll, PreferredStats;
  }

  /** References stay sound through every step, so no run is ever cut short by a dangling one. */
  lemma RefsStep(s: State, op: Op, now: real)
    requires Refs(s) && Enabled(s, op)
    ensures Refs(Step(s, op, now))
  {
    hide Registered, Detached, Erased, Routed, RouteAdded, RouteRemoved, MeshRemoved, ActivityIndex, Watched,
      Enumerates, Departs, IndexRefs, SameHandles;
    match op
    case Register(info) => RefsRegistered(s, info, now);
    case NoteActivity(id) => RefsActivity(s, s.sessions[id].info.key, id);
    case Unregister(id) =>
      DetachedHandles(s, id);
      RefsDetached(s, id);
      RefsErased(Detached(s, id), id);
    case Route(source, p, forwarded) => RefsRouted(s, source, p, forwarded, now);
    case AddRoute(m, peer, tx) => RefsRoutes(s.mesh, m, peer, tx);
    case RemoveRoute(m, peer) => RefsRoutes(s.mesh, m, peer, 0);
    case RemoveMesh(m) => RefsRoutes(s.mesh, m, 1, 0);
    case Watch(id, order) => RefsWatched(s, id, order);
    case OpenChannel(_, _) =>
    case OfferChannel(_, _) =>
    case TakeChannel(_) =>
    case CloseChannel(_) =>
    case _ =>
      QuietHandles(s, op, now);
      SameHandlesRefs(s.index, s.sessions, Step(s, op, now).sessions);
  }

  /** Only registering makes a handle, and no step changes what a handle was registered with. */
  lemma HandlesStep(s: State, op: Op, now: real)
    requires Refs(s) && Enabled(s, op)
    ensures var t := Step(s, op, now);
      && t.sessions.Keys == s.sessions.Keys + (if op.Register? then {s.index.nextId} else {})
      && (forall id :: id in s.sessions ==> t.sessions[id].info == s.sessions[id].info)
      && (op.Register? ==> t.sessions[s.index.nextId].info == op.info)
  {
    hide Registered, Detached, Erased, RoutedSessions, RoutedPaths, RoutedMesh, RoutedStats, RouteAdded, RouteRemoved,
      MeshRemoved, ActivityIndex, Enumerates, Departs, Refs, Snapshot, PushAll, PeerClosed, RestartAnnounced,
      PreferredNoted, Dequeued, ReceiverDropped;
    match op
    case Register(info) => RegisteredHandles(s, info, now);
    case Unregister(id) =>
      DetachedHandles(s, id);
      RefsDetached(s, id);
      RefsErased(Detached(s, id), id);
    case Route(source, p, forwarded) => RoutedHandles(s, source, p, forwarded, now);
    case Prefer(_, _) => QuietHandles(s, op, now);
    case Close(_, _) => QuietHandles(s, op, now);
    case Restart(_, _) => QuietHandles(s, op, now);
    case SendPong(_, _) => QuietHandles(s, op, now);
    case Dequeue(_, _) => QuietHandles(s, op, now);
    case DropReceiver(_) => QuietHandles(s, op, now);
    case _ =>
  }

  lemma LiveStored(s: State, j: SessionId)
    ensures Live(s, j) ==> j in s.sessions
  {
  }

  lemma StepRegisters(s: State, op: Op, now: real)
    requires Refs(s) && op.Register?
    ensures Step(s, op, now) == Registered(s, op.info, now)
  {
    hide Registered;
  }

  lemma LiveRegister(s: State, info: Info, now: real, i: SessionId)
    requires Refs(s)
    ensures Live(Registered(s, info, now), i) <==> Live(s, i) || i == s.index.nextId
  {
    hide RegisteredSessions, RouteRefs, ActiveRefs;
    RegisteredHandles(s, info, now);
  }

  lemma LiveUnregister(s: State, id: SessionId, i: SessionId)
    requires Refs(s) && Live(s, id)
    ensures Live(Unregistered(s, id), i) <==> Live(s, i) && i != id
  {
    hide DetachedSessions, DetachedStats, ErasedSessions, ErasedPaths, RouteRefs, ActiveRefs, Without;
    DetachedHandles(s, id);
    RefsDetached(s, id);
    RefsErased(Detached(s, id), id);
    WithoutMembers(Members(s.index, s.sessions[id].info.key), id);
  }

  lemma LiveOther(s: State, op: Op, now: real, i: SessionId)
    requires Refs(s) && Enabled(s, op) && !op.Register? && !op.Unregister?
    ensures Live(Step(s, op, now), i) <==> Live(s, i)
  {
    hide Registered, Unregistered, RoutedSessions, RoutedPaths, RoutedMesh, RoutedStats, Snapshot, Enumerates, Refs,
      RouteAdded, RouteRemoved, MeshRemoved, PreferredStats, PushAll, PickActive, PeerClosed, RestartAnnounced,
      Ponged, Dequeued, ReceiverDropped;
    HandlesStep(s, op, now);
    if Quiet(op) {
      QuietHandles(s, op, now);
    }
  }

  // ---------------------------------------------------------------- the two indexes agree

  predicate Increasing(ids: seq<SessionId>) {
    forall i, j :: 0 <= i < j < |ids| ==> ids[i] < ids[j]
  }

  /** For one key: the set is not empty, its ids increase, the session it names active is in it, and the
      hot-path index names the session that `PeerSet::active` would pick. */
  predicate Agrees(x: Index, k: NodeKey) {
    && k in x.peers && k in x.active
    && x.peers[k].sessions != []
    && Increasing(x.peers[k].sessions)
    && x.peers[k].active in x.peers[k].sessions
    && PickActive(x.peers[k]) == Some(x.active[k])
  }

  /** A key whose last session is half unregistered: the set is empty, `active` still names the session. */
  predicate Leaving(x: Index, k: NodeKey, id: SessionId) {
    k in x.peers && k in x.active && x.peers[k].sessions == [] && x.active[k] == id
  }

  predicate IdsBelow(x: Index) {
    forall k, id :: k in x.peers && id in x.peers[k].sessions ==> id < x.nextId
  }

  type Pending = map<NodeKey, SessionId>

  predicate Agreement(x: Index, pending: Pending) {
    && x.peers.Keys == x.active.Keys
    && (forall k :: k in x.peers && k !in pending ==> Agrees(x, k))
    && (forall k :: k in pending ==> Leaving(x, k, pending[k]))
    && IdsBelow(x)
  }

  lemma {:induction false} WithoutIncreasing(ids: seq<SessionId>, id: SessionId)
    requires Increasing(ids)
    ensures Increasing(Without(ids, id))
  {
    if ids != [] {
      var front := ids[..|ids| - 1];
      WithoutIncreasing(front, id);
      WithoutMembers(front, id);
      forall i | 0 <= i < |Without(front, id)| ensures Without(front, id)[i] < ids[|ids| - 1] {
        assert Without(front, id)[i] in Without(front, id);
      }
    }
  }

  /** Changing one key's entries leaves the agreement of the others alone. */
  lemma OtherKeysAgree(x: Index, y: Index, pending: Pending, after: Pending, key: NodeKey)
    requires Agreement(x, pending) && IdsBelow(y)
    requires y.peers.Keys == y.active.Keys && y.peers.Keys + {key} == x.peers.Keys + {key}
    requires forall k :: k in x.peers && k != key ==> y.peers[k] == x.peers[k] && y.active[k] == x.active[k]
    requires forall k :: k != key ==> (k in after <==> k in pending) && (k in pending ==> after[k] == pending[k])
    requires key in y.peers ==> if key in after then Leaving(y, key, after[key]) else Agrees(y, key)
    requires key !in y.peers ==> key !in after
    ensures Agreement(y, after)
  {
    forall k | k in y.peers && k !in after && k != key ensures Agrees(y, k) {
      assert Agrees(x, k);
    }
    forall k | k in after && k != key ensures Leaving(y, k, after[k]) {
      assert Leaving(x, k, pending[k]);
    }
  }

  lemma RegisterAgrees(x: Index, pending: Pending, key: NodeKey)
    requires Agreement(x, pending) && key !in pending
    ensures Agreement(RegisteredIndex(x, key), pending)
  {
    var y := RegisteredIndex(x, key);
    assert key in x.peers ==> Agrees(x, key);
    forall i | 0 <= i < |Members(x, key)| ensures Members(x, key)[i] < x.nextId {
      assert Members(x, key)[i] in Members(x, key);
    }
    assert y.peers[key].sessions[|Members(x, key)|] == x.nextId;
    OtherKeysAgree(x, y, pending, pending, key);
  }

  lemma ActivityAgrees(x: Index, pending: Pending, key: NodeKey, id: SessionId)
    requires Agreement(x, pending) && id in Members(x, key)
    ensures Agreement(ActivityIndex(x, key, id), pending)
  {
    assert Agrees(x, key);
    OtherKeysAgree(x, ActivityIndex(x, key, id), pending, pending, key);
  }

  lemma DetachAgrees(x: Index, pending: Pending, key: NodeKey, id: SessionId)
    requires Agreement(x, pending) && id in Members(x, key)
    ensures Without(Members(x, key), id) != [] ==> Agreement(DetachedIndex(x, key, id), pending)
    ensures Without(Members(x, key), id) == [] ==> Agreement(DetachedIndex(x, key, id), pending[key := id])
  {
    hide Without, Increasing;
    var y, rest := DetachedIndex(x, key, id), Without(Members(x, key), id);
    assert key !in pending && Agrees(x, key);
    WithoutMembers(Members(x, key), id);
    if rest != [] {
      WithoutIncreasing(Members(x, key), id);
      assert rest[|rest| - 1] in rest;
      OtherKeysAgree(x, y, pending, pending, key);
    } else {
      assert x.active[key] in Members(x, key);
      OtherKeysAgree(x, y, pending, pending[key := id], key);
    }
  }

  lemma EraseAgrees(x: Index, pending: Pending, key: NodeKey)
    requires Agreement(x, pending) && key in pending
    ensures Agreement(ErasedIndex(x, key), pending - {key})
  {
    OtherKeysAgree(x, ErasedIndex(x, key), pending, pending - {key}, key);
  }

  lemma WatcherAgrees(x: Index, pending: Pending, watchers: set<SessionId>)
    requires Agreement(x, pending)
    ensures Agreement(x.(watchers := watchers), pending)
  {
    var y := x.(watchers := watchers);
    forall k | k in y.peers && k !in pending ensures Agrees(y, k) {
      assert Agrees(x, k);
    }
  }

  // ---------------------------------------------------------------- interleavings with a split unregister

  /** Relay steps, with the two halves of `unregister` as steps of their own. */
  datatype SplitOp = Whole(op: Op) | Detach(id: SessionId) | Erase(id: SessionId)

  datatype SplitState = SplitState(s: State, pending: Pending)

  /** The one interleaving left out is a registration of a key between the two halves of the departure of
      its last session. */
  predicate SplitEnabled(c: SplitState, op: SplitOp) {
    match op
    case Whole(o) => Enabled(c.s, o) && !o.Unregister? && (o.Register? ==> o.info.key !in c.pending)
    case Detach(id) => Live(c.s, id)
    case Erase(id) =>
      id in c.s.sessions && c.s.sessions[id].info.key in c.pending && c.pending[c.s.sessions[id].info.key] == id
  }

  function SplitStep(c: SplitState, op: SplitOp, now: real): SplitState
    requires Refs(c.s) && SplitEnabled(c, op)
  {
    match op
    case Whole(o) => SplitState(Step(c.s, o, now), c.pending)
    case Detach(id) =>
      if Departs(c.s, id) then SplitState(Detached(c.s, id), c.pending[c.s.sessions[id].info.key := id])
      else SplitState(OneClientLess(Detached(c.s, id)), c.pending)
    case Erase(id) => SplitState(OneClientLess(Erased(c.s, id)), c.pending - {c.s.sessions[id].info.key})
  }

  predicate SplitInv(c: SplitState) {
    Refs(c.s) && Agreement(c.s.index, c.pending)
  }

  lemma WholeAgrees(s: State, pending: Pending, op: Op, now: real)
    requires Refs(s) && Agreement(s.index, pending) && Enabled(s, op) && !op.Unregister?
    requires op.Register? ==> op.info.key !in pending
    ensures Agreement(Step(s, op, now).index, pending)
  {
    hide Agreement, Refs, RegisteredIndex, RegisteredSessions, ActivityIndex, SameHandles, Snapshot, Enumerates,
      RoutedSessions, RoutedPaths, RoutedMesh, RoutedStats;
    match op
    case Register(info) => RegisterAgrees(s.index, pending, info.key);
    case NoteActivity(id) => ActivityAgrees(s.index, pending, s.sessions[id].info.key, id);
    case Watch(id, _) => WatcherAgrees(s.index, pending, s.index.watchers + {id});
    case Route(_, _, _) =>
    case AddRoute(_, _, _) =>
    case RemoveRoute(_, _) =>
    case RemoveMesh(_) =>
    case OpenChannel(_, _) =>
    case OfferChannel(_, _) =>
    case TakeChannel(_) =>
    case CloseChannel(_) =>
    case _ => QuietHandles(s, op, now);
  }

  /** Index agreement in every interleaving: no step, other-key steps between the halves included, breaks it. */
  lemma SplitPreserves(c: SplitState, op: SplitOp, now: real)
    requires SplitInv(c) && SplitEnabled(c, op)
    ensures SplitInv(SplitStep(c, op, now))
  {
    hide Agreement, Refs, Step, Detached, Erased, Enabled, Departs;
    match op
    case Whole(o) =>
      RefsStep(c.s, o, now);
      WholeAgrees(c.s, c.pending, o, now);
    case Detach(id) =>
      DetachHalf(c.s, c.pending, id);
    case Erase(id) =>
      EraseHalf(c.s, c.pending, id);
  }

  lemma DetachHalf(s: State, pending: Pending, id: SessionId)
    requires Refs(s) && Agreement(s.index, pending) && Live(s, id)
    ensures Refs(Detached(s, id)) && Refs(OneClientLess(Detached(s, id)))
    ensures Agreement(Detached(s, id).index, if Departs(s, id) then pending[s.sessions[id].info.key := id] else pending)
  {
    hide Agreement, IndexRefs, RouteRefs, DetachedIndex, DetachedSessions, DetachedStats, Without;
    RefsDetached(s, id);
    DetachAgrees(s.index, pending, s.sessions[id].info.key, id);
  }

  lemma EraseHalf(s: State, pending: Pending, id: SessionId)
    requires Refs(s) && Agreement(s.index, pending) && id in s.sessions && s.sessions[id].info.key in pending
    ensures Refs(OneClientLess(Erased(s, id)))
    ensures Agreement(Erased(s, id).index, pending - {s.sessions[id].info.key})
  {
    hide Agreement, IndexRefs, RouteRefs, ErasedIndex, ErasedSessions, ErasedPaths;
    RefsErased(s, id);
    EraseAgrees(s.index, pending, s.sessions[id].info.key);
  }

  predicate SplitRun(cs: seq<SplitState>, ops: seq<SplitOp>, times: seq<real>) {
    && |cs| == |ops| + 1 == |times| + 1
    && cs[0] == SplitState(Init(cs[0].s.depth), map[])
    && forall i :: 0 <= i < |ops| ==>
         Refs(cs[i].s) && SplitEnabled(cs[i], ops[i]) && cs[i + 1] == SplitStep(cs[i], ops[i], times[i])
  }

  /** Split-step agreement in every reachable state. */
  lemma {:induction false} SplitAgreement(cs: seq<SplitState>, ops: seq<SplitOp>, times: seq<real>, i: nat)
    requires SplitRun(cs, ops, times) && i < |cs|
    ensures SplitInv(cs[i])
  {
    hide SplitStep, SplitEnabled, Refs, Agreement;
    if i == 0 {
      InitAgrees(cs[0].s.depth);
    } else {
      SplitAgreement(cs, ops, times, i - 1);
      SplitPreserves(cs[i - 1], ops[i - 1], times[i - 1]);
    }
  }

  lemma InitAgrees(depth: nat)
    ensures Refs(Init(depth)) && Agreement(Init(depth).index, map[])
  {
  }
}
