/** Presence news between two servers: what a watching session is told, and what the mesh reader on the
    other side makes of it. */
module MeshNews {
  import opened Types
  import opened RelayState
  import opened RelayIndex
  import opened RelayRuns
  import opened RelayFrames
  import opened RelayNotices

  // ---------------------------------------------------------------- following the news

  /** The mesh reader's view after one frame; PeerGone removes whatever its reason. */
  function Hear(keys: set<NodeKey>, f: Frame): set<NodeKey> {
    match f
    case PeerPresent(peer, _, _, _) => keys + {peer}
    case PeerGone(peer, _) => keys - {peer}
    case _ => keys
  }

  function Follow(keys: set<NodeKey>, fs: seq<Frame>): set<NodeKey> {
    if fs == [] then keys else Hear(Follow(keys, fs[..|fs| - 1]), fs[|fs| - 1])
  }

  lemma {:induction false} FollowCat(keys: set<NodeKey>, fs: seq<Frame>, gs: seq<Frame>)
    ensures Follow(keys, fs + gs) == Follow(Follow(keys, fs), gs)
    decreases |gs|
  {
    if gs == [] {
      assert fs + gs == fs;
    } else {
      assert (fs + gs)[..|fs + gs| - 1] == fs + gs[..|gs| - 1];
      FollowCat(keys, fs, gs[..|gs| - 1]);
    }
  }

  /** At most one frame, present or not. */
  lemma FollowIf(keys: set<NodeKey>, yes: bool, f: Frame)
    ensures Follow(keys, if yes then [f] else []) == if yes then Hear(keys, f) else keys
  {
    assert [f][..0] == [];
  }

  predicate IsNews(f: Frame) {
    f.PeerPresent? || f.PeerGone?
  }

  /** No presence frame was lost to a full queue. */
  predicate NoNewsLost(offers: seq<Offer>) {
    forall i :: 0 <= i < |offers| && IsNews(offers[i].frame) ==> offers[i].accepted
  }

  /** When no news is lost, what is queued carries the same news as what was offered. */
  lemma {:induction false} QueuedNews(keys: set<NodeKey>, pre: seq<Frame>, b: Mailbox, fs: seq<Frame>, depth: nat)
    requires NoNewsLost(PushAll(b, fs, depth).offers)
    ensures NoNewsLost(b.offers)
    ensures Follow(keys, pre + PushAll(b, fs, depth).queue) == Follow(Follow(keys, pre + b.queue), fs)
  {
    if fs != [] {
      var front, last := fs[..|fs| - 1], fs[|fs| - 1];
      var c, d := PushAll(b, front, depth), PushAll(b, fs, depth);
      assert d == Push(c, last, depth);
      assert forall i :: 0 <= i < |c.offers| ==> d.offers[i] == c.offers[i];
      assert d.offers[|c.offers|].frame == last;
      QueuedNews(keys, pre, b, front, depth);
      if CanTake(c, depth) {
        assert (pre + d.queue)[..|pre + d.queue| - 1] == pre + c.queue;
      }
    }
  }

  // ---------------------------------------------------------------- the news is right

  lemma {:induction false} SnapshotNews(s: State, order: seq<NodeKey>, keys: set<NodeKey>)
    requires Sound(s) && forall i :: 0 <= i < |order| ==> order[i] in s.index.peers
    ensures Follow(keys, Snapshot(s, order)) == keys + (set k | k in order)
  {
    hide GroupRefs, RouteRefs, PickActive, Follow;
    if order == [] {
      FollowIf(keys, false, KeepAlive);
    } else {
      var front, k := order[..|order| - 1], order[|order| - 1];
      SnapshotNews(s, front, keys);
      assert Agrees(s.index, k);
      var f := PresentFrame(k, s.sessions[PickActive(s.index.peers[k]).value].info);
      FollowCat(keys, Snapshot(s, front), [f]);
      FollowIf(Follow(keys, Snapshot(s, front)), true, f);
      assert order == front + [k];
    }
  }

  lemma RegisterNews(x: Index, info: Info, w: SessionId, keys: set<NodeKey>)
    ensures Follow(keys, RegisterEmit(x, info, w)) == keys + if w in x.watchers then {info.key} else {}
  {
    hide Joined, Follow;
    var warn := |Joined(x, info.key)| > 1 && w in Joined(x, info.key);
    FollowIf(keys, warn, Health(DUPLICATE_TEXT));
    FollowIf(keys, w in x.watchers, PresentFrame(info.key, info));
    FollowCat(keys, if warn then [Health(DUPLICATE_TEXT)] else [],
              if w in x.watchers then [PresentFrame(info.key, info)] else []);
  }

  lemma EraseNews(s: State, key: NodeKey, id: SessionId, w: SessionId, keys: set<NodeKey>)
    requires w in s.sessions
    ensures Follow(keys, EraseEmit(s, key, id, w)) ==
            if (w in s.index.watchers && w != id) || HeardFrom(s, key, w) then keys - {key} else keys
  {
    hide HeardFrom, Follow;
    var f := PeerGone(key, DISCONNECTED);
    FollowIf(keys, w in s.index.watchers && w != id, f);
    FollowIf(keys, HeardFrom(s, key, w), f);
    FollowIf(keys - {key}, HeardFrom(s, key, w), f);
    FollowCat(keys, if w in s.index.watchers && w != id then [f] else [], if HeardFrom(s, key, w) then [f] else []);
  }

  lemma UnregisterNews(s: State, id: SessionId, w: SessionId, keys: set<NodeKey>)
    requires Refs(s) && Live(s, id) && w in s.sessions && w != id
    ensures keys - {s.sessions[id].info.key} <= Follow(keys, UnregisterEmit(s, id, w)) <= keys
    ensures !Departs(s, id) ==> Follow(keys, UnregisterEmit(s, id, w)) == keys
    ensures w in s.index.watchers && Departs(s, id) ==>
              Follow(keys, UnregisterEmit(s, id, w)) == keys - {s.sessions[id].info.key}
  {
    hide DetachedSessions, DetachedStats, IndexRefs, RouteRefs, HeardFrom, Without, Follow, EraseEmit, DetachEmit;
    DetachedHandles(s, id);
    var key, a := s.sessions[id].info.key, DetachEmit(s, id, w);
    var b := if Departs(s, id) then EraseEmit(Detached(s, id), key, id, w) else [];
    FollowCat(keys, a, b);
    assert Follow(keys, a) == keys by { DetachNews(s, id, w, keys); }
    if Departs(s, id) {
      EraseNews(Detached(s, id), key, id, w, keys);
    } else {
      FollowIf(keys, false, KeepAlive);
    }
  }

  lemma DetachNews(s: State, id: SessionId, w: SessionId, keys: set<NodeKey>)
    requires id in s.sessions
    ensures Follow(keys, DetachEmit(s, id, w)) == keys
  {
    hide Follow, Survivors;
    FollowIf(keys, |Survivors(s, id)| == 1 && Survivors(s, id)[0] == w, Health([]));
  }

  lemma RouteNews(s: State, op: Op, now: real, w: SessionId, keys: set<NodeKey>)
    requires Sound(s) && op.Route? && op.source in s.sessions && w in s.sessions
    ensures Follow(keys, RouteEmit(s, op.source, op.p, op.forwarded, now, w)) == keys ||
            (op.p.dst !in s.index.peers &&
             Follow(keys, RouteEmit(s, op.source, op.p, op.forwarded, now, w)) == keys - {op.p.dst})
  {
    hide Follow, IndexRefs, RouteRefs, Agrees, Leaving, RelayIndex.IdsBelow, FirstOpen, CanTake, LooksLikeDisco;
    var fs := RouteEmit(s, op.source, op.p, op.forwarded, now, w);
    if fs == [] {
      FollowIf(keys, false, KeepAlive);
    } else {
      FollowIf(keys, true, fs[0]);
      assert fs == [fs[0]];
    }
  }

  /** What session w is told about, as the other side should see it: the connected keys once it watches, and
      nothing before. */
  function View(s: State, w: SessionId): set<NodeKey> {
    if w in s.index.watchers then s.index.peers.Keys else {}
  }

  /** Every step keeps the news right: a reader that follows the frames offered to w goes from the old view to
      the new one. */
  lemma NewsStep(s: State, op: Op, now: real, w: SessionId)
    requires Sound(s) && Enabled(s, op) && w in s.sessions && op != Unregister(w)
    ensures Follow(View(s, w), Emit(s, op, now, w)) == View(Step(s, op, now), w)
  {
    hide Follow, RegisterEmit, UnregisterEmit, RouteEmit, Unregistered, RegisteredSessions, RoutedSessions,
      RoutedPaths, RoutedMesh, RoutedStats, Snapshot, Agreement, IndexRefs, RouteRefs, RouteAdded, RouteRemoved,
      MeshRemoved, PreferredStats, PickActive;
    match op
    case Register(info) => RegisterNews(s.index, info, w, View(s, w));
    case Unregister(id) =>
      UnregisterNews(s, id, w, View(s, w));
      UnregisterKeys(s, id);
    case Route(_, _, _) => RouteNews(s, op, now, w, View(s, w));
    case Watch(id, order) =>
      FollowIf(View(s, w), false, KeepAlive);
      if w == id && s.sessions[id].info.canMesh {
        SnapshotNews(s, order, View(s, w));
        assert (set k | k in order) == s.index.peers.Keys;
      }
    case Restart(a, b) => FollowIf(View(s, w), Live(s, w), Restarting(a, b));
    case SendPong(id, value) => FollowIf(View(s, w), w == id, Pong(value));
    case _ => FollowIf(View(s, w), false, KeepAlive);
  }

  lemma UnregisterKeys(s: State, id: SessionId)
    requires Refs(s) && Live(s, id)
    ensures var t := Unregistered(s, id);
      && t.index.peers.Keys == s.index.peers.Keys - (if Departs(s, id) then {s.sessions[id].info.key} else {})
      && t.index.watchers == s.index.watchers - {id}
  {
    hide DetachedSessions, DetachedStats, ErasedSessions, ErasedPaths, IndexRefs, RouteRefs, Without;
    DetachedHandles(s, id);
  }

  // ---------------------------------------------------------------- one link

  /** The reader of session w's frames has heard `heard`; `down` is under way to it and the rest still queued.
      Unless news was lost, following what is to come leads to the current view. */
  predicate Tracks(s: State, w: SessionId, heard: set<NodeKey>, down: seq<Frame>) {
    && w in s.sessions
    && (NoNewsLost(s.sessions[w].box.offers) ==> Follow(heard, down + s.sessions[w].box.queue) == View(s, w))
  }

  lemma TracksStep(s: State, op: Op, now: real, w: SessionId, heard: set<NodeKey>, down: seq<Frame>)
    requires Sound(s) && Enabled(s, op) && Tracks(s, w, heard, down) && op != Unregister(w)
    requires op.Dequeue? ==> op.id != w
    ensures Tracks(Step(s, op, now), w, heard, down)
  {
    hide Step, Emit, Sound, Enabled, View, Follow, NoNewsLost;
    assert Refs(s) by { SoundRefs(s); }
    BoxStep(s, op, now, w);
    if Outside(op) {
      OutsideKeepsNews(s, op, now, w);
    } else if NoNewsLost(Step(s, op, now).sessions[w].box.offers) {
      QueuedNews(heard, down, s.sessions[w].box, Emit(s, op, now, w), s.depth);
      NewsStep(s, op, now, w);
    }
  }

  lemma OutsideKeepsNews(s: State, op: Op, now: real, w: SessionId)
    requires Refs(s) && Enabled(s, op) && w in s.sessions && Outside(op) && (op.Dequeue? ==> op.id != w)
    ensures var t := Step(s, op, now);
      && w in t.sessions && t.sessions[w].box.queue == s.sessions[w].box.queue
      && t.sessions[w].box.offers == s.sessions[w].box.offers && View(t, w) == View(s, w)
  {
  }

  /** The session's writer moves a frame from the queue to the wire. */
  lemma TracksWrite(s: State, w: SessionId, now: real, heard: set<NodeKey>, down: seq<Frame>)
    requires Refs(s) && Tracks(s, w, heard, down) && s.sessions[w].box.queue != []
    ensures Tracks(Step(s, Dequeue(w, 1), now), w, heard, down + [s.sessions[w].box.queue[0]])
  {
    hide Follow, Refs, NoNewsLost;
    var q := s.sessions[w].box.queue;
    assert down + [q[0]] + q[1..] == down + q;
  }

  /** A keepalive from the writer carries no news. */
  lemma TracksControl(s: State, w: SessionId, heard: set<NodeKey>, down: seq<Frame>, f: Frame)
    requires Tracks(s, w, heard, down) && !IsNews(f)
    ensures Tracks(s, w, heard, down + [f])
  {
    hide Follow;
    var q := s.sessions[w].box.queue;
    FollowCat(heard, down, q);
    FollowCat(heard, down + [f], q);
    FollowCat(heard, down, [f]);
    FollowIf(Follow(heard, down), true, f);
  }

  /** The mesh reader takes a frame from the wire. */
  lemma TracksRead(s: State, w: SessionId, heard: set<NodeKey>, down: seq<Frame>)
    requires Tracks(s, w, heard, down) && down != []
    ensures Tracks(s, w, Hear(heard, down[0]), down[1..])
  {
    hide Follow;
    var q := s.sessions[w].box.queue;
    assert down + q == [down[0]] + (down[1..] + q);
    FollowCat(heard, [down[0]], down[1..] + q);
    FollowIf(heard, true, down[0]);
  }

  // ---------------------------------------------------------------- route tables

  /** The keys that mesh connection m currently offers a route to. */
  function RoutesOf(mesh: Mesh, m: MeshId): set<NodeKey> {
    set k | k in mesh.routes && HasMesh(mesh.routes[k], m)
  }

  /** No list is empty, none holds a connection twice, and a route's channel is that of its connection. */
  predicate MeshOk(mesh: Mesh) {
    forall k :: k in mesh.routes ==> ListOk(mesh.routes[k])
  }

  predicate ListOk(routes: seq<MeshRoute>) {
    && routes != []
    && (forall i, j :: 0 <= i < j < |routes| ==> routes[i].meshId != routes[j].meshId)
    && (forall i :: 0 <= i < |routes| ==> routes[i].tx == routes[i].meshId)
  }

  lemma {:induction false} WithoutMeshOk(routes: seq<MeshRoute>, m: MeshId)
    requires forall i, j :: 0 <= i < j < |routes| ==> routes[i].meshId != routes[j].meshId
    requires forall i :: 0 <= i < |routes| ==> routes[i].tx == routes[i].meshId
    ensures WithoutMesh(routes, m) != [] ==> ListOk(WithoutMesh(routes, m))
    ensures forall n :: HasMesh(WithoutMesh(routes, m), n) <==> n != m && HasMesh(routes, n)
  {
    if routes != [] {
      var front, last := routes[..|routes| - 1], routes[|routes| - 1];
      WithoutMeshOk(front, m);
      WithoutMeshMembers(front, m);
      var w := WithoutMesh(front, m);
      forall i | 0 <= i < |w| ensures w[i].meshId != last.meshId && w[i].tx == w[i].meshId {
        assert w[i] in w;
        var j :| 0 <= j < |front| && front[j] == w[i];
        assert routes[j] == front[j];
      }
      forall n ensures HasMesh(routes, n) <==> HasMesh(front, n) || last.meshId == n {
        HasMeshCons(front, last, n);
      }
      forall n ensures HasMesh(w + [last], n) <==> HasMesh(w, n) || last.meshId == n {
        HasMeshCons(w, last, n);
      }
      assert last.meshId == m ==> WithoutMesh(routes, m) == w;
    }
  }

  lemma HasMeshCons(front: seq<MeshRoute>, last: MeshRoute, n: MeshId)
    ensures forall routes :: routes == front + [last] ==>
            (HasMesh(routes, n) <==> HasMesh(front, n) || last.meshId == n)
  {
    var routes := front + [last];
    if HasMesh(front, n) {
      var i :| 0 <= i < |front| && front[i].meshId == n;
      assert routes[i].meshId == n;
    }
    assert routes[|front|] == last;
  }

  /** What the mesh reader does to the route table for each frame, and that it touches no other connection. */
  lemma AddedRoutes(mesh: Mesh, m: MeshId, peer: NodeKey, n: MeshId)
    requires MeshOk(mesh)
    ensures MeshOk(RouteAdded(mesh, m, peer, m))
    ensures RoutesOf(RouteAdded(mesh, m, peer, m), n) == RoutesOf(mesh, n) + if n == m then {peer} else {}
  {
    var routes, t := RoutesTo(mesh, peer), RouteAdded(mesh, m, peer, m);
    assert peer in mesh.routes ==> ListOk(routes);
    HasMeshCons(routes, MeshRoute(m, m), n);
    assert HasMesh(t.routes[peer], n) <==> HasMesh(routes, n) || n == m;
    assert ListOk(t.routes[peer]);
  }

  lemma RemovedRoutes(mesh: Mesh, m: MeshId, peer: NodeKey, n: MeshId)
    requires MeshOk(mesh)
    ensures MeshOk(RouteRemoved(mesh, m, peer))
    ensures RoutesOf(RouteRemoved(mesh, m, peer), n) == RoutesOf(mesh, n) - if n == m then {peer} else {}
  {
    hide WithoutMesh;
    if peer in mesh.routes {
      assert ListOk(mesh.routes[peer]);
      WithoutMeshOk(mesh.routes[peer], m);
      assert WithoutMesh(mesh.routes[peer], m) == [] ==> !HasMesh(WithoutMesh(mesh.routes[peer], m), n);
    }
  }

  /** When a connection ends no route of it remains, and the others keep theirs. */
  lemma ClosedRoutes(mesh: Mesh, m: MeshId, n: MeshId)
    requires MeshOk(mesh)
    ensures MeshOk(MeshRemoved(mesh, m))
    ensures RoutesOf(MeshRemoved(mesh, m), n) == if n == m then {} else RoutesOf(mesh, n)
  {
    hide WithoutMesh, HasMesh;
    var t := MeshRemoved(mesh, m);
    forall k | k in mesh.routes
      ensures WithoutMesh(mesh.routes[k], m) != [] ==> ListOk(WithoutMesh(mesh.routes[k], m))
      ensures HasMesh(WithoutMesh(mesh.routes[k], m), n) <==> n != m && HasMesh(mesh.routes[k], n)
      ensures WithoutMesh(mesh.routes[k], m) == [] ==>
              HasMesh(mesh.routes[k], m) && !HasMesh(WithoutMesh(mesh.routes[k], m), n)
    {
      assert ListOk(mesh.routes[k]);
      WithoutMeshOk(mesh.routes[k], m);
      EmptiedList(mesh.routes[k], m, n);
    }
    forall k ensures k in RoutesOf(t, n) <==> n != m && k in RoutesOf(mesh, n) {
    }
  }

  lemma EmptiedList(routes: seq<MeshRoute>, m: MeshId, n: MeshId)
    requires ListOk(routes)
    ensures WithoutMesh(routes, m) == [] ==> HasMesh(routes, m) && !HasMesh(WithoutMesh(routes, m), n)
  {
    WithoutMeshMembers(routes, m);
    assert routes[0] in routes;
  }
}
