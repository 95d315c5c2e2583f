/** What routing does with a packet, case by case, down to the queue, the route list and every counter. */
module RelayForward {
  import opened Types
  import opened RateLimit
  import opened RelayState
  import opened RelayIndex
  import opened RelayRuns
  import opened RelayFrames
  import opened RelayTrace

  /** The route's mesh connection lives and its queue is not full. */
  predicate HasRoom(mesh: Mesh, route: MeshRoute) {
    && route.tx in mesh.channels
    && !mesh.channels[route.tx].receiverGone
    && |mesh.channels[route.tx].queue| < mesh.channels[route.tx].capacity
  }

  /** The i-th route to k has room, and none before it has. */
  predicate FirstWithRoom(mesh: Mesh, k: NodeKey, i: nat) {
    && k in mesh.routes && i < |mesh.routes[k]| && HasRoom(mesh, mesh.routes[k][i])
    && forall j :: 0 <= j < i ==> !HasRoom(mesh, mesh.routes[k][j])
  }

  predicate NoRoom(mesh: Mesh, k: NodeKey) {
    k in mesh.routes ==> forall j :: 0 <= j < |mesh.routes[k]| ==> !HasRoom(mesh, mesh.routes[k][j])
  }

  lemma {:induction false} FirstOpenAt(mesh: Mesh, routes: seq<MeshRoute>, i: nat)
    requires i < |routes| && HasRoom(mesh, routes[i]) && forall j :: 0 <= j < i ==> !HasRoom(mesh, routes[j])
    ensures FirstOpen(mesh.channels, routes) == Some(routes[i].tx)
    decreases i
  {
    if i > 0 {
      assert !HasRoom(mesh, routes[0]);
      forall j | 0 <= j < i - 1 ensures !HasRoom(mesh, routes[1..][j]) {
        assert routes[1..][j] == routes[j + 1];
      }
      FirstOpenAt(mesh, routes[1..], i - 1);
    }
  }

  lemma {:induction false} NothingOpen(mesh: Mesh, routes: seq<MeshRoute>)
    requires forall j :: 0 <= j < |routes| ==> !HasRoom(mesh, routes[j])
    ensures FirstOpen(mesh.channels, routes) == None
  {
    if routes != [] {
      assert !HasRoom(mesh, routes[0]);
      NothingOpen(mesh, routes[1..]);
    }
  }

  /** A list with a route that has room has a first one. */
  lemma {:induction false} FirstExists(mesh: Mesh, k: NodeKey, n: nat) returns (i: nat)
    requires k in mesh.routes && n < |mesh.routes[k]| && HasRoom(mesh, mesh.routes[k][n])
    ensures FirstWithRoom(mesh, k, i)
    decreases n
  {
    hide HasRoom;
    if j :| 0 <= j < n && HasRoom(mesh, mesh.routes[k][j]) {
      i := FirstExists(mesh, k, j);
    } else {
      i := n;
    }
  }

  lemma OfferedOne(b: Mailbox, f: Frame, depth: nat)
    ensures PushAll(b, [f], depth) ==
            if !b.receiverGone && |b.queue| < depth
            then b.(queue := b.queue + [f], offers := b.offers + [Offer(f, true)])
            else b.(offers := b.offers + [Offer(f, false)])
  {
    PushNone(b, f, depth);
  }

  /** To a connected key whose session has room: the packet is queued there, the source is remembered, and it counts
      as sent. */
  lemma DeliversExactly(s: State, source: SessionId, p: Packet, forwarded: bool, now: real)
    requires Refs(s) && source in s.sessions && p.dst in s.index.active && s.index.active[p.dst] in s.sessions
    requires var b := s.sessions[s.index.active[p.dst]].box; !b.receiverGone && |b.queue| < s.depth
    ensures var t, d := Routed(s, source, p, forwarded, now), s.index.active[p.dst];
      var x, f := s.sessions[d], RecvPacket(p.src, p.bytes);
      && t.index == s.index && t.mesh == s.mesh && t.depth == s.depth
      && t.sessions == s.sessions[d := x.(
           box := x.box.(queue := x.box.queue + [f], offers := x.box.offers + [Offer(f, true)]),
           seenSources := x.seenSources + {p.src})]
      && t.paths == (if p.src in x.seenSources then s.paths
                     else s.paths[p.src := (if p.src in s.paths then s.paths[p.src] else {}) + {p.dst}])
      && t.stats == s.stats.(
           received := s.stats.received + 1, sent := s.stats.sent + 1,
           forwardedIn := s.stats.forwardedIn + if forwarded then 1 else 0)
  {
    hide GroupRefs, RouteRefs, FirstOpen, PushAll;
    OfferedOne(s.sessions[s.index.active[p.dst]].box, RecvPacket(p.src, p.bytes), s.depth);
  }

  /** To a connected key whose session has no room: nothing but the offer and the drop is recorded. It is not forwarded
      and not answered. */
  lemma RefusesExactly(s: State, source: SessionId, p: Packet, forwarded: bool, now: real)
    requires Refs(s) && source in s.sessions && p.dst in s.index.active && s.index.active[p.dst] in s.sessions
    requires var b := s.sessions[s.index.active[p.dst]].box; b.receiverGone || |b.queue| >= s.depth
    ensures var t, d := Routed(s, source, p, forwarded, now), s.index.active[p.dst];
      var x, f := s.sessions[d], RecvPacket(p.src, p.bytes);
      && t.index == s.index && t.mesh == s.mesh && t.paths == s.paths && t.depth == s.depth
      && t.sessions == s.sessions[d := x.(box := x.box.(offers := x.box.offers + [Offer(f, false)]))]
      && t.stats == s.stats.(
           received := s.stats.received + 1, dropped := s.stats.dropped + 1, lost := s.stats.lost + [p],
           forwardedIn := s.stats.forwardedIn + if forwarded then 1 else 0)
  {
    hide GroupRefs, RouteRefs, FirstOpen, PushAll;
    OfferedOne(s.sessions[s.index.active[p.dst]].box, RecvPacket(p.src, p.bytes), s.depth);
  }

  /** To a key that is not connected, from a client: the packet goes to the end of the queue of the first route that
      has room, to no other, and counts as forwarded out. */
  lemma ForwardsExactly(s: State, source: SessionId, p: Packet, now: real, i: nat)
    requires Refs(s) && source in s.sessions && p.dst !in s.index.active && FirstWithRoom(s.mesh, p.dst, i)
    ensures var t, c := Routed(s, source, p, false, now), s.mesh.routes[p.dst][i].tx;
      var x := s.mesh.channels[c];
      && t.index == s.index && t.sessions == s.sessions && t.paths == s.paths && t.depth == s.depth
      && t.mesh.routes == s.mesh.routes
      && t.mesh.channels == s.mesh.channels[c := x.(queue := x.queue + [ForwardPacket(p.src, p.dst, p.bytes)])]
      && t.stats == s.stats.(received := s.stats.received + 1, forwardedOut := s.stats.forwardedOut + 1)
  {
    hide IndexRefs, RouteRefs, FirstOpen;
    FirstOpenAt(s.mesh, s.mesh.routes[p.dst], i);
  }

  /** The packet starts as the bytes `TS`, F0 9F 92 AC and is long enough for a disco message. */
  predicate Disco(bytes: Bytes) {
    && |bytes| >= 62
    && bytes[0] == 0x54 && bytes[1] == 0x53 && bytes[2] == 0xf0
    && bytes[3] == 0x9f && bytes[4] == 0x92 && bytes[5] == 0xac
  }

  lemma DiscoIs(bytes: Bytes)
    ensures LooksLikeDisco(bytes) <==> Disco(bytes)
  {
    if |bytes| >= 62 {
      assert bytes[..6] == [bytes[0], bytes[1], bytes[2], bytes[3], bytes[4], bytes[5]];
      assert |DISCO_MAGIC| == 6;
    }
  }

  /** To a key that is not connected, forwarded already or with no route that has room: dropped, and answered with one
      PeerGone(NotHere) to its sender if it is a disco packet and the sender's limiter has a token. */
  lemma DropsExactly(s: State, source: SessionId, p: Packet, forwarded: bool, now: real)
    requires Refs(s) && source in s.sessions && p.dst !in s.index.active && (forwarded || NoRoom(s.mesh, p.dst))
    ensures var t, x := Routed(s, source, p, forwarded, now), s.sessions[source];
      var answered := Disco(p.bytes) && Allows(x.limiter, now);
      var gone := PeerGone(p.dst, 1);
      && t.index == s.index && t.mesh == s.mesh && t.paths == s.paths && t.depth == s.depth
      && t.sessions.Keys == s.sessions.Keys
      && (forall j :: j in s.sessions && j != source ==> t.sessions[j] == s.sessions[j])
      && t.sessions[source] == x.(
           limiter := if Disco(p.bytes) then AfterAsk(x.limiter, now) else x.limiter,
           box := if !answered then x.box
                  else if !x.box.receiverGone && |x.box.queue| < s.depth
                  then x.box.(queue := x.box.queue + [gone], offers := x.box.offers + [Offer(gone, true)])
                  else x.box.(offers := x.box.offers + [Offer(gone, false)]))
      && t.stats == s.stats.(
           received := s.stats.received + 1, dropped := s.stats.dropped + 1, lost := s.stats.lost + [p],
           forwardedIn := s.stats.forwardedIn + if forwarded then 1 else 0)
  {
    hide IndexRefs, RouteRefs, FirstOpen, PushAll, LooksLikeDisco, Allows, AfterAsk, Disco;
    DiscoIs(p.bytes);
    OfferedOne(s.sessions[source].box, PeerGone(p.dst, 1), s.depth);
    if !forwarded {
      NothingOpen(s.mesh, RoutesTo(s.mesh, p.dst));
    }
  }

  /** A client's packet to a key that is not connected, from state s to t: it is put on the first of the key's mesh
      routes that has room, and it is dropped if and only if none has. */
  ghost predicate ForwardsOrDrops(s: State, t: State, p: Packet) {
    && (forall i: nat :: FirstWithRoom(s.mesh, p.dst, i) ==>
          var c := s.mesh.routes[p.dst][i].tx;
          var x := s.mesh.channels[c];
          t.mesh.channels == s.mesh.channels[c := x.(queue := x.queue + [ForwardPacket(p.src, p.dst, p.bytes)])])
    && (t.mesh.channels == s.mesh.channels <==> NoRoom(s.mesh, p.dst))
    && (t.stats.dropped == s.stats.dropped + 1 <==> NoRoom(s.mesh, p.dst))
    && (t.stats.lost == s.stats.lost + [p] <==> NoRoom(s.mesh, p.dst))
  }

  lemma RouteForwards(s: State, source: SessionId, p: Packet, now: real)
    requires Refs(s) && source in s.sessions && p.dst !in s.index.active
    ensures ForwardsOrDrops(s, Routed(s, source, p, false, now), p)
  {
    hide Refs, FirstWithRoom, NoRoom, Routed;
    if NoRoom(s.mesh, p.dst) {
      DropsExactly(s, source, p, false, now);
      NoFirst(s.mesh, p.dst);
    } else {
      var j := SomeRoom(s.mesh, p.dst);
      var i := FirstExists(s.mesh, p.dst, j);
      ForwardsExactly(s, source, p, now, i);
      forall k: nat | FirstWithRoom(s.mesh, p.dst, k) ensures k == i { OneFirst(s.mesh, p.dst, i, k); }
      RoomIsOpen(s.mesh, p.dst, i);
      var c := s.mesh.routes[p.dst][i].tx;
      assert |Routed(s, source, p, false, now).mesh.channels[c].queue| == |s.mesh.channels[c].queue| + 1;
    }
  }

  /** The same over runs, whenever the trace leaves the key without a session. */
  lemma ForwardedInRun(r: Run, n: nat)
    requires IsRun(r) && n < |r.ops| && r.ops[n].Route? && !r.ops[n].forwarded
    requires Fold(r.ops[..n], r.ops[n].p.dst).live == []
    ensures ForwardsOrDrops(r.states[n], r.states[n + 1], r.ops[n].p)
  {
    hide Step, Agreement, IndexRefs, RouteRefs, Members, Fold, ForwardsOrDrops, Routed;
    var s, op, now := r.states[n], r.ops[n], r.times[n];
    assert Next(s, op, now, r.states[n + 1]);
    RouteIsFold(r, n, op.p.dst);
    IndexAgreement(r, n);
    NotConnected(s, op.p.dst);
    RouteStep(s, op, now);
    RouteForwards(s, op.source, op.p, now);
  }

  lemma NotConnected(s: State, k: NodeKey)
    requires Sound(s) && Members(s.index, k) == []
    ensures k !in s.index.active
  {
    assert k in s.index.peers ==> Agrees(s.index, k);
  }

  lemma RouteStep(s: State, op: Op, now: real)
    requires Refs(s) && op.Route? && op.source in s.sessions && Enabled(s, op)
    ensures Step(s, op, now) == Routed(s, op.source, op.p, op.forwarded, now)
  {
    hide Routed, Refs, Live;
  }

  lemma NoFirst(mesh: Mesh, k: NodeKey)
    requires NoRoom(mesh, k)
    ensures forall i: nat :: !FirstWithRoom(mesh, k, i)
  {
    hide HasRoom;
  }

  lemma SomeRoom(mesh: Mesh, k: NodeKey) returns (j: nat)
    requires !NoRoom(mesh, k)
    ensures k in mesh.routes && j < |mesh.routes[k]| && HasRoom(mesh, mesh.routes[k][j])
  {
    hide HasRoom;
    j :| j < |mesh.routes[k]| && HasRoom(mesh, mesh.routes[k][j]);
  }

  lemma OneFirst(mesh: Mesh, k: NodeKey, i: nat, j: nat)
    requires FirstWithRoom(mesh, k, i) && FirstWithRoom(mesh, k, j)
    ensures i == j
  {
    hide HasRoom;
  }

  lemma RoomIsOpen(mesh: Mesh, k: NodeKey, i: nat)
    requires FirstWithRoom(mesh, k, i)
    ensures k in mesh.routes && i < |mesh.routes[k]| && mesh.routes[k][i].tx in mesh.channels
  {
  }

  // ---------------------------------------------------------------- route lists

  /** A new connection goes to the end of a key's list; one that is listed already leaves it as it is. */
  lemma AddsAtTheEnd(mesh: Mesh, m: MeshId, peer: NodeKey, tx: ChannelId)
    ensures var routes := if peer in mesh.routes then mesh.routes[peer] else [];
      var listed := exists i :: 0 <= i < |routes| && routes[i].meshId == m;
      RouteAdded(mesh, m, peer, tx) ==
      mesh.(routes := mesh.routes[peer := if listed then routes else routes + [MeshRoute(m, tx)]])
  {
  }

  /** Taking a connection out keeps the others in their order. */
  lemma {:induction false} RemovalKeepsOrder(before: seq<MeshRoute>, route: MeshRoute, after: seq<MeshRoute>, m: MeshId)
    ensures WithoutMesh(before + [route] + after, m) ==
            WithoutMesh(before, m) + (if route.meshId == m then [] else [route]) + WithoutMesh(after, m)
    decreases |after|
  {
    var all := before + [route] + after;
    if after == [] {
      assert all[..|all| - 1] == before && all[|all| - 1] == route;
    } else {
      assert all[..|all| - 1] == before + [route] + after[..|after| - 1];
      RemovalKeepsOrder(before, route, after[..|after| - 1], m);
    }
  }
}
