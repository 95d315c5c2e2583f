/** Packets in a network of relays: none is ever duplicated, forwarded twice or unaccounted for. */
module MeshPackets {
  import opened Types
  import opened Dispatch
  import opened RelayState
  import opened RelayIndex
  import opened RelayRuns
  import opened RelayFrames
  import opened RelayPackets
  import opened MeshNews
  import opened MeshNet

  // ---------------------------------------------------------------- sums

  lemma {:induction false} SumRemove<K(!new), V(!new)>(m: map<K, multiset<V>>, k: K)
    requires k in m
    ensures Sum(m) == m[k] + Sum(m - {k})
    decreases |m|
  {
    var c :| c in m && Sum(m) == m[c] + Sum(m - {c});
    if c != k {
      assert |m - {c}| < |m| && |m - {k}| < |m| by {
        assert (m - {c}).Keys == m.Keys - {c} && (m - {k}).Keys == m.Keys - {k};
      }
      SumRemove(m - {c}, k);
      SumRemove(m - {k}, c);
      assert m - {c} - {k} == m - {k} - {c};
    }
  }

  lemma SumUpdate<K(!new), V(!new)>(m: map<K, multiset<V>>, k: K, v: multiset<V>)
    ensures Sum(m[k := v]) + (if k in m then m[k] else multiset{}) == Sum(m) + v
  {
    SumRemove(m[k := v], k);
    assert m[k := v] - {k} == m - {k};
    if k in m {
      SumRemove(m, k);
    } else {
      assert m - {k} == m;
    }
  }

  // ---------------------------------------------------------------- what one server holds

  function Received(key: NodeKey, fs: seq<Frame>): multiset<Packet> {
    if fs == [] then multiset{}
    else
      var f := fs[|fs| - 1];
      Received(key, fs[..|fs| - 1]) + if f.RecvPacket? then multiset{Packet(f.src, key, f.packet)} else multiset{}
  }

  /** The packets in a session's queue or already handed to its client. */
  function TakenBy(x: Session): multiset<Packet> {
    Received(x.info.key, Recvs(Accepted(x.box.offers)))
  }

  ghost function InSessions(s: State): multiset<Packet> {
    Sum(TakenMap(s.sessions))
  }

  /** Everything a server accounts for: in session queues or handed out, counted as dropped, or waiting in the
      channels of its mesh connections. */
  ghost function Holding(s: State): multiset<Packet> {
    InSessions(s) + multiset(s.stats.lost) + ChannelLoad(s)
  }

  lemma ReceivedOne(key: NodeKey, fs: seq<Frame>, f: Frame)
    ensures Received(key, fs + [f]) ==
            Received(key, fs) + if f.RecvPacket? then multiset{Packet(f.src, key, f.packet)} else multiset{}
  {
    assert (fs + [f])[..|fs + [f]| - 1] == fs;
  }

  lemma TakenStep(s: State, op: Op, now: real, i: SessionId)
    requires Refs(s) && Enabled(s, op) && i in s.sessions
    ensures i in Step(s, op, now).sessions
    ensures TakenBy(Step(s, op, now).sessions[i]) == TakenBy(s.sessions[i]) + multiset(DeliveredBy(s, op, i))
  {
    hide Step, Enabled, Recvs, Accepted, Received, GroupRefs, RouteRefs, FirstOpen;
    HandlesStep(s, op, now);
    RecvsStep(s, op, now, i);
    var ps, key := DeliveredBy(s, op, i), s.sessions[i].info.key;
    var recvs := Recvs(Accepted(s.sessions[i].box.offers));
    if ps == [] {
      assert AsFrames(ps) == [] && recvs + [] == recvs;
    } else {
      var p := op.p;
      assert ps == [p] && p.dst == key;
      assert AsFrames(ps) == [RecvPacket(p.src, p.bytes)] by { assert ps[..0] == []; }
      ReceivedOne(key, recvs, RecvPacket(p.src, p.bytes));
    }
  }

  function Delivery(s: State, op: Op): multiset<Packet>
    requires Refs(s)
  {
    if op.Route? && OutcomeOf(s, op.p.dst, op.forwarded).Delivered? then multiset{op.p} else multiset{}
  }

  /** What every session has taken in. */
  function TakenMap(sessions: Sessions): map<SessionId, multiset<Packet>> {
    map i | i in sessions :: TakenBy(sessions[i])
  }

  lemma RegisterTaken(s: State, op: Op, now: real)
    requires Refs(s) && op.Register?
    ensures TakenMap(Step(s, op, now).sessions) == TakenMap(s.sessions)[s.index.nextId := multiset{}]
    ensures s.index.nextId !in s.sessions
  {
    hide Step, TakenBy, ActiveRefs, GroupRefs, RouteRefs;
    HandlesStep(s, op, now);
    NewSessionTook(s, op, now);
    forall i | i in s.sessions ensures TakenBy(Step(s, op, now).sessions[i]) == TakenBy(s.sessions[i]) {
      TakenStep(s, op, now, i);
    }
  }

  lemma OtherTaken(s: State, op: Op, now: real, d: SessionId)
    requires Refs(s) && Enabled(s, op) && !op.Register? && d in s.sessions
    requires forall i :: i in s.sessions && i != d ==> DeliveredBy(s, op, i) == []
    ensures TakenMap(Step(s, op, now).sessions) ==
            TakenMap(s.sessions)[d := TakenBy(s.sessions[d]) + multiset(DeliveredBy(s, op, d))]
  {
    hide Step, Enabled, TakenBy, Refs, DeliveredBy;
    HandlesStep(s, op, now);
    forall i | i in s.sessions
      ensures TakenBy(Step(s, op, now).sessions[i]) ==
              if i == d then TakenBy(s.sessions[d]) + multiset(DeliveredBy(s, op, d)) else TakenBy(s.sessions[i])
    {
      TakenStep(s, op, now, i);
      assert i != d ==> TakenBy(s.sessions[i]) + multiset(DeliveredBy(s, op, i)) == TakenBy(s.sessions[i]);
    }
    var after, changed := TakenMap(Step(s, op, now).sessions),
                          TakenMap(s.sessions)[d := TakenBy(s.sessions[d]) + multiset(DeliveredBy(s, op, d))];
    assert after.Keys == changed.Keys && forall i :: i in after ==> after[i] == changed[i];
  }

  lemma SessionsStep(s: State, op: Op, now: real)
    requires Refs(s) && Enabled(s, op)
    ensures InSessions(Step(s, op, now)) == InSessions(s) + Delivery(s, op)
  {
    hide Step, Enabled, TakenBy, GroupRefs, RouteRefs, FirstOpen, Sum, CanTake, TakenMap;
    var before, after := TakenMap(s.sessions), TakenMap(Step(s, op, now).sessions);
    SumsOf(s);
    SumsOf(Step(s, op, now));
    if op.Register? {
      RegisterTaken(s, op, now);
      SumUpdate(before, s.index.nextId, multiset{});
    } else {
      if s.sessions.Keys == {} {
        HandlesStep(s, op, now);
      } else {
        var d := if Delivery(s, op) != multiset{} then s.index.active[op.p.dst] else var i :| i in s.sessions; i;
        OtherTaken(s, op, now, d);
        SumUpdate(before, d, TakenBy(s.sessions[d]) + multiset(DeliveredBy(s, op, d)));
        Cancel(Sum(after), Sum(before), TakenBy(s.sessions[d]), Delivery(s, op));
      }
    }
  }

  lemma SumsOf(s: State)
    ensures InSessions(s) == Sum(TakenMap(s.sessions))
    ensures forall i :: i in TakenMap(s.sessions) <==> i in s.sessions
    ensures forall i :: i in s.sessions ==> TakenMap(s.sessions)[i] == TakenBy(s.sessions[i])
  {
    hide Sum, TakenBy;
  }

  lemma Cancel<V>(a: multiset<V>, b: multiset<V>, c: multiset<V>, d: multiset<V>)
    requires a + c == b + (c + d)
    ensures a == b + d
  {
    forall v ensures a[v] == (b + d)[v] {
      assert (a + c)[v] == (b + (c + d))[v];
    }
  }

  lemma NewSessionTook(s: State, op: Op, now: real)
    requires Refs(s) && op.Register? && s.index.nextId in Step(s, op, now).sessions
    ensures TakenBy(Step(s, op, now).sessions[s.index.nextId]) == multiset{}
  {
    hide Step, Recvs, Accepted, Refs;
    NewSessionHasNone(s, op, now);
  }

  lemma PacketsInOne(fs: seq<Frame>, f: Frame)
    ensures PacketsIn(fs + [f]) == PacketsIn(fs) + PacketsIn([f])
  {
    assert (fs + [f])[..|fs + [f]| - 1] == fs;
    assert [f][..0] == [];
  }

  lemma PacketsInNone()
    ensures PacketsIn([]) == multiset{}
  {
  }

  lemma {:induction false} PacketsInHead(fs: seq<Frame>)
    requires fs != []
    ensures PacketsIn(fs) == PacketsIn([fs[0]]) + PacketsIn(fs[1..])
    decreases |fs|
  {
    hide PacketsIn;
    if |fs| == 1 {
      assert fs == [fs[0]] && fs[1..] == [];
      PacketsInNone();
    } else {
      var front, last := fs[..|fs| - 1], fs[|fs| - 1];
      PacketsInHead(front);
      PacketsInOne(front, last);
      PacketsInOne(front[1..], last);
      assert front[1..] + [last] == fs[1..] && front + [last] == fs && front[0] == fs[0];
    }
  }

  /** Changing one channel's queue. */
  lemma LoadUpdate(channels: map<ChannelId, Channel>, c: ChannelId, x: Channel)
    ensures LoadOf(channels[c := x]) + (if c in channels then PacketsIn(channels[c].queue) else multiset{})
         == LoadOf(channels) + PacketsIn(x.queue)
  {
    hide PacketsIn, Sum;
    assert WaitingIn(channels[c := x]) == WaitingIn(channels)[c := PacketsIn(x.queue)];
    SumUpdate(WaitingIn(channels), c, PacketsIn(x.queue));
  }

  function Departure(s: State, op: Op): multiset<Packet>
    requires Refs(s)
  {
    if op.Route? && OutcomeOf(s, op.p.dst, op.forwarded).Forwarded? then multiset{op.p} else multiset{}
  }

  lemma ChannelsStep(s: State, op: Op, now: real)
    requires Refs(s) && Enabled(s, op) && !MeshOp(op)
    ensures ChannelLoad(Step(s, op, now)) == ChannelLoad(s) + Departure(s, op)
  {
    hide Registered, ActivityNoted, Unregistered, RoutedSessions, RoutedPaths, RoutedStats, Watched, PeerClosed,
      RestartAnnounced, PreferredNoted, IndexRefs, RouteRefs, Sum, PacketsIn, FirstOpen, CanTake;
    match op
    case Register(_) => RegisterMesh(s, op, now);
    case Unregister(_) => RegisterMesh(s, op, now);
    case NoteActivity(_) => RegisterMesh(s, op, now);
    case Watch(_, _) => RegisterMesh(s, op, now);
    case Route(_, p, forwarded) => RouteLoad(s, p, forwarded);
    case _ => QuietHandles(s, op, now);
  }

  lemma RouteLoad(s: State, p: Packet, forwarded: bool)
    requires Refs(s)
    ensures LoadOf(RoutedMesh(s, p, forwarded).channels) ==
            LoadOf(s.mesh.channels) + if OutcomeOf(s, p.dst, forwarded).Forwarded? then multiset{p} else multiset{}
  {
    hide IndexRefs, RouteRefs, Sum, CanTake, LoadOf, FirstOpen;
    var o := OutcomeOf(s, p.dst, forwarded);
    if o.Forwarded? {
      var c, f := s.mesh.channels[o.channel], ForwardPacket(p.src, p.dst, p.bytes);
      LoadUpdate(s.mesh.channels, o.channel, ChannelPush(c, f));
      PacketsInOne(c.queue, f);
      assert PacketsIn([f]) == multiset{p} by { assert [f][..0] == []; }
      Cancel(LoadOf(RoutedMesh(s, p, forwarded).channels), LoadOf(s.mesh.channels), PacketsIn(c.queue), multiset{p});
    }
  }

  lemma StatsStep(s: State, op: Op, now: real)
    requires Refs(s) && Enabled(s, op)
    ensures multiset(Step(s, op, now).stats.lost) == multiset(s.stats.lost) +
            if op.Route? &&
                (OutcomeOf(s, op.p.dst, op.forwarded).Refused? || OutcomeOf(s, op.p.dst, op.forwarded).Unreachable?)
            then multiset{op.p} else multiset{}
  {
    hide RegisteredSessions, RegisteredIndex, DetachedSessions, DetachedIndex, ErasedSessions, ErasedIndex,
      ErasedPaths, Refs, ActivityIndex, Snapshot, PushAll, Departs, RoutedSessions, RoutedPaths, RoutedMesh,
      OutcomeOf, RouteAdded, RouteRemoved, MeshRemoved;
    if op.Unregister? {
      DetachedHandles(s, op.id);
    }
  }

  /** One server, one step: a routed packet ends up in exactly one place, and nothing else changes hands. */
  lemma HoldingStep(s: State, op: Op, now: real)
    requires Refs(s) && Enabled(s, op) && !MeshOp(op)
    ensures Holding(Step(s, op, now)) == Holding(s) + if op.Route? then multiset{op.p} else multiset{}
    ensures ChannelLoad(Step(s, op, now)) == ChannelLoad(s) + Departure(s, op)
    ensures op.Route? && op.forwarded ==> Departure(s, op) == multiset{}
  {
    hide Step, Enabled, Refs, InSessions, ChannelLoad;
    SessionsStep(s, op, now);
    ChannelsStep(s, op, now);
    StatsStep(s, op, now);
    if op.Route? {
      OutcomeCases(s, op.p.dst, op.forwarded);
    }
  }

  lemma OutcomeCases(s: State, dst: NodeKey, forwarded: bool)
    requires Refs(s)
    ensures forwarded ==> !OutcomeOf(s, dst, forwarded).Forwarded?
  {
  }

  // ---------------------------------------------------------------- the whole network

  ghost function HoldingMap(servers: map<ServerId, State>): map<ServerId, multiset<Packet>> {
    map sv | sv in servers :: Holding(servers[sv])
  }

  ghost function ServersHold(servers: map<ServerId, State>): multiset<Packet> {
    Sum(HoldingMap(servers))
  }

  function WireMap(links: map<LinkId, Link>): map<LinkId, multiset<Packet>> {
    map l | l in links :: PacketsIn(links[l].up)
  }

  /** The packets on the wires between servers. */
  ghost function OnWires(links: map<LinkId, Link>): multiset<Packet> {
    Sum(WireMap(links))
  }

  /** What a client's channel and the wire behind it carry. */
  predicate Carried(f: Frame) {
    f.ForwardPacket? || f.Pong? || f.WatchConns?
  }

  predicate AllCarried(fs: seq<Frame>) {
    forall i :: 0 <= i < |fs| ==> Carried(fs[i])
  }

  predicate ChannelsCarry(mesh: Mesh) {
    forall c :: c in mesh.channels ==> AllCarried(mesh.channels[c].queue)
  }

  predicate Traffic(net: Net) {
    && (forall sv :: sv in net.servers ==> ChannelsCarry(net.servers[sv].mesh))
    && (forall l :: l in net.links ==> AllCarried(net.links[l].up))
  }

  /** Every packet a client sent is in exactly one place: held by one server, on one wire, or lost with a closed
      link; and it was put on a mesh link at most once. */
  ghost predicate Conserved(net: Net) {
    && net.sent == ServersHold(net.servers) + OnWires(net.links) + net.lost
    && net.forwarded <= net.sent
  }

  lemma ServerGains(servers: map<ServerId, State>, sv: ServerId, t: State, gain: multiset<Packet>)
    requires sv in servers && Holding(t) == Holding(servers[sv]) + gain
    ensures ServersHold(servers[sv := t]) == ServersHold(servers) + gain
  {
    hide Holding, Sum;
    assert HoldingMap(servers[sv := t]) == HoldingMap(servers)[sv := Holding(t)];
    SumUpdate(HoldingMap(servers), sv, Holding(t));
    Cancel(ServersHold(servers[sv := t]), ServersHold(servers), Holding(servers[sv]), gain);
  }

  lemma ServerLoses(servers: map<ServerId, State>, sv: ServerId, t: State, loss: multiset<Packet>)
    requires sv in servers && Holding(t) + loss == Holding(servers[sv])
    ensures ServersHold(servers[sv := t]) + loss == ServersHold(servers)
  {
    hide Holding;
    var back := servers[sv := t];
    ServerGains(back, sv, servers[sv], loss);
    assert back[sv := servers[sv]] == servers;
  }

  lemma WireGains(links: map<LinkId, Link>, l: LinkId, k: Link, gain: multiset<Packet>)
    requires PacketsIn(k.up) == (if l in links then PacketsIn(links[l].up) else multiset{}) + gain
    ensures OnWires(links[l := k]) == OnWires(links) + gain
  {
    hide PacketsIn, Sum;
    assert WireMap(links[l := k]) == WireMap(links)[l := PacketsIn(k.up)];
    SumUpdate(WireMap(links), l, PacketsIn(k.up));
    Cancel(OnWires(links[l := k]), OnWires(links), if l in links then PacketsIn(links[l].up) else multiset{}, gain);
  }

  lemma WireLoses(links: map<LinkId, Link>, l: LinkId, k: Link, loss: multiset<Packet>)
    requires l in links && PacketsIn(k.up) + loss == PacketsIn(links[l].up)
    ensures OnWires(links[l := k]) + loss == OnWires(links)
  {
    hide PacketsIn;
    var back := links[l := k];
    WireGains(back, l, links[l], loss);
    assert back[l := links[l]] == links;
  }

  lemma LocalConserves(net: Net, sv: ServerId, op: Op, now: real)
    requires sv in net.servers && Refs(net.servers[sv]) && Enabled(net.servers[sv], op) && !MeshOp(op) && Conserved(net)
    ensures Conserved(AfterLocal(net, sv, op, now))
  {
    hide Step, Enabled, Refs, Holding, ChannelLoad, ServersHold, OnWires, Departure;
    var s, t := net.servers[sv], Step(net.servers[sv], op, now);
    var gain := if op.Route? then multiset{op.p} else multiset{};
    HoldingStep(s, op, now);
    ServerGains(net.servers, sv, t, gain);
    assert ChannelLoad(t) - ChannelLoad(s) == Departure(s, op);
    assert Departure(s, op) <= gain by { DepartureSmall(s, op); }
    var after := AfterLocal(net, sv, op, now);
    assert after.sent == net.sent + gain;
    assert after.forwarded == net.forwarded + Departure(s, op);
  }

  lemma DepartureSmall(s: State, op: Op)
    requires Refs(s)
    ensures Departure(s, op) <= if op.Route? then multiset{op.p} else multiset{}
  {
  }

  /** Answering a frame from a mesh link: a forwarded packet is taken over, and never forwarded again. */
  lemma AnsweredHolds(s: State, id: SessionId, frame: Frame, order: seq<NodeKey>, now: real)
    requires Sound(s) && Live(s, id) && Enumerates(order, s.index.peers.Keys) && s.sessions[id].info.canMesh &&
            Carried(frame)
    ensures Holding(Answered(s, id, frame, order, now)) == Holding(s) + PacketsIn([frame])
    ensures ChannelLoad(Answered(s, id, frame, order, now)) == ChannelLoad(s)
  {
    hide Step, Enabled, IndexRefs, RouteRefs, Agreement, Members, Enumerates, ActivityNoted, Holding, ChannelLoad,
      Departure;
    AnswerEnabled(s, id, frame, order, now);
    AfterActivity(s, id, now);
    LiveEnabled(s, id);
    var s1 := ActivityNoted(s, id);
    HoldingStep(s, NoteActivity(id), now);
    assert Departure(s, NoteActivity(id)) == multiset{} by { DepartureSmall(s, NoteActivity(id)); }
    var op := OpFor(s.sessions[id].info, frame, id, order);
    assert PacketsIn([frame]) ==
      if frame.ForwardPacket? then multiset{Packet(frame.src, frame.dst, frame.packet)} else multiset{}
      by { assert [frame][..0] == []; }
    if op.Some? {
      HoldingStep(s1, op.value, now);
      assert !op.value.Route? ==> Departure(s1, op.value) == multiset{} by { DepartureSmall(s1, op.value); }
    }
  }

  lemma ServerReadConserves(net: Net, l: LinkId, order: seq<NodeKey>, now: real)
    requires Wired(net, l) && net.links[l].up != []
    requires var s := net.servers[net.links[l].server];
      Sound(s) && Live(s, net.links[l].session) && Enumerates(order, s.index.peers.Keys)
    requires net.servers[net.links[l].server].sessions[net.links[l].session].info.canMesh
    requires Conserved(net) && AllCarried(net.links[l].up)
    ensures Conserved(AfterServerRead(net, l, order, now))
  {
    hide Answered, Sound, Live, Enumerates, Holding, ChannelLoad, ServersHold, OnWires, PacketsIn;
    var k := net.links[l];
    var s, f := net.servers[k.server], k.up[0];
    var t := Answered(s, k.session, f, order, now);
    AnsweredHolds(s, k.session, f, order, now);
    ServerGains(net.servers, k.server, t, PacketsIn([f]));
    PacketsInHead(k.up);
    WireLoses(net.links, l, k.(up := k.up[1..]), PacketsIn([f]));
    var after := AfterServerRead(net, l, order, now);
    assert after.forwarded == net.forwarded;
  }

  lemma MeshHolding(s: State, mesh: Mesh)
    ensures Holding(s.(mesh := mesh)) == InSessions(s) + multiset(s.stats.lost) + LoadOf(mesh.channels)
  {
    hide Sum, TakenMap, LoadOf;
  }

  lemma TakenHolds(s: State, c: ChannelId)
    requires c in s.mesh.channels && s.mesh.channels[c].queue != []
    ensures Holding(s.(mesh := ChannelTaken(s.mesh, c))) + PacketsIn([s.mesh.channels[c].queue[0]]) == Holding(s)
  {
    hide InSessions, LoadOf, PacketsIn;
    var q := s.mesh.channels[c].queue;
    MeshHolding(s, ChannelTaken(s.mesh, c));
    LoadUpdate(s.mesh.channels, c, s.mesh.channels[c].(queue := q[1..]));
    PacketsInHead(q);
    Cancel(LoadOf(s.mesh.channels), LoadOf(ChannelTaken(s.mesh, c).channels), PacketsIn(q[1..]), PacketsIn([q[0]]));
  }

  lemma ClosedHolds(s: State, c: ChannelId)
    requires c in s.mesh.channels
    ensures Holding(s.(mesh := ClosedMesh(s.mesh, c))) + PacketsIn(s.mesh.channels[c].queue) == Holding(s)
  {
    hide InSessions, LoadOf, PacketsIn, WithoutMesh;
    MeshHolding(s, ClosedMesh(s.mesh, c));
    LoadUpdate(s.mesh.channels, c, s.mesh.channels[c].(queue := [], receiverGone := true));
    PacketsInNone();
    var none: seq<Frame> := [];
    assert PacketsIn(none) == multiset{};
    assert LoadOf(ClosedMesh(s.mesh, c).channels) + PacketsIn(s.mesh.channels[c].queue) == LoadOf(s.mesh.channels);
  }

  lemma OfferedHolds(s: State, c: ChannelId, value: U64)
    requires c in s.mesh.channels
    ensures Holding(s.(mesh := ChannelOffered(s.mesh, c, Pong(value)))) == Holding(s)
  {
    hide InSessions, LoadOf, PacketsIn;
    var x := s.mesh.channels[c];
    MeshHolding(s, ChannelOffered(s.mesh, c, Pong(value)));
    LoadUpdate(s.mesh.channels, c, ChannelPush(x, Pong(value)));
    PacketsInOne(x.queue, Pong(value));
    PongCarriesNothing(value);
    var after := s.mesh.channels[c := ChannelPush(x, Pong(value))];
    Cancel(LoadOf(after), LoadOf(s.mesh.channels), PacketsIn(x.queue), multiset{});
  }

  lemma OpenedHolds(s: State, c: ChannelId, capacity: nat)
    requires c !in s.mesh.channels
    ensures Holding(s.(mesh := ChannelOpened(s.mesh, c, capacity))) == Holding(s)
  {
    hide InSessions, LoadOf, PacketsIn;
    MeshHolding(s, ChannelOpened(s.mesh, c, capacity));
    LoadUpdate(s.mesh.channels, c, Channel([], capacity, false));
    PacketsInNone();
    Cancel(LoadOf(ChannelOpened(s.mesh, c, capacity).channels), LoadOf(s.mesh.channels), multiset{}, multiset{});
  }

  lemma PongCarriesNothing(value: U64)
    ensures PacketsIn([Pong(value)]) == multiset{}
    ensures PacketsIn([WatchConns]) == multiset{}
  {
  }

  lemma RoutesHoldNothing(s: State, m: MeshId, frame: Frame)
    requires m in s.mesh.channels
    ensures Holding(HeardFromLink(s, m, frame)) == Holding(s)
  {
    hide InSessions, LoadOf, PacketsIn;
    match frame
    case PeerPresent(peer, _, _, _) => MeshHolding(s, RouteAdded(s.mesh, m, peer, m));
    case PeerGone(peer, _) => MeshHolding(s, RouteRemoved(s.mesh, m, peer));
    case Ping(value) => OfferedHolds(s, m, value);
    case _ =>
  }

  lemma ClientWriteConserves(net: Net, l: LinkId)
    requires l in net.links && Outgoing(net, l) != [] && Conserved(net)
    ensures Conserved(AfterClientWrite(net, l))
  {
    hide Holding, ServersHold, OnWires, PacketsIn, ChannelTaken;
    var k, s, f := net.links[l], net.servers[l.client], Outgoing(net, l)[0];
    TakenHolds(s, l.mesh);
    ServerLoses(net.servers, l.client, s.(mesh := ChannelTaken(s.mesh, l.mesh)), PacketsIn([f]));
    if k.serverUp {
      PacketsInOne(k.up, f);
      WireGains(net.links, l, k.(up := k.up + [f]), PacketsIn([f]));
    }
  }

  lemma ConnectConserves(net: Net, l: LinkId, sv: ServerId, info: Info, capacity: nat, now: real)
    requires l.client in net.servers && sv in net.servers && l !in net.links && Refs(net.servers[sv])
    requires l.mesh !in net.servers[l.client].mesh.channels && Conserved(net)
    ensures Conserved(AfterConnect(net, l, sv, info, capacity, now))
  {
    hide Holding, ServersHold, OnWires, PacketsIn, Registered, Refs;
    var s := net.servers[sv];
    var a := Registered(s, info, now);
    RegisterIsStep(s, info, now);
    HoldingStep(s, Register(info), now);
    ServerGains(net.servers, sv, a, multiset{});
    var servers := net.servers[sv := a];
    var c := servers[l.client];
    assert c.mesh == net.servers[l.client].mesh by { RegisterKeepsMesh(s, info, now); }
    OpenedHolds(c, l.mesh, capacity);
    ServerGains(servers, l.client, c.(mesh := ChannelOpened(c.mesh, l.mesh, capacity)), multiset{});
    PongCarriesNothing(0);
    WireGains(net.links, l, Link(sv, s.index.nextId, [WatchConns], [], true, true), multiset{});
  }

  lemma ServerWriteConserves(net: Net, l: LinkId, now: real)
    requires Wired(net, l) && Queued(net, l) != [] && Refs(net.servers[net.links[l].server]) && Conserved(net)
    ensures Conserved(AfterServerWrite(net, l, now))
  {
    hide Holding, ServersHold, OnWires, PacketsIn, Dequeued, Refs;
    var k := net.links[l];
    var s, op := net.servers[k.server], Dequeue(k.session, 1);
    assert Enabled(s, op) && Step(s, op, now) == Dequeued(s, k.session, 1);
    HoldingStep(s, op, now);
    ServerGains(net.servers, k.server, Dequeued(s, k.session, 1), multiset{});
    WireGains(net.links, l, k.(down := k.down + [Queued(net, l)[0]]), multiset{});
  }

  lemma KeepaliveConserves(net: Net, l: LinkId, frame: Frame)
    requires l in net.links && Conserved(net)
    ensures Conserved(AfterKeepalive(net, l, frame))
  {
    hide ServersHold, OnWires, PacketsIn;
    WireGains(net.links, l, net.links[l].(down := net.links[l].down + [frame]), multiset{});
  }

  lemma ClientReadConserves(net: Net, l: LinkId)
    requires Wired(net, l) && net.links[l].down != [] && Conserved(net)
    ensures Conserved(AfterClientRead(net, l))
  {
    hide Holding, ServersHold, OnWires, PacketsIn, HeardFromLink;
    var k, s := net.links[l], net.servers[l.client];
    RoutesHoldNothing(s, l.mesh, k.down[0]);
    ServerGains(net.servers, l.client, HeardFromLink(s, l.mesh, k.down[0]), multiset{});
    WireGains(net.links, l, k.(down := k.down[1..]), multiset{});
  }

  lemma CloseClientConserves(net: Net, l: LinkId)
    requires Wired(net, l) && Conserved(net)
    ensures Conserved(AfterCloseClient(net, l))
  {
    hide Holding, ServersHold, OnWires, PacketsIn, MeshRemoved, ChannelClosed;
    var k, s := net.links[l], net.servers[l.client];
    ClosedHolds(s, l.mesh);
    ServerLoses(net.servers, l.client, s.(mesh := ClosedMesh(s.mesh, l.mesh)), PacketsIn(Outgoing(net, l)));
    WireGains(net.links, l, k.(clientUp := false), multiset{});
  }

  lemma CloseServerConserves(net: Net, l: LinkId)
    requires Wired(net, l)
    requires var k := net.links[l]; Refs(net.servers[k.server]) && Live(net.servers[k.server], k.session)
    requires Conserved(net)
    ensures Conserved(AfterCloseServer(net, l))
  {
    hide Holding, ServersHold, OnWires, PacketsIn, Unregistered, IndexRefs, RouteRefs;
    var k := net.links[l];
    var s := net.servers[k.server];
    UnregisterIsStep(s, k.session);
    HoldingStep(s, Unregister(k.session), 0.0);
    ServerGains(net.servers, k.server, Unregistered(s, k.session), multiset{});
    PacketsInNone();
    WireLoses(net.links, l, k.(serverUp := false, up := []), PacketsIn(k.up));
  }

  // ---------------------------------------------------------------- what travels on links

  lemma CarryStep(s: State, op: Op, now: real)
    requires Refs(s) && Enabled(s, op) && !MeshOp(op) && ChannelsCarry(s.mesh)
    ensures ChannelsCarry(Step(s, op, now).mesh)
  {
    hide Registered, ActivityNoted, Unregistered, RoutedSessions, RoutedPaths, RoutedStats, Watched, PeerClosed,
      RestartAnnounced, PreferredNoted, IndexRefs, RouteRefs, CanTake, FirstOpen;
    match op
    case Register(_) => RegisterMesh(s, op, now);
    case Unregister(_) => RegisterMesh(s, op, now);
    case NoteActivity(_) => RegisterMesh(s, op, now);
    case Watch(_, _) => RegisterMesh(s, op, now);
    case Route(_, _, _) =>
    case _ => QuietHandles(s, op, now);
  }

  lemma AnsweredCarries(s: State, id: SessionId, frame: Frame, order: seq<NodeKey>, now: real)
    requires Sound(s) && Live(s, id) && Enumerates(order, s.index.peers.Keys) && ChannelsCarry(s.mesh)
    ensures ChannelsCarry(Answered(s, id, frame, order, now).mesh)
  {
    hide Step, Enabled, IndexRefs, RouteRefs, Agreement, Members, Enumerates, ActivityNoted, ChannelsCarry, OpFor;
    AnswerEnabled(s, id, frame, order, now);
    AfterActivity(s, id, now);
    var op := OpFor(s.sessions[id].info, frame, id, order);
    if op.Some? {
      CarryStep(ActivityNoted(s, id), op.value, now);
    }
  }

  lemma MeshCarries(mesh: Mesh, m: MeshId, frame: Frame, s: State)
    requires ChannelsCarry(mesh) && s.mesh == mesh && m in mesh.channels
    ensures ChannelsCarry(HeardFromLink(s, m, frame).mesh) && ChannelsCarry(ClosedMesh(mesh, m))
    ensures mesh.channels[m].queue != [] ==> ChannelsCarry(ChannelTaken(mesh, m)) && Carried(mesh.channels[m].queue[0])
  {
    hide WithoutMesh, HasMesh;
  }

  lemma TrafficKept(net: Net, e: Event, now: real)
    requires NetInv(net) && Traffic(net) && CanHappen(net, e) && Ready(net, e)
    ensures Traffic(Happen(net, e, now))
  {
    hide NetInv, Step, Enabled, Refs, Sound, Live, Enumerates, LocalOp, PacketsIn, ChannelLoad, Answered,
      Unregistered, Registered, Dequeued, ClosedMesh, HeardFromLink, MeshRemoved, ChannelClosed, ChannelTaken,
      ChannelsCarry, Conserved;
    match e
    case Local(sv, op) =>
      assert !MeshOp(op) by { LocalIsNotMesh(net, sv, op); }
      CarryStep(net.servers[sv], op, now);
    case Connect(l, sv, info, capacity) =>
      RegisterKeepsMesh(net.servers[sv], info, now);
      OpenedCarries(net.servers[l.client].mesh, l.mesh, capacity);
    case ClientWrite(l) => MeshCarries(net.servers[l.client].mesh, l.mesh, KeepAlive, net.servers[l.client]);
    case ServerRead(l, order) =>
      AnsweredCarries(net.servers[net.links[l].server], net.links[l].session, net.links[l].up[0], order, now);
    case ServerWrite(l) => DequeuedMesh(net.servers[net.links[l].server], net.links[l].session);
    case Keepalive(_, _) =>
    case ClientRead(l) => MeshCarries(net.servers[l.client].mesh, l.mesh, net.links[l].down[0], net.servers[l.client]);
    case CloseClient(l) =>
      MeshCarries(net.servers[l.client].mesh, l.mesh, KeepAlive, net.servers[l.client]);
      assert ClosedMesh(net.servers[l.client].mesh, l.mesh) ==
        ChannelClosed(MeshRemoved(net.servers[l.client].mesh, l.mesh), l.mesh)
        by { ClosedMeshIs(net.servers[l.client].mesh, l.mesh); }
    case CloseServer(l) =>
      LinkFacts(net, l);
      var k := net.links[l];
      UnregisterIsStep(net.servers[k.server], k.session);
      RegisterMesh(net.servers[k.server], Unregister(k.session), 0.0);
  }

  lemma OpenedCarries(mesh: Mesh, m: MeshId, capacity: nat)
    requires ChannelsCarry(mesh)
    ensures ChannelsCarry(ChannelOpened(mesh, m, capacity))
  {
  }

  lemma DequeuedMesh(s: State, id: SessionId)
    requires id in s.sessions && 1 <= |s.sessions[id].box.queue|
    ensures Dequeued(s, id, 1).mesh == s.mesh
  {
  }

  lemma ClosedMeshIs(mesh: Mesh, m: MeshId)
    requires m in mesh.channels
    ensures m in MeshRemoved(mesh, m).channels
    ensures ClosedMesh(mesh, m) == ChannelClosed(MeshRemoved(mesh, m), m)
  {
  }

  // ---------------------------------------------------------------- over every run

  lemma ConservedStep(net: Net, e: Event, now: real)
    requires NetInv(net) && Traffic(net) && Conserved(net) && CanHappen(net, e) && Ready(net, e)
    ensures Conserved(Happen(net, e, now))
  {
    hide AfterLocal, AfterConnect, AfterClientWrite, AfterServerRead, AfterServerWrite, AfterKeepalive,
      AfterClientRead, AfterCloseClient, AfterCloseServer, Enabled, IndexRefs, RouteRefs, Agreement, MeshOk,
      Enumerates, LocalOp, Conserved, Outgoing, Queued, Members, Tracks;
    match e
    case Local(sv, op) =>
      assert !MeshOp(op) by { LocalIsNotMesh(net, sv, op); }
      LocalConserves(net, sv, op, now);
    case Connect(l, sv, info, capacity) =>
      assert ServerOk(net.servers[sv]);
      ConnectConserves(net, l, sv, info, capacity, now);
    case ClientWrite(l) => ClientWriteConserves(net, l);
    case ServerRead(l, order) =>
      assert LinkOk(net, l);
      ServerReadConserves(net, l, order, now);
    case ServerWrite(l) =>
      LinkFacts(net, l);
      ServerWriteConserves(net, l, now);
    case Keepalive(l, frame) => KeepaliveConserves(net, l, frame);
    case ClientRead(l) => ClientReadConserves(net, l);
    case CloseClient(l) => CloseClientConserves(net, l);
    case CloseServer(l) =>
      LinkFacts(net, l);
      CloseServerConserves(net, l);
  }

  lemma {:induction false} InitServersHoldNothing(servers: map<ServerId, State>)
    requires forall sv :: sv in servers ==> servers[sv] == Init(servers[sv].depth)
    ensures ServersHold(servers) == multiset{}
  {
    forall sv | sv in servers ensures Holding(servers[sv]) == multiset{} {
      assert TakenMap(servers[sv].sessions) == map[] && WaitingIn(servers[sv].mesh.channels) == map[];
    }
    SumOfNothing(HoldingMap(servers));
  }

  lemma {:induction false} SumOfNothing<K(!new), V(!new)>(m: map<K, multiset<V>>)
    requires forall k :: k in m ==> m[k] == multiset{}
    ensures Sum(m) == multiset{}
    decreases |m|
  {
    if m != map[] {
      var c :| c in m && Sum(m) == m[c] + Sum(m - {c});
      assert (m - {c}).Keys == m.Keys - {c};
      SumOfNothing(m - {c});
    }
  }

  /** One hop and one copy. In every reachable state of every network, the packets sent by clients are, as a
      multiset, exactly those in session queues or handed out, counted as dropped, waiting for or travelling on
      a mesh link, or lost with a closed link; and those ever put on a mesh link are among the packets sent. */
  lemma {:induction false} PacketsConserved(nets: seq<Net>, events: seq<Event>, times: seq<real>, i: nat)
    requires NetRun(nets, events, times) && i < |nets|
    ensures Conserved(nets[i]) && Traffic(nets[i])
  {
    hide NetInv, CanHappen, Ready, Happen, Conserved, Traffic;
    if i == 0 {
      InitConserved(nets[0]);
    } else {
      PacketsConserved(nets, events, times, i - 1);
      NetInvariant(nets, events, times, i - 1);
      assert NetNext(nets[i - 1], events[i - 1], times[i - 1], nets[i]);
      ConservedStep(nets[i - 1], events[i - 1], times[i - 1]);
      TrafficKept(nets[i - 1], events[i - 1], times[i - 1]);
    }
  }

  lemma InitConserved(net: Net)
    requires InitNet(net)
    ensures Conserved(net) && Traffic(net)
  {
    InitServersHoldNothing(net.servers);
    assert WireMap(net.links) == map[];
  }

  /** A packet that was sent once is in exactly one of the places, once, and was forwarded at most once. */
  lemma SentOnceIsInOnePlace(nets: seq<Net>, events: seq<Event>, times: seq<real>, i: nat, p: Packet)
    requires NetRun(nets, events, times) && i < |nets| && nets[i].sent[p] == 1
    ensures var net := nets[i];
      && ServersHold(net.servers)[p] + OnWires(net.links)[p] + net.lost[p] == 1
      && net.forwarded[p] <= 1
  {
    hide NetRun, ServersHold, OnWires;
    PacketsConserved(nets, events, times, i);
    var net := nets[i];
    assert net.sent[p] == (ServersHold(net.servers) + OnWires(net.links) + net.lost)[p];
  }
}
