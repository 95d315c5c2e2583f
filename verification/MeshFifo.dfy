/** Frames on their way over a mesh link arrive in the order in which they were queued, and pings are answered. */
module MeshFifo {
  import opened Types
  import opened Dispatch
  import opened RelayState
  import opened RelayIndex
  import opened RelayRuns
  import opened RelayForward
  import opened MeshNews
  import opened MeshNet
  import opened MeshPackets

  /** Everything on its way from the dialling server: what is on the wire, then what waits in its channel. */
  function Pipe(net: Net, l: LinkId): seq<Frame>
    requires l in net.links
  {
    net.links[l].up + Outgoing(net, l)
  }

  /** The channel's queue is what it was with at most one frame more at its end. */
  predicate Grown(a: Mesh, b: Mesh, c: ChannelId) {
    c in a.channels ==>
      && c in b.channels && |b.channels[c].queue| <= |a.channels[c].queue| + 1
      && a.channels[c].queue <= b.channels[c].queue
  }

  lemma StepGrows(s: State, op: Op, now: real, c: ChannelId)
    requires Refs(s) && Enabled(s, op) && !MeshOp(op)
    ensures Grown(s.mesh, Step(s, op, now).mesh, c)
  {
    hide Registered, ActivityNoted, Unregistered, RoutedSessions, RoutedPaths, RoutedStats, Watched, PeerClosed, Refs,
      RestartAnnounced, Members, Enumerates, OutcomeOf;
    if op.Register? || op.Unregister? || op.NoteActivity? || op.Watch? {
      RegisterMesh(s, op, now);
    } else if op.Close? || op.Restart? {
      QuietMesh(s, op, now);
    }
  }

  lemma QuietMesh(s: State, op: Op, now: real)
    requires Refs(s) && Enabled(s, op) && (op.Close? || op.Restart?)
    ensures Step(s, op, now).mesh == s.mesh
  {
    hide Refs, Members;
  }

  lemma AnsweredGrows(s: State, id: SessionId, frame: Frame, order: seq<NodeKey>, now: real, c: ChannelId)
    requires Sound(s) && Live(s, id) && Enumerates(order, s.index.peers.Keys)
    ensures Grown(s.mesh, Answered(s, id, frame, order, now).mesh, c)
  {
    hide Step, Refs, Agreement, Members, Enumerates, ActivityNoted, Grown, Enabled, MeshOp;
    AfterActivity(s, id, now);
    AnswerEnabled(s, id, frame, order, now);
    SameGrown(s.mesh, c);
    var op := OpFor(s.sessions[id].info, frame, id, order);
    if op.Some? {
      StepGrows(ActivityNoted(s, id), op.value, now, c);
    }
  }

  lemma SameGrown(mesh: Mesh, c: ChannelId)
    ensures Grown(mesh, mesh, c)
  {
  }

  lemma LinkGrows(s: State, m: MeshId, frame: Frame, c: ChannelId)
    requires m in s.mesh.channels
    ensures Grown(s.mesh, HeardFromLink(s, m, frame).mesh, c)
  {
    hide HasMesh, WithoutMesh;
  }

  /** A ping over a mesh link is answered with its pong, if there is room. */
  lemma LinkPing(s: State, m: MeshId, value: U64)
    requires m in s.mesh.channels
    ensures var c := s.mesh.channels[m];
      HeardFromLink(s, m, Ping(value)) ==
      if !c.receiverGone && |c.queue| < c.capacity
      then s.(mesh := s.mesh.(channels := s.mesh.channels[m := c.(queue := c.queue + [Pong(value)])]))
      else s
  {
  }

  /** What is on its way over link l, after an event: the first frame is gone if the server read it, at most one frame
      has come to the end, and nothing else has moved. */
  predicate InOrder(before: seq<Frame>, after: seq<Frame>, read: bool) {
    && (read ==> before != [])
    && var rest := if read then before[1..] else before;
       rest <= after && |after| <= |rest| + 1
  }

  lemma ChannelPart(net: Net, after: Net, l: LinkId)
    requires l in net.links && l in after.links && after.links[l].up == net.links[l].up
    requires l.client in net.servers && l.client in after.servers && l.mesh in net.servers[l.client].mesh.channels
    requires Grown(net.servers[l.client].mesh, after.servers[l.client].mesh, l.mesh)
    ensures InOrder(Pipe(net, l), Pipe(after, l), false)
  {
  }

  lemma OtherLink(net: Net, after: Net, l: LinkId, sv: ServerId, t: State)
    requires NetInv(net) && l in net.links && l in after.links && after.links[l].up == net.links[l].up
    requires sv in net.servers && after.servers == net.servers[sv := t]
    requires Grown(net.servers[sv].mesh, t.mesh, l.mesh)
    ensures InOrder(Pipe(net, l), Pipe(after, l), false)
  {
    hide ServerOk, DistinctSessions, Serving, Tracks, RoutesOf, InOrder, Pipe, Grown;
    assert LinkOk(net, l);
    SameGrown(net.servers[l.client].mesh, l.mesh);
    ChannelPart(net, after, l);
  }

  lemma WriteInOrder(net: Net, l: LinkId, j: LinkId)
    requires NetInv(net) && j in net.links && net.links[j].serverUp
    requires l in net.links && Outgoing(net, l) != [] && net.links[l].clientUp
    ensures j in AfterClientWrite(net, l).links
    ensures InOrder(Pipe(net, j), Pipe(AfterClientWrite(net, l), j), false)
  {
    hide ServerOk, DistinctSessions, Serving, Tracks, RoutesOf;
    assert LinkOk(net, j) && LinkOk(net, l);
    if j == l {
      var q := Outgoing(net, l);
      assert q == [q[0]] + q[1..];
      assert net.links[l].up + [q[0]] + q[1..] == net.links[l].up + q;
    } else {
      assert j.client != l.client || j.mesh != l.mesh;
    }
  }

  lemma ReadInOrder(net: Net, l: LinkId, order: seq<NodeKey>, now: real, j: LinkId)
    requires NetInv(net) && j in net.links && CanHappen(net, ServerRead(l, order)) && Ready(net, ServerRead(l, order))
    ensures j in AfterServerRead(net, l, order, now).links
    ensures InOrder(Pipe(net, j), Pipe(AfterServerRead(net, l, order, now), j), j == l)
  {
    hide ServerOk, DistinctSessions, Serving, Tracks, RoutesOf, Sound, Live, Answered, Enumerates, Grown, Outgoing,
      InOrder;
    var k := net.links[l];
    var s := net.servers[k.server];
    var t := Answered(s, k.session, k.up[0], order, now);
    AnsweredGrows(s, k.session, k.up[0], order, now, j.mesh);
    var after := AfterServerRead(net, l, order, now);
    var still := after.(links := net.links);
    OtherLink(net, still, j, k.server, t);
    if j == l {
      OneRead(k.up, Outgoing(net, l), Outgoing(still, l));
      SameOutgoing(still, after, l);
    } else {
      SameOutgoing(still, after, j);
    }
  }

  lemma SameOutgoing(a: Net, b: Net, l: LinkId)
    requires a.servers == b.servers
    ensures Outgoing(a, l) == Outgoing(b, l)
  {
  }

  lemma OneRead(up: seq<Frame>, before: seq<Frame>, after: seq<Frame>)
    requires up != [] && InOrder(up + before, up + after, false)
    ensures InOrder(up + before, up[1..] + after, true)
  {
    assert (up + before)[1..] == up[1..] + before;
    assert up + after == [up[0]] + (up[1..] + after);
    forall i | 0 <= i < |up[1..] + before| ensures (up[1..] + before)[i] == (up[1..] + after)[i] {
      assert (up + before)[i + 1] == (up + after)[i + 1];
    }
  }

  lemma PipeInOrder(net: Net, e: Event, now: real, j: LinkId)
    requires NetInv(net) && CanHappen(net, e) && Ready(net, e)
    requires j in net.links && net.links[j].clientUp && net.links[j].serverUp
    requires e != CloseClient(j) && e != CloseServer(j)
    ensures j in Happen(net, e, now).links
    ensures InOrder(Pipe(net, j), Pipe(Happen(net, e, now), j), e.ServerRead? && e.link == j)
  {
    hide ServerOk, DistinctSessions, Serving, Tracks, RoutesOf, Sound, Live, Answered, Enumerates, Grown, Outgoing,
      InOrder, Enabled, Step, Refs, LinkOk, Pipe;
    var after := Happen(net, e, now);
    match e
    case Local(sv, op) =>
      LocalIsNotMesh(net, sv, op);
      StepGrows(net.servers[sv], op, now, j.mesh);
      LocalNet(net, sv, op, now);
      OtherLink(net, after, j, sv, Step(net.servers[sv], op, now));
    case Connect(l, sv, info, capacity) => ConnectInOrder(net, l, sv, info, capacity, now, j);
    case ClientWrite(l) => WriteInOrder(net, l, j);
    case ServerRead(l, order) => ReadInOrder(net, l, order, now, j);
    case ServerWrite(l) =>
      DequeuedMesh(net.servers[net.links[l].server], net.links[l].session);
      SameGrown(net.servers[net.links[l].server].mesh, j.mesh);
      OtherLink(net, after, j, net.links[l].server, after.servers[net.links[l].server]);
    case Keepalive(l, frame) => SameServers(net, after, j);
    case ClientRead(l) =>
      LinkGrows(net.servers[l.client], l.mesh, net.links[l].down[0], j.mesh);
      OtherLink(net, after, j, l.client, after.servers[l.client]);
    case CloseClient(l) => CloseInOrder(net, l, j);
    case CloseServer(l) =>
      LinkFacts(net, l);
      UnregisterIsStep(net.servers[net.links[l].server], net.links[l].session);
      RegisterMesh(net.servers[net.links[l].server], Unregister(net.links[l].session), 0.0);
      SameGrown(net.servers[net.links[l].server].mesh, j.mesh);
      OtherLink(net, after, j, net.links[l].server, after.servers[net.links[l].server]);
  }

  lemma LocalNet(net: Net, sv: ServerId, op: Op, now: real)
    requires sv in net.servers && Refs(net.servers[sv]) && Enabled(net.servers[sv], op)
    ensures var after := AfterLocal(net, sv, op, now);
      after.servers == net.servers[sv := Step(net.servers[sv], op, now)] && after.links == net.links
  {
    hide Step, Enabled, Refs;
  }

  lemma SameServers(net: Net, after: Net, j: LinkId)
    requires j in net.links && j in after.links && after.servers == net.servers && after.links[j].up == net.links[j].up
    ensures InOrder(Pipe(net, j), Pipe(after, j), false)
  {
  }

  lemma ConnectInOrder(net: Net, l: LinkId, sv: ServerId, info: Info, capacity: nat, now: real, j: LinkId)
    requires NetInv(net) && j in net.links && CanHappen(net, Connect(l, sv, info, capacity))
    ensures j in AfterConnect(net, l, sv, info, capacity, now).links
    ensures InOrder(Pipe(net, j), Pipe(AfterConnect(net, l, sv, info, capacity, now), j), false)
  {
    hide ServerOk, DistinctSessions, Serving, Tracks, RoutesOf, Registered;
    assert LinkOk(net, j);
    RegisterKeepsMesh(net.servers[sv], info, now);
    assert j.client != l.client || j.mesh != l.mesh;
  }

  lemma CloseInOrder(net: Net, l: LinkId, j: LinkId)
    requires NetInv(net) && j in net.links && j != l && Wired(net, l)
    ensures j in AfterCloseClient(net, l).links
    ensures InOrder(Pipe(net, j), Pipe(AfterCloseClient(net, l), j), false)
  {
    hide ServerOk, DistinctSessions, Serving, Tracks, RoutesOf, MeshRemoved;
    assert LinkOk(net, j);
    ChannelsKept(net.servers[l.client].mesh, l.mesh, 1);
    assert j.client != l.client || j.mesh != l.mesh;
  }

  /** On every link between two live ends, in every reachable state of every network, nothing overtakes anything:
      whatever happens, other than the end of the link, what is on its way stays in order, loses only the frame that the
      server reads, and gains only at its end. */
  lemma NothingOvertakes(nets: seq<Net>, events: seq<Event>, times: seq<real>, i: nat, j: LinkId)
    requires NetRun(nets, events, times) && i < |events|
    requires j in nets[i].links && nets[i].links[j].clientUp && nets[i].links[j].serverUp
    requires events[i] != CloseClient(j) && events[i] != CloseServer(j)
    ensures j in nets[i + 1].links
    ensures InOrder(Pipe(nets[i], j), Pipe(nets[i + 1], j), events[i].ServerRead? && events[i].link == j)
  {
    hide NetInv, CanHappen, Ready, Happen, InOrder, Pipe;
    NetInvariant(nets, events, times, i);
    assert NetNext(nets[i], events[i], times[i], nets[i + 1]);
    PipeInOrder(nets[i], events[i], times[i], j);
  }
}
