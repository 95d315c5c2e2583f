/** Any number of relays joined by mesh links. A link is dialled by one server (its client), which holds a
    channel of outgoing frames; the other server holds a session for it. Frames travel in order both ways, and
    either end may close at any time. Topologies may be cyclic, and a server may dial itself. */
module MeshNet {
  import opened Types
  import opened Dispatch
  import opened RelayState
  import opened RelayIndex
  import opened RelayRuns
  import opened RelayFrames
  import opened MeshNews

  type ServerId = nat

  /** The dialling server and its id for the connection, which also names the connection's channel. */
  datatype LinkId = LinkId(client: ServerId, mesh: MeshId)

  /** `up` is on the wire from the client, `down` on the wire to it. */
  datatype Link = Link(server: ServerId, session: SessionId, up: seq<Frame>, down: seq<Frame>, clientUp: bool,
                       serverUp: bool)

  /** `sent`, `forwarded` and `lost` are history: the packets that clients sent, those put on a mesh link, and
      those lost with a closed link. */
  datatype Net = Net(servers: map<ServerId, State>, links: map<LinkId, Link>, sent: multiset<Packet>,
                     forwarded: multiset<Packet>, lost: multiset<Packet>)

  // ---------------------------------------------------------------- packets on links

  function PacketsIn(fs: seq<Frame>): multiset<Packet> {
    if fs == [] then multiset{}
    else
      var f := fs[|fs| - 1];
      PacketsIn(fs[..|fs| - 1]) + if f.ForwardPacket? then multiset{Packet(f.src, f.dst, f.packet)} else multiset{}
  }

  // ---------------------------------------------------------------- what the two ends do with frames

  /** The relay operation by which a session's reader answers a frame, if it answers by one. */
  function OpFor(info: Info, frame: Frame, id: SessionId, order: seq<NodeKey>): Option<Op> {
    match Handle(info, frame)
    case DoRoute(p, forwarded) => Some(Route(id, p, forwarded))
    case DoWatch => Some(Watch(id, order))
    case DoClose(peer) => Some(Close(id, peer))
    case DoPong(value) => Some(SendPong(id, value))
    case DoPrefer(preferred) => Some(Prefer(id, preferred))
    case _ => None
  }

  lemma AfterActivity(s: State, id: SessionId, now: real)
    requires Sound(s) && Live(s, id)
    ensures ActivityNoted(s, id) == Step(s, NoteActivity(id), now)
    ensures Sound(ActivityNoted(s, id)) && Live(ActivityNoted(s, id), id)
    ensures ActivityNoted(s, id).index.peers.Keys == s.index.peers.Keys && ActivityNoted(s, id).mesh == s.mesh
    ensures ActivityNoted(s, id).sessions == s.sessions
  {
    hide Agreement, RouteRefs, IndexRefs, PickActive;
    SoundStep(s, NoteActivity(id), now);
  }

  lemma AnswerEnabled(s: State, id: SessionId, frame: Frame, order: seq<NodeKey>, now: real)
    requires Sound(s) && Live(s, id) && Enumerates(order, s.index.peers.Keys)
    ensures Refs(ActivityNoted(s, id)) && Sound(ActivityNoted(s, id))
    ensures var op := OpFor(s.sessions[id].info, frame, id, order);
      op.Some? ==>
        && Enabled(ActivityNoted(s, id), op.value)
        && !MeshOp(op.value) && !op.value.Unregister? && !op.value.Dequeue?
  {
    hide ActivityNoted, Agreement, IndexRefs, RouteRefs, Live, Enumerates;
    AfterActivity(s, id, now);
  }

  predicate MeshOp(op: Op) {
    op.AddRoute? || op.RemoveRoute? || op.RemoveMesh? || op.OpenChannel? || op.OfferChannel? || op.TakeChannel? ||
        op.CloseChannel?
  }

  /** The session's reader: note the activity, then answer. */
  function Answered(s: State, id: SessionId, frame: Frame, order: seq<NodeKey>, now: real): State
    requires Sound(s) && Live(s, id) && Enumerates(order, s.index.peers.Keys)
  {
    AnswerEnabled(s, id, frame, order, now);
    var op := OpFor(s.sessions[id].info, frame, id, order);
    if op.Some? then Step(ActivityNoted(s, id), op.value, now) else ActivityNoted(s, id)
  }

  /** The mesh reader on the client's side. */
  function HeardFromLink(s: State, m: MeshId, frame: Frame): State
    requires m in s.mesh.channels
  {
    match frame
    case PeerPresent(peer, _, _, _) => s.(mesh := RouteAdded(s.mesh, m, peer, m))
    case PeerGone(peer, _) => s.(mesh := RouteRemoved(s.mesh, m, peer))
    case Ping(value) => s.(mesh := ChannelOffered(s.mesh, m, Pong(value)))
    case _ => s
  }

  // ---------------------------------------------------------------- events

  datatype Event =
    | Local(server: ServerId, op: Op)
    | Connect(link: LinkId, server: ServerId, info: Info, capacity: nat)
    | ClientWrite(link: LinkId)
    | ServerRead(link: LinkId, order: seq<NodeKey>)
    | ServerWrite(link: LinkId)
    | Keepalive(link: LinkId, frame: Frame)
    | ClientRead(link: LinkId)
    | CloseClient(link: LinkId)
    | CloseServer(link: LinkId)

  /** The session belongs to a link whose server end is up, so its reader and writer are the link's. */
  predicate LinkSession(net: Net, sv: ServerId, id: SessionId) {
    exists l :: l in net.links && net.links[l].server == sv && net.links[l].session == id && net.links[l].serverUp
  }

  /** Steps of a server on behalf of its own clients: a client sends in its own name only. */
  predicate LocalOp(net: Net, sv: ServerId, op: Op)
    requires sv in net.servers && Enabled(net.servers[sv], op)
  {
    match op
    case Route(source, p, forwarded) => !forwarded && p.src == net.servers[sv].sessions[source].info.key
    case Unregister(id) => !LinkSession(net, sv, id)
    case Dequeue(id, _) => !LinkSession(net, sv, id)
    case Register(_) => true
    case NoteActivity(_) => true
    case Prefer(_, _) => true
    case Watch(_, _) => true
    case Close(_, _) => true
    case Restart(_, _) => true
    case SendPong(_, _) => true
    case DropReceiver(_) => true
    case _ => false
  }

  predicate CanHappen(net: Net, e: Event) {
    match e
    case Local(sv, op) => sv in net.servers && Enabled(net.servers[sv], op) && LocalOp(net, sv, op)
    case Connect(l, sv, info, _) =>
      && l.client in net.servers && sv in net.servers && l !in net.links
      && l.mesh !in net.servers[l.client].mesh.channels && info.canMesh
    case ClientWrite(l) => l in net.links && net.links[l].clientUp && Outgoing(net, l) != []
    case ServerRead(l, order) =>
      && l in net.links && net.links[l].serverUp && net.links[l].up != []
      && net.links[l].server in net.servers && Enumerates(order, net.servers[net.links[l].server].index.peers.Keys)
    case ServerWrite(l) => l in net.links && net.links[l].serverUp && Queued(net, l) != []
    case Keepalive(l, frame) => l in net.links && net.links[l].serverUp && (frame.Ping? || frame.KeepAlive?)
    case ClientRead(l) => l in net.links && net.links[l].clientUp && net.links[l].down != []
    case CloseClient(l) => l in net.links && net.links[l].clientUp
    case CloseServer(l) => l in net.links && net.links[l].serverUp
  }

  /** The frames waiting in the client's channel. */
  function Outgoing(net: Net, l: LinkId): seq<Frame> {
    if l.client in net.servers && l.mesh in net.servers[l.client].mesh.channels
    then net.servers[l.client].mesh.channels[l.mesh].queue else []
  }

  /** The frames waiting in the queue of the server's session. */
  function Queued(net: Net, l: LinkId): seq<Frame> {
    if l in net.links && net.links[l].server in net.servers
       && net.links[l].session in net.servers[net.links[l].server].sessions
    then net.servers[net.links[l].server].sessions[net.links[l].session].box.queue else []
  }

  // ---------------------------------------------------------------- the invariant

  predicate LinkOk(net: Net, l: LinkId)
    requires l in net.links
  {
    var k := net.links[l];
    && l.client in net.servers && k.server in net.servers
    && l.mesh in net.servers[l.client].mesh.channels
    && (k.serverUp ==> Serving(net.servers[k.server], k.session))
    && (k.serverUp && k.clientUp ==>
          Tracks(net.servers[k.server], k.session, RoutesOf(net.servers[l.client].mesh, l.mesh), k.down))
    && (!k.clientUp ==> RoutesOf(net.servers[l.client].mesh, l.mesh) == {})
  }

  predicate Serving(s: State, w: SessionId) {
    Live(s, w) && s.sessions[w].info.canMesh
  }

  predicate ServerOk(s: State) {
    Sound(s) && MeshOk(s.mesh)
  }

  predicate DistinctSessions(net: Net) {
    forall l, m :: l in net.links && m in net.links && l != m && net.links[l].serverUp && net.links[m].serverUp ==>
      net.links[l].server != net.links[m].server || net.links[l].session != net.links[m].session
  }

  predicate NetInv(net: Net) {
    && (forall sv :: sv in net.servers ==> ServerOk(net.servers[sv]))
    && (forall l :: l in net.links ==> LinkOk(net, l))
    && DistinctSessions(net)
  }

  // ---------------------------------------------------------------- what a server's step keeps for the links

  /** t still serves session w as s did, whatever its reader has heard. */
  ghost predicate Serves(s: State, t: State, w: SessionId) {
    && (Serving(s, w) ==> Serving(t, w))
    && (forall heard, down :: Tracks(s, w, heard, down) ==> Tracks(t, w, heard, down))
  }

  /** t still has connection m's channel and its routes. */
  predicate Carries(s: State, t: State, m: MeshId) {
    && RoutesOf(t.mesh, m) == RoutesOf(s.mesh, m)
    && (m in s.mesh.channels ==> m in t.mesh.channels)
  }

  lemma ServesStep(s: State, op: Op, now: real, w: SessionId)
    requires Sound(s) && Enabled(s, op) && op != Unregister(w) && (op.Dequeue? ==> op.id != w)
    requires w in s.sessions
    ensures Serves(s, Step(s, op, now), w)
  {
    hide Step, Enabled, Agreement, IndexRefs, RouteRefs, Tracks, Live;
    HandlesStep(s, op, now);
    forall heard, down | Tracks(s, w, heard, down) ensures Tracks(Step(s, op, now), w, heard, down) {
      TracksStep(s, op, now, w, heard, down);
    }
    LiveAfter(s, op, now, w);
  }

  lemma LiveAfter(s: State, op: Op, now: real, w: SessionId)
    requires Sound(s) && Enabled(s, op) && op != Unregister(w)
    ensures Live(s, w) ==> Live(Step(s, op, now), w)
  {
    hide Registered, ActivityNoted, Unregistered, Routed, Watched, PeerClosed, RestartAnnounced, PreferredNoted,
      IndexRefs, RouteRefs, Live, Agreement;
    if op.Register? {
      LiveRegister(s, op.info, now, w);
    } else if op.Unregister? {
      LiveUnregister(s, op.id, w);
    } else {
      LiveOther(s, op, now, w);
    }
  }

  /** Steps that are not about the mesh leave every route and every channel in place. */
  lemma RoutesKept(s: State, op: Op, now: real)
    requires Refs(s) && Enabled(s, op) && !MeshOp(op)
    ensures Step(s, op, now).mesh.routes == s.mesh.routes && Step(s, op, now).mesh.channels.Keys == s.mesh.channels.Keys
  {
    hide Registered, ActivityNoted, Unregistered, RoutedSessions, RoutedPaths, RoutedStats, Watched, PeerClosed,
      RestartAnnounced, PreferredNoted, IndexRefs, RouteRefs;
    match op
    case Register(_) => RegisterMesh(s, op, now);
    case Unregister(_) => RegisterMesh(s, op, now);
    case NoteActivity(_) => RegisterMesh(s, op, now);
    case Watch(_, _) => RegisterMesh(s, op, now);
    case Route(_, _, _) =>
    case _ => QuietHandles(s, op, now);
  }

  lemma RegisterMesh(s: State, op: Op, now: real)
    requires Refs(s) && Enabled(s, op) && (op.Register? || op.Unregister? || op.NoteActivity? || op.Watch?)
    ensures Step(s, op, now).mesh == s.mesh
  {
    hide RegisteredSessions, RegisteredIndex, DetachedSessions, DetachedIndex, ErasedSessions, ErasedIndex,
      ErasedPaths, Refs, ActivityIndex, Snapshot, PushAll, Departs;
    if op.Unregister? {
      DetachedHandles(s, op.id);
    }
  }

  lemma CarriesStep(s: State, op: Op, now: real, m: MeshId)
    requires Refs(s) && Enabled(s, op) && !MeshOp(op)
    ensures Carries(s, Step(s, op, now), m) && (MeshOk(s.mesh) ==> MeshOk(Step(s, op, now).mesh))
  {
    hide Step, Enabled, Refs;
    RoutesKept(s, op, now);
  }

  /** Replacing one server by a state that serves and carries what it did keeps every link. */
  lemma ReplaceServer(net: Net, net': Net, sv: ServerId, t: State)
    requires NetInv(net) && sv in net.servers && ServerOk(t)
    requires net'.servers == net.servers[sv := t] && net'.links == net.links
    requires forall l :: l in net.links && net.links[l].server == sv && net.links[l].serverUp ==>
               Serves(net.servers[sv], t, net.links[l].session)
    requires forall l :: l in net.links && l.client == sv ==> Carries(net.servers[sv], t, l.mesh)
    ensures NetInv(net')
  {
    hide Serving, Tracks, RoutesOf, ServerOk;
    forall l | l in net'.links ensures LinkOk(net', l) {
      assert LinkOk(net, l);
    }
  }

  /** The same when link l0 changes along with the server, provided its own invariant is re-established. */
  lemma ReplaceServerAndLink(net: Net, net': Net, sv: ServerId, t: State, l0: LinkId, k: Link)
    requires NetInv(net) && sv in net.servers && ServerOk(t) && l0 in net.links
    requires net'.servers == net.servers[sv := t] && net'.links == net.links[l0 := k]
    requires k.server == net.links[l0].server && k.session == net.links[l0].session
    requires k.serverUp ==> net.links[l0].serverUp
    requires LinkOk(net', l0)
    requires forall l :: l in net.links && l != l0 && net.links[l].server == sv && net.links[l].serverUp ==>
               Serves(net.servers[sv], t, net.links[l].session)
    requires forall l :: l in net.links && l != l0 && l.client == sv ==> Carries(net.servers[sv], t, l.mesh)
    ensures NetInv(net')
  {
    hide Serving, Tracks, RoutesOf, ServerOk;
    forall l | l in net'.links ensures LinkOk(net', l) {
      if l != l0 {
        assert LinkOk(net, l);
      }
    }
  }

  // ---------------------------------------------------------------- the events as functions

  /** The packets waiting in a server's channels. */
  ghost function ChannelLoad(s: State): multiset<Packet> {
    LoadOf(s.mesh.channels)
  }

  ghost function LoadOf(channels: map<ChannelId, Channel>): multiset<Packet> {
    Sum(WaitingIn(channels))
  }

  function WaitingIn(channels: map<ChannelId, Channel>): map<ChannelId, multiset<Packet>> {
    map c | c in channels :: PacketsIn(channels[c].queue)
  }

  /** The sum of a finite family of multisets. */
  ghost function Sum<K(!new), V(!new)>(m: map<K, multiset<V>>): multiset<V> {
    if m == map[] then multiset{} else var k :| k in m; m[k] + Sum(m - {k})
  }

  /** Server sv goes from its state to t; what that puts on its channels counts as forwarded. */
  ghost function Moved(net: Net, sv: ServerId, t: State): Net
    requires sv in net.servers
  {
    net.(servers := net.servers[sv := t],
         forwarded := net.forwarded + (ChannelLoad(t) - ChannelLoad(net.servers[sv])))
  }

  /** Both ends of the link exist, and so does the client's channel. */
  predicate Wired(net: Net, l: LinkId) {
    && l in net.links && l.client in net.servers && net.links[l].server in net.servers
    && l.mesh in net.servers[l.client].mesh.channels
  }

  lemma LinkFacts(net: Net, l: LinkId)
    requires NetInv(net) && l in net.links
    ensures Wired(net, l) && Sound(net.servers[net.links[l].server]) && Refs(net.servers[net.links[l].server])
    ensures net.links[l].serverUp ==>
              Live(net.servers[net.links[l].server], net.links[l].session)
              && net.links[l].session in net.servers[net.links[l].server].sessions
  {
    hide Tracks, RoutesOf, Agreement, IndexRefs, RouteRefs, MeshOk;
    assert LinkOk(net, l);
    assert ServerOk(net.servers[net.links[l].server]);
  }

  ghost function AfterLocal(net: Net, sv: ServerId, op: Op, now: real): Net
    requires sv in net.servers && Refs(net.servers[sv]) && Enabled(net.servers[sv], op)
  {
    var moved := Moved(net, sv, Step(net.servers[sv], op, now));
    if op.Route? then moved.(sent := moved.sent + multiset{op.p}) else moved
  }

  function AfterConnect(net: Net, l: LinkId, sv: ServerId, info: Info, capacity: nat, now: real): Net
    requires l.client in net.servers && sv in net.servers
  {
    var id := net.servers[sv].index.nextId;
    var servers := net.servers[sv := Registered(net.servers[sv], info, now)];
    var c := servers[l.client];
    net.(servers := servers[l.client := c.(mesh := ChannelOpened(c.mesh, l.mesh, capacity))],
         links := net.links[l := Link(sv, id, [WatchConns], [], true, true)])
  }

  function AfterClientWrite(net: Net, l: LinkId): Net
    requires l in net.links && Outgoing(net, l) != []
  {
    var f, k, s := Outgoing(net, l)[0], net.links[l], net.servers[l.client];
    var u := net.(servers := net.servers[l.client := s.(mesh := ChannelTaken(s.mesh, l.mesh))]);
    if k.serverUp then u.(links := net.links[l := k.(up := k.up + [f])])
    else u.(lost := net.lost + PacketsIn([f]))
  }

  ghost function AfterServerRead(net: Net, l: LinkId, order: seq<NodeKey>, now: real): Net
    requires Wired(net, l) && net.links[l].up != []
    requires var s := net.servers[net.links[l].server];
      Sound(s) && Live(s, net.links[l].session) && Enumerates(order, s.index.peers.Keys)
  {
    var k := net.links[l];
    Moved(net, k.server, Answered(net.servers[k.server], k.session, k.up[0], order, now))
      .(links := net.links[l := k.(up := k.up[1..])])
  }

  function AfterServerWrite(net: Net, l: LinkId, now: real): Net
    requires Wired(net, l) && Queued(net, l) != []
  {
    var k := net.links[l];
    var s := net.servers[k.server];
    net.(servers := net.servers[k.server := Dequeued(s, k.session, 1)],
         links := net.links[l := k.(down := k.down + [Queued(net, l)[0]])])
  }

  function AfterKeepalive(net: Net, l: LinkId, frame: Frame): Net
    requires l in net.links
  {
    net.(links := net.links[l := net.links[l].(down := net.links[l].down + [frame])])
  }

  function AfterClientRead(net: Net, l: LinkId): Net
    requires Wired(net, l) && net.links[l].down != []
  {
    var k := net.links[l];
    net.(servers := net.servers[l.client := HeardFromLink(net.servers[l.client], l.mesh, k.down[0])],
         links := net.links[l := k.(down := k.down[1..])])
  }

  /** The client's end closes: its routes go, and what waits in its channel is lost. */
  function AfterCloseClient(net: Net, l: LinkId): Net
    requires Wired(net, l)
  {
    var s := net.servers[l.client];
    net.(servers := net.servers[l.client := s.(mesh := ChannelClosed(MeshRemoved(s.mesh, l.mesh), l.mesh))],
         links := net.links[l := net.links[l].(clientUp := false)],
         lost := net.lost + PacketsIn(Outgoing(net, l)))
  }

  /** The server's end closes: its session is unregistered, and what is on the wire to it is lost. */
  function AfterCloseServer(net: Net, l: LinkId): Net
    requires Wired(net, l)
    requires Refs(net.servers[net.links[l].server]) && net.links[l].session in net.servers[net.links[l].server].sessions
  {
    var k := net.links[l];
    net.(servers := net.servers[k.server := Unregistered(net.servers[k.server], k.session)],
         links := net.links[l := k.(serverUp := false, up := [])],
         lost := net.lost + PacketsIn(k.up))
  }

  /** The ends that an event works on are there; the invariant guarantees it for every event that can happen. */
  predicate Ready(net: Net, e: Event) {
    match e
    case Local(sv, op) => sv in net.servers && Refs(net.servers[sv]) && Enabled(net.servers[sv], op)
    case Connect(l, sv, _, _) => l.client in net.servers && sv in net.servers
    case ClientWrite(l) => l in net.links && Outgoing(net, l) != []
    case ServerRead(l, order) =>
      && Wired(net, l) && net.links[l].up != []
      && var s := net.servers[net.links[l].server];
         Sound(s) && Live(s, net.links[l].session) && Enumerates(order, s.index.peers.Keys)
    case ServerWrite(l) => Wired(net, l) && Queued(net, l) != []
    case Keepalive(l, _) => l in net.links
    case ClientRead(l) => Wired(net, l) && net.links[l].down != []
    case CloseClient(l) => Wired(net, l)
    case CloseServer(l) =>
      && Wired(net, l) && Refs(net.servers[net.links[l].server])
      && net.links[l].session in net.servers[net.links[l].server].sessions
  }

  lemma EventReady(net: Net, e: Event)
    requires NetInv(net) && CanHappen(net, e)
    ensures Ready(net, e)
  {
    hide LinkOk, Wired, Agreement, IndexRefs, RouteRefs, MeshOk, Enabled, Live, Enumerates, LocalOp, Outgoing, Queued;
    if e.Local? {
      assert ServerOk(net.servers[e.server]);
    } else if !e.Connect? {
      LinkFacts(net, e.link);
    }
  }

  ghost function Happen(net: Net, e: Event, now: real): Net
    requires Ready(net, e)
  {
    match e
    case Local(sv, op) => AfterLocal(net, sv, op, now)
    case Connect(l, sv, info, capacity) => AfterConnect(net, l, sv, info, capacity, now)
    case ClientWrite(l) => AfterClientWrite(net, l)
    case ServerRead(l, order) => AfterServerRead(net, l, order, now)
    case ServerWrite(l) => AfterServerWrite(net, l, now)
    case Keepalive(l, frame) => AfterKeepalive(net, l, frame)
    case ClientRead(l) => AfterClientRead(net, l)
    case CloseClient(l) => AfterCloseClient(net, l)
    case CloseServer(l) => AfterCloseServer(net, l)
  }

  // ---------------------------------------------------------------- every event keeps the invariant

  lemma NotTheLinksSession(net: Net, sv: ServerId, op: Op, l: LinkId)
    requires CanHappen(net, Local(sv, op)) && l in net.links && net.links[l].server == sv && net.links[l].serverUp
    ensures op != Unregister(net.links[l].session) && (op.Dequeue? ==> op.id != net.links[l].session)
    ensures !MeshOp(op)
  {
  }

  lemma LocalKeeps(net: Net, sv: ServerId, op: Op, now: real)
    requires sv in net.servers && Refs(net.servers[sv]) && Enabled(net.servers[sv], op) && CanHappen(net, Local(sv, op))
    requires NetInv(net)
    ensures NetInv(AfterLocal(net, sv, op, now))
  {
    hide Step, Enabled, IndexRefs, RouteRefs, Agreement, MeshOk, Serves, Carries, LinkOk, LocalOp, ChannelLoad;
    var s, t := net.servers[sv], Step(net.servers[sv], op, now);
    assert ServerOk(s);
    assert !MeshOp(op) by { assert LocalOp(net, sv, op); LocalIsNotMesh(net, sv, op); }
    SoundStep(s, op, now);
    CarriesStep(s, op, now, 0);
    forall l | l in net.links && net.links[l].server == sv && net.links[l].serverUp
      ensures Serves(s, t, net.links[l].session)
    {
      LinkFacts(net, l);
      NotTheLinksSession(net, sv, op, l);
      ServesStep(s, op, now, net.links[l].session);
    }
    forall l | l in net.links && l.client == sv ensures Carries(s, t, l.mesh) {
      CarriesStep(s, op, now, l.mesh);
    }
    ReplaceServer(net, AfterLocal(net, sv, op, now), sv, t);
  }

  lemma LocalIsNotMesh(net: Net, sv: ServerId, op: Op)
    requires sv in net.servers && Enabled(net.servers[sv], op) && LocalOp(net, sv, op)
    ensures !MeshOp(op)
  {
  }

  lemma AnsweredServes(s: State, id: SessionId, frame: Frame, order: seq<NodeKey>, now: real, w: SessionId, m: MeshId)
    requires ServerOk(s) && Live(s, id) && Enumerates(order, s.index.peers.Keys) && w in s.sessions
    ensures ServerOk(Answered(s, id, frame, order, now))
    ensures Serves(s, Answered(s, id, frame, order, now), w)
    ensures Carries(s, Answered(s, id, frame, order, now), m)
  {
    hide Step, Enabled, IndexRefs, RouteRefs, Agreement, MeshOk, Serving, Tracks, RoutesOf, Members, Enumerates,
      ActivityNoted, OpFor;
    AnswerEnabled(s, id, frame, order, now);
    AfterActivity(s, id, now);
    var s1 := ActivityNoted(s, id);
    assert Enabled(s, NoteActivity(id)) by { LiveEnabled(s, id); }
    ServesStep(s, NoteActivity(id), now, w);
    var op := OpFor(s.sessions[id].info, frame, id, order);
    if op.Some? {
      SoundStep(s1, op.value, now);
      ServesStep(s1, op.value, now, w);
      CarriesStep(s1, op.value, now, m);
    }
  }

  lemma LiveEnabled(s: State, id: SessionId)
    requires Live(s, id)
    ensures Enabled(s, NoteActivity(id))
  {
  }

  lemma ServerReadKeeps(net: Net, l: LinkId, order: seq<NodeKey>, now: real)
    requires Wired(net, l) && net.links[l].up != []
    requires var s := net.servers[net.links[l].server];
      Sound(s) && Live(s, net.links[l].session) && Enumerates(order, s.index.peers.Keys)
    requires net.links[l].serverUp && NetInv(net)
    ensures NetInv(AfterServerRead(net, l, order, now))
  {
    hide Answered, IndexRefs, RouteRefs, Agreement, MeshOk, Serves, Carries, ChannelLoad, Live, Enumerates, Tracks,
      Serving, RoutesOf;
    var k := net.links[l];
    var s := net.servers[k.server];
    assert ServerOk(s);
    var t := Answered(s, k.session, k.up[0], order, now);
    forall j | j in net.links && net.links[j].server == k.server && net.links[j].serverUp
      ensures Serves(s, t, net.links[j].session)
    {
      LinkFacts(net, j);
      AnsweredServes(s, k.session, k.up[0], order, now, net.links[j].session, 0);
    }
    forall j | j in net.links && j.client == k.server ensures Carries(s, t, j.mesh) {
      LinkFacts(net, l);
      AnsweredServes(s, k.session, k.up[0], order, now, k.session, j.mesh);
    }
    LinkFacts(net, l);
    AnsweredServes(s, k.session, k.up[0], order, now, k.session, 0);
    var mid := net.(servers := net.servers[k.server := t]);
    ReplaceServer(net, mid, k.server, t);
    WireKeeps(mid, AfterServerRead(net, l, order, now), l, k.(up := k.up[1..]));
  }

  /** What is on the wire from the client does not matter to the news. */
  lemma WireKeeps(net: Net, net': Net, l: LinkId, k: Link)
    requires NetInv(net) && l in net.links && k == net.links[l].(up := k.up)
    requires net'.servers == net.servers && net'.links == net.links[l := k]
    ensures NetInv(net')
  {
    hide Tracks, Serving, RoutesOf, ServerOk;
    forall j | j in net'.links ensures LinkOk(net', j) {
      assert LinkOk(net, j);
    }
  }

  /** A change of the route table and the channels alone. */
  lemma MeshOnly(s: State, mesh: Mesh, w: SessionId)
    requires ServerOk(s) && RouteRefs(mesh) && MeshOk(mesh)
    ensures ServerOk(s.(mesh := mesh)) && Serves(s, s.(mesh := mesh), w)
  {
    hide IndexRefs, Agreement, MeshOk, RouteRefs, Follow, NoNewsLost;
  }

  lemma ClientWriteKeeps(net: Net, l: LinkId)
    requires l in net.links && Outgoing(net, l) != [] && net.links[l].clientUp && NetInv(net)
    ensures NetInv(AfterClientWrite(net, l))
  {
    hide IndexRefs, Agreement, LinkOk, Tracks, Serving, PacketsIn, Serves;
    var k, s := net.links[l], net.servers[l.client];
    assert ServerOk(s);
    var mesh := ChannelTaken(s.mesh, l.mesh);
    var t, f := s.(mesh := mesh), Outgoing(net, l)[0];
    assert mesh.routes == s.mesh.routes && mesh.channels.Keys == s.mesh.channels.Keys;
    assert MeshOk(mesh) && RouteRefs(mesh);
    forall w ensures Serves(s, t, w) { MeshOnly(s, mesh, w); }
    assert ServerOk(t) by { MeshOnly(s, mesh, 0); }
    forall m ensures Carries(s, t, m) { assert RoutesOf(mesh, m) == RoutesOf(s.mesh, m); }
    var mid := net.(servers := net.servers[l.client := t]);
    ReplaceServer(net, mid, l.client, t);
    var after := AfterClientWrite(net, l);
    if k.serverUp {
      WireKeeps(mid, after, l, k.(up := k.up + [f]));
    } else {
      ReplaceServer(net, after, l.client, t);
    }
  }

  lemma ServerWriteKeeps(net: Net, l: LinkId, now: real)
    requires Wired(net, l) && Queued(net, l) != [] && net.links[l].serverUp && NetInv(net)
    ensures NetInv(AfterServerWrite(net, l, now))
  {
    hide IndexRefs, RouteRefs, Agreement, MeshOk, Tracks, Serving, RoutesOf, Dequeued, Live, Serves, Carries;
    var k := net.links[l];
    var s, op := net.servers[k.server], Dequeue(k.session, 1);
    assert ServerOk(s) && LinkOk(net, l);
    LinkFacts(net, l);
    assert Enabled(s, op);
    var t := Step(s, op, now);
    assert t == Dequeued(s, k.session, 1);
    SoundStep(s, op, now);
    CarriesStep(s, op, now, 0);
    forall j | j in net.links && j != l && net.links[j].server == k.server && net.links[j].serverUp
      ensures Serves(s, t, net.links[j].session)
    {
      LinkFacts(net, j);
      assert net.links[j].session != k.session;
      ServesStep(s, op, now, net.links[j].session);
    }
    forall m ensures Carries(s, t, m) { CarriesStep(s, op, now, m); }
    var k' := k.(down := k.down + [Queued(net, l)[0]]);
    var after := AfterServerWrite(net, l, now);
    assert LinkOk(after, l) by {
      WrittenLinkOk(net, after, l, t, now);
    }
    ReplaceServerAndLink(net, after, k.server, t, l, k');
  }

  lemma WrittenLinkOk(net: Net, after: Net, l: LinkId, t: State, now: real)
    requires l in net.links && LinkOk(net, l) && net.links[l].serverUp && Wired(net, l) && Queued(net, l) != []
    requires var k := net.links[l];
      && k.session in net.servers[k.server].sessions
      && Refs(net.servers[k.server]) && Enabled(net.servers[k.server], Dequeue(k.session, 1))
      && t == Step(net.servers[k.server], Dequeue(k.session, 1), now)
      && after.servers == net.servers[k.server := t]
      && after.links == net.links[l := k.(down := k.down + [Queued(net, l)[0]])]
    ensures LinkOk(after, l)
  {
    hide Refs, Tracks, RoutesOf, Enabled, Step, Members;
    var k := net.links[l];
    var s := net.servers[k.server];
    CarriesStep(s, Dequeue(k.session, 1), now, l.mesh);
    HandlesStep(s, Dequeue(k.session, 1), now);
    LiveOther(s, Dequeue(k.session, 1), now, k.session);
    if k.clientUp {
      TracksWrite(s, k.session, now, RoutesOf(net.servers[l.client].mesh, l.mesh), k.down);
    }
  }

  lemma KeepaliveKeeps(net: Net, l: LinkId, frame: Frame)
    requires NetInv(net) && CanHappen(net, Keepalive(l, frame))
    ensures NetInv(AfterKeepalive(net, l, frame))
  {
    hide Tracks, Serving, RoutesOf, ServerOk;
    var after := AfterKeepalive(net, l, frame);
    forall j | j in after.links ensures LinkOk(after, j) {
      assert LinkOk(net, j);
      if j == l && net.links[l].clientUp {
        TracksControl(net.servers[net.links[l].server], net.links[l].session,
                      RoutesOf(net.servers[l.client].mesh, l.mesh), net.links[l].down, frame);
      }
    }
  }

  /** The mesh reader follows the news exactly, and no other connection's routes change. */
  lemma ReaderFollows(s: State, m: MeshId, frame: Frame, n: MeshId)
    requires ServerOk(s) && m in s.mesh.channels
    ensures var t := HeardFromLink(s, m, frame);
      && t == s.(mesh := t.mesh) && RouteRefs(t.mesh) && MeshOk(t.mesh)
      && t.mesh.channels.Keys == s.mesh.channels.Keys
      && RoutesOf(t.mesh, n) == if n == m then Hear(RoutesOf(s.mesh, m), frame) else RoutesOf(s.mesh, n)
  {
    hide IndexRefs, Agreement, RouteAdded, RouteRemoved, MeshOk, RouteRefs;
    match frame
    case PeerPresent(peer, _, _, _) =>
      RefsRoutes(s.mesh, m, peer, m);
      AddedRoutes(s.mesh, m, peer, n);
      ChannelsKept(s.mesh, m, peer);
    case PeerGone(peer, _) =>
      RefsRoutes(s.mesh, m, peer, m);
      RemovedRoutes(s.mesh, m, peer, n);
      ChannelsKept(s.mesh, m, peer);
    case Ping(value) => OfferedKeeps(s.mesh, m, Pong(value), n);
    case _ =>
  }

  lemma ChannelsKept(mesh: Mesh, m: MeshId, peer: NodeKey)
    ensures RouteAdded(mesh, m, peer, m).channels == mesh.channels
    ensures RouteRemoved(mesh, m, peer).channels == mesh.channels
    ensures MeshRemoved(mesh, m).channels == mesh.channels
  {
  }

  lemma OfferedKeeps(mesh: Mesh, m: MeshId, f: Frame, n: MeshId)
    requires m in mesh.channels && RouteRefs(mesh) && MeshOk(mesh)
    ensures var t := ChannelOffered(mesh, m, f);
      RouteRefs(t) && MeshOk(t) && t.channels.Keys == mesh.channels.Keys && RoutesOf(t, n) == RoutesOf(mesh, n)
  {
  }

  lemma ClientReadKeeps(net: Net, l: LinkId)
    requires Wired(net, l) && net.links[l].down != [] && net.links[l].clientUp && NetInv(net)
    ensures NetInv(AfterClientRead(net, l))
  {
    hide IndexRefs, Agreement, MeshOk, Tracks, RoutesOf, RouteRefs, HeardFromLink, Live, Serves;
    var k, s := net.links[l], net.servers[l.client];
    assert ServerOk(s) && LinkOk(net, l);
    var f := k.down[0];
    var t := HeardFromLink(s, l.mesh, f);
    forall n ensures n != l.mesh ==> Carries(s, t, n) { ReaderFollows(s, l.mesh, f, n); }
    ReaderFollows(s, l.mesh, f, l.mesh);
    assert ServerOk(t) by { MeshOnly(s, t.mesh, 0); }
    forall w ensures Serves(s, t, w) { MeshOnly(s, t.mesh, w); }
    var after := AfterClientRead(net, l);
    assert LinkOk(after, l) by {
      var a := net.servers[k.server];
      assert Serves(s, t, k.session);
      if k.serverUp {
        TracksRead(a, k.session, RoutesOf(s.mesh, l.mesh), k.down);
        ServedOn(a, after.servers[k.server], s, t, k.session);
      }
    }
    ReplaceServerAndLink(net, after, l.client, t, l, k.(down := k.down[1..]));
  }

  /** If a server is not the one that changed, it serves on trivially. */
  lemma ServedOn(a: State, b: State, s: State, t: State, w: SessionId)
    requires Serves(s, t, w) && (a == b || (a == s && b == t))
    ensures Serves(a, b, w)
    ensures Serving(a, w) ==> Serving(b, w)
    ensures forall heard, down :: Tracks(a, w, heard, down) ==> Tracks(b, w, heard, down)
  {
    hide Serving, Tracks;
  }

  lemma CloseClientKeeps(net: Net, l: LinkId)
    requires Wired(net, l) && net.links[l].clientUp && NetInv(net)
    ensures NetInv(AfterCloseClient(net, l))
  {
    hide IndexRefs, Agreement, MeshOk, Tracks, RoutesOf, RouteRefs, MeshRemoved, ChannelClosed, Live, Serves,
      PacketsIn;
    var k, s := net.links[l], net.servers[l.client];
    assert ServerOk(s) && LinkOk(net, l);
    var mesh := ClosedMesh(s.mesh, l.mesh);
    var t := s.(mesh := mesh);
    forall n ensures n != l.mesh ==> Carries(s, t, n) { MeshClosedKeeps(s.mesh, l.mesh, n); }
    MeshClosedKeeps(s.mesh, l.mesh, l.mesh);
    assert ServerOk(t) by { MeshOnly(s, mesh, 0); }
    forall w ensures Serves(s, t, w) { MeshOnly(s, mesh, w); }
    var after := AfterCloseClient(net, l);
    assert LinkOk(after, l) by {
      ServedOn(net.servers[k.server], after.servers[k.server], s, t, k.session);
    }
    ReplaceServerAndLink(net, after, l.client, t, l, k.(clientUp := false));
  }

  function ClosedMesh(mesh: Mesh, m: MeshId): Mesh
    requires m in mesh.channels
  {
    ChannelClosed(MeshRemoved(mesh, m), m)
  }

  lemma MeshClosedKeeps(mesh: Mesh, m: MeshId, n: MeshId)
    requires m in mesh.channels && RouteRefs(mesh) && MeshOk(mesh)
    ensures var t := ClosedMesh(mesh, m);
      && RouteRefs(t) && MeshOk(t) && t.channels.Keys == mesh.channels.Keys
      && RoutesOf(t, n) == if n == m then {} else RoutesOf(mesh, n)
  {
    hide MeshOk, MeshRemoved, RouteRefs;
    RefsRoutes(mesh, m, 1, 0);
    ClosedRoutes(mesh, m, n);
    ChannelsKept(mesh, m, 1);
    ClosedChannelKeeps(MeshRemoved(mesh, m), m, n);
  }

  lemma ClosedChannelKeeps(mesh: Mesh, m: MeshId, n: MeshId)
    requires m in mesh.channels && RouteRefs(mesh) && MeshOk(mesh)
    ensures var t := ChannelClosed(mesh, m);
      RouteRefs(t) && MeshOk(t) && t.channels.Keys == mesh.channels.Keys && RoutesOf(t, n) == RoutesOf(mesh, n)
  {
  }

  lemma CloseServerKeeps(net: Net, l: LinkId)
    requires Wired(net, l) && net.links[l].serverUp
    requires var k := net.links[l]; Refs(net.servers[k.server]) && Live(net.servers[k.server], k.session)
    requires NetInv(net)
    ensures NetInv(AfterCloseServer(net, l))
  {
    hide IndexRefs, Agreement, MeshOk, Tracks, RoutesOf, RouteRefs, Members, Serves, PacketsIn, Step, Unregistered,
      Carries;
    var k := net.links[l];
    var s, op := net.servers[k.server], Unregister(k.session);
    assert ServerOk(s) && LinkOk(net, l);
    assert Enabled(s, op) && Unregistered(s, k.session) == Step(s, op, 0.0) by { UnregisterIsStep(s, k.session); }
    var t := Step(s, op, 0.0);
    SoundStep(s, op, 0.0);
    CarriesStep(s, op, 0.0, 0);
    forall j | j in net.links && j != l && net.links[j].server == k.server && net.links[j].serverUp
      ensures Serves(s, t, net.links[j].session)
    {
      LinkFacts(net, j);
      assert net.links[j].session != k.session;
      ServesStep(s, op, 0.0, net.links[j].session);
    }
    forall m ensures Carries(s, t, m) { CarriesStep(s, op, 0.0, m); }
    var after := AfterCloseServer(net, l);
    assert LinkOk(after, l) by { assert Carries(s, t, l.mesh); ClosedLinkOk(net, after, l, t); }
    ReplaceServerAndLink(net, after, k.server, t, l, k.(serverUp := false, up := []));
  }

  lemma UnregisterIsStep(s: State, id: SessionId)
    requires Refs(s) && Live(s, id)
    ensures Enabled(s, Unregister(id)) && Unregistered(s, id) == Step(s, Unregister(id), 0.0)
  {
  }

  lemma ClosedLinkOk(net: Net, after: Net, l: LinkId, t: State)
    requires l in net.links && LinkOk(net, l)
    requires Carries(net.servers[net.links[l].server], t, l.mesh)
    requires after.servers == net.servers[net.links[l].server := t]
    requires after.links == net.links[l := net.links[l].(serverUp := false, up := [])]
    ensures LinkOk(after, l)
  {
    hide Serving, Tracks, RoutesOf;
  }

  // ---------------------------------------------------------------- a new link

  lemma NewSessionTracks(s: State, info: Info, now: real)
    requires Sound(s)
    ensures var t, w := Registered(s, info, now), s.index.nextId;
      && Tracks(t, w, {}, []) && Live(t, w) && w in t.sessions && t.sessions[w].info == info
  {
    hide Agreement, RouteRefs, RegisteredSessions, RegisterEmit, PushAll, Follow, ActiveRefs, GroupRefs, NoNewsLost;
    var t, w := Registered(s, info, now), s.index.nextId;
    RegisteredHandles(s, info, now);
    LiveRegister(s, info, now, w);
    RegisterBoxes(s, info, now, w);
    assert w !in s.sessions && w !in s.index.watchers;
    var empty := Mailbox([], false, [], []);
    var fs := RegisterEmit(s.index, info, w);
    if NoNewsLost(t.sessions[w].box.offers) {
      QueuedNews({}, [], empty, fs, s.depth);
      RegisterNews(s.index, info, w, {});
      FollowIf({}, false, KeepAlive);
      assert [] + empty.queue == [];
    }
  }

  lemma FreshMesh(mesh: Mesh, m: MeshId)
    requires MeshOk(mesh) && RouteRefs(mesh) && m !in mesh.channels
    ensures RoutesOf(mesh, m) == {}
  {
    forall k | k in mesh.routes ensures !HasMesh(mesh.routes[k], m) {
      assert ListOk(mesh.routes[k]);
      forall i | 0 <= i < |mesh.routes[k]| ensures mesh.routes[k][i].meshId != m {
        assert mesh.routes[k][i] in mesh.routes[k];
      }
    }
  }

  lemma OpenedKeeps(mesh: Mesh, m: MeshId, capacity: nat, n: MeshId)
    requires MeshOk(mesh) && RouteRefs(mesh)
    ensures var t := ChannelOpened(mesh, m, capacity);
      MeshOk(t) && RouteRefs(t) && RoutesOf(t, n) == RoutesOf(mesh, n) && t.channels.Keys == mesh.channels.Keys + {m}
  {
  }

  lemma ConnectKeeps(net: Net, l: LinkId, sv: ServerId, info: Info, capacity: nat, now: real)
    requires l.client in net.servers && sv in net.servers && l !in net.links && info.canMesh
    requires l.mesh !in net.servers[l.client].mesh.channels
    requires NetInv(net)
    ensures NetInv(AfterConnect(net, l, sv, info, capacity, now))
  {
    hide IndexRefs, Agreement, MeshOk, Tracks, RoutesOf, RouteRefs, Members, Serves, Carries, Registered, Step,
      Enabled, LinkOk;
    var s := net.servers[sv];
    assert ServerOk(s);
    var a := Registered(s, info, now);
    assert Refs(s) && Enabled(s, Register(info)) && a ==
      Step(s, Register(info), now) by { RegisterIsStep(s, info, now); }
    SoundStep(s, Register(info), now);
    CarriesStep(s, Register(info), now, 0);
    forall j | j in net.links && net.links[j].server ==
        sv && net.links[j].serverUp ensures Serves(s, a, net.links[j].session) {
      LinkFacts(net, j);
      ServesStep(s, Register(info), now, net.links[j].session);
    }
    forall m ensures Carries(s, a, m) { CarriesStep(s, Register(info), now, m); }
    var mid := net.(servers := net.servers[sv := a]);
    ReplaceServer(net, mid, sv, a);
    OpenKeeps(net, mid, l, sv, info, capacity, now);
  }

  lemma RegisterIsStep(s: State, info: Info, now: real)
    requires Refs(s)
    ensures Enabled(s, Register(info)) && Registered(s, info, now) == Step(s, Register(info), now)
  {
  }

  lemma OpenKeeps(net: Net, mid: Net, l: LinkId, sv: ServerId, info: Info, capacity: nat, now: real)
    requires NetInv(net) && NetInv(mid) && l.client in net.servers && sv in net.servers && l !in net.links &&
            info.canMesh
    requires l.mesh !in net.servers[l.client].mesh.channels
    requires mid == net.(servers := net.servers[sv := Registered(net.servers[sv], info, now)])
    ensures NetInv(AfterConnect(net, l, sv, info, capacity, now))
  {
    hide IndexRefs, Agreement, MeshOk, Tracks, RoutesOf, RouteRefs, Live, Serves, Registered;
    var c, w := mid.servers[l.client], net.servers[sv].index.nextId;
    assert ServerOk(net.servers[sv]) && ServerOk(c);
    assert c.mesh == net.servers[l.client].mesh by { RegisterKeepsMesh(net.servers[sv], info, now); }
    var mesh := ChannelOpened(c.mesh, l.mesh, capacity);
    var t := c.(mesh := mesh);
    forall n ensures Carries(c, t, n) { OpenedKeeps(c.mesh, l.mesh, capacity, n); }
    OpenedKeeps(c.mesh, l.mesh, capacity, l.mesh);
    FreshMesh(c.mesh, l.mesh);
    assert ServerOk(t) by { MeshOnly(c, mesh, 0); }
    forall v ensures Serves(c, t, v) { MeshOnly(c, mesh, v); }
    var grown := mid.(servers := mid.servers[l.client := t]);
    ReplaceServer(mid, grown, l.client, t);
    NewSessionTracks(net.servers[sv], info, now);
    ServedOn(mid.servers[sv], grown.servers[sv], c, t, w);
    NewLink(net, grown, AfterConnect(net, l, sv, info, capacity, now), l, Link(sv, w, [WatchConns], [], true, true));
  }

  lemma RegisterKeepsMesh(s: State, info: Info, now: real)
    ensures Registered(s, info, now).mesh == s.mesh
  {
  }

  /** Adding a link to a session that no other link uses. */
  lemma NewLink(net: Net, grown: Net, after: Net, l: LinkId, k: Link)
    requires NetInv(net) && NetInv(grown) && l !in net.links && grown.links == net.links
    requires after.servers == grown.servers && after.links == net.links[l := k]
    requires k.server in net.servers && k.session == net.servers[k.server].index.nextId
    requires LinkOk(after, l)
    ensures NetInv(after)
  {
    hide Tracks, RoutesOf, MeshOk, Agreement, RouteRefs, ActiveRefs, GroupRefs;
    forall j | j in after.links ensures LinkOk(after, j) {
      if j != l {
        assert LinkOk(grown, j);
      }
    }
    forall j | j in net.links && net.links[j].serverUp && net.links[j].server == k.server
      ensures net.links[j].session != k.session
    {
      LinkFacts(net, j);
      assert Refs(net.servers[k.server]);
    }
  }

  // ---------------------------------------------------------------- runs

  lemma EventKeeps(net: Net, e: Event, now: real)
    requires NetInv(net) && CanHappen(net, e) && Ready(net, e)
    ensures NetInv(Happen(net, e, now))
  {
    hide NetInv, AfterLocal, AfterConnect, AfterClientWrite, AfterServerRead, AfterServerWrite, AfterKeepalive,
      AfterClientRead, AfterCloseClient, AfterCloseServer, Enabled, Refs, Sound, Live, Enumerates, LocalOp;
    match e
    case Local(sv, op) => LocalKeeps(net, sv, op, now);
    case Connect(l, sv, info, capacity) => ConnectKeeps(net, l, sv, info, capacity, now);
    case ClientWrite(l) => ClientWriteKeeps(net, l);
    case ServerRead(l, order) => ServerReadKeeps(net, l, order, now);
    case ServerWrite(l) => ServerWriteKeeps(net, l, now);
    case Keepalive(l, frame) => KeepaliveKeeps(net, l, frame);
    case ClientRead(l) => ClientReadKeeps(net, l);
    case CloseClient(l) => CloseClientKeeps(net, l);
    case CloseServer(l) =>
      LinkFacts(net, l);
      CloseServerKeeps(net, l);
  }

  predicate InitNet(net: Net) {
    && net.links == map[] && net.sent == multiset{} && net.forwarded == multiset{} && net.lost == multiset{}
    && forall sv :: sv in net.servers ==> net.servers[sv] == Init(net.servers[sv].depth)
  }

  ghost predicate NetNext(net: Net, e: Event, now: real, after: Net) {
    CanHappen(net, e) && Ready(net, e) && after == Happen(net, e, now)
  }

  ghost predicate NetRun(nets: seq<Net>, events: seq<Event>, times: seq<real>) {
    && |nets| == |events| + 1 == |times| + 1
    && InitNet(nets[0])
    && forall i :: 0 <= i < |events| ==> NetNext(nets[i], events[i], times[i], nets[i + 1])
  }

  lemma InitNetInv(net: Net)
    requires InitNet(net)
    ensures NetInv(net)
  {
    forall sv | sv in net.servers ensures ServerOk(net.servers[sv]) {
      InitAgrees(net.servers[sv].depth);
    }
  }

  /** The invariant holds in every reachable state, and there every event that can happen finds its ends. */
  lemma {:induction false} NetInvariant(nets: seq<Net>, events: seq<Event>, times: seq<real>, i: nat)
    requires NetRun(nets, events, times) && i < |nets|
    ensures NetInv(nets[i])
    ensures forall e :: CanHappen(nets[i], e) ==> Ready(nets[i], e)
  {
    hide NetInv, CanHappen, Ready, Happen;
    if i == 0 {
      InitNetInv(nets[0]);
    } else {
      NetInvariant(nets, events, times, i - 1);
      assert NetNext(nets[i - 1], events[i - 1], times[i - 1], nets[i]);
      EventKeeps(nets[i - 1], events[i - 1], times[i - 1]);
    }
    forall e | CanHappen(nets[i], e) ensures Ready(nets[i], e) {
      EventReady(nets[i], e);
    }
  }

  /** Mesh convergence. On every link whose ends are up, unless the server lost news to a full queue, the
      client's routes for the link followed by the frames still under way lead to exactly the keys connected to
      the server once the link's session watches, and to none before. Once the client's end is closed no route
      of the link remains. No route list is ever empty or holds a connection twice. */
  lemma MeshConvergence(nets: seq<Net>, events: seq<Event>, times: seq<real>, i: nat, l: LinkId)
    requires NetRun(nets, events, times) && i < |nets| && l in nets[i].links
    ensures Wired(nets[i], l)
    ensures var net := nets[i];
      var k, routes := net.links[l], RoutesOf(net.servers[l.client].mesh, l.mesh);
      var s := net.servers[k.server];
      && (k.clientUp && k.serverUp ==>
            && k.session in s.sessions
            && (NoNewsLost(s.sessions[k.session].box.offers) ==>
                  Follow(routes, k.down + s.sessions[k.session].box.queue)
                  == if k.session in s.index.watchers then s.index.peers.Keys else {}))
      && (!k.clientUp ==> routes == {})
    ensures forall sv :: sv in nets[i].servers ==> MeshOk(nets[i].servers[sv].mesh)
  {
    hide NetRun, RoutesOf, Follow, NoNewsLost, MeshOk, Sound;
    NetInvariant(nets, events, times, i);
    LinkFacts(nets[i], l);
    assert LinkOk(nets[i], l);
    forall sv | sv in nets[i].servers ensures MeshOk(nets[i].servers[sv].mesh) {
      assert ServerOk(nets[i].servers[sv]);
    }
  }
}
