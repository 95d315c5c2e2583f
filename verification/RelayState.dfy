/** The relay as a value: its indexes, its sessions with their bounded queues, and what every operation of
    the relay does to them. A session handle is its id in `sessions`; handles stay there after they are
    unregistered, as an `Arc` outlives its place in the indexes. */
module RelayState {
  import opened Types
  import opened RateLimit

  type SessionId = nat
  type ChannelId = nat
  type MeshId = nat

  const DUPLICATE_TEXT: Bytes := [
    0x64, 0x75, 0x70, 0x6c, 0x69, 0x63, 0x61, 0x74, 0x65, 0x20, 0x44, 0x45, 0x52, 0x50, 0x20, 0x63, 0x6f, 0x6e, 0x6e,
    0x65, 0x63, 0x74, 0x69, 0x6f, 0x6e, 0x20, 0x66, 0x6f, 0x72, 0x20, 0x6e, 0x6f, 0x64, 0x65, 0x20, 0x6b, 0x65, 0x79]
  const DISCO_MAGIC: Bytes := [0x54, 0x53, 0xF0, 0x9F, 0x92, 0xAC]

  /** What a session is registered with. */
  datatype Info = Info(key: NodeKey, endpoint: SocketAddr, canMesh: bool, canAckPings: bool, isProber: bool,
                       notIdeal: bool)

  /** One `try_send` to a session: the frame and whether the queue took it. */
  datatype Offer = Offer(frame: Frame, accepted: bool)

  /** A session's bounded queue. `offers` and `output` are history: everything ever offered, and everything
      the writer has taken out. */
  datatype Mailbox = Mailbox(queue: seq<Frame>, receiverGone: bool, offers: seq<Offer>, output: seq<Frame>)

  datatype Session = Session(info: Info, box: Mailbox, closed: bool, duplicate: bool, preferred: bool,
                             preferredSeen: bool, seenSources: set<NodeKey>, limiter: Limiter)

  type Sessions = map<SessionId, Session>

  datatype PeerSet = PeerSet(sessions: seq<SessionId>, active: SessionId)

  /** The session indexes. */
  datatype Index = Index(peers: map<NodeKey, PeerSet>, active: map<NodeKey, SessionId>, watchers: set<SessionId>,
                         nextId: SessionId)

  datatype MeshRoute = MeshRoute(meshId: MeshId, tx: ChannelId)

  /** The queue of an outgoing mesh connection. */
  datatype Channel = Channel(queue: seq<Frame>, capacity: nat, receiverGone: bool)

  datatype Mesh = Mesh(routes: map<NodeKey, seq<MeshRoute>>, channels: map<ChannelId, Channel>)

  datatype Packet = Packet(src: NodeKey, dst: NodeKey, bytes: Bytes)

  /** The counters and gauges. `lost` is history: the packets that `dropped` counts. */
  datatype Stats = Stats(received: int, sent: int, dropped: int, forwardedIn: int, forwardedOut: int,
                         currentClients: int, preferredClients: int, homeMovesIn: int, homeMovesOut: int,
                         lost: seq<Packet>)

  type Paths = map<NodeKey, set<NodeKey>>

  datatype State = State(index: Index, sessions: Sessions, paths: Paths, mesh: Mesh, stats: Stats, depth: nat)

  function Init(queueDepth: nat): State {
    State(Index(map[], map[], {}, 1), map[], map[], Mesh(map[], map[]), Stats(0, 0, 0, 0, 0, 0, 0, 0, 0, []),
          if queueDepth < 1 then 1 else queueDepth)
  }

  // ---------------------------------------------------------------- sessions

  function NewSession(info: Info, now: real): Session {
    Session(info, Mailbox([], false, [], []), false, false, false, false, {}, NewLimiter(now))
  }

  predicate CanTake(b: Mailbox, depth: nat) {
    !b.receiverGone && |b.queue| < depth
  }

  /** `SessionHandle::send`. */
  function Push(b: Mailbox, f: Frame, depth: nat): Mailbox {
    if CanTake(b, depth) then Mailbox(b.queue + [f], b.receiverGone, b.offers + [Offer(f, true)], b.output)
    else Mailbox(b.queue, b.receiverGone, b.offers + [Offer(f, false)], b.output)
  }

  function PushAll(b: Mailbox, fs: seq<Frame>, depth: nat): Mailbox {
    if fs == [] then b else Push(PushAll(b, fs[..|fs| - 1], depth), fs[|fs| - 1], depth)
  }

  function Send(x: Session, fs: seq<Frame>, depth: nat): Session {
    x.(box := PushAll(x.box, fs, depth))
  }

  function Flags(info: Info): byte {
    var f := (if info.canMesh then 2 else 0) + (if info.isProber then 4 else 0) + (if info.notIdeal then 8 else 0);
    if f == 0 then 1 else f
  }

  function PresentFrame(peer: NodeKey, info: Info): Frame {
    PeerPresent(peer, Some(info.endpoint), Some(Flags(info)), [])
  }

  predicate LooksLikeDisco(packet: Bytes) {
    |packet| >= |DISCO_MAGIC| + 32 + 24 && packet[..|DISCO_MAGIC|] == DISCO_MAGIC
  }

  // ---------------------------------------------------------------- indexes

  /** `PeerSet::active`: the session named active if it is in the set, else the newest one. */
  function PickActive(group: PeerSet): Option<SessionId> {
    if group.active in group.sessions then Some(group.active)
    else if group.sessions == [] then None
    else Some(group.sessions[|group.sessions| - 1])
  }

  function Without(ids: seq<SessionId>, id: SessionId): seq<SessionId> {
    if ids == [] then []
    else Without(ids[..|ids| - 1], id) + if ids[|ids| - 1] == id then [] else [ids[|ids| - 1]]
  }

  function Members(x: Index, k: NodeKey): seq<SessionId> {
    if k in x.peers then x.peers[k].sessions else []
  }

  /** Registered and not yet unregistered. */
  predicate Live(s: State, id: SessionId) {
    id in s.sessions && id in Members(s.index, s.sessions[id].info.key)
  }

  predicate ActiveRefs(active: map<NodeKey, SessionId>, sessions: Sessions) {
    forall k :: k in active ==> active[k] in sessions && sessions[active[k]].info.key == k
  }

  predicate GroupRefs(peers: map<NodeKey, PeerSet>, sessions: Sessions) {
    forall k, id :: k in peers && id in peers[k].sessions ==> id in sessions && sessions[id].info.key == k
  }

  predicate IndexRefs(x: Index, sessions: Sessions) {
    && ActiveRefs(x.active, sessions)
    && GroupRefs(x.peers, sessions)
    && x.watchers <= sessions.Keys
    && (forall id :: id in sessions ==> id < x.nextId)
  }

  predicate RouteRefs(mesh: Mesh) {
    forall k, r :: k in mesh.routes && r in mesh.routes[k] ==> r.tx in mesh.channels
  }

  /** Every handle in an index is a session of the right key, ids not handed out yet are unused, and
      every mesh route leads to a channel: what shared ownership of handles and senders guarantees. */
  predicate Refs(s: State) {
    IndexRefs(s.index, s.sessions) && RouteRefs(s.mesh)
  }

  // ---------------------------------------------------------------- register, activity

  /** The sessions of a key once the next one is added. */
  function Joined(x: Index, key: NodeKey): seq<SessionId> {
    Members(x, key) + [x.nextId]
  }

  /** The frames that registering offers to session i. */
  function RegisterEmit(x: Index, info: Info, i: SessionId): seq<Frame> {
    (if |Joined(x, info.key)| > 1 && i in Joined(x, info.key) then [Health(DUPLICATE_TEXT)] else [])
    + (if i in x.watchers then [PresentFrame(info.key, info)] else [])
  }

  function MarkDuplicate(x: Session, yes: bool): Session {
    if yes then x.(duplicate := true) else x
  }

  function RegisteredIndex(x: Index, key: NodeKey): Index {
    Index(x.peers[key := PeerSet(Joined(x, key), x.nextId)], x.active[key := x.nextId], x.watchers, x.nextId + 1)
  }

  function RegisteredSessions(x: Index, all: Sessions, info: Info, depth: nat): Sessions {
    map i | i in all ::
      var duplicate := |Joined(x, info.key)| > 1 && i in Joined(x, info.key);
      Send(MarkDuplicate(all[i], duplicate), RegisterEmit(x, info, i), depth)
  }

  function Registered(s: State, info: Info, now: real): State {
    var all := s.sessions[s.index.nextId := NewSession(info, now)];
    s.(index := RegisteredIndex(s.index, info.key),
       sessions := RegisteredSessions(s.index, all, info, s.depth),
       stats := s.stats.(currentClients := s.stats.currentClients + 1))
  }

  /** `note_activity` of session `id` of `key`, without its early return. */
  function ActivityIndex(x: Index, key: NodeKey, id: SessionId): Index {
    if key !in x.peers then x
    else
      var group := PeerSet(x.peers[key].sessions, id);
      var pick := PickActive(group);
      x.(peers := x.peers[key := group], active := if pick.Some? then x.active[key := pick.value] else x.active)
  }

  function ActivityNoted(s: State, id: SessionId): State
    requires id in s.sessions
  {
    if !s.sessions[id].duplicate then s
    else s.(index := ActivityIndex(s.index, s.sessions[id].info.key, id))
  }

  function PreferredStats(m: Stats, x: Session, preferred: bool): Stats {
    var moved := if x.preferredSeen then 1 else 0;
    if x.preferred == preferred then m
    else if preferred then m.(preferredClients := m.preferredClients + 1, homeMovesIn := m.homeMovesIn + moved)
    else m.(preferredClients := m.preferredClients - 1, homeMovesOut := m.homeMovesOut + moved)
  }

  function PreferredNoted(s: State, id: SessionId, preferred: bool): State
    requires id in s.sessions
  {
    s.(sessions := s.sessions[id := s.sessions[id].(preferred := preferred, preferredSeen := true)],
       stats := PreferredStats(s.stats, s.sessions[id], preferred))
  }

  // ---------------------------------------------------------------- unregister

  /** The sessions of the handle's key that remain when it is taken out. */
  function Survivors(s: State, id: SessionId): seq<SessionId>
    requires id in s.sessions
  {
    Without(Members(s.index, s.sessions[id].info.key), id)
  }

  /** Taking the handle out leaves its key without a session. */
  predicate Departs(s: State, id: SessionId)
    requires id in s.sessions
  {
    s.sessions[id].info.key in s.index.peers && Survivors(s, id) == []
  }

  /** The index when session `id` of `key` is taken out; `active` keeps the entry of an emptied set. */
  function DetachedIndex(x: Index, key: NodeKey, id: SessionId): Index {
    var rest := Without(Members(x, key), id);
    if key !in x.peers then x.(watchers := x.watchers - {id})
    else if rest == [] then
      Index(x.peers[key := PeerSet([], x.peers[key].active)], x.active, x.watchers - {id}, x.nextId)
    else
      var last := rest[|rest| - 1];
      Index(x.peers[key := PeerSet(rest, last)], x.active[key := last], x.watchers - {id}, x.nextId)
  }

  function Leave(x: Session): Session {
    x.(closed := true, preferred := false)
  }

  /** A session left alone is no duplicate any more and is told so. */
  function Cleared(x: Session, depth: nat): Session {
    Send(x.(duplicate := false), [Health([])], depth)
  }

  function DetachedSessions(sessions: Sessions, id: SessionId, rest: seq<SessionId>, depth: nat): Sessions
    requires id in sessions
    requires |rest| == 1 ==> rest[0] in sessions && rest[0] != id
  {
    var base := sessions[id := Leave(sessions[id])];
    if |rest| == 1 then base[rest[0] := Cleared(sessions[rest[0]], depth)] else base
  }

  function DetachedStats(m: Stats, x: Session): Stats {
    if x.preferred then m.(preferredClients := m.preferredClients - 1) else m
  }

  /** First half of `unregister`, under the lock of the key's session set. */
  function Detached(s: State, id: SessionId): State
    requires Refs(s) && id in s.sessions
  {
    WithoutMembers(Members(s.index, s.sessions[id].info.key), id);
    assert |Survivors(s, id)| == 1 ==> Survivors(s, id)[0] in Survivors(s, id);
    State(DetachedIndex(s.index, s.sessions[id].info.key, id),
          DetachedSessions(s.sessions, id, Survivors(s, id), s.depth),
          s.paths, s.mesh, DetachedStats(s.stats, s.sessions[id]), s.depth)
  }

  lemma {:induction false} WithoutMembers(ids: seq<SessionId>, id: SessionId)
    ensures forall i :: i in Without(ids, id) <==> i in ids && i != id
  {
    if ids != [] {
      WithoutMembers(ids[..|ids| - 1], id);
      assert ids == ids[..|ids| - 1] + [ids[|ids| - 1]];
    }
  }

  /** Session i is the current route of a key that has heard from `key`. */
  predicate HeardFrom(s: State, key: NodeKey, i: SessionId)
    requires i in s.sessions
  {
    var b := s.sessions[i].info.key;
    key in s.paths && b in s.paths[key] && b != key && b in s.index.active && s.index.active[b] == i
  }

  /** The frames that the second half of `unregister` offers to session i. */
  function EraseEmit(s: State, key: NodeKey, id: SessionId, i: SessionId): seq<Frame>
    requires i in s.sessions
  {
    (if i in s.index.watchers && i != id then [PeerGone(key, DISCONNECTED)] else [])
    + (if HeardFrom(s, key, i) then [PeerGone(key, DISCONNECTED)] else [])
  }

  function ErasedIndex(x: Index, key: NodeKey): Index {
    x.(peers := x.peers - {key}, active := x.active - {key})
  }

  function ErasedPaths(paths: Paths, key: NodeKey): Paths {
    map a | a in paths && a != key :: paths[a] - {key}
  }

  function ErasedSessions(s: State, key: NodeKey, id: SessionId): Sessions {
    map i | i in s.sessions :: Send(s.sessions[i], EraseEmit(s, key, id, i), s.depth)
  }

  /** Second half of `unregister`, for a key whose set is empty: the index entries go, watchers and
      everyone who heard from the key are told, and the key leaves the reverse paths. */
  function Erased(s: State, id: SessionId): State
    requires id in s.sessions
  {
    var key := s.sessions[id].info.key;
    s.(index := ErasedIndex(s.index, key), sessions := ErasedSessions(s, key, id), paths := ErasedPaths(s.paths, key))
  }

  function OneClientLess(s: State): State {
    s.(stats := s.stats.(currentClients := s.stats.currentClients - 1))
  }

  function Unregistered(s: State, id: SessionId): State
    requires Refs(s) && id in s.sessions
  {
    var d := Detached(s, id);
    OneClientLess(if Departs(s, id) then Erased(d, id) else d)
  }

  // ---------------------------------------------------------------- routing

  function RoutesTo(mesh: Mesh, k: NodeKey): seq<MeshRoute> {
    if k in mesh.routes then mesh.routes[k] else []
  }

  predicate ChannelOpen(c: Channel) {
    !c.receiverGone && |c.queue| < c.capacity
  }

  /** The channel of the first route that has room. */
  function FirstOpen(channels: map<ChannelId, Channel>, routes: seq<MeshRoute>): (r: Option<ChannelId>)
    ensures r.Some? ==> r.value in channels && ChannelOpen(channels[r.value])
  {
    if routes == [] then None
    else if routes[0].tx in channels && ChannelOpen(channels[routes[0].tx]) then Some(routes[0].tx)
    else FirstOpen(channels, routes[1..])
  }

  /** What becomes of a packet. */
  datatype Outcome = Delivered(to: SessionId) | Refused(to: SessionId) | Forwarded(channel: ChannelId) | Unreachable

  function OutcomeOf(s: State, dst: NodeKey, forwarded: bool): Outcome
    requires Refs(s)
  {
    if dst in s.index.active then
      var t := s.index.active[dst];
      if CanTake(s.sessions[t].box, s.depth) then Delivered(t) else Refused(t)
    else
      var channel := FirstOpen(s.mesh.channels, RoutesTo(s.mesh, dst));
      if !forwarded && channel.Some? then Forwarded(channel.value) else Unreachable
  }

  /** `send_peer_not_here`. */
  function NotHere(x: Session, dst: NodeKey, packet: Bytes, now: real, depth: nat): Session {
    if !LooksLikeDisco(packet) then x
    else
      var y := x.(limiter := AfterAsk(x.limiter, now));
      if Allows(x.limiter, now) then Send(y, [PeerGone(dst, NOT_HERE)], depth) else y
  }

  function Heard(x: Session, src: NodeKey): Session {
    x.(seenSources := x.seenSources + {src})
  }

  /** The reverse paths after session x of `dst` took a packet from `src`: recorded on first sight only. */
  function PathsAfter(paths: Paths, x: Session, src: NodeKey, dst: NodeKey): Paths {
    if src in x.seenSources then paths
    else paths[src := (if src in paths then paths[src] else {}) + {dst}]
  }

  function CountIn(m: Stats, forwarded: bool): Stats {
    m.(received := m.received + 1, forwardedIn := m.forwardedIn + if forwarded then 1 else 0)
  }

  function CountDrop(m: Stats, p: Packet): Stats {
    m.(dropped := m.dropped + 1, lost := m.lost + [p])
  }

  function ChannelPush(c: Channel, f: Frame): Channel {
    c.(queue := c.queue + [f])
  }

  function RoutedSessions(s: State, source: SessionId, p: Packet, forwarded: bool, now: real): Sessions
    requires Refs(s) && source in s.sessions
  {
    match OutcomeOf(s, p.dst, forwarded)
    case Delivered(t) => s.sessions[t := Heard(Send(s.sessions[t], [RecvPacket(p.src, p.bytes)], s.depth), p.src)]
    case Refused(t) => s.sessions[t := Send(s.sessions[t], [RecvPacket(p.src, p.bytes)], s.depth)]
    case Forwarded(_) => s.sessions
    case Unreachable => s.sessions[source := NotHere(s.sessions[source], p.dst, p.bytes, now, s.depth)]
  }

  function RoutedPaths(s: State, p: Packet, forwarded: bool): Paths
    requires Refs(s)
  {
    var o := OutcomeOf(s, p.dst, forwarded);
    if o.Delivered? then PathsAfter(s.paths, s.sessions[o.to], p.src, p.dst) else s.paths
  }

  function RoutedMesh(s: State, p: Packet, forwarded: bool): Mesh
    requires Refs(s)
  {
    var o := OutcomeOf(s, p.dst, forwarded);
    if o.Forwarded? then
      var c := s.mesh.channels[o.channel];
      s.mesh.(channels := s.mesh.channels[o.channel := ChannelPush(c, ForwardPacket(p.src, p.dst, p.bytes))])
    else s.mesh
  }

  function RoutedStats(m: Stats, o: Outcome, p: Packet, forwarded: bool): Stats {
    var n := CountIn(m, forwarded);
    match o
    case Delivered(_) => n.(sent := n.sent + 1)
    case Forwarded(_) => n.(forwardedOut := n.forwardedOut + 1)
    case _ => CountDrop(n, p)
  }

  function Routed(s: State, source: SessionId, p: Packet, forwarded: bool, now: real): State
    requires Refs(s) && source in s.sessions
  {
    State(s.index, RoutedSessions(s, source, p, forwarded, now), RoutedPaths(s, p, forwarded),
          RoutedMesh(s, p, forwarded), RoutedStats(s.stats, OutcomeOf(s, p.dst, forwarded), p, forwarded), s.depth)
  }

  // ---------------------------------------------------------------- mesh routes and channels

  function WithoutMesh(routes: seq<MeshRoute>, m: MeshId): seq<MeshRoute> {
    if routes == [] then []
    else WithoutMesh(routes[..|routes| - 1], m) + if routes[|routes| - 1].meshId ==
        m then [] else [routes[|routes| - 1]]
  }

  predicate HasMesh(routes: seq<MeshRoute>, m: MeshId) {
    exists i :: 0 <= i < |routes| && routes[i].meshId == m
  }

  function RouteAdded(mesh: Mesh, m: MeshId, peer: NodeKey, tx: ChannelId): Mesh {
    var routes := RoutesTo(mesh, peer);
    mesh.(routes := mesh.routes[peer := if HasMesh(routes, m) then routes else routes + [MeshRoute(m, tx)]])
  }

  function RouteRemoved(mesh: Mesh, m: MeshId, peer: NodeKey): Mesh {
    if peer !in mesh.routes then mesh
    else
      var rest := WithoutMesh(mesh.routes[peer], m);
      mesh.(routes := if rest == [] then mesh.routes - {peer} else mesh.routes[peer := rest])
  }

  /** `remove_mesh`: the routes of one mesh connection go, and so do the lists they leave empty. */
  function MeshRemoved(mesh: Mesh, m: MeshId): Mesh {
    mesh.(routes := map k | k in mesh.routes && !(HasMesh(mesh.routes[k], m) && WithoutMesh(mesh.routes[k], m) == [])
                      :: WithoutMesh(mesh.routes[k], m))
  }

  function ChannelOpened(mesh: Mesh, c: ChannelId, capacity: nat): Mesh {
    mesh.(channels := mesh.channels[c := Channel([], capacity, false)])
  }

  /** `try_send` on the channel of a mesh connection. */
  function ChannelOffered(mesh: Mesh, c: ChannelId, f: Frame): Mesh
    requires c in mesh.channels
  {
    if ChannelOpen(mesh.channels[c]) then mesh.(channels := mesh.channels[c := ChannelPush(mesh.channels[c], f)])
    else mesh
  }

  function ChannelTaken(mesh: Mesh, c: ChannelId): Mesh
    requires c in mesh.channels && mesh.channels[c].queue != []
  {
    mesh.(channels := mesh.channels[c := mesh.channels[c].(queue := mesh.channels[c].queue[1..])])
  }

  function ChannelClosed(mesh: Mesh, c: ChannelId): Mesh
    requires c in mesh.channels
  {
    mesh.(channels := mesh.channels[c := mesh.channels[c].(queue := [], receiverGone := true)])
  }

  // ---------------------------------------------------------------- watching, closing, restarting

  /** The PeerPresent frames of a snapshot taken in the given order of keys. */
  function Snapshot(s: State, order: seq<NodeKey>): seq<Frame>
    requires Refs(s)
  {
    if order == [] then []
    else
      var k := order[|order| - 1];
      Snapshot(s, order[..|order| - 1])
      + if k in s.index.peers && PickActive(s.index.peers[k]).Some?
        then [PresentFrame(k, s.sessions[PickActive(s.index.peers[k]).value].info)] else []
  }

  /** The order in which `watch` happens to visit the peers: each of them once. */
  predicate Enumerates(order: seq<NodeKey>, keys: set<NodeKey>) {
    && (forall k :: k in order ==> k in keys)
    && (forall k :: k in keys ==> k in order)
    && (forall i, j :: 0 <= i < j < |order| ==> order[i] != order[j])
  }

  function Watched(s: State, id: SessionId, order: seq<NodeKey>): State
    requires Refs(s) && id in s.sessions
  {
    if !s.sessions[id].info.canMesh then s
    else s.(index := s.index.(watchers := s.index.watchers + {id}),
            sessions := s.sessions[id := Send(s.sessions[id], Snapshot(s, order), s.depth)])
  }

  function PeerClosed(s: State, requester: SessionId, peer: NodeKey): State
    requires requester in s.sessions
  {
    if !s.sessions[requester].info.canMesh || peer !in s.index.peers then s
    else s.(sessions := map i | i in s.sessions ::
              if i in s.index.peers[peer].sessions then s.sessions[i].(closed := true) else s.sessions[i])
  }

  function RestartAnnounced(s: State, reconnectInMs: U32, tryForMs: U32): State {
    s.(sessions := map i | i in s.sessions ::
         Send(s.sessions[i], if Live(s, i) then [Restarting(reconnectInMs, tryForMs)] else [], s.depth))
  }

  function Ponged(s: State, id: SessionId, value: U64): State
    requires id in s.sessions
  {
    s.(sessions := s.sessions[id := Send(s.sessions[id], [Pong(value)], s.depth)])
  }

  /** The writer of a session takes the first frames of its queue. */
  function Dequeued(s: State, id: SessionId, count: nat): State
    requires id in s.sessions && count <= |s.sessions[id].box.queue|
  {
    var b := s.sessions[id].box;
    s.(sessions := s.sessions[id := s.sessions[id].(box := b.(queue := b.queue[count..],
                                                             output := b.output + b.queue[..count]))])
  }

  function ReceiverDropped(s: State, id: SessionId): State
    requires id in s.sessions
  {
    s.(sessions := s.sessions[id := s.sessions[id].(box := s.sessions[id].box.(receiverGone := true))])
  }

  // ---------------------------------------------------------------- steps

  datatype Op =
    | Register(info: Info)
    | NoteActivity(id: SessionId)
    | Prefer(id: SessionId, preferred: bool)
    | Unregister(id: SessionId)
    | Route(source: SessionId, p: Packet, forwarded: bool)
    | AddRoute(meshId: MeshId, peer: NodeKey, tx: ChannelId)
    | RemoveRoute(meshId: MeshId, peer: NodeKey)
    | RemoveMesh(meshId: MeshId)
    | Watch(id: SessionId, order: seq<NodeKey>)
    | Close(id: SessionId, peer: NodeKey)
    | Restart(reconnectInMs: U32, tryForMs: U32)
    | SendPong(id: SessionId, value: U64)
    | Dequeue(id: SessionId, count: nat)
    | DropReceiver(id: SessionId)
    | OpenChannel(channel: ChannelId, capacity: nat)
    | OfferChannel(channel: ChannelId, frame: Frame)
    | TakeChannel(channel: ChannelId)
    | CloseChannel(channel: ChannelId)

  /** A handle is used only from its registration to its one `unregister`. */
  predicate Enabled(s: State, op: Op) {
    match op
    case Register(_) => true
    case NoteActivity(id) => Live(s, id)
    case Prefer(id, _) => Live(s, id)
    case Unregister(id) => Live(s, id)
    case Route(source, _, _) => Live(s, source)
    case AddRoute(_, _, tx) => tx in s.mesh.channels
    case RemoveRoute(_, _) => true
    case RemoveMesh(_) => true
    case Watch(id, order) => Live(s, id) && Enumerates(order, s.index.peers.Keys)
    case Close(id, _) => Live(s, id)
    case Restart(_, _) => true
    case SendPong(id, _) => Live(s, id)
    case Dequeue(id, count) => id in s.sessions && count <= |s.sessions[id].box.queue|
    case DropReceiver(id) => id in s.sessions
    case OpenChannel(channel, _) => channel !in s.mesh.channels
    case OfferChannel(channel, _) => channel in s.mesh.channels
    case TakeChannel(channel) => channel in s.mesh.channels && s.mesh.channels[channel].queue != []
    case CloseChannel(channel) => channel in s.mesh.channels
  }

  function Step(s: State, op: Op, now: real): State
    requires Refs(s) && Enabled(s, op)
  {
    match op
    case Register(info) => Registered(s, info, now)
    case NoteActivity(id) => ActivityNoted(s, id)
    case Prefer(id, preferred) => PreferredNoted(s, id, preferred)
    case Unregister(id) => Unregistered(s, id)
    case Route(source, p, forwarded) => Routed(s, source, p, forwarded, now)
    case AddRoute(m, peer, tx) => s.(mesh := RouteAdded(s.mesh, m, peer, tx))
    case RemoveRoute(m, peer) => s.(mesh := RouteRemoved(s.mesh, m, peer))
    case RemoveMesh(m) => s.(mesh := MeshRemoved(s.mesh, m))
    case Watch(id, order) => Watched(s, id, order)
    case Close(id, peer) => PeerClosed(s, id, peer)
    case Restart(a, b) => RestartAnnounced(s, a, b)
    case SendPong(id, value) => Ponged(s, id, value)
    case Dequeue(id, count) => Dequeued(s, id, count)
    case DropReceiver(id) => ReceiverDropped(s, id)
    case OpenChannel(c, capacity) => s.(mesh := ChannelOpened(s.mesh, c, capacity))
    case OfferChannel(c, f) => s.(mesh := ChannelOffered(s.mesh, c, f))
    case TakeChannel(c) => s.(mesh := ChannelTaken(s.mesh, c))
    case CloseChannel(c) => s.(mesh := ChannelClosed(s.mesh, c))
  }
}
