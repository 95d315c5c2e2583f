/** What a session's reader does with each frame, frame by frame. */
module ServeEffects {
  import opened Types
  import opened Dispatch
  import opened RelayState
  import opened RelayIndex
  import opened RelayRuns
  import opened RelayFrames
  import opened RelayForward
  import opened MeshNet

  /** The frames that end a connection: mesh frames from a session without mesh rights, and frames that only a server
      sends. */
  predicate Stops(canMesh: bool, frame: Frame) {
    || (!canMesh && (frame.ForwardPacket? || frame.WatchConns? || frame.ClosePeer?))
    || frame.ServerKey? || frame.ClientInfo? || frame.ServerInfo? || frame.RecvPacket?
    || frame.PeerGone? || frame.PeerPresent? || frame.Health? || frame.Restarting?
  }

  lemma HangsUpIff(info: Info, frame: Frame)
    ensures Handle(info, frame).Hangup? <==> Stops(info.canMesh, frame)
  {
  }

  /** Nothing but session id differs between the stores. */
  predicate OnlyAt(a: Sessions, b: Sessions, id: SessionId) {
    a.Keys == b.Keys && forall j :: j in a && j != id ==> b[j] == a[j]
  }

  /** What a frame from session id does, from state a, where its activity is noted already, to state t. */
  predicate Effect(a: State, t: State, id: SessionId, frame: Frame, now: real)
    requires Refs(a) && id in a.sessions && id in t.sessions
  {
    var x, y := a.sessions[id], t.sessions[id];
    match frame
    case SendPacket(dst, bytes) => t == Routed(a, id, Packet(x.info.key, dst, bytes), false, now)
    case ForwardPacket(src, dst, bytes) =>
      t == if x.info.canMesh then Routed(a, id, Packet(src, dst, bytes), true, now) else a
    case Ping(v) =>
      && t == a.(sessions := t.sessions) && OnlyAt(a.sessions, t.sessions, id)
      && y == x.(box := if !x.box.receiverGone && |x.box.queue| < a.depth
                        then x.box.(queue := x.box.queue + [Pong(v)], offers := x.box.offers + [Offer(Pong(v), true)])
                        else x.box.(offers := x.box.offers + [Offer(Pong(v), false)]))
    case NotePreferred(preferred) =>
      && t == a.(sessions := t.sessions, stats := t.stats) && OnlyAt(a.sessions, t.sessions, id)
      && y == x.(preferred := preferred, preferredSeen := true)
      && t.stats == a.stats.(
           preferredClients := a.stats.preferredClients
             + (if preferred && !x.preferred then 1 else 0) - (if !preferred && x.preferred then 1 else 0),
           homeMovesIn := a.stats.homeMovesIn + (if preferred && !x.preferred && x.preferredSeen then 1 else 0),
           homeMovesOut := a.stats.homeMovesOut + (if !preferred && x.preferred && x.preferredSeen then 1 else 0))
    case WatchConns =>
      if !x.info.canMesh then t == a
      else
        && t == a.(index := a.index.(watchers := a.index.watchers + {id}), sessions := t.sessions)
        && OnlyAt(a.sessions, t.sessions, id) && y == x.(box := y.box)
    case ClosePeer(peer) =>
      if !x.info.canMesh then t == a
      else
        && t == a.(sessions := t.sessions) && t.sessions.Keys == a.sessions.Keys
        && forall j :: j in a.sessions ==>
             t.sessions[j] == a.sessions[j].(
               closed := a.sessions[j].closed || (a.sessions[j].info.key == peer && Live(a, j)))
    case _ => t == a
  }

  lemma PongEffect(a: State, id: SessionId, v: U64, now: real)
    requires Refs(a) && id in a.sessions && Live(a, id)
    ensures var t := Step(a, SendPong(id, v), now); id in t.sessions && Effect(a, t, id, Ping(v), now)
  {
    hide Refs, PushAll, Members;
    OfferedOne(a.sessions[id].box, Pong(v), a.depth);
  }

  lemma PreferEffect(a: State, id: SessionId, preferred: bool, now: real)
    requires Refs(a) && id in a.sessions && Live(a, id)
    ensures var t := Step(a, Prefer(id, preferred), now);
      id in t.sessions && Effect(a, t, id, NotePreferred(preferred), now)
  {
    hide Refs, Members;
  }

  lemma WatchEffect(a: State, id: SessionId, order: seq<NodeKey>, now: real)
    requires Refs(a) && id in a.sessions && Live(a, id) && Enumerates(order, a.index.peers.Keys) &&
            a.sessions[id].info.canMesh
    ensures var t := Step(a, Watch(id, order), now); id in t.sessions && Effect(a, t, id, WatchConns, now)
  {
    hide Refs, Members, Snapshot, PushAll, Enumerates;
  }

  lemma CloseEffect(a: State, id: SessionId, peer: NodeKey, now: real)
    requires Refs(a) && id in a.sessions && Live(a, id) && a.sessions[id].info.canMesh
    ensures var t := Step(a, Close(id, peer), now); id in t.sessions && Effect(a, t, id, ClosePeer(peer), now)
  {
    hide ActiveRefs, RouteRefs;
    assert GroupRefs(a.index.peers, a.sessions);
  }

  /** The reader's turn, frame by frame. */
  lemma AnswerEffect(s: State, id: SessionId, frame: Frame, order: seq<NodeKey>, now: real)
    requires Sound(s) && Live(s, id) && Enumerates(order, s.index.peers.Keys)
    ensures var a, t := ActivityNoted(s, id), Answered(s, id, frame, order, now);
      Refs(a) && id in a.sessions && id in t.sessions && Effect(a, t, id, frame, now)
  {
    hide ActivityNoted, Effect, Step, Refs, Sound, Enumerates, Live, Enabled;
    AfterActivity(s, id, now);
    AnswerEnabled(s, id, frame, order, now);
    LiveStored(s, id);
    var a := ActivityNoted(s, id);
    LiveStored(a, id);
    match frame
    case Ping(v) => PongEffect(a, id, v, now);
    case NotePreferred(b) => PreferEffect(a, id, b, now);
    case WatchConns =>
      if a.sessions[id].info.canMesh {
        WatchEffect(a, id, order, now);
      } else {
        NoEffect(a, id, frame, now);
      }
    case ClosePeer(peer) =>
      if a.sessions[id].info.canMesh {
        CloseEffect(a, id, peer, now);
      } else {
        NoEffect(a, id, frame, now);
      }
    case SendPacket(dst, bytes) => RouteEffect(a, id, Packet(a.sessions[id].info.key, dst, bytes), false, frame, now);
    case ForwardPacket(src, dst, bytes) =>
      if a.sessions[id].info.canMesh {
        RouteEffect(a, id, Packet(src, dst, bytes), true, frame, now);
      } else {
        NoEffect(a, id, frame, now);
      }
    case _ => NoEffect(a, id, frame, now);
  }

  lemma NoEffect(a: State, id: SessionId, frame: Frame, now: real)
    requires Refs(a) && id in a.sessions && !frame.SendPacket? && !frame.Ping? && !frame.NotePreferred?
    requires frame.ForwardPacket? || frame.WatchConns? || frame.ClosePeer? ==> !a.sessions[id].info.canMesh
    ensures Effect(a, a, id, frame, now)
  {
    hide Refs;
  }

  lemma RouteEffect(a: State, id: SessionId, p: Packet, forwarded: bool, frame: Frame, now: real)
    requires Refs(a) && id in a.sessions && Live(a, id)
    requires if forwarded then a.sessions[id].info.canMesh && frame == ForwardPacket(p.src, p.dst, p.bytes)
             else p.src == a.sessions[id].info.key && frame == SendPacket(p.dst, p.bytes)
    ensures var t := Step(a, Route(id, p, forwarded), now); id in t.sessions && Effect(a, t, id, frame, now)
  {
    hide Routed, IndexRefs, RouteRefs, Members;
    HandlesStep(a, Route(id, p, forwarded), now);
  }
}
