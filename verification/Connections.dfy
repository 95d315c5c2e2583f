/** The loops that drive a relay: a session's reader and writer, and the reader on our side of a mesh connection. */
module Connections {
  import opened Types
  import opened Codec
  import opened Dispatch
  import opened RateLimit
  import opened RelayState
  import opened RelayIndex
  import opened RelayRuns
  import opened RelayPackets
  import opened RelayObject
  import opened RelayWire
  import opened ServeEffects
  import opened MeshNews
  import opened MeshNet
  import opened Writer

  // ---------------------------------------------------------------- a session's reader

  ghost predicate Decoded(frame: Frame) {
    exists kind, payload :: Decode(kind, payload) == Ok(frame)
  }

  /** One turn of a session's reader. A session without mesh rights first waits for its bucket. Then its activity is
      noted and the frame has its effect; only the frames of `Stops` end the connection, and they still count as
      activity. Whatever decoding produced keeps the relay's history one that is fed off the wire. */
  method ServeFrame(relay: Relay, bucket: TokenBucket, id: SessionId, frame: Frame, now: real, overshoot: real)
    returns (goOn: bool, ghost order: seq<NodeKey>, done: real)
    requires relay.Valid() && Live(relay.Value(), id) && overshoot >= 0.0
    modifies relay, bucket
    ensures Enumerates(order, old(relay.peers).Keys)
    ensures relay.Value() == Answered(old(relay.Value()), id, frame, order, done)
    ensures var info, was := old(relay.Value()).sessions[id].info, old(bucket.Value());
      && goOn == !Stops(info.canMesh, frame)
      && bucket.Value() == (if info.canMesh then was else Consumed(was, FrameCost(frame), now, done))
      && done == (var wait := if info.canMesh then 0.0 else Wait(was, FrameCost(frame), now);
                  if wait == 0.0 then now else now + wait + overshoot)
    ensures var a := ActivityNoted(old(relay.Value()), id);
      Refs(a) && id in a.sessions && id in relay.sessions && Effect(a, relay.Value(), id, frame, done)
    ensures relay.Valid() && Live(relay.Value(), id)
    ensures Decoded(frame) && OffTheWire(old(relay.history)) ==> OffTheWire(relay.history)
  {
    hide Sound, IsRun, Live, Effect, Refs, Handle, Stops, Enumerates, ActivityNoted, Answered;
    ghost var s := relay.Value();
    LiveStored(s, id);
    done := now;
    if !relay.sessions[id].info.canMesh {
      done := bucket.Consume(FrameCost(frame), now, overshoot);
    }
    goOn, order := Answer(relay, id, frame, done);
    AnswerEffect(s, id, frame, order, done);
    HangsUpIff(s.sessions[id].info, frame);
  }

  /** The operation that a frame calls for, if any. */
  method Act(relay: Relay, id: SessionId, frame: Frame, now: real) returns (goOn: bool, ghost order: seq<NodeKey>)
    requires relay.Valid() && Live(relay.Value(), id) && id in relay.sessions
    modifies relay
    ensures Enumerates(order, old(relay.peers).Keys)
    ensures goOn == !Handle(old(relay.sessions)[id].info, frame).Hangup?
    ensures var op := OpFor(old(relay.sessions)[id].info, frame, id, order);
      if op.None? then relay.Value() == old(relay.Value()) && relay.history == old(relay.history)
      else
        && Enabled(old(relay.Value()), op.value)
        && relay.Value() == Step(old(relay.Value()), op.value, now)
        && relay.history == Extend(old(relay.history), op.value, now)
    ensures relay.Valid()
  {
    hide Sound, IsRun, Step, Live, Enumerates, Extend;
    ghost var s := relay.Value();
    order := Listed(relay.peers.Keys);
    goOn := true;
    match Handle(relay.sessions[id].info, frame) {
      case DoRoute(p, forwarded) =>
        relay.Route(id, p, forwarded, now);
      case DoWatch =>
        goOn, order := relay.Watch(id, now);
        WatchIsMesh(s, id, frame);
      case DoClose(peer) =>
        var _ := relay.ClosePeer(id, peer, now);
      case DoPong(value) =>
        relay.AnswerPing(id, value, now);
      case DoPrefer(preferred) =>
        relay.NotePreferred(id, preferred, now);
      case Hangup(_) =>
        goOn := false;
      case _ =>
    }
  }

  method Answer(relay: Relay, id: SessionId, frame: Frame, now: real) returns (goOn: bool, ghost order: seq<NodeKey>)
    requires relay.Valid() && Live(relay.Value(), id)
    modifies relay
    ensures Enumerates(order, old(relay.peers).Keys)
    ensures relay.Value() == Answered(old(relay.Value()), id, frame, order, now)
    ensures goOn == !Handle(old(relay.Value()).sessions[id].info, frame).Hangup?
    ensures relay.Valid() && Live(relay.Value(), id)
    ensures Decoded(frame) && OffTheWire(old(relay.history)) ==> OffTheWire(relay.history)
  {
    hide Sound, IsRun, Step, Live, ActivityNoted, Enumerates, OffTheWire, Decoded, Extend, OpFor, Handle, Enabled;
    ghost var s, h := relay.Value(), relay.history;
    LiveStored(s, id);
    AfterActivity(s, id, now);
    LiveEnabled(s, id);
    relay.NoteActivity(id, now);
    ghost var h1 := relay.history;
    goOn, order := Act(relay, id, frame, now);
    AnsweredKeeps(s, id, frame, order, now);
    StaysOffTheWire(h, h1, relay.history, id, frame, order, now);
  }

  /** The steps of one turn keep the history off the wire. */
  lemma StaysOffTheWire(h: Run, h1: Run, h2: Run, id: SessionId, frame: Frame, order: seq<NodeKey>, now: real)
    requires IsRun(h) && Sound(Last(h)) && Live(Last(h), id) && h1 == Extend(h, NoteActivity(id), now)
    requires IsRun(h1) && Sound(Last(h1)) && id in Last(h1).sessions
    requires var op := OpFor(Last(h1).sessions[id].info, frame, id, order);
      if op.None? then h2 == h1 else Enabled(Last(h1), op.value) && h2 == Extend(h1, op.value, now)
    requires IsRun(h2)
    ensures Decoded(frame) && OffTheWire(h) ==> OffTheWire(h2)
  {
    hide Agreement, Next, Step, OffTheWire, Members, IndexRefs, RouteRefs;
    if Decoded(frame) && OffTheWire(h) {
      OffTheWireExtends(h, NoteActivity(id), now);
      var op := OpFor(Last(h1).sessions[id].info, frame, id, order);
      if op.Some? {
        if op.value.Route? {
          RouteArrives(Last(h1), id, frame, order);
        }
        OffTheWireExtends(h1, op.value, now);
      }
    }
  }

  lemma RouteArrives(s: State, id: SessionId, frame: Frame, order: seq<NodeKey>)
    requires id in s.sessions && Decoded(frame)
    requires var op := OpFor(s.sessions[id].info, frame, id, order); op.Some? && op.value.Route?
    ensures Arrived(s, OpFor(s.sessions[id].info, frame, id, order).value)
  {
    hide Decode, Handle;
    var kind, payload :| Decode(kind, payload) == Ok(frame);
    assert Brings(s.sessions[id].info, kind, payload, OpFor(s.sessions[id].info, frame, id, order).value);
  }

  lemma WatchIsMesh(s: State, id: SessionId, frame: Frame)
    requires id in s.sessions && Handle(s.sessions[id].info, frame).DoWatch?
    ensures MayMesh(s, id)
  {
  }

  lemma AnsweredKeeps(s: State, id: SessionId, frame: Frame, order: seq<NodeKey>, now: real)
    requires Sound(s) && Live(s, id) && Enumerates(order, s.index.peers.Keys)
    ensures Sound(Answered(s, id, frame, order, now)) && Live(Answered(s, id, frame, order, now), id)
  {
    hide Sound, Step, Live, ActivityNoted, Enumerates;
    LiveStored(s, id);
    AfterActivity(s, id, now);
    AnswerEnabled(s, id, frame, order, now);
    var t, op := ActivityNoted(s, id), OpFor(s.sessions[id].info, frame, id, order);
    if op.Some? {
      SoundStep(t, op.value, now);
      SoundRefs(t);
      LiveOther(t, op.value, now, id);
    }
  }

  // ---------------------------------------------------------------- a session's writer

  /** The writer has written what was taken out of the session's queue, and keepalives. */
  ghost predicate WritesFor(writer: SessionWriter, relay: Relay, t: SessionId)
    reads relay, writer
  {
    writer.Valid() && t in relay.sessions && writer.taken == relay.sessions[t].box.output
  }

  /** One turn of the writer when frames wait: it takes the first, as many more as its batch has room for, and writes
      them. In a relay fed off the wire a batch never fails. */
  method WriteQueued(relay: Relay, writer: SessionWriter, t: SessionId, ghost now: real) returns (r: Result<(), Error>)
    requires relay.Valid() && OffTheWire(relay.history) && WritesFor(writer, relay, t)
    requires relay.sessions[t].box.queue != []
    modifies relay, writer, writer.batch
    ensures r.Ok? && relay.Valid() && OffTheWire(relay.history) && WritesFor(writer, relay, t)
    ensures var queue := old(relay.sessions)[t].box.queue;
      var count := 1 + Taken(|Wire(queue[0])|, queue[1..], MAX_EXTRA_FRAMES);
      count <= |queue| && relay.Value() == Step(old(relay.Value()), Op.Dequeue(t, count), now)
  {
    hide Sound, IsRun, OffTheWire, Taken, Wire, Encodes, WireAll, Data, Extend, Step;
    ghost var s, h := relay.Value(), relay.history;
    var queue := relay.sessions[t].box.queue;
    RunShape(h);
    SoundRefs(s);
    AllEncode(h, t, queue);
    writer.rx := queue[1..];
    r := writer.WriteBatch(queue[0]);
    var count := |queue| - |writer.rx|;
    assert queue[..count] == [queue[0]] + queue[1..][..count - 1];
    relay.Dequeue(t, count, now);
    DequeueTakes(s, t, count, now);
    OffTheWireExtends(h, Op.Dequeue(t, count), now);
  }

  lemma DequeueTakes(s: State, t: SessionId, count: nat, now: real)
    requires Refs(s) && Enabled(s, Op.Dequeue(t, count))
    ensures var u := Step(s, Op.Dequeue(t, count), now);
      && t in u.sessions
      && u.sessions[t].box.output == s.sessions[t].box.output + s.sessions[t].box.queue[..count]
  {
    hide Refs;
  }

  lemma AllEncode(h: Run, t: SessionId, queue: seq<Frame>)
    requires IsRun(h) && OffTheWire(h) && t in Last(h).sessions && queue == Last(h).sessions[t].box.queue
    ensures forall i :: 0 <= i < |queue| ==> Encodes(queue[i])
  {
    hide Next, OffTheWire, Encodes;
    var b := Last(h).sessions[t].box;
    forall i | 0 <= i < |queue| ensures Encodes(queue[i]) {
      assert (b.output + b.queue)[|b.output| + i] == queue[i];
      QueuesShip(h, |h.ops|, t, |b.output| + i);
    }
  }

  /** What the client at the other end has: it reads everything written, with nothing left over, and the packets in it
      are those routed to the session over the relay's whole history, in that order and each once, up to those still
      queued. */
  lemma ClientHas(relay: Relay, writer: SessionWriter, t: SessionId)
    requires relay.Valid() && OffTheWire(relay.history) && WritesFor(writer, relay, t)
    ensures var h, wire := relay.history, writer.wire;
      && ReadMany(writer.written, MAX_FRAME - HEADER_LEN, |wire|) == Some((NormaliseAll(wire), []))
      && Recvs(NormaliseAll(wire)) <= AsFrames(Deliveries(h, |h.ops|, t))
      && (relay.sessions[t].box.queue == [] ==> Recvs(NormaliseAll(wire)) == AsFrames(Deliveries(h, |h.ops|, t)))
  {
    hide Sound, Next, OffTheWire, Deliveries, AsFrames, Recvs, WireAll, ReadMany, NormaliseAll, Data;
    ClientDecodes(relay.history, |relay.history.ops|, t, writer.wire);
  }

  // ---------------------------------------------------------------- the reader of a mesh connection

  /** One turn of the reader of mesh connection m. */
  method ReadMeshFrame(relay: Relay, m: MeshId, frame: Frame, ghost now: real)
    requires relay.Valid() && m in relay.channels
    modifies relay
    ensures relay.Value() == HeardFromLink(old(relay.Value()), m, frame)
    ensures relay.Valid() && relay.channels.Keys == old(relay.channels).Keys
  {
    hide Sound, IsRun, Step, Extend, HeardFromLink;
    ghost var s := relay.Value();
    SoundRefs(s);
    LinkSteps(s, m, frame, now);
    match frame {
      case PeerPresent(peer, _, _, _) =>
        relay.AddMeshRoute(m, peer, m, now);
      case PeerGone(peer, _) =>
        relay.RemoveMeshRoute(m, peer, now);
      case Ping(value) =>
        relay.OfferChannel(m, Pong(value), now);
      case _ =>
    }
    LinkKeepsChannels(s, m, frame);
  }

  /** Which step of the relay a frame from a mesh link is. */
  lemma LinkSteps(s: State, m: MeshId, frame: Frame, now: real)
    requires Refs(s) && m in s.mesh.channels
    ensures match frame
      case PeerPresent(peer, _, _, _) => HeardFromLink(s, m, frame) == Step(s, AddRoute(m, peer, m), now)
      case PeerGone(peer, _) => HeardFromLink(s, m, frame) == Step(s, RemoveRoute(m, peer), now)
      case Ping(value) => HeardFromLink(s, m, frame) == Step(s, Op.OfferChannel(m, Pong(value)), now)
      case _ => HeardFromLink(s, m, frame) == s
  {
    hide Refs, RouteAdded, RouteRemoved, ChannelOffered;
  }

  lemma LinkKeepsChannels(s: State, m: MeshId, frame: Frame)
    requires m in s.mesh.channels
    ensures HeardFromLink(s, m, frame).mesh.channels.Keys == s.mesh.channels.Keys
  {
  }

  lemma LinkKeepsServer(s: State, m: MeshId, frame: Frame)
    requires Sound(s) && MeshOk(s.mesh) && m in s.mesh.channels
    ensures MeshOk(HeardFromLink(s, m, frame).mesh) && ServerOk(s)
  {
    hide MeshOk, Agreement, Refs, HeardFromLink;
    ReaderFollows(s, m, frame, m);
  }

  /** The mesh reader's loop: the keys routed over this connection are those its news announce, and no other
      connection's routes change. */
  method FollowNews(relay: Relay, m: MeshId, frames: seq<Frame>, ghost now: real)
    requires relay.Valid() && m in relay.channels && MeshOk(relay.Value().mesh)
    modifies relay
    ensures relay.Valid() && MeshOk(relay.Value().mesh)
    ensures forall n :: RoutesOf(relay.Value().mesh, n) ==
                        Follow(RoutesOf(old(relay.Value()).mesh, n), if n == m then frames else [])
  {
    hide Sound, IsRun, MeshOk, HeardFromLink, RoutesOf, ServerOk;
    ghost var was := relay.Value().mesh;
    assert frames[..0] == [];
    for i := 0 to |frames|
      invariant relay.Valid() && m in relay.channels && MeshOk(relay.Value().mesh)
      invariant RoutesOf(relay.Value().mesh, m) == Follow(RoutesOf(was, m), frames[..i])
      invariant forall n :: n != m ==> RoutesOf(relay.Value().mesh, n) == RoutesOf(was, n)
    {
      ghost var s := relay.Value();
      ReadMeshFrame(relay, m, frames[i], now);
      LinkKeepsServer(s, m, frames[i]);
      forall n
        ensures RoutesOf(relay.Value().mesh, n) ==
                if n == m then Hear(RoutesOf(s.mesh, n), frames[i]) else RoutesOf(s.mesh, n)
      {
        ReaderFollows(s, m, frames[i], n);
      }
      assert frames[..i + 1][..i] == frames[..i];
    }
    assert frames[..|frames|] == frames;
  }

  /** A whole mesh connection: when it ends, after whatever it heard, none of its routes is left and no other
      connection's routes have changed. */
  method RunMesh(relay: Relay, m: MeshId, frames: seq<Frame>, ghost now: real)
    requires relay.Valid() && m in relay.channels && MeshOk(relay.Value().mesh)
    modifies relay
    ensures relay.Valid() && MeshOk(relay.Value().mesh)
    ensures forall n :: RoutesOf(relay.Value().mesh, n) == if n == m then {} else RoutesOf(old(relay.Value()).mesh, n)
  {
    hide Sound, IsRun, MeshOk, RoutesOf, MeshRemoved;
    ghost var was := relay.Value().mesh;
    FollowNews(relay, m, frames, now);
    ghost var s := relay.Value();
    relay.RemoveMesh(m, now);
    forall n ensures RoutesOf(relay.Value().mesh, n) == if n == m then {} else RoutesOf(was, n) {
      ClosedRoutes(s.mesh, m, n);
    }
    ClosedRoutes(s.mesh, m, m);
  }
}
