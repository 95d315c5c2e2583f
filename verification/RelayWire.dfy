/** From the relay's queues to the bytes a client reads: everything the relay queues can be encoded, batches
    stay bounded, and the client decodes exactly the packets that were routed to its session. */
module RelayWire {
  import opened Types
  import opened Codec
  import opened Dispatch
  import opened RelayState
  import opened RelayIndex
  import opened RelayRuns
  import opened RelayFrames
  import opened RelayNotices
  import opened RelayPackets
  import opened Writer

  /** The frames that the relay offers to sessions. */
  predicate FromRelay(f: Frame) {
    match f
    case RecvPacket(_, packet) => |packet| <= MAX_PACKET_SIZE
    case PeerPresent(_, _, _, extra) => extra == []
    case Health(text) => |text| <= 38
    case PeerGone(_, _) => true
    case Pong(_) => true
    case Restarting(_, _) => true
    case _ => false
  }

  predicate AllFromRelay(fs: seq<Frame>) {
    forall i :: 0 <= i < |fs| ==> FromRelay(fs[i])
  }

  lemma FromRelayShips(f: Frame)
    requires FromRelay(f) || Control(f)
    ensures Sendable(f) && Travels(f, MAX_FRAME - HEADER_LEN)
    ensures FromRelay(f) ==> !Control(f)
  {
    hide KeyBytes;
  }

  /** Every routing step of the run is the reader's answer to a frame that decoding produced. */
  ghost predicate OffTheWire(r: Run)
    requires IsRun(r)
  {
    forall i :: 0 <= i < |r.ops| && r.ops[i].Route? ==> Arrived(r.states[i], r.ops[i])
  }

  ghost predicate Arrived(s: State, op: Op)
    requires op.Route?
  {
    op.source in s.sessions && exists kind, payload :: Brings(s.sessions[op.source].info, kind, payload, op)
  }

  predicate Brings(info: Info, kind: byte, payload: Bytes, op: Op)
    requires op.Route?
  {
    Decode(kind, payload).Ok? && Handle(info, Decode(kind, payload).value) == DoRoute(op.p, op.forwarded)
  }

  lemma OffTheWireExtends(r: Run, op: Op, now: real)
    requires IsRun(r) && OffTheWire(r) && Refs(Last(r)) && Enabled(Last(r), op)
    requires op.Route? ==> Arrived(Last(r), op)
    ensures IsRun(Extend(r, op, now)) && OffTheWire(Extend(r, op, now))
  {
    hide Refs, Enabled, Step, Arrived, Next;
    ExtendIsRun(r, op, now);
    var x := Extend(r, op, now);
    forall i | 0 <= i < |x.ops| && x.ops[i].Route? ensures Arrived(x.states[i], x.ops[i]) {
      if i < |r.ops| {
        assert r.ops[i] == x.ops[i] && r.states[i] == x.states[i];
      }
    }
  }

  /** Decoding lets no oversized packet in. */
  lemma ArrivedFits(s: State, op: Op)
    requires op.Route? && Arrived(s, op)
    ensures |op.p.bytes| <= MAX_PACKET_SIZE && CameIn(s, op)
  {
    hide Decode, Handle, Kind, Payload, MeetsMinimum;
    var info := s.sessions[op.source].info;
    var kind, payload :| Brings(info, kind, payload, op);
    DecodeNormalises(kind, payload);
    RoutesAreAuthorised(info, Decode(kind, payload).value, op.p, op.forwarded);
  }

  lemma {:induction false} SnapshotFromRelay(s: State, order: seq<NodeKey>)
    requires Refs(s)
    ensures AllFromRelay(Snapshot(s, order))
  {
    hide Refs, PickActive, Flags;
    if order != [] {
      SnapshotFromRelay(s, order[..|order| - 1]);
    }
  }

  lemma EmitsFromRelay(s: State, op: Op, now: real, i: SessionId)
    requires Refs(s) && Enabled(s, op) && i in s.sessions
    requires op.Route? ==> |op.p.bytes| <= MAX_PACKET_SIZE
    ensures AllFromRelay(Emit(s, op, now, i))
  {
    hide Detached, Snapshot, Enumerates, Refs, HeardFrom, Survivors, Joined, Flags, FirstOpen, Live, Departs;
    assert |DUPLICATE_TEXT| == 38;
    match op
    case Watch(_, order) => SnapshotFromRelay(s, order);
    case _ =>
  }

  lemma NewcomerFromRelay(s: State, info: Info, now: real)
    requires Refs(s)
    ensures s.index.nextId in Registered(s, info, now).sessions
    ensures AllFromRelay(FramesOf(Registered(s, info, now).sessions[s.index.nextId].box.offers))
  {
    hide Registered, Joined, Flags;
    var id := s.index.nextId;
    assert |DUPLICATE_TEXT| == 38;
    assert id !in s.sessions by { assert IndexRefs(s.index, s.sessions); }
    RegisterBoxes(s, info, now, id);
    PushAllFrames(Mailbox([], false, [], []), RegisterEmit(s.index, info, id), s.depth);
    assert FramesOf([]) == [];
  }

  lemma {:induction false} OffersFromRelay(r: Run, n: nat, t: SessionId)
    requires IsRun(r) && OffTheWire(r) && n < |r.states| && t in r.states[n].sessions
    ensures AllFromRelay(FramesOf(r.states[n].sessions[t].box.offers))
  {
    hide Step, Enabled, Refs, Emit, FramesOf, FromRelay, Arrived;
    var s, op, now := r.states[n - 1], r.ops[n - 1], r.times[n - 1];
    assert Next(s, op, now, r.states[n]);
    if t in s.sessions {
      OffersFromRelay(r, n - 1, t);
      OffersGrow(s, op, now, t);
      if op.Route? {
        ArrivedFits(s, op);
      }
      EmitsFromRelay(s, op, now, t);
    } else {
      HandlesStep(s, op, now);
      StepRegisters(s, op, now);
      NewcomerFromRelay(s, op.info, now);
    }
  }

  lemma {:induction false} AcceptedFromRelay(offers: seq<Offer>)
    requires AllFromRelay(FramesOf(offers))
    ensures AllFromRelay(Accepted(offers))
  {
    hide FromRelay;
    if offers != [] {
      var front := offers[..|offers| - 1];
      assert forall i :: 0 <= i < |front| ==> FramesOf(front)[i] == FramesOf(offers)[i];
      AcceptedFromRelay(front);
      assert FramesOf(offers)[|offers| - 1] == offers[|offers| - 1].frame;
    }
  }

  /** In every run fed by decoded frames, everything a session's writer was handed or still finds in the queue
      can be encoded and is no longer than a full RecvPacket: `write_batch` cannot fail on it, and `BatchBound`
      applies to every batch. */
  lemma QueuesShip(r: Run, n: nat, t: SessionId, i: nat)
    requires IsRun(r) && OffTheWire(r) && n < |r.states| && t in r.states[n].sessions
    requires var b := r.states[n].sessions[t].box; i < |b.output + b.queue|
    ensures var b := r.states[n].sessions[t].box;
      && FromRelay((b.output + b.queue)[i])
      && Encodes((b.output + b.queue)[i]) && Sendable((b.output + b.queue)[i])
  {
    hide FromRelay, Sendable, Travels, Encodes, FramesOf, Accepted, IsRun, OffTheWire;
    var b := r.states[n].sessions[t].box;
    QueuesAreFifo(r, n);
    assert Fifo(b, r.states[n].depth);
    OffersFromRelay(r, n, t);
    AcceptedFromRelay(b.offers);
    FromRelayShips((b.output + b.queue)[i]);
    SendableLength((b.output + b.queue)[i]);
  }

  // ---------------------------------------------------------------- what the client decodes

  lemma {:induction false} DataOrControl(wire: seq<Frame>, i: nat)
    requires AllFromRelay(Data(wire)) && i < |wire|
    ensures FromRelay(wire[i]) || Control(wire[i])
  {
    hide FromRelay, Control;
    var front, last := wire[..|wire| - 1], wire[|wire| - 1];
    assert forall j :: 0 <= j < |Data(front)| ==> Data(wire)[j] == Data(front)[j];
    if i < |wire| - 1 {
      DataOrControl(front, i);
    } else if !Control(last) {
      assert Data(wire)[|Data(front)|] == last;
    }
  }

  lemma DataStep(fs: seq<Frame>, f: Frame)
    ensures Data(fs + [f]) == Data(fs) + if Control(f) then [] else [f]
  {
    hide Control;
    assert (fs + [f])[..|fs + [f]| - 1] == fs;
  }

  lemma RecvsLast(fs: seq<Frame>, f: Frame)
    ensures Recvs(fs + [f]) == Recvs(fs) + if f.RecvPacket? then [f] else []
  {
    assert (fs + [f])[..|fs + [f]| - 1] == fs;
  }

  /** Keepalives and normal forms leave the packets of a stream alone. */
  lemma {:induction false} RecvsSurvive(wire: seq<Frame>)
    ensures Recvs(NormaliseAll(wire)) == Recvs(Data(wire))
  {
    if wire != [] {
      var front, last := wire[..|wire| - 1], wire[|wire| - 1];
      RecvsSurvive(front);
      assert wire == front + [last];
      assert NormaliseAll(wire) == NormaliseAll(front) + [Normalise(last)];
      assert last.RecvPacket? ==> Normalise(last) == last && !Control(last);
      assert Normalise(last).RecvPacket? ==> last.RecvPacket?;
      hide Recvs, Data, NormaliseAll, Normalise, Control;
      RecvsLast(NormaliseAll(front), Normalise(last));
      DataStep(front, last);
      if !Control(last) {
        RecvsLast(Data(front), last);
      } else {
        assert Data(wire) == Data(front);
      }
    }
  }

  lemma {:induction false} RecvsPrefix(fs: seq<Frame>, gs: seq<Frame>)
    ensures Recvs(fs) <= Recvs(fs + gs)
    decreases |gs|
  {
    if gs == [] {
      assert fs + gs == fs;
    } else {
      assert (fs + gs)[..|fs + gs| - 1] == fs + gs[..|gs| - 1];
      RecvsPrefix(fs, gs[..|gs| - 1]);
    }
  }

  /** A stream that is the session's dequeued frames with keepalives in between: the client reads it frame by frame
      with nothing left over, and the packets in it are those routed to the session, in that order and each once, up
      to those still queued. */
  lemma ClientDecodes(r: Run, n: nat, t: SessionId, wire: seq<Frame>)
    requires IsRun(r) && OffTheWire(r) && n < |r.states| && t in r.states[n].sessions
    requires Data(wire) == Data(r.states[n].sessions[t].box.output)
    ensures ReadMany(WireAll(wire), MAX_FRAME - HEADER_LEN, |wire|) == Some((NormaliseAll(wire), []))
    ensures Recvs(NormaliseAll(wire)) <= AsFrames(Deliveries(r, n, t))
    ensures r.states[n].sessions[t].box.queue == [] ==> Recvs(NormaliseAll(wire)) == AsFrames(Deliveries(r, n, t))
  {
    hide FromRelay, Travels, IsRun, OffTheWire, Deliveries, AsFrames, Recvs, WireAll, ReadMany, NormaliseAll,
      Sendable, Encodes, Data, Control;
    var b := r.states[n].sessions[t].box;
    forall i | 0 <= i < |b.output| ensures FromRelay(b.output[i]) && !Control(b.output[i]) {
      QueuesShip(r, n, t, i);
      assert (b.output + b.queue)[i] == b.output[i];
      FromRelayShips(b.output[i]);
    }
    NoControl(b.output);
    forall i | 0 <= i < |wire| ensures Travels(wire[i], MAX_FRAME - HEADER_LEN) {
      DataOrControl(wire, i);
      FromRelayShips(wire[i]);
    }
    ClientReadsWire(wire, MAX_FRAME - HEADER_LEN);
    RecvsSurvive(wire);
    RecvsPrefix(b.output, b.queue);
    DeliveredInOrder(r, n, t);
    assert b.queue == [] ==> b.output + b.queue == b.output;
  }

  // ---------------------------------------------------------------- the writer along a run

  /** The frames that the writer of session t takes out at a step. */
  function BatchAt(s: State, op: Op, t: SessionId): seq<Frame> {
    if op.Dequeue? && op.id == t && t in s.sessions && op.count <= |s.sessions[t].box.queue|
    then s.sessions[t].box.queue[..op.count] else []
  }

  /** Every time the writer of session t takes frames out it takes what `write_batch` takes: the frame it waited for
      and no more of the queue than the batch has room for. It may be less where frames came in meanwhile. */
  predicate Batches(r: Run, t: SessionId)
    requires IsRun(r)
  {
    forall i :: 0 <= i < |r.ops| && BatchAt(r.states[i], r.ops[i], t) != [] ==> IsBatch(r.states[i], r.ops[i], t)
  }

  predicate IsBatch(s: State, op: Op, t: SessionId) {
    && op.Dequeue? && t in s.sessions
    && var queue := s.sessions[t].box.queue;
       queue != [] && op.count <= 1 + Taken(|Wire(queue[0])|, queue[1..], MAX_EXTRA_FRAMES)
  }

  /** The keepalives that the writer sends of its own accord, after each step of the run. */
  predicate Keepalives(r: Run, keep: seq<seq<Frame>>) {
    |keep| == |r.ops| && forall i :: 0 <= i < |keep| ==> AllControl(keep[i])
  }

  predicate AllControl(fs: seq<Frame>) {
    forall i :: 0 <= i < |fs| ==> Control(fs[i])
  }

  /** The frames written for session t before state n, in order. */
  function FramesAlong(r: Run, keep: seq<seq<Frame>>, n: nat, t: SessionId): seq<Frame>
    requires IsRun(r) && Keepalives(r, keep) && n < |r.states|
  {
    if n == 0 then []
    else FramesAlong(r, keep, n - 1, t) + BatchAt(r.states[n - 1], r.ops[n - 1], t) + keep[n - 1]
  }

  /** The bytes written for session t before state n, batch by batch. */
  function BytesAlong(r: Run, keep: seq<seq<Frame>>, n: nat, t: SessionId): Bytes
    requires IsRun(r) && Keepalives(r, keep) && n < |r.states|
  {
    if n == 0 then []
    else BytesAlong(r, keep, n - 1, t) + WireAll(BatchAt(r.states[n - 1], r.ops[n - 1], t)) + WireAll(keep[n - 1])
  }

  lemma {:induction false} BytesAreFrames(r: Run, keep: seq<seq<Frame>>, n: nat, t: SessionId)
    requires IsRun(r) && Keepalives(r, keep) && n < |r.states|
    ensures BytesAlong(r, keep, n, t) == WireAll(FramesAlong(r, keep, n, t))
  {
    hide WireAll, BatchAt, Next, AllControl;
    if n == 0 {
      WireAllNone();
    } else {
      BytesAreFrames(r, keep, n - 1, t);
      var before, batch := FramesAlong(r, keep, n - 1, t), BatchAt(r.states[n - 1], r.ops[n - 1], t);
      WireAllCat(before, batch);
      WireAllCat(before + batch, keep[n - 1]);
    }
  }

  lemma {:induction false} OnlyControl(fs: seq<Frame>)
    requires AllControl(fs)
    ensures Data(fs) == []
  {
    if fs != [] {
      OnlyControl(fs[..|fs| - 1]);
    }
  }

  lemma OutputStep(s: State, op: Op, now: real, t: SessionId)
    requires Refs(s) && Enabled(s, op) && t in s.sessions
    ensures t in Step(s, op, now).sessions
    ensures Step(s, op, now).sessions[t].box.output == s.sessions[t].box.output + BatchAt(s, op, t)
  {
    hide Emit, Refs, Registered, ActivityNoted, Unregistered, Routed, Watched, PeerClosed, RestartAnnounced, Live,
      PushAll;
    BoxStep(s, op, now, t);
    if !Outside(op) {
      PushAllFrames(s.sessions[t].box, Emit(s, op, now, t), s.depth);
    }
  }

  lemma NewOutput(s: State, info: Info, now: real)
    requires Refs(s)
    ensures s.index.nextId in Registered(s, info, now).sessions
    ensures Registered(s, info, now).sessions[s.index.nextId].box.output == []
  {
    hide Registered, RegisterEmit;
    var id := s.index.nextId;
    assert id !in s.sessions by { assert IndexRefs(s.index, s.sessions); }
    RegisterBoxes(s, info, now, id);
    PushAllFrames(Mailbox([], false, [], []), RegisterEmit(s.index, info, id), s.depth);
  }

  /** What is written for a session is its dequeued frames with keepalives in between. */
  lemma {:induction false} FramesAreOutput(r: Run, keep: seq<seq<Frame>>, n: nat, t: SessionId)
    requires IsRun(r) && Keepalives(r, keep) && n < |r.states|
    ensures Data(FramesAlong(r, keep, n, t)) ==
            Data(if t in r.states[n].sessions then r.states[n].sessions[t].box.output else [])
  {
    hide Data, BatchAt, Step, Enabled, Refs, AllControl;
    if n > 0 {
      var s, op, now := r.states[n - 1], r.ops[n - 1], r.times[n - 1];
      assert Next(s, op, now, r.states[n]);
      FramesAreOutput(r, keep, n - 1, t);
      var before, batch := FramesAlong(r, keep, n - 1, t), BatchAt(s, op, t);
      DataCat(before, batch);
      DataCat(before + batch, keep[n - 1]);
      OnlyControl(keep[n - 1]);
      HandlesStep(s, op, now);
      if t in s.sessions {
        OutputStep(s, op, now, t);
        DataCat(s.sessions[t].box.output, batch);
      } else {
        NoBatch(s, op, t);
        if t in r.states[n].sessions {
          StepRegisters(s, op, now);
          NewOutput(s, op.info, now);
        }
      }
    }
  }

  lemma NoBatch(s: State, op: Op, t: SessionId)
    requires t !in s.sessions
    ensures BatchAt(s, op, t) == [] && Data([]) == []
  {
  }

  /** End to end: over any run fed by decoded frames, whose writer for session t takes batches and sends keepalives
      when it likes, the client reads the bytes written frame by frame with nothing left over, and the packets in them
      are those routed to the session, in that order and each once, up to those still queued. */
  lemma ClientReceives(r: Run, keep: seq<seq<Frame>>, n: nat, t: SessionId)
    requires IsRun(r) && OffTheWire(r) && Keepalives(r, keep) && n < |r.states| && t in r.states[n].sessions
    ensures var wire := FramesAlong(r, keep, n, t);
      && ReadMany(BytesAlong(r, keep, n, t), MAX_FRAME - HEADER_LEN, |wire|) == Some((NormaliseAll(wire), []))
      && Recvs(NormaliseAll(wire)) <= AsFrames(Deliveries(r, n, t))
      && (r.states[n].sessions[t].box.queue == [] ==> Recvs(NormaliseAll(wire)) == AsFrames(Deliveries(r, n, t)))
  {
    hide IsRun, OffTheWire, Keepalives, Deliveries, AsFrames, Recvs, WireAll, ReadMany, NormaliseAll, Data,
      FramesAlong, BytesAlong;
    BytesAreFrames(r, keep, n, t);
    FramesAreOutput(r, keep, n, t);
    ClientDecodes(r, n, t, FramesAlong(r, keep, n, t));
  }

  /** Every batch of such a run encodes, holds at most 64 frames and stays within 65535 bytes plus one maximal
      frame. */
  lemma BatchesAreBounded(r: Run, i: nat, t: SessionId)
    requires IsRun(r) && OffTheWire(r) && Batches(r, t) && i < |r.ops|
    ensures var batch := BatchAt(r.states[i], r.ops[i], t);
      && (forall j :: 0 <= j < |batch| ==> Encodes(batch[j]))
      && |batch| <= 64 && |WireAll(batch)| <= 65535 + (5 + 32 + 65536)
  {
    hide Next, OffTheWire, Taken, Wire, WireAll, Encodes, Sendable;
    var s, op := r.states[i], r.ops[i];
    var batch := BatchAt(s, op, t);
    if batch == [] {
      WireAllNone();
    } else {
      assert IsBatch(s, op, t);
      var queue := s.sessions[t].box.queue;
      forall j | 0 <= j < |queue| ensures Encodes(queue[j]) && Sendable(queue[j]) {
        var b := s.sessions[t].box;
        assert (b.output + b.queue)[|b.output| + j] == queue[j];
        QueuesShip(r, i, t, |b.output| + j);
      }
      PartOfBatch(queue, op.count);
    }
  }

  lemma PartOfBatch(queue: seq<Frame>, count: nat)
    requires queue != [] && forall j :: 0 <= j < |queue| ==> Sendable(queue[j])
    requires count <= 1 + Taken(|Wire(queue[0])|, queue[1..], MAX_EXTRA_FRAMES) && count <= |queue|
    ensures count <= 64 && |WireAll(queue[..count])| <= MAX_BATCH_BYTES - 1 + MAX_FRAME
  {
    hide Taken, Wire, WireAll, Sendable;
    BatchBound(queue[0], queue[1..]);
    var n := Taken(|Wire(queue[0])|, queue[1..], MAX_EXTRA_FRAMES);
    var whole := [queue[0]] + queue[1..][..n];
    assert whole == queue[..count] + whole[count..];
    WireAllCat(queue[..count], whole[count..]);
  }
}
