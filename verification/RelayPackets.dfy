/** Packets over whole runs: where they come from, in what order they arrive, and how they are counted. */
module RelayPackets {
  import opened Types
  import opened Dispatch
  import opened RelayState
  import opened RelayIndex
  import opened RelayRuns
  import opened RelayFrames
  import opened RelayNotices

  // ---------------------------------------------------------------- deliveries

  function Recvs(fs: seq<Frame>): seq<Frame> {
    if fs == [] then []
    else Recvs(fs[..|fs| - 1]) + if fs[|fs| - 1].RecvPacket? then [fs[|fs| - 1]] else []
  }

  predicate NoRecv(fs: seq<Frame>) {
    forall i :: 0 <= i < |fs| ==> !fs[i].RecvPacket?
  }

  lemma {:induction false} RecvsPushed(b: Mailbox, fs: seq<Frame>, depth: nat)
    requires NoRecv(fs)
    ensures Recvs(Accepted(PushAll(b, fs, depth).offers)) == Recvs(Accepted(b.offers))
  {
    if fs != [] {
      RecvsPushed(b, fs[..|fs| - 1], depth);
      RecvsPush(PushAll(b, fs[..|fs| - 1], depth), fs[|fs| - 1], depth);
    }
  }

  lemma RecvsPush(b: Mailbox, f: Frame, depth: nat)
    ensures Recvs(Accepted(Push(b, f, depth).offers)) ==
            Recvs(Accepted(b.offers)) + if f.RecvPacket? && CanTake(b, depth) then [f] else []
  {
    var c := Push(b, f, depth);
    assert c.offers[..|c.offers| - 1] == b.offers;
    if CanTake(b, depth) {
      assert (Accepted(b.offers) + [f])[..|Accepted(b.offers) + [f]| - 1] == Accepted(b.offers);
    } else {
      assert Accepted(c.offers) == Accepted(b.offers);
    }
  }

  lemma EmitsNoRecv(s: State, op: Op, now: real, i: SessionId)
    requires Refs(s) && Enabled(s, op) && i in s.sessions && !op.Route?
    ensures NoRecv(Emit(s, op, now, i))
  {
    hide Detached, Snapshot, Enumerates, Refs, HeardFrom, Survivors, RegisterEmit;
    match op
    case Register(info) =>
      RegisterEmits(s.index, info, i);
      assert forall j :: 0 <= j < |Emit(s, op, now, i)| ==> Emit(s, op, now, i)[j] in RegisterEmit(s.index, info, i);
    case Watch(_, order) =>
      SnapshotFrames(s, order);
      assert forall j :: 0 <= j < |Snapshot(s, order)| ==> Snapshot(s, order)[j] in Snapshot(s, order);
    case _ =>
  }

  /** The packets of the run that are handed to session t before state n, in the order they were routed. */
  function Deliveries(r: Run, n: nat, t: SessionId): seq<Packet>
    requires IsRun(r) && n < |r.states|
  {
    if n == 0 then []
    else
      assert Next(r.states[n - 1], r.ops[n - 1], r.times[n - 1], r.states[n]);
      Deliveries(r, n - 1, t) + DeliveredBy(r.states[n - 1], r.ops[n - 1], t)
  }

  function DeliveredBy(s: State, op: Op, t: SessionId): seq<Packet>
    requires Refs(s)
  {
    if op.Route? && OutcomeOf(s, op.p.dst, op.forwarded) == Delivered(t) then [op.p] else []
  }

  function AsFrames(ps: seq<Packet>): seq<Frame> {
    if ps == [] then []
    else AsFrames(ps[..|ps| - 1]) + [RecvPacket(ps[|ps| - 1].src, ps[|ps| - 1].bytes)]
  }

  lemma AsFramesStep(ps: seq<Packet>, qs: seq<Packet>)
    requires |qs| <= 1
    ensures AsFrames(ps + qs) == AsFrames(ps) + AsFrames(qs)
  {
    if qs == [] {
      assert ps + qs == ps;
    } else {
      assert (ps + qs)[..|ps + qs| - 1] == ps;
      assert qs[..0] == [];
    }
  }

  lemma RecvsStep(s: State, op: Op, now: real, t: SessionId)
    requires Refs(s) && Enabled(s, op) && t in s.sessions
    ensures t in Step(s, op, now).sessions
    ensures Recvs(Accepted(Step(s, op, now).sessions[t].box.offers)) ==
            Recvs(Accepted(s.sessions[t].box.offers)) + AsFrames(DeliveredBy(s, op, t))
  {
    hide Recvs, Accepted, Enumerates, Snapshot, GroupRefs, RouteRefs, RegisteredSessions, Unregistered,
      RoutedSessions, RoutedPaths, RoutedMesh, RoutedStats, RouteAdded, RouteRemoved, MeshRemoved, Registered,
      UnregisterEmit, RegisterEmit, FirstOpen;
    BoxStep(s, op, now, t);
    if op.Route? {
      var fs := Emit(s, op, now, t);
      if fs == [] {
      } else {
        assert fs == [fs[0]] && fs[..0] == [];
        RecvsPush(s.sessions[t].box, fs[0], s.depth);
      }
      assert DeliveredBy(s, op, t)[..0] == [];
    } else {
      EmitsNoRecv(s, op, now, t);
      RecvsPushed(s.sessions[t].box, Emit(s, op, now, t), s.depth);
    }
  }

  lemma {:induction false} NothingBeforeRegistration(r: Run, n: nat, t: SessionId)
    requires IsRun(r) && n < |r.states| && t !in r.states[n].sessions
    ensures Deliveries(r, n, t) == []
  {
    hide Step, Enabled, GroupRefs, RouteRefs, FirstOpen;
    if n > 0 {
      assert Next(r.states[n - 1], r.ops[n - 1], r.times[n - 1], r.states[n]);
      HandlesStep(r.states[n - 1], r.ops[n - 1], r.times[n - 1]);
      NothingBeforeRegistration(r, n - 1, t);
    }
  }

  lemma NewSessionHasNone(s: State, op: Op, now: real)
    requires Refs(s) && op.Register? && s.index.nextId in Step(s, op, now).sessions
    ensures Recvs(Accepted(Step(s, op, now).sessions[s.index.nextId].box.offers)) == []
  {
    hide Registered, RegisterEmit, ActiveRefs, GroupRefs, RouteRefs;
    var fs := RegisterEmit(s.index, op.info, s.index.nextId);
    RegisterBoxes(s, op.info, now, s.index.nextId);
    RegisterEmits(s.index, op.info, s.index.nextId);
    assert forall j :: 0 <= j < |fs| ==> fs[j] in fs;
    RecvsPushed(Mailbox([], false, [], []), fs, s.depth);
  }

  /** The packets a session takes in are exactly those of the run that are routed to it, in that order. */
  lemma {:induction false} TakenInOrder(r: Run, n: nat, t: SessionId)
    requires IsRun(r) && n < |r.states| && t in r.states[n].sessions
    ensures Recvs(Accepted(r.states[n].sessions[t].box.offers)) == AsFrames(Deliveries(r, n, t))
  {
    hide Step, Enabled, Refs, Recvs, Accepted, DeliveredBy, AsFrames;
    var s, op, now := r.states[n - 1], r.ops[n - 1], r.times[n - 1];
    assert Next(s, op, now, r.states[n]);
    AtMostOne(s, op, t);
    AsFramesStep(Deliveries(r, n - 1, t), DeliveredBy(s, op, t));
    if t in s.sessions {
      TakenInOrder(r, n - 1, t);
      RecvsStep(s, op, now, t);
    } else {
      HandlesStep(s, op, now);
      NewSessionHasNone(s, op, now);
      NothingBeforeRegistration(r, n - 1, t);
      RegisterDeliversNothing(s, op, t);
    }
  }

  lemma AtMostOne(s: State, op: Op, t: SessionId)
    requires Refs(s)
    ensures |DeliveredBy(s, op, t)| <= 1
  {
  }

  lemma RegisterDeliversNothing(s: State, op: Op, t: SessionId)
    requires Refs(s) && op.Register?
    ensures DeliveredBy(s, op, t) == [] && AsFrames([]) == []
  {
  }

  /** What the client of a session has been and will be sent: exactly the packets routed to its session, each
      once, in the order they were routed. */
  lemma DeliveredInOrder(r: Run, n: nat, t: SessionId)
    requires IsRun(r) && n < |r.states| && t in r.states[n].sessions
    ensures var b := r.states[n].sessions[t].box;
      Recvs(b.output + b.queue) == AsFrames(Deliveries(r, n, t))
  {
    hide Recvs, AsFrames, Deliveries, Accepted;
    QueuesAreFifo(r, n);
    TakenInOrder(r, n, t);
    assert Fifo(r.states[n].sessions[t].box, r.states[n].depth);
  }

  // ---------------------------------------------------------------- sources

  /** Every routing step of the run is the reader's answer to a frame of the session it runs for. */
  ghost predicate Authorised(r: Run)
    requires IsRun(r)
  {
    forall i :: 0 <= i < |r.ops| && r.ops[i].Route? ==> CameIn(r.states[i], r.ops[i])
  }

  ghost predicate CameIn(s: State, op: Op)
    requires op.Route?
  {
    op.source in s.sessions && exists frame :: Handle(s.sessions[op.source].info, frame) == DoRoute(op.p, op.forwarded)
  }

  /** This step hands p to session t, and may: the session it came from holds the source's key or is a mesh peer. */
  predicate GenuineAt(s: State, op: Op, t: SessionId, p: Packet) {
    && Refs(s) && op.Route? && op.p == p && op.source in s.sessions && t in s.sessions
    && OutcomeOf(s, p.dst, op.forwarded) == Delivered(t)
    && p.dst == s.sessions[t].info.key
    && if op.forwarded then s.sessions[op.source].info.canMesh else p.src == s.sessions[op.source].info.key
  }

  lemma DeliveryIsGenuine(s: State, op: Op, t: SessionId)
    requires Refs(s) && DeliveredBy(s, op, t) != [] && CameIn(s, op)
    ensures DeliveredBy(s, op, t) == [op.p] && GenuineAt(s, op, t, op.p)
  {
    hide Handle, GroupRefs, RouteRefs, FirstOpen, CanTake;
    var frame :| Handle(s.sessions[op.source].info, frame) == DoRoute(op.p, op.forwarded);
    RoutesAreAuthorised(s.sessions[op.source].info, frame, op.p, op.forwarded);
  }

  lemma {:induction false} DeliveriesAreGenuine(r: Run, n: nat, t: SessionId, j: nat)
    requires IsRun(r) && Authorised(r) && n < |r.states| && j < |Deliveries(r, n, t)|
    ensures exists i ::
      0 <= i < n && |Deliveries(r, i, t)| == j && GenuineAt(r.states[i], r.ops[i], t, Deliveries(r, n, t)[j])
  {
    hide Step, Enabled, Refs, DeliveredBy, GenuineAt, CameIn;
    var s, op := r.states[n - 1], r.ops[n - 1];
    assert Next(s, op, r.times[n - 1], r.states[n]);
    var before := Deliveries(r, n - 1, t);
    assert Deliveries(r, n, t) == before + DeliveredBy(s, op, t);
    if j < |before| {
      DeliveriesAreGenuine(r, n - 1, t, j);
      assert Deliveries(r, n, t)[j] == before[j];
    } else {
      RouteDelivers(s, op, t);
      DeliveryIsGenuine(s, op, t);
      assert GenuineAt(r.states[n - 1], r.ops[n - 1], t, Deliveries(r, n, t)[j]);
    }
  }

  lemma RouteDelivers(s: State, op: Op, t: SessionId)
    requires Refs(s) && DeliveredBy(s, op, t) != []
    ensures op.Route?
  {
  }

  lemma {:induction false} AsFramesAt(ps: seq<Packet>, j: nat)
    requires j < |ps|
    ensures |AsFrames(ps)| == |ps| && AsFrames(ps)[j] == RecvPacket(ps[j].src, ps[j].bytes)
  {
    if j < |ps| - 1 {
      AsFramesAt(ps[..|ps| - 1], j);
    } else if j > 0 {
      AsFramesAt(ps[..|ps| - 1], j - 1);
    }
  }

  /** Source integrity: the j-th RecvPacket sent or queued to a session of k is the j-th packet handed to that
      session, by the step that did so, for a session whose own key is the stated source or for a mesh peer. No
      step accounts for two receipts. */
  lemma SourceIntegrity(r: Run, n: nat, t: SessionId, j: nat)
    requires IsRun(r) && Authorised(r) && n < |r.states| && t in r.states[n].sessions
    requires var b := r.states[n].sessions[t].box; j < |Recvs(b.output + b.queue)|
    ensures var b := r.states[n].sessions[t].box;
      exists i, p :: 0 <= i < n && |Deliveries(r, i, t)| == j && GenuineAt(r.states[i], r.ops[i], t, p)
                     && Recvs(b.output + b.queue)[j] == RecvPacket(p.src, p.bytes)
  {
    hide Recvs, AsFrames, Deliveries, IsRun, Authorised, GenuineAt;
    DeliveredInOrder(r, n, t);
    var ps := Deliveries(r, n, t);
    assert |AsFrames(ps)| == |ps| by { if |ps| > 0 { AsFramesAt(ps, 0); } else { AsFramesNone(ps); } }
    AsFramesAt(ps, j);
    DeliveriesAreGenuine(r, n, t, j);
  }

  lemma AsFramesNone(ps: seq<Packet>)
    requires ps == []
    ensures AsFrames(ps) == []
  {
  }
}
