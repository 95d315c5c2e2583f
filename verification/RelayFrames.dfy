/** Which frames every operation offers to which session, and what the sessions' queues and histories make
    of them. */
module RelayFrames {
  import opened Types
  import opened RateLimit
  import opened RelayState
  import opened RelayIndex
  import opened RelayRuns

  // ---------------------------------------------------------------- mailboxes

  function FramesOf(offers: seq<Offer>): seq<Frame> {
    seq(|offers|, i requires 0 <= i < |offers| => offers[i].frame)
  }

  /** The frames that the queue took, in order. */
  function Accepted(offers: seq<Offer>): seq<Frame> {
    if offers == [] then []
    else Accepted(offers[..|offers| - 1]) + if offers[|offers| - 1].accepted then [offers[|offers| - 1].frame] else []
  }

  lemma {:induction false} PushAllFrames(b: Mailbox, fs: seq<Frame>, depth: nat)
    ensures var c := PushAll(b, fs, depth);
      && FramesOf(c.offers) == FramesOf(b.offers) + fs
      && |c.offers| == |b.offers| + |fs| && b.offers <= c.offers
      && c.receiverGone == b.receiverGone && c.output == b.output
  {
    if fs != [] {
      PushAllFrames(b, fs[..|fs| - 1], depth);
      var c, d := PushAll(b, fs[..|fs| - 1], depth), PushAll(b, fs, depth);
      assert FramesOf(d.offers) == FramesOf(c.offers) + [fs[|fs| - 1]];
      assert fs == fs[..|fs| - 1] + [fs[|fs| - 1]];
    }
  }

  lemma PushNone(b: Mailbox, f: Frame, depth: nat)
    ensures PushAll(b, [], depth) == b && PushAll(b, [f], depth) == Push(b, f, depth)
  {
    assert [f][..0] == [];
  }

  lemma {:induction false} PushAllCat(b: Mailbox, fs: seq<Frame>, gs: seq<Frame>, depth: nat)
    ensures PushAll(b, fs + gs, depth) == PushAll(PushAll(b, fs, depth), gs, depth)
    decreases |gs|
  {
    if gs == [] {
      assert fs + gs == fs;
    } else {
      assert (fs + gs)[..|fs + gs| - 1] == fs + gs[..|gs| - 1];
      PushAllCat(b, fs, gs[..|gs| - 1], depth);
    }
  }

  /** What was taken in is what the writer took out followed by what still waits. */
  predicate Fifo(b: Mailbox, depth: nat) {
    b.output + b.queue == Accepted(b.offers) && |b.queue| <= depth
  }

  lemma {:induction false} PushAllFifo(b: Mailbox, fs: seq<Frame>, depth: nat)
    requires Fifo(b, depth)
    ensures Fifo(PushAll(b, fs, depth), depth)
  {
    if fs != [] {
      PushAllFifo(b, fs[..|fs| - 1], depth);
      var c, d := PushAll(b, fs[..|fs| - 1], depth), PushAll(b, fs, depth);
      assert d.offers[..|d.offers| - 1] == c.offers;
    }
  }

  // ---------------------------------------------------------------- who is offered what

  function RouteEmit(s: State, source: SessionId, p: Packet, forwarded: bool, now: real, i: SessionId): seq<Frame>
    requires Refs(s) && source in s.sessions
  {
    match OutcomeOf(s, p.dst, forwarded)
    case Delivered(t) => if i == t then [RecvPacket(p.src, p.bytes)] else []
    case Refused(t) => if i == t then [RecvPacket(p.src, p.bytes)] else []
    case Forwarded(_) => []
    case Unreachable =>
      if i == source && LooksLikeDisco(p.bytes) && Allows(s.sessions[source].limiter, now)
      then [PeerGone(p.dst, NOT_HERE)] else []
  }

  function DetachEmit(s: State, id: SessionId, i: SessionId): seq<Frame>
    requires id in s.sessions
  {
    if |Survivors(s, id)| == 1 && Survivors(s, id)[0] == i then [Health([])] else []
  }

  function UnregisterEmit(s: State, id: SessionId, i: SessionId): seq<Frame>
    requires Refs(s) && id in s.sessions && i in s.sessions
  {
    DetachedHandles(s, id);
    DetachEmit(s, id, i)
    + if Departs(s, id) then EraseEmit(Detached(s, id), s.sessions[id].info.key, id, i) else []
  }

  /** The frames that one step offers to session i, in order. */
  function Emit(s: State, op: Op, now: real, i: SessionId): seq<Frame>
    requires Refs(s) && Enabled(s, op) && i in s.sessions
  {
    match op
    case Register(info) => RegisterEmit(s.index, info, i)
    case Unregister(id) => UnregisterEmit(s, id, i)
    case Route(source, p, forwarded) => RouteEmit(s, source, p, forwarded, now, i)
    case Watch(id, order) => if i == id && s.sessions[id].info.canMesh then Snapshot(s, order) else []
    case Restart(a, b) => if Live(s, i) then [Restarting(a, b)] else []
    case SendPong(id, value) => if i == id then [Pong(value)] else []
    case _ => []
  }

  /** Steps of the writer and of the connection, not of the relay. */
  predicate Outside(op: Op) {
    op.Dequeue? || op.DropReceiver?
  }

  lemma RegisterBoxes(s: State, info: Info, now: real, i: SessionId)
    requires Refs(s) && (i in s.sessions || i == s.index.nextId)
    ensures i in Registered(s, info, now).sessions
    ensures var b := if i in s.sessions then s.sessions[i].box else Mailbox([], false, [], []);
      Registered(s, info, now).sessions[i].box == PushAll(b, RegisterEmit(s.index, info, i), s.depth)
  {
    hide RegisterEmit, ActiveRefs, GroupRefs, RouteRefs, PushAll, Joined;
    assert s.index.nextId !in s.sessions;
  }

  lemma UnregisterBoxes(s: State, id: SessionId, i: SessionId)
    requires Refs(s) && Live(s, id) && i in s.sessions
    ensures i in Unregistered(s, id).sessions
    ensures Unregistered(s, id).sessions[i].box == PushAll(s.sessions[i].box, UnregisterEmit(s, id, i), s.depth)
  {
    hide EraseEmit, DetachedIndex, DetachedStats, ErasedPaths, ErasedIndex, ActiveRefs, RouteRefs, Departs, Without;
    DetachedHandles(s, id);
    var d := Detached(s, id);
    var rest := Survivors(s, id);
    WithoutMembers(Members(s.index, s.sessions[id].info.key), id);
    assert |rest| == 1 ==> rest[0] in rest;
    assert d.sessions[i].box == PushAll(s.sessions[i].box, DetachEmit(s, id, i), s.depth);
    if Departs(s, id) {
      PushAllCat(s.sessions[i].box, DetachEmit(s, id, i), EraseEmit(d, s.sessions[id].info.key, id, i), s.depth);
    } else {
      assert UnregisterEmit(s, id, i) == DetachEmit(s, id, i);
    }
  }

  lemma RouteBoxes(s: State, source: SessionId, p: Packet, forwarded: bool, now: real, i: SessionId)
    requires Refs(s) && source in s.sessions && i in s.sessions
    ensures i in RoutedSessions(s, source, p, forwarded, now)
    ensures RoutedSessions(s, source, p, forwarded, now)[i].box
         == PushAll(s.sessions[i].box, RouteEmit(s, source, p, forwarded, now, i), s.depth)
  {
    hide GroupRefs, RouteRefs, LooksLikeDisco, FirstOpen, Push, AfterAsk, Allows;
  }

  /** Every step hands each session exactly the frames of `Emit`. */
  lemma BoxStep(s: State, op: Op, now: real, i: SessionId)
    requires Refs(s) && Enabled(s, op) && i in s.sessions
    ensures i in Step(s, op, now).sessions
    ensures !Outside(op) ==>
            Step(s, op, now).sessions[i].box == PushAll(s.sessions[i].box, Emit(s, op, now, i), s.depth)
  {
    hide Refs, Registered, Unregistered, RoutedSessions, RoutedPaths, RoutedMesh, RoutedStats, ActivityIndex,
      RegisterEmit, UnregisterEmit, RouteEmit, Snapshot, RouteAdded, RouteRemoved, MeshRemoved, PreferredStats, Push,
      Enumerates;
    match op
    case Register(info) => RegisterBoxes(s, info, now, i);
    case Unregister(id) => UnregisterBoxes(s, id, i);
    case Route(source, p, forwarded) => RouteBoxes(s, source, p, forwarded, now, i);
    case _ =>
  }

  // ---------------------------------------------------------------- queues are first in, first out

  predicate BoxesOk(s: State) {
    forall i :: i in s.sessions ==> Fifo(s.sessions[i].box, s.depth)
  }

  lemma BoxesStep(s: State, op: Op, now: real)
    requires Refs(s) && Enabled(s, op) && BoxesOk(s) && s.depth >= 1
    ensures BoxesOk(Step(s, op, now))
  {
    hide Step, Emit, Enabled, Refs, Fifo;
    HandlesStep(s, op, now);
    DepthStep(s, op, now);
    var t := Step(s, op, now);
    forall i | i in t.sessions ensures Fifo(t.sessions[i].box, s.depth) {
      if i in s.sessions {
        BoxFifo(s, op, now, i);
      } else {
        NewBoxFifo(s, op, now);
      }
    }
  }

  lemma BoxFifo(s: State, op: Op, now: real, i: SessionId)
    requires Refs(s) && Enabled(s, op) && i in s.sessions && Fifo(s.sessions[i].box, s.depth)
    ensures i in Step(s, op, now).sessions && Fifo(Step(s, op, now).sessions[i].box, s.depth)
  {
    BoxStep(s, op, now, i);
    if !Outside(op) {
      PushAllFifo(s.sessions[i].box, Emit(s, op, now, i), s.depth);
    } else if op.Dequeue? && op.id == i {
      var b := s.sessions[i].box;
      assert b.output + b.queue[..op.count] + b.queue[op.count..] == b.output + b.queue;
    }
  }

  lemma NewBoxFifo(s: State, op: Op, now: real)
    requires Refs(s) && s.depth >= 1 && op.Register?
    ensures s.index.nextId in Step(s, op, now).sessions
    ensures Fifo(Step(s, op, now).sessions[s.index.nextId].box, s.depth)
  {
    hide Registered;
    RegisterBoxes(s, op.info, now, s.index.nextId);
    PushAllFifo(Mailbox([], false, [], []), RegisterEmit(s.index, op.info, s.index.nextId), s.depth);
  }

  /** In every reachable state every session's queue holds, in order and within its bound, what it took in
      and the writer has not taken out. */
  lemma {:induction false} QueuesAreFifo(r: Run, i: nat)
    requires IsRun(r) && i < |r.states|
    ensures BoxesOk(r.states[i])
  {
    hide Step, Enabled, Refs, Fifo;
    if i > 0 {
      QueuesAreFifo(r, i - 1);
      DepthFixed(r, i - 1);
      assert Next(r.states[i - 1], r.ops[i - 1], r.times[i - 1], r.states[i]);
      BoxesStep(r.states[i - 1], r.ops[i - 1], r.times[i - 1]);
    }
  }
}
