/** What sessions are told: PeerGone frames and Health frames. */
module RelayNotices {
  import opened Types
  import opened RelayState
  import opened RelayIndex
  import opened RelayRuns
  import opened RelayFrames

  // ---------------------------------------------------------------- PeerGone

  predicate NamesAbsent(f: Frame, x: Index) {
    f.PeerGone? ==> f.peer !in x.peers && f.peer !in x.active
  }

  lemma EraseNamesAbsent(s: State, id: SessionId, i: SessionId, f: Frame)
    requires Refs(s) && Live(s, id) && i in s.sessions && f in UnregisterEmit(s, id, i)
    ensures NamesAbsent(f, Unregistered(s, id).index)
  {
    hide DetachedIndex, DetachedSessions, ErasedSessions, ErasedPaths, IndexRefs, RouteRefs, HeardFrom, Without;
    DetachedHandles(s, id);
  }

  lemma {:induction false} SnapshotFrames(s: State, order: seq<NodeKey>)
    requires Refs(s)
    ensures forall f :: f in Snapshot(s, order) ==> f.PeerPresent?
  {
    hide Refs, PickActive;
    if order != [] {
      SnapshotFrames(s, order[..|order| - 1]);
    }
  }

  /** No PeerGone frame, of either reason and from any of its three emitters, names a peer that is present
      at that step. */
  lemma PeerGoneNamesAbsent(s: State, op: Op, now: real, i: SessionId, f: Frame)
    requires Sound(s) && Enabled(s, op) && i in s.sessions && f in Emit(s, op, now, i)
    ensures NamesAbsent(f, Step(s, op, now).index)
  {
    hide Unregistered, UnregisterEmit, Snapshot, RoutedSessions, RoutedPaths, RoutedMesh, RoutedStats, Enumerates,
      IndexRefs, RouteRefs, RegisteredSessions;
    match op
    case Unregister(id) => EraseNamesAbsent(s, id, i, f);
    case Watch(_, order) => SnapshotFrames(s, order);
    case _ =>
  }

  /** The same over whole runs: the j-th frame ever offered to a session, if offered by step n. */
  lemma PeerGoneInRun(r: Run, n: nat, i: SessionId, j: nat)
    requires IsRun(r) && n < |r.ops| && i in r.states[n + 1].sessions
    requires (if i in r.states[n].sessions then |r.states[n].sessions[i].box.offers| else 0) <= j
    requires j < |r.states[n + 1].sessions[i].box.offers|
    ensures NamesAbsent(r.states[n + 1].sessions[i].box.offers[j].frame, r.states[n + 1].index)
  {
    hide Step, Emit, Enabled, Agreement, IndexRefs, RouteRefs;
    var s, op, now, t := r.states[n], r.ops[n], r.times[n], r.states[n + 1];
    assert Next(s, op, now, t);
    IndexAgreement(r, n);
    HandlesStep(s, op, now);
    if i in s.sessions {
      OffersGrow(s, op, now, i);
      var f := t.sessions[i].box.offers[j].frame;
      assert f == FramesOf(t.sessions[i].box.offers)[j];
      PeerGoneNamesAbsent(s, op, now, i, f);
    } else {
      FirstOffers(s, op, now, j);
    }
  }

  lemma OffersGrow(s: State, op: Op, now: real, i: SessionId)
    requires Refs(s) && Enabled(s, op) && i in s.sessions
    ensures i in Step(s, op, now).sessions
    ensures FramesOf(Step(s, op, now).sessions[i].box.offers) ==
            FramesOf(s.sessions[i].box.offers) + Emit(s, op, now, i)
  {
    BoxStep(s, op, now, i);
    if !Outside(op) {
      PushAllFrames(s.sessions[i].box, Emit(s, op, now, i), s.depth);
    }
  }

  lemma RegisterEmits(x: Index, info: Info, i: SessionId)
    ensures forall f :: f in RegisterEmit(x, info, i) ==> f.Health? || f.PeerPresent?
    ensures MentionsHealth(RegisterEmit(x, info, i)) <==> |Joined(x, info.key)| > 1 && i in Joined(x, info.key)
    ensures MentionsHealth(RegisterEmit(x, info, i)) ==> Warned(RegisterEmit(x, info, i))
  {
    hide Joined;
    var fs := RegisterEmit(x, info, i);
    var warn := |Joined(x, info.key)| > 1 && i in Joined(x, info.key);
    assert |fs| > 0 ==> fs[0] == (if warn then Health(DUPLICATE_TEXT) else PresentFrame(info.key, info));
    assert |DUPLICATE_TEXT| == 38;
    if warn && |fs| == 2 {
      assert fs[..1] == [Health(DUPLICATE_TEXT)];
    }
  }

  lemma FirstOffers(s: State, op: Op, now: real, j: nat)
    requires Refs(s) && op.Register?
    requires s.index.nextId in Step(s, op, now).sessions
    requires j < |Step(s, op, now).sessions[s.index.nextId].box.offers|
    ensures !Step(s, op, now).sessions[s.index.nextId].box.offers[j].frame.PeerGone?
  {
    hide Registered, ActiveRefs, GroupRefs, RouteRefs, RegisterEmit, PushAll;
    var t := Step(s, op, now);
    RegisterEmits(s.index, op.info, s.index.nextId);
    RegisterBoxes(s, op.info, now, s.index.nextId);
    PushAllFrames(Mailbox([], false, [], []), RegisterEmit(s.index, op.info, s.index.nextId), s.depth);
    var none: seq<Offer> := [];
    assert FramesOf(none) == [];
    assert FramesOf(t.sessions[s.index.nextId].box.offers) == RegisterEmit(s.index, op.info, s.index.nextId);
    assert FramesOf(t.sessions[s.index.nextId].box.offers)[j] in RegisterEmit(s.index, op.info, s.index.nextId);
  }

  // ---------------------------------------------------------------- Health

  /** Whether the latest Health frame carries a complaint; none at all counts as healthy. */
  function Warned(fs: seq<Frame>): bool {
    if fs == [] then false
    else if fs[|fs| - 1].Health? then fs[|fs| - 1].text != []
    else Warned(fs[..|fs| - 1])
  }

  predicate MentionsHealth(fs: seq<Frame>) {
    exists i :: 0 <= i < |fs| && fs[i].Health?
  }

  lemma {:induction false} WarnedCat(fs: seq<Frame>, gs: seq<Frame>)
    ensures Warned(fs + gs) == if MentionsHealth(gs) then Warned(gs) else Warned(fs)
    decreases |gs|
  {
    if gs == [] {
      assert fs + gs == fs;
    } else {
      var front := gs[..|gs| - 1];
      assert (fs + gs)[..|fs + gs| - 1] == fs + front;
      WarnedCat(fs, front);
      assert forall i :: 0 <= i < |front| ==> front[i] == gs[i];
    }
  }

  /** For every session of every key: its duplicate flag, and the latest Health frame offered to it, say
      whether the key has more than one session. */
  predicate HealthOk(s: State) {
    forall k, i :: k in s.index.peers && i in s.index.peers[k].sessions ==>
      i in s.sessions && Tells(s.sessions[i], |s.index.peers[k].sessions| > 1)
  }

  predicate Tells(x: Session, duplicated: bool) {
    x.duplicate == duplicated && Warned(FramesOf(x.box.offers)) == duplicated
  }

  lemma TellsAfter(x: Session, y: Session, fs: seq<Frame>, duplicated: bool)
    requires FramesOf(y.box.offers) == FramesOf(x.box.offers) + fs && Tells(x, duplicated)
    requires y.duplicate == x.duplicate && !MentionsHealth(fs)
    ensures Tells(y, duplicated)
  {
    WarnedCat(FramesOf(x.box.offers), fs);
  }

  lemma MembersKept(s: State, op: Op, now: real, k: NodeKey)
    requires Refs(s) && Enabled(s, op) && !op.Register? && !op.Unregister?
    ensures Members(Step(s, op, now).index, k) == Members(s.index, k)
    ensures Step(s, op, now).index.peers.Keys == s.index.peers.Keys
  {
    hide Registered, Unregistered, Snapshot, RoutedSessions, RoutedPaths, RoutedMesh, RoutedStats, Enumerates,
      PushAll, Refs, PickActive, RouteAdded, RouteRemoved, MeshRemoved;
  }

  lemma FlagKept(s: State, op: Op, now: real, i: SessionId)
    requires Refs(s) && Enabled(s, op) && i in s.sessions && !op.Register? && !op.Unregister?
    ensures i in Step(s, op, now).sessions && Step(s, op, now).sessions[i].duplicate == s.sessions[i].duplicate
    ensures !MentionsHealth(Emit(s, op, now, i))
  {
    hide Registered, Unregistered, RegisterEmit, UnregisterEmit, Snapshot, RoutedPaths, RoutedMesh, RoutedStats,
      Enumerates, PushAll, GroupRefs, RouteRefs, PickActive, LooksLikeDisco, FirstOpen, RouteAdded, RouteRemoved,
      MeshRemoved;
    if op.Watch? {
      SnapshotFrames(s, op.order);
      assert forall j :: 0 <= j < |Snapshot(s, op.order)| ==> Snapshot(s, op.order)[j] in Snapshot(s, op.order);
    }
  }

  lemma HealthKept(s: State, op: Op, now: real)
    requires Sound(s) && HealthOk(s) && Enabled(s, op) && !op.Register? && !op.Unregister?
    ensures HealthOk(Step(s, op, now))
  {
    hide Step, Emit, Enabled, Agreement, IndexRefs, RouteRefs, Tells;
    var t := Step(s, op, now);
    forall k, i | k in t.index.peers && i in t.index.peers[k].sessions
      ensures i in t.sessions && Tells(t.sessions[i], |t.index.peers[k].sessions| > 1)
    {
      HealthKeptAt(s, op, now, k, i);
    }
  }

  lemma HealthKeptAt(s: State, op: Op, now: real, k: NodeKey, i: SessionId)
    requires Sound(s) && HealthOk(s) && Enabled(s, op) && !op.Register? && !op.Unregister?
    requires i in Members(Step(s, op, now).index, k)
    ensures i in Step(s, op, now).sessions
    ensures Tells(Step(s, op, now).sessions[i], |Members(Step(s, op, now).index, k)| > 1)
  {
    hide Step, Emit, Enabled, Agreement, RouteRefs, Tells;
    MembersKept(s, op, now, k);
    assert i in s.sessions && Tells(s.sessions[i], |Members(s.index, k)| > 1);
    FlagKept(s, op, now, i);
    OffersGrow(s, op, now, i);
    TellsAfter(s.sessions[i], Step(s, op, now).sessions[i], Emit(s, op, now, i), |Members(s.index, k)| > 1);
  }

  lemma HealthRegister(s: State, info: Info, now: real)
    requires Sound(s) && HealthOk(s)
    ensures HealthOk(Registered(s, info, now))
  {
    var t := Registered(s, info, now);
    forall k, i | k in t.index.peers && i in t.index.peers[k].sessions
      ensures i in t.sessions && Tells(t.sessions[i], |t.index.peers[k].sessions| > 1)
    {
      HealthRegisterAt(s, info, now, k, i);
    }
  }

  lemma HealthRegisterAt(s: State, info: Info, now: real, k: NodeKey, i: SessionId)
    requires Sound(s) && HealthOk(s) && i in Members(Registered(s, info, now).index, k)
    ensures i in Registered(s, info, now).sessions
    ensures Tells(Registered(s, info, now).sessions[i], |Members(Registered(s, info, now).index, k)| > 1)
  {
    hide RegisterEmit, PushAll, Warned, Agreement, RouteRefs, ActiveRefs;
    var t, next := Registered(s, info, now), s.index.nextId;
    var duplicated := |Joined(s.index, info.key)| > 1 && i in Joined(s.index, info.key);
    assert next !in s.sessions;
    assert GroupRefs(s.index.peers, s.sessions);
    assert i in s.sessions || (i == next && k == info.key);
    RegisterBoxes(s, info, now, i);
    RegisterEmits(s.index, info, i);
    var b := if i in s.sessions then s.sessions[i].box else Mailbox([], false, [], []);
    PushAllFrames(b, RegisterEmit(s.index, info, i), s.depth);
    WarnedCat(FramesOf(b.offers), RegisterEmit(s.index, info, i));
    assert i == next ==>
      FramesOf(b.offers) == [] && !Warned([]) by { assert Warned([]) == false by { WarnedNothing(); } }
    if k == info.key {
      assert Members(t.index, k) == Joined(s.index, k);
    } else {
      assert Members(t.index, k) == Members(s.index, k);
      assert i !in Joined(s.index, info.key);
    }
  }

  lemma WarnedNothing()
    ensures !Warned([])
  {
  }

  lemma {:induction false} WithoutSize(ids: seq<SessionId>, id: SessionId)
    ensures |Without(ids, id)| <= |ids|
    ensures id in ids ==> |Without(ids, id)| < |ids|
  {
    if ids != [] {
      WithoutSize(ids[..|ids| - 1], id);
    }
  }

  lemma UnregisterMembers(s: State, id: SessionId, k: NodeKey)
    requires Refs(s) && Live(s, id)
    ensures Members(Unregistered(s, id).index, k) ==
            if k == s.sessions[id].info.key then Survivors(s, id) else Members(s.index, k)
  {
    hide DetachedSessions, DetachedStats, ErasedSessions, ErasedPaths, IndexRefs, RouteRefs, Without;
    DetachedHandles(s, id);
  }

  lemma UnregisterFlag(s: State, id: SessionId, i: SessionId)
    requires Refs(s) && Live(s, id) && i in s.sessions
    ensures i in Unregistered(s, id).sessions
    ensures Unregistered(s, id).sessions[i].duplicate ==
            (s.sessions[i].duplicate && !(|Survivors(s, id)| == 1 && Survivors(s, id)[0] == i))
  {
    hide EraseEmit, DetachedIndex, DetachedStats, ErasedPaths, ErasedIndex, ActiveRefs, RouteRefs, Departs, Without,
      PushAll;
    DetachedHandles(s, id);
    var rest := Survivors(s, id);
    WithoutMembers(Members(s.index, s.sessions[id].info.key), id);
    assert |rest| == 1 ==> rest[0] in rest;
  }

  lemma UnregisterEmits(s: State, id: SessionId, i: SessionId)
    requires Refs(s) && Live(s, id) && i in s.sessions
    ensures MentionsHealth(UnregisterEmit(s, id, i)) <==> |Survivors(s, id)| == 1 && Survivors(s, id)[0] == i
    ensures MentionsHealth(UnregisterEmit(s, id, i)) ==> !Warned(UnregisterEmit(s, id, i))
  {
    hide Detached, Refs, Survivors, HeardFrom;
    var fs := UnregisterEmit(s, id, i);
    if |Survivors(s, id)| == 1 && Survivors(s, id)[0] == i {
      assert fs == [Health([])];
      assert fs[0].Health?;
    }
  }

  lemma HealthUnregisterAt(s: State, id: SessionId, k: NodeKey, i: SessionId)
    requires Sound(s) && HealthOk(s) && Live(s, id) && i in Members(Unregistered(s, id).index, k)
    ensures i in Unregistered(s, id).sessions
    ensures Tells(Unregistered(s, id).sessions[i], |Members(Unregistered(s, id).index, k)| > 1)
  {
    hide Unregistered, UnregisterEmit, PushAll, Warned, Agreement, RouteRefs, ActiveRefs, Without;
    var t, key, rest := Unregistered(s, id), s.sessions[id].info.key, Survivors(s, id);
    UnregisterMembers(s, id, k);
    WithoutMembers(Members(s.index, key), id);
    WithoutSize(Members(s.index, key), id);
    assert GroupRefs(s.index.peers, s.sessions);
    assert i in Members(s.index, k);
    assert |rest| == 1 ==> rest[0] in rest;
    UnregisterFlag(s, id, i);
    UnregisterEmits(s, id, i);
    UnregisterBoxes(s, id, i);
    var fs := UnregisterEmit(s, id, i);
    PushAllFrames(s.sessions[i].box, fs, s.depth);
    WarnedCat(FramesOf(s.sessions[i].box.offers), fs);
    assert Tells(s.sessions[i], |Members(s.index, k)| > 1);
  }

  lemma HealthStep(s: State, op: Op, now: real)
    requires Sound(s) && HealthOk(s) && Enabled(s, op)
    ensures HealthOk(Step(s, op, now))
  {
    hide Registered, ActivityNoted, Unregistered, Routed, Watched, PeerClosed, RestartAnnounced, Agreement, IndexRefs,
      RouteRefs, Tells;
    if op.Register? {
      HealthRegister(s, op.info, now);
    } else if op.Unregister? {
      var t := Unregistered(s, op.id);
      forall k, i | k in t.index.peers && i in t.index.peers[k].sessions
        ensures i in t.sessions && Tells(t.sessions[i], |t.index.peers[k].sessions| > 1)
      {
        HealthUnregisterAt(s, op.id, k, i);
      }
    } else {
      HealthKept(s, op, now);
    }
  }

  /** In every reachable state, for every live session: the duplicate flag holds, and the latest Health frame
      offered is a complaint, if and only if its key has more than one session. */
  lemma {:induction false} HealthAgreement(r: Run, i: nat)
    requires IsRun(r) && i < |r.states|
    ensures HealthOk(r.states[i])
  {
    hide Step, Enabled, Sound, Refs, Tells;
    if i > 0 {
      HealthAgreement(r, i - 1);
      IndexAgreement(r, i - 1);
      assert Next(r.states[i - 1], r.ops[i - 1], r.times[i - 1], r.states[i]);
      HealthStep(r.states[i - 1], r.ops[i - 1], r.times[i - 1]);
    }
  }

  predicate NoHealthDropped(offers: seq<Offer>) {
    forall i :: 0 <= i < |offers| && offers[i].frame.Health? ==> offers[i].accepted
  }

  lemma {:induction false} WarnedAccepted(offers: seq<Offer>)
    requires NoHealthDropped(offers)
    ensures Warned(Accepted(offers)) == Warned(FramesOf(offers))
  {
    if offers != [] {
      var front, last := offers[..|offers| - 1], offers[|offers| - 1];
      WarnedAccepted(front);
      assert FramesOf(offers) == FramesOf(front) + [last.frame];
      WarnedCat(FramesOf(front), [last.frame]);
      WarnedCat(Accepted(front), if last.accepted then [last.frame] else []);
      assert Accepted(front) + [] == Accepted(front);
      if last.frame.Health? {
        assert [last.frame][0].Health?;
      }
    }
  }

  /** What a live session has been sent and will be sent from its queue ends in a complaint if and only if
      its key has more than one session, provided none of its Health frames was dropped. */
  lemma HealthReceived(r: Run, n: nat, i: SessionId)
    requires IsRun(r) && n < |r.states| && Live(r.states[n], i)
    requires NoHealthDropped(r.states[n].sessions[i].box.offers)
    ensures var x := r.states[n].sessions[i];
      Warned(x.box.output + x.box.queue) <==> |Members(r.states[n].index, x.info.key)| > 1
  {
    hide Warned, Accepted;
    HealthAgreement(r, n);
    QueuesAreFifo(r, n);
    WarnedAccepted(r.states[n].sessions[i].box.offers);
    assert Fifo(r.states[n].sessions[i].box, r.states[n].depth);
  }

  lemma ForcedActivity(s: State, id: SessionId)
    requires Sound(s) && HealthOk(s) && Live(s, id)
    ensures ActivityNoted(s, id) == s.(index := ActivityIndex(s.index, s.sessions[id].info.key, id))
  {
    hide Warned;
    var key := s.sessions[id].info.key;
    assert Agrees(s.index, key);
    assert Tells(s.sessions[id], |Members(s.index, key)| > 1);
    if !s.sessions[id].duplicate {
      assert s.index.peers[key].sessions == [id];
      assert s.index.peers[key] == PeerSet([id], id);
      assert s.index.peers[key := PeerSet([id], id)] == s.index.peers;
      assert s.index.active[key := id] == s.index.active;
    }
  }

  /** The early return of `note_activity` is sound: a session that is no duplicate is already the route, so
      updating anyway would change nothing at all. */
  lemma EarlyReturnIsSound(r: Run, n: nat, id: SessionId)
    requires IsRun(r) && n < |r.states| && Live(r.states[n], id)
    ensures var s := r.states[n];
      ActivityNoted(s, id) == s.(index := ActivityIndex(s.index, s.sessions[id].info.key, id))
  {
    hide IsRun, Sound, HealthOk, ActivityIndex, ActivityNoted;
    IndexAgreement(r, n);
    HealthAgreement(r, n);
    ForcedActivity(r.states[n], id);
  }
}
