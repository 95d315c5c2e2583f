/** What the smaller operations leave behind: the frames that announce a session, the home-move counters, the closed
    flags. */
module RelayEffects {
  import opened Types
  import opened RelayState
  import opened RelayIndex
  import opened RelayRuns
  import opened RelayFrames
  import opened RelayNotices
  import opened RelayCounts

  // ---------------------------------------------------------------- announcements

  /** The frame announces k with the endpoint of a session and its flags: 2 for mesh, 4 for a prober, 8 for one that
      is not ideally placed, and 1 for none of them. */
  predicate Announces(f: Frame, k: NodeKey, info: Info) {
    && f.PeerPresent? && f.peer == k && f.endpoint == Some(info.endpoint) && f.extra == []
    && f.flags.Some? && f.flags.value < 16
    && (f.flags.value / 2 % 2 == 1 <==> info.canMesh)
    && (f.flags.value / 4 % 2 == 1 <==> info.isProber)
    && (f.flags.value / 8 % 2 == 1 <==> info.notIdeal)
    && (f.flags.value % 2 == 1 <==> !info.canMesh && !info.isProber && !info.notIdeal)
  }

  lemma PresentAnnounces(k: NodeKey, info: Info)
    ensures Announces(PresentFrame(k, info), k, info)
  {
  }

  function Ascii(text: string): Bytes
    requires forall i :: 0 <= i < |text| ==> text[i] as int < 0x80
  {
    seq(|text|, i requires 0 <= i < |text| => text[i] as int)
  }

  lemma ComplaintIs()
    ensures DUPLICATE_TEXT == Ascii("duplicate DERP connection for node key")
  {
  }

  /** Registering offers a session the complaint if it shares the key with another, and the announcement of the
      newcomer if it watches; nothing else, in this order. */
  lemma RegisterOffers(s: State, info: Info, now: real, i: SessionId) returns (f: Frame)
    requires Refs(s) && i in s.sessions
    ensures i in Registered(s, info, now).sessions && Announces(f, info.key, info)
    ensures FramesOf(Registered(s, info, now).sessions[i].box.offers) ==
            FramesOf(s.sessions[i].box.offers)
            + (if i in Members(s.index, info.key) then [Health(DUPLICATE_TEXT)] else [])
            + (if i in s.index.watchers then [f] else [])
  {
    hide Registered, PushAll, PresentFrame, FramesOf, RouteRefs, ActiveRefs, GroupRefs;
    f := PresentFrame(info.key, info);
    PresentAnnounces(info.key, info);
    RegisterBoxes(s, info, now, i);
    var fs := RegisterEmit(s.index, info, i);
    PushAllFrames(s.sessions[i].box, fs, s.depth);
    assert i != s.index.nextId by { assert IndexRefs(s.index, s.sessions); }
    var a := if i in Members(s.index, info.key) then [Health(DUPLICATE_TEXT)] else [];
    var b := if i in s.index.watchers then [f] else [];
    assert fs == a + b;
    assert FramesOf(s.sessions[i].box.offers) + fs == FramesOf(s.sessions[i].box.offers) + a + b;
  }

  /** A watcher's snapshot: for the j-th key visited, the announcement of the session that receives its packets. */
  lemma {:induction false} SnapshotAnnounces(s: State, order: seq<NodeKey>)
    requires Sound(s) && forall j :: 0 <= j < |order| ==> order[j] in s.index.peers
    ensures |Snapshot(s, order)| == |order|
    ensures forall j :: 0 <= j < |order| ==>
      && order[j] in s.index.active && s.index.active[order[j]] in s.sessions
      && Announces(Snapshot(s, order)[j], order[j], s.sessions[s.index.active[order[j]]].info)
  {
    hide Announces, PickActive, PresentFrame, RouteRefs, GroupRefs, Increasing;
    if order != [] {
      var k := order[|order| - 1];
      SnapshotAnnounces(s, order[..|order| - 1]);
      assert Agrees(s.index, k);
      PresentAnnounces(k, s.sessions[s.index.active[k]].info);
    }
  }

  lemma WatchOffers(s: State, id: SessionId, order: seq<NodeKey>, now: real)
    requires Sound(s) && Live(s, id) && Enumerates(order, s.index.peers.Keys) && s.sessions[id].info.canMesh
    ensures id in Step(s, Watch(id, order), now).sessions
    ensures var fs := FramesOf(s.sessions[id].box.offers);
      var gs := FramesOf(Step(s, Watch(id, order), now).sessions[id].box.offers);
      && |gs| == |fs| + |order| && fs <= gs
      && forall j :: 0 <= j < |order| ==>
           && order[j] in s.index.active && s.index.active[order[j]] in s.sessions
           && Announces(gs[|fs| + j], order[j], s.sessions[s.index.active[order[j]]].info)
  {
    hide Step, Agreement, IndexRefs, RouteRefs, Announces, FramesOf, Snapshot, Members;
    OffersGrow(s, Watch(id, order), now, id);
    forall j | 0 <= j < |order| ensures order[j] in s.index.peers {
      assert order[j] in order;
    }
    SnapshotAnnounces(s, order);
  }

  /** Every live session is offered the announcement, with the two delays in their order, and nobody else. */
  lemma RestartOffers(s: State, a: U32, b: U32, now: real, i: SessionId)
    requires Refs(s) && i in s.sessions
    ensures i in Step(s, Restart(a, b), now).sessions
    ensures FramesOf(Step(s, Restart(a, b), now).sessions[i].box.offers) ==
            FramesOf(s.sessions[i].box.offers) + if Live(s, i) then [Restarting(a, b)] else []
  {
    hide Step, Refs, FramesOf, Live;
    OffersGrow(s, Restart(a, b), now, i);
  }

  // ---------------------------------------------------------------- closed sessions

  /** This operation closes session j: its own unregister, or a mesh session that closes its key while it is live. */
  predicate Closes(s: State, op: Op, j: SessionId) {
    && j in s.sessions
    && (|| op == Unregister(j)
        || (&& op.Close? && op.id in s.sessions && s.sessions[op.id].info.canMesh
            && op.peer == s.sessions[j].info.key && Live(s, j)))
  }

  lemma ClosedRegister(s: State, info: Info, now: real, j: SessionId)
    requires Refs(s) && j in Registered(s, info, now).sessions
    ensures Registered(s, info, now).sessions[j].closed == (j in s.sessions && s.sessions[j].closed)
  {
    hide RegisterEmit, ActiveRefs, GroupRefs, RouteRefs, PushAll, Joined;
    assert s.index.nextId !in s.sessions;
  }

  lemma ClosedUnregister(s: State, id: SessionId, j: SessionId)
    requires Refs(s) && Live(s, id) && j in s.sessions
    ensures j in Unregistered(s, id).sessions
    ensures Unregistered(s, id).sessions[j].closed == (s.sessions[j].closed || j == id)
  {
    hide EraseEmit, DetachedIndex, DetachedStats, ErasedPaths, ErasedIndex, ActiveRefs, RouteRefs, Departs, Without,
      PushAll;
    DetachedHandles(s, id);
    var d, rest := Detached(s, id), Survivors(s, id);
    WithoutMembers(Members(s.index, s.sessions[id].info.key), id);
    assert |rest| == 1 ==> rest[0] in rest;
    assert d.sessions[j].closed == (s.sessions[j].closed || j == id);
  }

  lemma ClosedByClose(s: State, op: Op, now: real, j: SessionId)
    requires Refs(s) && Enabled(s, op) && op.Close? && j in s.sessions
    ensures j in Step(s, op, now).sessions
    ensures Step(s, op, now).sessions[j].closed == (s.sessions[j].closed || Closes(s, op, j))
  {
    hide ActiveRefs, RouteRefs;
    assert GroupRefs(s.index.peers, s.sessions);
  }

  lemma ClosedOther(s: State, op: Op, now: real, j: SessionId)
    requires Refs(s) && Enabled(s, op) && !op.Register? && !op.Unregister? && !op.Close? && j in s.sessions
    ensures j in Step(s, op, now).sessions && Step(s, op, now).sessions[j].closed == s.sessions[j].closed
  {
    hide Registered, Unregistered, RoutedPaths, RoutedMesh, RoutedStats, Snapshot, Enumerates, GroupRefs, RouteRefs,
      RouteAdded, RouteRemoved, MeshRemoved, PreferredStats, PushAll, ActivityIndex, FirstOpen, LooksLikeDisco,
      Members;
  }

  lemma ClosedStep(s: State, op: Op, now: real, j: SessionId)
    requires Refs(s) && Enabled(s, op) && j in Step(s, op, now).sessions
    ensures Step(s, op, now).sessions[j].closed ==
            ((j in s.sessions && s.sessions[j].closed) || Closes(s, op, j))
  {
    hide Step, Refs, Members, Closes;
    HandlesStep(s, op, now);
    if op.Register? {
      StepRegisters(s, op, now);
      ClosedRegister(s, op.info, now, j);
      ClosesNot(s, op, j);
    } else if op.Unregister? {
      StepUnregisters(s, op, now);
      ClosedUnregister(s, op.id, j);
      ClosesSelf(s, op, j);
    } else if op.Close? {
      ClosedByClose(s, op, now, j);
    } else {
      ClosedOther(s, op, now, j);
      ClosesNot(s, op, j);
    }
  }

  lemma ClosesNot(s: State, op: Op, j: SessionId)
    requires !op.Unregister? && !op.Close?
    ensures !Closes(s, op, j)
  {
  }

  lemma ClosesSelf(s: State, op: Op, j: SessionId)
    requires op.Unregister? && j in s.sessions
    ensures Closes(s, op, j) <==> op.id == j
  {
  }

  lemma StepUnregisters(s: State, op: Op, now: real)
    requires Refs(s) && op.Unregister? && Enabled(s, op)
    ensures Step(s, op, now) == Unregistered(s, op.id) && op.id in s.sessions && Live(s, op.id)
  {
    hide Unregistered, Refs;
  }

  /** In every run a session is closed if and only if it was unregistered, or a mesh session closed its key while it was
      live. */
  lemma {:induction false} ClosedIff(r: Run, n: nat, j: SessionId)
    requires IsRun(r) && n < |r.states| && j in r.states[n].sessions
    ensures r.states[n].sessions[j].closed <==> exists m :: 0 <= m < n && Closes(r.states[m], r.ops[m], j)
  {
    hide Step, Enabled, Refs, Closes;
    if n == 0 {
      assert false;
    } else {
      var s, op, now := r.states[n - 1], r.ops[n - 1], r.times[n - 1];
      assert Next(s, op, now, r.states[n]);
      ClosedStep(s, op, now, j);
      if j in s.sessions {
        ClosedIff(r, n - 1, j);
      } else {
        forall m | 0 <= m < n ensures !Closes(r.states[m], r.ops[m], j) {
          NotYet(r, m, n - 1, j);
          ClosesKnown(r.states[m], r.ops[m], j);
        }
      }
    }
  }

  lemma ClosesKnown(s: State, op: Op, j: SessionId)
    requires j !in s.sessions
    ensures !Closes(s, op, j)
  {
  }

  lemma {:induction false} NotYet(r: Run, m: nat, n: nat, j: SessionId)
    requires IsRun(r) && m <= n < |r.states| && j !in r.states[n].sessions
    ensures j !in r.states[m].sessions
    decreases n
  {
    hide Step, Enabled, Refs;
    if m < n {
      assert Next(r.states[n - 1], r.ops[n - 1], r.times[n - 1], r.states[n]);
      HandlesStep(r.states[n - 1], r.ops[n - 1], r.times[n - 1]);
      NotYet(r, m, n - 1, j);
    }
  }

  // ---------------------------------------------------------------- home moves

  /** What a session last said about preferring this server, if anything. */
  function LastWord(ops: seq<Op>, id: SessionId): Option<bool> {
    if ops == [] then None
    else
      var op := ops[|ops| - 1];
      if op.Prefer? && op.id == id then Some(op.preferred) else LastWord(ops[..|ops| - 1], id)
  }

  /** How often a session that had said the opposite before came to prefer this server, or stopped preferring it. */
  function Moves(ops: seq<Op>, home: bool): nat {
    if ops == [] then 0
    else
      var front, op := ops[..|ops| - 1], ops[|ops| - 1];
      Moves(front, home)
      + if op.Prefer? && op.preferred == home && LastWord(front, op.id) == Some(!home) then 1 else 0
  }

  /** The flags of a session hold what it last said. */
  predicate Remembers(x: Session, word: Option<bool>) {
    x.preferredSeen == word.Some? && x.preferred == (word == Some(true))
  }

  lemma HomeStats(s: State, op: Op, now: real)
    requires Refs(s) && Enabled(s, op)
    ensures var m, n := s.stats, Step(s, op, now).stats;
      && (op.Prefer? ==>
            && op.id in s.sessions
            && var x := s.sessions[op.id];
               && n.homeMovesIn == m.homeMovesIn + (if op.preferred && !x.preferred && x.preferredSeen then 1 else 0)
               && n.homeMovesOut == m.homeMovesOut + (if !op.preferred && x.preferred && x.preferredSeen then 1 else 0))
      && (!op.Prefer? ==> n.homeMovesIn == m.homeMovesIn && n.homeMovesOut == m.homeMovesOut)
  {
    hide RegisteredSessions, RegisteredIndex, RoutedSessions, RoutedPaths, RoutedMesh, Snapshot, Enumerates,
      IndexRefs, RouteRefs, RouteAdded, RouteRemoved, MeshRemoved, PushAll, ActivityIndex, OutcomeOf,
      DetachedSessions, DetachedIndex, ErasedSessions, ErasedPaths, ErasedIndex, Departs, Members;
    if op.Unregister? {
      DetachedHandles(s, op.id);
    }
  }

  lemma SeenRegistered(s: State, info: Info, now: real, i: SessionId)
    requires Refs(s) && i in Registered(s, info, now).sessions
    ensures Registered(s, info, now).sessions[i].preferredSeen <==> i in s.sessions && s.sessions[i].preferredSeen
  {
    hide RegisterEmit, ActiveRefs, GroupRefs, RouteRefs, PushAll, Joined;
    assert s.index.nextId !in s.sessions;
  }

  lemma SeenUnregistered(s: State, id: SessionId, i: SessionId)
    requires Refs(s) && Live(s, id) && i in s.sessions
    ensures i in Unregistered(s, id).sessions
    ensures Unregistered(s, id).sessions[i].preferredSeen == s.sessions[i].preferredSeen
  {
    hide EraseEmit, DetachedIndex, DetachedStats, ErasedPaths, ErasedIndex, ActiveRefs, RouteRefs, Departs, Without,
      PushAll;
    DetachedHandles(s, id);
    var d, rest := Detached(s, id), Survivors(s, id);
    WithoutMembers(Members(s.index, s.sessions[id].info.key), id);
    assert |rest| == 1 ==> rest[0] in rest;
    assert d.sessions[i].preferredSeen == s.sessions[i].preferredSeen;
  }

  lemma SeenElse(s: State, op: Op, now: real, i: SessionId)
    requires Refs(s) && Enabled(s, op) && !op.Register? && !op.Unregister? && i in s.sessions
    ensures i in Step(s, op, now).sessions
    ensures Step(s, op, now).sessions[i].preferredSeen == (s.sessions[i].preferredSeen || (op.Prefer? && op.id == i))
  {
    hide Registered, Unregistered, RoutedPaths, RoutedMesh, RoutedStats, Snapshot, Enumerates, GroupRefs, RouteRefs,
      RouteAdded, RouteRemoved, MeshRemoved, PreferredStats, PushAll, ActivityIndex, FirstOpen, LooksLikeDisco,
      Members;
  }

  lemma RemembersStep(s: State, op: Op, now: real, i: SessionId, word: Option<bool>)
    requires Refs(s) && Enabled(s, op) && Live(Step(s, op, now), i)
    requires if i in s.sessions then Live(s, i) && Remembers(s.sessions[i], word) else word == None
    ensures i in Step(s, op, now).sessions
    ensures Remembers(Step(s, op, now).sessions[i], if op.Prefer? && op.id == i then Some(op.preferred) else word)
  {
    hide Step, Refs, Live, Enabled;
    LiveStored(Step(s, op, now), i);
    HandlesStep(s, op, now);
    if op.Register? {
      StepRegisters(s, op, now);
      SeenRegistered(s, op.info, now, i);
      PreferredRegister(s, op.info, now, i);
      FreshId(s);
    } else if op.Unregister? {
      StepUnregisters(s, op, now);
      LiveUnregister(s, op.id, i);
      SeenUnregistered(s, op.id, i);
      PreferredUnregister(s, op.id, i);
    } else {
      SeenElse(s, op, now, i);
      PreferredOther(s, op, now, i);
    }
  }

  /** Every live session's flags hold what it last said, and nobody speaks before registering. */
  lemma {:induction false} FlagsRemember(r: Run, n: nat, i: SessionId)
    requires IsRun(r) && n < |r.states|
    ensures i !in r.states[n].sessions ==> LastWord(r.ops[..n], i) == None
    ensures Live(r.states[n], i) ==>
              i in r.states[n].sessions && Remembers(r.states[n].sessions[i], LastWord(r.ops[..n], i))
  {
    hide Step, Refs, Live, Enabled, Remembers;
    LiveStored(r.states[n], i);
    if n == 0 {
      NoneLive(r.states[0], i);
    } else {
      var s, op, now := r.states[n - 1], r.ops[n - 1], r.times[n - 1];
      assert Next(s, op, now, r.states[n]);
      FlagsRemember(r, n - 1, i);
      assert r.ops[..n][..n - 1] == r.ops[..n - 1];
      HandlesStep(s, op, now);
      if op.Prefer? {
        PrefersLive(s, op);
      }
      if Live(r.states[n], i) {
        if i in s.sessions {
          LiveEarlier(s, op, now, i);
        }
        RemembersStep(s, op, now, i, LastWord(r.ops[..n - 1], i));
      }
    }
  }

  lemma NoneLive(s: State, i: SessionId)
    requires s == Init(s.depth)
    ensures !Live(s, i)
  {
  }

  lemma PrefersLive(s: State, op: Op)
    requires op.Prefer? && Enabled(s, op)
    ensures Live(s, op.id) && op.id in s.sessions
  {
  }

  lemma LiveEarlier(s: State, op: Op, now: real, i: SessionId)
    requires Refs(s) && Enabled(s, op) && i in s.sessions && Live(Step(s, op, now), i)
    ensures Live(s, i)
  {
    hide Step, Refs, Live, Enabled;
    if op.Register? {
      StepRegisters(s, op, now);
      LiveRegister(s, op.info, now, i);
      FreshId(s);
    } else if op.Unregister? {
      StepUnregisters(s, op, now);
      LiveUnregister(s, op.id, i);
    } else {
      LiveOther(s, op, now, i);
    }
  }

  lemma MovesOne(front: seq<Op>, op: Op)
    requires op.Prefer?
    ensures Moves(front + [op], op.preferred) ==
            Moves(front, op.preferred) + if LastWord(front, op.id) == Some(!op.preferred) then 1 else 0
    ensures Moves(front + [op], !op.preferred) == Moves(front, !op.preferred)
  {
    hide LastWord;
    assert (front + [op])[..|front + [op]| - 1] == front;
  }

  lemma WordIs(x: Session, word: Option<bool>)
    requires Remembers(x, word)
    ensures word == Some(false) <==> x.preferredSeen && !x.preferred
    ensures word == Some(true) <==> x.preferredSeen && x.preferred
  {
    if word.Some? {
      var w := word.value;
      if w {
        assert word == Some(true);
      } else {
        assert word == Some(false);
      }
    }
  }

  /** The home-move counters count, over the whole run, the sessions that changed their mind. */
  lemma {:induction false} HomeMovesCount(r: Run, n: nat)
    requires IsRun(r) && n < |r.states|
    ensures r.states[n].stats.homeMovesIn == Moves(r.ops[..n], true)
    ensures r.states[n].stats.homeMovesOut == Moves(r.ops[..n], false)
  {
    hide Step, Refs, Live, Enabled, LastWord;
    if n > 0 {
      var s, op, now := r.states[n - 1], r.ops[n - 1], r.times[n - 1];
      assert Next(s, op, now, r.states[n]);
      HomeMovesCount(r, n - 1);
      assert r.ops[..n][..n - 1] == r.ops[..n - 1];
      HomeStats(s, op, now);
      if op.Prefer? {
        PrefersLive(s, op);
        FlagsRemember(r, n - 1, op.id);
        MovesOne(r.ops[..n - 1], op);
        assert r.ops[..n] == r.ops[..n - 1] + [op];
        WordIs(s.sessions[op.id], LastWord(r.ops[..n - 1], op.id));
      }
    }
  }
}
