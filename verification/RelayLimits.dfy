/** How often a session is told that a destination is not here. */
module RelayLimits {
  import opened Types
  import opened RateLimit
  import opened RelayState
  import opened RelayIndex
  import opened RelayRuns
  import opened RelayFrames
  import opened RelayNotices
  import opened RelayForward

  predicate SaysNotHere(f: Frame) {
    f.PeerGone? && f.reason == NOT_HERE
  }

  function NotHeres(fs: seq<Frame>): nat {
    if fs == [] then 0 else NotHeres(fs[..|fs| - 1]) + if SaysNotHere(fs[|fs| - 1]) then 1 else 0
  }

  lemma {:induction false} NotHeresCat(fs: seq<Frame>, gs: seq<Frame>)
    ensures NotHeres(fs + gs) == NotHeres(fs) + NotHeres(gs)
    decreases |gs|
  {
    if gs == [] {
      assert fs + gs == fs;
    } else {
      assert (fs + gs)[..|fs + gs| - 1] == fs + gs[..|gs| - 1];
      NotHeresCat(fs, gs[..|gs| - 1]);
    }
  }

  lemma {:induction false} NotHeresNone(fs: seq<Frame>)
    requires forall i :: 0 <= i < |fs| ==> !SaysNotHere(fs[i])
    ensures NotHeres(fs) == 0
  {
    if fs != [] {
      NotHeresNone(fs[..|fs| - 1]);
    }
  }

  /** The session asks its limiter in this step. */
  predicate Asks(s: State, op: Op, i: SessionId)
    requires Refs(s)
  {
    op.Route? && op.source == i && OutcomeOf(s, op.p.dst, op.forwarded).Unreachable? && LooksLikeDisco(op.p.bytes)
  }

  lemma LimiterRegister(s: State, info: Info, now: real, i: SessionId)
    requires Refs(s) && i in Registered(s, info, now).sessions
    ensures Registered(s, info, now).sessions[i].limiter ==
            if i in s.sessions then s.sessions[i].limiter else NewLimiter(now)
  {
    hide RegisterEmit, ActiveRefs, GroupRefs, RouteRefs, PushAll, Joined;
  }

  lemma LimiterUnregister(s: State, id: SessionId, i: SessionId)
    requires Refs(s) && Live(s, id) && i in s.sessions
    ensures i in Unregistered(s, id).sessions && Unregistered(s, id).sessions[i].limiter == s.sessions[i].limiter
  {
    hide EraseEmit, DetachedIndex, DetachedStats, ErasedPaths, ErasedIndex, ActiveRefs, RouteRefs, Departs, Without,
      PushAll;
    DetachedHandles(s, id);
    var d, rest := Detached(s, id), Survivors(s, id);
    WithoutMembers(Members(s.index, s.sessions[id].info.key), id);
    assert |rest| == 1 ==> rest[0] in rest;
    assert d.sessions[i].limiter == s.sessions[i].limiter;
  }

  lemma LimiterStep(s: State, op: Op, now: real, i: SessionId)
    requires Refs(s) && Enabled(s, op) && i in s.sessions
    ensures i in Step(s, op, now).sessions
    ensures Step(s, op, now).sessions[i].limiter ==
            if Asks(s, op, i) then AfterAsk(s.sessions[i].limiter, now) else s.sessions[i].limiter
  {
    hide Registered, Unregistered, RoutedPaths, RoutedMesh, RoutedStats, Snapshot, Enumerates, GroupRefs, RouteRefs,
      RouteAdded, RouteRemoved, MeshRemoved, PreferredStats, PushAll, ActivityIndex, FirstOpen, LooksLikeDisco,
      AfterAsk, Allows;
    match op
    case Register(info) =>
      RegisteredHandles(s, info, now);
      LimiterRegister(s, info, now, i);
    case Unregister(id) => LimiterUnregister(s, id, i);
    case _ =>
  }

  lemma NotHereEmitted(s: State, op: Op, now: real, i: SessionId)
    requires Refs(s) && Enabled(s, op) && i in s.sessions
    ensures NotHeres(Emit(s, op, now, i)) == if Asks(s, op, i) && Allows(s.sessions[i].limiter, now) then 1 else 0
  {
    hide Detached, Snapshot, Enumerates, ActiveRefs, GroupRefs, RouteRefs, HeardFrom, Survivors, RegisterEmit, Allows,
      FirstOpen;
    var fs := Emit(s, op, now, i);
    match op
    case Register(info) =>
      RegisterEmits(s.index, info, i);
      assert forall j :: 0 <= j < |fs| ==> fs[j] in RegisterEmit(s.index, info, i);
      NotHeresNone(fs);
    case Watch(_, order) =>
      SnapshotFrames(s, order);
      assert forall j :: 0 <= j < |fs| ==> fs[j] in Snapshot(s, order);
      NotHeresNone(fs);
    case Route(_, _, _) =>
      assert fs != [] ==> fs == [fs[0]] && fs[..0] == [];
    case _ => NotHeresNone(fs);
  }

  function NotHereCount(x: Session): nat {
    NotHeres(FramesOf(x.box.offers))
  }

  /** One step pays for each notice with a token of the session's limiter. */
  lemma NoticesCostTokens(s: State, op: Op, before: real, now: real, i: SessionId)
    requires Refs(s) && Enabled(s, op) && i in s.sessions
    requires LimiterOk(s.sessions[i].limiter) && s.sessions[i].limiter.updated <= before <= now
    ensures var x, t := s.sessions[i], Step(s, op, now);
      && i in t.sessions
      && LimiterOk(t.sessions[i].limiter) && t.sessions[i].limiter.updated <= now
      && NotHereCount(t.sessions[i]) as real + Available(t.sessions[i].limiter, now)
           <= NotHereCount(x) as real + Available(x.limiter, before) + PER_SECOND * (now - before)
  {
    hide Step, Emit, Enabled, Refs, Asks, FramesOf;
    LimiterStep(s, op, now, i);
    OffersGrow(s, op, now, i);
    NotHereEmitted(s, op, now, i);
    NotHeresCat(FramesOf(s.sessions[i].box.offers), Emit(s, op, now, i));
    AskStep(s.sessions[i].limiter, before, now);
  }

  predicate Clocked(times: seq<real>) {
    forall i, j :: 0 <= i <= j < |times| ==> times[i] <= times[j]
  }

  /** Every limiter holds between 0 and 3 tokens and was last asked before the next step. */
  lemma {:induction false} LimitersOk(r: Run, n: nat, i: SessionId)
    requires IsRun(r) && Clocked(r.times) && n < |r.states| && i in r.states[n].sessions
    ensures LimiterOk(r.states[n].sessions[i].limiter)
    ensures n > 0 && r.states[n].sessions[i].limiter.updated <= r.times[n - 1]
  {
    hide Enabled, Refs;
    if n == 0 {
      assert false;
    } else {
      var s, op, now := r.states[n - 1], r.ops[n - 1], r.times[n - 1];
      assert Next(s, op, now, r.states[n]);
      if i in s.sessions {
        LimitersOk(r, n - 1, i);
        NoticesCostTokens(s, op, r.times[n - 2], now, i);
      } else {
        HandlesStep(s, op, now);
        NewLimiterOk(s, op, now, i);
      }
    }
  }

  lemma NewLimiterOk(s: State, op: Op, now: real, i: SessionId)
    requires Refs(s) && Enabled(s, op) && op.Register? && i in Step(s, op, now).sessions && i !in s.sessions
    ensures Step(s, op, now).sessions[i].limiter == NewLimiter(now)
  {
    LimiterRegister(s, op.info, now, i);
  }

  lemma {:induction false} NoticePotential(r: Run, m: nat, n: nat, i: SessionId)
    requires IsRun(r) && Clocked(r.times) && m < n < |r.states| && i in r.states[m].sessions
    ensures i in r.states[n].sessions
    ensures NotHereCount(r.states[n].sessions[i]) as real + Available(r.states[n].sessions[i].limiter, r.times[n - 1])
         <= NotHereCount(r.states[m].sessions[i]) as real + CAPACITY + PER_SECOND * (r.times[n - 1] - r.times[m])
    decreases n
  {
    hide Step, Enabled, Refs, NotHereCount;
    var s, op, now := r.states[n - 1], r.ops[n - 1], r.times[n - 1];
    assert Next(s, op, now, r.states[n]);
    if m == n - 1 {
      LimitersOk(r, m, i);
      NoticesCostTokens(s, op, now, now, i);
    } else {
      NoticePotential(r, m, n - 1, i);
      LimitersOk(r, n - 1, i);
      NoticesCostTokens(s, op, r.times[n - 2], now, i);
    }
  }

  /** In any window of `span` seconds a session is offered at most 3 + 3 * span PeerGone(NotHere) frames. */
  lemma NotHereRate(r: Run, m: nat, n: nat, i: SessionId, span: real)
    requires IsRun(r) && Clocked(r.times) && m < n < |r.states| && i in r.states[m].sessions
    requires r.times[n - 1] - r.times[m] <= span
    ensures i in r.states[n].sessions
    ensures (NotHereCount(r.states[n].sessions[i]) - NotHereCount(r.states[m].sessions[i])) as real
         <= 3.0 + 3.0 * span
  {
    hide IsRun, NotHereCount;
    NoticePotential(r, m, n, i);
    LimitersOk(r, n, i);
  }

  // ---------------------------------------------------------------- exactly which packets are answered

  /** This step drops a disco packet of session i: its destination is not connected, and it came forwarded or no mesh
      route has room. */
  predicate LosesDisco(s: State, op: Op, i: SessionId) {
    && op.Route? && op.source == i && Disco(op.p.bytes) && op.p.dst !in s.index.active
    && (op.forwarded || NoRoom(s.mesh, op.p.dst))
  }

  lemma AsksIff(s: State, op: Op, i: SessionId)
    requires Refs(s)
    ensures Asks(s, op, i) <==> LosesDisco(s, op, i)
  {
    hide IndexRefs, RouteRefs, FirstOpen, LooksLikeDisco, Disco, NoRoom, CanTake;
    if op.Route? {
      DiscoIs(op.p.bytes);
      var k := op.p.dst;
      if NoRoom(s.mesh, k) {
        NoRoomAt(s.mesh, k);
      } else {
        var j := SomeRoom(s.mesh, k);
        var n := FirstExists(s.mesh, k, j);
        FirstOpenAt(s.mesh, s.mesh.routes[k], n);
      }
      assert ActiveRefs(s.index.active, s.sessions) by { IndexPart(s); }
    }
  }

  lemma NoRoomAt(mesh: Mesh, k: NodeKey)
    requires NoRoom(mesh, k)
    ensures FirstOpen(mesh.channels, RoutesTo(mesh, k)) == None
  {
    hide HasRoom;
    NothingOpen(mesh, RoutesTo(mesh, k));
  }

  lemma IndexPart(s: State)
    requires Refs(s)
    ensures ActiveRefs(s.index.active, s.sessions)
  {
  }

  /** The step that registered session i. */
  function RegisteredAt(r: Run, n: nat, i: SessionId): (q: nat)
    requires n < |r.states|
    ensures n > 0 ==> q < n
  {
    if n == 0 then 0 else if i in r.states[n - 1].sessions then RegisteredAt(r, n - 1, i) else n - 1
  }

  /** When session i lost disco packets before state n. */
  function LossTimes(r: Run, n: nat, i: SessionId): seq<real>
    requires |r.states| == |r.ops| + 1 == |r.times| + 1 && n < |r.states|
  {
    if n == 0 then []
    else
      LossTimes(r, n - 1, i)
      + if i in r.states[n - 1].sessions && LosesDisco(r.states[n - 1], r.ops[n - 1], i) then [r.times[n - 1]] else []
  }

  /** The limiter of a session is a new one that was asked at each of its losses, and every grant was a notice. */
  lemma {:induction false} LimiterIs(r: Run, n: nat, i: SessionId)
    requires IsRun(r) && Clocked(r.times) && n < |r.states| && i in r.states[n].sessions
    ensures var q, losses := RegisteredAt(r, n, i), LossTimes(r, n, i);
      && q < n && i in r.states[q + 1].sessions && i !in r.states[q].sessions
      && (forall j :: 0 <= j < |losses| ==> losses[j] <= r.times[n - 1])
      && Chronological(r.times[q], losses)
      && r.states[n].sessions[i].limiter == AskAll(NewLimiter(r.times[q]), losses)
      && NotHereCount(r.states[n].sessions[i]) == Grants(NewLimiter(r.times[q]), losses)
  {
    hide Step, Enabled, Refs, Asks, LosesDisco, Emit, AskAll, Grants, NotHereCount, AfterAsk, Allows;
    if n == 0 {
      assert false;
    } else {
      var s, op, now := r.states[n - 1], r.ops[n - 1], r.times[n - 1];
      assert Next(s, op, now, r.states[n]);
      if i in s.sessions {
        LimiterIs(r, n - 1, i);
        LimiterStep(s, op, now, i);
        AsksIff(s, op, i);
        CountStep(s, op, now, i);
        var l, before := NewLimiter(r.times[RegisteredAt(r, n - 1, i)]), LossTimes(r, n - 1, i);
        AskOne(l, before, now);
        assert before + [] == before;
      } else {
        HandlesStep(s, op, now);
        NewLimiterOk(s, op, now, i);
        NewCount(s, op, now, i);
        NoLosses(r, n - 1, i);
        AskNone(NewLimiter(now));
      }
    }
  }

  lemma AskOne(l: Limiter, asks: seq<real>, now: real)
    ensures AskAll(l, asks + [now]) == AfterAsk(AskAll(l, asks), now)
    ensures Grants(l, asks + [now]) == Grants(l, asks) + if Allows(AskAll(l, asks), now) then 1 else 0
  {
    assert (asks + [now])[..|asks + [now]| - 1] == asks;
  }

  lemma AskNone(l: Limiter)
    ensures AskAll(l, []) == l && Grants(l, []) == 0
  {
  }

  lemma CountStep(s: State, op: Op, now: real, i: SessionId)
    requires Refs(s) && Enabled(s, op) && i in s.sessions
    ensures i in Step(s, op, now).sessions
    ensures NotHereCount(Step(s, op, now).sessions[i]) ==
            NotHereCount(s.sessions[i]) + if Asks(s, op, i) && Allows(s.sessions[i].limiter, now) then 1 else 0
  {
    hide Step, Emit, Enabled, Refs, Asks, FramesOf, Allows;
    OffersGrow(s, op, now, i);
    NotHereEmitted(s, op, now, i);
    NotHeresCat(FramesOf(s.sessions[i].box.offers), Emit(s, op, now, i));
  }

  lemma NewCount(s: State, op: Op, now: real, i: SessionId)
    requires Refs(s) && Enabled(s, op) && op.Register? && i in Step(s, op, now).sessions && i !in s.sessions
    ensures NotHereCount(Step(s, op, now).sessions[i]) == 0
  {
    hide Registered, RegisterEmit, ActiveRefs, GroupRefs, RouteRefs;
    RegisteredHandles(s, op.info, now);
    var fs := RegisterEmit(s.index, op.info, i);
    RegisterBoxes(s, op.info, now, i);
    PushAllFrames(Mailbox([], false, [], []), fs, s.depth);
    RegisterEmits(s.index, op.info, i);
    assert forall j :: 0 <= j < |fs| ==> fs[j] in fs;
    NotHeresNone(fs);
    assert FramesOf([]) == [] && [] + fs == fs;
    assert FramesOf(Registered(s, op.info, now).sessions[i].box.offers) == fs;
  }

  lemma {:induction false} NoLosses(r: Run, n: nat, i: SessionId)
    requires IsRun(r) && n < |r.states| && i !in r.states[n].sessions
    ensures LossTimes(r, n, i) == []
  {
    hide Step, Enabled, Refs, LosesDisco;
    if n > 0 {
      assert Next(r.states[n - 1], r.ops[n - 1], r.times[n - 1], r.states[n]);
      HandlesStep(r.states[n - 1], r.ops[n - 1], r.times[n - 1]);
      NoLosses(r, n - 1, i);
    }
  }

  /** The j-th loss and the step it came from. */
  lemma {:induction false} LossStep(r: Run, n: nat, i: SessionId, j: nat) returns (m: nat)
    requires IsRun(r) && n < |r.states| && j < |LossTimes(r, n, i)|
    ensures m < n && i in r.states[m].sessions && LosesDisco(r.states[m], r.ops[m], i)
    ensures r.times[m] == LossTimes(r, n, i)[j] && LossTimes(r, m, i) == LossTimes(r, n, i)[..j]
  {
    hide Next, LosesDisco;
    var before := LossTimes(r, n - 1, i);
    if j < |before| {
      m := LossStep(r, n - 1, i, j);
      assert LossTimes(r, n, i)[..j] == before[..j];
    } else {
      m := n - 1;
      assert LossTimes(r, n, i)[..j] == before;
    }
  }

  lemma {:induction false} StepLoss(r: Run, n: nat, i: SessionId, m: nat) returns (j: nat)
    requires IsRun(r) && m < n < |r.states| && i in r.states[m].sessions && LosesDisco(r.states[m], r.ops[m], i)
    ensures j < |LossTimes(r, n, i)| && r.times[m] == LossTimes(r, n, i)[j]
    ensures LossTimes(r, m, i) == LossTimes(r, n, i)[..j]
    decreases n
  {
    hide Next, LosesDisco;
    var before := LossTimes(r, n - 1, i);
    if m < n - 1 {
      j := StepLoss(r, n - 1, i, m);
      assert LossTimes(r, n, i)[..j] == before[..j];
    } else {
      j := |before|;
      assert LossTimes(r, n, i)[..j] == before;
    }
  }

  /** One more notice at step n would keep the session's notices since step m within 3 + 3 a second. */
  predicate Spaced(r: Run, m: nat, n: nat, i: SessionId)
    requires m < |r.times| && n < |r.times| && m < |r.states| && n < |r.states|
  {
    i in r.states[m].sessions && i in r.states[n].sessions ==>
      1.0 + NotHereCount(r.states[n].sessions[i]) as real - NotHereCount(r.states[m].sessions[i]) as real
        <= 3.0 + 3.0 * (r.times[n] - r.times[m])
  }

  /** Exactly which packets are answered with PeerGone(NotHere): step n offers session i such a frame if and only if it
      drops a disco packet of that session, and the notices since the session's registration and since each of its
      earlier losses stay within 3 + 3 a second with this one. */
  lemma AnsweredIff(r: Run, n: nat, i: SessionId)
    requires IsRun(r) && Clocked(r.times) && n < |r.ops| && i in r.states[n].sessions
    ensures i in r.states[n + 1].sessions && RegisteredAt(r, n, i) < n
    ensures NotHereCount(r.states[n + 1].sessions[i]) == NotHereCount(r.states[n].sessions[i]) + 1 <==>
            && LosesDisco(r.states[n], r.ops[n], i)
            && 1.0 + NotHereCount(r.states[n].sessions[i]) as real
                 <= 3.0 + 3.0 * (r.times[n] - r.times[RegisteredAt(r, n, i)])
            && forall m :: 0 <= m < n && i in r.states[m].sessions && LosesDisco(r.states[m], r.ops[m], i) ==>
                 Spaced(r, m, n, i)
    ensures NotHereCount(r.states[n + 1].sessions[i]) <= NotHereCount(r.states[n].sessions[i]) + 1
  {
    hide Step, Enabled, Refs, Asks, LosesDisco, Emit, AskAll, Grants, NotHereCount, Allows, LossTimes, RegisteredAt;
    var s, op, now := r.states[n], r.ops[n], r.times[n];
    assert Next(s, op, now, r.states[n + 1]);
    LimiterIs(r, n, i);
    CountStep(s, op, now, i);
    AsksIff(s, op, i);
    var q, losses := RegisteredAt(r, n, i), LossTimes(r, n, i);
    var l := NewLimiter(r.times[q]);
    assert Chronological(l.updated, losses + [now]);
    GrantedIff(l, losses, now);
    forall m | 0 <= m < n && i in r.states[m].sessions && LosesDisco(r.states[m], r.ops[m], i)
      ensures Allows(AskAll(l, losses), now) ==> Spaced(r, m, n, i)
    {
      var j := StepLoss(r, n, i, m);
      CountAt(r, m, n, i);
    }
    if forall m :: 0 <= m < n && i in r.states[m].sessions && LosesDisco(r.states[m], r.ops[m], i) ==>
        Spaced(r, m, n, i) {
      forall j | 0 <= j < |losses|
        ensures 1.0 + Grants(l, losses) as real - Grants(l, losses[..j]) as real <= 3.0 + 3.0 * (now - losses[j])
      {
        var m := LossStep(r, n, i, j);
        CountAt(r, m, n, i);
        assert Spaced(r, m, n, i);
      }
    }
  }

  lemma {:induction false} SameRegistration(r: Run, m: nat, n: nat, i: SessionId)
    requires IsRun(r) && m <= n < |r.states| && i in r.states[m].sessions
    ensures RegisteredAt(r, m, i) == RegisteredAt(r, n, i)
    decreases n
  {
    hide Step, Enabled, Refs;
    if m < n {
      SameRegistration(r, m, n - 1, i);
      Stays(r, m, n - 1, i);
    }
  }

  lemma {:induction false} Stays(r: Run, m: nat, n: nat, i: SessionId)
    requires IsRun(r) && m <= n < |r.states| && i in r.states[m].sessions
    ensures i in r.states[n].sessions
    decreases n
  {
    hide Step, Enabled, Refs;
    if m < n {
      Stays(r, m, n - 1, i);
      assert Next(r.states[n - 1], r.ops[n - 1], r.times[n - 1], r.states[n]);
      HandlesStep(r.states[n - 1], r.ops[n - 1], r.times[n - 1]);
    }
  }

  lemma CountAt(r: Run, m: nat, n: nat, i: SessionId)
    requires IsRun(r) && Clocked(r.times) && m < n < |r.states| && i in r.states[m].sessions
    ensures NotHereCount(r.states[m].sessions[i])
         == Grants(NewLimiter(r.times[RegisteredAt(r, n, i)]), LossTimes(r, m, i))
  {
    hide IsRun, NotHereCount, Grants, AskAll, LossTimes, RegisteredAt;
    SameRegistration(r, m, n, i);
    LimiterIs(r, m, i);
  }

  /** The first three disco packets that a session loses are answered, each with the key that was not here. */
  lemma FirstThreeAnswered(r: Run, n: nat, i: SessionId)
    requires IsRun(r) && Clocked(r.times) && n < |r.ops| && i in r.states[n].sessions
    requires LosesDisco(r.states[n], r.ops[n], i) && |LossTimes(r, n, i)| < 3
    ensures i in r.states[n + 1].sessions
    ensures FramesOf(r.states[n + 1].sessions[i].box.offers) ==
            FramesOf(r.states[n].sessions[i].box.offers) + [PeerGone(r.ops[n].p.dst, 1)]
  {
    hide Step, Enabled, Refs, LosesDisco, AskAll, Grants, NotHereCount, Allows, LossTimes, RegisteredAt, FramesOf,
      Emit;
    var s, op, now := r.states[n], r.ops[n], r.times[n];
    assert Next(s, op, now, r.states[n + 1]);
    LimiterIs(r, n, i);
    var q, losses := RegisteredAt(r, n, i), LossTimes(r, n, i);
    assert Chronological(r.times[q], losses + [now]);
    FirstThreeGranted(r.times[q], losses, now);
    AsksIff(s, op, i);
    OffersGrow(s, op, now, i);
    AnswerEmitted(s, op, now, i);
  }

  lemma AnswerEmitted(s: State, op: Op, now: real, i: SessionId)
    requires Refs(s) && Enabled(s, op) && i in s.sessions && Asks(s, op, i) && Allows(s.sessions[i].limiter, now)
    ensures Emit(s, op, now, i) == [PeerGone(op.p.dst, 1)]
  {
    hide IndexRefs, RouteRefs, FirstOpen, Allows, LooksLikeDisco;
  }
}
