/** Every interleaving of a split `unregister`, registrations of the departing key between its halves included:
    exactly which sessions lose their place in the indexes. */
module RelayHalves {
  import opened Types
  import opened RelayState
  import opened RelayIndex

  /** `half` holds the sessions that emptied their key's set and whose second half is still to come. */
  datatype Loose = Loose(s: State, half: set<SessionId>)

  predicate LooseEnabled(c: Loose, op: SplitOp) {
    match op
    case Whole(o) => Enabled(c.s, o) && !o.Unregister?
    case Detach(id) => Live(c.s, id)
    case Erase(id) => id in c.s.sessions && id in c.half
  }

  function LooseStep(c: Loose, op: SplitOp, now: real): Loose
    requires Refs(c.s) && LooseEnabled(c, op)
  {
    match op
    case Whole(o) => Loose(Step(c.s, o, now), c.half)
    case Detach(id) =>
      if Departs(c.s, id) then Loose(Detached(c.s, id), c.half + {id})
      else Loose(OneClientLess(Detached(c.s, id)), c.half)
    case Erase(id) => Loose(OneClientLess(Erased(c.s, id)), c.half - {id})
  }

  datatype LooseRun = LooseRun(cs: seq<Loose>, ops: seq<SplitOp>, times: seq<real>)

  predicate LooseNext(c: Loose, op: SplitOp, now: real, d: Loose) {
    Refs(c.s) && LooseEnabled(c, op) && d == LooseStep(c, op, now)
  }

  predicate IsLooseRun(r: LooseRun) {
    && |r.cs| == |r.ops| + 1 == |r.times| + 1
    && r.cs[0] == Loose(Init(r.cs[0].s.depth), {})
    && forall i :: 0 <= i < |r.ops| ==> LooseNext(r.cs[i], r.ops[i], r.times[i], r.cs[i + 1])
  }

  /** Erasing a key takes every live session of it out of the indexes, whoever registered it. */
  predicate Hits(c: Loose, op: SplitOp, j: SessionId) {
    op.Erase? && op.id in c.s.sessions && Live(c.s, j) && c.s.sessions[j].info.key == c.s.sessions[op.id].info.key
  }

  lemma LiveDetached(s: State, id: SessionId, j: SessionId)
    requires Refs(s) && Live(s, id)
    ensures Live(Detached(s, id), j) <==> Live(s, j) && j != id
  {
    hide DetachedSessions, DetachedStats, RouteRefs, ActiveRefs, Without;
    DetachedHandles(s, id);
    WithoutMembers(Members(s.index, s.sessions[id].info.key), id);
  }

  lemma LiveErased(s: State, id: SessionId, j: SessionId)
    requires Refs(s) && id in s.sessions
    ensures Live(Erased(s, id), j) <==> Live(s, j) && s.sessions[j].info.key != s.sessions[id].info.key
  {
    hide ErasedSessions, ErasedPaths, IndexRefs, RouteRefs;
    RefsErased(s, id);
  }

  lemma SameLife(s: State, t: State, j: SessionId)
    requires t == OneClientLess(s)
    ensures Live(t, j) <==> Live(s, j)
  {
  }

  /** Which sessions are live after a step: the newcomer too, not the detached one, and none of an erased key. */
  lemma LiveStep(c: Loose, op: SplitOp, now: real, j: SessionId)
    requires Refs(c.s) && LooseEnabled(c, op)
    ensures Live(LooseStep(c, op, now).s, j) <==>
            || (Live(c.s, j) && op != Detach(j) && !Hits(c, op, j))
            || (op.Whole? && op.op.Register? && j == c.s.index.nextId)
  {
    hide Step, Refs, Detached, Erased, Live, Enabled, Departs;
    match op
    case Whole(o) =>
      if o.Register? {
        StepRegisters(c.s, o, now);
        LiveRegister(c.s, o.info, now, j);
      } else {
        LiveOther(c.s, o, now, j);
      }
    case Detach(id) =>
      LiveStored(c.s, id);
      LiveDetached(c.s, id, j);
      SameLife(Detached(c.s, id), OneClientLess(Detached(c.s, id)), j);
    case Erase(id) =>
      LiveErased(c.s, id, j);
      LiveStored(c.s, j);
      SameLife(Erased(c.s, id), OneClientLess(Erased(c.s, id)), j);
  }

  /** Handles only come by registration, and keep what they were registered with. */
  lemma StoredStep(c: Loose, op: SplitOp, now: real)
    requires Refs(c.s) && LooseEnabled(c, op)
    ensures var d := LooseStep(c, op, now);
      && d.s.sessions.Keys == c.s.sessions.Keys + (if op.Whole? && op.op.Register? then {c.s.index.nextId} else {})
      && (forall j :: j in c.s.sessions ==> d.s.sessions[j].info == c.s.sessions[j].info)
      && (op.Whole? && op.op.Register? ==>
            && c.s.index.nextId !in c.s.sessions
            && d.s.sessions[c.s.index.nextId].info == op.op.info)
  {
    hide Step, Detached, Erased, Enabled, Departs, ActiveRefs, GroupRefs, RouteRefs;
    match op
    case Whole(o) => HandlesStep(c.s, o, now);
    case Detach(id) => DetachedHandles(c.s, id);
    case Erase(id) => RefsErased(c.s, id);
  }

  // ---------------------------------------------------------------- over whole runs

  predicate DetachedBefore(r: LooseRun, n: nat, j: SessionId)
    requires n <= |r.ops|
  {
    exists i :: 0 <= i < n && r.ops[i] == Detach(j)
  }

  /** Every session that was registered and not detached has its place in the indexes. */
  predicate AllKept(r: LooseRun, n: nat)
    requires n < |r.cs| && n <= |r.ops|
  {
    forall j :: j in r.cs[n].s.sessions && !DetachedBefore(r, n, j) ==> Live(r.cs[n].s, j)
  }

  /** Some step before n erases a key of which a session is live. */
  ghost predicate ErasesLive(r: LooseRun, n: nat)
    requires n <= |r.ops| && |r.cs| == |r.ops| + 1
  {
    exists i, j :: 0 <= i < n && Hits(r.cs[i], r.ops[i], j)
  }

  lemma DetachedMore(r: LooseRun, n: nat, j: SessionId)
    requires n < |r.ops|
    ensures DetachedBefore(r, n + 1, j) <==> DetachedBefore(r, n, j) || r.ops[n] == Detach(j)
  {
    if DetachedBefore(r, n, j) {
      var i :| 0 <= i < n && r.ops[i] == Detach(j);
      assert 0 <= i < n + 1 && r.ops[i] == Detach(j);
    }
    if r.ops[n] == Detach(j) {
      assert DetachedBefore(r, n + 1, j);
    }
  }

  /** A live session was not detached: a handle has one `unregister`. */
  lemma {:induction false} DetachedIsGone(r: LooseRun, n: nat, j: SessionId)
    requires IsLooseRun(r) && n < |r.cs|
    ensures DetachedBefore(r, n, j) ==> j in r.cs[n].s.sessions && !Live(r.cs[n].s, j)
  {
    hide LooseStep, Live, Refs;
    if n > 0 {
      var c, op := r.cs[n - 1], r.ops[n - 1];
      DetachedIsGone(r, n - 1, j);
      DetachedMore(r, n - 1, j);
      assert LooseNext(c, op, r.times[n - 1], r.cs[n]);
      LiveStep(c, op, r.times[n - 1], j);
      StoredStep(c, op, r.times[n - 1]);
      LiveStored(c.s, j);
    }
  }

  lemma KeptStep(r: LooseRun, n: nat)
    requires IsLooseRun(r) && n < |r.ops| && AllKept(r, n)
    requires var c, op := r.cs[n], r.ops[n]; forall j :: !Hits(c, op, j)
    ensures AllKept(r, n + 1)
  {
    hide LooseStep, Live, Hits, Refs, DetachedBefore;
    var c, op, d := r.cs[n], r.ops[n], r.cs[n + 1];
    assert LooseNext(c, op, r.times[n], d);
    StoredStep(c, op, r.times[n]);
    forall j | j in d.s.sessions && !DetachedBefore(r, n + 1, j) ensures Live(d.s, j) {
      DetachedMore(r, n, j);
      LiveStep(c, op, r.times[n], j);
    }
  }

  lemma LostStep(r: LooseRun, n: nat, j: SessionId)
    requires IsLooseRun(r) && n < |r.ops| && Hits(r.cs[n], r.ops[n], j)
    ensures !AllKept(r, n + 1)
    ensures j in r.cs[n + 1].s.sessions && !DetachedBefore(r, n + 1, j) && !Live(r.cs[n + 1].s, j)
  {
    hide LooseStep, Live, Refs, DetachedBefore;
    assert LooseNext(r.cs[n], r.ops[n], r.times[n], r.cs[n + 1]);
    StoredStep(r.cs[n], r.ops[n], r.times[n]);
    LiveStored(r.cs[n].s, j);
    DetachedIsGone(r, n, j);
    DetachedMore(r, n, j);
    LiveStep(r.cs[n], r.ops[n], r.times[n], j);
  }

  /** In every interleaving: up to state n every registered and not detached session has always had its place, if
      and only if no second half ran while a session of its key was live. */
  lemma {:induction false} KeptIff(r: LooseRun, n: nat)
    requires IsLooseRun(r) && n < |r.cs|
    ensures (forall m :: 0 <= m <= n ==> AllKept(r, m)) <==> !ErasesLive(r, n)
  {
    hide LooseNext, Live, Hits, AllKept;
    if n == 0 {
      assert AllKept(r, 0) by { InitKept(r); }
    } else {
      KeptIff(r, n - 1);
      if ErasesLive(r, n) {
        var i, j :| 0 <= i < n && Hits(r.cs[i], r.ops[i], j);
        LostStep(r, i, j);
        assert 0 <= i + 1 <= n && !AllKept(r, i + 1);
      } else {
        var c, op := r.cs[n - 1], r.ops[n - 1];
        assert forall j :: !Hits(c, op, j);
        KeptStep(r, n - 1);
      }
    }
  }

  lemma InitKept(r: LooseRun)
    requires IsLooseRun(r)
    ensures AllKept(r, 0)
  {
  }

  // ---------------------------------------------------------------- who can be hit

  /** Step i is the first half, leaving the key of session id without a session. */
  predicate HalfAt(r: LooseRun, i: nat, id: SessionId)
    requires i < |r.ops| && |r.cs| == |r.ops| + 1
  {
    r.ops[i] == Detach(id) && id in r.cs[i].s.sessions && Departs(r.cs[i].s, id)
  }

  lemma {:induction false} HalfSince(r: LooseRun, n: nat, id: SessionId) returns (i: nat)
    requires IsLooseRun(r) && n < |r.cs| && id in r.cs[n].half
    ensures i < n && HalfAt(r, i, id)
  {
    hide Step, Live, Refs, Detached, Erased, Departs, Enabled;
    if n == 0 {
      assert false;
    } else {
      var c, op := r.cs[n - 1], r.ops[n - 1];
      assert LooseNext(c, op, r.times[n - 1], r.cs[n]);
      if id in c.half {
        i := HalfSince(r, n - 1, id);
      } else {
        i := n - 1;
        LiveStored(c.s, id);
      }
    }
  }

  lemma {:induction false} StoredSince(r: LooseRun, i: nat, n: nat, j: SessionId)
    requires IsLooseRun(r) && i <= n < |r.cs| && j in r.cs[i].s.sessions
    ensures j in r.cs[n].s.sessions && r.cs[n].s.sessions[j].info == r.cs[i].s.sessions[j].info
    ensures Live(r.cs[n].s, j) ==> Live(r.cs[i].s, j)
    decreases n
  {
    hide LooseStep, Live, Hits, Refs;
    if i < n {
      StoredSince(r, i, n - 1, j);
      assert LooseNext(r.cs[n - 1], r.ops[n - 1], r.times[n - 1], r.cs[n]);
      StoredStep(r.cs[n - 1], r.ops[n - 1], r.times[n - 1]);
      LiveStep(r.cs[n - 1], r.ops[n - 1], r.times[n - 1], j);
    }
  }

  /** A session that is new since state i was registered in between. */
  lemma {:induction false} RegisteredSince(r: LooseRun, i: nat, n: nat, j: SessionId) returns (q: nat)
    requires IsLooseRun(r) && i <= n < |r.cs| && j !in r.cs[i].s.sessions && j in r.cs[n].s.sessions
    ensures i <= q < n && r.ops[q] == Whole(Register(r.cs[n].s.sessions[j].info)) && r.cs[q].s.index.nextId == j
    decreases n
  {
    hide LooseStep, Live, Refs;
    if i == n {
      assert false;
    } else {
      assert LooseNext(r.cs[n - 1], r.ops[n - 1], r.times[n - 1], r.cs[n]);
      StoredStep(r.cs[n - 1], r.ops[n - 1], r.times[n - 1]);
      if j in r.cs[n - 1].s.sessions {
        q := RegisteredSince(r, i, n - 1, j);
      } else {
        q := n - 1;
      }
    }
  }

  lemma NobodyLeft(s: State, id: SessionId, j: SessionId)
    requires Refs(s) && Live(s, id) && Departs(s, id) && j in s.sessions && s.sessions[j].info.key ==
            s.sessions[id].info.key
    ensures !Live(Detached(s, id), j)
  {
    hide DetachedSessions, DetachedStats, RouteRefs, ActiveRefs, Without;
    DetachedHandles(s, id);
  }

  /** Whatever runs in between, the second half erases exactly the newcomers: a session that is live when the second
      half of its key's departure runs was registered between the two halves, is in neither index afterwards, and
      was never unregistered. */
  lemma RegisterBetweenHalvesIsErased(r: LooseRun, n: nat, j: SessionId) returns (i: nat, q: nat)
    requires IsLooseRun(r) && n < |r.ops| && Hits(r.cs[n], r.ops[n], j)
    ensures i < q < n && HalfAt(r, i, r.ops[n].id)
    ensures j in r.cs[n].s.sessions
    ensures r.ops[q] == Whole(Register(r.cs[n].s.sessions[j].info)) && r.cs[q].s.index.nextId == j
    ensures j in r.cs[n + 1].s.sessions && !DetachedBefore(r, n + 1, j) && !Live(r.cs[n + 1].s, j)
    ensures var k, x := r.cs[n].s.sessions[j].info.key, r.cs[n + 1].s.index; k !in x.peers && k !in x.active
  {
    hide Step, Live, Refs, Detached, ErasedSessions, ErasedPaths, Departs, Enabled, DetachedBefore;
    var id := r.ops[n].id;
    assert LooseNext(r.cs[n], r.ops[n], r.times[n], r.cs[n + 1]);
    LostStep(r, n, j);
    LiveStored(r.cs[n].s, j);
    i := HalfSince(r, n, id);
    assert LooseNext(r.cs[i], r.ops[i], r.times[i], r.cs[i + 1]);
    StoredSince(r, i, n, id);
    if j in r.cs[i + 1].s.sessions {
      StoredStep(r.cs[i], r.ops[i], r.times[i]);
      StoredSince(r, i + 1, n, j);
      NobodyLeft(r.cs[i].s, id, j);
      assert false;
    }
    q := RegisteredSince(r, i + 1, n, j);
  }

  /** What `IsLooseRun` asks of its states holds of all of them, the last included. */
  lemma {:induction false} LooseRefs(r: LooseRun, n: nat)
    requires IsLooseRun(r) && n < |r.cs|
    ensures Refs(r.cs[n].s)
  {
    hide Step, Detached, Erased, Enabled, Departs, IndexRefs, RouteRefs, Live;
    if n == 0 {
      InitAgrees(r.cs[0].s.depth);
    } else {
      var c, op := r.cs[n - 1], r.ops[n - 1];
      assert LooseNext(c, op, r.times[n - 1], r.cs[n]);
      match op
      case Whole(o) => RefsStep(c.s, o, r.times[n - 1]);
      case Detach(id) =>
        LiveStored(c.s, id);
        RefsDetached(c.s, id);
      case Erase(id) => RefsErased(c.s, id);
    }
  }

  lemma OnlyOne(depth: nat, info: Info, now: real)
    ensures Refs(Init(depth)) && var s := Registered(Init(depth), info, now);
      && Refs(s) && s.index.nextId == 2 && 1 in s.sessions && s.sessions[1].info == info && Live(s, 1) && Departs(s, 1)
  {
    hide RegisteredSessions, Agreement;
    InitAgrees(depth);
    RegisteredHandles(Init(depth), info, now);
    RefsRegistered(Init(depth), info, now);
    assert Joined(Init(depth).index, info.key) == [1] && [1][..0] == [];
  }

  lemma DetachKeepsNextId(s: State, id: SessionId)
    requires Refs(s) && id in s.sessions
    ensures Detached(s, id).index.nextId == s.index.nextId
  {
    hide DetachedSessions, DetachedStats, IndexRefs, RouteRefs, Without;
  }

  /** Such a run exists for every key: it registers, its only session runs the first half, it registers again, and
      the second half of the first session's departure hits the second session. */
  lemma NewcomerLost(info: Info, depth: nat, now: real) returns (r: LooseRun)
    ensures IsLooseRun(r) && r.ops == [Whole(Register(info)), Detach(1), Whole(Register(info)), Erase(1)]
    ensures Hits(r.cs[3], r.ops[3], 2)
  {
    hide Registered, Detached, Erased, Departs, Live, IndexRefs, RouteRefs;
    OnlyOne(depth, info, now);
    var c0 := Loose(Init(depth), {});
    var c1 := Loose(Registered(c0.s, info, now), {});
    RefsDetached(c1.s, 1);
    DetachedHandles(c1.s, 1);
    DetachKeepsNextId(c1.s, 1);
    var c2 := Loose(Detached(c1.s, 1), {1});
    RefsRegistered(c2.s, info, now);
    RegisteredHandles(c2.s, info, now);
    LiveRegister(c2.s, info, now, 2);
    var c3 := Loose(Registered(c2.s, info, now), {1});
    LiveStored(c3.s, 2);
    var c4 := LooseStep(c3, Erase(1), now);
    r := LooseRun([c0, c1, c2, c3, c4], [Whole(Register(info)), Detach(1), Whole(Register(info)), Erase(1)],
      [now, now, now, now]);
    assert {} + {1} == {1};
    assert LooseNext(c0, r.ops[0], now, c1) && LooseNext(c1, r.ops[1], now, c2);
    assert LooseNext(c2, r.ops[2], now, c3) && LooseNext(c3, r.ops[3], now, c4);
  }
}
