/** Runs of the relay: any sequence of its operations from the empty relay, each as one step. */
module RelayRuns {
  import opened Types
  import opened RelayState
  import opened RelayIndex

  predicate Next(s: State, op: Op, now: real, t: State) {
    Refs(s) && Enabled(s, op) && t == Step(s, op, now)
  }

  datatype Run = Run(states: seq<State>, ops: seq<Op>, times: seq<real>)

  predicate IsRun(r: Run) {
    && |r.states| == |r.ops| + 1 == |r.times| + 1
    && r.states[0] == Init(r.states[0].depth)
    && forall i :: 0 <= i < |r.ops| ==> Next(r.states[i], r.ops[i], r.times[i], r.states[i + 1])
  }

  function Last(r: Run): State
    requires r.states != []
  {
    r.states[|r.states| - 1]
  }

  function Start(depth: nat): Run {
    Run([Init(depth)], [], [])
  }

  /** The run with one more step. */
  function Extend(r: Run, op: Op, now: real): Run
    requires r.states != [] && Refs(Last(r)) && Enabled(Last(r), op)
  {
    Run(r.states + [Step(Last(r), op, now)], r.ops + [op], r.times + [now])
  }

  predicate Sound(s: State) {
    Refs(s) && Agreement(s.index, map[])
  }

  lemma RunShape(r: Run)
    requires IsRun(r)
    ensures |r.states| == |r.ops| + 1
  {
  }

  lemma StartIsRun(depth: nat)
    ensures IsRun(Start(depth))
  {
  }

  lemma ExtendIsRun(r: Run, op: Op, now: real)
    requires IsRun(r) && Refs(Last(r)) && Enabled(Last(r), op)
    ensures r.states != [] && IsRun(Extend(r, op, now)) && Last(Extend(r, op, now)) == Step(Last(r), op, now)
  {
    hide Refs, Enabled, Step, Init;
    var x := Extend(r, op, now);
    forall i | 0 <= i < |x.ops| ensures Next(x.states[i], x.ops[i], x.times[i], x.states[i + 1]) {
      if i < |r.ops| {
        assert Next(r.states[i], r.ops[i], r.times[i], r.states[i + 1]);
      }
    }
  }

  lemma SoundRefs(s: State)
    requires Sound(s)
    ensures Refs(s)
  {
  }

  lemma UnregisterAgrees(s: State, id: SessionId)
    requires Sound(s) && Live(s, id)
    ensures Agreement(Unregistered(s, id).index, map[])
  {
    hide Agreement, IndexRefs, RouteRefs, Detached, Erased, Departs;
    DetachHalf(s, map[], id);
    DetachedHandles(s, id);
    if Departs(s, id) {
      var key := s.sessions[id].info.key;
      var pending: Pending := map[][key := id];
      EraseHalf(Detached(s, id), pending, id);
      assert pending - {key} == map[];
    }
  }

  lemma SoundStep(s: State, op: Op, now: real)
    requires Sound(s) && Enabled(s, op)
    ensures Sound(Step(s, op, now))
  {
    hide Agreement, Refs, Registered, ActivityNoted, Unregistered, Routed, Watched, PeerClosed, RestartAnnounced,
      Live;
    RefsStep(s, op, now);
    if op.Unregister? {
      UnregisterAgrees(s, op.id);
    } else {
      WholeAgrees(s, map[], op, now);
    }
  }

  /** In every reachable state `active` and `peers` have the same keys, every session set is a non-empty
      increasing list of ids below `nextId`, and `active` names the session the set would pick. */
  lemma {:induction false} IndexAgreement(r: Run, i: nat)
    requires IsRun(r) && i < |r.states|
    ensures Sound(r.states[i])
  {
    hide Agreement, Refs, Step, Enabled;
    if i == 0 {
      InitAgrees(r.states[0].depth);
    } else {
      IndexAgreement(r, i - 1);
      assert Next(r.states[i - 1], r.ops[i - 1], r.times[i - 1], r.states[i]);
      SoundStep(r.states[i - 1], r.ops[i - 1], r.times[i - 1]);
    }
  }

  /** No id is in two sets, or twice in one. */
  lemma IdsAreUnique(s: State, j: NodeKey, k: NodeKey, a: nat, b: nat)
    requires Sound(s) && j in s.index.peers && k in s.index.peers
    requires a < |s.index.peers[j].sessions| && b < |s.index.peers[k].sessions|
    requires s.index.peers[j].sessions[a] == s.index.peers[k].sessions[b]
    ensures j == k && a == b
  {
    hide PickActive;
    var id := s.index.peers[j].sessions[a];
    assert GroupRefs(s.index.peers, s.sessions);
    assert id in s.index.peers[j].sessions && id in s.index.peers[k].sessions;
    assert s.sessions[id].info.key == j && s.sessions[id].info.key == k;
    assert Agrees(s.index, j);
  }

  lemma {:induction false} DepthFixed(r: Run, i: nat)
    requires IsRun(r) && i < |r.states|
    ensures r.states[i].depth == r.states[0].depth >= 1
  {
    if i > 0 {
      DepthFixed(r, i - 1);
      assert Next(r.states[i - 1], r.ops[i - 1], r.times[i - 1], r.states[i]);
      DepthStep(r.states[i - 1], r.ops[i - 1], r.times[i - 1]);
    }
  }

  lemma DepthStep(s: State, op: Op, now: real)
    requires Refs(s) && Enabled(s, op)
    ensures Step(s, op, now).depth == s.depth
  {
    hide Refs, RegisteredSessions, RoutedSessions, DetachedSessions, ErasedSessions, Snapshot;
  }
}
