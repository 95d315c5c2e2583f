/** Which session receives a key's traffic, read off the trace of operations alone. */
module RelayTrace {
  import opened Types
  import opened RelayState
  import opened RelayIndex
  import opened RelayRuns
  import opened RelayNotices

  /** The sessions of a key, oldest first, and the one that receives its traffic. */
  datatype Selection = Selection(live: seq<SessionId>, chosen: Option<SessionId>)

  /** Registering or activity selects that session; unregistering any session selects the newest survivor. */
  function Select(c: Selection, op: Op, k: NodeKey, nextId: SessionId): Selection {
    match op
    case Register(info) =>
      if info.key == k then Selection(c.live + [nextId], Some(nextId)) else c
    case NoteActivity(id) =>
      if id in c.live then Selection(c.live, Some(id)) else c
    case Unregister(id) =>
      if id in c.live then
        var rest := Without(c.live, id);
        Selection(rest, if rest == [] then None else Some(rest[|rest| - 1]))
      else c
    case _ => c
  }

  /** Ids are handed out in order, starting at 1. */
  function NextId(ops: seq<Op>): SessionId {
    if ops == [] then 1 else NextId(ops[..|ops| - 1]) + if ops[|ops| - 1].Register? then 1 else 0
  }

  function Fold(ops: seq<Op>, k: NodeKey): Selection {
    if ops == [] then Selection([], None)
    else
      var front := ops[..|ops| - 1];
      Select(Fold(front, k), ops[|ops| - 1], k, NextId(front))
  }

  function RouteOf(x: Index, k: NodeKey): Option<SessionId> {
    if k in x.active then Some(x.active[k]) else None
  }

  function SelectionOf(x: Index, k: NodeKey): Selection {
    Selection(Members(x, k), RouteOf(x, k))
  }

  lemma SelectActivity(s: State, id: SessionId, k: NodeKey)
    requires Sound(s) && HealthOk(s) && Live(s, id)
    ensures SelectionOf(ActivityNoted(s, id).index, k) ==
            Select(SelectionOf(s.index, k), NoteActivity(id), k, s.index.nextId)
  {
    hide ActivityNoted, HealthOk, Agreement, RouteRefs, ActiveRefs;
    ForcedActivity(s, id);
    var key := s.sessions[id].info.key;
    assert GroupRefs(s.index.peers, s.sessions);
    assert id in Members(s.index, k) <==> k == key;
  }

  lemma SelectUnregister(s: State, id: SessionId, k: NodeKey)
    requires Sound(s) && Live(s, id)
    ensures SelectionOf(Unregistered(s, id).index, k) ==
            Select(SelectionOf(s.index, k), Unregister(id), k, s.index.nextId)
    ensures Unregistered(s, id).index.nextId == s.index.nextId
  {
    hide DetachedSessions, DetachedStats, ErasedSessions, ErasedPaths, RouteRefs, ActiveRefs, Without, Agreement;
    DetachedHandles(s, id);
    var key := s.sessions[id].info.key;
    assert GroupRefs(s.index.peers, s.sessions);
    assert id in Members(s.index, k) <==> k == key;
  }

  lemma SelectStep(s: State, op: Op, now: real, k: NodeKey)
    requires Sound(s) && HealthOk(s) && Enabled(s, op)
    ensures var t := Step(s, op, now);
      && SelectionOf(t.index, k) == Select(SelectionOf(s.index, k), op, k, s.index.nextId)
      && t.index.nextId == s.index.nextId + if op.Register? then 1 else 0
  {
    hide Agreement, IndexRefs, RouteRefs, HealthOk, Unregistered, RegisteredSessions, ActivityIndex, Snapshot,
      Enumerates, RoutedSessions, RoutedPaths, RoutedMesh, RoutedStats, RouteAdded, RouteRemoved, MeshRemoved,
      PreferredStats, PushAll;
    match op
    case NoteActivity(id) =>
      SelectActivity(s, id, k);
      ForcedActivity(s, id);
      assert ActivityIndex(s.index, s.sessions[id].info.key, id).nextId == s.index.nextId by {
        ActivityKeepsNextId(s.index, s.sessions[id].info.key, id);
      }
    case Unregister(id) => SelectUnregister(s, id, k);
    case _ =>
  }

  lemma ActivityKeepsNextId(x: Index, key: NodeKey, id: SessionId)
    ensures ActivityIndex(x, key, id).nextId == x.nextId
  {
  }

  /** For every run and every key: the session sets and the hot-path index are the fold of the trace. */
  lemma {:induction false} RouteIsFold(r: Run, i: nat, k: NodeKey)
    requires IsRun(r) && i < |r.states|
    ensures SelectionOf(r.states[i].index, k) == Fold(r.ops[..i], k)
    ensures r.states[i].index.nextId == NextId(r.ops[..i])
  {
    hide Step, Enabled, Sound, HealthOk, Select, Refs;
    if i == 0 {
    } else {
      RouteIsFold(r, i - 1, k);
      IndexAgreement(r, i - 1);
      HealthAgreement(r, i - 1);
      assert Next(r.states[i - 1], r.ops[i - 1], r.times[i - 1], r.states[i]);
      SelectStep(r.states[i - 1], r.ops[i - 1], r.times[i - 1], k);
      assert r.ops[..i][..i - 1] == r.ops[..i - 1];
    }
  }

  /** So a packet for k is offered to the session that the trace selects, and is forwarded or unreachable
      only when the trace selects none. */
  lemma PacketsFollowFold(r: Run, i: nat, k: NodeKey, forwarded: bool)
    requires IsRun(r) && i < |r.states|
    ensures Refs(r.states[i])
    ensures var o, chosen := OutcomeOf(r.states[i], k, forwarded), Fold(r.ops[..i], k).chosen;
      if chosen.Some? then o == Delivered(chosen.value) || o == Refused(chosen.value)
      else o.Forwarded? || o.Unreachable?
  {
    hide IsRun, Fold, IndexRefs, Agreement;
    IndexAgreement(r, i);
    RouteIsFold(r, i, k);
  }

  // ---------------------------------------------------------------- the most recently active duplicate

  /** The operation at the end of a trace is session id's registration or its activity. */
  predicate Touches(front: seq<Op>, op: Op, id: SessionId) {
    op == NoteActivity(id) || (op.Register? && NextId(front) == id)
  }

  /** When session id was last registered or active, as a position in the trace counted from 1; 0 for never. */
  function LastTouch(ops: seq<Op>, id: SessionId): nat {
    if ops == [] then 0
    else
      var front := ops[..|ops| - 1];
      if Touches(front, ops[|ops| - 1], id) then |ops| else LastTouch(front, id)
  }

  /** Of the listed sessions, id is the last that was registered or active. */
  predicate MostRecent(ops: seq<Op>, live: seq<SessionId>, id: SessionId) {
    id in live && forall j :: j in live && j != id ==> LastTouch(ops, j) < LastTouch(ops, id)
  }

  /** A session of k was unregistered since a session of k was last registered or active. */
  predicate Disturbed(ops: seq<Op>, k: NodeKey) {
    if ops == [] then false
    else
      var front := ops[..|ops| - 1];
      match ops[|ops| - 1]
      case Register(info) => if info.key == k then false else Disturbed(front, k)
      case NoteActivity(id) => if id in Fold(front, k).live then false else Disturbed(front, k)
      case Unregister(id) => if id in Fold(front, k).live then true else Disturbed(front, k)
      case _ => Disturbed(front, k)
  }

  lemma {:induction false} TouchedBefore(ops: seq<Op>, id: SessionId)
    ensures LastTouch(ops, id) <= |ops|
  {
    if ops != [] {
      TouchedBefore(ops[..|ops| - 1], id);
    }
  }

  lemma {:induction false} FoldBelow(ops: seq<Op>, k: NodeKey)
    ensures forall j :: j in Fold(ops, k).live ==> j < NextId(ops)
  {
    if ops != [] {
      var front, op := ops[..|ops| - 1], ops[|ops| - 1];
      FoldBelow(front, k);
      if op.Unregister? {
        WithoutMembers(Fold(front, k).live, op.id);
      }
    }
  }

  /** What is chosen: the most recent one until a session of the key is unregistered, then the newest survivor. */
  predicate WellChosen(ops: seq<Op>, c: Selection, disturbed: bool) {
    && (c.chosen.None? <==> c.live == [])
    && (c.chosen.Some? && !disturbed ==> MostRecent(ops, c.live, c.chosen.value))
    && (c.chosen.Some? && disturbed ==> c.chosen.value == c.live[|c.live| - 1])
  }

  lemma {:induction false} ChosenBy(ops: seq<Op>, k: NodeKey)
    ensures WellChosen(ops, Fold(ops, k), Disturbed(ops, k))
  {
    hide WellChosen;
    if ops == [] {
      assert WellChosen(ops, Selection([], None), false) by { NothingChosen(); }
    } else {
      var front, op := ops[..|ops| - 1], ops[|ops| - 1];
      ChosenBy(front, k);
      FoldBelow(front, k);
      ChosenStep(front, op, k);
      assert ops == front + [op];
    }
  }

  lemma NothingChosen()
    ensures WellChosen([], Selection([], None), false)
  {
  }

  lemma ChosenStep(front: seq<Op>, op: Op, k: NodeKey)
    requires WellChosen(front, Fold(front, k), Disturbed(front, k))
    requires forall j :: j in Fold(front, k).live ==> j < NextId(front)
    ensures WellChosen(front + [op], Fold(front + [op], k), Disturbed(front + [op], k))
  {
    hide Fold, Disturbed, LastTouch, NextId, Without;
    var ops, c := front + [op], Fold(front, k);
    FoldOne(front, op, k);
    DisturbedOne(front, op, k);
    forall j ensures LastTouch(front, j) < |ops| { TouchedBefore(front, j); }
    if op.Register? && op.info.key == k {
      assert MostRecent(ops, c.live + [NextId(front)], NextId(front));
    } else if op.NoteActivity? && op.id in c.live {
      assert MostRecent(ops, c.live, op.id);
    } else if !(op.Unregister? && op.id in c.live) {
      assert forall j :: j in c.live ==> LastTouch(ops, j) == LastTouch(front, j);
    }
  }

  lemma DisturbedOne(front: seq<Op>, op: Op, k: NodeKey)
    ensures Disturbed(front + [op], k) ==
            if op.Register? && op.info.key == k then false
            else if op.NoteActivity? && op.id in Fold(front, k).live then false
            else if op.Unregister? && op.id in Fold(front, k).live then true
            else Disturbed(front, k)
  {
    hide Fold;
    assert (front + [op])[..|front + [op]| - 1] == front;
  }

  /** The documented rule, that the most recently active duplicate receives the packets, holds if and only if no
      session of the key was unregistered since the last registration or activity, or the newest survivor happens
      to be the most recent one. */
  lemma RouteIsMostRecentIff(r: Run, i: nat, k: NodeKey)
    requires IsRun(r) && i < |r.states| && k in r.states[i].index.active
    ensures var ops, live := r.ops[..i], Members(r.states[i].index, k);
      && live != []
      && (MostRecent(ops, live, r.states[i].index.active[k])
          <==> !Disturbed(ops, k) || MostRecent(ops, live, live[|live| - 1]))
  {
    hide IsRun, Fold, Disturbed, MostRecent, Members;
    RunShape(r);
    RouteIsFold(r, i, k);
    ChosenBy(r.ops[..i], k);
  }

  lemma FoldIsLive(r: Run, k: NodeKey, id: SessionId)
    requires IsRun(r) && id in Fold(r.ops, k).live
    ensures Live(Last(r), id)
  {
    hide Next, Fold, Agreement, RouteRefs, ActiveRefs;
    assert r.ops[..|r.ops|] == r.ops;
    RouteIsFold(r, |r.ops|, k);
    IndexAgreement(r, |r.ops|);
    assert GroupRefs(Last(r).index.peers, Last(r).sessions);
  }

  lemma FoldOne(ops: seq<Op>, op: Op, k: NodeKey)
    ensures Fold(ops + [op], k) == Select(Fold(ops, k), op, k, NextId(ops))
    ensures NextId(ops + [op]) == NextId(ops) + if op.Register? then 1 else 0
    ensures forall j :: LastTouch(ops + [op], j) == if Touches(ops, op, j) then |ops| + 1 else LastTouch(ops, j)
  {
    assert (ops + [op])[..|ops + [op]| - 1] == ops;
  }

  lemma Grow(r: Run, op: Op, now: real) returns (x: Run)
    requires IsRun(r) && (op.Register? || ((op.NoteActivity? || op.Unregister?) && Live(Last(r), op.id)))
    ensures IsRun(x) && x.ops == r.ops + [op] && x.states[0] == r.states[0]
  {
    hide IsRun, Step, Agreement;
    RunShape(r);
    IndexAgreement(r, |r.ops|);
    ExtendIsRun(r, op, now);
    x := Extend(r, op, now);
  }

  lemma WithoutMiddle()
    ensures Without([1, 2, 3], 2) == [1, 3]
  {
    assert [1, 2, 3][..2] == [1, 2] && [1, 2][..1] == [1] && [1][..0] == [];
  }

  /** A run in which it does not hold, for any key and any queue depth: three sessions register, the first is
      active, the second unregisters, and the third receives the packets although the first was active last. */
  lemma ActiveDuplicateLosesRoute(info: Info, depth: nat, now: real) returns (r: Run)
    ensures IsRun(r) && r.states[0] == Init(depth)
    ensures r.ops == [Register(info), Register(info), Register(info), NoteActivity(1), Unregister(2)]
    ensures var x := Last(r).index;
      && Members(x, info.key) == [1, 3] && info.key in x.active && x.active[info.key] == 3
      && MostRecent(r.ops, [1, 3], 1)
  {
    hide IsRun, Live, Fold, LastTouch, NextId, Without, Init;
    var k := info.key;
    StartIsRun(depth);
    r := Start(depth);
    assert Fold([], k) == Selection([], None) && NextId([]) == 1 by { Empty(k); }
    FoldOne(r.ops, Register(info), k);
    r := Grow(r, Register(info), now);
    FoldOne(r.ops, Register(info), k);
    r := Grow(r, Register(info), now);
    FoldOne(r.ops, Register(info), k);
    r := Grow(r, Register(info), now);
    assert Fold(r.ops, k).live == [1, 2, 3];
    FoldIsLive(r, k, 1);
    FoldOne(r.ops, NoteActivity(1), k);
    r := Grow(r, NoteActivity(1), now);
    FoldIsLive(r, k, 2);
    FoldOne(r.ops, Unregister(2), k);
    r := Grow(r, Unregister(2), now);
    WithoutMiddle();
    RunShape(r);
    RouteIsFold(r, 5, k);
    assert r.ops[..5] == r.ops;
  }

  lemma Empty(k: NodeKey)
    ensures Fold([], k) == Selection([], None) && NextId([]) == 1
  {
  }
}
