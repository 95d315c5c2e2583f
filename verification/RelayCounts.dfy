/** The relay's counters and gauges against what they count. */
module RelayCounts {
  import opened RelayState
  import opened RelayIndex
  import opened RelayRuns

  function LiveIds(s: State): set<SessionId> {
    set i | i in s.sessions && Live(s, i)
  }

  function PreferredIds(s: State): set<SessionId> {
    set i | i in s.sessions && Live(s, i) && s.sessions[i].preferred
  }

  /** Every packet received is sent, dropped or forwarded, exactly one of them, and the drops are accounted for;
      the gauges are the number of live sessions and of live preferred sessions, so neither goes below zero. */
  predicate Balanced(s: State) {
    && s.stats.received == s.stats.sent + s.stats.dropped + s.stats.forwardedOut
    && s.stats.dropped == |s.stats.lost|
    && s.stats.currentClients == |LiveIds(s)|
    && s.stats.preferredClients == |PreferredIds(s)|
  }

  lemma PreferredRegister(s: State, info: Info, now: real, i: SessionId)
    requires Refs(s) && i in Registered(s, info, now).sessions
    ensures Registered(s, info, now).sessions[i].preferred <==>
            i in s.sessions && i != s.index.nextId && s.sessions[i].preferred
  {
    hide RegisterEmit, ActiveRefs, GroupRefs, RouteRefs, PushAll, Joined;
  }

  lemma PreferredUnregister(s: State, id: SessionId, i: SessionId)
    requires Refs(s) && Live(s, id) && i in s.sessions
    ensures i in Unregistered(s, id).sessions
    ensures Unregistered(s, id).sessions[i].preferred <==> s.sessions[i].preferred && i != id
  {
    hide EraseEmit, DetachedIndex, DetachedStats, ErasedPaths, ErasedIndex, ActiveRefs, RouteRefs, Departs, Without,
      PushAll;
    DetachedHandles(s, id);
    var d, rest := Detached(s, id), Survivors(s, id);
    WithoutMembers(Members(s.index, s.sessions[id].info.key), id);
    assert |rest| == 1 ==> rest[0] in rest;
    assert d.sessions[i].preferred <==> s.sessions[i].preferred && i != id;
  }

  lemma PreferredOther(s: State, op: Op, now: real, i: SessionId)
    requires Refs(s) && Enabled(s, op) && !op.Register? && !op.Unregister? && i in s.sessions
    ensures i in Step(s, op, now).sessions
    ensures Step(s, op, now).sessions[i].preferred ==
            if op.Prefer? && op.id == i then op.preferred else s.sessions[i].preferred
  {
    hide Registered, Unregistered, RoutedPaths, RoutedMesh, RoutedStats, Snapshot, Enumerates, GroupRefs, RouteRefs,
      RouteAdded, RouteRemoved, MeshRemoved, PreferredStats, PushAll, ActivityIndex, FirstOpen, LooksLikeDisco;
  }

  lemma IdsRegister(s: State, info: Info, now: real)
    requires Refs(s)
    ensures LiveIds(Registered(s, info, now)) == LiveIds(s) + {s.index.nextId} && s.index.nextId !in LiveIds(s)
    ensures PreferredIds(Registered(s, info, now)) == PreferredIds(s)
  {
    hide Registered, Refs, Live;
    var t, id := Registered(s, info, now), s.index.nextId;
    FreshId(s);
    RegisteredHandles(s, info, now);
    forall i ensures Live(t, i) <==> Live(s, i) || i == id { LiveRegister(s, info, now, i); }
    assert LiveIds(t) == LiveIds(s) + {id};
    forall i | i in t.sessions ensures i in PreferredIds(t) <==> i in PreferredIds(s) {
      PreferredRegister(s, info, now, i);
    }
    assert PreferredIds(t) == PreferredIds(s);
  }

  lemma StatsRegister(s: State, info: Info, now: real)
    requires Refs(s) && Balanced(s)
    ensures Balanced(Registered(s, info, now))
  {
    hide RegisteredSessions, Refs, RegisteredIndex, LiveIds, PreferredIds;
    IdsRegister(s, info, now);
  }

  lemma FreshId(s: State)
    requires Refs(s)
    ensures s.index.nextId !in s.sessions
  {
  }

  lemma UnregisteredStats(s: State, id: SessionId)
    requires Refs(s) && Live(s, id)
    ensures var m, n := s.stats, Unregistered(s, id).stats;
      && n.received == m.received && n.sent == m.sent && n.dropped == m.dropped && n.forwardedOut == m.forwardedOut
      && n.lost == m.lost && n.currentClients == m.currentClients - 1
      && n.preferredClients == m.preferredClients - if s.sessions[id].preferred then 1 else 0
  {
    hide DetachedIndex, DetachedSessions, ErasedSessions, ErasedPaths, IndexRefs, RouteRefs, Departs, ErasedIndex;
    DetachedHandles(s, id);
  }

  lemma IdsUnregister(s: State, id: SessionId)
    requires Refs(s) && Live(s, id)
    ensures LiveIds(Unregistered(s, id)) == LiveIds(s) - {id} && id in LiveIds(s)
    ensures PreferredIds(Unregistered(s, id)) == PreferredIds(s) - {id}
    ensures id in PreferredIds(s) <==> s.sessions[id].preferred
  {
    hide Unregistered, Refs, Members;
    var t := Unregistered(s, id);
    assert t == Step(s, Unregister(id), 0.0);
    HandlesStep(s, Unregister(id), 0.0);
    forall i ensures Live(t, i) <==> Live(s, i) && i != id { LiveUnregister(s, id, i); }
    assert LiveIds(t) == LiveIds(s) - {id};
    forall i | i in s.sessions ensures i in PreferredIds(t) <==> i in PreferredIds(s) && i != id {
      PreferredUnregister(s, id, i);
    }
    assert PreferredIds(t) == PreferredIds(s) - {id};
  }

  lemma StatsUnregister(s: State, id: SessionId)
    requires Refs(s) && Balanced(s) && Live(s, id)
    ensures Balanced(Unregistered(s, id))
  {
    hide Unregistered, IndexRefs, RouteRefs, LiveIds, PreferredIds;
    UnregisteredStats(s, id);
    IdsUnregister(s, id);
  }

  lemma StatsOther(s: State, op: Op, now: real)
    requires Refs(s) && Enabled(s, op) && !op.Register? && !op.Unregister?
    ensures var m, n := s.stats, Step(s, op, now).stats;
      && n.received - n.sent - n.dropped - n.forwardedOut == m.received - m.sent - m.dropped - m.forwardedOut
      && n.dropped - |n.lost| == m.dropped - |m.lost|
      && n.currentClients == m.currentClients
      && n.preferredClients == m.preferredClients
           + (if op.Prefer? && op.preferred && !s.sessions[op.id].preferred then 1 else 0)
           - (if op.Prefer? && !op.preferred && s.sessions[op.id].preferred then 1 else 0)
  {
    hide Registered, Unregistered, RoutedSessions, RoutedPaths, RoutedMesh, Snapshot, Enumerates, Refs, RouteAdded,
      RouteRemoved, MeshRemoved, PushAll, ActivityIndex, OutcomeOf;
  }

  lemma IdsOther(s: State, op: Op, now: real)
    requires Refs(s) && Enabled(s, op) && !op.Register? && !op.Unregister?
    ensures LiveIds(Step(s, op, now)) == LiveIds(s)
    ensures PreferredIds(Step(s, op, now)) ==
            if !op.Prefer? then PreferredIds(s)
            else if op.preferred then PreferredIds(s) + {op.id} else PreferredIds(s) - {op.id}
    ensures op.Prefer? ==> op.id in s.sessions && (op.id in PreferredIds(s) <==> s.sessions[op.id].preferred)
  {
    hide Step, Refs, Members, Enumerates;
    var t := Step(s, op, now);
    HandlesStep(s, op, now);
    forall i ensures Live(t, i) <==> Live(s, i) { LiveOther(s, op, now, i); }
    assert LiveIds(t) == LiveIds(s);
    forall i | i in s.sessions
      ensures i in PreferredIds(t) <==>
              Live(s, i) && if op.Prefer? && op.id == i then op.preferred else s.sessions[i].preferred
    {
      PreferredOther(s, op, now, i);
    }
    if op.Prefer? {
      assert PreferredIds(t) == if op.preferred then PreferredIds(s) + {op.id} else PreferredIds(s) - {op.id};
    } else {
      assert PreferredIds(t) == PreferredIds(s);
    }
  }

  lemma BalancedOther(s: State, op: Op, now: real)
    requires Refs(s) && Balanced(s) && Enabled(s, op) && !op.Register? && !op.Unregister?
    ensures Balanced(Step(s, op, now))
  {
    hide Step, Refs, LiveIds, PreferredIds, Enabled;
    StatsOther(s, op, now);
    IdsOther(s, op, now);
  }

  /** The books balance in every reachable state. */
  lemma {:induction false} BooksBalance(r: Run, n: nat)
    requires IsRun(r) && n < |r.states|
    ensures Balanced(r.states[n])
  {
    hide Registered, ActivityNoted, Unregistered, Routed, Watched, PeerClosed, RestartAnnounced, PreferredNoted, Refs;
    if n == 0 {
      var s := r.states[0];
      assert LiveIds(s) == {} && PreferredIds(s) == {};
    } else {
      BooksBalance(r, n - 1);
      var s, op, now := r.states[n - 1], r.ops[n - 1], r.times[n - 1];
      assert Next(s, op, now, r.states[n]);
      if op.Register? {
        StatsRegister(s, op.info, now);
      } else if op.Unregister? {
        StatsUnregister(s, op.id);
      } else {
        BalancedOther(s, op, now);
      }
    }
  }
}
