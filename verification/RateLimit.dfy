/** The two token buckets of the server: the one that spaces out `PeerGone(NotHere)` answers and the one
    that makes a reader sleep. Time and tokens are real numbers. */
module RateLimit {

  // ------------------------------------------------ PeerGone(NotHere) limiter

  const CAPACITY: real := 3.0
  const PER_SECOND: real := 3.0

  datatype Limiter = Limiter(tokens: real, updated: real)

  function Min(a: real, b: real): real {
    if a <= b then a else b
  }

  /** `Instant::duration_since`: zero when the clock reads earlier. */
  function Since(now: real, earlier: real): real {
    if now <= earlier then 0.0 else now - earlier
  }

  function NewLimiter(now: real): Limiter {
    Limiter(CAPACITY, now)
  }

  /** The tokens the limiter would hold at a given time. */
  function Available(l: Limiter, now: real): real {
    Min(l.tokens + Since(now, l.updated) * PER_SECOND, CAPACITY)
  }

  function Allows(l: Limiter, now: real): bool {
    Available(l, now) >= 1.0
  }

  function AfterAsk(l: Limiter, now: real): Limiter {
    Limiter(if Allows(l, now) then Available(l, now) - 1.0 else Available(l, now), now)
  }

  predicate LimiterOk(l: Limiter) {
    0.0 <= l.tokens <= CAPACITY
  }

  class PeerGoneLimiter {
    var tokens: real
    var updated: real

    function Value(): Limiter
      reads this
    {
      Limiter(tokens, updated)
    }

    constructor (now: real)
      ensures Value() == NewLimiter(now)
    {
      tokens := CAPACITY;
      updated := now;
    }

    method Allow(now: real) returns (allowed: bool)
      modifies this
      ensures allowed == Allows(old(Value()), now)
      ensures Value() == AfterAsk(old(Value()), now)
    {
      tokens := Min(tokens + Since(now, updated) * PER_SECOND, CAPACITY);
      updated := now;
      if tokens < 1.0 {
        return false;
      }
      tokens := tokens - 1.0;
      return true;
    }
  }

  /** One question costs a token only when it is granted, and between two times at most
      PER_SECOND tokens a second flow in. `Available` is the potential that bounds all windows. */
  lemma AskStep(l: Limiter, before: real, now: real)
    requires LimiterOk(l) && l.updated <= before <= now
    ensures LimiterOk(AfterAsk(l, now)) && AfterAsk(l, now).updated == now
    ensures Available(AfterAsk(l, now), now) + (if Allows(l, now) then 1.0 else 0.0)
         <= Available(l, before) + PER_SECOND * (now - before)
  {
  }

  function AskAll(l: Limiter, asks: seq<real>): Limiter {
    if asks == [] then l else AfterAsk(AskAll(l, asks[..|asks| - 1]), asks[|asks| - 1])
  }

  /** How many of the questions are granted. */
  function Grants(l: Limiter, asks: seq<real>): nat {
    if asks == [] then 0
    else
      var front := asks[..|asks| - 1];
      Grants(l, front) + if Allows(AskAll(l, front), asks[|asks| - 1]) then 1 else 0
  }

  predicate Chronological(start: real, asks: seq<real>) {
    && (forall i :: 0 <= i < |asks| ==> start <= asks[i])
    && (forall i, j :: 0 <= i < j < |asks| ==> asks[i] <= asks[j])
  }

  lemma {:induction false} GrantsPotential(l: Limiter, from: real, asks: seq<real>)
    requires LimiterOk(l) && l.updated <= from && Chronological(from, asks)
    ensures var last := if asks == [] then from else asks[|asks| - 1];
      && LimiterOk(AskAll(l, asks))
      && AskAll(l, asks).updated <= last
      && Grants(l, asks) as real + Available(AskAll(l, asks), last)
           <= Available(l, from) + PER_SECOND * (last - from)
  {
    if asks != [] {
      var front, last := asks[..|asks| - 1], asks[|asks| - 1];
      assert forall i :: 0 <= i < |front| ==> front[i] == asks[i];
      GrantsPotential(l, from, front);
      var mid := if front == [] then from else front[|front| - 1];
      AskStep(AskAll(l, front), mid, last);
    }
  }

  /** In a window of `span` seconds at most 3 + 3 * span questions are granted, whatever came before. */
  lemma WindowBound(l: Limiter, from: real, span: real, asks: seq<real>)
    requires LimiterOk(l) && l.updated <= from && Chronological(from, asks)
    requires span >= 0.0 && forall i :: 0 <= i < |asks| ==> asks[i] <= from + span
    ensures Grants(l, asks) as real <= 3.0 + 3.0 * span
    ensures LimiterOk(AskAll(l, asks))
  {
    GrantsPotential(l, from, asks);
  }

  /** A refused question is granted when it is put again a third of a second later, whatever refused
      questions were put in between. */
  lemma {:induction false} RetrySucceeds(l: Limiter, refused: real, asks: seq<real>, retry: real)
    requires LimiterOk(l) && l.updated <= refused && !Allows(l, refused)
    requires Chronological(refused, asks) && Grants(AfterAsk(l, refused), asks) == 0
    requires forall i :: 0 <= i < |asks| ==> asks[i] <= retry
    requires retry >= refused + 1.0 / 3.0
    ensures Allows(AskAll(AfterAsk(l, refused), asks), retry)
  {
    NoGrantKeepsTokens(AfterAsk(l, refused), refused, asks, retry);
  }

  lemma {:induction false} NoGrantKeepsTokens(l: Limiter, from: real, asks: seq<real>, until: real)
    requires LimiterOk(l) && l.updated <= from && Chronological(from, asks)
    requires Grants(l, asks) == 0 && from <= until
    requires forall i :: 0 <= i < |asks| ==> asks[i] <= until
    ensures AskAll(l, asks).updated <= until && LimiterOk(AskAll(l, asks))
    ensures Available(AskAll(l, asks), until) >= Available(l, until)
  {
    if asks != [] {
      var front, last := asks[..|asks| - 1], asks[|asks| - 1];
      assert forall i :: 0 <= i < |front| ==> front[i] == asks[i];
      NoGrantKeepsTokens(l, from, front, last);
    }
  }

  /** What the limiter holds uncapped at time t, after any questions: never more than x unless the start or one of the
      questions allows it. */
  predicate AskFits(l: Limiter, asks: seq<real>, x: real, t: real) {
    && x + Grants(l, asks) as real <= l.tokens + 3.0 * (t - l.updated)
    && forall j :: 0 <= j < |asks| ==> AskFitsSince(l, asks, j, x, t)
  }

  /** Counting from the j-th question, when the limiter held at most three tokens. */
  predicate AskFitsSince(l: Limiter, asks: seq<real>, j: nat, x: real, t: real)
    requires j < |asks|
  {
    x + Grants(l, asks) as real - Grants(l, asks[..j]) as real <= 3.0 + 3.0 * (t - asks[j])
  }

  lemma AskFitsShift(l: Limiter, front: seq<real>, ask: real, granted: nat, x: real, t: real)
    requires Grants(l, front + [ask]) == Grants(l, front) + granted
    ensures AskFits(l, front + [ask], x, t) <==>
            && AskFits(l, front, x + granted as real - 3.0 * (t - ask), ask)
            && x + granted as real <= 3.0 + 3.0 * (t - ask)
  {
    hide Grants;
    var asks, y := front + [ask], x + granted as real - 3.0 * (t - ask);
    assert asks[..|front|] == front;
    forall j | 0 <= j < |front| ensures AskFitsSince(l, asks, j, x, t) <==> AskFitsSince(l, front, j, y, ask) {
      assert asks[..j] == front[..j] && asks[j] == front[j];
    }
    assert AskFitsSince(l, asks, |front|, x, t) <==> x + granted as real <= 3.0 + 3.0 * (t - ask);
    if AskFits(l, asks, x, t) {
      forall j | 0 <= j < |front| ensures AskFitsSince(l, front, j, y, ask) {
        assert AskFitsSince(l, asks, j, x, t);
      }
    }
    if AskFits(l, front, y, ask) && x + granted as real <= 3.0 + 3.0 * (t - ask) {
      forall j | 0 <= j < |asks| ensures AskFitsSince(l, asks, j, x, t) {
        if j < |front| {
          assert AskFitsSince(l, front, j, y, ask);
        }
      }
    }
  }

  lemma {:induction false} AskLevel(l: Limiter, asks: seq<real>, x: real, t: real)
    requires LimiterOk(l) && Chronological(l.updated, asks)
    ensures var m := AskAll(l, asks);
      && m.updated == (if asks == [] then l.updated else asks[|asks| - 1])
      && (x <= m.tokens + 3.0 * (t - m.updated) <==> AskFits(l, asks, x, t))
  {
    hide AskFits;
    if asks == [] {
      assert AskFits(l, asks, x, t) <==> x <= l.tokens + 3.0 * (t - l.updated) by { AskFitsNone(l, x, t); }
    } else {
      var front, ask := asks[..|asks| - 1], asks[|asks| - 1];
      assert asks == front + [ask];
      var m := AskAll(l, front);
      var granted := if Allows(m, ask) then 1 else 0;
      AskLevel(l, front, x + granted as real - 3.0 * (t - ask), ask);
      AskFitsShift(l, front, ask, granted, x, t);
    }
  }

  lemma AskFitsNone(l: Limiter, x: real, t: real)
    ensures AskFits(l, [], x, t) <==> x <= l.tokens + 3.0 * (t - l.updated)
  {
  }

  /** Exactly when a question is granted: together with the grants since the start, and since each earlier question,
      it stays within the tokens then, at most three, plus three a second. */
  lemma GrantedIff(l: Limiter, asks: seq<real>, now: real)
    requires LimiterOk(l) && Chronological(l.updated, asks + [now])
    ensures Allows(AskAll(l, asks), now) <==>
            && 1.0 + Grants(l, asks) as real <= l.tokens + 3.0 * (now - l.updated)
            && forall j :: 0 <= j < |asks| ==>
                 1.0 + Grants(l, asks) as real - Grants(l, asks[..j]) as real <= 3.0 + 3.0 * (now - asks[j])
  {
    hide Grants, AskAll;
    var all := asks + [now];
    assert all[|asks|] == now;
    forall i | 0 <= i < |asks| ensures l.updated <= asks[i] <= now { assert all[i] == asks[i]; }
    forall i, j | 0 <= i < j < |asks| ensures asks[i] <= asks[j] { assert all[i] == asks[i] && all[j] == asks[j]; }
    AskLevel(l, asks, 1.0, now);
    if AskFits(l, asks, 1.0, now) {
      forall j | 0 <= j < |asks|
        ensures 1.0 + Grants(l, asks) as real - Grants(l, asks[..j]) as real <= 3.0 + 3.0 * (now - asks[j])
      {
        assert AskFitsSince(l, asks, j, 1.0, now);
      }
    }
  }

  lemma {:induction false} GrantsAtMost(l: Limiter, asks: seq<real>)
    ensures Grants(l, asks) <= |asks|
  {
    if asks != [] {
      GrantsAtMost(l, asks[..|asks| - 1]);
    }
  }

  /** A new limiter grants its first three questions. */
  lemma FirstThreeGranted(start: real, asks: seq<real>, now: real)
    requires |asks| < 3 && Chronological(start, asks + [now])
    ensures Allows(AskAll(NewLimiter(start), asks), now)
  {
    var l := NewLimiter(start);
    GrantedIff(l, asks, now);
    GrantsAtMost(l, asks);
    forall j | 0 <= j < |asks| ensures asks[j] <= now {
      assert (asks + [now])[j] == asks[j] && (asks + [now])[|asks|] == now;
    }
    assert (asks + [now])[|asks|] == now;
  }

  // ------------------------------------------------ sleeping token bucket

  datatype Bucket = Bucket(rate: real, burst: real, tokens: real, last: real)

  function NewBucket(rate: nat, burst: nat, now: real): Bucket {
    Bucket(rate as real, burst as real, burst as real, now)
  }

  function Refilled(b: Bucket, now: real): real {
    Min(b.tokens + Since(now, b.last) * b.rate, b.burst)
  }

  /** How long `consume` sleeps; zero when the tokens are there or there is no limit. */
  function Wait(b: Bucket, n: nat, now: real): real
    requires b.rate >= 0.0
  {
    if b.rate == 0.0 || Refilled(b, now) >= n as real then 0.0
    else (n as real - Refilled(b, now)) / b.rate
  }

  /** The bucket after a call that started at `now` and, if it had to sleep, woke at `wake`. */
  function Consumed(b: Bucket, n: nat, now: real, wake: real): Bucket {
    if b.rate == 0.0 then b
    else if Refilled(b, now) >= n as real then b.(tokens := Refilled(b, now) - n as real, last := now)
    else b.(tokens := 0.0, last := wake)
  }

  predicate BucketOk(b: Bucket) {
    b.rate > 0.0 && 0.0 <= b.tokens <= b.burst
  }

  class TokenBucket {
    const rate: nat
    const burst: real
    var tokens: real
    var last: real
    /** The bucket when it was made, and the calls since. */
    ghost var origin: Bucket
    ghost var calls: seq<Call>

    function Value(): Bucket
      reads this
    {
      Bucket(rate as real, burst, tokens, last)
    }

    /** The bucket is where its calls lead. */
    ghost predicate Valid()
      reads this
    {
      && origin.rate == rate as real && origin.burst == burst && 0.0 <= origin.tokens <= origin.burst
      && Possible(origin, calls) && After(origin, calls) == Value()
    }

    constructor (rate: nat, burst: nat, now: real)
      ensures Valid() && calls == [] && Value() == NewBucket(rate, burst, now)
      ensures this.rate == rate && this.burst == tokens == burst as real && last == now
    {
      this.rate := rate;
      this.burst := burst as real;
      this.tokens := burst as real;
      this.last := now;
      this.origin := NewBucket(rate, burst, now);
      this.calls := [];
    }

    /** Refill, charge and sleep. `overshoot` is how much later than asked the timer fires; the call completes at
        `done`. */
    method Spend(n: nat, now: real, overshoot: real) returns (done: real)
      requires overshoot >= 0.0
      modifies `tokens, `last
      ensures Value() == Consumed(old(Value()), n, now, done)
      ensures var wait := Wait(old(Value()), n, now);
              done == if wait == 0.0 then now else now + wait + overshoot
    {
      if rate == 0 {
        return now;
      }
      tokens := Min(tokens + Since(now, last) * rate as real, burst);
      last := now;
      var want := n as real;
      if tokens >= want {
        tokens := tokens - want;
        return now;
      }
      ghost var b := old(Value());
      assert tokens == Refilled(b, now);
      var wait := (want - tokens) / rate as real;
      DivisionPositive(want - tokens, rate as real);
      hide Refilled;
      tokens := 0.0;
      done := now + wait + overshoot;
      last := done;
    }

    /** A call. Without a rate it completes at once. With one it completes, lateness of its own timer aside, at the
        earliest time that the calls so far allow. */
    method Consume(n: nat, now: real, overshoot: real) returns (done: real)
      requires overshoot >= 0.0
      modifies this
      ensures Value() == Consumed(old(Value()), n, now, done)
      ensures var wait := Wait(old(Value()), n, now);
              done == if wait == 0.0 then now else now + wait + overshoot
      ensures rate == 0 ==> done == now && tokens == old(tokens)
      ensures old(Valid()) && old(last) <= now ==>
        && Valid() && calls == old(calls) + [Call(n, now, done)] && origin == old(origin)
        && (rate > 0 ==> Earliest(origin, old(calls), n, now, if done == now then now else done - overshoot))
    {
      hide Possible, After, Earliest, Refilled;
      ghost var b := Value();
      WaitPositive(b, n, now);
      done := Spend(n, now, overshoot);
      CallAdded(origin, calls, Call(n, now, done));
      if After(origin, calls) == b && Possible(origin, calls) && BucketOk(origin) && b.last <= now {
        WakesAtEarliest(origin, calls, n, now);
      }
      calls := calls + [Call(n, now, done)];
    }
  }

  lemma WaitPositive(b: Bucket, n: nat, now: real)
    requires b.rate >= 0.0
    ensures Wait(b, n, now) >= 0.0 && (b.rate == 0.0 ==> Wait(b, n, now) == 0.0)
  {
    if b.rate > 0.0 && Refilled(b, now) < n as real {
      DivisionPositive(n as real - Refilled(b, now), b.rate);
    }
  }

  lemma CallAdded(b: Bucket, calls: seq<Call>, c: Call)
    ensures var m := After(b, calls);
      && After(b, calls + [c]) == Consumed(m, c.n, c.start, c.done)
      && (Possible(b, calls) && m.rate >= 0.0 && m.last <= c.start
          && (var wait := Wait(m, c.n, c.start); if wait == 0.0 then c.done == c.start else c.done >= c.start + wait)
          ==> Possible(b, calls + [c]))
  {
    hide Consumed, Wait;
    assert (calls + [c])[..|calls + [c]| - 1] == calls;
  }

  lemma DivisionPositive(a: real, b: real)
    requires a > 0.0 && b > 0.0
    ensures a / b > 0.0 && (a / b) * b == a
  {
  }

  /** A call of `consume`: how much it asks for, when it starts and when it completes. */
  datatype Call = Call(n: nat, start: real, done: real)

  function After(b: Bucket, calls: seq<Call>): Bucket {
    if calls == [] then b
    else
      var c := calls[|calls| - 1];
      Consumed(After(b, calls[..|calls| - 1]), c.n, c.start, c.done)
  }

  /** A call may start as soon as its predecessor completed, sleeps at least as long as computed, and
      returns at once when there is nothing to wait for. */
  predicate Possible(b: Bucket, calls: seq<Call>)
    decreases |calls|
  {
    calls == [] ||
    (var front, c := calls[..|calls| - 1], calls[|calls| - 1];
     && Possible(b, front)
     && After(b, front).last <= c.start
     && After(b, front).rate >= 0.0
     && var wait := Wait(After(b, front), c.n, c.start);
        if wait == 0.0 then c.done == c.start else c.done >= c.start + wait)
  }

  function Total(calls: seq<Call>): nat {
    if calls == [] then 0 else Total(calls[..|calls| - 1]) + calls[|calls| - 1].n
  }

  /** The tokens that flow in between two times. */
  function Flow(rate: real, from: real, to: real): real {
    rate * (to - from)
  }

  lemma FlowCat(rate: real, a: real, b: real, c: real)
    ensures Flow(rate, a, b) + Flow(rate, b, c) == Flow(rate, a, c)
  {
  }

  lemma FlowGrows(rate: real, a: real, b: real)
    requires rate > 0.0
    ensures 0.0 <= Flow(rate, a, b) <==> a <= b
  {
  }

  lemma FlowIs(rate: real, a: real, b: real)
    ensures Flow(rate, a, b) == rate * (b - a)
  {
  }

  lemma FlowFills(rate: real, burst: real, from: real, to: real)
    requires rate > 0.0 && burst >= 0.0 && to >= from + burst / rate
    ensures Flow(rate, from, to) >= burst && to >= from
  {
    var quiet := burst / rate;
    assert quiet * rate == burst;
    assert quiet >= 0.0 by { if burst > 0.0 { DivisionPositive(burst, rate); } }
    FlowCat(rate, from, from + quiet, to);
    FlowGrows(rate, from + quiet, to);
    assert Flow(rate, from, from + quiet) == quiet * rate;
  }

  lemma RefilledIs(b: Bucket, now: real)
    requires b.last <= now
    ensures Refilled(b, now) == Min(b.tokens + Flow(b.rate, b.last, now), b.burst)
  {
    assert Since(now, b.last) * b.rate == Flow(b.rate, b.last, now);
  }

  /** Tokens left plus bytes admitted never exceed the tokens at the start plus what flowed in. */
  lemma ConsumeStep(b: Bucket, n: nat, start: real, done: real)
    requires BucketOk(b) && b.last <= start
    requires var wait := Wait(b, n, start); if wait == 0.0 then done == start else done >= start + wait
    ensures var c := Consumed(b, n, start, done);
      && BucketOk(c) && c.rate == b.rate && c.burst == b.burst && c.last == done && b.last <= done
      && n as real + c.tokens <= b.tokens + Flow(b.rate, b.last, done)
  {
    hide Flow, Refilled;
    var have, wait := Refilled(b, start), Wait(b, n, start);
    RefilledIs(b, start);
    FlowGrows(b.rate, b.last, start);
    FlowCat(b.rate, b.last, start, done);
    if have < n as real {
      WaitFlows(b, n, start);
      FlowCat(b.rate, start, start + wait, done);
      FlowGrows(b.rate, start + wait, done);
    }
  }

  /** The sleep is just long enough for what is missing. */
  lemma WaitFlows(b: Bucket, n: nat, start: real)
    requires BucketOk(b) && Refilled(b, start) < n as real
    ensures Wait(b, n, start) > 0.0
    ensures Flow(b.rate, start, start + Wait(b, n, start)) == n as real - Refilled(b, start)
  {
    var missing := n as real - Refilled(b, start);
    DivisionPositive(missing, b.rate);
    assert Wait(b, n, start) == missing / b.rate;
  }

  lemma {:induction false} AdmittedPotential(b: Bucket, calls: seq<Call>)
    requires BucketOk(b) && Possible(b, calls)
    ensures var c := After(b, calls);
      && BucketOk(c) && c.rate == b.rate && c.burst == b.burst && b.last <= c.last
      && (calls != [] ==> c.last == calls[|calls| - 1].done)
      && Total(calls) as real + c.tokens <= b.tokens + Flow(b.rate, b.last, c.last)
  {
    hide Consumed, Wait, Refilled, Flow;
    if calls == [] {
      FlowGrows(b.rate, b.last, b.last);
    } else {
      var front, call := calls[..|calls| - 1], calls[|calls| - 1];
      AdmittedPotential(b, front);
      var m := After(b, front);
      ConsumeStep(m, call.n, call.start, call.done);
      FlowCat(b.rate, b.last, m.last, call.done);
    }
  }

  lemma AdmissionFlow(b: Bucket, calls: seq<Call>, i: nat)
    requires BucketOk(b) && i < |calls| && Possible(b, calls)
    ensures Total(calls) as real - Total(calls[..i + 1]) as real
         <= b.burst + Flow(b.rate, calls[i].done, calls[|calls| - 1].done)
  {
    hide Possible, After, Total, Flow;
    var early, late := calls[..i + 1], calls[i + 1..];
    assert calls == early + late;
    SplitRun(b, early, late);
    AdmittedPotential(b, early);
    var m := After(b, early);
    AdmittedPotential(m, late);
    AdmittedPotential(b, calls);
    assert early[|early| - 1] == calls[i] && m.last == calls[i].done;
    assert After(m, late).last == calls[|calls| - 1].done;
  }

  /** Rate bound between any two completions of a run: the calls after the i-th completion admit at most
      burst + rate * elapsed bytes, requests larger than the burst included. */
  lemma AdmissionBound(b: Bucket, calls: seq<Call>, i: nat)
    requires BucketOk(b) && i < |calls| && Possible(b, calls)
    ensures Total(calls) as real - Total(calls[..i + 1]) as real
         <= b.burst + b.rate * (calls[|calls| - 1].done - calls[i].done)
  {
    hide Possible, Total, Flow, BucketOk;
    AdmissionFlow(b, calls, i);
    FlowIs(b.rate, calls[i].done, calls[|calls| - 1].done);
  }

  lemma {:induction false} SplitRun(b: Bucket, early: seq<Call>, late: seq<Call>)
    requires Possible(b, early + late)
    ensures Possible(b, early) && Possible(After(b, early), late)
    ensures After(b, early + late) == After(After(b, early), late)
    ensures Total(early + late) == Total(early) + Total(late)
    decreases |late|
  {
    var all := early + late;
    if late == [] {
      assert all == early;
    } else {
      assert all[..|all| - 1] == early + late[..|late| - 1];
      SplitRun(b, early, late[..|late| - 1]);
    }
  }

  /** Back-to-back calls with exact sleeps. */
  predicate BackToBack(b: Bucket, calls: seq<Call>)
    decreases |calls|
  {
    calls == [] ||
    (var front, c := calls[..|calls| - 1], calls[|calls| - 1];
     && BackToBack(b, front)
     && After(b, front).last == c.start
     && After(b, front).rate >= 0.0
     && c.done == c.start + Wait(After(b, front), c.n, c.start))
  }

  /** From a full bucket the last of a run of back-to-back calls completes exactly
      max(0, total - burst) / rate after the start. */
  lemma {:induction false} ExactCompletion(b: Bucket, calls: seq<Call>)
    requires BucketOk(b) && b.tokens == b.burst && calls != [] && BackToBack(b, calls)
    ensures calls[|calls| - 1].done - b.last ==
            (if Total(calls) as real <= b.burst then 0.0 else Total(calls) as real - b.burst) / b.rate
  {
    ExactState(b, calls);
  }

  lemma {:induction false} ExactState(b: Bucket, calls: seq<Call>)
    requires BucketOk(b) && b.tokens == b.burst && BackToBack(b, calls)
    ensures var c, total := After(b, calls), Total(calls) as real;
      && c.rate == b.rate && c.burst == b.burst
      && (calls != [] ==> c.last == calls[|calls| - 1].done)
      && c.tokens == (if total <= b.burst then b.burst - total else 0.0)
      && c.last - b.last == (if total <= b.burst then 0.0 else total - b.burst) / b.rate
  {
    if calls != [] {
      var front, call := calls[..|calls| - 1], calls[|calls| - 1];
      ExactState(b, front);
      var m := After(b, front);
      var before := Total(front) as real;
      if before > b.burst {
        SumOfQuotients(before - b.burst, call.n as real, b.rate);
      }
    }
  }

  lemma SumOfQuotients(x: real, y: real, r: real)
    requires r > 0.0
    ensures x / r + y / r == (x + y) / r
  {
  }

  // ------------------------------------------------ when a call completes, exactly

  /** x more bytes at time t, after the given calls, stay within what each point of the run allows: the tokens at its
      start, a full bucket at the start of every call, an empty one where a call woke up. */
  predicate Fits(b: Bucket, calls: seq<Call>, x: real, t: real) {
    && x + Total(calls) as real <= b.tokens + Flow(b.rate, b.last, t)
    && (forall j :: 0 <= j < |calls| ==> FitsSinceStart(b, calls, j, x, t))
    && (forall j :: 0 <= j < |calls| && calls[j].start < calls[j].done ==> FitsSinceWake(b, calls, j, x, t))
  }

  predicate FitsSinceStart(b: Bucket, calls: seq<Call>, j: nat, x: real, t: real)
    requires j < |calls|
  {
    x + Total(calls) as real - Total(calls[..j]) as real <= b.burst + Flow(b.rate, calls[j].start, t)
  }

  predicate FitsSinceWake(b: Bucket, calls: seq<Call>, j: nat, x: real, t: real)
    requires j < |calls|
  {
    x + Total(calls) as real - Total(calls[..j + 1]) as real <= Flow(b.rate, calls[j].done, t)
  }

  /** n bytes asked for at `start` may go through at time t. */
  predicate Admits(b: Bucket, calls: seq<Call>, n: nat, start: real, t: real) {
    Fits(b, calls, n as real, t) && n as real <= b.burst + Flow(b.rate, start, t)
  }

  /** t is the earliest time from `start` on at which they may. */
  ghost predicate Earliest(b: Bucket, calls: seq<Call>, n: nat, start: real, t: real) {
    && start <= t && Admits(b, calls, n, start, t)
    && forall u :: start <= u < t ==> !Admits(b, calls, n, start, u)
  }

  lemma TotalOne(calls: seq<Call>, c: Call)
    ensures Total(calls + [c]) == Total(calls) + c.n && (calls + [c])[..|calls|] == calls
  {
    assert (calls + [c])[..|calls + [c]| - 1] == calls;
  }

  /** One call more: the points before it, seen from its start, and the two points it adds. */
  lemma FitsShift(b: Bucket, front: seq<Call>, c: Call, x: real, t: real)
    ensures Fits(b, front + [c], x, t) <==>
            && Fits(b, front, x + c.n as real - Flow(b.rate, c.start, t), c.start)
            && x + c.n as real <= b.burst + Flow(b.rate, c.start, t)
            && (c.start < c.done ==> x <= Flow(b.rate, c.done, t))
  {
    hide Flow, Total;
    var calls, y, k := front + [c], x + c.n as real - Flow(b.rate, c.start, t), |front|;
    TotalOne(front, c);
    FlowCat(b.rate, b.last, c.start, t);
    assert calls[..k + 1] == calls;
    forall j | 0 <= j < k
      ensures calls[j] == front[j]
      ensures FitsSinceStart(b, calls, j, x, t) <==> FitsSinceStart(b, front, j, y, c.start)
      ensures FitsSinceWake(b, calls, j, x, t) <==> FitsSinceWake(b, front, j, y, c.start)
    {
      assert calls[..j] == front[..j] && calls[..j + 1] == front[..j + 1];
      FlowCat(b.rate, front[j].start, c.start, t);
      FlowCat(b.rate, front[j].done, c.start, t);
    }
    assert FitsSinceStart(b, calls, k, x, t) <==> x + c.n as real <= b.burst + Flow(b.rate, c.start, t);
    assert FitsSinceWake(b, calls, k, x, t) <==> x <= Flow(b.rate, c.done, t);
    hide FitsSinceStart, FitsSinceWake;
    if Fits(b, calls, x, t) {
      FitsBefore(b, front, c, x, y, t);
    } else if Fits(b, front, y, c.start) && FitsSinceStart(b, calls, k, x, t)
              && (c.start < c.done ==> FitsSinceWake(b, calls, k, x, t)) {
      assert forall j :: 0 <= j < |calls| ==> FitsSinceStart(b, calls, j, x, t);
      assert forall j :: 0 <= j < |calls| && calls[j].start < calls[j].done ==> FitsSinceWake(b, calls, j, x, t);
    }
  }

  lemma FitsBefore(b: Bucket, front: seq<Call>, c: Call, x: real, y: real, t: real)
    requires Fits(b, front + [c], x, t) && y + Total(front) as real <= b.tokens + Flow(b.rate, b.last, c.start)
    requires forall j :: 0 <= j < |front| ==>
      && (FitsSinceStart(b, front + [c], j, x, t) <==> FitsSinceStart(b, front, j, y, c.start))
      && (FitsSinceWake(b, front + [c], j, x, t) <==> FitsSinceWake(b, front, j, y, c.start))
    ensures Fits(b, front, y, c.start)
  {
    hide Flow, Total, FitsSinceStart, FitsSinceWake;
    var calls := front + [c];
    forall j | 0 <= j < |front|
      ensures FitsSinceStart(b, front, j, y, c.start)
      ensures front[j].start < front[j].done ==> FitsSinceWake(b, front, j, y, c.start)
    {
      assert FitsSinceStart(b, calls, j, x, t) && calls[j] == front[j];
    }
  }

  lemma FitsNone(b: Bucket, x: real, t: real)
    ensures Fits(b, [], x, t) <==> x <= b.tokens + Flow(b.rate, b.last, t)
  {
    hide Flow;
  }

  /** One call, as what it leaves in the bucket: the lesser of what was there and a full bucket, less the call; or
      nothing, where it slept, and then no point before it matters any more. */
  lemma LevelStep(m: Bucket, c: Call, x: real, t: real)
    requires BucketOk(m) && m.last <= c.start
    requires var wait := Wait(m, c.n, c.start); if wait == 0.0 then c.done == c.start else c.done >= c.start + wait
    ensures var after, y := Consumed(m, c.n, c.start, c.done), x + c.n as real - Flow(m.rate, c.start, t);
      x <= after.tokens + Flow(m.rate, after.last, t) <==>
        && y <= m.tokens + Flow(m.rate, m.last, c.start)
        && y <= m.burst
        && (c.start < c.done ==> x <= Flow(m.rate, c.done, t))
  {
    hide Flow, Refilled;
    var have := Refilled(m, c.start);
    RefilledIs(m, c.start);
    if have < c.n as real {
      var wait := Wait(m, c.n, c.start);
      WaitFlows(m, c.n, c.start);
      FlowCat(m.rate, c.start, c.done, t);
      FlowGrows(m.rate, c.start + wait, c.done);
      FlowCat(m.rate, c.start, c.start + wait, c.done);
    }
  }

  lemma {:induction false} LevelIs(b: Bucket, calls: seq<Call>, x: real, t: real)
    requires BucketOk(b) && Possible(b, calls)
    ensures var m := After(b, calls); x <= m.tokens + Flow(m.rate, m.last, t) <==> Fits(b, calls, x, t)
  {
    hide Flow, Fits, Consumed, Wait, BucketOk, Total;
    AdmittedPotential(b, calls);
    if calls == [] {
      FitsNone(b, x, t);
    } else {
      var front, c := calls[..|calls| - 1], calls[|calls| - 1];
      assert calls == front + [c];
      AdmittedPotential(b, front);
      var m := After(b, front);
      LevelIs(b, front, x + c.n as real - Flow(b.rate, c.start, t), c.start);
      LevelStep(m, c, x, t);
      FitsShift(b, front, c, x, t);
    }
  }

  /** No call waits longer than it must: after any earlier calls, however late their timers fired, a call asks to be
      woken at the earliest time at which its bytes, with those admitted before, stay within what every earlier point
      of the run allows. */
  lemma WakesAtEarliest(b: Bucket, calls: seq<Call>, n: nat, start: real)
    requires BucketOk(b) && Possible(b, calls) && After(b, calls).last <= start
    ensures After(b, calls).rate >= 0.0 && Earliest(b, calls, n, start, start + Wait(After(b, calls), n, start))
  {
    hide Fits, Possible, After, Flow, Wait, Total;
    AdmittedPotential(b, calls);
    var m := After(b, calls);
    var wait := Wait(m, n, start);
    WaitPositive(m, n, start);
    forall u | start <= u ensures Admits(b, calls, n, start, u) <==> start + wait <= u {
      LevelIs(b, calls, n as real, u);
      EnoughAt(m, n, start, u);
    }
  }

  lemma EnoughAt(m: Bucket, n: nat, start: real, u: real)
    requires BucketOk(m) && m.last <= start <= u
    ensures n as real <= m.tokens + Flow(m.rate, m.last, u) && n as real <= m.burst + Flow(m.rate, start, u) <==>
            start + Wait(m, n, start) <= u
  {
    hide Flow, Refilled;
    var have, wait := Refilled(m, start), Wait(m, n, start);
    RefilledIs(m, start);
    FlowCat(m.rate, m.last, start, u);
    FlowGrows(m.rate, start, u);
    if have < n as real {
      WaitFlows(m, n, start);
      FlowCat(m.rate, start, start + wait, u);
      FlowGrows(m.rate, start + wait, u);
    }
  }

  lemma FullAgain(m: Bucket, start: real)
    requires BucketOk(m) && start >= m.last + m.burst / m.rate
    ensures Refilled(m, start) == m.burst
  {
    hide Flow, Refilled;
    FlowFills(m.rate, m.burst, m.last, start);
    RefilledIs(m, start);
  }

  /** A call within the burst that starts burst / rate after the last completion, or later, completes at once. */
  lemma IdleBucketIsFull(b: Bucket, calls: seq<Call>, n: nat, start: real)
    requires BucketOk(b) && Possible(b, calls) && n as real <= b.burst
    requires start >= (if calls == [] then b.last else calls[|calls| - 1].done) + b.burst / b.rate
    ensures After(b, calls).rate >= 0.0 && Wait(After(b, calls), n, start) == 0.0
  {
    hide Possible, Total, Refilled;
    AdmittedPotential(b, calls);
    FullAgain(After(b, calls), start);
  }

  /** Why a full bucket is counted from the starts of calls: counted from their completions it would leave out what the
      call itself took. At rate 10 and burst 100, after a long idle time and a call of 60, another 60 at the same moment
      is within the burst since that completion, and within all that flowed in since the start, yet it waits 2 s. */
  lemma CompletionsDoNotSuffice()
    ensures var b, calls := Bucket(10.0, 100.0, 100.0, 0.0), [Call(60, 1000.0, 1000.0)];
      && BucketOk(b) && Possible(b, calls)
      && 60.0 + Total(calls) as real <= b.tokens + Flow(b.rate, b.last, 1000.0)
      && 60.0 <= b.burst + Flow(b.rate, calls[0].done, 1000.0)
      && Wait(After(b, calls), 60, 1000.0) == 2.0
  {
    var b, calls := Bucket(10.0, 100.0, 100.0, 0.0), [Call(60, 1000.0, 1000.0)];
    assert calls[..0] == [];
    assert After(b, []) == b && Total([]) == 0;
    assert Refilled(b, 1000.0) == 100.0;
    assert After(b, calls) == Bucket(10.0, 100.0, 40.0, 1000.0);
    assert Refilled(After(b, calls), 1000.0) == 40.0;
  }
}
