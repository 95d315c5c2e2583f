/** The writer of a session: frames from its queue go out in batches, with keepalives in between. */
module Writer {
  import opened Types
  import opened Codec

  const MAX_BATCH_BYTES: nat := 65536
  const MAX_EXTRA_FRAMES: nat := 63

  /** The largest frame the relay queues: a RecvPacket with a full packet. */
  const MAX_FRAME: nat := 65573

  /** How many more frames a batch that holds `size` bytes takes from the queue. */
  function Taken(size: nat, queue: seq<Frame>, budget: nat): nat
    decreases budget
  {
    if budget == 0 || size >= MAX_BATCH_BYTES || queue == [] then 0
    else 1 + Taken(size + |Wire(queue[0])|, queue[1..], budget - 1)
  }

  /** Never more than there are or than the budget allows, and it stops short of both only when the batch is
      full; before its last frame the batch was not. */
  lemma {:induction false} TakenLimits(size: nat, queue: seq<Frame>, budget: nat)
    ensures var n := Taken(size, queue, budget);
      && n <= budget && n <= |queue|
      && (n < budget && n < |queue| ==> size + |WireAll(queue[..n])| >= 65536)
      && (n > 0 ==> size + |WireAll(queue[..n - 1])| < 65536)
    decreases budget
  {
    hide Wire, WireAll;
    WireAllNone();
    if budget == 0 || size >= MAX_BATCH_BYTES || queue == [] {
      assert queue[..0] == [];
    } else {
      var n := Taken(size, queue, budget);
      TakenLimits(size + |Wire(queue[0])|, queue[1..], budget - 1);
      WireAllHead(queue[..n]);
      assert queue[..n][1..] == queue[1..][..n - 1];
      if n == 1 {
        assert queue[..0] == [];
      } else {
        WireAllHead(queue[..n - 1]);
        assert queue[..n - 1][1..] == queue[1..][..n - 2];
      }
    }
  }

  lemma {:induction false} WireAllHead(fs: seq<Frame>)
    requires fs != []
    ensures WireAll(fs) == Wire(fs[0]) + WireAll(fs[1..])
    decreases |fs|
  {
    hide Wire, WireAll;
    var front, last := fs[..|fs| - 1], fs[|fs| - 1];
    assert fs == front + [last];
    WireAllOne(front, last);
    if |fs| == 1 {
      assert front == [] && fs[1..] == [];
      WireAllNone();
    } else {
      WireAllHead(front);
      WireAllOne(front[1..], last);
      assert fs[1..] == front[1..] + [last];
    }
  }

  lemma WireAllNone()
    ensures WireAll([]) == []
  {
  }

  lemma WireAllOne(fs: seq<Frame>, f: Frame)
    ensures WireAll(fs + [f]) == WireAll(fs) + Wire(f)
  {
    assert (fs + [f])[..|fs + [f]| - 1] == fs;
  }

  lemma {:induction false} WireAllCat(fs: seq<Frame>, gs: seq<Frame>)
    ensures WireAll(fs + gs) == WireAll(fs) + WireAll(gs)
    decreases |gs|
  {
    hide Wire, WireAll;
    if gs == [] {
      assert fs + gs == fs;
      WireAllNone();
    } else {
      var front, last := gs[..|gs| - 1], gs[|gs| - 1];
      WireAllCat(fs, front);
      assert fs + gs == (fs + front) + [last] && gs == front + [last];
      WireAllOne(fs + front, last);
      WireAllOne(front, last);
    }
  }

  /** One turn of the batch loop. */
  lemma TakenStep(size: nat, queue: seq<Frame>, budget: nat)
    ensures Taken(size, queue, budget) ==
            if budget == 0 || size >= MAX_BATCH_BYTES || queue == [] then 0
            else 1 + Taken(size + |Wire(queue[0])|, queue[1..], budget - 1)
  {
    hide Wire;
  }

  lemma FirstOnly(first: Frame, queue: seq<Frame>)
    ensures WireAll([first] + queue[..0]) == Wire(first)
  {
    hide Wire, WireAll;
    WireAllNone();
    WireAllOne([], first);
    assert [first] + queue[..0] == [] + [first];
  }

  lemma OneMore(first: Frame, queue: seq<Frame>, n: nat)
    requires n < |queue|
    ensures WireAll([first] + queue[..n + 1]) == WireAll([first] + queue[..n]) + Wire(queue[n])
  {
    hide Wire, WireAll;
    WireAllOne([first] + queue[..n], queue[n]);
    assert [first] + queue[..n + 1] == [first] + queue[..n] + [queue[n]];
  }

  /** What the writer sends of its own accord. */
  predicate Control(f: Frame) {
    f.Ping? || f.KeepAlive?
  }

  /** The frames of a stream that came from the queue. */
  function Data(fs: seq<Frame>): seq<Frame> {
    if fs == [] then []
    else Data(fs[..|fs| - 1]) + if Control(fs[|fs| - 1]) then [] else [fs[|fs| - 1]]
  }

  lemma {:induction false} DataCat(fs: seq<Frame>, gs: seq<Frame>)
    ensures Data(fs + gs) == Data(fs) + Data(gs)
    decreases |gs|
  {
    if gs == [] {
      assert fs + gs == fs;
    } else {
      assert (fs + gs)[..|fs + gs| - 1] == fs + gs[..|gs| - 1];
      DataCat(fs, gs[..|gs| - 1]);
    }
  }

  lemma {:induction false} NoControl(fs: seq<Frame>)
    requires forall i :: 0 <= i < |fs| ==> !Control(fs[i])
    ensures Data(fs) == fs
  {
    if fs != [] {
      NoControl(fs[..|fs| - 1]);
    }
  }

  lemma ControlEncodes(f: Frame)
    requires Control(f)
    ensures Encodes(f) && Data([f]) == []
  {
    assert [f][..0] == [];
  }

  class SessionWriter {
    /** The frames waiting in the session's queue. */
    var rx: seq<Frame>
    const batch: Buffer
    /** The bytes given to the connection. */
    var written: Bytes
    /** The frames those bytes are, keepalives included. */
    ghost var wire: seq<Frame>
    /** The frames it took from the queue and wrote. */
    ghost var taken: seq<Frame>

    ghost predicate Valid()
      reads this
    {
      written == WireAll(wire) && Data(wire) == Data(taken)
    }

    constructor (queue: seq<Frame>)
      ensures Valid() && fresh(batch) && rx == queue && taken == []
    {
      rx := queue;
      batch := new Buffer();
      written := [];
      wire := [];
      taken := [];
    }

    /** Encodes `first` and then frames from the queue until the batch is full, the queue is empty or 63 were
        taken. Fails on a frame that cannot be encoded. */
    method FillBatch(first: Frame) returns (r: Result<(), Error>)
      modifies `rx, batch
      ensures r.Ok? ==>
        var n := Taken(|Wire(first)|, old(rx), 63);
        && n <= |old(rx)| && rx == old(rx)[n..] && batch.data == WireAll([first] + old(rx)[..n])
      ensures Encodes(first) && (forall i :: 0 <= i < |old(rx)| ==> Encodes(old(rx)[i])) ==> r.Ok?
    {
      hide Wire, Encodes, WireAll, Taken;
      batch.data := [];
      r := batch.EncodeInto(first);
      if r.Err? {
        return;
      }
      ghost var queue := rx;
      FirstOnly(first, queue);
      for i := 0 to MAX_EXTRA_FRAMES
        invariant i <= |queue| && rx == queue[i..] && r.Ok?
        invariant batch.data == WireAll([first] + queue[..i])
        invariant Taken(|Wire(first)|, queue, MAX_EXTRA_FRAMES) == i + Taken(|batch.data|, rx, MAX_EXTRA_FRAMES - i)
      {
        TakenStep(|batch.data|, rx, MAX_EXTRA_FRAMES - i);
        if |batch.data| >= MAX_BATCH_BYTES {
          break;
        }
        if rx == [] {
          break;
        }
        var frame := rx[0];
        rx := rx[1..];
        r := batch.EncodeInto(frame);
        if r.Err? {
          return;
        }
        OneMore(first, queue, i);
      }
      TakenStep(|batch.data|, rx, 0);
    }

    /** Writes one batch. A frame that cannot be encoded fails the call before anything is written. */
    method WriteBatch(first: Frame) returns (r: Result<(), Error>)
      requires Valid()
      modifies this, batch
      ensures Valid()
      ensures r.Ok? ==>
        var n := Taken(|Wire(first)|, old(rx), 63);
        && n <= |old(rx)| && rx == old(rx)[n..]
        && wire == old(wire) + ([first] + old(rx)[..n])
        && taken == old(taken) + ([first] + old(rx)[..n])
      ensures r.Err? ==> written == old(written) && wire == old(wire) && taken == old(taken)
      ensures Encodes(first) && (forall i :: 0 <= i < |old(rx)| ==> Encodes(old(rx)[i])) ==> r.Ok?
    {
      hide Wire, Encodes, WireAll, Taken, Data;
      ghost var queue := rx;
      r := FillBatch(first);
      if r.Ok? {
        ghost var frames := [first] + queue[..Taken(|Wire(first)|, queue, MAX_EXTRA_FRAMES)];
        WireAllCat(wire, frames);
        DataCat(wire, frames);
        DataCat(taken, frames);
        written := written + batch.data;
        wire := wire + frames;
        taken := taken + frames;
      }
    }

    /** A keepalive on its own. */
    method WriteControl(frame: Frame) returns (r: Result<(), Error>)
      requires Valid() && Control(frame)
      modifies this, batch
      ensures Valid() && rx == old(rx) && taken == old(taken) && r.Ok?
      ensures wire == old(wire) + [frame]
    {
      hide Wire, Encodes, WireAll, Data, Control, Payload, PacketFits, PacketOf;
      ControlEncodes(frame);
      batch.data := [];
      r := batch.EncodeInto(frame);
      assert batch.data == Wire(frame);
      written := written + batch.data;
      WireAllOne(wire, frame);
      DataCat(wire, [frame]);
      wire := wire + [frame];
    }
  }

  /** What the relay puts into queues: nothing longer than a full RecvPacket. */
  predicate Sendable(f: Frame) {
    PacketFits(f) && |Payload(f)| <= MAX_FRAME - HEADER_LEN
  }

  lemma SendableLength(f: Frame)
    requires Sendable(f)
    ensures Encodes(f) && |Wire(f)| <= MAX_FRAME
  {
    hide Payload, PacketOf;
  }

  /** A batch of sendable frames holds 1 to 64 of them and never exceeds 65535 bytes plus one maximal frame. */
  lemma BatchBound(first: Frame, queue: seq<Frame>)
    requires Sendable(first) && forall i :: 0 <= i < |queue| ==> Sendable(queue[i])
    ensures var n := Taken(|Wire(first)|, queue, 63);
      && n <= |queue|
      && |WireAll([first] + queue[..n])| <= 65535 + (5 + 32 + 65536)
      && 1 <= |[first] + queue[..n]| <= 64
  {
    hide Wire, WireAll, Taken, Sendable;
    var n := Taken(|Wire(first)|, queue, MAX_EXTRA_FRAMES);
    TakenLimits(|Wire(first)|, queue, MAX_EXTRA_FRAMES);
    SendableLength(first);
    if n == 0 {
      FirstOnly(first, queue);
    } else {
      assert ([first] + queue[..n - 1])[1..] == queue[..n - 1];
      WireAllHead([first] + queue[..n - 1]);
      OneMore(first, queue, n - 1);
      SendableLength(queue[n - 1]);
    }
  }

  /** Reading back what a writer wrote yields the normal forms of its frames, in order, with nothing left. */
  lemma ClientReadsWire(wire: seq<Frame>, max: nat)
    requires forall i :: 0 <= i < |wire| ==> Travels(wire[i], max)
    ensures ReadMany(WireAll(wire), max, |wire|) == Some((NormaliseAll(wire), []))
  {
    hide Wire;
    StreamRoundTrip(wire, max, []);
    assert WireAll(wire) + [] == WireAll(wire);
  }
}
