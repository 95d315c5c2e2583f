/** What the reader of a session does with each frame the client sends, by what the session may do. */
module Dispatch {
  import opened Types
  import opened RateLimit
  import opened RelayState

  datatype Action =
    | DoRoute(p: Packet, forwarded: bool)
    | DoWatch
    | DoClose(peer: NodeKey)
    | DoPong(value: U64)
    | DoPrefer(preferred: bool)
    | Ignore
    | CountUnknown
    | Hangup(why: string)

  function Handle(info: Info, frame: Frame): Action {
    match frame
    case SendPacket(dst, packet) => DoRoute(Packet(info.key, dst, packet), false)
    case ForwardPacket(src, dst, packet) =>
      if info.canMesh then DoRoute(Packet(src, dst, packet), true) else Hangup("insufficient mesh permissions")
    case WatchConns => if info.canMesh then DoWatch else Hangup("insufficient mesh permissions")
    case ClosePeer(peer) => if info.canMesh then DoClose(peer) else Hangup("insufficient mesh permissions")
    case Ping(value) => DoPong(value)
    case NotePreferred(preferred) => DoPrefer(preferred)
    case Pong(_) => Ignore
    case KeepAlive => Ignore
    case Unknown(_, _) => CountUnknown
    case _ => Hangup("unexpected client frame type")
  }

  /** A packet is routed in a source's name only when the session holds that source's key or is a mesh peer;
      the frame it came in determines all of it. */
  lemma RoutesAreAuthorised(info: Info, frame: Frame, p: Packet, forwarded: bool)
    ensures Handle(info, frame) == DoRoute(p, forwarded) <==>
            || (!forwarded && p.src == info.key && frame == SendPacket(p.dst, p.bytes))
            || (forwarded && info.canMesh && frame == ForwardPacket(p.src, p.dst, p.bytes))
  {
  }

  /** What the token bucket charges for a frame. */
  function FrameCost(frame: Frame): nat {
    match frame
    case SendPacket(_, packet) => |packet| + 64
    case ForwardPacket(_, _, packet) => |packet| + 64
    case _ => 64
  }

  /** The packet bytes that a run of frames brings in. */
  function PacketBytes(frames: seq<Frame>): nat {
    if frames == [] then 0
    else
      var f := frames[|frames| - 1];
      PacketBytes(frames[..|frames| - 1])
      + if f.SendPacket? || f.ForwardPacket? then |f.packet| else 0
  }

  /** The reader puts one call to the bucket for every frame it reads. */
  predicate Charged(frames: seq<Frame>, calls: seq<Call>) {
    |frames| == |calls| && forall i :: 0 <= i < |calls| ==> calls[i].n == FrameCost(frames[i])
  }

  lemma {:induction false} CostsAddUp(frames: seq<Frame>, calls: seq<Call>)
    requires Charged(frames, calls)
    ensures Total(calls) == PacketBytes(frames) + 64 * |frames|
  {
    if frames != [] {
      CostsAddUp(frames[..|frames| - 1], calls[..|calls| - 1]);
    }
  }

  /** What a client without mesh rights gets past the reader between two admissions: its packet bytes and 64 bytes
      for every frame, whatever its kind, stay within burst + rate * elapsed. */
  lemma ClientRateBound(b: Bucket, frames: seq<Frame>, calls: seq<Call>, i: nat)
    requires BucketOk(b) && i < |calls| && Possible(b, calls) && Charged(frames, calls)
    ensures (PacketBytes(frames) - PacketBytes(frames[..i + 1]) + 64 * (|frames| - i - 1)) as real
         <= b.burst + b.rate * (calls[|calls| - 1].done - calls[i].done)
  {
    hide BucketOk, Possible, PacketBytes, Total;
    AdmissionBound(b, calls, i);
    CostsAddUp(frames, calls);
    CostsAddUp(frames[..i + 1], calls[..i + 1]);
  }
}
