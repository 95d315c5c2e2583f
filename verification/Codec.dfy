/** The DERP frame codec: what a frame looks like on the wire, how a payload is read back,
    and how frames are cut out of a byte stream. */
module Codec {
  import opened Types
  import opened BigEndian

  const MAGIC: Bytes := [0x44, 0x45, 0x52, 0x50, 0xF0, 0x9F, 0x94, 0x91]
  const HEADER_LEN: nat := 5
  const KEY_LEN: nat := 32
  const NONCE_LEN: nat := 24
  const LENGTH_LIMIT: nat := 0x1_0000_0000

  datatype Error =
    | Io
    | FrameTooLarge(size: nat)
    | PacketTooLarge(size: nat)
    | Invalid(why: string)
    | InvalidKey

  // ---------------------------------------------------------------- encoding

  function Kind(f: Frame): byte {
    match f
    case ServerKey(_) => 0x01
    case ClientInfo(_, _) => 0x02
    case ServerInfo(_) => 0x03
    case SendPacket(_, _) => 0x04
    case RecvPacket(_, _) => 0x05
    case KeepAlive => 0x06
    case NotePreferred(_) => 0x07
    case PeerGone(_, _) => 0x08
    case PeerPresent(_, _, _, _) => 0x09
    case ForwardPacket(_, _, _) => 0x0a
    case WatchConns => 0x10
    case ClosePeer(_) => 0x11
    case Ping(_) => 0x12
    case Pong(_) => 0x13
    case Health(_) => 0x14
    case Restarting(_, _) => 0x15
    case Unknown(kind, _) => kind
  }

  /** The frame types that `FrameType::from_u8` recognises. */
  predicate KnownKind(kind: byte) {
    0x01 <= kind <= 0x0a || 0x10 <= kind <= 0x15
  }

  function KeyBytes(k: NodeKey): (s: Bytes)
    ensures |s| == KEY_LEN
  {
    ToBE(k, KEY_LEN)
  }

  /** The IPv6 form of an address: an IPv4 address a becomes ::ffff:a. */
  function Mapped(ip: IpAddr): U128 {
    match ip
    case V4(a) => 0xffff_0000_0000 + a
    case V6(a) => a
  }

  function FlagBytes(flags: Option<byte>): Bytes {
    if flags.Some? then [flags.value] else []
  }

  function EndpointBytes(endpoint: Option<SocketAddr>, flags: Option<byte>, extra: Bytes): Bytes {
    if endpoint.None? then []
    else ToBE(Mapped(endpoint.value.ip), 16) + ToBE(endpoint.value.port, 2) + (FlagBytes(flags) + extra)
  }

  function Payload(f: Frame): Bytes {
    match f
    case ServerKey(key) => MAGIC + KeyBytes(key)
    case ClientInfo(key, sealed) => KeyBytes(key) + sealed
    case ServerInfo(sealed) => sealed
    case Health(text) => text
    case SendPacket(dst, packet) => KeyBytes(dst) + packet
    case ForwardPacket(src, dst, packet) => KeyBytes(src) + KeyBytes(dst) + packet
    case RecvPacket(src, packet) => KeyBytes(src) + packet
    case KeepAlive => []
    case WatchConns => []
    case NotePreferred(value) => [if value then 1 else 0]
    case PeerGone(peer, reason) => KeyBytes(peer) + [reason]
    case PeerPresent(peer, endpoint, flags, extra) => KeyBytes(peer) + EndpointBytes(endpoint, flags, extra)
    case ClosePeer(peer) => KeyBytes(peer)
    case Ping(value) => ToBE(value, 8)
    case Pong(value) => ToBE(value, 8)
    case Restarting(reconnectInMs, tryForMs) => ToBE(reconnectInMs, 4) + ToBE(tryForMs, 4)
    case Unknown(_, payload) => payload
  }

  /** The packet that `validate_packet` looks at, if the frame carries one. */
  function PacketOf(f: Frame): Option<Bytes> {
    match f
    case SendPacket(_, packet) => Some(packet)
    case ForwardPacket(_, _, packet) => Some(packet)
    case RecvPacket(_, packet) => Some(packet)
    case _ => None
  }

  predicate PacketFits(f: Frame) {
    PacketOf(f).Some? ==> |PacketOf(f).value| <= MAX_PACKET_SIZE
  }

  predicate Encodes(f: Frame) {
    PacketFits(f) && |Payload(f)| < LENGTH_LIMIT
  }

  /** The wire form of a frame that encodes: one byte of kind, four of length, the payload. */
  function Wire(f: Frame): (s: Bytes)
    ensures |s| == HEADER_LEN + |Payload(f)|
  {
    [Kind(f)] + ToBE(|Payload(f)|, 4) + Payload(f)
  }

  function WireAll(fs: seq<Frame>): Bytes {
    if fs == [] then [] else WireAll(fs[..|fs| - 1]) + Wire(fs[|fs| - 1])
  }

  /** A growable byte buffer (`BytesMut`). */
  class Buffer {
    var data: Bytes

    constructor ()
      ensures data == []
    {
      data := [];
    }

    /** Appends one frame in place: header with a zero length, payload, back-patched length;
        a frame that cannot be encoded is rolled back. */
    method EncodeInto(f: Frame) returns (r: Result<(), Error>)
      modifies this
      ensures r.Ok? <==> Encodes(f)
      ensures r.Ok? ==> data == old(data) + Wire(f)
      ensures r.Err? ==> data == old(data)
      ensures r.Err? ==> r.error == if !PacketFits(f) then PacketTooLarge(|PacketOf(f).value|)
                                    else FrameTooLarge(|Payload(f)|)
    {
      hide Payload, Kind, PacketOf, ToBE;
      var frameStart := |data|;
      data := data + [Kind(f)];
      data := data + ToBE(0, 4);
      var payloadStart := |data|;
      if PacketOf(f).Some? && |PacketOf(f).value| > MAX_PACKET_SIZE {
        r := Err(PacketTooLarge(|PacketOf(f).value|));
      } else {
        data := data + Payload(f);
        var payloadLen := |data| - payloadStart;
        if payloadLen >= LENGTH_LIMIT {
          r := Err(FrameTooLarge(payloadLen));
        } else {
          assert data[..frameStart + 1] == old(data) + [Kind(f)] && data[frameStart + HEADER_LEN..] == Payload(f);
          data := data[..frameStart + 1] + ToBE(payloadLen, 4) + data[frameStart + HEADER_LEN..];
          r := Ok(());
        }
      }
      if r.Err? {
        data := data[..frameStart];
      }
    }
  }

  // ---------------------------------------------------------------- decoding

  /** `NodeKey::from_slice` on 32 bytes. */
  function KeyFrom(s: Bytes): (r: Result<NodeKey, Error>)
    requires |s| == KEY_LEN
    ensures r.Ok? <==> exists i :: 0 <= i < KEY_LEN && s[i] != 0
    ensures r.Ok? ==> KeyBytes(r.value) == s
    ensures r.Err? ==> r.error == InvalidKey
  {
    Widths(); ZeroBytes(s); ToFromBE(s);
    if FromBE(s) == 0 then Err(InvalidKey) else Ok(FromBE(s))
  }

  function Decode(kind: byte, payload: Bytes): Result<Frame, Error> {
    if !KnownKind(kind) then Ok(Unknown(kind, payload))
    else if kind == 0x01 then DecodeServerKey(payload)
    else if kind == 0x02 then DecodeClientInfo(payload)
    else if kind == 0x03 then
      if |payload| < NONCE_LEN then Err(Invalid("short server info")) else Ok(ServerInfo(payload))
    else if kind == 0x04 then DecodeSendPacket(payload)
    else if kind == 0x05 then DecodeRecvPacket(payload)
    else if kind == 0x06 then
      if |payload| != 0 then Err(Invalid("keepalive")) else Ok(KeepAlive)
    else if kind == 0x07 then
      if |payload| != 1 then Err(Invalid("note preferred")) else Ok(NotePreferred(payload[0] != 0))
    else if kind == 0x08 then DecodePeerGone(payload)
    else if kind == 0x09 then DecodePeerPresent(payload)
    else if kind == 0x0a then DecodeForwardPacket(payload)
    else if kind == 0x10 then
      if |payload| != 0 then Err(Invalid("watch conns")) else Ok(WatchConns)
    else if kind == 0x11 then DecodeClosePeer(payload)
    else if kind == 0x12 || kind == 0x13 then DecodePing(payload, kind == 0x12)
    else if kind == 0x14 then Ok(Health(payload))
    else DecodeRestarting(payload)
  }

  function DecodeServerKey(payload: Bytes): Result<Frame, Error> {
    if |payload| < |MAGIC| + KEY_LEN || payload[..|MAGIC|] != MAGIC then Err(Invalid("bad server greeting"))
    else
      var key := KeyFrom(payload[|MAGIC|..|MAGIC| + KEY_LEN]);
      if key.Err? then Err(key.error) else Ok(ServerKey(key.value))
  }

  function DecodeClientInfo(payload: Bytes): Result<Frame, Error> {
    if |payload| < KEY_LEN + NONCE_LEN then Err(Invalid("short client info"))
    else
      var key := KeyFrom(payload[..KEY_LEN]);
      if key.Err? then Err(key.error) else Ok(ClientInfo(key.value, payload[KEY_LEN..]))
  }

  function DecodeSendPacket(payload: Bytes): Result<Frame, Error> {
    if |payload| < KEY_LEN then Err(Invalid("short send packet"))
    else if |payload| - KEY_LEN > MAX_PACKET_SIZE then Err(PacketTooLarge(|payload| - KEY_LEN))
    else
      var dst := KeyFrom(payload[..KEY_LEN]);
      if dst.Err? then Err(dst.error) else Ok(SendPacket(dst.value, payload[KEY_LEN..]))
  }

  function DecodeRecvPacket(payload: Bytes): Result<Frame, Error> {
    if |payload| < KEY_LEN then Err(Invalid("short recv packet"))
    else if |payload| - KEY_LEN > MAX_PACKET_SIZE then Err(PacketTooLarge(|payload| - KEY_LEN))
    else
      var src := KeyFrom(payload[..KEY_LEN]);
      if src.Err? then Err(src.error) else Ok(RecvPacket(src.value, payload[KEY_LEN..]))
  }

  function DecodeForwardPacket(payload: Bytes): Result<Frame, Error> {
    if |payload| < KEY_LEN * 2 then Err(Invalid("short forward packet"))
    else if |payload| - KEY_LEN * 2 > MAX_PACKET_SIZE then Err(PacketTooLarge(|payload| - KEY_LEN * 2))
    else
      var src := KeyFrom(payload[..KEY_LEN]);
      var dst := KeyFrom(payload[KEY_LEN..KEY_LEN * 2]);
      if src.Err? then Err(src.error)
      else if dst.Err? then Err(dst.error)
      else Ok(ForwardPacket(src.value, dst.value, payload[KEY_LEN * 2..]))
  }

  function DecodePeerGone(payload: Bytes): Result<Frame, Error> {
    if |payload| < KEY_LEN then Err(Invalid("short peer gone"))
    else
      var peer := KeyFrom(payload[..KEY_LEN]);
      if peer.Err? then Err(peer.error)
      else Ok(PeerGone(peer.value, if |payload| > KEY_LEN then payload[KEY_LEN] else DISCONNECTED))
  }

  function DecodePeerPresent(payload: Bytes): Result<Frame, Error> {
    if |payload| < KEY_LEN then Err(Invalid("short peer present"))
    else
      var peer := KeyFrom(payload[..KEY_LEN]);
      if peer.Err? then Err(peer.error) else Ok(Present(peer.value, payload))
  }

  function DecodeClosePeer(payload: Bytes): Result<Frame, Error> {
    if |payload| != KEY_LEN then Err(Invalid("close peer"))
    else
      var peer := KeyFrom(payload);
      if peer.Err? then Err(peer.error) else Ok(ClosePeer(peer.value))
  }

  function DecodePing(payload: Bytes, ping: bool): Result<Frame, Error> {
    if |payload| < 8 then Err(Invalid("short ping/pong"))
    else if |payload| > 1000 then Err(Invalid("oversized ping/pong"))
    else Widths(); var v: U64 := FromBE(payload[..8]); Ok(if ping then Ping(v) else Pong(v))
  }

  function DecodeRestarting(payload: Bytes): Result<Frame, Error> {
    if |payload| < 8 then Err(Invalid("short restarting"))
    else Widths(); Ok(Restarting(FromBE(payload[..4]), FromBE(payload[4..8])))
  }

  function Present(peer: NodeKey, payload: Bytes): Frame {
    var endpoint :=
      if |payload| >= KEY_LEN + 18 then
        Widths();
        Some(SocketAddr(V6(FromBE(payload[KEY_LEN..KEY_LEN + 16])), FromBE(payload[KEY_LEN + 16..KEY_LEN + 18])))
      else None;
    var flags := if |payload| > KEY_LEN + 18 then Some(payload[KEY_LEN + 18]) else None;
    var extra := if |payload| > KEY_LEN + 19 then payload[KEY_LEN + 19..] else [];
    PeerPresent(peer, endpoint, flags, extra)
  }

  // ---------------------------------------------------------------- normal form

  /** What a frame turns into on its way over the wire: an IPv4 endpoint becomes an IPv6-mapped one,
      flags and extra are not sent without an endpoint, and extra sent without flags is read as flags. */
  function Normalise(f: Frame): Frame {
    match f
    case PeerPresent(peer, endpoint, flags, extra) =>
      if endpoint.None? then PeerPresent(peer, None, None, [])
      else
        var e := Some(SocketAddr(V6(Mapped(endpoint.value.ip)), endpoint.value.port));
        if flags.None? && extra != [] then PeerPresent(peer, e, Some(extra[0]), extra[1..])
        else PeerPresent(peer, e, flags, extra)
    case _ => f
  }

  /** The frames that decoding produces. */
  predicate Normal(f: Frame) {
    && PacketFits(f)
    && MeetsMinimum(f)
    && (f.PeerPresent? ==>
          && (f.endpoint.None? ==> f.flags.None?)
          && (f.endpoint.Some? ==> f.endpoint.value.ip.V6?)
          && (f.flags.None? ==> f.extra == []))
  }

  /** Decoding's minimum lengths for sealed boxes; an unknown frame must not borrow a known kind. */
  predicate MeetsMinimum(f: Frame) {
    match f
    case ClientInfo(_, sealed) => |sealed| >= NONCE_LEN
    case ServerInfo(sealed) => |sealed| >= NONCE_LEN
    case Unknown(kind, _) => !KnownKind(kind)
    case _ => true
  }

  lemma KeyRoundTrip(k: NodeKey)
    ensures KeyFrom(KeyBytes(k)) == Ok(k)
  {
    Widths();
    FromToBE(k, KEY_LEN);
  }

  lemma PresentRoundTrip(f: Frame)
    requires f.PeerPresent?
    ensures Present(f.peer, Payload(f)) == Normalise(f)
  {
    hide ToBE, FromBE, Pow256, KeyFrom;
    var p := Payload(f);
    if f.endpoint.Some? {
      Widths();
      var ip, port := Mapped(f.endpoint.value.ip), f.endpoint.value.port;
      var rest := FlagBytes(f.flags) + f.extra;
      FromToBE(ip, 16);
      FromToBE(port, 2);
      assert p[KEY_LEN..KEY_LEN + 16] == ToBE(ip, 16);
      assert p[KEY_LEN + 16..KEY_LEN + 18] == ToBE(port, 2);
      assert p[KEY_LEN + 18..] == rest;
      assert |rest| > 0 ==> p[KEY_LEN + 18] == rest[0] && p[KEY_LEN + 19..] == rest[1..];
      assert f.flags.Some? ==> rest[1..] == f.extra;
      assert f.flags.None? ==> rest == f.extra;
    }
  }

  /** A payload that starts with a key: reading the key back. */
  lemma LeadingKey(k: NodeKey, rest: Bytes)
    ensures (KeyBytes(k) + rest)[..KEY_LEN] == KeyBytes(k)
    ensures (KeyBytes(k) + rest)[KEY_LEN..] == rest
    ensures KeyFrom((KeyBytes(k) + rest)[..KEY_LEN]) == Ok(k)
  {
    assert (KeyBytes(k) + rest)[..KEY_LEN] == KeyBytes(k);
    KeyRoundTrip(k);
  }

  lemma ServerKeyRoundTrip(k: NodeKey)
    ensures DecodeServerKey(Payload(ServerKey(k))) == Ok(ServerKey(k))
  {
    var p := Payload(ServerKey(k));
    assert p[..|MAGIC|] == MAGIC && p[|MAGIC|..|MAGIC| + KEY_LEN] == KeyBytes(k);
    KeyRoundTrip(k);
  }

  lemma ForwardRoundTrip(src: NodeKey, dst: NodeKey, packet: Bytes)
    requires |packet| <= MAX_PACKET_SIZE
    ensures DecodeForwardPacket(Payload(ForwardPacket(src, dst, packet))) == Ok(ForwardPacket(src, dst, packet))
  {
    var p := Payload(ForwardPacket(src, dst, packet));
    assert p[..KEY_LEN] == KeyBytes(src) && p[KEY_LEN..KEY_LEN * 2] == KeyBytes(dst);
    assert p[KEY_LEN * 2..] == packet;
    KeyRoundTrip(src);
    KeyRoundTrip(dst);
  }

  lemma WordsRoundTrip(a: U32, b: U32, v: U64)
    ensures DecodeRestarting(Payload(Restarting(a, b))) == Ok(Restarting(a, b))
    ensures DecodePing(ToBE(v, 8), true) == Ok(Ping(v)) && DecodePing(ToBE(v, 8), false) == Ok(Pong(v))
  {
    Widths();
    FromToBE(a, 4);
    FromToBE(b, 4);
    FromToBE(v, 8);
    var p := Payload(Restarting(a, b));
    assert p[..4] == ToBE(a, 4) && p[4..8] == ToBE(b, 4);
    assert ToBE(v, 8)[..8] == ToBE(v, 8);
  }

  lemma ClientInfoRoundTrip(k: NodeKey, sealed: Bytes)
    ensures DecodeClientInfo(Payload(ClientInfo(k, sealed))) ==
            if |sealed| >= NONCE_LEN then Ok(ClientInfo(k, sealed)) else Err(Invalid("short client info"))
  {
    LeadingKey(k, sealed);
  }

  lemma PacketRoundTrip(k: NodeKey, packet: Bytes)
    requires |packet| <= MAX_PACKET_SIZE
    ensures DecodeSendPacket(Payload(SendPacket(k, packet))) == Ok(SendPacket(k, packet))
    ensures DecodeRecvPacket(Payload(RecvPacket(k, packet))) == Ok(RecvPacket(k, packet))
  {
    LeadingKey(k, packet);
  }

  lemma PeerRoundTrip(k: NodeKey, reason: byte)
    ensures DecodePeerGone(Payload(PeerGone(k, reason))) == Ok(PeerGone(k, reason))
    ensures DecodeClosePeer(Payload(ClosePeer(k))) == Ok(ClosePeer(k))
  {
    LeadingKey(k, [reason]);
    KeyRoundTrip(k);
  }

  lemma PeerPresentRoundTrip(f: Frame)
    requires f.PeerPresent?
    ensures DecodePeerPresent(Payload(f)) == Ok(Normalise(f))
  {
    hide Present, EndpointBytes, Normalise, KeyFrom;
    LeadingKey(f.peer, EndpointBytes(f.endpoint, f.flags, f.extra));
    PresentRoundTrip(f);
  }

  /** Decoding an encoded payload yields the frame's normal form if and only if the frame meets the minimum lengths
      and is not an unknown frame that borrows a known kind. A short box is refused by name; an unknown frame that
      borrows a kind is refused or read as a frame of that kind. */
  lemma DecodeEncoded(f: Frame)
    requires PacketFits(f)
    ensures Decode(Kind(f), Payload(f)) == Ok(Normalise(f)) <==> MeetsMinimum(f)
    ensures f.ClientInfo? && !MeetsMinimum(f) ==> Decode(Kind(f), Payload(f)) == Err(Invalid("short client info"))
    ensures f.ServerInfo? && !MeetsMinimum(f) ==> Decode(Kind(f), Payload(f)) == Err(Invalid("short server info"))
    ensures f.Unknown? && !MeetsMinimum(f) ==>
      var r := Decode(Kind(f), Payload(f)); r.Err? || (!r.value.Unknown? && Kind(r.value) == f.kind)
  {
    if f.Unknown? && KnownKind(f.kind) {
      BorrowedKind(f.kind, f.payload);
    } else {
      DecodeOwnKind(f);
    }
  }

  lemma BorrowedKind(kind: byte, payload: Bytes)
    requires KnownKind(kind)
    ensures var r := Decode(kind, payload); r.Err? || (!r.value.Unknown? && Kind(r.value) == kind)
  {
    hide KeyFrom, ToBE, FromBE, Pow256;
  }

  lemma DecodeOwnKind(f: Frame)
    requires PacketFits(f)
    requires f.Unknown? ==> !KnownKind(f.kind)
    ensures Decode(Kind(f), Payload(f)) ==
            if MeetsMinimum(f) then Ok(Normalise(f))
            else Err(Invalid(if f.ClientInfo? then "short client info" else "short server info"))
  {
    hide ToBE, KeyBytes, DecodeServerKey, DecodeClientInfo, DecodeSendPacket, DecodeRecvPacket, DecodePeerGone,
      DecodePeerPresent, DecodeForwardPacket, DecodeClosePeer, DecodePing, DecodeRestarting;
    match f
    case ServerKey(key) => ServerKeyRoundTrip(key);
    case ClientInfo(key, sealed) => ClientInfoRoundTrip(key, sealed);
    case SendPacket(dst, packet) => PacketRoundTrip(dst, packet);
    case RecvPacket(src, packet) => PacketRoundTrip(src, packet);
    case ForwardPacket(src, dst, packet) => ForwardRoundTrip(src, dst, packet);
    case PeerGone(peer, reason) => PeerRoundTrip(peer, reason);
    case PeerPresent(_, _, _, _) => PeerPresentRoundTrip(f);
    case ClosePeer(peer) => PeerRoundTrip(peer, 0);
    case Ping(value) => WordsRoundTrip(0, 0, value);
    case Pong(value) => WordsRoundTrip(0, 0, value);
    case Restarting(a, b) => WordsRoundTrip(a, b, 0);
    case _ =>
  }

  lemma DecodedShape(kind: byte, payload: Bytes)
    requires Decode(kind, payload).Ok?
    ensures var f := Decode(kind, payload).value;
      && Normal(f)
      && Kind(f) == kind
      && |Payload(f)| <= if f.PeerGone? && |payload| == KEY_LEN then KEY_LEN + 1 else |payload|
  {
    hide KeyFrom, ToBE, FromBE, Pow256;
  }

  /** Every successful decode yields a normal-form frame of the kind that was read, never longer than what
      was read (but for the reason byte that a bare PeerGone gains), and that frame decodes to itself. */
  lemma DecodeNormalises(kind: byte, payload: Bytes)
    requires Decode(kind, payload).Ok?
    ensures var f := Decode(kind, payload).value;
      && Normal(f)
      && Kind(f) == kind
      && |Payload(f)| <= (if f.PeerGone? && |payload| == KEY_LEN then KEY_LEN + 1 else |payload|)
      && Decode(kind, Payload(f)) == Ok(f)
  {
    hide Decode, Payload, Kind, Normalise;
    var f := Decode(kind, payload).value;
    DecodedShape(kind, payload);
    DecodeEncoded(f);
    NormalIsFixed(f);
  }

  /** Normal frames are exactly the decodable ones that the wire leaves unchanged, and one trip suffices. */
  lemma NormalIsFixed(f: Frame)
    ensures Normal(f) <==> PacketFits(f) && MeetsMinimum(f) && Normalise(f) == f
    ensures Normalise(Normalise(f)) == Normalise(f)
  {
  }

  // ---------------------------------------------------------------- streams

  /** `read_frame` on the bytes still to come: the outcome and the bytes left afterwards. */
  function Read(stream: Bytes, max: nat): (Result<Frame, Error>, Bytes) {
    if |stream| < HEADER_LEN then (Err(Io), [])
    else
      var len := FromBE(stream[1..HEADER_LEN]);
      if len > max then (Err(FrameTooLarge(len)), stream[HEADER_LEN..])
      else if |stream| < HEADER_LEN + len then (Err(Io), [])
      else (Decode(stream[0], stream[HEADER_LEN..HEADER_LEN + len]), stream[HEADER_LEN + len..])
  }

  /** `count` calls of `read_frame`; None as soon as one of them fails. */
  function ReadMany(stream: Bytes, max: nat, count: nat): Option<(seq<Frame>, Bytes)> {
    if count == 0 then Some(([], stream))
    else
      var head := ReadMany(stream, max, count - 1);
      if head.None? then None
      else
        var (r, rest) := Read(head.value.1, max);
        if r.Err? then None else Some((head.value.0 + [r.value], rest))
  }

  function NormaliseAll(fs: seq<Frame>): seq<Frame> {
    seq(|fs|, i requires 0 <= i < |fs| => Normalise(fs[i]))
  }

  predicate Travels(f: Frame, max: nat) {
    Encodes(f) && MeetsMinimum(f) && |Payload(f)| <= max
  }

  lemma ReadOne(f: Frame, max: nat, tail: Bytes)
    requires Travels(f, max)
    ensures Read(Wire(f) + tail, max) == (Ok(Normalise(f)), tail)
  {
    hide Payload, Kind, Decode, Normalise, ToBE, FromBE, Pow256;
    var s := Wire(f) + tail;
    Widths();
    FromToBE(|Payload(f)|, 4);
    assert s[1..HEADER_LEN] == ToBE(|Payload(f)|, 4);
    assert s[HEADER_LEN..HEADER_LEN + |Payload(f)|] == Payload(f);
    assert s[HEADER_LEN + |Payload(f)|..] == tail;
    DecodeEncoded(f);
  }

  /** Reading back a run of encoded frames yields their normal forms in order and leaves exactly the
      bytes that follow them. */
  lemma {:induction false} StreamRoundTrip(fs: seq<Frame>, max: nat, tail: Bytes)
    requires forall i :: 0 <= i < |fs| ==> Travels(fs[i], max)
    ensures ReadMany(WireAll(fs) + tail, max, |fs|) == Some((NormaliseAll(fs), tail))
  {
    hide Payload, Kind, Decode, Normalise, Read, Wire, ToBE, FromBE;
    if fs == [] {
      assert WireAll(fs) + tail == tail;
    } else {
      var front, last := fs[..|fs| - 1], fs[|fs| - 1];
      StreamRoundTrip(front, max, Wire(last) + tail);
      ReadOne(last, max, tail);
      assert WireAll(fs) + tail == WireAll(front) + (Wire(last) + tail);
      assert NormaliseAll(fs) == NormaliseAll(front) + [Normalise(last)];
    }
  }

  /** Frames in normal form, unknown kinds included, survive unchanged and nothing is left over. */
  lemma NormalStreamRoundTrip(fs: seq<Frame>, max: nat)
    requires forall i :: 0 <= i < |fs| ==> Normal(fs[i]) && Travels(fs[i], max)
    ensures ReadMany(WireAll(fs), max, |fs|) == Some((fs, []))
  {
    StreamRoundTrip(fs, max, []);
    assert WireAll(fs) + [] == WireAll(fs);
    forall i | 0 <= i < |fs| ensures NormaliseAll(fs)[i] == fs[i] {
      NormalIsFixed(fs[i]);
    }
    assert NormaliseAll(fs) == fs;
  }

  /** The receiving end of a connection. */
  class Stream {
    var rest: Bytes

    method ReadFrame(max: nat) returns (r: Result<Frame, Error>)
      modifies this
      ensures (r, rest) == Read(old(rest), max)
    {
      if |rest| < HEADER_LEN {
        rest := [];
        return Err(Io);
      }
      var header := rest[..HEADER_LEN];
      rest := rest[HEADER_LEN..];
      var len := FromBE(header[1..]);
      assert header[1..] == old(rest)[1..HEADER_LEN];
      if len > max {
        return Err(FrameTooLarge(len));
      }
      if |rest| < len {
        rest := [];
        return Err(Io);
      }
      var payload := rest[..len];
      rest := rest[len..];
      assert payload == old(rest)[HEADER_LEN..HEADER_LEN + len];
      r := Decode(header[0], payload);
    }
  }
}
