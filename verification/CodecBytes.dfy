/** The wire format octet by octet: for every frame its kind, and where each of its fields is. */
module CodecBytes {
  import opened Types
  import opened BigEndian
  import opened Codec

  function Word16(s: Bytes, at: nat): nat
    requires at + 2 <= |s|
  {
    (s[at] as int) * 0x100 + s[at + 1]
  }

  function Word32(s: Bytes, at: nat): nat
    requires at + 4 <= |s|
  {
    (s[at] as int) * 0x100_0000 + (s[at + 1] as int) * 0x1_0000 + (s[at + 2] as int) * 0x100 + s[at + 3]
  }

  lemma FromBE16(s: Bytes)
    requires |s| == 2
    ensures FromBE(s) == Word16(s, 0)
  {
    assert s[..1] == [s[0]] && s[..1][..0] == [];
  }

  lemma FromBE32(s: Bytes)
    requires |s| == 4
    ensures FromBE(s) == Word32(s, 0)
  {
    var a, b, c := s[..3], s[..2], s[..1];
    assert a[..2] == b && b[..1] == c && c[..0] == [];
    assert FromBE(c) == s[0] && FromBE(b) == 256 * FromBE(c) + s[1] && FromBE(a) == 256 * FromBE(b) + s[2];
  }

  lemma ToBE16(n: U16)
    ensures Word16(ToBE(n, 2), 0) == n
  {
    Widths();
    FromToBE(n, 2);
    FromBE16(ToBE(n, 2));
  }

  lemma ToBE32(n: U32)
    ensures Word32(ToBE(n, 4), 0) == n
  {
    Widths();
    FromToBE(n, 4);
    FromBE32(ToBE(n, 4));
  }

  // ---------------------------------------------------------------- decoding

  /** The payload s of a frame of this kind spells f. */
  predicate Spells(kind: byte, s: Bytes, f: Frame) {
    match f
    case ServerKey(key) =>
      && kind == 0x01 && |s| >= 40
      && s[..8] == [0x44, 0x45, 0x52, 0x50, 0xf0, 0x9f, 0x94, 0x91] && KeyBytes(key) == s[8..40]
    case ClientInfo(key, sealed) => kind == 0x02 && |s| >= 56 && KeyBytes(key) == s[..32] && sealed == s[32..]
    case ServerInfo(sealed) => kind == 0x03 && |s| >= 24 && sealed == s
    case SendPacket(dst, packet) =>
      kind == 0x04 && 32 <= |s| <= 32 + 65536 && KeyBytes(dst) == s[..32] && packet == s[32..]
    case RecvPacket(src, packet) =>
      kind == 0x05 && 32 <= |s| <= 32 + 65536 && KeyBytes(src) == s[..32] && packet == s[32..]
    case KeepAlive => kind == 0x06 && s == []
    case NotePreferred(preferred) => kind == 0x07 && |s| == 1 && preferred == (s[0] != 0)
    case PeerGone(peer, reason) =>
      kind == 0x08 && |s| >= 32 && KeyBytes(peer) == s[..32] && reason == if |s| > 32 then s[32] else 0
    case PeerPresent(peer, endpoint, flags, extra) =>
      && kind == 0x09 && |s| >= 32 && KeyBytes(peer) == s[..32]
      && (if |s| < 50 then endpoint == None
          else
            && endpoint.Some? && endpoint.value.ip.V6?
            && ToBE(endpoint.value.ip.v6, 16) == s[32..48] && endpoint.value.port == Word16(s, 48))
      && flags == (if |s| > 50 then Some(s[50]) else None)
      && extra == (if |s| > 51 then s[51..] else [])
    case ForwardPacket(src, dst, packet) =>
      && kind == 0x0a && 64 <= |s| <= 64 + 65536
      && KeyBytes(src) == s[..32] && KeyBytes(dst) == s[32..64] && packet == s[64..]
    case WatchConns => kind == 0x10 && s == []
    case ClosePeer(peer) => kind == 0x11 && |s| == 32 && KeyBytes(peer) == s
    case Ping(value) => kind == 0x12 && 8 <= |s| <= 1000 && ToBE(value, 8) == s[..8]
    case Pong(value) => kind == 0x13 && 8 <= |s| <= 1000 && ToBE(value, 8) == s[..8]
    case Health(text) => kind == 0x14 && text == s
    case Restarting(reconnectInMs, tryForMs) =>
      kind == 0x15 && |s| >= 8 && reconnectInMs == Word32(s, 0) && tryForMs == Word32(s, 4)
    case Unknown(k, payload) =>
      k == kind && payload == s && (kind == 0 || 0x0b <= kind <= 0x0f || kind >= 0x16)
  }

  lemma KeyIs(s: Bytes, k: NodeKey)
    requires |s| == 32
    ensures KeyFrom(s) == Ok(k) <==> KeyBytes(k) == s
  {
    hide KeyFrom;
    KeyRoundTrip(k);
  }

  lemma ValueIs(s: Bytes, v: U64)
    requires |s| == 8
    ensures FromBE(s) == v <==> ToBE(v, 8) == s
  {
    hide ToBE, FromBE;
    Widths();
    ToFromBE(s);
    FromToBE(v, 8);
  }

  lemma AddressIs(s: Bytes, v: U128)
    requires |s| == 16
    ensures FromBE(s) == v <==> ToBE(v, 16) == s
  {
    hide ToBE, FromBE;
    Widths();
    ToFromBE(s);
    FromToBE(v, 16);
  }

  lemma KeyedIs(s: Bytes, f: Frame)
    ensures DecodeServerKey(s) == Ok(f) <==> f.ServerKey? && Spells(0x01, s, f)
    ensures DecodeClientInfo(s) == Ok(f) <==> f.ClientInfo? && Spells(0x02, s, f)
    ensures DecodePeerGone(s) == Ok(f) <==> f.PeerGone? && Spells(0x08, s, f)
    ensures DecodeClosePeer(s) == Ok(f) <==> f.ClosePeer? && Spells(0x11, s, f)
  {
    hide KeyFrom, KeyBytes;
    match f
    case ServerKey(k) => if |s| >= 40 { KeyIs(s[8..40], k); }
    case ClientInfo(k, _) => if |s| >= 32 { KeyIs(s[..32], k); }
    case PeerGone(k, _) => if |s| >= 32 { KeyIs(s[..32], k); }
    case ClosePeer(k) => if |s| == 32 { KeyIs(s, k); }
    case _ =>
  }

  lemma PacketsIs(s: Bytes, f: Frame)
    ensures DecodeSendPacket(s) == Ok(f) <==> f.SendPacket? && Spells(0x04, s, f)
    ensures DecodeRecvPacket(s) == Ok(f) <==> f.RecvPacket? && Spells(0x05, s, f)
    ensures DecodeForwardPacket(s) == Ok(f) <==> f.ForwardPacket? && Spells(0x0a, s, f)
  {
    hide KeyFrom, KeyBytes;
    match f
    case SendPacket(k, _) => if |s| >= 32 { KeyIs(s[..32], k); }
    case RecvPacket(k, _) => if |s| >= 32 { KeyIs(s[..32], k); }
    case ForwardPacket(a, b, _) =>
      if |s| >= 64 {
        KeyIs(s[..32], a);
        KeyIs(s[32..64], b);
      }
    case _ =>
  }

  lemma WordsIs(s: Bytes, f: Frame)
    ensures DecodePing(s, true) == Ok(f) <==> f.Ping? && Spells(0x12, s, f)
    ensures DecodePing(s, false) == Ok(f) <==> f.Pong? && Spells(0x13, s, f)
    ensures DecodeRestarting(s) == Ok(f) <==> f.Restarting? && Spells(0x15, s, f)
  {
    hide ToBE, FromBE, Pow256, KeyBytes;
    if |s| >= 8 {
      FromBE32(s[..4]);
      FromBE32(s[4..8]);
      match f
      case Ping(v) => ValueIs(s[..8], v);
      case Pong(v) => ValueIs(s[..8], v);
      case _ =>
    }
  }

  lemma PresentIs(s: Bytes, f: Frame)
    ensures DecodePeerPresent(s) == Ok(f) <==> f.PeerPresent? && Spells(0x09, s, f)
  {
    hide KeyFrom, KeyBytes, ToBE, FromBE, Pow256;
    if f.PeerPresent? && |s| >= 32 {
      KeyIs(s[..32], f.peer);
      if |s| >= 50 {
        FromBE16(s[48..50]);
        assert Word16(s[48..50], 0) == Word16(s, 48);
        if f.endpoint.Some? && f.endpoint.value.ip.V6? {
          AddressIs(s[32..48], f.endpoint.value.ip.v6);
        }
      }
    }
  }

  /** Decoding, exactly: a payload decodes to a frame if and only if it spells it. */
  lemma DecodesIff(kind: byte, s: Bytes, f: Frame)
    ensures Decode(kind, s) == Ok(f) <==> Spells(kind, s, f)
  {
    hide DecodeServerKey, DecodeClientInfo, DecodeSendPacket, DecodeRecvPacket, DecodePeerGone, DecodePeerPresent,
      DecodeForwardPacket, DecodeClosePeer, DecodePing, DecodeRestarting, KeyBytes, ToBE, Word16, Word32;
    if kind in {0x01, 0x02, 0x08, 0x11} {
      KeyedIs(s, f);
    } else if kind in {0x04, 0x05, 0x0a} {
      PacketsIs(s, f);
    } else if kind in {0x12, 0x13, 0x15} {
      WordsIs(s, f);
    } else if kind == 0x09 {
      PresentIs(s, f);
    }
  }

  /** The 32 octets from offset `at` are not all zero. */
  predicate NonZero(s: Bytes, at: nat)
    requires at + 32 <= |s|
  {
    exists i :: at <= i < at + 32 && s[i] != 0
  }

  lemma KeyFails(s: Bytes, at: nat)
    requires at + 32 <= |s|
    ensures KeyFrom(s[at..at + 32]).Ok? <==> NonZero(s, at)
    ensures !NonZero(s, at) ==> KeyFrom(s[at..at + 32]) == Err(InvalidKey)
  {
    hide KeyFrom;
    var key := s[at..at + 32];
    if NonZero(s, at) {
      var i :| at <= i < at + 32 && s[i] != 0;
      assert key[i - at] != 0;
    }
  }

  /** Which packet frames are refused, and how. */
  lemma PacketErrors(s: Bytes)
    ensures Decode(0x04, s).Err? <==> |s| < 32 || |s| > 32 + 65536 || !NonZero(s, 0)
    ensures Decode(0x05, s).Err? <==> |s| < 32 || |s| > 32 + 65536 || !NonZero(s, 0)
    ensures Decode(0x0a, s).Err? <==> |s| < 64 || |s| > 64 + 65536 || !NonZero(s, 0) || !NonZero(s, 32)
    ensures |s| > 32 + 65536 ==> Decode(0x04, s) == Decode(0x05, s) == Err(PacketTooLarge(|s| - 32))
    ensures |s| > 64 + 65536 ==> Decode(0x0a, s) == Err(PacketTooLarge(|s| - 64))
    ensures 32 <= |s| <= 32 + 65536 && !NonZero(s, 0) ==> Decode(0x04, s) == Decode(0x05, s) == Err(InvalidKey)
  {
    hide KeyFrom, NonZero;
    if |s| >= 32 {
      KeyFails(s, 0);
      assert s[0..32] == s[..32];
    }
    if |s| >= 64 {
      KeyFails(s, 32);
    }
  }

  // ---------------------------------------------------------------- encoding

  /** The octets of an address: an IPv4 address is ten zeros, two 0xff and its own four octets. */
  function AddressOctets(ip: IpAddr): Bytes {
    match ip
    case V4(a) => [0, 0, 0, 0, 0, 0, 0, 0, 0, 0, 0xff, 0xff] + ToBE(a, 4)
    case V6(a) => ToBE(a, 16)
  }

  /** The whole frame on the wire: one octet of kind, four of length, the payload. */
  predicate Encoded(f: Frame, w: Bytes) {
    && |w| >= 5 && |w| - 5 < 0x1_0000_0000 && Word32(w, 1) == |w| - 5
    && var s := w[5..];
       match f
       case ServerKey(key) =>
         w[0] == 0x01 && s == [0x44, 0x45, 0x52, 0x50, 0xf0, 0x9f, 0x94, 0x91] + KeyBytes(key)
       case ClientInfo(key, sealed) => w[0] == 0x02 && s == KeyBytes(key) + sealed
       case ServerInfo(sealed) => w[0] == 0x03 && s == sealed
       case SendPacket(dst, packet) => w[0] == 0x04 && s == KeyBytes(dst) + packet
       case RecvPacket(src, packet) => w[0] == 0x05 && s == KeyBytes(src) + packet
       case KeepAlive => w[0] == 0x06 && s == []
       case NotePreferred(preferred) => w[0] == 0x07 && s == [if preferred then 1 else 0]
       case PeerGone(peer, reason) => w[0] == 0x08 && s == KeyBytes(peer) + [reason]
       case PeerPresent(peer, endpoint, flags, extra) =>
         && w[0] == 0x09
         && (endpoint.None? ==> s == KeyBytes(peer))
         && (endpoint.Some? ==>
               && |s| >= 50 && s[..32] == KeyBytes(peer) && s[32..48] == AddressOctets(endpoint.value.ip)
               && Word16(s, 48) == endpoint.value.port
               && s[50..] == (if flags.Some? then [flags.value] else []) + extra)
       case ForwardPacket(src, dst, packet) => w[0] == 0x0a && s == KeyBytes(src) + KeyBytes(dst) + packet
       case WatchConns => w[0] == 0x10 && s == []
       case ClosePeer(peer) => w[0] == 0x11 && s == KeyBytes(peer)
       case Ping(value) => w[0] == 0x12 && s == ToBE(value, 8)
       case Pong(value) => w[0] == 0x13 && s == ToBE(value, 8)
       case Health(text) => w[0] == 0x14 && s == text
       case Restarting(reconnectInMs, tryForMs) =>
         w[0] == 0x15 && |s| == 8 && Word32(s, 0) == reconnectInMs && Word32(s, 4) == tryForMs
       case Unknown(kind, payload) => w[0] == kind && s == payload
  }

  lemma {:induction false} ToBESplit(high: nat, low: nat, n: nat, m: nat)
    requires low < Pow256(m)
    ensures ToBE(high * Pow256(m) + low, n + m) == ToBE(high, n) + ToBE(low, m)
    decreases m
  {
    if m == 0 {
      assert ToBE(high, n) + [] == ToBE(high, n);
    } else {
      var all := high * Pow256(m) + low;
      assert all == 256 * (high * Pow256(m - 1) + low / 256) + low % 256 by {
        assert high * Pow256(m) == 256 * (high * Pow256(m - 1));
      }
      ToBESplit(high, low / 256, n, m - 1);
      assert all / 256 == high * Pow256(m - 1) + low / 256 && all % 256 == low % 256;
    }
  }

  lemma MappedOctets(ip: IpAddr)
    ensures ToBE(Mapped(ip), 16) == AddressOctets(ip)
  {
    if ip.V4? {
      Widths();
      ToBESplit(0xffff, ip.v4, 12, 4);
      ToBESplit(0, 0xffff, 10, 2);
      Zeros();
      assert ToBE(0xffff, 2) == [0xff, 0xff] by { assert ToBE(0xff, 1) == [0xff] by { assert ToBE(0, 0) == []; } }
      assert 0xffff * Pow256(4) + ip.v4 == Mapped(ip);
    }
  }

  lemma Zeros()
    ensures ToBE(0, 10) == [0, 0, 0, 0, 0, 0, 0, 0, 0, 0]
  {
    assert ToBE(0, 2) == [0, 0];
    assert ToBE(0, 4) == ToBE(0, 2) + [0, 0];
    assert ToBE(0, 6) == ToBE(0, 4) + [0, 0];
    assert ToBE(0, 8) == ToBE(0, 6) + [0, 0];
    assert ToBE(0, 10) == ToBE(0, 8) + [0, 0];
  }

  lemma PresentBytes(f: Frame)
    requires f.PeerPresent? && f.endpoint.Some?
    ensures var s := Payload(f);
      && |s| >= 50 && s[..32] == KeyBytes(f.peer) && s[32..48] == AddressOctets(f.endpoint.value.ip)
      && Word16(s, 48) == f.endpoint.value.port
      && s[50..] == (if f.flags.Some? then [f.flags.value] else []) + f.extra
  {
    hide ToBE, KeyBytes, Mapped, AddressOctets;
    var s, e := Payload(f), f.endpoint.value;
    MappedOctets(e.ip);
    ToBE16(e.port);
    assert s[48..50] == ToBE(e.port, 2);
    assert Word16(s, 48) == Word16(s[48..50], 0);
  }

  lemma RestartingBytes(a: U32, b: U32)
    ensures var s := Payload(Restarting(a, b)); |s| == 8 && Word32(s, 0) == a && Word32(s, 4) == b
  {
    hide ToBE, KeyBytes;
    ToBE32(a);
    ToBE32(b);
    var s := Payload(Restarting(a, b));
    assert s[..4] == ToBE(a, 4) && s[4..8] == ToBE(b, 4);
    assert Word32(s, 0) == Word32(s[..4], 0) && Word32(s, 4) == Word32(s[4..8], 0);
  }

  /** What can be encoded: packets of up to 64 KiB, in payloads whose length fits four octets. */
  lemma EncodesIff(f: Frame)
    ensures Encodes(f) <==>
      && (f.SendPacket? || f.RecvPacket? || f.ForwardPacket? ==> |f.packet| <= 65536)
      && |Payload(f)| < 0x1_0000_0000
  {
    hide Payload;
  }

  /** Encoding, exactly. */
  lemma WireIs(f: Frame)
    requires Encodes(f)
    ensures Encoded(f, Wire(f))
  {
    hide ToBE, KeyBytes, AddressOctets, EndpointBytes;
    var w, n := Wire(f), |Payload(f)|;
    ToBE32(n);
    assert w[1..5] == ToBE(n, 4) && w[5..] == Payload(f);
    assert Word32(w, 1) == Word32(w[1..5], 0);
    hide Word32, Word16;
    match f
    case PeerPresent(_, endpoint, _, _) =>
      if endpoint.Some? {
        PresentBytes(f);
      } else {
        NoEndpoint(f);
      }
    case Restarting(a, b) => RestartingBytes(a, b);
    case _ =>
  }

  lemma NoEndpoint(f: Frame)
    requires f.PeerPresent? && f.endpoint.None?
    ensures Payload(f) == KeyBytes(f.peer)
  {
    assert KeyBytes(f.peer) + [] == KeyBytes(f.peer);
  }

  // ---------------------------------------------------------------- reading

  /** One `read_frame`, exactly: what it returns and what it leaves, on every input. */
  lemma ReadIs(stream: Bytes, max: nat)
    ensures Read(stream, max) ==
            if |stream| < 5 then (Err(Io), [])
            else if Word32(stream, 1) > max then (Err(FrameTooLarge(Word32(stream, 1))), stream[5..])
            else if |stream| < 5 + Word32(stream, 1) then (Err(Io), [])
            else (Decode(stream[0], stream[5..5 + Word32(stream, 1)]), stream[5 + Word32(stream, 1)..])
  {
    hide Decode;
    if |stream| >= 5 {
      FromBE32(stream[1..5]);
      assert Word32(stream[1..5], 0) == Word32(stream, 1);
    }
  }
}
