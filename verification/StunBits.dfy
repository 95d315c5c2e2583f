/** The STUN responder on the octets and bits of RFC 5389: which requests it answers, and the reply. */
module StunBits {
  import opened Types
  import opened BigEndian
  import opened Stun

  function Bit(n: nat, i: nat): nat {
    if i == 0 then n % 2 else Bit(n / 2, i - 1)
  }

  /** x is y with the bits inverted where the mask has a 1. */
  predicate Flipped(x: nat, y: nat, mask: nat, bits: nat) {
    forall i :: 0 <= i < bits ==> (Bit(x, i) == Bit(y, i) <==> Bit(mask, i) == 0)
  }

  lemma {:induction false} BitIsBit(n: nat, i: nat)
    ensures Bit(n, i) == 0 || Bit(n, i) == 1
  {
    if i > 0 {
      BitIsBit(n / 2, i - 1);
    }
  }

  lemma {:induction false} XorBit(a: nat, b: nat, bits: nat, i: nat)
    requires i < bits
    ensures Bit(Xor(a, b, bits), i) == (Bit(a, i) + Bit(b, i)) % 2
  {
    var high, low := Xor(a / 2, b / 2, bits - 1), (a % 2 + b % 2) % 2;
    Digit(high, low);
    if i > 0 {
      XorBit(a / 2, b / 2, bits - 1, i - 1);
    }
  }

  lemma {:induction false} SameBits(a: nat, b: nat, bits: nat)
    requires a < Pow2(bits) && b < Pow2(bits) && forall i :: 0 <= i < bits ==> Bit(a, i) == Bit(b, i)
    ensures a == b
  {
    if bits > 0 {
      assert Bit(a, 0) == Bit(b, 0);
      forall i | 0 <= i < bits - 1 ensures Bit(a / 2, i) == Bit(b / 2, i) {
        assert Bit(a, i + 1) == Bit(b, i + 1);
      }
      SameBits(a / 2, b / 2, bits - 1);
    }
  }

  lemma XorFlips(y: nat, mask: nat, bits: nat)
    ensures Flipped(Xor(y, mask, bits), y, mask, bits)
  {
    hide Bit, Xor;
    forall i | 0 <= i < bits ensures Bit(Xor(y, mask, bits), i) == Bit(y, i) <==> Bit(mask, i) == 0 {
      XorBit(y, mask, bits, i);
      BitIsBit(y, i);
      BitIsBit(mask, i);
    }
  }

  lemma FlippedIs(x: nat, y: nat, mask: nat, bits: nat)
    requires x < Pow2(bits)
    ensures x == Xor(y, mask, bits) <==> Flipped(x, y, mask, bits)
  {
    hide Bit, Xor, Pow2;
    XorFlips(y, mask, bits);
    if Flipped(x, y, mask, bits) {
      var z := Xor(y, mask, bits);
      forall i | 0 <= i < bits ensures Bit(x, i) == Bit(z, i) {
        BitIsBit(x, i);
        BitIsBit(y, i);
        BitIsBit(z, i);
      }
      SameBits(x, z, bits);
    }
  }

  lemma Pow2Of32()
    ensures Pow2(32) == 0x1_0000_0000
  {
    Pow2Widths();
    assert Pow2(20) == 16 * Pow2(16);
    assert Pow2(24) == 16 * Pow2(20);
    assert Pow2(28) == 16 * Pow2(24);
    assert Pow2(32) == 16 * Pow2(28);
  }

  // ---------------------------------------------------------------- requests

  function Octets(n: U16): Bytes {
    [n / 256, n % 256]
  }

  lemma OctetsAre(n: U16)
    ensures ToBE(n, 2) == Octets(n)
  {
    assert ToBE(n / 256, 1) == [n / 256] by { assert ToBE(n / 256 / 256, 0) == []; }
  }

  /** An attribute list as it is sent: type, length, value and padding to four octets. */
  function Area(list: seq<Attr>): Bytes {
    if list == [] then []
    else
      var a := list[0];
      Octets(a.kind) + (if |a.value| < 0x1_0000 then Octets(|a.value|) else []) + a.value + a.padding + Area(list[1..])
  }

  predicate WellFormed(list: seq<Attr>) {
    forall a :: a in list ==> |a.value| < 0x1_0000 && |a.padding| < 4 && (|a.value| + |a.padding|) % 4 == 0
  }

  lemma WellFormedOk(list: seq<Attr>)
    requires WellFormed(list)
    ensures forall a :: a in list ==> AttrOk(a)
  {
    forall a | a in list ensures AttrOk(a) {
      var n, p := |a.value|, |a.padding|;
      assert n <= n + p < n + 4 && (n + p) % 4 == 0;
    }
  }

  lemma {:induction false} AreaIs(list: seq<Attr>)
    requires WellFormed(list)
    ensures Area(list) == AttrsBytes(list)
  {
    hide ToBE, Octets;
    if list != [] {
      assert list[0] in list;
      OctetsAre(list[0].kind);
      OctetsAre(|list[0].value|);
      AreaIs(list[1..]);
    }
  }

  /** A Binding Request: its type, the length of its attributes, the magic cookie, a transaction id, the attributes. */
  function BindingRequest(list: seq<Attr>, transaction: Bytes, tail: Bytes): Bytes
    requires |Area(list)| < 0x1_0000
  {
    [0x00, 0x01] + Octets(|Area(list)|) + [0x21, 0x12, 0xa4, 0x42] + transaction + Area(list) + tail
  }

  function Value32(s: Bytes): nat
    requires |s| == 4
  {
    (s[0] as int) * 0x100_0000 + (s[1] as int) * 0x1_0000 + (s[2] as int) * 0x100 + s[3]
  }

  lemma ValueIs(s: Bytes)
    requires |s| == 4
    ensures FromBE(s) == Value32(s) && Value32(s) < 0x1_0000_0000
  {
    var a, b, c := s[..3], s[..2], s[..1];
    assert a[..2] == b && b[..1] == c && c[..0] == [];
    assert FromBE(c) == s[0] && FromBE(b) == 256 * FromBE(c) + s[1] && FromBE(a) == 256 * FromBE(b) + s[2];
  }

  /** Some SOFTWARE attribute, of type 0x8022, reads "tailnode". */
  predicate SaysTailnode(list: seq<Attr>) {
    exists a :: a in list && a.kind == 0x8022 && a.value == [0x74, 0x61, 0x69, 0x6c, 0x6e, 0x6f, 0x64, 0x65]
  }

  /** The last attribute is a FINGERPRINT, of type 0x8028 and four octets, which hold the checksum of all that comes
      before it with the bits of 0x5354554e inverted. */
  predicate Fingerprinted(list: seq<Attr>, packet: Bytes, crc: Bytes -> U32) {
    && list != []
    && var last, before := list[|list| - 1], 20 + |Area(list)| - 8;
       && last.kind == 0x8028 && |last.value| == 4 && 0 <= before <= |packet|
       && Flipped(Value32(last.value), crc(packet[..before]), 0x5354_554e, 32)
  }

  lemma FingerprintIs(list: seq<Attr>, packet: Bytes, crc: Bytes -> U32)
    requires WellFormed(list)
    ensures Fingerprinted(list, packet, crc) <==> ClosesWithChecksum(list, packet, crc)
  {
    hide Flipped, Xor, FromBE, Area, AttrsBytes, Value32;
    AreaIs(list);
    if list != [] && |list[|list| - 1].value| == 4 {
      ValueIs(list[|list| - 1].value);
      Pow2Of32();
      var at := 20 + |Area(list)| - 8;
      if 0 <= at <= |packet| {
        FlippedIs(Value32(list[|list| - 1].value), crc(packet[..at]), 0x5354_554e, 32);
      }
    }
  }

  /** Every well-formed Binding Request, whatever follows its attributes, is answered if and only if it says "tailnode"
      and carries its fingerprint (sections 6 and 15.5 of RFC 5389). */
  lemma AnswersExactly(list: seq<Attr>, transaction: Bytes, tail: Bytes, crc: Bytes -> U32)
    requires WellFormed(list) && |transaction| == 12 && |Area(list)| < 0x1_0000
    ensures var packet := BindingRequest(list, transaction, tail);
      Accepts(packet, crc) <==> SaysTailnode(list) && Fingerprinted(list, packet, crc)
  {
    hide Accepts, Area, AttrsBytes, Octets, ToBE, Fingerprinted, ClosesWithChecksum, WellFormed, AttrOk;
    var packet := BindingRequest(list, transaction, tail);
    WellFormedOk(list);
    AreaIs(list);
    OctetsAre(|Area(list)|);
    assert packet == Request(list, transaction, tail);
    FingerprintIs(list, packet, crc);
    AnswersIff(list, transaction, tail, crc);
  }

  /** Nothing else that claims to be a request is answered: not without the type, the cookie, or the declared length. */
  lemma RefusesOthers(packet: Bytes, crc: Bytes -> U32)
    ensures Accepts(packet, crc) ==>
      && |packet| >= 20 && packet[0] == 0x00 && packet[1] == 0x01
      && packet[4] == 0x21 && packet[5] == 0x12 && packet[6] == 0xa4 && packet[7] == 0x42
      && |packet| >= 20 + (packet[2] as int) * 256 + packet[3]
  {
    hide Scan, AcceptsAll;
    if Accepts(packet, crc) {
      assert packet[0..2] == [0, 1] && packet[0..2][0] == packet[0] && packet[0..2][1] == packet[1];
      var c := packet[4..8];
      assert c[0] == packet[4] && c[1] == packet[5] && c[2] == packet[6] && c[3] == packet[7];
    }
  }

  // ---------------------------------------------------------------- replies

  /** The reply (sections 6 and 15.2 of RFC 5389): a Binding Success Response with the request's transaction id and one
      XOR-MAPPED-ADDRESS, whose port and octets have the bits of the cookie, and of the transaction id, inverted. */
  predicate Answer(m: Bytes, source: SocketAddr, transaction: Bytes)
    requires |transaction| == 12
  {
    var v4 := source.ip.V4?;
    var octets := if source.ip.V4? then ToBE(source.ip.v4, 4) else ToBE(source.ip.v6, 16);
    var mask := [0x21, 0x12, 0xa4, 0x42] + transaction;
    && |m| == 28 + |octets|
    && m[..8] == [0x01, 0x01, 0x00, if v4 then 12 else 24, 0x21, 0x12, 0xa4, 0x42]
    && m[8..20] == transaction
    && m[20..26] == [0x00, 0x20, 0x00, if v4 then 8 else 20, 0x00, if v4 then 1 else 2]
    && Flipped((m[26] as int) * 256 + m[27], source.port, 0x2112, 16)
    && forall j :: 0 <= j < |octets| ==> Flipped(m[28 + j], octets[j], mask[j], 8)
  }

  lemma ReplyIs(source: SocketAddr, transaction: Bytes)
    requires |transaction| == 12
    ensures Answer(Reply(source, transaction), source, transaction)
  {
    hide ToBE, Xor, Flipped, Reply, XorBytes;
    var m, len := Reply(source, transaction), FamilyLen(source.ip);
    ReplyFields(source, transaction);
    OctetsAre(len + 4);
    OctetsAre(0x0020);
    OctetsAre(len);
    ReplyHeader(source, transaction);
    PortFlipped(m, source.port);
    OctetsFlipped(source.ip, transaction, m);
  }

  lemma PortFlipped(m: Bytes, port: U16)
    requires |m| >= 28 && m[26..28] == ToBE(Xor(port, 0x2112, 16), 2)
    ensures Flipped((m[26] as int) * 256 + m[27], port, 0x2112, 16)
  {
    hide Xor, Flipped, ToBE;
    Pow2Widths();
    var x := Xor(port, 0x2112, 16);
    OctetsAre(x);
    assert m[26] == m[26..28][0] && m[27] == m[26..28][1];
    XorFlips(port, 0x2112, 16);
  }

  lemma ReplyHeader(source: SocketAddr, transaction: Bytes)
    requires |transaction| == 12
    ensures var m, v4 := Reply(source, transaction), source.ip.V4?;
      && |m| >= 28
      && m[..8] == [0x01, 0x01, 0x00, if v4 then 12 else 24, 0x21, 0x12, 0xa4, 0x42]
      && m[20..26] == [0x00, 0x20, 0x00, if v4 then 8 else 20, 0x00, if v4 then 1 else 2]
  {
    hide ToBE, Xor, Masked;
    var m, len := Reply(source, transaction), FamilyLen(source.ip);
    OctetsAre(len + 4);
    OctetsAre(0x0020);
    OctetsAre(len);
  }

  lemma OctetsFlipped(ip: IpAddr, transaction: Bytes, m: Bytes)
    requires |transaction| == 12 && |m| >= 28 && m[28..] == Masked(ip, transaction)
    ensures var octets := if ip.V4? then ToBE(ip.v4, 4) else ToBE(ip.v6, 16);
      && |m| == 28 + |octets|
      && forall j :: 0 <= j < |octets| ==> Flipped(m[28 + j], octets[j], ([0x21, 0x12, 0xa4, 0x42] + transaction)[j], 8)
  {
    hide Xor, Flipped, ToBE;
    var octets := if ip.V4? then ToBE(ip.v4, 4) else ToBE(ip.v6, 16);
    var mask := [0x21, 0x12, 0xa4, 0x42] + transaction;
    forall j | 0 <= j < |octets| ensures Flipped(m[28 + j], octets[j], mask[j], 8) {
      assert m[28 + j] == m[28..][j];
      XorFlips(octets[j], mask[j], 8);
    }
  }
}
