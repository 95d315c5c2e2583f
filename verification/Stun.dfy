/** The STUN responder: the attribute walk over a Binding Request and the XOR-MAPPED-ADDRESS reply. The
    checksum function is a parameter. */
module Stun {
  import opened Types
  import opened BigEndian

  const COOKIE: Bytes := [0x21, 0x12, 0xa4, 0x42]
  const TAILNODE: Bytes := [0x74, 0x61, 0x69, 0x6c, 0x6e, 0x6f, 0x64, 0x65]
  const SOFTWARE: U16 := 0x8022
  const FINGERPRINT: U16 := 0x8028
  const FINGERPRINT_MASK: U32 := 0x5354_554e
  const HEADER: nat := 20

  // ---------------------------------------------------------------- exclusive or

  function Pow2(n: nat): (p: nat)
    ensures 1 <= p
  {
    if n == 0 then 1 else 2 * Pow2(n - 1)
  }

  lemma Pow2Widths()
    ensures Pow2(8) == 0x100 && Pow2(16) == 0x1_0000
  {
    assert Pow2(4) == 16;
    assert Pow2(8) == 16 * Pow2(4);
    assert Pow2(12) == 16 * Pow2(8);
    assert Pow2(16) == 16 * Pow2(12);
  }

  /** Exclusive or of the low `bits` bits. */
  function Xor(a: nat, b: nat, bits: nat): (x: nat)
    ensures x < Pow2(bits)
  {
    if bits == 0 then 0 else 2 * Xor(a / 2, b / 2, bits - 1) + (a % 2 + b % 2) % 2
  }

  lemma Digit(high: nat, low: nat)
    requires low < 2
    ensures (2 * high + low) / 2 == high && (2 * high + low) % 2 == low
  {
  }

  /** Exclusive or, one bit at a time. */
  lemma XorJoin(ah: nat, al: nat, bh: nat, bl: nat, bits: nat)
    requires al < 2 && bl < 2 && bits > 0
    ensures Xor(2 * ah + al, 2 * bh + bl, bits) == 2 * Xor(ah, bh, bits - 1) + if al == bl then 0 else 1
  {
    Digit(ah, al);
    Digit(bh, bl);
  }

  lemma {:induction false} XorTwice(a: nat, b: nat, bits: nat)
    requires a < Pow2(bits)
    ensures Xor(Xor(a, b, bits), b, bits) == a
  {
    if bits > 0 {
      var ah, al, bh, bl := a / 2, a % 2, b / 2, b % 2;
      XorTwice(ah, bh, bits - 1);
      hide Xor;
      XorJoin(ah, al, bh, bl, bits);
      XorJoin(Xor(ah, bh, bits - 1), if al == bl then 0 else 1, bh, bl, bits);
    }
  }

  function XorByte(a: byte, b: byte): byte {
    Xor(a, b, 8)
  }

  function XorBytes(s: Bytes, mask: Bytes): (r: Bytes)
    requires |s| <= |mask|
    ensures |r| == |s|
  {
    seq(|s|, i requires 0 <= i < |s| => XorByte(s[i], mask[i]))
  }

  lemma XorBytesTwice(s: Bytes, mask: Bytes)
    requires |s| <= |mask|
    ensures XorBytes(XorBytes(s, mask), mask) == s
  {
    forall i | 0 <= i < |s| ensures XorBytes(XorBytes(s, mask), mask)[i] == s[i] {
      Pow2Widths();
      XorTwice(s[i], mask[i], 8);
    }
  }

  // ---------------------------------------------------------------- requests

  /** An attribute found at offset `at` of the attribute area. */
  datatype Tlv = Tlv(at: nat, kind: U16, value: Bytes)

  function Padded(len: nat): (p: nat)
    ensures len <= p < len + 4 && p % 4 == 0
  {
    (len + 3) / 4 * 4
  }

  function Word(s: Bytes, at: nat): U16
    requires at + 2 <= |s|
  {
    var hi: int := s[at];
    256 * hi + s[at + 1]
  }

  /** The attributes from offset `pos` on; None when one of them overruns the area. */
  function Scan(attrs: Bytes, pos: nat): Option<seq<Tlv>>
    decreases |attrs| + 4 - pos
  {
    if pos + 4 > |attrs| then Some([])
    else
      var len := Word(attrs, pos + 2);
      if pos + 4 + len > |attrs| then None
      else
        var rest := Scan(attrs, pos + 4 + Padded(len));
        if rest.None? then None
        else Some([Tlv(pos, Word(attrs, pos), attrs[pos + 4..pos + 4 + len])] + rest.value)
  }

  predicate IsSoftware(t: Tlv) {
    t.kind == SOFTWARE && t.value == TAILNODE
  }

  predicate IsFingerprint(t: Tlv, size: nat) {
    t.kind == FINGERPRINT && |t.value| == 4 && t.at + 8 == size
  }

  function Checksum(crc: Bytes -> U32, packet: Bytes): nat {
    Xor(crc(packet), FINGERPRINT_MASK, 32)
  }

  /** A Binding Request header whose declared attribute area is all there. */
  predicate ValidHeader(packet: Bytes) {
    && |packet| >= HEADER
    && packet[0..2] == [0, 1]
    && packet[4..8] == COOKIE
    && |packet| >= HEADER + Word(packet, 2)
  }

  predicate Accepts(packet: Bytes, crc: Bytes -> U32) {
    && ValidHeader(packet)
    && var attrs := packet[HEADER..HEADER + Word(packet, 2)];
       Scan(attrs, 0).Some? && AcceptsAll(Scan(attrs, 0).value, |attrs|, packet, crc)
  }

  predicate AcceptsAll(ts: seq<Tlv>, size: nat, packet: Bytes, crc: Bytes -> U32)
    requires size + HEADER <= |packet|
  {
    && (exists t :: t in ts && IsSoftware(t))
    && (exists t :: t in ts && IsFingerprint(t, size) && FromBE(t.value) == Checksum(crc, packet[..HEADER + t.at]))
  }

  // ---------------------------------------------------------------- replies

  function FamilyLen(ip: IpAddr): nat {
    if ip.V4? then 8 else 20
  }

  function Masked(ip: IpAddr, transaction: Bytes): (s: Bytes)
    requires |transaction| == 12
    ensures |s| == FamilyLen(ip) - 4
  {
    match ip
    case V4(a) => XorBytes(ToBE(a, 4), COOKIE)
    case V6(a) => XorBytes(ToBE(a, 16), COOKIE + transaction)
  }

  /** The attribute value with its length: family, masked port, masked address. */
  function AddressOf(source: SocketAddr, transaction: Bytes): Bytes
    requires |transaction| == 12
  {
    ToBE(FamilyLen(source.ip), 2) + [0, if source.ip.V4? then 1 else 2]
      + ToBE(Xor(source.port, 0x2112, 16), 2) + Masked(source.ip, transaction)
  }

  function Reply(source: SocketAddr, transaction: Bytes): Bytes
    requires |transaction| == 12
  {
    var body := ToBE(0x0020, 2) + AddressOf(source, transaction);
    [1, 1] + ToBE(|body|, 2) + COOKIE + transaction + body
  }

  /** What the walk remembers: whether a matching SOFTWARE was seen, and the closing FINGERPRINT. */
  datatype Found = Found(software: bool, fingerprint: Option<(nat, nat)>)

  predicate Describes(found: Found, ts: seq<Tlv>, size: nat) {
    && (found.software <==> exists t :: t in ts && IsSoftware(t))
    && (found.fingerprint.Some? <==> exists t :: t in ts && IsFingerprint(t, size))
    && (found.fingerprint.Some? ==>
          forall t :: t in ts && IsFingerprint(t, size) ==> found.fingerprint.value == (t.at, FromBE(t.value)))
  }

  /** The attribute loop: it reads inside the area only, ends on every input, and fails exactly when an
      attribute overruns the area. */
  method Walk(attrs: Bytes) returns (r: Option<Found>)
    ensures r.None? <==> Scan(attrs, 0).None?
    ensures r.Some? ==> Describes(r.value, Scan(attrs, 0).value, |attrs|)
    ensures r.Some? && r.value.fingerprint.Some? ==> r.value.fingerprint.value.0 + 8 == |attrs|
  {
    hide FromBE;
    var pos := 0;
    var software := false;
    var fingerprint: Option<(nat, nat)> := None;
    ghost var seen: seq<Tlv> := [];
    assert Scan(attrs, 0) == Prepend([], Scan(attrs, 0)) by {
      if Scan(attrs, 0).Some? { assert [] + Scan(attrs, 0).value == Scan(attrs, 0).value; }
    }
    while pos + 4 <= |attrs|
      invariant pos <= |attrs| + 3
      invariant Scan(attrs, 0) == Prepend(seen, Scan(attrs, pos))
      invariant Describes(Found(software, fingerprint), seen, |attrs|)
      invariant forall t :: t in seen ==> t.at < pos
      decreases |attrs| + 4 - pos
    {
      var kind := Word(attrs, pos);
      var len := Word(attrs, pos + 2);
      if pos + 4 + len > |attrs| {
        return None;
      }
      var value := attrs[pos + 4..pos + 4 + len];
      WalkStep(attrs, pos, seen);
      DescribesStep(Found(software, fingerprint), seen, Tlv(pos, kind, value), |attrs|);
      if kind == SOFTWARE && value == TAILNODE {
        software := true;
      }
      if kind == FINGERPRINT && len == 4 && pos + 8 == |attrs| {
        fingerprint := Some((pos, FromBE(value)));
      }
      seen := seen + [Tlv(pos, kind, value)];
      pos := pos + 4 + Padded(len);
    }
    assert Scan(attrs, 0).value == seen;
    r := Some(Found(software, fingerprint));
  }

  function Prepend(ts: seq<Tlv>, rest: Option<seq<Tlv>>): Option<seq<Tlv>> {
    if rest.None? then None else Some(ts + rest.value)
  }

  lemma WalkStep(attrs: Bytes, pos: nat, seen: seq<Tlv>)
    requires pos + 4 <= |attrs| && pos + 4 + Word(attrs, pos + 2) <= |attrs|
    ensures var len := Word(attrs, pos + 2);
      Prepend(seen, Scan(attrs, pos)) ==
      Prepend(seen + [Tlv(pos, Word(attrs, pos), attrs[pos + 4..pos + 4 + len])], Scan(attrs, pos + 4 + Padded(len)))
  {
    var len := Word(attrs, pos + 2);
    var t := Tlv(pos, Word(attrs, pos), attrs[pos + 4..pos + 4 + len]);
    var rest := Scan(attrs, pos + 4 + Padded(len));
    if rest.Some? {
      assert seen + ([t] + rest.value) == seen + [t] + rest.value;
    }
  }

  /** Remembering one more attribute. Only the attribute that ends the area can be the fingerprint. */
  lemma DescribesStep(found: Found, seen: seq<Tlv>, t: Tlv, size: nat)
    requires Describes(found, seen, size) && forall u :: u in seen ==> u.at < t.at
    ensures Describes(Found(found.software || IsSoftware(t),
                            if IsFingerprint(t, size) then Some((t.at, FromBE(t.value))) else found.fingerprint),
                      seen + [t], size)
  {
    hide FromBE;
    var all := seen + [t];
    assert forall u :: u in all <==> u in seen || u == t;
  }

  /** The responder. */
  method Respond(packet: Bytes, source: SocketAddr, crc: Bytes -> U32) returns (r: Option<Bytes>)
    ensures r == if Accepts(packet, crc) then Some(Reply(source, packet[8..20])) else None
  {
    hide FromBE, Scan, Reply, Xor;
    if |packet| < HEADER || packet[0..2] != [0, 1] || packet[4..8] != COOKIE {
      return None;
    }
    var declared := Word(packet, 2);
    if |packet| < HEADER + declared {
      return None;
    }
    var attrs := packet[HEADER..HEADER + declared];
    var found := Walk(attrs);
    if found.None? || found.value.fingerprint.None? {
      return None;
    }
    var (at, got) := found.value.fingerprint.value;
    var want := Checksum(crc, packet[..HEADER + at]);
    if !found.value.software || got != want {
      return None;
    }
    var out := BuildReply(source, packet[8..20]);
    r := Some(out);
  }

  /** Writes the reply with a zero length and patches the length in at the end. */
  method BuildReply(source: SocketAddr, transaction: Bytes) returns (out: Bytes)
    requires |transaction| == 12
    ensures out == Reply(source, transaction)
  {
    hide ToBE, AddressOf;
    out := [0x01, 0x01, 0, 0];
    out := out + COOKIE;
    out := out + transaction;
    out := out + ToBE(0x0020, 2);
    out := AppendAddress(out, source, transaction);
    ghost var body := ToBE(0x0020, 2) + AddressOf(source, transaction);
    var attrLen := |out| - 20;
    assert out[..2] == [1, 1] && out[4..] == COOKIE + transaction + body;
    out := out[..2] + ToBE(attrLen, 2) + out[4..];
    assert out == [1, 1] + ToBE(attrLen, 2) + COOKIE + transaction + body;
  }

  method AppendAddress(prefix: Bytes, source: SocketAddr, transaction: Bytes) returns (out: Bytes)
    requires |transaction| == 12
    ensures out == prefix + AddressOf(source, transaction)
  {
    hide ToBE, Xor;
    out := prefix;
    match source.ip {
      case V4(a) =>
        out := out + ToBE(8, 2);
        out := out + [0, 1];
        out := out + ToBE(Xor(source.port, 0x2112, 16), 2);
        var x := MaskOctets(ToBE(a, 4), COOKIE);
        out := out + x;
      case V6(a) =>
        out := out + ToBE(20, 2);
        out := out + [0, 2];
        out := out + ToBE(Xor(source.port, 0x2112, 16), 2);
        var x := MaskOctets(ToBE(a, 16), COOKIE + transaction);
        out := out + x;
    }
  }

  method MaskOctets(octets: Bytes, mask: Bytes) returns (out: Bytes)
    requires |octets| <= |mask|
    ensures out == XorBytes(octets, mask)
  {
    out := [];
    for i := 0 to |octets|
      invariant |out| == i
      invariant forall j :: 0 <= j < i ==> out[j] == XorByte(octets[j], mask[j])
    {
      out := out + [XorByte(octets[i], mask[i])];
    }
  }

  // ---------------------------------------------------------------- reading a reply

  /** A client's reading of a Binding Success Response whose one attribute is XOR-MAPPED-ADDRESS
      (sections 6 and 15.2 of RFC 5389): the transaction and the address. */
  function ReadReply(m: Bytes): Option<(Bytes, SocketAddr)> {
    if |m| < HEADER + 8 || m[..2] != [1, 1] || m[4..8] != COOKIE || Word(m, 2) + HEADER != |m|
       || Word(m, 20) != 0x0020 || Word(m, 22) + HEADER + 4 != |m| then None
    else
      var transaction := m[8..20];
      var port: U16 := PortOf(m);
      if m[25] == 1 && |m| == 32 then
        Widths();
        Some((transaction, SocketAddr(V4(FromBE(XorBytes(m[28..32], COOKIE))), port)))
      else if m[25] == 2 && |m| == 44 then
        Widths();
        Some((transaction, SocketAddr(V6(FromBE(XorBytes(m[28..44], COOKIE + transaction))), port)))
      else None
  }

  function PortOf(m: Bytes): U16
    requires |m| >= 28
  {
    Pow2Widths();
    Xor(Word(m, 26), 0x2112, 16)
  }

  lemma WordIn(m: Bytes, at: nat, n: U16)
    requires at + 2 <= |m| && m[at..at + 2] == ToBE(n, 2)
    ensures Word(m, at) == n
  {
    assert ToBE(n, 2) == ToBE(n / 256, 1) + [n % 256];
    assert ToBE(n / 256, 1) == ToBE(n / 256 / 256, 0) + [n / 256 % 256];
    assert m[at] == m[at..at + 2][0] && m[at + 1] == m[at..at + 2][1];
  }

  /** A reply field by field. */
  lemma ReplyFields(source: SocketAddr, transaction: Bytes)
    requires |transaction| == 12
    ensures var m, len := Reply(source, transaction), FamilyLen(source.ip);
      && |m| == HEADER + 4 + len
      && m[..2] == [1, 1] && m[4..8] == COOKIE && m[8..20] == transaction
      && m[2..4] == ToBE(len + 4, 2) && m[20..22] == ToBE(0x0020, 2) && m[22..24] == ToBE(len, 2)
      && m[25] == (if source.ip.V4? then 1 else 2)
      && m[26..28] == ToBE(Xor(source.port, 0x2112, 16), 2)
      && m[28..] == Masked(source.ip, transaction)
  {
    hide ToBE, Xor, XorBytes;
    var m, len := Reply(source, transaction), FamilyLen(source.ip);
    var family := [0, if source.ip.V4? then 1 else 2];
    var port := ToBE(Xor(source.port, 0x2112, 16), 2);
    FieldsOf([1, 1], ToBE(len + 4, 2), COOKIE, transaction, ToBE(0x0020, 2), ToBE(len, 2), family, port,
             Masked(source.ip, transaction), m);
  }

  lemma FieldsOf(a: Bytes, b: Bytes, c: Bytes, d: Bytes, e: Bytes, f: Bytes, g: Bytes, h: Bytes, x: Bytes, m: Bytes)
    requires |a| == 2 && |b| == 2 && |c| == 4 && |d| == 12 && |e| == 2 && |f| == 2 && |g| == 2 && |h| == 2
    requires m == a + b + c + d + (e + (f + g + h + x))
    ensures m[..2] == a && m[2..4] == b && m[4..8] == c && m[8..20] == d
    ensures m[20..22] == e && m[22..24] == f && m[24..26] == g && m[26..28] == h && m[28..] == x
    ensures m[25] == g[1]
  {
  }

  /** Reading the reply recovers the transaction, the address and the port, for both families. */
  lemma ReplyRoundTrip(source: SocketAddr, transaction: Bytes)
    requires |transaction| == 12
    ensures ReadReply(Reply(source, transaction)) == Some((transaction, source))
  {
    hide ToBE, FromBE, Xor, Word, Reply, XorBytes, Pow256;
    var m := Reply(source, transaction);
    ReplyFields(source, transaction);
    Pow2Widths();
    XorTwice(source.port, 0x2112, 16);
    var len := FamilyLen(source.ip);
    WordIn(m, 2, len + 4);
    WordIn(m, 20, 0x0020);
    WordIn(m, 22, len);
    WordIn(m, 26, Xor(source.port, 0x2112, 16));
    assert m[28..|m|] == m[28..];
    Widths();
    match source.ip
    case V4(a) =>
      FromToBE(a, 4);
      XorBytesTwice(ToBE(a, 4), COOKIE);
    case V6(a) =>
      FromToBE(a, 16);
      XorBytesTwice(ToBE(a, 16), COOKIE + transaction);
  }

  // ---------------------------------------------------------------- well-formed requests

  /** An attribute as a client writes it; the padding may hold anything (section 15 of RFC 5389). */
  datatype Attr = Attr(kind: U16, value: Bytes, padding: Bytes)

  predicate AttrOk(a: Attr) {
    |a.value| < 0x1_0000 && |a.value| + |a.padding| == Padded(|a.value|)
  }

  function AttrBytes(a: Attr): Bytes {
    ToBE(a.kind, 2) + ToBE(|a.value|, 2) + a.value + a.padding
  }

  function AttrsBytes(list: seq<Attr>): Bytes {
    if list == [] then [] else AttrBytes(list[0]) + AttrsBytes(list[1..])
  }

  /** The attributes of a list, with the offsets they get when the list starts at `pos`. */
  function Placed(list: seq<Attr>, pos: nat): seq<Tlv> {
    if list == [] then []
    else [Tlv(pos, list[0].kind, list[0].value)] + Placed(list[1..], pos + |AttrBytes(list[0])|)
  }

  lemma AttrFields(pre: Bytes, a: Attr, tail: Bytes)
    requires AttrOk(a)
    ensures var area := pre + (AttrBytes(a) + tail);
      && area == (pre + AttrBytes(a)) + tail
      && Word(area, |pre|) == a.kind && Word(area, |pre| + 2) == |a.value|
      && area[|pre| + 4..|pre| + 4 + |a.value|] == a.value
      && |AttrBytes(a)| == 4 + Padded(|a.value|)
  {
    hide ToBE, Word, Padded;
    var area := pre + (AttrBytes(a) + tail);
    assert area[|pre|..|pre| + 2] == ToBE(a.kind, 2);
    assert area[|pre| + 2..|pre| + 4] == ToBE(|a.value|, 2);
    WordIn(area, |pre|, a.kind);
    WordIn(area, |pre| + 2, |a.value|);
  }

  lemma {:induction false} ScanPlaced(pre: Bytes, list: seq<Attr>)
    requires forall a :: a in list ==> AttrOk(a)
    ensures Scan(pre + AttrsBytes(list), |pre|) == Some(Placed(list, |pre|))
    decreases |list|
  {
    hide AttrBytes, Word, AttrOk, Padded;
    if list != [] {
      AttrFields(pre, list[0], AttrsBytes(list[1..]));
      ScanPlaced(pre + AttrBytes(list[0]), list[1..]);
    }
  }

  /** Where the attributes land: each one ends where the next begins, so only the last can end the area. */
  lemma {:induction false} PlacedEnds(list: seq<Attr>, pos: nat)
    requires forall a :: a in list ==> AttrOk(a)
    ensures |Placed(list, pos)| == |list|
    ensures forall i :: 0 <= i < |list| ==>
      var t := Placed(list, pos)[i];
      && t.kind == list[i].kind && t.value == list[i].value
      && (i == |list| - 1 ==> t.at + 4 + Padded(|t.value|) == pos + |AttrsBytes(list)|)
      && (i < |list| - 1 ==> t.at + 4 + Padded(|t.value|) < pos + |AttrsBytes(list)|)
  {
    hide ToBE;
    if list != [] {
      assert AttrOk(list[0]);
      PlacedEnds(list[1..], pos + |AttrBytes(list[0])|);
    }
  }

  function Request(list: seq<Attr>, transaction: Bytes, tail: Bytes): Bytes {
    [0, 1] + ToBE(|AttrsBytes(list)|, 2) + COOKIE + transaction + AttrsBytes(list) + tail
  }

  predicate ClosesWithChecksum(list: seq<Attr>, packet: Bytes, crc: Bytes -> U32) {
    && list != []
    && var last := list[|list| - 1];
       && last.kind == FINGERPRINT && |last.value| == 4
       && HEADER + |AttrsBytes(list)| - 8 >= 0 && HEADER + |AttrsBytes(list)| - 8 <= |packet|
       && FromBE(last.value) == Checksum(crc, packet[..HEADER + |AttrsBytes(list)| - 8])
  }

  /** On every well-formed Binding Request the responder answers if and only if some SOFTWARE attribute is
      "tailnode" and the last attribute is a FINGERPRINT over everything before it (section 15.5 of
      RFC 5389). Bytes after the declared area do not matter. */
  lemma AnswersIff(list: seq<Attr>, transaction: Bytes, tail: Bytes, crc: Bytes -> U32)
    requires forall a :: a in list ==> AttrOk(a)
    requires |transaction| == 12 && |AttrsBytes(list)| < 0x1_0000
    ensures var packet := Request(list, transaction, tail);
      Accepts(packet, crc) <==>
        && (exists a :: a in list && a.kind == SOFTWARE && a.value == TAILNODE)
        && ClosesWithChecksum(list, packet, crc)
  {
    hide ToBE, FromBE, Scan, Word, Placed, Checksum;
    var packet, area := Request(list, transaction, tail), AttrsBytes(list);
    assert packet[2..4] == ToBE(|area|, 2);
    WordIn(packet, 2, |area|);
    assert packet[0..2] == [0, 1] && packet[4..8] == COOKIE;
    assert packet[HEADER..HEADER + |area|] == area;
    assert [] + area == area;
    ScanPlaced([], list);
    PlacedEnds(list, 0);
    AcceptsPlaced(list, packet, crc);
  }

  lemma AcceptsPlaced(list: seq<Attr>, packet: Bytes, crc: Bytes -> U32)
    requires HEADER + |AttrsBytes(list)| <= |packet| && forall a :: a in list ==> AttrOk(a)
    ensures AcceptsAll(Placed(list, 0), |AttrsBytes(list)|, packet, crc) <==>
            && (exists a :: a in list && a.kind == SOFTWARE && a.value == TAILNODE)
            && ClosesWithChecksum(list, packet, crc)
  {
    hide ToBE, FromBE, Placed, Checksum, AttrsBytes;
    PlacedEnds(list, 0);
    var ts, size := Placed(list, 0), |AttrsBytes(list)|;
    forall i | 0 <= i < |list| ensures IsFingerprint(ts[i], size) <==>
      i == |list| - 1 && list[i].kind == FINGERPRINT && |list[i].value| == 4
    {
    }
    if a :| a in list && a.kind == SOFTWARE && a.value == TAILNODE {
      var i :| 0 <= i < |list| && list[i] == a;
      assert ts[i] in ts && IsSoftware(ts[i]);
    }
    if ClosesWithChecksum(list, packet, crc) {
      assert ts[|list| - 1] in ts;
    }
  }
}
