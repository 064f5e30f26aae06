/** The bytes on the wire, byte by byte, as the protocol document has them, and what a reader refuses. */
module Format {
  import opened Wire
  import opened Codec
  import opened Relay

  function Number16(b: Bytes, i: nat): int
    requires i + 2 <= |b|
  {
    0x100 * b[i] as int + b[i + 1] as int
  }

  function Number32(b: Bytes, i: nat): int
    requires i + 4 <= |b|
  {
    0x100_0000 * b[i] as int + 0x1_0000 * b[i + 1] as int + 0x100 * b[i + 2] as int + b[i + 3] as int
  }

  lemma Numbers(b: Bytes, i: nat, x: U16, y: U32)
    ensures i + 2 <= |b| && b[i..i + 2] == PutU16(x) ==> Number16(b, i) == x
    ensures i + 4 <= |b| && b[i..i + 4] == PutU32(y) ==> Number32(b, i) == y
  {
    BigEndian(x, y);
    if i + 2 <= |b| && b[i..i + 2] == PutU16(x) {
      assert b[i] == b[i..i + 2][0] && b[i + 1] == b[i..i + 2][1];
    }
    if i + 4 <= |b| && b[i..i + 4] == PutU32(y) {
      assert b[i] == b[i..i + 4][0] && b[i + 1] == b[i..i + 4][1] && b[i + 2] == b[i..i + 4][2];
      assert b[i + 3] == b[i..i + 4][3];
    }
  }

  /** Tag 0x00, one byte of length, the name, the port. */
  lemma DomainBytes(name: Utf8, port: U16)
    ensures var b := EncodeAddress(DomainAddress(name, port));
            && |b| == 4 + |name| && b[0] == 0x00 && b[1] == |name| % 0x100
            && b[2..2 + |name|] == name && Number16(b, 2 + |name|) == port
  {
    var b := EncodeAddress(DomainAddress(name, port));
    assert b == [0x00, |name| % 0x100] + name + PutU16(port);
    assert b[2 + |name|..2 + |name| + 2] == PutU16(port);
    Numbers(b, 2 + |name|, port, 0);
  }

  /** Tag 0x01, four bytes of address, the port. */
  lemma V4Bytes(ip: Ipv4, port: U16)
    ensures var b := EncodeAddress(SocketAddress(V4(ip, port)));
            |b| == 7 && b[0] == 0x01 && b[1..5] == ip && Number16(b, 5) == port
  {
    var b := EncodeAddress(SocketAddress(V4(ip, port)));
    assert b == [0x01] + ip + PutU16(port);
    assert b[5..7] == PutU16(port);
    Numbers(b, 5, port, 0);
  }

  /** Tag 0x02, eight segments of two bytes, the port; flow information and scope do not matter. */
  lemma V6Bytes(ip: Ipv6, port: U16, flowinfo: U32, scope: U32)
    ensures var b := EncodeAddress(SocketAddress(V6(ip, port, flowinfo, scope)));
            && |b| == 19 && b[0] == 0x02 && Number16(b, 17) == port
            && forall k | 0 <= k < 8 :: Number16(b, 1 + 2 * k) == ip[k]
  {
    var b := EncodeAddress(SocketAddress(V6(ip, port, flowinfo, scope)));
    assert b == [0x02] + PutU16s(ip) + PutU16(port);
    assert b[17..19] == PutU16(port);
    Numbers(b, 17, port, 0);
    forall k | 0 <= k < 8
      ensures Number16(b, 1 + 2 * k) == ip[k]
    {
      SegmentBytes(ip, k);
      assert b[1 + 2 * k..3 + 2 * k] == PutU16s(ip)[2 * k..2 * k + 2];
      Numbers(b, 1 + 2 * k, ip[k], 0);
    }
  }

  /** Version 0x04, the type of the command, and its fields at their offsets. */
  lemma CommandBytes(c: Command)
    ensures |Encode(c)| >= 2 && Encode(c)[0] == 0x04
    ensures Encode(c)[1] == match c
                            case Authenticate(_) => 0x00
                            case Connect(_) => 0x01
                            case Packet(_, _, _) => 0x02
                            case Dissociate(_) => 0x03
                            case Heartbeat => 0x04
                            case Response(_) => 0xFF
    ensures match c
            case Authenticate(digest) => |Encode(c)| == 34 && Encode(c)[2..34] == digest
            case Connect(addr) => Encode(c)[2..] == EncodeAddress(addr)
            case Packet(assoc, len, addr) =>
              && |Encode(c)| >= 8 && Number32(Encode(c), 2) == assoc && Number16(Encode(c), 6) == len
              && Encode(c)[8..] == EncodeAddress(addr)
            case Dissociate(assoc) => |Encode(c)| == 6 && Number32(Encode(c), 2) == assoc
            case Heartbeat => |Encode(c)| == 2
            case Response(ok) => |Encode(c)| == 3 && Encode(c)[2] == if ok then 0x00 else 0xFF
  {
    match c
    case Packet(assoc, len, addr) => PacketBytes(assoc, len, addr);
    case Dissociate(assoc) =>
      assert Encode(c)[2..6] == PutU32(assoc);
      Numbers(Encode(c), 2, 0, assoc);
    case _ =>
  }

  lemma PacketBytes(assoc: U32, len: U16, addr: Address)
    ensures var b := Encode(Packet(assoc, len, addr));
            && |b| >= 8 && b[0] == 0x04 && b[1] == 0x02
            && Number32(b, 2) == assoc && Number16(b, 6) == len && b[8..] == EncodeAddress(addr)
  {
    var b := Encode(Packet(assoc, len, addr));
    Fields([0x04, 0x02], PutU32(assoc), PutU16(len), EncodeAddress(addr));
    assert b == [0x04, 0x02] + PutU32(assoc) + PutU16(len) + EncodeAddress(addr);
    Numbers(b, 2, 0, assoc);
    Numbers(b, 6, len, 0);
  }

  /** A packet is its header, with the payload's length modulo 65536 in it, and then the payload. */
  lemma FrameBytes(assoc: U32, pkt: UdpPacket)
    ensures var b := Frame(assoc, pkt);
            && |b| >= 8 + |pkt.payload| && b[0] == 0x04 && b[1] == 0x02
            && Number32(b, 2) == assoc && Number16(b, 6) == |pkt.payload| % 0x1_0000
            && b[8..|b| - |pkt.payload|] == EncodeAddress(pkt.addr) && b[|b| - |pkt.payload|..] == pkt.payload
  {
    var header := Encode(Packet(assoc, |pkt.payload| % 0x1_0000, pkt.addr));
    PacketBytes(assoc, |pkt.payload| % 0x1_0000, pkt.addr);
    assert Frame(assoc, pkt) == header + pkt.payload;
  }

  // ---------------------------------------------------------------- refusals

  predicate AddressTagUnknown(s: Bytes) {
    |s| >= 1 && s[0] !in {0x00, 0x01, 0x02}
  }

  predicate NameIsNoText(s: Bytes) {
    && |s| >= 2 && s[0] == 0x00 && |s| >= 4 + s[1] as int
    && !ValidUtf8(s[2..2 + s[1] as int])
  }

  lemma AddressRefusals(s: Bytes)
    ensures DecodeAddress(s) == Err(InvalidInput) <==> AddressTagUnknown(s)
    ensures DecodeAddress(s) == Err(InvalidData) <==> NameIsNoText(s)
    ensures DecodeAddress(s) != Err(Unsupported)
  {
  }

  /** Where the address of a command starts, if it has one. */
  function AddressOf(s: Bytes): Option<Bytes> {
    if |s| >= 2 && s[0] == 0x04 && s[1] == 0x01 then Some(s[2..])
    else if |s| >= 8 && s[0] == 0x04 && s[1] == 0x02 then Some(s[8..])
    else None
  }

  /** Which error a reader reports, for any bytes: a wrong version, an unknown code, a name that is not UTF-8. */
  lemma Refusals(s: Bytes)
    ensures Decode(s) == Err(Unsupported) <==> |s| >= 1 && s[0] != 0x04
    ensures Decode(s) == Err(InvalidInput) <==>
              || (|s| >= 2 && s[0] == 0x04 && s[1] !in {0x00, 0x01, 0x02, 0x03, 0x04, 0xFF})
              || (|s| >= 3 && s[0] == 0x04 && s[1] == 0xFF && s[2] !in {0x00, 0xFF})
              || (AddressOf(s).Some? && AddressTagUnknown(AddressOf(s).value))
    ensures Decode(s) == Err(InvalidData) <==> AddressOf(s).Some? && NameIsNoText(AddressOf(s).value)
  {
    if AddressOf(s).Some? {
      AddressRefusals(AddressOf(s).value);
    }
  }
}
