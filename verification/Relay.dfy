/**
 One UDP packet as it crosses the relay: a Packet command followed by the payload, in a datagram
 (relay mode native) or on a unidirectional stream (relay mode quic), in either direction.
 */
module Relay {
  import opened Wire
  import opened Codec

  datatype UdpPacket = UdpPacket(payload: Bytes, addr: Address)

  /** What a receiver makes of the bytes; Panicked is an out-of-bounds slice. */
  datatype Received = Delivered(assoc: U32, pkt: UdpPacket) | Dropped | Panicked

  /** The length field of a Packet command: the payload length, cut to 16 bits. */
  function LenField(payload: Bytes): U16 {
    |payload| % 0x1_0000
  }

  /** The bytes that both ends put on the wire for a packet, in both modes. */
  function Frame(assoc: U32, pkt: UdpPacket): Bytes {
    Encode(Packet(assoc, LenField(pkt.payload), pkt.addr)) + pkt.payload
  }

  /** Both ends, unidirectional stream: read the header, then exactly len bytes. */
  function FromStream(s: Bytes): Received {
    match Decode(s)
    case Ok(Packet(assoc, len, addr), rest) =>
      if len <= |rest| then Delivered(assoc, UdpPacket(rest[..len], addr)) else Dropped
    case _ => Dropped
  }

  /** The server, datagram: everything behind the header, found by its recomputed length. */
  function ServerFromDatagram(s: Bytes): Received {
    match Decode(s)
    case Ok(Packet(assoc, len, addr), _) =>
      var n := SerializedLen(Packet(assoc, len, addr));
      if n <= |s| then Delivered(assoc, UdpPacket(s[n..], addr)) else Panicked
    case _ => Dropped
  }

  /** The client, datagram: len bytes behind the header. */
  function ClientFromDatagram(s: Bytes): Received {
    match Decode(s)
    case Ok(Packet(assoc, len, addr), _) =>
      var n := SerializedLen(Packet(assoc, len, addr));
      if n + len <= |s| then Delivered(assoc, UdpPacket(s[n..n + len], addr)) else Panicked
    case _ => Dropped
  }

  /** The packet as the far end sees it when it trusts the length field. */
  function Trimmed(pkt: UdpPacket): UdpPacket {
    UdpPacket(pkt.payload[..LenField(pkt.payload)], Carried(pkt.addr))
  }

  /** The packet as the far end sees it when it takes the whole datagram. */
  function Whole(pkt: UdpPacket): UdpPacket {
    UdpPacket(pkt.payload, Carried(pkt.addr))
  }

  lemma TrimmedIsWholeIff(pkt: UdpPacket)
    ensures Trimmed(pkt) == Whole(pkt) <==> |pkt.payload| < 0x1_0000
  {
    if |pkt.payload| < 0x1_0000 {
      assert pkt.payload[..|pkt.payload|] == pkt.payload;
    } else {
      assert |Trimmed(pkt).payload| < |Whole(pkt).payload|;
    }
  }

  lemma FrameOnStream(assoc: U32, pkt: UdpPacket)
    requires Encodable(pkt.addr)
    ensures FromStream(Frame(assoc, pkt)) == Delivered(assoc, Trimmed(pkt))
  {
    PacketRoundTrip(assoc, LenField(pkt.payload), pkt.addr, pkt.payload);
  }

  lemma FrameAsDatagramToServer(assoc: U32, pkt: UdpPacket)
    requires Encodable(pkt.addr)
    ensures ServerFromDatagram(Frame(assoc, pkt)) == Delivered(assoc, Whole(pkt))
  {
    PacketRoundTrip(assoc, LenField(pkt.payload), pkt.addr, pkt.payload);
    Canonical(Frame(assoc, pkt));
  }

  /** The client's slice is in bounds for every datagram that the server builds. */
  lemma FrameAsDatagramToClient(assoc: U32, pkt: UdpPacket)
    requires Encodable(pkt.addr)
    ensures ClientFromDatagram(Frame(assoc, pkt)) == Delivered(assoc, Trimmed(pkt))
  {
    var s := Frame(assoc, pkt);
    PacketRoundTrip(assoc, LenField(pkt.payload), pkt.addr, pkt.payload);
    Canonical(s);
    var n := |s| - |pkt.payload|;
    assert s[n..][..LenField(pkt.payload)] == s[n..n + LenField(pkt.payload)];
  }

  /** The server cuts its datagrams in bounds, and what it cuts off is what the parser left unread. */
  lemma ServerSliceInBounds(s: Bytes)
    ensures !ServerFromDatagram(s).Panicked?
    ensures Decode(s).Ok? && Decode(s).value.Packet? ==>
              ServerFromDatagram(s) == Delivered(Decode(s).value.assoc, UdpPacket(Decode(s).rest, Decode(s).value.addr))
  {
    if Decode(s).Ok? {
      Canonical(s);
    }
  }

  /** The client's slice is out of bounds exactly for a Packet that promises more than it carries. */
  lemma ClientSliceOutOfBoundsIff(s: Bytes)
    ensures ClientFromDatagram(s).Panicked? <==>
              Decode(s).Ok? && Decode(s).value.Packet? && |Decode(s).rest| < Decode(s).value.len
  {
    if Decode(s).Ok? {
      Canonical(s);
    }
  }

  /** Such a datagram: a header that announces a payload, with nothing behind it. */
  lemma BareHeaderIsOutOfBounds(assoc: U32, len: U16, addr: Address)
    requires Encodable(addr) && len > 0
    ensures ClientFromDatagram(Encode(Packet(assoc, len, addr))).Panicked?
    ensures ServerFromDatagram(Encode(Packet(assoc, len, addr))) == Delivered(assoc, UdpPacket([], Carried(addr)))
    ensures FromStream(Encode(Packet(assoc, len, addr))) == Dropped
  {
    var s := Encode(Packet(assoc, len, addr));
    assert s + [] == s;
    PacketRoundTrip(assoc, len, addr, []);
    Canonical(s);
  }

  /** Client to server, the two modes deliver the same exactly when the length fits the length field. */
  lemma ModesAgreeIff(assoc: U32, pkt: UdpPacket)
    requires Encodable(pkt.addr)
    ensures FromStream(Frame(assoc, pkt)) == ServerFromDatagram(Frame(assoc, pkt)) <==> |pkt.payload| < 0x1_0000
  {
    FrameOnStream(assoc, pkt);
    FrameAsDatagramToServer(assoc, pkt);
    TrimmedIsWholeIff(pkt);
  }

  /** Server to client, the two modes always deliver the same, and it is the packet if its length fits. */
  lemma ModesAgreeToClient(assoc: U32, pkt: UdpPacket)
    requires Encodable(pkt.addr)
    ensures FromStream(Frame(assoc, pkt)) == ClientFromDatagram(Frame(assoc, pkt)) == Delivered(assoc, Trimmed(pkt))
    ensures Trimmed(pkt) == Whole(pkt) <==> |pkt.payload| < 0x1_0000
  {
    FrameOnStream(assoc, pkt);
    FrameAsDatagramToClient(assoc, pkt);
    TrimmedIsWholeIff(pkt);
  }

  /** A stream cut off anywhere delivers the packet of the whole stream or nothing. */
  lemma CutStream(s: Bytes, more: Bytes)
    ensures FromStream(s) == Dropped || FromStream(s) == FromStream(s + more)
  {
    PrefixStable(s, more);
    if FromStream(s).Delivered? {
      var Ok(cmd, rest) := Decode(s);
      assert (rest + more)[..cmd.len] == rest[..cmd.len];
    }
  }

  // ---------------------------------------------------------------- the code's own form

  /** Builds the datagram in a buffer: header first, payload behind it. */
  method BuildDatagram(assoc: U32, pkt: UdpPacket) returns (b: Bytes)
    ensures b == Frame(assoc, pkt)
  {
    var buf := new Buffer();
    buf.WriteCommand(Packet(assoc, |pkt.payload| % 0x1_0000, pkt.addr));
    assert buf.data == Encode(Packet(assoc, LenField(pkt.payload), pkt.addr));
    buf.Put(pkt.payload);
    b := buf.data;
  }

  /** Reads a packet off a stream; the header has been parsed, the payload has not. */
  method ReadStream(stream: Reader) returns (r: Received)
    modifies stream
    ensures r == FromStream(old(stream.unread))
  {
    var header := stream.ReadCommand();
    match header
    case Success(Packet(assoc, len, addr)) =>
      var payload := stream.ReadExact(len);
      match payload {
        case Success(p) => r := Delivered(assoc, UdpPacket(p, addr));
        case Failure(_) => r := Dropped;
      }
    case _ => r := Dropped;
  }
}
