/**
 From SOCKS5 UDP to the relay: how large a SOCKS5 datagram may be so that the TUIC packet made of it
 fits the connection's limit.
 */
module Socks5 {
  import opened Wire
  import opened Codec
  import opened Relay

  /** The address types of section 5 of RFC 1928. */
  function Atyp(a: Address): Byte {
    match a
    case DomainAddress(_, _) => 0x03
    case SocketAddress(V4(_, _)) => 0x01
    case SocketAddress(V6(_, _, _, _)) => 0x04
  }

  /** What follows the address type: the address, a name with its length in front, and the port. */
  function AddressField(a: Address): Bytes {
    match a
    case DomainAddress(name, port) => [|name| % 0x100] + name + PutU16(port)
    case SocketAddress(V4(ip, port)) => ip + PutU16(port)
    case SocketAddress(V6(ip, port, _, _)) => PutU16s(ip) + PutU16(port)
  }

  /** The UDP request header of section 7 of RFC 1928: two bytes RSV, FRAG, ATYP, then the address. */
  function UdpHeader(frag: Byte, a: Address): Bytes {
    [0x00, 0x00, frag, Atyp(a)] + AddressField(a)
  }

  /** serialized_len of that header. */
  function UdpHeaderLen(a: Address): nat {
    2 + 1 + 1 + match a
                case DomainAddress(name, _) => 1 + |name| + 2
                case SocketAddress(V4(_, _)) => 4 + 2
                case SocketAddress(V6(_, _, _, _)) => 16 + 2
  }

  const MAX_UDP_HEADER_LEN: nat := 2 + 1 + 1 + 1 + 255 + 2

  /** The length is that of the header written field by field, and its maximum is attained by a 255-byte name only. */
  lemma HeaderLength(frag: Byte, a: Address)
    ensures |UdpHeader(frag, a)| == UdpHeaderLen(a)
    ensures Encodable(a) ==> |UdpHeader(frag, a)| <= MAX_UDP_HEADER_LEN
    ensures Encodable(a) ==>
              (|UdpHeader(frag, a)| == MAX_UDP_HEADER_LEN <==> a.DomainAddress? && |a.name| == 255)
  {
  }

  /** What the receive loop subtracts from the limit. */
  const HEADER_EXCESS: int := MAX_SERIALIZED_LEN - MAX_UDP_HEADER_LEN

  /**
   A TUIC packet is longer than the SOCKS5 datagram it came from by the difference of the two maxima,
   whatever the address.
   */
  lemma FrameExceedsDatagram(assoc: U32, pkt: UdpPacket)
    ensures |Frame(assoc, pkt)| == UdpHeaderLen(pkt.addr) + |pkt.payload| + HEADER_EXCESS
  {
    EncodedLength(Packet(assoc, LenField(pkt.payload), pkt.addr));
  }

  /** A datagram of the SOCKS5 client, and the relay's packet size limit when the loop came round to it. */
  datatype Input = Input(limit: nat, frag: Byte, addr: Address, payload: Bytes, from: nat)

  /**
   Why the loop stopped early: the buffer size underflowed, the header did not fit the buffer, or the
   socket could not be connected to the sender of the first datagram.
   */
  datatype Stop = Running | Underflow | BadHeader | ConnectFailed

  /** usize subtraction, which has no result below zero. */
  function BufSize(limit: nat): Option<nat> {
    if limit >= HEADER_EXCESS then Some(limit - HEADER_EXCESS) else None
  }

  /** The socket cuts a datagram to the buffer; a cut header cannot be parsed. */
  function Receive(size: nat, i: Input): Option<UdpPacket> {
    if size < UdpHeaderLen(i.addr) then None
    else
      var room := size - UdpHeaderLen(i.addr);
      Some(UdpPacket(if |i.payload| <= room then i.payload else i.payload[..room], i.addr))
  }

  // ---------------------------------------------------------------- what the receive call parses

  /** The address types of SOCKS5 are those of TUIC under other numbers; the rest of the field is the same. */
  function TuicTag(atyp: Byte): Option<Byte> {
    match atyp
    case 0x03 => Some(0x00)
    case 0x01 => Some(0x01)
    case 0x04 => Some(0x02)
    case _ => None
  }

  /** A UDP request read from a buffer: FRAG, address and payload. */
  function ParseRequest(b: Bytes): Option<(Byte, UdpPacket)> {
    if |b| < 4 || TuicTag(b[3]) == None then None
    else
      match DecodeAddress([TuicTag(b[3]).value] + b[4..])
      case Ok(addr, rest) => Some((b[2], UdpPacket(rest, addr)))
      case Err(_) => None
  }

  lemma FieldIsTuic(a: Address)
    ensures TuicTag(Atyp(a)).Some? && EncodeAddress(a) == [TuicTag(Atyp(a)).value] + AddressField(a)
  {
    if a.DomainAddress? {
      assert [0x00, |a.name| % 0x100] == [0x00] + [|a.name| % 0x100];
      Associate([0x00], [|a.name| % 0x100], a.name, PutU16(a.port));
    }
  }

  lemma CutAddressFails(a: Address, k: nat)
    requires Encodable(a) && k < |EncodeAddress(a)|
    ensures DecodeAddress(EncodeAddress(a)[..k]).Err?
  {
    var e := EncodeAddress(a);
    AddressRoundTrip(a, []);
    AddressPrefixStable(e[..k], e[k..]);
    assert e[..k] + e[k..] == e + [] == e;
  }

  /**
   Cutting the datagram to the buffer and parsing it gives what Receive says: a cut header is an error,
   a cut payload is not.
   */
  lemma ReceiveParses(size: nat, i: Input)
    requires Encodable(i.addr)
    ensures var datagram := UdpHeader(i.frag, i.addr) + i.payload;
            var seen := if |datagram| <= size then datagram else datagram[..size];
            ParseRequest(seen) == match Receive(size, i)
                                  case None => None
                                  case Some(pkt) => Some((i.frag, UdpPacket(pkt.payload, Carried(pkt.addr))))
  {
    var header := UdpHeader(i.frag, i.addr);
    var datagram := header + i.payload;
    var seen := if |datagram| <= size then datagram else datagram[..size];
    HeaderLength(i.frag, i.addr);
    if |header| <= size {
      var pkt := Receive(size, i).value;
      assert seen == header + pkt.payload;
      WholeHeaderParses(i.frag, i.addr, pkt.payload);
    } else {
      assert seen == header[..size];
      CutHeaderFails(i.frag, i.addr, size);
    }
  }

  /** What the parser does with four bytes and the rest. */
  lemma ParseSplit(frag: Byte, atyp: Byte, field: Bytes)
    requires TuicTag(atyp).Some?
    ensures ParseRequest([0x00, 0x00, frag, atyp] + field) ==
              match DecodeAddress([TuicTag(atyp).value] + field)
              case Ok(addr, rest) => Some((frag, UdpPacket(rest, addr)))
              case Err(_) => None
  {
    var b := [0x00, 0x00, frag, atyp] + field;
    assert b[4..] == field && b[3] == atyp && b[2] == frag;
  }

  lemma WholeHeaderParses(frag: Byte, a: Address, rest: Bytes)
    requires Encodable(a)
    ensures ParseRequest(UdpHeader(frag, a) + rest) == Some((frag, UdpPacket(rest, Carried(a))))
  {
    FieldIsTuic(a);
    ParseSplit(frag, Atyp(a), AddressField(a) + rest);
    AddressRoundTrip(a, rest);
    Regroup([0x00, 0x00, frag, Atyp(a)], AddressField(a), rest);
    Regroup([TuicTag(Atyp(a)).value], AddressField(a), rest);
  }

  lemma Regroup(a: Bytes, b: Bytes, c: Bytes)
    ensures a + b + c == a + (b + c)
  {
  }

  lemma CutSecond(a: Bytes, b: Bytes, k: nat)
    requires |a| <= k <= |a| + |b|
    ensures (a + b)[..k] == a + b[..k - |a|]
  {
  }

  lemma CutHeaderFails(frag: Byte, a: Address, k: nat)
    requires Encodable(a) && k < |UdpHeader(frag, a)|
    ensures ParseRequest(UdpHeader(frag, a)[..k]) == None
  {
    if k >= 4 {
      FieldIsTuic(a);
      CutSecond([0x00, 0x00, frag, Atyp(a)], AddressField(a), k);
      CutSecond([TuicTag(Atyp(a)).value], AddressField(a), k - 3);
      ParseSplit(frag, Atyp(a), AddressField(a)[..k - 4]);
      CutAddressFails(a, k - 3);
    }
  }

  // ---------------------------------------------------------------- the loops

  function Outcome(i: Input): Stop {
    match BufSize(i.limit)
    case None => Underflow
    case Some(size) => if Receive(size, i).Some? then Running else BadHeader
  }

  function Packets(i: Input): seq<UdpPacket>
    requires Outcome(i) == Running
  {
    if i.frag == 0 then [Receive(BufSize(i.limit).value, i).value] else []
  }

  /** What is forwarded: the unfragmented datagrams in order, up to the first that stops the loop. */
  function Forwarded(inputs: seq<Input>): seq<UdpPacket> {
    if inputs == [] || Outcome(inputs[0]) != Running then []
    else Packets(inputs[0]) + Forwarded(inputs[1..])
  }

  /** A packet fits the limit under which its datagram was received, and the bound is tight. */
  lemma ForwardedFits(i: Input, assoc: U32)
    requires Outcome(i) == Running
    ensures forall p | p in Packets(i) :: |Frame(assoc, p)| <= i.limit
    ensures i.frag == 0 && UdpHeaderLen(i.addr) + |i.payload| >= i.limit - HEADER_EXCESS ==>
              |Frame(assoc, Packets(i)[0])| == i.limit
    ensures i.frag == 0 && UdpHeaderLen(i.addr) + |i.payload| <= i.limit - HEADER_EXCESS ==>
              Packets(i) == [UdpPacket(i.payload, i.addr)]
  {
    if i.frag == 0 {
      FrameExceedsDatagram(assoc, Packets(i)[0]);
    }
  }

  /** Every address form stays receivable, and no size underflows, exactly from these limits on. */
  lemma LimitSuffices(limit: nat)
    ensures BufSize(limit) == None <==> limit < HEADER_EXCESS
    ensures (forall i: Input | i.limit == limit && Encodable(i.addr) :: Outcome(i) == Running) <==>
              limit >= MAX_SERIALIZED_LEN
  {
    if limit < MAX_SERIALIZED_LEN {
      var name: Bytes := seq(255, _ => 0x61);
      AsciiIsValidUtf8(name, 0);
      assert Outcome(Input(limit, 0, DomainAddress(name, 0), [], 0)) != Running;
    }
  }

  lemma {:induction false} ForwardedAppend(inputs: seq<Input>, i: Input)
    requires forall k | 0 <= k < |inputs| :: Outcome(inputs[k]) == Running
    ensures Forwarded(inputs + [i]) == Forwarded(inputs) + if Outcome(i) == Running then Packets(i) else []
  {
    if inputs == [] {
      assert inputs + [i] == [i] && [i][1..] == [];
    } else {
      assert (inputs + [i])[1..] == inputs[1..] + [i];
      ForwardedAppend(inputs[1..], i);
    }
  }

  /** Inputs behind one that stops the loop are never read. */
  lemma {:induction false} ForwardedStops(inputs: seq<Input>, n: nat)
    requires n < |inputs| && Outcome(inputs[n]) != Running
    requires forall k | 0 <= k < n :: Outcome(inputs[k]) == Running
    ensures Forwarded(inputs) == Forwarded(inputs[..n])
  {
    if n > 0 {
      ForwardedStops(inputs[1..], n - 1);
      assert inputs[1..][..n - 1] == inputs[..n][1..];
    }
  }

  /** One turn of either loop. */
  method Turn(i: Input) returns (stop: Stop, pkt: Option<UdpPacket>)
    ensures stop == Outcome(i)
    ensures pkt.Some? <==> stop == Running && i.frag == 0
    ensures pkt.Some? ==> [pkt.value] == Packets(i)
  {
    pkt := None;
    if i.limit < HEADER_EXCESS {
      return Underflow, None;
    }
    var size: nat := i.limit - HEADER_EXCESS;
    var got := Receive(size, i);
    if got == None {
      return BadHeader, None;
    }
    stop := Running;
    if i.frag == 0 {
      pkt := got;
    }
  }

  predicate Clear(inputs: seq<Input>, n: nat)
    requires n <= |inputs|
  {
    forall k | 0 <= k < n :: Outcome(inputs[k]) == Running
  }

  /** The position of the first unfragmented datagram. */
  predicate FirstWhole(inputs: seq<Input>, n: nat) {
    n < |inputs| && inputs[n].frag == 0 && forall k | 0 <= k < n :: inputs[k].frag != 0
  }

  /** Reading one more datagram. */
  method Advance(inputs: seq<Input>, i: nat, out: seq<UdpPacket>) returns (stop: Stop, out': seq<UdpPacket>)
    requires i < |inputs| && Clear(inputs, i) && out == Forwarded(inputs[..i])
    ensures stop == Outcome(inputs[i])
    ensures stop == Running ==>
              && Clear(inputs, i + 1) && out' == Forwarded(inputs[..i + 1])
              && out' == out + Packets(inputs[i]) && |Packets(inputs[i])| == if inputs[i].frag == 0 then 1 else 0
    ensures stop != Running ==> out' == out == Forwarded(inputs)
  {
    var s, pkt := Turn(inputs[i]);
    stop, out' := s, out;
    if stop == Running {
      assert inputs[..i + 1] == inputs[..i] + [inputs[i]];
      ForwardedAppend(inputs[..i], inputs[i]);
      if pkt.Some? {
        out' := out + [pkt.value];
      }
    } else {
      ForwardedStops(inputs, i);
    }
  }

  /**
   The loop up to the first unfragmented datagram, to whose sender the socket is then connected; i
   inputs are consumed.
   */
  method FirstLoop(inputs: seq<Input>, connects: bool) returns (i: nat, out: seq<UdpPacket>, stop: Stop)
    ensures i <= |inputs| && Clear(inputs, i) && out == Forwarded(inputs[..i])
    ensures out == [] && stop != Running ==> i < |inputs| && stop == Outcome(inputs[i]) && Forwarded(inputs) == []
    ensures out == [] && stop == Running ==> i == |inputs|
    ensures out != [] ==> |out| == 1 && i > 0 && FirstWhole(inputs, i - 1)
    ensures out != [] ==> stop == if connects then Running else ConnectFailed
  {
    i, out, stop := 0, [], Running;
    while i < |inputs| && out == []
      invariant i <= |inputs| && Clear(inputs, i) && out == Forwarded(inputs[..i])
      invariant stop == Running
      invariant out == [] ==> forall k | 0 <= k < i :: inputs[k].frag != 0
      invariant out != [] ==> |out| == 1 && i > 0 && FirstWhole(inputs, i - 1)
    {
      stop, out := Advance(inputs, i, out);
      if stop != Running {
        return;
      }
      assert out == [] + Packets(inputs[i]) == Packets(inputs[i]);
      assert inputs[i].frag == 0 ==> FirstWhole(inputs, i);
      i := i + 1;
    }
    if out != [] && !connects {
      stop := ConnectFailed;
    }
  }

  /** The loop over the rest. */
  method SecondLoop(inputs: seq<Input>, start: nat, sofar: seq<UdpPacket>) returns (out: seq<UdpPacket>, stop: Stop)
    requires start <= |inputs| && Clear(inputs, start) && sofar == Forwarded(inputs[..start])
    ensures out == Forwarded(inputs) && sofar <= out
    ensures stop == Running <==> Clear(inputs, |inputs|)
  {
    var i := start;
    out, stop := sofar, Running;
    while i < |inputs|
      invariant i <= |inputs| && Clear(inputs, i) && out == Forwarded(inputs[..i]) && sofar <= out && stop == Running
    {
      stop, out := Advance(inputs, i, out);
      if stop != Running {
        return;
      }
      i := i + 1;
    }
    assert inputs[..i] == inputs;
  }

  lemma {:induction false} ForwardedPrefix(inputs: seq<Input>, i: nat)
    requires i <= |inputs|
    ensures Forwarded(inputs[..i]) <= Forwarded(inputs)
  {
    if i > 0 && Outcome(inputs[0]) == Running {
      ForwardedPrefix(inputs[1..], i - 1);
      assert inputs[..i][1..] == inputs[1..][..i - 1];
    }
  }

  /**
   socks5_to_relay: the first loop runs to the first unfragmented datagram and connects the socket to
   its sender, the second loop takes the rest. Together they forward what one loop over all would; if
   the socket cannot be connected, only the first of that.
   */
  method Socks5ToRelay(inputs: seq<Input>, connects: bool) returns (out: seq<UdpPacket>, peer: Option<nat>, stop: Stop)
    ensures out == if connects || Forwarded(inputs) == [] then Forwarded(inputs) else Forwarded(inputs)[..1]
    ensures peer.Some? <==> connects && out != []
    ensures connects || out == [] ==> (stop == Running <==> Clear(inputs, |inputs|))
    ensures !connects && out != [] ==> stop == ConnectFailed
    ensures peer.Some? ==> exists n: nat :: FirstWhole(inputs, n) && inputs[n].from == peer.value
  {
    var i, first, s := FirstLoop(inputs, connects);
    ForwardedPrefix(inputs, i);
    if s != Running {
      return first, None, s;
    }
    peer := None;
    if first != [] {
      peer := Some(inputs[i - 1].from);
    }
    out, stop := SecondLoop(inputs, i, first);
    assert inputs[..|inputs|] == inputs;
  }
}
