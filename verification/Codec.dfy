/**
 The TUIC command codec: a printer, a streaming parser and the length function with which both
 ends cut payloads out of datagrams. The pure functions are the specification; the classes at the
 end of the file are the buffer and the stream that the code updates in place.
 */
module Codec {
  import opened Wire

  const VERSION: Byte := 0x04

  const TYPE_AUTHENTICATE: Byte := 0x00
  const TYPE_CONNECT: Byte := 0x01
  const TYPE_PACKET: Byte := 0x02
  const TYPE_DISSOCIATE: Byte := 0x03
  const TYPE_HEARTBEAT: Byte := 0x04
  const TYPE_RESPONSE: Byte := 0xFF

  const RESPONSE_SUCCEEDED: Byte := 0x00
  const RESPONSE_FAILED: Byte := 0xFF

  const ADDR_DOMAIN: Byte := 0x00
  const ADDR_IPV4: Byte := 0x01
  const ADDR_IPV6: Byte := 0x02

  const ZERO_DIGEST: Bytes := seq(32, _ => 0)

  type Digest = d: Bytes | |d| == 32 witness ZERO_DIGEST
  type Ipv4 = b: Bytes | |b| == 4 witness [0, 0, 0, 0]
  type Ipv6 = xs: seq<U16> | |xs| == 8 witness [0, 0, 0, 0, 0, 0, 0, 0]
  type Utf8 = b: Bytes | ValidUtf8(b) witness []

  datatype SocketAddr =
    | V4(ip4: Ipv4, port4: U16)
    | V6(ip6: Ipv6, port6: U16, flowinfo: U32, scope: U32)

  datatype Address =
    | DomainAddress(name: Utf8, port: U16)
    | SocketAddress(sock: SocketAddr)

  datatype Command =
    | Response(ok: bool)
    | Authenticate(digest: Digest)
    | Connect(addr: Address)
    | Packet(assoc: U32, len: U16, addr: Address)
    | Dissociate(assoc: U32)
    | Heartbeat

  /** The error kinds with which reading a command can fail. */
  datatype IoError = UnexpectedEof | Unsupported | InvalidInput | InvalidData

  datatype Parsed<+T> = Ok(value: T, rest: Bytes) | Err(error: IoError)

  // ---------------------------------------------------------------- printing

  function EncodeAddress(a: Address): (b: Bytes)
  {
    match a
    case DomainAddress(name, port) => [ADDR_DOMAIN, |name| % 0x100] + name + PutU16(port)
    case SocketAddress(V4(ip, port)) => [ADDR_IPV4] + ip + PutU16(port)
    case SocketAddress(V6(ip, port, _, _)) => [ADDR_IPV6] + PutU16s(ip) + PutU16(port)
  }

  function Encode(c: Command): (b: Bytes)
  {
    match c
    case Response(ok) => [VERSION, TYPE_RESPONSE, if ok then RESPONSE_SUCCEEDED else RESPONSE_FAILED]
    case Authenticate(digest) => [VERSION, TYPE_AUTHENTICATE] + digest
    case Connect(addr) => [VERSION, TYPE_CONNECT] + EncodeAddress(addr)
    case Packet(assoc, len, addr) =>
      [VERSION, TYPE_PACKET] + (PutU32(assoc) + PutU16(len)) + EncodeAddress(addr)
    case Dissociate(assoc) => [VERSION, TYPE_DISSOCIATE] + PutU32(assoc)
    case Heartbeat => [VERSION, TYPE_HEARTBEAT]
  }

  function AddressLen(a: Address): nat
  {
    1 + match a
        case DomainAddress(name, _) => 1 + |name| + 2
        case SocketAddress(V4(_, _)) => 6
        case SocketAddress(V6(_, _, _, _)) => 18
  }

  function SerializedLen(c: Command): nat
  {
    2 + match c
        case Response(_) => 1
        case Authenticate(_) => 32
        case Connect(addr) => AddressLen(addr)
        case Packet(_, _, addr) => 6 + AddressLen(addr)
        case Dissociate(_) => 4
        case Heartbeat => 0
  }

  const MAX_ADDRESS_LEN: nat := 1 + 1 + 255 + 2
  const MAX_SERIALIZED_LEN: nat := 2 + 6 + MAX_ADDRESS_LEN

  // ---------------------------------------------------------------- parsing

  function DecodeAddress(s: Bytes): (r: Parsed<Address>)
    ensures r.Ok? ==> |r.rest| < |s|
  {
    if |s| < 1 then Err(UnexpectedEof)
    else if s[0] == ADDR_DOMAIN then
      if |s| < 2 || |s| < 4 + s[1] as int then Err(UnexpectedEof)
      else
        var n: int := s[1];
        if !ValidUtf8(s[2..n + 2]) then Err(InvalidData)
        else Ok(DomainAddress(s[2..n + 2], GetU16(s[n + 2..n + 4])), s[n + 4..])
    else if s[0] == ADDR_IPV4 then
      if |s| < 7 then Err(UnexpectedEof)
      else Ok(SocketAddress(V4(s[1..5], GetU16(s[5..7]))), s[7..])
    else if s[0] == ADDR_IPV6 then
      if |s| < 19 then Err(UnexpectedEof)
      else Ok(SocketAddress(V6(GetU16s(s[1..17]), GetU16(s[17..19]), 0, 0)), s[19..])
    else Err(InvalidInput)
  }

  function Decode(s: Bytes): (r: Parsed<Command>)
    ensures r.Ok? ==> |r.rest| < |s|
  {
    if |s| < 1 then Err(UnexpectedEof)
    else if s[0] != VERSION then Err(Unsupported)
    else if |s| < 2 then Err(UnexpectedEof)
    else if s[1] == TYPE_RESPONSE then
      if |s| < 3 then Err(UnexpectedEof)
      else if s[2] == RESPONSE_SUCCEEDED then Ok(Response(true), s[3..])
      else if s[2] == RESPONSE_FAILED then Ok(Response(false), s[3..])
      else Err(InvalidInput)
    else if s[1] == TYPE_AUTHENTICATE then
      if |s| < 34 then Err(UnexpectedEof) else Ok(Authenticate(s[2..34]), s[34..])
    else if s[1] == TYPE_CONNECT then
      match DecodeAddress(s[2..])
      case Ok(addr, rest) => Ok(Connect(addr), rest)
      case Err(e) => Err(e)
    else if s[1] == TYPE_PACKET then
      if |s| < 8 then Err(UnexpectedEof)
      else
        match DecodeAddress(s[8..])
        case Ok(addr, rest) => Ok(Packet(GetU32(s[2..6]), GetU16(s[6..8]), addr), rest)
        case Err(e) => Err(e)
    else if s[1] == TYPE_DISSOCIATE then
      if |s| < 6 then Err(UnexpectedEof) else Ok(Dissociate(GetU32(s[2..6])), s[6..])
    else if s[1] == TYPE_HEARTBEAT then Ok(Heartbeat, s[2..])
    else Err(InvalidInput)
  }

  // ---------------------------------------------------------------- what the wire can carry

  /** A domain name needs its length in one byte. */
  predicate Encodable(a: Address) {
    a.DomainAddress? ==> |a.name| <= 255
  }

  /** What is left of an address after the wire: IPv6 flow information and scope are not carried. */
  function Carried(a: Address): Address {
    match a
    case SocketAddress(V6(ip, port, _, _)) => SocketAddress(V6(ip, port, 0, 0))
    case _ => a
  }

  predicate Representable(c: Command) {
    (c.Connect? || c.Packet?) ==> Encodable(c.addr) && Carried(c.addr) == c.addr
  }

  // ---------------------------------------------------------------- lengths

  /** serialized_len is the number of bytes written, for over-long domains too. */
  lemma EncodedLength(c: Command)
    ensures |Encode(c)| == SerializedLen(c)
  {
    if c.Connect? || c.Packet? {
      assert |EncodeAddress(c.addr)| == AddressLen(c.addr);
    }
  }

  // ---------------------------------------------------------------- round trip

  /** The fields of a concatenation are found at their offsets. */
  lemma Fields(a: Bytes, b: Bytes, c: Bytes, d: Bytes)
    ensures var s := a + b + c + d;
            && s[|a|..|a| + |b|] == b
            && s[|a| + |b|..|a| + |b| + |c|] == c
            && s[|a| + |b| + |c|..] == d
            && s[..|a|] == a
  {
  }

  /** A domain address is read from its fields. */
  lemma DomainAt(s: Bytes, name: Utf8, port: U16, rest: Bytes)
    requires |name| <= 255 && |s| == |name| + 4 + |rest| && s[0] == ADDR_DOMAIN && s[1] == |name|
    requires s[2..2 + |name|] == name && s[2 + |name|..4 + |name|] == PutU16(port) && s[4 + |name|..] == rest
    ensures DecodeAddress(s) == Ok(DomainAddress(name, port), rest)
  {
    U16Inverse(port, PutU16(port));
  }

  lemma DomainRoundTrip(name: Utf8, port: U16, rest: Bytes)
    requires |name| <= 255
    ensures DecodeAddress(EncodeAddress(DomainAddress(name, port)) + rest) == Ok(DomainAddress(name, port), rest)
  {
    var head: Bytes := [ADDR_DOMAIN, |name|];
    var s := head + name + PutU16(port) + rest;
    Fields(head, name, PutU16(port), rest);
    assert s[0] == s[..2][0] && s[1] == s[..2][1];
    assert EncodeAddress(DomainAddress(name, port)) == head + name + PutU16(port);
    DomainAt(s, name, port, rest);
  }

  lemma V4RoundTrip(ip: Ipv4, port: U16, rest: Bytes)
    ensures var a := SocketAddress(V4(ip, port)); DecodeAddress(EncodeAddress(a) + rest) == Ok(a, rest)
  {
    var s := [ADDR_IPV4] + ip + PutU16(port) + rest;
    assert s[0] == s[..1][0];
    Fields([ADDR_IPV4], ip, PutU16(port), rest);
    U16Inverse(port, PutU16(port));
  }

  lemma V6RoundTrip(ip: Ipv6, port: U16, flowinfo: U32, scope: U32, rest: Bytes)
    ensures DecodeAddress(EncodeAddress(SocketAddress(V6(ip, port, flowinfo, scope))) + rest)
         == Ok(SocketAddress(V6(ip, port, 0, 0)), rest)
  {
    var s := [ADDR_IPV6] + PutU16s(ip) + PutU16(port) + rest;
    assert s[0] == s[..1][0];
    Fields([ADDR_IPV6], PutU16s(ip), PutU16(port), rest);
    GetPutU16s(ip);
    U16Inverse(port, PutU16(port));
  }

  lemma AddressRoundTrip(a: Address, rest: Bytes)
    requires Encodable(a)
    ensures DecodeAddress(EncodeAddress(a) + rest) == Ok(Carried(a), rest)
  {
    match a
    case DomainAddress(name, port) => DomainRoundTrip(name, port, rest);
    case SocketAddress(V4(ip, port)) => V4RoundTrip(ip, port, rest);
    case SocketAddress(V6(ip, port, f, scope)) => V6RoundTrip(ip, port, f, scope, rest);
  }

  /** The Packet header, with any payload behind it. */
  lemma PacketRoundTrip(assoc: U32, len: U16, a: Address, rest: Bytes)
    requires Encodable(a)
    ensures Decode(Encode(Packet(assoc, len, a)) + rest) == Ok(Packet(assoc, len, Carried(a)), rest)
  {
    var s := Encode(Packet(assoc, len, a)) + rest;
    assert s[2..6] == PutU32(assoc);
    assert s[6..8] == PutU16(len);
    assert s[8..] == EncodeAddress(a) + rest;
    U32Inverse(assoc, PutU32(assoc));
    U16Inverse(len, PutU16(len));
    AddressRoundTrip(a, rest);
  }

  lemma ConnectRoundTrip(a: Address, rest: Bytes)
    requires Encodable(a)
    ensures Decode(Encode(Connect(a)) + rest) == Ok(Connect(Carried(a)), rest)
  {
    var s := Encode(Connect(a)) + rest;
    assert s[2..] == EncodeAddress(a) + rest;
    AddressRoundTrip(a, rest);
  }

  lemma ShortRoundTrip(c: Command, rest: Bytes)
    requires !c.Connect? && !c.Packet?
    ensures Decode(Encode(c) + rest) == Ok(c, rest)
  {
    var s := Encode(c) + rest;
    EncodedLength(c);
    assert s[SerializedLen(c)..] == rest;
    match c
    case Authenticate(d) => assert s[2..34] == d;
    case Dissociate(id) => assert s[2..6] == PutU32(id); U32Inverse(id, PutU32(id));
    case _ =>
  }

  /** Decoding inverts encoding in front of any further bytes exactly for the representable commands. */
  lemma RoundTripIff(c: Command, rest: Bytes)
    ensures Decode(Encode(c) + rest) == Ok(c, rest) <==> Representable(c)
  {
    if Representable(c) {
      match c
      case Connect(a) => ConnectRoundTrip(a, rest);
      case Packet(id, len, a) => PacketRoundTrip(id, len, a, rest);
      case _ => ShortRoundTrip(c, rest);
    } else if Decode(Encode(c) + rest) == Ok(c, rest) {
      DecodedIsRepresentable(Encode(c) + rest);
    }
  }

  // ---------------------------------------------------------------- canonical form

  /** How it fails: the length byte of a 256-byte name is zero, and the name is read as what follows. */
  lemma LongDomainIsMisread(name: Utf8, port: U16)
    requires |name| == 256
    ensures Decode(Encode(Connect(DomainAddress(name, port)))) ==
              Ok(Connect(DomainAddress([], GetU16(name[..2]))), name[2..] + PutU16(port))
  {
    var s := Encode(Connect(DomainAddress(name, port)));
    var body := s[2..];
    assert s == [VERSION, TYPE_CONNECT, ADDR_DOMAIN, 0] + name + PutU16(port);
    assert body == [ADDR_DOMAIN, 0] + (name + PutU16(port));
    assert body[2..2] == [] && body[2..4] == name[..2] && body[4..] == name[2..] + PutU16(port);
  }

  lemma DecodedIsRepresentable(s: Bytes)
    ensures Decode(s).Ok? ==> Representable(Decode(s).value)
  {
  }

  /** Cutting at increasing offsets loses nothing. */
  lemma Pieces(s: Bytes, i: nat, j: nat, k: nat)
    requires i <= j <= k <= |s|
    ensures s == s[..i] + s[i..j] + s[j..k] + s[k..]
  {
  }

  lemma DomainCanonical(s: Bytes)
    requires DecodeAddress(s).Ok? && s[0] == ADDR_DOMAIN
    ensures s == EncodeAddress(DecodeAddress(s).value) + DecodeAddress(s).rest
  {
    var n: int := s[1];
    U16Inverse(0, s[n + 2..n + 4]);
    Pieces(s, 2, n + 2, n + 4);
    assert s[..2] == [ADDR_DOMAIN, n];
  }

  lemma V4Canonical(s: Bytes)
    requires DecodeAddress(s).Ok? && s[0] == ADDR_IPV4
    ensures s == EncodeAddress(DecodeAddress(s).value) + DecodeAddress(s).rest
  {
    U16Inverse(0, s[5..7]);
    Pieces(s, 1, 5, 7);
    assert s[..1] == [ADDR_IPV4];
  }

  lemma V6Canonical(s: Bytes)
    requires DecodeAddress(s).Ok? && s[0] == ADDR_IPV6
    ensures s == EncodeAddress(DecodeAddress(s).value) + DecodeAddress(s).rest
  {
    PutGetU16s(s[1..17]);
    U16Inverse(0, s[17..19]);
    Pieces(s, 1, 17, 19);
    assert s[..1] == [ADDR_IPV6];
  }

  lemma AddressCanonical(s: Bytes)
    requires DecodeAddress(s).Ok?
    ensures s == EncodeAddress(DecodeAddress(s).value) + DecodeAddress(s).rest
  {
    if s[0] == ADDR_DOMAIN {
      DomainCanonical(s);
    } else if s[0] == ADDR_IPV4 {
      V4Canonical(s);
    } else {
      V6Canonical(s);
    }
  }

  lemma PacketCanonical(s: Bytes)
    requires Decode(s).Ok? && Decode(s).value.Packet?
    ensures s == Encode(Decode(s).value) + Decode(s).rest
  {
    var c, rest := Decode(s).value, Decode(s).rest;
    AddressCanonical(s[8..]);
    U32Inverse(0, s[2..6]);
    U16Inverse(0, s[6..8]);
    var head := [VERSION, TYPE_PACKET] + (s[2..6] + s[6..8]);
    assert s == head + s[8..];
    assert head + (EncodeAddress(c.addr) + rest) == (head + EncodeAddress(c.addr)) + rest;
  }

  lemma ConnectCanonical(s: Bytes)
    requires Decode(s).Ok? && Decode(s).value.Connect?
    ensures s == Encode(Decode(s).value) + Decode(s).rest
  {
    var c, rest := Decode(s).value, Decode(s).rest;
    AddressCanonical(s[2..]);
    var head: Bytes := [VERSION, TYPE_CONNECT];
    assert s == head + s[2..];
    assert head + (EncodeAddress(c.addr) + rest) == (head + EncodeAddress(c.addr)) + rest;
  }

  /** Whatever decodes is its own canonical encoding, so the length function finds the unread part. */
  lemma Canonical(s: Bytes)
    requires Decode(s).Ok?
    ensures s == Encode(Decode(s).value) + Decode(s).rest
    ensures SerializedLen(Decode(s).value) == |s| - |Decode(s).rest|
    ensures s[SerializedLen(Decode(s).value)..] == Decode(s).rest
  {
    var c := Decode(s).value;
    match c {
      case Connect(_) => ConnectCanonical(s);
      case Packet(_, _, _) => PacketCanonical(s);
      case Dissociate(id) =>
        U32Inverse(0, s[2..6]);
        assert s == [s[0], s[1]] + s[2..6] + s[6..];
      case Authenticate(d) => assert s == [s[0], s[1]] + s[2..34] + s[34..];
      case Response(_) => assert s == [s[0], s[1], s[2]] + s[3..];
      case Heartbeat => assert s == [s[0], s[1]] + s[2..];
    }
    EncodedLength(c);
  }

  /** No decodable command is longer than max_serialized_len. */
  lemma DecodedLengthBound(s: Bytes)
    requires Decode(s).Ok?
    ensures |s| - |Decode(s).rest| <= MAX_SERIALIZED_LEN
  {
    Canonical(s);
    DecodedIsRepresentable(s);
  }

  /** The bound is attained, by a Packet whose domain has 255 bytes. */
  lemma LengthBoundAttained()
    ensures exists c: Command :: Representable(c) && |Encode(c)| == MAX_SERIALIZED_LEN
  {
    var name: Bytes := seq(255, _ => 0x61);
    AsciiIsValidUtf8(name, 0);
    var c := Packet(0, 0, DomainAddress(name, 0));
    EncodedLength(c);
  }

  // ---------------------------------------------------------------- streaming

  lemma AddressPrefixStable(s: Bytes, more: Bytes)
    ensures match DecodeAddress(s)
            case Ok(a, rest) => DecodeAddress(s + more) == Ok(a, rest + more)
            case Err(e) => e == UnexpectedEof || DecodeAddress(s + more) == Err(e)
  {
    var t := s + more;
    if |s| >= 2 && s[0] == ADDR_DOMAIN && |s| >= 4 + s[1] as int {
      var n: int := s[1];
      assert t[2..n + 2] == s[2..n + 2];
      assert t[n + 2..n + 4] == s[n + 2..n + 4];
      assert t[n + 4..] == s[n + 4..] + more;
    } else if |s| >= 7 && s[0] == ADDR_IPV4 {
      assert t[1..5] == s[1..5] && t[5..7] == s[5..7] && t[7..] == s[7..] + more;
    } else if |s| >= 19 && s[0] == ADDR_IPV6 {
      assert t[1..17] == s[1..17] && t[17..19] == s[17..19] && t[19..] == s[19..] + more;
    }
  }

  /** An answer other than end-of-input does not depend on bytes that have not arrived yet. */
  lemma PrefixStable(s: Bytes, more: Bytes)
    ensures match Decode(s)
            case Ok(c, rest) => Decode(s + more) == Ok(c, rest + more)
            case Err(e) => e == UnexpectedEof || Decode(s + more) == Err(e)
  {
    var t := s + more;
    if |s| >= 2 && s[0] == VERSION {
      if s[1] == TYPE_CONNECT {
        assert t[2..] == s[2..] + more;
        AddressPrefixStable(s[2..], more);
      } else if s[1] == TYPE_PACKET && |s| >= 8 {
        assert t[2..6] == s[2..6] && t[6..8] == s[6..8] && t[8..] == s[8..] + more;
        AddressPrefixStable(s[8..], more);
      } else if s[1] == TYPE_AUTHENTICATE && |s| >= 34 {
        assert t[2..34] == s[2..34] && t[34..] == s[34..] + more;
      } else if s[1] == TYPE_DISSOCIATE && |s| >= 6 {
        assert t[2..6] == s[2..6] && t[6..] == s[6..] + more;
      } else if s[1] == TYPE_RESPONSE && |s| >= 3 {
        assert t[3..] == s[3..] + more;
      } else if s[1] == TYPE_HEARTBEAT {
        assert t[2..] == s[2..] + more;
      }
    }
  }

  /** A cut-off command is an end of input and nothing else. */
  lemma ProperPrefixIsEof(c: Command, k: nat)
    requires ((c.Connect? || c.Packet?) ==> Encodable(c.addr)) && k < |Encode(c)|
    ensures Decode(Encode(c)[..k]) == Err(UnexpectedEof)
  {
    var s, more := Encode(c)[..k], Encode(c)[k..];
    assert s + more == Encode(c);
    assert Encode(c) + [] == Encode(c);
    match c {
      case Connect(a) => ConnectRoundTrip(a, []);
      case Packet(id, len, a) => PacketRoundTrip(id, len, a, []);
      case _ => ShortRoundTrip(c, []);
    }
    PrefixStable(s, more);
  }

  function EncodeAll(cs: seq<Command>): Bytes {
    if cs == [] then [] else Encode(cs[0]) + EncodeAll(cs[1..])
  }

  /** Reading commands off a stream until it is empty. */
  function DecodeAll(s: Bytes): Option<seq<Command>>
    decreases |s|
  {
    if s == [] then Some([])
    else
      match Decode(s)
      case Err(_) => None
      case Ok(c, rest) =>
        match DecodeAll(rest)
        case None => None
        case Some(cs) => Some([c] + cs)
  }

  /** A list of commands written to one stream is read back as the same list; nothing else is read as it. */
  lemma {:induction false} StreamRoundTrip(cs: seq<Command>)
    requires forall i | 0 <= i < |cs| :: Representable(cs[i])
    ensures DecodeAll(EncodeAll(cs)) == Some(cs)
  {
    if cs != [] {
      RoundTripIff(cs[0], EncodeAll(cs[1..]));
      StreamRoundTrip(cs[1..]);
      EncodedLength(cs[0]);
      assert cs == [cs[0]] + cs[1..];
    }
  }

  lemma {:induction false} StreamCanonical(s: Bytes)
    ensures DecodeAll(s).Some? ==> EncodeAll(DecodeAll(s).value) == s
    decreases |s|
  {
    if s != [] && Decode(s).Ok? {
      Canonical(s);
      StreamCanonical(Decode(s).rest);
      if DecodeAll(s).Some? {
        assert DecodeAll(s).value[1..] == DecodeAll(Decode(s).rest).value;
      }
    }
  }

  // ---------------------------------------------------------------- the code's own form

  /** The growing byte buffer that write_to_buf appends to. */
  class Buffer {
    var data: Bytes

    constructor ()
      ensures data == []
    {
      data := [];
    }

    method Put(b: Bytes)
      modifies this
      ensures data == old(data) + b
    {
      data := data + b;
    }

    method WriteSegments(xs: seq<U16>)
      modifies this
      ensures data == old(data) + PutU16s(xs)
    {
      var i := 0;
      while i < |xs|
        invariant 0 <= i <= |xs|
        invariant data == old(data) + PutU16s(xs[..i])
      {
        assert xs[..i + 1] == xs[..i] + [xs[i]];
        PutU16sAppend(xs[..i], xs[i]);
        Put(PutU16(xs[i]));
        i := i + 1;
      }
      assert xs[..i] == xs;
    }

    method WriteAddress(a: Address)
      modifies this
      ensures data == old(data) + EncodeAddress(a)
    {
      ghost var d := data;
      match a
      case DomainAddress(name, port) =>
        Put([ADDR_DOMAIN]);
        Put([|name| % 0x100]);
        assert data == d + [ADDR_DOMAIN, |name| % 0x100];
        Put(name);
        Put(PutU16(port));
        Associate(d, [ADDR_DOMAIN, |name| % 0x100], name, PutU16(port));
      case SocketAddress(V4(ip, port)) =>
        Put([ADDR_IPV4]);
        Put(ip);
        Put(PutU16(port));
        Associate(d, [ADDR_IPV4], ip, PutU16(port));
      case SocketAddress(V6(ip, port, _, _)) =>
        Put([ADDR_IPV6]);
        WriteSegments(ip);
        Put(PutU16(port));
        Associate(d, [ADDR_IPV6], PutU16s(ip), PutU16(port));
    }

    method WriteCommand(c: Command)
      modifies this
      ensures data == old(data) + Encode(c)
    {
      ghost var d := data;
      Put([VERSION]);
      match c {
        case Response(ok) =>
          Put([TYPE_RESPONSE]);
          Put([if ok then RESPONSE_SUCCEEDED else RESPONSE_FAILED]);
        case Authenticate(digest) =>
          Put([TYPE_AUTHENTICATE]);
          Put(digest);
          HeadJoins(d, TYPE_AUTHENTICATE, digest);
        case Connect(addr) =>
          Put([TYPE_CONNECT]);
          WriteAddress(addr);
          HeadJoins(d, TYPE_CONNECT, EncodeAddress(addr));
        case Packet(assoc, len, addr) =>
          Put([TYPE_PACKET]);
          WritePacketFields(assoc, len);
          HeadJoins(d, TYPE_PACKET, PutU32(assoc) + PutU16(len));
          WriteAddress(addr);
          Associate(d, [VERSION, TYPE_PACKET] + (PutU32(assoc) + PutU16(len)), EncodeAddress(addr), []);
        case Dissociate(assoc) =>
          Put([TYPE_DISSOCIATE]);
          Put(PutU32(assoc));
          HeadJoins(d, TYPE_DISSOCIATE, PutU32(assoc));
        case Heartbeat =>
          Put([TYPE_HEARTBEAT]);
      }
    }

    method WritePacketFields(assoc: U32, len: U16)
      modifies this
      ensures data == old(data) + (PutU32(assoc) + PutU16(len))
    {
      Put(PutU32(assoc));
      Put(PutU16(len));
    }
  }

  lemma HeadJoins(d: Bytes, kind: Byte, body: Bytes)
    ensures d + [VERSION] + [kind] + body == d + ([VERSION, kind] + body)
  {
  }

  lemma Associate(a: Bytes, b: Bytes, c: Bytes, d: Bytes)
    ensures a + b + c + d == a + (b + c + d)
    ensures a + b + c + d == a + (b + (c + d))
    ensures a + b + c == a + (b + c)
  {
  }

  datatype Result<+T> = Success(got: T) | Failure(why: IoError) {
    predicate IsFailure() { Failure? }
    function PropagateFailure<U>(): Result<U> requires Failure? { Failure(why) }
    function Extract(): T requires Success? { got }
  }

  /** What a failed read of an address leaves: nothing at an end of input, else all behind the field that was wrong. */
  function AfterAddressError(s: Bytes): Bytes
    requires DecodeAddress(s).Err?
  {
    match DecodeAddress(s).error
    case InvalidInput => s[1..]
    case InvalidData => s[4 + s[1] as int..]
    case _ => []
  }

  function AfterError(s: Bytes): Bytes
    requires Decode(s).Err?
  {
    match Decode(s).error
    case Unsupported => s[1..]
    case UnexpectedEof => []
    case _ =>
      if s[1] == TYPE_CONNECT then AfterAddressError(s[2..])
      else if s[1] == TYPE_PACKET then AfterAddressError(s[8..])
      else if s[1] == TYPE_RESPONSE then s[3..]
      else s[2..]
  }

  lemma AddressErrorIsFoundEarly(s: Bytes, k: nat)
    requires DecodeAddress(s).Err? && DecodeAddress(s).error != UnexpectedEof && k < |s| - |AfterAddressError(s)|
    ensures s[|s| - |AfterAddressError(s)|..] == AfterAddressError(s)
    ensures DecodeAddress(s[..|s| - |AfterAddressError(s)|]) == DecodeAddress(s)
    ensures DecodeAddress(s[..k]) == Err(UnexpectedEof)
  {
    if s[0] == ADDR_DOMAIN {
      var n := 4 + s[1] as int;
      assert s[..n][2..n - 2] == s[2..n - 2];
    }
  }

  /** A command of which the address is wrong, cut at k. */
  lemma CutBeforeAddress(s: Bytes, at: nat, k: nat)
    requires at in {2, 8} && at <= |s| && s[0] == VERSION && s[1] == if at == 2 then TYPE_CONNECT else TYPE_PACKET
    requires k <= |s|
    ensures k < at ==> Decode(s[..k]) == Err(UnexpectedEof)
    ensures k >= at && DecodeAddress(s[at..][..k - at]).Err? ==>
              Decode(s[..k]) == Err(DecodeAddress(s[at..][..k - at]).error)
  {
    if k >= at {
      assert s[..k][at..] == s[at..][..k - at];
    }
  }

  /**
   A failed read consumes no more than it must: the bytes it took fail in the same way, and with any
   fewer the input would only have ended too early.
   */
  lemma ErrorIsFoundEarly(s: Bytes, k: nat)
    requires Decode(s).Err? && Decode(s).error != UnexpectedEof && k < |s| - |AfterError(s)|
    ensures s[|s| - |AfterError(s)|..] == AfterError(s)
    ensures Decode(s[..|s| - |AfterError(s)|]) == Decode(s)
    ensures Decode(s[..k]) == Err(UnexpectedEof)
  {
    var n := |s| - |AfterError(s)|;
    if s[0] == VERSION && s[1] == TYPE_CONNECT {
      BadAddressIsFoundEarly(s, 2, n, k);
    } else if s[0] == VERSION && s[1] == TYPE_PACKET {
      BadAddressIsFoundEarly(s, 8, n, k);
    } else {
      assert n <= 3 && s[..n][0] == s[0] && (n > 1 ==> s[..n][1] == s[1]) && (n > 2 ==> s[..n][2] == s[2]);
    }
  }

  lemma BadAddressIsFoundEarly(s: Bytes, at: nat, n: nat, k: nat)
    requires at in {2, 8} && at <= |s| && s[0] == VERSION && s[1] == if at == 2 then TYPE_CONNECT else TYPE_PACKET
    requires DecodeAddress(s[at..]).Err? && DecodeAddress(s[at..]).error != UnexpectedEof
    requires n == |s| - |AfterAddressError(s[at..])| && k < n
    ensures s[n..] == AfterAddressError(s[at..])
    ensures Decode(s[..n]) == Err(DecodeAddress(s[at..]).error) && Decode(s[..k]) == Err(UnexpectedEof)
  {
    var a := s[at..];
    AddressErrorIsFoundEarly(a, if k >= at then k - at else 0);
    assert n - at == |a| - |AfterAddressError(a)| && s[n..] == a[n - at..];
    CutBeforeAddress(s, at, k);
    CutBeforeAddress(s, at, n);
  }

  /** The stream that read_from consumes; reading past its end takes what there is and fails. */
  class Reader {
    var unread: Bytes

    constructor (b: Bytes)
      ensures unread == b
    {
      unread := b;
    }

    method ReadExact(n: nat) returns (r: Result<Bytes>)
      modifies this
      ensures r.Success? <==> n <= |old(unread)|
      ensures r.Success? ==> r.got == old(unread)[..n] && unread == old(unread)[n..]
      ensures r.Failure? ==> r.why == UnexpectedEof && unread == []
    {
      if n <= |unread| {
        r := Success(unread[..n]);
        unread := unread[n..];
      } else {
        r := Failure(UnexpectedEof);
        unread := [];
      }
    }

    method ReadAddress() returns (r: Result<Address>)
      modifies this
      ensures match DecodeAddress(old(unread))
              case Ok(a, rest) => r == Success(a) && unread == rest
              case Err(e) => r == Failure(e) && unread == AfterAddressError(old(unread))
    {
      ghost var s := unread;
      var kind :- ReadExact(1);
      if kind[0] == ADDR_DOMAIN {
        var len :- ReadExact(1);
        assert unread == s[2..];
        r := ReadDomain(len[0], s);
      } else if kind[0] == ADDR_IPV4 {
        var buf :- ReadExact(6);
        assert buf[..4] == s[1..5] && buf[4..] == s[5..7] && unread == s[7..];
        r := Success(SocketAddress(V4(buf[..4], GetU16(buf[4..]))));
      } else if kind[0] == ADDR_IPV6 {
        var buf :- ReadExact(18);
        assert buf[..16] == s[1..17] && buf[16..] == s[17..19] && unread == s[19..];
        r := Success(SocketAddress(V6(GetU16s(buf[..16]), GetU16(buf[16..]), 0, 0)));
      } else {
        r := Failure(InvalidInput);
      }
    }

    method ReadDomain(n: Byte, ghost s: Bytes) returns (r: Result<Address>)
      requires |s| >= 2 && s[0] == ADDR_DOMAIN && s[1] == n && unread == s[2..]
      modifies this
      ensures match DecodeAddress(s)
              case Ok(a, rest) => r == Success(a) && unread == rest
              case Err(e) => r == Failure(e) && unread == AfterAddressError(s)
    {
      var buf :- ReadExact(2 + n as int);
      var name, port := buf[..n], GetU16(buf[n..]);
      assert name == s[2..2 + n as int] && buf[n..] == s[2 + n as int..4 + n as int];
      assert unread == s[4 + n as int..];
      if !ValidUtf8(name) {
        return Failure(InvalidData);
      }
      r := Success(DomainAddress(name, port));
    }

    method ReadCommand() returns (r: Result<Command>)
      modifies this
      ensures match Decode(old(unread))
              case Ok(c, rest) => r == Success(c) && unread == rest
              case Err(e) => r == Failure(e) && unread == AfterError(old(unread))
    {
      ghost var s := unread;
      var ver :- ReadExact(1);
      if ver[0] != VERSION {
        return Failure(Unsupported);
      }
      var cmd :- ReadExact(1);
      assert unread == s[2..];
      if cmd[0] == TYPE_RESPONSE {
        var resp :- ReadExact(1);
        assert resp[0] == s[2] && unread == s[3..];
        if resp[0] == RESPONSE_SUCCEEDED {
          r := Success(Response(true));
        } else if resp[0] == RESPONSE_FAILED {
          r := Success(Response(false));
        } else {
          r := Failure(InvalidInput);
        }
      } else if cmd[0] == TYPE_AUTHENTICATE {
        var digest :- ReadExact(32);
        assert digest == s[2..34] && unread == s[34..];
        r := Success(Authenticate(digest));
      } else if cmd[0] == TYPE_CONNECT {
        var addr :- ReadAddress();
        r := Success(Connect(addr));
      } else if cmd[0] == TYPE_PACKET {
        var buf :- ReadExact(6);
        assert buf == s[2..8] && unread == s[8..];
        assert buf[..4] == s[2..6] && buf[4..] == s[6..8];
        var addr :- ReadAddress();
        r := Success(Packet(GetU32(buf[..4]), GetU16(buf[4..]), addr));
      } else if cmd[0] == TYPE_DISSOCIATE {
        var id :- ReadExact(4);
        assert id == s[2..6] && unread == s[6..];
        r := Success(Dissociate(GetU32(id)));
      } else if cmd[0] == TYPE_HEARTBEAT {
        r := Success(Heartbeat);
      } else {
        r := Failure(InvalidInput);
      }
    }
  }
}
