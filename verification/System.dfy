/**
 Client and server of one QUIC connection, joined by a network that may delay, reorder and lose
 messages, cut streams short, and delivers each message at most once. The client here is what a
 connection's tasks do with it: associations, packets, Connects, and the incoming side.
 */
module System {
  import opened Wire
  import opened Codec
  import opened Relay
  import opened Server

  datatype UdpRelayMode = Native | Quic

  function SourceOf(mode: UdpRelayMode): UdpPacketSource {
    if mode.Native? then Datagram else UniStream
  }

  /** A packet that an association took from its SOCKS5 client, in a task of its own from then on. */
  datatype Outgoing = Outgoing(assoc: nat, pkt: UdpPacket, emitted: bool)

  /** A message that the client has put on the connection. */
  datatype Message =
    | AuthMessage
    | HeartbeatMessage
    | PacketMessage(n: nat)
    | DissociateMessage(id: U32)
    | ConnectMessage(addr: Address)

  /** A packet handed to association assoc, and the reply it was read from. */
  datatype Delivery = Delivery(assoc: nat, pkt: UdpPacket, reply: nat)

  datatype Client = Client(
    mode: UdpRelayMode,
    digest: Digest,
    ids: seq<U32>,              // the id of every association ever made on this connection
    open: seq<bool>,            // its packet loop is still running
    live: map<U32, nat>,        // udp_sessions: id to association
    outgoing: seq<Outgoing>,
    sent: seq<Message>,
    taken: set<nat>,            // replies that have been read
    delivered: seq<Delivery>,
    handed: set<nat>,           // bidirectional streams handed to SOCKS5
    panicked: bool
  )

  datatype State = State(
    client: Client,
    server: Server.State,
    via: seq<Option<nat>>,      // the message that each server task came from
    complete: bool              // the network never cuts a stream short
  )

  // ---------------------------------------------------------------- what is on the wire

  predicate Known(c: Client, m: Message) {
    m.PacketMessage? ==> m.n < |c.outgoing| && c.outgoing[m.n].assoc < |c.ids|
  }

  function ChannelOf(mode: UdpRelayMode, m: Message): Channel {
    match m
    case PacketMessage(_) => if mode.Native? then Dgram else Uni
    case ConnectMessage(_) => Bi
    case _ => Uni
  }

  function BytesOf(c: Client, m: Message): Bytes
    requires Known(c, m)
  {
    match m
    case AuthMessage => Encode(Authenticate(c.digest))
    case HeartbeatMessage => Encode(Heartbeat)
    case PacketMessage(n) => Frame(c.ids[c.outgoing[n].assoc], c.outgoing[n].pkt)
    case DissociateMessage(id) => Encode(Dissociate(id))
    case ConnectMessage(addr) => Encode(Connect(addr))
  }

  /** What the client's incoming listener reads from a reply, on the one channel it listens to. */
  function Incoming(mode: UdpRelayMode, bytes: Bytes): Received {
    if mode.Native? then ClientFromDatagram(bytes) else FromStream(bytes)
  }

  // ---------------------------------------------------------------- steps

  datatype Step =
    | OfServer(step: Server.Step)
    | Carry(m: nat, n: nat)                    // n bytes of message m reach the server
    | Associate(id: U32)
    | TakePacket(a: nat, pkt: UdpPacket)
    | EmitPacket(n: nat)
    | CloseAssociation(a: nat)
    | Say(msg: Message)                        // any message other than a packet
    | Receive(r: nat, n: nat)                  // n bytes of reply r reach the client
    | ReadResponse(t: nat, seen: Bytes)        // on the bidirectional stream of server task t

  predicate Enabled(s: State, step: Step) {
    var c := s.client;
    match step
    case OfServer(st) => !st.Arrive? && Server.Enabled(s.server, st)
    case Carry(m, n) =>
      && m < |c.sent| && Known(c, c.sent[m]) && Some(m) !in s.via && s.server.gate.listening
      && n <= |BytesOf(c, c.sent[m])|
      && (s.complete || ChannelOf(c.mode, c.sent[m]) == Dgram ==> n == |BytesOf(c, c.sent[m])|)
    case Associate(_) => true
    case TakePacket(a, pkt) => a < |c.ids| && a < |c.open| && c.open[a] && Encodable(pkt.addr)
    case EmitPacket(n) => n < |c.outgoing| && !c.outgoing[n].emitted
    case CloseAssociation(a) => a < |c.ids| && a < |c.open| && c.open[a]
    case Say(m) => !m.PacketMessage? && (m.ConnectMessage? ==> Encodable(m.addr))
    case Receive(r, n) =>
      && r < |s.server.outbox| && r !in c.taken && s.server.outbox[r].source == SourceOf(c.mode)
      && n <= |s.server.outbox[r].bytes| && (c.mode.Native? ==> n == |s.server.outbox[r].bytes|)
    case ReadResponse(t, seen) =>
      && t < |s.via| && t < |s.server.biOut| && s.via[t].Some? && s.via[t].value < |c.sent|
      && c.sent[s.via[t].value].ConnectMessage? && seen <= s.server.biOut[t]
  }

  /** handle_packet_from: look the id up among the live associations. */
  function Accepted(c: Client, r: nat, got: Received): Client {
    match got
    case Delivered(id, pkt) =>
      if id in c.live then c.(delivered := c.delivered + [Delivery(c.live[id], pkt, r)]) else c
    case Dropped => c
    case Panicked => c.(panicked := true)
  }

  function Apply(s: State, step: Step): State
    requires Enabled(s, step)
  {
    var c := s.client;
    match step
    case OfServer(st) =>
      s.(server := Server.Apply(s.server, st), via := if st.ListenReceived? then s.via + [None] else s.via)
    case Carry(m, n) =>
      var arrive := Server.Arrive(ChannelOf(c.mode, c.sent[m]), BytesOf(c, c.sent[m])[..n]);
      s.(server := Server.Apply(s.server, arrive), via := s.via + [Some(m)])
    case Associate(id) =>
      s.(client := c.(ids := c.ids + [id], open := c.open + [true], live := c.live[id := |c.ids|]))
    case TakePacket(a, pkt) => s.(client := c.(outgoing := c.outgoing + [Outgoing(a, pkt, false)]))
    case EmitPacket(n) =>
      s.(client := c.(outgoing := c.outgoing[n := c.outgoing[n].(emitted := true)],
        sent := c.sent + [PacketMessage(n)]))
    case CloseAssociation(a) => s.(client := c.(open := c.open[a := false], live := c.live - {c.ids[a]}))
    case Say(m) => s.(client := c.(sent := c.sent + [m]))
    case Receive(r, n) =>
      s.(client := Accepted(c.(taken := c.taken + {r}), r, Incoming(c.mode, s.server.outbox[r].bytes[..n])))
    case ReadResponse(t, seen) =>
      if Decode(seen).Ok? && Decode(seen).value == Response(true) then s.(client := c.(handed := c.handed + {t})) else s
  }

  predicate Init(s: State) {
    && Server.Init(s.server) && s.via == []
    && s.client == Client(s.client.mode, s.client.digest, [], [], map[], [], [], {}, [], {}, false)
  }

  ghost predicate Next(s: State, s': State) {
    exists step: Step :: Enabled(s, step) && s' == Apply(s, step)
  }

  ghost predicate NextAt(run: seq<State>, i: nat)
    requires i + 1 < |run|
  {
    Next(run[i], run[i + 1])
  }

  /** A finite run of the connection from its start. */
  ghost predicate IsRun(run: seq<State>) {
    |run| > 0 && Init(run[0]) && forall i: nat | i + 1 < |run| :: NextAt(run, i)
  }

  /** The step taken at position i of a run. */
  ghost function StepAt(run: seq<State>, i: nat): (step: Step)
    requires IsRun(run) && i + 1 < |run|
    ensures Enabled(run[i], step) && run[i + 1] == Apply(run[i], step)
  {
    assert NextAt(run, i);
    var step :| Enabled(run[i], step) && run[i + 1] == Apply(run[i], step);
    step
  }
}
