/** End-to-end claims about a connection: what reaches the other side, and what that means there. */
module EndToEnd {
  import opened Wire
  import opened Codec
  import opened Relay
  import Server
  import opened ServerFrame
  import opened ServerSessions
  import opened ServerTrace
  import opened ServerConnect
  import opened ServerOnce
  import opened ServerReplies
  import opened System
  import opened ServerView

  // ---------------------------------------------------------------- the server inside the system

  ghost predicate ServerInv(s: Server.State) {
    && TraceInv(s) && SessionInv(s) && OnceInv(s)
    && OutsFrom(s.tasks, s.biOut) && ReceivedFit(s.udp.sessions, s.maxPkt)
  }

  /** All that every run of a server keeps holds of the server in the system. */
  lemma ServerKeeps(run: seq<State>, i: nat)
    requires IsRun(run) && i < |run|
    ensures ServerInv(run[i].server)
  {
    var p := ServerRunTo(run, i);
    TraceAlways(p, |p| - 1);
    SessionInvAlways(p, |p| - 1);
    OnceAlways(p, |p| - 1);
    OutAlways(p, |p| - 1);
    ReceivedFitAlways(p, |p| - 1);
  }

  // ---------------------------------------------------------------- what the client has sent

  predicate MessageOk(c: Client, m: Message) {
    && Known(c, m)
    && (m.PacketMessage? ==> c.outgoing[m.n].emitted)
    && (m.ConnectMessage? ==> Encodable(m.addr))
  }

  predicate LiveOk(ids: seq<U32>, live: map<U32, nat>) {
    forall id | id in live :: live[id] < |ids| && ids[live[id]] == id
  }

  predicate OutgoingOk(n: nat, outgoing: seq<Outgoing>) {
    forall i | 0 <= i < |outgoing| :: outgoing[i].assoc < n && Encodable(outgoing[i].pkt.addr)
  }

  predicate MessagesOk(c: Client) {
    forall m | 0 <= m < |c.sent| :: MessageOk(c, c.sent[m])
  }

  /** No packet is put on the connection twice. */
  predicate PacketsOnce(sent: seq<Message>) {
    forall m, m' | 0 <= m < |sent| && 0 <= m' < |sent| :: sent[m].PacketMessage? && sent[m] == sent[m'] ==> m == m'
  }

  predicate ClientInv(c: Client) {
    && |c.open| == |c.ids| && LiveOk(c.ids, c.live) && OutgoingOk(|c.ids|, c.outgoing)
    && MessagesOk(c) && PacketsOnce(c.sent)
  }

  /** Records are only added to. */
  predicate Later(c: Client, c': Client) {
    && c'.mode == c.mode && c'.digest == c.digest
    && c.ids <= c'.ids && c.sent <= c'.sent && |c.outgoing| <= |c'.outgoing|
    && (forall n | 0 <= n < |c.outgoing| ::
          c'.outgoing[n].assoc == c.outgoing[n].assoc && c'.outgoing[n].pkt == c.outgoing[n].pkt)
  }

  lemma MessagesLater(c: Client, c': Client)
    requires MessagesOk(c) && Later(c, c') && c'.sent == c.sent
    requires forall n | 0 <= n < |c.outgoing| :: c.outgoing[n].emitted ==> c'.outgoing[n].emitted
    ensures MessagesOk(c')
  {
    forall m | 0 <= m < |c'.sent|
      ensures MessageOk(c', c'.sent[m])
    {
      assert MessageOk(c, c.sent[m]);
    }
  }

  lemma EmitStep(c: Client, n: nat)
    requires ClientInv(c) && n < |c.outgoing| && !c.outgoing[n].emitted
    ensures var c' := c.(outgoing := c.outgoing[n := c.outgoing[n].(emitted := true)],
              sent := c.sent + [PacketMessage(n)]);
            ClientInv(c') && Later(c, c')
  {
    var mid := c.(outgoing := c.outgoing[n := c.outgoing[n].(emitted := true)]);
    MessagesLater(c, mid);
    forall m | 0 <= m < |c.sent|
      ensures c.sent[m] != PacketMessage(n)
    {
      assert MessageOk(c, c.sent[m]);
    }
    var c' := mid.(sent := c.sent + [PacketMessage(n)]);
    forall m | 0 <= m < |c'.sent|
      ensures MessageOk(c', c'.sent[m])
    {
      assert m < |c.sent| ==> MessageOk(mid, mid.sent[m]);
    }
  }

  lemma SayStep(c: Client, msg: Message)
    requires ClientInv(c) && !msg.PacketMessage? && (msg.ConnectMessage? ==> Encodable(msg.addr))
    ensures ClientInv(c.(sent := c.sent + [msg]))
  {
    var c' := c.(sent := c.sent + [msg]);
    forall m | 0 <= m < |c'.sent|
      ensures MessageOk(c', c'.sent[m])
    {
      assert m < |c.sent| ==> MessageOk(c, c.sent[m]);
    }
  }

  lemma AssociateStep(c: Client, id: U32)
    requires ClientInv(c)
    ensures ClientInv(c.(ids := c.ids + [id], open := c.open + [true], live := c.live[id := |c.ids|]))
  {
    MessagesLater(c, c.(ids := c.ids + [id], open := c.open + [true], live := c.live[id := |c.ids|]));
  }

  lemma TakeStep(c: Client, a: nat, pkt: UdpPacket)
    requires ClientInv(c) && a < |c.ids| && Encodable(pkt.addr)
    ensures ClientInv(c.(outgoing := c.outgoing + [Outgoing(a, pkt, false)]))
  {
    MessagesLater(c, c.(outgoing := c.outgoing + [Outgoing(a, pkt, false)]));
  }

  /** Steps that leave the records of what was sent alone. */
  lemma QuietStep(c: Client, c': Client)
    requires ClientInv(c) && c'.ids == c.ids && c'.outgoing == c.outgoing && c'.sent == c.sent
    requires c'.mode == c.mode && c'.digest == c.digest && |c'.open| == |c.open| && LiveOk(c'.ids, c'.live)
    ensures ClientInv(c') && Later(c, c')
  {
    MessagesLater(c, c');
  }

  lemma ClientStep(s: State, step: Step)
    requires ClientInv(s.client) && Enabled(s, step)
    ensures ClientInv(Apply(s, step).client) && Later(s.client, Apply(s, step).client)
  {
    match step
    case Associate(id) => AssociateStep(s.client, id);
    case TakePacket(a, pkt) => TakeStep(s.client, a, pkt);
    case EmitPacket(n) => EmitStep(s.client, n);
    case Say(msg) => SayStep(s.client, msg);
    case _ => OtherClientStep(s, step);
  }

  lemma OtherClientStep(s: State, step: Step)
    requires ClientInv(s.client) && Enabled(s, step)
    requires !step.Associate? && !step.TakePacket? && !step.EmitPacket? && !step.Say?
    ensures ClientInv(Apply(s, step).client) && Later(s.client, Apply(s, step).client)
  {
    QuietStep(s.client, Apply(s, step).client);
  }

  // ---------------------------------------------------------------- the network

  /** The bytes of a server task are those of message m, cut short at most on a stream. */
  predicate CarriedBy(c: Client, m: nat, o: Server.Origin) {
    && m < |c.sent| && Known(c, c.sent[m]) && o.FromPeer?
    && o.chan == ChannelOf(c.mode, c.sent[m])
    && o.bytes <= BytesOf(c, c.sent[m])
    && (o.chan == Server.Dgram ==> o.bytes == BytesOf(c, c.sent[m]))
  }

  predicate LinkOk(c: Client, complete: bool, link: Option<nat>, o: Server.Origin) {
    && (o.FromPeer? ==> link.Some? && CarriedBy(c, link.value, o))
    && (o.FromPeer? && complete ==> o.bytes == BytesOf(c, c.sent[link.value]))
    && (!o.FromPeer? ==> link == None)
  }

  predicate Links(c: Client, complete: bool, via: seq<Option<nat>>, origin: seq<Server.Origin>) {
    && |via| == |origin|
    && (forall t | 0 <= t < |via| :: LinkOk(c, complete, via[t], origin[t]))
  }

  predicate LinksUnique(via: seq<Option<nat>>) {
    forall t, t' | 0 <= t < |via| && 0 <= t' < |via| :: via[t].Some? && via[t] == via[t'] ==> t == t'
  }

  lemma LinksLater(c: Client, c': Client, complete: bool, via: seq<Option<nat>>, origin: seq<Server.Origin>)
    requires Links(c, complete, via, origin) && Later(c, c')
    ensures Links(c', complete, via, origin)
  {
    forall t | 0 <= t < |via|
      ensures LinkOk(c', complete, via[t], origin[t])
    {
      assert LinkOk(c, complete, via[t], origin[t]);
      if origin[t].FromPeer? {
        assert c'.sent[via[t].value] == c.sent[via[t].value];
      }
    }
  }

  lemma LinksStep(s: State, step: Step)
    requires Links(s.client, s.complete, s.via, s.server.origin) && LinksUnique(s.via)
    requires ClientInv(s.client) && Enabled(s, step)
    ensures var s' := Apply(s, step); Links(s'.client, s'.complete, s'.via, s'.server.origin) && LinksUnique(s'.via)
  {
    match step
    case OfServer(st) => ServerLinks(s, st);
    case Carry(m, n) => CarryLinks(s, m, n);
    case _ => ClientLinks(s, step);
  }

  lemma ServerLinks(s: State, st: Server.Step)
    requires Links(s.client, s.complete, s.via, s.server.origin) && LinksUnique(s.via) && Enabled(s, OfServer(st))
    ensures var s' := Apply(s, OfServer(st));
            Links(s'.client, s'.complete, s'.via, s'.server.origin) && LinksUnique(s'.via)
  {
    OriginsUnlessSpawned(s.server, st);
  }

  lemma ClientLinks(s: State, step: Step)
    requires Links(s.client, s.complete, s.via, s.server.origin) && LinksUnique(s.via)
    requires ClientInv(s.client) && Enabled(s, step) && !step.OfServer? && !step.Carry?
    ensures var s' := Apply(s, step); Links(s'.client, s'.complete, s'.via, s'.server.origin) && LinksUnique(s'.via)
  {
    ClientStep(s, step);
    LinksLater(s.client, Apply(s, step).client, s.complete, s.via, s.server.origin);
  }

  lemma OriginsUnlessSpawned(s: Server.State, step: Server.Step)
    requires Server.Enabled(s, step) && !step.Arrive?
    ensures step.ListenReceived? ==>
              Server.Apply(s, step).origin == s.origin + [Server.FromSession(s.udp.inbox[0].0, s.udp.inbox[0].1)]
    ensures !step.ListenReceived? ==> Server.Apply(s, step).origin == s.origin
  {
    if step.OfTask? {
      MovedFrame(s, step.t, Server.MoveOf(s, step.t, step.act));
    }
  }

  lemma CarryLinks(s: State, m: nat, n: nat)
    requires Links(s.client, s.complete, s.via, s.server.origin) && LinksUnique(s.via) && Enabled(s, Carry(m, n))
    ensures var s' := Apply(s, Carry(m, n));
            Links(s'.client, s'.complete, s'.via, s'.server.origin) && LinksUnique(s'.via)
  {
    var c := s.client;
    var o := Server.FromPeer(ChannelOf(c.mode, c.sent[m]), BytesOf(c, c.sent[m])[..n]);
    assert LinkOk(c, s.complete, Some(m), o);
  }

  // ---------------------------------------------------------------- deliveries to the client

  /** The delivery is the n-th reply's packet, which a session for the association's id received. */
  predicate DeliveryFrom(server: Server.State, ids: seq<U32>, d: Delivery) {
    && d.assoc < |ids| && d.reply < |server.outbox|
    && var r := server.outbox[d.reply];
    && r.task < |server.origin| && server.origin[r.task].FromSession?
    && var (sid, k) := (server.origin[r.task].sid, server.origin[r.task].k);
    && sid < |server.udp.sessions| && k < |server.udp.sessions[sid].received|
    && server.udp.sessions[sid].assoc == ids[d.assoc]
    && d.pkt == Trimmed(server.udp.sessions[sid].received[k])
  }

  predicate DeliveriesFrom(server: Server.State, c: Client) {
    && !c.panicked
    && (forall i | 0 <= i < |c.delivered| ::
          DeliveryFrom(server, c.ids, c.delivered[i]) && c.delivered[i].reply in c.taken)
    && (forall i, j | 0 <= i < j < |c.delivered| :: c.delivered[i].reply != c.delivered[j].reply)
  }

  /** What the client reads from a reply, or from as much of it as arrived. */
  lemma ReplyReads(mode: UdpRelayMode, assoc: U32, pkt: UdpPacket, n: nat)
    requires Encodable(pkt.addr) && n <= |Frame(assoc, pkt)| && (mode.Native? ==> n == |Frame(assoc, pkt)|)
    ensures Incoming(mode, Frame(assoc, pkt)[..n]) in {Dropped, Delivered(assoc, Trimmed(pkt))}
  {
    var f := Frame(assoc, pkt);
    if mode.Native? {
      assert f[..n] == f;
      FrameAsDatagramToClient(assoc, pkt);
    } else {
      assert f[..n] + f[n..] == f;
      CutStream(f[..n], f[n..]);
      FrameOnStream(assoc, pkt);
    }
  }

  lemma AcceptedDelivers(server: Server.State, c: Client, r: nat, sid: nat, k: nat, got: Received)
    requires DeliveriesFrom(server, c) && LiveOk(c.ids, c.live) && r !in c.taken && r < |server.outbox|
    requires server.outbox[r].task < |server.origin|
    requires server.origin[server.outbox[r].task] == Server.FromSession(sid, k)
    requires sid < |server.udp.sessions| && k < |server.udp.sessions[sid].received|
    requires got in {Dropped, Delivered(server.udp.sessions[sid].assoc, Trimmed(server.udp.sessions[sid].received[k]))}
    ensures DeliveriesFrom(server, Accepted(c.(taken := c.taken + {r}), r, got))
  {
  }

  lemma ReceiveReads(s: State, r: nat, n: nat) returns (sid: nat, k: nat)
    requires RepliesFrom(s.server.udp, s.server.origin, s.server.outbox)
    requires ReceivedFit(s.server.udp.sessions, s.server.maxPkt) && Enabled(s, Receive(r, n))
    ensures s.server.outbox[r].task < |s.server.origin|
    ensures s.server.origin[s.server.outbox[r].task] == Server.FromSession(sid, k)
    ensures sid < |s.server.udp.sessions| && k < |s.server.udp.sessions[sid].received|
    ensures var x := s.server.udp.sessions[sid];
            Incoming(s.client.mode, s.server.outbox[r].bytes[..n]) in
              {Dropped, Delivered(x.assoc, Trimmed(x.received[k]))}
  {
    var reply := s.server.outbox[r];
    assert ReplyFrom(s.server.udp, s.server.origin, reply);
    sid, k := s.server.origin[reply.task].sid, s.server.origin[reply.task].k;
    var x := s.server.udp.sessions[sid];
    assert x.received[k].addr.SocketAddress?;
    ReplyReads(s.client.mode, x.assoc, x.received[k], n);
  }

  lemma ReceiveDelivers(s: State, r: nat, n: nat)
    requires RepliesFrom(s.server.udp, s.server.origin, s.server.outbox)
    requires ReceivedFit(s.server.udp.sessions, s.server.maxPkt)
    requires LiveOk(s.client.ids, s.client.live) && DeliveriesFrom(s.server, s.client) && Enabled(s, Receive(r, n))
    ensures DeliveriesFrom(s.server, Apply(s, Receive(r, n)).client)
  {
    var sid, k := ReceiveReads(s, r, n);
    AcceptedDelivers(s.server, s.client, r, sid, k, Incoming(s.client.mode, s.server.outbox[r].bytes[..n]));
  }

  lemma DeliveriesLater(server: Server.State, step: Server.Step, c: Client)
    requires Server.Enabled(server, step) && DeliveriesFrom(server, c)
    ensures DeliveriesFrom(Server.Apply(server, step), c)
  {
    var server' := Server.Apply(server, step);
    TasksFrame(server, step);
    UdpStepFrame(server, step);
    OutboxGrows(server, step);
    forall i | 0 <= i < |c.delivered|
      ensures DeliveryFrom(server', c.ids, c.delivered[i])
    {
      assert DeliveryFrom(server, c.ids, c.delivered[i]);
    }
  }

  lemma OutboxGrows(s: Server.State, step: Server.Step)
    requires Server.Enabled(s, step)
    ensures s.outbox <= Server.Apply(s, step).outbox
  {
  }

  lemma DeliveriesStep(s: State, step: Step)
    requires RepliesFrom(s.server.udp, s.server.origin, s.server.outbox)
    requires ReceivedFit(s.server.udp.sessions, s.server.maxPkt)
    requires LiveOk(s.client.ids, s.client.live) && DeliveriesFrom(s.server, s.client) && Enabled(s, step)
    ensures DeliveriesFrom(Apply(s, step).server, Apply(s, step).client)
  {
    ServerFollows(s, step);
    if step.Receive? {
      ReceiveDelivers(s, step.r, step.n);
    } else if ServerStep(s, step).Some? {
      DeliveriesLater(s.server, ServerStep(s, step).value, s.client);
    }
  }

  // ---------------------------------------------------------------- streams handed to SOCKS5

  /** The stream belongs to a Connect of the client, and the server is connected for it. */
  ghost predicate HandedOk(s: State, t: nat) {
    && t < |s.via| && s.via[t].Some? && s.via[t].value < |s.client.sent|
    && s.client.sent[s.via[t].value].ConnectMessage?
    && ConnectedToFirst(s.server, t, Carried(s.client.sent[s.via[t].value].addr))
  }

  lemma ConnectCarried(c: Client, m: nat, o: Server.Origin, addr: Address)
    requires CarriedBy(c, m, o) && c.sent[m].ConnectMessage? && Encodable(c.sent[m].addr) && ConnectFrom(o, addr)
    ensures addr == Carried(c.sent[m].addr)
  {
    var f := BytesOf(c, c.sent[m]);
    ConnectRoundTrip(c.sent[m].addr, []);
    assert f + [] == f && o.bytes + f[|o.bytes|..] == f;
    PrefixStable(o.bytes, f[|o.bytes|..]);
  }

  lemma ReadHands(s: State, t: nat, seen: Bytes)
    requires TasksFrom(s.server.udp.sessions, s.server.origin, s.server.tasks)
    requires OutsFrom(s.server.tasks, s.server.biOut) && Enabled(s, ReadResponse(t, seen))
    requires t < |s.server.origin| && LinkOk(s.client, s.complete, s.via[t], s.server.origin[t])
    requires MessageOk(s.client, s.client.sent[s.via[t].value])
    requires Decode(seen).Ok? && Decode(seen).value == Response(true)
    ensures HandedOk(s, t)
  {
    AnswerInState(s.server, t, seen);
    var addr := s.server.tasks[t].addr;
    assert ConnectFrom(s.server.origin[t], addr);
    ConnectCarried(s.client, s.via[t].value, s.server.origin[t], addr);
  }

  lemma HandedStep(s: State, step: Step, t: nat)
    requires HandedOk(s, t) && Enabled(s, step) && ClientInv(s.client) && |s.server.origin| == |s.server.tasks|
    ensures HandedOk(Apply(s, step), t)
  {
    ServerFollows(s, step);
    ClientStep(s, step);
    if ServerStep(s, step).Some? {
      StaysConnected(s.server, ServerStep(s, step).value, t, Carried(s.client.sent[s.via[t].value].addr));
    }
  }

  // ---------------------------------------------------------------- all runs

  ghost predicate AllHanded(s: State) {
    forall t | t in s.client.handed :: HandedOk(s, t)
  }

  ghost predicate SystemInv(s: State) {
    && ServerInv(s.server) && ClientInv(s.client)
    && Links(s.client, s.complete, s.via, s.server.origin) && LinksUnique(s.via)
    && DeliveriesFrom(s.server, s.client)
    && AllHanded(s)
  }

  lemma NewlyHanded(s: State, step: Step, t: nat)
    requires Enabled(s, step) && t in Apply(s, step).client.handed && t !in s.client.handed
    ensures step.ReadResponse? && step.t == t && Decode(step.seen).Ok? && Decode(step.seen).value == Response(true)
    ensures HandedOk(s, t) ==> HandedOk(Apply(s, step), t)
  {
  }

  lemma AllHandedStep(s: State, step: Step)
    requires TasksFrom(s.server.udp.sessions, s.server.origin, s.server.tasks)
    requires OutsFrom(s.server.tasks, s.server.biOut)
    requires ClientInv(s.client) && Links(s.client, s.complete, s.via, s.server.origin)
    requires AllHanded(s) && Enabled(s, step)
    ensures AllHanded(Apply(s, step))
  {
    forall t | t in Apply(s, step).client.handed
      ensures HandedOk(Apply(s, step), t)
    {
      if t in s.client.handed {
        HandedStep(s, step, t);
      } else {
        NewlyHanded(s, step, t);
        assert LinkOk(s.client, s.complete, s.via[t], s.server.origin[t]);
        assert MessageOk(s.client, s.client.sent[s.via[t].value]);
        ReadHands(s, t, step.seen);
      }
    }
  }

  lemma {:induction false} ClientAlways(run: seq<State>, i: nat)
    requires IsRun(run) && i < |run|
    ensures ClientInv(run[i].client)
  {
    if i > 0 {
      ClientAlways(run, i - 1);
      ClientStep(run[i - 1], System.StepAt(run, i - 1));
    }
  }

  lemma {:induction false} LinksAlways(run: seq<State>, i: nat)
    requires IsRun(run) && i < |run|
    ensures Links(run[i].client, run[i].complete, run[i].via, run[i].server.origin) && LinksUnique(run[i].via)
  {
    if i > 0 {
      LinksAlways(run, i - 1);
      ClientAlways(run, i - 1);
      LinksStep(run[i - 1], System.StepAt(run, i - 1));
    }
  }

  lemma {:induction false} DeliveriesAlways(run: seq<State>, i: nat)
    requires IsRun(run) && i < |run|
    ensures DeliveriesFrom(run[i].server, run[i].client)
  {
    if i > 0 {
      DeliveriesAlways(run, i - 1);
      ServerKeeps(run, i - 1);
      ClientAlways(run, i - 1);
      DeliveriesStep(run[i - 1], System.StepAt(run, i - 1));
    }
  }

  lemma {:induction false} HandedAlways(run: seq<State>, i: nat)
    requires IsRun(run) && i < |run|
    ensures AllHanded(run[i])
  {
    if i > 0 {
      HandedAlways(run, i - 1);
      ServerKeeps(run, i - 1);
      ClientAlways(run, i - 1);
      LinksAlways(run, i - 1);
      AllHandedStep(run[i - 1], System.StepAt(run, i - 1));
    }
  }

  lemma SystemAlways(run: seq<State>, i: nat)
    requires IsRun(run) && i < |run|
    ensures SystemInv(run[i])
  {
    ServerKeeps(run, i);
    ClientAlways(run, i);
    LinksAlways(run, i);
    DeliveriesAlways(run, i);
    HandedAlways(run, i);
  }

  // ---------------------------------------------------------------- main results

  /** What a packet is on the server: whole from a datagram, trimmed to its length field from a stream. */
  function OnServer(mode: UdpRelayMode, pkt: UdpPacket): UdpPacket {
    if mode.Native? then Whole(pkt) else Trimmed(pkt)
  }

  /** The client packet behind a server task. */
  function PacketBehind(s: State, t: nat): Option<nat> {
    if t < |s.via| && s.via[t].Some? && s.via[t].value < |s.client.sent| && s.client.sent[s.via[t].value].PacketMessage?
    then Some(s.client.sent[s.via[t].value].n) else None
  }

  /** What arrived from message m as a packet is that message's packet, for its association's id. */
  lemma PacketCarried(c: Client, m: nat, o: Server.Origin)
    requires OutgoingOk(|c.ids|, c.outgoing) && CarriedBy(c, m, o) && MessageOk(c, c.sent[m]) && Arrived(o).Delivered?
    ensures c.sent[m].PacketMessage?
    ensures var out := c.outgoing[c.sent[m].n]; Arrived(o) == Delivered(c.ids[out.assoc], OnServer(c.mode, out.pkt))
  {
    var f := BytesOf(c, c.sent[m]);
    assert o.bytes + f[|o.bytes|..] == f && f + [] == f;
    match c.sent[m]
    case PacketMessage(n) =>
      var id, pkt := c.ids[c.outgoing[n].assoc], c.outgoing[n].pkt;
      FrameAsDatagramToServer(id, pkt);
      FrameOnStream(id, pkt);
      CutStream(o.bytes, f[|o.bytes|..]);
    case AuthMessage => NotAPacket(Authenticate(c.digest), o.bytes, f[|o.bytes|..]);
    case HeartbeatMessage => NotAPacket(Heartbeat, o.bytes, f[|o.bytes|..]);
    case DissociateMessage(id) => NotAPacket(Dissociate(id), o.bytes, f[|o.bytes|..]);
    case ConnectMessage(_) =>
  }

  lemma NotAPacket(cmd: Command, seen: Bytes, more: Bytes)
    requires !cmd.Packet? && !cmd.Connect? && seen + more == Encode(cmd)
    ensures FromStream(seen) == Dropped
  {
    assert Encode(cmd) + [] == Encode(cmd);
    ShortRoundTrip(cmd, []);
    CutStream(seen, more);
  }

  /**
   Every packet that a server session sends was taken by the client from an association with that
   session's id, and is the packet that was taken; no packet of the client is sent twice.
   */
  lemma UdpIntegrityToServer(run: seq<State>, i: nat, sid: nat, k: nat)
    requires IsRun(run) && i < |run| && sid < |run[i].server.udp.sessions|
    requires k < |run[i].server.udp.sessions[sid].sent|
    ensures var (c, x) := (run[i].client, run[i].server.udp.sessions[sid]);
            var n := PacketBehind(run[i], x.sent[k].task);
            && n.Some? && n.value < |c.outgoing| && c.outgoing[n.value].assoc < |c.ids|
            && c.ids[c.outgoing[n.value].assoc] == x.assoc
            && x.sent[k].pkt == OnServer(c.mode, c.outgoing[n.value].pkt)
  {
    SentCameFromClient(run, i, sid, k);
  }

  lemma SentCameFromClient(run: seq<State>, i: nat, sid: nat, k: nat)
    requires IsRun(run) && i < |run| && sid < |run[i].server.udp.sessions|
    requires k < |run[i].server.udp.sessions[sid].sent|
    ensures var (c, x) := (run[i].client, run[i].server.udp.sessions[sid]);
            var n := PacketBehind(run[i], x.sent[k].task);
            && x.sent[k].task < |run[i].via|
            && n.Some? && n.value < |c.outgoing| && c.outgoing[n.value].assoc < |c.ids|
            && c.ids[c.outgoing[n.value].assoc] == x.assoc
            && x.sent[k].pkt == OnServer(c.mode, c.outgoing[n.value].pkt)
            && k < |x.enqueued| && x.sent[k] == x.enqueued[k]
  {
    SystemAlways(run, i);
    var s, x := run[i], run[i].server.udp.sessions[sid];
    assert Logged(x);
    assert x.sent <= x.enqueued;
    var item := x.enqueued[k];
    assert ItemFrom(s.server.origin, s.server.tasks, x.assoc, item);
    assert LinkOk(s.client, s.complete, s.via[item.task], s.server.origin[item.task]);
    assert MessageOk(s.client, s.client.sent[s.via[item.task].value]);
    PacketCarried(s.client, s.via[item.task].value, s.server.origin[item.task]);
  }

  lemma NoPacketSentTwice(run: seq<State>, i: nat, sid: nat, k: nat, sid': nat, k': nat)
    requires IsRun(run) && i < |run| && sid < |run[i].server.udp.sessions| && sid' < |run[i].server.udp.sessions|
    requires k < |run[i].server.udp.sessions[sid].sent| && k' < |run[i].server.udp.sessions[sid'].sent|
    requires var ss := run[i].server.udp.sessions;
             PacketBehind(run[i], ss[sid].sent[k].task) == PacketBehind(run[i], ss[sid'].sent[k'].task)
    ensures sid == sid' && k == k'
  {
    SystemAlways(run, i);
    SentCameFromClient(run, i, sid, k);
    SentCameFromClient(run, i, sid', k');
    var s, ss := run[i], run[i].server.udp.sessions;
    var t, t' := ss[sid].sent[k].task, ss[sid'].sent[k'].task;
    assert s.via[t] == s.via[t'] by {
      assert s.client.sent[s.via[t].value] == s.client.sent[s.via[t'].value];
    }
    assert ss[sid].enqueued[k].task == ss[sid'].enqueued[k'].task;
  }

  /** Delivery d was read from the reply for the k-th packet that session sid received. */
  predicate CameThrough(s: State, d: nat, sid: nat, k: nat) {
    && d < |s.client.delivered| && s.client.delivered[d].reply < |s.server.outbox|
    && var t := s.server.outbox[s.client.delivered[d].reply].task;
    && t < |s.server.origin| && s.server.origin[t] == Server.FromSession(sid, k)
    && sid < |s.server.udp.sessions| && k < |s.server.udp.sessions[sid].received|
  }

  /**
   Every packet handed to a client association was received by a server session for its id on this
   connection, and is that packet: whole exactly if its length fits the length field, which it does if
   the server's buffers are no larger than that.
   */
  lemma UdpIntegrityToClient(run: seq<State>, i: nat, d: nat)
    requires IsRun(run) && i < |run| && d < |run[i].client.delivered|
    ensures run[i].client.delivered[d].assoc < |run[i].client.ids|
    ensures exists sid: nat, k: nat ::
              && CameThrough(run[i], d, sid, k)
              && var x := run[i].server.udp.sessions[sid];
              && x.assoc == run[i].client.ids[run[i].client.delivered[d].assoc]
              && run[i].client.delivered[d].pkt == Trimmed(x.received[k])
              && (run[i].client.delivered[d].pkt == Whole(x.received[k]) <==> |x.received[k].payload| < 0x1_0000)
              && (run[i].server.maxPkt < 0x1_0000 ==> |x.received[k].payload| < 0x1_0000)
  {
    SystemAlways(run, i);
    var s := run[i];
    assert DeliveryFrom(s.server, s.client.ids, s.client.delivered[d]);
    var o := s.server.origin[s.server.outbox[s.client.delivered[d].reply].task];
    assert CameThrough(s, d, o.sid, o.k);
    TrimmedIsWholeIff(s.server.udp.sessions[o.sid].received[o.k]);
    assert |s.server.udp.sessions[o.sid].received[o.k].payload| <= s.server.maxPkt;
  }

  /** The client's slice of a datagram never goes out of bounds. */
  lemma ClientNeverPanics(run: seq<State>, i: nat)
    requires IsRun(run) && i < |run|
    ensures !run[i].client.panicked
  {
    SystemAlways(run, i);
  }

  /** No packet that a session received is delivered twice. */
  lemma NoPacketDeliveredTwice(run: seq<State>, i: nat, d: nat, e: nat, sid: nat, k: nat)
    requires IsRun(run) && i < |run| && CameThrough(run[i], d, sid, k) && CameThrough(run[i], e, sid, k)
    ensures d == e
  {
    SystemAlways(run, i);
    var ds, outbox := run[i].client.delivered, run[i].server.outbox;
    assert outbox[ds[d].reply].task == outbox[ds[e].reply].task;
    assert ds[d].reply == ds[e].reply;
  }

  /** No other association of the connection has the id of association a. */
  predicate Unrepeated(ids: seq<U32>, a: nat) {
    a < |ids| && forall b | 0 <= b < |ids| :: ids[b] == ids[a] ==> b == a
  }

  /**
   If its id is not repeated, a packet delivered to an association came through a session that sends
   only its packets.
   */
  lemma NoCrossDelivery(run: seq<State>, i: nat, d: nat, sid: nat, k: nat, j: nat)
    requires IsRun(run) && i < |run| && CameThrough(run[i], d, sid, k)
    requires Unrepeated(run[i].client.ids, run[i].client.delivered[d].assoc)
    requires j < |run[i].server.udp.sessions[sid].sent|
    ensures var n := PacketBehind(run[i], run[i].server.udp.sessions[sid].sent[j].task);
            && n.Some? && n.value < |run[i].client.outgoing|
            && run[i].client.outgoing[n.value].assoc == run[i].client.delivered[d].assoc
  {
    UdpIntegrityToServer(run, i, sid, j);
    SystemAlways(run, i);
    assert DeliveryFrom(run[i].server, run[i].client.ids, run[i].client.delivered[d]);
  }

  /** A packet whose message arrives complete reaches the session layer as what it was, under its association's id. */
  lemma CompletePacketArrives(run: seq<State>, i: nat, n: nat)
    requires IsRun(run) && i < |run| && n < |run[i].client.outgoing|
    ensures Known(run[i].client, PacketMessage(n))
    ensures var c := run[i].client;
            var o := Server.FromPeer(ChannelOf(c.mode, PacketMessage(n)), BytesOf(c, PacketMessage(n)));
            Arrived(o) == Delivered(c.ids[c.outgoing[n].assoc], OnServer(c.mode, c.outgoing[n].pkt))
  {
    SystemAlways(run, i);
    var c := run[i].client;
    FrameAsDatagramToServer(c.ids[c.outgoing[n].assoc], c.outgoing[n].pkt);
    FrameOnStream(c.ids[c.outgoing[n].assoc], c.outgoing[n].pkt);
  }

  /**
   A reply that is read to its end hands the session's packet to the association that is live under its
   id, if any.
   */
  lemma CompleteReplyIsDelivered(run: seq<State>, i: nat, r: nat)
    requires IsRun(run) && i < |run| && r < |run[i].server.outbox|
    requires Enabled(run[i], Receive(r, |run[i].server.outbox[r].bytes|))
    ensures run[i].server.outbox[r].task < |run[i].server.origin|
    ensures exists sid: nat, k: nat ::
              && sid < |run[i].server.udp.sessions| && k < |run[i].server.udp.sessions[sid].received|
              && run[i].server.origin[run[i].server.outbox[r].task] == Server.FromSession(sid, k)
              && var (c, x) := (run[i].client, run[i].server.udp.sessions[sid]);
              Apply(run[i], Receive(r, |run[i].server.outbox[r].bytes|)).client.delivered == c.delivered +
                if x.assoc in c.live then [Delivery(c.live[x.assoc], Trimmed(x.received[k]), r)] else []
  {
    SystemAlways(run, i);
    ReplyReadsWhole(run[i], r);
  }

  lemma ReplyReadsWhole(s: State, r: nat)
    requires RepliesFrom(s.server.udp, s.server.origin, s.server.outbox)
    requires ReceivedFit(s.server.udp.sessions, s.server.maxPkt)
    requires r < |s.server.outbox| && Enabled(s, Receive(r, |s.server.outbox[r].bytes|))
    ensures s.server.outbox[r].task < |s.server.origin|
    ensures exists sid: nat, k: nat ::
              && sid < |s.server.udp.sessions| && k < |s.server.udp.sessions[sid].received|
              && s.server.origin[s.server.outbox[r].task] == Server.FromSession(sid, k)
              && var (c, x) := (s.client, s.server.udp.sessions[sid]);
              Apply(s, Receive(r, |s.server.outbox[r].bytes|)).client.delivered == c.delivered +
                if x.assoc in c.live then [Delivery(c.live[x.assoc], Trimmed(x.received[k]), r)] else []
  {
    var reply := s.server.outbox[r];
    assert ReplyFrom(s.server.udp, s.server.origin, reply);
    var (sid, k) := (s.server.origin[reply.task].sid, s.server.origin[reply.task].k);
    var x := s.server.udp.sessions[sid];
    assert x.received[k].addr.SocketAddress?;
    assert reply.bytes[..|reply.bytes|] == Frame(x.assoc, x.received[k]);
    FrameAsDatagramToClient(x.assoc, x.received[k]);
    FrameOnStream(x.assoc, x.received[k]);
  }

  /**
   The client hands a stream to SOCKS5 only if the server is connected to the first reachable address of
   its Connect.
   */
  lemma ConnectSoundness(run: seq<State>, i: nat, t: nat)
    requires IsRun(run) && i < |run| && t in run[i].client.handed
    ensures HandedOk(run[i], t)
  {
    SystemAlways(run, i);
  }
}
