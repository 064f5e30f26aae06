/** End-to-end claims about whole runs: what becomes of a packet, the relay mode, and when the client is rejected. */
module EndToEndRuns {
  import opened Wire
  import opened Codec
  import opened Relay
  import Server
  import opened System
  import opened ServerTrace
  import opened ServerConforming
  import opened ServerFate
  import ServerChains
  import opened ServerView
  import opened EndToEnd

  /** Server task t was started by the whole of message m, which carries packet n. */
  predicate WholePacket(s: State, t: nat, m: nat, n: nat) {
    && t < |s.via| && t < |s.server.origin| && t < |s.server.tasks| && s.via[t] == Some(m)
    && m < |s.client.sent| && s.client.sent[m] == PacketMessage(n) && Known(s.client, s.client.sent[m])
    && s.server.origin[t].FromPeer? && s.server.origin[t].bytes == BytesOf(s.client, s.client.sent[m])
  }

  /**
   When a packet of the client has arrived whole and its task has ended, it is in a session for its
   association's id, unchanged up to the length field and IPv6 flow information, if and only if the gate
   was not closed to it, no socket failed to bind for it and the session it was sent to had not ended.
   */
  lemma WholePacketEntersIff(run: seq<State>, t: nat, m: nat, n: nat) returns (p: seq<Server.State>)
    requires IsRun(run) && WholePacket(run[|run| - 1], t, m, n) && Server.Ended(run[|run| - 1].server.tasks[t])
    ensures p == ServerRun(run) && Server.IsRun(p)
    ensures var s := run[|run| - 1];
            && n < |s.client.outgoing| && s.client.outgoing[n].assoc < |s.client.ids|
            && var (id, pkt) := (s.client.ids[s.client.outgoing[n].assoc], s.client.outgoing[n].pkt);
            InSession(s.server, t, id, OnServer(s.client.mode, pkt)) <==> !LostInMode(p, |p| - 1, t)
  {
    var c := run[|run| - 1].client;
    WholeArrives(run, t, m, n);
    ServerRunIsRun(run);
    KeepsItsMode(run, |run| - 1);
    p := ServerRun(run);
    EntersIff(p, run[|run| - 1].server, t, c.ids[c.outgoing[n].assoc], OnServer(c.mode, c.outgoing[n].pkt),
      SourceOf(c.mode));
  }

  lemma EntersIff(p: seq<Server.State>, s: Server.State, t: nat, assoc: U32, pkt: UdpPacket,
                  source: Server.UdpPacketSource)
    requires Server.IsRun(p) && s == p[|p| - 1] && t < |s.tasks| && t < |s.origin| && AllInMode(source, s.origin)
    requires Arrived(s.origin[t]) == Delivered(assoc, pkt) && Server.Ended(s.tasks[t])
    ensures InSession(s, t, assoc, pkt) <==> !LostInMode(p, |p| - 1, t)
  {
    PacketInModeEntersIff(p, |p| - 1, t, assoc, pkt, source);
  }

  lemma WholeArrives(run: seq<State>, t: nat, m: nat, n: nat)
    requires IsRun(run) && WholePacket(run[|run| - 1], t, m, n)
    ensures var (c, o) := (run[|run| - 1].client, run[|run| - 1].server.origin[t]);
            && n < |c.outgoing| && c.outgoing[n].assoc < |c.ids|
            && Arrived(o) == Delivered(c.ids[c.outgoing[n].assoc], OnServer(c.mode, c.outgoing[n].pkt))
  {
    WholeIsCarried(run, t, m, n);
    CompletePacketArrives(run, |run| - 1, n);
  }

  lemma WholeIsCarried(run: seq<State>, t: nat, m: nat, n: nat)
    requires IsRun(run) && WholePacket(run[|run| - 1], t, m, n)
    ensures var s := run[|run| - 1];
            s.server.origin[t] ==
              Server.FromPeer(ChannelOf(s.client.mode, PacketMessage(n)), BytesOf(s.client, PacketMessage(n)))
  {
    SystemAlways(run, |run| - 1);
    LinkedChannel(run[|run| - 1], t);
  }

  lemma LinkedChannel(s: State, t: nat)
    requires Links(s.client, s.complete, s.via, s.server.origin) && t < |s.via| && t < |s.server.origin|
    requires s.server.origin[t].FromPeer?
    ensures s.via[t].Some? && s.via[t].value < |s.client.sent|
    ensures s.server.origin[t].chan == ChannelOf(s.client.mode, s.client.sent[s.via[t].value])
  {
    assert LinkOk(s.client, s.complete, s.via[t], s.server.origin[t]);
  }

  // ---------------------------------------------------------------- the client's relay mode

  /** The command of a message, without the payload of a packet. */
  function CommandOf(c: Client, m: Message): Command
    requires Known(c, m)
  {
    match m
    case AuthMessage => Authenticate(c.digest)
    case HeartbeatMessage => Heartbeat
    case PacketMessage(n) =>
      Packet(c.ids[c.outgoing[n].assoc], LenField(c.outgoing[n].pkt.payload), c.outgoing[n].pkt.addr)
    case DissociateMessage(id) => Dissociate(id)
    case ConnectMessage(addr) => Connect(addr)
  }

  /** What a receiver makes of the command. */
  function AsRead(cmd: Command): Command {
    match cmd
    case Packet(assoc, len, addr) => Packet(assoc, len, Carried(addr))
    case Connect(addr) => Connect(Carried(addr))
    case _ => cmd
  }

  lemma CommandFirst(c: Client, m: Message)
    requires MessageOk(c, m) && OutgoingOk(|c.ids|, c.outgoing)
    ensures Known(c, m) && Encode(CommandOf(c, m)) <= BytesOf(c, m)
    ensures var cmd := CommandOf(c, m); (cmd.Connect? || cmd.Packet?) ==> Encodable(cmd.addr)
  {
  }

  lemma CommandRoundTrip(cmd: Command, rest: Bytes)
    requires (cmd.Connect? || cmd.Packet?) ==> Encodable(cmd.addr)
    ensures Decode(Encode(cmd) + rest) == Ok(AsRead(cmd), rest)
  {
    match cmd
    case Packet(assoc, len, addr) => PacketRoundTrip(assoc, len, addr, rest);
    case Connect(addr) => ConnectRoundTrip(addr, rest);
    case _ => ShortRoundTrip(cmd, rest);
  }

  /** A prefix of a command and more is read as the command exactly if it holds the whole command. */
  lemma PrefixReads(cmd: Command, whole: Bytes, seen: Bytes)
    requires ((cmd.Connect? || cmd.Packet?) ==> Encodable(cmd.addr)) && Encode(cmd) <= whole && seen <= whole
    ensures Decode(seen).Ok? <==> |Encode(cmd)| <= |seen|
    ensures Decode(seen).Ok? ==> Decode(seen).value == AsRead(cmd)
  {
    var n := |Encode(cmd)|;
    if n <= |seen| {
      assert seen == Encode(cmd) + seen[n..];
      CommandRoundTrip(cmd, seen[n..]);
    } else {
      assert seen == Encode(cmd)[..|seen|];
      ProperPrefixIsEof(cmd, |seen|);
    }
  }

  /** The network cut message m inside its command. */
  predicate CutInside(c: Client, m: Message, o: Server.Origin)
    requires Known(c, m)
  {
    o.FromPeer? && |o.bytes| < |Encode(CommandOf(c, m))|
  }

  lemma LinkReads(c: Client, complete: bool, link: Option<nat>, o: Server.Origin)
    requires ClientInv(c) && LinkOk(c, complete, link, o) && o.FromPeer?
    ensures link.Some? && link.value < |c.sent| && Known(c, c.sent[link.value])
    ensures var m := c.sent[link.value];
            && (Garbled(o) <==> CutInside(c, m, o))
            && (Decode(o.bytes).Ok? ==> Decode(o.bytes).value == AsRead(CommandOf(c, m)))
            && o.chan == ChannelOf(c.mode, m)
  {
    var m := c.sent[link.value];
    assert MessageOk(c, m);
    CommandFirst(c, m);
    PrefixReads(CommandOf(c, m), BytesOf(c, m), o.bytes);
  }

  lemma LinkKeepsMode(c: Client, complete: bool, link: Option<nat>, o: Server.Origin)
    requires ClientInv(c) && LinkOk(c, complete, link, o)
    ensures InMode(SourceOf(c.mode), o)
    ensures forall tokens | c.digest in tokens :: Honest(tokens, SourceOf(c.mode), o)
  {
    if o.FromPeer? {
      LinkReads(c, complete, link, o);
    }
  }

  lemma KeepsItsMode(run: seq<State>, i: nat)
    requires IsRun(run) && i < |run|
    ensures AllInMode(SourceOf(run[i].client.mode), run[i].server.origin)
    ensures run[i].client.digest in run[i].server.gate.tokens ==>
              AllHonest(run[i].server.gate.tokens, SourceOf(run[i].client.mode), run[i].server.origin)
  {
    SystemAlways(run, i);
    var s := run[i];
    forall t | 0 <= t < |s.server.origin|
      ensures InMode(SourceOf(s.client.mode), s.server.origin[t])
      ensures s.client.digest in s.server.gate.tokens ==>
                Honest(s.server.gate.tokens, SourceOf(s.client.mode), s.server.origin[t])
    {
      assert LinkOk(s.client, s.complete, s.via[t], s.server.origin[t]);
      LinkKeepsMode(s.client, s.complete, s.via[t], s.server.origin[t]);
    }
  }

  /**
   In every run the server's latch is unset or holds the relay mode of the client, whatever its token
   and the network.
   */
  lemma LatchIsTheClientsMode(run: seq<State>, i: nat)
    requires IsRun(run) && i < |run|
    ensures LatchIn(run[i].server.udp.latch, SourceOf(run[i].client.mode))
  {
    KeepsItsMode(run, i);
    var p := ServerRunTo(run, i);
    LatchKeepsMode(p, |p| - 1, SourceOf(run[i].client.mode));
  }

  /** Every reply travels on the one channel that the client listens to. */
  lemma RepliesReachTheListener(run: seq<State>, i: nat, r: nat)
    requires IsRun(run) && i < |run| && r < |run[i].server.outbox|
    ensures run[i].server.outbox[r].source == SourceOf(run[i].client.mode)
  {
    KeepsItsMode(run, i);
    var p := ServerRunTo(run, i);
    PeerIsAnsweredInKind(p, |p| - 1, SourceOf(run[i].client.mode), r);
  }

  // ---------------------------------------------------------------- when the client is rejected

  /** Server task t has read its message, which was cut inside its command. */
  predicate CutReadBy(s: State, t: nat) {
    && t < |s.via| && t < |s.server.tasks| && t < |s.server.origin| && !s.server.tasks[t].Fresh?
    && s.via[t].Some? && s.via[t].value < |s.client.sent| && Known(s.client, s.client.sent[s.via[t].value])
    && CutInside(s.client, s.client.sent[s.via[t].value], s.server.origin[t])
  }

  ghost predicate CutRead(s: State) {
    exists t: nat :: CutReadBy(s, t)
  }

  lemma CutMeansGarbled(s: State, t: nat)
    requires ClientInv(s.client) && Links(s.client, s.complete, s.via, s.server.origin)
    ensures CutReadBy(s, t) <==> GarbledReadBy(s.server.tasks, s.server.origin, t)
  {
    if t < |s.server.origin| && s.server.origin[t].FromPeer? {
      assert LinkOk(s.client, s.complete, s.via[t], s.server.origin[t]);
      LinkReads(s.client, s.complete, s.via[t], s.server.origin[t]);
    }
  }

  /**
   In every run of a client with a valid token, the server has closed the connection for something other
   than an authentication timeout if and only if it has read a stream that was cut inside its command.
   */
  lemma ClientIsRejectedIff(run: seq<State>, i: nat)
    requires IsRun(run) && i < |run| && run[i].client.digest in run[i].server.gate.tokens
    ensures !OnlyTimeouts(run[i].server.errors) <==> CutRead(run[i])
  {
    KeepsItsMode(run, i);
    var p := ServerRunTo(run, i);
    PeerIsRejectedIff(p, |p| - 1, SourceOf(run[i].client.mode));
    SystemAlways(run, i);
    var s := run[i];
    forall t: nat
      ensures CutReadBy(s, t) <==> GarbledReadBy(s.server.tasks, s.server.origin, t)
    {
      CutMeansGarbled(s, t);
    }
  }

  /** So with a valid token and streams that arrive complete it is never rejected. */
  lemma ConformingClientIsNeverRejected(run: seq<State>, i: nat)
    requires IsRun(run) && i < |run| && run[i].client.digest in run[i].server.gate.tokens && run[i].complete
    ensures OnlyTimeouts(run[i].server.errors)
  {
    ClientIsRejectedIff(run, i);
    SystemAlways(run, i);
    forall t: nat
      ensures !CutReadBy(run[i], t)
    {
      CompleteIsNotCut(run[i], t);
    }
  }

  lemma CompleteIsNotCut(s: State, t: nat)
    requires ClientInv(s.client) && Links(s.client, s.complete, s.via, s.server.origin) && s.complete
    ensures !CutReadBy(s, t)
  {
    if t < |s.server.origin| && s.server.origin[t].FromPeer? {
      assert LinkOk(s.client, s.complete, s.via[t], s.server.origin[t]);
      var m := s.client.sent[s.via[t].value];
      assert MessageOk(s.client, m);
      CommandFirst(s.client, m);
    }
  }

  lemma SystemTurn(run: seq<State>, step: Step) returns (run': seq<State>)
    requires IsRun(run) && Enabled(run[|run| - 1], step)
    ensures IsRun(run') && |run'| == |run| + 1 && run'[|run|] == Apply(run[|run| - 1], step)
  {
    assert Next(run[|run| - 1], Apply(run[|run| - 1], step));
    run' := run + [Apply(run[|run| - 1], step)];
    forall i: nat | i + 1 < |run'|
      ensures NextAt(run', i)
    {
      if i + 1 < |run| {
        assert NextAt(run, i);
      }
    }
  }

  /** It can be rejected: its Authenticate, with a valid token, is cut off and read. */
  lemma CutStreamIsRejected(mode: UdpRelayMode, digest: Digest, maxPkt: nat) returns (run: seq<State>)
    ensures IsRun(run)
    ensures var s := run[|run| - 1]; s.client.digest in s.server.gate.tokens && s.server.errors == [Server.Io]
  {
    var c := Client(mode, digest, [], [], map[], [], [], {}, [], {}, false);
    run := [State(c, ServerChains.Start({digest}, maxPkt), [], false)];
    run := SystemTurn(run, Say(AuthMessage));
    run := SystemTurn(run, Carry(0, 0));
    run := SystemTurn(run, OfServer(Server.OfTask(0, Server.ReadHeader)));
  }
}
