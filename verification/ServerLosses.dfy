/** Runs in which a packet that reached the server enters no session, one for each reason there is. */
module ServerLosses {
  import opened Wire
  import opened Codec
  import opened Relay
  import opened Server
  import opened ServerTrace
  import opened ServerChains
  import opened ServerRaces
  import opened ServerFate

  /** Task t brought the packet to the server and is done, and the packet is in no session. */
  ghost predicate Vanished(s: State, t: nat, id: U32, pkt: UdpPacket) {
    && t < |s.tasks| && t < |s.origin| && s.tasks[t] == Done
    && Arrived(s.origin[t]) == Delivered(id, pkt) && !Entered(s.udp.sessions, t)
  }

  lemma FrameArrives(id: U32, pkt: UdpPacket)
    requires Encodable(pkt.addr)
    ensures Arrived(FromPeer(Dgram, Frame(id, pkt))) == Delivered(id, Whole(pkt))
    ensures Arrived(FromPeer(Uni, Frame(id, pkt))) == Delivered(id, Trimmed(pkt))
  {
    FrameAsDatagramToServer(id, pkt);
    FrameOnStream(id, pkt);
  }

  /**
   The session's socket fails, the session stays mapped, and the next packet for its id is looked up,
   sent to it and gone.
   */
  lemma FailedSessionSwallows(digest: Digest, maxPkt: nat, id: U32, p: UdpPacket, q: UdpPacket)
    returns (run: seq<State>)
    requires Encodable(p.addr) && Encodable(q.addr)
    ensures IsRun(run) && Vanished(Last(run), 2, id, Whole(q))
    ensures var u := Last(run).udp;
            id in u.table && u.table[id] == 0 && |u.sessions| == 1 && u.sessions[0].status == Failed
  {
    run := SendsToFailed(digest, maxPkt, id, p, q);
    run := SwallowTurn(run, 2);
    FrameArrives(id, q);
  }

  /** A send that holds a session that has ended is done, and its packet gone. */
  lemma SwallowTurn(before: seq<State>, t: nat) returns (run: seq<State>)
    requires IsRun(before) && Sized(Last(before)) && t < |Last(before).tasks| && Last(before).tasks[t].Sending?
    requires Last(before).tasks[t].sid < |Last(before).udp.sessions|
    requires Last(before).udp.sessions[Last(before).tasks[t].sid].status != Server.Running
    ensures IsRun(run) && Last(run).tasks == Last(before).tasks[t := Done] && Last(run).origin == Last(before).origin
    ensures !Entered(Last(run).udp.sessions, t) && Last(run).udp.table == Last(before).udp.table
    ensures |Last(run).udp.sessions| == |Last(before).udp.sessions|
    ensures forall a | 0 <= a < |Last(run).udp.sessions| ::
              Last(run).udp.sessions[a].status == Last(before).udp.sessions[a].status
  {
    run := TaskTurn(before, t, Enqueue);
    SendIntoEndedIsLost(run, |before| - 1, |run| - 1, t);
  }

  lemma SendsToFailed(digest: Digest, maxPkt: nat, id: U32, p: UdpPacket, q: UdpPacket) returns (run: seq<State>)
    requires Encodable(p.addr) && Encodable(q.addr)
    ensures Chain(run) && Init(run[0]) && Sized(Last(run)) && |Last(run).tasks| == 3
    ensures Last(run).tasks[2] == Sending(0, Whole(q)) && Last(run).origin[2] == FromPeer(Dgram, Frame(id, q))
    ensures var u := Last(run).udp;
            id in u.table && u.table[id] == 0 && |u.sessions| == 1 && u.sessions[0].status == Failed
  {
    run := SocketFails(digest, maxPkt, id, p);
    run := ArriveTurn(run, Dgram, Frame(id, q));
    run := ToMap(run, 2, id, q);
    run := TaskTurn(run, 2, LookUp);
  }

  lemma SocketFails(digest: Digest, maxPkt: nat, id: U32, pkt: UdpPacket) returns (run: seq<State>)
    requires Encodable(pkt.addr)
    ensures Chain(run) && Init(run[0]) && Sized(Last(run)) && |Last(run).tasks| == 2 && Open(Last(run).gate)
    ensures var u := Last(run).udp;
            && u.latch == Some(Datagram) && id in u.table && u.table[id] == 0
            && |u.sessions| == 1 && u.sessions[0].status == Failed
  {
    run := Hello(digest, maxPkt);
    run := PacketMakesSession(run, id, pkt);
    run := Turn(run, OfSession(0, SocketFail));
  }

  /** The connection ends before the packet's task has passed the gate. */
  lemma ClosedGateLoses(tokens: set<Digest>, maxPkt: nat, id: U32, pkt: UdpPacket) returns (run: seq<State>)
    requires Encodable(pkt.addr)
    ensures IsRun(run) && Vanished(Last(run), 0, id, Whole(pkt))
  {
    PacketRoundTrip(id, LenField(pkt.payload), pkt.addr, pkt.payload);
    FrameArrives(id, pkt);
    run := ArriveTurn([Start(tokens, maxPkt)], Dgram, Frame(id, pkt));
    run := TaskTurn(run, 0, ReadHeader);
    run := Turn(run, EndSelect);
    run := Turn(run, SetClosed);
    run := TaskTurn(run, 0, PollGate);
    NoSessionEntered(Last(run).udp.sessions, 0);
  }

  lemma NoSessionEntered(ss: seq<Session>, t: nat)
    requires ss == []
    ensures !Entered(ss, t)
  {
  }

  /** No socket can be bound for the packet. */
  lemma FailedBindLoses(digest: Digest, maxPkt: nat, id: U32, pkt: UdpPacket) returns (run: seq<State>)
    requires Encodable(pkt.addr)
    ensures IsRun(run) && Vanished(Last(run), 1, id, Whole(pkt))
  {
    FrameArrives(id, pkt);
    run := Hello(digest, maxPkt);
    run := ArriveTurn(run, Dgram, Frame(id, pkt));
    run := ToMap(run, 1, id, pkt);
    run := TaskTurn(run, 1, LookUp);
    run := TaskTurn(run, 1, Bind(false));
    NoSessionEntered(Last(run).udp.sessions, 1);
  }

  /** The packet comes on a stream after another came in a datagram. */
  lemma OtherModeLoses(digest: Digest, maxPkt: nat, id: U32, p: UdpPacket, q: UdpPacket) returns (run: seq<State>)
    requires Encodable(p.addr) && Encodable(q.addr)
    ensures IsRun(run) && Vanished(Last(run), 2, id, Trimmed(q)) && Last(run).udp.latch == Some(Datagram)
  {
    PacketRoundTrip(id, LenField(q.payload), q.addr, q.payload);
    FrameArrives(id, q);
    run := DatagramFirst(digest, maxPkt, id, p);
    run := ArriveTurn(run, Uni, Frame(id, q));
    run := TaskTurn(run, 2, ReadHeader);
    run := TaskTurn(run, 2, PollGate);
    run := TaskTurn(run, 2, DispatchCommand);
    NoSessionEntered(Last(run).udp.sessions, 2);
  }

  lemma DatagramFirst(digest: Digest, maxPkt: nat, id: U32, pkt: UdpPacket) returns (run: seq<State>)
    requires Encodable(pkt.addr)
    ensures Chain(run) && Init(run[0]) && Sized(Last(run)) && |Last(run).tasks| == 2 && Open(Last(run).gate)
    ensures Last(run).udp == Udp(Some(Datagram), map[], [], [])
  {
    run := Hello(digest, maxPkt);
    run := ArriveTurn(run, Dgram, Frame(id, pkt));
    run := ToMap(run, 1, id, pkt);
  }
}
