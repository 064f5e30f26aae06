/** What a disconnect does to the UDP sessions: nothing by itself, and all there is to do once every task has ended. */
module ServerRelease {
  import opened Wire
  import opened Codec
  import opened Relay
  import opened Server
  import opened ServerSessions
  import opened ServerChains
  import opened ServerProgress
  import opened ServerRaces
  import opened ServerFate

  /** Entry after entry of the map is dropped, and nothing else happens. */
  ghost predicate DropsAt(run: seq<State>, i: nat)
    requires i + 1 < |run|
  {
    exists id: U32 :: Enabled(run[i], DropEntry(id)) && run[i + 1] == Apply(run[i], DropEntry(id))
  }

  ghost predicate DropChain(run: seq<State>) {
    |run| > 0 && forall i: nat | i + 1 < |run| :: DropsAt(run, i)
  }

  predicate Released(ss: seq<Session>) {
    forall sid | 0 <= sid < |ss| :: ss[sid].senders == 0
  }

  ghost predicate MapDropReleases(s: State) {
    exists run: seq<State> :: DropChain(run) && run[0] == s && Released(Last(run).udp.sessions)
  }

  predicate AllEnded(tasks: seq<Task>) {
    forall t | 0 <= t < |tasks| :: Ended(tasks[t])
  }

  lemma {:induction false} DropAll(run: seq<State>) returns (drops: seq<State>)
    requires IsRun(run) && Finished(Last(run))
    ensures DropChain(drops) && drops[0] == Last(run) && Released(Last(drops).udp.sessions)
    decreases |Last(run).udp.table|
  {
    var s := Last(run);
    if s.udp.table == map[] {
      SessionsReleased(run, |run| - 1);
      drops := [s];
    } else {
      var id :| id in s.udp.table;
      var s' := Apply(s, DropEntry(id));
      var run' := Turn(run, DropEntry(id));
      FinishedStep(s, DropEntry(id));
      FewerEntries(s.udp.table, id);
      var rest := DropAll(run');
      drops := Prepend(s, id, rest);
    }
  }

  lemma FewerEntries(table: map<U32, nat>, id: U32)
    requires id in table
    ensures |table - {id}| < |table|
  {
    assert (table - {id}).Keys == table.Keys - {id};
  }

  lemma Prepend(s: State, id: U32, rest: seq<State>) returns (drops: seq<State>)
    requires DropChain(rest) && Enabled(s, DropEntry(id)) && rest[0] == Apply(s, DropEntry(id))
    ensures DropChain(drops) && drops[0] == s && Last(drops) == Last(rest)
  {
    drops := [s] + rest;
    forall i: nat | i + 1 < |drops|
      ensures DropsAt(drops, i)
    {
      if i > 0 {
        assert DropsAt(rest, i - 1);
      }
    }
  }

  /**
   When the select is over and the map is not empty, dropping the map releases all sessions if and only
   if every task has ended.
   */
  lemma MapDropReleasesIff(run: seq<State>)
    requires IsRun(run) && !Last(run).gate.listening && Last(run).udp.table != map[]
    ensures MapDropReleases(Last(run)) <==> AllEnded(Last(run).tasks)
  {
    SessionsReleased(run, |run| - 1);
    if AllEnded(Last(run).tasks) {
      var drops := DropAll(run);
    }
    if MapDropReleases(Last(run)) {
      var drops: seq<State> :| DropChain(drops) && drops[0] == Last(run) && Released(Last(drops).udp.sessions);
      FirstDropWaits(drops);
    }
  }

  lemma FirstDropWaits(drops: seq<State>)
    requires DropChain(drops) && |drops| > 1
    ensures AllEnded(drops[0].tasks)
  {
    assert DropsAt(drops, 0);
  }

  /**
   A disconnect alone releases nothing: a connection is over and closed while the session of a packet
   is running and mapped, because the packet's task is still sending.
   */
  lemma DisconnectKeepsSession(digest: Digest, maxPkt: nat, id: U32, pkt: UdpPacket) returns (run: seq<State>)
    requires Encodable(pkt.addr)
    ensures IsRun(run) && !Last(run).gate.listening && Last(run).gate.closed
    ensures var u := Last(run).udp;
            && id in u.table && u.table[id] == 0 && |u.sessions| == 1 && u.sessions[0].status == Server.Running
            && u.sessions[0].senders > 0
    ensures !MapDropReleases(Last(run))
  {
    run := Disconnected(digest, maxPkt, id, pkt);
    SenderConservation(run, |run| - 1, 0);
    MapDropReleasesIff(run);
    assert !Ended(Last(run).tasks[1]);
  }

  lemma Disconnected(digest: Digest, maxPkt: nat, id: U32, pkt: UdpPacket) returns (run: seq<State>)
    requires Encodable(pkt.addr)
    ensures IsRun(run) && !Last(run).gate.listening && Last(run).gate.closed
    ensures |Last(run).tasks| == 2 && Last(run).tasks[1] == Sending(0, Whole(pkt))
    ensures var u := Last(run).udp;
            && id in u.table && u.table[id] == 0 && |u.sessions| == 1
            && u.sessions[0].status == Server.Running && u.sessions[0].assoc == id
  {
    run := Hello(digest, maxPkt);
    run := PacketMakesSession(run, id, pkt);
    run := Turn(run, EndSelect);
    run := Turn(run, SetClosed);
  }
}
