/**
 What becomes of a packet that reached the server: it enters a session, or one of four things kept it
 out. A session whose socket failed is one of them, for as long as it is mapped.
 */
module ServerFate {
  import opened Wire
  import opened Relay
  import opened Server
  import opened ServerFrame
  import opened ServerSessions
  import opened ServerTrace
  import opened ServerConforming
  import opened ServerHistory
  import opened ServerProgress

  // ---------------------------------------------------------------- sessions that have ended

  /** An ended session keeps all but its count of senders. */
  lemma EndedStep(s: State, step: Step, sid: nat)
    requires Enabled(s, step) && sid < |s.udp.sessions| && s.udp.sessions[sid].status != Server.Running
    ensures sid < |Apply(s, step).udp.sessions|
    ensures var (x, y) := (s.udp.sessions[sid], Apply(s, step).udp.sessions[sid]); y == x.(senders := y.senders)
  {
    if step.OfTask? {
      MovedFrame(s, step.t, MoveOf(s, step.t, step.act));
    }
  }

  lemma {:induction false} EndedForever(run: seq<State>, i: nat, j: nat, sid: nat)
    requires IsRun(run) && i <= j < |run| && sid < |run[i].udp.sessions|
    requires run[i].udp.sessions[sid].status != Server.Running
    ensures sid < |run[j].udp.sessions|
    ensures var (x, y) := (run[i].udp.sessions[sid], run[j].udp.sessions[sid]); y == x.(senders := y.senders)
    decreases j
  {
    if i < j {
      EndedForever(run, i, j - 1, sid);
      EndedStep(run[j - 1], StepAt(run, j - 1), sid);
    }
  }

  /** A send for id inserts the session that it has made. */
  ghost predicate InsertsAt(run: seq<State>, k: nat, id: U32)
    requires k + 1 < |run|
  {
    && id in run[k + 1].udp.table
    && exists t :: 0 <= t < |run[k].tasks| && run[k].tasks[t].Cloned? && run[k].tasks[t].assoc == id
                   && run[k].tasks[t].sid == run[k + 1].udp.table[id]
  }

  lemma DissociateStays(origin: seq<Origin>, origin': seq<Origin>, id: U32)
    requires origin <= origin' && HasDissociate(origin, id)
    ensures HasDissociate(origin', id)
  {
    var t :| 0 <= t < |origin| && DissociateFrom(origin[t], id);
    assert origin'[t] == origin[t];
  }

  /** The entry is the same, or has gone for one of the reasons there are. */
  ghost predicate EntrySince(run: seq<State>, i: nat, j: nat, id: U32)
    requires i <= j < |run| && id in run[i].udp.table
  {
    || (id in run[j].udp.table && run[j].udp.table[id] == run[i].udp.table[id])
    || HasDissociate(run[j].origin, id)
    || (exists k: nat :: i <= k < j && InsertsAt(run, k, id))
    || Finished(run[j])
  }

  lemma FinishedStep(s: State, step: Step)
    requires Enabled(s, step) && Finished(s)
    ensures Finished(Apply(s, step))
  {
    TasksFrame(s, step);
    GateFrame(s, step);
  }

  lemma EntryNext(run: seq<State>, i: nat, j: nat, id: U32)
    requires IsRun(run) && i <= j && j + 1 < |run| && id in run[i].udp.table && EntrySince(run, i, j, id)
    ensures EntrySince(run, i, j + 1, id)
  {
    NextFrame(run, j);
    if HasDissociate(run[j].origin, id) {
      DissociateStays(run[j].origin, run[j + 1].origin, id);
    } else if Finished(run[j]) {
      FinishedStep(run[j], StepAt(run, j));
    } else if id in run[j].udp.table && run[j].udp.table[id] == run[i].udp.table[id] {
      EntryLeaves(run, j, id);
    }
  }

  lemma EntryLeaves(run: seq<State>, j: nat, id: U32)
    requires IsRun(run) && j + 1 < |run| && id in run[j].udp.table && !Finished(run[j])
    ensures || (id in run[j + 1].udp.table && run[j + 1].udp.table[id] == run[j].udp.table[id])
            || HasDissociate(run[j + 1].origin, id)
            || InsertsAt(run, j, id)
  {
    if id !in run[j + 1].udp.table {
      EntryRemovedOnlyOnRequest(run, j, id);
      NextFrame(run, j);
      DissociateStays(run[j].origin, run[j + 1].origin, id);
    } else if run[j + 1].udp.table[id] != run[j].udp.table[id] {
      EntryReplacedOnlyByCreator(run, j, id);
    }
  }

  lemma {:induction false} EntryStays(run: seq<State>, i: nat, j: nat, id: U32)
    requires IsRun(run) && i <= j < |run| && id in run[i].udp.table
    ensures EntrySince(run, i, j, id)
    decreases j
  {
    if i < j {
      EntryStays(run, i, j - 1, id);
      EntryNext(run, i, j - 1, id);
    }
  }

  /**
   A session whose socket failed, or that ended in any way while mapped, stays the entry of its id until
   a Dissociate for the id arrives, another session is inserted or the connection is over; and it never
   takes or sends anything again.
   */
  lemma EndedSessionStaysMapped(run: seq<State>, i: nat, j: nat, id: U32)
    requires IsRun(run) && i <= j < |run| && id in run[i].udp.table
    requires run[i].udp.table[id] < |run[i].udp.sessions|
    requires run[i].udp.sessions[run[i].udp.table[id]].status != Server.Running
    ensures EntrySince(run, i, j, id)
    ensures var sid := run[i].udp.table[id];
            && sid < |run[j].udp.sessions| && run[j].udp.sessions[sid].status == run[i].udp.sessions[sid].status
            && run[j].udp.sessions[sid].enqueued == run[i].udp.sessions[sid].enqueued
            && run[j].udp.sessions[sid].sent == run[i].udp.sessions[sid].sent
  {
    EntryStays(run, i, j, id);
    EndedForever(run, i, j, run[i].udp.table[id]);
  }

  // ---------------------------------------------------------------- the ways of a packet

  /** The task's packet is on the record of session sid. */
  predicate EnteredIn(ss: seq<Session>, t: nat, sid: nat) {
    sid < |ss| && exists k :: 0 <= k < |ss[sid].enqueued| && ss[sid].enqueued[k].task == t
  }

  ghost predicate Entered(ss: seq<Session>, t: nat) {
    exists sid: nat :: EnteredIn(ss, t, sid)
  }

  function ModeOf(o: Origin): UdpPacketSource {
    if o.FromPeer? && o.chan == Dgram then Datagram else UniStream
  }

  /** The client has been using the other relay mode. */
  predicate WrongMode(s: State, step: Step, t: nat) {
    && step == OfTask(t, DispatchCommand) && t < |s.origin| && s.udp.latch.Some?
    && s.udp.latch != Some(ModeOf(s.origin[t]))
  }

  predicate BindFails(step: Step, t: nat) {
    step == OfTask(t, Bind(false))
  }

  /** The session has ended. */
  predicate MeetsEnded(s: State, step: Step, t: nat) {
    && step == OfTask(t, Enqueue) && t < |s.tasks| && s.tasks[t].Sending? && s.tasks[t].sid < |s.udp.sessions|
    && s.udp.sessions[s.tasks[t].sid].status != Server.Running
  }

  /** The reasons that do not depend on what else the peer has sent. */
  predicate LosesInMode(s: State, step: Step, t: nat) {
    Refuses(s, step, t) || BindFails(step, t) || MeetsEnded(s, step, t)
  }

  predicate Loses(s: State, step: Step, t: nat) {
    WrongMode(s, step, t) || LosesInMode(s, step, t)
  }

  ghost predicate LosesAt(run: seq<State>, j: nat, t: nat)
    requires IsRun(run) && j + 1 < |run|
  {
    Loses(run[j], StepAt(run, j), t)
  }

  ghost predicate LosesInModeAt(run: seq<State>, j: nat, t: nat)
    requires IsRun(run) && j + 1 < |run|
  {
    LosesInMode(run[j], StepAt(run, j), t)
  }

  ghost predicate Lost(run: seq<State>, i: nat, t: nat)
    requires IsRun(run) && i < |run|
  {
    exists j: nat :: j < i && LosesAt(run, j, t)
  }

  ghost predicate LostInMode(run: seq<State>, i: nat, t: nat)
    requires IsRun(run) && i < |run|
  {
    exists j: nat :: j < i && LosesInModeAt(run, j, t)
  }

  /** Where the task of a packet can be. */
  predicate PacketPc(task: Task) {
    || task.Fresh? || task.Gate? || task.Dispatch? || task.Lookup? || task.Create? || task.Created? || task.Cloned?
    || task.Sending? || task.Done?
  }

  predicate Puts(s: State, t: nat, act: TaskAction)
    requires TaskEnabled(s, t, act)
  {
    act == Enqueue && s.udp.sessions[s.tasks[t].sid].status == Server.Running
  }

  lemma PacketMove(s: State, t: nat, act: TaskAction)
    requires TaskEnabled(s, t, act) && Arrived(s.origin[t]).Delivered? && PacketPc(s.tasks[t])
    requires TaskFrom(s.udp.sessions, s.origin[t], s.tasks[t])
    ensures var move := MoveOf(s, t, act);
            && PacketPc(move.task)
            && (move.task.Done? <==> Loses(s, OfTask(t, act), t) || Puts(s, t, act))
            && !(Loses(s, OfTask(t, act), t) && Puts(s, t, act))
  {
    if act.DispatchCommand? {
      PacketDispatch(s, t);
    }
  }

  lemma PacketDispatch(s: State, t: nat)
    requires TaskEnabled(s, t, DispatchCommand) && Arrived(s.origin[t]).Delivered?
    requires TaskFrom(s.udp.sessions, s.origin[t], s.tasks[t])
    ensures var task := MoveOf(s, t, DispatchCommand).task;
            if WrongMode(s, OfTask(t, DispatchCommand), t) then task.Done? else task.Lookup?
  {
    ServerSliceInBounds(s.origin[t].bytes);
  }

  /** Records grow only by what the acting task puts in. */
  lemma EnteredAfter(s: State, step: Step, t: nat)
    requires Enabled(s, step)
    ensures Entered(Apply(s, step).udp.sessions, t) <==>
              Entered(s.udp.sessions, t) || (step.OfTask? && step.t == t && Puts(s, t, step.act))
  {
    var (ss, ss') := (s.udp.sessions, Apply(s, step).udp.sessions);
    if step.OfTask? && step.act.Enqueue? {
      MovedFrame(s, step.t, MoveOf(s, step.t, step.act));
      var sid, item := s.tasks[step.t].sid, Item(step.t, s.tasks[step.t].pkt);
      assert ss' == ss[sid := Pushed(ss[sid], item)];
      PushedEntered(ss, sid, item, t);
    } else {
      NotPushed(s, step);
      SameEntered(ss, ss', t);
    }
  }

  lemma NotPushed(s: State, step: Step)
    requires Enabled(s, step) && !(step.OfTask? && step.act.Enqueue?)
    ensures SameItems(s.udp.sessions, Apply(s, step).udp.sessions)
  {
    if step.OfTask? {
      MovedFrame(s, step.t, MoveOf(s, step.t, step.act));
      OnlyEnqueuePushes(s, step.t, step.act);
      EffectItems(s.udp, step.t, MoveOf(s, step.t, step.act).effect);
    }
  }

  lemma OnlyEnqueuePushes(s: State, t: nat, act: TaskAction)
    requires TaskEnabled(s, t, act)
    ensures MoveOf(s, t, act).effect.Push? <==> act.Enqueue?
  {
  }

  lemma SameEntered(ss: seq<Session>, ss': seq<Session>, t: nat)
    requires SameItems(ss, ss')
    ensures Entered(ss, t) <==> Entered(ss', t)
  {
    if sid: nat :| EnteredIn(ss, t, sid) {
      assert EnteredIn(ss', t, sid);
    }
    if sid: nat :| EnteredIn(ss', t, sid) {
      assert EnteredIn(ss, t, sid);
    }
  }

  lemma PushedEntered(ss: seq<Session>, sid: nat, item: Item, t: nat)
    requires sid < |ss|
    ensures var ss' := ss[sid := Pushed(ss[sid], item)];
            Entered(ss', t) <==> Entered(ss, t) || (item.task == t && ss[sid].status == Server.Running)
  {
    var ss' := ss[sid := Pushed(ss[sid], item)];
    if a: nat :| EnteredIn(ss, t, a) {
      var k :| 0 <= k < |ss[a].enqueued| && ss[a].enqueued[k].task == t;
      assert ss'[a].enqueued[k].task == t && EnteredIn(ss', t, a);
    }
    if item.task == t && ss[sid].status == Server.Running {
      assert ss'[sid].enqueued[|ss[sid].enqueued|] == item && EnteredIn(ss', t, sid);
    }
    if a: nat :| EnteredIn(ss', t, a) {
      var k :| 0 <= k < |ss'[a].enqueued| && ss'[a].enqueued[k].task == t;
      assert k < |ss[a].enqueued| ==> ss[a].enqueued[k].task == t && EnteredIn(ss, t, a);
    }
  }

  /** One step of the connection, seen by the task of a packet. */
  predicate Goes(s: State, s': State, step: Step, t: nat)
    requires t < |s.tasks| && t < |s'.tasks|
  {
    && PacketPc(s'.tasks[t])
    && (s'.tasks[t].Done? <==>
          || s.tasks[t].Done? || Loses(s, step, t)
          || (step == OfTask(t, Enqueue) && Enabled(s, step) && Puts(s, t, Enqueue)))
    && (Loses(s, step, t) ==> !s.tasks[t].Done?)
  }

  lemma PacketStep(s: State, step: Step, t: nat, o: Origin)
    requires Enabled(s, step) && From(s, t, o) && Arrived(o).Delivered? && PacketPc(s.tasks[t])
    requires TaskFrom(s.udp.sessions, s.origin[t], s.tasks[t])
    ensures From(Apply(s, step), t, o) && Goes(s, Apply(s, step), step, t)
  {
    TasksFrame(s, step);
    if step.OfTask? && step.t == t {
      PacketMove(s, t, step.act);
      MovedFrame(s, t, MoveOf(s, t, step.act));
    }
  }

  lemma LostNext(run: seq<State>, i: nat, t: nat)
    requires IsRun(run) && i + 1 < |run|
    ensures Lost(run, i + 1, t) <==> Lost(run, i, t) || LosesAt(run, i, t)
  {
  }

  lemma NotLostBefore(run: seq<State>, i: nat, t: nat)
    requires IsRun(run) && 0 < i < |run| && |run[i - 1].tasks| <= t
    ensures !Lost(run, i, t)
  {
    forall j: nat | j < i
      ensures !LosesAt(run, j, t)
    {
      TasksOnlyGrow(run, j, i - 1);
    }
  }

  lemma NotEnteredYet(run: seq<State>, i: nat, t: nat)
    requires IsRun(run) && i < |run| && t < |run[i].tasks| && !run[i].tasks[t].Done?
    ensures !Entered(run[i].udp.sessions, t)
  {
    TraceAlways(run, i);
  }

  /** The task of a packet is done if and only if its packet is in a session or was lost, never both. */
  lemma {:induction false} DoneMeansDecided(run: seq<State>, i: nat, t: nat, o: Origin)
    requires IsRun(run) && i < |run| && From(run[i], t, o) && Arrived(o).Delivered?
    ensures PacketPc(run[i].tasks[t])
    ensures run[i].tasks[t].Done? <==> Lost(run, i, t) || Entered(run[i].udp.sessions, t)
    ensures !(Lost(run, i, t) && Entered(run[i].udp.sessions, t))
  {
    if i > 0 {
      if t < |run[i - 1].tasks| {
        FromBefore(run, i - 1, t, o);
        DoneMeansDecided(run, i - 1, t, o);
        DecidedNext(run, i - 1, t, o);
      } else {
        StartsFresh(run, i - 1, t, o);
        NotLostBefore(run, i, t);
        NotEnteredYet(run, i, t);
      }
    }
  }

  lemma DecidedNext(run: seq<State>, i: nat, t: nat, o: Origin)
    requires IsRun(run) && i + 1 < |run| && From(run[i], t, o) && Arrived(o).Delivered? && PacketPc(run[i].tasks[t])
    requires run[i].tasks[t].Done? <==> Lost(run, i, t) || Entered(run[i].udp.sessions, t)
    requires !(Lost(run, i, t) && Entered(run[i].udp.sessions, t))
    ensures From(run[i + 1], t, o) && PacketPc(run[i + 1].tasks[t])
    ensures run[i + 1].tasks[t].Done? <==> Lost(run, i + 1, t) || Entered(run[i + 1].udp.sessions, t)
    ensures !(Lost(run, i + 1, t) && Entered(run[i + 1].udp.sessions, t))
  {
    TraceAlways(run, i);
    assert TaskFrom(run[i].udp.sessions, run[i].origin[t], run[i].tasks[t]);
    PacketStep(run[i], StepAt(run, i), t, o);
    EnteredAfter(run[i], StepAt(run, i), t);
    LostNext(run, i, t);
  }

  /** The packet is on the record of a session for its id. */
  ghost predicate InSession(s: State, t: nat, assoc: U32, pkt: UdpPacket) {
    exists sid: nat ::
      sid < |s.udp.sessions| && s.udp.sessions[sid].assoc == assoc && Item(t, pkt) in s.udp.sessions[sid].enqueued
  }

  /**
   When the task of a packet has ended, the packet has entered a session for its id if and only if the
   gate was not closed to it, its mode was the connection's, no socket failed to bind for it and the
   session that it was sent to had not ended.
   */
  lemma PacketEntersIff(run: seq<State>, i: nat, t: nat, assoc: U32, pkt: UdpPacket)
    requires IsRun(run) && i < |run| && t < |run[i].tasks| && t < |run[i].origin|
    requires Arrived(run[i].origin[t]) == Delivered(assoc, pkt) && Ended(run[i].tasks[t])
    ensures InSession(run[i], t, assoc, pkt) <==> !Lost(run, i, t)
  {
    DoneMeansDecided(run, i, t, run[i].origin[t]);
    EnteredIsInSession(run, i, t, assoc, pkt);
  }

  lemma EnteredIsInSession(run: seq<State>, i: nat, t: nat, assoc: U32, pkt: UdpPacket)
    requires IsRun(run) && i < |run| && t < |run[i].tasks| && t < |run[i].origin|
    requires Arrived(run[i].origin[t]) == Delivered(assoc, pkt)
    ensures Entered(run[i].udp.sessions, t) <==> InSession(run[i], t, assoc, pkt)
  {
    TraceAlways(run, i);
    var ss := run[i].udp.sessions;
    if sid: nat :| EnteredIn(ss, t, sid) {
      var k :| 0 <= k < |ss[sid].enqueued| && ss[sid].enqueued[k].task == t;
      assert ItemFrom(run[i].origin, run[i].tasks, ss[sid].assoc, ss[sid].enqueued[k]);
      assert ss[sid].enqueued[k] == Item(t, pkt);
    }
    if sid: nat :| sid < |ss| && ss[sid].assoc == assoc && Item(t, pkt) in ss[sid].enqueued {
      var k :| 0 <= k < |ss[sid].enqueued| && ss[sid].enqueued[k] == Item(t, pkt);
      assert EnteredIn(ss, t, sid);
    }
  }

  lemma {:induction false} InModeEarlier(run: seq<State>, j: nat, i: nat, source: UdpPacketSource)
    requires IsRun(run) && j <= i < |run| && AllInMode(source, run[i].origin)
    ensures AllInMode(source, run[j].origin)
    decreases i
  {
    if j < i {
      InModeBefore(run, i - 1, source);
      InModeEarlier(run, j, i - 1, source);
    }
  }

  lemma PacketHasMode(source: UdpPacketSource, o: Origin)
    requires InMode(source, o) && Arrived(o).Delivered?
    ensures ModeOf(o) == source
  {
  }

  /** A peer that keeps to one mode never loses a packet to the other. */
  lemma NeverWrongMode(run: seq<State>, j: nat, i: nat, t: nat, source: UdpPacketSource)
    requires IsRun(run) && j < i < |run| && AllInMode(source, run[i].origin)
    requires t < |run[i].origin| && Arrived(run[i].origin[t]).Delivered?
    ensures !WrongMode(run[j], StepAt(run, j), t)
  {
    InModeEarlier(run, j, i, source);
    LatchKeepsMode(run, j, source);
    if t < |run[j].origin| {
      OriginStays(run, j, i, t);
      PacketHasMode(source, run[j].origin[t]);
    }
  }

  /** With a peer that keeps to one mode, three of the reasons remain. */
  lemma PacketInModeEntersIff(run: seq<State>, i: nat, t: nat, assoc: U32, pkt: UdpPacket, source: UdpPacketSource)
    requires IsRun(run) && i < |run| && t < |run[i].tasks| && t < |run[i].origin| && AllInMode(source, run[i].origin)
    requires Arrived(run[i].origin[t]) == Delivered(assoc, pkt) && Ended(run[i].tasks[t])
    ensures InSession(run[i], t, assoc, pkt) <==> !LostInMode(run, i, t)
  {
    PacketEntersIff(run, i, t, assoc, pkt);
    forall j: nat | j < i
      ensures LosesAt(run, j, t) <==> LosesInModeAt(run, j, t)
    {
      NeverWrongMode(run, j, i, t, source);
    }
  }

  /** Every send through a session that has ended is lost, for good. */
  lemma SendIntoEndedIsLost(run: seq<State>, i: nat, j: nat, t: nat)
    requires IsRun(run) && i <= j < |run| && t < |run[i].tasks| && run[i].tasks[t].Sending?
    requires run[i].tasks[t].sid < |run[i].udp.sessions|
    requires run[i].udp.sessions[run[i].tasks[t].sid].status != Server.Running
    ensures !Entered(run[j].udp.sessions, t)
  {
    NotEnteredYet(run, i, t);
    StuckWithEnded(run, i, j, t);
  }

  lemma {:induction false} StuckWithEnded(run: seq<State>, i: nat, j: nat, t: nat)
    requires IsRun(run) && i <= j < |run| && t < |run[i].tasks| && run[i].tasks[t].Sending?
    requires run[i].tasks[t].sid < |run[i].udp.sessions|
    requires run[i].udp.sessions[run[i].tasks[t].sid].status != Server.Running
    requires !Entered(run[i].udp.sessions, t)
    ensures t < |run[j].tasks| && (run[j].tasks[t] == run[i].tasks[t] || run[j].tasks[t] == Done)
    ensures !Entered(run[j].udp.sessions, t)
    decreases j
  {
    if i < j {
      StuckWithEnded(run, i, j - 1, t);
      EndedForever(run, i, j - 1, run[i].tasks[t].sid);
      StuckStep(run[j - 1], StepAt(run, j - 1), t);
      EnteredAfter(run[j - 1], StepAt(run, j - 1), t);
    }
  }

  lemma StuckStep(s: State, step: Step, t: nat)
    requires Enabled(s, step) && t < |s.tasks| && (s.tasks[t].Done? || s.tasks[t].Sending?)
    requires s.tasks[t].Sending? ==>
               s.tasks[t].sid < |s.udp.sessions| && s.udp.sessions[s.tasks[t].sid].status != Server.Running
    ensures t < |Apply(s, step).tasks| && Apply(s, step).tasks[t] in {s.tasks[t], Done}
    ensures step.OfTask? && step.t == t ==> !Puts(s, t, step.act)
  {
    TasksFrame(s, step);
    if step.OfTask? && step.t == t {
      MovedFrame(s, t, MoveOf(s, t, step.act));
    }
  }

  /**
   A packet sent into a running session is on its record from then on, and has been sent if the session
   drains. A packet sent into a session that has ended never enters any.
   */
  lemma EnqueuedIsSentBeforeDrain(run: seq<State>, i: nat, j: nat, t: nat)
    requires IsRun(run) && i < j < |run| && TaskEnabled(run[i], t, Enqueue)
    requires run[i + 1] == Apply(run[i], OfTask(t, Enqueue))
    ensures var (sid, item) := (run[i].tasks[t].sid, Item(t, run[i].tasks[t].pkt));
            && sid < |run[j].udp.sessions|
            && (run[i].udp.sessions[sid].status == Server.Running ==>
                  && item in run[j].udp.sessions[sid].enqueued
                  && (run[j].udp.sessions[sid].status == Drained ==> item in run[j].udp.sessions[sid].sent))
            && (run[i].udp.sessions[sid].status != Server.Running ==> !Entered(run[j].udp.sessions, t))
  {
    var sid, item := run[i].tasks[t].sid, Item(t, run[i].tasks[t].pkt);
    LogsGrow(run, i + 1, j);
    if run[i].udp.sessions[sid].status == Server.Running {
      var log := run[i].udp.sessions[sid].enqueued;
      assert run[i + 1].udp.sessions[sid].enqueued == log + [item];
      assert Grown(run[i + 1].udp.sessions[sid], run[j].udp.sessions[sid]);
      assert run[j].udp.sessions[sid].enqueued[|log|] == item;
      SentInOrder(run, j, sid);
    } else {
      SendIntoEndedIsLost(run, i, j, t);
    }
  }
}
