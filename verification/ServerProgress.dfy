/**
 What the session map is for, over whole runs: entries come and go only for a reason, sends use the
 session that is mapped, and nothing that came back from a session is forgotten.
 */
module ServerProgress {
  import opened Wire
  import opened Codec
  import opened Server
  import opened ServerFrame
  import opened ServerTrace
  import opened ServerOnce

  // ---------------------------------------------------------------- entries of the session map

  predicate DissociateFrom(o: Origin, id: U32) {
    o.FromPeer? && o.chan == Uni && Decode(o.bytes).Ok? && Decode(o.bytes).value == Dissociate(id)
  }

  ghost predicate HasDissociate(origin: seq<Origin>, id: U32) {
    exists t :: 0 <= t < |origin| && DissociateFrom(origin[t], id)
  }

  /** How an effect changes the map: by removing its id or by installing its session, and nowhere else. */
  lemma TableAfter(u: Udp, t: nat, e: Effect)
    ensures UdpAfter(u, t, e).table ==
              if e.Remove? then u.table - {e.id}
              else if e.Install? then u.table[e.id := e.to]
              else u.table
  {
    if e.Install? {
      assert (u.table - {e.id})[e.id := e.to] == u.table[e.id := e.to];
    }
  }

  lemma RemoveFrom(s: State, t: nat, act: TaskAction)
    requires TraceInv(s) && TaskEnabled(s, t, act)
    ensures var e := MoveOf(s, t, act).effect;
            && (e.Remove? ==> DissociateFrom(s.origin[t], e.id))
            && (e.Install? ==> s.tasks[t].Cloned? && s.tasks[t].assoc == e.id && s.tasks[t].sid == e.to)
  {
    assert TaskFrom(s.udp.sessions, s.origin[t], s.tasks[t]);
  }

  /**
   An entry disappears only because the peer sent a Dissociate for its id, or with the whole map when
   the connection's select is over and all its tasks have ended.
   */
  lemma EntryRemovedOnlyOnRequest(run: seq<State>, i: nat, id: U32)
    requires IsRun(run) && i + 1 < |run| && id in run[i].udp.table && id !in run[i + 1].udp.table
    ensures || HasDissociate(run[i].origin, id)
            || Finished(run[i])
  {
    var s, step := run[i], StepAt(run, i);
    if step.OfTask? {
      TraceAlways(run, i);
      var move := MoveOf(s, step.t, step.act);
      MovedFrame(s, step.t, move);
      TableAfter(s.udp, step.t, move.effect);
      RemoveFrom(s, step.t, step.act);
    }
  }

  /** An entry is replaced only by a session that a send for the same id has made itself. */
  lemma EntryReplacedOnlyByCreator(run: seq<State>, i: nat, id: U32)
    requires IsRun(run) && i + 1 < |run| && id in run[i + 1].udp.table
    requires id in run[i].udp.table ==> run[i].udp.table[id] != run[i + 1].udp.table[id]
    ensures exists t :: 0 <= t < |run[i].tasks| && run[i].tasks[t].Cloned? && run[i].tasks[t].assoc == id
                        && run[i].tasks[t].sid == run[i + 1].udp.table[id]
  {
    var s, step := run[i], StepAt(run, i);
    if step.OfTask? {
      TraceAlways(run, i);
      var move := MoveOf(s, step.t, step.act);
      MovedFrame(s, step.t, move);
      TableAfter(s.udp, step.t, move.effect);
      RemoveFrom(s, step.t, step.act);
    }
  }

  // ---------------------------------------------------------------- sends and the map

  ghost predicate WasMapped(run: seq<State>, i: nat, id: U32, sid: nat)
    requires i < |run|
  {
    exists j: nat :: j <= i && id in run[j].udp.table && run[j].udp.table[id] == sid
  }

  ghost predicate WasUnmapped(run: seq<State>, i: nat, id: U32)
    requires i < |run|
  {
    exists j: nat :: j <= i && id !in run[j].udp.table
  }

  predicate Creating(task: Task) {
    task.Create? || task.Created? || task.Cloned?
  }

  /** How a task comes to hold a sender or to make a session. */
  lemma BecomesSending(s: State, t: nat, act: TaskAction)
    requires Shape(s) && TaskEnabled(s, t, act)
    ensures var move := MoveOf(s, t, act);
            && (move.task.Sending? ==>
                  || (&& s.tasks[t].Lookup? && s.tasks[t].assoc in s.udp.table
                      && s.udp.table[s.tasks[t].assoc] == move.task.sid)
                  || move.effect == Install(s.udp.sessions[move.task.sid].assoc, move.task.sid))
            && (Creating(move.task) ==>
                  || (Creating(s.tasks[t]) && s.tasks[t].assoc == move.task.assoc)
                  || move.task.assoc !in s.udp.table)
  {
    assert TaskShape(s.udp.sessions, s.tasks[t]);
  }

  /** What was once mapped or unmapped was so later on, too. */
  lemma WasLater(run: seq<State>, i: nat, id: U32, sid: nat)
    requires i + 1 < |run|
    ensures WasMapped(run, i, id, sid) ==> WasMapped(run, i + 1, id, sid)
    ensures WasUnmapped(run, i, id) ==> WasUnmapped(run, i + 1, id)
  {
  }

  lemma ActingUsesMap(run: seq<State>, i: nat, t: nat, act: TaskAction)
    requires i + 1 < |run| && Shape(run[i]) && TaskEnabled(run[i], t, act)
    requires run[i + 1] == Apply(run[i], OfTask(t, act))
    requires Creating(run[i].tasks[t]) ==> WasUnmapped(run, i, run[i].tasks[t].assoc)
    ensures var move := MoveOf(run[i], t, act);
            && (move.task.Sending? ==>
                  && move.task.sid < |run[i].udp.sessions|
                  && WasMapped(run, i + 1, run[i].udp.sessions[move.task.sid].assoc, move.task.sid))
            && (Creating(move.task) ==> WasUnmapped(run, i + 1, move.task.assoc))
  {
    var move := MoveOf(run[i], t, act);
    MovesAreShaped(run[i], t, act);
    MovedFrame(run[i], t, move);
    TableAfter(run[i].udp, t, move.effect);
    BecomesSending(run[i], t, act);
    assert TaskShape(run[i].udp.sessions, run[i].tasks[t]);
  }

  lemma SendUsesMapStep(run: seq<State>, i: nat, t: nat)
    requires IsRun(run) && i + 1 < |run| && t < |run[i].tasks| && Shape(run[i]) && Shape(run[i + 1])
    requires run[i].tasks[t].Sending? ==>
               && run[i].tasks[t].sid < |run[i].udp.sessions|
               && WasMapped(run, i, run[i].udp.sessions[run[i].tasks[t].sid].assoc, run[i].tasks[t].sid)
    requires Creating(run[i].tasks[t]) ==> WasUnmapped(run, i, run[i].tasks[t].assoc)
    ensures t < |run[i + 1].tasks|
    ensures run[i + 1].tasks[t].Sending? ==>
              && run[i + 1].tasks[t].sid < |run[i + 1].udp.sessions|
              && WasMapped(run, i + 1, run[i + 1].udp.sessions[run[i + 1].tasks[t].sid].assoc, run[i + 1].tasks[t].sid)
    ensures Creating(run[i + 1].tasks[t]) ==> WasUnmapped(run, i + 1, run[i + 1].tasks[t].assoc)
  {
    var s, s', step := run[i], run[i + 1], StepAt(run, i);
    TasksFrame(s, step);
    NextFrame(run, i);
    if step.OfTask? && step.t == t {
      MovedFrame(s, t, MoveOf(s, t, step.act));
      ActingUsesMap(run, i, t, step.act);
    } else if s.tasks[t].Sending? {
      WasLater(run, i, s.udp.sessions[s.tasks[t].sid].assoc, s.tasks[t].sid);
    } else if Creating(s.tasks[t]) {
      WasLater(run, i, s.tasks[t].assoc, 0);
    }
  }

  /**
   A send enqueues into a session that was the entry for its id at some time, and a send makes a
   session only after it has seen its id unmapped.
   */
  lemma {:induction false} SendUsesMap(run: seq<State>, i: nat, t: nat)
    requires IsRun(run) && i < |run| && t < |run[i].tasks|
    ensures run[i].tasks[t].Sending? ==>
              && run[i].tasks[t].sid < |run[i].udp.sessions|
              && WasMapped(run, i, run[i].udp.sessions[run[i].tasks[t].sid].assoc, run[i].tasks[t].sid)
    ensures Creating(run[i].tasks[t]) ==> WasUnmapped(run, i, run[i].tasks[t].assoc)
  {
    ShapeAlways(run, i);
    assert TaskShape(run[i].udp.sessions, run[i].tasks[t]);
    if i > 0 {
      ShapeAlways(run, i - 1);
      if t < |run[i - 1].tasks| {
        SendUsesMap(run, i - 1, t);
        SendUsesMapStep(run, i - 1, t);
      } else {
        SpawnedFresh(run[i - 1], StepAt(run, i - 1), t);
      }
    }
  }

  /** The select is over and every task has ended: all that remains is to drop the map. */
  predicate Finished(s: State) {
    !s.gate.listening && forall t | 0 <= t < |s.tasks| :: Ended(s.tasks[t])
  }

  lemma SpawnedFresh(s: State, step: Step, t: nat)
    requires Enabled(s, step) && |s.tasks| <= t < |Apply(s, step).tasks|
    ensures Apply(s, step).tasks[t].Fresh? || Apply(s, step).tasks[t].Replying?
  {
    if step.OfTask? {
      MovedFrame(s, step.t, MoveOf(s, step.t, step.act));
    }
  }

  // ---------------------------------------------------------------- nothing forgotten

  lemma {:induction false} LogsGrow(run: seq<State>, i: nat, j: nat)
    requires IsRun(run) && i <= j < |run|
    ensures Extends(run[i].udp.sessions, run[j].udp.sessions)
    decreases j
  {
    if i < j {
      LogsGrow(run, i, j - 1);
      NextFrame(run, j - 1);
      forall sid | 0 <= sid < |run[i].udp.sessions|
        ensures Grown(run[i].udp.sessions[sid], run[j].udp.sessions[sid])
      {
        assert Grown(run[i].udp.sessions[sid], run[j - 1].udp.sessions[sid]);
        assert Grown(run[j - 1].udp.sessions[sid], run[j].udp.sessions[sid]);
      }
    }
  }

  /** A received packet is on its way, in the channel or with a task, unless its session ended with it in hand. */
  predicate Accounted(s: State, sid: nat, k: nat)
    requires sid < |s.udp.sessions|
  {
    var x := s.udp.sessions[sid];
    || x.handing == Some(k) || (sid, k) in s.udp.inbox || InOrigin(s.origin, sid, k)
    || (x.status != Server.Running && k + 1 == |x.received|)
  }

  predicate AllAccounted(s: State) {
    s.gate.listening ==>
      forall sid: nat, k: nat | sid < |s.udp.sessions| && k < |s.udp.sessions[sid].received| :: Accounted(s, sid, k)
  }

  predicate HandsNewest(ss: seq<Session>) {
    forall sid | 0 <= sid < |ss| :: ss[sid].handing.Some? ==> ss[sid].handing.value + 1 == |ss[sid].received|
  }

  lemma EffectHands(u: Udp, t: nat, e: Effect)
    requires HandsNewest(u.sessions)
    ensures HandsNewest(UdpAfter(u, t, e).sessions)
    ensures var ss := UdpAfter(u, t, e).sessions;
            && (forall sid | 0 <= sid < |u.sessions| ::
                  && ss[sid].handing == u.sessions[sid].handing && ss[sid].received == u.sessions[sid].received
                  && ss[sid].status == u.sessions[sid].status)
            && (forall sid | |u.sessions| <= sid < |ss| :: ss[sid].received == [])
  {
  }

  lemma InOriginGrows(origin: seq<Origin>, origin': seq<Origin>, sid: nat, k: nat)
    requires origin <= origin' && InOrigin(origin, sid, k)
    ensures InOrigin(origin', sid, k)
  {
    var t :| 0 <= t < |origin| && origin[t] == FromSession(sid, k);
    assert origin'[t] == FromSession(sid, k);
  }

  lemma AccountedStep(s: State, step: Step)
    requires HandsNewest(s.udp.sessions) && AllAccounted(s) && Enabled(s, step)
    ensures HandsNewest(Apply(s, step).udp.sessions) && AllAccounted(Apply(s, step))
  {
    var s' := Apply(s, step);
    TasksFrame(s, step);
    GateFrame(s, step);
    if step.OfTask? {
      MovedFrame(s, step.t, MoveOf(s, step.t, step.act));
      EffectHands(s.udp, step.t, MoveOf(s, step.t, step.act).effect);
    }
    if s'.gate.listening {
      forall sid: nat, k: nat | sid < |s'.udp.sessions| && k < |s'.udp.sessions[sid].received|
        ensures Accounted(s', sid, k)
      {
        AccountedStays(s, step, sid, k);
      }
    }
  }

  lemma AccountedStays(s: State, step: Step, sid: nat, k: nat)
    requires HandsNewest(s.udp.sessions) && AllAccounted(s) && Enabled(s, step) && Apply(s, step).gate.listening
    requires sid < |Apply(s, step).udp.sessions| && k < |Apply(s, step).udp.sessions[sid].received|
    ensures Accounted(Apply(s, step), sid, k)
  {
    GateFrame(s, step);
    match step
    case OfTask(t, act) => AccountedByTask(s, t, act, sid, k);
    case ListenReceived => AccountedByListener(s, sid, k);
    case _ => AccountedByOther(s, step, sid, k);
  }

  lemma AccountedByTask(s: State, t: nat, act: TaskAction, sid: nat, k: nat)
    requires HandsNewest(s.udp.sessions) && AllAccounted(s) && s.gate.listening && TaskEnabled(s, t, act)
    requires sid < |Apply(s, OfTask(t, act)).udp.sessions| && k < |Apply(s, OfTask(t, act)).udp.sessions[sid].received|
    ensures Accounted(Apply(s, OfTask(t, act)), sid, k)
  {
    MovedFrame(s, t, MoveOf(s, t, act));
    EffectHands(s.udp, t, MoveOf(s, t, act).effect);
    UdpFrame(s.udp, t, MoveOf(s, t, act).effect);
    assert Accounted(s, sid, k);
  }

  lemma AccountedByListener(s: State, sid: nat, k: nat)
    requires AllAccounted(s) && Enabled(s, ListenReceived) && sid < |s.udp.sessions|
    requires k < |s.udp.sessions[sid].received|
    ensures Accounted(Apply(s, ListenReceived), sid, k)
  {
    var s' := Apply(s, ListenReceived);
    assert Accounted(s, sid, k);
    if InOrigin(s.origin, sid, k) {
      InOriginGrows(s.origin, s'.origin, sid, k);
    } else if s.udp.inbox[0] == (sid, k) {
      assert s'.origin[|s.origin|] == FromSession(sid, k);
    } else if (sid, k) in s.udp.inbox {
      assert (sid, k) in s.udp.inbox[1..];
    }
  }

  lemma AccountedByOther(s: State, step: Step, sid: nat, k: nat)
    requires HandsNewest(s.udp.sessions) && AllAccounted(s) && Enabled(s, step)
    requires !step.OfTask? && !step.ListenReceived? && s.gate.listening && Apply(s, step).gate.listening
    requires sid < |Apply(s, step).udp.sessions| && k < |Apply(s, step).udp.sessions[sid].received|
    ensures Accounted(Apply(s, step), sid, k)
  {
    TasksFrame(s, step);
    if sid < |s.udp.sessions| && k < |s.udp.sessions[sid].received| {
      assert Accounted(s, sid, k);
      if InOrigin(s.origin, sid, k) {
        InOriginGrows(s.origin, Apply(s, step).origin, sid, k);
      }
    }
  }

  /** As long as the connection is up, no packet that a session received is dropped between socket and reply task. */
  lemma {:induction false} ReceivedPacketsAccounted(run: seq<State>, i: nat)
    requires IsRun(run) && i < |run|
    ensures HandsNewest(run[i].udp.sessions) && AllAccounted(run[i])
  {
    if i > 0 {
      ReceivedPacketsAccounted(run, i - 1);
      AccountedStep(run[i - 1], StepAt(run, i - 1));
    }
  }
}
