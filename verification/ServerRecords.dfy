/**
 The records of a connection are what its steps say happened: what arrived, what sockets did, what was
 tried and relayed.
 */
module ServerRecords {
  import opened Wire
  import opened Codec
  import opened Relay
  import opened Server
  import opened ServerFrame
  import opened ServerConnect
  import opened ServerHistory

  // ---------------------------------------------------------------- what the peer sent

  function Messages(origin: seq<Origin>): seq<Origin> {
    if origin == [] then []
    else
      var o := origin[|origin| - 1];
      Messages(origin[..|origin| - 1]) + if o.FromPeer? then [o] else []
  }

  ghost function Arrivals(run: seq<State>, i: nat): seq<Origin>
    requires IsRun(run) && i < |run|
  {
    if i == 0 then []
    else
      var step := StepAt(run, i - 1);
      Arrivals(run, i - 1) + if step.Arrive? then [FromPeer(step.chan, step.bytes)] else []
  }

  lemma MessagesAppend(origin: seq<Origin>, o: Origin)
    ensures Messages(origin + [o]) == Messages(origin) + if o.FromPeer? then [o] else []
  {
    assert (origin + [o])[..|origin|] == origin;
  }

  lemma OriginStep(s: State, step: Step)
    requires Enabled(s, step)
    ensures var s' := Apply(s, step);
            match step
            case Arrive(chan, bytes) => s'.origin == s.origin + [FromPeer(chan, bytes)]
            case ListenReceived => s'.origin == s.origin + [FromSession(s.udp.inbox[0].0, s.udp.inbox[0].1)]
            case _ => s'.origin == s.origin
  {
    if step.OfTask? {
      MovedFrame(s, step.t, MoveOf(s, step.t, step.act));
    }
  }

  /** The messages that tasks were started for are those that arrived, in that order, none missing. */
  lemma {:induction false} EveryMessageHasItsTask(run: seq<State>, i: nat)
    requires IsRun(run) && i < |run|
    ensures Messages(run[i].origin) == Arrivals(run, i)
  {
    if i > 0 {
      EveryMessageHasItsTask(run, i - 1);
      var s, step := run[i - 1], StepAt(run, i - 1);
      OriginStep(s, step);
      match step
      case Arrive(chan, bytes) => MessagesAppend(s.origin, FromPeer(chan, bytes));
      case ListenReceived => MessagesAppend(s.origin, FromSession(s.udp.inbox[0].0, s.udp.inbox[0].1));
      case _ =>
    }
  }

  // ---------------------------------------------------------------- what the sockets did

  ghost function Receptions(run: seq<State>, i: nat, sid: nat): seq<UdpPacket>
    requires IsRun(run) && i < |run|
  {
    if i == 0 then []
    else
      var step := StepAt(run, i - 1);
      Receptions(run, i - 1, sid) +
      if step.OfSession? && step.sid == sid && step.event.SocketReceive? then [step.event.pkt] else []
  }

  predicate Breaks(step: Step, sid: nat) {
    step == OfSession(sid, SocketFail) || step == OfSession(sid, SendPacket(false))
  }

  ghost predicate BreaksAt(run: seq<State>, j: nat, sid: nat)
    requires IsRun(run) && j + 1 < |run|
  {
    Breaks(StepAt(run, j), sid)
  }

  /** The session's socket has reported an error. */
  ghost predicate Broken(run: seq<State>, i: nat, sid: nat)
    requires IsRun(run) && i < |run|
  {
    exists j: nat :: j < i && BreaksAt(run, j, sid)
  }

  lemma EffectKeeps(u: Udp, t: nat, e: Effect)
    ensures var ss := UdpAfter(u, t, e).sessions;
            && |u.sessions| <= |ss|
            && (forall a | 0 <= a < |u.sessions| ::
                  ss[a].received == u.sessions[a].received && ss[a].status == u.sessions[a].status)
            && (forall a | |u.sessions| <= a < |ss| :: ss[a].received == [] && ss[a].status == Server.Running)
  {
  }

  lemma SocketStep(s: State, step: Step, sid: nat)
    requires Enabled(s, step) && sid < |Apply(s, step).udp.sessions|
    ensures var y := Apply(s, step).udp.sessions[sid];
            if sid < |s.udp.sessions| then
              var x := s.udp.sessions[sid];
              && y.received == x.received +
                   (if step.OfSession? && step.sid == sid && step.event.SocketReceive? then [step.event.pkt] else [])
              && (y.status == Failed <==> x.status == Failed || Breaks(step, sid))
              && (Breaks(step, sid) ==> x.status == Server.Running)
            else y.received == [] && y.status == Server.Running
    ensures sid >= |s.udp.sessions| ==> !(step.OfSession? && step.sid == sid)
  {
    if step.OfTask? {
      MovedFrame(s, step.t, MoveOf(s, step.t, step.act));
      EffectKeeps(s.udp, step.t, MoveOf(s, step.t, step.act).effect);
    }
  }

  lemma {:induction false} NotBefore(run: seq<State>, i: nat, sid: nat)
    requires IsRun(run) && i < |run| && |run[i].udp.sessions| <= sid
    ensures Receptions(run, i, sid) == [] && !Broken(run, i, sid)
  {
    if i > 0 {
      NextFrame(run, i - 1);
      NotBefore(run, i - 1, sid);
      BrokenNext(run, i - 1, sid);
    }
  }

  lemma BrokenNext(run: seq<State>, i: nat, sid: nat)
    requires IsRun(run) && i + 1 < |run|
    ensures Broken(run, i + 1, sid) <==> Broken(run, i, sid) || Breaks(StepAt(run, i), sid)
  {
    assert BreaksAt(run, i, sid) <==> Breaks(StepAt(run, i), sid);
  }

  /**
   What a session has received is what its socket has delivered, in order, and it has failed if and only
   if its socket has reported an error.
   */
  lemma {:induction false} SessionFollowsItsSocket(run: seq<State>, i: nat, sid: nat)
    requires IsRun(run) && i < |run| && sid < |run[i].udp.sessions|
    ensures run[i].udp.sessions[sid].received == Receptions(run, i, sid)
    ensures run[i].udp.sessions[sid].status == Failed <==> Broken(run, i, sid)
  {
    if i > 0 {
      SocketStep(run[i - 1], StepAt(run, i - 1), sid);
      BrokenNext(run, i - 1, sid);
      if sid < |run[i - 1].udp.sessions| {
        SessionFollowsItsSocket(run, i - 1, sid);
      } else {
        NotBefore(run, i - 1, sid);
      }
    }
  }

  // ---------------------------------------------------------------- what a Connect did

  function AttemptOf(step: Step, t: nat): seq<bool> {
    if step.OfTask? && step.t == t && step.act.TryConnect? then [step.act.ok] else []
  }

  function DataOf(step: Step, t: nat): Bytes {
    if step.OfTask? && step.t == t && step.act.Tunnel? then step.act.data else []
  }

  ghost function Attempts(run: seq<State>, i: nat, t: nat): seq<bool>
    requires IsRun(run) && i < |run|
  {
    if i == 0 then []
    else
      var step := StepAt(run, i - 1);
      Attempts(run, i - 1, t) + AttemptOf(step, t)
  }

  /** The data that the target sent through the tunnel. */
  ghost function Tunnelled(run: seq<State>, i: nat, t: nat): Bytes
    requires IsRun(run) && i < |run|
  {
    if i == 0 then []
    else
      var step := StepAt(run, i - 1);
      Tunnelled(run, i - 1, t) + DataOf(step, t)
  }

  ghost predicate ResolvesAt(run: seq<State>, j: nat, t: nat, addrs: seq<SocketAddr>)
    requires IsRun(run) && j + 1 < |run|
  {
    StepAt(run, j) == OfTask(t, Resolve(Some(addrs)))
  }

  /** The name of the Connect was resolved to these addresses. */
  ghost predicate Resolved(run: seq<State>, i: nat, t: nat, addrs: seq<SocketAddr>)
    requires IsRun(run) && i < |run|
  {
    exists j: nat :: j < i && ResolvesAt(run, j, t, addrs)
  }

  /** As much of a Response as went out. */
  function ResponseOf(ok: bool, n: nat): Bytes {
    if n < 3 then Encode(Response(ok))[..n] else Encode(Response(ok))
  }

  /** What a step writes on the stream of task t, which is connected or not. */
  function WriteOf(step: Step, t: nat, ok: bool): Bytes {
    if !step.OfTask? || step.t != t then []
    else
      match step.act
      case Answer(n) => ResponseOf(ok, n)
      case Tunnel(data) => data
      case _ => []
  }

  ghost function Written(run: seq<State>, i: nat, t: nat): Bytes
    requires IsRun(run) && i < |run|
  {
    if i == 0 then []
    else
      var step := StepAt(run, i - 1);
      Written(run, i - 1, t) + WriteOf(step, t, true in Attempts(run, i - 1, t))
  }

  predicate Early(task: Task) {
    !task.Trying? && !task.Answered? && !task.Done?
  }

  /** A task and its stream against the attempts and the data of its steps. */
  predicate Matches(task: Task, out: Bytes, attempts: seq<bool>, data: Bytes) {
    && (Early(task) ==> attempts == [] && data == [])
    && (task.Trying? ==> task.tried == attempts && data == [] && out == [])
    && (task.Answered? ==> task.tried == attempts && out == Encode(Response(Connected(attempts))) + data)
  }

  /** How a step moves a task on, as far as its Connect goes. */
  ghost predicate Progresses(s: State, s': State, step: Step, t: nat)
    requires t < |s.tasks| && t < |s'.tasks| && t < |s.biOut| && t < |s'.biOut|
  {
    var (task, task') := (s.tasks[t], s'.tasks[t]);
    if !step.OfTask? || step.t != t then Same(task, task') && s'.biOut[t] == s.biOut[t]
    else
      match step.act
      case Resolve(found) =>
        && task.Resolving? && s'.biOut[t] == s.biOut[t]
        && task' == if found.Some? then Trying(task.addr, found.value, []) else Done
      case TryConnect(ok) =>
        task.Trying? && task' == Trying(task.addr, task.addrs, task.tried + [ok]) && s'.biOut[t] == s.biOut[t]
      case Answer(n) =>
        && task.Trying? && s'.biOut[t] == s.biOut[t] + ResponseOf(Connected(task.tried), n)
        && if n < 3 then task'.Done? else task'.Answered? && task'.addrs == task.addrs && task'.tried == task.tried
      case Tunnel(data) => task.Answered? && task' == task && s'.biOut[t] == s.biOut[t] + data
      case EndTunnel => task.Answered? && task' == task.(open := false) && s'.biOut[t] == s.biOut[t]
      case _ => Early(task) && !task'.Trying? && !task'.Answered? && s'.biOut[t] == s.biOut[t]
  }

  lemma ProgressesStep(s: State, step: Step, t: nat)
    requires Enabled(s, step) && |s.biOut| == |s.tasks| && t < |s.tasks|
    ensures t < |Apply(s, step).tasks| && t < |Apply(s, step).biOut| && Progresses(s, Apply(s, step), step, t)
  {
    TasksFrame(s, step);
    if step.OfTask? {
      MovedFrame(s, step.t, MoveOf(s, step.t, step.act));
    }
  }

  lemma MatchesStep(s: State, s': State, step: Step, t: nat, attempts: seq<bool>, data: Bytes)
    requires t < |s.tasks| && t < |s'.tasks| && t < |s.biOut| && t < |s'.biOut| && Progresses(s, s', step, t)
    requires Matches(s.tasks[t], s.biOut[t], attempts, data) && (s.tasks[t].Resolving? ==> s.biOut[t] == [])
    ensures Matches(s'.tasks[t], s'.biOut[t], attempts + AttemptOf(step, t), data + DataOf(step, t))
  {
    assert attempts + [] == attempts && data + [] == data;
    if step.OfTask? && step.t == t && step.act.Answer? {
      var response := Encode(Response(Connected(attempts)));
      assert [] + response == response == response + [];
    }
  }

  lemma {:induction false} MatchesAlways(run: seq<State>, i: nat, t: nat)
    requires IsRun(run) && i < |run| && t < |run[i].tasks|
    ensures t < |run[i].biOut| && Matches(run[i].tasks[t], run[i].biOut[t], Attempts(run, i, t), Tunnelled(run, i, t))
  {
    OutAlways(run, i);
    if i > 0 {
      var step := StepAt(run, i - 1);
      if t < |run[i - 1].tasks| {
        MatchesAlways(run, i - 1, t);
        OutAlways(run, i - 1);
        assert OutFrom(run[i - 1].tasks[t], run[i - 1].biOut[t]);
        ProgressesStep(run[i - 1], step, t);
        MatchesStep(run[i - 1], run[i], step, t, Attempts(run, i - 1, t), Tunnelled(run, i - 1, t));
      } else {
        SpawnedEarly(run[i - 1], step, t);
        NotYet(run, i - 1, t);
      }
    }
  }

  lemma ResolvedNext(run: seq<State>, i: nat, t: nat, addrs: seq<SocketAddr>)
    requires IsRun(run) && i + 1 < |run|
    requires Resolved(run, i, t, addrs) || StepAt(run, i) == OfTask(t, Resolve(Some(addrs)))
    ensures Resolved(run, i + 1, t, addrs)
  {
    assert ResolvesAt(run, i, t, addrs) <==> StepAt(run, i) == OfTask(t, Resolve(Some(addrs)));
  }

  /** Where the addresses come from. */
  lemma AddressesStep(s: State, s': State, step: Step, t: nat)
    requires t < |s.tasks| && t < |s'.tasks| && t < |s.biOut| && t < |s'.biOut| && Progresses(s, s', step, t)
    requires s'.tasks[t].Trying? || s'.tasks[t].Answered?
    ensures || step == OfTask(t, Resolve(Some(s'.tasks[t].addrs)))
            || ((s.tasks[t].Trying? || s.tasks[t].Answered?) && s'.tasks[t].addrs == s.tasks[t].addrs)
  {
  }

  lemma {:induction false} ResolvedAlways(run: seq<State>, i: nat, t: nat)
    requires IsRun(run) && i < |run| && t < |run[i].tasks| && (run[i].tasks[t].Trying? || run[i].tasks[t].Answered?)
    ensures Resolved(run, i, t, run[i].tasks[t].addrs)
  {
    if i > 0 {
      var step := StepAt(run, i - 1);
      ShapeAlways(run, i - 1);
      if t < |run[i - 1].tasks| {
        ProgressesStep(run[i - 1], step, t);
        AddressesStep(run[i - 1], run[i], step, t);
        if run[i - 1].tasks[t].Trying? || run[i - 1].tasks[t].Answered? {
          ResolvedAlways(run, i - 1, t);
        }
        ResolvedNext(run, i - 1, t, run[i].tasks[t].addrs);
      } else {
        SpawnedEarly(run[i - 1], step, t);
      }
    }
  }

  lemma NoStepYet(s: State, step: Step, t: nat, ok: bool)
    requires Enabled(s, step) && |s.tasks| <= t
    ensures AttemptOf(step, t) == [] && DataOf(step, t) == [] && WriteOf(step, t, ok) == []
  {
  }

  lemma {:induction false} NotYet(run: seq<State>, i: nat, t: nat)
    requires IsRun(run) && i < |run| && |run[i].tasks| <= t
    ensures Attempts(run, i, t) == [] && Tunnelled(run, i, t) == [] && Written(run, i, t) == []
  {
    if i > 0 {
      TasksOnlyGrow(run, i - 1, i);
      NotYet(run, i - 1, t);
      NoStepYet(run[i - 1], StepAt(run, i - 1), t, true in Attempts(run, i - 1, t));
    }
  }

  lemma SpawnedEarly(s: State, step: Step, t: nat)
    requires Enabled(s, step) && |s.tasks| <= t < |Apply(s, step).tasks|
    ensures Early(Apply(s, step).tasks[t]) && !(step.OfTask? && step.t == t)
    ensures |s.biOut| == |s.tasks| ==> t < |Apply(s, step).biOut| && Apply(s, step).biOut[t] == []
  {
    if step.OfTask? {
      MovedFrame(s, step.t, MoveOf(s, step.t, step.act));
    }
  }

  /**
   The answer on a stream against what was done: the addresses are all that the lookup found, they were
   tried in that order up to the first that could be connected to, the Response tells whether there was
   one, and what follows it is the target's data.
   */
  lemma AnswerFollowsAttempts(run: seq<State>, i: nat, t: nat)
    requires IsRun(run) && i < |run| && t < |run[i].tasks| && run[i].tasks[t].Answered?
    ensures t < |run[i].biOut|
    ensures var (addrs, attempts) := (run[i].tasks[t].addrs, Attempts(run, i, t));
            && Resolved(run, i, t, addrs) && |attempts| <= |addrs|
            && (forall a | 0 <= a < |attempts| - 1 :: !attempts[a])
            && (true in attempts || |attempts| == |addrs|)
            && run[i].biOut[t] == Encode(Response(true in attempts)) + Tunnelled(run, i, t)
  {
    MatchesAlways(run, i, t);
    ResolvedAlways(run, i, t);
    OutAlways(run, i);
    assert OutFrom(run[i].tasks[t], run[i].biOut[t]);
    SuccessIsLast(Attempts(run, i, t));
  }

  lemma WrittenStep(s: State, s': State, step: Step, t: nat, attempts: seq<bool>)
    requires t < |s.tasks| && t < |s'.tasks| && t < |s.biOut| && t < |s'.biOut| && Progresses(s, s', step, t)
    requires s.tasks[t].Trying? ==> (Connected(s.tasks[t].tried) <==> true in attempts)
    ensures s'.biOut[t] == s.biOut[t] + WriteOf(step, t, true in attempts)
  {
  }

  /** All that is on a stream of the peer, for every task: the Response, cut where it was, then the target's data. */
  lemma {:induction false} StreamIsWhatWasWritten(run: seq<State>, i: nat, t: nat)
    requires IsRun(run) && i < |run| && t < |run[i].tasks|
    ensures t < |run[i].biOut| && run[i].biOut[t] == Written(run, i, t)
  {
    if i > 0 {
      var s, step := run[i - 1], StepAt(run, i - 1);
      OutAlways(run, i - 1);
      if t < |s.tasks| {
        StreamIsWhatWasWritten(run, i - 1, t);
        MatchesAlways(run, i - 1, t);
        assert OutFrom(s.tasks[t], s.biOut[t]);
        if s.tasks[t].Trying? {
          SuccessIsLast(Attempts(run, i - 1, t));
        }
        ProgressesStep(s, step, t);
        WrittenStep(s, run[i], step, t, Attempts(run, i - 1, t));
      } else {
        SpawnedEarly(s, step, t);
        NotYet(run, i - 1, t);
      }
    }
  }

  lemma SuccessIsLast(attempts: seq<bool>)
    requires forall a | 0 <= a < |attempts| - 1 :: !attempts[a]
    ensures Connected(attempts) <==> true in attempts
  {
    if Connected(attempts) {
      assert attempts[|attempts| - 1];
    }
  }
}
