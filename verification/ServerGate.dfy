/**
 Progress on the server: which tasks can go on, what wakes a task that waits at the authentication
 gate, and when nothing ever will.
 */
module ServerGate {
  import opened Wire
  import opened Codec
  import opened Server
  import opened ServerFrame
  import opened ServerAuth
  import opened ServerTrace
  import opened ServerChains
  import opened ServerProgress

  // ---------------------------------------------------------------- the timer

  /** While the select runs the connection is not closed, and the timer is over only after authentication. */
  predicate TimerInv(g: Gatekeeper) {
    && (g.listening ==> !g.closed && (g.timer.Over? ==> g.authed))
    && (g.timer.Firing? ==> g.listening)
  }

  lemma {:induction false} TimerAlways(run: seq<State>, i: nat)
    requires IsRun(run) && i < |run|
    ensures TimerInv(run[i].gate)
  {
    if i > 0 {
      TimerAlways(run, i - 1);
      var step := StepAt(run, i - 1);
      if step.OfTask? {
        MovedFrame(run[i - 1], step.t, MoveOf(run[i - 1], step.t, step.act));
      }
    }
  }

  // ---------------------------------------------------------------- what can still wake a waiter

  /** A task that will drain the list: it is about to, or it has an Authenticate to read, valid or not. */
  predicate Wakes(task: Task, o: Origin) {
    || task.Waking?
    || (task.Fresh? && o.FromPeer? && o.chan == Uni && Decode(o.bytes).Ok? && Decode(o.bytes).value.Authenticate?)
  }

  ghost predicate SomeTaskWakes(s: State) {
    exists t :: 0 <= t < |s.tasks| && t < |s.origin| && Wakes(s.tasks[t], s.origin[t])
  }

  ghost predicate WakePossible(s: State) {
    s.gate.listening || s.gate.timer.Firing? || SomeTaskWakes(s)
  }

  /** The step that a task takes next, given that the outside world lets it. */
  function NextAction(task: Task): TaskAction {
    match task
    case Fresh => ReadHeader
    case Waking(_) => Wake
    case Gate(_, _, _) => PollGate
    case Dispatch(_, _) => DispatchCommand
    case Lookup(_, _) => LookUp
    case Create(_, _) => Bind(true)
    case Created(_, _, _) => CloneSender
    case Cloned(_, _, _) => Insert
    case Sending(_, _) => Enqueue
    case Resolving(addr) => Resolve(if addr.SocketAddress? then Some([addr.sock]) else None)
    case Trying(_, addrs, tried) => if Connected(tried) || |tried| == |addrs| then Answer(3) else TryConnect(true)
    case Answered(_, _, _, _) => EndTunnel
    case Replying(_, _) => SendReply(true)
    case Done => ReadHeader
    case Crashed => ReadHeader
  }

  /** A task that takes its next step when it runs: a waiter at the gate runs only after it was woken. */
  predicate Runnable(s: State, t: nat)
    requires t < |s.tasks|
  {
    !Parked(s.tasks[t]) && TaskEnabled(s, t, NextAction(s.tasks[t]))
  }

  /**
   A task that has not ended can take its next step, or waits for room in the channel of a session
   that can itself take or send a packet, or is parked at the gate. A parked task is in the list, and
   if it can be woken at all its wake is to come: from a task, or from the timer.
   */
  lemma NoTaskStuck(run: seq<State>, i: nat, t: nat)
    requires IsRun(run) && i < |run| && t < |run[i].tasks| && !Ended(run[i].tasks[t])
    ensures !Parked(run[i].tasks[t]) ==>
              || Runnable(run[i], t)
              || (&& run[i].tasks[t].Sending? && run[i].tasks[t].sid < |run[i].udp.sessions|
                  && var x := run[i].udp.sessions[run[i].tasks[t].sid];
                     SessionEnabled(x, TakePacket) || SessionEnabled(x, SendPacket(true)))
    ensures Parked(run[i].tasks[t]) ==> TaskWaiter(t) in run[i].gate.broadcast
    ensures Parked(run[i].tasks[t]) && WakePossible(run[i]) ==>
              SomeTaskWakes(run[i]) || Enabled(run[i], FireTimer) || Enabled(run[i], WakeTimer)
  {
    TraceAlways(run, i);
    TryingBounded(run, i, t);
    if Parked(run[i].tasks[t]) {
      ParkedIsWoken(run, i, t);
    } else {
      assert TaskFrom(run[i].udp.sessions, run[i].origin[t], run[i].tasks[t]);
      assert TaskShape(run[i].udp.sessions, run[i].tasks[t]);
      GoesOn(run[i], t);
      if run[i].tasks[t].Sending? {
        SendGoesOn(run[i], t);
      }
    }
  }

  lemma GoesOn(s: State, t: nat)
    requires t < |s.tasks| && |s.origin| == |s.biOut| == |s.tasks| && !Ended(s.tasks[t]) && !Parked(s.tasks[t])
    requires s.tasks[t].Fresh? || s.tasks[t].Dispatch? ==> s.origin[t].FromPeer?
    requires TaskShape(s.udp.sessions, s.tasks[t])
    requires s.tasks[t].Trying? ==> |s.tasks[t].tried| <= |s.tasks[t].addrs|
    ensures !s.tasks[t].Sending? ==> Runnable(s, t)
  {
  }

  lemma SendGoesOn(s: State, t: nat)
    requires t < |s.tasks| && |s.origin| == |s.biOut| == |s.tasks| && s.tasks[t].Sending?
    requires s.tasks[t].sid < |s.udp.sessions|
    ensures var x := s.udp.sessions[s.tasks[t].sid];
            Runnable(s, t) || SessionEnabled(x, TakePacket) || SessionEnabled(x, SendPacket(true))
  {
  }

  lemma ParkedIsWoken(run: seq<State>, i: nat, t: nat)
    requires IsRun(run) && i < |run| && t < |run[i].tasks| && Parked(run[i].tasks[t])
    ensures TaskWaiter(t) in run[i].gate.broadcast
    ensures WakePossible(run[i]) ==> SomeTaskWakes(run[i]) || Enabled(run[i], FireTimer) || Enabled(run[i], WakeTimer)
  {
    ShapeAlways(run, i);
    TimerAlways(run, i);
    NoLostWakeupAlways(run, i);
    var s := run[i];
    if s.gate.authed {
      var w :| 0 <= w < |s.tasks| && WillWake(s.tasks[w]);
      assert Wakes(s.tasks[w], s.origin[w]);
    }
  }

  lemma {:induction false} TryingBounded(run: seq<State>, i: nat, t: nat)
    requires IsRun(run) && i < |run| && t < |run[i].tasks|
    ensures run[i].tasks[t].Trying? ==> |run[i].tasks[t].tried| <= |run[i].tasks[t].addrs|
  {
    if i > 0 {
      var s, step := run[i - 1], StepAt(run, i - 1);
      TasksFrame(s, step);
      if t < |s.tasks| {
        TryingBounded(run, i - 1, t);
        if step.OfTask? && step.t == t {
          MovedFrame(s, t, MoveOf(s, t, step.act));
        }
      } else {
        SpawnedFresh(s, step, t);
      }
    }
  }

  // ---------------------------------------------------------------- exactly when a waiter can be woken

  /** The poll of a waiter that nobody has woken. */
  predicate Spurious(s: State, step: Step) {
    step.OfTask? && step.act.PollGate? && step.t < |s.tasks| && Parked(s.tasks[step.t])
  }

  ghost predicate WokenNext(s: State, s': State) {
    exists step: Step :: Enabled(s, step) && !Spurious(s, step) && s' == Apply(s, step)
  }

  ghost predicate WokenNextAt(run: seq<State>, i: nat)
    requires i + 1 < |run|
  {
    WokenNext(run[i], run[i + 1])
  }

  /** Consecutive states in which tasks run only when they have been woken. */
  ghost predicate WokenChain(run: seq<State>) {
    |run| > 0 && forall i: nat | i + 1 < |run| :: WokenNextAt(run, i)
  }

  /** Some continuation without spurious polls makes the task runnable. */
  ghost predicate CanBeWoken(s: State, t: nat) {
    exists run: seq<State> :: WokenChain(run) && run[0] == s && t < |Last(run).tasks| && !Parked(Last(run).tasks[t])
  }

  lemma WokenTurn(run: seq<State>, step: Step) returns (run': seq<State>)
    requires WokenChain(run) && Enabled(Last(run), step) && !Spurious(Last(run), step)
    ensures WokenChain(run') && run'[0] == run[0] && Last(run') == Apply(Last(run), step)
  {
    assert WokenNext(Last(run), Apply(Last(run), step));
    run' := run + [Apply(Last(run), step)];
    forall i: nat | i + 1 < |run'|
      ensures WokenNextAt(run', i)
    {
      if i + 1 < |run| {
        assert WokenNextAt(run, i);
      }
    }
  }

  /** A task that drains the list wakes a registered waiter, after reading its Authenticate if need be. */
  lemma TaskWakesWaiter(before: seq<State>, w: nat, t: nat) returns (run: seq<State>)
    requires WokenChain(before) && Sized(Last(before)) && w < |Last(before).tasks| && t < |Last(before).tasks|
    requires Wakes(Last(before).tasks[w], Last(before).origin[w])
    requires Parked(Last(before).tasks[t]) && TaskWaiter(t) in Last(before).gate.broadcast
    ensures WokenChain(run) && run[0] == before[0] && t < |Last(run).tasks| && !Parked(Last(run).tasks[t])
  {
    run := before;
    if Last(run).tasks[w].Fresh? {
      run := WokenTurn(run, OfTask(w, ReadHeader));
    }
    run := WokenTurn(run, OfTask(w, Wake));
  }

  lemma PossibleMeansWoken(s: State, t: nat)
    requires Sized(s) && t < |s.tasks| && Parked(s.tasks[t]) && TaskWaiter(t) in s.gate.broadcast
    requires WakePossible(s)
    ensures CanBeWoken(s, t)
  {
    var run := [s];
    if SomeTaskWakes(s) {
      var w :| 0 <= w < |s.tasks| && w < |s.origin| && Wakes(s.tasks[w], s.origin[w]);
      run := TaskWakesWaiter(run, w, t);
    } else if s.gate.timer.Firing? {
      run := WokenTurn(run, WakeTimer);
    } else {
      var hello := Encode(Authenticate(ZERO_DIGEST));
      ShortRoundTrip(Authenticate(ZERO_DIGEST), []);
      assert hello + [] == hello;
      run := WokenTurn(run, Arrive(Uni, hello));
      run := TaskWakesWaiter(run, |s.tasks|, t);
    }
  }

  /** With nothing left to wake it, a waiter stays where it is, and nothing to wake it comes up. */
  lemma StrandedStep(s: State, step: Step, t: nat)
    requires Sized(s) && t < |s.tasks| && Parked(s.tasks[t]) && !WakePossible(s)
    requires Enabled(s, step) && !Spurious(s, step)
    ensures var s' := Apply(s, step);
            Sized(s') && t < |s'.tasks| && Parked(s'.tasks[t]) && !WakePossible(s')
  {
    var s' := Apply(s, step);
    TasksFrame(s, step);
    GateFrame(s, step);
    if step.OfTask? {
      StrandedMove(s, step.t, step.act);
    }
    forall u | 0 <= u < |s'.tasks| && u < |s'.origin|
      ensures !Wakes(s'.tasks[u], s'.origin[u])
    {
      assert !Wakes(s.tasks[u], s.origin[u]);
    }
  }

  lemma StrandedMove(s: State, t: nat, act: TaskAction)
    requires TaskEnabled(s, t, act) && !WakePossible(s)
    ensures var move := MoveOf(s, t, act);
            && !move.effect.WakeList? && !Wakes(move.task, s.origin[t])
            && Moved(s, t, move).tasks == s.tasks[t := move.task]
  {
    assert !Wakes(s.tasks[t], s.origin[t]);
  }

  lemma {:induction false} StrandedChain(run: seq<State>, i: nat, t: nat)
    requires WokenChain(run) && i < |run| && Sized(run[0])
    requires t < |run[0].tasks| && Parked(run[0].tasks[t]) && !WakePossible(run[0])
    ensures Sized(run[i]) && t < |run[i].tasks| && Parked(run[i].tasks[t]) && !WakePossible(run[i])
  {
    if i > 0 {
      StrandedChain(run, i - 1, t);
      assert WokenNextAt(run, i - 1);
      var step :| Enabled(run[i - 1], step) && !Spurious(run[i - 1], step) && run[i] == Apply(run[i - 1], step);
      StrandedStep(run[i - 1], step, t);
    }
  }

  /**
   A waiter at the gate can still be woken if and only if the select is running, the timer is about to
   drain the list, or a task is about to or has an Authenticate to read. Otherwise it never runs again.
   */
  lemma CanBeWokenIff(run: seq<State>, i: nat, t: nat)
    requires IsRun(run) && i < |run| && t < |run[i].tasks| && Parked(run[i].tasks[t])
    ensures CanBeWoken(run[i], t) <==> WakePossible(run[i])
  {
    ShapeAlways(run, i);
    NoLostWakeupAlways(run, i);
    if WakePossible(run[i]) {
      PossibleMeansWoken(run[i], t);
    } else if CanBeWoken(run[i], t) {
      var cont: seq<State> :|
        WokenChain(cont) && cont[0] == run[i] && t < |Last(cont).tasks| && !Parked(Last(cont).tasks[t]);
      StrandedChain(cont, |cont| - 1, t);
    }
  }

  /** No connection with sessions strands a waiter: it was authenticated, and the wake for that is to come. */
  lemma NobodyStrandedWithSessions(run: seq<State>, i: nat, t: nat)
    requires IsRun(run) && i < |run| && run[i].udp.sessions != [] && t < |run[i].tasks| && Parked(run[i].tasks[t])
    ensures SomeTaskWakes(run[i]) && CanBeWoken(run[i], t)
  {
    AuthAlways(run, i);
    NoLostWakeupAlways(run, i);
    var w :| 0 <= w < |run[i].tasks| && WillWake(run[i].tasks[w]);
    assert Wakes(run[i].tasks[w], run[i].origin[w]);
    CanBeWokenIff(run, i, t);
  }

  /** Such a waiter exists: the connection ends before authentication, and closing it wakes nobody. */
  lemma WaiterIsStranded(tokens: set<Digest>, maxPkt: nat) returns (run: seq<State>)
    ensures IsRun(run) && Last(run).gate.closed && |Last(run).tasks| == 1
    ensures Parked(Last(run).tasks[0]) && !CanBeWoken(Last(run), 0)
  {
    run := WaiterParks(tokens, maxPkt);
    run := Turn(run, EndSelect);
    run := Turn(run, SetClosed);
    assert !Wakes(Last(run).tasks[0], Last(run).origin[0]);
    CanBeWokenIff(run, |run| - 1, 0);
  }

  lemma WaiterParks(tokens: set<Digest>, maxPkt: nat) returns (run: seq<State>)
    ensures Chain(run) && Init(run[0]) && Sized(Last(run)) && |Last(run).tasks| == 1 && Parked(Last(run).tasks[0])
    ensures Last(run).gate.listening && Last(run).gate.timer == Armed(true) && !Last(run).gate.closed
  {
    ShortRoundTrip(Heartbeat, []);
    assert Encode(Heartbeat) + [] == Encode(Heartbeat);
    run := ArriveTurn([Start(tokens, maxPkt)], Uni, Encode(Heartbeat));
    run := TaskTurn(run, 0, ReadHeader);
    run := TaskTurn(run, 0, PollGate);
  }
}
