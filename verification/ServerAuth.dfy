/**
 The authentication gate and the mode latch, over whole runs: nothing happens before a valid
 Authenticate has arrived, the latch never changes, and no waiter at the gate is forgotten.
 */
module ServerAuth {
  import opened Codec
  import opened Server
  import opened ServerFrame

  // ---------------------------------------------------------------- authentication safety

  /** A unidirectional stream of the peer that carries an Authenticate with a known digest. */
  predicate ValidAuth(tokens: set<Digest>, o: Origin) {
    && o.FromPeer? && o.chan == Uni
    && Decode(o.bytes).Ok? && Decode(o.bytes).value.Authenticate? && Decode(o.bytes).value.digest in tokens
  }

  /** One has arrived on this connection. */
  ghost predicate HasAuth(tokens: set<Digest>, origin: seq<Origin>) {
    exists t :: 0 <= t < |origin| && ValidAuth(tokens, origin[t])
  }

  predicate PastGate(task: Task) {
    || task.Dispatch? || task.Lookup? || task.Create? || task.Created? || task.Cloned? || task.Sending?
    || task.Resolving? || task.Trying? || task.Answered? || task.Replying?
  }

  predicate PastLatch(task: Task) {
    task.Lookup? || task.Create? || task.Created? || task.Cloned? || task.Sending? || task.Replying?
  }

  predicate TasksPast(tasks: seq<Task>, authed: bool, latched: bool) {
    forall t | 0 <= t < |tasks| :: (PastGate(tasks[t]) ==> authed) && (PastLatch(tasks[t]) ==> latched)
  }

  ghost predicate AuthInv(s: State) {
    && (s.gate.authed ==> HasAuth(s.gate.tokens, s.origin))
    && (s.udp.latch.Some? ==> s.gate.authed)
    && (s.udp.sessions != [] ==> s.udp.latch.Some?)
    && TasksPast(s.tasks, s.gate.authed, s.udp.latch.Some?)
  }

  /** Effects that reach beyond the gate. */
  predicate Touches(effect: Effect) {
    || effect.SetLatch? || effect.Remove? || effect.AddSender? || effect.NewSession? || effect.Install?
    || effect.Push? || effect.Write? || effect.Emit?
  }

  lemma MovePast(s: State, t: nat, act: TaskAction)
    requires AuthInv(s) && TaskEnabled(s, t, act)
    ensures var move := MoveOf(s, t, act);
            && (PastGate(move.task) || Touches(move.effect) ==> s.gate.authed)
            && (move.effect.NewSession? ==> s.udp.latch.Some?)
            && (PastLatch(move.task) ==> s.udp.latch.Some? || move.effect.SetLatch?)
            && (move.effect.Authenticated? ==> ValidAuth(s.gate.tokens, s.origin[t]))
  {
    assert PastGate(s.tasks[t]) ==> s.gate.authed;
    assert PastLatch(s.tasks[t]) ==> s.udp.latch.Some?;
  }

  lemma TasksPastKept(tasks: seq<Task>, tasks': seq<Task>, t: int, authed: bool, latched: bool)
    requires TasksPast(tasks, authed, latched) && |tasks'| == |tasks|
    requires forall u | 0 <= u < |tasks| && u != t :: Same(tasks[u], tasks'[u])
    requires 0 <= t < |tasks| ==> (PastGate(tasks'[t]) ==> authed) && (PastLatch(tasks'[t]) ==> latched)
    ensures TasksPast(tasks', authed, latched)
  {
    forall u | 0 <= u < |tasks'| && u != t
      ensures (PastGate(tasks'[u]) ==> authed) && (PastLatch(tasks'[u]) ==> latched)
    {
      assert Same(tasks[u], tasks'[u]);
    }
  }

  lemma TaskStepAuth(s: State, t: nat, act: TaskAction)
    requires AuthInv(s) && TaskEnabled(s, t, act)
    ensures AuthInv(Apply(s, OfTask(t, act)))
  {
    var move := MoveOf(s, t, act);
    var s' := Moved(s, t, move);
    MovePast(s, t, act);
    MovedFrame(s, t, move);
    UdpFrame(s.udp, t, move.effect);
    assert TasksPast(s.tasks, s'.gate.authed, s'.udp.latch.Some?);
    TasksPastKept(s.tasks, s'.tasks, t, s'.gate.authed, s'.udp.latch.Some?);
  }

  lemma OtherStepAuth(s: State, step: Step)
    requires Shape(s) && AuthInv(s) && Enabled(s, step) && !step.OfTask?
    ensures AuthInv(Apply(s, step))
  {
    var s' := Apply(s, step);
    TasksFrame(s, step);
    if step.WakeTimer? {
      TasksPastKept(s.tasks, s'.tasks, -1, s'.gate.authed, s'.udp.latch.Some?);
    }
    if s.gate.authed {
      var t :| 0 <= t < |s.origin| && ValidAuth(s.gate.tokens, s.origin[t]);
      assert s'.origin[t] == s.origin[t];
    }
  }

  lemma {:induction false} AuthAlways(run: seq<State>, i: nat)
    requires IsRun(run) && i < |run|
    ensures Shape(run[i]) && AuthInv(run[i])
  {
    ShapeAlways(run, i);
    if i > 0 {
      AuthAlways(run, i - 1);
      var s, step := run[i - 1], StepAt(run, i - 1);
      if step.OfTask? {
        TaskStepAuth(s, step.t, step.act);
      } else {
        OtherStepAuth(s, step);
      }
    }
  }

  /** What a task shows to the outside world through TCP and DNS. */
  function TcpPart(task: Task): Task {
    if task.Resolving? || task.Trying? || task.Answered? then task else Done
  }

  /** The step changed the latch, a session, the session map, what was sent to anyone, or a TCP attempt. */
  ghost predicate ActsForClient(s: State, s': State) {
    || s'.udp.latch != s.udp.latch || s'.udp.table != s.udp.table || s'.udp.sessions != s.udp.sessions
    || s'.outbox != s.outbox
    || (exists t :: 0 <= t < |s.tasks| && t < |s'.tasks| && TcpPart(s'.tasks[t]) != TcpPart(s.tasks[t]))
    || (exists t :: 0 <= t < |s.biOut| && t < |s'.biOut| && s'.biOut[t] != s.biOut[t])
  }

  lemma TaskActsAfterAuth(s: State, t: nat, act: TaskAction)
    requires AuthInv(s) && TaskEnabled(s, t, act) && ActsForClient(s, Apply(s, OfTask(t, act)))
    ensures s.gate.authed
  {
    var move := MoveOf(s, t, act);
    MovePast(s, t, act);
    MovedFrame(s, t, move);
    assert PastGate(s.tasks[t]) ==> s.gate.authed;
  }

  /**
   Whatever order streams and datagrams arrive in and however their tasks interleave, the server acts
   for a client only after a stream with a valid Authenticate has arrived on the same connection.
   */
  lemma AuthenticationSafety(run: seq<State>, i: nat)
    requires IsRun(run) && i + 1 < |run|
    ensures ActsForClient(run[i], run[i + 1]) ==> HasAuth(run[i].gate.tokens, run[i].origin)
  {
    AuthAlways(run, i);
    var step := StepAt(run, i);
    if ActsForClient(run[i], run[i + 1]) {
      if step.OfTask? {
        TaskActsAfterAuth(run[i], step.t, step.act);
      } else {
        TasksFrame(run[i], step);
        assert forall t | 0 <= t < |run[i].tasks| :: Same(run[i].tasks[t], run[i + 1].tasks[t]);
      }
    }
  }

  // ---------------------------------------------------------------- the latch

  /** Once set, the latch holds the same mode to the end of the run. */
  lemma {:induction false} LatchNeverChanges(run: seq<State>, i: nat, j: nat)
    requires IsRun(run) && i <= j < |run| && run[i].udp.latch.Some?
    ensures run[j].udp.latch == run[i].udp.latch
    decreases j
  {
    if i < j {
      LatchNeverChanges(run, i, j - 1);
      NextFrame(run, j - 1);
    }
  }

  // ---------------------------------------------------------------- no lost wakeup

  predicate Parked(task: Task) {
    task.Gate? && !task.scheduled
  }

  /** The task has stored the flag and will drain the list. */
  predicate WillWake(task: Task) {
    task == Waking(false)
  }

  predicate Registered(s: State) {
    && (forall t | 0 <= t < |s.tasks| :: Parked(s.tasks[t]) ==> TaskWaiter(t) in s.gate.broadcast)
    && (s.gate.timer == Armed(false) ==> TimerWaiter in s.gate.broadcast)
  }

  ghost predicate SomeoneParked(s: State) {
    (exists t :: 0 <= t < |s.tasks| && Parked(s.tasks[t])) || s.gate.timer == Armed(false)
  }

  ghost predicate WakeToCome(s: State) {
    exists t :: 0 <= t < |s.tasks| && WillWake(s.tasks[t])
  }

  /** A waiter that is not runnable is in the list, and if the flag is set its wake is still to come. */
  ghost predicate NoLostWakeup(s: State) {
    Registered(s) && (s.gate.authed && SomeoneParked(s) ==> WakeToCome(s))
  }

  lemma RegisteredAfterMove(s: State, t: nat, move: Move)
    requires Registered(s) && t < |s.tasks| && (Parked(move.task) ==> move.effect.Await?)
    ensures Registered(Moved(s, t, move))
  {
    MovedFrame(s, t, move);
    var s' := Moved(s, t, move);
    forall u | 0 <= u < |s'.tasks| && Parked(s'.tasks[u])
      ensures TaskWaiter(u) in s'.gate.broadcast
    {
      assert u != t ==> Parked(s.tasks[u]);
    }
  }

  /** What the acting task does to the question who is parked. */
  lemma MoveWakes(s: State, t: nat, act: TaskAction)
    requires TaskEnabled(s, t, act)
    ensures var move := MoveOf(s, t, act);
            && (Parked(move.task) ==> move.effect.Await? && !s.gate.authed)
            && (WillWake(s.tasks[t]) ==> move.effect.WakeList?)
            && (move.effect.Authenticated? ==> WillWake(move.task))
  {
  }

  lemma WakeupAfterMove(s: State, t: nat, act: TaskAction)
    requires NoLostWakeup(s) && TaskEnabled(s, t, act)
    ensures NoLostWakeup(Apply(s, OfTask(t, act)))
  {
    var move := MoveOf(s, t, act);
    var s' := Moved(s, t, move);
    MovedFrame(s, t, move);
    MoveWakes(s, t, act);
    RegisteredAfterMove(s, t, move);
    if s'.gate.authed && SomeoneParked(s') {
      if move.effect.Authenticated? {
        assert WillWake(s'.tasks[t]);
      } else {
        assert SomeoneParked(s) by {
          if u :| 0 <= u < |s'.tasks| && Parked(s'.tasks[u]) {
            assert Same(if u == t then move.task else s.tasks[u], s'.tasks[u]);
            assert u != t && Parked(s.tasks[u]);
          }
        }
        var w :| 0 <= w < |s.tasks| && WillWake(s.tasks[w]);
        assert w != t || move.effect.WakeList?;
        if !move.effect.WakeList? {
          assert s'.tasks[w] == s.tasks[w];
        }
      }
    }
  }

  lemma WakeupStep(s: State, step: Step)
    requires NoLostWakeup(s) && Enabled(s, step)
    ensures NoLostWakeup(Apply(s, step))
  {
    if step.OfTask? {
      WakeupAfterMove(s, step.t, step.act);
    } else {
      WakeupOther(s, step);
    }
  }

  lemma WakeupOther(s: State, step: Step)
    requires NoLostWakeup(s) && Enabled(s, step) && !step.OfTask?
    ensures NoLostWakeup(Apply(s, step))
  {
    var s' := Apply(s, step);
    TasksFrame(s, step);
    if s'.gate.authed && SomeoneParked(s') {
      assert SomeoneParked(s) by {
        if u :| 0 <= u < |s'.tasks| && Parked(s'.tasks[u]) {
          assert u < |s.tasks| && Parked(s.tasks[u]);
        }
      }
      var w :| 0 <= w < |s.tasks| && WillWake(s.tasks[w]);
      assert s'.tasks[w] == s.tasks[w];
    }
  }

  /** In every state of every run, with setting the flag and waking as two separate steps. */
  lemma {:induction false} NoLostWakeupAlways(run: seq<State>, i: nat)
    requires IsRun(run) && i < |run|
    ensures NoLostWakeup(run[i])
  {
    if i > 0 {
      NoLostWakeupAlways(run, i - 1);
      WakeupStep(run[i - 1], StepAt(run, i - 1));
    }
  }

  /** The wake that is to come reaches every waiter. */
  lemma WakeReachesEveryone(run: seq<State>, i: nat, t: nat)
    requires IsRun(run) && i < |run| && TaskEnabled(run[i], t, Wake)
    ensures !SomeoneParked(Apply(run[i], OfTask(t, Wake)))
  {
    NoLostWakeupAlways(run, i);
    var s, s' := run[i], Apply(run[i], OfTask(t, Wake));
    forall u | 0 <= u < |s'.tasks|
      ensures !Parked(s'.tasks[u])
    {
      assert u != t ==> Parked(s.tasks[u]) ==> TaskWaiter(u) in s.gate.broadcast;
    }
  }

  /** After set_closed every poll of the gate answers no, and the task closes the connection. */
  lemma ClosedGateRefuses(run: seq<State>, i: nat, j: nat, t: nat)
    requires IsRun(run) && i <= j < |run| && run[i].gate.closed && TaskEnabled(run[j], t, PollGate)
    ensures MoveOf(run[j], t, PollGate) == Move(Done, Close(AuthenticationTimeout))
  {
    ClosedStays(run, i, j);
  }

  lemma {:induction false} ClosedStays(run: seq<State>, i: nat, j: nat)
    requires IsRun(run) && i <= j < |run| && run[i].gate.closed
    ensures run[j].gate.closed
    decreases j
  {
    if i < j {
      ClosedStays(run, i, j - 1);
      NextFrame(run, j - 1);
    }
  }
}
