/** What a peer that follows the protocol meets: one relay mode, and no rejection unless its streams are cut. */
module ServerConforming {
  import opened Wire
  import opened Codec
  import opened Server
  import opened ServerFrame
  import opened ServerTrace

  // ---------------------------------------------------------------- one relay mode

  /** A Packet of the given relay mode, or no Packet. */
  predicate InMode(source: UdpPacketSource, o: Origin) {
    o.FromPeer? && Decode(o.bytes).Ok? && Decode(o.bytes).value.Packet? ==>
      match o.chan
      case Uni => source == UniStream
      case Dgram => source == Datagram
      case Bi => true
  }

  predicate AllInMode(source: UdpPacketSource, origin: seq<Origin>) {
    forall t | 0 <= t < |origin| :: InMode(source, origin[t])
  }

  predicate LatchIn(latch: Option<UdpPacketSource>, source: UdpPacketSource) {
    latch.Some? ==> latch == Some(source)
  }

  lemma MoveInMode(s: State, source: UdpPacketSource, t: nat, act: TaskAction)
    requires TaskEnabled(s, t, act) && TaskFrom(s.udp.sessions, s.origin[t], s.tasks[t]) && InMode(source, s.origin[t])
    ensures var e := MoveOf(s, t, act).effect; e.SetLatch? ==> e.source == source
  {
  }

  lemma LatchMoved(u: Udp, source: UdpPacketSource, t: nat, effect: Effect)
    requires LatchIn(u.latch, source) && (effect.SetLatch? ==> effect.source == source)
    ensures LatchIn(UdpAfter(u, t, effect).latch, source)
  {
  }

  lemma LatchStep(s: State, source: UdpPacketSource, step: Step)
    requires Enabled(s, step) && LatchIn(s.udp.latch, source)
    requires step.OfTask? ==> var e := MoveOf(s, step.t, step.act).effect; e.SetLatch? ==> e.source == source
    ensures LatchIn(Apply(s, step).udp.latch, source)
  {
    if step.OfTask? {
      MovedFrame(s, step.t, MoveOf(s, step.t, step.act));
      LatchMoved(s.udp, source, step.t, MoveOf(s, step.t, step.act).effect);
    }
  }

  lemma LatchNext(run: seq<State>, i: nat, source: UdpPacketSource)
    requires IsRun(run) && i + 1 < |run| && AllInMode(source, run[i].origin) && LatchIn(run[i].udp.latch, source)
    ensures LatchIn(run[i + 1].udp.latch, source)
  {
    var s, step := run[i], StepAt(run, i);
    TraceAlways(run, i);
    if step.OfTask? {
      assert InMode(source, s.origin[step.t]) && TaskFrom(s.udp.sessions, s.origin[step.t], s.tasks[step.t]);
      MoveInMode(s, source, step.t, step.act);
    }
    LatchStep(s, source, step);
  }

  lemma InModeBefore(run: seq<State>, i: nat, source: UdpPacketSource)
    requires IsRun(run) && i + 1 < |run| && AllInMode(source, run[i + 1].origin)
    ensures AllInMode(source, run[i].origin)
  {
    NextFrame(run, i);
    assert forall t | 0 <= t < |run[i].origin| :: run[i].origin[t] == run[i + 1].origin[t];
  }

  /** If all Packets that arrived are of one relay mode, the latch holds that mode or nothing. */
  lemma {:induction false} LatchKeepsMode(run: seq<State>, i: nat, source: UdpPacketSource)
    requires IsRun(run) && i < |run| && AllInMode(source, run[i].origin)
    ensures LatchIn(run[i].udp.latch, source)
  {
    if i > 0 {
      InModeBefore(run, i - 1, source);
      LatchKeepsMode(run, i - 1, source);
      LatchNext(run, i - 1, source);
    }
  }

  /** Every reply to such a peer travels on the channel of its mode. */
  lemma PeerIsAnsweredInKind(run: seq<State>, i: nat, source: UdpPacketSource, n: nat)
    requires IsRun(run) && i < |run| && AllInMode(source, run[i].origin) && n < |run[i].outbox|
    ensures run[i].outbox[n].source == source
  {
    LatchKeepsMode(run, i, source);
    ReplyProvenance(run, i, n);
  }

  // ---------------------------------------------------------------- rejection

  /**
   A message of which a client with a valid token and the given relay mode may have sent the command, if
   it can be read.
   */
  predicate Honest(tokens: set<Digest>, source: UdpPacketSource, o: Origin) {
    o.FromPeer? && Decode(o.bytes).Ok? ==>
      var cmd := Decode(o.bytes).value;
      match o.chan
      case Uni =>
        || (cmd.Authenticate? && cmd.digest in tokens) || cmd.Dissociate? || cmd.Heartbeat?
        || (cmd.Packet? && source == UniStream)
      case Bi => cmd.Connect?
      case Dgram => cmd.Packet? && source == Datagram
  }

  predicate AllHonest(tokens: set<Digest>, source: UdpPacketSource, origin: seq<Origin>) {
    forall t | 0 <= t < |origin| :: Honest(tokens, source, origin[t])
  }

  predicate OnlyTimeouts(errors: seq<DispatchError>) {
    forall i | 0 <= i < |errors| :: errors[i] == AuthenticationTimeout
  }

  predicate NoneFailing(tasks: seq<Task>) {
    forall t | 0 <= t < |tasks| :: tasks[t] != Waking(true)
  }

  /** A message in which no command can be read. */
  predicate Garbled(o: Origin) {
    o.FromPeer? && Decode(o.bytes).Err?
  }

  predicate GarbledReadBy(tasks: seq<Task>, origin: seq<Origin>, t: nat) {
    t < |tasks| && t < |origin| && !tasks[t].Fresh? && Garbled(origin[t])
  }

  ghost predicate GarbledRead(tasks: seq<Task>, origin: seq<Origin>) {
    exists t: nat :: GarbledReadBy(tasks, origin, t)
  }

  ghost predicate Welcome(s: State, source: UdpPacketSource) {
    && LatchIn(s.udp.latch, source) && NoneFailing(s.tasks)
    && (OnlyTimeouts(s.errors) <==> !GarbledRead(s.tasks, s.origin))
  }

  /**
   The move sets the latch to the mode, if at all, and reports an error other than a timeout only for a
   garbled message.
   */
  predicate MoveIsWelcome(task: Task, o: Origin, source: UdpPacketSource, move: Move) {
    && move.task != Waking(true) && !move.task.Fresh?
    && (move.effect.SetLatch? ==> move.effect.source == source)
    && (if task.Fresh? && Garbled(o) then ErrorsOf(move.effect) == [Io]
        else ErrorsOf(move.effect) in {[], [AuthenticationTimeout]})
  }

  lemma MoveWelcome(s: State, source: UdpPacketSource, t: nat, act: TaskAction)
    requires TaskEnabled(s, t, act) && TaskFrom(s.udp.sessions, s.origin[t], s.tasks[t])
    requires LatchIn(s.udp.latch, source) && s.tasks[t] != Waking(true) && Honest(s.gate.tokens, source, s.origin[t])
    ensures MoveIsWelcome(s.tasks[t], s.origin[t], source, MoveOf(s, t, act))
  {
  }

  /** Which messages have been read changes only by what the acting task reads. */
  lemma GarbledReadAfter(tasks: seq<Task>, tasks': seq<Task>, origin: seq<Origin>, t: nat)
    requires t < |tasks| && |tasks'| == |tasks| == |origin| && !tasks'[t].Fresh?
    requires forall u | 0 <= u < |tasks| && u != t :: Same(tasks[u], tasks'[u])
    ensures GarbledRead(tasks', origin) <==> GarbledRead(tasks, origin) || (tasks[t].Fresh? && Garbled(origin[t]))
  {
    if u: nat :| GarbledReadBy(tasks, origin, u) {
      assert GarbledReadBy(tasks', origin, u);
    }
    if u: nat :| GarbledReadBy(tasks', origin, u) {
      assert u != t ==> GarbledReadBy(tasks, origin, u);
      assert u == t && !tasks[t].Fresh? ==> GarbledReadBy(tasks, origin, t);
    }
    assert Garbled(origin[t]) ==> GarbledReadBy(tasks', origin, t);
  }

  lemma TaskStepWelcome(s: State, source: UdpPacketSource, t: nat, act: TaskAction)
    requires |s.origin| == |s.tasks| && TaskEnabled(s, t, act) && TaskFrom(s.udp.sessions, s.origin[t], s.tasks[t])
    requires Welcome(s, source) && Honest(s.gate.tokens, source, s.origin[t])
    ensures Welcome(Apply(s, OfTask(t, act)), source)
  {
    MoveWelcome(s, source, t, act);
    MovedWelcome(s, source, t, MoveOf(s, t, act));
  }

  lemma MovedWelcome(s: State, source: UdpPacketSource, t: nat, move: Move)
    requires Welcome(s, source) && t < |s.tasks| && |s.origin| == |s.tasks|
    requires MoveIsWelcome(s.tasks[t], s.origin[t], source, move)
    ensures Welcome(Moved(s, t, move), source)
  {
    MovedFrame(s, t, move);
    LatchMoved(s.udp, source, t, move.effect);
    WelcomeAfter(s, Moved(s, t, move), source, t, ErrorsOf(move.effect));
  }

  lemma WelcomeAfter(s: State, s': State, source: UdpPacketSource, t: nat, errors: seq<DispatchError>)
    requires Welcome(s, source) && t < |s.tasks| && |s'.tasks| == |s.tasks| == |s.origin| && s'.origin == s.origin
    requires forall u | 0 <= u < |s.tasks| && u != t :: Same(s.tasks[u], s'.tasks[u])
    requires s'.tasks[t] != Waking(true) && !s'.tasks[t].Fresh? && LatchIn(s'.udp.latch, source)
    requires s'.errors == s.errors + errors
    requires if s.tasks[t].Fresh? && Garbled(s.origin[t]) then errors == [Io]
             else errors in {[], [AuthenticationTimeout]}
    ensures Welcome(s', source)
  {
    GarbledReadAfter(s.tasks, s'.tasks, s.origin, t);
    OnlyTimeoutsAppend(s.errors, errors);
    assert errors == [Io] ==> errors[0] == Io;
  }

  lemma OnlyTimeoutsAppend(a: seq<DispatchError>, b: seq<DispatchError>)
    ensures OnlyTimeouts(a + b) <==> OnlyTimeouts(a) && OnlyTimeouts(b)
  {
    assert OnlyTimeouts(a + b) ==> forall i | 0 <= i < |a| :: (a + b)[i] == a[i] == AuthenticationTimeout;
    assert OnlyTimeouts(a + b) ==> forall i | 0 <= i < |b| :: (a + b)[|a| + i] == b[i] == AuthenticationTimeout;
  }

  lemma OtherStepWelcome(s: State, source: UdpPacketSource, step: Step)
    requires |s.origin| == |s.tasks| && Enabled(s, step) && Welcome(s, source) && !step.OfTask?
    ensures Welcome(Apply(s, step), source)
  {
    var s' := Apply(s, step);
    TasksFrame(s, step);
    OnlyTimeoutsAppend(s.errors, if step.FireTimer? then [AuthenticationTimeout] else []);
    assert s'.errors == s.errors + if step.FireTimer? then [AuthenticationTimeout] else [];
    if u: nat :| GarbledReadBy(s.tasks, s.origin, u) {
      assert GarbledReadBy(s'.tasks, s'.origin, u);
    }
    if u: nat :| GarbledReadBy(s'.tasks, s'.origin, u) {
      assert u < |s.tasks| && GarbledReadBy(s.tasks, s.origin, u);
    }
  }

  lemma NextWelcome(run: seq<State>, i: nat, source: UdpPacketSource)
    requires IsRun(run) && i + 1 < |run| && Welcome(run[i], source)
    requires AllHonest(run[i].gate.tokens, source, run[i].origin)
    ensures Welcome(run[i + 1], source)
  {
    var s, step := run[i], StepAt(run, i);
    TraceAlways(run, i);
    if step.OfTask? {
      assert Honest(s.gate.tokens, source, s.origin[step.t]);
      assert TaskFrom(s.udp.sessions, s.origin[step.t], s.tasks[step.t]);
      TaskStepWelcome(s, source, step.t, step.act);
    } else {
      OtherStepWelcome(s, source, step);
    }
  }

  lemma HonestBefore(run: seq<State>, i: nat, source: UdpPacketSource)
    requires IsRun(run) && i + 1 < |run|
    requires AllHonest(run[i + 1].gate.tokens, source, run[i + 1].origin)
    ensures AllHonest(run[i].gate.tokens, source, run[i].origin)
  {
    NextFrame(run, i);
    assert forall t | 0 <= t < |run[i].origin| :: run[i].origin[t] == run[i + 1].origin[t];
  }

  lemma {:induction false} WelcomeAlways(run: seq<State>, i: nat, source: UdpPacketSource)
    requires IsRun(run) && i < |run| && AllHonest(run[i].gate.tokens, source, run[i].origin)
    ensures Welcome(run[i], source)
  {
    if i > 0 {
      HonestBefore(run, i - 1, source);
      WelcomeAlways(run, i - 1, source);
      NextWelcome(run, i - 1, source);
    }
  }

  /**
   If every command that can be read is one that a client with a valid token may send in one relay mode,
   then the connection has been closed for something other than an authentication timeout if and only
   if a task has read a message in which no command can be read.
   */
  lemma PeerIsRejectedIff(run: seq<State>, i: nat, source: UdpPacketSource)
    requires IsRun(run) && i < |run| && AllHonest(run[i].gate.tokens, source, run[i].origin)
    ensures !OnlyTimeouts(run[i].errors) <==> GarbledRead(run[i].tasks, run[i].origin)
  {
    WelcomeAlways(run, i, source);
  }
}
