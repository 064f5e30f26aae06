/**
 Why the server closes a connection, for any peer: which messages and which steps lead to which error,
 and which message lets the client in.
 */
module ServerErrors {
  import opened Wire
  import opened Codec
  import opened Server
  import opened ServerFrame
  import opened ServerTrace

  // ---------------------------------------------------------------- messages that decide

  /** What matters about a message when its header is read. */
  datatype Feature = NoCommand | WrongToken | RightToken

  predicate Authenticates(o: Origin) {
    o.FromPeer? && o.chan == Uni && Decode(o.bytes).Ok? && Decode(o.bytes).value.Authenticate?
  }

  predicate Has(f: Feature, tokens: set<Digest>, o: Origin) {
    match f
    case NoCommand => o.FromPeer? && Decode(o.bytes).Err?
    case WrongToken => Authenticates(o) && Decode(o.bytes).value.digest !in tokens
    case RightToken => Authenticates(o) && Decode(o.bytes).value.digest in tokens
  }

  /** Task t has read its message, and the message has the feature. */
  predicate ReadBy(f: Feature, tokens: set<Digest>, tasks: seq<Task>, origin: seq<Origin>, t: nat) {
    t < |tasks| && t < |origin| && !tasks[t].Fresh? && Has(f, tokens, origin[t])
  }

  ghost predicate Read(f: Feature, s: State) {
    exists t: nat :: ReadBy(f, s.gate.tokens, s.tasks, s.origin, t)
  }

  predicate WakingFrom(tokens: set<Digest>, tasks: seq<Task>, origin: seq<Origin>) {
    forall t | 0 <= t < |tasks| && t < |origin| && tasks[t].Waking? ::
      Has(if tasks[t].failed then WrongToken else RightToken, tokens, origin[t])
  }

  /** The three things that reading a header can decide, in one state. */
  ghost predicate Decided(s: State) {
    && (Io in s.errors <==> Read(NoCommand, s))
    && (AuthenticationFailed in s.errors <==> Read(WrongToken, s))
    && (s.gate.authed <==> Read(RightToken, s))
    && WakingFrom(s.gate.tokens, s.tasks, s.origin)
  }

  /** What the acting task has read, if its step is to read. */
  predicate Reads(f: Feature, s: State, t: nat)
    requires t < |s.tasks|
  {
    t < |s.origin| && s.tasks[t].Fresh? && Has(f, s.gate.tokens, s.origin[t])
  }

  ghost predicate MoveDecides(s: State, t: nat, move: Move)
    requires t < |s.tasks| && t < |s.origin|
  {
    && !move.task.Fresh?
    && (Io in ErrorsOf(move.effect) <==> Reads(NoCommand, s, t))
    && (AuthenticationFailed in ErrorsOf(move.effect) <==> Reads(WrongToken, s, t) || s.tasks[t] == Waking(true))
    && (move.effect.Authenticated? <==> Reads(RightToken, s, t))
    && (move.task.Waking? ==> Has(if move.task.failed then WrongToken else RightToken, s.gate.tokens, s.origin[t]))
  }

  lemma MoveIsDecided(s: State, t: nat, act: TaskAction)
    requires TaskEnabled(s, t, act) && TaskFrom(s.udp.sessions, s.origin[t], s.tasks[t])
    ensures MoveDecides(s, t, MoveOf(s, t, act))
  {
  }

  lemma ReadAfter(f: Feature, s: State, s': State, t: nat)
    requires t < |s.tasks| && |s'.tasks| == |s.tasks| == |s.origin| && s'.origin == s.origin
    requires s'.gate.tokens == s.gate.tokens && !s'.tasks[t].Fresh?
    requires forall u | 0 <= u < |s.tasks| && u != t :: Same(s.tasks[u], s'.tasks[u])
    ensures Read(f, s') <==> Read(f, s) || Reads(f, s, t)
  {
    if u: nat :| ReadBy(f, s.gate.tokens, s.tasks, s.origin, u) {
      assert ReadBy(f, s'.gate.tokens, s'.tasks, s'.origin, u);
    }
    if u: nat :| ReadBy(f, s'.gate.tokens, s'.tasks, s'.origin, u) {
      assert u != t ==> ReadBy(f, s.gate.tokens, s.tasks, s.origin, u);
      assert u == t && !s.tasks[t].Fresh? ==> ReadBy(f, s.gate.tokens, s.tasks, s.origin, t);
    }
    assert Reads(f, s, t) ==> ReadBy(f, s'.gate.tokens, s'.tasks, s'.origin, t);
  }

  lemma DecidedAfter(s: State, s': State, t: nat, move: Move)
    requires Decided(s) && t < |s.tasks| && |s'.tasks| == |s.tasks| == |s.origin| && s'.origin == s.origin
    requires MoveDecides(s, t, move) && Same(move.task, s'.tasks[t])
    requires forall u | 0 <= u < |s.tasks| && u != t :: Same(s.tasks[u], s'.tasks[u])
    requires s'.gate.tokens == s.gate.tokens && s'.gate.authed == (s.gate.authed || move.effect.Authenticated?)
    requires s'.errors == s.errors + ErrorsOf(move.effect)
    ensures Decided(s')
  {
    ReadAfter(NoCommand, s, s', t);
    ReadAfter(WrongToken, s, s', t);
    ReadAfter(RightToken, s, s', t);
    if s.tasks[t] == Waking(true) {
      assert ReadBy(WrongToken, s.gate.tokens, s.tasks, s.origin, t);
    }
  }

  lemma DecidedByTask(s: State, t: nat, act: TaskAction)
    requires |s.origin| == |s.tasks| && TaskEnabled(s, t, act) && TaskFrom(s.udp.sessions, s.origin[t], s.tasks[t])
    requires Decided(s)
    ensures Decided(Apply(s, OfTask(t, act)))
  {
    MoveIsDecided(s, t, act);
    DecidedMove(s, t, MoveOf(s, t, act));
  }

  lemma DecidedMove(s: State, t: nat, move: Move)
    requires Decided(s) && t < |s.tasks| && |s.origin| == |s.tasks| && MoveDecides(s, t, move)
    ensures Decided(Moved(s, t, move))
  {
    MovedFrame(s, t, move);
    DecidedAfter(s, Moved(s, t, move), t, move);
  }

  lemma DecidedByOther(s: State, step: Step)
    requires |s.origin| == |s.tasks| && Enabled(s, step) && !step.OfTask? && Decided(s)
    ensures Decided(Apply(s, step))
  {
    var s' := Apply(s, step);
    TasksFrame(s, step);
    forall f: Feature
      ensures Read(f, s') <==> Read(f, s)
    {
      if u: nat :| ReadBy(f, s.gate.tokens, s.tasks, s.origin, u) {
        assert ReadBy(f, s'.gate.tokens, s'.tasks, s'.origin, u);
      }
      if u: nat :| ReadBy(f, s'.gate.tokens, s'.tasks, s'.origin, u) {
        assert u < |s.tasks| ==> ReadBy(f, s.gate.tokens, s.tasks, s.origin, u);
      }
    }
  }

  lemma {:induction false} DecidedAlways(run: seq<State>, i: nat)
    requires IsRun(run) && i < |run|
    ensures Decided(run[i])
  {
    if i > 0 {
      DecidedAlways(run, i - 1);
      FromAlways(run, i - 1);
      var s, step := run[i - 1], StepAt(run, i - 1);
      if step.OfTask? {
        assert TaskFrom(s.udp.sessions, s.origin[step.t], s.tasks[step.t]);
        DecidedByTask(s, step.t, step.act);
      } else {
        DecidedByOther(s, step);
      }
    }
  }

  /** The server closes the connection for an I/O error if and only if it has read a message without a command. */
  lemma UnreadableIsRejectedIff(run: seq<State>, i: nat)
    requires IsRun(run) && i < |run|
    ensures Io in run[i].errors <==> Read(NoCommand, run[i])
  {
    DecidedAlways(run, i);
  }

  /** It closes it for a failed authentication if and only if it has read an Authenticate with an unknown digest. */
  lemma WrongTokenIsRejectedIff(run: seq<State>, i: nat)
    requires IsRun(run) && i < |run|
    ensures AuthenticationFailed in run[i].errors <==> Read(WrongToken, run[i])
  {
    DecidedAlways(run, i);
  }

  /** The client is authenticated if and only if the server has read an Authenticate with a digest it knows. */
  lemma AuthenticatedIff(run: seq<State>, i: nat)
    requires IsRun(run) && i < |run|
    ensures run[i].gate.authed <==> Read(RightToken, run[i])
  {
    DecidedAlways(run, i);
  }

  // ---------------------------------------------------------------- steps that decide

  /** A command that has no place on its channel, or a Packet in the other relay mode. */
  predicate Forbidden(latch: Option<UdpPacketSource>, o: Origin) {
    && o.FromPeer? && Decode(o.bytes).Ok?
    && var cmd := Decode(o.bytes).value;
    match o.chan
    case Uni => cmd.Response? || cmd.Connect? || (cmd.Packet? && latch == Some(Datagram))
    case Bi => !cmd.Connect?
    case Dgram => !cmd.Packet? || latch == Some(UniStream)
  }

  /** A task that was let through the gate dispatches such a command. */
  predicate Misuses(s: State, step: Step) {
    && step.OfTask? && step.act == DispatchCommand && step.t < |s.origin|
    && Forbidden(s.udp.latch, s.origin[step.t])
  }

  /** The authentication timer fires, or a task polls the gate after the connection was closed. */
  predicate TimesOut(s: State, step: Step) {
    step.FireTimer? || (step.OfTask? && step.act == PollGate && s.gate.closed)
  }

  ghost predicate MisusesAt(run: seq<State>, j: nat)
    requires IsRun(run) && j + 1 < |run|
  {
    Misuses(run[j], StepAt(run, j))
  }

  ghost predicate TimesOutAt(run: seq<State>, j: nat)
    requires IsRun(run) && j + 1 < |run|
  {
    TimesOut(run[j], StepAt(run, j))
  }

  ghost predicate Misused(run: seq<State>, i: nat)
    requires IsRun(run) && i < |run|
  {
    exists j: nat :: j < i && MisusesAt(run, j)
  }

  ghost predicate TimedOut(run: seq<State>, i: nat)
    requires IsRun(run) && i < |run|
  {
    exists j: nat :: j < i && TimesOutAt(run, j)
  }

  lemma MoveErrors(s: State, t: nat, act: TaskAction)
    requires TaskEnabled(s, t, act) && TaskFrom(s.udp.sessions, s.origin[t], s.tasks[t])
    ensures var errors := ErrorsOf(MoveOf(s, t, act).effect);
            && (BadCommand in errors <==> Misuses(s, OfTask(t, act)))
            && (AuthenticationTimeout in errors <==> TimesOut(s, OfTask(t, act)))
  {
    if act.DispatchCommand? {
      DispatchErrors(s, t);
      assert [BadCommand][0] == BadCommand;
    }
  }

  lemma DispatchErrors(s: State, t: nat)
    requires TaskEnabled(s, t, DispatchCommand) && TaskFrom(s.udp.sessions, s.origin[t], s.tasks[t])
    ensures ErrorsOf(MoveOf(s, t, DispatchCommand).effect) ==
              if Forbidden(s.udp.latch, s.origin[t]) then [BadCommand] else []
  {
    if s.udp.latch.Some? {
      assert s.udp.latch.value.UniStream? || s.udp.latch.value.Datagram?;
    }
  }

  lemma ErrorsStep(s: State, step: Step)
    requires Enabled(s, step)
    requires step.OfTask? ==> TaskFrom(s.udp.sessions, s.origin[step.t], s.tasks[step.t])
    ensures BadCommand in Apply(s, step).errors <==> BadCommand in s.errors || Misuses(s, step)
    ensures AuthenticationTimeout in Apply(s, step).errors <==> AuthenticationTimeout in s.errors || TimesOut(s, step)
  {
    if step.OfTask? {
      MoveErrors(s, step.t, step.act);
      ErrorsMoved(s, step.t, MoveOf(s, step.t, step.act));
    }
  }

  lemma ErrorsMoved(s: State, t: nat, move: Move)
    requires t < |s.tasks|
    ensures Moved(s, t, move).errors == s.errors + ErrorsOf(move.effect)
  {
  }

  lemma {:induction false} ErrorsAlways(run: seq<State>, i: nat)
    requires IsRun(run) && i < |run|
    ensures BadCommand in run[i].errors <==> Misused(run, i)
    ensures AuthenticationTimeout in run[i].errors <==> TimedOut(run, i)
  {
    if i > 0 {
      ErrorsAlways(run, i - 1);
      FromAlways(run, i - 1);
      var s, step := run[i - 1], StepAt(run, i - 1);
      assert step.OfTask? ==> TaskFrom(s.udp.sessions, s.origin[step.t], s.tasks[step.t]);
      ErrorsStep(s, step);
      MisusedNext(run, i - 1);
    }
  }

  lemma MisusedNext(run: seq<State>, i: nat)
    requires IsRun(run) && i + 1 < |run|
    ensures Misused(run, i + 1) <==> Misused(run, i) || Misuses(run[i], StepAt(run, i))
    ensures TimedOut(run, i + 1) <==> TimedOut(run, i) || TimesOut(run[i], StepAt(run, i))
  {
    assert MisusesAt(run, i) <==> Misuses(run[i], StepAt(run, i));
    assert TimesOutAt(run, i) <==> TimesOut(run[i], StepAt(run, i));
  }

  /**
   The server closes the connection for a bad command if and only if a task that passed the gate has
   dispatched a command that has no place on its channel, or a Packet in the other relay mode.
   */
  lemma BadCommandIff(run: seq<State>, i: nat)
    requires IsRun(run) && i < |run|
    ensures BadCommand in run[i].errors <==> Misused(run, i)
  {
    ErrorsAlways(run, i);
  }

  /** It closes it for a timeout if and only if the timer fired or a task polled the gate of a closed connection. */
  lemma TimeoutIff(run: seq<State>, i: nat)
    requires IsRun(run) && i < |run|
    ensures AuthenticationTimeout in run[i].errors <==> TimedOut(run, i)
  {
    ErrorsAlways(run, i);
  }

  // ---------------------------------------------------------------- the end of the connection

  ghost predicate ClosesAt(run: seq<State>, j: nat)
    requires IsRun(run) && j + 1 < |run|
  {
    StepAt(run, j) == SetClosed
  }

  /** One of the listeners fails, or the timeout has woken everyone. */
  ghost predicate EndsAt(run: seq<State>, j: nat)
    requires IsRun(run) && j + 1 < |run|
  {
    StepAt(run, j) == EndSelect || StepAt(run, j) == WakeTimer
  }

  lemma EndStep(s: State, step: Step)
    requires Enabled(s, step)
    ensures Apply(s, step).gate.closed <==> s.gate.closed || step == SetClosed
    ensures !Apply(s, step).gate.listening <==> !s.gate.listening || step == EndSelect || step == WakeTimer
    ensures (!s.gate.listening ==> s.gate.timer.Over?) ==>
              !Apply(s, step).gate.listening ==> Apply(s, step).gate.timer.Over?
  {
    if step.OfTask? {
      MovedFrame(s, step.t, MoveOf(s, step.t, step.act));
    }
  }

  /**
   The connection is marked closed if and only if that step was taken, and listens until its select has
   ended, and with it the timer.
   */
  lemma {:induction false} ClosedIff(run: seq<State>, i: nat)
    requires IsRun(run) && i < |run|
    ensures run[i].gate.closed <==> exists j: nat :: j < i && ClosesAt(run, j)
    ensures run[i].gate.listening <==> forall j: nat | j < i :: !EndsAt(run, j)
    ensures !run[i].gate.listening ==> run[i].gate.timer.Over?
  {
    if i > 0 {
      ClosedIff(run, i - 1);
      EndStep(run[i - 1], StepAt(run, i - 1));
      assert ClosesAt(run, i - 1) <==> StepAt(run, i - 1) == SetClosed;
      assert EndsAt(run, i - 1) <==> StepAt(run, i - 1) == EndSelect || StepAt(run, i - 1) == WakeTimer;
    }
  }
}
