/** What becomes of a packet that a session's socket received: it goes back to the client, unless sending it fails. */
module ServerReplies {
  import opened Relay
  import opened Server
  import opened ServerFrame
  import opened ServerTrace
  import opened ServerOnce
  import opened ServerHistory

  /** Sockets receive packets with socket addresses, cut to the configured size. */
  predicate ReceivedFit(ss: seq<Session>, maxPkt: nat) {
    forall sid, k | 0 <= sid < |ss| && 0 <= k < |ss[sid].received| ::
      ss[sid].received[k].addr.SocketAddress? && |ss[sid].received[k].payload| <= maxPkt
  }

  lemma EffectReceives(u: Udp, t: nat, effect: Effect, maxPkt: nat)
    requires ReceivedFit(u.sessions, maxPkt)
    ensures ReceivedFit(UdpAfter(u, t, effect).sessions, maxPkt)
  {
  }

  lemma StepReceives(s: State, step: Step)
    requires Enabled(s, step) && ReceivedFit(s.udp.sessions, s.maxPkt)
    ensures ReceivedFit(Apply(s, step).udp.sessions, s.maxPkt)
  {
    if step.OfTask? {
      var move := MoveOf(s, step.t, step.act);
      MovedFrame(s, step.t, move);
      EffectReceives(s.udp, step.t, move.effect, s.maxPkt);
    }
  }

  lemma {:induction false} ReceivedFitAlways(p: seq<State>, i: nat)
    requires IsRun(p) && i < |p|
    ensures ReceivedFit(p[i].udp.sessions, p[i].maxPkt)
  {
    if i > 0 {
      ReceivedFitAlways(p, i - 1);
      StepReceives(p[i - 1], StepAt(p, i - 1));
      NextFrame(p, i - 1);
    }
  }

  // ---------------------------------------------------------------- reply tasks

  predicate SentBy(outbox: seq<Reply>, t: nat, n: nat) {
    n < |outbox| && outbox[n].task == t
  }

  ghost predicate Sent(outbox: seq<Reply>, t: nat) {
    exists n: nat :: SentBy(outbox, t, n)
  }

  ghost predicate FailsAt(run: seq<State>, j: nat, t: nat)
    requires IsRun(run) && j + 1 < |run|
  {
    StepAt(run, j) == OfTask(t, SendReply(false))
  }

  /** The stream could not be opened or written, or the datagram not sent. */
  ghost predicate SendFailed(run: seq<State>, i: nat, t: nat)
    requires IsRun(run) && i < |run|
  {
    exists j: nat :: j < i && FailsAt(run, j, t)
  }

  predicate ReplyPc(task: Task, sid: nat, k: nat) {
    task == Replying(sid, k) || task == Done
  }

  /** A step, seen by a reply task. */
  ghost predicate Answers(s: State, s': State, step: Step, t: nat, sid: nat, k: nat)
    requires t < |s.tasks| && t < |s'.tasks|
  {
    && ReplyPc(s'.tasks[t], sid, k)
    && (Sent(s'.outbox, t) <==> Sent(s.outbox, t) || step == OfTask(t, SendReply(true)))
    && (s'.tasks[t].Done? <==> s.tasks[t].Done? || step in {OfTask(t, SendReply(true)), OfTask(t, SendReply(false))})
  }

  lemma ReplyMove(s: State, t: nat, act: TaskAction)
    requires TaskEnabled(s, t, act) && s.tasks[t].Replying? && s.udp.latch.Some?
    ensures act in {SendReply(true), SendReply(false)} && MoveOf(s, t, act).task == Done
    ensures MoveOf(s, t, act).effect.Emit? <==> act == SendReply(true)
  {
  }

  lemma OutboxMoved(s: State, t: nat, move: Move)
    requires t < |s.tasks|
    ensures var e := move.effect;
            Moved(s, t, move).outbox == if e.Emit? then s.outbox + [Reply(e.source, e.frame, t)] else s.outbox
  {
  }

  lemma SentAppend(outbox: seq<Reply>, r: Reply, t: nat)
    ensures Sent(outbox + [r], t) <==> Sent(outbox, t) || r.task == t
  {
    if n: nat :| SentBy(outbox, t, n) {
      assert SentBy(outbox + [r], t, n);
    }
    if r.task == t {
      assert SentBy(outbox + [r], t, |outbox|);
    }
    if n: nat :| SentBy(outbox + [r], t, n) {
      assert n < |outbox| ==> SentBy(outbox, t, n);
    }
  }

  lemma AnswersByTask(s: State, u: nat, act: TaskAction, t: nat, sid: nat, k: nat)
    requires TaskEnabled(s, u, act) && t < |s.tasks| && ReplyPc(s.tasks[t], sid, k)
    requires s.tasks[t].Replying? ==> s.udp.latch.Some?
    ensures Answers(s, Apply(s, OfTask(u, act)), OfTask(u, act), t, sid, k)
  {
    var move := MoveOf(s, u, act);
    MovedFrame(s, u, move);
    OutboxMoved(s, u, move);
    if u == t {
      ReplyMove(s, t, act);
    }
    if move.effect.Emit? {
      SentAppend(s.outbox, Reply(move.effect.source, move.effect.frame, u), t);
    }
  }

  lemma AnswersStep(s: State, step: Step, t: nat, sid: nat, k: nat)
    requires Enabled(s, step) && t < |s.tasks| && ReplyPc(s.tasks[t], sid, k)
    requires s.tasks[t].Replying? ==> s.udp.latch.Some?
    ensures t < |Apply(s, step).tasks| && Answers(s, Apply(s, step), step, t, sid, k)
  {
    TasksFrame(s, step);
    if step.OfTask? {
      AnswersByTask(s, step.t, step.act, t, sid, k);
    }
  }

  /** What has happened to a reply task, in one state. */
  ghost predicate Settled(run: seq<State>, i: nat, t: nat, sid: nat, k: nat)
    requires IsRun(run) && i < |run| && t < |run[i].tasks|
  {
    && ReplyPc(run[i].tasks[t], sid, k)
    && (run[i].tasks[t].Done? <==> Sent(run[i].outbox, t) || SendFailed(run, i, t))
    && !(Sent(run[i].outbox, t) && SendFailed(run, i, t))
  }

  lemma FailedNext(run: seq<State>, i: nat, t: nat)
    requires IsRun(run) && i + 1 < |run|
    ensures SendFailed(run, i + 1, t) <==> SendFailed(run, i, t) || StepAt(run, i) == OfTask(t, SendReply(false))
  {
    assert FailsAt(run, i, t) <==> StepAt(run, i) == OfTask(t, SendReply(false));
  }

  lemma SettledNext(run: seq<State>, i: nat, t: nat, sid: nat, k: nat)
    requires IsRun(run) && i + 1 < |run| && t < |run[i].tasks| && Settled(run, i, t, sid, k)
    ensures t < |run[i + 1].tasks| && Settled(run, i + 1, t, sid, k)
  {
    NoTaskPanics(run, i, t);
    AnswersStep(run[i], StepAt(run, i), t, sid, k);
    FailedNext(run, i, t);
    OnlyRepliesAct(run[i], StepAt(run, i), t);
  }

  /** A task that is done takes no more steps. */
  lemma OnlyRepliesAct(s: State, step: Step, t: nat)
    requires Enabled(s, step) && t < |s.tasks|
    ensures step in {OfTask(t, SendReply(true)), OfTask(t, SendReply(false))} ==> s.tasks[t].Replying?
  {
  }

  /** A reply task starts with its packet in hand. */
  lemma ReplyStarts(run: seq<State>, i: nat, t: nat, sid: nat, k: nat)
    requires IsRun(run) && i + 1 < |run| && |run[i].tasks| <= t && From(run[i + 1], t, FromSession(sid, k))
    ensures run[i + 1].tasks[t] == Replying(sid, k) && !Sent(run[i + 1].outbox, t) && !SendFailed(run, i + 1, t)
  {
    var step := StepAt(run, i);
    ShapeAlways(run, i);
    if step.OfTask? {
      MovedFrame(run[i], step.t, MoveOf(run[i], step.t, step.act));
    }
    OnceAlways(run, i + 1);
    forall j: nat | j < i + 1
      ensures !FailsAt(run, j, t)
    {
      TasksOnlyGrow(run, j, i);
    }
  }

  lemma {:induction false} SettledAlways(run: seq<State>, i: nat, t: nat, sid: nat, k: nat)
    requires IsRun(run) && i < |run| && From(run[i], t, FromSession(sid, k))
    ensures Settled(run, i, t, sid, k)
  {
    if i > 0 {
      if t < |run[i - 1].tasks| {
        FromBefore(run, i - 1, t, FromSession(sid, k));
        SettledAlways(run, i - 1, t, sid, k);
        SettledNext(run, i - 1, t, sid, k);
      } else {
        ReplyStarts(run, i - 1, t, sid, k);
      }
    }
  }

  /**
   The task of a packet that session sid received as its k-th has ended with a reply if and only if no
   attempt to send it failed. The reply is the only one of the task, and on either channel the client's
   reader gets from it the session's id and that packet, up to the length field.
   */
  lemma ReplyIsSentIff(run: seq<State>, i: nat, t: nat, sid: nat, k: nat)
    requires IsRun(run) && i < |run| && From(run[i], t, FromSession(sid, k)) && Ended(run[i].tasks[t])
    ensures Sent(run[i].outbox, t) <==> !SendFailed(run, i, t)
    ensures forall m: nat, n: nat :: SentBy(run[i].outbox, t, m) && SentBy(run[i].outbox, t, n) ==> m == n
    ensures sid < |run[i].udp.sessions| && k < |run[i].udp.sessions[sid].received|
    ensures forall n: nat :: SentBy(run[i].outbox, t, n) ==>
              var (x, bytes) := (run[i].udp.sessions[sid], run[i].outbox[n].bytes);
              FromStream(bytes) == ClientFromDatagram(bytes) == Delivered(x.assoc, Trimmed(x.received[k]))
  {
    SettledAlways(run, i, t, sid, k);
    OnceAlways(run, i);
    forall n: nat | SentBy(run[i].outbox, t, n)
      ensures var (x, bytes) := (run[i].udp.sessions[sid], run[i].outbox[n].bytes);
              FromStream(bytes) == ClientFromDatagram(bytes) == Delivered(x.assoc, Trimmed(x.received[k]))
    {
      ReplyProvenance(run, i, n);
      ReceivedFitAlways(run, i);
      ModesAgreeToClient(run[i].udp.sessions[sid].assoc, run[i].udp.sessions[sid].received[k]);
    }
  }
}
