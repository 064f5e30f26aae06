/**
 Where everything comes from: each packet that a session sends stems from bytes of the peer for that
 session's id, each reply from a packet that a session for that id received, and each TCP answer
 from a Connect on that very stream. No task panics on the way.
 */
module ServerTrace {
  import opened Wire
  import opened Codec
  import opened Relay
  import opened Server
  import opened ServerFrame
  import opened ServerAuth

  /** The UDP packet that bytes of the peer bring to the session layer. */
  function Arrived(o: Origin): Received {
    if !o.FromPeer? then Dropped
    else
      match o.chan
      case Uni => FromStream(o.bytes)
      case Dgram => ServerFromDatagram(o.bytes)
      case Bi => Dropped
  }

  predicate ConnectFrom(o: Origin, addr: Address) {
    o.FromPeer? && o.chan == Bi && Decode(o.bytes).Ok? && Decode(o.bytes).value == Connect(addr)
  }

  /** What a task carries is what its origin brought, at every program counter. */
  predicate TaskFrom(ss: seq<Session>, o: Origin, task: Task) {
    match task
    case Fresh => o.FromPeer?
    case Waking(_) => o.FromPeer?
    case Gate(cmd, rest, _) => o.FromPeer? && Decode(o.bytes) == Ok(cmd, rest) && !(o.chan == Uni && cmd.Authenticate?)
    case Dispatch(cmd, rest) => o.FromPeer? && Decode(o.bytes) == Ok(cmd, rest) && !(o.chan == Uni && cmd.Authenticate?)
    case Lookup(assoc, pkt) => Arrived(o) == Delivered(assoc, pkt)
    case Create(assoc, pkt) => Arrived(o) == Delivered(assoc, pkt)
    case Created(assoc, _, pkt) => Arrived(o) == Delivered(assoc, pkt)
    case Cloned(assoc, _, pkt) => Arrived(o) == Delivered(assoc, pkt)
    case Sending(sid, pkt) => sid < |ss| && Arrived(o) == Delivered(ss[sid].assoc, pkt)
    case Resolving(addr) => ConnectFrom(o, addr)
    case Trying(addr, _, _) => ConnectFrom(o, addr)
    case Answered(addr, _, _, _) => ConnectFrom(o, addr)
    case Replying(sid, k) => o == FromSession(sid, k)
    case Done => true
    case Crashed => false
  }

  predicate TasksFrom(ss: seq<Session>, origin: seq<Origin>, tasks: seq<Task>) {
    |origin| == |tasks| && forall t | 0 <= t < |tasks| :: TaskFrom(ss, origin[t], tasks[t])
  }

  lemma DispatchFrom(s: State, t: nat)
    requires TaskEnabled(s, t, DispatchCommand) && TaskFrom(s.udp.sessions, s.origin[t], s.tasks[t])
    ensures TaskFrom(s.udp.sessions, s.origin[t], MoveOf(s, t, DispatchCommand).task)
  {
    ServerSliceInBounds(s.origin[t].bytes);
  }

  lemma MoveFrom(s: State, t: nat, act: TaskAction)
    requires Shape(s) && AuthInv(s) && TaskEnabled(s, t, act)
    requires TaskFrom(s.udp.sessions, s.origin[t], s.tasks[t])
    ensures TaskFrom(s.udp.sessions, s.origin[t], MoveOf(s, t, act).task)
  {
    assert TaskShape(s.udp.sessions, s.tasks[t]);
    assert PastLatch(s.tasks[t]) ==> s.udp.latch.Some?;
    if act.DispatchCommand? {
      DispatchFrom(s, t);
    }
  }

  lemma TasksFromGrow(ss: seq<Session>, ss': seq<Session>, origin: seq<Origin>, tasks: seq<Task>, tasks': seq<Task>,
                      t: int)
    requires TasksFrom(ss, origin, tasks) && Extends(ss, ss') && |tasks'| == |tasks|
    requires forall u | 0 <= u < |tasks| && u != t :: Same(tasks[u], tasks'[u])
    requires 0 <= t < |tasks| ==> TaskFrom(ss', origin[t], tasks'[t])
    ensures TasksFrom(ss', origin, tasks')
  {
    forall u | 0 <= u < |tasks'| && u != t
      ensures TaskFrom(ss', origin[u], tasks'[u])
    {
      assert TaskFrom(ss, origin[u], tasks[u]);
    }
  }

  lemma TaskStepFrom(s: State, t: nat, act: TaskAction)
    requires Shape(s) && AuthInv(s) && TasksFrom(s.udp.sessions, s.origin, s.tasks) && TaskEnabled(s, t, act)
    ensures var s' := Apply(s, OfTask(t, act)); TasksFrom(s'.udp.sessions, s'.origin, s'.tasks)
  {
    var move := MoveOf(s, t, act);
    var s' := Moved(s, t, move);
    MovedFrame(s, t, move);
    UdpFrame(s.udp, t, move.effect);
    MoveFrom(s, t, act);
    TasksFromGrow(s.udp.sessions, s'.udp.sessions, s.origin, s.tasks, s'.tasks, t);
  }

  lemma OtherStepFrom(s: State, step: Step)
    requires TasksFrom(s.udp.sessions, s.origin, s.tasks) && Enabled(s, step) && !step.OfTask?
    ensures var s' := Apply(s, step); TasksFrom(s'.udp.sessions, s'.origin, s'.tasks)
  {
    var s' := Apply(s, step);
    UdpStepFrame(s, step);
    TasksFrame(s, step);
    TasksFromGrow(s.udp.sessions, s'.udp.sessions, s.origin, s.tasks, s'.tasks[..|s.tasks|], -1);
    forall t | 0 <= t < |s'.tasks|
      ensures TaskFrom(s'.udp.sessions, s'.origin[t], s'.tasks[t])
    {
      if t < |s.tasks| {
        assert TaskFrom(s'.udp.sessions, s.origin[t], s'.tasks[..|s.tasks|][t]);
      }
    }
  }

  // ---------------------------------------------------------------- packets in sessions

  predicate ItemFrom(origin: seq<Origin>, tasks: seq<Task>, assoc: U32, item: Item) {
    && item.task < |tasks| && item.task < |origin|
    && tasks[item.task].Done? && Arrived(origin[item.task]) == Delivered(assoc, item.pkt)
  }

  predicate ItemsFrom(ss: seq<Session>, origin: seq<Origin>, tasks: seq<Task>) {
    forall sid, k | 0 <= sid < |ss| && 0 <= k < |ss[sid].enqueued| ::
      ItemFrom(origin, tasks, ss[sid].assoc, ss[sid].enqueued[k])
  }

  /** No task puts two packets into sessions. */
  predicate ItemsUnique(ss: seq<Session>) {
    forall sid, k, sid', k' | 0 <= sid < |ss| && 0 <= k < |ss[sid].enqueued| && 0 <= sid' < |ss|
      && 0 <= k' < |ss[sid'].enqueued| ::
      ss[sid].enqueued[k].task == ss[sid'].enqueued[k'].task ==> sid == sid' && k == k'
  }

  /** Sessions unchanged in what they are and what entered them; new ones are empty. */
  predicate SameItems(ss: seq<Session>, ss': seq<Session>) {
    && |ss| <= |ss'|
    && (forall sid | 0 <= sid < |ss| :: ss'[sid].assoc == ss[sid].assoc && ss'[sid].enqueued == ss[sid].enqueued)
    && (forall sid | |ss| <= sid < |ss'| :: ss'[sid].enqueued == [])
  }

  lemma ItemsKept(ss: seq<Session>, ss': seq<Session>, origin: seq<Origin>, origin': seq<Origin>, tasks: seq<Task>,
                  tasks': seq<Task>)
    requires ItemsFrom(ss, origin, tasks) && ItemsUnique(ss) && SameItems(ss, ss')
    requires origin <= origin' && |tasks| <= |tasks'|
    requires forall t | 0 <= t < |tasks| :: tasks[t].Done? ==> tasks'[t].Done?
    ensures ItemsFrom(ss', origin', tasks') && ItemsUnique(ss')
  {
    forall sid, k | 0 <= sid < |ss'| && 0 <= k < |ss'[sid].enqueued|
      ensures ItemFrom(origin', tasks', ss'[sid].assoc, ss'[sid].enqueued[k])
    {
      assert sid < |ss| && ItemFrom(origin, tasks, ss[sid].assoc, ss[sid].enqueued[k]);
    }
  }

  lemma EffectItems(u: Udp, t: nat, effect: Effect)
    requires !effect.Push?
    ensures SameItems(u.sessions, UdpAfter(u, t, effect).sessions)
  {
  }

  lemma DoneStays(s: State, step: Step)
    requires Enabled(s, step)
    ensures forall t | 0 <= t < |s.tasks| :: s.tasks[t].Done? ==> Apply(s, step).tasks[t].Done?
  {
    TasksFrame(s, step);
  }

  lemma PushItems(ss: seq<Session>, origin: seq<Origin>, tasks: seq<Task>, tasks': seq<Task>, t: nat, sid: nat,
                  pkt: UdpPacket)
    requires ItemsFrom(ss, origin, tasks) && ItemsUnique(ss) && sid < |ss| && t < |tasks|
    requires |tasks| == |tasks'| == |origin|
    requires !tasks[t].Done? && tasks'[t].Done? && Arrived(origin[t]) == Delivered(ss[sid].assoc, pkt)
    requires forall u | 0 <= u < |tasks| :: tasks[u].Done? ==> tasks'[u].Done?
    ensures var ss' := ss[sid := Pushed(ss[sid], Item(t, pkt))]; ItemsFrom(ss', origin, tasks') && ItemsUnique(ss')
  {
    var ss' := ss[sid := Pushed(ss[sid], Item(t, pkt))];
    forall x, k | 0 <= x < |ss'| && 0 <= k < |ss'[x].enqueued|
      ensures ItemFrom(origin, tasks', ss'[x].assoc, ss'[x].enqueued[k])
    {
      if k < |ss[x].enqueued| {
        assert ItemFrom(origin, tasks, ss[x].assoc, ss[x].enqueued[k]);
      }
    }
    forall x, k | 0 <= x < |ss| && 0 <= k < |ss[x].enqueued|
      ensures ss[x].enqueued[k].task != t
    {
      assert ItemFrom(origin, tasks, ss[x].assoc, ss[x].enqueued[k]);
    }
  }

  lemma TaskStepItems(s: State, t: nat, act: TaskAction)
    requires Shape(s) && TasksFrom(s.udp.sessions, s.origin, s.tasks) && TaskEnabled(s, t, act)
    requires ItemsFrom(s.udp.sessions, s.origin, s.tasks) && ItemsUnique(s.udp.sessions)
    ensures var s' := Apply(s, OfTask(t, act));
            ItemsFrom(s'.udp.sessions, s'.origin, s'.tasks) && ItemsUnique(s'.udp.sessions)
  {
    var move := MoveOf(s, t, act);
    var s' := Moved(s, t, move);
    MovedFrame(s, t, move);
    DoneStays(s, OfTask(t, act));
    if act.Enqueue? {
      assert TaskFrom(s.udp.sessions, s.origin[t], s.tasks[t]);
      PushItems(s.udp.sessions, s.origin, s.tasks, s'.tasks, t, s.tasks[t].sid, s.tasks[t].pkt);
    } else {
      EffectItems(s.udp, t, move.effect);
      ItemsKept(s.udp.sessions, s'.udp.sessions, s.origin, s'.origin, s.tasks, s'.tasks);
    }
  }

  lemma OtherStepItems(s: State, step: Step)
    requires ItemsFrom(s.udp.sessions, s.origin, s.tasks) && ItemsUnique(s.udp.sessions)
    requires Enabled(s, step) && !step.OfTask?
    ensures var s' := Apply(s, step);
            ItemsFrom(s'.udp.sessions, s'.origin, s'.tasks) && ItemsUnique(s'.udp.sessions)
  {
    var s' := Apply(s, step);
    TasksFrame(s, step);
    DoneStays(s, step);
    assert SameItems(s.udp.sessions, s'.udp.sessions);
    ItemsKept(s.udp.sessions, s'.udp.sessions, s.origin, s'.origin, s.tasks, s'.tasks);
  }

  // ---------------------------------------------------------------- replies

  /** A reply is a received packet of the session for its id, on the channel that the latch names. */
  predicate ReplyFrom(u: Udp, origin: seq<Origin>, r: Reply) {
    && r.task < |origin| && origin[r.task].FromSession?
    && var FromSession(sid, k) := origin[r.task];
    && sid < |u.sessions| && k < |u.sessions[sid].received|
    && r.bytes == Frame(u.sessions[sid].assoc, u.sessions[sid].received[k])
    && u.latch == Some(r.source)
  }

  predicate RepliesFrom(u: Udp, origin: seq<Origin>, outbox: seq<Reply>) {
    forall i | 0 <= i < |outbox| :: ReplyFrom(u, origin, outbox[i])
  }

  lemma RepliesKept(u: Udp, u': Udp, origin: seq<Origin>, origin': seq<Origin>, outbox: seq<Reply>)
    requires RepliesFrom(u, origin, outbox) && Extends(u.sessions, u'.sessions) && origin <= origin'
    requires u.latch.Some? ==> u'.latch == u.latch
    ensures RepliesFrom(u', origin', outbox)
  {
    forall i | 0 <= i < |outbox|
      ensures ReplyFrom(u', origin', outbox[i])
    {
      assert ReplyFrom(u, origin, outbox[i]);
    }
  }

  lemma OnlyRepliesEmit(s: State, t: nat, act: TaskAction)
    requires TaskEnabled(s, t, act)
    ensures MoveOf(s, t, act).effect.Emit? ==> act.SendReply?
  {
  }

  lemma EmitFrom(s: State, t: nat, act: TaskAction)
    requires Shape(s) && TaskEnabled(s, t, act) && TaskFrom(s.udp.sessions, s.origin[t], s.tasks[t])
    ensures var e := MoveOf(s, t, act).effect; e.Emit? ==> ReplyFrom(s.udp, s.origin, Reply(e.source, e.frame, t))
    ensures MoveOf(s, t, act).effect.Emit? ==> UdpAfter(s.udp, t, MoveOf(s, t, act).effect) == s.udp
  {
    OnlyRepliesEmit(s, t, act);
  }

  lemma StepReplies(s: State, step: Step)
    requires Shape(s) && TasksFrom(s.udp.sessions, s.origin, s.tasks) && Enabled(s, step)
    requires RepliesFrom(s.udp, s.origin, s.outbox)
    ensures var s' := Apply(s, step); RepliesFrom(s'.udp, s'.origin, s'.outbox)
  {
    var s' := Apply(s, step);
    UdpStepFrame(s, step);
    TasksFrame(s, step);
    RepliesKept(s.udp, s'.udp, s.origin, s'.origin, s.outbox);
    if step.OfTask? {
      MovedFrame(s, step.t, MoveOf(s, step.t, step.act));
      EmitFrom(s, step.t, step.act);
    }
  }

  // ---------------------------------------------------------------- all together

  ghost predicate TraceInv(s: State) {
    && Shape(s) && AuthInv(s)
    && TasksFrom(s.udp.sessions, s.origin, s.tasks)
    && ItemsFrom(s.udp.sessions, s.origin, s.tasks) && ItemsUnique(s.udp.sessions)
    && RepliesFrom(s.udp, s.origin, s.outbox)
  }

  lemma {:induction false} FromAlways(run: seq<State>, i: nat)
    requires IsRun(run) && i < |run|
    ensures TasksFrom(run[i].udp.sessions, run[i].origin, run[i].tasks)
  {
    if i > 0 {
      FromAlways(run, i - 1);
      AuthAlways(run, i - 1);
      StepFrom(run[i - 1], StepAt(run, i - 1));
    }
  }

  lemma StepFrom(s: State, step: Step)
    requires Shape(s) && AuthInv(s) && TasksFrom(s.udp.sessions, s.origin, s.tasks) && Enabled(s, step)
    ensures var s' := Apply(s, step); TasksFrom(s'.udp.sessions, s'.origin, s'.tasks)
  {
    if step.OfTask? {
      TaskStepFrom(s, step.t, step.act);
    } else {
      OtherStepFrom(s, step);
    }
  }

  lemma {:induction false} ItemsAlways(run: seq<State>, i: nat)
    requires IsRun(run) && i < |run|
    ensures ItemsFrom(run[i].udp.sessions, run[i].origin, run[i].tasks) && ItemsUnique(run[i].udp.sessions)
  {
    if i > 0 {
      ItemsAlways(run, i - 1);
      FromAlways(run, i - 1);
      ShapeAlways(run, i - 1);
      var s, step := run[i - 1], StepAt(run, i - 1);
      if step.OfTask? {
        TaskStepItems(s, step.t, step.act);
      } else {
        OtherStepItems(s, step);
      }
    }
  }

  lemma {:induction false} RepliesAlways(run: seq<State>, i: nat)
    requires IsRun(run) && i < |run|
    ensures RepliesFrom(run[i].udp, run[i].origin, run[i].outbox)
  {
    if i > 0 {
      RepliesAlways(run, i - 1);
      FromAlways(run, i - 1);
      ShapeAlways(run, i - 1);
      StepReplies(run[i - 1], StepAt(run, i - 1));
    }
  }

  lemma TraceAlways(run: seq<State>, i: nat)
    requires IsRun(run) && i < |run|
    ensures TraceInv(run[i])
  {
    AuthAlways(run, i);
    FromAlways(run, i);
    ItemsAlways(run, i);
    RepliesAlways(run, i);
  }

  /**
   No unwrap, slice or unreachable!() on the way of any message can fail, the reply path's
   check().unwrap() included.
   */
  lemma NoTaskPanics(run: seq<State>, i: nat, t: nat)
    requires IsRun(run) && i < |run| && t < |run[i].tasks|
    ensures !run[i].tasks[t].Crashed?
    ensures run[i].tasks[t].Replying? ==> run[i].udp.latch.Some?
  {
    TraceAlways(run, i);
    assert TaskFrom(run[i].udp.sessions, run[i].origin[t], run[i].tasks[t]);
  }

  /** Every packet that entered a session came from the peer, for that session's id, once. */
  lemma SessionPacketProvenance(run: seq<State>, i: nat, sid: nat, k: nat)
    requires IsRun(run) && i < |run| && sid < |run[i].udp.sessions| && k < |run[i].udp.sessions[sid].enqueued|
    ensures var x := run[i].udp.sessions[sid];
            var item := x.enqueued[k];
            && item.task < |run[i].origin| && Arrived(run[i].origin[item.task]) == Delivered(x.assoc, item.pkt)
            && forall sid', k' | 0 <= sid' < |run[i].udp.sessions| && 0 <= k' < |run[i].udp.sessions[sid'].enqueued| ::
                 run[i].udp.sessions[sid'].enqueued[k'].task == item.task ==> sid' == sid && k' == k
  {
    TraceAlways(run, i);
    assert ItemFrom(run[i].origin, run[i].tasks, run[i].udp.sessions[sid].assoc, run[i].udp.sessions[sid].enqueued[k]);
  }

  /** All replies of a connection use the mode of its latch and carry received packets of the named session. */
  lemma ReplyProvenance(run: seq<State>, i: nat, n: nat)
    requires IsRun(run) && i < |run| && n < |run[i].outbox|
    ensures ReplyFrom(run[i].udp, run[i].origin, run[i].outbox[n])
  {
    TraceAlways(run, i);
  }
}
