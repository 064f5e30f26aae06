/** What one step of the server leaves alone, and the well-formedness that every run keeps. */
module ServerFrame {
  import opened Wire
  import opened Server

  /** The task was not touched, or was only made runnable. */
  predicate Same(a: Task, b: Task) {
    b == a || b == Schedule(a)
  }

  /** Sessions are never forgotten, keep their association id, and their logs only grow. */
  predicate Grown(x: Session, y: Session) {
    && y.assoc == x.assoc && x.received <= y.received && x.enqueued <= y.enqueued && x.sent <= y.sent
  }

  predicate Extends(ss: seq<Session>, ss': seq<Session>) {
    && |ss| <= |ss'|
    && forall sid | 0 <= sid < |ss| :: Grown(ss[sid], ss'[sid])
  }

  /** What an effect leaves alone in the UDP state. */
  lemma UdpFrame(u: Udp, t: nat, effect: Effect)
    ensures var u' := UdpAfter(u, t, effect);
            Extends(u.sessions, u'.sessions) && u'.inbox == u.inbox && (u.latch.Some? ==> u'.latch == u.latch)
  {
  }

  lemma MovedFrame(s: State, t: nat, move: Move)
    requires t < |s.tasks|
    ensures var s' := Moved(s, t, move);
            && |s'.tasks| == |s.tasks| && |s'.biOut| == |s.biOut| && s'.origin == s.origin && s'.maxPkt == s.maxPkt
            && (forall u | 0 <= u < |s.tasks| && u != t :: Same(s.tasks[u], s'.tasks[u]))
            && Same(move.task, s'.tasks[t])
            && s'.udp == UdpAfter(s.udp, t, move.effect)
            && s'.gate == GateAfter(s.gate, t, move.effect)
  {
  }

  /** Only the acting task changes its program counter; no task is forgotten. */
  lemma TasksFrame(s: State, step: Step)
    requires Enabled(s, step)
    ensures var s' := Apply(s, step);
            && |s.tasks| <= |s'.tasks| && s.origin <= s'.origin && s'.maxPkt == s.maxPkt
            && (forall u | 0 <= u < |s.tasks| && !(step.OfTask? && step.t == u) :: Same(s.tasks[u], s'.tasks[u]))
            && |s'.origin| - |s.origin| == |s'.tasks| - |s.tasks| == |s'.biOut| - |s.biOut|
  {
    if step.OfTask? {
      MovedFrame(s, step.t, MoveOf(s, step.t, step.act));
    }
  }

  /** Sessions only grow and the latch, once set, stays. */
  lemma UdpStepFrame(s: State, step: Step)
    requires Enabled(s, step)
    ensures var u := Apply(s, step).udp;
            Extends(s.udp.sessions, u.sessions) && (s.udp.latch.Some? ==> u.latch == s.udp.latch)
  {
    if step.OfTask? {
      MovedFrame(s, step.t, MoveOf(s, step.t, step.act));
      UdpFrame(s.udp, step.t, MoveOf(s, step.t, step.act).effect);
    }
  }

  lemma GateFrame(s: State, step: Step)
    requires Enabled(s, step)
    ensures var g := Apply(s, step).gate;
            && g.tokens == s.gate.tokens && (s.gate.authed ==> g.authed) && (s.gate.closed ==> g.closed)
            && (g.listening ==> s.gate.listening)
  {
    if step.OfTask? {
      MovedFrame(s, step.t, MoveOf(s, step.t, step.act));
    }
  }

  // ---------------------------------------------------------------- well-formedness

  predicate TaskShape(ss: seq<Session>, task: Task) {
    match task
    case Created(assoc, sid, _) => sid < |ss| && ss[sid].assoc == assoc
    case Cloned(assoc, sid, _) => sid < |ss| && ss[sid].assoc == assoc
    case Sending(sid, _) => sid < |ss|
    case Replying(sid, k) => sid < |ss| && k < |ss[sid].received|
    case _ => true
  }

  predicate TableShape(table: map<U32, nat>, ss: seq<Session>) {
    forall id | id in table :: table[id] < |ss| && ss[table[id]].assoc == id
  }

  predicate InboxShape(inbox: seq<(nat, nat)>, ss: seq<Session>) {
    forall i | 0 <= i < |inbox| :: inbox[i].0 < |ss| && inbox[i].1 < |ss[inbox[i].0].received|
  }

  predicate HandingShape(ss: seq<Session>) {
    forall sid | 0 <= sid < |ss| :: ss[sid].handing.Some? ==> ss[sid].handing.value < |ss[sid].received|
  }

  predicate TasksShape(tasks: seq<Task>, ss: seq<Session>) {
    forall t | 0 <= t < |tasks| :: TaskShape(ss, tasks[t])
  }

  predicate UdpShape(u: Udp) {
    TableShape(u.table, u.sessions) && InboxShape(u.inbox, u.sessions) && HandingShape(u.sessions)
  }

  predicate Shape(s: State) {
    && |s.origin| == |s.tasks| && |s.biOut| == |s.tasks|
    && UdpShape(s.udp)
    && TasksShape(s.tasks, s.udp.sessions)
  }

  /** A task's move names only sessions that exist, or that its effect brings about. */
  predicate MoveShape(ss: seq<Session>, move: Move) {
    match move.effect
    case Install(id, sid) => sid < |ss| && ss[sid].assoc == id && TaskShape(ss, move.task)
    case NewSession(id) => TaskShape(ss + [Opened(id)], move.task)
    case _ => TaskShape(ss, move.task)
  }

  lemma MovesAreShaped(s: State, t: nat, act: TaskAction)
    requires Shape(s) && TaskEnabled(s, t, act)
    ensures MoveShape(s.udp.sessions, MoveOf(s, t, act))
  {
    assert TaskShape(s.udp.sessions, s.tasks[t]);
  }

  lemma UnmapShape(u: Udp, id: U32)
    requires UdpShape(u)
    ensures UdpShape(Unmap(u, id)) && |Unmap(u, id).sessions| == |u.sessions|
  {
  }

  lemma UdpShapeAfter(u: Udp, t: nat, move: Move)
    requires UdpShape(u) && MoveShape(u.sessions, move)
    ensures UdpShape(UdpAfter(u, t, move.effect))
    ensures TaskShape(UdpAfter(u, t, move.effect).sessions, move.task)
  {
    UdpFrame(u, t, move.effect);
    match move.effect
    case Remove(id) => UnmapShape(u, id);
    case Install(id, _) => UnmapShape(u, id);
    case _ =>
  }

  lemma TasksShapeGrows(tasks: seq<Task>, tasks': seq<Task>, ss: seq<Session>, ss': seq<Session>, t: int)
    requires TasksShape(tasks, ss) && Extends(ss, ss') && |tasks| == |tasks'|
    requires forall u | 0 <= u < |tasks| && u != t :: Same(tasks[u], tasks'[u])
    requires 0 <= t < |tasks| ==> TaskShape(ss', tasks'[t])
    ensures TasksShape(tasks', ss')
  {
    forall u | 0 <= u < |tasks'| && u != t
      ensures TaskShape(ss', tasks'[u])
    {
      assert TaskShape(ss, tasks[u]);
    }
  }

  lemma TaskStepShape(s: State, t: nat, act: TaskAction)
    requires Shape(s) && TaskEnabled(s, t, act)
    ensures Shape(Apply(s, OfTask(t, act)))
  {
    var move := MoveOf(s, t, act);
    var s' := Moved(s, t, move);
    MovesAreShaped(s, t, act);
    MovedFrame(s, t, move);
    UdpShapeAfter(s.udp, t, move);
    UdpFrame(s.udp, t, move.effect);
    TasksShapeGrows(s.tasks, s'.tasks, s.udp.sessions, s'.udp.sessions, t);
  }

  lemma SessionStepShape(s: State, sid: nat, event: SessionAction)
    requires Shape(s) && Enabled(s, OfSession(sid, event))
    ensures Shape(Apply(s, OfSession(sid, event)))
  {
    var s' := Apply(s, OfSession(sid, event));
    assert Extends(s.udp.sessions, s'.udp.sessions);
    TasksShapeGrows(s.tasks, s'.tasks, s.udp.sessions, s'.udp.sessions, -1);
  }

  lemma OtherStepShape(s: State, step: Step)
    requires Shape(s) && Enabled(s, step) && !step.OfTask? && !step.OfSession?
    ensures Shape(Apply(s, step))
  {
    var s' := Apply(s, step);
    if step.DropEntry? {
      UnmapShape(s.udp, step.id);
      TasksShapeGrows(s.tasks, s.tasks, s.udp.sessions, s'.udp.sessions, -1);
    } else if step.WakeTimer? {
      TasksShapeGrows(s.tasks, s'.tasks, s.udp.sessions, s'.udp.sessions, -1);
    }
  }

  lemma ShapeStep(s: State, step: Step)
    requires Shape(s) && Enabled(s, step)
    ensures Shape(Apply(s, step))
  {
    match step
    case OfTask(t, act) => TaskStepShape(s, t, act);
    case OfSession(sid, event) => SessionStepShape(s, sid, event);
    case _ => OtherStepShape(s, step);
  }

  /** Every state of every run is well-formed. */
  lemma {:induction false} ShapeAlways(run: seq<State>, i: nat)
    requires IsRun(run) && i < |run|
    ensures Shape(run[i])
  {
    if i > 0 {
      ShapeAlways(run, i - 1);
      var step := StepAt(run, i - 1);
      ShapeStep(run[i - 1], step);
    }
  }

  /** The step taken at position i of a run. */
  ghost function StepAt(run: seq<State>, i: nat): (step: Step)
    requires IsRun(run) && i + 1 < |run|
    ensures Enabled(run[i], step) && run[i + 1] == Apply(run[i], step)
  {
    assert NextAt(run, i);
    var step :| Enabled(run[i], step) && run[i + 1] == Apply(run[i], step);
    step
  }

  /** What never goes back from one state of a run to the next. */
  lemma NextFrame(run: seq<State>, i: nat)
    requires IsRun(run) && i + 1 < |run|
    ensures run[i].udp.latch.Some? ==> run[i + 1].udp.latch == run[i].udp.latch
    ensures run[i].gate.closed ==> run[i + 1].gate.closed
    ensures run[i + 1].gate.tokens == run[i].gate.tokens && run[i + 1].maxPkt == run[i].maxPkt
    ensures Extends(run[i].udp.sessions, run[i + 1].udp.sessions)
    ensures run[i].origin <= run[i + 1].origin
  {
    var s, step := run[i], StepAt(run, i);
    UdpStepFrame(s, step);
    GateFrame(s, step);
    TasksFrame(s, step);
  }
}
