/**
 UDP sessions under all interleavings of concurrent sends and dissociates: who holds a session's
 sender, when its send loop ends, and what it has sent by then.
 */
module ServerSessions {
  import opened Wire
  import opened Relay
  import opened Server
  import opened ServerFrame

  // ---------------------------------------------------------------- who holds a sender

  /** How many senders of session sid a task owns at its program counter. */
  function Handles(task: Task, sid: nat): nat {
    match task
    case Created(_, x, _) => if x == sid then 1 else 0
    case Cloned(_, x, _) => if x == sid then 2 else 0
    case Sending(x, _) => if x == sid then 1 else 0
    case _ => 0
  }

  function Held(tasks: seq<Task>, sid: nat): nat {
    if tasks == [] then 0
    else Held(tasks[..|tasks| - 1], sid) + Handles(tasks[|tasks| - 1], sid)
  }

  /** The session map's own sender: 1 if the entry for its id is this session, else 0. */
  function Mapped(u: Udp, sid: nat): nat
    requires sid < |u.sessions|
  {
    var id := u.sessions[sid].assoc;
    if id in u.table && u.table[id] == sid then 1 else 0
  }

  lemma {:induction false} HeldUpdate(tasks: seq<Task>, t: nat, task: Task, sid: nat)
    requires t < |tasks|
    ensures Held(tasks[t := task], sid) == Held(tasks, sid) - Handles(tasks[t], sid) + Handles(task, sid)
  {
    var n := |tasks| - 1;
    if t == n {
      assert tasks[t := task][..n] == tasks[..n];
    } else {
      assert tasks[t := task][..n] == tasks[..n][t := task];
      HeldUpdate(tasks[..n], t, task, sid);
    }
  }

  lemma {:induction false} HeldSame(tasks: seq<Task>, tasks': seq<Task>, sid: nat)
    requires |tasks| == |tasks'| && forall u | 0 <= u < |tasks| :: Same(tasks[u], tasks'[u])
    ensures Held(tasks', sid) == Held(tasks, sid)
  {
    if tasks != [] {
      var n := |tasks| - 1;
      HeldSame(tasks[..n], tasks'[..n], sid);
    }
  }

  /** Nobody holds a session that does not exist yet. */
  lemma {:induction false} HeldNone(tasks: seq<Task>, sid: nat)
    requires forall u | 0 <= u < |tasks| :: Handles(tasks[u], sid) == 0
    ensures Held(tasks, sid) == 0
  {
    if tasks != [] {
      HeldNone(tasks[..|tasks| - 1], sid);
    }
  }

  lemma {:induction false} HeldAtLeast(tasks: seq<Task>, t: nat, sid: nat)
    requires t < |tasks|
    ensures Held(tasks, sid) >= Handles(tasks[t], sid)
  {
    if t < |tasks| - 1 {
      HeldAtLeast(tasks[..|tasks| - 1], t, sid);
    }
  }

  /** Live senders of every session: its map entry plus what tasks in flight hold. */
  predicate Conserved(u: Udp, tasks: seq<Task>) {
    forall sid | 0 <= sid < |u.sessions| :: u.sessions[sid].senders == Mapped(u, sid) + Held(tasks, sid)
  }

  /** The acting task's move pays for every sender that it takes or drops. */
  predicate Balanced(u: Udp, u': Udp, before: Task, after: Task) {
    && |u.sessions| <= |u'.sessions|
    && (forall sid | 0 <= sid < |u.sessions| ::
          u'.sessions[sid].senders - u.sessions[sid].senders
          == Mapped(u', sid) - Mapped(u, sid) + Handles(after, sid) - Handles(before, sid))
    && (forall sid | |u.sessions| <= sid < |u'.sessions| ::
          u'.sessions[sid].senders == Mapped(u', sid) + Handles(after, sid))
  }

  lemma UnmapBalanced(u: Udp, id: U32)
    requires UdpShape(u)
    ensures Balanced(u, Unmap(u, id), Done, Done)
  {
  }

  lemma InstallBalanced(u: Udp, t: nat, id: U32, sid: nat, pkt: UdpPacket)
    requires UdpShape(u) && sid < |u.sessions| && u.sessions[sid].assoc == id
    ensures Balanced(u, UdpAfter(u, t, Install(id, sid)), Cloned(id, sid, pkt), Sending(sid, pkt))
  {
    UnmapBalanced(u, id);
    UnmapShape(u, id);
    var v := Unmap(u, id);
    var w := UdpAfter(u, t, Install(id, sid));
    forall x | 0 <= x < |u.sessions|
      ensures Mapped(w, x) == Mapped(v, x) + if x == sid then 1 else 0
    {
      assert v.sessions[x].assoc == u.sessions[x].assoc;
    }
  }

  /** The senders that a task gains or gives up are those that its effect makes, moves or drops. */
  ghost predicate Pays(before: Task, after: Task, effect: Effect, n: nat) {
    match effect
    case AddSender(sid) =>
      sid < n && forall x: nat :: Handles(after, x) == Handles(before, x) + if x == sid then 1 else 0
    case NewSession(id) => (forall x: nat :: Handles(before, x) == 0) && after.Created? && after.sid == n
    case Install(id, sid) =>
      sid < n && before.Cloned? && before.assoc == id && before.sid == sid && after == Sending(sid, before.pkt)
    case Push(sid, _) => forall x: nat :: Handles(after, x) == Handles(before, x) - if x == sid then 1 else 0
    case _ => forall x: nat :: Handles(after, x) == Handles(before, x)
  }

  lemma MovePays(s: State, t: nat, act: TaskAction)
    requires Shape(s) && TaskEnabled(s, t, act)
    ensures var move := MoveOf(s, t, act); Pays(s.tasks[t], move.task, move.effect, |s.udp.sessions|)
  {
    assert TaskShape(s.udp.sessions, s.tasks[t]);
  }

  /** Association ids and map unchanged: only counts can differ. */
  lemma MappedSame(u: Udp, u': Udp)
    requires u'.table == u.table && |u.sessions| <= |u'.sessions|
    requires forall x | 0 <= x < |u.sessions| :: u'.sessions[x].assoc == u.sessions[x].assoc
    ensures forall x | 0 <= x < |u.sessions| :: Mapped(u', x) == Mapped(u, x)
  {
  }

  lemma CountBalanced(u: Udp, t: nat, before: Task, after: Task, effect: Effect)
    requires (effect.AddSender? || effect.Push?) && Pays(before, after, effect, |u.sessions|)
    ensures Balanced(u, UdpAfter(u, t, effect), before, after)
  {
    MappedSame(u, UdpAfter(u, t, effect));
  }

  lemma NewSessionBalanced(u: Udp, t: nat, before: Task, after: Task, id: U32)
    requires UdpShape(u) && Pays(before, after, NewSession(id), |u.sessions|)
    ensures Balanced(u, UdpAfter(u, t, NewSession(id)), before, after)
  {
    MappedSame(u, UdpAfter(u, t, NewSession(id)));
    assert forall x | x in u.table :: u.table[x] != |u.sessions|;
  }

  lemma EffectBalanced(u: Udp, t: nat, before: Task, after: Task, effect: Effect)
    requires UdpShape(u) && Pays(before, after, effect, |u.sessions|) && TaskShape(u.sessions, before)
    ensures Balanced(u, UdpAfter(u, t, effect), before, after)
  {
    match effect
    case Remove(id) => UnmapBalanced(u, id);
    case Install(id, sid) => InstallBalanced(u, t, id, sid, before.pkt);
    case NewSession(id) => NewSessionBalanced(u, t, before, after, id);
    case AddSender(_) => CountBalanced(u, t, before, after, effect);
    case Push(_, _) => CountBalanced(u, t, before, after, effect);
    case _ => MappedSame(u, UdpAfter(u, t, effect));
  }

  lemma TaskStepConserved(s: State, t: nat, act: TaskAction)
    requires Shape(s) && Conserved(s.udp, s.tasks) && TaskEnabled(s, t, act)
    ensures var s' := Apply(s, OfTask(t, act)); Conserved(s'.udp, s'.tasks)
  {
    var move := MoveOf(s, t, act);
    var s' := Moved(s, t, move);
    MovePays(s, t, act);
    assert TaskShape(s.udp.sessions, s.tasks[t]);
    EffectBalanced(s.udp, t, s.tasks[t], move.task, move.effect);
    MovedFrame(s, t, move);
    forall sid | 0 <= sid < |s'.udp.sessions|
      ensures s'.udp.sessions[sid].senders == Mapped(s'.udp, sid) + Held(s'.tasks, sid)
    {
      HeldUpdate(s.tasks, t, move.task, sid);
      HeldSame(s.tasks[t := move.task], s'.tasks, sid);
      if sid >= |s.udp.sessions| {
        forall u | 0 <= u < |s.tasks|
          ensures Handles(s.tasks[u], sid) == 0
        {
          assert TaskShape(s.udp.sessions, s.tasks[u]);
        }
        HeldNone(s.tasks, sid);
      }
    }
  }

  lemma HeldSpawn(tasks: seq<Task>, task: Task, sid: nat)
    requires Handles(task, sid) == 0
    ensures Held(tasks + [task], sid) == Held(tasks, sid)
  {
    assert (tasks + [task])[..|tasks|] == tasks;
  }

  /** Nothing that counts has changed. */
  lemma ConservedSame(u: Udp, u': Udp, tasks: seq<Task>, tasks': seq<Task>)
    requires Conserved(u, tasks) && u'.table == u.table && |u'.sessions| == |u.sessions|
    requires forall x | 0 <= x < |u.sessions| ::
               u'.sessions[x].senders == u.sessions[x].senders && u'.sessions[x].assoc == u.sessions[x].assoc
    requires forall x: nat :: Held(tasks', x) == Held(tasks, x)
    ensures Conserved(u', tasks')
  {
    forall x | 0 <= x < |u'.sessions|
      ensures u'.sessions[x].senders == Mapped(u', x) + Held(tasks', x)
    {
      assert Mapped(u', x) == Mapped(u, x);
    }
  }

  lemma OtherStepConserved(s: State, step: Step)
    requires Shape(s) && Conserved(s.udp, s.tasks) && Enabled(s, step) && !step.OfTask?
    ensures var s' := Apply(s, step); Conserved(s'.udp, s'.tasks)
  {
    var s' := Apply(s, step);
    if step.DropEntry? {
      UnmapBalanced(s.udp, step.id);
    } else {
      forall x: nat
        ensures Held(s'.tasks, x) == Held(s.tasks, x)
      {
        if step.WakeTimer? {
          HeldSame(s.tasks, s'.tasks, x);
        } else if step.Arrive? || step.ListenReceived? {
          HeldSpawn(s.tasks, s'.tasks[|s.tasks|], x);
        }
      }
      ConservedSame(s.udp, s'.udp, s.tasks, s'.tasks);
    }
  }

  // ---------------------------------------------------------------- what a session has sent

  function InHand(x: Session): seq<Item> {
    if x.sending.Some? then [x.sending.value] else []
  }

  /** Queue and logs of one session. */
  predicate Logged(x: Session) {
    match x.status
    case Running => x.enqueued == x.sent + InHand(x) + x.queue && |x.queue| <= 1
    case Drained => x.sent == x.enqueued && x.queue == [] && x.sending == None && x.senders == 0
    case Failed => x.sent <= x.enqueued && x.queue == [] && x.sending == None
  }

  predicate AllLogged(ss: seq<Session>) {
    forall sid | 0 <= sid < |ss| :: Logged(ss[sid])
  }

  lemma SessionStepLogged(x: Session, event: SessionAction)
    requires Logged(x) && SessionEnabled(x, event)
    ensures Logged(StepSession(x, event))
  {
  }

  /** A session whose sender a task is about to clone, use or drop has not drained. */
  lemma TouchedIsLive(s: State, t: nat, act: TaskAction)
    requires Shape(s) && Conserved(s.udp, s.tasks) && TaskEnabled(s, t, act)
    ensures var e := MoveOf(s, t, act).effect;
            (e.AddSender? || e.Push?) ==> e.to < |s.udp.sessions| && s.udp.sessions[e.to].senders > 0
    ensures var e := MoveOf(s, t, act).effect;
            e.Push? && s.udp.sessions[e.to].status == Running ==> s.udp.sessions[e.to].queue == []
  {
    assert TaskShape(s.udp.sessions, s.tasks[t]);
    var e := MoveOf(s, t, act).effect;
    if e.AddSender? || e.Push? {
      HeldAtLeast(s.tasks, t, e.to);
    }
  }

  lemma UnmappedIsLive(u: Udp, tasks: seq<Task>, id: U32)
    requires UdpShape(u) && Conserved(u, tasks) && id in u.table
    ensures u.sessions[u.table[id]].senders > 0
  {
    assert Mapped(u, u.table[id]) == 1;
  }

  lemma UnmapLogged(u: Udp, tasks: seq<Task>, id: U32)
    requires UdpShape(u) && Conserved(u, tasks) && AllLogged(u.sessions)
    ensures AllLogged(Unmap(u, id).sessions)
  {
    if id in u.table {
      UnmappedIsLive(u, tasks, id);
      assert Logged(u.sessions[u.table[id]]);
    }
  }

  lemma TaskStepLogged(s: State, t: nat, act: TaskAction)
    requires Shape(s) && Conserved(s.udp, s.tasks) && AllLogged(s.udp.sessions) && TaskEnabled(s, t, act)
    ensures AllLogged(UdpAfter(s.udp, t, MoveOf(s, t, act).effect).sessions)
  {
    TouchedIsLive(s, t, act);
    EffectLogged(s.udp, s.tasks, t, MoveOf(s, t, act).effect);
  }

  lemma EffectLogged(u: Udp, tasks: seq<Task>, t: nat, e: Effect)
    requires UdpShape(u) && Conserved(u, tasks) && AllLogged(u.sessions)
    requires (e.AddSender? || e.Push?) ==> e.to < |u.sessions| && u.sessions[e.to].senders > 0
    requires e.Push? && u.sessions[e.to].status == Running ==> u.sessions[e.to].queue == []
    ensures AllLogged(UdpAfter(u, t, e).sessions)
  {
    match e
    case Remove(id) => UnmapLogged(u, tasks, id);
    case Install(id, _) => UnmapLogged(u, tasks, id);
    case AddSender(sid) => assert Logged(u.sessions[sid]);
    case Push(sid, pkt) => assert Logged(u.sessions[sid]);
    case _ =>
  }

  ghost predicate SessionInv(s: State) {
    Shape(s) && Conserved(s.udp, s.tasks) && AllLogged(s.udp.sessions)
  }

  lemma OtherStepLogged(s: State, step: Step)
    requires SessionInv(s) && Enabled(s, step) && !step.OfTask?
    ensures AllLogged(Apply(s, step).udp.sessions)
  {
    if step.OfSession? {
      SessionStepLogged(s.udp.sessions[step.sid], step.event);
    } else if step.DropEntry? {
      UnmapLogged(s.udp, s.tasks, step.id);
    }
  }

  lemma SessionInit(s: State)
    requires Init(s)
    ensures SessionInv(s)
  {
  }

  lemma {:induction false} SessionInvAlways(run: seq<State>, i: nat)
    requires IsRun(run) && i < |run|
    ensures SessionInv(run[i])
  {
    if i == 0 {
      SessionInit(run[0]);
    } else {
      SessionInvAlways(run, i - 1);
      ShapeAlways(run, i);
      var s, step := run[i - 1], StepAt(run, i - 1);
      if step.OfTask? {
        TaskStepConserved(s, step.t, step.act);
        TaskStepLogged(s, step.t, step.act);
        MovedFrame(s, step.t, MoveOf(s, step.t, step.act));
      } else {
        OtherStepConserved(s, step);
        OtherStepLogged(s, step);
      }
    }
  }

  // ---------------------------------------------------------------- main results

  /** For every session ever created, two racing creators of one id included. */
  lemma SenderConservation(run: seq<State>, i: nat, sid: nat)
    requires IsRun(run) && i < |run| && sid < |run[i].udp.sessions|
    ensures run[i].udp.sessions[sid].senders == Mapped(run[i].udp, sid) + Held(run[i].tasks, sid)
  {
    SessionInvAlways(run, i);
  }

  /** The send loop can end exactly when the session is unmapped, no send is in flight and all is sent. */
  lemma SendLoopEndsExactlyWhen(run: seq<State>, i: nat, sid: nat)
    requires IsRun(run) && i < |run| && sid < |run[i].udp.sessions|
    ensures var x := run[i].udp.sessions[sid];
            SessionEnabled(x, StopSession) <==>
              && x.status == Running && x.sent == x.enqueued
              && Mapped(run[i].udp, sid) == 0
              && forall t | 0 <= t < |run[i].tasks| :: Handles(run[i].tasks[t], sid) == 0
  {
    SessionInvAlways(run, i);
    var s := run[i];
    var x := s.udp.sessions[sid];
    assert Logged(x);
    if SessionEnabled(x, StopSession) {
      forall t | 0 <= t < |s.tasks|
        ensures Handles(s.tasks[t], sid) == 0
      {
        HeldAtLeast(s.tasks, t, sid);
      }
    }
    if forall t | 0 <= t < |s.tasks| :: Handles(s.tasks[t], sid) == 0 {
      HeldNone(s.tasks, sid);
    }
  }

  /** Without a socket error nothing is lost or reordered: what entered the channel is sent, in hand or queued. */
  lemma SentInOrder(run: seq<State>, i: nat, sid: nat)
    requires IsRun(run) && i < |run| && sid < |run[i].udp.sessions|
    ensures var x := run[i].udp.sessions[sid];
            && x.sent <= x.enqueued
            && (x.status != Failed ==> x.enqueued == x.sent + InHand(x) + x.queue)
            && (x.status == Drained ==> x.sent == x.enqueued)
  {
    SessionInvAlways(run, i);
    assert Logged(run[i].udp.sessions[sid]);
  }

  lemma DrainedEffect(u: Udp, tasks: seq<Task>, t: nat, e: Effect, sid: nat)
    requires UdpShape(u) && Conserved(u, tasks) && sid < |u.sessions| && u.sessions[sid].senders == 0
    requires (e.AddSender? || e.Push?) ==> e.to < |u.sessions| && u.sessions[e.to].senders > 0
    ensures sid < |UdpAfter(u, t, e).sessions| && UdpAfter(u, t, e).sessions[sid] == u.sessions[sid]
  {
    if (e.Remove? || e.Install?) && e.id in u.table {
      UnmappedIsLive(u, tasks, e.id);
    }
  }

  lemma DrainedStep(s: State, step: Step, sid: nat)
    requires SessionInv(s) && Enabled(s, step) && sid < |s.udp.sessions| && s.udp.sessions[sid].status == Drained
    ensures sid < |Apply(s, step).udp.sessions| && Apply(s, step).udp.sessions[sid] == s.udp.sessions[sid]
  {
    assert Logged(s.udp.sessions[sid]);
    if step.OfTask? {
      var move := MoveOf(s, step.t, step.act);
      TouchedIsLive(s, step.t, step.act);
      MovedFrame(s, step.t, move);
      DrainedEffect(s.udp, s.tasks, step.t, move.effect, sid);
    } else if step.DropEntry? {
      UnmappedIsLive(s.udp, s.tasks, step.id);
    }
  }

  /** A drained session is never touched again, so no packet can be lost in it. */
  lemma {:induction false} DrainedForever(run: seq<State>, i: nat, j: nat, sid: nat)
    requires IsRun(run) && i <= j < |run| && sid < |run[i].udp.sessions| && run[i].udp.sessions[sid].status == Drained
    ensures sid < |run[j].udp.sessions| && run[j].udp.sessions[sid] == run[i].udp.sessions[sid]
    decreases j
  {
    if i < j {
      DrainedForever(run, i, j - 1, sid);
      SessionInvAlways(run, j - 1);
      DrainedStep(run[j - 1], StepAt(run, j - 1), sid);
    }
  }

  lemma SessionReleasedIff(run: seq<State>, i: nat, sid: nat)
    requires IsRun(run) && i < |run| && sid < |run[i].udp.sessions|
    ensures run[i].udp.sessions[sid].senders == 0 <==>
              Mapped(run[i].udp, sid) == 0 && forall t | 0 <= t < |run[i].tasks| :: Handles(run[i].tasks[t], sid) == 0
  {
    SessionInvAlways(run, i);
    if run[i].udp.sessions[sid].senders == 0 {
      forall t | 0 <= t < |run[i].tasks|
        ensures Handles(run[i].tasks[t], sid) == 0
      {
        HeldAtLeast(run[i].tasks, t, sid);
      }
    } else if forall t | 0 <= t < |run[i].tasks| :: Handles(run[i].tasks[t], sid) == 0 {
      HeldNone(run[i].tasks, sid);
    }
  }

  predicate NothingHeld(tasks: seq<Task>, n: nat) {
    forall t, sid: nat | 0 <= t < |tasks| && sid < n :: Handles(tasks[t], sid) == 0
  }

  /**
   All sessions of a connection are released if and only if its map is empty and no task holds one; so
   they are once the tasks have ended and the map is gone.
   */
  lemma SessionsReleased(run: seq<State>, i: nat)
    requires IsRun(run) && i < |run|
    ensures (forall sid | 0 <= sid < |run[i].udp.sessions| :: run[i].udp.sessions[sid].senders == 0) <==>
              run[i].udp.table == map[] && NothingHeld(run[i].tasks, |run[i].udp.sessions|)
    ensures (forall t | 0 <= t < |run[i].tasks| :: Ended(run[i].tasks[t])) ==>
              NothingHeld(run[i].tasks, |run[i].udp.sessions|)
  {
    SessionInvAlways(run, i);
    var u := run[i].udp;
    forall sid | 0 <= sid < |u.sessions|
      ensures u.sessions[sid].senders == 0 ==>
                Mapped(u, sid) == 0 && forall t | 0 <= t < |run[i].tasks| :: Handles(run[i].tasks[t], sid) == 0
      ensures u.table == map[] && NothingHeld(run[i].tasks, |u.sessions|) ==> u.sessions[sid].senders == 0
    {
      SessionReleasedIff(run, i, sid);
    }
    assert forall id | id in u.table :: Mapped(u, u.table[id]) == 1;
    if forall sid | 0 <= sid < |u.sessions| :: u.sessions[sid].senders == 0 {
      assert u.table == map[];
      forall t, sid: nat | 0 <= t < |run[i].tasks| && sid < |u.sessions|
        ensures Handles(run[i].tasks[t], sid) == 0
      {
        assert u.sessions[sid].senders == 0;
      }
    }
  }

  // ---------------------------------------------------------------- draining

  /** A session left to itself: its own steps in order. */
  ghost predicate Drains(x: Session, events: seq<SessionAction>, y: Session)
    decreases |events|
  {
    if events == [] then x == y
    else SessionEnabled(x, events[0]) && Drains(StepSession(x, events[0]), events[1..], y)
  }

  /** Once nobody holds its sender and its socket works, a session sends what it has, in order, and ends. */
  lemma {:induction false} ReleasedSessionDrains(x: Session) returns (events: seq<SessionAction>, y: Session)
    requires Logged(x) && x.status == Running && x.senders == 0
    ensures Drains(x, events, y) && y.status == Drained && y.sent == x.enqueued
    decreases 2 * |x.queue| + |InHand(x)|
  {
    if x.sending.Some? {
      var z := StepSession(x, SendPacket(true));
      SessionStepLogged(x, SendPacket(true));
      var rest;
      rest, y := ReleasedSessionDrains(z);
      events := [SendPacket(true)] + rest;
      assert events[1..] == rest;
    } else if x.queue != [] {
      var z := StepSession(x, TakePacket);
      SessionStepLogged(x, TakePacket);
      var rest;
      rest, y := ReleasedSessionDrains(z);
      events := [TakePacket] + rest;
      assert events[1..] == rest;
    } else {
      y := StepSession(x, StopSession);
      events := [StopSession];
      assert Drains(y, events[1..], y);
    }
  }
}
