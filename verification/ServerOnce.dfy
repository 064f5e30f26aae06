/** Each packet that a session's socket received goes back to the client at most once. */
module ServerOnce {
  import opened Wire
  import opened Server
  import opened ServerFrame
  import opened ServerTrace

  predicate InOrigin(origin: seq<Origin>, sid: nat, k: nat) {
    exists t :: 0 <= t < |origin| && origin[t] == FromSession(sid, k)
  }

  predicate OriginsKnown(origin: seq<Origin>, ss: seq<Session>) {
    forall t | 0 <= t < |origin| :: origin[t].FromSession? ==>
      origin[t].sid < |ss| && origin[t].k < |ss[origin[t].sid].received|
  }

  predicate OriginsOnce(origin: seq<Origin>) {
    forall t, t' | 0 <= t < |origin| && 0 <= t' < |origin| ::
      origin[t].FromSession? && origin[t] == origin[t'] ==> t == t'
  }

  predicate InboxOnce(inbox: seq<(nat, nat)>, origin: seq<Origin>) {
    && (forall i, j | 0 <= i < j < |inbox| :: inbox[i] != inbox[j])
    && (forall i | 0 <= i < |inbox| :: !InOrigin(origin, inbox[i].0, inbox[i].1))
  }

  /** A packet on its way out of a session is neither in the channel nor with a task yet. */
  predicate HandingOnce(ss: seq<Session>, inbox: seq<(nat, nat)>, origin: seq<Origin>) {
    forall sid: nat | sid < |ss| && ss[sid].handing.Some? ::
      (sid, ss[sid].handing.value) !in inbox && !InOrigin(origin, sid, ss[sid].handing.value)
  }

  predicate RepliesOnce(tasks: seq<Task>, outbox: seq<Reply>) {
    && (forall i | 0 <= i < |outbox| :: outbox[i].task < |tasks| && tasks[outbox[i].task].Done?)
    && (forall i, j | 0 <= i < j < |outbox| :: outbox[i].task != outbox[j].task)
  }

  predicate OnceInv(s: State) {
    && OriginsKnown(s.origin, s.udp.sessions) && OriginsOnce(s.origin)
    && InboxOnce(s.udp.inbox, s.origin)
    && HandingOnce(s.udp.sessions, s.udp.inbox, s.origin)
    && RepliesOnce(s.tasks, s.outbox)
  }

  lemma RepliesOnceStep(s: State, step: Step)
    requires RepliesOnce(s.tasks, s.outbox) && Enabled(s, step)
    ensures RepliesOnce(Apply(s, step).tasks, Apply(s, step).outbox)
  {
    DoneStays(s, step);
    TasksFrame(s, step);
    if step.OfTask? {
      EmitsWhenDone(s, step.t, step.act);
    }
  }

  lemma EmitsWhenDone(s: State, t: nat, act: TaskAction)
    requires TaskEnabled(s, t, act)
    ensures var s' := Apply(s, OfTask(t, act));
            || s'.outbox == s.outbox
            || (|s'.outbox| == |s.outbox| + 1 && s.outbox <= s'.outbox && s'.outbox[|s.outbox|].task == t
                && s.tasks[t].Replying? && s'.tasks[t].Done?)
  {
    MovedFrame(s, t, MoveOf(s, t, act));
  }

  /** Where received packets are does not change while inbox, origins and the sessions' hands do not. */
  predicate Untouched(ss: seq<Session>, ss': seq<Session>) {
    && Extends(ss, ss')
    && (forall sid | 0 <= sid < |ss| :: ss'[sid].handing == ss[sid].handing || ss'[sid].handing == None)
    && (forall sid | |ss| <= sid < |ss'| :: ss'[sid].handing == None)
  }

  lemma EffectUntouched(u: Udp, t: nat, effect: Effect)
    ensures Untouched(u.sessions, UdpAfter(u, t, effect).sessions) && UdpAfter(u, t, effect).inbox == u.inbox
  {
  }

  lemma UntouchedOnce(ss: seq<Session>, ss': seq<Session>, inbox: seq<(nat, nat)>, origin: seq<Origin>)
    requires Untouched(ss, ss') && OriginsKnown(origin, ss) && HandingOnce(ss, inbox, origin)
    ensures OriginsKnown(origin, ss') && HandingOnce(ss', inbox, origin)
  {
  }

  lemma SessionStepOnce(s: State, sid: nat, event: SessionAction)
    requires Shape(s) && OnceInv(s) && Enabled(s, OfSession(sid, event))
    ensures var u := SessionMoved(s.udp, s.gate.listening, sid, event);
            OriginsKnown(s.origin, u.sessions) && InboxOnce(u.inbox, s.origin)
              && HandingOnce(u.sessions, u.inbox, s.origin)
  {
    match event
    case SocketReceive(_) => ReceiveOnce(s.udp, s.gate.listening, s.origin, sid, event);
    case HandOver => HandOverOnce(s.udp, s.gate.listening, s.origin, sid);
    case _ =>
      var u := SessionMoved(s.udp, s.gate.listening, sid, event);
      UntouchedOnce(s.udp.sessions, u.sessions, s.udp.inbox, s.origin);
  }

  lemma ReceiveOnce(u: Udp, listening: bool, origin: seq<Origin>, sid: nat, event: SessionAction)
    requires UdpShape(u) && OriginsKnown(origin, u.sessions) && InboxOnce(u.inbox, origin)
    requires HandingOnce(u.sessions, u.inbox, origin)
    requires sid < |u.sessions| && event.SocketReceive? && SessionEnabled(u.sessions[sid], event)
    ensures var v := SessionMoved(u, listening, sid, event);
            OriginsKnown(origin, v.sessions) && InboxOnce(v.inbox, origin) && HandingOnce(v.sessions, v.inbox, origin)
  {
    var k := |u.sessions[sid].received|;
    assert (sid, k) !in u.inbox && !InOrigin(origin, sid, k);
  }

  lemma HandOverOnce(u: Udp, listening: bool, origin: seq<Origin>, sid: nat)
    requires OriginsKnown(origin, u.sessions) && InboxOnce(u.inbox, origin) && HandingOnce(u.sessions, u.inbox, origin)
    requires sid < |u.sessions| && SessionEnabled(u.sessions[sid], HandOver) && (listening ==> |u.inbox| < 1)
    ensures var v := SessionMoved(u, listening, sid, HandOver);
            OriginsKnown(origin, v.sessions) && InboxOnce(v.inbox, origin) && HandingOnce(v.sessions, v.inbox, origin)
  {
    var v, k := SessionMoved(u, listening, sid, HandOver), u.sessions[sid].handing.value;
    assert !InOrigin(origin, sid, k);
    assert listening ==> v.inbox == [(sid, k)];
    UntouchedOnce(u.sessions, v.sessions, u.inbox, origin);
  }

  lemma ListenOnce(s: State)
    requires Shape(s) && OnceInv(s) && Enabled(s, ListenReceived)
    ensures var s' := Apply(s, ListenReceived);
            && OriginsKnown(s'.origin, s'.udp.sessions) && OriginsOnce(s'.origin)
            && InboxOnce(s'.udp.inbox, s'.origin) && HandingOnce(s'.udp.sessions, s'.udp.inbox, s'.origin)
  {
    var s' := Apply(s, ListenReceived);
    var (sid, k) := s.udp.inbox[0];
    forall x: nat, y: nat | InOrigin(s'.origin, x, y)
      ensures InOrigin(s.origin, x, y) || (x == sid && y == k)
    {
      var t :| 0 <= t < |s'.origin| && s'.origin[t] == FromSession(x, y);
      assert t < |s.origin| ==> s.origin[t] == FromSession(x, y);
    }
    assert !InOrigin(s.origin, sid, k);
    assert forall i | 0 <= i < |s'.udp.inbox| :: s'.udp.inbox[i] == s.udp.inbox[i + 1];
  }

  lemma SpawnOnce(s: State, chan: Channel, bytes: Bytes)
    requires OnceInv(s)
    ensures var o := s.origin + [FromPeer(chan, bytes)];
            && OriginsKnown(o, s.udp.sessions) && OriginsOnce(o)
            && InboxOnce(s.udp.inbox, o) && HandingOnce(s.udp.sessions, s.udp.inbox, o)
  {
    var o := s.origin + [FromPeer(chan, bytes)];
    forall x: nat, y: nat | InOrigin(o, x, y)
      ensures InOrigin(s.origin, x, y)
    {
      var t :| 0 <= t < |o| && o[t] == FromSession(x, y);
      assert s.origin[t] == FromSession(x, y);
    }
  }

  lemma OnceStep(s: State, step: Step)
    requires Shape(s) && OnceInv(s) && Enabled(s, step)
    ensures OnceInv(Apply(s, step))
  {
    RepliesOnceStep(s, step);
    match step
    case Arrive(chan, bytes) => SpawnOnce(s, chan, bytes);
    case OfTask(t, act) =>
      var move := MoveOf(s, t, act);
      MovedFrame(s, t, move);
      EffectUntouched(s.udp, t, move.effect);
      UntouchedOnce(s.udp.sessions, UdpAfter(s.udp, t, move.effect).sessions, s.udp.inbox, s.origin);
    case OfSession(sid, event) => SessionStepOnce(s, sid, event);
    case ListenReceived => ListenOnce(s);
    case DropEntry(id) => UntouchedOnce(s.udp.sessions, Unmap(s.udp, id).sessions, s.udp.inbox, s.origin);
    case _ =>
  }

  lemma OnceInit(s: State)
    requires Init(s)
    ensures OnceInv(s)
  {
  }

  lemma {:induction false} OnceAlways(run: seq<State>, i: nat)
    requires IsRun(run) && i < |run|
    ensures OnceInv(run[i])
  {
    if i == 0 {
      OnceInit(run[0]);
    } else {
      OnceAlways(run, i - 1);
      ShapeAlways(run, i - 1);
      OnceStep(run[i - 1], StepAt(run, i - 1));
    }
  }

  /** Two replies never carry the same received packet. */
  lemma NoReplyTwice(run: seq<State>, i: nat, m: nat, n: nat)
    requires IsRun(run) && i < |run| && m < |run[i].outbox| && n < |run[i].outbox|
    requires run[i].outbox[m].task < |run[i].origin| && run[i].outbox[n].task < |run[i].origin|
    requires run[i].origin[run[i].outbox[m].task] == run[i].origin[run[i].outbox[n].task]
    ensures m == n
  {
    OnceAlways(run, i);
    ReplyProvenance(run, i, m);
  }
}
