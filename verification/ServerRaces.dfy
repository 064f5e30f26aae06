/** Sessions for one id: when there is at most one, and how there can be two. */
module ServerRaces {
  import opened Wire
  import opened Codec
  import opened Relay
  import opened Server
  import opened ServerFrame
  import opened ServerTrace
  import opened ServerChains
  import opened ServerProgress

  // ---------------------------------------------------------------- at most one

  /** The task is making a session for id. */
  predicate Makes(task: Task, id: U32) {
    Creating(task) && task.assoc == id
  }

  /** It has made one that is not mapped yet. */
  predicate Owns(task: Task, id: U32) {
    (task.Created? || task.Cloned?) && task.assoc == id
  }

  predicate OneMaker(tasks: seq<Task>, id: U32) {
    forall t, u | 0 <= t < |tasks| && 0 <= u < |tasks| && Makes(tasks[t], id) && Makes(tasks[u], id) :: t == u
  }

  predicate AtMostOne(ss: seq<Session>, id: U32) {
    forall a, b | 0 <= a < |ss| && 0 <= b < |ss| && ss[a].assoc == id && ss[b].assoc == id :: a == b
  }

  predicate NoSession(ss: seq<Session>, id: U32) {
    forall a | 0 <= a < |ss| :: ss[a].assoc != id
  }

  /**
   The session for id is mapped or owned by its maker, unless all is over; whoever is about to make one
   is the first.
   */
  ghost predicate Sole(s: State, id: U32) {
    && AtMostOne(s.udp.sessions, id)
    && (forall t | 0 <= t < |s.tasks| && s.tasks[t].Create? && s.tasks[t].assoc == id :: NoSession(s.udp.sessions, id))
    && (|| NoSession(s.udp.sessions, id) || id in s.udp.table || Finished(s)
        || exists t :: 0 <= t < |s.tasks| && Owns(s.tasks[t], id))
  }

  lemma SessionsAfter(u: Udp, t: nat, e: Effect, id: U32)
    ensures var ss := UdpAfter(u, t, e).sessions;
            && (!(e.NewSession? && e.id == id) ==> (AtMostOne(u.sessions, id) ==> AtMostOne(ss, id))
                                                   && (NoSession(u.sessions, id) ==> NoSession(ss, id))
                                                   && (NoSession(ss, id) ==> NoSession(u.sessions, id)))
            && (NoSession(u.sessions, id) ==> AtMostOne(ss, id))
  {
    var ss := UdpAfter(u, t, e).sessions;
    assert |u.sessions| <= |ss| <= |u.sessions| + 1;
    assert forall a | 0 <= a < |u.sessions| :: ss[a].assoc == u.sessions[a].assoc;
    assert |ss| > |u.sessions| ==> e.NewSession? && ss[|u.sessions|].assoc == e.id;
  }

  /** The acting task, seen from an id: how it becomes a maker and an owner, and how it stops being one. */
  ghost predicate MakesBy(s: State, task: Task, move: Move, id: U32) {
    && (move.effect.NewSession? && move.effect.id == id ==> task.Create? && task.assoc == id && Owns(move.task, id))
    && (move.task.Create? && move.task.assoc == id ==> task.Lookup? && id !in s.udp.table && move.effect == Nothing)
    && (Owns(task, id) ==> Owns(move.task, id) || (move.effect.Install? && move.effect.id == id))
  }

  lemma MoveMakes(s: State, t: nat, act: TaskAction, id: U32)
    requires Shape(s) && TaskEnabled(s, t, act)
    ensures MakesBy(s, s.tasks[t], MoveOf(s, t, act), id)
  {
  }

  /** What a move does to the tasks and to the sessions for an id. */
  ghost predicate MovedTo(s: State, s': State, t: nat, move: Move, id: U32) {
    && t < |s.tasks| && |s'.tasks| == |s.tasks|
    && (forall u | 0 <= u < |s.tasks| && u != t :: Same(s.tasks[u], s'.tasks[u]))
    && Same(move.task, s'.tasks[t])
    && (id in s.udp.table || (move.effect.Install? && move.effect.id == id) ==> id in s'.udp.table)
    && (NoSession(s.udp.sessions, id) ==> AtMostOne(s'.udp.sessions, id))
    && (!(move.effect.NewSession? && move.effect.id == id) ==>
          && (AtMostOne(s.udp.sessions, id) ==> AtMostOne(s'.udp.sessions, id))
          && (NoSession(s.udp.sessions, id) <==> NoSession(s'.udp.sessions, id)))
  }

  lemma OthersDoNotMake(tasks: seq<Task>, u: nat, id: U32)
    requires OneMaker(tasks, id) && u < |tasks| && Makes(tasks[u], id)
    ensures forall w | 0 <= w < |tasks| && w != u :: !Makes(tasks[w], id)
  {
  }

  lemma SoleMove(s: State, t: nat, act: TaskAction, id: U32)
    requires Shape(s) && Sole(s, id) && TaskEnabled(s, t, act)
    requires OneMaker(Apply(s, OfTask(t, act)).tasks, id)
    requires id in s.udp.table ==> id in Apply(s, OfTask(t, act)).udp.table
    ensures Sole(Apply(s, OfTask(t, act)), id)
  {
    var move := MoveOf(s, t, act);
    MovedFrame(s, t, move);
    MoveMakes(s, t, act, id);
    SessionsAfter(s.udp, t, move.effect, id);
    TableAfter(s.udp, t, move.effect);
    SoleAfter(s, Moved(s, t, move), t, move, id);
  }

  lemma SoleAfter(s: State, s': State, t: nat, move: Move, id: U32)
    requires Sole(s, id) && MovedTo(s, s', t, move, id) && MakesBy(s, s.tasks[t], move, id) && !Ended(s.tasks[t])
    requires OneMaker(s'.tasks, id)
    ensures Sole(s', id)
  {
    OwnersAfter(s, s', t, move, id);
    forall u | 0 <= u < |s'.tasks| && s'.tasks[u].Create? && s'.tasks[u].assoc == id
      ensures NoSession(s'.udp.sessions, id)
    {
      OthersDoNotMake(s'.tasks, u, id);
      MakerIsFirst(s, s', t, move, u, id);
    }
  }

  /** A task that is about to make a session for id finds none, if it is the only one to do so. */
  lemma MakerIsFirst(s: State, s': State, t: nat, move: Move, u: nat, id: U32)
    requires Sole(s, id) && MovedTo(s, s', t, move, id) && MakesBy(s, s.tasks[t], move, id) && !Ended(s.tasks[t])
    requires u < |s.tasks| && s'.tasks[u].Create? && s'.tasks[u].assoc == id
    requires forall w | 0 <= w < |s'.tasks| && w != u :: !Makes(s'.tasks[w], id)
    ensures NoSession(s'.udp.sessions, id)
  {
    if u == t {
      assert forall w | 0 <= w < |s.tasks| && w != t :: Makes(s.tasks[w], id) ==> Makes(s'.tasks[w], id);
      assert forall w | 0 <= w < |s.tasks| :: !Owns(s.tasks[w], id);
    } else {
      assert s.tasks[u] == s'.tasks[u];
    }
  }

  /** Without a Dissociate for it, an entry stays as long as tasks run. */
  lemma EntryKept(s: State, t: nat, act: TaskAction, id: U32)
    requires TraceInv(s) && TaskEnabled(s, t, act) && !DissociateFrom(s.origin[t], id)
    ensures id in s.udp.table ==> id in Apply(s, OfTask(t, act)).udp.table
  {
    RemoveFrom(s, t, act);
    TableAfter(s.udp, t, MoveOf(s, t, act).effect);
    MovedFrame(s, t, MoveOf(s, t, act));
  }

  /** An owner stays one, or its session gets mapped. */
  lemma OwnersAfter(s: State, s': State, t: nat, move: Move, id: U32)
    requires MovedTo(s, s', t, move, id) && MakesBy(s, s.tasks[t], move, id)
    ensures (exists u :: 0 <= u < |s.tasks| && Owns(s.tasks[u], id)) ==>
              id in s'.udp.table || exists u :: 0 <= u < |s'.tasks| && Owns(s'.tasks[u], id)
    ensures Owns(move.task, id) ==> exists u :: 0 <= u < |s'.tasks| && Owns(s'.tasks[u], id)
  {
    if u :| 0 <= u < |s.tasks| && Owns(s.tasks[u], id) {
      assert u != t ==> Owns(s'.tasks[u], id);
      assert Owns(move.task, id) ==> Owns(s'.tasks[t], id);
    }
    assert Owns(move.task, id) ==> Owns(s'.tasks[t], id);
  }

  lemma SoleOther(s: State, step: Step, id: U32)
    requires Shape(s) && Sole(s, id) && Enabled(s, step) && !step.OfTask?
    ensures Sole(Apply(s, step), id)
  {
    var s' := Apply(s, step);
    TasksFrame(s, step);
    GateFrame(s, step);
    assert |s'.udp.sessions| == |s.udp.sessions|;
    assert forall a | 0 <= a < |s.udp.sessions| :: s'.udp.sessions[a].assoc == s.udp.sessions[a].assoc;
    if w :| 0 <= w < |s.tasks| && Owns(s.tasks[w], id) {
      assert Owns(s'.tasks[w], id);
    }
    if Finished(s) {
      assert |s'.tasks| == |s.tasks| && forall t | 0 <= t < |s.tasks| :: Ended(s'.tasks[t]);
    }
  }

  /**
   No Dissociate for id has arrived by position i, and at no time until then were two tasks making a
   session for it.
   */
  ghost predicate Orderly(run: seq<State>, i: nat, id: U32)
    requires i < |run|
  {
    && (forall t | 0 <= t < |run[i].origin| :: !DissociateFrom(run[i].origin[t], id))
    && (forall j: nat | j <= i :: OneMaker(run[j].tasks, id))
  }

  lemma OrderlyBefore(run: seq<State>, i: nat, id: U32)
    requires IsRun(run) && i + 1 < |run| && Orderly(run, i + 1, id)
    ensures Orderly(run, i, id)
  {
    NextFrame(run, i);
    assert forall t | 0 <= t < |run[i].origin| :: run[i].origin[t] == run[i + 1].origin[t];
  }

  lemma SoleNext(run: seq<State>, i: nat, id: U32)
    requires IsRun(run) && i + 1 < |run| && Orderly(run, i, id) && OneMaker(run[i + 1].tasks, id) && Sole(run[i], id)
    ensures Sole(run[i + 1], id)
  {
    var step := StepAt(run, i);
    TraceAlways(run, i);
    if step.OfTask? {
      EntryKept(run[i], step.t, step.act, id);
      SoleMove(run[i], step.t, step.act, id);
    } else {
      SoleOther(run[i], step, id);
    }
  }

  lemma {:induction false} SoleAlways(run: seq<State>, i: nat, id: U32)
    requires IsRun(run) && i < |run| && Orderly(run, i, id)
    ensures Sole(run[i], id)
  {
    if i > 0 {
      OrderlyBefore(run, i - 1, id);
      SoleAlways(run, i - 1, id);
      SoleNext(run, i - 1, id);
    }
  }

  /**
   One UDP socket per associate id: at most one session was ever made for an id for which no Dissociate
   has arrived and no two tasks were making a session at the same time.
   */
  lemma OneSessionPerId(run: seq<State>, i: nat, id: U32)
    requires IsRun(run) && i < |run| && Orderly(run, i, id)
    ensures AtMostOne(run[i].udp.sessions, id)
  {
    SoleAlways(run, i, id);
  }

  // ---------------------------------------------------------------- how there can be two

  /** Tasks that own a session own different ones. */
  predicate OwnersDiffer(tasks: seq<Task>) {
    forall t, u | 0 <= t < u < |tasks| && (tasks[t].Created? || tasks[t].Cloned?)
      && (tasks[u].Created? || tasks[u].Cloned?) ::
      tasks[t].sid != tasks[u].sid
  }

  lemma MoveOwns(s: State, t: nat, act: TaskAction)
    requires Shape(s) && TaskEnabled(s, t, act)
    ensures var (task, move) := (s.tasks[t], MoveOf(s, t, act));
            move.task.Created? || move.task.Cloned? ==>
              move.task.sid == |s.udp.sessions| || ((task.Created? || task.Cloned?) && task.sid == move.task.sid)
  {
  }

  lemma {:induction false} OwnersDifferAlways(run: seq<State>, i: nat)
    requires IsRun(run) && i < |run|
    ensures OwnersDiffer(run[i].tasks)
  {
    if i > 0 {
      OwnersDifferAlways(run, i - 1);
      ShapeAlways(run, i - 1);
      OwnersDifferStep(run[i - 1], StepAt(run, i - 1));
    }
  }

  lemma OwnersDifferStep(s: State, step: Step)
    requires Shape(s) && OwnersDiffer(s.tasks) && Enabled(s, step)
    ensures OwnersDiffer(Apply(s, step).tasks)
  {
    TasksFrame(s, step);
    if step.OfTask? {
      var move := MoveOf(s, step.t, step.act);
      MoveOwns(s, step.t, step.act);
      MovedFrame(s, step.t, move);
      OwnersDifferKept(s.tasks, Apply(s, step).tasks, s.udp.sessions, step.t, move.task);
    }
  }

  lemma OwnersDifferKept(tasks: seq<Task>, tasks': seq<Task>, ss: seq<Session>, t: nat, task: Task)
    requires OwnersDiffer(tasks) && TasksShape(tasks, ss) && |tasks'| == |tasks| && t < |tasks|
    requires forall u | 0 <= u < |tasks| && u != t :: Same(tasks[u], tasks'[u])
    requires Same(task, tasks'[t])
    requires task.Created? || task.Cloned? ==>
               task.sid == |ss| || ((tasks[t].Created? || tasks[t].Cloned?) && tasks[t].sid == task.sid)
    ensures OwnersDiffer(tasks')
  {
    forall u | 0 <= u < |tasks| && (tasks[u].Created? || tasks[u].Cloned?)
      ensures tasks[u].sid < |ss|
    {
      assert TaskShape(ss, tasks[u]);
    }
  }

  /** A maker that has not bound its socket yet can do so, and then owns a session. */
  lemma OwnTurn(before: seq<State>, t: nat, id: U32) returns (run: seq<State>)
    requires IsRun(before) && t < |Last(before).tasks| && Makes(Last(before).tasks[t], id)
    ensures IsRun(run) && before <= run && |Last(run).tasks| == |Last(before).tasks| && Owns(Last(run).tasks[t], id)
    ensures forall u | 0 <= u < |Last(run).tasks| && u != t :: Last(run).tasks[u] == Last(before).tasks[u]
  {
    run := before;
    ShapeAlways(before, |before| - 1);
    if Last(before).tasks[t].Create? {
      run := TaskTurn(before, t, Bind(true));
    }
  }

  /** The other half: whenever two tasks are making a session for one id, there can be two sessions for it. */
  lemma TwoMakersCanMakeTwo(before: seq<State>, t: nat, u: nat, id: U32) returns (run: seq<State>)
    requires IsRun(before) && t < |Last(before).tasks| && u < |Last(before).tasks| && t != u
    requires Makes(Last(before).tasks[t], id) && Makes(Last(before).tasks[u], id)
    ensures IsRun(run) && before <= run && !AtMostOne(Last(run).udp.sessions, id)
  {
    run := OwnTurn(before, t, id);
    run := OwnTurn(run, u, id);
    var n, s := |run| - 1, Last(run);
    ShapeAlways(run, n);
    OwnersDifferAlways(run, n);
    assert TaskShape(s.udp.sessions, s.tasks[t]) && TaskShape(s.udp.sessions, s.tasks[u]);
    assert s.udp.sessions[s.tasks[t].sid].assoc == s.udp.sessions[s.tasks[u].sid].assoc == id;
  }

  /**
   Two sends for one unmapped id that look it up before either has inserted can both make a session:
   the later insert wins the entry, and the earlier session lives on with only its creator's sender.
   */
  lemma RacingSendsMakeTwoSessions(before: seq<State>, t: nat, u: nat, id: U32) returns (run: seq<State>)
    requires Chain(before) && Sized(Last(before)) && id !in Last(before).udp.table
    requires t < |Last(before).tasks| && u < |Last(before).tasks| && t != u
    requires Last(before).tasks[t].Lookup? && Last(before).tasks[t].assoc == id
    requires Last(before).tasks[u].Lookup? && Last(before).tasks[u].assoc == id
    ensures Chain(run) && run[0] == before[0] && Last(run).origin == Last(before).origin
    ensures var (x, n) := (Last(run).udp, |Last(before).udp.sessions|);
            && |x.sessions| == n + 2 && x.sessions[n].assoc == x.sessions[n + 1].assoc == id
            && x.sessions[n].status == x.sessions[n + 1].status == Server.Running
            && id in x.table && x.table[id] == n + 1
            && x.sessions[n].senders == 1 && x.sessions[n + 1].senders == 2
  {
    var p, q, n := Last(before).tasks[t].pkt, Last(before).tasks[u].pkt, |Last(before).udp.sessions|;
    run := SoloCreate(before, before, t, id, p);
    run := SoloCreate(run, run, u, id, q);
    run := SoloInstall(run, run, t, id, n, p);
    run := SoloInstall(run, run, u, id, n + 1, q);
  }

  /**
   So an id can have two live sessions at once, in a run from the start of a connection: a client
   authenticates and its first two packets of one association are handled side by side.
   */
  lemma TwoSessionsForOneId(digest: Digest, maxPkt: nat, id: U32, p: UdpPacket, q: UdpPacket) returns (run: seq<State>)
    requires Encodable(p.addr) && Encodable(q.addr)
    ensures IsRun(run)
    ensures forall t | 0 <= t < |Last(run).origin| :: !DissociateFrom(Last(run).origin[t], id)
    ensures var u := Last(run).udp;
            && |u.sessions| == 2 && u.sessions[0].assoc == u.sessions[1].assoc == id
            && u.sessions[0].status == u.sessions[1].status == Server.Running
            && u.sessions[0].senders > 0 && id in u.table && u.table[id] == 1
  {
    run := TwoAtTheMap(digest, maxPkt, id, p, q);
    run := RacingSendsMakeTwoSessions(run, 1, 2, id);
  }

  lemma TwoAtTheMap(digest: Digest, maxPkt: nat, id: U32, p: UdpPacket, q: UdpPacket) returns (run: seq<State>)
    requires Encodable(p.addr) && Encodable(q.addr)
    ensures Chain(run) && Init(run[0]) && Sized(Last(run)) && |Last(run).tasks| == 3
    ensures Last(run).tasks[1] == Lookup(id, Whole(p)) && Last(run).tasks[2] == Lookup(id, Whole(q))
    ensures Last(run).udp == Udp(Some(Datagram), map[], [], [])
    ensures forall t | 0 <= t < |Last(run).origin| :: !DissociateFrom(Last(run).origin[t], id)
  {
    run := BothArrive(digest, maxPkt, id, p, q);
    run := ToMap(run, 1, id, p);
    run := ToMap(run, 2, id, q);
  }

  lemma BothArrive(digest: Digest, maxPkt: nat, id: U32, p: UdpPacket, q: UdpPacket) returns (run: seq<State>)
    ensures Chain(run) && Init(run[0]) && Sized(Last(run)) && Open(Last(run).gate)
    ensures Last(run).tasks == [Waking(false), Fresh, Fresh] && Last(run).udp == Udp(None, map[], [], [])
    ensures Last(run).origin ==
              [FromPeer(Uni, Encode(Authenticate(digest))), FromPeer(Dgram, Frame(id, p)),
                FromPeer(Dgram, Frame(id, q))]
    ensures forall t | 0 <= t < |Last(run).origin| :: !DissociateFrom(Last(run).origin[t], id)
  {
    ShortRoundTrip(Authenticate(digest), []);
    assert Encode(Authenticate(digest)) + [] == Encode(Authenticate(digest));
    run := Hello(digest, maxPkt);
    run := ArriveTurn(run, Dgram, Frame(id, p));
    run := ArriveTurn(run, Dgram, Frame(id, q));
  }

  // ---------------------------------------------------------------- after a Dissociate

  /** Since before, only task t has moved. */
  ghost predicate Solo(before: seq<State>, run: seq<State>, t: nat) {
    && 0 < |before| && before <= run && t < |Last(before).tasks|
    && forall j | |before| <= j < |run| ::
         && |run[j].tasks| == |Last(before).tasks|
         && forall u | 0 <= u < |run[j].tasks| && u != t :: run[j].tasks[u] == Last(before).tasks[u]
  }

  lemma SoloTurn(before: seq<State>, run: seq<State>, t: nat, act: TaskAction) returns (run': seq<State>)
    requires Solo(before, run, t) && Chain(run) && Sized(Last(run)) && TaskEnabled(Last(run), t, act)
    requires !MoveOf(Last(run), t, act).effect.WakeList?
    ensures Solo(before, run', t) && Chain(run') && run'[0] == run[0] && Sized(Last(run'))
    ensures Last(run').tasks == Last(run).tasks[t := MoveOf(Last(run), t, act).task]
    ensures Last(run').udp == UdpAfter(Last(run).udp, t, MoveOf(Last(run), t, act).effect)
    ensures Last(run').gate == GateAfter(Last(run).gate, t, MoveOf(Last(run), t, act).effect)
    ensures Last(run').origin == Last(run).origin
  {
    run' := TaskTurn(run, t, act);
    assert run <= run';
    forall j | |before| <= j < |run'|
      ensures |run'[j].tasks| == |Last(before).tasks|
      ensures forall u | 0 <= u < |run'[j].tasks| && u != t :: run'[j].tasks[u] == Last(before).tasks[u]
    {
      if j < |run| {
        assert run'[j] == run[j];
      } else if |run| > |before| {
        assert Last(run) == run[|run| - 1];
      }
    }
  }

  predicate NoMaker(tasks: seq<Task>, id: U32) {
    forall t | 0 <= t < |tasks| :: !Makes(tasks[t], id)
  }

  /** At no time were two tasks making a session for id. */
  predicate Calm(run: seq<State>, id: U32) {
    forall j | 0 <= j < |run| :: OneMaker(run[j].tasks, id)
  }

  lemma SoloIsCalm(before: seq<State>, run: seq<State>, t: nat, id: U32)
    requires Solo(before, run, t) && Calm(before, id) && NoMaker(Last(before).tasks, id)
    ensures Calm(run, id)
  {
    forall j | 0 <= j < |run|
      ensures OneMaker(run[j].tasks, id)
    {
      if j < |before| {
        assert run[j] == before[j];
      } else {
        assert forall u | 0 <= u < |run[j].tasks| && u != t :: !Makes(run[j].tasks[u], id);
      }
    }
  }

  /** One more message arrives. */
  lemma CalmArrival(before: seq<State>, chan: Channel, bytes: Bytes, id: U32) returns (run: seq<State>)
    requires Chain(before) && Sized(Last(before)) && Last(before).gate.listening
    requires Calm(before, id) && NoMaker(Last(before).tasks, id)
    ensures Chain(run) && run[0] == before[0] && Sized(Last(run)) && Calm(run, id) && NoMaker(Last(run).tasks, id)
    ensures Last(run).tasks == Last(before).tasks + [Fresh]
    ensures Last(run).origin == Last(before).origin + [FromPeer(chan, bytes)]
    ensures Last(run).gate == Last(before).gate && Last(run).udp == Last(before).udp
  {
    run := ArriveTurn(before, chan, bytes);
    assert forall j | 0 <= j < |before| :: run[j] == before[j];
  }

  /** A packet for an unmapped id arrives and is handled without interruption: it makes a session and maps it. */
  lemma PacketMakesSession(before: seq<State>, id: U32, pkt: UdpPacket) returns (run: seq<State>)
    requires Chain(before) && Sized(Last(before)) && Open(Last(before).gate) && Encodable(pkt.addr)
    requires Calm(before, id) && NoMaker(Last(before).tasks, id)
    requires id !in Last(before).udp.table && Last(before).udp.latch in {None, Some(Datagram)}
    ensures Chain(run) && run[0] == before[0] && Sized(Last(run)) && Last(run).gate == Last(before).gate
    ensures Calm(run, id) && NoMaker(Last(run).tasks, id) && Last(run).udp.latch == Some(Datagram)
    ensures Last(run).tasks == Last(before).tasks + [Sending(|Last(before).udp.sessions|, Whole(pkt))]
    ensures var (u, u') := (Last(before).udp, Last(run).udp);
            && u'.table == u.table[id := |u.sessions|] && |u'.sessions| == |u.sessions| + 1
            && u'.sessions[..|u.sessions|] == u.sessions
            && u'.sessions[|u.sessions|].assoc == id && u'.sessions[|u.sessions|].status == Server.Running
  {
    var t := |Last(before).tasks|;
    var arrived := CalmArrival(before, Dgram, Frame(id, pkt), id);
    run := ToMap(arrived, t, id, pkt);
    run := SoloSend(arrived, run, t, id, Whole(pkt));
    SoloIsCalm(arrived, run, t, id);
  }

  lemma SoloSend(before: seq<State>, run: seq<State>, t: nat, id: U32, pkt: UdpPacket) returns (run': seq<State>)
    requires Solo(before, run, t) && Chain(run) && Sized(Last(run)) && t < |Last(run).tasks|
    requires Last(run).tasks[t] == Lookup(id, pkt) && id !in Last(run).udp.table
    ensures Solo(before, run', t) && Chain(run') && run'[0] == run[0] && Sized(Last(run'))
    ensures Last(run').gate == Last(run).gate
    ensures Last(run').tasks == Last(run).tasks[t := Sending(|Last(run).udp.sessions|, pkt)]
    ensures var (u, u') := (Last(run).udp, Last(run').udp);
            && u'.latch == u.latch && u'.table == u.table[id := |u.sessions|] && |u'.sessions| == |u.sessions| + 1
            && u'.sessions[..|u.sessions|] == u.sessions
            && u'.sessions[|u.sessions|].assoc == id && u'.sessions[|u.sessions|].status == Server.Running
  {
    run' := SoloCreate(before, run, t, id, pkt);
    run' := SoloInstall(before, run', t, id, |Last(run).udp.sessions|, pkt);
  }

  lemma SoloCreate(before: seq<State>, run: seq<State>, t: nat, id: U32, pkt: UdpPacket) returns (run': seq<State>)
    requires Solo(before, run, t) && Chain(run) && Sized(Last(run)) && t < |Last(run).tasks|
    requires Last(run).tasks[t] == Lookup(id, pkt) && id !in Last(run).udp.table
    ensures Solo(before, run', t) && Chain(run') && run'[0] == run[0] && Sized(Last(run'))
    ensures Last(run').gate == Last(run).gate && Last(run').origin == Last(run).origin
    ensures Last(run').tasks == Last(run).tasks[t := Created(id, |Last(run).udp.sessions|, pkt)]
    ensures Last(run').udp == Last(run).udp.(sessions := Last(run).udp.sessions + [Opened(id)])
  {
    run' := SoloTurn(before, run, t, LookUp);
    run' := SoloTurn(before, run', t, Bind(true));
  }

  lemma SoloInstall(before: seq<State>, run: seq<State>, t: nat, id: U32, n: nat, pkt: UdpPacket)
    returns (run': seq<State>)
    requires Solo(before, run, t) && Chain(run) && Sized(Last(run)) && t < |Last(run).tasks|
    requires Last(run).tasks[t] == Created(id, n, pkt) && n < |Last(run).udp.sessions|
    ensures Solo(before, run', t) && Chain(run') && run'[0] == run[0] && Sized(Last(run'))
    ensures Last(run').gate == Last(run).gate && Last(run').origin == Last(run).origin
    ensures Last(run').tasks == Last(run).tasks[t := Sending(n, pkt)]
    ensures var u := Last(run).udp;
            Last(run').udp == UdpAfter(u.(sessions := Counted(u.sessions, n, 1)), t, Install(id, n))
  {
    run' := SoloTurn(before, run, t, CloneSender);
    run' := SoloTurn(before, run', t, Insert);
  }

  lemma ToMap(before: seq<State>, t: nat, id: U32, pkt: UdpPacket) returns (run: seq<State>)
    requires Chain(before) && Sized(Last(before)) && t < |Last(before).tasks| && Last(before).tasks[t] == Fresh
    requires Encodable(pkt.addr) && Last(before).origin[t] == FromPeer(Dgram, Frame(id, pkt))
    requires Open(Last(before).gate) && Last(before).udp.latch in {None, Some(Datagram)}
    ensures Solo(before, run, t) && Chain(run) && run[0] == before[0] && Sized(Last(run))
    ensures Last(run).tasks == Last(before).tasks[t := Lookup(id, Whole(pkt))] && Last(run).gate == Last(before).gate
    ensures Last(run).udp == Last(before).udp.(latch := Some(Datagram)) && Last(run).origin == Last(before).origin
  {
    PacketRoundTrip(id, LenField(pkt.payload), pkt.addr, pkt.payload);
    Canonical(Frame(id, pkt));
    run := SoloTurn(before, before, t, ReadHeader);
    run := SoloTurn(before, run, t, PollGate);
    run := SoloTurn(before, run, t, DispatchCommand);
  }

  /** A Dissociate arrives and is handled without interruption. */
  lemma DissociateUnmaps(before: seq<State>, id: U32) returns (run: seq<State>)
    requires Chain(before) && Sized(Last(before)) && Open(Last(before).gate)
    requires Calm(before, id) && NoMaker(Last(before).tasks, id)
    ensures Chain(run) && run[0] == before[0] && Sized(Last(run)) && Last(run).gate == Last(before).gate
    ensures Calm(run, id) && NoMaker(Last(run).tasks, id)
    ensures Last(run).udp == Unmap(Last(before).udp, id)
  {
    var t, bytes := |Last(before).tasks|, Encode(Dissociate(id));
    ShortRoundTrip(Dissociate(id), []);
    assert bytes + [] == bytes;
    var arrived := CalmArrival(before, Uni, bytes, id);
    run := SoloTurn(arrived, arrived, t, ReadHeader);
    run := SoloTurn(arrived, run, t, PollGate);
    run := SoloTurn(arrived, run, t, DispatchCommand);
    SoloIsCalm(arrived, run, t, id);
  }

  /**
   The other condition cannot be dropped either: a packet that is handled after the Dissociate of its
   id makes a second session, though no two tasks were ever making one at the same time.
   */
  lemma PacketAfterDissociateMakesAnother(digest: Digest, maxPkt: nat, id: U32, p: UdpPacket, q: UdpPacket)
    returns (run: seq<State>)
    requires Encodable(p.addr) && Encodable(q.addr)
    ensures IsRun(run) && Calm(run, id)
    ensures var u := Last(run).udp;
            && |u.sessions| == 2 && u.sessions[0].assoc == u.sessions[1].assoc == id
            && u.sessions[1].status == Server.Running && id in u.table && u.table[id] == 1
  {
    run := Hello(digest, maxPkt);
    run := PacketMakesSession(run, id, p);
    run := DissociateUnmaps(run, id);
    run := PacketMakesSession(run, id, q);
  }
}
