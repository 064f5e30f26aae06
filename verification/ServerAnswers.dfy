/** Which Connects are answered. */
module ServerAnswers {
  import opened Wire
  import opened Codec
  import opened Server
  import opened ServerFrame
  import opened ServerTrace
  import opened ServerConnect
  import opened ServerChains
  import opened ServerHistory

  /** The length of a Response. */
  const RESPONSE_LEN: nat := 3

  predicate LookupFails(step: Step, t: nat) {
    step == OfTask(t, Resolve(None))
  }

  predicate Cuts(step: Step, t: nat) {
    step.OfTask? && step.t == t && step.act.Answer? && step.act.n < RESPONSE_LEN
  }

  /** The gate was closed, the name could not be resolved, or the Response was cut off. */
  predicate Spoils(s: State, step: Step, t: nat) {
    Refuses(s, step, t) || LookupFails(step, t) || Cuts(step, t)
  }

  ghost predicate SpoilsAt(run: seq<State>, j: nat, t: nat)
    requires IsRun(run) && j + 1 < |run|
  {
    Spoils(run[j], StepAt(run, j), t)
  }

  ghost predicate CutsAt(run: seq<State>, j: nat, t: nat)
    requires IsRun(run) && j + 1 < |run|
  {
    Cuts(StepAt(run, j), t)
  }

  ghost predicate Spoiled(run: seq<State>, i: nat, t: nat)
    requires IsRun(run) && i < |run|
  {
    exists j: nat :: j < i && SpoilsAt(run, j, t)
  }

  /** How far the task of a Connect has come. */
  function Phase(task: Task): nat {
    match task
    case Fresh => 0
    case Gate(_, _, _) => 1
    case Dispatch(_, _) => 2
    case Resolving(_) => 3
    case Trying(_, _, _) => 4
    case Answered(_, _, _, _) => 5
    case Done => 6
    case _ => 7
  }

  lemma ConnectMove(s: State, t: nat, act: TaskAction, addr: Address)
    requires TaskEnabled(s, t, act) && TaskFrom(s.udp.sessions, s.origin[t], s.tasks[t])
    requires ConnectFrom(s.origin[t], addr) && Phase(s.tasks[t]) < 7
    ensures var move := MoveOf(s, t, act);
            && Phase(s.tasks[t]) <= Phase(move.task) < 7
            && (move.task.Done? <==> Spoils(s, OfTask(t, act), t))
            && (act == Resolve(None) ==> addr.DomainAddress?)
            && (act == PollGate ==> s.tasks[t].Gate?)
  {
  }

  /** How the task of a Connect moves on in a step of the connection. */
  predicate Advances(s: State, s': State, step: Step, t: nat, addr: Address)
    requires t < |s.tasks| && t < |s'.tasks|
  {
    && Phase(s.tasks[t]) <= Phase(s'.tasks[t]) < 7
    && (s'.tasks[t].Done? <==> s.tasks[t].Done? || Spoils(s, step, t))
    && (LookupFails(step, t) ==> addr.DomainAddress?)
    && (Refuses(s, step, t) ==> s.tasks[t].Gate?)
  }

  lemma ConnectNext(run: seq<State>, i: nat, t: nat, o: Origin, addr: Address)
    requires IsRun(run) && i + 1 < |run| && From(run[i], t, o) && ConnectFrom(o, addr) && Phase(run[i].tasks[t]) < 7
    ensures From(run[i + 1], t, o) && Advances(run[i], run[i + 1], StepAt(run, i), t, addr)
  {
    TraceAlways(run, i);
    assert TaskFrom(run[i].udp.sessions, run[i].origin[t], run[i].tasks[t]);
    ConnectStep(run[i], StepAt(run, i), t, o, addr);
  }

  lemma ConnectStep(s: State, step: Step, t: nat, o: Origin, addr: Address)
    requires Enabled(s, step) && From(s, t, o) && ConnectFrom(o, addr) && Phase(s.tasks[t]) < 7
    requires TaskFrom(s.udp.sessions, s.origin[t], s.tasks[t])
    ensures From(Apply(s, step), t, o) && Advances(s, Apply(s, step), step, t, addr)
  {
    TasksFrame(s, step);
    if step.OfTask? && step.t == t {
      ConnectMove(s, t, step.act, addr);
      MovedFrame(s, t, MoveOf(s, t, step.act));
    }
  }

  /** The task of a Connect is done, not answered, if and only if one of the three has happened to it. */
  lemma {:induction false} DoneIffSpoiled(run: seq<State>, i: nat, t: nat, o: Origin, addr: Address)
    requires IsRun(run) && i < |run| && From(run[i], t, o) && ConnectFrom(o, addr)
    ensures Phase(run[i].tasks[t]) < 7
    ensures run[i].tasks[t].Done? <==> Spoiled(run, i, t)
  {
    if i > 0 {
      if t < |run[i - 1].tasks| {
        FromBefore(run, i - 1, t, o);
        DoneIffSpoiled(run, i - 1, t, o, addr);
        ConnectNext(run, i - 1, t, o, addr);
        SpoiledNext(run, i - 1, t);
      } else {
        StartsFresh(run, i - 1, t, o);
        NothingBefore(run, i, t);
      }
    }
  }

  lemma SpoiledNext(run: seq<State>, i: nat, t: nat)
    requires IsRun(run) && i + 1 < |run|
    ensures Spoiled(run, i + 1, t) <==> Spoiled(run, i, t) || SpoilsAt(run, i, t)
  {
  }

  /** Nothing happens to a task before it exists. */
  lemma NothingBefore(run: seq<State>, i: nat, t: nat)
    requires IsRun(run) && 0 < i < |run| && |run[i - 1].tasks| <= t
    ensures !Spoiled(run, i, t)
  {
    forall j: nat | j < i
      ensures !SpoilsAt(run, j, t)
    {
      TasksOnlyGrow(run, j, i - 1);
    }
  }

  /**
   When the task of a Connect has ended, its stream carries a whole Response if and only if the gate was
   not closed to it, its name lookup did not fail and the Response was not cut off.
   */
  lemma ConnectAnsweredIff(run: seq<State>, i: nat, t: nat, addr: Address)
    requires IsRun(run) && i < |run| && t < |run[i].tasks| && t < |run[i].origin| && t < |run[i].biOut|
    requires ConnectFrom(run[i].origin[t], addr) && Ended(run[i].tasks[t])
    ensures Decode(run[i].biOut[t]).Ok? <==> !Spoiled(run, i, t)
    ensures Decode(run[i].biOut[t]).Ok? ==> Decode(run[i].biOut[t]).value.Response?
  {
    DoneIffSpoiled(run, i, t, run[i].origin[t], addr);
    OutAlways(run, i);
    assert OutFrom(run[i].tasks[t], run[i].biOut[t]);
    if run[i].tasks[t].Answered? {
      AnswerDecodes(run[i].tasks[t], run[i].biOut[t]);
    } else {
      UnansweredDoesNot(run[i].biOut[t]);
    }
  }

  lemma UnansweredDoesNot(out: Bytes)
    requires out <= [VERSION, TYPE_RESPONSE]
    ensures Decode(out) == Err(UnexpectedEof)
  {
  }

  // ---------------------------------------------------------------- what a caller can rely on

  lemma {:induction false} PhaseNeverBack(run: seq<State>, i: nat, j: nat, t: nat, o: Origin, addr: Address)
    requires IsRun(run) && i <= j < |run| && From(run[i], t, o) && ConnectFrom(o, addr)
    ensures From(run[j], t, o) && Phase(run[i].tasks[t]) <= Phase(run[j].tasks[t])
    decreases j
  {
    if i < j {
      PhaseNeverBack(run, i, j - 1, t, o, addr);
      DoneIffSpoiled(run, j - 1, t, o, addr);
      ConnectNext(run, j - 1, t, o, addr);
    }
  }

  /** A refusal happens at the gate and ends the task. */
  lemma RefusalEnds(s: State, s': State, step: Step, t: nat, addr: Address)
    requires t < |s.tasks| && t < |s'.tasks| && Advances(s, s', step, t, addr) && Refuses(s, step, t)
    ensures Phase(s.tasks[t]) == 1 && Phase(s'.tasks[t]) == 6
  {
  }

  lemma Acts(s: State, step: Step, t: nat)
    requires Enabled(s, step) && Spoils(s, step, t)
    ensures t < |s.tasks|
  {
  }

  /** A task that is let through at k is not refused, at whatever time j. */
  lemma LetThroughIsNotRefused(run: seq<State>, k: nat, j: nat, t: nat, o: Origin, addr: Address)
    requires IsRun(run) && k < |run| && j + 1 < |run| && From(run[k], t, o) && ConnectFrom(o, addr)
    requires Phase(run[k].tasks[t]) == 2
    ensures !Refuses(run[j], StepAt(run, j), t)
  {
    if Refuses(run[j], StepAt(run, j), t) {
      Acts(run[j], StepAt(run, j), t);
      FromAnywhere(run, k, j, t, o, addr);
      DoneIffSpoiled(run, j, t, o, addr);
      ConnectNext(run, j, t, o, addr);
      RefusalEnds(run[j], run[j + 1], StepAt(run, j), t, addr);
      PhaseNeverBack(run, if j < k then j + 1 else k, if j < k then k else j, t, o, addr);
    }
  }

  lemma FromAnywhere(run: seq<State>, k: nat, j: nat, t: nat, o: Origin, addr: Address)
    requires IsRun(run) && k < |run| && j < |run| && From(run[k], t, o) && ConnectFrom(o, addr) && t < |run[j].tasks|
    ensures From(run[j], t, o)
  {
    if j < k {
      FromEarlier(run, j, k, t, o);
    } else {
      PhaseNeverBack(run, k, j, t, o, addr);
    }
  }

  lemma AddressNeedsNoLookup(run: seq<State>, k: nat, j: nat, t: nat, o: Origin, addr: Address)
    requires IsRun(run) && k < |run| && j + 1 < |run| && From(run[k], t, o) && ConnectFrom(o, addr)
    requires addr.SocketAddress?
    ensures !LookupFails(StepAt(run, j), t)
  {
    if LookupFails(StepAt(run, j), t) {
      Acts(run[j], StepAt(run, j), t);
      FromAnywhere(run, k, j, t, o, addr);
      DoneIffSpoiled(run, j, t, o, addr);
      ConnectNext(run, j, t, o, addr);
    }
  }

  /**
   A Connect to an IP address that has been let through the gate does not end unanswered, unless its
   Response is cut off.
   */
  lemma AddressConnectIsAnswered(run: seq<State>, i: nat, k: nat, t: nat, addr: Address)
    requires IsRun(run) && k <= i < |run| && t < |run[k].tasks| && t < |run[k].origin|
    requires ConnectFrom(run[k].origin[t], addr) && run[k].tasks[t].Dispatch? && addr.SocketAddress?
    requires forall j: nat | j < i :: !CutsAt(run, j, t)
    ensures t < |run[i].tasks| && t < |run[i].biOut|
    ensures Ended(run[i].tasks[t]) ==> Decode(run[i].biOut[t]).Ok?
  {
    var o := run[k].origin[t];
    PhaseNeverBack(run, k, i, t, o, addr);
    ShapeAlways(run, i);
    forall j: nat | j < i
      ensures !SpoilsAt(run, j, t)
    {
      assert !CutsAt(run, j, t);
      LetThroughIsNotRefused(run, k, j, t, o, addr);
      AddressNeedsNoLookup(run, k, j, t, o, addr);
    }
    if Ended(run[i].tasks[t]) {
      ConnectAnsweredIff(run, i, t, addr);
    }
  }

  /** Not every Connect is answered: one whose name cannot be resolved is done, with nothing written. */
  lemma FailedLookupIsNotAnswered(digest: Digest, maxPkt: nat, addr: Address) returns (run: seq<State>)
    requires addr.DomainAddress? && Encodable(addr)
    ensures IsRun(run) && |Last(run).tasks| == |Last(run).origin| == |Last(run).biOut| == 2
    ensures ConnectFrom(Last(run).origin[1], addr) && Last(run).tasks[1] == Done && Last(run).biOut[1] == []
  {
    run := ConnectLetThrough(digest, maxPkt, addr);
    run := TaskTurn(run, 1, DispatchCommand);
    run := TaskTurn(run, 1, Resolve(None));
  }

  lemma ConnectLetThrough(digest: Digest, maxPkt: nat, addr: Address) returns (run: seq<State>)
    requires addr.DomainAddress? && Encodable(addr)
    ensures Chain(run) && Init(run[0]) && Sized(Last(run)) && |Last(run).tasks| == 2 && Last(run).biOut == [[], []]
    ensures Last(run).tasks[1] == Dispatch(Connect(addr), []) && ConnectFrom(Last(run).origin[1], addr)
  {
    var bytes := Encode(Connect(addr));
    ConnectRoundTrip(addr, []);
    assert bytes + [] == bytes;
    run := Hello(digest, maxPkt);
    run := ArriveTurn(run, Bi, bytes);
    run := TaskTurn(run, 1, ReadHeader);
    run := TaskTurn(run, 1, PollGate);
  }
}
