/**
 The manager's wait for a request with its poll taken apart: the strong count is loaded, and only later
 is the waker stored. In between, the request listener may count a new request in and find no waker to
 take. This is the wait alone; in the client's transition system a poll is one step.
 */
module SplitWait {
  import opened Wire

  /** The manager; missed are the requests that were registered since the load. */
  datatype ManagerPc =
    | Ready                              // runs, about to poll
    | Loaded(missed: set<nat>)           // the count was one
    | Parked(missed: set<nat>)           // waker stored, Pending
    | Woken                              // the count was above one: goes on to connect

  /** Requests are numbered; the listener may be between counting one in and taking the waker. */
  datatype State = State(
    strong: int,
    slot: bool,
    live: set<nat>,                      // requests that hold a clone of the register
    next: nat,
    registering: Option<nat>,
    manager: ManagerPc
  )

  datatype Step =
    | CountIn                            // clone(): the strong count
    | TakeWaker                          // clone(): the waker
    | EndRequest(r: nat)
    | Load
    | Store
    | PollAgain

  predicate Init(s: State) {
    s == State(1, false, {}, 0, None, Ready)
  }

  predicate Enabled(s: State, step: Step) {
    match step
    case CountIn => s.registering == None
    case TakeWaker => s.registering.Some?
    case EndRequest(r) => r in s.live && s.registering != Some(r)
    case Load => s.manager.Ready?
    case Store => s.manager.Loaded?
    case PollAgain => s.manager.Woken?
  }

  function Apply(s: State, step: Step): State
    requires Enabled(s, step)
  {
    match step
    case CountIn =>
      s.(strong := s.strong + 1, live := s.live + {s.next}, next := s.next + 1, registering := Some(s.next))
    case TakeWaker =>
      s.(slot := false, registering := None,
         manager := match s.manager
                    case Parked(_) => if s.slot then Ready else s.manager
                    case Loaded(missed) => Loaded(missed + {s.registering.value})
                    case Ready => Ready
                    case Woken => Woken)
    case EndRequest(r) => s.(strong := s.strong - 1, live := s.live - {r})
    case Load => s.(manager := if s.strong > 1 then Woken else Loaded({}))
    case Store => s.(slot := true, manager := Parked(s.manager.missed))
    case PollAgain => s.(manager := Ready)
  }

  ghost predicate Next(s: State, s': State) {
    exists step: Step :: Enabled(s, step) && s' == Apply(s, step)
  }

  ghost predicate NextAt(run: seq<State>, i: nat)
    requires i + 1 < |run|
  {
    Next(run[i], run[i + 1])
  }

  ghost predicate IsRun(run: seq<State>) {
    |run| > 0 && Init(run[0]) && forall i: nat | i + 1 < |run| :: NextAt(run, i)
  }

  // ---------------------------------------------------------------- when the manager is lost

  /** Parked with a request to serve, and the listener is not on the way to wake it. */
  predicate Lost(s: State) {
    s.manager.Parked? && s.live != {} && s.registering == None
  }

  /** A live request was missed, or is just being registered. */
  predicate Inv(s: State) {
    && s.strong == 1 + |s.live| && (forall r | r in s.live :: r < s.next)
    && (s.registering.Some? ==> s.registering.value in s.live)
    && (s.manager.Parked? <==> s.slot)
    && (s.manager.Loaded? || s.manager.Parked? ==>
          forall r | r in s.live :: r in s.manager.missed || s.registering == Some(r))
  }

  lemma InvStep(s: State, step: Step)
    requires Inv(s) && Enabled(s, step)
    ensures Inv(Apply(s, step))
  {
    match step
    case CountIn => assert |s.live + {s.next}| == |s.live| + 1;
    case EndRequest(r) => assert |s.live - {r}| == |s.live| - 1;
    case Load => assert s.strong <= 1 ==> s.live == {};
    case _ =>
  }

  lemma {:induction false} InvAlways(run: seq<State>, i: nat)
    requires IsRun(run) && i < |run|
    ensures Inv(run[i])
  {
    if i > 0 {
      InvAlways(run, i - 1);
      assert NextAt(run, i - 1);
      var step :| Enabled(run[i - 1], step) && run[i] == Apply(run[i - 1], step);
      InvStep(run[i - 1], step);
    }
  }

  /**
   In every run, the parked manager has a request to serve and no wake to come if and only if a request
   that was registered between its load and its store is still live, and none is being registered.
   */
  lemma LostIff(run: seq<State>, i: nat)
    requires IsRun(run) && i < |run| && run[i].manager.Parked?
    ensures Lost(run[i]) <==> run[i].registering == None && run[i].manager.missed * run[i].live != {}
  {
    InvAlways(run, i);
    var s := run[i];
    if Lost(s) {
      var r :| r in s.live;
      assert r in s.manager.missed * s.live;
    }
  }

  /** The next request that is registered ends it: the manager runs again, and finds the count above one. */
  lemma NextRequestWakes(run: seq<State>, i: nat)
    requires IsRun(run) && i < |run| && Lost(run[i])
    ensures Enabled(run[i], CountIn) && Enabled(Apply(run[i], CountIn), TakeWaker)
    ensures var s := Apply(Apply(run[i], CountIn), TakeWaker);
            Enabled(s, Load) && Apply(s, Load).manager.Woken?
  {
    InvAlways(run, i);
    InvStep(run[i], CountIn);
    InvStep(Apply(run[i], CountIn), TakeWaker);
    var s := Apply(Apply(run[i], CountIn), TakeWaker);
    assert |s.live| > 0;
  }

  // ---------------------------------------------------------------- atomic polls

  /** No waker is taken between a load and its store. */
  ghost predicate Atomic(run: seq<State>) {
    forall i: nat | i + 1 < |run| && TakesAt(run, i) :: !run[i].manager.Loaded?
  }

  ghost predicate TakesAt(run: seq<State>, i: nat)
    requires i + 1 < |run|
  {
    Enabled(run[i], TakeWaker) && run[i + 1] == Apply(run[i], TakeWaker)
  }

  lemma {:induction false} NoneMissed(run: seq<State>, i: nat)
    requires IsRun(run) && Atomic(run) && i < |run|
    ensures run[i].manager.Loaded? || run[i].manager.Parked? ==> run[i].manager.missed == {}
  {
    if i > 0 {
      NoneMissed(run, i - 1);
      assert NextAt(run, i - 1);
      var step :| Enabled(run[i - 1], step) && run[i] == Apply(run[i - 1], step);
      if step.TakeWaker? {
        assert TakesAt(run, i - 1);
      }
    }
  }

  /** With polls that no registration interrupts the manager is never lost. */
  lemma AtomicPollsLoseNothing(run: seq<State>, i: nat)
    requires IsRun(run) && Atomic(run) && i < |run|
    ensures !Lost(run[i])
  {
    NoneMissed(run, i);
    if run[i].manager.Parked? {
      LostIff(run, i);
    }
  }

  lemma Turn(run: seq<State>, step: Step) returns (run': seq<State>)
    requires IsRun(run) && Enabled(run[|run| - 1], step)
    ensures IsRun(run') && |run'| == |run| + 1 && run'[|run|] == Apply(run[|run| - 1], step)
  {
    assert Next(run[|run| - 1], Apply(run[|run| - 1], step));
    run' := run + [Apply(run[|run| - 1], step)];
    forall i: nat | i + 1 < |run'|
      ensures NextAt(run', i)
    {
      if i + 1 < |run| {
        assert NextAt(run, i);
      }
    }
  }

  /** Such a run: one request arrives in the middle of the manager's first poll. */
  lemma WakeupIsLost() returns (run: seq<State>)
    ensures IsRun(run) && Lost(run[|run| - 1])
  {
    run := [State(1, false, {}, 0, None, Ready)];
    run := Turn(run, Load);
    run := Turn(run, CountIn);
    run := Turn(run, TakeWaker);
    run := Turn(run, Store);
    assert 0 in run[|run| - 1].live;
  }
}
