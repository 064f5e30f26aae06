/**
 The authentication gate with its poll taken apart: the flag is loaded, and only later is the waker
 pushed to the list. In between, the flag may be set and the list drained. This is the gate alone; in
 the server's transition system a poll is one step. The client's closed flag is the same protocol: one
 waker, which stores the flag and drains the list, and no check for a closed connection before the load.
 */
module SplitPoll {

  /** A task's poll, step by step; missed records that the list was drained, with the flag set, since the load. */
  datatype WaiterPc =
    | Ready                       // runs, about to poll
    | Checked                     // the connection was not closed
    | Loaded(missed: bool)        // the flag was not set
    | Parked(missed: bool)        // waker pushed, Pending
    | Through
    | Refused

  /** Whoever drains the list: a valid Authenticate stores the flag first, an invalid one or the timer does not. */
  datatype WakerPc = Valid | Stored | Invalid | Finished

  datatype State = State(flag: bool, closed: bool, list: seq<nat>, waiters: seq<WaiterPc>, wakers: seq<WakerPc>)

  datatype Step =
    | NewWaiter
    | NewWaker(valid: bool)
    | Check(w: nat)
    | Load(w: nat)
    | Push(w: nat)
    | Store(k: nat)
    | Drain(k: nat)
    | Close

  predicate Init(s: State) {
    s == State(false, false, [], [], [])
  }

  predicate Enabled(s: State, step: Step) {
    match step
    case NewWaiter => true
    case NewWaker(_) => true
    case Check(w) => w < |s.waiters| && s.waiters[w].Ready?
    case Load(w) => w < |s.waiters| && s.waiters[w].Checked?
    case Push(w) => w < |s.waiters| && s.waiters[w].Loaded?
    case Store(k) => k < |s.wakers| && s.wakers[k].Valid?
    case Drain(k) => k < |s.wakers| && (s.wakers[k].Stored? || s.wakers[k].Invalid?)
    case Close => true
  }

  /**
   What a drain does to a waiter: it runs again if it is in the list; if it is about to enter it, it has
   missed this drain.
   */
  function Drained(pc: WaiterPc, listed: bool, flag: bool): WaiterPc {
    match pc
    case Parked(_) => if listed then Ready else pc
    case Loaded(missed) => Loaded(missed || flag)
    case _ => pc
  }

  function Apply(s: State, step: Step): State
    requires Enabled(s, step)
  {
    match step
    case NewWaiter => s.(waiters := s.waiters + [Ready])
    case NewWaker(valid) => s.(wakers := s.wakers + [if valid then Valid else Invalid])
    case Check(w) => s.(waiters := s.waiters[w := if s.closed then Refused else Checked])
    case Load(w) => s.(waiters := s.waiters[w := if s.flag then Through else Loaded(false)])
    case Push(w) => s.(waiters := s.waiters[w := Parked(s.waiters[w].missed)], list := s.list + [w])
    case Store(k) => s.(flag := true, wakers := s.wakers[k := Stored])
    case Drain(k) =>
      s.(waiters := seq(|s.waiters|, w requires 0 <= w < |s.waiters| => Drained(s.waiters[w], w in s.list, s.flag)),
         list := [], wakers := s.wakers[k := Finished])
    case Close => s.(closed := true)
  }

  ghost predicate Next(s: State, s': State) {
    exists step: Step :: Enabled(s, step) && s' == Apply(s, step)
  }

  ghost predicate NextAt(run: seq<State>, i: nat)
    requires i + 1 < |run|
  {
    Next(run[i], run[i + 1])
  }

  ghost predicate IsRun(run: seq<State>) {
    |run| > 0 && Init(run[0]) && forall i: nat | i + 1 < |run| :: NextAt(run, i)
  }

  /** The step taken at position i of a run. */
  ghost function StepAt(run: seq<State>, i: nat): (step: Step)
    requires IsRun(run) && i + 1 < |run|
    ensures Enabled(run[i], step) && run[i + 1] == Apply(run[i], step)
  {
    assert NextAt(run, i);
    var step :| Enabled(run[i], step) && run[i + 1] == Apply(run[i], step);
    step
  }

  // ---------------------------------------------------------------- what a poll answers

  predicate IsAt(s: State, w: nat, pc: WaiterPc) {
    w < |s.waiters| && s.waiters[w] == pc
  }

  ghost predicate RefusesAt(run: seq<State>, j: nat, w: nat)
    requires IsRun(run) && j + 1 < |run|
  {
    StepAt(run, j) == Check(w) && run[j].closed
  }

  ghost predicate AdmitsAt(run: seq<State>, j: nat, w: nat)
    requires IsRun(run) && j + 1 < |run|
  {
    StepAt(run, j) == Load(w) && run[j].flag
  }

  lemma AnswerStep(s: State, step: Step, w: nat)
    requires Enabled(s, step)
    ensures IsAt(Apply(s, step), w, Refused) <==> IsAt(s, w, Refused) || (step == Check(w) && s.closed)
    ensures IsAt(Apply(s, step), w, Through) <==> IsAt(s, w, Through) || (step == Load(w) && s.flag)
  {
  }

  /**
   In every run a waiter is refused if and only if it checked when the connection was closed, and let
   through if and only if it loaded the flag when that was set.
   */
  lemma {:induction false} AnsweredIff(run: seq<State>, i: nat, w: nat)
    requires IsRun(run) && i < |run|
    ensures IsAt(run[i], w, Refused) <==> exists j: nat :: j < i && RefusesAt(run, j, w)
    ensures IsAt(run[i], w, Through) <==> exists j: nat :: j < i && AdmitsAt(run, j, w)
  {
    if i > 0 {
      AnsweredIff(run, i - 1, w);
      var s, step := run[i - 1], StepAt(run, i - 1);
      AnswerStep(s, step, w);
      assert RefusesAt(run, i - 1, w) <==> step == Check(w) && s.closed;
      assert AdmitsAt(run, i - 1, w) <==> step == Load(w) && s.flag;
    }
  }

  // ---------------------------------------------------------------- when a waiter is lost

  predicate AllFinished(wakers: seq<WakerPc>) {
    forall k | 0 <= k < |wakers| :: wakers[k].Finished?
  }

  /** Parked for good: the flag is set, and nobody is left who would drain the list. */
  predicate Lost(s: State, w: nat)
    requires w < |s.waiters|
  {
    s.waiters[w].Parked? && s.flag && AllFinished(s.wakers)
  }

  predicate Pending(wakers: seq<WakerPc>) {
    exists k :: 0 <= k < |wakers| && wakers[k].Stored?
  }

  /**
   A waiter that has not missed a drain has one to come once the flag is set; one that has missed it did
   so with the flag set.
   */
  predicate WaiterInv(pc: WaiterPc, flag: bool, pending: bool) {
    match pc
    case Loaded(missed) => if missed then flag else flag ==> pending
    case Parked(missed) => if missed then flag else flag ==> pending
    case _ => true
  }

  predicate Inv(s: State) {
    && (forall w | 0 <= w < |s.waiters| :: WaiterInv(s.waiters[w], s.flag, Pending(s.wakers)))
    && (forall w | 0 <= w < |s.waiters| && s.waiters[w].Parked? :: w in s.list)
  }

  lemma PendingStays(wakers: seq<WakerPc>, k: nat, pc: WakerPc)
    requires k < |wakers| && !wakers[k].Stored?
    ensures Pending(wakers) ==> Pending(wakers[k := pc])
    ensures pc.Stored? ==> Pending(wakers[k := pc])
  {
    if j :| 0 <= j < |wakers| && wakers[j].Stored? {
      assert wakers[k := pc][j].Stored?;
    }
    assert wakers[k := pc][k] == pc;
  }

  lemma PendingGrows(wakers: seq<WakerPc>, pc: WakerPc)
    ensures Pending(wakers) ==> Pending(wakers + [pc])
  {
    if j :| 0 <= j < |wakers| && wakers[j].Stored? {
      assert (wakers + [pc])[j].Stored?;
    }
  }

  lemma InvStep(s: State, step: Step)
    requires Inv(s) && Enabled(s, step)
    ensures Inv(Apply(s, step))
  {
    var s' := Apply(s, step);
    match step
    case Store(k) => PendingStays(s.wakers, k, Stored);
    case NewWaker(valid) => PendingGrows(s.wakers, if valid then Valid else Invalid);
    case Drain(k) => DrainInv(s, k);
    case _ =>
  }

  lemma DrainInv(s: State, k: nat)
    requires Inv(s) && Enabled(s, Drain(k))
    ensures Inv(Apply(s, Drain(k)))
  {
    var s' := Apply(s, Drain(k));
    forall w | 0 <= w < |s'.waiters|
      ensures WaiterInv(s'.waiters[w], s'.flag, Pending(s'.wakers)) && !s'.waiters[w].Parked?
    {
      assert WaiterInv(s.waiters[w], s.flag, Pending(s.wakers));
    }
  }

  lemma {:induction false} InvAlways(run: seq<State>, i: nat)
    requires IsRun(run) && i < |run|
    ensures Inv(run[i])
  {
    if i > 0 {
      InvAlways(run, i - 1);
      assert NextAt(run, i - 1);
      var step :| Enabled(run[i - 1], step) && run[i] == Apply(run[i - 1], step);
      InvStep(run[i - 1], step);
    }
  }

  /**
   In every run, a parked waiter is lost if and only if the list was drained with the flag set between
   its load and its push, and no one else is on the way to drain it.
   */
  lemma LostIff(run: seq<State>, i: nat, w: nat)
    requires IsRun(run) && i < |run| && w < |run[i].waiters| && run[i].waiters[w].Parked?
    ensures Lost(run[i], w) <==> run[i].waiters[w].missed && AllFinished(run[i].wakers)
  {
    InvAlways(run, i);
    assert WaiterInv(run[i].waiters[w], run[i].flag, Pending(run[i].wakers));
  }

  /** A waiter that was lost stays lost until someone new drains the list. */
  lemma LostStays(s: State, step: Step, w: nat)
    requires w < |s.waiters| && Lost(s, w) && Enabled(s, step) && !step.NewWaker?
    ensures w < |Apply(s, step).waiters| && Lost(Apply(s, step), w)
  {
  }

  // ---------------------------------------------------------------- atomic polls lose nobody

  /** No drain comes between a load and its push. */
  ghost predicate Atomic(run: seq<State>) {
    forall i: nat | i + 1 < |run| && DrainsAt(run, i) :: NoneLoaded(run[i].waiters)
  }

  predicate NoneLoaded(waiters: seq<WaiterPc>) {
    forall w | 0 <= w < |waiters| :: !waiters[w].Loaded?
  }

  ghost predicate DrainsAt(run: seq<State>, i: nat)
    requires i + 1 < |run|
  {
    exists k: nat :: Enabled(run[i], Drain(k)) && run[i + 1] == Apply(run[i], Drain(k))
  }

  predicate NoneMissed(waiters: seq<WaiterPc>) {
    forall w | 0 <= w < |waiters| :: (waiters[w].Loaded? || waiters[w].Parked?) ==> !waiters[w].missed
  }

  lemma {:induction false} NoneMissedAlways(run: seq<State>, i: nat)
    requires IsRun(run) && Atomic(run) && i < |run|
    ensures NoneMissed(run[i].waiters)
  {
    if i > 0 {
      NoneMissedAlways(run, i - 1);
      assert NextAt(run, i - 1);
      var step :| Enabled(run[i - 1], step) && run[i] == Apply(run[i - 1], step);
      if step.Drain? {
        assert DrainsAt(run, i - 1);
      }
      NoneMissedStep(run[i - 1], step);
    }
  }

  lemma NoneMissedStep(s: State, step: Step)
    requires Enabled(s, step) && NoneMissed(s.waiters) && (step.Drain? ==> NoneLoaded(s.waiters))
    ensures NoneMissed(Apply(s, step).waiters)
  {
  }

  /** With polls that no drain interrupts, nobody is ever lost. */
  lemma AtomicPollsLoseNobody(run: seq<State>, i: nat, w: nat)
    requires IsRun(run) && Atomic(run) && i < |run| && w < |run[i].waiters|
    ensures !Lost(run[i], w)
  {
    NoneMissedAlways(run, i);
    if run[i].waiters[w].Parked? {
      LostIff(run, i, w);
    }
  }

  lemma Turn(run: seq<State>, step: Step) returns (run': seq<State>)
    requires IsRun(run) && Enabled(run[|run| - 1], step)
    ensures IsRun(run') && |run'| == |run| + 1 && run'[|run|] == Apply(run[|run| - 1], step)
  {
    assert Next(run[|run| - 1], Apply(run[|run| - 1], step));
    run' := run + [Apply(run[|run| - 1], step)];
    forall i: nat | i + 1 < |run'|
      ensures NextAt(run', i)
    {
      if i + 1 < |run| {
        assert NextAt(run, i);
      }
    }
  }

  /** Such a run: one task, one valid Authenticate, and the task is parked behind an open gate. */
  lemma WakeupIsLost() returns (run: seq<State>)
    ensures IsRun(run) && var s := run[|run| - 1]; |s.waiters| == 1 && Lost(s, 0) && !s.closed
  {
    run := [State(false, false, [], [], [])];
    run := Turn(run, NewWaiter);
    run := Turn(run, NewWaker(true));
    run := Turn(run, Check(0));
    run := Turn(run, Load(0));
    run := Turn(run, Store(0));
    run := Turn(run, Drain(0));
    run := Turn(run, Push(0));
  }
}
