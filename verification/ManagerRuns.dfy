/** What the client's relay keeps in every run: the comments that justify its unwraps, as theorems. */
module ManagerRuns {
  import opened Wire
  import opened Manager

  // ---------------------------------------------------------------- generations in lockstep

  /** The manager has a connection that it has not announced yet. */
  predicate Pending(m: ManagerPc) {
    m.Connected? || m.Published?
  }

  /** The manager is between two connections: the last one has been announced and seen closed. */
  predicate Between(m: ManagerPc) {
    m.WaitRequest? || m.Connecting? || m.Sleeping? || m.Relocking? || Pending(m)
  }

  /** Channels below rx are read, those from rx to tx each carry their own generation, tx is empty. */
  predicate ChainInv(s: State) {
    && |s.chans| == s.tx + 1 && s.rx <= s.tx <= s.rx + 1
    && s.chans[s.tx] == Empty
    && (forall i | s.rx <= i < s.tx :: s.chans[i] == Full(i, i + 1))
    && (forall i | 0 <= i < s.rx :: s.chans[i] == Read)
  }

  /** Connections below rx have been read; all of them are closed but the one being served. */
  predicate ServedInv(s: State) {
    && !s.incoming.IncomingCrashed?
    && (s.incoming.Serving? || s.incoming.Closing? ==> s.incoming.gen + 1 == s.rx)
    && ClosedInv(s.conns, s.rx, s.incoming)
  }

  predicate ClosedInv(conns: seq<Conn>, rx: nat, incoming: IncomingPc) {
    forall g | 0 <= g < |conns| :: conns[g].closed <==> g < rx && incoming != Serving(g)
  }

  predicate ManagerInv(s: State) {
    && |s.conns| == s.tx + (if Pending(s.manager) then 1 else 0)
    && (Pending(s.manager) ==> s.manager.gen == s.tx)
    && (s.manager.Announced? || s.manager.WaitClose? ==> s.manager.gen + 1 == s.tx)
    && (Between(s.manager) ==> s.rx == s.tx && !s.incoming.Serving?)
  }

  predicate LockstepInv(s: State) {
    ChainInv(s) && ServedInv(s) && ManagerInv(s)
  }

  // ---------------------------------------------------------------- the mutex as a signal

  predicate ManagerLocks(m: ManagerPc) {
    m.WaitRequest? || m.Connecting? || m.Sleeping? || m.Connected? || m.Published? || m.Announced?
  }

  predicate LockInv(s: State) {
    && !s.manager.ManagerCrashed?
    && (s.holder == ManagerHolds <==> ManagerLocks(s.manager))
    && (s.guard <==> s.manager.WaitRequest? || s.manager.Connecting? || s.manager.Sleeping? || s.manager.Connected?)
  }

  predicate CellInv(s: State) {
    && s.cell == (if s.manager.Published? then Some(s.manager.gen) else if s.tx > 0 then Some(s.tx - 1) else None)
    && (s.tx == 0 ==> ManagerLocks(s.manager))
  }

  predicate HolderInv(holder: Holder, requests: seq<RequestPc>) {
    && (forall r | 0 <= r < |requests| ::
          !requests[r].RequestCrashed? && (requests[r].Holding? <==> holder == RequestHolds(r)))
    && (holder.RequestHolds? ==> holder.r < |requests|)
  }

  predicate MutexInv(s: State) {
    LockInv(s) && CellInv(s) && HolderInv(s.holder, s.requests)
  }

  lemma LockStep(s: State, step: Step)
    requires MutexInv(s) && Enabled(s, step)
    ensures LockInv(Apply(s, step))
  {
  }

  lemma CellStep(s: State, step: Step)
    requires LockstepInv(s) && LockInv(s) && CellInv(s) && Enabled(s, step)
    ensures CellInv(Apply(s, step))
  {
  }

  lemma HolderStep(s: State, step: Step)
    requires MutexInv(s) && Enabled(s, step)
    ensures HolderInv(Apply(s, step).holder, Apply(s, step).requests)
  {
  }

  lemma MutexStep(s: State, step: Step)
    requires LockstepInv(s) && MutexInv(s) && Enabled(s, step)
    ensures MutexInv(Apply(s, step))
  {
    LockStep(s, step);
    CellStep(s, step);
    HolderStep(s, step);
  }

  lemma ChainStep(s: State, step: Step)
    requires LockstepInv(s) && Enabled(s, step)
    ensures ChainInv(Apply(s, step))
  {
  }

  lemma ServedStep(s: State, step: Step)
    requires LockstepInv(s) && Enabled(s, step)
    ensures ServedInv(Apply(s, step))
  {
    var s' := Apply(s, step);
    assert s.rx < s.tx ==> s.chans[s.rx] == Full(s.rx, s.rx + 1);
    forall g | 0 <= g < |s'.conns|
      ensures s'.conns[g].closed <==> g < s'.rx && s'.incoming != Serving(g)
    {
      assert g < |s.conns| ==> (s.conns[g].closed <==> g < s.rx && s.incoming != Serving(g));
    }
  }

  lemma ManagerStep(s: State, step: Step)
    requires LockstepInv(s) && MutexInv(s) && Enabled(s, step)
    ensures ManagerInv(Apply(s, step))
  {
  }

  lemma LockstepStep(s: State, step: Step)
    requires LockstepInv(s) && MutexInv(s) && Enabled(s, step)
    ensures LockstepInv(Apply(s, step))
  {
    ChainStep(s, step);
    ServedStep(s, step);
    ManagerStep(s, step);
  }

  // ---------------------------------------------------------------- counted requests

  function Live(r: RequestPc): nat {
    if r.Ended? then 0 else 1
  }

  function Count(rs: seq<RequestPc>): nat {
    if rs == [] then 0 else Count(rs[..|rs| - 1]) + Live(rs[|rs| - 1])
  }

  lemma {:induction false} CountUpdate(rs: seq<RequestPc>, r: nat, pc: RequestPc)
    requires r < |rs|
    ensures Count(rs[r := pc]) == Count(rs) - Live(rs[r]) + Live(pc)
  {
    var n := |rs| - 1;
    if r == n {
      assert rs[r := pc][..n] == rs[..n];
    } else {
      assert rs[r := pc][..n] == rs[..n][r := pc];
      CountUpdate(rs[..n], r, pc);
    }
  }

  /** The listener's own register, the clone it is making, and one per request that has not ended. */
  predicate CountInv(s: State) {
    s.strong == 1 + (if s.listener == Registering then 1 else 0) + Count(s.requests)
  }

  /** A step changes the program counter of at most one request. */
  lemma RequestsAfter(s: State, step: Step)
    requires Enabled(s, step)
    ensures match step
            case Lock(r) => Apply(s, step).requests == s.requests[r := Holding]
            case Timeout(r) => Apply(s, step).requests == s.requests[r := Ended]
            case CloneConnection(r) =>
              Apply(s, step).requests == s.requests[r := if s.cell.Some? then Using(s.cell.value) else RequestCrashed]
            case EndRequest(r) => Apply(s, step).requests == s.requests[r := Ended]
            case SpawnRequest => Apply(s, step).requests == s.requests + [Waiting]
            case _ => Apply(s, step).requests == s.requests
  {
  }

  lemma CountStep(s: State, step: Step)
    requires CountInv(s) && Enabled(s, step)
    ensures CountInv(Apply(s, step))
  {
    RequestsAfter(s, step);
    match step
    case Lock(r) => CountUpdate(s.requests, r, Holding);
    case Timeout(r) => CountUpdate(s.requests, r, Ended);
    case CloneConnection(r) =>
      CountUpdate(s.requests, r, if s.cell.Some? then Using(s.cell.value) else RequestCrashed);
    case EndRequest(r) => CountUpdate(s.requests, r, Ended);
    case SpawnRequest => assert (s.requests + [Waiting])[..|s.requests|] == s.requests;
    case _ =>
  }

  // ---------------------------------------------------------------- no lost wakeup

  /** Parked on Wait: registered, and nobody is live unless the listener is about to take the waker. */
  predicate RequestWakeupInv(s: State) {
    s.manager == WaitRequest(false) ==> s.slot && (s.strong > 1 ==> s.listener == Registering)
  }

  lemma {:induction false} CountPositive(rs: seq<RequestPc>, r: nat)
    requires r < |rs| && !rs[r].Ended?
    ensures Count(rs) > 0
  {
    if r < |rs| - 1 {
      CountPositive(rs[..|rs| - 1], r);
    }
  }

  lemma RequestWakeupStep(s: State, step: Step)
    requires CountInv(s) && RequestWakeupInv(s) && Enabled(s, step)
    ensures RequestWakeupInv(Apply(s, step))
  {
  }

  /** Parked on a closed flag: registered, and if the flag is set the drain is still to come. */
  predicate ManagerParkedInv(s: State) {
    s.manager.WaitClose? && !s.manager.scheduled ==>
      && s.manager.gen < |s.conns| && ManagerWaiter in s.conns[s.manager.gen].wakers
      && (s.conns[s.manager.gen].closed ==> s.incoming == Closing(s.manager.gen))
  }

  predicate HeartbeatParked(c: Conn, closing: bool) {
    c.heartbeat == Beating(false) ==> HeartbeatWaiter in c.wakers && (c.closed ==> closing)
  }

  predicate HeartbeatsParkedInv(conns: seq<Conn>, incoming: IncomingPc) {
    forall g | 0 <= g < |conns| :: HeartbeatParked(conns[g], incoming == Closing(g))
  }

  predicate CloseWakeupInv(s: State) {
    ManagerParkedInv(s) && HeartbeatsParkedInv(s.conns, s.incoming)
  }

  lemma ManagerParkedStep(s: State, step: Step)
    requires LockstepInv(s) && ManagerParkedInv(s) && Enabled(s, step)
    ensures ManagerParkedInv(Apply(s, step))
  {
  }

  lemma HeartbeatsParkedStep(s: State, step: Step)
    requires LockstepInv(s) && HeartbeatsParkedInv(s.conns, s.incoming) && Enabled(s, step)
    ensures HeartbeatsParkedInv(Apply(s, step).conns, Apply(s, step).incoming)
  {
    var s' := Apply(s, step);
    forall g | 0 <= g < |s'.conns|
      ensures HeartbeatParked(s'.conns[g], s'.incoming == Closing(g))
    {
      assert g < |s.conns| ==> HeartbeatParked(s.conns[g], s.incoming == Closing(g));
    }
  }

  lemma CloseWakeupStep(s: State, step: Step)
    requires LockstepInv(s) && CloseWakeupInv(s) && Enabled(s, step)
    ensures CloseWakeupInv(Apply(s, step))
  {
    ManagerParkedStep(s, step);
    HeartbeatsParkedStep(s, step);
  }

  // ---------------------------------------------------------------- all runs

  predicate Inv(s: State) {
    LockstepInv(s) && MutexInv(s) && CountInv(s) && RequestWakeupInv(s) && CloseWakeupInv(s)
  }

  lemma {:induction false} InvAlways(run: seq<State>, i: nat)
    requires IsRun(run) && i < |run|
    ensures Inv(run[i])
  {
    if i > 0 {
      InvAlways(run, i - 1);
      var s, step := run[i - 1], StepAt(run, i - 1);
      LockstepStep(s, step);
      MutexStep(s, step);
      CountStep(s, step);
      RequestWakeupStep(s, step);
      CloseWakeupStep(s, step);
    }
  }

  /** While the manager does not hold the lock, the cell holds the most recently published connection. */
  lemma FreeMutexMeansConnection(run: seq<State>, i: nat)
    requires IsRun(run) && i < |run| && run[i].holder != ManagerHolds
    ensures |run[i].conns| > 0 && run[i].cell == Some(|run[i].conns| - 1)
  {
    InvAlways(run, i);
  }

  /** None of the unwraps fails, across any number of failed connects and reconnects. */
  lemma NoUnwrapFails(run: seq<State>, i: nat)
    requires IsRun(run) && i < |run|
    ensures !run[i].manager.ManagerCrashed? && !run[i].incoming.IncomingCrashed?
    ensures forall r | 0 <= r < |run[i].requests| :: !run[i].requests[r].RequestCrashed?
  {
    InvAlways(run, i);
  }

  /** A request that gets the lock uses the newest connection there is. */
  lemma RequestUsesNewest(run: seq<State>, i: nat, r: nat)
    requires IsRun(run) && i < |run| && Enabled(run[i], CloneConnection(r))
    ensures |run[i].conns| > 0 && Apply(run[i], CloneConnection(r)).requests[r] == Using(|run[i].conns| - 1)
  {
    InvAlways(run, i);
    assert run[i].requests[r].Holding?;
    FreeMutexMeansConnection(run, i);
  }

  /** The strong count is what Wait takes it for: above one exactly while a request is live or being registered. */
  lemma StrongCountMeansRequest(run: seq<State>, i: nat)
    requires IsRun(run) && i < |run|
    ensures run[i].strong > 1 <==>
              run[i].listener == Registering || exists r :: 0 <= r < |run[i].requests| && !run[i].requests[r].Ended?
  {
    InvAlways(run, i);
    var rs := run[i].requests;
    if r :| 0 <= r < |rs| && !rs[r].Ended? {
      CountPositive(rs, r);
    } else {
      NoneLive(rs);
    }
  }

  lemma {:induction false} NoneLive(rs: seq<RequestPc>)
    requires forall r | 0 <= r < |rs| :: rs[r].Ended?
    ensures Count(rs) == 0
  {
    if rs != [] {
      NoneLive(rs[..|rs| - 1]);
    }
  }

  /** A parked manager has no live request to serve unless its wake is under way. */
  lemma ParkedManagerIsNotNeeded(run: seq<State>, i: nat)
    requires IsRun(run) && i < |run| && run[i].manager == WaitRequest(false)
    ensures run[i].slot
    ensures run[i].listener == Registering || forall r | 0 <= r < |run[i].requests| :: run[i].requests[r].Ended?
    ensures run[i].listener == Registering ==> Apply(run[i], SpawnRequest).manager == WaitRequest(true)
  {
    InvAlways(run, i);
    StrongCountMeansRequest(run, i);
  }

  /** set() leaves nobody parked: the drain after the flag reaches the manager and the heartbeat. */
  lemma ClosingWakesAll(run: seq<State>, i: nat, g: nat)
    requires IsRun(run) && i < |run| && run[i].incoming == Closing(g)
    ensures g < |run[i].conns| && run[i].conns[g].closed && Enabled(run[i], WakeClosed)
    ensures var s' := Apply(run[i], WakeClosed);
            s'.manager != WaitClose(g, false) && s'.conns[g].heartbeat != Beating(false)
  {
    InvAlways(run, i);
  }

  // ---------------------------------------------------------------- connecting only on demand

  ghost predicate ConnectsAt(run: seq<State>, i: nat)
    requires IsRun(run) && i + 1 < |run|
  {
    StepAt(run, i).Connect?
  }

  /** The manager's poll at i saw a request. */
  ghost predicate SeesRequestAt(run: seq<State>, i: nat)
    requires IsRun(run) && i + 1 < |run|
  {
    StepAt(run, i) == PollRequests && run[i].strong > 1
  }

  /** It saw one, and has not tried to connect since. */
  ghost predicate Asked(run: seq<State>, i: nat)
    requires IsRun(run) && i < |run|
  {
    exists p: nat :: p < i && SeesRequestAt(run, p) && forall q: nat | p < q < i :: !ConnectsAt(run, q)
  }

  lemma BecomesConnecting(s: State, step: Step)
    requires Enabled(s, step) && Apply(s, step).manager.Connecting?
    ensures if s.manager.Connecting? then !step.Connect? else step == PollRequests && s.strong > 1
  {
  }

  lemma {:induction false} ConnectingMeansAsked(run: seq<State>, i: nat)
    requires IsRun(run) && i < |run| && run[i].manager.Connecting?
    ensures Asked(run, i)
  {
    if i > 0 {
      BecomesConnecting(run[i - 1], StepAt(run, i - 1));
      if run[i - 1].manager.Connecting? {
        ConnectingMeansAsked(run, i - 1);
        var p: nat :| p < i - 1 && SeesRequestAt(run, p) && forall q: nat | p < q < i - 1 :: !ConnectsAt(run, q);
        assert !ConnectsAt(run, i - 1);
      } else {
        assert SeesRequestAt(run, i - 1);
      }
    }
  }

  /**
   The manager tries to connect only for a request: since its last attempt, or the start, a poll has seen
   the count above one, and so a request that was live or just being registered.
   */
  lemma ConnectsOnlyForRequest(run: seq<State>, i: nat) returns (p: nat)
    requires IsRun(run) && i + 1 < |run| && ConnectsAt(run, i)
    ensures p < i && SeesRequestAt(run, p) && forall q: nat | p < q < i :: !ConnectsAt(run, q)
    ensures run[p].listener == Registering || exists r :: 0 <= r < |run[p].requests| && !run[p].requests[r].Ended?
  {
    ConnectingMeansAsked(run, i);
    p :| p < i && SeesRequestAt(run, p) && forall q: nat | p < q < i :: !ConnectsAt(run, q);
    StrongCountMeansRequest(run, p);
  }

  ghost predicate SleepEndsAt(run: seq<State>, i: nat)
    requires IsRun(run) && i + 1 < |run|
  {
    StepAt(run, i) == EndSleep
  }

  lemma SleepsOn(s: State, step: Step)
    requires Enabled(s, step) && s.manager.Sleeping?
    ensures step == EndSleep || Apply(s, step).manager.Sleeping?
  {
  }

  lemma {:induction false} SleepsUntil(run: seq<State>, i: nat, j: nat)
    requires IsRun(run) && i < j < |run| && StepAt(run, i) == Connect(false)
    ensures run[j].manager.Sleeping? || exists q: nat :: i < q < j && SleepEndsAt(run, q)
    decreases j
  {
    if i + 1 < j {
      SleepsUntil(run, i, j - 1);
      if run[j - 1].manager.Sleeping? {
        SleepsOn(run[j - 1], StepAt(run, j - 1));
        assert StepAt(run, j - 1) == EndSleep ==> SleepEndsAt(run, j - 1);
      }
    }
  }

  /** After an attempt that failed the manager sleeps before it tries again. */
  lemma SleepsBetweenAttempts(run: seq<State>, i: nat, j: nat) returns (q: nat)
    requires IsRun(run) && i < j && j + 1 < |run| && StepAt(run, i) == Connect(false) && ConnectsAt(run, j)
    ensures i < q < j && SleepEndsAt(run, q)
  {
    SleepsUntil(run, i, j);
    q :| i < q < j && SleepEndsAt(run, q);
  }

  /** Every connection there is was made by an attempt that succeeded. */
  ghost function Successes(run: seq<State>, i: nat): nat
    requires IsRun(run) && i < |run|
  {
    if i == 0 then 0 else Successes(run, i - 1) + if StepAt(run, i - 1) == Connect(true) then 1 else 0
  }

  lemma {:induction false} ConnectionsAreSuccesses(run: seq<State>, i: nat)
    requires IsRun(run) && i < |run|
    ensures |run[i].conns| == Successes(run, i)
  {
    if i > 0 {
      ConnectionsAreSuccesses(run, i - 1);
      ConnsStep(run[i - 1], StepAt(run, i - 1));
    }
  }

  lemma ConnsStep(s: State, step: Step)
    requires Enabled(s, step)
    ensures |Apply(s, step).conns| == |s.conns| + if step == Connect(true) then 1 else 0
    ensures StoppedClosed(s.conns) ==> StoppedClosed(Apply(s, step).conns)
  {
  }

  predicate StoppedClosed(conns: seq<Conn>) {
    forall g | 0 <= g < |conns| :: conns[g].heartbeat.Stopped? ==> conns[g].closed
  }

  /** The heartbeat task of a connection goes on as long as the connection is open. */
  lemma {:induction false} HeartbeatOutlastsConnection(run: seq<State>, i: nat)
    requires IsRun(run) && i < |run|
    ensures StoppedClosed(run[i].conns)
  {
    if i > 0 {
      HeartbeatOutlastsConnection(run, i - 1);
      ConnsStep(run[i - 1], StepAt(run, i - 1));
    }
  }

  /** The incoming listener finds the end of connection g. */
  ghost predicate ClosesAt(run: seq<State>, j: nat, g: nat)
    requires IsRun(run) && j + 1 < |run|
  {
    StepAt(run, j) == SetClosed && run[j].incoming == Serving(g)
  }

  /** The heartbeat of connection g sees that it is closed. */
  ghost predicate StopsAt(run: seq<State>, j: nat, g: nat)
    requires IsRun(run) && j + 1 < |run|
  {
    StepAt(run, j) == PollHeartbeat(g) && g < |run[j].conns| && run[j].conns[g].closed
  }

  predicate IsClosed(conns: seq<Conn>, g: nat) {
    g < |conns| && conns[g].closed
  }

  predicate IsStopped(conns: seq<Conn>, g: nat) {
    g < |conns| && conns[g].heartbeat.Stopped?
  }

  lemma ConnStep(s: State, step: Step, g: nat)
    requires Enabled(s, step)
    ensures IsClosed(Apply(s, step).conns, g) <==>
              IsClosed(s.conns, g) || (step == SetClosed && s.incoming == Serving(g))
    ensures IsStopped(Apply(s, step).conns, g) <==>
              IsStopped(s.conns, g) || (step == PollHeartbeat(g) && IsClosed(s.conns, g))
  {
  }

  /**
   A connection is closed if and only if the incoming listener has found its end, and its heartbeat has
   stopped if and only if it was polled after that.
   */
  lemma {:induction false} ClosedAndStoppedIff(run: seq<State>, i: nat, g: nat)
    requires IsRun(run) && i < |run|
    ensures IsClosed(run[i].conns, g) <==> exists j: nat :: j < i && ClosesAt(run, j, g)
    ensures IsStopped(run[i].conns, g) <==> exists j: nat :: j < i && StopsAt(run, j, g)
  {
    if i > 0 {
      ClosedAndStoppedIff(run, i - 1, g);
      var s, step := run[i - 1], StepAt(run, i - 1);
      ConnStep(s, step, g);
      assert ClosesAt(run, i - 1, g) <==> step == SetClosed && s.incoming == Serving(g);
      assert StopsAt(run, i - 1, g) <==> step == PollHeartbeat(g) && IsClosed(s.conns, g);
    }
  }

  // ---------------------------------------------------------------- no deadlock

  /** What the manager does next when it runs. */
  function NextOf(m: ManagerPc): Step {
    match m
    case WaitRequest(_) => PollRequests
    case Connecting => Connect(true)
    case Sleeping => EndSleep
    case Connected(_) => Publish
    case Published(_) => Announce
    case Announced(_) => ReleaseLock
    case WaitClose(_, _) => PollClosed
    case Relocking => Relock
    case ManagerCrashed => Relock
  }

  /** Polled once, and not woken since. */
  predicate ManagerParked(m: ManagerPc) {
    (m.WaitRequest? || m.WaitClose?) && !m.scheduled
  }

  /**
   The manager, unless it is parked, can take its next step, except that it may wait for the lock, and
   then the request that holds the lock can give it back. Parked on Wait, no request is live or the
   listener is about to wake it; parked on a connection, that is open or its closing is about to wake it.
   */
  lemma ManagerNotStuck(run: seq<State>, i: nat)
    requires IsRun(run) && i < |run|
    ensures !ManagerParked(run[i].manager) ==>
              || Enabled(run[i], NextOf(run[i].manager))
              || (&& run[i].manager.Relocking? && run[i].holder.RequestHolds?
                  && Enabled(run[i], CloneConnection(run[i].holder.r))
                  && Apply(run[i], CloneConnection(run[i].holder.r)).holder == Nobody)
    ensures run[i].manager == WaitRequest(false) ==>
              || (forall r | 0 <= r < |run[i].requests| :: run[i].requests[r].Ended?)
              || (Enabled(run[i], SpawnRequest) && Apply(run[i], SpawnRequest).manager == WaitRequest(true))
    ensures run[i].manager.WaitClose? && !run[i].manager.scheduled ==>
              var g := run[i].manager.gen;
              && g < |run[i].conns|
              && (run[i].conns[g].closed ==>
                    Enabled(run[i], WakeClosed) && Apply(run[i], WakeClosed).manager == WaitClose(g, true))
  {
    InvAlways(run, i);
    if run[i].manager == WaitRequest(false) {
      ParkedManagerIsNotNeeded(run, i);
    }
  }

  /**
   The incoming listener can always go on, except that it may wait for a new connection when all that
   were announced have been served and closed. A heartbeat task that is parked has an open connection
   or is about to be woken.
   */
  lemma ListenerNotStuck(run: seq<State>, i: nat)
    requires IsRun(run) && i < |run|
    ensures || Enabled(run[i], NextIncoming) || Enabled(run[i], SetClosed) || Enabled(run[i], WakeClosed)
            || (run[i].incoming.AwaitNext? && forall g | 0 <= g < |run[i].conns| && g < run[i].tx ::
                  run[i].conns[g].closed)
    ensures forall g | 0 <= g < |run[i].conns| ::
              run[i].conns[g].heartbeat == Beating(false) && run[i].conns[g].closed ==>
                Enabled(run[i], WakeClosed) && Apply(run[i], WakeClosed).conns[g].heartbeat == Beating(true)
  {
    InvAlways(run, i);
    forall g | 0 <= g < |run[i].conns| && run[i].conns[g].heartbeat == Beating(false) && run[i].conns[g].closed
      ensures Enabled(run[i], WakeClosed) && Apply(run[i], WakeClosed).conns[g].heartbeat == Beating(true)
    {
      assert HeartbeatParked(run[i].conns[g], run[i].incoming == Closing(g));
    }
  }

  // ---------------------------------------------------------------- the chain refines a queue

  /** The connections that are on the chain and not read yet, in order. */
  function Unread(chans: seq<Chan>, i: nat): seq<nat>
    decreases |chans| - i
  {
    if i < |chans| && chans[i].Full? && chans[i].next > i then [chans[i].gen] + Unread(chans, chans[i].next) else []
  }

  lemma UnreadValue(s: State)
    requires ChainInv(s)
    ensures Unread(s.chans, s.rx) == if s.rx == s.tx then [] else [s.rx]
  {
    if s.rx < s.tx {
      assert s.chans[s.rx] == Full(s.rx, s.rx + 1);
      assert Unread(s.chans, s.tx) == [];
    }
  }

  /**
   Every step of the relay is a step of a first-in first-out queue of connections: it enqueues the
   newest connection, dequeues the oldest into the incoming listener, or leaves the queue alone. The
   queue never holds more than one, and connections are read as 0, 1, 2 and so on.
   */
  lemma ChainRefinesQueue(run: seq<State>, i: nat)
    requires IsRun(run) && i + 1 < |run|
    ensures var (q, q') := (Unread(run[i].chans, run[i].rx), Unread(run[i + 1].chans, run[i + 1].rx));
            && |q| <= 1 && |q'| <= 1
            && (|| q' == q
                || (q' == q + [|run[i].conns| - 1] && run[i].manager.Published?)
                || (&& q == [run[i].rx] + q' && run[i + 1].incoming == Serving(run[i].rx)
                    && run[i + 1].rx == run[i].rx + 1))
  {
    InvAlways(run, i);
    InvAlways(run, i + 1);
    UnreadValue(run[i]);
    UnreadValue(run[i + 1]);
    QueueStep(run[i], StepAt(run, i));
  }

  /** How a step moves the two ends of the chain. */
  lemma QueueStep(s: State, step: Step)
    requires LockstepInv(s) && Enabled(s, step)
    ensures var s' := Apply(s, step);
            || (s'.tx == s.tx && s'.rx == s.rx)
            || (step == Announce && s.rx == s.tx && s'.tx == s.tx + 1 && s'.rx == s.rx && |s.conns| == s.tx + 1)
            || (step == NextIncoming && s'.rx == s.rx + 1 == s.tx == s'.tx && s'.incoming == Serving(s.rx))
  {
  }

  /** Only the incoming listener closes a connection, and the next one is announced only after that. */
  lemma AnnouncedOneAtATime(run: seq<State>, i: nat, g: nat)
    requires IsRun(run) && i < |run| && run[i].manager.Published? && g < run[i].manager.gen
    ensures g < |run[i].conns| && run[i].conns[g].closed && g < run[i].rx
  {
    InvAlways(run, i);
  }
}
