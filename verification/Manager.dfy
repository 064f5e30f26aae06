/**
 The client's relay core as a transition system: the connection manager, the request listener with
 its request tasks, and the incoming listener. They share a mutex whose being free is the signal
 that a connection is available, a chain of one-shot channels, a register that counts requests, and
 a closed flag per connection. A step is one atomic section; steps of all parties interleave.
 */
module Manager {
  import opened Wire

  /** A one-shot channel; a message carries a connection and the receiver of the next channel. */
  datatype Chan = Empty | Full(gen: nat, next: nat) | Read

  datatype Waiter = ManagerWaiter | HeartbeatWaiter

  datatype Heartbeat = Beating(scheduled: bool) | Stopped

  /** The closed flag of a connection, its waker list, and the heartbeat task that waits on it. */
  datatype Conn = Conn(closed: bool, wakers: seq<Waiter>, heartbeat: Heartbeat)

  datatype ManagerPc =
    | WaitRequest(scheduled: bool)             // polling wait_req
    | Connecting
    | Sleeping                                 // after a failed connect
    | Connected(gen: nat)                      // new connection, lock not taken out of its Option yet
    | Published(gen: nat)                      // cell renewed
    | Announced(gen: nat)                      // sent to the incoming listener, lock still held
    | WaitClose(gen: nat, scheduled: bool)     // lock dropped
    | Relocking
    | ManagerCrashed

  datatype RequestPc = Waiting | Holding | Using(gen: nat) | Ended | RequestCrashed

  /** listen_requests: in the middle of cloning the register, or not. */
  datatype ListenerPc = Idle | Registering

  datatype IncomingPc = AwaitNext | Serving(gen: nat) | Closing(gen: nat) | IncomingCrashed

  datatype Holder = Nobody | ManagerHolds | RequestHolds(r: nat)

  datatype State = State(
    manager: ManagerPc,
    guard: bool,                // the manager's Option<OwnedMutexGuard> is Some
    holder: Holder,
    cell: Option<nat>,          // the mutex's content
    conns: seq<Conn>,           // every connection ever made
    chans: seq<Chan>,
    tx: nat,                    // the channel whose sender the manager owns
    rx: nat,                    // the channel whose receiver the incoming listener owns
    incoming: IncomingPc,
    listener: ListenerPc,
    strong: int,                // strong count of the request register
    slot: bool,                 // the register holds the manager's waker
    requests: seq<RequestPc>
  )

  predicate Init(s: State) {
    s == State(WaitRequest(true), true, ManagerHolds, None, [], [Empty], 0, 0, AwaitNext, Idle, 1, false, [])
  }

  datatype Step =
    | PollRequests
    | Connect(ok: bool)
    | EndSleep
    | Publish
    | Announce
    | ReleaseLock
    | PollClosed
    | Relock
    | Register
    | SpawnRequest
    | Lock(r: nat)
    | Timeout(r: nat)
    | CloneConnection(r: nat)
    | EndRequest(r: nat)
    | NextIncoming
    | SetClosed
    | WakeClosed
    | PollHeartbeat(g: nat)

  predicate Enabled(s: State, step: Step) {
    match step
    case PollRequests => s.manager.WaitRequest?
    case Connect(_) => s.manager.Connecting?
    case EndSleep => s.manager.Sleeping?
    case Publish => s.manager.Connected?
    case Announce => s.manager.Published? && s.tx < |s.chans|
    case ReleaseLock => s.manager.Announced?
    case PollClosed => s.manager.WaitClose? && s.manager.gen < |s.conns|
    case Relock => s.manager.Relocking? && s.holder == Nobody
    case Register => s.listener == Idle
    case SpawnRequest => s.listener == Registering
    case Lock(r) => r < |s.requests| && s.requests[r].Waiting? && s.holder == Nobody
    case Timeout(r) => r < |s.requests| && s.requests[r].Waiting?
    case CloneConnection(r) => r < |s.requests| && s.requests[r].Holding?
    case EndRequest(r) => r < |s.requests| && s.requests[r].Using?
    // a receiver waits while its channel is empty and the sender alive
    case NextIncoming => s.incoming.AwaitNext? && s.rx < |s.chans| && !(s.chans[s.rx].Empty? && s.rx == s.tx)
    case SetClosed => s.incoming.Serving? && s.incoming.gen < |s.conns|
    case WakeClosed => s.incoming.Closing? && s.incoming.gen < |s.conns|
    case PollHeartbeat(g) => g < |s.conns| && s.conns[g].heartbeat.Beating?
  }

  /** Wait::poll on the register. */
  function PolledRequests(s: State): State {
    if s.strong > 1 then s.(manager := Connecting) else s.(slot := true, manager := WaitRequest(false))
  }

  /** Taking the waker out of the register wakes the manager if it is parked there. */
  function WokenByRequest(s: State): ManagerPc {
    if s.slot && s.manager.WaitRequest? then WaitRequest(true) else s.manager
  }

  function WokenByClose(m: ManagerPc, g: nat, wakers: seq<Waiter>): ManagerPc {
    if m.WaitClose? && m.gen == g && ManagerWaiter in wakers then WaitClose(g, true) else m
  }

  function PolledByManager(c: Conn): Conn {
    if c.closed then c else c.(wakers := c.wakers + [ManagerWaiter])
  }

  function PolledByHeartbeat(c: Conn): Conn {
    if c.closed then c.(heartbeat := Stopped) else Conn(false, c.wakers + [HeartbeatWaiter], Beating(false))
  }

  function WokenHeartbeat(c: Conn): Conn {
    Conn(c.closed, [], if c.heartbeat.Beating? && HeartbeatWaiter in c.wakers then Beating(true) else c.heartbeat)
  }

  function Apply(s: State, step: Step): State
    requires Enabled(s, step)
  {
    match step
    case PollRequests => PolledRequests(s)
    case Connect(ok) =>
      if ok then s.(conns := s.conns + [Conn(false, [], Beating(true))], manager := Connected(|s.conns|))
      else s.(manager := Sleeping)
    case EndSleep => s.(manager := WaitRequest(true))
    case Publish =>
      if s.guard then s.(guard := false, cell := Some(s.manager.gen), manager := Published(s.manager.gen))
      else s.(manager := ManagerCrashed)
    case Announce =>
      s.(chans := s.chans[s.tx := Full(s.manager.gen, |s.chans|)] + [Empty], tx := |s.chans|,
         manager := Announced(s.manager.gen))
    case ReleaseLock => s.(holder := Nobody, manager := WaitClose(s.manager.gen, true))
    case PollClosed =>
      var g := s.manager.gen;
      if s.conns[g].closed then s.(manager := Relocking)
      else s.(conns := s.conns[g := PolledByManager(s.conns[g])], manager := WaitClose(g, false))
    case Relock => s.(holder := ManagerHolds, guard := true, manager := WaitRequest(true))
    case Register => s.(strong := s.strong + 1, listener := Registering)
    case SpawnRequest =>
      s.(manager := WokenByRequest(s), slot := false, requests := s.requests + [Waiting], listener := Idle)
    case Lock(r) => s.(holder := RequestHolds(r), requests := s.requests[r := Holding])
    case Timeout(r) => s.(strong := s.strong - 1, requests := s.requests[r := Ended])
    case CloneConnection(r) =>
      if s.cell.Some? then s.(holder := Nobody, requests := s.requests[r := Using(s.cell.value)])
      else s.(requests := s.requests[r := RequestCrashed])
    case EndRequest(r) => s.(strong := s.strong - 1, requests := s.requests[r := Ended])
    case NextIncoming =>
      if s.chans[s.rx].Full? then
        s.(incoming := Serving(s.chans[s.rx].gen), chans := s.chans[s.rx := Read], rx := s.chans[s.rx].next)
      else s.(incoming := IncomingCrashed)
    case SetClosed =>
      var g := s.incoming.gen;
      s.(conns := s.conns[g := s.conns[g].(closed := true)], incoming := Closing(g))
    case WakeClosed =>
      var g := s.incoming.gen;
      s.(manager := WokenByClose(s.manager, g, s.conns[g].wakers),
         conns := s.conns[g := WokenHeartbeat(s.conns[g])], incoming := AwaitNext)
    case PollHeartbeat(g) =>
      s.(conns := s.conns[g := PolledByHeartbeat(s.conns[g])])
  }

  ghost predicate Next(s: State, s': State) {
    exists step: Step :: Enabled(s, step) && s' == Apply(s, step)
  }

  ghost predicate NextAt(run: seq<State>, i: nat)
    requires i + 1 < |run|
  {
    Next(run[i], run[i + 1])
  }

  /** A finite run of the client's relay from its start. */
  ghost predicate IsRun(run: seq<State>) {
    |run| > 0 && Init(run[0]) && forall i: nat | i + 1 < |run| :: NextAt(run, i)
  }

  ghost function StepAt(run: seq<State>, i: nat): (step: Step)
    requires IsRun(run) && i + 1 < |run|
    ensures Enabled(run[i], step) && run[i + 1] == Apply(run[i], step)
  {
    assert NextAt(run, i);
    var step :| Enabled(run[i], step) && run[i + 1] == Apply(run[i], step);
    step
  }
}
