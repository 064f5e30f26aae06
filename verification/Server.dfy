/**
 The server side of one QUIC connection as a transition system. Every unidirectional stream,
 bidirectional stream and datagram is a task of its own; so is every packet on its way back to the
 client. A step is one atomic section of the code: nothing else runs between two reads of shared
 state inside it. Steps of different tasks, of the UDP sessions and of the connection handler
 interleave in any order.
 */
module Server {
  import opened Wire
  import opened Codec
  import opened Relay

  datatype UdpPacketSource = UniStream | Datagram

  /** How a message of the peer arrived. */
  datatype Channel = Uni | Bi | Dgram

  datatype DispatchError = Io | AuthenticationFailed | AuthenticationTimeout | BadCommand

  /** Why a task exists: bytes from the peer, or the k-th packet that session sid received. */
  datatype Origin = FromPeer(chan: Channel, bytes: Bytes) | FromSession(sid: nat, k: nat)

  datatype Task =
    | Fresh                                                       // header not read yet
    | Waking(failed: bool)                                        // auth decided, waiters not woken yet
    | Gate(cmd: Command, rest: Bytes, scheduled: bool)            // awaiting is_authenticated
    | Dispatch(cmd: Command, rest: Bytes)                         // let through, not dispatched yet
    | Lookup(assoc: U32, pkt: UdpPacket)                          // UdpSessionMap::send, before the first lock
    | Create(assoc: U32, pkt: UdpPacket)                          // found no session, lock dropped
    | Created(assoc: U32, sid: nat, pkt: UdpPacket)               // owns the new UdpSession
    | Cloned(assoc: U32, sid: nat, pkt: UdpPacket)                // owns it and a clone of its sender
    | Sending(sid: nat, pkt: UdpPacket)                           // owns a sender, waits for room
    | Resolving(addr: Address)
    | Trying(addr: Address, addrs: seq<SocketAddr>, tried: seq<bool>)
    | Answered(addr: Address, addrs: seq<SocketAddr>, tried: seq<bool>, open: bool)
    | Replying(sid: nat, k: nat)                                  // process_received_udp_packet
    | Done
    | Crashed                                                     // an unwrap, a slice or unreachable!() panicked

  /** A packet in a session's queue, with the task that put it there. */
  datatype Item = Item(task: nat, pkt: UdpPacket)

  datatype Status = Running | Drained | Failed

  datatype Session = Session(
    assoc: U32,
    senders: int,               // live clones of the channel's sender
    queue: seq<Item>,           // the channel, capacity 1
    sending: Option<Item>,      // taken from the channel, not sent yet
    sent: seq<Item>,            // what the socket has sent
    enqueued: seq<Item>,        // everything that ever entered the channel
    status: Status,
    received: seq<UdpPacket>,   // everything the socket has received
    handing: Option<nat>        // index in received, on its way to the connection
  )

  datatype Waiter = TaskWaiter(t: nat) | TimerWaiter

  /** handle_authentication_timeout. */
  datatype Timer = Armed(scheduled: bool) | Firing | Over

  /** A Packet on its way to the client, on a stream or in a datagram, with the task that sent it. */
  datatype Reply = Reply(source: UdpPacketSource, bytes: Bytes, task: nat)

  /** Authentication and the life of the connection. */
  datatype Gatekeeper = Gatekeeper(
    tokens: set<Digest>,
    authed: bool,
    broadcast: seq<Waiter>,
    timer: Timer,
    listening: bool,            // the select in handle is still running
    closed: bool                // set_closed has run
  )

  datatype Udp = Udp(
    latch: Option<UdpPacketSource>,
    table: map<U32, nat>,       // the entries of the session map
    sessions: seq<Session>,     // every session ever created
    inbox: seq<(nat, nat)>      // the channel of received packets, capacity 1
  )

  datatype State = State(
    gate: Gatekeeper,
    udp: Udp,
    tasks: seq<Task>,
    origin: seq<Origin>,        // why tasks[t] exists
    biOut: seq<Bytes>,          // what tasks[t] has written to its bidirectional stream
    outbox: seq<Reply>,
    errors: seq<DispatchError>, // every error the connection was closed with
    maxPkt: nat
  )

  predicate Init(s: State) {
    && s.gate == Gatekeeper(s.gate.tokens, false, [], Armed(true), true, false)
    && s.udp == Udp(None, map[], [], [])
    && s.tasks == [] && s.origin == [] && s.biOut == [] && s.outbox == [] && s.errors == []
  }

  datatype TaskAction =
    | ReadHeader
    | Wake
    | PollGate
    | DispatchCommand
    | LookUp
    | Bind(ok: bool)
    | CloneSender
    | Insert
    | Enqueue
    | Resolve(found: Option<seq<SocketAddr>>)
    | TryConnect(ok: bool)
    | Answer(n: nat)                                              // bytes of the Response that went out
    | Tunnel(data: Bytes)
    | EndTunnel
    | SendReply(ok: bool)

  datatype SessionAction =
    | TakePacket
    | SendPacket(ok: bool)
    | StopSession
    | SocketReceive(pkt: UdpPacket)
    | SocketFail
    | HandOver

  datatype Step =
    | Arrive(chan: Channel, bytes: Bytes)
    | OfTask(t: nat, act: TaskAction)
    | OfSession(sid: nat, event: SessionAction)
    | ListenReceived
    | PollTimer
    | FireTimer
    | WakeTimer
    | EndSelect
    | SetClosed
    | DropEntry(id: U32)

  // ---------------------------------------------------------------- shared cells

  /** compare_exchange(None, Some(source)), and whether the cell now holds this source. */
  function TryLatch(cell: Option<UdpPacketSource>, source: UdpPacketSource): (r: (bool, Option<UdpPacketSource>))
    ensures r.0 <==> r.1 == Some(source)
    ensures cell.Some? ==> r.1 == cell
    ensures r.1.Some?
  {
    if cell == None then (true, Some(source)) else (cell == Some(source), cell)
  }

  function Schedule(task: Task): Task {
    if task.Gate? then task.(scheduled := true) else task
  }

  /** wake(): every waiter in the list becomes runnable; the list is drained by the caller. */
  function Woken(tasks: seq<Task>, list: seq<Waiter>): (r: seq<Task>)
    ensures |r| == |tasks|
    ensures forall t | 0 <= t < |tasks| ::
              r[t] == if TaskWaiter(t) in list then Schedule(tasks[t]) else tasks[t]
  {
    seq(|tasks|, t requires 0 <= t < |tasks| =>
      if TaskWaiter(t) in list then Schedule(tasks[t]) else tasks[t])
  }

  function WokenTimer(timer: Timer, list: seq<Waiter>): Timer {
    if timer.Armed? && TimerWaiter in list then Armed(true) else timer
  }

  // ---------------------------------------------------------------- what a task does

  /** The one access to shared state that a task makes in a step. */
  datatype Effect =
    | Nothing
    | Authenticated                               // set_authenticated
    | WakeList(after: Option<DispatchError>)       // wake(), then close if there is an error
    | Await                                       // push the own waker
    | Close(err: DispatchError)
    | SetLatch(source: UdpPacketSource)           // successful compare_exchange
    | Remove(id: U32)
    | AddSender(to: nat)                          // clone a session's sender
    | NewSession(id: U32)
    | Install(id: U32, to: nat)                   // the map takes over one of the task's senders
    | Push(to: nat, pkt: UdpPacket)               // send on the channel and drop the sender
    | Write(bytes: Bytes)                         // to the bidirectional stream
    | Emit(source: UdpPacketSource, frame: Bytes) // to the client

  /** A task's next program counter and its effect. */
  datatype Move = Move(task: Task, effect: Effect)

  function Failing(err: DispatchError): Move {
    Move(Done, Close(err))
  }

  function Header(tokens: set<Digest>, chan: Channel, bytes: Bytes): Move {
    match Decode(bytes)
    case Err(_) => Failing(Io)
    case Ok(cmd, rest) =>
      if chan == Uni && cmd.Authenticate? then
        if cmd.digest in tokens then Move(Waking(false), Authenticated)
        else Move(Waking(true), Close(AuthenticationFailed))
      else Move(Gate(cmd, rest, true), Nothing)
  }

  /** IsAuthenticated::poll. */
  function Poll(closed: bool, authed: bool, cmd: Command, rest: Bytes): Move {
    if closed then Failing(AuthenticationTimeout)
    else if authed then Move(Dispatch(cmd, rest), Nothing)
    else Move(Gate(cmd, rest, false), Await)
  }

  /** A Packet passes the latch of its mode or is a bad command. */
  function Accept(latch: Option<UdpPacketSource>, source: UdpPacketSource, got: Received): Move {
    if !TryLatch(latch, source).0 then Failing(BadCommand)
    else
      match got
      case Delivered(assoc, pkt) => Move(Lookup(assoc, pkt), SetLatch(source))
      case Dropped => Move(Done, SetLatch(source))
      case Panicked => Move(Crashed, SetLatch(source))
  }

  function DispatchUni(latch: Option<UdpPacketSource>, cmd: Command, rest: Bytes): Move {
    match cmd
    case Packet(assoc, len, addr) =>
      Accept(latch, UniStream, if len <= |rest| then Delivered(assoc, UdpPacket(rest[..len], addr)) else Dropped)
    case Dissociate(assoc) => Move(Done, Remove(assoc))
    case Heartbeat => Move(Done, Nothing)
    case Authenticate(_) => Move(Crashed, Nothing)
    case Response(_) => Failing(BadCommand)
    case Connect(_) => Failing(BadCommand)
  }

  function DispatchBi(cmd: Command): Move {
    if cmd.Connect? then Move(Resolving(cmd.addr), Nothing) else Failing(BadCommand)
  }

  function DispatchDatagram(latch: Option<UdpPacketSource>, cmd: Command, bytes: Bytes): Move {
    if cmd.Packet? then
      var n := SerializedLen(cmd);
      Accept(latch, Datagram, if n <= |bytes| then Delivered(cmd.assoc, UdpPacket(bytes[n..], cmd.addr)) else Panicked)
    else Failing(BadCommand)
  }

  predicate Connected(tried: seq<bool>) {
    |tried| > 0 && tried[|tried| - 1]
  }

  predicate TaskEnabled(s: State, t: nat, act: TaskAction) {
    && t < |s.tasks| && t < |s.origin| && t < |s.biOut|
    && var task := s.tasks[t];
    match act
    case ReadHeader => task.Fresh? && s.origin[t].FromPeer?
    case Wake => task.Waking?
    case PollGate => task.Gate?
    case DispatchCommand => task.Dispatch? && s.origin[t].FromPeer?
    case LookUp => task.Lookup?
    case Bind(_) => task.Create?
    case CloneSender => task.Created?
    case Insert => task.Cloned?
    case Enqueue =>
      && task.Sending? && task.sid < |s.udp.sessions|
      && (s.udp.sessions[task.sid].status == Running ==> |s.udp.sessions[task.sid].queue| < 1)
    case Resolve(found) =>
      task.Resolving? && (task.addr.SocketAddress? ==> found == Some([task.addr.sock]))
    case TryConnect(_) => task.Trying? && !Connected(task.tried) && |task.tried| < |task.addrs|
    case Answer(_) => task.Trying? && (Connected(task.tried) || |task.tried| == |task.addrs|)
    case Tunnel(_) => task.Answered? && task.open
    case EndTunnel => task.Answered? && task.open
    case SendReply(_) =>
      task.Replying? && task.sid < |s.udp.sessions| && task.k < |s.udp.sessions[task.sid].received|
  }

  function MoveOf(s: State, t: nat, act: TaskAction): Move
    requires TaskEnabled(s, t, act)
  {
    var task := s.tasks[t];
    match act
    case ReadHeader => Header(s.gate.tokens, s.origin[t].chan, s.origin[t].bytes)
    case Wake => Move(Done, WakeList(if task.failed then Some(AuthenticationFailed) else None))
    case PollGate => Poll(s.gate.closed, s.gate.authed, task.cmd, task.rest)
    case DispatchCommand =>
      (match s.origin[t].chan
       case Uni => DispatchUni(s.udp.latch, task.cmd, task.rest)
       case Bi => DispatchBi(task.cmd)
       case Dgram => DispatchDatagram(s.udp.latch, task.cmd, s.origin[t].bytes))
    case LookUp =>
      if task.assoc in s.udp.table then
        Move(Sending(s.udp.table[task.assoc], task.pkt), AddSender(s.udp.table[task.assoc]))
      else Move(Create(task.assoc, task.pkt), Nothing)
    case Bind(ok) =>
      if ok then Move(Created(task.assoc, |s.udp.sessions|, task.pkt), NewSession(task.assoc)) else Move(Done, Nothing)
    case CloneSender => Move(Cloned(task.assoc, task.sid, task.pkt), AddSender(task.sid))
    case Insert => Move(Sending(task.sid, task.pkt), Install(task.assoc, task.sid))
    case Enqueue => Move(Done, Push(task.sid, task.pkt))
    case Resolve(found) =>
      if found.Some? then Move(Trying(task.addr, found.value, []), Nothing) else Move(Done, Nothing)
    case TryConnect(ok) => Move(Trying(task.addr, task.addrs, task.tried + [ok]), Nothing)
    case Answer(n) =>
      var response := Encode(Response(Connected(task.tried)));
      if n < |response| then Move(Done, Write(response[..n]))
      else Move(Answered(task.addr, task.addrs, task.tried, Connected(task.tried)), Write(response))
    case Tunnel(data) => Move(task, Write(data))
    case EndTunnel => Move(Answered(task.addr, task.addrs, task.tried, false), Nothing)
    case SendReply(ok) =>
      if s.udp.latch == None then Move(Crashed, Nothing)
      else if ok then
        var x := s.udp.sessions[task.sid];
        Move(Done, Emit(s.udp.latch.value, Frame(x.assoc, x.received[task.k])))
      else Move(Done, Nothing)
  }

  // ---------------------------------------------------------------- effects on shared state

  function Counted(ss: seq<Session>, sid: nat, n: int): seq<Session> {
    if sid < |ss| then ss[sid := ss[sid].(senders := ss[sid].senders + n)] else ss
  }

  /** Removing a map entry drops the sender it holds. */
  function Unmap(u: Udp, id: U32): Udp {
    if id in u.table then u.(table := u.table - {id}, sessions := Counted(u.sessions, u.table[id], -1)) else u
  }

  function Opened(id: U32): Session {
    Session(id, 1, [], None, [], [], Running, [], None)
  }

  /** send() fails at once if the receiver is gone; either way the sender is dropped. */
  function Pushed(x: Session, item: Item): Session {
    if x.status == Running then
      x.(senders := x.senders - 1, queue := x.queue + [item], enqueued := x.enqueued + [item])
    else x.(senders := x.senders - 1)
  }

  function GateAfter(g: Gatekeeper, t: nat, effect: Effect): Gatekeeper {
    match effect
    case Authenticated => g.(authed := true)
    case WakeList(_) => g.(timer := WokenTimer(g.timer, g.broadcast), broadcast := [])
    case Await => g.(broadcast := g.broadcast + [TaskWaiter(t)])
    case _ => g
  }

  function UdpAfter(u: Udp, t: nat, effect: Effect): Udp {
    match effect
    case SetLatch(source) => u.(latch := TryLatch(u.latch, source).1)
    case Remove(id) => Unmap(u, id)
    case AddSender(sid) => u.(sessions := Counted(u.sessions, sid, 1))
    case NewSession(id) => u.(sessions := u.sessions + [Opened(id)])
    case Install(id, sid) => var v := Unmap(u, id); v.(table := v.table[id := sid])
    case Push(sid, pkt) =>
      if sid < |u.sessions| then u.(sessions := u.sessions[sid := Pushed(u.sessions[sid], Item(t, pkt))]) else u
    case _ => u
  }

  function ErrorsOf(effect: Effect): seq<DispatchError> {
    match effect
    case WakeList(Some(err)) => [err]
    case Close(err) => [err]
    case _ => []
  }

  function Perform(s: State, t: nat, effect: Effect): State {
    s.(gate := GateAfter(s.gate, t, effect),
       udp := UdpAfter(s.udp, t, effect),
       tasks := if effect.WakeList? then Woken(s.tasks, s.gate.broadcast) else s.tasks,
       biOut := if effect.Write? && t < |s.biOut| then s.biOut[t := s.biOut[t] + effect.bytes] else s.biOut,
       outbox := if effect.Emit? then s.outbox + [Reply(effect.source, effect.frame, t)] else s.outbox,
       errors := s.errors + ErrorsOf(effect))
  }

  function Moved(s: State, t: nat, move: Move): State
    requires t < |s.tasks|
  {
    Perform(s.(tasks := s.tasks[t := move.task]), t, move.effect)
  }

  // ---------------------------------------------------------------- sessions

  /** The session's task is over: its receiver is dropped, with what was queued and in hand. */
  function End(x: Session, status: Status): Session {
    x.(queue := [], sending := None, handing := None, status := status)
  }

  predicate SessionEnabled(x: Session, event: SessionAction) {
    && x.status == Running
    && match event
       case TakePacket => x.sending == None && x.queue != []
       case SendPacket(_) => x.sending.Some?
       case StopSession => x.sending == None && x.queue == [] && x.senders == 0
       case SocketReceive(pkt) => x.handing == None && pkt.addr.SocketAddress?
       case SocketFail => true
       case HandOver => x.handing.Some?
  }

  function StepSession(x: Session, event: SessionAction): Session
    requires SessionEnabled(x, event)
  {
    match event
    case TakePacket => x.(sending := Some(x.queue[0]), queue := x.queue[1..])
    case SendPacket(ok) =>
      if ok then x.(sent := x.sent + [x.sending.value], sending := None) else End(x, Failed)
    case StopSession => End(x, Drained)
    case SocketReceive(pkt) => x.(received := x.received + [pkt], handing := Some(|x.received|))
    case SocketFail => End(x, Failed)
    case HandOver => x.(handing := None)
  }

  predicate Ended(task: Task) {
    task.Done? || task.Crashed? || (task.Answered? && !task.open)
  }

  // ---------------------------------------------------------------- the transition relation

  predicate Enabled(s: State, step: Step) {
    match step
    case Arrive(_, _) => s.gate.listening
    case OfTask(t, act) => TaskEnabled(s, t, act)
    case OfSession(sid, event) =>
      && sid < |s.udp.sessions| && SessionEnabled(s.udp.sessions[sid], event)
      && (event.HandOver? && s.gate.listening ==> |s.udp.inbox| < 1)
      && (event.SocketReceive? ==> |event.pkt.payload| <= s.maxPkt)
    case ListenReceived => s.gate.listening && s.udp.inbox != []
    case PollTimer => s.gate.timer.Armed? && s.gate.listening
    case FireTimer => s.gate.timer.Armed? && s.gate.listening
    case WakeTimer => s.gate.timer.Firing?
    case EndSelect => s.gate.listening && !s.gate.timer.Firing?
    case SetClosed => !s.gate.listening
    case DropEntry(id) =>
      !s.gate.listening && id in s.udp.table && forall t | 0 <= t < |s.tasks| :: Ended(s.tasks[t])
  }

  function SessionMoved(u: Udp, listening: bool, sid: nat, event: SessionAction): Udp
    requires sid < |u.sessions| && SessionEnabled(u.sessions[sid], event)
  {
    u.(sessions := u.sessions[sid := StepSession(u.sessions[sid], event)],
       inbox := if event.HandOver? && listening then u.inbox + [(sid, u.sessions[sid].handing.value)] else u.inbox)
  }

  function Spawn(s: State, task: Task, origin: Origin): State {
    s.(tasks := s.tasks + [task], origin := s.origin + [origin], biOut := s.biOut + [[]])
  }

  function PolledTimer(g: Gatekeeper): Gatekeeper {
    if g.closed || g.authed then g.(timer := Over)
    else g.(timer := Armed(false), broadcast := g.broadcast + [TimerWaiter])
  }

  function Apply(s: State, step: Step): State
    requires Enabled(s, step)
  {
    match step
    case Arrive(chan, bytes) => Spawn(s, Fresh, FromPeer(chan, bytes))
    case OfTask(t, act) => Moved(s, t, MoveOf(s, t, act))
    case OfSession(sid, event) => s.(udp := SessionMoved(s.udp, s.gate.listening, sid, event))
    case ListenReceived =>
      var (sid, k) := s.udp.inbox[0];
      Spawn(s, Replying(sid, k), FromSession(sid, k)).(udp := s.udp.(inbox := s.udp.inbox[1..]))
    case PollTimer => s.(gate := PolledTimer(s.gate))
    case FireTimer => s.(gate := s.gate.(timer := Firing), errors := s.errors + [AuthenticationTimeout])
    case WakeTimer =>
      s.(gate := s.gate.(timer := Over, broadcast := [], listening := false),
         tasks := Woken(s.tasks, s.gate.broadcast), udp := s.udp.(inbox := []))
    case EndSelect => s.(gate := s.gate.(timer := Over, listening := false), udp := s.udp.(inbox := []))
    case SetClosed => s.(gate := s.gate.(closed := true))
    case DropEntry(id) => s.(udp := Unmap(s.udp, id))
  }

  ghost predicate Next(s: State, s': State) {
    exists step: Step :: Enabled(s, step) && s' == Apply(s, step)
  }

  ghost predicate NextAt(run: seq<State>, i: nat)
    requires i + 1 < |run|
  {
    Next(run[i], run[i + 1])
  }

  /** A finite run of the connection from its start. */
  ghost predicate IsRun(run: seq<State>) {
    |run| > 0 && Init(run[0]) && forall i: nat | i + 1 < |run| :: NextAt(run, i)
  }
}
