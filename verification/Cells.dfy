/**
 The shared objects of a connection in the code's own form, each updated in place. Their methods are
 the atomic sections of the transition systems, and their contracts are stated with the functions that
 the corresponding steps apply.
 */
module Cells {
  import opened Wire
  import opened Codec
  import opened Relay
  import Server
  import opened ServerConnect
  import Manager

  // ---------------------------------------------------------------- server

  /** Which channel the client sends its packets on: an atomic cell set by compare-and-swap. */
  class UdpPacketFrom {
    var cell: Option<Server.UdpPacketSource>

    constructor ()
      ensures cell == None
    {
      cell := None;
    }

    method Check() returns (r: Option<Server.UdpPacketSource>)
      ensures r == cell
    {
      r := cell;
    }

    /** Swaps if the cell holds what is expected; the old value tells whether it did. */
    method CompareExchange(expected: Option<Server.UdpPacketSource>, desired: Option<Server.UdpPacketSource>)
      returns (previous: Option<Server.UdpPacketSource>)
      modifies this
      ensures previous == old(cell)
      ensures cell == if old(cell) == expected then desired else old(cell)
    {
      previous := cell;
      if cell == expected {
        cell := desired;
      }
    }

    method Accepts(source: Server.UdpPacketSource) returns (ok: bool)
      modifies this
      ensures (ok, cell) == Server.TryLatch(old(cell), source)
    {
      var previous := CompareExchange(None, Some(source));
      ok := previous == None || previous == Some(source);
    }
  }

  /** The authentication flag with the wakers of everyone who waits for it. */
  class IsAuthenticated {
    var connectionClosed: bool
    var authenticated: bool
    var broadcast: seq<Server.Waiter>

    constructor ()
      ensures !connectionClosed && !authenticated && broadcast == []
    {
      connectionClosed, authenticated, broadcast := false, false, [];
    }

    /** A gatekeeper of the transition system with the content of this object. */
    function On(g: Server.Gatekeeper): Server.Gatekeeper
      reads this
    {
      g.(closed := connectionClosed, authed := authenticated, broadcast := broadcast)
    }

    method SetAuthenticated()
      modifies this
      ensures forall g :: On(g) == Server.GateAfter(old(On(g)), 0, Server.Authenticated)
    {
      authenticated := true;
    }

    method SetClosed()
      modifies this
      ensures forall g :: On(g) == old(On(g)).(closed := true)
    {
      connectionClosed := true;
    }

    /** Drains the list; its former content are the tasks that run again, in the order they came. */
    method Wake() returns (woken: seq<Server.Waiter>)
      modifies this`broadcast
      ensures woken == old(broadcast)
      ensures forall g: Server.Gatekeeper | g.broadcast == old(broadcast) ::
                Server.GateAfter(g, 0, Server.WakeList(None)) ==
                  g.(broadcast := broadcast, timer := Server.WokenTimer(g.timer, woken))
    {
      woken := [];
      while broadcast != []
        invariant woken + broadcast == old(broadcast)
        decreases |broadcast|
      {
        woken := woken + [broadcast[0]];
        broadcast := broadcast[1..];
      }
    }

    /** None is Pending. A task's poll is the gate step of the transition system, the timer's poll that of the timer. */
    method Poll(waiter: Server.Waiter) returns (ready: Option<bool>)
      modifies this
      ensures authenticated == old(authenticated) && connectionClosed == old(connectionClosed)
      ensures broadcast == if ready == None then old(broadcast) + [waiter] else old(broadcast)
      ensures forall cmd, rest :: Server.Poll(connectionClosed, authenticated, cmd, rest) ==
                match ready
                case None => Server.Move(Server.Gate(cmd, rest, false), Server.Await)
                case Some(true) => Server.Move(Server.Dispatch(cmd, rest), Server.Nothing)
                case Some(false) => Server.Failing(Server.AuthenticationTimeout)
      ensures waiter == Server.TimerWaiter ==>
                forall g :: On(g).(timer := if ready == None then Server.Armed(false) else Server.Over) ==
                  Server.PolledTimer(old(On(g)))
      ensures waiter.TaskWaiter? && ready == None ==>
                forall g :: On(g) == Server.GateAfter(old(On(g)), waiter.t, Server.Await)
    {
      if connectionClosed {
        ready := Some(false);
      } else if authenticated {
        ready := Some(true);
      } else {
        broadcast := broadcast + [waiter];
        ready := None;
      }
    }
  }

  /** The session map with its sessions. Its methods are the pieces of send() between two lock operations. */
  class UdpSessionMap {
    var udp: Server.Udp

    constructor (u: Server.Udp)
      ensures udp == u
    {
      udp := u;
    }

    method Get(id: U32) returns (found: Option<nat>)
      requires id in udp.table ==> udp.table[id] < |udp.sessions|
      modifies this
      ensures found == if id in old(udp.table) then Some(old(udp.table)[id]) else None
      ensures udp == Server.UdpAfter(old(udp), 0, if found.Some? then Server.AddSender(found.value) else Server.Nothing)
    {
      if id in udp.table {
        var sid := udp.table[id];
        udp := udp.(sessions := udp.sessions[sid := udp.sessions[sid].(senders := udp.sessions[sid].senders + 1)]);
        found := Some(sid);
      } else {
        found := None;
      }
    }

    method Dissociate(id: U32)
      modifies this
      ensures udp == Server.UdpAfter(old(udp), 0, Server.Remove(id))
    {
      if id in udp.table {
        var sid := udp.table[id];
        if sid < |udp.sessions| {
          udp := udp.(sessions := udp.sessions[sid := udp.sessions[sid].(senders := udp.sessions[sid].senders - 1)]);
        }
        udp := udp.(table := udp.table - {id});
      }
    }

    /** insert() drops the entry that it replaces. */
    method Insert(id: U32, sid: nat)
      modifies this
      ensures udp == Server.UdpAfter(old(udp), 0, Server.Install(id, sid))
    {
      Dissociate(id);
      udp := udp.(table := udp.table[id := sid]);
    }

    /**
     send() when nothing interrupts it. With room in the channel of the session for id, the packet is at
     the end of its queue unless the session has ended, the session is mapped, and the number of its
     senders is what it was before, or one for a new session. Without room the packet waits, and so does
     the sender that was cloned for it. Without a socket for a new session nothing happens.
     */
    method Send(t: nat, id: U32, pkt: UdpPacket, binds: bool) returns (waiting: Option<nat>, ok: bool)
      requires id in udp.table ==>
                 udp.table[id] < |udp.sessions| && udp.sessions[udp.table[id]].assoc == id
      modifies this
      ensures ok <==> binds || id in old(udp.table)
      ensures !ok ==> udp == old(udp) && waiting == None
      ensures ok ==> id in udp.table && udp.table[id] < |udp.sessions|
      ensures ok ==>
              var (sid, x) := (udp.table[id], udp.sessions[udp.table[id]]);
              && x.assoc == id
              && if id in old(udp.table) then
                   var y := old(udp.sessions)[old(udp.table)[id]];
                   var full := y.status == Server.Running && |y.queue| >= 1;
                   && sid == old(udp.table)[id] && udp == old(udp).(sessions := old(udp.sessions)[sid := x])
                   && waiting == (if full then Some(sid) else None)
                   && x == if full then y.(senders := y.senders + 1)
                           else if y.status != Server.Running then y
                           else y.(queue := y.queue + [Server.Item(t, pkt)],
                             enqueued := y.enqueued + [Server.Item(t, pkt)])
                 else
                   && waiting == None
                   && udp.table == old(udp.table)[id := |old(udp.sessions)|]
                   && udp.sessions[..|old(udp.sessions)|] == old(udp.sessions)
                   && x.senders == 1 && x.queue == x.enqueued == [Server.Item(t, pkt)]
    {
      var found := Get(id);
      var sid;
      if found.Some? {
        sid := found.value;
      } else if !binds {
        return None, false;
      } else {
        sid := |udp.sessions|;
        udp := Server.UdpAfter(udp, t, Server.NewSession(id));
        udp := Server.UdpAfter(udp, t, Server.AddSender(sid));
        Insert(id, sid);
      }
      ok := true;
      if udp.sessions[sid].status == Server.Running && |udp.sessions[sid].queue| >= 1 {
        waiting := Some(sid);
      } else {
        waiting := None;
        udp := Server.UdpAfter(udp, t, Server.Push(sid, pkt));
      }
    }
  }

  /** The address loop of connect(): stop at the first address that can be reached. */
  method TryAddresses(addr: Address, addrs: seq<SocketAddr>, reachable: set<SocketAddr>)
    returns (tried: seq<bool>, target: Option<SocketAddr>)
    requires addr.SocketAddress? ==> addrs == [addr.sock]
    ensures InOrder(addr, addrs, tried)
    ensures forall i | 0 <= i < |tried| :: tried[i] <==> addrs[i] in reachable
    ensures target.Some? <==> exists i :: 0 <= i < |addrs| && addrs[i] in reachable
    ensures target.Some? <==> Server.Connected(tried)
    ensures target.Some? ==> target.value == addrs[|tried| - 1]
    ensures target == None ==> |tried| == |addrs|
  {
    tried, target := [], None;
    var i := 0;
    while i < |addrs| && target == None
      invariant 0 <= i <= |addrs| && |tried| == i
      invariant forall k | 0 <= k < i :: tried[k] <==> addrs[k] in reachable
      invariant forall k | 0 <= k < i - 1 :: !tried[k]
      invariant target == None ==> forall k | 0 <= k < i :: !tried[k]
      invariant target.Some? ==> i > 0 && tried[i - 1] && target.value == addrs[i - 1]
    {
      tried := tried + [addrs[i] in reachable];
      if addrs[i] in reachable {
        target := Some(addrs[i]);
      }
      i := i + 1;
    }
  }

  // ---------------------------------------------------------------- client

  datatype Attempt = Reached(conn: nat) | Refused(err: nat)

  /** Connection::connect: the first address that answers, or the error of the last one tried. */
  method ConnectServer(attempts: seq<Attempt>) returns (conn: Option<nat>, err: Option<nat>)
    ensures conn.Some? <==> exists i :: 0 <= i < |attempts| && attempts[i].Reached?
    ensures conn.Some? ==>
              exists i :: 0 <= i < |attempts| && attempts[i] == Reached(conn.value) &&
                          forall k | 0 <= k < i :: attempts[k].Refused?
    ensures conn == None && attempts != [] ==> err == Some(attempts[|attempts| - 1].err)
    ensures attempts == [] ==> conn == None && err == None
  {
    conn, err := None, None;
    var i := 0;
    while i < |attempts|
      invariant 0 <= i <= |attempts| && conn == None
      invariant forall k | 0 <= k < i :: attempts[k].Refused?
      invariant err == if i == 0 then None else Some(attempts[i - 1].err)
    {
      match attempts[i]
      case Reached(c) =>
        conn := Some(c);
        return;
      case Refused(e) =>
        err := Some(e);
      i := i + 1;
    }
  }

  /** A connection's closed flag on the client. */
  class IsClosed {
    var closed: bool
    var wakers: seq<Manager.Waiter>

    constructor ()
      ensures !closed && wakers == []
    {
      closed, wakers := false, [];
    }

    /** A connection of the transition system with the content of this object. */
    function On(h: Manager.Heartbeat): Manager.Conn
      reads this
    {
      Manager.Conn(closed, wakers, h)
    }

    method Store()
      modifies this
      ensures forall h :: On(h) == old(On(h)).(closed := true)
    {
      closed := true;
    }

    /** Wakes everyone in the list, in the order they came. */
    method Drain() returns (woken: seq<Manager.Waiter>)
      modifies this
      ensures woken == old(wakers) && closed == old(closed) && wakers == []
      ensures forall h: Manager.Heartbeat ::
                On(if h.Beating? && Manager.HeartbeatWaiter in woken then Manager.Beating(true) else h) ==
                  Manager.WokenHeartbeat(old(On(h)))
    {
      woken := [];
      while wakers != []
        invariant closed == old(closed) && woken + wakers == old(wakers)
        decreases |wakers|
      {
        woken := woken + [wakers[0]];
        wakers := wakers[1..];
      }
    }

    /** Sets the flag, then drains the list: two steps of the transition system. */
    method Set() returns (woken: seq<Manager.Waiter>)
      modifies this
      ensures closed && wakers == [] && woken == old(wakers)
    {
      Store();
      assert On(Manager.Stopped).closed && On(Manager.Stopped).wakers == old(wakers);
      woken := Drain();
    }

    method Poll(waiter: Manager.Waiter) returns (ready: bool)
      modifies this
      ensures ready == closed == old(closed)
      ensures waiter == Manager.ManagerWaiter ==> forall h :: On(h) == Manager.PolledByManager(old(On(h)))
      ensures waiter == Manager.HeartbeatWaiter ==>
                forall h :: On(if ready then Manager.Stopped else Manager.Beating(false)) ==
                  Manager.PolledByHeartbeat(old(On(h)))
    {
      ready := closed;
      if !closed {
        wakers := wakers + [waiter];
      }
    }
  }

  /** The register that every request holds, and the future that waits for a second holder. */
  class Register {
    var strong: int
    var slot: bool

    constructor ()
      ensures strong == 1 && !slot
    {
      strong, slot := 1, false;
    }

    /** clone(): count first, then take the waker out. */
    method Clone() returns (woken: bool)
      modifies this
      ensures strong == old(strong) + 1 && woken == old(slot) && !slot
      ensures forall s: Manager.State | s.slot == old(slot) && Manager.Enabled(s, Manager.SpawnRequest) ::
                && Manager.Apply(s, Manager.SpawnRequest).slot == slot
                && Manager.Apply(s, Manager.SpawnRequest).manager ==
                     if woken && s.manager.WaitRequest? then Manager.WaitRequest(true) else s.manager
    {
      strong := strong + 1;
      woken := slot;
      slot := false;
    }

    method Release()
      modifies this
      ensures strong == old(strong) - 1 && slot == old(slot)
    {
      strong := strong - 1;
    }

    /** Wait::poll, which is the manager's polling step. */
    method Poll(s: Manager.State) returns (ready: bool)
      requires s.strong == strong && s.slot == slot && s.manager.WaitRequest?
      modifies this
      ensures strong == old(strong)
      ensures Manager.PolledRequests(s).slot == slot
      ensures ready <==> Manager.PolledRequests(s).manager == Manager.Connecting
    {
      ready := strong > 1;
      if !ready {
        slot := true;
      }
    }
  }
}
