/**
 Stream accounting on the client. Every live half of a stream holds a clone of the connection's
 register, so the register's strong count tells whether the connection is in use; the heartbeat
 relies on it.
 */
module Streams {
  import opened Wire

  /** What a poll of the incoming streams yields. */
  datatype Polled = NotReady | Stream | Failed | NoMore

  /** Something that happens to a connection. */
  datatype Event =
    | OpenUni(ok: bool)
    | OpenBi(ok: bool)
    | Accept(polled: Polled)
    | DropHalf(h: nat)
    | Associate(id: U32)
    | Dissociate(id: U32)
    | Tick(ok: bool)             // whether the heartbeat's stream can be opened
    | EndBeat                    // the heartbeat's stream is written, or has failed, and is dropped
    | Stop                       // the heartbeat loop sees that the connection is closed

  // ---------------------------------------------------------------- what is meant: live halves and sessions

  /**
   The halves in use by name, the next unused name, the UDP associations, and the heartbeat loop with
   its own half.
   */
  datatype Usage = Usage(halves: set<nat>, nextName: nat, sessions: set<U32>, beat: Option<nat>, stopped: bool)

  const UNUSED: Usage := Usage({}, 0, {}, None, false)

  function After(u: Usage, e: Event): Usage {
    match e
    case OpenUni(ok) => if ok then u.(halves := u.halves + {u.nextName}, nextName := u.nextName + 1) else u
    case OpenBi(ok) =>
      if ok then u.(halves := u.halves + {u.nextName, u.nextName + 1}, nextName := u.nextName + 2) else u
    case Accept(polled) =>
      if polled.Stream? then u.(halves := u.halves + {u.nextName}, nextName := u.nextName + 1) else u
    case DropHalf(h) => u.(halves := u.halves - {h})
    case Associate(id) => u.(sessions := u.sessions + {id})
    case Dissociate(id) => u.(sessions := u.sessions - {id})
    case Tick(ok) =>
      if AtSelect(u) && InUse(u) && ok
      then u.(halves := u.halves + {u.nextName}, nextName := u.nextName + 1, beat := Some(u.nextName)) else u
    case EndBeat => if u.beat.Some? then u.(halves := u.halves - {u.beat.value}, beat := None) else u
    case Stop => if AtSelect(u) then u.(stopped := true) else u
  }

  predicate InUse(u: Usage) {
    u.halves != {} || u.sessions != {}
  }

  /** The heartbeat loop waits for a tick or the close; it does not while it is sending. */
  predicate AtSelect(u: Usage) {
    u.beat == None && !u.stopped
  }

  /** For every tick that the loop sees, in order, whether the connection is in use at it. */
  function Beats(u: Usage, events: seq<Event>): seq<bool>
    decreases |events|
  {
    if events == [] then []
    else (if events[0].Tick? && AtSelect(u) then [InUse(u)] else []) + Beats(After(u, events[0]), events[1..])
  }

  function AfterAll(u: Usage, events: seq<Event>): Usage
    decreases |events|
  {
    if events == [] then u else AfterAll(After(u, events[0]), events[1..])
  }

  lemma {:induction false} BeatsAppend(u: Usage, events: seq<Event>, e: Event)
    ensures Beats(u, events + [e]) ==
              Beats(u, events) + if e.Tick? && AtSelect(AfterAll(u, events)) then [InUse(AfterAll(u, events))] else []
    ensures AfterAll(u, events + [e]) == After(AfterAll(u, events), e)
    decreases |events|
  {
    if events == [] {
      assert events + [e] == [e];
      assert Beats(After(u, e), []) == [] && [e][1..] == [];
    } else {
      assert (events + [e])[1..] == events[1..] + [e];
      BeatsAppend(After(u, events[0]), events[1..], e);
    }
  }

  // ---------------------------------------------------------------- what is done: a strong count

  class Connection {
    var strong: int                // strong count of the register, the connection's own one included
    var sessions: map<U32, nat>
    var beating: bool              // the heartbeat loop is sending, with a stream of its own
    var stopped: bool              // the heartbeat loop has ended
    ghost var usage: Usage

    /** Outside a poll the count is one more than the number of live halves. */
    ghost predicate Valid()
      reads this
    {
      && strong == 1 + |usage.halves|
      && sessions.Keys == usage.sessions
      && (forall h | h in usage.halves :: h < usage.nextName)
      && beating == usage.beat.Some? && (beating ==> usage.beat.value in usage.halves)
      && stopped == usage.stopped
    }

    constructor ()
      ensures Valid() && usage == UNUSED
    {
      strong, sessions, beating, stopped, usage := 1, map[], false, false, UNUSED;
    }

    method NoActiveStream() returns (r: bool)
      requires Valid()
      ensures r <==> usage.halves == {}
    {
      r := strong == 1;
    }

    /** get_send_stream: the register is cloned only once the stream is open. */
    method OpenSend(ok: bool)
      requires Valid()
      modifies this
      ensures Valid() && usage == After(old(usage), OpenUni(ok)) && sessions == old(sessions)
    {
      if ok {
        strong := strong + 1;
        usage := usage.(halves := usage.halves + {usage.nextName}, nextName := usage.nextName + 1);
      }
    }

    /** get_bi_stream: one clone for the sending half, the first clone moves into the receiving half. */
    method OpenBoth(ok: bool)
      requires Valid()
      modifies this
      ensures Valid() && usage == After(old(usage), OpenBi(ok)) && sessions == old(sessions)
    {
      if ok {
        strong := strong + 1;
        strong := strong + 1;
        usage := usage.(halves := usage.halves + {usage.nextName, usage.nextName + 1}, nextName := usage.nextName + 2);
      }
    }

    /** poll_next: the register is upgraded first and dropped again unless a stream arrives. */
    method PollIncoming(polled: Polled)
      requires Valid()
      modifies this
      ensures Valid() && usage == After(old(usage), Accept(polled)) && sessions == old(sessions)
    {
      if strong > 0 {
        strong := strong + 1;
        if polled.Stream? {
          usage := usage.(halves := usage.halves + {usage.nextName}, nextName := usage.nextName + 1);
        } else {
          strong := strong - 1;
        }
      }
    }

    method DropStream(h: nat)
      requires Valid() && h in usage.halves && usage.beat != Some(h)
      modifies this
      ensures Valid() && usage == After(old(usage), DropHalf(h)) && sessions == old(sessions)
    {
      strong := strong - 1;
      usage := usage.(halves := usage.halves - {h});
    }

    method Insert(id: U32, tx: nat)
      requires Valid()
      modifies this
      ensures Valid() && usage == After(old(usage), Associate(id)) && sessions == old(sessions)[id := tx]
    {
      sessions := sessions[id := tx];
      usage := usage.(sessions := usage.sessions + {id});
    }

    method Remove(id: U32)
      requires Valid()
      modifies this
      ensures Valid() && usage == After(old(usage), Dissociate(id)) && sessions == old(sessions) - {id}
    {
      sessions := sessions - {id};
      usage := usage.(sessions := usage.sessions - {id});
    }

    /** A tick: the loop, if it is at its select, checks whether the connection is in use and begins to send. */
    method Beat(ok: bool) returns (attempted: Option<bool>)
      requires Valid()
      modifies this
      ensures Valid() && usage == After(old(usage), Tick(ok)) && sessions == old(sessions)
      ensures attempted == if AtSelect(old(usage)) then Some(InUse(old(usage))) else None
    {
      attempted := None;
      if !beating && !stopped {
        var idle := NoActiveStream();
        assert sessions != map[] <==> sessions.Keys != {};
        var active := !idle || sessions != map[];
        attempted := Some(active);
        if active && ok {
          strong, beating := strong + 1, true;
          usage := usage.(halves := usage.halves + {usage.nextName}, nextName := usage.nextName + 1,
            beat := Some(usage.nextName));
        }
      }
    }

    /** The heartbeat's own stream goes out of scope. */
    method FinishBeat()
      requires Valid()
      modifies this
      ensures Valid() && usage == After(old(usage), EndBeat) && sessions == old(sessions)
    {
      if beating {
        strong, beating := strong - 1, false;
        usage := usage.(halves := usage.halves - {usage.beat.value}, beat := None);
      }
    }

    method StopLoop()
      requires Valid()
      modifies this
      ensures Valid() && usage == After(old(usage), Stop) && sessions == old(sessions)
    {
      if !beating && !stopped {
        stopped, usage := true, usage.(stopped := true);
      }
    }
  }

  /** Only halves that exist are dropped, and the heartbeat's own one only by the heartbeat. */
  ghost predicate Possible(u: Usage, events: seq<Event>)
    decreases |events|
  {
    events == [] ||
    ((events[0].DropHalf? ==> events[0].h in u.halves && u.beat != Some(events[0].h))
      && Possible(After(u, events[0]), events[1..]))
  }

  lemma {:induction false} PossibleAt(u: Usage, events: seq<Event>, i: nat)
    requires Possible(u, events) && i < |events|
    ensures events[i].DropHalf? ==>
              events[i].h in AfterAll(u, events[..i]).halves && AfterAll(u, events[..i]).beat != Some(events[i].h)
    decreases |events|
  {
    if i > 0 {
      PossibleAt(After(u, events[0]), events[1..], i - 1);
      assert events[..i][1..] == events[1..][..i - 1];
    }
  }

  // ---------------------------------------------------------------- usage counted from the events

  function Drops(events: seq<Event>): nat {
    if events == [] then 0
    else Drops(events[..|events| - 1]) + if events[|events| - 1].DropHalf? then 1 else 0
  }

  /** All but the last event, and the last. */
  lemma LastEvent(u: Usage, events: seq<Event>)
    requires events != []
    ensures var (init, e) := (events[..|events| - 1], events[|events| - 1]);
            events == init + [e] && AfterAll(u, events) == After(AfterAll(u, init), e)
  {
    assert events == events[..|events| - 1] + [events[|events| - 1]];
    BeatsAppend(u, events[..|events| - 1], events[|events| - 1]);
  }

  lemma {:induction false} PossiblePrefix(u: Usage, events: seq<Event>, n: nat)
    requires Possible(u, events) && n <= |events|
    ensures Possible(u, events[..n])
    decreases |events|
  {
    if n > 0 {
      PossiblePrefix(After(u, events[0]), events[1..], n - 1);
      assert events[..n][1..] == events[1..][..n - 1];
    }
  }

  predicate NamesOk(u: Usage) {
    (forall h | h in u.halves :: h < u.nextName) && (u.beat.Some? ==> u.beat.value in u.halves)
  }

  /** How an event changes the number of live halves. */
  function Change(u: Usage, e: Event): int {
    match e
    case OpenUni(ok) => if ok then 1 else 0
    case OpenBi(ok) => if ok then 2 else 0
    case Accept(polled) => if polled == Stream then 1 else 0
    case DropHalf(_) => -1
    case Associate(_) => 0
    case Dissociate(_) => 0
    case Tick(ok) => if AtSelect(u) && InUse(u) && ok then 1 else 0
    case EndBeat => if u.beat.Some? then -1 else 0
    case Stop => 0
  }

  lemma Added(hs: set<nat>, n: nat)
    requires forall h | h in hs :: h < n
    ensures |hs + {n}| == |hs| + 1 && |hs + {n, n + 1}| == |hs| + 2
  {
    assert hs + {n, n + 1} == hs + {n} + {n + 1};
  }

  lemma Removed(hs: set<nat>, h: nat)
    requires h in hs
    ensures |hs - {h}| == |hs| - 1
  {
  }

  lemma HalvesChange(u: Usage, e: Event)
    requires NamesOk(u) && (e.DropHalf? ==> e.h in u.halves && u.beat != Some(e.h))
    ensures NamesOk(After(u, e)) && |After(u, e).halves| == |u.halves| + Change(u, e)
  {
    Added(u.halves, u.nextName);
    match e
    case DropHalf(h) => Removed(u.halves, h);
    case EndBeat =>
      if u.beat.Some? {
        Removed(u.halves, u.beat.value);
      }
    case _ =>
  }

  function Own(u: Usage): nat {
    if u.beat.Some? then 1 else 0
  }

  /** Streams opened and accepted, from the events alone: a bidirectional stream has two halves. */
  function Opened(events: seq<Event>): nat {
    multiset(events)[OpenUni(true)] + 2 * multiset(events)[OpenBi(true)] + multiset(events)[Accept(Stream)]
  }

  lemma OpenedAppend(events: seq<Event>, e: Event)
    ensures Opened(events + [e]) == Opened(events) + match e
                                                     case OpenUni(ok) => if ok then 1 else 0
                                                     case OpenBi(ok) => if ok then 2 else 0
                                                     case Accept(polled) => if polled == Stream then 1 else 0
                                                     case _ => 0
    ensures Drops(events + [e]) == Drops(events) + if e.DropHalf? then 1 else 0
  {
    assert (events + [e])[..|events|] == events;
    assert multiset(events + [e]) == multiset(events) + multiset{e};
  }

  lemma {:induction false} HalvesAlways(events: seq<Event>)
    requires Possible(UNUSED, events)
    ensures var u := AfterAll(UNUSED, events);
            NamesOk(u) && |u.halves| == Opened(events) - Drops(events) + Own(u)
    decreases |events|
  {
    if events != [] {
      var init, e := events[..|events| - 1], events[|events| - 1];
      PossiblePrefix(UNUSED, events, |events| - 1);
      HalvesAlways(init);
      PossibleAt(UNUSED, events, |events| - 1);
      LastEvent(UNUSED, events);
      HalvesChange(AfterAll(UNUSED, init), e);
      OpenedAppend(init, e);
    }
  }

  /** The last Associate of id has not been followed by a Dissociate. */
  predicate Associated(events: seq<Event>, id: U32) {
    exists k :: 0 <= k < |events| && events[k] == Associate(id) && Dissociate(id) !in events[k + 1..]
  }

  lemma {:induction false} SessionLiveIff(events: seq<Event>, id: U32)
    ensures id in AfterAll(UNUSED, events).sessions <==> Associated(events, id)
    decreases |events|
  {
    if events != [] {
      var init, e := events[..|events| - 1], events[|events| - 1];
      SessionLiveIff(init, id);
      LastEvent(UNUSED, events);
      AssociatedAppend(init, e, id);
    }
  }

  lemma AssociatedAppend(events: seq<Event>, e: Event, id: U32)
    ensures Associated(events + [e], id) <==> e == Associate(id) || (Associated(events, id) && e != Dissociate(id))
  {
    var all := events + [e];
    if e == Associate(id) {
      assert all[|events|] == e && all[|events| + 1..] == [];
    } else if k :| 0 <= k < |events| && events[k] == Associate(id) && Dissociate(id) !in events[k + 1..] {
      assert all[k] == events[k] && all[k + 1..] == events[k + 1..] + [e];
    }
    if k :| 0 <= k < |all| && all[k] == Associate(id) && Dissociate(id) !in all[k + 1..] {
      if k < |events| {
        assert all[k + 1..] == events[k + 1..] + [e] && events[k] == Associate(id);
      }
    }
  }

  /**
   What every tick decides on, counted from the events before it: the halves of streams opened and
   accepted and not yet dropped, and the associations; the heartbeat's own stream is gone by then.
   */
  lemma TickDecides(events: seq<Event>, i: nat)
    requires Possible(UNUSED, events) && i < |events| && events[i].Tick? && AtSelect(AfterAll(UNUSED, events[..i]))
    ensures InUse(AfterAll(UNUSED, events[..i])) <==>
              Opened(events[..i]) > Drops(events[..i]) || exists id: U32 :: Associated(events[..i], id)
  {
    var u := AfterAll(UNUSED, events[..i]);
    PossiblePrefix(UNUSED, events, i);
    HalvesAlways(events[..i]);
    forall id: U32
      ensures id in u.sessions <==> Associated(events[..i], id)
    {
      SessionLiveIff(events[..i], id);
    }
    assert u.sessions != {} <==> exists id: U32 :: id in u.sessions;
  }

  /** A heartbeat was begun at k. */
  predicate Begins(events: seq<Event>, k: nat)
    requires k < |events|
  {
    var u := AfterAll(UNUSED, events[..k]);
    events[k] == Tick(true) && AtSelect(u) && InUse(u)
  }

  predicate Ends(events: seq<Event>, k: nat)
    requires k < |events|
  {
    events[k] == Stop && AtSelect(AfterAll(UNUSED, events[..k]))
  }

  /** A heartbeat was begun and has not been sent or failed yet. */
  predicate Sending(events: seq<Event>) {
    exists k: nat :: k < |events| && Begins(events, k) && EndBeat !in events[k + 1..]
  }

  predicate SawClose(events: seq<Event>) {
    exists k: nat :: k < |events| && Ends(events, k)
  }

  lemma Earlier(events: seq<Event>, e: Event, k: nat)
    requires k < |events|
    ensures Begins(events + [e], k) <==> Begins(events, k)
    ensures Ends(events + [e], k) <==> Ends(events, k)
    ensures (events + [e])[k + 1..] == events[k + 1..] + [e]
  {
    assert (events + [e])[..k] == events[..k];
  }

  lemma Latest(events: seq<Event>, e: Event)
    ensures (events + [e])[|events|] == e && (events + [e])[..|events|] == events
    ensures (events + [e])[|events| + 1..] == []
  {
  }

  lemma SendingAppend(events: seq<Event>, e: Event)
    ensures Sending(events + [e]) <==> Begins(events + [e], |events|) || (Sending(events) && e != EndBeat)
  {
    var all := events + [e];
    Latest(events, e);
    if k: nat :| k < |events| && Begins(events, k) && EndBeat !in events[k + 1..] {
      Earlier(events, e, k);
      assert e != EndBeat ==> Begins(all, k) && EndBeat !in all[k + 1..];
    }
    if k: nat :| k < |all| && Begins(all, k) && EndBeat !in all[k + 1..] {
      if k < |events| {
        Earlier(events, e, k);
        assert e in all[k + 1..] && Begins(events, k) && EndBeat !in events[k + 1..];
      }
    }
    assert Begins(all, |events|) ==> EndBeat !in all[|events| + 1..];
  }

  lemma SawCloseAppend(events: seq<Event>, e: Event)
    ensures SawClose(events + [e]) <==> Ends(events + [e], |events|) || SawClose(events)
  {
    var all := events + [e];
    if k: nat :| k < |events| && Ends(events, k) {
      Earlier(events, e, k);
      assert Ends(all, k);
    }
    if k: nat :| k < |all| && Ends(all, k) {
      if k < |events| {
        Earlier(events, e, k);
      }
    }
  }

  /**
   When the loop is not at its select: from the tick at which it begins to send to the end of that
   sending, and once it has seen the close between two ticks.
   */
  lemma {:induction false} LoopAlways(events: seq<Event>)
    ensures AfterAll(UNUSED, events).beat.Some? <==> Sending(events)
    ensures AfterAll(UNUSED, events).stopped <==> SawClose(events)
    decreases |events|
  {
    if events != [] {
      var init, e := events[..|events| - 1], events[|events| - 1];
      LoopAlways(init);
      LastEvent(UNUSED, events);
      SendingAppend(init, e);
      SawCloseAppend(init, e);
      Latest(init, e);
    }
  }

  /**
   The live halves, from the events alone: those opened and accepted and not dropped, and the heartbeat's
   own while it sends.
   */
  lemma HalvesCounted(events: seq<Event>)
    requires Possible(UNUSED, events)
    ensures |AfterAll(UNUSED, events).halves| ==
              multiset(events)[OpenUni(true)] + 2 * multiset(events)[OpenBi(true)] + multiset(events)[Accept(Stream)]
              - Drops(events) + if Sending(events) then 1 else 0
  {
    HalvesAlways(events);
    LoopAlways(events);
  }

  /**
   The heartbeat over the life of a connection, with anything in between its ticks and while it sends:
   until the loop sees the close, it is attempted at exactly those ticks at which a stream half or a UDP
   session is live, and its own stream is never the reason.
   */
  method HeartbeatLoop(events: seq<Event>) returns (beats: seq<bool>)
    requires Possible(UNUSED, events)
    ensures beats == Beats(UNUSED, events)
  {
    var conn := new Connection();
    ghost var start := conn.usage;
    beats := [];
    var i := 0;
    while i < |events|
      invariant 0 <= i <= |events| && conn.Valid()
      invariant conn.usage == AfterAll(start, events[..i])
      invariant beats == Beats(start, events[..i])
    {
      PossibleAt(start, events, i);
      BeatsAppend(start, events[..i], events[i]);
      assert events[..i + 1] == events[..i] + [events[i]];
      match events[i] {
        case OpenUni(ok) => conn.OpenSend(ok);
        case OpenBi(ok) => conn.OpenBoth(ok);
        case Accept(polled) => conn.PollIncoming(polled);
        case DropHalf(h) => conn.DropStream(h);
        case Associate(id) => conn.Insert(id, 0);
        case Dissociate(id) => conn.Remove(id);
        case Tick(ok) =>
          var b := conn.Beat(ok);
          if b.Some? {
            beats := beats + [b.value];
          }
        case EndBeat => conn.FinishBeat();
        case Stop => conn.StopLoop();
      }
      i := i + 1;
    }
    assert events[..i] == events;
  }
}
