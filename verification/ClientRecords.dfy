/**
 The client's side of a connection over time: which association hears replies, what it has sent and which
 streams it hands over.
 */
module ClientRecords {
  import opened Wire
  import opened Codec
  import opened Relay
  import Server
  import opened ServerConnect
  import opened System
  import opened EndToEnd

  // ---------------------------------------------------------------- associations

  /** The entry of an id is an association whose packet loop runs, and no newer one has the id. */
  predicate LiveIsOpen(c: Client) {
    && |c.open| == |c.ids|
    && forall id | id in c.live ::
         && c.live[id] < |c.ids| && c.ids[c.live[id]] == id && c.open[c.live[id]]
         && forall b | c.live[id] < b < |c.ids| :: c.ids[b] != id
  }

  lemma MadeLive(c: Client, id: U32)
    requires LiveIsOpen(c)
    ensures LiveIsOpen(c.(ids := c.ids + [id], open := c.open + [true], live := c.live[id := |c.ids|]))
  {
  }

  lemma EndedLive(c: Client, a: nat)
    requires LiveIsOpen(c) && a < |c.ids|
    ensures LiveIsOpen(c.(open := c.open[a := false], live := c.live - {c.ids[a]}))
  {
  }

  /** Only these two steps change who hears replies. */
  predicate Regroups(step: Step) {
    step.Associate? || step.CloseAssociation?
  }

  lemma RegroupsOrKeeps(s: State, step: Step)
    requires Enabled(s, step) && !Regroups(step)
    ensures var (c, c') := (s.client, Apply(s, step).client);
            c'.ids == c.ids && c'.open == c.open && c'.live == c.live
  {
  }

  lemma LiveStep(s: State, step: Step)
    requires LiveIsOpen(s.client) && Enabled(s, step)
    ensures LiveIsOpen(Apply(s, step).client)
  {
    match step
    case Associate(id) => MadeLive(s.client, id);
    case CloseAssociation(a) => EndedLive(s.client, a);
    case _ => RegroupsOrKeeps(s, step);
  }

  lemma {:induction false} LiveAlways(run: seq<State>, i: nat)
    requires IsRun(run) && i < |run|
    ensures LiveIsOpen(run[i].client)
  {
    if i > 0 {
      LiveAlways(run, i - 1);
      LiveStep(run[i - 1], System.StepAt(run, i - 1));
    }
  }

  /** What a step adds to the deliveries goes to an association whose packet loop runs. */
  lemma DeliversToOpen(s: State, step: Step)
    requires LiveIsOpen(s.client) && Enabled(s, step)
    ensures var (c, c') := (s.client, Apply(s, step).client);
            && c.delivered <= c'.delivered
            && forall d | |c.delivered| <= d < |c'.delivered| ::
                 c'.delivered[d].assoc < |c.open| && c.open[c'.delivered[d].assoc]
  {
  }

  lemma OpenStep(s: State, step: Step, a: nat)
    requires Enabled(s, step) && a < |s.client.open|
    ensures a < |Apply(s, step).client.open| && (Apply(s, step).client.open[a] ==> s.client.open[a])
  {
  }

  /** Once its packet loop has ended, nothing is delivered to an association any more. */
  lemma {:induction false} ClosedHearsNothing(run: seq<State>, i: nat, j: nat, a: nat)
    requires IsRun(run) && i <= j < |run| && a < |run[i].client.open| && !run[i].client.open[a]
    ensures a < |run[j].client.open| && !run[j].client.open[a]
    ensures run[i].client.delivered <= run[j].client.delivered
    ensures forall d | |run[i].client.delivered| <= d < |run[j].client.delivered| ::
              run[j].client.delivered[d].assoc != a
    decreases j
  {
    if i < j {
      ClosedHearsNothing(run, i, j - 1, a);
      LiveAlways(run, j - 1);
      DeliversToOpen(run[j - 1], System.StepAt(run, j - 1));
      OpenStep(run[j - 1], System.StepAt(run, j - 1), a);
    }
  }

  /** The step makes or ends an association with the id. */
  predicate Concerns(s: State, step: Step, id: U32) {
    || step == Associate(id)
    || (step.CloseAssociation? && step.a < |s.client.ids| && s.client.ids[step.a] == id)
  }

  ghost predicate MadeAt(run: seq<State>, j: nat, id: U32, a: nat)
    requires IsRun(run) && j + 1 < |run|
  {
    System.StepAt(run, j) == Associate(id) && |run[j].client.ids| == a
  }

  ghost predicate ConcernedAt(run: seq<State>, j: nat, id: U32)
    requires IsRun(run) && j + 1 < |run|
  {
    Concerns(run[j], System.StepAt(run, j), id)
  }

  /** Association a was made for id at j, and since then none with the id was made or ended. */
  ghost predicate CurrentSince(run: seq<State>, i: nat, id: U32, a: nat, j: nat)
    requires IsRun(run) && i < |run|
  {
    j < i && MadeAt(run, j, id, a) && forall q: nat | j < q < i :: !ConcernedAt(run, q, id)
  }

  ghost predicate Current(run: seq<State>, i: nat, id: U32, a: nat)
    requires IsRun(run) && i < |run|
  {
    exists j: nat :: CurrentSince(run, i, id, a, j)
  }

  lemma EntryStep(s: State, step: Step, id: U32, a: nat)
    requires Enabled(s, step)
    ensures var (c, c') := (s.client, Apply(s, step).client);
            (id in c'.live && c'.live[id] == a) <==>
              || (step == Associate(id) && |c.ids| == a)
              || (id in c.live && c.live[id] == a && !Concerns(s, step, id))
  {
  }

  lemma SinceNext(run: seq<State>, i: nat, id: U32, a: nat, j: nat)
    requires IsRun(run) && i + 1 < |run|
    ensures CurrentSince(run, i + 1, id, a, j) <==>
              (j == i && MadeAt(run, i, id, a)) || (CurrentSince(run, i, id, a, j) && !ConcernedAt(run, i, id))
  {
  }

  lemma CurrentNext(run: seq<State>, i: nat, id: U32, a: nat)
    requires IsRun(run) && i + 1 < |run|
    ensures Current(run, i + 1, id, a) <==>
              MadeAt(run, i, id, a) || (Current(run, i, id, a) && !ConcernedAt(run, i, id))
  {
    var next := i + 1;
    SinceNext(run, i, id, a, i);
    if j: nat :| CurrentSince(run, i, id, a, j) {
      SinceNext(run, i, id, a, j);
    }
    if j: nat :| CurrentSince(run, next, id, a, j) {
      SinceNext(run, i, id, a, j);
    }
  }

  /**
   Replies for an id go to association a if and only if it was made for the id and since then no
   association with the id was made or ended.
   */
  lemma {:induction false} HearsIff(run: seq<State>, i: nat, id: U32, a: nat)
    requires IsRun(run) && i < |run|
    ensures (id in run[i].client.live && run[i].client.live[id] == a) <==> Current(run, i, id, a)
  {
    if i > 0 {
      HearsIff(run, i - 1, id, a);
      EntryStep(run[i - 1], System.StepAt(run, i - 1), id, a);
      CurrentNext(run, i - 1, id, a);
    }
  }

  predicate OpenIsLive(c: Client) {
    forall a | 0 <= a < |c.ids| && a < |c.open| && c.open[a] && Unrepeated(c.ids, a) :: c.ids[a] in c.live
  }

  lemma MadeHears(c: Client, id: U32)
    requires LiveIsOpen(c) && OpenIsLive(c)
    ensures OpenIsLive(c.(ids := c.ids + [id], open := c.open + [true], live := c.live[id := |c.ids|]))
  {
    var ids := c.ids + [id];
    forall a: nat | a < |c.ids| && Unrepeated(ids, a)
      ensures Unrepeated(c.ids, a)
    {
      assert forall b | 0 <= b < |c.ids| :: ids[b] == c.ids[b];
    }
  }

  lemma EndedHears(c: Client, a: nat)
    requires OpenIsLive(c) && a < |c.ids| && a < |c.open|
    ensures OpenIsLive(c.(open := c.open[a := false], live := c.live - {c.ids[a]}))
  {
  }

  lemma OpenLiveStep(s: State, step: Step)
    requires LiveIsOpen(s.client) && OpenIsLive(s.client) && Enabled(s, step)
    ensures OpenIsLive(Apply(s, step).client)
  {
    match step
    case Associate(id) => MadeHears(s.client, id);
    case CloseAssociation(a) => EndedHears(s.client, a);
    case _ => RegroupsOrKeeps(s, step);
  }

  /** An association whose id is not repeated hears replies if and only if its packet loop runs. */
  lemma {:induction false} UnrepeatedHearsIffOpen(run: seq<State>, i: nat, a: nat)
    requires IsRun(run) && i < |run| && Unrepeated(run[i].client.ids, a)
    ensures var c := run[i].client;
            a < |c.open| && (c.open[a] <==> c.ids[a] in c.live && c.live[c.ids[a]] == a)
  {
    LiveAlways(run, i);
    OpenLiveAlways(run, i);
  }

  lemma {:induction false} OpenLiveAlways(run: seq<State>, i: nat)
    requires IsRun(run) && i < |run|
    ensures OpenIsLive(run[i].client)
  {
    if i > 0 {
      OpenLiveAlways(run, i - 1);
      LiveAlways(run, i - 1);
      OpenLiveStep(run[i - 1], System.StepAt(run, i - 1));
    }
  }

  // ---------------------------------------------------------------- packets taken and sent

  ghost function Taken(run: seq<State>, i: nat): seq<(nat, UdpPacket)>
    requires IsRun(run) && i < |run|
  {
    if i == 0 then []
    else
      var step := System.StepAt(run, i - 1);
      Taken(run, i - 1) + if step.TakePacket? then [(step.a, step.pkt)] else []
  }

  /** What the client's tasks put on the connection, in order. */
  ghost function Said(run: seq<State>, i: nat): seq<Message>
    requires IsRun(run) && i < |run|
  {
    if i == 0 then []
    else
      Said(run, i - 1) + match System.StepAt(run, i - 1)
                         case Say(m) => [m]
                         case EmitPacket(n) => [PacketMessage(n)]
                         case _ => []
  }

  predicate SameTaken(outgoing: seq<Outgoing>, taken: seq<(nat, UdpPacket)>) {
    && |outgoing| == |taken|
    && forall n | 0 <= n < |outgoing| :: outgoing[n].assoc == taken[n].0 && outgoing[n].pkt == taken[n].1
  }

  ghost predicate EmittedSent(outgoing: seq<Outgoing>, sent: seq<Message>) {
    forall n: nat :: (n < |outgoing| && outgoing[n].emitted) <==> PacketMessage(n) in sent
  }

  lemma TakenStep(s: State, step: Step, taken: seq<(nat, UdpPacket)>)
    requires Enabled(s, step) && SameTaken(s.client.outgoing, taken)
    ensures SameTaken(Apply(s, step).client.outgoing, taken + if step.TakePacket? then [(step.a, step.pkt)] else [])
  {
  }

  lemma EmittedStep(s: State, step: Step)
    requires Enabled(s, step) && EmittedSent(s.client.outgoing, s.client.sent)
    ensures EmittedSent(Apply(s, step).client.outgoing, Apply(s, step).client.sent)
    ensures Apply(s, step).client.sent == s.client.sent + match step
                                                          case Say(m) => [m]
                                                          case EmitPacket(n) => [PacketMessage(n)]
                                                          case _ => []
  {
    var (c, c') := (s.client, Apply(s, step).client);
    forall n: nat
      ensures (n < |c'.outgoing| && c'.outgoing[n].emitted) <==> PacketMessage(n) in c'.sent
    {
      assert (n < |c.outgoing| && c.outgoing[n].emitted) <==> PacketMessage(n) in c.sent;
    }
  }

  /**
   The packets that associations took from SOCKS5 are all on record, in order and unchanged, and each is
   on the connection if and only if its task has sent it. Nothing is there that was not said.
   */
  lemma {:induction false} TakenIsSentWhenEmitted(run: seq<State>, i: nat)
    requires IsRun(run) && i < |run|
    ensures SameTaken(run[i].client.outgoing, Taken(run, i))
    ensures EmittedSent(run[i].client.outgoing, run[i].client.sent)
    ensures run[i].client.sent == Said(run, i)
  {
    if i > 0 {
      TakenIsSentWhenEmitted(run, i - 1);
      TakenStep(run[i - 1], System.StepAt(run, i - 1), Taken(run, i - 1));
      EmittedStep(run[i - 1], System.StepAt(run, i - 1));
    }
  }

  // ---------------------------------------------------------------- streams handed to SOCKS5

  /** The client reads the answer of server task t, which is connected, to the end of its Response. */
  predicate ReadsSuccess(s: State, step: Step, t: nat) {
    && step.ReadResponse? && step.t == t && |step.seen| >= 3
    && t < |s.server.tasks| && s.server.tasks[t].Answered? && Server.Connected(s.server.tasks[t].tried)
  }

  ghost predicate ReadsSuccessAt(run: seq<State>, j: nat, t: nat)
    requires IsRun(run) && j + 1 < |run|
  {
    ReadsSuccess(run[j], System.StepAt(run, j), t)
  }

  ghost predicate SuccessRead(run: seq<State>, i: nat, t: nat)
    requires IsRun(run) && i < |run|
  {
    exists j: nat :: j < i && ReadsSuccessAt(run, j, t)
  }

  lemma SuccessBytes(task: Server.Task, out: Bytes, seen: Bytes)
    requires OutFrom(task, out) && seen <= out
    ensures (Decode(seen).Ok? && Decode(seen).value == Response(true)) <==>
              |seen| >= 3 && task.Answered? && Server.Connected(task.tried)
  {
    if Decode(seen).Ok? {
      SeenDecodes(task, out, seen);
      Canonical(seen);
    }
    if |seen| >= 3 && task.Answered? && Server.Connected(task.tried) {
      ShortRoundTrip(Response(true), seen[3..]);
      assert seen == Encode(Response(true)) + seen[3..];
    }
  }

  lemma HandedStepIff(s: State, step: Step, t: nat)
    requires Enabled(s, step) && OutsFrom(s.server.tasks, s.server.biOut)
    ensures t in Apply(s, step).client.handed <==> t in s.client.handed || ReadsSuccess(s, step, t)
  {
    if step.ReadResponse? {
      assert OutFrom(s.server.tasks[step.t], s.server.biOut[step.t]);
      SuccessBytes(s.server.tasks[step.t], s.server.biOut[step.t], step.seen);
    }
  }

  lemma SuccessNext(run: seq<State>, i: nat, t: nat)
    requires IsRun(run) && i + 1 < |run|
    ensures SuccessRead(run, i + 1, t) <==> SuccessRead(run, i, t) || ReadsSuccess(run[i], System.StepAt(run, i), t)
  {
    assert ReadsSuccessAt(run, i, t) <==> ReadsSuccess(run[i], System.StepAt(run, i), t);
  }

  /**
   A stream is handed to SOCKS5 if and only if the client has read a whole Response on it while the
   server was connected for it.
   */
  lemma {:induction false} HandedIff(run: seq<State>, i: nat, t: nat)
    requires IsRun(run) && i < |run|
    ensures t in run[i].client.handed <==> SuccessRead(run, i, t)
  {
    if i > 0 {
      HandedIff(run, i - 1, t);
      ServerKeeps(run, i - 1);
      HandedStepIff(run[i - 1], System.StepAt(run, i - 1), t);
      SuccessNext(run, i - 1, t);
    }
  }
}
