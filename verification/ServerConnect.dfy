/** TCP relaying on the server: which answer a bidirectional stream carries, and what it means. */
module ServerConnect {
  import opened Wire
  import opened Codec
  import opened Server
  import opened ServerFrame
  import opened ServerTrace

  /** The attempts made so far: in list order, none after a success. */
  predicate InOrder(addr: Address, addrs: seq<SocketAddr>, tried: seq<bool>) {
    && (addr.SocketAddress? ==> addrs == [addr.sock])
    && |tried| <= |addrs|
    && forall i | 0 <= i < |tried| - 1 :: !tried[i]
  }

  predicate OutFrom(task: Task, written: Bytes) {
    match task
    case Trying(addr, addrs, tried) => written == [] && InOrder(addr, addrs, tried)
    case Answered(addr, addrs, tried, open) =>
      && InOrder(addr, addrs, tried)
      && (if Connected(tried) then Encode(Response(true)) <= written
          else !open && |tried| == |addrs| && written == Encode(Response(false)))
    case Done => written <= [VERSION, TYPE_RESPONSE]   // cut off, or never begun
    case _ => written == []
  }

  predicate OutsFrom(tasks: seq<Task>, biOut: seq<Bytes>) {
    |biOut| == |tasks| && forall t | 0 <= t < |tasks| :: OutFrom(tasks[t], biOut[t])
  }

  lemma MoveOut(s: State, t: nat, act: TaskAction)
    requires TaskEnabled(s, t, act) && OutFrom(s.tasks[t], s.biOut[t]) && !MoveOf(s, t, act).task.Crashed?
    ensures var move := MoveOf(s, t, act);
            OutFrom(move.task, if move.effect.Write? then s.biOut[t] + move.effect.bytes else s.biOut[t])
  {
    if act.Answer? {
      var response := Encode(Response(Connected(s.tasks[t].tried)));
      assert [] + response == response && (act.n < |response| ==> [] + response[..act.n] == response[..act.n]);
    }
  }

  lemma TaskStepOut(s: State, t: nat, act: TaskAction)
    requires TaskEnabled(s, t, act) && OutsFrom(s.tasks, s.biOut) && !MoveOf(s, t, act).task.Crashed?
    ensures OutsFrom(Apply(s, OfTask(t, act)).tasks, Apply(s, OfTask(t, act)).biOut)
  {
    var move := MoveOf(s, t, act);
    var s' := Moved(s, t, move);
    MovedFrame(s, t, move);
    MoveOut(s, t, act);
    forall u | 0 <= u < |s'.tasks|
      ensures OutFrom(s'.tasks[u], s'.biOut[u])
    {
      assert OutFrom(s.tasks[u], s.biOut[u]);
    }
  }

  lemma OtherStepOut(s: State, step: Step)
    requires OutsFrom(s.tasks, s.biOut) && Enabled(s, step) && !step.OfTask?
    ensures OutsFrom(Apply(s, step).tasks, Apply(s, step).biOut)
  {
    var s' := Apply(s, step);
    TasksFrame(s, step);
    forall u | 0 <= u < |s'.tasks|
      ensures OutFrom(s'.tasks[u], s'.biOut[u])
    {
      if u < |s.tasks| {
        assert OutFrom(s.tasks[u], s.biOut[u]);
      }
    }
  }

  lemma MoveDoesNotCrash(s: State, t: nat, act: TaskAction)
    requires TraceInv(s) && TaskEnabled(s, t, act)
    ensures !MoveOf(s, t, act).task.Crashed?
  {
    MoveFrom(s, t, act);
  }

  lemma NextOut(run: seq<State>, i: nat)
    requires IsRun(run) && i + 1 < |run| && OutsFrom(run[i].tasks, run[i].biOut)
    ensures OutsFrom(run[i + 1].tasks, run[i + 1].biOut)
  {
    var step := StepAt(run, i);
    if step.OfTask? {
      TraceAlways(run, i);
      MoveDoesNotCrash(run[i], step.t, step.act);
      TaskStepOut(run[i], step.t, step.act);
    } else {
      OtherStepOut(run[i], step);
    }
  }

  lemma {:induction false} OutAlways(run: seq<State>, i: nat)
    requires IsRun(run) && i < |run|
    ensures OutsFrom(run[i].tasks, run[i].biOut)
  {
    if i > 0 {
      OutAlways(run, i - 1);
      NextOut(run, i - 1);
    }
  }

  /** The task answered a Connect for addr, and its attempts ended with the first reachable address. */
  ghost predicate ConnectedToFirst(s: State, t: nat, addr: Address) {
    && t < |s.tasks| && t < |s.origin| && ConnectFrom(s.origin[t], addr)
    && s.tasks[t].Answered? && s.tasks[t].addr == addr
    && InOrder(addr, s.tasks[t].addrs, s.tasks[t].tried)
    && Connected(s.tasks[t].tried)
  }

  /** The task answered a Connect for addr after every resolved address had failed. */
  ghost predicate AllFailed(s: State, t: nat, addr: Address) {
    && t < |s.tasks| && t < |s.origin| && ConnectFrom(s.origin[t], addr)
    && s.tasks[t].Answered? && s.tasks[t].addr == addr
    && |s.tasks[t].tried| == |s.tasks[t].addrs|
    && forall i | 0 <= i < |s.tasks[t].tried| :: !s.tasks[t].tried[i]
  }

  /** What the written bytes say, in a single state. */
  lemma AnswerInState(s: State, t: nat, seen: Bytes)
    requires TasksFrom(s.udp.sessions, s.origin, s.tasks) && OutsFrom(s.tasks, s.biOut)
    requires t < |s.biOut| && seen <= s.biOut[t] && Decode(seen).Ok?
    ensures s.tasks[t].Answered?
    ensures || (Decode(seen).value == Response(true) && ConnectedToFirst(s, t, s.tasks[t].addr))
            || (Decode(seen) == Ok(Response(false), []) && AllFailed(s, t, s.tasks[t].addr))
  {
    assert OutFrom(s.tasks[t], s.biOut[t]) && TaskFrom(s.udp.sessions, s.origin[t], s.tasks[t]);
    SeenDecodes(s.tasks[t], s.biOut[t], seen);
  }

  lemma SeenDecodes(task: Task, out: Bytes, seen: Bytes)
    requires OutFrom(task, out) && seen <= out && Decode(seen).Ok?
    ensures task.Answered?
    ensures Connected(task.tried) ==> Decode(seen).value == Response(true)
    ensures !Connected(task.tried) ==> Decode(seen) == Ok(Response(false), [])
  {
    PrefixStable(seen, out[|seen|..]);
    assert seen + out[|seen|..] == out;
    WrittenDecodes(task, out);
  }

  /**
   What a peer that has received any part of a bidirectional stream's bytes may conclude from them:
   a success means a connection to the first reachable address of the Connect on that same stream,
   a failure means that all addresses failed, and no other command is ever written there first.
   */
  lemma AnswerMeansConnection(run: seq<State>, i: nat, t: nat, seen: Bytes)
    requires IsRun(run) && i < |run| && t < |run[i].biOut| && seen <= run[i].biOut[t]
    ensures Decode(seen).Ok? ==>
              exists addr ::
                || (Decode(seen).value == Response(true) && ConnectedToFirst(run[i], t, addr))
                || (Decode(seen) == Ok(Response(false), []) && AllFailed(run[i], t, addr))
  {
    OutAlways(run, i);
    FromAlways(run, i);
    if Decode(seen).Ok? {
      AnswerInState(run[i], t, seen);
    }
  }

  /** A connection that was made stays made: later steps do not take the answer back. */
  lemma StaysConnected(s: State, step: Step, t: nat, addr: Address)
    requires Enabled(s, step) && |s.origin| == |s.tasks| && ConnectedToFirst(s, t, addr)
    ensures ConnectedToFirst(Apply(s, step), t, addr)
  {
    TasksFrame(s, step);
    if step.OfTask? && step.t == t {
      MovedFrame(s, t, MoveOf(s, t, step.act));
    }
  }

  lemma WrittenDecodes(task: Task, out: Bytes)
    requires OutFrom(task, out) && Decode(out).Ok?
    ensures task.Answered?
    ensures Connected(task.tried) ==> Decode(out) == Ok(Response(true), out[3..])
    ensures !Connected(task.tried) ==> Decode(out) == Ok(Response(false), [])
  {
    if task.Answered? {
      var ok := Connected(task.tried);
      ShortRoundTrip(Response(ok), out[3..]);
      assert Encode(Response(ok)) + out[3..] == out;
    }
  }

  // ---------------------------------------------------------------- over time

  /** Bytes that were written stay written, and an answer that was given stays given. */
  lemma OutStep(s: State, step: Step, t: nat)
    requires Enabled(s, step) && |s.biOut| == |s.tasks| && t < |s.tasks|
    ensures var s' := Apply(s, step);
            && t < |s'.tasks| && t < |s'.biOut| && s.biOut[t] <= s'.biOut[t]
            && (s.tasks[t].Answered? ==> s'.tasks[t].Answered? && s'.tasks[t].tried == s.tasks[t].tried)
  {
    TasksFrame(s, step);
    if step.OfTask? && step.t == t {
      MovedFrame(s, t, MoveOf(s, t, step.act));
    }
  }

  lemma {:induction false} OutStays(run: seq<State>, i: nat, j: nat, t: nat)
    requires IsRun(run) && i <= j < |run| && t < |run[i].tasks| && t < |run[i].biOut|
    ensures t < |run[j].tasks| && t < |run[j].biOut| && run[i].biOut[t] <= run[j].biOut[t]
    ensures run[i].tasks[t].Answered? ==> run[j].tasks[t].Answered? && run[j].tasks[t].tried == run[i].tasks[t].tried
    decreases j
  {
    if i < j {
      OutStays(run, i, j - 1, t);
      ShapeAlways(run, j - 1);
      OutStep(run[j - 1], StepAt(run, j - 1), t);
    }
  }

  /**
   A stream never carries a second Response. Once a whole one is on it at i, at every later time j these
   bytes are still there and no Response can be written; after a failure nothing ever follows, after a
   success the bytes that follow are the target's.
   */
  lemma OneResponsePerStream(run: seq<State>, i: nat, j: nat, t: nat)
    requires IsRun(run) && i <= j < |run| && t < |run[i].biOut| && |run[i].biOut[t]| >= 3
    ensures t < |run[j].tasks| && t < |run[j].biOut| && run[i].biOut[t] <= run[j].biOut[t] && run[j].tasks[t].Answered?
    ensures forall n: nat :: !TaskEnabled(run[j], t, Answer(n))
    ensures Decode(run[i].biOut[t]).Ok? && Decode(run[j].biOut[t]).Ok?
    ensures Decode(run[j].biOut[t]).value == Decode(run[i].biOut[t]).value
    ensures Decode(run[i].biOut[t]).value == Response(false) ==>
              run[j].biOut[t] == run[i].biOut[t] == Encode(Response(false))
  {
    OutAlways(run, i);
    OutAlways(run, j);
    assert OutFrom(run[i].tasks[t], run[i].biOut[t]);
    OutStays(run, i, j, t);
    assert OutFrom(run[j].tasks[t], run[j].biOut[t]);
    AnswerDecodes(run[i].tasks[t], run[i].biOut[t]);
    AnswerDecodes(run[j].tasks[t], run[j].biOut[t]);
  }

  lemma AnswerDecodes(task: Task, out: Bytes)
    requires OutFrom(task, out) && task.Answered?
    ensures Decode(out).Ok? && Decode(out).value == Response(Connected(task.tried))
  {
    var response := Encode(Response(Connected(task.tried)));
    ShortRoundTrip(Response(Connected(task.tried)), out[|response|..]);
    assert response + out[|response|..] == out;
  }
}
