/** Following one task through a run: where it came from, and what happened to it. */
module ServerHistory {
  import opened Server
  import opened ServerFrame

  /** Task t came from o. */
  predicate From(s: State, t: nat, o: Origin) {
    t < |s.tasks| && t < |s.origin| && s.origin[t] == o
  }

  /** The gate was closed when the task polled it. */
  predicate Refuses(s: State, step: Step, t: nat) {
    step == OfTask(t, PollGate) && s.gate.closed
  }

  /** The task that a message of the peer arrives with starts at the beginning. */
  lemma StartsFresh(run: seq<State>, i: nat, t: nat, o: Origin)
    requires IsRun(run) && i + 1 < |run| && |run[i].tasks| <= t && From(run[i + 1], t, o) && o.FromPeer?
    ensures run[i + 1].tasks[t] == Fresh
  {
    var step := StepAt(run, i);
    ShapeAlways(run, i);
    if step.OfTask? {
      MovedFrame(run[i], step.t, MoveOf(run[i], step.t, step.act));
    }
  }

  lemma FromBefore(run: seq<State>, i: nat, t: nat, o: Origin)
    requires IsRun(run) && i + 1 < |run| && From(run[i + 1], t, o) && t < |run[i].tasks|
    ensures From(run[i], t, o)
  {
    ShapeAlways(run, i);
    TasksFrame(run[i], StepAt(run, i));
  }

  lemma {:induction false} FromEarlier(run: seq<State>, i: nat, j: nat, t: nat, o: Origin)
    requires IsRun(run) && i <= j < |run| && From(run[j], t, o) && t < |run[i].tasks|
    ensures From(run[i], t, o)
    decreases j - i
  {
    if i < j {
      TasksOnlyGrow(run, i, i + 1);
      FromEarlier(run, i + 1, j, t, o);
      FromBefore(run, i, t, o);
    }
  }

  lemma {:induction false} TasksOnlyGrow(run: seq<State>, i: nat, j: nat)
    requires IsRun(run) && i <= j < |run|
    ensures |run[i].tasks| <= |run[j].tasks|
    decreases j
  {
    if i < j {
      TasksOnlyGrow(run, i, j - 1);
      TasksFrame(run[j - 1], StepAt(run, j - 1));
    }
  }

  lemma {:induction false} OriginStays(run: seq<State>, i: nat, j: nat, t: nat)
    requires IsRun(run) && i <= j < |run| && t < |run[i].origin|
    ensures t < |run[j].origin| && run[j].origin[t] == run[i].origin[t]
    decreases j
  {
    if i < j {
      OriginStays(run, i, j - 1, t);
      NextFrame(run, j - 1);
    }
  }
}
