/** The session map over time: which session is the entry of an id, from the steps of the run. */
module ServerMap {
  import opened Wire
  import opened Codec
  import opened Server
  import opened ServerFrame

  /** A task that has made session sid for the id puts it into the map. */
  predicate Puts(s: State, step: Step, id: U32, sid: nat) {
    step.OfTask? && step.act == Insert && step.t < |s.tasks| && s.tasks[step.t].Cloned?
    && s.tasks[step.t].assoc == id && s.tasks[step.t].sid == sid
  }

  /** A task that has passed the gate with a Dissociate for the id on a unidirectional stream. */
  predicate Dissociates(s: State, step: Step, id: U32) {
    step.OfTask? && step.act == DispatchCommand && step.t < |s.tasks| && step.t < |s.origin|
    && s.tasks[step.t].Dispatch? && s.tasks[step.t].cmd == Dissociate(id)
    && s.origin[step.t].FromPeer? && s.origin[step.t].chan == Uni
  }

  /** The entry of the id is set or removed: by a task, or with the whole map. */
  predicate Touches(s: State, step: Step, id: U32) {
    || (step.OfTask? && step.t < |s.tasks| && s.tasks[step.t].Cloned? && Puts(s, step, id, s.tasks[step.t].sid))
    || Dissociates(s, step, id) || step == DropEntry(id)
  }

  predicate IsEntry(u: Udp, id: U32, sid: nat) {
    id in u.table && u.table[id] == sid
  }

  lemma EntryAfterMove(s: State, t: nat, act: TaskAction, id: U32, sid: nat)
    requires TaskEnabled(s, t, act)
    ensures var (u, step) := (UdpAfter(s.udp, t, MoveOf(s, t, act).effect), OfTask(t, act));
            IsEntry(u, id, sid) <==>
              Puts(s, step, id, sid) || (IsEntry(s.udp, id, sid) && !Touches(s, step, id))
  {
  }

  lemma EntryAfterStep(s: State, step: Step, id: U32, sid: nat)
    requires Enabled(s, step)
    ensures IsEntry(Apply(s, step).udp, id, sid) <==>
              Puts(s, step, id, sid) || (IsEntry(s.udp, id, sid) && !Touches(s, step, id))
  {
    if step.OfTask? {
      MovedFrame(s, step.t, MoveOf(s, step.t, step.act));
      EntryAfterMove(s, step.t, step.act, id, sid);
    }
  }

  ghost predicate PutAt(run: seq<State>, j: nat, id: U32, sid: nat)
    requires IsRun(run) && j + 1 < |run|
  {
    Puts(run[j], StepAt(run, j), id, sid)
  }

  ghost predicate TouchedAt(run: seq<State>, j: nat, id: U32)
    requires IsRun(run) && j + 1 < |run|
  {
    Touches(run[j], StepAt(run, j), id)
  }

  /** Session sid was put into the map for id at j, and the entry has not been touched since. */
  ghost predicate EntrySince(run: seq<State>, i: nat, id: U32, sid: nat, j: nat)
    requires IsRun(run) && i < |run|
  {
    j < i && PutAt(run, j, id, sid) && forall q: nat | j < q < i :: !TouchedAt(run, q, id)
  }

  ghost predicate LastPut(run: seq<State>, i: nat, id: U32, sid: nat)
    requires IsRun(run) && i < |run|
  {
    exists j: nat :: EntrySince(run, i, id, sid, j)
  }

  lemma SinceNext(run: seq<State>, i: nat, id: U32, sid: nat, j: nat)
    requires IsRun(run) && i + 1 < |run|
    ensures EntrySince(run, i + 1, id, sid, j) <==>
              (j == i && PutAt(run, i, id, sid)) || (EntrySince(run, i, id, sid, j) && !TouchedAt(run, i, id))
  {
  }

  lemma LastPutNext(run: seq<State>, i: nat, id: U32, sid: nat)
    requires IsRun(run) && i + 1 < |run|
    ensures LastPut(run, i + 1, id, sid) <==>
              PutAt(run, i, id, sid) || (LastPut(run, i, id, sid) && !TouchedAt(run, i, id))
  {
    var next := i + 1;
    SinceNext(run, i, id, sid, i);
    if j: nat :| EntrySince(run, i, id, sid, j) {
      SinceNext(run, i, id, sid, j);
    }
    if j: nat :| EntrySince(run, next, id, sid, j) {
      SinceNext(run, i, id, sid, j);
    }
  }

  /**
   A session is the entry of an id if and only if a task that had made it for the id put it there, and
   since then no other was put there, no Dissociate for the id was carried out, and the map was not dropped.
   */
  lemma {:induction false} MappedIff(run: seq<State>, i: nat, id: U32, sid: nat)
    requires IsRun(run) && i < |run|
    ensures IsEntry(run[i].udp, id, sid) <==> LastPut(run, i, id, sid)
  {
    if i > 0 {
      MappedIff(run, i - 1, id, sid);
      EntryAfterStep(run[i - 1], StepAt(run, i - 1), id, sid);
      LastPutNext(run, i - 1, id, sid);
    }
  }
}
