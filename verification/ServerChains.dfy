/** Building runs step by step, to show what can happen. */
module ServerChains {
  import opened Wire
  import opened Codec
  import opened Server

  /** Consecutive states, from any state on. */
  ghost predicate Chain(run: seq<State>) {
    |run| > 0 && forall i: nat | i + 1 < |run| :: NextAt(run, i)
  }

  function Last(run: seq<State>): State
    requires |run| > 0
  {
    run[|run| - 1]
  }

  predicate Sized(s: State) {
    |s.origin| == |s.tasks| == |s.biOut|
  }

  lemma Turn(run: seq<State>, step: Step) returns (run': seq<State>)
    requires Chain(run) && Enabled(Last(run), step)
    ensures Chain(run') && run'[0] == run[0] && Last(run') == Apply(Last(run), step) && run' == run + [Last(run')]
  {
    assert Next(Last(run), Apply(Last(run), step));
    run' := run + [Apply(Last(run), step)];
    forall i: nat | i + 1 < |run'|
      ensures NextAt(run', i)
    {
      if i + 1 < |run| {
        assert NextAt(run, i);
      }
    }
  }

  /** Continues with one step of a task that wakes nobody. */
  lemma TaskTurn(run: seq<State>, t: nat, act: TaskAction) returns (run': seq<State>)
    requires Chain(run) && Sized(Last(run)) && TaskEnabled(Last(run), t, act)
    requires !MoveOf(Last(run), t, act).effect.WakeList?
    ensures Chain(run') && run'[0] == run[0] && Sized(Last(run')) && run' == run + [Last(run')]
    ensures Last(run').tasks == Last(run).tasks[t := MoveOf(Last(run), t, act).task]
    ensures Last(run').udp == UdpAfter(Last(run).udp, t, MoveOf(Last(run), t, act).effect)
    ensures Last(run').gate == GateAfter(Last(run).gate, t, MoveOf(Last(run), t, act).effect)
    ensures Last(run').origin == Last(run).origin
    ensures Last(run').biOut ==
              if MoveOf(Last(run), t, act).effect.Write?
              then Last(run).biOut[t := Last(run).biOut[t] + MoveOf(Last(run), t, act).effect.bytes]
              else Last(run).biOut
  {
    run' := Turn(run, OfTask(t, act));
  }

  lemma ArriveTurn(run: seq<State>, chan: Channel, bytes: Bytes) returns (run': seq<State>)
    requires Chain(run) && Sized(Last(run)) && Last(run).gate.listening
    ensures Chain(run') && run'[0] == run[0] && Sized(Last(run')) && run' == run + [Last(run')]
    ensures Last(run').tasks == Last(run).tasks + [Fresh]
    ensures Last(run').origin == Last(run).origin + [FromPeer(chan, bytes)]
    ensures Last(run').gate == Last(run).gate && Last(run').udp == Last(run).udp
    ensures Last(run').biOut == Last(run).biOut + [[]]
  {
    run' := Turn(run, Arrive(chan, bytes));
  }

  /** A connection before anything has happened on it. */
  function Start(tokens: set<Digest>, maxPkt: nat): State {
    State(Gatekeeper(tokens, false, [], Armed(true), true, false), Udp(None, map[], [], []), [], [], [], [], [], maxPkt)
  }

  predicate Open(g: Gatekeeper) {
    g.listening && g.authed && !g.closed
  }

  /** The client has authenticated itself; its task has yet to wake the waiters. */
  lemma Hello(digest: Digest, maxPkt: nat) returns (run: seq<State>)
    ensures Chain(run) && Init(run[0]) && Sized(Last(run)) && Open(Last(run).gate) && |run| == 3
    ensures Last(run).tasks == [Waking(false)] && Last(run).udp == Udp(None, map[], [], []) && Last(run).biOut == [[]]
    ensures Last(run).origin == [FromPeer(Uni, Encode(Authenticate(digest)))] && Last(run).gate.timer == Armed(true)
    ensures run[0].tasks == [] && run[1].tasks == [Fresh]
  {
    var hello := Encode(Authenticate(digest));
    ShortRoundTrip(Authenticate(digest), []);
    assert hello + [] == hello;
    run := ArriveTurn([Start({digest}, maxPkt)], Uni, hello);
    run := TaskTurn(run, 0, ReadHeader);
  }
}
