/** Every run of client, server and network, seen from the server, is a run of the server. */
module ServerView {
  import opened Wire
  import Server
  import opened System

  /** The server's part in a step of the system, if it has one. */
  function ServerStep(s: State, step: Step): Option<Server.Step>
    requires Enabled(s, step)
  {
    match step
    case OfServer(st) => Some(st)
    case Carry(m, n) =>
      Some(Server.Arrive(ChannelOf(s.client.mode, s.client.sent[m]), BytesOf(s.client, s.client.sent[m])[..n]))
    case _ => None
  }

  lemma ServerFollows(s: State, step: Step)
    requires Enabled(s, step)
    ensures var st := ServerStep(s, step);
            if st.Some? then
              Server.Enabled(s.server, st.value) && Apply(s, step).server == Server.Apply(s.server, st.value)
            else Apply(s, step).server == s.server
  {
  }

  /** What the server goes through in a run of the system: its states without repetitions. */
  function ServerRun(run: seq<State>): (p: seq<Server.State>)
    requires |run| > 0
    ensures |p| > 0 && p[|p| - 1] == run[|run| - 1].server && p[0] == run[0].server
  {
    if |run| == 1 then [run[0].server]
    else
      var p := ServerRun(run[..|run| - 1]);
      if p[|p| - 1] == run[|run| - 1].server then p else p + [run[|run| - 1].server]
  }

  lemma PrefixIsRun(run: seq<State>, n: nat)
    requires IsRun(run) && 0 < n <= |run|
    ensures IsRun(run[..n])
  {
    var p := run[..n];
    forall i: nat | i + 1 < |p|
      ensures NextAt(p, i)
    {
      assert NextAt(run, i);
    }
  }

  lemma ServerGoesOn(p: seq<Server.State>, s: Server.State)
    requires Server.IsRun(p) && Server.Next(p[|p| - 1], s)
    ensures Server.IsRun(p + [s])
  {
    var q := p + [s];
    forall i: nat | i + 1 < |q|
      ensures Server.NextAt(q, i)
    {
      if i + 1 < |p| {
        assert Server.NextAt(p, i);
      }
    }
  }

  /** The composed system refines the server: all that is proved of a server's runs holds of it. */
  lemma {:induction false} ServerRunIsRun(run: seq<State>)
    requires IsRun(run)
    ensures Server.IsRun(ServerRun(run))
    decreases |run|
  {
    var n := |run| - 1;
    if n > 0 {
      PrefixIsRun(run, n);
      ServerRunIsRun(run[..n]);
      ServerNext(run, n - 1);
      if run[n].server != run[n - 1].server {
        ServerGoesOn(ServerRun(run[..n]), run[n].server);
      }
    }
  }

  lemma ServerNext(run: seq<State>, i: nat)
    requires IsRun(run) && i + 1 < |run|
    ensures run[i + 1].server == run[i].server || Server.Next(run[i].server, run[i + 1].server)
  {
    ServerFollows(run[i], System.StepAt(run, i));
  }

  /** The server's run up to position i. */
  lemma ServerRunTo(run: seq<State>, i: nat) returns (p: seq<Server.State>)
    requires IsRun(run) && i < |run|
    ensures Server.IsRun(p) && p[|p| - 1] == run[i].server
  {
    PrefixIsRun(run, i + 1);
    ServerRunIsRun(run[..i + 1]);
    p := ServerRun(run[..i + 1]);
  }
}
