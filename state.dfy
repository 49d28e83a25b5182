/** The State pattern: a `Context` that delegates `start`, `stop` and `status`
    to its current state object, which may swap the context's state. */
module States {
  import opened Common

  /** The two concrete states. They hold no data of their own, so they are values. */
  datatype State = Stopped | Started {

    /** The `name` field of each state class. */
    function Name(): (n: string)
      ensures n == "stopped" || n == "started"
      ensures Stopped? <==> n == "stopped"
    {
      match this
      case Stopped => "stopped"
      case Started => "started"
    }

    /** The state `start` leaves the context in. */
    function AfterStart(): State {
      Started
    }

    /** The state `stop` leaves the context in. */
    function AfterStop(): State {
      Stopped
    }

    /** The lines `start` prints in this state, including the `setState` hook's line. */
    function StartOutput(): seq<string> {
      match this
      case Stopped => ["transition: stopped -> started", ChangeLine(Stopped, Started)]
      case Started => ["already started"]
    }

    /** The lines `stop` prints in this state, including the `setState` hook's line. */
    function StopOutput(): seq<string> {
      match this
      case Stopped => ["already stopped"]
      case Started => ["transition: started -> stopped", ChangeLine(Started, Stopped)]
    }

    /** The line `status` prints in this state. */
    function StatusLine(): string {
      "status = " + Name()
    }

    /** `start` on the state object: a stopped state hands the context a started one. */
    method Start(ctx: Context, out: Console)
      requires ctx.state == this
      modifies ctx, out
      ensures ctx.state == AfterStart()
      ensures out.lines == old(out.lines) + StartOutput()
    {
      match this
      case Stopped =>
        out.Log("transition: stopped -> started");
        ctx.SetState(Started, out);
      case Started =>
        out.Log("already started");
    }

    /** `stop` on the state object: a started state hands the context a stopped one. */
    method Stop(ctx: Context, out: Console)
      requires ctx.state == this
      modifies ctx, out
      ensures ctx.state == AfterStop()
      ensures out.lines == old(out.lines) + StopOutput()
    {
      match this
      case Stopped =>
        out.Log("already stopped");
      case Started =>
        out.Log("transition: started -> stopped");
        ctx.SetState(Stopped, out);
    }

    /** `status` on the state object: prints only. */
    method Status(out: Console)
      modifies out
      ensures out.lines == old(out.lines) + [StatusLine()]
    {
      match this
      case Stopped =>
        assert StatusLine() == "status = stopped";
        out.Log("status = stopped");
      case Started =>
        assert StatusLine() == "status = started";
        out.Log("status = started");
    }
  }

  /** The line the `setState` hook prints. */
  function ChangeLine(prev: State, next: State): string {
    "state changed: " + prev.Name() + " -> " + next.Name()
  }

  class Context {
    var state: State

    /** A new context starts out stopped. */
    constructor ()
      ensures state == Stopped && GetStateName() == "stopped"
    {
      state := Stopped;
    }

    /** Replaces the state and prints the old and the new name. */
    method SetState(next: State, out: Console)
      modifies this, out
      ensures state == next && GetStateName() == next.Name()
      ensures out.lines == old(out.lines) + [ChangeLine(old(state), next)]
    {
      var prev := state.Name();
      state := next;
      out.Log("state changed: " + prev + " -> " + state.Name());
    }

    method Start(out: Console)
      modifies this, out
      ensures state == old(state).AfterStart()
      ensures out.lines == old(out.lines) + old(state).StartOutput()
    {
      state.Start(this, out);
    }

    method Stop(out: Console)
      modifies this, out
      ensures state == old(state).AfterStop()
      ensures out.lines == old(out.lines) + old(state).StopOutput()
    {
      state.Stop(this, out);
    }

    method Status(out: Console)
      modifies out
      ensures out.lines == old(out.lines) + [state.StatusLine()]
    {
      state.Status(out);
    }

    function GetStateName(): string
      reads this
    {
      state.Name()
    }
  }

  /** The calls a client can make on a context. */
  datatype Call = StartCall | StopCall | StatusCall

  /** The state after a sequence of calls. */
  function Run(s: State, calls: seq<Call>): State
    decreases |calls|
  {
    if calls == [] then s
    else
      var next := match calls[0]
        case StartCall => s.AfterStart()
        case StopCall => s.AfterStop()
        case StatusCall => s;
      Run(next, calls[1..])
  }

  /** The lines printed by a sequence of calls. */
  function RunOutput(s: State, calls: seq<Call>): seq<string>
    decreases |calls|
  {
    if calls == [] then []
    else
      match calls[0]
      case StartCall => s.StartOutput() + RunOutput(s.AfterStart(), calls[1..])
      case StopCall => s.StopOutput() + RunOutput(s.AfterStop(), calls[1..])
      case StatusCall => [s.StatusLine()] + RunOutput(s, calls[1..])
  }

  /** A second `start` changes nothing and only reports "already started";
      likewise for `stop`. */
  lemma RepeatIsIdempotent(s: State)
    ensures s.AfterStart().AfterStart() == s.AfterStart()
    ensures s.AfterStart().StartOutput() == ["already started"]
    ensures s.AfterStop().AfterStop() == s.AfterStop()
    ensures s.AfterStop().StopOutput() == ["already stopped"]
  {
  }

  /** A state changes exactly when the call moves it, and a transition always
      prints the hook line naming the old and the new state. */
  lemma TransitionsAreLogged(s: State)
    ensures s.AfterStart() != s <==> s == Stopped
    ensures s.AfterStop() != s <==> s == Started
    ensures s == Stopped ==> ChangeLine(s, s.AfterStart()) in s.StartOutput()
    ensures s == Started ==> ChangeLine(s, s.AfterStop()) in s.StopOutput()
  {
  }

  /** Whatever calls are made, the final state is whatever the last `start` or
      `stop` chose, or the initial one when there was none. */
  lemma {:induction false} RunEndsAtLastMove(s: State, calls: seq<Call>)
    ensures Run(s, calls) == LastMove(s, calls)
    decreases |calls|
  {
    if calls != [] {
      var next := match calls[0]
        case StartCall => s.AfterStart()
        case StopCall => s.AfterStop()
        case StatusCall => s;
      RunEndsAtLastMove(next, calls[1..]);
      LastMoveSplit(s, next, calls);
    }
  }

  /** Reference definition: scan from the back for the last state-changing call. */
  function LastMove(s: State, calls: seq<Call>): State
    decreases |calls|
  {
    if calls == [] then s
    else
      match calls[|calls| - 1]
      case StartCall => Started
      case StopCall => Stopped
      case StatusCall => LastMove(s, calls[..|calls| - 1])
  }

  lemma {:induction false} LastMoveSplit(s: State, next: State, calls: seq<Call>)
    requires calls != []
    requires next == match calls[0]
      case StartCall => s.AfterStart()
      case StopCall => s.AfterStop()
      case StatusCall => s
    ensures LastMove(next, calls[1..]) == LastMove(s, calls)
    decreases |calls|
  {
    if |calls| > 1 {
      var last := calls[|calls| - 1];
      assert calls[1..][..|calls[1..]| - 1] == calls[..|calls| - 1][1..];
      if last == StatusCall {
        LastMoveSplit(s, next, calls[..|calls| - 1]);
      }
    }
  }

  /** The calls the demo makes. */
  const DemoCalls: seq<Call> :=
    [StatusCall, StartCall, StatusCall, StartCall, StopCall, StopCall, StatusCall]

  /** What the demo prints after its heading. */
  const DemoLines: seq<string> := [
    "status = stopped",
    "transition: stopped -> started",
    "state changed: stopped -> started",
    "status = started",
    "already started",
    "transition: started -> stopped",
    "state changed: started -> stopped",
    "already stopped",
    "status = stopped"
  ]

  /** The literal text of every line a call can print. */
  lemma OutputTexts()
    ensures Stopped.StatusLine() == "status = stopped"
    ensures Started.StatusLine() == "status = started"
    ensures Stopped.StartOutput() == DemoLines[1..3]
    ensures Started.StopOutput() == DemoLines[5..7]
  {
    assert ChangeLine(Stopped, Started) == "state changed: stopped -> started";
    assert ChangeLine(Started, Stopped) == "state changed: started -> stopped";
  }

  lemma DemoSequence()
    ensures Run(Stopped, DemoCalls) == Stopped
    ensures RunOutput(Stopped, DemoCalls) == DemoLines
  {
    OutputTexts();
    var c := DemoCalls;
    assert c[6..] == [StatusCall] && c[6..][1..] == [];
    assert RunOutput(Stopped, c[6..]) == DemoLines[8..];
    assert c[5..][1..] == c[6..] && c[4..][1..] == c[5..] && c[3..][1..] == c[4..];
    assert c[2..][1..] == c[3..] && c[1..][1..] == c[2..] && c[0..][1..] == c[1..];
    assert RunOutput(Stopped, c[5..]) == DemoLines[7..];
    assert RunOutput(Started, c[4..]) == DemoLines[5..];
    assert RunOutput(Started, c[3..]) == DemoLines[4..];
    assert RunOutput(Started, c[2..]) == DemoLines[3..];
    assert RunOutput(Stopped, c[1..]) == DemoLines[1..];
    assert c[0..] == c;
  }

  /** The demo: seven calls on a new context, ending stopped. */
  method DemoState(out: Console)
    modifies out
    ensures out.lines == old(out.lines) + ["State pattern demo:"] + DemoLines
  {
    out.Log("State pattern demo:");
    var ctx := new Context();
    ctx.Status(out);
    ctx.Start(out);
    ctx.Status(out);
    ctx.Start(out);
    ctx.Stop(out);
    ctx.Stop(out);
    ctx.Status(out);
    assert ctx.GetStateName() == "stopped";
    OutputTexts();
  }
}
