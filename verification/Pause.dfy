/** The pause controller: pausing, timing out and terminating, and its rebuild from events. */
module Pause {
  import opened Wrappers
  import opened Events
  import Json

  datatype State =
    | Running
    | Requested(reason: string)
    | Acknowledged
    | Paused(reason: string)
    | TimedOut
    | ForceTerminationAvailable(token: string)
    | Terminated

  datatype Error = AlreadyRequested | InvalidState | InvalidConfirmationToken

  datatype Transition = Transition(from: State, to: State, token: Option<string>)

  function Decimal(n: nat): string {
    (if n < 10 then "" else Decimal(n / 10)) + [('0' as int + n % 10) as char]
  }

  function Token(counter: nat): string {
    "pause-force-" + Decimal(counter)
  }

  datatype Control = Control(state: State, tokens: nat)
  {
    function Moved(to: State, token: Option<string>): (Control, Result<Transition, Error>) {
      (this.(state := to), Ok(Transition(state, to, token)))
    }

    function Request(reason: string): (Control, Result<Transition, Error>) {
      match state
      case Running => Moved(Requested(reason), None)
      case Requested(_) => (this, Err(AlreadyRequested))
      case Acknowledged => (this, Err(AlreadyRequested))
      case _ => (this, Err(InvalidState))
    }

    function Acknowledge(): (Control, Result<Transition, Error>) {
      match state
      case Requested(reason) => Moved(Paused(reason), None)
      case _ => (this, Err(InvalidState))
    }

    function ForceToken(): (Control, Result<Transition, Error>) {
      match state
      case ForceTerminationAvailable(token) => (this, Ok(Transition(state, state, Some(token))))
      case Running => (this, Err(InvalidState))
      case Terminated => (this, Err(InvalidState))
      case _ =>
        var token := Token(tokens + 1);
        this.(tokens := tokens + 1).Moved(ForceTerminationAvailable(token), Some(token))
    }

    predicate CanForceTerminate(token: string) {
      state == ForceTerminationAvailable(token)
    }

    function ForceTerminate(token: string): (Control, Result<Transition, Error>) {
      match state
      case ForceTerminationAvailable(issued) =>
        if issued != token then (this, Err(InvalidConfirmationToken)) else Moved(Terminated, None)
      case _ => (this, Err(InvalidState))
    }
  }

  const DEFAULT := Control(Running, 0)

  // ---------- rebuilding ----------

  /** The effect of one stored event, chosen by the kind's name. */
  function After(state: State, e: Event): State {
    match e.kind
    case PauseRequested => Requested(Reason(e))
    case Unknown(name) =>
      if name == "pause_requested" then Requested(Reason(e))
      else if name == "pause_acknowledged" then Acknowledged
      else if name == "pause_timed_out" then TimedOut
      else if name == "force_terminated" then Terminated
      else state
    case _ => state
  }

  function Reason(e: Event): string {
    match Json.GetStr(e.payload, "reason")
    case Some(reason) => reason
    case None => "pause requested"
  }

  /** The state rebuilt from a list of events. */
  function Rebuilt(events: seq<Event>): State {
    if events == [] then Running else After(Rebuilt(events[..|events| - 1]), events[|events| - 1])
  }

  /** The controller as the source updates it. */
  class PauseController {
    var state: State
    var tokens: nat

    function View(): Control
      reads this
    {
      Control(state, tokens)
    }

    constructor ()
      ensures View() == DEFAULT
    {
      state, tokens := Running, 0;
    }

    static method FromEvents(events: seq<Event>) returns (p: PauseController)
      ensures fresh(p) && p.View() == Control(Rebuilt(events), 0)
    {
      p := new PauseController();
      for i := 0 to |events|
        invariant fresh(p) && p.View() == Control(Rebuilt(events[..i]), 0)
      {
        assert events[..i + 1][..i] == events[..i];
        var e := events[i];
        match e.kind {
          case PauseRequested => p.state := Requested(Reason(e));
          case Unknown(name) =>
            if name == "pause_requested" {
              p.state := Requested(Reason(e));
            } else if name == "pause_acknowledged" {
              p.state := Acknowledged;
            } else if name == "pause_timed_out" {
              p.state := TimedOut;
            } else if name == "force_terminated" {
              p.state := Terminated;
            }
          case _ =>
        }
      }
      assert events[..|events|] == events;
    }

    method Request(reason: string) returns (r: Result<Transition, Error>)
      modifies this
      ensures (View(), r) == old(View()).Request(reason)
    {
      var from := state;
      match state {
        case Running =>
          state := Requested(reason);
          return Ok(Transition(from, state, None));
        case Requested(_) => return Err(AlreadyRequested);
        case Acknowledged => return Err(AlreadyRequested);
        case _ => return Err(InvalidState);
      }
    }

    method Acknowledge() returns (r: Result<Transition, Error>)
      modifies this
      ensures (View(), r) == old(View()).Acknowledge()
    {
      var from := state;
      if !state.Requested? {
        return Err(InvalidState);
      }
      state := Paused(from.reason);
      return Ok(Transition(from, state, None));
    }

    method Timeout() returns (r: Result<Transition, Error>)
      modifies this
      ensures (View(), r) == old(View()).ForceToken()
    {
      r := ForceToken();
    }

    method ForceToken() returns (r: Result<Transition, Error>)
      modifies this
      ensures (View(), r) == old(View()).ForceToken()
    {
      var from := state;
      if state.ForceTerminationAvailable? {
        return Ok(Transition(from, state, Some(state.token)));
      }
      if state.Running? || state.Terminated? {
        return Err(InvalidState);
      }
      tokens := tokens + 1;
      var token := Token(tokens);
      state := ForceTerminationAvailable(token);
      return Ok(Transition(from, state, Some(token)));
    }

    method ForceTerminate(token: string) returns (r: Result<Transition, Error>)
      modifies this
      ensures (View(), r) == old(View()).ForceTerminate(token)
    {
      var from := state;
      if !state.ForceTerminationAvailable? {
        return Err(InvalidState);
      }
      if state.token != token {
        return Err(InvalidConfirmationToken);
      }
      state := Terminated;
      return Ok(Transition(from, state, None));
    }
  }

  // ---------- every run of calls ----------

  function Stage(state: State): nat {
    match state
    case Running => 0
    case Requested(_) => 1
    case Acknowledged => 2
    case Paused(_) => 2
    case TimedOut => 3
    case ForceTerminationAvailable(_) => 3
    case Terminated => 4
  }

  datatype Call = Requesting(reason: string) | Acknowledging | TimingOut | Forcing | Terminating(token: string)

  function Do(c: Control, call: Call): (Control, Result<Transition, Error>) {
    match call
    case Requesting(reason) => c.Request(reason)
    case Acknowledging => c.Acknowledge()
    case TimingOut => c.ForceToken()
    case Forcing => c.ForceToken()
    case Terminating(token) => c.ForceTerminate(token)
  }

  function Run(c: Control, calls: seq<Call>): Control {
    if calls == [] then c else Do(Run(c, calls[..|calls| - 1]), calls[|calls| - 1]).0
  }

  /** A controller as it is created or rebuilt, before any call. */
  predicate Initial(c: Control) {
    c.tokens == 0 && !c.state.ForceTerminationAvailable?
  }

  /** No token has been issued, or one and it is the first. */
  predicate OneToken(c: Control) {
    && (c.tokens == 0 ==> !c.state.ForceTerminationAvailable?)
    && (c.tokens > 0 ==> c.tokens == 1 && (c.state == ForceTerminationAvailable(Token(1)) || c.state.Terminated?))
  }

  lemma DoAdvances(c: Control, call: Call)
    requires OneToken(c)
    ensures OneToken(Do(c, call).0) && Stage(c.state) <= Stage(Do(c, call).0.state)
    ensures var (c', r) := Do(c, call);
            r.Ok? && r.value.token.Some? ==> r.value.token == Some(Token(1)) && c'.tokens == 1
  {
  }

  lemma RebuiltIsInitial(events: seq<Event>)
    ensures Initial(Control(Rebuilt(events), 0)) && OneToken(Control(Rebuilt(events), 0))
  {
  }

  /** Stages only advance, and a controller issues at most one token, always the same one. */
  lemma {:induction false} RunAdvances(c: Control, calls: seq<Call>)
    requires OneToken(c)
    ensures OneToken(Run(c, calls)) && Stage(c.state) <= Stage(Run(c, calls).state) && Run(c, calls).tokens <= 1
  {
    if calls != [] {
      RunAdvances(c, calls[..|calls| - 1]);
      DoAdvances(Run(c, calls[..|calls| - 1]), calls[|calls| - 1]);
    }
  }

  /** The call at i handed out the token. */
  predicate IssuedAt(c: Control, calls: seq<Call>, i: nat)
    requires i < |calls|
  {
    var r := Do(Run(c, calls[..i]), calls[i]).1;
    r.Ok? && r.value.token == Some(Token(1))
  }

  lemma {:induction false} AvailableWasIssued(c: Control, calls: seq<Call>) returns (i: nat)
    requires Initial(c) && Run(c, calls).state.ForceTerminationAvailable?
    ensures i < |calls| && IssuedAt(c, calls, i)
  {
    var n := |calls| - 1;
    var front := calls[..n];
    RunAdvances(c, front);
    if Run(c, front).state.ForceTerminationAvailable? {
      i := AvailableWasIssued(c, front);
      assert calls[i] == front[i] && calls[..i] == front[..i];
    } else {
      i := n;
    }
  }

  /** A controller that becomes Terminated does so by a call with the token an earlier call had handed out. */
  lemma {:induction false} TerminatedWithToken(c: Control, calls: seq<Call>) returns (i: nat, j: nat)
    requires Initial(c) && !c.state.Terminated? && Run(c, calls).state.Terminated?
    ensures i < j < |calls| && IssuedAt(c, calls, i) && calls[j] == Terminating(Token(1))
    ensures Run(c, calls[..j]).state == ForceTerminationAvailable(Token(1))
  {
    var n := |calls| - 1;
    var front := calls[..n];
    RunAdvances(c, front);
    if Run(c, front).state.Terminated? {
      i, j := TerminatedWithToken(c, front);
      assert calls[i] == front[i] && calls[..i] == front[..i];
      assert calls[j] == front[j] && calls[..j] == front[..j];
    } else {
      i := AvailableWasIssued(c, front);
      j := n;
      assert calls[i] == front[i] && calls[..i] == front[..i];
    }
  }

  lemma {:induction false} RunSplit(c: Control, a: seq<Call>, b: seq<Call>)
    ensures Run(c, a + b) == Run(Run(c, a), b)
  {
    if b == [] {
      assert a + b == a;
    } else {
      var n := |b| - 1;
      RunSplit(c, a, b[..n]);
      assert (a + b)[..|a| + n] == a + b[..n] && (a + b)[|a| + n] == b[n];
    }
  }

  lemma RunOne(c: Control, call: Call)
    ensures Run(c, [call]) == Do(c, call).0
  {
    assert [call][..0] == [];
  }
}
