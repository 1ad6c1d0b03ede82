/**
 * The mission actor over the ledger's table: what the ledger accepts from it is always inserted, and replaying the
 * table gives the actor's log exactly when the ledger kept every event as it is.
 */
module ActorLedger {
  import opened Wrappers
  import opened Events
  import opened MissionActor
  import Approval
  import Budget
  import EventPipeline
  import Json
  import Ledger

  // ---------- how the log grows ----------

  /** The event is the mission's, with this sequence. */
  predicate Follows(mission: string, e: Event, n: int) {
    e.mission == mission && e.sequence == n
  }

  /** The log is extended by events of the mission, numbered on from the sequence, which has moved with them. */
  ghost predicate Extends(env: Env, s: Core, s': Core) {
    && s.log <= s'.log && s'.sequence - s.sequence == |s'.log| - |s.log|
    && forall i :: |s.log| <= i < |s'.log| ==> Follows(env.mission, s'.log[i], s.sequence + 1 + (i - |s.log|))
  }

  lemma AppendExtends(env: Env, s: Core, e: Event)
    requires Follows(env.mission, e, s.sequence + 1)
    ensures Extends(env, s, AppendEnvelope(env, s, e).0)
  {
  }

  lemma ExtendsOn(env: Env, a: Core, b: Core, c: Core)
    requires Extends(env, a, b) && Extends(env, b, c)
    ensures Extends(env, a, c)
  {
    forall i | |a.log| <= i < |c.log| ensures Follows(env.mission, c.log[i], a.sequence + 1 + (i - |a.log|)) {
      if i < |b.log| {
        assert c.log[i] == b.log[i];
      }
    }
  }

  lemma MintExtends(env: Env, s: Core, kind: Kind, payload: Json.Value)
    ensures Extends(env, s, Append(env, s, kind, payload).0)
  {
    AppendExtends(env, s, Envelope(env, s, kind, payload));
  }

  lemma SafePauseExtends(env: Env, s: Core, reason: string)
    ensures Extends(env, s, RequestSafePause(env, s, reason).0)
  {
    var moved := s.(pause := s.pause.Request(reason).0);
    MintExtends(env, moved, PauseRequested, Json.Object(map["reason" := Json.String(reason)]));
  }

  lemma AcknowledgeExtends(env: Env, s: Core)
    ensures Extends(env, s, AcknowledgePause(env, s).0)
  {
    MintExtends(env, s.(pause := s.pause.Acknowledge().0), Unknown("pause_acknowledged"), Json.Null);
  }

  lemma TokenExtends(env: Env, s: Core)
    ensures Extends(env, s, IssueForceToken(env, s).0)
  {
    MintExtends(env, s.(pause := s.pause.ForceToken().0), Unknown("pause_timed_out"), Json.Null);
  }

  lemma ForcingExtends(env: Env, s: Core)
    ensures Extends(env, s, RequestForceTermination(env, s).0)
  {
    var reason := "user requested force termination";
    var paused := RequestSafePause(env, s, reason).0;
    SafePauseExtends(env, s, reason);
    TokenExtends(env, s);
    TokenExtends(env, paused);
    ExtendsOn(env, s, paused, IssueForceToken(env, paused).0);
  }

  lemma TerminationExtends(env: Env, s: Core, token: string, killed: bool)
    ensures Extends(env, s, ForceTerminate(env, s, token, killed).0)
  {
    MintExtends(env, s, Unknown("termination_failed"), Json.Null);
    MintExtends(env, s.(pause := s.pause.ForceTerminate(token).0), Unknown("force_terminated"), Json.Null);
  }

  lemma UiExtends(env: Env, s: Core, connected: bool)
    ensures Extends(env, s, SetUiConnected(env, s, connected).0)
  {
    SafePauseExtends(env, s.(uiConnected := connected), "ui disconnected");
  }

  lemma GateExtends(env: Env, s: Core, policy: Policy, intended: Approval.ActionClass,
                    request: Option<Approval.Request>)
    ensures Extends(env, s, GateAction(env, s, policy, intended, request).0)
  {
    SafePauseExtends(env, s, "policy denied action dispatch");
    if request.Some? {
      MintExtends(env, s, ApprovalRequested, Json.Object(map["approval" := env.encode(request.value)]));
    }
  }

  lemma ResolveExtends(env: Env, s: Core, caller: Caller, c: Command)
    ensures Extends(env, s, ResolveApproval(env, s, caller, c).0)
  {
    if c.id in s.approvals && SubjectOf(s.approvals[c.id], c).Some? {
      var resolved := Resolved(s.approvals[c.id], ProtocolActor(caller), c, SubjectOf(s.approvals[c.id], c).value);
      if resolved.Ok? {
        MintExtends(env, s, resolved.value.1, Json.Object(map["approval" := env.encode(resolved.value.0)]));
      }
    }
  }

  lemma AuthorizeExtends(env: Env, s: Core, id: string, subject: Approval.Subject, now: nat)
    ensures Extends(env, s, AuthorizeApprovedAction(env, s, id, subject, now).0)
  {
    if id in s.approvals {
      var next := s.approvals[id].Authorize(subject, now).0;
      MintExtends(env, s, ApprovalConsumed, Json.Object(map["approval" := env.encode(next)]));
    }
  }

  lemma {:induction false} RevokeEachExtends(env: Env, s: Core, ids: seq<string>)
    ensures Extends(env, s, RevokeEach(env, s, ids).0)
    decreases |ids|
  {
    if ids != [] && ids[0] in s.approvals && s.approvals[ids[0]].Open() {
      var next := s.approvals[ids[0]].RevokeForLoadoutChange().0;
      MintExtends(env, s, ApprovalRevoked, Json.Object(map["approval" := env.encode(next)]));
      var (s', ok) := RevokedOne(env, s, ids[0]);
      if ok {
        RevokeEachExtends(env, s', ids[1..]);
        ExtendsOn(env, s, s', RevokeEach(env, s', ids[1..]).0);
      }
    }
  }

  lemma LoadoutExtends(env: Env, s: Core, previous: string, next: string)
    ensures Extends(env, s, CheckLoadoutChange(env, s, previous, next).0)
  {
    var s1 := RevokeEach(env, s, OpenIds(s.approvals, env.order(s.attempts, s.approvals))).0;
    var s2 := Append(env, s1, LoadoutChanged, Json.Null).0;
    var s3 := RequestSafePause(env, s2, "provider loadout changed").0;
    RevokeEachExtends(env, s, OpenIds(s.approvals, env.order(s.attempts, s.approvals)));
    MintExtends(env, s1, LoadoutChanged, Json.Null);
    SafePauseExtends(env, s2, "provider loadout changed");
    ExtendsOn(env, s, s1, s2);
    ExtendsOn(env, s, s2, s3);
  }

  lemma {:induction false} AppendSignalsExtends(env: Env, s: Core, signals: seq<Budget.Signal>)
    ensures Extends(env, s, AppendSignals(env, s, signals).0)
    decreases |signals|
  {
    if signals != [] {
      MintExtends(env, s, SignalKind(signals[0]), Json.Null);
      var (s', ok) := Append(env, s, SignalKind(signals[0]), Json.Null);
      if ok {
        AppendSignalsExtends(env, s', signals[1..]);
        ExtendsOn(env, s, s', AppendSignals(env, s', signals[1..]).0);
      }
    }
  }

  lemma SignalsExtend(env: Env, s: Core, signals: seq<Budget.Signal>)
    ensures Extends(env, s, ApplyBudgetSignals(env, s, signals).0)
  {
    var reason := "mission budget reached at safe boundary";
    var s' := AppendSignals(env, s, signals).0;
    AppendSignalsExtends(env, s, signals);
    SafePauseExtends(env, s', reason);
    ExtendsOn(env, s, s', RequestSafePause(env, s', reason).0);
  }

  lemma FlightExtends(env: Env, s: Core, changed: bool)
    ensures Extends(env, s, CheckFlightIdentity(env, s, changed).0)
  {
    var reason := "flight envelope identity changed";
    var s' := Append(env, s, FlightEnvelopeChanged, Json.Null).0;
    MintExtends(env, s, FlightEnvelopeChanged, Json.Null);
    SafePauseExtends(env, s', reason);
    ExtendsOn(env, s, s', RequestSafePause(env, s', reason).0);
  }

  lemma RecoveryExtends(env: Env, s: Core, decision: string, manifest: Json.Value)
    ensures Extends(env, s, ResolveRecovery(env, s, decision, manifest).0)
  {
    MintExtends(env, s, RecoveryContinued, manifest);
    MintExtends(env, s, RecoveryAbandoned, manifest);
  }

  lemma AgentExtends(env: Env, s: Core, e: AgentEvent)
    ensures Extends(env, s, RecordAgentEvent(env, s, e).0)
  {
    AppendExtends(env, s, AgentEnvelope(env, s, e));
  }

  lemma OtherOpsExtend(env: Env, s: Core, op: Op)
    requires !IsPausing(op)
    ensures Extends(env, s, Do(env, s, op))
  {
    match op {
      case Gating(policy, intended, request) => GateExtends(env, s, policy, intended, request);
      case Resolving(caller, command) => ResolveExtends(env, s, caller, command);
      case Authorizing(id, subject, now) => AuthorizeExtends(env, s, id, subject, now);
      case Signalling(signals) => SignalsExtend(env, s, signals);
      case CheckingFlight(changed) => FlightExtends(env, s, changed);
      case CheckingLoadout(previous, next) => LoadoutExtends(env, s, previous, next);
      case RecordingAgent(event) => AgentExtends(env, s, event);
      case Recording(kind, payload) => MintExtends(env, s, kind, payload);
      case Recovering(decision, manifest) => RecoveryExtends(env, s, decision, manifest);
      case Connecting(connected) => UiExtends(env, s, connected);
    }
  }

  lemma PausingOpsExtend(env: Env, s: Core, op: Op)
    requires IsPausing(op)
    ensures Extends(env, s, Do(env, s, op))
  {
    match op {
      case Pausing(reason) => SafePauseExtends(env, s, reason);
      case Acknowledging => AcknowledgeExtends(env, s);
      case TimingOut => TokenExtends(env, s);
      case Forcing => ForcingExtends(env, s);
      case Terminating(token, killed) => TerminationExtends(env, s, token, killed);
    }
  }

  lemma DoExtends(env: Env, s: Core, op: Op)
    ensures Extends(env, s, Do(env, s, op))
  {
    if IsPausing(op) {
      PausingOpsExtend(env, s, op);
    } else {
      OtherOpsExtend(env, s, op);
    }
  }

  /** Over every run the log only grows, by the mission's own events, numbered without a gap. */
  lemma {:induction false} RunExtends(env: Env, s: Core, ops: seq<Op>)
    ensures Extends(env, s, Run(env, s, ops))
  {
    if ops != [] {
      var front := ops[..|ops| - 1];
      RunExtends(env, s, front);
      DoExtends(env, Run(env, s, front), ops[|ops| - 1]);
      ExtendsOn(env, s, Run(env, s, front), Run(env, s, ops));
    }
  }

  // ---------- the table behind the log ----------

  /** The table is intact and replays to the log. */
  ghost predicate Backs(c: Codec, t: Ledger.Table, mission: string, log: seq<Event>) {
    Ledger.Intact(c, t) && Ledger.ReplayEvents(c, t, mission) == Ok(log)
  }

  /** Redaction leaves the event's payload and evidence alone, and its kind does not borrow a known name. */
  predicate Unchanged(c: Codec, e: Event) {
    && EventPipeline.Kept(c, e)
    && (e.rawEvidence.Some? ==> c.redact(e.rawEvidence.value) == Some(e.rawEvidence.value))
  }

  /** The ledger gives an accepted event back as it is exactly then. */
  lemma PersistedIff(c: Codec, e: Event)
    requires Ledger.Prepare(c, e).Ok?
    ensures Ledger.Persisted(c, e) == e <==> Unchanged(c, e)
  {
    StoredIff(e.kind);
  }

  lemma BackedLog(c: Codec, t: Ledger.Table, mission: string, log: seq<Event>)
    requires Backs(c, t, mission, log)
    ensures log == EventPipeline.History(c, t, mission) && |log| == |Ledger.Of(t, mission)| && Latest(log) == |log|
  {
    EventPipeline.HistoryInOrder(c, t, mission);
    LatestOfNumbered(log);
  }

  lemma {:induction false} LatestOfNumbered(log: seq<Event>)
    requires forall i :: 0 <= i < |log| ==> EventPipeline.Placed(log[i], i)
    ensures Latest(log) == |log|
  {
    if log != [] {
      LatestOfNumbered(log[..|log| - 1]);
    }
  }

  /** An event with the next sequence is not one the table holds: the ledger inserts it or refuses it. */
  lemma NextIsNotHeld(c: Codec, t: Ledger.Table, e: Event)
    requires Ledger.Intact(c, t) && e.sequence == |Ledger.Of(t, e.mission)| + 1 && Ledger.Append(c, t, e).Ok?
    ensures Ledger.ById(t, e.id).None?
  {
    if Ledger.ById(t, e.id).Some? {
      var j := EventPipeline.HeldIsApplied(t, e.id);
      var i := Ledger.OfIndex(t, j);
      assert false;
    }
  }

  /** What the ledger accepts of the actor is a new row, and replay then gives one more event: what the ledger kept. */
  lemma AcceptedIsInserted(c: Codec, t: Ledger.Table, e: Event)
    requires c.RoundTrips() && Ledger.Intact(c, t)
    requires e.sequence == |Ledger.Of(t, e.mission)| + 1 && Ledger.Append(c, t, e).Ok?
    ensures var t' := Ledger.Append(c, t, e).value;
            && t' == t + [Ledger.Prepare(c, e).value]
            && Backs(c, t', e.mission, EventPipeline.History(c, t, e.mission) + [Ledger.Persisted(c, e)])
  {
    NextIsNotHeld(c, t, e);
    EventPipeline.HistorySnoc(c, t, e);
    Ledger.AfterKeepsIntact(c, t, Ledger.AppendOne(e));
    EventPipeline.HistoryInOrder(c, Ledger.Append(c, t, e).value, e.mission);
  }

  /** The table goes on backing the log exactly when the ledger keeps the event as it is. */
  lemma AcceptedBacksIff(c: Codec, t: Ledger.Table, log: seq<Event>, e: Event)
    requires c.RoundTrips() && Backs(c, t, e.mission, log)
    requires e.sequence == |log| + 1 && Ledger.Append(c, t, e).Ok?
    ensures Backs(c, Ledger.Append(c, t, e).value, e.mission, log + [e]) <==> Unchanged(c, e)
  {
    BackedLog(c, t, e.mission, log);
    AcceptedIsInserted(c, t, e);
    PersistedIff(c, e);
    assert (log + [e])[|log|] == e;
    assert (log + [Ledger.Persisted(c, e)])[|log|] == Ledger.Persisted(c, e);
  }

  // ---------- whole runs over the table ----------

  /** Events of the mission, numbered on from the log. */
  ghost predicate Follow(mission: string, log: seq<Event>, added: seq<Event>) {
    forall i :: 0 <= i < |added| ==> Follows(mission, added[i], |log| + 1 + i)
  }

  /** The events of a list, each as the ledger keeps it, after what was there. */
  ghost predicate KeptAs(c: Codec, log: seq<Event>, added: seq<Event>, replayed: seq<Event>) {
    && |replayed| == |log| + |added| && log <= replayed
    && forall i :: 0 <= i < |added| ==> KeptAt(c, added[i], replayed[|log| + i])
  }

  predicate KeptAt(c: Codec, e: Event, kept: Event) {
    Ledger.Prepare(c, e).Ok? && kept == Ledger.Persisted(c, e)
  }

  lemma FollowTail(mission: string, log: seq<Event>, kept: Event, added: seq<Event>)
    requires added != [] && Follow(mission, log, added)
    ensures Follow(mission, log + [kept], added[1..])
  {
    forall i | 0 <= i < |added| - 1 ensures Follows(mission, added[1..][i], |log + [kept]| + 1 + i) {
      assert added[1..][i] == added[i + 1] && Follows(mission, added[i + 1], |log| + 1 + (i + 1));
    }
  }

  lemma KeptAsCons(c: Codec, log: seq<Event>, added: seq<Event>, kept: Event, replayed: seq<Event>)
    requires added != [] && KeptAt(c, added[0], kept) && KeptAs(c, log + [kept], added[1..], replayed)
    ensures KeptAs(c, log, added, replayed)
  {
    assert replayed[..|log| + 1] == log + [kept];
    assert log <= replayed by {
      assert replayed[..|log|] == replayed[..|log| + 1][..|log|];
    }
    forall i | 0 <= i < |added| ensures KeptAt(c, added[i], replayed[|log| + i]) {
      if i > 0 {
        assert KeptAt(c, added[1..][i - 1], replayed[|log + [kept]| + (i - 1)]);
      } else {
        assert replayed[|log|] == (log + [kept])[|log|];
      }
    }
  }

  /** A new row for every event, after which replay gives the log and what was kept of each. */
  ghost predicate Inserted(c: Codec, t: Ledger.Table, t': Ledger.Table, mission: string, log: seq<Event>,
                           added: seq<Event>)
  {
    && |t'| == |t| + |added|
    && Backs(c, t', mission, EventPipeline.History(c, t', mission))
    && KeptAs(c, log, added, EventPipeline.History(c, t', mission))
  }

  lemma FirstIsInserted(c: Codec, t: Ledger.Table, mission: string, log: seq<Event>, added: seq<Event>)
    requires c.RoundTrips() && Backs(c, t, mission, log) && Follow(mission, log, added) && added != []
    requires Ledger.Append(c, t, added[0]).Ok?
    ensures Ledger.Prepare(c, added[0]).Ok? && |Ledger.Append(c, t, added[0]).value| == |t| + 1
    ensures Backs(c, Ledger.Append(c, t, added[0]).value, mission, log + [Ledger.Persisted(c, added[0])])
    ensures Follow(mission, log + [Ledger.Persisted(c, added[0])], added[1..])
  {
    assert Follows(mission, added[0], |log| + 1 + 0);
    BackedLog(c, t, mission, log);
    AcceptedIsInserted(c, t, added[0]);
    FollowTail(mission, log, Ledger.Persisted(c, added[0]), added);
  }

  /** What the ledger accepts of a run is inserted, every event of it, and replay gives what it kept of each. */
  lemma {:induction false} AllAcceptedAreInserted(c: Codec, t: Ledger.Table, mission: string,
                                                  log: seq<Event>, added: seq<Event>)
    requires c.RoundTrips() && Backs(c, t, mission, log) && Follow(mission, log, added)
    requires Ledger.OneByOne(c, t, added).Ok?
    ensures Inserted(c, t, Ledger.OneByOne(c, t, added).value, mission, log, added)
    decreases |added|
  {
    if added == [] {
      BackedLog(c, t, mission, log);
    } else {
      FirstIsInserted(c, t, mission, log, added);
      var kept, t' := Ledger.Persisted(c, added[0]), Ledger.Append(c, t, added[0]).value;
      AllAcceptedAreInserted(c, t', mission, log + [kept], added[1..]);
      var last := Ledger.OneByOne(c, t', added[1..]).value;
      KeptAsCons(c, log, added, kept, EventPipeline.History(c, last, mission));
    }
  }

  lemma KeptAsIff(c: Codec, log: seq<Event>, added: seq<Event>, replayed: seq<Event>)
    requires KeptAs(c, log, added, replayed)
    ensures replayed == log + added <==> forall e :: e in added ==> Unchanged(c, e)
  {
    if replayed == log + added {
      forall e | e in added ensures Unchanged(c, e) {
        var i :| 0 <= i < |added| && added[i] == e;
        assert KeptAt(c, added[i], replayed[|log| + i]);
        PersistedIff(c, e);
      }
    }
    if forall e :: e in added ==> Unchanged(c, e) {
      forall i | 0 <= i < |added| ensures replayed[|log| + i] == added[i] {
        assert KeptAt(c, added[i], replayed[|log| + i]) && added[i] in added;
        PersistedIff(c, added[i]);
      }
      assert replayed == replayed[..|log|] + replayed[|log|..];
    }
  }

  /** The events a run adds to the log. */
  ghost function Added(env: Env, s: Core, ops: seq<Op>): (es: seq<Event>)
    ensures Run(env, s, ops).log == s.log + es
  {
    RunExtends(env, s, ops);
    Run(env, s, ops).log[|s.log|..]
  }

  lemma AddedFollow(env: Env, s: Core, s': Core, added: seq<Event>)
    requires Extends(env, s, s') && s'.log == s.log + added && s.sequence == |s.log|
    ensures Follow(env.mission, s.log, added)
  {
    forall i | 0 <= i < |added| ensures Follows(env.mission, added[i], |s.log| + 1 + i) {
      assert added[i] == s'.log[|s.log| + i];
      assert Follows(env.mission, s'.log[|s.log| + i], s.sequence + 1 + (|s.log| + i - |s.log|));
    }
  }

  /**
   * Over every run: if the ledger took the events that are in the log, each in its turn, then it inserted every one
   * of them, and replaying the mission gives what it kept of each. That is the log, so that a restart from the ledger
   * is a restart from the log, exactly when it kept them all as they are.
   */
  lemma RunOverLedger(c: Codec, t: Ledger.Table, env: Env, s: Core, ops: seq<Op>)
    requires c.RoundTrips() && Backs(c, t, env.mission, s.log) && s.sequence == Latest(s.log)
    requires Ledger.OneByOne(c, t, Added(env, s, ops)).Ok?
    ensures Inserted(c, t, Ledger.OneByOne(c, t, Added(env, s, ops)).value, env.mission, s.log, Added(env, s, ops))
    ensures Backs(c, Ledger.OneByOne(c, t, Added(env, s, ops)).value, env.mission, Run(env, s, ops).log) <==>
            forall e :: e in Added(env, s, ops) ==> Unchanged(c, e)
  {
    var added := Added(env, s, ops);
    RunExtends(env, s, ops);
    BackedLog(c, t, env.mission, s.log);
    AddedFollow(env, s, Run(env, s, ops), added);
    AllAcceptedAreInserted(c, t, env.mission, s.log, added);
    KeptAsIff(c, s.log, added, EventPipeline.History(c, Ledger.OneByOne(c, t, added).value, env.mission));
  }

  /** The ledger replays the mission, to a history that needs recovery. */
  ghost predicate NeedsRecovery(c: Codec, t: Ledger.Table, mission: string) {
    Ledger.ReplayEvents(c, t, mission).Ok? && RecoveryRequired(Ledger.ReplayEvents(c, t, mission).value)
  }

  /** In memory, a recorded event under the name of a run start is an event of an unknown kind. */
  lemma BorrowedStartInMemory(env: Env, s: Core, payload: Json.Value)
    requires Agrees(env, s) && !s.requiresRecovery && env.fate(s.attempts)
    ensures var s' := RecordEvent(env, s, Unknown("agent_run_started"), payload).0;
            && s'.log == s.log + [Envelope(env, s, Unknown("agent_run_started"), payload)]
            && Agrees(env, s') && !s'.requiresRecovery
  {
    RecordEventAgreesIff(env, s, Unknown("agent_run_started"), payload);
  }

  lemma BorrowedStartIsKept(c: Codec, e: Event)
    requires e.kind == Unknown("agent_run_started") && Ledger.Prepare(c, e).Ok?
    ensures Ledger.Persisted(c, e).kind == AgentRunStarted
  {
  }

  /** In the ledger it is a run start. */
  lemma BorrowedStartInLedger(c: Codec, t: Ledger.Table, e: Event)
    requires c.RoundTrips() && Ledger.Intact(c, t) && e.kind == Unknown("agent_run_started")
    requires e.sequence == |Ledger.Of(t, e.mission)| + 1 && Ledger.Append(c, t, e).Ok?
    ensures NeedsRecovery(c, Ledger.Append(c, t, e).value, e.mission)
  {
    AcceptedIsInserted(c, t, e);
    var before, kept := EventPipeline.History(c, t, e.mission), Ledger.Persisted(c, e);
    BorrowedStartIsKept(c, e);
    assert RecoveryRequired(before + [kept]) by {
      assert (before + [kept])[|before|] == kept;
    }
  }

  /** So after such an event, accepted by both, memory needs no recovery, and a restart from the ledger does. */
  lemma BorrowedStartDisagrees(c: Codec, t: Ledger.Table, env: Env, s: Core, payload: Json.Value)
    requires c.RoundTrips() && Backs(c, t, env.mission, s.log) && Agrees(env, s) && !s.requiresRecovery
    requires env.fate(s.attempts)
    requires Ledger.Append(c, t, Envelope(env, s, Unknown("agent_run_started"), payload)).Ok?
    ensures var s' := RecordEvent(env, s, Unknown("agent_run_started"), payload).0;
            && s'.log == s.log + [Envelope(env, s, Unknown("agent_run_started"), payload)]
            && Agrees(env, s') && !s'.requiresRecovery
    ensures var t' := Ledger.Append(c, t, Envelope(env, s, Unknown("agent_run_started"), payload)).value;
            NeedsRecovery(c, t', env.mission)
  {
    BorrowedStartInMemory(env, s, payload);
    BackedLog(c, t, env.mission, s.log);
    BorrowedStartInLedger(c, t, Envelope(env, s, Unknown("agent_run_started"), payload));
  }
}
