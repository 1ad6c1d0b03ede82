/**
 * A mission's supervisor: what it holds in memory beside an append-only log that may refuse any append, and what a
 * restart would rebuild from that log.
 */
module MissionActor {
  import opened Wrappers
  import opened Machine
  import opened Events
  import Approval
  import Budget
  import Json
  import Pause
  import Text

  type Approvals = map<string, Approval.Request>

  /**
   * What the actor does not decide: its identity, whether the ledger accepts the nth append, the id and time of
   * the nth event, the JSON form of an approval, and the order a hash map is walked in after n appends.
   */
  datatype Env = Env(
    mission: string,
    route: string,
    fate: nat -> bool,
    id: nat -> string,
    time: nat -> string,
    hash: Json.Value -> string,
    encode: Approval.Request -> Json.Value,
    decode: Json.Value -> Option<Approval.Request>,
    show: Json.Value -> string,
    order: (nat, Approvals) -> seq<string>)
  {
    /** An approval written as JSON is read back as it was, and a map is walked once over each of its keys. */
    ghost predicate Faithful() {
      && (forall r :: decode(encode(r)) == Some(r))
      && (forall n, m, i, j :: 0 <= i < j < |order(n, m)| ==> order(n, m)[i] != order(n, m)[j])
      && (forall n, m, k :: k in order(n, m) <==> k in m)
    }
  }

  datatype Error =
    | LedgerRefused | TerminationFailed
    | PauseError(pause: Pause.Error) | ApprovalError(approval: Approval.Error)
    | MissingApprovalRequest | ApprovalBindingMismatch | InvalidApprovalSubject
    | RecoveryNotRequired | RecoveryDecisionInvalid

  /** What the actor holds, its log, and the number of appends it has attempted. */
  datatype Core = Core(
    log: seq<Event>,
    attempts: nat,
    sequence: nat,
    pause: Pause.Control,
    uiConnected: bool,
    requiresRecovery: bool,
    approvals: Approvals)

  // ---------- rebuilding from the log ----------

  function Latest(log: seq<Event>): nat {
    if log == [] then 0 else Max(Latest(log[..|log| - 1]), log[|log| - 1].sequence)
  }

  /** Whether a run is left open, after one more event. */
  function RecoveryAfter(active: bool, e: Event): bool {
    match e.kind
    case AgentRunStarted => true
    case AgentRunCompleted => active && Json.GetStr(e.payload, "status") == Some("interrupted")
    case AgentRunAborted => false
    case RecoveryContinued => false
    case RecoveryAbandoned => false
    case Unknown(name) => active && name != "force_terminated"
    case _ => active
  }

  function RecoveryRequired(log: seq<Event>): bool {
    if log == [] then false else RecoveryAfter(RecoveryRequired(log[..|log| - 1]), log[|log| - 1])
  }

  predicate IsApproval(k: Kind) {
    k.ApprovalRequested? || k.ApprovalResolved? || k.ApprovalRevoked? || k.ApprovalExpired? || k.ApprovalConsumed?
  }

  datatype ReplayError = MissingApproval(sequence: nat) | InvalidApproval(sequence: nat)

  function ApprovalIn(env: Env, e: Event): Result<Approval.Request, ReplayError> {
    match Json.Get(e.payload, "approval")
    case None => Err(MissingApproval(e.sequence))
    case Some(v) =>
      match env.decode(v)
      case Some(a) => Ok(a)
      case None => Err(InvalidApproval(e.sequence))
  }

  /** The approvals after one more event: the latest form of each, by id. */
  function ApprovalsAfter(env: Env, before: Approvals, e: Event): Result<Approvals, ReplayError> {
    if !IsApproval(e.kind) then Ok(before)
    else match ApprovalIn(env, e)
      case Ok(a) => Ok(before[a.id := a])
      case Err(error) => Err(error)
  }

  function ReplayApprovals(env: Env, log: seq<Event>): Result<Approvals, ReplayError> {
    if log == [] then Ok(map[])
    else match ReplayApprovals(env, log[..|log| - 1])
      case Ok(before) => ApprovalsAfter(env, before, log[|log| - 1])
      case Err(error) => Err(error)
  }

  /** What a restart builds from a log. */
  function TryNew(env: Env, log: seq<Event>, attempts: nat): Result<Core, ReplayError> {
    match ReplayApprovals(env, log)
    case Err(error) => Err(error)
    case Ok(approvals) =>
      var state := Pause.Rebuilt(log);
      var recovery := RecoveryRequired(log);
      Ok(Core(log, attempts, Latest(log), Pause.Control(state, 0), state.Running? && !recovery, recovery, approvals))
  }

  // ---------- appending ----------

  /** The next event to append. */
  function Envelope(env: Env, s: Core, kind: Kind, payload: Json.Value): Event {
    Event(env.id(s.attempts), 1, env.mission, env.route, s.sequence + 1, env.time(s.attempts), kind, payload, None,
          env.hash(payload))
  }

  /** Recovery and the sequence move only once the ledger has the event. */
  function AppendEnvelope(env: Env, s: Core, e: Event): (Core, bool) {
    var tried := s.(attempts := s.attempts + 1);
    if !env.fate(s.attempts) then (tried, false)
    else (tried.(log := s.log + [e], requiresRecovery := RecoveryAfter(s.requiresRecovery, e), sequence := e.sequence),
          true)
  }

  function Append(env: Env, s: Core, kind: Kind, payload: Json.Value): (Core, bool) {
    AppendEnvelope(env, s, Envelope(env, s, kind, payload))
  }

  function Outcome(step: (Core, bool)): (Core, Result<(), Error>) {
    (step.0, if step.1 then Ok(()) else Err(LedgerRefused))
  }

  /** An approval event, and the approval inserted once it is in the log. */
  function AppendApproval(env: Env, s: Core, kind: Kind, a: Approval.Request): (Core, bool) {
    var (s', ok) := Append(env, s, kind, Json.Object(map["approval" := env.encode(a)]));
    if ok then (s'.(approvals := s'.approvals[a.id := a]), true) else (s', false)
  }

  // ---------- pausing ----------

  /** The pause moves first; the append may then fail. */
  function RequestSafePause(env: Env, s: Core, reason: string): (Core, Result<(), Error>) {
    var (control, r) := s.pause.Request(reason);
    if r.Err? then (s, Err(PauseError(r.error)))
    else Outcome(Append(env, s.(pause := control), PauseRequested, Json.Object(map["reason" := Json.String(reason)])))
  }

  function AcknowledgePause(env: Env, s: Core): (Core, Result<(), Error>) {
    var (control, r) := s.pause.Acknowledge();
    if r.Err? then (s, Err(PauseError(r.error)))
    else Outcome(Append(env, s.(pause := control), Unknown("pause_acknowledged"), Json.Null))
  }

  /** Also what a timeout does. */
  function IssueForceToken(env: Env, s: Core): (Core, Result<string, Error>) {
    var (control, r) := s.pause.ForceToken();
    if r.Err? then (s, Err(PauseError(r.error)))
    else if r.value.token.None? then (s.(pause := control), Err(PauseError(Pause.InvalidState)))
    else if r.value.from == r.value.to then (s.(pause := control), Ok(r.value.token.value))
    else
      var (s', ok) := Append(env, s.(pause := control), Unknown("pause_timed_out"), Json.Null);
      (s', if ok then Ok(r.value.token.value) else Err(LedgerRefused))
  }

  function RequestForceTermination(env: Env, s: Core): (Core, Result<string, Error>) {
    if s.pause.state.Running? then
      var (s', r) := RequestSafePause(env, s, "user requested force termination");
      if r.Err? then (s', Err(r.error)) else IssueForceToken(env, s')
    else IssueForceToken(env, s)
  }

  /** `killed`: whether the process tree could be terminated. */
  function ForceTerminate(env: Env, s: Core, token: string, killed: bool): (Core, Result<(), Error>) {
    if !s.pause.CanForceTerminate(token) then (s, Err(PauseError(Pause.InvalidConfirmationToken)))
    else if !killed then (Append(env, s, Unknown("termination_failed"), Json.Null).0, Err(TerminationFailed))
    else
      Outcome(Append(env, s.(pause := s.pause.ForceTerminate(token).0), Unknown("force_terminated"), Json.Null))
  }

  function SetUiConnected(env: Env, s: Core, connected: bool): (Core, Result<(), Error>) {
    var s' := s.(uiConnected := connected);
    if !connected && s'.pause.state.Running? then RequestSafePause(env, s', "ui disconnected") else (s', Ok(()))
  }

  // ---------- approvals ----------

  datatype Policy = Allow | RequireApproval(actionDigest: string) | Stop

  datatype Gate = Ready | WaitingForApproval(id: string) | Halted

  function GateAction(env: Env, s: Core, policy: Policy, intended: Approval.ActionClass,
                      request: Option<Approval.Request>)
    : (Core, Result<Gate, Error>)
  {
    match policy
    case Allow => (s, Ok(Ready))
    case RequireApproval(digest) =>
      if request.None? then (s, Err(MissingApprovalRequest))
      else
        var a := request.value;
        if a.subject.mission != env.mission || a.subject.route != env.route || a.subject.actionDigest != digest
           || a.subject.actionClass != intended then (s, Err(ApprovalBindingMismatch))
        else
          var (s', ok) := AppendApproval(env, s, ApprovalRequested, a);
          (s', if ok then Ok(WaitingForApproval(a.id)) else Err(LedgerRefused))
    case Stop =>
      var (s', r) := RequestSafePause(env, s, "policy denied action dispatch");
      (s', if r.Ok? then Ok(Halted) else Err(r.error))
  }

  datatype Caller = UserCaller | SupervisorCaller | AgentCaller | RendererCaller

  function ProtocolActor(c: Caller): Approval.Actor {
    match c
    case UserCaller => Approval.User
    case SupervisorCaller => Approval.Supervisor
    case AgentCaller => Approval.Agent
    case RendererCaller => Approval.Agent
  }

  datatype Decision = Approve | Deny | Revoke

  /** A command, with its mission and route ids parsed if they parse. */
  datatype Command = Command(
    id: string,
    decision: Decision,
    routeWide: bool,
    expectedRevision: nat,
    mission: Option<string>,
    route: Option<string>,
    actionDigest: string,
    contractVersion: nat,
    loadoutFingerprint: string,
    now: nat)

  /** The approval a command makes of the current one, and the kind of event that records it. */
  function Resolved(current: Approval.Request, actor: Approval.Actor, c: Command, subject: Approval.Subject)
    : Result<(Approval.Request, Kind), Error>
  {
    match c.decision
    case Revoke =>
      if c.expectedRevision != current.revision
      then Err(ApprovalError(Approval.RevisionConflict(c.expectedRevision, current.revision)))
      else
        var (next, r) := current.Revoke(actor);
        if r.Ok? then Ok((next, ApprovalRevoked)) else Err(ApprovalError(r.error))
    case _ =>
      var scope := if c.routeWide then Approval.RouteActionClass(current.subject.actionClass) else Approval.Once;
      var (scoped, set_) := if c.decision.Approve? then current.SetScope(scope) else (current, Ok(()));
      if set_.Err? then Err(ApprovalError(set_.error))
      else
        var decision := if c.decision.Approve? then Approval.Approve else Approval.Deny;
        var (next, r) := scoped.Resolve(Approval.Resolution(c.id, c.expectedRevision, actor, decision, subject, c.now));
        if r.Ok? then Ok((next, ApprovalResolved)) else Err(ApprovalError(r.error))
  }

  function SubjectOf(current: Approval.Request, c: Command): Option<Approval.Subject> {
    if c.mission.None? || c.route.None? then None
    else Some(Approval.Subject(c.mission.value, c.route.value, c.actionDigest, current.subject.actionClass,
                               c.contractVersion, c.loadoutFingerprint))
  }

  /** The actor works on a copy: what a failed call did to it is dropped. */
  function ResolveApproval(env: Env, s: Core, caller: Caller, c: Command): (Core, Result<Approval.State, Error>) {
    if c.id !in s.approvals then (s, Err(InvalidApprovalSubject))
    else
      var current := s.approvals[c.id];
      var subject := SubjectOf(current, c);
      if subject.None? then (s, Err(InvalidApprovalSubject))
      else match Resolved(current, ProtocolActor(caller), c, subject.value)
        case Err(error) => (s, Err(error))
        case Ok((next, kind)) =>
          var (s', ok) := Append(env, s, kind, Json.Object(map["approval" := env.encode(next)]));
          if ok then (s'.(approvals := s'.approvals[c.id := next]), Ok(next.state)) else (s', Err(LedgerRefused))
  }

  function AuthorizeApprovedAction(env: Env, s: Core, id: string, subject: Approval.Subject, now: nat)
    : (Core, Result<(), Error>)
  {
    if id !in s.approvals then (s, Err(InvalidApprovalSubject))
    else
      var (next, r) := s.approvals[id].Authorize(subject, now);
      if r.Err? then (s, Err(ApprovalError(r.error)))
      else if next.state == s.approvals[id].state then (s.(approvals := s.approvals[id := next]), Ok(()))
      else
        var (s', ok) := Append(env, s, ApprovalConsumed, Json.Object(map["approval" := env.encode(next)]));
        if ok then (s'.(approvals := s'.approvals[id := next]), Ok(())) else (s', Err(LedgerRefused))
  }

  /** Revoking the listed approvals one after another, stopping at the first failure. */
  function RevokeEach(env: Env, s: Core, ids: seq<string>): (Core, Result<(), Error>)
    decreases |ids|
  {
    if ids == [] then (s, Ok(()))
    else if ids[0] !in s.approvals then (s, Err(InvalidApprovalSubject))
    else
      var (next, r) := s.approvals[ids[0]].RevokeForLoadoutChange();
      if r.Err? then (s, Err(ApprovalError(r.error)))
      else
        var (s', ok) := Append(env, s, ApprovalRevoked, Json.Object(map["approval" := env.encode(next)]));
        if !ok then (s', Err(LedgerRefused))
        else RevokeEach(env, s'.(approvals := s'.approvals[ids[0] := next]), ids[1..])
  }

  /** The ids of the open approvals, in the order the keys are given. */
  function OpenIds(approvals: Approvals, keys: seq<string>): seq<string> {
    if keys == [] then []
    else
      var rest := OpenIds(approvals, keys[..|keys| - 1]);
      var key := keys[|keys| - 1];
      if key in approvals && approvals[key].Open() then rest + [approvals[key].id] else rest
  }

  function CheckLoadoutChange(env: Env, s: Core, previous: string, next: string): (Core, Result<bool, Error>) {
    if Text.Blank(previous) || Text.Blank(next) || previous == next then (s, Ok(false))
    else
      var (s1, revoked) := RevokeEach(env, s, OpenIds(s.approvals, env.order(s.attempts, s.approvals)));
      if revoked.Err? then (s1, Err(revoked.error))
      else
        var (s2, ok) := Append(env, s1, LoadoutChanged, Json.Null);
        if !ok then (s2, Err(LedgerRefused))
        else
          var (s3, r) := RequestSafePause(env, s2, "provider loadout changed");
          (s3, if r.Ok? then Ok(true) else Err(r.error))
  }

  // ---------- other events ----------

  function SignalKind(signal: Budget.Signal): Kind {
    match signal
    case Warning(_) => BudgetWarning
    case RequireApproval(_) => BudgetApprovalRequired
    case PauseAtSafeBoundary(_) => BudgetExceeded
  }

  function AppendSignals(env: Env, s: Core, signals: seq<Budget.Signal>): (Core, bool)
    decreases |signals|
  {
    if signals == [] then (s, true)
    else
      var (s', ok) := Append(env, s, SignalKind(signals[0]), Json.Null);
      if ok then AppendSignals(env, s', signals[1..]) else (s', false)
  }

  predicate AsksToPause(signals: seq<Budget.Signal>) {
    exists i :: 0 <= i < |signals| && signals[i].PauseAtSafeBoundary?
  }

  function ApplyBudgetSignals(env: Env, s: Core, signals: seq<Budget.Signal>): (Core, Result<bool, Error>) {
    var (s', ok) := AppendSignals(env, s, signals);
    if !ok then (s', Err(LedgerRefused))
    else if AsksToPause(signals) then
      var (s'', r) := RequestSafePause(env, s', "mission budget reached at safe boundary");
      (s'', if r.Ok? then Ok(true) else Err(r.error))
    else (s', Ok(false))
  }

  /** `changed`: what the flight envelope says of the current identity. */
  function CheckFlightIdentity(env: Env, s: Core, changed: bool): (Core, Result<bool, Error>) {
    if !changed then (s, Ok(false))
    else
      var (s', ok) := Append(env, s, FlightEnvelopeChanged, Json.Null);
      if !ok then (s', Err(LedgerRefused))
      else
        var (s'', r) := RequestSafePause(env, s', "flight envelope identity changed");
        (s'', if r.Ok? then Ok(true) else Err(r.error))
  }

  function RecordEvent(env: Env, s: Core, kind: Kind, payload: Json.Value): (Core, Result<(), Error>) {
    Outcome(Append(env, s, kind, payload))
  }

  function ResolveRecovery(env: Env, s: Core, decision: string, manifest: Json.Value): (Core, Result<(), Error>) {
    if !s.requiresRecovery then (s, Err(RecoveryNotRequired))
    else if decision == "continue" then Outcome(Append(env, s, RecoveryContinued, manifest))
    else if decision == "abandon" then Outcome(Append(env, s, RecoveryAbandoned, manifest))
    else (s, Err(RecoveryDecisionInvalid))
  }

  datatype AgentEvent = AgentEvent(id: string, kind: Kind, payload: Json.Value, rawEvidence: Option<Json.Value>)

  function OrElse<T>(value: Option<T>, default: T): T {
    if value.Some? then value.value else default
  }

  /** The approval an agent's request asks for, if it names one and is complete. */
  function ApprovalFromAgent(env: Env, payload: Json.Value): Option<Approval.Request> {
    if !payload.Object? then None
    else
      var named := Json.GetStr(payload, "approval_id");
      var fallback := Json.Get(payload, "server_request_id");
      if named.None? && fallback.None? then None
      else
        var subject := Approval.Subject(env.mission, env.route,
                                        OrElse(Json.GetStr(payload, "action_digest"), "protocol-request"),
                                        Approval.Write,
                                        OrElse(Json.GetU64(payload, "contract_version"), 1),
                                        OrElse(Json.GetStr(payload, "loadout_fingerprint"), "protocol"));
        var id := if named.Some? then named.value else env.show(fallback.value);
        match Approval.New(id, subject, Approval.Once, Approval.Supervisor, U64_MAX)
        case Ok(a) => Some(a)
        case Err(_) => None
  }

  /** The approval an agent event brings with it. */
  function Carried(env: Env, e: AgentEvent): Option<Approval.Request> {
    if e.kind.ApprovalRequested? then ApprovalFromAgent(env, e.payload) else None
  }

  function CarriedPayload(env: Env, e: AgentEvent): Json.Value {
    match Carried(env, e)
    case None => e.payload
    case Some(a) =>
      if !e.payload.Object? then e.payload
      else Json.Object(e.payload.fields["approval_id" := Json.String(a.id)]
                                       ["expected_revision" := Json.Number(a.revision)]
                                       ["approval" := env.encode(a)])
  }

  /** The agent's event as the next of the mission, with the approval it brings in its payload. */
  function AgentEnvelope(env: Env, s: Core, e: AgentEvent): Event {
    Envelope(env, s, e.kind, CarriedPayload(env, e)).(id := e.id, rawEvidence := e.rawEvidence)
  }

  function RecordAgentEvent(env: Env, s: Core, e: AgentEvent): (Core, Result<(), Error>) {
    var (s', ok) := AppendEnvelope(env, s, AgentEnvelope(env, s, e));
    if !ok then (s', Err(LedgerRefused))
    else match Carried(env, e)
      case Some(a) => (s'.(approvals := s'.approvals[a.id := a]), Ok(()))
      case None => (s', Ok(()))
  }

  // ---------- memory agrees with the log ----------

  /** The sequence, the recovery flag and the approvals are those a restart would rebuild. */
  ghost predicate Agrees(env: Env, s: Core) {
    && s.sequence == Latest(s.log)
    && s.requiresRecovery == RecoveryRequired(s.log)
    && ReplayApprovals(env, s.log) == Ok(s.approvals)
  }

  /** The rebuilt pause state tells the same as the live one; a rebuilt state does not keep the token. */
  predicate Mirrors(live: Pause.State, rebuilt: Pause.State) {
    match rebuilt
    case Running => live == Pause.Running
    case Requested(reason) => live == Pause.Requested(reason)
    case Acknowledged => live.Paused? || live.Acknowledged?
    case Paused(reason) => live == Pause.Paused(reason)
    case TimedOut => live.ForceTerminationAvailable? || live.TimedOut?
    case ForceTerminationAvailable(token) => live == Pause.ForceTerminationAvailable(token)
    case Terminated => live == Pause.Terminated
  }

  /** The ledger took every append from one attempt to another. */
  ghost predicate AllTaken(env: Env, start: nat, end: nat) {
    forall i :: start <= i < end ==> env.fate(i)
  }

  /** The live pause stage is never behind the rebuilt one, and they match while no append has been refused. */
  ghost predicate PauseTracks(env: Env, start: nat, s: Core) {
    && start <= s.attempts
    && Pause.Stage(Pause.Rebuilt(s.log)) <= Pause.Stage(s.pause.state)
    && (AllTaken(env, start, s.attempts) ==> Mirrors(s.pause.state, Pause.Rebuilt(s.log)))
  }

  ghost predicate Consistent(env: Env, start: nat, s: Core) {
    Agrees(env, s) && PauseTracks(env, start, s)
  }

  /** Agreement is what it says: a restart gives the same sequence, recovery flag and approvals. */
  lemma AgreesIsRestart(env: Env, s: Core)
    ensures Agrees(env, s) <==>
            && TryNew(env, s.log, s.attempts).Ok?
            && var t := TryNew(env, s.log, s.attempts).value;
            && t.sequence == s.sequence && t.requiresRecovery == s.requiresRecovery && t.approvals == s.approvals
  {
  }

  lemma RestartConsistent(env: Env, log: seq<Event>, attempts: nat)
    requires TryNew(env, log, attempts).Ok?
    ensures Consistent(env, attempts, TryNew(env, log, attempts).value)
    ensures Pause.OneToken(TryNew(env, log, attempts).value.pause)
  {
    Pause.RebuiltIsInitial(log);
  }

  lemma LogSnoc(env: Env, log: seq<Event>, e: Event)
    ensures Latest(log + [e]) == Max(Latest(log), e.sequence)
    ensures RecoveryRequired(log + [e]) == RecoveryAfter(RecoveryRequired(log), e)
    ensures ReplayApprovals(env, log).Ok? ==>
              ReplayApprovals(env, log + [e]) == ApprovalsAfter(env, ReplayApprovals(env, log).value, e)
    ensures Pause.Rebuilt(log + [e]) == Pause.After(Pause.Rebuilt(log), e)
  {
    assert (log + [e])[..|log|] == log;
  }

  /** The kinds the pause controller is rebuilt from. */
  predicate IsPause(k: Kind) {
    || k.PauseRequested?
    || (k.Unknown? && k.name in ["pause_requested", "pause_acknowledged", "pause_timed_out", "force_terminated"])
  }

  /** A refused append leaves everything but the count of attempts. */
  lemma Refused(env: Env, start: nat, s: Core, e: Event)
    requires Consistent(env, start, s) && !env.fate(s.attempts)
    ensures Consistent(env, start, AppendEnvelope(env, s, e).0)
  {
    var s' := AppendEnvelope(env, s, e).0;
    assert !AllTaken(env, start, s'.attempts);
  }

  /** An accepted event: sequence and recovery agree, whatever the kind; the rest is up to the event. */
  lemma Accepted(env: Env, s: Core, e: Event)
    requires Agrees(env, s) && env.fate(s.attempts) && e.sequence == s.sequence + 1
    ensures var s' := AppendEnvelope(env, s, e).0;
            && s'.sequence == Latest(s'.log) && s'.requiresRecovery == RecoveryRequired(s'.log)
            && ReplayApprovals(env, s'.log) == ApprovalsAfter(env, s.approvals, e)
            && Pause.Rebuilt(s'.log) == Pause.After(Pause.Rebuilt(s.log), e)
  {
    LogSnoc(env, s.log, e);
  }

  lemma PlainAppend(env: Env, start: nat, s: Core, e: Event)
    requires Consistent(env, start, s) && e.sequence == s.sequence + 1 && !IsApproval(e.kind) && !IsPause(e.kind)
    ensures Consistent(env, start, AppendEnvelope(env, s, e).0)
  {
    if env.fate(s.attempts) {
      Accepted(env, s, e);
      assert AllTaken(env, start, s.attempts + 1) ==> AllTaken(env, start, s.attempts);
    } else {
      Refused(env, start, s, e);
    }
  }

  /** An approval's event and its insertion together keep agreement. */
  lemma ApprovalAppend(env: Env, start: nat, s: Core, e: Event, a: Approval.Request)
    requires Consistent(env, start, s) && e.sequence == s.sequence + 1 && IsApproval(e.kind)
             && ApprovalIn(env, e) == Ok(a)
    ensures var (s', ok) := AppendEnvelope(env, s, e);
            Consistent(env, start, if ok then s'.(approvals := s'.approvals[a.id := a]) else s')
  {
    if env.fate(s.attempts) {
      Accepted(env, s, e);
      assert AllTaken(env, start, s.attempts + 1) ==> AllTaken(env, start, s.attempts);
    } else {
      Refused(env, start, s, e);
    }
  }

  /** The event tells of the pause's move forward, and of no approval. */
  predicate Tells(e: Event, before: Pause.State, after: Pause.State, rebuilt: Pause.State) {
    && !IsApproval(e.kind) && Pause.Stage(before) <= Pause.Stage(after)
    && Pause.Stage(Pause.After(rebuilt, e)) == Pause.Stage(after)
    && Mirrors(after, Pause.After(rebuilt, e))
  }

  /** A pause move and the event that records it. */
  lemma PauseAppend(env: Env, start: nat, s: Core, control: Pause.Control, e: Event)
    requires Consistent(env, start, s) && e.sequence == s.sequence + 1
    requires Tells(e, s.pause.state, control.state, Pause.Rebuilt(s.log))
    ensures Consistent(env, start, AppendEnvelope(env, s.(pause := control), e).0)
  {
    var moved := s.(pause := control);
    var s' := AppendEnvelope(env, moved, e).0;
    if env.fate(s.attempts) {
      Accepted(env, moved, e);
    } else {
      assert !AllTaken(env, start, s'.attempts);
    }
  }

  // ---------- each operation ----------

  lemma RequestTells(pause: Pause.Control, reason: string, e: Event, rebuilt: Pause.State)
    requires pause.Request(reason).1.Ok? && e.kind == PauseRequested && Pause.Reason(e) == reason
    ensures Tells(e, pause.state, pause.Request(reason).0.state, rebuilt)
  {
  }

  lemma AcknowledgementTells(pause: Pause.Control, e: Event, rebuilt: Pause.State)
    requires pause.Acknowledge().1.Ok? && e.kind == Unknown("pause_acknowledged")
    ensures Tells(e, pause.state, pause.Acknowledge().0.state, rebuilt)
  {
  }

  lemma TokenTells(pause: Pause.Control, e: Event, rebuilt: Pause.State)
    requires pause.ForceToken().1.Ok? && e.kind == Unknown("pause_timed_out")
    ensures Tells(e, pause.state, pause.ForceToken().0.state, rebuilt)
  {
  }

  lemma TerminationTells(pause: Pause.Control, token: string, e: Event, rebuilt: Pause.State)
    requires pause.CanForceTerminate(token) && e.kind == Unknown("force_terminated")
    ensures Tells(e, pause.state, pause.ForceTerminate(token).0.state, rebuilt)
  {
  }

  lemma SafePauseKeeps(env: Env, start: nat, s: Core, reason: string)
    requires Consistent(env, start, s)
    ensures Consistent(env, start, RequestSafePause(env, s, reason).0)
  {
    var (control, r) := s.pause.Request(reason);
    if r.Ok? {
      var e := Envelope(env, s, PauseRequested, Json.Object(map["reason" := Json.String(reason)]));
      assert RequestSafePause(env, s, reason).0 == AppendEnvelope(env, s.(pause := control), e).0;
      RequestTells(s.pause, reason, e, Pause.Rebuilt(s.log));
      PauseAppend(env, start, s, control, e);
    }
  }

  lemma AcknowledgeKeeps(env: Env, start: nat, s: Core)
    requires Consistent(env, start, s)
    ensures Consistent(env, start, AcknowledgePause(env, s).0)
  {
    var (control, r) := s.pause.Acknowledge();
    if r.Ok? {
      var e := Envelope(env, s, Unknown("pause_acknowledged"), Json.Null);
      assert AcknowledgePause(env, s).0 == AppendEnvelope(env, s.(pause := control), e).0;
      AcknowledgementTells(s.pause, e, Pause.Rebuilt(s.log));
      PauseAppend(env, start, s, control, e);
    }
  }

  lemma ForceTokenKeeps(env: Env, start: nat, s: Core)
    requires Consistent(env, start, s)
    ensures Consistent(env, start, IssueForceToken(env, s).0)
  {
    var (control, r) := s.pause.ForceToken();
    if r.Ok? && r.value.from != r.value.to {
      var e := Envelope(env, s, Unknown("pause_timed_out"), Json.Null);
      assert IssueForceToken(env, s).0 == AppendEnvelope(env, s.(pause := control), e).0;
      TokenTells(s.pause, e, Pause.Rebuilt(s.log));
      PauseAppend(env, start, s, control, e);
    }
  }

  lemma RequestForceKeeps(env: Env, start: nat, s: Core)
    requires Consistent(env, start, s)
    ensures Consistent(env, start, RequestForceTermination(env, s).0)
  {
    var reason := "user requested force termination";
    SafePauseKeeps(env, start, s, reason);
    ForceTokenKeeps(env, start, if s.pause.state.Running? then RequestSafePause(env, s, reason).0 else s);
  }

  lemma TerminationKeeps(env: Env, start: nat, s: Core, token: string)
    requires Consistent(env, start, s) && s.pause.CanForceTerminate(token)
    ensures Consistent(env, start, ForceTerminate(env, s, token, true).0)
  {
    var control, e := s.pause.ForceTerminate(token).0, Envelope(env, s, Unknown("force_terminated"), Json.Null);
    assert ForceTerminate(env, s, token, true).0 == AppendEnvelope(env, s.(pause := control), e).0;
    TerminationTells(s.pause, token, e, Pause.Rebuilt(s.log));
    PauseAppend(env, start, s, control, e);
  }

  lemma FailedTerminationKeeps(env: Env, start: nat, s: Core, token: string)
    requires Consistent(env, start, s)
    ensures Consistent(env, start, ForceTerminate(env, s, token, false).0)
  {
    PlainAppend(env, start, s, Envelope(env, s, Unknown("termination_failed"), Json.Null));
  }

  lemma ForceTerminateKeeps(env: Env, start: nat, s: Core, token: string, killed: bool)
    requires Consistent(env, start, s)
    ensures Consistent(env, start, ForceTerminate(env, s, token, killed).0)
  {
    if !killed {
      FailedTerminationKeeps(env, start, s, token);
    } else if s.pause.CanForceTerminate(token) {
      TerminationKeeps(env, start, s, token);
    }
  }

  lemma UiKeeps(env: Env, start: nat, s: Core, connected: bool)
    requires Consistent(env, start, s)
    ensures Consistent(env, start, SetUiConnected(env, s, connected).0)
  {
    SafePauseKeeps(env, start, s.(uiConnected := connected), "ui disconnected");
  }

  /** Every approval is filed under its own id. */
  ghost predicate Keyed(approvals: Approvals) {
    forall id :: id in approvals ==> approvals[id].id == id
  }

  lemma {:induction false} ReplayKeyed(env: Env, log: seq<Event>)
    requires ReplayApprovals(env, log).Ok?
    ensures Keyed(ReplayApprovals(env, log).value)
  {
    if log != [] {
      ReplayKeyed(env, log[..|log| - 1]);
    }
  }

  /** The event that records an approval reads back as that approval. */
  lemma RecordsApproval(env: Env, s: Core, kind: Kind, a: Approval.Request)
    requires env.Faithful()
    ensures ApprovalIn(env, Envelope(env, s, kind, Json.Object(map["approval" := env.encode(a)]))) == Ok(a)
  {
  }

  lemma GateKeeps(env: Env, start: nat, s: Core, policy: Policy, intended: Approval.ActionClass,
                  request: Option<Approval.Request>)
    requires env.Faithful() && Consistent(env, start, s)
    ensures Consistent(env, start, GateAction(env, s, policy, intended, request).0)
  {
    match policy {
      case Allow =>
      case RequireApproval(_) =>
        if request.Some? {
          var a := request.value;
          RecordsApproval(env, s, ApprovalRequested, a);
          ApprovalAppend(env, start, s,
                         Envelope(env, s, ApprovalRequested, Json.Object(map["approval" := env.encode(a)])), a);
        }
      case Stop =>
        SafePauseKeeps(env, start, s, "policy denied action dispatch");
    }
  }

  lemma ResolvedKeepsId(current: Approval.Request, actor: Approval.Actor, c: Command, subject: Approval.Subject)
    requires Resolved(current, actor, c, subject).Ok?
    ensures Resolved(current, actor, c, subject).value.0.id == current.id
    ensures IsApproval(Resolved(current, actor, c, subject).value.1)
  {
  }

  lemma ResolveKeeps(env: Env, start: nat, s: Core, caller: Caller, c: Command)
    requires env.Faithful() && Consistent(env, start, s)
    ensures Consistent(env, start, ResolveApproval(env, s, caller, c).0)
  {
    ReplayKeyed(env, s.log);
    if c.id in s.approvals && SubjectOf(s.approvals[c.id], c).Some? {
      var current := s.approvals[c.id];
      var subject := SubjectOf(current, c).value;
      if Resolved(current, ProtocolActor(caller), c, subject).Ok? {
        ResolvedKeepsId(current, ProtocolActor(caller), c, subject);
        var (next, kind) := Resolved(current, ProtocolActor(caller), c, subject).value;
        RecordsApproval(env, s, kind, next);
        ApprovalAppend(env, start, s, Envelope(env, s, kind, Json.Object(map["approval" := env.encode(next)])), next);
      }
    }
  }

  lemma AuthorizeKeeps(env: Env, start: nat, s: Core, id: string, subject: Approval.Subject, now: nat)
    requires env.Faithful() && Consistent(env, start, s)
    ensures Consistent(env, start, AuthorizeApprovedAction(env, s, id, subject, now).0)
  {
    ReplayKeyed(env, s.log);
    if id in s.approvals {
      var (next, r) := s.approvals[id].Authorize(subject, now);
      if r.Ok? {
        if next.state == s.approvals[id].state {
          assert s.approvals[id := next] == s.approvals;
        } else {
          RecordsApproval(env, s, ApprovalConsumed, next);
          ApprovalAppend(env, start, s,
                         Envelope(env, s, ApprovalConsumed, Json.Object(map["approval" := env.encode(next)])), next);
        }
      }
    }
  }

  /** The state after revoking one approval. */
  function RevokedOne(env: Env, s: Core, id: string): (Core, bool)
    requires id in s.approvals
  {
    var next := s.approvals[id].RevokeForLoadoutChange().0;
    var (s', ok) := Append(env, s, ApprovalRevoked, Json.Object(map["approval" := env.encode(next)]));
    if ok then (s'.(approvals := s'.approvals[id := next]), true) else (s', false)
  }

  lemma RevokedOneKeeps(env: Env, start: nat, s: Core, id: string)
    requires env.Faithful() && Consistent(env, start, s) && id in s.approvals
    ensures Consistent(env, start, RevokedOne(env, s, id).0)
  {
    ReplayKeyed(env, s.log);
    var next := s.approvals[id].RevokeForLoadoutChange().0;
    RecordsApproval(env, s, ApprovalRevoked, next);
    ApprovalAppend(env, start, s, Envelope(env, s, ApprovalRevoked, Json.Object(map["approval" := env.encode(next)])),
                   next);
  }

  lemma {:induction false} RevokeEachKeeps(env: Env, start: nat, s: Core, ids: seq<string>)
    requires env.Faithful() && Consistent(env, start, s)
    ensures Consistent(env, start, RevokeEach(env, s, ids).0)
    decreases |ids|
  {
    if ids != [] && ids[0] in s.approvals && s.approvals[ids[0]].Open() {
      RevokedOneKeeps(env, start, s, ids[0]);
      if RevokedOne(env, s, ids[0]).1 {
        RevokeEachKeeps(env, start, RevokedOne(env, s, ids[0]).0, ids[1..]);
      }
    }
  }

  lemma LoadoutChangedKeeps(env: Env, start: nat, s: Core)
    requires Consistent(env, start, s)
    ensures Consistent(env, start, Append(env, s, LoadoutChanged, Json.Null).0)
  {
    PlainAppend(env, start, s, Envelope(env, s, LoadoutChanged, Json.Null));
  }

  lemma LoadoutKeeps(env: Env, start: nat, s: Core, previous: string, next: string)
    requires env.Faithful() && Consistent(env, start, s)
    ensures Consistent(env, start, CheckLoadoutChange(env, s, previous, next).0)
  {
    var ids := OpenIds(s.approvals, env.order(s.attempts, s.approvals));
    RevokeEachKeeps(env, start, s, ids);
    var s1 := RevokeEach(env, s, ids).0;
    LoadoutChangedKeeps(env, start, s1);
    SafePauseKeeps(env, start, Append(env, s1, LoadoutChanged, Json.Null).0, "provider loadout changed");
  }

  lemma {:induction false} AppendSignalsKeeps(env: Env, start: nat, s: Core, signals: seq<Budget.Signal>)
    requires Consistent(env, start, s)
    ensures Consistent(env, start, AppendSignals(env, s, signals).0)
    decreases |signals|
  {
    if signals != [] {
      PlainAppend(env, start, s, Envelope(env, s, SignalKind(signals[0]), Json.Null));
      var (s', ok) := Append(env, s, SignalKind(signals[0]), Json.Null);
      if ok {
        AppendSignalsKeeps(env, start, s', signals[1..]);
      }
    }
  }

  lemma SignalsKeep(env: Env, start: nat, s: Core, signals: seq<Budget.Signal>)
    requires Consistent(env, start, s)
    ensures Consistent(env, start, ApplyBudgetSignals(env, s, signals).0)
  {
    AppendSignalsKeeps(env, start, s, signals);
    SafePauseKeeps(env, start, AppendSignals(env, s, signals).0, "mission budget reached at safe boundary");
  }

  lemma FlightKeeps(env: Env, start: nat, s: Core, changed: bool)
    requires Consistent(env, start, s)
    ensures Consistent(env, start, CheckFlightIdentity(env, s, changed).0)
  {
    PlainAppend(env, start, s, Envelope(env, s, FlightEnvelopeChanged, Json.Null));
    SafePauseKeeps(env, start, Append(env, s, FlightEnvelopeChanged, Json.Null).0, "flight envelope identity changed");
  }

  lemma RecoveryKeeps(env: Env, start: nat, s: Core, decision: string, manifest: Json.Value)
    requires Consistent(env, start, s)
    ensures Consistent(env, start, ResolveRecovery(env, s, decision, manifest).0)
  {
    PlainAppend(env, start, s, Envelope(env, s, RecoveryContinued, manifest));
    PlainAppend(env, start, s, Envelope(env, s, RecoveryAbandoned, manifest));
  }

  // ---------- every run ----------

  datatype Op =
    | Gating(policy: Policy, intended: Approval.ActionClass, request: Option<Approval.Request>)
    | Resolving(caller: Caller, command: Command)
    | Authorizing(id: string, subject: Approval.Subject, now: nat)
    | Signalling(signals: seq<Budget.Signal>)
    | CheckingFlight(changed: bool)
    | CheckingLoadout(previous: string, next: string)
    | RecordingAgent(event: AgentEvent)
    | Recording(kind: Kind, payload: Json.Value)
    | Recovering(decision: string, manifest: Json.Value)
    | Pausing(reason: string)
    | Acknowledging
    | TimingOut
    | Forcing
    | Terminating(token: string, killed: bool)
    | Connecting(connected: bool)

  function Do(env: Env, s: Core, op: Op): Core {
    match op
    case Gating(policy, intended, request) => GateAction(env, s, policy, intended, request).0
    case Resolving(caller, command) => ResolveApproval(env, s, caller, command).0
    case Authorizing(id, subject, now) => AuthorizeApprovedAction(env, s, id, subject, now).0
    case Signalling(signals) => ApplyBudgetSignals(env, s, signals).0
    case CheckingFlight(changed) => CheckFlightIdentity(env, s, changed).0
    case CheckingLoadout(previous, next) => CheckLoadoutChange(env, s, previous, next).0
    case RecordingAgent(event) => RecordAgentEvent(env, s, event).0
    case Recording(kind, payload) => RecordEvent(env, s, kind, payload).0
    case Recovering(decision, manifest) => ResolveRecovery(env, s, decision, manifest).0
    case Pausing(reason) => RequestSafePause(env, s, reason).0
    case Acknowledging => AcknowledgePause(env, s).0
    case TimingOut => IssueForceToken(env, s).0
    case Forcing => RequestForceTermination(env, s).0
    case Terminating(token, killed) => ForceTerminate(env, s, token, killed).0
    case Connecting(connected) => SetUiConnected(env, s, connected).0
  }

  function Run(env: Env, s: Core, ops: seq<Op>): Core {
    if ops == [] then s else Do(env, Run(env, s, ops[..|ops| - 1]), ops[|ops| - 1])
  }

  // ---------- recorded events: exactly when they keep agreement ----------

  /** An event reads back as an approval that is already held, unchanged. */
  predicate RepeatsHeld(env: Env, s: Core, payload: Json.Value) {
    var v := Json.Get(payload, "approval");
    v.Some? && env.decode(v.value).Some? &&
    var a := env.decode(v.value).value;
    a.id in s.approvals && s.approvals[a.id] == a
  }

  /** An accepted event that changes nothing in memory agrees exactly if it is no approval event or repeats one. */
  lemma AcceptedAgreesIff(env: Env, s: Core, e: Event)
    requires Agrees(env, s) && env.fate(s.attempts) && e.sequence == s.sequence + 1
    ensures Agrees(env, AppendEnvelope(env, s, e).0) <==> !IsApproval(e.kind) || RepeatsHeld(env, s, e.payload)
  {
    Accepted(env, s, e);
    if IsApproval(e.kind) && ApprovalIn(env, e).Ok? {
      var a := ApprovalIn(env, e).value;
      assert s.approvals[a.id := a][a.id] == a;
      if RepeatsHeld(env, s, e.payload) {
        assert s.approvals[a.id := a] == s.approvals;
      }
    }
  }

  /** Recording keeps agreement exactly when the event is refused, is no approval event, or repeats one held. */
  lemma RecordEventAgreesIff(env: Env, s: Core, kind: Kind, payload: Json.Value)
    requires Agrees(env, s)
    ensures Agrees(env, RecordEvent(env, s, kind, payload).0) <==>
            !env.fate(s.attempts) || !IsApproval(kind) || RepeatsHeld(env, s, payload)
  {
    if env.fate(s.attempts) {
      AcceptedAgreesIff(env, s, Envelope(env, s, kind, payload));
    }
  }

  /** The same for an agent's event, which may also bring an approval of its own. */
  lemma RecordAgentAgreesIff(env: Env, s: Core, e: AgentEvent)
    requires env.Faithful() && Agrees(env, s)
    ensures Agrees(env, RecordAgentEvent(env, s, e).0) <==>
            !env.fate(s.attempts) || !IsApproval(e.kind) || Carried(env, e).Some? || RepeatsHeld(env, s, e.payload)
  {
    var envelope := AgentEnvelope(env, s, e);
    if env.fate(s.attempts) {
      if Carried(env, e).Some? {
        Accepted(env, s, envelope);
      } else {
        AcceptedAgreesIff(env, s, envelope);
      }
    }
  }

  /** An agent's request without any usable approval, once accepted, makes the next restart fail. */
  lemma UnusableRequestFailsRestart(env: Env, s: Core, id: string)
    requires Agrees(env, s) && env.fate(s.attempts)
    ensures var s' := RecordAgentEvent(env, s, AgentEvent(id, ApprovalRequested, Json.Null, None)).0;
            TryNew(env, s'.log, s'.attempts) == Err(MissingApproval(s'.sequence))
  {
    Accepted(env, s, AgentEnvelope(env, s, AgentEvent(id, ApprovalRequested, Json.Null, None)));
  }

  /** The pause state an event of this kind is rebuilt as, if it is one of the pause kinds. */
  function RebuildsTo(kind: Kind, payload: Json.Value): Option<Pause.State> {
    if !IsPause(kind) then None
    else if kind == Unknown("pause_acknowledged") then Some(Pause.Acknowledged)
    else if kind == Unknown("pause_timed_out") then Some(Pause.TimedOut)
    else if kind == Unknown("force_terminated") then Some(Pause.Terminated)
    else match Json.GetStr(payload, "reason")
      case Some(reason) => Some(Pause.Requested(reason))
      case None => Some(Pause.Requested("pause requested"))
  }

  lemma RebuildsToMeaning(state: Pause.State, e: Event)
    ensures Pause.After(state, e) == match RebuildsTo(e.kind, e.payload) case Some(to) => to case None => state
  {
  }

  /**
   * The event is of no pause kind, or of one that is rebuilt at or below the live stage and, while no append has
   * been refused, as the live state.
   */
  ghost predicate PauseFits(env: Env, start: nat, s: Core, kind: Kind, payload: Json.Value) {
    match RebuildsTo(kind, payload)
    case None => true
    case Some(to) =>
      && Pause.Stage(to) <= Pause.Stage(s.pause.state)
      && (AllTaken(env, start, s.attempts) ==> Mirrors(s.pause.state, to))
  }

  lemma AcceptedTracksIff(env: Env, start: nat, s: Core, e: Event)
    requires PauseTracks(env, start, s) && env.fate(s.attempts)
    ensures PauseTracks(env, start, AppendEnvelope(env, s, e).0) <==> PauseFits(env, start, s, e.kind, e.payload)
  {
    LogSnoc(env, s.log, e);
    RebuildsToMeaning(Pause.Rebuilt(s.log), e);
    assert AllTaken(env, start, s.attempts + 1) <==> AllTaken(env, start, s.attempts);
  }

  lemma RefusedTracks(env: Env, start: nat, s: Core, e: Event)
    requires PauseTracks(env, start, s) && !env.fate(s.attempts)
    ensures PauseTracks(env, start, AppendEnvelope(env, s, e).0)
  {
    assert !AllTaken(env, start, s.attempts + 1);
  }

  /** Recording keeps the live pause at or ahead of the rebuilt one exactly when the event is refused or fits. */
  lemma RecordEventTracksIff(env: Env, start: nat, s: Core, kind: Kind, payload: Json.Value)
    requires PauseTracks(env, start, s)
    ensures PauseTracks(env, start, RecordEvent(env, s, kind, payload).0) <==>
            !env.fate(s.attempts) || PauseFits(env, start, s, kind, payload)
  {
    var e := Envelope(env, s, kind, payload);
    if env.fate(s.attempts) {
      AcceptedTracksIff(env, start, s, e);
    } else {
      RefusedTracks(env, start, s, e);
    }
  }

  /** The same for an agent's event. */
  lemma RecordAgentTracksIff(env: Env, start: nat, s: Core, e: AgentEvent)
    requires PauseTracks(env, start, s)
    ensures PauseTracks(env, start, RecordAgentEvent(env, s, e).0) <==>
            !env.fate(s.attempts) || PauseFits(env, start, s, e.kind, e.payload)
  {
    var envelope := AgentEnvelope(env, s, e);
    if env.fate(s.attempts) {
      AcceptedTracksIff(env, start, s, envelope);
      assert e.kind.ApprovalRequested? || envelope.payload == e.payload;
      assert PauseTracks(env, start, RecordAgentEvent(env, s, e).0) ==
               PauseTracks(env, start, AppendEnvelope(env, s, envelope).0);
    } else {
      RefusedTracks(env, start, s, envelope);
    }
  }

  /** A recorded termination that never happened: a restart would find the mission terminated while it is not. */
  lemma ForgedTerminationIsAhead(env: Env, s: Core)
    requires Agrees(env, s) && env.fate(s.attempts) && !s.pause.state.Terminated?
    ensures var s' := RecordEvent(env, s, Unknown("force_terminated"), Json.Null).0;
            Agrees(env, s') && Pause.Stage(s'.pause.state) < Pause.Stage(Pause.Rebuilt(s'.log))
  {
    var e := Envelope(env, s, Unknown("force_terminated"), Json.Null);
    RecordEventAgreesIff(env, s, e.kind, e.payload);
    LogSnoc(env, s.log, e);
  }

  /** Every operation but a recording; and a recording that is refused, or fits both the approvals and the pause. */
  ghost predicate Harmless(env: Env, start: nat, s: Core, op: Op) {
    match op
    case Recording(kind, payload) =>
      || !env.fate(s.attempts)
      || ((!IsApproval(kind) || RepeatsHeld(env, s, payload)) && PauseFits(env, start, s, kind, payload))
    case RecordingAgent(event) =>
      || !env.fate(s.attempts)
      || ((!IsApproval(event.kind) || Carried(env, event).Some? || RepeatsHeld(env, s, event.payload))
          && PauseFits(env, start, s, event.kind, event.payload))
    case _ => true
  }

  /** The operations on the pause. */
  predicate IsPausing(op: Op) {
    op.Pausing? || op.Acknowledging? || op.TimingOut? || op.Forcing? || op.Terminating?
  }

  /** The operations on approvals keep memory and log consistent, whatever the ledger refuses. */
  lemma ApprovalOpsKeep(env: Env, start: nat, s: Core, op: Op)
    requires env.Faithful() && Consistent(env, start, s)
    requires op.Gating? || op.Resolving? || op.Authorizing? || op.CheckingLoadout?
    ensures Consistent(env, start, Do(env, s, op))
  {
    match op {
      case Gating(policy, intended, request) => GateKeeps(env, start, s, policy, intended, request);
      case Resolving(caller, command) => ResolveKeeps(env, start, s, caller, command);
      case Authorizing(id, subject, now) => AuthorizeKeeps(env, start, s, id, subject, now);
      case CheckingLoadout(previous, next) => LoadoutKeeps(env, start, s, previous, next);
    }
  }

  /** So do the operations that only check and log. */
  lemma CheckingOpsKeep(env: Env, start: nat, s: Core, op: Op)
    requires Consistent(env, start, s) && (op.Signalling? || op.CheckingFlight? || op.Recovering? || op.Connecting?)
    ensures Consistent(env, start, Do(env, s, op))
  {
    match op {
      case Signalling(signals) => SignalsKeep(env, start, s, signals);
      case CheckingFlight(changed) => FlightKeeps(env, start, s, changed);
      case Recovering(decision, manifest) => RecoveryKeeps(env, start, s, decision, manifest);
      case Connecting(connected) => UiKeeps(env, start, s, connected);
    }
  }

  /** And the operations on the pause. */
  lemma PausingOpsKeep(env: Env, start: nat, s: Core, op: Op)
    requires Consistent(env, start, s) && IsPausing(op)
    ensures Consistent(env, start, Do(env, s, op))
  {
    match op {
      case Pausing(reason) => SafePauseKeeps(env, start, s, reason);
      case Acknowledging => AcknowledgeKeeps(env, start, s);
      case TimingOut => ForceTokenKeeps(env, start, s);
      case Forcing => RequestForceKeeps(env, start, s);
      case Terminating(token, killed) => ForceTerminateKeeps(env, start, s, token, killed);
    }
  }

  /** Every operation but a recording keeps memory and log consistent, its appends accepted or refused. */
  lemma OwnOpsKeep(env: Env, start: nat, s: Core, op: Op)
    requires env.Faithful() && Consistent(env, start, s) && !op.Recording? && !op.RecordingAgent?
    ensures Consistent(env, start, Do(env, s, op))
  {
    if op.Gating? || op.Resolving? || op.Authorizing? || op.CheckingLoadout? {
      ApprovalOpsKeep(env, start, s, op);
    } else if op.Signalling? || op.CheckingFlight? || op.Recovering? || op.Connecting? {
      CheckingOpsKeep(env, start, s, op);
    } else {
      PausingOpsKeep(env, start, s, op);
    }
  }

  /** An operation keeps memory and log consistent, its appends accepted or refused, exactly if it is harmless. */
  lemma DoConsistentIff(env: Env, start: nat, s: Core, op: Op)
    requires env.Faithful() && Consistent(env, start, s)
    ensures Consistent(env, start, Do(env, s, op)) <==> Harmless(env, start, s, op)
  {
    if op.RecordingAgent? {
      RecordAgentAgreesIff(env, s, op.event);
      RecordAgentTracksIff(env, start, s, op.event);
    } else if op.Recording? {
      RecordEventAgreesIff(env, s, op.kind, op.payload);
      RecordEventTracksIff(env, start, s, op.kind, op.payload);
    } else {
      OwnOpsKeep(env, start, s, op);
    }
  }

  /** Every operation of the run is harmless where it is done. */
  ghost predicate AllHarmless(env: Env, start: nat, s: Core, ops: seq<Op>) {
    forall i :: 0 <= i < |ops| ==> Harmless(env, start, Run(env, s, ops[..i]), ops[i])
  }

  lemma AllHarmlessFront(env: Env, start: nat, s: Core, ops: seq<Op>)
    requires ops != [] && AllHarmless(env, start, s, ops)
    ensures AllHarmless(env, start, s, ops[..|ops| - 1])
    ensures Harmless(env, start, Run(env, s, ops[..|ops| - 1]), ops[|ops| - 1])
  {
    var front := ops[..|ops| - 1];
    forall i | 0 <= i < |front| ensures Harmless(env, start, Run(env, s, front[..i]), front[i]) {
      assert front[..i] == ops[..i];
    }
  }

  /**
   * From a restart on, over every run and with any appends refused: the sequence, the recovery flag and the
   * approvals are what another restart would rebuild, the live pause stage is never behind the rebuilt one, and
   * the pause states match if no append was refused. Only a recording that is not harmless can end this.
   */
  lemma {:induction false} RunConsistent(env: Env, log: seq<Event>, attempts: nat, ops: seq<Op>)
    requires env.Faithful() && TryNew(env, log, attempts).Ok?
    requires AllHarmless(env, attempts, TryNew(env, log, attempts).value, ops)
    ensures Consistent(env, attempts, Run(env, TryNew(env, log, attempts).value, ops))
  {
    var s := TryNew(env, log, attempts).value;
    if ops == [] {
      RestartConsistent(env, log, attempts);
    } else {
      AllHarmlessFront(env, attempts, s, ops);
      RunConsistent(env, log, attempts, ops[..|ops| - 1]);
      DoConsistentIff(env, attempts, Run(env, s, ops[..|ops| - 1]), ops[|ops| - 1]);
    }
  }

  /** Recordings of kinds not the actor's own, and agents' requests with a usable approval, are harmless anywhere. */
  lemma OrdinaryIsHarmless(env: Env, start: nat, s: Core, op: Op)
    requires op.Recording? ==> !IsApproval(op.kind) && !IsPause(op.kind)
    requires op.RecordingAgent? ==>
               !IsPause(op.event.kind) && (IsApproval(op.event.kind) ==> Carried(env, op.event).Some?)
    ensures Harmless(env, start, s, op)
  {
  }

  // ---------- the pause over every run ----------

  lemma {:induction false} RevokeEachPause(env: Env, s: Core, ids: seq<string>)
    ensures RevokeEach(env, s, ids).0.pause == s.pause
    decreases |ids|
  {
    if ids != [] && ids[0] in s.approvals && s.approvals[ids[0]].Open() && RevokedOne(env, s, ids[0]).1 {
      RevokeEachPause(env, RevokedOne(env, s, ids[0]).0, ids[1..]);
    }
  }

  lemma {:induction false} AppendSignalsPause(env: Env, s: Core, signals: seq<Budget.Signal>)
    ensures AppendSignals(env, s, signals).0.pause == s.pause
            && AppendSignals(env, s, signals).0.approvals == s.approvals
    decreases |signals|
  {
    if signals != [] {
      var (s', ok) := Append(env, s, SignalKind(signals[0]), Json.Null);
      if ok {
        AppendSignalsPause(env, s', signals[1..]);
      }
    }
  }

  /** The pause moved by one call on the controller, or not at all. */
  predicate MovedBy(before: Pause.Control, after: Pause.Control, call: Option<Pause.Call>) {
    after == if call.Some? then Pause.Do(before, call.value).0 else before
  }

  lemma SafePauseMoves(env: Env, s: Core, reason: string)
    ensures MovedBy(s.pause, RequestSafePause(env, s, reason).0.pause, Some(Pause.Requesting(reason)))
  {
  }

  lemma GateMoves(env: Env, s: Core, policy: Policy, intended: Approval.ActionClass, request: Option<Approval.Request>)
    returns (call: Option<Pause.Call>)
    ensures MovedBy(s.pause, GateAction(env, s, policy, intended, request).0.pause, call)
    ensures call.Some? ==> call.value.Requesting?
  {
    SafePauseMoves(env, s, "policy denied action dispatch");
    call := if policy.Stop? then Some(Pause.Requesting("policy denied action dispatch")) else None;
  }

  lemma SignalsMove(env: Env, s: Core, signals: seq<Budget.Signal>) returns (call: Option<Pause.Call>)
    ensures MovedBy(s.pause, ApplyBudgetSignals(env, s, signals).0.pause, call)
    ensures call.Some? ==> call.value.Requesting?
  {
    var reason := "mission budget reached at safe boundary";
    AppendSignalsPause(env, s, signals);
    var (s', ok) := AppendSignals(env, s, signals);
    SafePauseMoves(env, s', reason);
    call := if ok && AsksToPause(signals) then Some(Pause.Requesting(reason)) else None;
  }

  lemma FlightMoves(env: Env, s: Core, changed: bool) returns (call: Option<Pause.Call>)
    ensures MovedBy(s.pause, CheckFlightIdentity(env, s, changed).0.pause, call)
    ensures call.Some? ==> call.value.Requesting?
  {
    var reason := "flight envelope identity changed";
    var (s', ok) := Append(env, s, FlightEnvelopeChanged, Json.Null);
    SafePauseMoves(env, s', reason);
    call := if changed && ok then Some(Pause.Requesting(reason)) else None;
  }

  lemma LoadoutMoves(env: Env, s: Core, previous: string, next: string) returns (call: Option<Pause.Call>)
    ensures MovedBy(s.pause, CheckLoadoutChange(env, s, previous, next).0.pause, call)
    ensures call.Some? ==> call.value.Requesting?
  {
    var reason := "provider loadout changed";
    var ids := OpenIds(s.approvals, env.order(s.attempts, s.approvals));
    RevokeEachPause(env, s, ids);
    var (s1, revoked) := RevokeEach(env, s, ids);
    var (s2, ok) := Append(env, s1, LoadoutChanged, Json.Null);
    SafePauseMoves(env, s2, reason);
    if !Text.Blank(previous) && !Text.Blank(next) && previous != next && revoked.Ok? && ok {
      call := Some(Pause.Requesting(reason));
    } else {
      call := None;
    }
  }

  lemma UiMoves(env: Env, s: Core, connected: bool) returns (call: Option<Pause.Call>)
    ensures MovedBy(s.pause, SetUiConnected(env, s, connected).0.pause, call)
    ensures call.Some? ==> call.value.Requesting?
  {
    SafePauseMoves(env, s.(uiConnected := connected), "ui disconnected");
    call := if !connected && s.pause.state.Running? then Some(Pause.Requesting("ui disconnected")) else None;
  }

  lemma AcknowledgeMoves(env: Env, s: Core)
    ensures MovedBy(s.pause, AcknowledgePause(env, s).0.pause, Some(Pause.Acknowledging))
  {
  }

  lemma TokenMoves(env: Env, s: Core)
    ensures MovedBy(s.pause, IssueForceToken(env, s).0.pause, Some(Pause.Forcing))
  {
  }

  lemma TerminateMoves(env: Env, s: Core, token: string, killed: bool) returns (call: Option<Pause.Call>)
    ensures MovedBy(s.pause, ForceTerminate(env, s, token, killed).0.pause, call)
    ensures call.Some? ==> killed && call.value == Pause.Terminating(token)
  {
    call := if killed then Some(Pause.Terminating(token)) else None;
  }

  lemma ResolveLeavesPause(env: Env, s: Core, caller: Caller, c: Command)
    ensures ResolveApproval(env, s, caller, c).0.pause == s.pause
  {
  }

  lemma AuthorizeLeavesPause(env: Env, s: Core, id: string, subject: Approval.Subject, now: nat)
    ensures AuthorizeApprovedAction(env, s, id, subject, now).0.pause == s.pause
  {
  }

  lemma RecoveryLeavesPause(env: Env, s: Core, decision: string, manifest: Json.Value)
    ensures ResolveRecovery(env, s, decision, manifest).0.pause == s.pause
    ensures ResolveRecovery(env, s, decision, manifest).0.approvals == s.approvals
  {
    var continued := Append(env, s, RecoveryContinued, manifest).0;
    var abandoned := Append(env, s, RecoveryAbandoned, manifest).0;
    assert continued.pause == abandoned.pause == s.pause && continued.approvals == abandoned.approvals == s.approvals;
  }

  lemma AgentLeavesPause(env: Env, s: Core, e: AgentEvent)
    ensures RecordAgentEvent(env, s, e).0.pause == s.pause
  {
  }

  /** A termination call comes from a termination whose process tree is gone. */
  predicate TerminatesBy(op: Op, call: Pause.Call) {
    call.Terminating? ==> op == Terminating(call.token, true)
  }

  lemma ForcingPause(env: Env, s: Core) returns (calls: seq<Pause.Call>)
    ensures RequestForceTermination(env, s).0.pause == Pause.Run(s.pause, calls)
    ensures forall i :: 0 <= i < |calls| ==> !calls[i].Terminating?
  {
    var reason := "user requested force termination";
    var (s', r) := RequestSafePause(env, s, reason);
    SafePauseMoves(env, s, reason);
    TokenMoves(env, if s.pause.state.Running? then s' else s);
    Pause.RunOne(s.pause, Pause.Requesting(reason));
    Pause.RunOne(if s.pause.state.Running? then s'.pause else s.pause, Pause.Forcing);
    Pause.RunSplit(s.pause, [Pause.Requesting(reason)], [Pause.Forcing]);
    calls := if !s.pause.state.Running? then [Pause.Forcing]
             else if r.Ok? then [Pause.Requesting(reason)] + [Pause.Forcing]
             else [Pause.Requesting(reason)];
  }

  lemma OtherOpsMove(env: Env, s: Core, op: Op) returns (call: Option<Pause.Call>)
    requires !IsPausing(op)
    ensures MovedBy(s.pause, Do(env, s, op).pause, call) && (call.Some? ==> TerminatesBy(op, call.value))
  {
    call := None;
    match op {
      case Gating(policy, intended, request) => call := GateMoves(env, s, policy, intended, request);
      case Resolving(caller, command) => ResolveLeavesPause(env, s, caller, command);
      case Authorizing(id, subject, now) => AuthorizeLeavesPause(env, s, id, subject, now);
      case Signalling(signals) => call := SignalsMove(env, s, signals);
      case CheckingFlight(changed) => call := FlightMoves(env, s, changed);
      case CheckingLoadout(previous, next) => call := LoadoutMoves(env, s, previous, next);
      case RecordingAgent(event) => AgentLeavesPause(env, s, event);
      case Recording(kind, payload) =>
      case Recovering(decision, manifest) => RecoveryLeavesPause(env, s, decision, manifest);
      case Connecting(connected) => call := UiMoves(env, s, connected);
    }
  }

  lemma PausingOpsMove(env: Env, s: Core, op: Op) returns (call: Option<Pause.Call>)
    requires IsPausing(op) && !op.Forcing?
    ensures MovedBy(s.pause, Do(env, s, op).pause, call) && (call.Some? ==> TerminatesBy(op, call.value))
  {
    match op {
      case Pausing(reason) =>
        SafePauseMoves(env, s, reason);
        call := Some(Pause.Requesting(reason));
      case Acknowledging =>
        AcknowledgeMoves(env, s);
        call := Some(Pause.Acknowledging);
      case TimingOut =>
        TokenMoves(env, s);
        call := Some(Pause.Forcing);
      case Terminating(token, killed) => call := TerminateMoves(env, s, token, killed);
    }
  }

  /** No operation moves the pause except by calling the controller, and only a termination terminates. */
  lemma DoPause(env: Env, s: Core, op: Op) returns (calls: seq<Pause.Call>)
    ensures Do(env, s, op).pause == Pause.Run(s.pause, calls)
    ensures forall i :: 0 <= i < |calls| ==> TerminatesBy(op, calls[i])
  {
    if op.Forcing? {
      calls := ForcingPause(env, s);
    } else {
      var call: Option<Pause.Call>;
      if IsPausing(op) {
        call := PausingOpsMove(env, s, op);
      } else {
        call := OtherOpsMove(env, s, op);
      }
      Pause.RunOne(s.pause, if call.Some? then call.value else Pause.Forcing);
      calls := if call.Some? then [call.value] else [];
    }
  }

  /** Over every run stages only advance and at most one token is issued, always the same. */
  lemma {:induction false} RunAdvancesPause(env: Env, s: Core, ops: seq<Op>)
    requires Pause.OneToken(s.pause)
    ensures var p := Run(env, s, ops).pause;
            Pause.OneToken(p) && p.tokens <= 1 && Pause.Stage(s.pause.state) <= Pause.Stage(p.state)
  {
    if ops != [] {
      var front := ops[..|ops| - 1];
      RunAdvancesPause(env, s, front);
      var calls := DoPause(env, Run(env, s, front), ops[|ops| - 1]);
      Pause.RunAdvances(Run(env, s, front).pause, calls);
    }
  }

  lemma {:induction false} TerminatingCall(c: Pause.Control, calls: seq<Pause.Call>) returns (j: nat)
    requires !c.state.Terminated? && Pause.Run(c, calls).state.Terminated?
    ensures j < |calls| && calls[j].Terminating?
  {
    var front := calls[..|calls| - 1];
    if Pause.Run(c, front).state.Terminated? {
      j := TerminatingCall(c, front);
    } else {
      j := |calls| - 1;
    }
  }

  /** A mission becomes Terminated only by a termination that is given the one token, after it was made available. */
  lemma {:induction false} TerminatedWithToken(env: Env, s: Core, ops: seq<Op>) returns (k: nat)
    requires Pause.OneToken(s.pause) && !s.pause.state.Terminated? && Run(env, s, ops).pause.state.Terminated?
    ensures k < |ops| && ops[k] == Terminating(Pause.Token(1), true)
    ensures Run(env, s, ops[..k]).pause.state == Pause.ForceTerminationAvailable(Pause.Token(1))
  {
    var n := |ops| - 1;
    var front := ops[..n];
    if Run(env, s, front).pause.state.Terminated? {
      k := TerminatedWithToken(env, s, front);
      assert ops[k] == front[k] && ops[..k] == front[..k];
    } else {
      k := n;
      RunAdvancesPause(env, s, front);
      TerminationStep(env, Run(env, s, front), ops[n]);
    }
  }

  lemma TerminationStep(env: Env, s: Core, op: Op)
    requires Pause.OneToken(s.pause) && !s.pause.state.Terminated? && Do(env, s, op).pause.state.Terminated?
    ensures op == Terminating(Pause.Token(1), true)
    ensures s.pause.state == Pause.ForceTerminationAvailable(Pause.Token(1))
  {
    var calls := DoPause(env, s, op);
    var j := TerminatingCall(s.pause, calls);
    assert TerminatesBy(op, calls[j]);
  }

  // ---------- one approval over every run ----------

  /** The operation files a request under the id: it is logged, and then inserted. */
  predicate Inserts(env: Env, s: Core, op: Op, id: string) {
    match op
    case Gating(policy, intended, request) =>
      GateAction(env, s, policy, intended, request).1 == Ok(WaitingForApproval(id))
    case RecordingAgent(event) =>
      RecordAgentEvent(env, s, event).1.Ok? && Carried(env, event).Some? && Carried(env, event).value.id == id
    case _ => false
  }

  lemma CallOne(a: Approval.Request, call: Approval.Call)
    ensures Approval.Run(a, [call]) == Approval.Do(a, call).0
  {
    assert [call][..0] == [];
  }

  /** A resolving call on the approval is the command of a successful resolution of it. */
  predicate ResolvesBy(env: Env, s: Core, op: Op, id: string, call: Approval.Call) {
    call.Resolving? ==>
      && op.Resolving? && op.command.id == id && id in s.approvals && SubjectOf(s.approvals[id], op.command).Some?
      && ResolveApproval(env, s, op.caller, op.command).1.Ok?
      && !op.command.decision.Revoke?
      && call.resolution == Approval.Resolution(id, op.command.expectedRevision, ProtocolActor(op.caller),
                                                if op.command.decision.Approve? then Approval.Approve
                                                else Approval.Deny,
                                                SubjectOf(s.approvals[id], op.command).value, op.command.now)
  }

  /** What a resolution does to an approval is a call or two on it. */
  lemma ResolvedByCalls(current: Approval.Request, actor: Approval.Actor, c: Command, subject: Approval.Subject)
    returns (calls: seq<Approval.Call>)
    requires Resolved(current, actor, c, subject).Ok?
    ensures Resolved(current, actor, c, subject).value.0 == Approval.Run(current, calls)
    ensures forall i :: 0 <= i < |calls| && calls[i].Resolving? ==>
              && !c.decision.Revoke?
              && calls[i].resolution == Approval.Resolution(c.id, c.expectedRevision, actor,
                                                            if c.decision.Approve? then Approval.Approve
                                                            else Approval.Deny,
                                                            subject, c.now)
  {
    if c.decision.Revoke? {
      calls := [Approval.Revoking(actor)];
      CallOne(current, Approval.Revoking(actor));
    } else {
      var scope := if c.routeWide then Approval.RouteActionClass(current.subject.actionClass) else Approval.Once;
      var decision := if c.decision.Approve? then Approval.Approve else Approval.Deny;
      var resolve := Approval.Resolving(Approval.Resolution(c.id, c.expectedRevision, actor, decision, subject, c.now));
      var scoped := if c.decision.Approve? then current.SetScope(scope).0 else current;
      CallOne(current, Approval.Scoping(scope));
      CallOne(scoped, resolve);
      if c.decision.Approve? {
        Approval.RunSplit(current, [Approval.Scoping(scope)], [resolve]);
        calls := [Approval.Scoping(scope)] + [resolve];
      } else {
        calls := [resolve];
      }
    }
  }

  lemma {:induction false} RevokeEachCalls(env: Env, s: Core, ids: seq<string>, id: string)
    returns (calls: seq<Approval.Call>)
    requires id in s.approvals
    ensures var s' := RevokeEach(env, s, ids).0;
            id in s'.approvals && s'.approvals[id] == Approval.Run(s.approvals[id], calls)
    ensures forall i :: 0 <= i < |calls| ==> calls[i].LoadoutChanging?
    decreases |ids|
  {
    calls := [];
    if ids != [] && ids[0] in s.approvals && s.approvals[ids[0]].Open() && RevokedOne(env, s, ids[0]).1 {
      calls := RevokeEachCalls(env, RevokedOne(env, s, ids[0]).0, ids[1..], id);
      if ids[0] == id {
        CallOne(s.approvals[id], Approval.LoadoutChanging);
        Approval.RunSplit(s.approvals[id], [Approval.LoadoutChanging], calls);
        calls := [Approval.LoadoutChanging] + calls;
      }
    }
  }

  lemma SafePauseLeavesApprovals(env: Env, s: Core, reason: string)
    ensures RequestSafePause(env, s, reason).0.approvals == s.approvals
  {
  }

  lemma TokenLeavesApprovals(env: Env, s: Core)
    ensures IssueForceToken(env, s).0.approvals == s.approvals
  {
  }

  lemma TerminationLeavesApprovals(env: Env, s: Core, token: string, killed: bool)
    ensures ForceTerminate(env, s, token, killed).0.approvals == s.approvals
  {
  }

  lemma AcknowledgeLeavesApprovals(env: Env, s: Core)
    ensures AcknowledgePause(env, s).0.approvals == s.approvals
  {
  }

  lemma ForcingLeavesApprovals(env: Env, s: Core)
    ensures RequestForceTermination(env, s).0.approvals == s.approvals
  {
    var reason := "user requested force termination";
    SafePauseLeavesApprovals(env, s, reason);
    TokenLeavesApprovals(env, if s.pause.state.Running? then RequestSafePause(env, s, reason).0 else s);
  }

  lemma UiLeavesApprovals(env: Env, s: Core, connected: bool)
    ensures SetUiConnected(env, s, connected).0.approvals == s.approvals
  {
    SafePauseLeavesApprovals(env, s.(uiConnected := connected), "ui disconnected");
  }

  lemma SignalsLeaveApprovals(env: Env, s: Core, signals: seq<Budget.Signal>)
    ensures ApplyBudgetSignals(env, s, signals).0.approvals == s.approvals
  {
    AppendSignalsPause(env, s, signals);
    SafePauseLeavesApprovals(env, AppendSignals(env, s, signals).0, "mission budget reached at safe boundary");
  }

  lemma FlightLeavesApprovals(env: Env, s: Core, changed: bool)
    ensures CheckFlightIdentity(env, s, changed).0.approvals == s.approvals
  {
    SafePauseLeavesApprovals(env, Append(env, s, FlightEnvelopeChanged, Json.Null).0,
                             "flight envelope identity changed");
  }

  lemma LoadoutCalls(env: Env, s: Core, previous: string, next: string, id: string) returns (calls: seq<Approval.Call>)
    requires id in s.approvals
    ensures var s' := CheckLoadoutChange(env, s, previous, next).0;
            id in s'.approvals && s'.approvals[id] == Approval.Run(s.approvals[id], calls)
    ensures forall i :: 0 <= i < |calls| ==> calls[i].LoadoutChanging?
  {
    if Text.Blank(previous) || Text.Blank(next) || previous == next {
      calls := [];
    } else {
      var ids := OpenIds(s.approvals, env.order(s.attempts, s.approvals));
      calls := RevokeEachCalls(env, s, ids, id);
      var s1 := RevokeEach(env, s, ids).0;
      SafePauseLeavesApprovals(env, Append(env, s1, LoadoutChanged, Json.Null).0, "provider loadout changed");
    }
  }

  /** Resolving replaces the one approval by what the command makes of it, or leaves all of them. */
  lemma ResolveOutcome(env: Env, s: Core, caller: Caller, c: Command)
    ensures var (s', r) := ResolveApproval(env, s, caller, c);
            if r.Err? then s'.approvals == s.approvals
            else
              && c.id in s.approvals && SubjectOf(s.approvals[c.id], c).Some?
              && var resolved := Resolved(s.approvals[c.id], ProtocolActor(caller), c,
                                          SubjectOf(s.approvals[c.id], c).value);
              resolved.Ok? && s'.approvals == s.approvals[c.id := resolved.value.0]
  {
  }

  lemma ResolveCalls(env: Env, s: Core, caller: Caller, c: Command, id: string) returns (calls: seq<Approval.Call>)
    requires id in s.approvals
    ensures var s' := ResolveApproval(env, s, caller, c).0;
            id in s'.approvals && s'.approvals[id] == Approval.Run(s.approvals[id], calls)
    ensures forall i :: 0 <= i < |calls| ==> ResolvesBy(env, s, Resolving(caller, c), id, calls[i])
  {
    calls := [];
    ResolveOutcome(env, s, caller, c);
    if ResolveApproval(env, s, caller, c).1.Ok? && c.id == id {
      calls := ResolvedByCalls(s.approvals[id], ProtocolActor(caller), c, SubjectOf(s.approvals[id], c).value);
    }
  }

  lemma AuthorizeCalls(env: Env, s: Core, key: string, subject: Approval.Subject, now: nat, id: string)
    returns (calls: seq<Approval.Call>)
    requires id in s.approvals
    ensures var s' := AuthorizeApprovedAction(env, s, key, subject, now).0;
            id in s'.approvals && s'.approvals[id] == Approval.Run(s.approvals[id], calls)
    ensures forall i :: 0 <= i < |calls| ==> calls[i].Authorizing?
  {
    calls := [];
    if key == id && AuthorizeApprovedAction(env, s, key, subject, now).1.Ok? {
      CallOne(s.approvals[id], Approval.Authorizing(subject, now));
      calls := [Approval.Authorizing(subject, now)];
    }
  }

  lemma GateLeavesOthers(env: Env, s: Core, policy: Policy, intended: Approval.ActionClass,
                         request: Option<Approval.Request>, id: string)
    requires id in s.approvals && GateAction(env, s, policy, intended, request).1 != Ok(WaitingForApproval(id))
    ensures var s' := GateAction(env, s, policy, intended, request).0;
            id in s'.approvals && s'.approvals[id] == s.approvals[id]
  {
    SafePauseLeavesApprovals(env, s, "policy denied action dispatch");
  }

  lemma AgentLeavesOthers(env: Env, s: Core, e: AgentEvent, id: string)
    requires id in s.approvals && !Inserts(env, s, RecordingAgent(e), id)
    ensures var s' := RecordAgentEvent(env, s, e).0; id in s'.approvals && s'.approvals[id] == s.approvals[id]
  {
  }

  /** The operations that are not about approvals leave them alone. */
  lemma OthersLeaveApprovals(env: Env, s: Core, op: Op)
    requires !op.Gating? && !op.RecordingAgent? && !op.Resolving? && !op.Authorizing? && !op.CheckingLoadout?
    ensures Do(env, s, op).approvals == s.approvals
  {
    match op {
      case Signalling(signals) => SignalsLeaveApprovals(env, s, signals);
      case CheckingFlight(changed) => FlightLeavesApprovals(env, s, changed);
      case Recording(_, _) =>
      case Recovering(decision, manifest) => RecoveryLeavesPause(env, s, decision, manifest);
      case Pausing(reason) => SafePauseLeavesApprovals(env, s, reason);
      case Acknowledging => AcknowledgeLeavesApprovals(env, s);
      case TimingOut => TokenLeavesApprovals(env, s);
      case Forcing => ForcingLeavesApprovals(env, s);
      case Terminating(token, killed) => TerminationLeavesApprovals(env, s, token, killed);
      case Connecting(connected) => UiLeavesApprovals(env, s, connected);
    }
  }

  /** Between two insertions of an id, an operation changes its approval only by calls on it. */
  lemma DoApproval(env: Env, s: Core, op: Op, id: string) returns (calls: seq<Approval.Call>)
    requires id in s.approvals && !Inserts(env, s, op, id)
    ensures id in Do(env, s, op).approvals && Do(env, s, op).approvals[id] == Approval.Run(s.approvals[id], calls)
    ensures forall i :: 0 <= i < |calls| ==> ResolvesBy(env, s, op, id, calls[i])
  {
    calls := [];
    match op {
      case Gating(policy, intended, request) => GateLeavesOthers(env, s, policy, intended, request, id);
      case RecordingAgent(event) => AgentLeavesOthers(env, s, event, id);
      case Resolving(caller, command) => calls := ResolveCalls(env, s, caller, command, id);
      case Authorizing(key, subject, now) => calls := AuthorizeCalls(env, s, key, subject, now, id);
      case CheckingLoadout(previous, next) => calls := LoadoutCalls(env, s, previous, next, id);
      case _ => OthersLeaveApprovals(env, s, op);
    }
  }

  /** No operation of the run from one index to another files a request under the id. */
  predicate NoneInserted(env: Env, s: Core, ops: seq<Op>, from: nat, to: nat, id: string)
    requires to <= |ops|
  {
    forall i :: from <= i < to ==> !Inserts(env, Run(env, s, ops[..i]), ops[i], id)
  }

  lemma NoneInsertedPrefix(env: Env, s: Core, ops: seq<Op>, from: nat, n: nat, id: string)
    requires n <= |ops| && NoneInserted(env, s, ops, from, n, id)
    ensures NoneInserted(env, s, ops[..n], from, n, id)
  {
    forall i | from <= i < n ensures !Inserts(env, Run(env, s, ops[..n][..i]), ops[..n][i], id) {
      assert ops[..n][..i] == ops[..i];
    }
  }

  /** So a run between two insertions is a run of calls on the approval. */
  lemma {:induction false} RunApproval(env: Env, s: Core, ops: seq<Op>, id: string) returns (calls: seq<Approval.Call>)
    requires id in s.approvals && NoneInserted(env, s, ops, 0, |ops|, id)
    ensures id in Run(env, s, ops).approvals
    ensures Run(env, s, ops).approvals[id] == Approval.Run(s.approvals[id], calls)
  {
    calls := [];
    if ops != [] {
      var n := |ops| - 1;
      NoneInsertedPrefix(env, s, ops, 0, n, id);
      var before := RunApproval(env, s, ops[..n], id);
      var last := DoApproval(env, Run(env, s, ops[..n]), ops[n], id);
      Approval.RunSplit(s.approvals[id], before, last);
      calls := before + last;
    }
  }

  /** The operation at k authorized an action under the id. */
  predicate AuthorizedAt(env: Env, s: Core, ops: seq<Op>, k: nat, id: string)
    requires k < |ops|
  {
    && ops[k].Authorizing? && ops[k].id == id
    && AuthorizeApprovedAction(env, Run(env, s, ops[..k]), id, ops[k].subject, ops[k].now).1.Ok?
  }

  /** Authorizing under a request for one action consumes it. */
  lemma OnceIsConsumed(env: Env, s: Core, id: string, subject: Approval.Subject, now: nat)
    requires AuthorizeApprovedAction(env, s, id, subject, now).1.Ok? && s.approvals[id].scope.Once?
    ensures id in Do(env, s, Authorizing(id, subject, now)).approvals
    ensures Do(env, s, Authorizing(id, subject, now)).approvals[id].state.Consumed?
  {
  }

  lemma {:induction false} FinalOverRun(env: Env, s: Core, ops: seq<Op>, id: string)
    requires id in s.approvals && Approval.Final(s.approvals[id].state) && NoneInserted(env, s, ops, 0, |ops|, id)
    ensures id in Run(env, s, ops).approvals && Run(env, s, ops).approvals[id] == s.approvals[id]
  {
    var calls := RunApproval(env, s, ops, id);
    Approval.FinalStays(s.approvals[id], calls);
  }

  lemma DoLeavesFinal(env: Env, s: Core, op: Op, id: string)
    requires id in s.approvals && Approval.Final(s.approvals[id].state) && !Inserts(env, s, op, id)
    ensures id in Do(env, s, op).approvals && Do(env, s, op).approvals[id] == s.approvals[id]
  {
    var calls := DoApproval(env, s, op, id);
    Approval.FinalStays(s.approvals[id], calls);
  }

  /** From a point where it is final, an approval stays as it is until its id is inserted again. */
  lemma {:induction false} FinalFrom(env: Env, s: Core, ops: seq<Op>, j: nat, k: nat, id: string)
    requires j <= k <= |ops| && NoneInserted(env, s, ops, j, k, id)
    requires id in Run(env, s, ops[..j]).approvals && Approval.Final(Run(env, s, ops[..j]).approvals[id].state)
    ensures id in Run(env, s, ops[..k]).approvals
    ensures Run(env, s, ops[..k]).approvals[id] == Run(env, s, ops[..j]).approvals[id]
    decreases k
  {
    if k > j {
      FinalFrom(env, s, ops, j, k - 1, id);
      assert ops[..k][..k - 1] == ops[..k - 1] && ops[..k][k - 1] == ops[k - 1];
      DoLeavesFinal(env, Run(env, s, ops[..k - 1]), ops[k - 1], id);
    }
  }

  /** Between two insertions of its id, a request for one action authorizes at most one. */
  lemma OnceBetweenInsertions(env: Env, s: Core, ops: seq<Op>, j: nat, k: nat, id: string)
    requires j < k < |ops| && NoneInserted(env, s, ops, j + 1, k, id)
    requires AuthorizedAt(env, s, ops, j, id) && AuthorizedAt(env, s, ops, k, id)
    ensures id in Run(env, s, ops[..j]).approvals && !Run(env, s, ops[..j]).approvals[id].scope.Once?
  {
    var before := Run(env, s, ops[..j]);
    if before.approvals[id].scope.Once? {
      OnceIsConsumed(env, before, id, ops[j].subject, ops[j].now);
      assert ops[..j + 1][..j] == ops[..j] && ops[..j + 1][j] == ops[j];
      FinalFrom(env, s, ops, j + 1, k, id);
      assert false;
    }
  }

  /** The operation at j is a user's approval of the request, accepted, in time and in its context. */
  predicate UserApprovedAt(env: Env, s: Core, ops: seq<Op>, j: nat, a: Approval.Request)
    requires j < |ops|
  {
    && ops[j].Resolving? && ops[j].caller.UserCaller?
    && var c := ops[j].command;
    && c.id == a.id && c.decision.Approve? && c.now < a.expiresAt
    && c.mission == Some(a.subject.mission) && c.route == Some(a.subject.route)
    && c.actionDigest == a.subject.actionDigest
    && c.contractVersion == a.subject.contractVersion && c.loadoutFingerprint == a.subject.loadoutFingerprint
    && ResolveApproval(env, Run(env, s, ops[..j]), ops[j].caller, c).1.Ok?
  }

  /** Only a user's approval makes a request approved. */
  lemma ApprovedStep(env: Env, s: Core, op: Op, id: string)
    requires id in s.approvals && s.approvals[id].id == id && !s.approvals[id].state.Approved?
    requires !Inserts(env, s, op, id) && id in Do(env, s, op).approvals && Do(env, s, op).approvals[id].state.Approved?
    ensures Run(env, s, [op][..0]) == s && UserApprovedAt(env, s, [op], 0, s.approvals[id])
  {
    var a := s.approvals[id];
    var calls := DoApproval(env, s, op, id);
    var i := Approval.ApprovedSince(a, calls);
    assert ResolvesBy(env, s, op, id, calls[i]);
    assert Approval.ApprovalOf(a, calls[i]);
  }

  /** Between insertions a request keeps its binding, and changes state at most twice, with as many revisions. */
  lemma BoundOverRun(env: Env, s: Core, ops: seq<Op>, id: string)
    requires id in s.approvals && NoneInserted(env, s, ops, 0, |ops|, id)
    ensures id in Run(env, s, ops).approvals && Approval.SameBinding(s.approvals[id], Run(env, s, ops).approvals[id])
    ensures s.approvals[id].revision <= Run(env, s, ops).approvals[id].revision <= s.approvals[id].revision + 2
  {
    var calls := RunApproval(env, s, ops, id);
    Approval.RevisionCountsTransitions(s.approvals[id], calls);
  }

  lemma SoundOverRun(env: Env, s: Core, ops: seq<Op>, id: string)
    requires id in s.approvals && Approval.Sound(s.approvals[id]) && NoneInserted(env, s, ops, 0, |ops|, id)
    ensures id in Run(env, s, ops).approvals && Approval.Sound(Run(env, s, ops).approvals[id])
    ensures Run(env, s, ops).approvals[id].revision <= 2
  {
    var calls := RunApproval(env, s, ops, id);
    Approval.RunKeepsSound(s.approvals[id], calls);
  }

  /** A request that was not approved and now is was approved by the user, in time and in its context. */
  lemma {:induction false} ApprovedByUser(env: Env, s: Core, ops: seq<Op>, id: string) returns (j: nat)
    requires id in s.approvals && s.approvals[id].id == id && !s.approvals[id].state.Approved?
    requires NoneInserted(env, s, ops, 0, |ops|, id)
    requires id in Run(env, s, ops).approvals && Run(env, s, ops).approvals[id].state.Approved?
    ensures j < |ops| && UserApprovedAt(env, s, ops, j, s.approvals[id])
  {
    var n := |ops| - 1;
    var front := ops[..n];
    NoneInsertedPrefix(env, s, ops, 0, n, id);
    BoundOverRun(env, s, front, id);
    var before := Run(env, s, front);
    if before.approvals[id].state.Approved? {
      j := ApprovedByUser(env, s, front, id);
      assert ops[j] == front[j] && ops[..j] == front[..j];
    } else {
      j := n;
      ApprovedStep(env, before, ops[n], id);
    }
  }

  /**
   * Every authorization under a request that was not filed as approved follows the user's approval of it, before
   * expiry and in the same context.
   */
  lemma AuthorizedWasApproved(env: Env, s: Core, ops: seq<Op>, k: nat, id: string) returns (j: nat)
    requires id in s.approvals && s.approvals[id].id == id && !s.approvals[id].state.Approved?
    requires k < |ops| && NoneInserted(env, s, ops, 0, k, id) && AuthorizedAt(env, s, ops, k, id)
    ensures j < k && UserApprovedAt(env, s, ops, j, s.approvals[id])
    ensures Approval.SameContext(s.approvals[id].subject, ops[k].subject) && ops[k].now < s.approvals[id].expiresAt
  {
    var front := ops[..k];
    NoneInsertedPrefix(env, s, ops, 0, k, id);
    BoundOverRun(env, s, front, id);
    j := ApprovedByUser(env, s, front, id);
    assert ops[j] == front[j] && ops[..j] == front[..j];
  }

  // ---------- a loadout change ----------

  predicate Distinct(ids: seq<string>) {
    forall i, j :: 0 <= i < j < |ids| ==> ids[i] != ids[j]
  }

  predicate AllOpen(approvals: Approvals, ids: seq<string>) {
    forall i :: 0 <= i < |ids| ==> ids[i] in approvals && approvals[ids[i]].Open()
  }

  /** The approvals listed are revoked and the others are as they were. */
  ghost predicate RevokedThese(before: Approvals, after: Approvals, ids: seq<string>) {
    && before.Keys == after.Keys
    && forall id :: id in before ==> if id in ids then after[id].state.Revoked? else after[id] == before[id]
  }

  lemma AllOpenTail(env: Env, s: Core, ids: seq<string>)
    requires ids != [] && Distinct(ids) && AllOpen(s.approvals, ids)
    ensures AllOpen(RevokedOne(env, s, ids[0]).0.approvals, ids[1..]) && Distinct(ids[1..])
  {
  }

  lemma RevokedTheseCons(env: Env, s: Core, ids: seq<string>, after: Approvals)
    requires ids != [] && AllOpen(s.approvals, ids) && Distinct(ids) && RevokedOne(env, s, ids[0]).1
    requires RevokedThese(RevokedOne(env, s, ids[0]).0.approvals, after, ids[1..])
    ensures RevokedThese(s.approvals, after, ids)
  {
    var mid := RevokedOne(env, s, ids[0]).0.approvals;
    assert ids == [ids[0]] + ids[1..];
    assert mid.Keys == s.approvals.Keys;
    forall id | id in s.approvals ensures if id in ids then after[id].state.Revoked? else after[id] == s.approvals[id] {
      assert id in mid;
    }
  }

  /** Revoking distinct open approvals succeeds unless the ledger refuses an append. */
  lemma {:induction false} RevokeEachRevokes(env: Env, s: Core, ids: seq<string>)
    requires Distinct(ids) && AllOpen(s.approvals, ids)
    ensures RevokeEach(env, s, ids).1.Ok? || RevokeEach(env, s, ids).1 == Err(LedgerRefused)
    ensures RevokeEach(env, s, ids).1.Ok? ==> RevokedThese(s.approvals, RevokeEach(env, s, ids).0.approvals, ids)
    decreases |ids|
  {
    if ids != [] && RevokedOne(env, s, ids[0]).1 {
      var s' := RevokedOne(env, s, ids[0]).0;
      AllOpenTail(env, s, ids);
      RevokeEachRevokes(env, s', ids[1..]);
      if RevokeEach(env, s', ids[1..]).1.Ok? {
        RevokedTheseCons(env, s, ids, RevokeEach(env, s', ids[1..]).0.approvals);
      }
    }
  }

  /** The ids collected are the open ones among the keys, each once. */
  lemma {:induction false} OpenIdsMeaning(approvals: Approvals, keys: seq<string>)
    requires Keyed(approvals) && Distinct(keys)
    ensures Distinct(OpenIds(approvals, keys)) && AllOpen(approvals, OpenIds(approvals, keys))
    ensures forall id :: id in OpenIds(approvals, keys) <==> id in keys && id in approvals && approvals[id].Open()
  {
    if keys != [] {
      var front := keys[..|keys| - 1];
      OpenIdsMeaning(approvals, front);
      assert keys == front + [keys[|keys| - 1]];
    }
  }

  lemma LoadoutOutcome(env: Env, s: Core, previous: string, next: string, ids: seq<string>)
    requires ids == OpenIds(s.approvals, env.order(s.attempts, s.approvals))
    ensures var (s', r) := CheckLoadoutChange(env, s, previous, next);
            var (s1, revoked) := RevokeEach(env, s, ids);
            && (r.Ok? && r.value ==> revoked.Ok? && s'.approvals == s1.approvals)
            && (r.Err? ==> r.error.LedgerRefused? || r.error.PauseError? || revoked == Err(r.error))
  {
    var s1 := RevokeEach(env, s, ids).0;
    SafePauseLeavesApprovals(env, Append(env, s1, LoadoutChanged, Json.Null).0, "provider loadout changed");
  }

  /**
   * A loadout change that succeeds leaves no approval open, every one revoked that was, and the others untouched;
   * the revocations fail only if the ledger refuses.
   */
  lemma LoadoutChangeRevokes(env: Env, s: Core, previous: string, next: string)
    requires env.Faithful() && Agrees(env, s)
    ensures var (s', r) := CheckLoadoutChange(env, s, previous, next);
            && (r.Ok? && r.value ==>
                 && s'.approvals.Keys == s.approvals.Keys
                 && forall id :: id in s.approvals ==>
                      if s.approvals[id].Open() then s'.approvals[id].state.Revoked?
                      else s'.approvals[id] == s.approvals[id])
            && (r.Err? ==> r.error.LedgerRefused? || r.error.PauseError?)
  {
    ReplayKeyed(env, s.log);
    var keys := env.order(s.attempts, s.approvals);
    assert Distinct(keys);
    OpenIdsMeaning(s.approvals, keys);
    var ids := OpenIds(s.approvals, keys);
    RevokeEachRevokes(env, s, ids);
    LoadoutOutcome(env, s, previous, next, ids);
  }

  // ---------- what success means ----------

  /** An action waits only on an approval bound to this mission, route, action and class, recorded and filed. */
  lemma GateMeaning(env: Env, s: Core, policy: Policy, intended: Approval.ActionClass,
                    request: Option<Approval.Request>)
    requires GateAction(env, s, policy, intended, request).1.Ok?
    ensures var (s', r) := GateAction(env, s, policy, intended, request);
            match r.value
            case Ready => policy.Allow? && s' == s
            case Halted => s.pause.state.Running? && s'.pause.state.Requested? && s'.approvals == s.approvals
            case WaitingForApproval(id) =>
              && policy.RequireApproval? && id in s'.approvals && Some(s'.approvals[id]) == request
              && |s'.log| == |s.log| + 1 && s'.log[|s.log|].kind.ApprovalRequested?
              && var subject := s'.approvals[id].subject;
              && subject.mission == env.mission && subject.route == env.route
              && subject.actionDigest == policy.actionDigest && subject.actionClass == intended
  {
  }

  /** An agent's request, however it is worded, asks for one action of this mission and route, and is pending. */
  lemma CarriedMeaning(env: Env, e: AgentEvent)
    requires Carried(env, e).Some?
    ensures var a := Carried(env, e).value;
            && a.state.Pending? && Approval.Sound(a) && a.scope.Once?
            && a.subject.mission == env.mission && a.subject.route == env.route && a.subject.actionClass.Write?
            && Approval.Bound(a.id, a.subject)
            && (Json.GetStr(e.payload, "approval_id").Some? ==> Json.GetStr(e.payload, "approval_id") == Some(a.id))
  {
  }

  /** A recorded agent event is the last of the log, and its approval, if any, is filed as it asked. */
  lemma RecordAgentMeaning(env: Env, s: Core, e: AgentEvent)
    requires env.Faithful() && RecordAgentEvent(env, s, e).1.Ok?
    ensures var s' := RecordAgentEvent(env, s, e).0;
            && |s'.log| == |s.log| + 1 && s'.log[..|s.log|] == s.log
            && var last := s'.log[|s.log|];
            && last.id == e.id && last.kind == e.kind && last.sequence == s.sequence + 1 == s'.sequence
            && match Carried(env, e)
               case None => s'.approvals == s.approvals && last.payload == e.payload
               case Some(a) => s'.approvals == s.approvals[a.id := a] && ApprovalIn(env, last) == Ok(a)
  {
    assert RecordAgentEvent(env, s, e).0.log[..|s.log|] == s.log;
  }

  /** Resolving a recovery closes it, and is possible only while one is required. */
  lemma RecoveryMeaning(env: Env, s: Core, decision: string, manifest: Json.Value)
    ensures var (s', r) := ResolveRecovery(env, s, decision, manifest);
            if r.Ok? then s.requiresRecovery && !s'.requiresRecovery && |s'.log| == |s.log| + 1
            else s'.log == s.log && s'.requiresRecovery == s.requiresRecovery
  {
    if s.requiresRecovery {
      var (continued, a) := Append(env, s, RecoveryContinued, manifest);
      var (abandoned, b) := Append(env, s, RecoveryAbandoned, manifest);
      assert (a ==> !continued.requiresRecovery) && (b ==> !abandoned.requiresRecovery);
    }
  }

  /** The log grows by the events of the signals, in order, and no others. */
  ghost predicate Logged(before: seq<Event>, after: seq<Event>, signals: seq<Budget.Signal>) {
    && |after| == |before| + |signals|
    && after[..|before|] == before
    && forall i :: 0 <= i < |signals| ==> after[|before| + i].kind == SignalKind(signals[i])
  }

  lemma LoggedCons(before: seq<Event>, e: Event, after: seq<Event>, signals: seq<Budget.Signal>)
    requires signals != [] && e.kind == SignalKind(signals[0]) && Logged(before + [e], after, signals[1..])
    ensures Logged(before, after, signals)
  {
    var mid := before + [e];
    assert after[..|before|] == after[..|mid|][..|before|];
    forall i | 0 <= i < |signals| ensures after[|before| + i].kind == SignalKind(signals[i]) {
      if i == 0 {
        assert after[|before|] == after[..|mid|][|before|];
      } else {
        assert after[|mid| + (i - 1)].kind == SignalKind(signals[1..][i - 1]);
      }
    }
  }

  lemma {:induction false} SignalsLogged(env: Env, s: Core, signals: seq<Budget.Signal>)
    requires AppendSignals(env, s, signals).1
    ensures Logged(s.log, AppendSignals(env, s, signals).0.log, signals)
    decreases |signals|
  {
    if signals != [] {
      var s' := Append(env, s, SignalKind(signals[0]), Json.Null).0;
      SignalsLogged(env, s', signals[1..]);
      LoggedCons(s.log, Envelope(env, s, SignalKind(signals[0]), Json.Null), AppendSignals(env, s, signals).0.log,
                 signals);
    }
  }

  /** Applied signals are logged in order, and a pause is requested exactly when one of them asks for it. */
  lemma SignalsMeaning(env: Env, s: Core, signals: seq<Budget.Signal>)
    requires ApplyBudgetSignals(env, s, signals).1.Ok?
    ensures var (s', r) := ApplyBudgetSignals(env, s, signals);
            && (r.value <==> AsksToPause(signals))
            && (if r.value then s.pause.state.Running? && s'.pause.state.Requested? else s'.pause == s.pause)
            && |s'.log| >= |s.log| + |signals|
            && Logged(s.log, s'.log[..|s.log| + |signals|], signals)
  {
    SignalsLogged(env, s, signals);
    AppendSignalsPause(env, s, signals);
    var logged := AppendSignals(env, s, signals).0.log;
    var s' := ApplyBudgetSignals(env, s, signals).0;
    assert s'.log[..|logged|] == logged;
  }

  // ---------- the actor ----------

  method RecoveryIsRequired(events: seq<Event>) returns (active: bool)
    ensures active == RecoveryRequired(events)
  {
    active := false;
    for i := 0 to |events|
      invariant active == RecoveryRequired(events[..i])
    {
      assert events[..i + 1][..i] == events[..i];
      var e := events[i];
      match e.kind {
        case AgentRunStarted => active := true;
        case AgentRunCompleted =>
          if Json.GetStr(e.payload, "status") != Some("interrupted") {
            active := false;
          }
        case AgentRunAborted => active := false;
        case RecoveryContinued => active := false;
        case RecoveryAbandoned => active := false;
        case Unknown(name) =>
          if name == "force_terminated" {
            active := false;
          }
        case _ =>
      }
    }
    assert events[..|events|] == events;
  }

  /** The actor of the source, with the log of the ledger it writes to. */
  class Actor {
    const env: Env
    var log: seq<Event>
    var attempts: nat
    var sequence: nat
    const pause: Pause.PauseController
    var uiConnected: bool
    var requiresRecovery: bool
    var approvals: Approvals

    function View(): Core
      reads this, pause
    {
      Core(log, attempts, sequence, pause.View(), uiConnected, requiresRecovery, approvals)
    }

    constructor (env: Env, log: seq<Event>, attempts: nat, pause: Pause.PauseController, requiresRecovery: bool,
                 approvals: Approvals)
      ensures this.env == env && this.pause == pause
      ensures View() == Core(log, attempts, Latest(log), pause.View(), pause.state.Running? && !requiresRecovery,
                             requiresRecovery, approvals)
    {
      this.env, this.log, this.attempts, sequence := env, log, attempts, Latest(log);
      this.pause, uiConnected := pause, pause.state.Running? && !requiresRecovery;
      this.requiresRecovery, this.approvals := requiresRecovery, approvals;
    }

    static method Restart(env: Env, log: seq<Event>, attempts: nat) returns (r: Result<Actor, ReplayError>)
      ensures match TryNew(env, log, attempts)
              case Ok(core) =>
                r.Ok? && fresh(r.value) && fresh(r.value.pause) && r.value.env == env && r.value.View() == core
              case Err(error) => r == Err(error)
    {
      var pause := Pause.PauseController.FromEvents(log);
      var approvals := ReplayApprovals(env, log);
      if approvals.Err? {
        return Err(approvals.error);
      }
      var recovery := RecoveryIsRequired(log);
      var actor := new Actor(env, log, attempts, pause, recovery, approvals.value);
      return Ok(actor);
    }

    method AppendEvent(e: Event) returns (ok: bool)
      modifies this
      ensures (View(), ok) == AppendEnvelope(env, old(View()), e)
    {
      ok := env.fate(attempts);
      attempts := attempts + 1;
      if !ok {
        return;
      }
      log := log + [e];
      match e.kind {
        case AgentRunStarted => requiresRecovery := true;
        case AgentRunCompleted =>
          if Json.GetStr(e.payload, "status") != Some("interrupted") {
            requiresRecovery := false;
          }
        case AgentRunAborted => requiresRecovery := false;
        case RecoveryContinued => requiresRecovery := false;
        case RecoveryAbandoned => requiresRecovery := false;
        case Unknown(name) =>
          if name == "force_terminated" {
            requiresRecovery := false;
          }
        case _ =>
      }
      sequence := e.sequence;
    }

    method Mint(kind: Kind, payload: Json.Value) returns (ok: bool)
      modifies this
      ensures (View(), ok) == Append(env, old(View()), kind, payload)
    {
      ok := AppendEvent(Envelope(env, View(), kind, payload));
    }

    method Gate(policy: Policy, intended: Approval.ActionClass, request: Option<Approval.Request>)
      returns (r: Result<Gate, Error>)
      modifies this, pause
      ensures (View(), r) == GateAction(env, old(View()), policy, intended, request)
    {
      match policy {
        case Allow => return Ok(Ready);
        case RequireApproval(digest) =>
          if request.None? {
            return Err(MissingApprovalRequest);
          }
          var a := request.value;
          if a.subject.mission != env.mission || a.subject.route != env.route || a.subject.actionDigest != digest
             || a.subject.actionClass != intended {
            return Err(ApprovalBindingMismatch);
          }
          var ok := Mint(ApprovalRequested, Json.Object(map["approval" := env.encode(a)]));
          if !ok {
            return Err(LedgerRefused);
          }
          approvals := approvals[a.id := a];
          return Ok(WaitingForApproval(a.id));
        case Stop =>
          var paused := SafePause("policy denied action dispatch");
          return if paused.Ok? then Ok(Halted) else Err(paused.error);
      }
    }

    method Resolve(caller: Caller, c: Command) returns (r: Result<Approval.State, Error>)
      modifies this
      ensures (View(), r) == ResolveApproval(env, old(View()), caller, c)
    {
      if c.id !in approvals {
        return Err(InvalidApprovalSubject);
      }
      var current := approvals[c.id];
      var subject := SubjectOf(current, c);
      if subject.None? {
        return Err(InvalidApprovalSubject);
      }
      var resolved := Resolved(current, ProtocolActor(caller), c, subject.value);
      if resolved.Err? {
        return Err(resolved.error);
      }
      var (next, kind) := resolved.value;
      var ok := Mint(kind, Json.Object(map["approval" := env.encode(next)]));
      if !ok {
        return Err(LedgerRefused);
      }
      approvals := approvals[c.id := next];
      return Ok(next.state);
    }

    method Authorize(id: string, subject: Approval.Subject, now: nat) returns (r: Result<(), Error>)
      modifies this
      ensures (View(), r) == AuthorizeApprovedAction(env, old(View()), id, subject, now)
    {
      if id !in approvals {
        return Err(InvalidApprovalSubject);
      }
      var before := approvals[id].state;
      var (next, authorized) := approvals[id].Authorize(subject, now);
      if authorized.Err? {
        return Err(ApprovalError(authorized.error));
      }
      if before != next.state {
        var ok := Mint(ApprovalConsumed, Json.Object(map["approval" := env.encode(next)]));
        if !ok {
          return Err(LedgerRefused);
        }
      }
      approvals := approvals[id := next];
      return Ok(());
    }

    method ApplySignals(signals: seq<Budget.Signal>) returns (r: Result<bool, Error>)
      modifies this, pause
      ensures (View(), r) == ApplyBudgetSignals(env, old(View()), signals)
    {
      var asked := false;
      for i := 0 to |signals|
        invariant asked == AsksToPause(signals[..i])
        invariant AppendSignals(env, old(View()), signals) == AppendSignals(env, View(), signals[i..])
      {
        assert signals[i..][1..] == signals[i + 1..] && signals[..i + 1] == signals[..i] + [signals[i]];
        AsksSnoc(signals[..i], signals[i]);
        asked := asked || signals[i].PauseAtSafeBoundary?;
        var ok := Mint(SignalKind(signals[i]), Json.Null);
        if !ok {
          return Err(LedgerRefused);
        }
      }
      assert signals[..|signals|] == signals;
      if asked {
        var paused := SafePause("mission budget reached at safe boundary");
        if paused.Err? {
          return Err(paused.error);
        }
      }
      return Ok(asked);
    }

    method CheckFlight(changed: bool) returns (r: Result<bool, Error>)
      modifies this, pause
      ensures (View(), r) == CheckFlightIdentity(env, old(View()), changed)
    {
      if !changed {
        return Ok(false);
      }
      var ok := Mint(FlightEnvelopeChanged, Json.Null);
      if !ok {
        return Err(LedgerRefused);
      }
      var paused := SafePause("flight envelope identity changed");
      return if paused.Ok? then Ok(true) else Err(paused.error);
    }

    method RevokeOpen(ids: seq<string>) returns (r: Result<(), Error>)
      modifies this
      ensures (View(), r) == RevokeEach(env, old(View()), ids)
    {
      for i := 0 to |ids|
        invariant RevokeEach(env, old(View()), ids) == RevokeEach(env, View(), ids[i..])
      {
        assert ids[i..][0] == ids[i] && ids[i..][1..] == ids[i + 1..];
        if ids[i] !in approvals {
          return Err(InvalidApprovalSubject);
        }
        var (next, revoked) := approvals[ids[i]].RevokeForLoadoutChange();
        if revoked.Err? {
          return Err(ApprovalError(revoked.error));
        }
        var ok := Mint(ApprovalRevoked, Json.Object(map["approval" := env.encode(next)]));
        if !ok {
          return Err(LedgerRefused);
        }
        approvals := approvals[ids[i] := next];
      }
      return Ok(());
    }

    method CheckLoadout(previous: string, next: string) returns (r: Result<bool, Error>)
      modifies this, pause
      ensures (View(), r) == CheckLoadoutChange(env, old(View()), previous, next)
    {
      if Text.Blank(previous) || Text.Blank(next) || previous == next {
        return Ok(false);
      }
      var revoked := RevokeOpen(OpenIds(approvals, env.order(attempts, approvals)));
      if revoked.Err? {
        return Err(revoked.error);
      }
      var ok := Mint(LoadoutChanged, Json.Null);
      if !ok {
        return Err(LedgerRefused);
      }
      var paused := SafePause("provider loadout changed");
      return if paused.Ok? then Ok(true) else Err(paused.error);
    }

    method RecordAgent(e: AgentEvent) returns (r: Result<(), Error>)
      modifies this
      ensures (View(), r) == RecordAgentEvent(env, old(View()), e)
    {
      var carried := Carried(env, e);
      var ok := AppendEvent(AgentEnvelope(env, View(), e));
      if !ok {
        return Err(LedgerRefused);
      }
      if carried.Some? {
        approvals := approvals[carried.value.id := carried.value];
      }
      return Ok(());
    }

    method Record(kind: Kind, payload: Json.Value) returns (r: Result<(), Error>)
      modifies this
      ensures (View(), r) == RecordEvent(env, old(View()), kind, payload)
    {
      var ok := Mint(kind, payload);
      return if ok then Ok(()) else Err(LedgerRefused);
    }

    method Recover(decision: string, manifest: Json.Value) returns (r: Result<(), Error>)
      modifies this
      ensures (View(), r) == ResolveRecovery(env, old(View()), decision, manifest)
    {
      if !requiresRecovery {
        return Err(RecoveryNotRequired);
      }
      if decision != "continue" && decision != "abandon" {
        return Err(RecoveryDecisionInvalid);
      }
      var ok := Mint(if decision == "continue" then RecoveryContinued else RecoveryAbandoned, manifest);
      return if ok then Ok(()) else Err(LedgerRefused);
    }

    method SafePause(reason: string) returns (r: Result<(), Error>)
      modifies this, pause
      ensures (View(), r) == RequestSafePause(env, old(View()), reason)
    {
      var moved := pause.Request(reason);
      if moved.Err? {
        return Err(PauseError(moved.error));
      }
      var ok := Mint(PauseRequested, Json.Object(map["reason" := Json.String(reason)]));
      return if ok then Ok(()) else Err(LedgerRefused);
    }

    method Acknowledge() returns (r: Result<(), Error>)
      modifies this, pause
      ensures (View(), r) == AcknowledgePause(env, old(View()))
    {
      var moved := pause.Acknowledge();
      if moved.Err? {
        return Err(PauseError(moved.error));
      }
      var ok := Mint(Unknown("pause_acknowledged"), Json.Null);
      return if ok then Ok(()) else Err(LedgerRefused);
    }

    method Timeout() returns (r: Result<string, Error>)
      modifies this, pause
      ensures (View(), r) == IssueForceToken(env, old(View()))
    {
      var moved := pause.Timeout();
      if moved.Err? {
        return Err(PauseError(moved.error));
      }
      r := RecordToken(moved.value);
    }

    method RecordToken(moved: Pause.Transition) returns (r: Result<string, Error>)
      modifies this
      ensures if moved.token.None? then View() == old(View()) && r == Err(PauseError(Pause.InvalidState))
              else if moved.from == moved.to then View() == old(View()) && r == Ok(moved.token.value)
              else var (s, ok) := Append(env, old(View()), Unknown("pause_timed_out"), Json.Null);
                   View() == s && r == if ok then Ok(moved.token.value) else Err(LedgerRefused)
    {
      if moved.token.None? {
        return Err(PauseError(Pause.InvalidState));
      }
      if moved.from != moved.to {
        var ok := Mint(Unknown("pause_timed_out"), Json.Null);
        if !ok {
          return Err(LedgerRefused);
        }
      }
      return Ok(moved.token.value);
    }

    method RequestForce() returns (r: Result<string, Error>)
      modifies this, pause
      ensures (View(), r) == RequestForceTermination(env, old(View()))
    {
      if pause.state.Running? {
        var paused := SafePause("user requested force termination");
        if paused.Err? {
          return Err(paused.error);
        }
      }
      var moved := pause.ForceToken();
      if moved.Err? {
        return Err(PauseError(moved.error));
      }
      r := RecordToken(moved.value);
    }

    method Terminate(token: string, killed: bool) returns (r: Result<(), Error>)
      modifies this, pause
      ensures (View(), r) == ForceTerminate(env, old(View()), token, killed)
    {
      if pause.state != Pause.ForceTerminationAvailable(token) {
        return Err(PauseError(Pause.InvalidConfirmationToken));
      }
      if !killed {
        var noted := Mint(Unknown("termination_failed"), Json.Null);
        return Err(TerminationFailed);
      }
      var moved := pause.ForceTerminate(token);
      assert moved.Ok?;
      var ok := Mint(Unknown("force_terminated"), Json.Null);
      return if ok then Ok(()) else Err(LedgerRefused);
    }

    method Connect(connected: bool) returns (r: Result<(), Error>)
      modifies this, pause
      ensures (View(), r) == SetUiConnected(env, old(View()), connected)
    {
      uiConnected := connected;
      if !connected && pause.state.Running? {
        r := SafePause("ui disconnected");
      } else {
        r := Ok(());
      }
    }
  }

  lemma AsksSnoc(signals: seq<Budget.Signal>, signal: Budget.Signal)
    ensures AsksToPause(signals + [signal]) == (AsksToPause(signals) || signal.PauseAtSafeBoundary?)
  {
    if AsksToPause(signals) {
      var i :| 0 <= i < |signals| && signals[i].PauseAtSafeBoundary?;
      assert (signals + [signal])[i] == signals[i];
    }
    assert (signals + [signal])[|signals|] == signal;
  }
}
