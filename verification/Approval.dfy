/** Approval requests: who may resolve them, when they authorize an action, and how far they can change. */
module Approval {
  import opened Wrappers
  import Text

  datatype ActionClass =
    | Read | Write | Test | Build | DependencyInstall | NetworkAccess | CredentialAccess | ContractChange
    | ProviderChange | GitPush | GitMerge | Deploy | PermanentDelete | UnknownAction

  datatype State = Pending | Approved | Denied | Expired | Revoked | Consumed

  datatype Actor = User | Supervisor | Agent

  datatype Action = Approve | Deny

  datatype Scope = Once | RouteActionClass(covered: ActionClass)

  datatype Subject = Subject(
    mission: string,
    route: string,
    actionDigest: string,
    actionClass: ActionClass,
    contractVersion: nat,
    loadoutFingerprint: string)

  datatype Resolution = Resolution(
    id: string,
    expectedRevision: nat,
    actor: Actor,
    decision: Action,
    subject: Subject,
    now: nat)

  datatype Error =
    | ForbiddenActor | InvalidRequest | ApprovalMismatch | RevisionConflict(expected: nat, actual: nat)
    | NotPending | NotApproved | HasExpired | ContextMismatch | NotRevocable

  /** Everything but the action itself agrees. */
  predicate SameContext(a: Subject, b: Subject) {
    && a.mission == b.mission && a.route == b.route && a.contractVersion == b.contractVersion
    && a.loadoutFingerprint == b.loadoutFingerprint && a.actionClass == b.actionClass
  }

  datatype Request = Request(
    id: string,
    subject: Subject,
    scope: Scope,
    requestedBy: Actor,
    resolvedBy: Option<Actor>,
    expiresAt: nat,
    state: State,
    revision: nat)
  {
    function Moved(to: State, actor: Option<Actor>): Request {
      this.(state := to, resolvedBy := actor, revision := revision + 1)
    }

    predicate Open() {
      state.Pending? || state.Approved?
    }

    function SetScope(scope: Scope): (Request, Result<(), Error>) {
      if !state.Pending? then (this, Err(NotPending)) else (this.(scope := scope), Ok(()))
    }

    function Resolve(r: Resolution): (Request, Result<(), Error>) {
      if r.id != id then (this, Err(ApprovalMismatch))
      else if r.expectedRevision != revision then (this, Err(RevisionConflict(r.expectedRevision, revision)))
      else if !r.actor.User? then (this, Err(ForbiddenActor))
      else if !state.Pending? then (this, Err(NotPending))
      else if r.now >= expiresAt then (Moved(Expired, None), Err(HasExpired))
      else if !SameContext(subject, r.subject) || r.subject.actionDigest != subject.actionDigest
      then (this, Err(ContextMismatch))
      else (Moved(if r.decision.Approve? then Approved else Denied, Some(r.actor)), Ok(()))
    }

    function Authorize(s: Subject, now: nat): (Request, Result<(), Error>) {
      if !state.Approved? then (this, Err(NotApproved))
      else if now >= expiresAt then (Moved(Expired, resolvedBy), Err(HasExpired))
      else if !SameContext(subject, s) then (this, Err(ContextMismatch))
      else match scope
        case Once =>
          if s.actionDigest != subject.actionDigest then (this, Err(ContextMismatch))
          else (Moved(Consumed, resolvedBy), Ok(()))
        case RouteActionClass(c) => (this, if s.actionClass == c then Ok(()) else Err(ContextMismatch))
    }

    function Revoke(actor: Actor): (Request, Result<(), Error>) {
      if !actor.User? then (this, Err(ForbiddenActor))
      else if !Open() then (this, Err(NotRevocable))
      else (Moved(Revoked, Some(actor)), Ok(()))
    }

    function RevokeForLoadoutChange(): (Request, Result<(), Error>) {
      if !Open() then (this, Err(NotRevocable)) else (Moved(Revoked, Some(Supervisor)), Ok(()))
    }

    function Expire(now: nat): (Request, bool) {
      if Open() && now >= expiresAt then (Moved(Expired, resolvedBy), true) else (this, false)
    }
  }

  /** The id and the data a request is bound to are all named. */
  predicate Bound(id: string, subject: Subject) {
    !Text.Blank(id) && !Text.Blank(subject.actionDigest) && !Text.Blank(subject.loadoutFingerprint)
  }

  function New(id: string, subject: Subject, scope: Scope, requestedBy: Actor, expiresAt: nat): Result<Request, Error> {
    if !requestedBy.Supervisor? then Err(ForbiddenActor)
    else if !Bound(id, subject) then Err(InvalidRequest)
    else Ok(Request(id, subject, scope, requestedBy, None, expiresAt, Pending, 0))
  }

  /** The request as the source updates it, field by field. */
  class ApprovalRequest {
    const id: string
    const subject: Subject
    var scope: Scope
    const requestedBy: Actor
    var resolvedBy: Option<Actor>
    const expiresAt: nat
    var state: State
    var revision: nat

    function View(): Request
      reads this
    {
      Request(id, subject, scope, requestedBy, resolvedBy, expiresAt, state, revision)
    }

    constructor Of(r: Request)
      ensures View() == r
    {
      id, subject, scope, requestedBy := r.id, r.subject, r.scope, r.requestedBy;
      resolvedBy, expiresAt, state, revision := r.resolvedBy, r.expiresAt, r.state, r.revision;
    }

    method Transition(to: State, actor: Option<Actor>)
      modifies this
      ensures View() == old(View()).Moved(to, actor)
    {
      state := to;
      resolvedBy := actor;
      revision := revision + 1;
    }

    method SetScope(s: Scope) returns (r: Result<(), Error>)
      modifies this
      ensures (View(), r) == old(View()).SetScope(s)
    {
      if state != Pending {
        return Err(NotPending);
      }
      scope := s;
      return Ok(());
    }

    method Resolve(resolution: Resolution) returns (r: Result<(), Error>)
      modifies this
      ensures (View(), r) == old(View()).Resolve(resolution)
    {
      if resolution.id != id {
        return Err(ApprovalMismatch);
      }
      if resolution.expectedRevision != revision {
        return Err(RevisionConflict(resolution.expectedRevision, revision));
      }
      if resolution.actor != User {
        return Err(ForbiddenActor);
      }
      if state != Pending {
        return Err(NotPending);
      }
      if resolution.now >= expiresAt {
        Transition(Expired, None);
        return Err(HasExpired);
      }
      if !SameContext(subject, resolution.subject) || resolution.subject.actionDigest != subject.actionDigest {
        return Err(ContextMismatch);
      }
      Transition(if resolution.decision.Approve? then Approved else Denied, Some(resolution.actor));
      return Ok(());
    }

    method Authorize(s: Subject, now: nat) returns (r: Result<(), Error>)
      modifies this
      ensures (View(), r) == old(View()).Authorize(s, now)
    {
      if state != Approved {
        return Err(NotApproved);
      }
      if now >= expiresAt {
        Transition(Expired, resolvedBy);
        return Err(HasExpired);
      }
      if !SameContext(subject, s) {
        return Err(ContextMismatch);
      }
      match scope {
        case Once =>
          if s.actionDigest != subject.actionDigest {
            return Err(ContextMismatch);
          }
          Transition(Consumed, resolvedBy);
          return Ok(());
        case RouteActionClass(c) =>
          return if s.actionClass == c then Ok(()) else Err(ContextMismatch);
      }
    }

    method Revoke(actor: Actor) returns (r: Result<(), Error>)
      modifies this
      ensures (View(), r) == old(View()).Revoke(actor)
    {
      if actor != User {
        return Err(ForbiddenActor);
      }
      if state != Pending && state != Approved {
        return Err(NotRevocable);
      }
      Transition(Revoked, Some(actor));
      return Ok(());
    }

    method RevokeForLoadoutChange() returns (r: Result<(), Error>)
      modifies this
      ensures (View(), r) == old(View()).RevokeForLoadoutChange()
    {
      if state != Pending && state != Approved {
        return Err(NotRevocable);
      }
      Transition(Revoked, Some(Supervisor));
      return Ok(());
    }

    method Expire(now: nat) returns (expired: bool)
      modifies this
      ensures (View(), expired) == old(View()).Expire(now)
    {
      expired := (state == Pending || state == Approved) && now >= expiresAt;
      if expired {
        Transition(Expired, resolvedBy);
      }
    }
  }

  // ---------- every run of calls ----------

  datatype Call =
    | Scoping(scope: Scope)
    | Resolving(resolution: Resolution)
    | Authorizing(subject: Subject, now: nat)
    | Revoking(actor: Actor)
    | LoadoutChanging
    | Expiring(now: nat)

  /** A call's effect on the request, and whether it succeeded. */
  function Do(r: Request, call: Call): (Request, bool) {
    match call
    case Scoping(scope) => var (r', ok) := r.SetScope(scope); (r', ok.Ok?)
    case Resolving(resolution) => var (r', ok) := r.Resolve(resolution); (r', ok.Ok?)
    case Authorizing(subject, now) => var (r', ok) := r.Authorize(subject, now); (r', ok.Ok?)
    case Revoking(actor) => var (r', ok) := r.Revoke(actor); (r', ok.Ok?)
    case LoadoutChanging => var (r', ok) := r.RevokeForLoadoutChange(); (r', ok.Ok?)
    case Expiring(now) => r.Expire(now)
  }

  function Run(r: Request, calls: seq<Call>): Request {
    if calls == [] then r else Do(Run(r, calls[..|calls| - 1]), calls[|calls| - 1]).0
  }

  /** The number of calls that changed the state. */
  function Transitions(r: Request, calls: seq<Call>): nat {
    if calls == [] then 0
    else
      var n := |calls| - 1;
      Transitions(r, calls[..n]) + if Run(r, calls).state != Run(r, calls[..n]).state then 1 else 0
  }

  predicate Final(state: State) {
    !state.Pending? && !state.Approved?
  }

  /** What a request that was newly made looks like after any calls. */
  predicate Sound(r: Request) {
    match r.state
    case Pending => r.revision == 0 && r.resolvedBy == None
    case Approved => r.revision == 1 && r.resolvedBy == Some(User)
    case Denied => r.revision == 1 && r.resolvedBy == Some(User)
    case Expired => 1 <= r.revision <= 2 && r.resolvedBy == (if r.revision == 1 then None else Some(User))
    case Revoked => 1 <= r.revision <= 2 && r.resolvedBy.Some? && !r.resolvedBy.value.Agent?
    case Consumed => r.revision == 2 && r.resolvedBy == Some(User)
  }

  /** What no call changes. */
  predicate SameBinding(a: Request, b: Request) {
    a.id == b.id && a.subject == b.subject && a.requestedBy == b.requestedBy && a.expiresAt == b.expiresAt
  }

  /** How many more changes of state are possible. */
  function Remaining(state: State): nat {
    match state
    case Pending => 2
    case Approved => 1
    case _ => 0
  }

  /** A call keeps the binding, and raises the revision exactly when it changes the state. */
  lemma DoCounts(r: Request, call: Call)
    ensures var r' := Do(r, call).0;
            var changed := if r'.state != r.state then 1 else 0;
            SameBinding(r, r') && r'.revision == r.revision + changed
            && Remaining(r'.state) + changed <= Remaining(r.state)
  {
  }

  lemma DoKeepsSound(r: Request, call: Call)
    requires Sound(r)
    ensures Sound(Do(r, call).0)
  {
  }

  /** A user's approval of this request, in time and in its own context. */
  predicate ApprovalOf(r: Request, call: Call) {
    && call.Resolving?
    && var made := call.resolution;
    && made.decision.Approve? && made.actor.User? && made.id == r.id && made.now < r.expiresAt
    && SameContext(r.subject, made.subject) && made.subject.actionDigest == r.subject.actionDigest
  }

  /** A request is approved after a call if it was before and the call did nothing, or the call approved it. */
  lemma ApprovedByCall(r: Request, call: Call)
    requires Do(r, call).0.state.Approved?
    ensures if r.state.Approved? then Do(r, call).0 == r else Do(r, call).1 && ApprovalOf(r, call)
  {
  }

  /** Revisions count transitions, at most two of them, whatever is called with whatever arguments. */
  lemma {:induction false} RevisionCountsTransitions(r: Request, calls: seq<Call>)
    ensures SameBinding(r, Run(r, calls)) && Run(r, calls).revision == r.revision + Transitions(r, calls)
    ensures Transitions(r, calls) + Remaining(Run(r, calls).state) <= Remaining(r.state) <= 2
  {
    if calls != [] {
      RevisionCountsTransitions(r, calls[..|calls| - 1]);
      DoCounts(Run(r, calls[..|calls| - 1]), calls[|calls| - 1]);
    }
  }

  /** State, revision and resolver stay in step. */
  lemma {:induction false} RunKeepsSound(r: Request, calls: seq<Call>)
    requires Sound(r)
    ensures Sound(Run(r, calls)) && Run(r, calls).revision <= 2
  {
    if calls != [] {
      RunKeepsSound(r, calls[..|calls| - 1]);
      DoKeepsSound(Run(r, calls[..|calls| - 1]), calls[|calls| - 1]);
    }
  }

  /** A final request is left exactly as it is by every further call, and none of them authorizes. */
  lemma {:induction false} FinalStays(r: Request, calls: seq<Call>)
    requires Final(r.state)
    ensures Run(r, calls) == r
    ensures forall call: Call :: Do(r, call) == (r, false)
  {
    if calls != [] {
      FinalStays(r, calls[..|calls| - 1]);
    }
  }

  /** The call at k succeeded in authorizing an action. */
  predicate AuthorizedAt(r: Request, calls: seq<Call>, k: nat)
    requires k < |calls|
  {
    calls[k].Authorizing? && Do(Run(r, calls[..k]), calls[k]).1
  }

  /** The call at j succeeded in approving the request. */
  predicate ApprovedAt(r: Request, calls: seq<Call>, j: nat)
    requires j < |calls|
  {
    ApprovalOf(r, calls[j]) && Do(Run(r, calls[..j]), calls[j]).1
  }

  /** An approved request was approved by one call and nothing has changed it since. */
  lemma {:induction false} ApprovedSince(r: Request, calls: seq<Call>) returns (j: nat)
    requires !r.state.Approved? && Run(r, calls).state.Approved?
    ensures j < |calls| && ApprovedAt(r, calls, j)
    ensures forall i :: j < i <= |calls| ==> Run(r, calls[..i]) == Run(r, calls)
  {
    var n := |calls| - 1;
    var front := calls[..n];
    assert calls[..|calls|] == calls;
    RevisionCountsTransitions(r, front);
    ApprovedByCall(Run(r, front), calls[n]);
    if Run(r, front).state.Approved? {
      j := ApprovedSince(r, front);
      assert calls[j] == front[j] && calls[..j] == front[..j];
      forall i | j < i <= n ensures Run(r, calls[..i]) == Run(r, calls) {
        assert calls[..i] == front[..i];
      }
    } else {
      j := n;
    }
  }

  /**
   * Unless the request was approved to begin with, every successful authorization follows a user's approval made
   * before expiry in the context it authorizes, with the request approved ever since, and is itself before expiry.
   */
  lemma AuthorizedWasApproved(r: Request, calls: seq<Call>, k: nat) returns (j: nat)
    requires !r.state.Approved? && k < |calls| && AuthorizedAt(r, calls, k)
    ensures j < k && ApprovedAt(r, calls, j)
    ensures SameContext(calls[j].resolution.subject, calls[k].subject) && calls[k].now < r.expiresAt
    ensures forall i :: j < i <= k ==> Run(r, calls[..i]) == Run(r, calls[..k])
    ensures match Run(r, calls[..k]).scope
            case Once => calls[k].subject.actionDigest == r.subject.actionDigest
            case RouteActionClass(c) => calls[k].subject.actionClass == c
  {
    var front := calls[..k];
    RevisionCountsTransitions(r, front);
    j := ApprovedSince(r, front);
    assert calls[j] == front[j] && calls[..j] == front[..j];
    forall i | j < i <= k ensures Run(r, calls[..i]) == Run(r, calls[..k]) {
      assert calls[..i] == front[..i];
    }
  }

  lemma {:induction false} RunSplit(r: Request, a: seq<Call>, b: seq<Call>)
    ensures Run(r, a + b) == Run(Run(r, a), b)
  {
    if b == [] {
      assert a + b == a;
    } else {
      var n := |b| - 1;
      RunSplit(r, a, b[..n]);
      assert (a + b)[..|a| + n] == a + b[..n] && (a + b)[|a| + n] == b[n];
    }
  }

  /** A request scoped to one action authorizes at most one: two authorizations mean the wider scope. */
  lemma OnceAuthorizesOnce(r: Request, calls: seq<Call>, j: nat, k: nat)
    requires j < k < |calls| && AuthorizedAt(r, calls, j) && AuthorizedAt(r, calls, k)
    ensures !Run(r, calls[..j]).scope.Once?
  {
    if Run(r, calls[..j]).scope.Once? {
      assert calls[..j + 1][..j] == calls[..j];
      var after := Run(r, calls[..j + 1]);
      RunSplit(r, calls[..j + 1], calls[j + 1..k]);
      assert calls[..j + 1] + calls[j + 1..k] == calls[..k];
      FinalStays(after, calls[j + 1..k]);
      assert false;
    }
  }

  /** A request comes from the supervisor, pending, bound to named data. */
  lemma NewIsPending(id: string, subject: Subject, scope: Scope, requestedBy: Actor, expiresAt: nat)
    ensures New(id, subject, scope, requestedBy, expiresAt).Ok? <==>
            requestedBy.Supervisor? && Bound(id, subject)
    ensures New(id, subject, scope, requestedBy, expiresAt).Ok? ==>
            var r := New(id, subject, scope, requestedBy, expiresAt).value;
            && r.state.Pending? && Sound(r)
            && r.id == id && r.subject == subject && r.scope == scope && r.expiresAt == expiresAt
  {
  }
}
