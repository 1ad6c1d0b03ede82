/** Routes: domain events minted by a route at one version and applied, if at all, at that version. */
module Route {
  import opened Wrappers
  import Text

  datatype State =
    | Draft | ReadOnlyExploration | AwaitingPlanApproval | Executing | Verifying
    | AwaitingAcceptance | Completed | Paused | Blocked | Abandoned

  predicate Terminal(s: State) {
    s == Completed || s == Abandoned
  }

  datatype Approval = Approval(actor: string, decision: string, evidence: seq<string>) {
    predicate IsAcceptance() {
      decision == "accept" && !Text.Blank(actor) && evidence != []
    }
  }

  datatype CriterionStatus = Verified | PartiallyVerified | Unverified | NotApplicable

  datatype Criterion = Criterion(id: string, description: string, status: CriterionStatus, evidence: seq<string>)

  datatype EvidenceMatrix = EvidenceMatrix(criteria: seq<Criterion>) {
    predicate IsComplete() {
      criteria != [] && forall i :: 0 <= i < |criteria| ==> criteria[i].status in {Verified, NotApplicable}
    }
  }

  datatype Abandonment = Abandonment(checkpoint: string, reason: string, failures: seq<string>, reusable: seq<string>) {
    predicate Complete() {
      !Text.Blank(checkpoint) && !Text.Blank(reason) && failures != []
    }
  }

  datatype Acceptance = Acceptance(approval: Approval, matrix: EvidenceMatrix)

  datatype Event =
    | Transitioned(routeId: string, from: State, to: State, expectedVersion: nat, acceptance: Option<Acceptance>)
    | Abandoning(routeId: string, from: State, expectedVersion: nat, metadata: Abandonment)

  datatype Error = InvalidTransition(from: State, to: State) | InvalidAbandonment | InvalidDerivation

  predicate Allowed(from: State, to: State) {
    match from
    case Draft => to == ReadOnlyExploration || to == Paused
    case ReadOnlyExploration => to == AwaitingPlanApproval || to == Paused
    case AwaitingPlanApproval => to == Executing || to == Paused
    case Executing => to == Verifying || to == Paused || to == Blocked
    case Verifying => to == AwaitingAcceptance || to == Paused || to == Blocked
    case AwaitingAcceptance => to == Completed || to == Paused
    case Paused => to == Executing
    case Blocked => to == Executing
    case Completed => false
    case Abandoned => false
  }

  /** A route's fields at one moment. */
  datatype Snapshot = Snapshot(
    routeId: string,
    state: State,
    version: nat,
    derivedFrom: Option<string>,
    abandonment: Option<Abandonment>,
    finalApproval: Option<Approval>,
    matrix: EvidenceMatrix)
  {
    // ---------- the event constructors: they change nothing ----------

    function Transition(target: State): Result<Event, Error> {
      if target == Completed || !Allowed(state, target) then Err(InvalidTransition(state, target))
      else Ok(Transitioned(routeId, state, target, version, None))
    }

    function CompleteWithEvidence(approval: Approval, evidence: EvidenceMatrix): Result<Event, Error> {
      if state != AwaitingAcceptance || !approval.IsAcceptance() || !evidence.IsComplete()
      then Err(InvalidTransition(state, Completed))
      else Ok(Transitioned(routeId, state, Completed, version, Some(Acceptance(approval, evidence))))
    }

    function Abandon(metadata: Abandonment): Result<Event, Error> {
      if Terminal(state) || !metadata.Complete() then Err(InvalidAbandonment)
      else Ok(Abandoning(routeId, state, version, metadata))
    }

    /** The event came out of one of the three constructors of this route at this moment. */
    ghost predicate Mints(e: Event) {
      || (exists target :: Transition(target) == Ok(e))
      || (exists approval, evidence :: CompleteWithEvidence(approval, evidence) == Ok(e))
      || (exists metadata :: Abandon(metadata) == Ok(e))
    }

    // ---------- applying an event ----------

    predicate Accepts(e: Event) {
      && e.routeId == routeId && e.from == state && e.expectedVersion == version
      && match e
         case Transitioned(_, _, to, _, acceptance) =>
           && (to == Completed <==> acceptance.Some?)
           && (acceptance.Some? ==> acceptance.value.approval.IsAcceptance() && acceptance.value.matrix.IsComplete())
         case Abandoning(_, _, _, _) => !Terminal(state)
    }

    /** The route after an event it accepts. */
    function Applied(e: Event): Snapshot {
      match e
      case Transitioned(_, _, to, _, Some(a)) =>
        this.(state := to, version := version + 1, finalApproval := Some(a.approval), matrix := a.matrix)
      case Transitioned(_, _, to, _, None) => this.(state := to, version := version + 1)
      case Abandoning(_, _, _, metadata) =>
        this.(state := Abandoned, version := version + 1, abandonment := Some(metadata))
    }

    function Apply(e: Event): Snapshot {
      if Accepts(e) then Applied(e) else this
    }
  }

  function New(routeId: string): Snapshot {
    Snapshot(routeId, Draft, 0, None, None, None, EvidenceMatrix([]))
  }

  function Derived(routeId: string, source: Snapshot): Result<Snapshot, Error> {
    if source.state != Abandoned || source.abandonment.None? then Err(InvalidDerivation)
    else Ok(New(routeId).(derivedFrom := Some(source.routeId)))
  }

  /** The mutable route of the source. */
  class Route {
    const routeId: string
    var state: State
    var version: nat
    const derivedFrom: Option<string>
    var abandonment: Option<Abandonment>
    var finalApproval: Option<Approval>
    var matrix: EvidenceMatrix

    function View(): Snapshot
      reads this
    {
      Snapshot(routeId, state, version, derivedFrom, abandonment, finalApproval, matrix)
    }

    constructor (s: Snapshot)
      ensures View() == s
    {
      routeId, state, version, derivedFrom := s.routeId, s.state, s.version, s.derivedFrom;
      abandonment, finalApproval, matrix := s.abandonment, s.finalApproval, s.matrix;
    }

    method ApplyTransition(e: Event) returns (r: Result<(), Error>)
      requires e.Transitioned?
      modifies this
      ensures View() == old(View()).Apply(e)
      ensures r == if old(View()).Accepts(e) then Ok(()) else Err(InvalidTransition(old(state), e.to))
    {
      if e.routeId != routeId || e.from != state || e.expectedVersion != version
         || (e.to == Completed) != e.acceptance.Some?
      {
        return Err(InvalidTransition(state, e.to));
      }
      if e.acceptance.Some? {
        var a := e.acceptance.value;
        if !a.approval.IsAcceptance() || !a.matrix.IsComplete() {
          return Err(InvalidTransition(state, e.to));
        }
        finalApproval := Some(a.approval);
        matrix := a.matrix;
      }
      state := e.to;
      version := version + 1;
      return Ok(());
    }

    method ApplyAbandonment(e: Event) returns (r: Result<(), Error>)
      requires e.Abandoning?
      modifies this
      ensures View() == old(View()).Apply(e)
      ensures r == if old(View()).Accepts(e) then Ok(()) else Err(InvalidAbandonment)
    {
      if e.routeId != routeId || e.from != state || e.expectedVersion != version || Terminal(state) {
        return Err(InvalidAbandonment);
      }
      state := Abandoned;
      abandonment := Some(e.metadata);
      version := version + 1;
      return Ok(());
    }
  }

  // ---------- every run ----------

  /** Every value the route has had, oldest first. */
  type Past = h: seq<Snapshot> | h != [] witness [New("")]

  function Now(past: Past): Snapshot {
    past[|past| - 1]
  }

  /** Delivering an event: a new value is recorded only when the route changes. */
  function Deliver(past: Past, e: Event): Past {
    if Now(past).Accepts(e) then past + [Now(past).Applied(e)] else past
  }

  /** The event was minted by the route at some earlier moment. */
  ghost predicate Minted(past: Past, e: Event) {
    exists i :: 0 <= i < |past| && past[i].Mints(e)
  }

  /** A run: each event delivered was minted before its delivery; the same event may come again and again. */
  ghost predicate Run(past: Past, events: seq<Event>, end: Past)
    decreases |events|
  {
    if events == [] then end == past
    else Minted(past, events[0]) && Run(Deliver(past, events[0]), events[1..], end)
  }

  /** One legitimate step between consecutive values. */
  predicate Follows(s: Snapshot, t: Snapshot) {
    && t.routeId == s.routeId && t.derivedFrom == s.derivedFrom && t.version == s.version + 1
    && !Terminal(s.state)
    && if t.state == Abandoned then
         t.abandonment.Some? && t.abandonment.value.Complete() && t.finalApproval == s.finalApproval
         && t.matrix == s.matrix
       else
         && Allowed(s.state, t.state) && t.abandonment == s.abandonment
         && if t.state == Completed
            then t.finalApproval.Some? && t.finalApproval.value.IsAcceptance() && t.matrix.IsComplete()
            else t.finalApproval == s.finalApproval && t.matrix == s.matrix
  }

  /** From a fresh draft, step by step; the version of a value is its place in the history. */
  predicate Lawful(past: Past) {
    && past[0] == New(past[0].routeId).(derivedFrom := past[0].derivedFrom)
    && (forall i :: 0 <= i < |past| ==> past[i].version == i)
    && (forall i :: 0 < i < |past| ==> Follows(past[i - 1], past[i]))
  }

  /** A minted event fits only the version that minted it, and there it is a lawful step. */
  lemma MintedFits(s: Snapshot, e: Event)
    requires s.Mints(e)
    ensures e.expectedVersion == s.version && s.Accepts(e) && Follows(s, s.Applied(e))
  {
  }

  /** An event for another version changes nothing. */
  lemma StaleChangesNothing(past: Past, e: Event)
    requires e.expectedVersion != Now(past).version
    ensures Deliver(past, e) == past
  {
  }

  lemma DeliverKeepsLawful(past: Past, e: Event)
    requires Lawful(past) && Minted(past, e)
    ensures Lawful(Deliver(past, e))
    ensures |Deliver(past, e)| <= |past| + 1 && past <= Deliver(past, e)
  {
    var i :| 0 <= i < |past| && past[i].Mints(e);
    MintedFits(past[i], e);
  }

  /** After delivery the event is spent: its version is past, so it never applies again. */
  lemma DeliveredOnce(past: Past, e: Event, end: Past)
    requires Lawful(past) && Minted(past, e) && Lawful(end) && Deliver(past, e) <= end
    ensures Deliver(end, e) == end
  {
    var i :| 0 <= i < |past| && past[i].Mints(e);
    MintedFits(past[i], e);
  }

  /** Every run from a lawful history ends in one that extends it. */
  lemma {:induction false} RunLawful(past: Past, events: seq<Event>, end: Past)
    requires Lawful(past) && Run(past, events, end)
    ensures Lawful(end) && past <= end
    decreases |events|
  {
    if events != [] {
      DeliverKeepsLawful(past, events[0]);
      RunLawful(Deliver(past, events[0]), events[1..], end);
    }
  }

  /** A value with a successor is not terminal: Completed and Abandoned are never left. */
  lemma TerminalNeverLeft(past: Past, i: nat)
    requires Lawful(past) && i + 1 < |past|
    ensures !Terminal(past[i].state)
  {
    assert Follows(past[i + 1 - 1], past[i + 1]);
  }

  lemma {:induction false} AbandonedHasMetadata(past: Past, i: nat)
    requires Lawful(past) && i < |past|
    ensures past[i].state == Abandoned <==> past[i].abandonment.Some?
    ensures past[i].state == Abandoned ==> past[i].abandonment.value.Complete()
  {
    if i > 0 {
      AbandonedHasMetadata(past, i - 1);
      assert Follows(past[i - 1], past[i]);
    }
  }

  /** A completed route was accepted with complete evidence, after executing, verifying and awaiting acceptance. */
  lemma CompletedWasAccepted(past: Past)
    requires Lawful(past) && Now(past).state == Completed
    ensures Now(past).finalApproval.Some? && Now(past).finalApproval.value.IsAcceptance()
            && Now(past).matrix.IsComplete()
    ensures |past| >= 4
    ensures past[|past| - 4].state == Executing && past[|past| - 3].state == Verifying
    ensures past[|past| - 2].state == AwaitingAcceptance
  {
    var n := |past| - 1;
    assert n > 0 && Follows(past[n - 1], past[n]);
    assert n > 1 && Follows(past[n - 2], past[n - 1]);
    assert n > 2 && Follows(past[n - 3], past[n - 2]);
  }

  /** A route can be derived from exactly when it was abandoned. */
  lemma DerivableIffAbandoned(past: Past, routeId: string)
    requires Lawful(past)
    ensures Derived(routeId, Now(past)).Ok? <==> Now(past).state == Abandoned
    ensures Derived(routeId, Now(past)).Ok? ==> Lawful([Derived(routeId, Now(past)).value])
  {
    AbandonedHasMetadata(past, |past| - 1);
  }
}
