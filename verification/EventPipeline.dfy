/** The event pipeline: append to the ledger, then reduce; and what a restart would rebuild. */
module EventPipeline {
  import opened Wrappers
  import opened Machine
  import opened Events
  import Json
  import Ledger
  import ReadModel
  import Route
  import Sequences
  import Sorting

  datatype Failure = Refused(ledger: Ledger.Error) | Unprojectable(projection: ReadModel.Error)

  datatype Status = Running | Paused(reason: Failure)

  datatype Error =
    | LedgerError(ledger: Ledger.Error)
    | Projection(projection: ReadModel.Error)
    | IsPaused(reason: Failure)

  datatype Pipe = Pipe(rows: Ledger.Table, model: ReadModel.Model, status: Status)

  /** A projection result as the pipeline reports it. */
  function Reported(r: Result<ReadModel.Model, ReadModel.Error>): Result<ReadModel.Model, Error> {
    if r.Ok? then Ok(r.value) else Err(Projection(r.error))
  }

  /** What recovering a mission from a table gives. */
  function Recovered(c: Codec, t: Ledger.Table, mission: string): Result<ReadModel.Model, Error> {
    match Ledger.ReplayEvents(c, t, mission)
    case Err(error) => Err(LedgerError(error))
    case Ok(events) => Reported(ReadModel.Replay(c, events))
  }

  function Appended(c: Codec, p: Pipe, e: Event): (Pipe, Result<ReadModel.Model, Error>) {
    match p.status
    case Paused(reason) => (p, Err(IsPaused(reason)))
    case Running =>
      match Ledger.Append(c, p.rows, e)
      case Err(error) => (p.(status := Paused(Refused(error))), Err(LedgerError(error)))
      case Ok(rows) =>
        match ReadModel.Reduce(c, p.model, e)
        case Err(error) => (Pipe(rows, p.model, Paused(Unprojectable(error))), Err(Projection(error)))
        case Ok(model) => (Pipe(rows, model, Running), Ok(model))
  }

  /** The pipeline of the source, over a ledger it owns. */
  class Pipeline {
    const ledger: Ledger.EncryptedLedger
    var model: ReadModel.Model
    var status: Status

    ghost function View(): Pipe
      reads this, ledger
    {
      Pipe(ledger.rows, model, status)
    }

    constructor WithEmpty(ledger: Ledger.EncryptedLedger)
      ensures this.ledger == ledger && View() == Pipe(ledger.rows, ReadModel.EMPTY, Running)
    {
      this.ledger, model, status := ledger, ReadModel.EMPTY, Running;
    }

    constructor From(ledger: Ledger.EncryptedLedger, model: ReadModel.Model)
      ensures this.ledger == ledger && View() == Pipe(ledger.rows, model, Running)
    {
      this.ledger, this.model, status := ledger, model, Running;
    }

    static method Recover(ledger: Ledger.EncryptedLedger, mission: string) returns (r: Result<Pipeline, Error>)
      ensures r.Ok? <==> Recovered(ledger.codec, ledger.rows, mission).Ok?
      ensures r.Ok? ==> fresh(r.value) && r.value.ledger == ledger
                        && r.value.View() ==
                             Pipe(ledger.rows, Recovered(ledger.codec, ledger.rows, mission).value, Running)
      ensures r.Err? ==> Recovered(ledger.codec, ledger.rows, mission) == Err(r.error)
    {
      var events := Ledger.ReplayEvents(ledger.codec, ledger.rows, mission);
      if events.Err? {
        return Err(LedgerError(events.error));
      }
      var model := ReadModel.ReplayEvents(ledger.codec, events.value);
      if model.Err? {
        return Err(Projection(model.error));
      }
      var p := new Pipeline.From(ledger, model.value);
      return Ok(p);
    }

    method Append(e: Event) returns (r: Result<ReadModel.Model, Error>)
      modifies this, ledger
      ensures (View(), r) == Appended(ledger.codec, old(View()), e)
    {
      if status.Paused? {
        return Err(IsPaused(status.reason));
      }
      var appended := ledger.AppendEvent(e);
      if appended.Err? {
        status := Paused(Refused(appended.error));
        return Err(LedgerError(appended.error));
      }
      var next := ReadModel.Reduce(ledger.codec, model, e);
      if next.Err? {
        status := Paused(Unprojectable(next.error));
        return Err(Projection(next.error));
      }
      model := next.value;
      return Ok(model);
    }
  }

  // ---------- replay of numbered events is reduction in order ----------

  /** The event's sequence is its place in the list, from one. */
  predicate Placed(e: Event, i: int) {
    e.sequence == i + 1 <= I64_MAX
  }

  /** Events numbered 1..n with distinct ids, as an intact ledger returns them. */
  ghost predicate InOrder(es: seq<Event>) {
    && (forall i :: 0 <= i < |es| ==> Placed(es[i], i))
    && (forall i, j :: 0 <= i < j < |es| ==> es[i].id != es[j].id)
  }

  /** One more reduction, unless one has failed already. */
  function Then(c: Codec, before: Result<ReadModel.Model, ReadModel.Error>, e: Event)
    : Result<ReadModel.Model, ReadModel.Error>
  {
    if before.Ok? then ReadModel.Reduce(c, before.value, e) else before
  }

  function ReduceAll(c: Codec, es: seq<Event>): Result<ReadModel.Model, ReadModel.Error> {
    if es == [] then Ok(ReadModel.EMPTY) else Then(c, ReduceAll(c, es[..|es| - 1]), es[|es| - 1])
  }

  function Ids(es: seq<Event>): set<string> {
    set i | 0 <= i < |es| :: es[i].id
  }

  lemma {:induction false} FoldSnoc(c: Codec, p: ReadModel.Progress, es: seq<Event>, e: Event)
    ensures ReadModel.Fold(c, p, es + [e]) ==
            match ReadModel.Fold(c, p, es)
            case Err(error) => Err(error)
            case Ok(q) => ReadModel.Step(c, q, e)
    decreases |es|
  {
    if es == [] {
      assert es + [e] == [e];
      assert [e][1..] == [];
    } else {
      assert (es + [e])[1..] == es[1..] + [e];
      if ReadModel.Step(c, p, es[0]).Ok? {
        FoldSnoc(c, ReadModel.Step(c, p, es[0]).value, es[1..], e);
      }
    }
  }

  /** Where the fold stands after n numbered events. */
  ghost predicate AtEnd(p: ReadModel.Progress, es: seq<Event>) {
    && p.expected == |es| + 1
    && (forall n :: n in p.seen ==> n <= |es|)
    && p.model.applied == Ids(es)
    && !p.model.incomplete && p.model.missing == []
    && (es != [] ==> p.model.mission == Some(es[|es| - 1].mission))
    && (es == [] ==> p.model.mission == None)
  }

  lemma IdsSnoc(es: seq<Event>)
    requires es != []
    ensures Ids(es) == Ids(es[..|es| - 1]) + {es[|es| - 1].id}
  {
    var n := |es| - 1;
    assert forall i :: 0 <= i < n ==> es[i] == es[..n][i];
  }

  lemma AtEndStep(c: Codec, p: ReadModel.Progress, es: seq<Event>)
    requires es != [] && InOrder(es) && AtEnd(p, es[..|es| - 1])
    ensures var e := es[|es| - 1];
            match ReadModel.Step(c, p, e)
            case Err(error) => ReadModel.Reduce(c, p.model, e) == Err(error)
            case Ok(q) => ReadModel.Reduce(c, p.model, e) == Ok(q.model) && AtEnd(q, es)
  {
    var e := es[|es| - 1];
    IdsSnoc(es);
    if ReadModel.Reduce(c, p.model, e).Ok? {
      ReadModel.ReduceFrame(c, p.model, e);
    }
  }

  /** The fold and the plain reduction agree, and where the fold stands. */
  ghost predicate Agreed(c: Codec, folded: Result<ReadModel.Progress, ReadModel.Error>, es: seq<Event>) {
    match folded
    case Err(error) => ReduceAll(c, es) == Err(error)
    case Ok(p) => ReduceAll(c, es) == Ok(p.model) && AtEnd(p, es)
  }

  lemma NothingFolded(c: Codec)
    ensures Agreed(c, ReadModel.Fold(c, ReadModel.START, []), [])
  {
    assert Ids([]) == {};
  }

  lemma AgreedStep(c: Codec, before: Result<ReadModel.Progress, ReadModel.Error>, es: seq<Event>)
    requires es != [] && InOrder(es) && Agreed(c, before, es[..|es| - 1])
    ensures var e := es[|es| - 1];
            match before
            case Err(error) => Agreed(c, before, es)
            case Ok(p) => Agreed(c, ReadModel.Step(c, p, e), es)
  {
    if before.Ok? {
      AtEndStep(c, before.value, es);
    }
  }

  lemma InOrderFront(es: seq<Event>)
    requires es != [] && InOrder(es)
    ensures InOrder(es[..|es| - 1])
  {
  }

  lemma {:induction false} FoldInOrder(c: Codec, es: seq<Event>)
    requires InOrder(es)
    ensures Agreed(c, ReadModel.Fold(c, ReadModel.START, es), es)
  {
    if es == [] {
      NothingFolded(c);
    } else {
      var n := |es| - 1;
      var front := es[..n];
      InOrderFront(es);
      FoldInOrder(c, front);
      FoldSnoc(c, ReadModel.START, front, es[n]);
      assert es == front + [es[n]];
      AgreedStep(c, ReadModel.Fold(c, ReadModel.START, front), es);
    }
  }

  lemma {:induction false} SortInOrder(es: seq<Event>)
    requires forall i :: 0 <= i < |es| - 1 ==> es[i].sequence <= es[i + 1].sequence
    ensures Sorting.Sort(ReadModel.BySequence, es) == es
  {
    if es != [] {
      SortInOrder(es[1..]);
      assert es == [es[0]] + es[1..];
    }
  }

  /** The mission's events, as the ledger gives them back. */
  function History(c: Codec, t: Ledger.Table, mission: string): seq<Event> {
    match Ledger.RestoreAll(c, Ledger.Of(t, mission))
    case Some(events) => events
    case None => []
  }

  /** The events match the rows they were restored from. */
  ghost predicate Matches(es: seq<Event>, rows: Ledger.Table, mission: string) {
    |es| == |rows| && forall i :: 0 <= i < |es| ==>
      Placed(es[i], i) && es[i].id == rows[i].id && es[i].mission == mission
  }

  lemma MatchesInOrder(es: seq<Event>, rows: Ledger.Table, mission: string)
    requires Matches(es, rows, mission) && Ledger.UniqueIds(rows)
    ensures InOrder(es)
  {
    forall i, j | 0 <= i < j < |es| ensures es[i].id != es[j].id {
      assert rows[i].id != rows[j].id;
    }
  }

  lemma HistoryMatches(c: Codec, t: Ledger.Table, mission: string)
    requires Ledger.Intact(c, t)
    ensures Ledger.ReplayEvents(c, t, mission) == Ok(History(c, t, mission))
    ensures Matches(History(c, t, mission), Ledger.Of(t, mission), mission)
  {
    Ledger.ReplayIntact(c, t, mission);
    var rows, es := Ledger.Of(t, mission), History(c, t, mission);
    forall i | 0 <= i < |es| ensures Placed(es[i], i) && es[i].id == rows[i].id && es[i].mission == mission {
      var j := Ledger.OfFrom(t, mission, i);
      assert Ledger.RowOk(c, t[j]);
    }
  }

  lemma HistoryInOrder(c: Codec, t: Ledger.Table, mission: string)
    requires Ledger.Intact(c, t)
    ensures Ledger.ReplayEvents(c, t, mission) == Ok(History(c, t, mission))
    ensures Matches(History(c, t, mission), Ledger.Of(t, mission), mission) && InOrder(History(c, t, mission))
  {
    HistoryMatches(c, t, mission);
    OfUnique(t, mission);
    MatchesInOrder(History(c, t, mission), Ledger.Of(t, mission), mission);
  }

  lemma {:induction false} OfUnique(t: Ledger.Table, mission: string)
    requires Ledger.UniqueIds(t)
    ensures Ledger.UniqueIds(Ledger.Of(t, mission))
  {
    if t != [] {
      var front := t[..|t| - 1];
      OfUnique(front, mission);
      forall i | 0 <= i < |Ledger.Of(front, mission)| ensures Ledger.Of(front, mission)[i].id != t[|t| - 1].id {
        var j := Ledger.OfFrom(front, mission, i);
      }
    }
  }

  /** On an intact table recovery is plain reduction of the mission's events, in order. */
  lemma RecoveredIsReduction(c: Codec, t: Ledger.Table, mission: string)
    requires Ledger.Intact(c, t)
    ensures Recovered(c, t, mission) == Reported(ReduceAll(c, History(c, t, mission)))
    ensures Recovered(c, t, mission).Ok? ==>
              var model := Recovered(c, t, mission).value;
              && model.applied == Ids(History(c, t, mission))
              && (model.mission.Some? <==> Ledger.Of(t, mission) != [])
              && (model.mission.Some? ==> model.mission.value == mission)
  {
    var es := History(c, t, mission);
    HistoryInOrder(c, t, mission);
    assert forall i :: 0 <= i < |es| ==> Placed(es[i], i);
    SortInOrder(es);
    FoldInOrder(c, es);
  }

  // ---------- live and replayed agree ----------

  /** Recovering the mission from the pipeline's ledger would give the model it holds. */
  ghost predicate Agrees(c: Codec, p: Pipe, mission: string) {
    Ledger.Intact(c, p.rows) && Recovered(c, p.rows, mission) == Ok(p.model)
  }

  /** The ledger keeps the event's payload and kind as they are. */
  predicate Kept(c: Codec, e: Event) {
    c.redact(e.payload) == Some(e.payload) && Canonical(e.kind)
  }

  lemma ReduceKept(c: Codec, m: ReadModel.Model, e: Event)
    requires Ledger.Prepare(c, e).Ok? && Kept(c, e)
    ensures ReadModel.Reduce(c, m, Ledger.Persisted(c, e)) == ReadModel.Reduce(c, m, e)
  {
    StoredIff(e.kind);
  }

  lemma {:induction false} HeldIsApplied(t: Ledger.Table, id: string) returns (j: nat)
    requires Ledger.ById(t, id).Some?
    ensures j < |t| && t[j] == Ledger.ById(t, id).value && t[j].id == id
  {
    if t[|t| - 1].id == id {
      j := |t| - 1;
    } else {
      j := HeldIsApplied(t[..|t| - 1], id);
    }
  }

  /** An event the ledger holds already has its id among those applied. */
  lemma RedeliveredIsApplied(c: Codec, p: Pipe, e: Event)
    requires Agrees(c, p, e.mission) && Ledger.Prepare(c, e).Ok?
    requires Ledger.Holds(p.rows, Ledger.Prepare(c, e).value)
    ensures e.id in p.model.applied && p.model.mission == Some(e.mission)
  {
    var j := HeldIsApplied(p.rows, e.id);
    var i := Ledger.OfIndex(p.rows, j);
    RecoveredIsReduction(c, p.rows, e.mission);
    HistoryInOrder(c, p.rows, e.mission);
    assert History(c, p.rows, e.mission)[i].id == e.id;
  }

  lemma HistorySnoc(c: Codec, t: Ledger.Table, e: Event)
    requires c.RoundTrips() && Ledger.Prepare(c, e).Ok? && Ledger.Intact(c, t)
    ensures History(c, t + [Ledger.Prepare(c, e).value], e.mission) ==
              History(c, t, e.mission) + [Ledger.Persisted(c, e)]
  {
    var row := Ledger.Prepare(c, e).value;
    Ledger.RestorePrepared(c, e);
    Ledger.OfSnoc(t, row, e.mission);
    Ledger.ReplayIntact(c, t, e.mission);
    var rows := Ledger.Of(t, e.mission);
    assert (rows + [row])[..|rows|] == rows;
  }

  lemma ReduceAllSnoc(c: Codec, es: seq<Event>, e: Event)
    ensures ReduceAll(c, es + [e]) == Then(c, ReduceAll(c, es), e)
  {
    assert (es + [e])[..|es|] == es;
  }

  /** What recovery gives once a new event is in the table: one more reduction. */
  lemma RecoveredSnoc(c: Codec, t: Ledger.Table, e: Event, m: ReadModel.Model)
    requires c.RoundTrips() && Ledger.Prepare(c, e).Ok? && Ledger.Intact(c, t) && Recovered(c, t, e.mission) == Ok(m)
    requires Ledger.Intact(c, t + [Ledger.Prepare(c, e).value])
    ensures Recovered(c, t + [Ledger.Prepare(c, e).value], e.mission) ==
              Reported(ReadModel.Reduce(c, m, Ledger.Persisted(c, e)))
  {
    RecoveredIsReduction(c, t, e.mission);
    RecoveredIsReduction(c, t + [Ledger.Prepare(c, e).value], e.mission);
    HistorySnoc(c, t, e);
    ReduceAllSnoc(c, History(c, t, e.mission), Ledger.Persisted(c, e));
  }

  /** An event the ledger accepts as a redelivery changes neither the table nor the model. */
  lemma RedeliveryChangesNothing(c: Codec, p: Pipe, e: Event)
    requires Agrees(c, p, e.mission) && p.status.Running?
    requires Ledger.Append(c, p.rows, e).Ok? && Ledger.ById(p.rows, e.id).Some?
    ensures Appended(c, p, e) == (p, Ok(p.model))
  {
    RedeliveredIsApplied(c, p, e);
  }

  /** A new event the ledger accepts: recovery from the new table gives the reduction of what the ledger keeps of it. */
  lemma AcceptedRecovers(c: Codec, p: Pipe, e: Event)
    requires c.RoundTrips() && Agrees(c, p, e.mission) && p.status.Running?
    requires Ledger.Append(c, p.rows, e).Ok? && Ledger.ById(p.rows, e.id).None?
    ensures Ledger.Intact(c, Appended(c, p, e).0.rows)
    ensures Recovered(c, Appended(c, p, e).0.rows, e.mission) ==
              Reported(ReadModel.Reduce(c, p.model, Ledger.Persisted(c, e)))
  {
    var row := Ledger.Prepare(c, e).value;
    Ledger.RestorePrepared(c, e);
    Ledger.InsertKeepsIntact(c, p.rows, row);
    assert Appended(c, p, e).0.rows == p.rows + [row];
    RecoveredSnoc(c, p.rows, e, p.model);
  }

  lemma AppendedIntact(c: Codec, p: Pipe, e: Event)
    requires c.RoundTrips() && Ledger.Intact(c, p.rows)
    ensures Ledger.Intact(c, Appended(c, p, e).0.rows)
  {
    Ledger.AfterKeepsIntact(c, p.rows, Ledger.AppendOne(e));
  }

  lemma OwnEventKeepsAgreement(c: Codec, p: Pipe, e: Event)
    requires c.RoundTrips() && Agrees(c, p, e.mission) && Kept(c, e)
    ensures Appended(c, p, e).0.status.Running? ==> Agrees(c, Appended(c, p, e).0, e.mission)
  {
    if p.status.Running? && Ledger.Append(c, p.rows, e).Ok? {
      if Ledger.ById(p.rows, e.id).Some? {
        RedeliveryChangesNothing(c, p, e);
      } else {
        AcceptedRecovers(c, p, e);
        ReduceKept(c, p.model, e);
      }
    }
  }

  /** Another mission's event stops a pipeline that has a mission. */
  lemma ForeignEventPauses(c: Codec, p: Pipe, e: Event)
    requires p.model.mission.Some? && p.model.mission.value != e.mission
    ensures Appended(c, p, e).0.status.Paused? && Appended(c, p, e).0.model == p.model
  {
  }

  /** A pipeline that agrees with a mission's ledger has that mission, or none and nothing applied. */
  lemma AgreesOnMission(c: Codec, p: Pipe, mission: string)
    requires Agrees(c, p, mission)
    ensures if p.model.mission.Some? then p.model.mission.value == mission else p.model.applied == {}
  {
    RecoveredIsReduction(c, p.rows, mission);
    HistoryInOrder(c, p.rows, mission);
    assert Ids([]) == {};
  }

  /** After an append that succeeds the model has the mission of the event. */
  lemma AppendSetsMission(c: Codec, p: Pipe, e: Event, mission: string)
    requires Agrees(c, p, mission) && Appended(c, p, e).1.Ok?
    ensures Appended(c, p, e).0.model.mission == Some(e.mission)
    ensures p.model.mission.Some? ==> e.mission == mission
  {
    AgreesOnMission(c, p, mission);
    ReadModel.ReduceFrame(c, p.model, e);
  }

  /** An append that succeeds keeps agreement exactly when the event is the mission's own. */
  lemma AppendAgreesIff(c: Codec, p: Pipe, e: Event, mission: string)
    requires c.RoundTrips() && Agrees(c, p, mission) && Kept(c, e) && Appended(c, p, e).1.Ok?
    ensures Agrees(c, Appended(c, p, e).0, mission) <==> e.mission == mission
  {
    if e.mission == mission {
      OwnEventKeepsAgreement(c, p, e);
    } else {
      AppendSetsMission(c, p, e, mission);
      if Agrees(c, Appended(c, p, e).0, mission) {
        AgreesOnMission(c, Appended(c, p, e).0, mission);
      }
    }
  }

  /**
   * An event of another mission, appended first: the pipeline takes it and goes on running, with a model of that
   * mission where recovery finds nothing.
   */
  lemma StrayFirstDisagrees(c: Codec, e: Event, mission: string)
    requires c.RoundTrips() && c.HashMatches(e) && e.sequence == 1 && e.kind.MissionCreated?
    requires c.redact(e.payload) == Some(e.payload) && e.rawEvidence.None? && e.mission != mission
    ensures var p := Pipe([], ReadModel.EMPTY, Running);
            Agrees(c, p, mission) && Appended(c, p, e).1.Ok? && !Agrees(c, Appended(c, p, e).0, mission)
  {
    assert Ledger.Of([], mission) == [];
    EmptyAgreesIff(c, [], mission);
    FirstAccepted(c, e);
    AppendAgreesIff(c, Pipe([], ReadModel.EMPTY, Running), e, mission);
  }

  lemma UnheldIsNotApplied(c: Codec, p: Pipe, id: string, mission: string)
    requires Agrees(c, p, mission) && Ledger.ById(p.rows, id).None?
    ensures id !in p.model.applied
  {
    RecoveredIsReduction(c, p.rows, mission);
    HistoryInOrder(c, p.rows, mission);
    var rows := Ledger.Of(p.rows, mission);
    forall i | 0 <= i < |rows| ensures rows[i].id != id {
      var j := Ledger.OfFrom(p.rows, mission, i);
      Ledger.ByIdNone(p.rows, id, j);
    }
  }

  /**
   * When redaction keeps the payload, a newly accepted event keeps agreement exactly when its kind is not an
   * unknown kind that borrows a known name.
   */
  lemma AgreementIffCanonical(c: Codec, p: Pipe, e: Event)
    requires c.RoundTrips() && Agrees(c, p, e.mission) && c.redact(e.payload) == Some(e.payload)
    requires Appended(c, p, e).1.Ok? && Ledger.ById(p.rows, e.id).None?
    ensures Agrees(c, Appended(c, p, e).0, e.mission) <==> Canonical(e.kind)
  {
    AcceptedRecovers(c, p, e);
    assert ReadModel.Reduce(c, p.model, e) == Ok(Appended(c, p, e).0.model);
    if Canonical(e.kind) {
      ReduceKept(c, p.model, e);
    } else {
      UnheldIsNotApplied(c, p, e.id, e.mission);
      BorrowedNameDiffers(c, p.model, e);
    }
  }

  /** Live, an unknown kind is a warning that names it; by its borrowed name it never leaves that warning. */
  lemma BorrowedNameDiffers(c: Codec, m: ReadModel.Model, e: Event)
    requires Ledger.Prepare(c, e).Ok? && !Canonical(e.kind) && e.id !in m.applied && ReadModel.Reduce(c, m, e).Ok?
    ensures ReadModel.Reduce(c, m, Ledger.Persisted(c, e)) != ReadModel.Reduce(c, m, e)
  {
    var named := "unknown event kind: " + e.kind.name;
    var live := ReadModel.Reduce(c, m, e).value;
    assert live.warnings == m.warnings + [named];
    assert live.warnings[|m.warnings|] == named && named[0] == 'u';
    var stored := ReadModel.Reduce(c, m, Ledger.Persisted(c, e));
    assert stored.Ok? ==> stored.value.warnings == m.warnings
                          || stored.value.warnings == m.warnings + ["agent message cannot verify evidence"];
  }

  /** The first event of a mission is accepted by an empty ledger, and reduced if nothing in it needs decoding. */
  lemma FirstAccepted(c: Codec, e: Event)
    requires c.HashMatches(e) && e.sequence == 1 && c.redact(e.payload).Some? && e.rawEvidence.None?
    requires e.kind.Unknown? || e.kind.MissionCreated?
    ensures Appended(c, Pipe([], ReadModel.EMPTY, Running), e).1.Ok?
  {
    assert Ledger.Of([], e.mission) == [];
  }

  lemma AgentMessageIsTaken()
    ensures !Canonical(Unknown("agent_message"))
  {
  }

  /** One such event, first of its mission: live the model warns of an unknown kind, replayed of an agent message. */
  lemma BorrowedNameDisagrees(c: Codec, e: Event)
    requires c.RoundTrips() && c.HashMatches(e) && e.sequence == 1
    requires c.redact(e.payload) == Some(e.payload) && e.rawEvidence.None? && e.kind == Unknown("agent_message")
    ensures var p := Pipe([], ReadModel.EMPTY, Running);
            Agrees(c, p, e.mission) && Appended(c, p, e).1.Ok? && !Agrees(c, Appended(c, p, e).0, e.mission)
  {
    assert Ledger.Of([], e.mission) == [];
    EmptyAgreesIff(c, [], e.mission);
    FirstAccepted(c, e);
    AgreementIffCanonical(c, Pipe([], ReadModel.EMPTY, Running), e);
    AgentMessageIsTaken();
  }

  // ---------- whole runs ----------

  /** A run of appends. */
  function Run(c: Codec, p: Pipe, es: seq<Event>): Pipe
    decreases |es|
  {
    if es == [] then p else Run(c, Appended(c, p, es[0]).0, es[1..])
  }

  predicate AllKept(c: Codec, es: seq<Event>) {
    forall i :: 0 <= i < |es| ==> Kept(c, es[i])
  }

  /** The model has a mission already, or the first event gives it this one. */
  predicate StartsOn(p: Pipe, es: seq<Event>, mission: string) {
    es == [] || p.model.mission.Some? || es[0].mission == mission
  }

  /**
   * However many events are appended, new, redelivered, refused or of other missions: while the pipeline is running,
   * its model is what recovery from its ledger would rebuild, exactly if a pipeline without a mission was first
   * given an event of this one.
   */
  lemma RunAgreesIff(c: Codec, p: Pipe, es: seq<Event>, mission: string)
    requires c.RoundTrips() && Agrees(c, p, mission) && AllKept(c, es)
    ensures Run(c, p, es).status.Running? ==> (Agrees(c, Run(c, p, es), mission) <==> StartsOn(p, es, mission))
  {
    if es != [] {
      var p' := Appended(c, p, es[0]).0;
      RefusalPauses(c, p, es[0]);
      if p'.status.Paused? {
        PausedForever(c, p', es[1..]);
      } else {
        AllKeptTail(c, es);
        AppendSetsMission(c, p, es[0], mission);
        AppendAgreesIff(c, p, es[0], mission);
        RunFromMission(c, p', es[1..], mission);
      }
    }
  }

  lemma AllKeptTail(c: Codec, es: seq<Event>)
    requires es != [] && AllKept(c, es)
    ensures AllKept(c, es[1..])
  {
  }

  /** From a model that has a mission, agreement with a mission's ledger is neither lost nor gained. */
  lemma RunFromMission(c: Codec, p: Pipe, es: seq<Event>, mission: string)
    requires c.RoundTrips() && AllKept(c, es) && p.model.mission.Some?
    requires p.model.mission.value == mission <==> Agrees(c, p, mission)
    ensures Run(c, p, es).status.Running? ==> (Agrees(c, Run(c, p, es), mission) <==> Agrees(c, p, mission))
  {
    if p.model.mission.value == mission {
      OwnRunAgrees(c, p, es, mission);
    } else {
      StrayRunDisagrees(c, p, es, mission);
    }
  }

  /** Once the model has the mission, agreement lasts as long as the pipeline is running. */
  lemma {:induction false} OwnRunAgrees(c: Codec, p: Pipe, es: seq<Event>, mission: string)
    requires c.RoundTrips() && Agrees(c, p, mission) && AllKept(c, es) && p.model.mission.Some?
    ensures Run(c, p, es).status.Running? ==> Agrees(c, Run(c, p, es), mission)
    decreases |es|
  {
    if es != [] {
      var p' := Appended(c, p, es[0]).0;
      RefusalPauses(c, p, es[0]);
      if p'.status.Paused? {
        PausedForever(c, p', es[1..]);
      } else {
        AllKeptTail(c, es);
        AppendSetsMission(c, p, es[0], mission);
        AppendAgreesIff(c, p, es[0], mission);
        OwnRunAgrees(c, p', es[1..], mission);
      }
    }
  }

  /** A pipeline with another mission's model never comes to agree. */
  lemma {:induction false} StrayRunDisagrees(c: Codec, p: Pipe, es: seq<Event>, mission: string)
    requires p.model.mission.Some? && p.model.mission.value != mission
    ensures !Agrees(c, Run(c, p, es), mission)
    decreases |es|
  {
    if es == [] {
      if Agrees(c, p, mission) {
        AgreesOnMission(c, p, mission);
      }
    } else {
      ModelKeepsMission(c, p, es[0]);
      StrayRunDisagrees(c, Appended(c, p, es[0]).0, es[1..], mission);
    }
  }

  lemma ModelKeepsMission(c: Codec, p: Pipe, e: Event)
    ensures p.model.mission.Some? ==> Appended(c, p, e).0.model.mission == p.model.mission
  {
    if ReadModel.Reduce(c, p.model, e).Ok? {
      ReadModel.ReduceFrame(c, p.model, e);
    }
  }

  /** Once paused, every append of every run is refused with the reason of the pause and nothing changes. */
  lemma {:induction false} PausedForever(c: Codec, p: Pipe, es: seq<Event>)
    requires p.status.Paused?
    ensures Run(c, p, es) == p
    ensures forall e :: Appended(c, Run(c, p, es), e).1 == Err(IsPaused(p.status.reason))
    decreases |es|
  {
    if es != [] {
      PausedForever(c, p, es[1..]);
    }
  }

  /** Any refusal pauses: a pipeline that is still running has accepted everything. */
  lemma RefusalPauses(c: Codec, p: Pipe, e: Event)
    ensures Appended(c, p, e).1.Err? <==> Appended(c, p, e).0.status.Paused?
  {
  }

  /** Starting empty agrees with the ledger exactly when the ledger has nothing of the mission. */
  lemma EmptyAgreesIff(c: Codec, t: Ledger.Table, mission: string)
    requires Ledger.Intact(c, t)
    ensures Agrees(c, Pipe(t, ReadModel.EMPTY, Running), mission) <==> Ledger.Of(t, mission) == []
  {
    RecoveredIsReduction(c, t, mission);
    HistoryInOrder(c, t, mission);
  }

  /** A ledger with one event of the mission: an empty start over it does not agree. */
  lemma LateEmptyStartDisagrees(c: Codec, e: Event)
    requires c.RoundTrips() && c.HashMatches(e) && e.sequence == 1 && c.redact(e.payload).Some? && e.rawEvidence.None?
    ensures var t := Ledger.After(c, [], Ledger.AppendOne(e));
            Ledger.Intact(c, t) && !Agrees(c, Pipe(t, ReadModel.EMPTY, Running), e.mission)
  {
    assert Ledger.Of([], e.mission) == [];
    Ledger.AfterKeepsIntact(c, [], Ledger.AppendOne(e));
    var t := Ledger.After(c, [], Ledger.AppendOne(e));
    var row := Ledger.Prepare(c, e).value;
    assert t == [] + [row];
    Ledger.OfSnoc([], row, e.mission);
    EmptyAgreesIff(c, t, e.mission);
  }

  // ---------- a payload the projection cannot read ----------

  lemma {:induction false} FailureSticks(c: Codec, es: seq<Event>, more: seq<Event>)
    requires ReduceAll(c, es).Err?
    ensures ReduceAll(c, es + more) == ReduceAll(c, es)
  {
    if more == [] {
      assert es + more == es;
    } else {
      var n := |more| - 1;
      FailureSticks(c, es, more[..n]);
      assert es + more == (es + more[..n]) + [more[n]];
      ReduceAllSnoc(c, es + more[..n], more[n]);
    }
  }

  lemma {:induction false} OfSplit(t: Ledger.Table, more: Ledger.Table, mission: string)
    ensures Ledger.Of(t + more, mission) == Ledger.Of(t, mission) + Ledger.Of(more, mission)
  {
    if more == [] {
      assert t + more == t;
    } else {
      var n := |more| - 1;
      OfSplit(t, more[..n], mission);
      assert t + more == (t + more[..n]) + [more[n]] && more == more[..n] + [more[n]];
      Ledger.OfSnoc(t + more[..n], more[n], mission);
      Ledger.OfSnoc(more[..n], more[n], mission);
      Sequences.Regroup(Ledger.Of(t, mission), Ledger.Of(more[..n], mission), [more[n]]);
    }
  }

  lemma {:induction false} RestoreAllSplit(c: Codec, rows: Ledger.Table, more: Ledger.Table) returns (rest: seq<Event>)
    requires Ledger.RestoreAll(c, rows + more).Some?
    ensures Ledger.RestoreAll(c, rows).Some?
    ensures Ledger.RestoreAll(c, rows + more).value == Ledger.RestoreAll(c, rows).value + rest
  {
    if more == [] {
      assert rows + more == rows;
      rest := [];
    } else {
      var n := |more| - 1;
      assert (rows + more)[..|rows| + n] == rows + more[..n];
      var front := RestoreAllSplit(c, rows, more[..n]);
      rest := front + [Ledger.Restore(c, more[n]).value];
    }
  }

  lemma HistoryPrefix(c: Codec, t: Ledger.Table, more: Ledger.Table, mission: string) returns (rest: seq<Event>)
    requires Ledger.Intact(c, t + more)
    ensures History(c, t + more, mission) == History(c, t, mission) + rest
  {
    OfSplit(t, more, mission);
    Ledger.ReplayIntact(c, t + more, mission);
    rest := RestoreAllSplit(c, Ledger.Of(t, mission), Ledger.Of(more, mission));
  }

  /** A recovery that fails in the projection fails the same way after any number of further rows. */
  lemma RecoveryFailureSticks(c: Codec, t: Ledger.Table, more: Ledger.Table, mission: string)
    requires Ledger.Intact(c, t) && Ledger.Intact(c, t + more) && Recovered(c, t, mission).Err?
    ensures Recovered(c, t + more, mission) == Recovered(c, t, mission)
  {
    RecoveredIsReduction(c, t, mission);
    RecoveredIsReduction(c, t + more, mission);
    var rest := HistoryPrefix(c, t, more, mission);
    FailureSticks(c, History(c, t, mission), rest);
  }

  lemma UnreadableOnce(c: Codec, p: Pipe, e: Event)
    requires c.RoundTrips() && Agrees(c, p, e.mission) && Kept(c, e)
    requires Appended(c, p, e).1.Err? && Appended(c, p, e).1.error.Projection?
    ensures Appended(c, p, e).1.error.projection.MalformedPayload?
    ensures Recovered(c, Appended(c, p, e).0.rows, e.mission) == Appended(c, p, e).1
  {
    RecoveredIsReduction(c, p.rows, e.mission);
    if Ledger.ById(p.rows, e.id).None? {
      AcceptedRecovers(c, p, e);
      ReduceKept(c, p.model, e);
      OnlyMalformed(c, p.model, e);
    } else {
      RedeliveryChangesNothing(c, p, e);
    }
  }

  /**
   * When the projection cannot read an accepted event, recovery from that ledger fails with the same error, and
   * so it does after any number of further rows.
   */
  lemma UnreadableSticks(c: Codec, p: Pipe, e: Event, more: Ledger.Table)
    requires c.RoundTrips() && Agrees(c, p, e.mission) && Kept(c, e)
    requires Appended(c, p, e).1.Err? && Appended(c, p, e).1.error.Projection?
    requires Ledger.Intact(c, Appended(c, p, e).0.rows + more)
    ensures Appended(c, p, e).1.error.projection.MalformedPayload?
    ensures Recovered(c, Appended(c, p, e).0.rows + more, e.mission) == Appended(c, p, e).1
  {
    UnreadableOnce(c, p, e);
    AppendedIntact(c, p, e);
    RecoveryFailureSticks(c, Appended(c, p, e).0.rows, more, e.mission);
  }

  lemma OnlyMalformed(c: Codec, m: ReadModel.Model, e: Event)
    requires c.HashMatches(e) && (m.mission.Some? ==> m.mission.value == e.mission) && ReadModel.Reduce(c, m, e).Err?
    ensures ReadModel.Reduce(c, m, e).error.MalformedPayload?
  {
  }

  // ---------- what a rebuilt model says ----------

  predicate UpdatesContract(e: Event) {
    e.kind.ContractUpdated?
  }

  /** The events that set the route: its creation and its changes of state. */
  predicate SetsRoute(e: Event) {
    e.kind.RouteCreated? || e.kind.RouteStateChanged?
  }

  /** The route part of a model is what this event says. */
  predicate RouteAsIn(m: ReadModel.Model, e: Event) {
    && m.route == Some(e.route)
    && (e.kind.RouteCreated? ==> m.routeState == Some(Route.Draft) && m.routeVersion == 0)
    && (e.kind.RouteStateChanged? ==>
          && Json.GetStr(e.payload, "state").Some?
          && m.routeState == ReadModel.ParseState(Json.GetStr(e.payload, "state").value) && m.routeState.Some?
          && Json.GetU64(e.payload, "version") == Some(m.routeVersion))
  }

  /** The index of the last event that satisfies the predicate, or -1. */
  function Last(es: seq<Event>, p: Event -> bool): (k: int)
    ensures -1 <= k < |es|
    ensures k >= 0 ==> p(es[k])
    ensures forall i :: k < i < |es| ==> !p(es[i])
  {
    if es == [] then -1
    else if p(es[|es| - 1]) then |es| - 1
    else Last(es[..|es| - 1], p)
  }

  /** The evidence entries of the events, in order, as far as they decode. */
  function Entries(c: Codec, es: seq<Event>): seq<EvidenceEntry> {
    if es == [] then []
    else
      var e := es[|es| - 1];
      Entries(c, es[..|es| - 1])
      + if e.kind.EvidenceRecorded? && c.entry(e.payload).Ok? then [c.entry(e.payload).value] else []
  }

  lemma ReduceParts(c: Codec, m: ReadModel.Model, e: Event)
    requires ReadModel.Reduce(c, m, e).Ok? && e.id !in m.applied
    ensures var m' := ReadModel.Reduce(c, m, e).value;
            && (if e.kind.ContractUpdated? then Json.GetU64(e.payload, "version") == Some(m'.contractVersion)
                else m'.contractVersion == m.contractVersion)
            && (if e.kind.EvidenceRecorded?
                then c.entry(e.payload).Ok? && m'.evidence == m.evidence + [c.entry(e.payload).value]
                else m'.evidence == m.evidence)
            && (if SetsRoute(e) then RouteAsIn(m', e)
                else m'.route == m.route && m'.routeState == m.routeState && m'.routeVersion == m.routeVersion)
  {
  }

  lemma ReducedFront(c: Codec, es: seq<Event>)
    requires es != [] && InOrder(es) && ReduceAll(c, es).Ok?
    ensures InOrder(es[..|es| - 1]) && ReduceAll(c, es[..|es| - 1]).Ok?
    ensures ReadModel.Reduce(c, ReduceAll(c, es[..|es| - 1]).value, es[|es| - 1]) == ReduceAll(c, es)
    ensures es[|es| - 1].id !in ReduceAll(c, es[..|es| - 1]).value.applied
  {
    InOrderFront(es);
    FoldInOrder(c, es[..|es| - 1]);
  }

  /** The contract version is that of the last contract update, or 0. */
  lemma {:induction false} ContractVersionIsLast(c: Codec, es: seq<Event>)
    requires InOrder(es) && ReduceAll(c, es).Ok?
    ensures var k := Last(es, UpdatesContract);
            if k < 0 then ReduceAll(c, es).value.contractVersion == 0
            else Json.GetU64(es[k].payload, "version") == Some(ReduceAll(c, es).value.contractVersion)
  {
    if es != [] {
      var front, n := es[..|es| - 1], |es| - 1;
      ReducedFront(c, es);
      ReduceParts(c, ReduceAll(c, front).value, es[n]);
      ContractVersionIsLast(c, front);
    }
  }

  /** The route, its state and its version are those of the last event that set them, or none. */
  lemma {:induction false} RouteIsLast(c: Codec, es: seq<Event>)
    requires InOrder(es) && ReduceAll(c, es).Ok?
    ensures var k := Last(es, SetsRoute);
            var m := ReduceAll(c, es).value;
            if k < 0 then m.route.None? && m.routeState.None? && m.routeVersion == 0 else RouteAsIn(m, es[k])
  {
    if es != [] {
      var front, n := es[..|es| - 1], |es| - 1;
      ReducedFront(c, es);
      ReduceParts(c, ReduceAll(c, front).value, es[n]);
      RouteIsLast(c, front);
    }
  }

  /** The evidence is every recorded entry, decoded, in the order of the events. */
  lemma {:induction false} EvidenceIsAll(c: Codec, es: seq<Event>)
    requires InOrder(es) && ReduceAll(c, es).Ok?
    ensures ReduceAll(c, es).value.evidence == Entries(c, es)
  {
    if es != [] {
      ReducedFront(c, es);
      ReduceParts(c, ReduceAll(c, es[..|es| - 1]).value, es[|es| - 1]);
      EvidenceIsAll(c, es[..|es| - 1]);
    }
  }

  /** A recovered model says what the mission's events say: the last contract version, the last route, all evidence. */
  lemma RecoveredMeaning(c: Codec, t: Ledger.Table, mission: string)
    requires Ledger.Intact(c, t) && Recovered(c, t, mission).Ok?
    ensures var es := History(c, t, mission);
            var m := Recovered(c, t, mission).value;
            var updated, routed := Last(es, UpdatesContract), Last(es, SetsRoute);
            && (if updated < 0 then m.contractVersion == 0
                else Json.GetU64(es[updated].payload, "version") == Some(m.contractVersion))
            && (if routed < 0 then m.route.None? && m.routeState.None? else RouteAsIn(m, es[routed]))
            && m.evidence == Entries(c, es)
            && m.applied == Ids(es)
  {
    var es := History(c, t, mission);
    RecoveredIsReduction(c, t, mission);
    HistoryInOrder(c, t, mission);
    ContractVersionIsLast(c, es);
    RouteIsLast(c, es);
    EvidenceIsAll(c, es);
  }
}
