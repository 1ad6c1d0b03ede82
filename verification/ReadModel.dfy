/** The projection of a mission's events, one at a time (reduce) and from scratch (replay). */
module ReadModel {
  import opened Wrappers
  import opened Machine
  import opened Events
  import Json
  import Route
  import Sorting

  datatype Range = Range(start: nat, end: nat)

  datatype Model = Model(
    mission: Option<string>,
    route: Option<string>,
    routeState: Option<Route.State>,
    routeVersion: nat,
    contractVersion: nat,
    evidence: seq<EvidenceEntry>,
    incomplete: bool,
    missing: seq<Range>,
    warnings: seq<string>,
    applied: set<string>)

  const EMPTY := Model(None, None, None, 0, 0, [], false, [], [], {})

  datatype Error =
    | PayloadHashMismatch(id: string)
    | MissionMismatch(id: string)
    | SequenceConflict(sequence: nat)
    | MalformedPayload(id: string, detail: string)

  function ParseState(s: string): Option<Route.State> {
    match s
    case "Draft" => Some(Route.Draft)
    case "ReadOnlyExploration" => Some(Route.ReadOnlyExploration)
    case "AwaitingPlanApproval" => Some(Route.AwaitingPlanApproval)
    case "Executing" => Some(Route.Executing)
    case "Verifying" => Some(Route.Verifying)
    case "AwaitingAcceptance" => Some(Route.AwaitingAcceptance)
    case "Completed" => Some(Route.Completed)
    case "Paused" => Some(Route.Paused)
    case "Blocked" => Some(Route.Blocked)
    case "Abandoned" => Some(Route.Abandoned)
    case _ => None
  }

  function Numbered(e: Event, field: string): Result<nat, Error> {
    match Json.GetU64(e.payload, field)
    case Some(n) => Ok(n)
    case None => Err(MalformedPayload(e.id, "missing " + field))
  }

  /** The part of reduce that depends on the kind. */
  function Effect(c: Codec, m: Model, e: Event): Result<Model, Error> {
    match e.kind
    case ContractUpdated =>
      (match Numbered(e, "version")
       case Ok(version) => Ok(m.(contractVersion := version))
       case Err(error) => Err(error))
    case RouteCreated => Ok(m.(route := Some(e.route), routeState := Some(Route.Draft), routeVersion := 0))
    case RouteStateChanged =>
      (match Json.GetStr(e.payload, "state")
       case None => Err(MalformedPayload(e.id, "missing state"))
       case Some(name) =>
         match ParseState(name)
         case None => Err(MalformedPayload(e.id, "unknown route state"))
         case Some(state) =>
           match Numbered(e, "version")
           case Err(error) => Err(error)
           case Ok(version) => Ok(m.(route := Some(e.route), routeState := Some(state), routeVersion := version)))
    case EvidenceRecorded =>
      (match c.entry(e.payload)
       case Ok(entry) => Ok(m.(evidence := m.evidence + [entry]))
       case Err(detail) => Err(MalformedPayload(e.id, detail)))
    case Unknown(name) => Ok(m.(warnings := m.warnings + ["unknown event kind: " + name]))
    case AgentMessage => Ok(m.(warnings := m.warnings + ["agent message cannot verify evidence"]))
    case _ => Ok(m)
  }

  function Reduce(c: Codec, current: Model, e: Event): Result<Model, Error> {
    if !c.HashMatches(e) then Err(PayloadHashMismatch(e.id))
    else if current.mission.Some? && current.mission.value != e.mission then Err(MissionMismatch(e.id))
    else if e.id in current.applied then Ok(current)
    else Effect(c, current.(mission := Some(e.mission), applied := current.applied + {e.id}), e)
  }

  /** Reducing never touches the gap record, and an applied event is remembered. */
  lemma ReduceFrame(c: Codec, m: Model, e: Event)
    requires Reduce(c, m, e).Ok?
    ensures var m' := Reduce(c, m, e).value;
            && m'.incomplete == m.incomplete && m'.missing == m.missing
            && m'.applied == m.applied + {e.id}
            && m'.mission == if e.id in m.applied then m.mission else Some(e.mission)
  {
    if e.id in m.applied {
      assert m.applied + {e.id} == m.applied;
    }
  }

  // ---------- replay ----------

  datatype Progress = Progress(model: Model, expected: nat, seen: set<nat>)

  const START := Progress(EMPTY, 1, {})

  /** Noting a gap below an event that arrives ahead of the expected sequence. */
  function NoteGap(m: Model, expected: nat, sequence: nat): Model {
    if sequence > expected then m.(incomplete := true, missing := m.missing + [Range(expected, sequence - 1)]) else m
  }

  /** One turn of replay's loop. */
  function Step(c: Codec, p: Progress, e: Event): Result<Progress, Error> {
    if e.sequence in p.seen && e.id !in p.model.applied then Err(SequenceConflict(e.sequence))
    else if e.id in p.model.applied then Ok(p.(seen := p.seen + {e.sequence}))
    else match Reduce(c, NoteGap(p.model, p.expected, e.sequence), e)
      case Err(error) => Err(error)
      case Ok(model) => Ok(Progress(model, SatAdd64(e.sequence, 1), p.seen + {e.sequence}))
  }

  function Fold(c: Codec, p: Progress, es: seq<Event>): Result<Progress, Error>
    decreases |es|
  {
    if es == [] then Ok(p)
    else match Step(c, p, es[0])
      case Err(error) => Err(error)
      case Ok(next) => Fold(c, next, es[1..])
  }

  predicate BySequence(a: Event, b: Event) {
    a.sequence <= b.sequence
  }

  function Replay(c: Codec, events: seq<Event>): Result<Model, Error> {
    match Fold(c, START, Sorting.Sort(BySequence, events))
    case Ok(p) => Ok(p.model)
    case Err(error) => Err(error)
  }

  /** The source's loop. */
  method ReplayEvents(c: Codec, events: seq<Event>) returns (r: Result<Model, Error>)
    ensures r == Replay(c, events)
  {
    var sorted := Sorting.Sort(BySequence, events);
    var model := EMPTY;
    var expected: nat := 1;
    var seen: set<nat> := {};
    for i := 0 to |sorted|
      invariant Fold(c, START, sorted) == Fold(c, Progress(model, expected, seen), sorted[i..])
    {
      var e := sorted[i];
      assert sorted[i..][0] == e && sorted[i..][1..] == sorted[i + 1..];
      var isNew := e.sequence !in seen;
      if !isNew && e.id !in model.applied {
        return Err(SequenceConflict(e.sequence));
      }
      seen := seen + {e.sequence};
      if e.id !in model.applied {
        if e.sequence > expected {
          model := model.(incomplete := true, missing := model.missing + [Range(expected, e.sequence - 1)]);
        }
        expected := SatAdd64(e.sequence, 1);
        var next := Reduce(c, model, e);
        if next.Err? {
          return Err(next.error);
        }
        model := next.value;
      }
    }
    return Ok(model);
  }

  // ---------- redelivery and arrival order ----------

  /** An event that has just been taken is skipped when it comes again. */
  lemma StepAgain(c: Codec, p: Progress, e: Event)
    requires Step(c, p, e).Ok?
    ensures Step(c, Step(c, p, e).value, e) == Step(c, p, e)
  {
    var p' := Step(c, p, e).value;
    if e.id !in p.model.applied {
      ReduceFrame(c, NoteGap(p.model, p.expected, e.sequence), e);
    }
    assert p'.seen + {e.sequence} == p'.seen;
  }

  /** The list with immediate repetitions removed. */
  function Compress(es: seq<Event>): seq<Event> {
    if |es| < 2 then es
    else if es[0] == es[1] then Compress(es[1..])
    else [es[0]] + Compress(es[1..])
  }

  lemma {:induction false} FoldCompress(c: Codec, p: Progress, es: seq<Event>)
    ensures Fold(c, p, Compress(es)) == Fold(c, p, es)
    decreases |es|
  {
    if |es| >= 2 {
      if es[0] == es[1] {
        FoldCompress(c, p, es[1..]);
        if Step(c, p, es[0]).Ok? {
          StepAgain(c, p, es[0]);
        }
      } else {
        assert ([es[0]] + Compress(es[1..]))[1..] == Compress(es[1..]);
        if Step(c, p, es[0]).Ok? {
          FoldCompress(c, Step(c, p, es[0]).value, es[1..]);
        }
      }
    }
  }

  predicate Ascending(es: seq<Event>) {
    forall i, j :: 0 <= i < j < |es| ==> es[i].sequence < es[j].sequence
  }

  /** An id names one event and so does a sequence: copies are the only repetitions. */
  ghost predicate Identified(es: seq<Event>) {
    forall e, f :: e in es && f in es && (e.id == f.id || e.sequence == f.sequence) ==> e == f
  }

  lemma {:induction false} CompressMembers(es: seq<Event>, e: Event)
    ensures e in Compress(es) <==> e in es
  {
    if |es| >= 2 {
      CompressMembers(es[1..], e);
      assert es == [es[0]] + es[1..];
      assert es[1] in es[1..];
    }
  }

  lemma {:induction false} CompressHead(es: seq<Event>)
    requires es != []
    ensures Compress(es) != [] && Compress(es)[0] == es[0]
  {
    if |es| >= 2 && es[0] == es[1] {
      CompressHead(es[1..]);
    }
  }

  lemma SortedTail(es: seq<Event>)
    requires es != [] && Sorting.Sorted(BySequence, es) && Identified(es)
    ensures Sorting.Sorted(BySequence, es[1..]) && Identified(es[1..])
  {
    assert forall e :: e in es[1..] ==> e in es;
  }

  lemma AscendingCons(e: Event, es: seq<Event>)
    requires Ascending(es) && forall f :: f in es ==> e.sequence < f.sequence
    ensures Ascending([e] + es)
  {
  }

  /** A first event that is not repeated at once is below everything that follows. */
  lemma HeadIsBelow(es: seq<Event>)
    requires Sorting.Sorted(BySequence, es) && Identified(es) && |es| >= 2 && es[0] != es[1]
    ensures forall e :: e in Compress(es[1..]) ==> es[0].sequence < e.sequence
  {
    forall e | e in Compress(es[1..]) ensures es[0].sequence < e.sequence {
      CompressMembers(es[1..], e);
      var k :| 0 <= k < |es[1..]| && es[1..][k] == e;
      FirstIsBelow(es, k + 1);
    }
  }

  lemma {:induction false} CompressAscends(es: seq<Event>)
    requires Sorting.Sorted(BySequence, es) && Identified(es)
    ensures Ascending(Compress(es))
  {
    if |es| >= 2 {
      SortedTail(es);
      CompressAscends(es[1..]);
      if es[0] != es[1] {
        HeadIsBelow(es);
        AscendingCons(es[0], Compress(es[1..]));
      }
    }
  }

  lemma FirstIsBelow(es: seq<Event>, k: nat)
    requires Sorting.Sorted(BySequence, es) && Identified(es) && 1 <= k < |es| && es[0] != es[1]
    ensures es[0].sequence < es[k].sequence
  {
    assert BySequence(es[0], es[1]) && (k == 1 || BySequence(es[1], es[k]));
    assert es[0] in es && es[1] in es;
  }

  /** Strictly ascending lists with the same members are the same list. */
  lemma {:induction false} AscendingUnique(xs: seq<Event>, ys: seq<Event>)
    requires Ascending(xs) && Ascending(ys) && forall e :: e in xs <==> e in ys
    ensures xs == ys
    decreases |xs|
  {
    assert xs != [] ==> xs[0] in ys;
    assert ys != [] ==> ys[0] in xs;
    if xs != [] {
      SameFirst(xs, ys);
      forall e ensures e in xs[1..] <==> e in ys[1..] {
        TailMembers(xs, e);
        TailMembers(ys, e);
      }
      AscendingUnique(xs[1..], ys[1..]);
      assert xs == [xs[0]] + xs[1..] && ys == [ys[0]] + ys[1..];
    }
  }

  lemma SameFirst(xs: seq<Event>, ys: seq<Event>)
    requires xs != [] && ys != [] && Ascending(xs) && Ascending(ys) && xs[0] in ys && ys[0] in xs
    ensures xs[0] == ys[0]
  {
    var i :| 0 <= i < |ys| && ys[i] == xs[0];
    var j :| 0 <= j < |xs| && xs[j] == ys[0];
  }

  lemma TailMembers(xs: seq<Event>, e: Event)
    requires xs != [] && Ascending(xs)
    ensures e in xs[1..] <==> e in xs && e != xs[0]
  {
    assert xs == [xs[0]] + xs[1..];
  }

  lemma SortedBySequence(es: seq<Event>)
    ensures Sorting.Sorted(BySequence, Sorting.Sort(BySequence, es))
    ensures forall e :: e in Sorting.Sort(BySequence, es) <==> e in es
  {
    Sorting.SortSorted(BySequence, es);
    Sorting.SameMembers(Sorting.Sort(BySequence, es), es);
  }

  /** What replay really folds over: each event once, by sequence. */
  function Canonical(es: seq<Event>): seq<Event> {
    Compress(Sorting.Sort(BySequence, es))
  }

  lemma CanonicalList(es: seq<Event>)
    requires Identified(es)
    ensures Ascending(Canonical(es)) && forall e :: e in Canonical(es) <==> e in es
  {
    SortedBySequence(es);
    CompressAscends(Sorting.Sort(BySequence, es));
    forall e ensures e in Canonical(es) <==> e in es {
      CompressMembers(Sorting.Sort(BySequence, es), e);
    }
  }

  /** The same events in any order, with any number of copies, replay to the same result. */
  lemma ArrivalOrderFree(c: Codec, xs: seq<Event>, ys: seq<Event>)
    requires Identified(xs) && forall e :: e in xs <==> e in ys
    ensures Replay(c, xs) == Replay(c, ys)
  {
    CanonicalList(xs);
    CanonicalList(ys);
    AscendingUnique(Canonical(xs), Canonical(ys));
    FoldCompress(c, START, Sorting.Sort(BySequence, xs));
    FoldCompress(c, START, Sorting.Sort(BySequence, ys));
  }

  // ---------- the gaps replay reports ----------

  function Sequences(es: seq<Event>): set<nat> {
    set e | e in es :: e.sequence
  }

  predicate Within(r: Range, n: nat) {
    r.start <= n <= r.end
  }

  predicate Covered(missing: seq<Range>, n: nat) {
    exists i :: 0 <= i < |missing| && Within(missing[i], n)
  }

  /** Proper ranges below the top, each ending just before a present number and starting just after one, or at 1. */
  ghost predicate Maximal(missing: seq<Range>, present: set<nat>, top: nat) {
    forall i :: 0 <= i < |missing| ==> Gap(missing[i], present, top)
  }

  predicate Gap(r: Range, present: set<nat>, top: nat) {
    && 1 <= r.start <= r.end < top
    && r.end + 1 in present && (r.start == 1 || r.start - 1 in present)
  }

  /** Ascending, with something between any two. */
  predicate Apart(missing: seq<Range>) {
    forall i, j :: 0 <= i < j < |missing| ==> missing[i].end + 1 < missing[j].start
  }

  /** Together, exactly the absent numbers from 1 to the top. */
  ghost predicate Complete(missing: seq<Range>, present: set<nat>, top: nat) {
    forall n :: 1 <= n <= top ==> (Covered(missing, n) <==> n !in present)
  }

  ghost predicate Topped(present: set<nat>, top: nat) {
    (forall n :: n in present ==> n <= top) && (top > 0 ==> top in present)
  }

  ghost predicate Exact(missing: seq<Range>, present: set<nat>, top: nat) {
    Maximal(missing, present, top) && Apart(missing) && Complete(missing, present, top) && Topped(present, top)
  }

  lemma CoveredSnoc(missing: seq<Range>, r: Range, n: nat)
    ensures Covered(missing + [r], n) <==> Covered(missing, n) || Within(r, n)
  {
    if Covered(missing, n) {
      var i :| 0 <= i < |missing| && Within(missing[i], n);
      assert (missing + [r])[i] == missing[i];
    }
    if Within(r, n) {
      assert (missing + [r])[|missing|] == r;
    }
  }

  lemma NotCoveredAbove(missing: seq<Range>, present: set<nat>, top: nat, n: nat)
    requires Maximal(missing, present, top) && n >= top
    ensures !Covered(missing, n)
  {
  }

  /** The ranges after an event at s, above everything so far. */
  function Extended(missing: seq<Range>, top: nat, s: nat): seq<Range> {
    if s > top + 1 then missing + [Range(top + 1, s - 1)] else missing
  }

  lemma ExtendedComplete(missing: seq<Range>, present: set<nat>, top: nat, s: nat)
    requires Exact(missing, present, top) && top < s
    ensures Complete(Extended(missing, top, s), present + {s}, s)
  {
    forall n | 1 <= n <= s ensures Covered(Extended(missing, top, s), n) <==> n !in present + {s} {
      CoveredSnoc(missing, Range(top + 1, if s > top + 1 then s - 1 else 0), n);
      if n >= top {
        NotCoveredAbove(missing, present, top, n);
      }
    }
  }

  lemma ExtendedMaximal(missing: seq<Range>, present: set<nat>, top: nat, s: nat)
    requires Maximal(missing, present, top) && Topped(present, top) && top < s
    ensures Maximal(Extended(missing, top, s), present + {s}, s)
  {
    var extended := Extended(missing, top, s);
    forall i | 0 <= i < |extended| ensures Gap(extended[i], present + {s}, s) {
      assert i < |missing| ==> Gap(missing[i], present, top);
    }
  }

  lemma ExtendedApart(missing: seq<Range>, present: set<nat>, top: nat, s: nat)
    requires Maximal(missing, present, top) && Apart(missing)
    ensures Apart(Extended(missing, top, s))
  {
    assert forall i :: 0 <= i < |missing| ==> Gap(missing[i], present, top);
  }

  lemma ExtendedExact(missing: seq<Range>, present: set<nat>, top: nat, s: nat)
    requires Exact(missing, present, top) && top < s
    ensures Exact(Extended(missing, top, s), present + {s}, s)
  {
    ExtendedComplete(missing, present, top, s);
    ExtendedMaximal(missing, present, top, s);
    ExtendedApart(missing, present, top, s);
  }

  /** Where the fold stands after events up to `top`. */
  ghost predicate Tracks(p: Progress, present: set<nat>, top: nat) {
    && Exact(p.model.missing, present, top)
    && p.model.incomplete == (p.model.missing != [])
    && p.expected == SatAdd64(top, 1)
    && top <= U64_MAX
  }

  /** A step that applies its event changes the gaps as noted, expects the next sequence, and remembers the event. */
  lemma StepFrame(c: Codec, p: Progress, e: Event)
    requires Step(c, p, e).Ok? && e.id !in p.model.applied
    ensures var noted, p' := NoteGap(p.model, p.expected, e.sequence), Step(c, p, e).value;
            && p'.model.incomplete == noted.incomplete && p'.model.missing == noted.missing
            && p'.model.applied == p.model.applied + {e.id} && p'.expected == SatAdd64(e.sequence, 1)
  {
    ReduceFrame(c, NoteGap(p.model, p.expected, e.sequence), e);
  }

  lemma StepTracks(c: Codec, p: Progress, e: Event, present: set<nat>, top: nat)
    requires Tracks(p, present, top) && Step(c, p, e).Ok? && e.id !in p.model.applied
    requires (forall n :: n in present ==> n < e.sequence) && e.sequence <= U64_MAX
    ensures Tracks(Step(c, p, e).value, present + {e.sequence}, Max(top, e.sequence))
    ensures Step(c, p, e).value.model.applied == p.model.applied + {e.id}
  {
    StepFrame(c, p, e);
    if e.sequence > top {
      ExtendedExact(p.model.missing, present, top, e.sequence);
    } else {
      assert top == 0 && e.sequence == 0 && present == {};
    }
  }

  ghost predicate Fresh(es: seq<Event>, applied: set<string>) {
    && (forall i :: 0 <= i < |es| ==> es[i].id !in applied && es[i].sequence <= U64_MAX)
    && (forall i, j :: 0 <= i < j < |es| ==> es[i].id != es[j].id)
  }

  /** What is still to come: new events, ascending, above everything present. */
  ghost predicate Ahead(es: seq<Event>, present: set<nat>, applied: set<string>) {
    && Ascending(es) && Fresh(es, applied)
    && forall n, i :: n in present && 0 <= i < |es| ==> n < es[i].sequence
  }

  lemma AheadTail(es: seq<Event>, present: set<nat>, applied: set<string>)
    requires es != [] && Ahead(es, present, applied)
    ensures Ahead(es[1..], present + {es[0].sequence}, applied + {es[0].id})
  {
  }

  lemma {:induction false} FoldTracks(c: Codec, p: Progress, es: seq<Event>, present: set<nat>, top: nat)
    returns (present': set<nat>, top': nat)
    requires Tracks(p, present, top) && Ahead(es, present, p.model.applied) && Fold(c, p, es).Ok?
    ensures Tracks(Fold(c, p, es).value, present', top') && present' == present + Sequences(es)
    decreases |es|
  {
    if es == [] {
      present', top' := present, top;
    } else {
      StepTracks(c, p, es[0], present, top);
      AheadTail(es, present, p.model.applied);
      present', top' := FoldTracks(c, Step(c, p, es[0]).value, es[1..], present + {es[0].sequence},
                                   Max(top, es[0].sequence));
      SequencesCons(es);
    }
  }

  lemma SequencesCons(es: seq<Event>)
    requires es != []
    ensures Sequences(es) == {es[0].sequence} + Sequences(es[1..])
  {
    assert es == [es[0]] + es[1..];
  }

  lemma CanonicalFresh(es: seq<Event>, list: seq<Event>)
    requires Identified(es) && Ascending(list) && (forall e :: e in list <==> e in es)
    requires forall e :: e in es ==> e.sequence <= U64_MAX
    ensures Fresh(list, {}) && Sequences(list) == Sequences(es)
  {
    forall i, j | 0 <= i < j < |list| ensures list[i].id != list[j].id {
      assert list[i] in es && list[j] in es;
    }
  }

  /**
   * A successful replay reports its gaps exactly: ascending, disjoint, maximal ranges whose union is the numbers
   * from 1 to the highest sequence that no event carries; and it is marked incomplete exactly when there are any.
   */
  lemma MissingIsExact(c: Codec, events: seq<Event>) returns (top: nat)
    requires Identified(events) && (forall e :: e in events ==> e.sequence <= U64_MAX) && Replay(c, events).Ok?
    ensures Exact(Replay(c, events).value.missing, Sequences(events), top)
    ensures Replay(c, events).value.incomplete == (Replay(c, events).value.missing != [])
  {
    CanonicalList(events);
    CanonicalFresh(events, Canonical(events));
    FoldCompress(c, START, Sorting.Sort(BySequence, events));
    assert Tracks(START, {}, 0);
    var present;
    present, top := FoldTracks(c, START, Canonical(events), {}, 0);
    assert present == Sequences(events);
  }
}
