/** Usage budgets: saturating projections, safe-boundary signals, and deltas from cumulative totals. */
module Budget {
  import opened Wrappers
  import opened Machine
  import Approval
  import Json

  datatype Dimension = Tokens | MoneyMicros | WallClock | ChangedLines | ChangedFiles | ModelCalls

  const ALL: seq<Dimension> := [Tokens, MoneyMicros, WallClock, ChangedLines, ChangedFiles, ModelCalls]

  type U64 = n: int | 0 <= n <= U64_MAX

  datatype Record =
    | Sample(values: map<Dimension, U64>)
    | UnknownUsage(dimension: Dimension)
    | Correction(dimension: Dimension, total: U64)

  datatype Projection = Known(used: U64) | Unknown

  datatype Signal =
    | Warning(dimension: Dimension)
    | RequireApproval(dimension: Dimension)
    | PauseAtSafeBoundary(dimension: Dimension)

  datatype UnknownPolicy = AskForApproval | Pause

  datatype ChangeError = ForbiddenActor | ContractVersionNotAdvanced

  type Limits = Dimension -> U64

  // ---------- projections ----------

  /** What one record does to one dimension. */
  function Apply(p: Projection, r: Record, d: Dimension): Projection {
    match r
    case Sample(values) => if p.Known? && d in values then Known(SatAdd64(p.used, values[d])) else p
    case UnknownUsage(d') => if d' == d then Unknown else p
    case Correction(d', total) => if d' == d then Known(total) else p
  }

  function Replay(records: seq<Record>, d: Dimension): Projection {
    if records == [] then Known(0)
    else Apply(Replay(records[..|records| - 1], d), records[|records| - 1], d)
  }

  /** The index just after the last correction of a dimension, 0 when there is none. */
  function AfterCorrection(records: seq<Record>, d: Dimension): (k: nat)
    ensures k <= |records|
    ensures k > 0 ==> records[k - 1].Correction? && records[k - 1].dimension == d
  {
    if records == [] then 0
    else
      var last := records[|records| - 1];
      if last.Correction? && last.dimension == d then |records|
      else AfterCorrection(records[..|records| - 1], d)
  }

  /** No correction of the dimension comes later. */
  lemma {:induction false} AfterCorrectionIsLast(records: seq<Record>, d: Dimension, i: nat)
    requires AfterCorrection(records, d) <= i < |records|
    ensures !(records[i].Correction? && records[i].dimension == d)
  {
    if i < |records| - 1 {
      AfterCorrectionIsLast(records[..|records| - 1], d, i);
    }
  }

  /** The exact, unbounded sum a run of records reports for a dimension. */
  function Reported(records: seq<Record>, d: Dimension): nat {
    if records == [] then 0
    else
      var last := records[|records| - 1];
      Reported(records[..|records| - 1], d) + (if last.Sample? && d in last.values then last.values[d] else 0)
  }

  predicate ReportsUnknown(records: seq<Record>, d: Dimension) {
    exists i :: 0 <= i < |records| && records[i] == UnknownUsage(d)
  }

  /** A known total plus everything reported since, capped once; unknown if any later record says so. */
  function Since(base: U64, tail: seq<Record>, d: Dimension): Projection {
    if ReportsUnknown(tail, d) then Unknown else Known(Min(base + Reported(tail, d), U64_MAX))
  }

  /** What the projection of a dimension means, read off the whole history. */
  function Meaning(records: seq<Record>, d: Dimension): Projection {
    From(records, AfterCorrection(records, d), d)
  }

  /** The records from k on, on top of the correction just before, if there is one. */
  function From(records: seq<Record>, k: nat, d: Dimension): Projection
    requires k <= |records| && (k > 0 ==> records[k - 1].Correction?)
  {
    Since(if k == 0 then 0 else records[k - 1].total, records[k..], d)
  }

  lemma ReportedStep(tail: seq<Record>, last: Record, d: Dimension)
    ensures Reported(tail + [last], d) ==
              Reported(tail, d) + (if last.Sample? && d in last.values then last.values[d] else 0)
    ensures ReportsUnknown(tail + [last], d) <==> ReportsUnknown(tail, d) || last == UnknownUsage(d)
  {
    assert (tail + [last])[..|tail|] == tail;
    if ReportsUnknown(tail, d) {
      var i :| 0 <= i < |tail| && tail[i] == UnknownUsage(d);
      assert (tail + [last])[i] == UnknownUsage(d);
    }
    if last == UnknownUsage(d) {
      assert (tail + [last])[|tail|] == UnknownUsage(d);
    }
  }

  lemma SinceStep(base: U64, tail: seq<Record>, last: Record, d: Dimension)
    requires !(last.Correction? && last.dimension == d)
    ensures Since(base, tail + [last], d) == Apply(Since(base, tail, d), last, d)
  {
    ReportedStep(tail, last, d);
  }

  /** Replaying step by step, saturating as it goes, gives the last correction plus every later sample, capped once. */
  lemma {:induction false} ReplayMeaning(records: seq<Record>, d: Dimension)
    ensures Replay(records, d) == Meaning(records, d)
  {
    if records != [] {
      var n := |records| - 1;
      ReplayMeaning(records[..n], d);
      MeaningStep(records[..n], records[n], d);
      assert records == records[..n] + [records[n]];
    }
  }

  lemma AfterCorrectionSnoc(front: seq<Record>, last: Record, d: Dimension)
    ensures AfterCorrection(front + [last], d) ==
            if last.Correction? && last.dimension == d then |front| + 1 else AfterCorrection(front, d)
  {
    assert (front + [last])[..|front|] == front;
  }

  lemma MeaningCorrected(front: seq<Record>, last: Record, d: Dimension)
    requires last.Correction? && last.dimension == d
    ensures Meaning(front + [last], d) == Apply(Meaning(front, d), last, d)
  {
    AfterCorrectionSnoc(front, last, d);
    assert (front + [last])[|front| + 1..] == [];
  }

  lemma FromStep(front: seq<Record>, last: Record, k: nat, d: Dimension)
    requires k <= |front| && (k > 0 ==> front[k - 1].Correction?) && !(last.Correction? && last.dimension == d)
    ensures From(front + [last], k, d) == Apply(From(front, k, d), last, d)
  {
    var base := if k == 0 then 0 else front[k - 1].total;
    assert (front + [last])[k..] == front[k..] + [last];
    SinceStep(base, front[k..], last, d);
  }

  lemma MeaningStep(front: seq<Record>, last: Record, d: Dimension)
    ensures Meaning(front + [last], d) == Apply(Meaning(front, d), last, d)
  {
    if last.Correction? && last.dimension == d {
      MeaningCorrected(front, last, d);
    } else {
      AfterCorrectionSnoc(front, last, d);
      FromStep(front, last, AfterCorrection(front, d), d);
    }
  }

  lemma ReplaySnoc(records: seq<Record>, r: Record, d: Dimension)
    ensures Replay(records + [r], d) == Apply(Replay(records, d), r, d)
  {
    assert (records + [r])[..|records|] == records;
  }

  // ---------- the 80% test ----------

  function SatMul64(a: nat, b: nat): nat {
    Min(a * b, U64_MAX)
  }

  predicate NearLimit(used: U64, limit: U64) {
    SatMul64(used, 5) >= SatMul64(limit, 4)
  }

  /** The saturating test fires exactly on a true crossing of 80%, or when both products saturate. */
  lemma NearLimitIff(used: U64, limit: U64)
    ensures NearLimit(used, limit) <==> 5 * used >= 4 * limit || (5 * used >= U64_MAX && 4 * limit >= U64_MAX)
    ensures 4 * limit <= U64_MAX ==> (NearLimit(used, limit) <==> 5 * used >= 4 * limit)
  {
  }

  /** Above a quarter of the range it can fire early. */
  lemma NearLimitEarly()
    ensures NearLimit(U64_MAX / 5 + 1, U64_MAX) && 5 * (U64_MAX / 5 + 1) < 4 * U64_MAX
  {
  }

  // ---------- the tracker ----------

  /** What the tracker says about one dimension at a safe boundary. */
  function SignalFor(p: Option<Projection>, limit: U64, policy: UnknownPolicy, d: Dimension, warned: bool)
    : Option<Signal>
  {
    match p
    case Some(Unknown) => Some(if policy == AskForApproval then RequireApproval(d) else PauseAtSafeBoundary(d))
    case Some(Known(used)) =>
      if limit == 0 || used >= limit then Some(PauseAtSafeBoundary(d))
      else if NearLimit(used, limit) && !warned then Some(Warning(d))
      else None
    case None => Some(PauseAtSafeBoundary(d))
  }

  datatype Boundary = Boundary(projection: map<Dimension, Projection>, limits: Limits, policy: UnknownPolicy,
                               warned: set<Dimension>) {

    function At(d: Dimension): Option<Signal> {
      SignalFor(if d in projection then Some(projection[d]) else None, limits(d), policy, d, d in warned)
    }

    /** The signals for a list of dimensions, in order. */
    function Signals(ds: seq<Dimension>): seq<Signal> {
      if ds == [] then []
      else Signals(ds[..|ds| - 1]) + (match At(ds[|ds| - 1]) case Some(s) => [s] case None => [])
    }

    predicate Warns(d: Dimension) {
      At(d) == Some(Warning(d))
    }
  }

  predicate Distinct(ds: seq<Dimension>) {
    forall i, j :: 0 <= i < j < |ds| ==> ds[i] != ds[j]
  }

  /** How often a list of signals warns about a dimension. */
  function Warnings(signals: seq<Signal>, d: Dimension): nat {
    multiset(signals)[Warning(d)]
  }

  /** One evaluation warns about each dimension at most once, and never about one already warned. */
  lemma {:induction false} WarnsOnce(b: Boundary, ds: seq<Dimension>, d: Dimension)
    requires Distinct(ds)
    ensures Warnings(b.Signals(ds), d) == if d in ds && b.Warns(d) then 1 else 0
    ensures b.Warns(d) ==> d !in b.warned
  {
    WarnsFresh(b, d, d);
    if ds != [] {
      var n := |ds| - 1;
      var front := ds[..n];
      WarnsOnce(b, front, d);
      assert ds == front + [ds[n]];
      assert d in ds <==> d in front || d == ds[n];
      assert ds[n] !in front;
      SignalsSnoc(b, ds, d);
    }
  }

  lemma WarnsFresh(b: Boundary, x: Dimension, d: Dimension)
    ensures b.At(x) == Some(Warning(d)) ==> x == d && d !in b.warned
  {
  }

  lemma SignalsSnoc(b: Boundary, ds: seq<Dimension>, d: Dimension)
    requires ds != []
    ensures var n := |ds| - 1;
            Warnings(b.Signals(ds), d) == Warnings(b.Signals(ds[..n]), d) + if ds[n] == d && b.Warns(d) then 1 else 0
  {
    var n := |ds| - 1;
    var signal := b.At(ds[n]);
    WarnsFresh(b, ds[n], d);
    if signal.Some? {
      WarningsSnoc(b.Signals(ds[..n]), signal.value, d);
    } else {
      assert b.Signals(ds) == b.Signals(ds[..n]);
    }
  }

  /** A dimension's signal does not depend on which other dimensions were warned. */
  lemma OwnMarkOnly(b: Boundary, warned: set<Dimension>, d: Dimension)
    requires d in warned <==> d in b.warned
    ensures b.(warned := warned).At(d) == b.At(d)
  {
  }

  /** The marks after visiting some dimensions: those set before, and those just warned about. */
  ghost predicate Marked(b: Boundary, visited: seq<Dimension>, warned: set<Dimension>) {
    forall d :: d in warned <==> d in b.warned || (d in visited && b.Warns(d))
  }

  lemma MarkStep(b: Boundary, visited: seq<Dimension>, d: Dimension, warned: set<Dimension>)
    requires Marked(b, visited, warned) && d !in visited
    ensures d in warned <==> d in b.warned
    ensures Marked(b, visited + [d], warned + if b.At(d) == Some(Warning(d)) then {d} else {})
  {
  }

  lemma SignalsPrefix(b: Boundary, ds: seq<Dimension>, i: nat)
    requires i < |ds|
    ensures b.Signals(ds[..i + 1]) ==
              match b.At(ds[i]) case Some(s) => b.Signals(ds[..i]) + [s] case None => b.Signals(ds[..i])
    ensures ds[..i + 1] == ds[..i] + [ds[i]]
    ensures Distinct(ds) ==> ds[i] !in ds[..i]
  {
    assert ds[..i + 1][..i] == ds[..i] && ds[..i + 1] == ds[..i] + [ds[i]];
  }

  /** Evaluating the next dimension adds its signal and its mark. */
  lemma EvaluateStep(b: Boundary, ds: seq<Dimension>, i: nat, warned: set<Dimension>)
    requires i < |ds| && Distinct(ds) && Marked(b, ds[..i], warned)
    ensures b.(warned := warned).At(ds[i]) == b.At(ds[i])
    ensures b.Signals(ds[..i + 1]) ==
              match b.At(ds[i]) case Some(s) => b.Signals(ds[..i]) + [s] case None => b.Signals(ds[..i])
    ensures Marked(b, ds[..i + 1], warned + if b.At(ds[i]) == Some(Warning(ds[i])) then {ds[i]} else {})
  {
    SignalsPrefix(b, ds, i);
    MarkStep(b, ds[..i], ds[i], warned);
    OwnMarkOnly(b, warned, ds[i]);
  }

  lemma WarningsSnoc(signals: seq<Signal>, s: Signal, d: Dimension)
    ensures Warnings(signals + [s], d) == Warnings(signals, d) + if s == Warning(d) then 1 else 0
  {
  }

  /** The warnings given since the limits last changed are exactly the dimensions marked as warned, once each. */
  ghost predicate WarnedOnce(signalled: seq<Signal>, warned: set<Dimension>) {
    forall d :: Warnings(signalled, d) == if d in warned then 1 else 0
  }

  lemma EvaluationKeepsWarnedOnce(b: Boundary, ds: seq<Dimension>, signalled: seq<Signal>, warned: set<Dimension>)
    requires Distinct(ds) && WarnedOnce(signalled, b.warned)
    requires Marked(b, ds, warned)
    ensures WarnedOnce(signalled + b.Signals(ds), warned)
  {
    forall d ensures Warnings(signalled + b.Signals(ds), d) == if d in warned then 1 else 0 {
      WarnsOnce(b, ds, d);
    }
  }

  lemma Everything(d: Dimension)
    ensures d in ALL
  {
    assert d == ALL[0] || d == ALL[1] || d == ALL[2] || d == ALL[3] || d == ALL[4] || d == ALL[5];
  }

  class Tracker {
    var contractVersion: nat
    var limits: Limits
    const policy: UnknownPolicy
    var records: seq<Record>
    var projection: map<Dimension, Projection>
    var warned: set<Dimension>
    ghost var signalled: seq<Signal> // since the limits last changed

    ghost predicate Valid()
      reads this
    {
      && (forall d :: d in projection && projection[d] == Replay(records, d))
      && WarnedOnce(signalled, warned)
    }

    constructor (contractVersion: nat, limits: Limits, policy: UnknownPolicy)
      ensures Valid() && records == [] && signalled == []
      ensures this.contractVersion == contractVersion && this.limits == limits && this.policy == policy
    {
      this.contractVersion := contractVersion;
      this.limits := limits;
      this.policy := policy;
      records := [];
      projection := map d: Dimension | d in ALL :: Known(0);
      warned := {};
      signalled := [];
      new;
      forall d: Dimension ensures d in projection {
        Everything(d);
      }
    }

    method AddSample(values: map<Dimension, U64>)
      requires forall d :: d in projection
      modifies this`projection
      ensures forall d :: d in projection && projection[d] == Apply(old(projection)[d], Sample(values), d)
    {
      var remaining := values.Keys;
      while remaining != {}
        invariant remaining <= values.Keys
        invariant forall d :: d in projection
        invariant forall d :: projection[d] ==
                              if d in remaining then old(projection)[d]
                              else Apply(old(projection)[d], Sample(values), d)
        decreases |remaining|
      {
        var d :| d in remaining;
        if projection[d].Known? {
          projection := projection[d := Known(SatAdd64(projection[d].used, values[d]))];
        }
        remaining := remaining - {d};
      }
    }

    method Add(record: Record)
      requires Valid()
      modifies this`projection, this`records
      ensures Valid() && records == old(records) + [record]
    {
      match record {
        case Sample(values) =>
          AddSample(values);
        case UnknownUsage(d) =>
          projection := projection[d := Unknown];
        case Correction(d, total) =>
          projection := projection[d := Known(total)];
      }
      records := records + [record];
      forall d ensures d in projection && projection[d] == Replay(records, d) {
        ReplaySnoc(old(records), record, d);
      }
    }

    /** One dimension of a safe boundary. */
    method Evaluate(d: Dimension) returns (signal: Option<Signal>)
      modifies this`warned
      ensures signal == Boundary(projection, limits, policy, old(warned)).At(d)
      ensures warned == old(warned) + if signal == Some(Warning(d)) then {d} else {}
    {
      if d !in projection {
        return Some(PauseAtSafeBoundary(d));
      }
      match projection[d] {
        case Unknown =>
          signal := Some(if policy == AskForApproval then RequireApproval(d) else PauseAtSafeBoundary(d));
        case Known(used) =>
          var limit := limits(d);
          if limit == 0 || used >= limit {
            signal := Some(PauseAtSafeBoundary(d));
          } else if SatMul64(used, 5) >= SatMul64(limit, 4) && d !in warned {
            warned := warned + {d};
            signal := Some(Warning(d));
          } else {
            signal := None;
          }
      }
    }

    /** Walks a list of dimensions; the supervisor always passes all of them. */
    method EvaluateEach(ds: seq<Dimension>) returns (signals: seq<Signal>)
      requires Distinct(ds)
      modifies this`warned
      ensures signals == Boundary(projection, limits, policy, old(warned)).Signals(ds)
      ensures Marked(Boundary(projection, limits, policy, old(warned)), ds, warned)
    {
      signals := [];
      ghost var b := Boundary(projection, limits, policy, warned);
      for i := 0 to |ds|
        invariant signals == b.Signals(ds[..i])
        invariant Marked(b, ds[..i], warned)
      {
        var d := ds[i];
        EvaluateStep(b, ds, i, warned);
        var signal := Evaluate(d);
        if signal.Some? {
          signals := signals + [signal.value];
        }
      }
      assert ds[..|ds|] == ds;
    }

    method EvaluateAndCount(ds: seq<Dimension>) returns (signals: seq<Signal>)
      requires Valid() && Distinct(ds)
      modifies this`warned, this`signalled
      ensures Valid()
      ensures signals == Boundary(projection, limits, policy, old(warned)).Signals(ds)
      ensures signalled == old(signalled) + signals
    {
      signals := EvaluateEach(ds);
      EvaluationKeepsWarnedOnce(Boundary(projection, limits, policy, old(warned)), ds, signalled, warned);
      signalled := signalled + signals;
    }

    method EvaluateSafeBoundary() returns (signals: seq<Signal>)
      requires Valid()
      modifies this`warned, this`signalled
      ensures Valid()
      ensures signals == Boundary(projection, limits, policy, old(warned)).Signals(ALL)
      ensures signalled == old(signalled) + signals
    {
      signals := EvaluateAndCount(ALL);
    }

    method ReplaceLimits(actor: Approval.Actor, contractVersion: nat, limits: Limits)
      returns (r: Result<(), ChangeError>)
      requires Valid()
      modifies this`contractVersion, this`limits, this`warned, this`signalled
      ensures Valid()
      ensures r == if actor != Approval.User then Err(ForbiddenActor)
                   else if contractVersion <= old(this.contractVersion) then Err(ContractVersionNotAdvanced)
                   else Ok(())
      ensures r.Ok? ==>
                this.contractVersion == contractVersion && this.limits == limits && warned == {} && signalled == []
      ensures r.Err? ==> this.contractVersion == old(this.contractVersion) && this.limits == old(this.limits)
                         && warned == old(warned) && signalled == old(signalled)
    {
      if actor != Approval.User {
        return Err(ForbiddenActor);
      }
      if contractVersion <= this.contractVersion {
        return Err(ContractVersionNotAdvanced);
      }
      this.contractVersion := contractVersion;
      this.limits := limits;
      warned, signalled := {}, [];
      return Ok(());
    }
  }

  // ---------- deltas from cumulative totals ----------

  /** The cumulative token total a usage payload carries, when it carries one. */
  function TotalTokens(payload: Json.Value): Option<nat> {
    var direct := Json.Get(payload, "tokenUsage");
    var nested := match Json.Get(payload, "data") case Some(data) => Json.Get(data, "tokenUsage") case None => None;
    match (if direct.Some? then direct else nested)
    case Some(usage) =>
      (match Json.Get(usage, "total") case Some(total) => Json.GetU64(total, "totalTokens") case None => None)
    case None => None
  }

  predicate IsUsageEvent(payload: Json.Value) {
    Json.GetStr(payload, "native_type") == Some("thread/tokenUsage/updated")
  }

  /** One usage event: the record it yields and the high-water mark it leaves. */
  function UsageStep(payload: Json.Value, previous: U64): (Option<Record>, U64) {
    if !IsUsageEvent(payload) then (None, previous)
    else match TotalTokens(payload)
      case Some(total) =>
        (Some(Sample(map[Tokens := Max(total - previous, 0), ModelCalls := 1])), Max(previous, total))
      case None => (Some(UnknownUsage(Tokens)), previous)
  }

  /** The records of a run of agent events, starting from a high-water mark. */
  function UsageRecords(payloads: seq<Json.Value>, previous: U64): seq<Record> {
    if payloads == [] then []
    else
      var (r, next) := UsageStep(payloads[0], previous);
      (if r.Some? then [r.value] else []) + UsageRecords(payloads[1..], next)
  }

  /** The largest cumulative total seen, or the mark it started from. */
  function HighWater(payloads: seq<Json.Value>, previous: U64): U64 {
    if payloads == [] then previous
    else
      var rest := HighWater(payloads[1..], previous);
      if IsUsageEvent(payloads[0]) && TotalTokens(payloads[0]).Some? then Max(TotalTokens(payloads[0]).value, rest)
      else rest
  }

  function TotalsSeen(payloads: seq<Json.Value>): nat {
    if payloads == [] then 0
    else (if IsUsageEvent(payloads[0]) && TotalTokens(payloads[0]).Some? then 1 else 0) + TotalsSeen(payloads[1..])
  }

  /** The source's converter, with its mutable high-water mark. */
  class Meter {
    var previous: U64

    constructor ()
      ensures previous == 0
    {
      previous := 0;
    }

    method Convert(payload: Json.Value) returns (r: Option<Record>)
      modifies this
      ensures (r, previous) == UsageStep(payload, old(previous))
    {
      if Json.GetStr(payload, "native_type") != Some("thread/tokenUsage/updated") {
        return None;
      }
      match TotalTokens(payload) {
        case Some(total) =>
          var delta := Max(total - previous, 0);
          previous := Max(previous, total);
          return Some(Sample(map[Tokens := delta, ModelCalls := 1]));
        case None =>
          return Some(UnknownUsage(Tokens));
      }
    }
  }

  lemma HighWaterFrom(payloads: seq<Json.Value>, a: U64, b: U64)
    requires a <= b
    ensures HighWater(payloads, b) == Max(HighWater(payloads, a), b)
  {
  }

  lemma ReportedCons(r: Record, records: seq<Record>, d: Dimension)
    ensures Reported([r] + records, d) == Reported([r], d) + Reported(records, d)
  {
    if records == [] {
      assert [r] + records == [r];
    } else {
      var n := |records| - 1;
      ReportedCons(r, records[..n], d);
      assert ([r] + records)[..n + 1] == [r] + records[..n];
    }
  }

  /**
   * Repeated or falling totals add nothing: the reported tokens of a run are exactly the rise of the
   * high-water mark, and each total counts one model call.
   */
  lemma {:induction false} UsageReported(payloads: seq<Json.Value>, previous: U64)
    ensures Reported(UsageRecords(payloads, previous), Tokens) == HighWater(payloads, previous) - previous
    ensures Reported(UsageRecords(payloads, previous), ModelCalls) == TotalsSeen(payloads)
  {
    if payloads != [] {
      var (r, next) := UsageStep(payloads[0], previous);
      var rest := UsageRecords(payloads[1..], next);
      UsageReported(payloads[1..], next);
      HighWaterFrom(payloads[1..], previous, next);
      if r.Some? {
        ReportedCons(r.value, rest, Tokens);
        ReportedCons(r.value, rest, ModelCalls);
        SingleReport(r.value);
      } else {
        assert UsageRecords(payloads, previous) == rest;
      }
    }
  }

  lemma SingleReport(r: Record)
    ensures Reported([r], Tokens) == if r.Sample? && Tokens in r.values then r.values[Tokens] else 0
    ensures Reported([r], ModelCalls) == if r.Sample? && ModelCalls in r.values then r.values[ModelCalls] else 0
  {
    assert [r][..0] == [];
  }

  /** A run in which every usage event carries a total leaves the tracker at exactly the largest total seen. */
  lemma RunProjectsHighWater(payloads: seq<Json.Value>)
    requires forall i :: 0 <= i < |payloads| && IsUsageEvent(payloads[i]) ==> TotalTokens(payloads[i]).Some?
    ensures Replay(UsageRecords(payloads, 0), Tokens) == Known(HighWater(payloads, 0))
    ensures Replay(UsageRecords(payloads, 0), ModelCalls) == Known(Min(TotalsSeen(payloads), U64_MAX))
  {
    OnlySamples(payloads, 0);
    UsageReported(payloads, 0);
    SamplesProject(UsageRecords(payloads, 0), Tokens, HighWater(payloads, 0));
    SamplesProject(UsageRecords(payloads, 0), ModelCalls, TotalsSeen(payloads));
  }

  lemma SamplesProject(records: seq<Record>, d: Dimension, total: nat)
    requires AllSamples(records) && Reported(records, d) == total
    ensures Replay(records, d) == Known(Min(total, U64_MAX))
  {
    SamplesAddUp(records, d);
  }

  predicate AllSamples(records: seq<Record>) {
    forall i :: 0 <= i < |records| ==> records[i].Sample?
  }

  lemma SamplesAddUp(records: seq<Record>, d: Dimension)
    requires AllSamples(records)
    ensures Replay(records, d) == Known(Min(Reported(records, d), U64_MAX))
  {
    ReplayMeaning(records, d);
    assert records[0..] == records;
  }

  lemma {:induction false} OnlySamples(payloads: seq<Json.Value>, previous: U64)
    requires forall i :: 0 <= i < |payloads| && IsUsageEvent(payloads[i]) ==> TotalTokens(payloads[i]).Some?
    ensures AllSamples(UsageRecords(payloads, previous))
  {
    if payloads != [] {
      var (r, next) := UsageStep(payloads[0], previous);
      OnlySamples(payloads[1..], next);
      assert r.Some? ==> r.value.Sample?;
      var rest := UsageRecords(payloads[1..], next);
      assert UsageRecords(payloads, previous) == if r.Some? then [r.value] + rest else rest;
    }
  }
}
