/** The append-only event table: appends, batches, deletion, the integrity scan and replay. */
module Ledger {
  import opened Wrappers
  import opened Machine
  import opened Events
  import Sorting
  import Text

  datatype Row = Row(
    mission: string,
    route: string,
    sequence: int,
    id: string,
    schemaVersion: nat,
    kind: Kind,
    occurredAt: string,
    payload: string,
    rawEvidence: Option<string>,
    payloadHash: string)

  datatype Error =
    | InvalidPayload | SequenceViolation | RedactionLimitExceeded | DuplicateConflict | IntegrityFailed | Database

  /** A table is its rows, in the order they were inserted. */
  type Table = seq<Row>

  // ---------- queries ----------

  function ById(t: Table, id: string): Option<Row> {
    if t == [] then None
    else if t[|t| - 1].id == id then Some(t[|t| - 1])
    else ById(t[..|t| - 1], id)
  }

  /** The rows of a mission, in insertion order. */
  function Of(t: Table, mission: string): Table {
    if t == [] then []
    else
      var last := t[|t| - 1];
      Of(t[..|t| - 1], mission) + if last.mission == mission then [last] else []
  }

  /** The largest sequence among some rows. */
  function MaxSequence(rows: Table): Option<int> {
    if rows == [] then None
    else
      var before := MaxSequence(rows[..|rows| - 1]);
      var last := rows[|rows| - 1].sequence;
      Some(if before.Some? then Max(before.value, last) else last)
  }

  function NextSequence(t: Table, mission: string): int {
    match MaxSequence(Of(t, mission))
    case None => 1
    case Some(last) => last + 1
  }

  // ---------- appending ----------

  /** Validation and redaction, before the table is looked at. */
  function Prepare(c: Codec, e: Event): Result<Row, Error> {
    if !c.HashMatches(e) then Err(InvalidPayload)
    else if e.sequence > I64_MAX then Err(SequenceViolation)
    else
      var payload := c.redact(e.payload);
      var raw := if e.rawEvidence.Some? then c.redact(e.rawEvidence.value) else None;
      if payload.None? || (e.rawEvidence.Some? && raw.None?) then Err(RedactionLimitExceeded)
      else Ok(Row(e.mission, e.route, e.sequence, e.id, e.schemaVersion, Stored(e.kind), e.occurredAt,
                  c.encode(payload.value), if raw.Some? then Some(c.encode(raw.value)) else None,
                  c.hash(payload.value)))
  }

  /** The columns a redelivered event must match; the payload is compared by its hash. */
  predicate SameColumns(a: Row, b: Row) {
    && a.mission == b.mission && a.sequence == b.sequence && a.payloadHash == b.payloadHash
    && a.rawEvidence == b.rawEvidence && a.schemaVersion == b.schemaVersion && a.route == b.route
    && a.kind == b.kind && a.occurredAt == b.occurredAt
  }

  function Insert(t: Table, row: Row): Result<Table, Error> {
    match ById(t, row.id)
    case Some(existing) => if SameColumns(existing, row) then Ok(t) else Err(DuplicateConflict)
    case None => if row.sequence == NextSequence(t, row.mission) then Ok(t + [row]) else Err(SequenceViolation)
  }

  function Append(c: Codec, t: Table, e: Event): Result<Table, Error> {
    match Prepare(c, e)
    case Ok(row) => Insert(t, row)
    case Err(error) => Err(error)
  }

  // ---------- batches ----------

  function PrepareAll(c: Codec, es: seq<Event>): Result<seq<Row>, Error> {
    if es == [] then Ok([])
    else match Prepare(c, es[0])
      case Err(error) => Err(error)
      case Ok(row) =>
        match PrepareAll(c, es[1..])
        case Err(error) => Err(error)
        case Ok(rest) => Ok([row] + rest)
  }

  function InsertAll(t: Table, rows: seq<Row>): Result<Table, Error>
    decreases |rows|
  {
    if rows == [] then Ok(t)
    else match Insert(t, rows[0])
      case Err(error) => Err(error)
      case Ok(next) => InsertAll(next, rows[1..])
  }

  /** One transaction: prepare everything, then insert everything or nothing. */
  function AppendBatch(c: Codec, t: Table, es: seq<Event>): Result<Table, Error> {
    match PrepareAll(c, es)
    case Err(error) => Err(error)
    case Ok(rows) => InsertAll(t, rows)
  }

  /** The same events appended one call at a time, stopping at the first refusal. */
  function OneByOne(c: Codec, t: Table, es: seq<Event>): Result<Table, Error>
    decreases |es|
  {
    if es == [] then Ok(t)
    else match Append(c, t, es[0])
      case Err(error) => Err(error)
      case Ok(next) => OneByOne(c, next, es[1..])
  }

  /** A batch is accepted exactly when its events would all be accepted one by one, with the same table. */
  lemma {:induction false} BatchIsOneByOne(c: Codec, t: Table, es: seq<Event>)
    ensures AppendBatch(c, t, es).Ok? <==> OneByOne(c, t, es).Ok?
    ensures AppendBatch(c, t, es).Ok? ==> AppendBatch(c, t, es).value == OneByOne(c, t, es).value
    decreases |es|
  {
    if es != [] && Append(c, t, es[0]).Ok? {
      BatchIsOneByOne(c, Append(c, t, es[0]).value, es[1..]);
      if PrepareAll(c, es[1..]).Ok? {
        var rest := PrepareAll(c, es[1..]).value;
        assert ([Prepare(c, es[0]).value] + rest)[1..] == rest;
      }
    }
  }

  /** An event's row is in the table, as far as redelivery looks. */
  predicate Holds(t: Table, row: Row) {
    ById(t, row.id).Some? && SameColumns(ById(t, row.id).value, row)
  }

  lemma InsertHolds(t: Table, row: Row)
    requires Insert(t, row).Ok?
    ensures t <= Insert(t, row).value && Holds(Insert(t, row).value, row)
    ensures forall id :: ById(t, id).Some? ==> ById(Insert(t, row).value, id) == ById(t, id)
  {
    var t' := Insert(t, row).value;
    if t' != t {
      assert t'[..|t|] == t;
    }
  }

  lemma HeldIsNoOp(t: Table, row: Row)
    requires Holds(t, row)
    ensures Insert(t, row) == Ok(t)
  {
  }

  lemma {:induction false} InsertAllHolds(t: Table, rows: seq<Row>)
    requires InsertAll(t, rows).Ok?
    ensures forall id :: ById(t, id).Some? ==> ById(InsertAll(t, rows).value, id) == ById(t, id)
    ensures forall i :: 0 <= i < |rows| ==> Holds(InsertAll(t, rows).value, rows[i])
    decreases |rows|
  {
    if rows != [] {
      InsertHolds(t, rows[0]);
      InsertAllHolds(Insert(t, rows[0]).value, rows[1..]);
    }
  }

  lemma {:induction false} HeldRowsNoOp(t: Table, rows: seq<Row>)
    requires forall i :: 0 <= i < |rows| ==> Holds(t, rows[i])
    ensures InsertAll(t, rows) == Ok(t)
    decreases |rows|
  {
    if rows != [] {
      HeldIsNoOp(t, rows[0]);
      HeldRowsNoOp(t, rows[1..]);
    }
  }

  /** Resubmitting an accepted batch changes nothing. */
  lemma ResubmissionIsNoOp(c: Codec, t: Table, es: seq<Event>)
    requires AppendBatch(c, t, es).Ok?
    ensures AppendBatch(c, AppendBatch(c, t, es).value, es) == AppendBatch(c, t, es)
  {
    var rows := PrepareAll(c, es).value;
    InsertAllHolds(t, rows);
    HeldRowsNoOp(InsertAll(t, rows).value, rows);
  }

  // ---------- what every reachable table looks like ----------

  /** Each mission's rows are numbered 1, 2, 3, ... in the order they were inserted. */
  ghost predicate Numbered(t: Table) {
    forall m, i :: 0 <= i < |Of(t, m)| ==> Of(t, m)[i].sequence == i + 1
  }

  predicate HashOk(c: Codec, row: Row) {
    c.decode(row.payload).Some? && c.hash(c.decode(row.payload).value) == row.payloadHash
  }

  predicate HashesOk(c: Codec, t: Table) {
    forall i :: 0 <= i < |t| ==> HashOk(c, t[i])
  }

  /** The row reads back: its hash matches and its raw evidence, if any, decodes. */
  predicate RowOk(c: Codec, row: Row) {
    && HashOk(c, row) && IsI64(row.sequence)
    && (row.rawEvidence.Some? ==> c.decode(row.rawEvidence.value).Some?)
  }

  predicate RowsOk(c: Codec, t: Table) {
    forall i :: 0 <= i < |t| ==> RowOk(c, t[i])
  }

  predicate UniqueIds(t: Table) {
    forall i, j :: 0 <= i < j < |t| ==> t[i].id != t[j].id
  }

  ghost predicate Intact(c: Codec, t: Table) {
    Numbered(t) && UniqueIds(t) && RowsOk(c, t)
  }

  lemma OfSnoc(t: Table, row: Row, m: string)
    ensures Of(t + [row], m) == if row.mission == m then Of(t, m) + [row] else Of(t, m)
  {
    assert (t + [row])[..|t|] == t;
  }

  lemma {:induction false} MaxOfNumbered(rows: Table)
    requires forall i :: 0 <= i < |rows| ==> rows[i].sequence == i + 1
    ensures MaxSequence(rows) == if rows == [] then None else Some(|rows|)
  {
    if rows != [] {
      MaxOfNumbered(rows[..|rows| - 1]);
    }
  }

  lemma {:induction false} ByIdNone(t: Table, id: string, i: nat)
    requires ById(t, id).None? && i < |t|
    ensures t[i].id != id
  {
    if i < |t| - 1 {
      ByIdNone(t[..|t| - 1], id, i);
    }
  }

  lemma InsertNumbers(t: Table, row: Row)
    requires Numbered(t) && row.sequence == NextSequence(t, row.mission)
    ensures Numbered(t + [row])
  {
    MaxOfNumbered(Of(t, row.mission));
    forall m, i | 0 <= i < |Of(t + [row], m)| ensures Of(t + [row], m)[i].sequence == i + 1 {
      OfSnoc(t, row, m);
    }
  }

  lemma InsertKeepsIntact(c: Codec, t: Table, row: Row)
    requires Intact(c, t) && RowOk(c, row) && Insert(t, row).Ok?
    ensures Intact(c, Insert(t, row).value)
  {
    if ById(t, row.id).None? {
      InsertNumbers(t, row);
      forall i | 0 <= i < |t| ensures t[i].id != row.id {
        ByIdNone(t, row.id, i);
      }
    }
  }

  lemma {:induction false} InsertAllKeepsIntact(c: Codec, t: Table, rows: seq<Row>)
    requires Intact(c, t) && RowsOk(c, rows) && InsertAll(t, rows).Ok?
    ensures Intact(c, InsertAll(t, rows).value)
    decreases |rows|
  {
    if rows != [] {
      InsertKeepsIntact(c, t, rows[0]);
      InsertAllKeepsIntact(c, Insert(t, rows[0]).value, rows[1..]);
    }
  }

  lemma {:induction false} PreparedOk(c: Codec, es: seq<Event>)
    requires c.RoundTrips() && PrepareAll(c, es).Ok?
    ensures RowsOk(c, PrepareAll(c, es).value)
  {
    if es != [] {
      PreparedOk(c, es[1..]);
    }
  }

  /** Deleting a mission removes its rows and no others. */
  function Without(t: Table, mission: string): Table {
    if t == [] then []
    else
      var last := t[|t| - 1];
      Without(t[..|t| - 1], mission) + if last.mission == mission then [] else [last]
  }

  lemma {:induction false} WithoutOf(t: Table, mission: string, m: string)
    ensures Of(Without(t, mission), m) == if m == mission then [] else Of(t, m)
  {
    if t != [] {
      var front, last := t[..|t| - 1], t[|t| - 1];
      WithoutOf(front, mission, m);
      if last.mission != mission {
        OfSnoc(Without(front, mission), last, m);
      } else {
        assert Without(t, mission) == Without(front, mission);
      }
    }
  }

  lemma {:induction false} WithoutFrom(t: Table, mission: string, i: nat) returns (j: nat)
    requires i < |Without(t, mission)|
    ensures j < |t| && t[j] == Without(t, mission)[i]
  {
    var front := t[..|t| - 1];
    if i < |Without(front, mission)| {
      j := WithoutFrom(front, mission, i);
    } else {
      j := |t| - 1;
    }
  }

  lemma {:induction false} WithoutUnique(t: Table, mission: string)
    requires UniqueIds(t)
    ensures UniqueIds(Without(t, mission))
  {
    if t != [] {
      var front := t[..|t| - 1];
      WithoutUnique(front, mission);
      forall i | 0 <= i < |Without(front, mission)| ensures Without(front, mission)[i].id != t[|t| - 1].id {
        var j := WithoutFrom(front, mission, i);
      }
    }
  }

  lemma WithoutKeepsIntact(c: Codec, t: Table, mission: string)
    requires Intact(c, t)
    ensures Intact(c, Without(t, mission))
  {
    forall m, i | 0 <= i < |Of(Without(t, mission), m)| ensures Of(Without(t, mission), m)[i].sequence == i + 1 {
      WithoutOf(t, mission, m);
    }
    WithoutUnique(t, mission);
    forall i | 0 <= i < |Without(t, mission)| ensures RowOk(c, Without(t, mission)[i]) {
      var j := WithoutFrom(t, mission, i);
    }
  }

  datatype Op = AppendOne(event: Event) | AppendMany(events: seq<Event>) | DeleteMission(mission: string)

  /** A refused operation leaves the table as it was. */
  function After(c: Codec, t: Table, op: Op): Table {
    match op
    case AppendOne(e) => (match Append(c, t, e) case Ok(t') => t' case Err(_) => t)
    case AppendMany(es) => (match AppendBatch(c, t, es) case Ok(t') => t' case Err(_) => t)
    case DeleteMission(m) => Without(t, m)
  }

  function Run(c: Codec, t: Table, ops: seq<Op>): Table
    decreases |ops|
  {
    if ops == [] then t else Run(c, After(c, t, ops[0]), ops[1..])
  }

  lemma AfterKeepsIntact(c: Codec, t: Table, op: Op)
    requires c.RoundTrips() && Intact(c, t)
    ensures Intact(c, After(c, t, op))
  {
    match op {
      case AppendOne(e) =>
        if Append(c, t, e).Ok? {
          InsertKeepsIntact(c, t, Prepare(c, e).value);
        }
      case AppendMany(es) =>
        if AppendBatch(c, t, es).Ok? {
          PreparedOk(c, es);
          InsertAllKeepsIntact(c, t, PrepareAll(c, es).value);
        }
      case DeleteMission(m) =>
        WithoutKeepsIntact(c, t, m);
    }
  }

  /** From an empty table, no sequence of operations leaves a gap, a repeated id or a wrong hash. */
  lemma {:induction false} EveryTableIntact(c: Codec, t: Table, ops: seq<Op>)
    requires c.RoundTrips() && Intact(c, t)
    ensures Intact(c, Run(c, t, ops))
    decreases |ops|
  {
    if ops != [] {
      AfterKeepsIntact(c, t, ops[0]);
      EveryTableIntact(c, After(c, t, ops[0]), ops[1..]);
    }
  }

  // ---------- the integrity scan ----------

  /** `ORDER BY mission_id, sequence` */
  predicate KeyLeq(a: Row, b: Row) {
    if a.mission != b.mission then Text.Leq(a.mission, b.mission) else a.sequence <= b.sequence
  }

  function Listing(t: Table): Table {
    Sorting.Sort(KeyLeq, t)
  }

  predicate SameKey(a: Row, b: Row) {
    a.mission == b.mission && a.sequence == b.sequence
  }

  /** Sequences are 64-bit signed integers. */
  predicate Typed(t: Table) {
    forall i :: 0 <= i < |t| ==> IsI64(t[i].sequence)
  }

  /** The table's primary key, mission and sequence: no row twice, no two rows with the same key. */
  ghost predicate Keyed(t: Table) {
    && (forall r :: multiset(t)[r] <= 1)
    && (forall r, r' :: r in t && r' in t && SameKey(r, r') ==> r == r')
  }

  /** Every mission's sequences are exactly 1..n, whatever the order of the rows. */
  ghost predicate Contiguous(t: Table) {
    forall r :: r in t ==> r.sequence >= 1 && forall k :: 1 <= k < r.sequence ==> HasKey(t, r.mission, k)
  }

  predicate HasKey(t: Table, mission: string, k: int) {
    exists i :: 0 <= i < |t| && t[i].mission == mission && t[i].sequence == k
  }

  /** The row at i starts a mission at 1 or continues the previous row by one. */
  predicate Continues(rows: Table, i: nat)
    requires i < |rows|
  {
    if i > 0 && rows[i - 1].mission == rows[i].mission then rows[i].sequence == rows[i - 1].sequence + 1
    else rows[i].sequence == 1
  }

  /** The first n rows of a listing pass every check. */
  predicate Clean(c: Codec, rows: Table, n: nat)
    requires n <= |rows|
  {
    forall i :: 0 <= i < n ==> HashOk(c, rows[i]) && Continues(rows, i)
  }

  predicate StrictlyOrdered(rows: Table) {
    forall i, j :: 0 <= i < j < |rows| ==> KeyLeq(rows[i], rows[j]) && !KeyLeq(rows[j], rows[i])
  }

  lemma KeyLeqIsPreorder()
    ensures Sorting.TotalPreorder(KeyLeq)
  {
    forall a: Row, b: Row ensures KeyLeq(a, b) || KeyLeq(b, a) {
      Text.LeqTotal(a.mission, b.mission);
    }
    forall a: Row, b: Row, c: Row | KeyLeq(a, b) && KeyLeq(b, c) ensures KeyLeq(a, c) {
      if Text.Leq(a.mission, b.mission) && Text.Leq(b.mission, c.mission) {
        Text.LeqTransitive(a.mission, b.mission, c.mission);
        if a.mission == c.mission {
          Text.LeqAntisymmetric(a.mission, b.mission);
        }
      }
    }
  }

  lemma KeyEqual(a: Row, b: Row)
    requires KeyLeq(a, b) && KeyLeq(b, a)
    ensures SameKey(a, b)
  {
    if a.mission != b.mission {
      Text.LeqAntisymmetric(a.mission, b.mission);
    }
  }

  /** In a strict listing of contiguous missions each row continues the one before it. */
  lemma ContiguousContinues(rows: Table, i: nat)
    requires StrictlyOrdered(rows) && Contiguous(rows) && i < |rows|
    ensures Continues(rows, i)
  {
    assert rows[i] in rows;
    var s := rows[i].sequence;
    if i > 0 && rows[i - 1].mission == rows[i].mission {
      assert rows[i - 1] in rows && rows[i - 1].sequence < s;
      assert HasKey(rows, rows[i].mission, s - 1);
      var k :| 0 <= k < |rows| && rows[k].mission == rows[i].mission && rows[k].sequence == s - 1;
      NoneBetween(rows, k, i);
    } else if s > 1 {
      assert HasKey(rows, rows[i].mission, s - 1);
      var k :| 0 <= k < |rows| && rows[k].mission == rows[i].mission && rows[k].sequence == s - 1;
      Sandwiched(rows, k, i);
    }
  }

  lemma NoneBetween(rows: Table, k: nat, i: nat)
    requires StrictlyOrdered(rows) && k < |rows| && 0 < i < |rows|
    requires SameKey(rows[k], rows[i].(sequence := rows[i].sequence - 1)) && rows[i - 1].mission == rows[i].mission
    ensures k == i - 1
  {
  }

  /** Rows of one mission are adjacent in a listing. */
  lemma Sandwiched(rows: Table, k: nat, i: nat)
    requires StrictlyOrdered(rows) && k < |rows| && i < |rows|
    requires rows[k].mission == rows[i].mission && rows[k].sequence < rows[i].sequence
    ensures k < i && rows[i - 1].mission == rows[i].mission
  {
    assert k < i;
    assert KeyLeq(rows[i - 1], rows[i]);
    assert k == i - 1 || !KeyLeq(rows[i - 1], rows[k]);
  }

  /** A listing in which each row continues the one before it has no gap below any row. */
  lemma {:induction false} ContinuesReaches(rows: Table, i: nat, k: int)
    requires i < |rows| && forall j :: 0 <= j <= i ==> Continues(rows, j)
    ensures rows[i].sequence >= 1
    ensures 1 <= k <= rows[i].sequence ==> HasKey(rows, rows[i].mission, k)
  {
    assert Continues(rows, i);
    if i > 0 && rows[i - 1].mission == rows[i].mission {
      ContinuesReaches(rows, i - 1, k);
    }
  }

  lemma Twice(rows: Table, i: nat, j: nat)
    requires i < j < |rows| && rows[i] == rows[j]
    ensures multiset(rows)[rows[i]] >= 2
  {
    assert rows == rows[..j] + [rows[j]] + rows[j + 1..];
    assert rows[i] in rows[..j];
  }

  /** Listing a keyed table puts its rows in strict order. */
  lemma ListingIsStrict(t: Table)
    requires Keyed(t)
    ensures StrictlyOrdered(Listing(t))
  {
    KeyLeqIsPreorder();
    Sorting.SortSorted(KeyLeq, t);
    Sorting.SameMembers(Listing(t), t);
    var rows := Listing(t);
    forall i, j | 0 <= i < j < |rows| ensures KeyLeq(rows[i], rows[j]) && !KeyLeq(rows[j], rows[i]) {
      if KeyLeq(rows[j], rows[i]) {
        KeyEqual(rows[i], rows[j]);
        assert rows[i] in t && rows[j] in t;
        Twice(rows, i, j);
      }
    }
  }

  lemma ListingTyped(t: Table)
    requires Typed(t)
    ensures Typed(Listing(t))
  {
    Sorting.SameMembers(Listing(t), t);
    forall i | 0 <= i < |Listing(t)| ensures IsI64(Listing(t)[i].sequence) {
      assert Listing(t)[i] in t;
    }
  }

  lemma SameRowsContiguous(t: Table, rows: Table)
    requires forall r :: r in t <==> r in rows
    ensures Contiguous(t) ==> Contiguous(rows)
  {
    if Contiguous(t) {
      forall r, k | r in rows && 1 <= k < r.sequence ensures HasKey(rows, r.mission, k) {
        assert HasKey(t, r.mission, k);
        var i :| 0 <= i < |t| && t[i].mission == r.mission && t[i].sequence == k;
        assert t[i] in rows;
      }
    }
  }

  lemma SameRowsHashes(c: Codec, t: Table, rows: Table)
    requires forall r :: r in t <==> r in rows
    ensures HashesOk(c, t) ==> HashesOk(c, rows)
  {
    forall i | 0 <= i < |rows| && HashesOk(c, t) ensures HashOk(c, rows[i]) {
      assert rows[i] in t;
    }
  }

  /** What the scan checks row by row is what the table must satisfy as a whole. */
  lemma ScanMeaning(c: Codec, t: Table)
    requires Keyed(t)
    ensures var rows := Listing(t);
            Clean(c, rows, |rows|) <==> HashesOk(c, t) && Contiguous(t)
  {
    var rows := Listing(t);
    ListingIsStrict(t);
    Sorting.SameMembers(rows, t);
    SameRowsHashes(c, t, rows);
    SameRowsHashes(c, rows, t);
    SameRowsContiguous(t, rows);
    SameRowsContiguous(rows, t);
    if Contiguous(t) {
      forall i | 0 <= i < |rows| ensures Continues(rows, i) {
        ContiguousContinues(rows, i);
      }
    }
    if forall i :: 0 <= i < |rows| ==> Continues(rows, i) {
      ContinuesIsContiguous(rows);
    }
  }

  lemma ContinuesIsContiguous(rows: Table)
    requires forall i :: 0 <= i < |rows| ==> Continues(rows, i)
    ensures Contiguous(rows)
  {
    forall r | r in rows ensures r.sequence >= 1 && forall k :: 1 <= k < r.sequence ==> HasKey(rows, r.mission, k) {
      var i :| 0 <= i < |rows| && rows[i] == r;
      ContinuesReaches(rows, i, 1);
      forall k | 1 <= k < r.sequence ensures HasKey(rows, r.mission, k) {
        ContinuesReaches(rows, i, k);
      }
    }
  }

  lemma {:induction false} UniqueOnce(t: Table, r: Row)
    requires UniqueIds(t)
    ensures multiset(t)[r] <= 1
  {
    if t != [] {
      var front, last := t[..|t| - 1], t[|t| - 1];
      UniqueOnce(front, r);
      assert t == front + [last];
      assert last !in front;
    }
  }

  lemma {:induction false} OfIndex(t: Table, a: nat) returns (i: nat)
    requires a < |t|
    ensures i < |Of(t, t[a].mission)| && Of(t, t[a].mission)[i] == t[a]
  {
    var n := |t| - 1;
    if a == n {
      i := |Of(t[..n], t[a].mission)|;
    } else {
      i := OfIndex(t[..n], a);
    }
  }

  lemma {:induction false} OfFrom(t: Table, mission: string, i: nat) returns (j: nat)
    requires i < |Of(t, mission)|
    ensures j < |t| && t[j] == Of(t, mission)[i] && t[j].mission == mission
  {
    var front := t[..|t| - 1];
    if i < |Of(front, mission)| {
      j := OfFrom(front, mission, i);
    } else {
      j := |t| - 1;
    }
  }

  /** A table the ledger's own operations produced passes the scan: reopening it never reports damage. */
  lemma IntactPassesScan(c: Codec, t: Table)
    requires Intact(c, t)
    ensures Keyed(t) && Typed(t) && HashesOk(c, t) && Contiguous(t)
  {
    forall r ensures multiset(t)[r] <= 1 {
      UniqueOnce(t, r);
    }
    forall r, r' | r in t && r' in t && SameKey(r, r') ensures r == r' {
      var a :| 0 <= a < |t| && t[a] == r;
      var b :| 0 <= b < |t| && t[b] == r';
      var i := OfIndex(t, a);
      var j := OfIndex(t, b);
    }
    forall r, k | r in t && 1 <= k < r.sequence ensures HasKey(t, r.mission, k) {
      var a :| 0 <= a < |t| && t[a] == r;
      var i := OfIndex(t, a);
      var j := OfFrom(t, r.mission, k - 1);
    }
    forall r | r in t ensures r.sequence >= 1 {
      var a :| 0 <= a < |t| && t[a] == r;
      var i := OfIndex(t, a);
    }
  }

  /** The largest sequence, or 0. */
  function Highest(rows: Table): nat {
    match MaxSequence(rows)
    case Some(n) => Max(n, 0)
    case None => 0
  }

  lemma HighestStep(rows: Table, i: nat)
    requires i < |rows|
    ensures Highest(rows[..i + 1]) == Max(Highest(rows[..i]), rows[i].sequence)
  {
    assert rows[..i + 1][..i] == rows[..i];
  }

  datatype Report = Report(eventCount: nat, lastSequence: nat)

  // ---------- replay ----------

  /** An event rebuilt from its row. */
  function Restore(c: Codec, row: Row): Option<Event> {
    var payload := c.decode(row.payload);
    var raw := if row.rawEvidence.Some? then c.decode(row.rawEvidence.value) else None;
    if payload.None? || row.sequence < 0 || (row.rawEvidence.Some? && raw.None?) then None
    else Some(Event(row.id, row.schemaVersion, row.mission, row.route, row.sequence, row.occurredAt, row.kind,
                    payload.value, raw, row.payloadHash))
  }

  function RestoreAll(c: Codec, rows: Table): Option<seq<Event>> {
    if rows == [] then Some([])
    else
      var front := RestoreAll(c, rows[..|rows| - 1]);
      var last := Restore(c, rows[|rows| - 1]);
      if front.None? || last.None? then None else Some(front.value + [last.value])
  }

  predicate BySequence(a: Row, b: Row) {
    a.sequence <= b.sequence
  }

  function ReplayEvents(c: Codec, t: Table, mission: string): Result<seq<Event>, Error> {
    match RestoreAll(c, Sorting.Sort(BySequence, Of(t, mission)))
    case None => Err(Database)
    case Some(events) =>
      if forall i :: 0 <= i < |events| ==> c.HashMatches(events[i]) then Ok(events) else Err(IntegrityFailed)
  }

  /** What the ledger gives back for an event it accepted: kind by name, payload and evidence redacted. */
  function Persisted(c: Codec, e: Event): Event
    requires Prepare(c, e).Ok?
  {
    var payload := c.redact(e.payload).value;
    e.(kind := Stored(e.kind), payload := payload, payloadHash := c.hash(payload),
       rawEvidence := if e.rawEvidence.Some? then Some(c.redact(e.rawEvidence.value).value) else None)
  }

  lemma RestorePrepared(c: Codec, e: Event)
    requires c.RoundTrips() && Prepare(c, e).Ok?
    ensures Restore(c, Prepare(c, e).value) == Some(Persisted(c, e))
    ensures RowOk(c, Prepare(c, e).value)
  {
  }

  lemma {:induction false} RestoreAllIntact(c: Codec, rows: Table)
    requires RowsOk(c, rows) && forall i :: 0 <= i < |rows| ==> rows[i].sequence >= 0
    ensures var events := RestoreAll(c, rows);
            && events.Some? && |events.value| == |rows|
            && forall i :: 0 <= i < |rows| ==>
                 Restore(c, rows[i]) == Some(events.value[i]) && c.HashMatches(events.value[i])
  {
    if rows != [] {
      RestoreAllIntact(c, rows[..|rows| - 1]);
    }
  }

  lemma {:induction false} SortOfSorted(rows: Table)
    requires forall i :: 0 <= i < |rows| - 1 ==> rows[i].sequence <= rows[i + 1].sequence
    ensures Sorting.Sort(BySequence, rows) == rows
  {
    if rows != [] {
      SortOfSorted(rows[1..]);
      assert rows == [rows[0]] + rows[1..];
    }
  }

  /** Replaying an intact table gives each of the mission's rows, in order, numbered from one. */
  lemma ReplayIntact(c: Codec, t: Table, mission: string)
    requires Intact(c, t)
    ensures ReplayEvents(c, t, mission).Ok?
    ensures var events := ReplayEvents(c, t, mission).value;
            && RestoreAll(c, Of(t, mission)) == Some(events)
            && |events| == |Of(t, mission)|
            && forall i :: 0 <= i < |events| ==>
                 Restore(c, Of(t, mission)[i]) == Some(events[i]) && c.HashMatches(events[i])
                 && events[i].sequence == i + 1
  {
    var rows := Of(t, mission);
    SortOfSorted(rows);
    forall i | 0 <= i < |rows| ensures RowOk(c, rows[i]) {
      var j := OfFrom(t, mission, i);
    }
    RestoreAllIntact(c, rows);
  }

  function Joined(front: seq<Row>, rest: Result<seq<Row>, Error>): Result<seq<Row>, Error> {
    match rest
    case Ok(rows) => Ok(front + rows)
    case Err(error) => Err(error)
  }

  lemma JoinedStep(front: seq<Row>, row: Row, rest: Result<seq<Row>, Error>)
    ensures Joined(front + [row], rest) == Joined(front, Joined([row], rest))
    ensures Joined([], rest) == rest
  {
    if rest.Ok? {
      assert (front + [row]) + rest.value == front + ([row] + rest.value);
      assert [] + rest.value == rest.value;
    }
  }

  // ---------- the ledger ----------

  class EncryptedLedger {
    const codec: Codec
    var rows: Table

    constructor (codec: Codec)
      ensures rows == [] && this.codec == codec
    {
      this.codec := codec;
      rows := [];
    }

    method AppendEvent(e: Event) returns (r: Result<(), Error>)
      modifies this
      ensures match Append(codec, old(rows), e)
              case Ok(t) => r == Ok(()) && rows == t
              case Err(error) => r == Err(error) && rows == old(rows)
    {
      if e.payloadHash != codec.hash(e.payload) {
        return Err(InvalidPayload);
      }
      if e.sequence > I64_MAX {
        return Err(SequenceViolation);
      }
      var prepared := Prepare(codec, e);
      if prepared.Err? {
        return Err(prepared.error);
      }
      var row := prepared.value;
      var last := MaxSequence(Of(rows, e.mission));
      var existing := ById(rows, e.id);
      if existing.Some? {
        return if SameColumns(existing.value, row) then Ok(()) else Err(DuplicateConflict);
      }
      if if last.Some? then row.sequence != last.value + 1 else row.sequence != 1 {
        return Err(SequenceViolation);
      }
      rows := rows + [row];
      return Ok(());
    }

    /** The first loop of a batch: nothing is inserted until every event has been prepared. */
    method PrepareEach(es: seq<Event>) returns (r: Result<seq<Row>, Error>)
      ensures r == PrepareAll(codec, es)
    {
      var prepared: seq<Row> := [];
      assert es[0..] == es && forall rows: seq<Row> :: [] + rows == rows;
      for i := 0 to |es|
        invariant PrepareAll(codec, es) == Joined(prepared, PrepareAll(codec, es[i..]))
      {
        assert es[i..][0] == es[i] && es[i..][1..] == es[i + 1..];
        var row := Prepare(codec, es[i]);
        if row.Err? {
          return Err(row.error);
        }
        JoinedStep(prepared, row.value, PrepareAll(codec, es[i + 1..]));
        prepared := prepared + [row.value];
      }
      assert es[|es|..] == [] && prepared + [] == prepared;
      return Ok(prepared);
    }

    /** The second loop, on the transaction's own view of the table. */
    method InsertEach(prepared: seq<Row>) returns (r: Result<Table, Error>)
      ensures r == InsertAll(rows, prepared)
    {
      var tx := rows;
      for i := 0 to |prepared|
        invariant InsertAll(tx, prepared[i..]) == InsertAll(rows, prepared)
      {
        var row := prepared[i];
        assert prepared[i..][0] == row && prepared[i..][1..] == prepared[i + 1..];
        var last := MaxSequence(Of(tx, row.mission));
        var existing := ById(tx, row.id);
        if existing.Some? {
          if !SameColumns(existing.value, row) {
            return Err(DuplicateConflict);
          }
        } else {
          if if last.Some? then row.sequence != last.value + 1 else row.sequence != 1 {
            return Err(SequenceViolation);
          }
          tx := tx + [row];
        }
      }
      assert prepared[|prepared|..] == [];
      return Ok(tx);
    }

    method AppendEvents(es: seq<Event>) returns (r: Result<(), Error>)
      modifies this
      ensures match AppendBatch(codec, old(rows), es)
              case Ok(t) => r == Ok(()) && rows == t
              case Err(error) => r == Err(error) && rows == old(rows)
    {
      if es == [] {
        return Ok(());
      }
      var prepared := PrepareEach(es);
      if prepared.Err? {
        return Err(prepared.error);
      }
      var committed := InsertEach(prepared.value);
      if committed.Err? {
        return Err(committed.error);
      }
      rows := committed.value;
      return Ok(());
    }

    /** One pass over a listing, checking each row against the one before it. */
    method Scan(listing: Table) returns (ok: bool, count: nat, last: nat)
      requires Typed(listing)
      ensures ok <==> Clean(codec, listing, |listing|)
      ensures ok ==> count == Min(|listing|, U64_MAX) && last == Highest(listing)
    {
      var currentMission := "";
      var expected: nat := 1;
      count, last := 0, 0;
      for i := 0 to |listing|
        invariant Clean(codec, listing, i)
        invariant currentMission == if i == 0 then "" else listing[i - 1].mission
        invariant expected == if i == 0 then 1 else listing[i - 1].sequence + 1
        invariant count == Min(i, U64_MAX)
        invariant last == Highest(listing[..i])
      {
        var row := listing[i];
        HighestStep(listing, i);
        if row.sequence < 0 {
          assert !Continues(listing, i);
          return false, count, last;
        }
        var payload := codec.decode(row.payload);
        if payload.None? || codec.hash(payload.value) != row.payloadHash {
          assert !HashOk(codec, listing[i]);
          return false, count, last;
        }
        if row.mission != currentMission {
          currentMission := row.mission;
          expected := 1;
        }
        if row.sequence != expected {
          assert !Continues(listing, i);
          return false, count, last;
        }
        assert HashOk(codec, listing[i]) && Continues(listing, i);
        expected := SatAdd64(expected, 1);
        count := SatAdd64(count, 1);
        last := Max(last, row.sequence);
      }
      assert listing[..|listing|] == listing;
      ok := true;
    }

    /**
     * The integrity report. On any table with its primary key it succeeds exactly when every mission's
     * sequences are 1..n and every stored hash is right, and it counts the rows it saw.
     */
    method IntegrityReport(quickCheck: bool) returns (r: Result<Report, Error>)
      requires Keyed(rows) && Typed(rows)
      ensures r.Ok? <==> quickCheck && HashesOk(codec, rows) && Contiguous(rows)
      ensures r.Err? ==> r.error == IntegrityFailed
      ensures r.Ok? ==> r.value == Report(Min(|rows|, U64_MAX), Highest(Listing(rows)))
    {
      if !quickCheck {
        return Err(IntegrityFailed);
      }
      ScanMeaning(codec, rows);
      Sorting.SameMembers(Listing(rows), rows);
      ListingTyped(rows);
      var ok, count, last := Scan(Listing(rows));
      return if ok then Ok(Report(count, last)) else Err(IntegrityFailed);
    }
  }
}
