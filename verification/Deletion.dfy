/** Deleting a mission: the impact plan, its application, and the cleanup of the blobs it held. */
module Deletion {
  import opened Wrappers
  import opened Machine
  import opened BlobStore
  import Sorting
  import Text

  /** The hash of a plan's contents. */
  type Digest = (string, nat, nat, seq<Impact>) -> string

  ghost predicate Injective(digest: Digest) {
    forall m, e, b, i, m', e', b', i' ::
      digest(m, e, b, i) == digest(m', e', b', i') ==> m == m' && e == e' && b == b' && i == i'
  }

  /** A plan as it was issued. */
  predicate Unmodified(digest: Digest, plan: Plan) {
    plan.impactHash == digest(plan.mission, plan.events, plan.bytes, plan.blobs)
  }

  /** The mission's attachments joined with the blob table, in the order of the attachments. */
  function Joined(rows: Rows, t: Attachments, mission: string): seq<Impact> {
    if t == [] then []
    else
      var last := t[|t| - 1];
      Joined(rows, t[..|t| - 1], mission)
      + if last.mission == mission && last.blob.hash in rows then [ImpactOf(rows, last.blob.hash)] else []
  }

  function ImpactOf(rows: Rows, h: string): Impact
    requires h in rows
  {
    Impact(Ref(h, rows[h].size, rows[h].media), rows[h].count, rows[h].count == 1)
  }

  predicate ByHash(a: Impact, b: Impact) {
    Text.Leq(a.blob.hash, b.blob.hash)
  }

  function TotalSize(impacts: seq<Impact>): nat {
    if impacts == [] then 0 else TotalSize(impacts[..|impacts| - 1]) + impacts[|impacts| - 1].blob.size
  }

  function DeleteImpact(digest: Digest, s: Store, mission: string): Result<Plan, Error> {
    if mission !in s.usage || s.usage[mission].events == 0 then Err(MissionNotFound)
    else
      var joined := Joined(s.rows, s.attached, mission);
      var blobs := Sorting.Sort(ByHash, joined);
      var bytes := SatAdd64(s.usage[mission].bytes, TotalSize(joined));
      Ok(Plan(mission, s.usage[mission].events, bytes, blobs, digest(mission, s.usage[mission].events, bytes, blobs)))
  }

  function WithoutMission(t: Attachments, mission: string): Attachments {
    if t == [] then []
    else
      var last := t[|t| - 1];
      WithoutMission(t[..|t| - 1], mission) + if last.mission == mission then [] else [last]
  }

  function DecrementAll(rows: Rows, impacts: seq<Impact>): Rows
    decreases |impacts|
  {
    if impacts == [] then rows else DecrementAll(Decremented(rows, impacts[0].blob.hash), impacts[1..])
  }

  /** The id and the time a receipt is given. */
  datatype Stamp = Stamp(id: string, time: string)

  predicate AlreadyApplied(audit: seq<Receipt>, planHash: string) {
    exists i :: 0 <= i < |audit| && audit[i].operation == "delete" && audit[i].planHash == planHash
  }

  /** The lifecycle row is made or, if there is one, marked. */
  function MarkedDeleted(lifecycle: map<string, Lifecycle>, mission: string): map<string, Lifecycle> {
    if mission in lifecycle then lifecycle[mission := lifecycle[mission].(deleted := true)]
    else lifecycle[mission := Lifecycle(false, true, None, None)]
  }

  /** What the transaction writes. */
  function Committed(s: Store, plan: Plan, receipt: Receipt): Store {
    s.(usage := s.usage - {plan.mission}, attached := WithoutMission(s.attached, plan.mission),
       rows := DecrementAll(s.rows, plan.blobs), lifecycle := MarkedDeleted(s.lifecycle, plan.mission),
       audit := s.audit + [receipt])
  }

  /** One transaction, if the plan is new and still what the tables say. */
  function DeleteMission(digest: Digest, s: Store, plan: Plan, stamp: Stamp): (Store, Result<Receipt, Error>) {
    if AlreadyApplied(s.audit, plan.impactHash) then (s, Err(PlanAlreadyApplied))
    else match DeleteImpact(digest, s, plan.mission)
      case Err(error) => (s, Err(error))
      case Ok(current) =>
        if current.events != plan.events || current.bytes != plan.bytes || current.impactHash != plan.impactHash
        then (s, Err(PlanMismatch))
        else
          var receipt := Receipt(stamp.id, "delete", plan.mission, plan.impactHash, stamp.time, plan);
          (Committed(s, plan, receipt), Ok(receipt))
  }

  /** Deleting the files of the plan's blobs that nothing refers to any more. */
  function CleanUp(s: Store, impacts: seq<Impact>): Store
    decreases |impacts|
  {
    if impacts == [] then s else CleanUp(DeleteIfUnreferenced(s, impacts[0].blob).0, impacts[1..])
  }

  // ---------- counting ----------

  /** How many of the impacts are of this blob. */
  function Occurrences(impacts: seq<Impact>, h: string): nat {
    if impacts == [] then 0 else (if impacts[0].blob.hash == h then 1 else 0) + Occurrences(impacts[1..], h)
  }

  /** How many rows attach this blob to this mission. */
  function Held(t: Attachments, mission: string, h: string): nat {
    if t == [] then 0
    else Held(t[..|t| - 1], mission, h) + if t[|t| - 1].mission == mission && t[|t| - 1].blob.hash == h then 1 else 0
  }

  lemma {:induction false} OccurrencesSnoc(xs: seq<Impact>, x: Impact, h: string)
    ensures Occurrences(xs + [x], h) == Occurrences(xs, h) + if x.blob.hash == h then 1 else 0
  {
    if xs == [] {
      assert xs + [x] == [x];
    } else {
      OccurrencesSnoc(xs[1..], x, h);
      assert (xs + [x])[1..] == xs[1..] + [x];
    }
  }

  lemma {:induction false} OccurrencesInsert(x: Impact, xs: seq<Impact>, h: string)
    ensures Occurrences(Sorting.Insert(ByHash, x, xs), h) == Occurrences(xs, h) + if x.blob.hash == h then 1 else 0
  {
    if xs != [] && !ByHash(x, xs[0]) {
      OccurrencesInsert(x, xs[1..], h);
      assert Sorting.Insert(ByHash, x, xs)[1..] == Sorting.Insert(ByHash, x, xs[1..]);
    } else {
      assert ([x] + xs)[1..] == xs;
    }
  }

  lemma {:induction false} OccurrencesSort(xs: seq<Impact>, h: string)
    ensures Occurrences(Sorting.Sort(ByHash, xs), h) == Occurrences(xs, h)
  {
    if xs != [] {
      OccurrencesSort(xs[1..], h);
      OccurrencesInsert(xs[0], Sorting.Sort(ByHash, xs[1..]), h);
    }
  }

  lemma {:induction false} JoinedOccurrences(rows: Rows, t: Attachments, mission: string, h: string)
    requires AllKnown(rows, t)
    ensures Occurrences(Joined(rows, t, mission), h) == Held(t, mission, h)
  {
    if t != [] {
      var front, last := t[..|t| - 1], t[|t| - 1];
      JoinedOccurrences(rows, front, mission, h);
      if last.mission == mission {
        OccurrencesSnoc(Joined(rows, front, mission), ImpactOf(rows, last.blob.hash), h);
      } else {
        assert Joined(rows, t, mission) == Joined(rows, front, mission);
      }
    }
  }

  lemma {:induction false} WithoutMissionCounts(t: Attachments, mission: string, h: string)
    ensures Missions(t, h) == Missions(WithoutMission(t, mission), h) + Held(t, mission, h)
  {
    if t != [] {
      var front, last := t[..|t| - 1], t[|t| - 1];
      WithoutMissionCounts(front, mission, h);
      if last.mission != mission {
        MissionsSnoc(WithoutMission(front, mission), last, h);
      } else {
        assert WithoutMission(t, mission) == WithoutMission(front, mission);
      }
    }
  }

  lemma {:induction false} WithoutMissionFrom(t: Attachments, mission: string)
    requires Keyed(t)
    ensures forall a :: a in WithoutMission(t, mission) <==> a in t && a.mission != mission
    ensures Keyed(WithoutMission(t, mission))
  {
    if t != [] {
      var front, last := t[..|t| - 1], t[|t| - 1];
      WithoutMissionFrom(front, mission);
      assert t == front + [last];
      forall i | 0 <= i < |WithoutMission(front, mission)|
        ensures var a := WithoutMission(front, mission)[i]; a.mission != last.mission || a.blob.hash != last.blob.hash
      {
        assert WithoutMission(front, mission)[i] in front;
      }
    }
  }

  lemma {:induction false} HeldOnce(t: Attachments, mission: string, h: string)
    requires Keyed(t)
    ensures Held(t, mission, h) == if IsAttached(t, mission, h) then 1 else 0
  {
    if t != [] {
      var front, last := t[..|t| - 1], t[|t| - 1];
      HeldOnce(front, mission, h);
      if IsAttached(front, mission, h) {
        var i :| 0 <= i < |front| && front[i].mission == mission && front[i].blob.hash == h;
        assert t[i] == front[i];
      }
      if IsAttached(t, mission, h) {
        var i :| 0 <= i < |t| && t[i].mission == mission && t[i].blob.hash == h;
        assert i < |t| - 1 ==> front[i] == t[i];
      }
    }
  }

  /** The same blobs, with other counts. */
  ghost predicate SameBlobs(a: Rows, b: Rows) {
    a.Keys == b.Keys && forall h :: h in a ==> a[h].size == b[h].size && a[h].media == b[h].media
  }

  lemma {:induction false} DecrementAllCounts(rows: Rows, impacts: seq<Impact>, h: string)
    ensures Count(DecrementAll(rows, impacts), h) == Max(Count(rows, h) - Occurrences(impacts, h), 0)
    ensures SameBlobs(rows, DecrementAll(rows, impacts))
    decreases |impacts|
  {
    if impacts != [] {
      DecrementAllCounts(Decremented(rows, impacts[0].blob.hash), impacts[1..], h);
    }
  }

  /** An unmodified plan is applied only if it is what would be planned now. */
  lemma AppliedPlanIsCurrent(digest: Digest, s: Store, plan: Plan, stamp: Stamp)
    requires Injective(digest) && Unmodified(digest, plan) && DeleteMission(digest, s, plan, stamp).1.Ok?
    ensures plan.blobs == Sorting.Sort(ByHash, Joined(s.rows, s.attached, plan.mission))
    ensures DeleteImpact(digest, s, plan.mission) == Ok(plan)
  {
  }

  /** A plan lists a blob once if the mission has it, and otherwise not. */
  lemma PlannedOnce(rows: Rows, t: Attachments, mission: string, h: string)
    requires AllKnown(rows, t) && Keyed(t)
    ensures Occurrences(Sorting.Sort(ByHash, Joined(rows, t, mission)), h) == Held(t, mission, h) <= 1
  {
    OccurrencesSort(Joined(rows, t, mission), h);
    JoinedOccurrences(rows, t, mission, h);
    HeldOnce(t, mission, h);
  }

  /** Decrementing the counts of what a mission holds takes one exactly from each blob it holds. */
  lemma DecrementedByHeld(rows: Rows, t: Attachments, mission: string, impacts: seq<Impact>, h: string)
    requires Occurrences(impacts, h) == Held(t, mission, h) && Missions(t, h) <= Count(rows, h)
    ensures Count(DecrementAll(rows, impacts), h) == Count(rows, h) - Held(t, mission, h)
    ensures SameBlobs(rows, DecrementAll(rows, impacts))
  {
    WithoutMissionCounts(t, mission, h);
    DecrementAllCounts(rows, impacts, h);
  }

  /** What applying a plan does to one blob: its count drops by one exactly if the mission held it. */
  lemma DeletedCount(digest: Digest, s: Store, plan: Plan, stamp: Stamp, h: string)
    requires Injective(digest) && Unmodified(digest, plan) && Conserved(s)
    requires DeleteMission(digest, s, plan, stamp).1.Ok?
    ensures Occurrences(plan.blobs, h) == Held(s.attached, plan.mission, h) <= 1
    ensures var s' := DeleteMission(digest, s, plan, stamp).0;
            && Count(s'.rows, h) == Count(s.rows, h) - Held(s.attached, plan.mission, h)
            && Missions(s'.attached, h) == Missions(s.attached, h) - Held(s.attached, plan.mission, h)
            && SameBlobs(s.rows, s'.rows)
  {
    AppliedPlanIsCurrent(digest, s, plan, stamp);
    PlannedOnce(s.rows, s.attached, plan.mission, h);
    DecrementedByHeld(s.rows, s.attached, plan.mission, plan.blobs, h);
    WithoutMissionCounts(s.attached, plan.mission, h);
  }

  lemma WithoutMissionKnown(rows: Rows, rows': Rows, t: Attachments, mission: string)
    requires AllKnown(rows, t) && Keyed(t) && SameBlobs(rows, rows')
    ensures AllKnown(rows', WithoutMission(t, mission))
  {
    WithoutMissionFrom(t, mission);
    var kept := WithoutMission(t, mission);
    forall i | 0 <= i < |kept| ensures ValidHash(kept[i].blob.hash) && Known(rows', kept[i].blob) {
      assert kept[i] in t;
    }
  }

  /** What the plan's decrements take from a blob's count, which stops at zero. */
  function Taken(s: Store, plan: Plan, h: string): int {
    Min(Occurrences(plan.blobs, h), Count(s.rows, h))
  }

  /** The plan takes from every count what the mission holds. */
  ghost predicate TakesWhatIsHeld(s: Store, plan: Plan) {
    forall h :: Taken(s, plan, h) == Held(s.attached, plan.mission, h)
  }

  /** The counts after a plan is applied, whatever it lists. */
  lemma CommittedCount(s: Store, plan: Plan, receipt: Receipt, h: string)
    requires Conserved(s)
    ensures var s' := Committed(s, plan, receipt);
            && Count(s'.rows, h) == Count(s.rows, h) - Taken(s, plan, h)
            && Missions(s'.attached, h) + s'.anonymous[h] == Count(s.rows, h) - Held(s.attached, plan.mission, h)
  {
    DecrementAllCounts(s.rows, plan.blobs, h);
    WithoutMissionCounts(s.attached, plan.mission, h);
    assert Count(s.rows, h) == Missions(s.attached, h) + s.anonymous[h];
  }

  lemma CommittedKeepsTables(s: Store, plan: Plan, receipt: Receipt)
    requires Conserved(s)
    ensures var s' := Committed(s, plan, receipt);
            AllKnown(s'.rows, s'.attached) && Keyed(s'.attached) && Filed(s'.rows, s'.files)
  {
    DecrementAllCounts(s.rows, plan.blobs, "");
    WithoutMissionFrom(s.attached, plan.mission);
    WithoutMissionKnown(s.rows, DecrementAll(s.rows, plan.blobs), s.attached, plan.mission);
  }

  lemma CommittedConservesIff(s: Store, plan: Plan, receipt: Receipt)
    requires Conserved(s)
    ensures Conserved(Committed(s, plan, receipt)) <==> TakesWhatIsHeld(s, plan)
  {
    var s' := Committed(s, plan, receipt);
    CommittedKeepsTables(s, plan, receipt);
    if TakesWhatIsHeld(s, plan) {
      forall h ensures Count(s'.rows, h) == Missions(s'.attached, h) + s'.anonymous[h] {
        CommittedCount(s, plan, receipt, h);
        assert Taken(s, plan, h) == Held(s.attached, plan.mission, h);
      }
    }
    if Counted(s'.rows, s'.attached, s'.anonymous) {
      forall h ensures Taken(s, plan, h) == Held(s.attached, plan.mission, h) {
        CommittedCount(s, plan, receipt, h);
        assert Count(s'.rows, h) == Missions(s'.attached, h) + s'.anonymous[h];
      }
    }
  }

  /** A plan that is applied keeps the counts exact exactly when it takes from every count what the mission holds. */
  lemma DeleteMissionConservesIff(digest: Digest, s: Store, plan: Plan, stamp: Stamp)
    requires Conserved(s)
    ensures Conserved(DeleteMission(digest, s, plan, stamp).0) <==>
            DeleteMission(digest, s, plan, stamp).1.Err? || TakesWhatIsHeld(s, plan)
  {
    var (s', r) := DeleteMission(digest, s, plan, stamp);
    if r.Ok? {
      CommittedConservesIff(s, plan, r.value);
    }
  }

  /** A plan as it was issued does, if it is applied. */
  lemma IssuedPlanTakesWhatIsHeld(digest: Digest, s: Store, plan: Plan, stamp: Stamp)
    requires Injective(digest) && Unmodified(digest, plan) && Conserved(s)
    requires DeleteMission(digest, s, plan, stamp).1.Ok?
    ensures TakesWhatIsHeld(s, plan)
  {
    forall h ensures Taken(s, plan, h) == Held(s.attached, plan.mission, h) {
      DeletedCount(digest, s, plan, stamp, h);
      CommittedCount(s, plan, DeleteMission(digest, s, plan, stamp).1.value, h);
    }
  }

  /** The current plan with its blobs left out is applied, and a blob of the mission keeps a count nobody holds. */
  lemma StrippedPlanLeaks(digest: Digest, s: Store, plan: Plan, stamp: Stamp, h: string)
    requires Conserved(s) && IsAttached(s.attached, plan.mission, h)
    requires DeleteImpact(digest, s, plan.mission) == Ok(plan) && !AlreadyApplied(s.audit, plan.impactHash)
    ensures var stripped := plan.(blobs := []);
            && DeleteMission(digest, s, stripped, stamp).1.Ok?
            && !Conserved(DeleteMission(digest, s, stripped, stamp).0)
  {
    var stripped := plan.(blobs := []);
    HeldOnce(s.attached, plan.mission, h);
    DeleteMissionConservesIff(digest, s, stripped, stamp);
    assert Taken(s, stripped, h) == 0;
  }

  lemma {:induction false} CleanUpConserves(s: Store, impacts: seq<Impact>)
    requires Conserved(s)
    ensures Conserved(CleanUp(s, impacts))
    decreases |impacts|
  {
    if impacts != [] {
      DeleteConserves(s, impacts[0].blob);
      CleanUpConserves(DeleteIfUnreferenced(s, impacts[0].blob).0, impacts[1..]);
    }
  }

  // ---------- the prediction ----------

  /** The impacts name blobs as the table has them, if it has them. */
  predicate Current(rows: Rows, impacts: seq<Impact>) {
    forall i :: 0 <= i < |impacts| ==>
      ValidHash(impacts[i].blob.hash) && (impacts[i].blob.hash in rows ==> Known(rows, impacts[i].blob))
  }

  /** Cleanup removes a blob of the list exactly if its count is zero, and touches nothing else. */
  lemma {:induction false} CleanUpEffect(s: Store, impacts: seq<Impact>, h: string)
    requires Current(s.rows, impacts)
    ensures var s' := CleanUp(s, impacts);
            if Occurrences(impacts, h) > 0 && h in s.rows && s.rows[h].count == 0 then h !in s'.rows && h !in s'.files
            else (h in s'.rows <==> h in s.rows) && (h in s.rows ==> s'.rows[h] == s.rows[h])
                 && (h in s'.files <==> h in s.files)
    decreases |impacts|
  {
    if impacts != [] {
      CleanUpEffect(DeleteIfUnreferenced(s, impacts[0].blob).0, impacts[1..], h);
      if impacts[0].blob.hash == h && h in s.rows && s.rows[h].count == 0 {
        CleanUpAbsent(DeleteIfUnreferenced(s, impacts[0].blob).0, impacts[1..], h);
      }
    }
  }

  lemma {:induction false} CleanUpAbsent(s: Store, impacts: seq<Impact>, h: string)
    requires h !in s.rows && h !in s.files
    ensures h !in CleanUp(s, impacts).rows && h !in CleanUp(s, impacts).files
    decreases |impacts|
  {
    if impacts != [] {
      CleanUpAbsent(DeleteIfUnreferenced(s, impacts[0].blob).0, impacts[1..], h);
    }
  }

  lemma {:induction false} JoinedCurrent(rows: Rows, t: Attachments, mission: string, x: Impact)
    requires AllKnown(rows, t) && x in Joined(rows, t, mission)
    ensures ValidHash(x.blob.hash) && x.blob.hash in rows && x == ImpactOf(rows, x.blob.hash)
  {
    var front := t[..|t| - 1];
    if x in Joined(rows, front, mission) {
      JoinedCurrent(rows, front, mission, x);
    }
  }

  lemma PlannedIsJoined(digest: Digest, s: Store, plan: Plan, stamp: Stamp, i: nat)
    requires Injective(digest) && Unmodified(digest, plan) && DeleteMission(digest, s, plan, stamp).1.Ok?
    requires i < |plan.blobs|
    ensures plan.blobs[i] in Joined(s.rows, s.attached, plan.mission)
  {
    AppliedPlanIsCurrent(digest, s, plan, stamp);
    Sorting.SameMembers(plan.blobs, Joined(s.rows, s.attached, plan.mission));
  }

  /** Each impact of an applied plan describes its blob as it was. */
  lemma PlannedImpact(digest: Digest, s: Store, plan: Plan, stamp: Stamp, i: nat)
    requires Injective(digest) && Unmodified(digest, plan) && Conserved(s)
    requires DeleteMission(digest, s, plan, stamp).1.Ok?
    requires i < |plan.blobs|
    ensures var h := plan.blobs[i].blob.hash; ValidHash(h) && h in s.rows && plan.blobs[i] == ImpactOf(s.rows, h)
  {
    PlannedIsJoined(digest, s, plan, stamp, i);
    JoinedCurrent(s.rows, s.attached, plan.mission, plan.blobs[i]);
  }

  lemma {:induction false} OccursAt(impacts: seq<Impact>, i: nat)
    requires i < |impacts|
    ensures Occurrences(impacts, impacts[i].blob.hash) > 0
  {
    if i > 0 {
      OccursAt(impacts[1..], i - 1);
    }
  }

  lemma PlanStaysCurrent(digest: Digest, s: Store, plan: Plan, stamp: Stamp)
    requires Injective(digest) && Unmodified(digest, plan) && Conserved(s)
    requires DeleteMission(digest, s, plan, stamp).1.Ok?
    ensures Current(DeleteMission(digest, s, plan, stamp).0.rows, plan.blobs)
  {
    forall i | 0 <= i < |plan.blobs|
      ensures ValidHash(plan.blobs[i].blob.hash)
              && Known(DeleteMission(digest, s, plan, stamp).0.rows, plan.blobs[i].blob)
    {
      PlannedImpact(digest, s, plan, stamp, i);
      DeletedCount(digest, s, plan, stamp, plan.blobs[i].blob.hash);
    }
  }

  /** The prediction is exact: deletion and cleanup remove a blob of the plan, row and file, exactly if it says so. */
  lemma WillRemoveIsExact(digest: Digest, s: Store, plan: Plan, stamp: Stamp, i: nat)
    requires Injective(digest) && Unmodified(digest, plan) && Conserved(s)
    requires DeleteMission(digest, s, plan, stamp).1.Ok?
    requires i < |plan.blobs|
    ensures var h := plan.blobs[i].blob.hash;
            var s' := CleanUp(DeleteMission(digest, s, plan, stamp).0, plan.blobs);
            if plan.blobs[i].willRemove then h !in s'.rows && h !in s'.files
            else h in s'.rows && s'.rows[h].count == plan.blobs[i].count - 1 > 0 && h in s'.files
  {
    var h := plan.blobs[i].blob.hash;
    var s1 := DeleteMission(digest, s, plan, stamp).0;
    PlannedImpact(digest, s, plan, stamp, i);
    DeletedCount(digest, s, plan, stamp, h);
    OccursAt(plan.blobs, i);
    PlanStaysCurrent(digest, s, plan, stamp);
    CleanUpEffect(s1, plan.blobs, h);
  }

  /** A blob the mission did not hold keeps its row and its file. */
  lemma OthersAreUntouched(digest: Digest, s: Store, plan: Plan, stamp: Stamp, h: string)
    requires Injective(digest) && Unmodified(digest, plan) && Conserved(s)
    requires DeleteMission(digest, s, plan, stamp).1.Ok?
    requires !IsAttached(s.attached, plan.mission, h)
    ensures var s' := CleanUp(DeleteMission(digest, s, plan, stamp).0, plan.blobs);
            && (h in s'.rows <==> h in s.rows) && (h in s.rows ==> s'.rows[h] == s.rows[h])
            && (h in s'.files <==> h in s.files)
  {
    DeletedCount(digest, s, plan, stamp, h);
    HeldOnce(s.attached, plan.mission, h);
    PlanStaysCurrent(digest, s, plan, stamp);
    CleanUpEffect(DeleteMission(digest, s, plan, stamp).0, plan.blobs, h);
  }

  // ---------- as the source does it ----------

  method Preview(digest: Digest, store: EncryptedBlobStore, mission: string) returns (r: Result<Plan, Error>)
    ensures r == DeleteImpact(digest, store.View(), mission)
  {
    if mission !in store.usage || store.usage[mission].events == 0 {
      return Err(MissionNotFound);
    }
    var events := store.usage[mission].events;
    var joined := Joined(store.rows, store.attached, mission);
    var blobs := Sorting.Sort(ByHash, joined);
    var bytes := SatAdd64(store.usage[mission].bytes, TotalSize(joined));
    return Ok(Plan(mission, events, bytes, blobs, digest(mission, events, bytes, blobs)));
  }

  method DecrementPlanned(store: EncryptedBlobStore, impacts: seq<Impact>)
    modifies store`rows
    ensures store.rows == DecrementAll(old(store.rows), impacts)
  {
    for i := 0 to |impacts|
      invariant DecrementAll(old(store.rows), impacts) == DecrementAll(store.rows, impacts[i..])
    {
      assert impacts[i..][1..] == impacts[i + 1..];
      store.rows := Decremented(store.rows, impacts[i].blob.hash);
    }
  }

  method Commit(store: EncryptedBlobStore, plan: Plan, receipt: Receipt)
    modifies store
    ensures store.View() == Committed(old(store.View()), plan, receipt)
  {
    store.usage := store.usage - {plan.mission};
    store.attached := WithoutMission(store.attached, plan.mission);
    DecrementPlanned(store, plan.blobs);
    store.lifecycle := MarkedDeleted(store.lifecycle, plan.mission);
    store.audit := store.audit + [receipt];
  }

  method Apply(digest: Digest, store: EncryptedBlobStore, plan: Plan, stamp: Stamp) returns (r: Result<Receipt, Error>)
    modifies store
    ensures (store.View(), r) == DeleteMission(digest, old(store.View()), plan, stamp)
  {
    if AlreadyApplied(store.audit, plan.impactHash) {
      return Err(PlanAlreadyApplied);
    }
    var current := Preview(digest, store, plan.mission);
    if current.Err? {
      return Err(current.error);
    }
    if current.value.events != plan.events || current.value.bytes != plan.bytes
       || current.value.impactHash != plan.impactHash {
      return Err(PlanMismatch);
    }
    var receipt := Receipt(stamp.id, "delete", plan.mission, plan.impactHash, stamp.time, plan);
    Commit(store, plan, receipt);
    return Ok(receipt);
  }

  /** Cleaning up, with the ith file removable or not, up to the first failure. */
  function CleanUpUntil(s: Store, impacts: seq<Impact>, removable: nat -> bool, i: nat): (Store, Result<(), Error>)
    requires i <= |impacts|
    decreases |impacts| - i
  {
    if i == |impacts| then (s, Ok(()))
    else
      var (s', removed) := TryDelete(s, impacts[i].blob, removable(i));
      if removed.Err? then (s', Err(removed.error)) else CleanUpUntil(s', impacts, removable, i + 1)
  }

  lemma CleanUpCons(s: Store, impacts: seq<Impact>, i: nat, k: nat)
    requires i < k <= |impacts|
    ensures CleanUp(s, impacts[i..k]) == CleanUp(DeleteIfUnreferenced(s, impacts[i].blob).0, impacts[i + 1..k])
  {
    assert impacts[i..k][1..] == impacts[i + 1..k];
  }

  /**
   * It stops at the first impact with a malformed hash, or of an unreferenced blob whose file cannot be removed, and
   * is the cleanup of the impacts before it; without one it succeeds.
   */
  lemma {:induction false} CleanUpUntilMeaning(s: Store, impacts: seq<Impact>, removable: nat -> bool, i: nat)
    returns (k: nat)
    requires i <= |impacts|
    ensures i <= k <= |impacts| && CleanUpUntil(s, impacts, removable, i).0 == CleanUp(s, impacts[i..k])
    ensures CleanUpUntil(s, impacts, removable, i).1.Ok? <==> k == |impacts|
    ensures k < |impacts| ==>
              var (s', r) := CleanUpUntil(s, impacts, removable, i);
              if !ValidHash(impacts[k].blob.hash) then r == Err(InvalidReference)
              else r == Err(FileNotRemoved) && !removable(k)
                   && Known(s'.rows, impacts[k].blob) && Count(s'.rows, impacts[k].blob.hash) == 0
    decreases |impacts| - i
  {
    k := i;
    if i < |impacts| && TryDelete(s, impacts[i].blob, removable(i)).1.Ok? {
      k := CleanUpUntilMeaning(TryDelete(s, impacts[i].blob, removable(i)).0, impacts, removable, i + 1);
      CleanUpCons(s, impacts, i, k);
    }
  }

  method RemoveUnreferenced(store: EncryptedBlobStore, impacts: seq<Impact>, removable: nat -> bool)
    returns (r: Result<(), Error>)
    modifies store
    ensures (store.View(), r) == CleanUpUntil(old(store.View()), impacts, removable, 0)
  {
    for i := 0 to |impacts|
      invariant CleanUpUntil(old(store.View()), impacts, removable, 0) ==
                CleanUpUntil(store.View(), impacts, removable, i)
    {
      var removed := store.Delete(impacts[i].blob, removable(i));
      if removed.Err? {
        return Err(removed.error);
      }
    }
    return Ok(());
  }
}
