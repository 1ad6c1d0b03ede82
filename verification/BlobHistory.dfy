/** Every run of the operations that touch blob counts. */
module BlobHistory {
  import opened Wrappers
  import opened BlobStore
  import opened Deletion
  import opened Snapshot

  datatype Op =
    | Putting(blob: Ref)
    | Retaining(blob: Ref)
    | Releasing(blob: Ref)
    | Attaching(mission: string, blob: Ref)
    | Detaching(mission: string, blob: Ref)
    | Deleting(blob: Ref)
    | DeletingMission(plan: Plan, stamp: Stamp)
    | CleaningUp(impacts: seq<Impact>)
    | Snapshotting(fate: nat -> bool, readable: bool, nodes: seq<Node>, hashes: bool, encodes: bool,
                   bytes: seq<Entry> -> Content)
    | Recording(mission: string, use: Usage)

  function Do(digest: Digest, s: Store, op: Op): Store {
    match op
    case Putting(r) => Put(s, r)
    case Retaining(r) => Retain(s, r).0
    case Releasing(r) => Release(s, r).0
    case Attaching(m, r) => RetainForMission(s, m, r).0
    case Detaching(m, r) => ReleaseForMission(s, m, r).0
    case Deleting(r) => DeleteIfUnreferenced(s, r).0
    case DeletingMission(plan, stamp) => DeleteMission(digest, s, plan, stamp).0
    case CleaningUp(impacts) => CleanUp(s, impacts)
    case Snapshotting(fate, readable, nodes, hashes, encodes, bytes) =>
      Create(fate, 0, s, readable, nodes, hashes, encodes, bytes).0
    case Recording(m, use) => s.(usage := s.usage[m := use])
  }

  /**
   * The release is refused, finds a zero count or gives back an anonymous retain; the plan is refused or takes from
   * every count what the mission holds.
   */
  ghost predicate Harmless(digest: Digest, s: Store, op: Op) {
    match op
    case Releasing(r) =>
      !ValidHash(r.hash) || !Known(s.rows, r) || Count(s.rows, r.hash) == 0 || s.anonymous[r.hash] > 0
    case DeletingMission(plan, stamp) => DeleteMission(digest, s, plan, stamp).1.Err? || TakesWhatIsHeld(s, plan)
    case _ => true
  }

  function Run(digest: Digest, s: Store, ops: seq<Op>): Store
    decreases |ops|
  {
    if ops == [] then s else Run(digest, Do(digest, s, ops[0]), ops[1..])
  }

  ghost predicate AllHarmless(digest: Digest, s: Store, ops: seq<Op>)
    decreases |ops|
  {
    ops == [] || (Harmless(digest, s, ops[0]) && AllHarmless(digest, Do(digest, s, ops[0]), ops[1..]))
  }

  /** Every operation but a release and a mission deletion keeps the counts exact. */
  lemma OtherOpsConserve(digest: Digest, s: Store, op: Op)
    requires Conserved(s) && !op.Releasing? && !op.DeletingMission?
    ensures Conserved(Do(digest, s, op))
  {
    match op {
      case Putting(r) => PutConserves(s, r);
      case Retaining(r) => RetainConserves(s, r);
      case Attaching(m, r) => AttachConserves(s, m, r);
      case Detaching(m, r) => DetachConserves(s, m, r);
      case Deleting(r) => DeleteConserves(s, r);
      case CleaningUp(impacts) => CleanUpConserves(s, impacts);
      case Snapshotting(fate, readable, nodes, hashes, encodes, bytes) =>
        SnapshotConserves(s, fate, readable, nodes, hashes, encodes, bytes);
      case Recording(_, _) =>
    }
  }

  /** A release and a mission deletion do so exactly when they are harmless. */
  lemma DoConservesIff(digest: Digest, s: Store, op: Op)
    requires Conserved(s)
    ensures Conserved(Do(digest, s, op)) <==> Harmless(digest, s, op)
  {
    if op.Releasing? {
      ReleaseConservesIff(s, op.blob);
    } else if op.DeletingMission? {
      DeleteMissionConservesIff(digest, s, op.plan, op.stamp);
    } else {
      OtherOpsConserve(digest, s, op);
    }
  }

  /** Releases of what was retained, and plans as they were issued, are harmless. */
  lemma MatchedIsHarmless(digest: Digest, s: Store, op: Op)
    requires Injective(digest) && Conserved(s)
    requires op.Releasing? ==> s.anonymous[op.blob.hash] > 0
    requires op.DeletingMission? ==> Unmodified(digest, op.plan)
    ensures Harmless(digest, s, op)
  {
    if op.DeletingMission? && DeleteMission(digest, s, op.plan, op.stamp).1.Ok? {
      IssuedPlanTakesWhatIsHeld(digest, s, op.plan, op.stamp);
    }
  }

  lemma SnapshotConserves(s: Store, fate: nat -> bool, readable: bool, nodes: seq<Node>,
                          hashes: bool, encodes: bool, bytes: seq<Entry> -> Content)
    requires Conserved(s)
    ensures Conserved(Create(fate, 0, s, readable, nodes, hashes, encodes, bytes).0)
  {
    CreateIsAllOrNothing(fate, 0, s, readable, nodes, hashes, encodes, bytes);
    var (s', r) := Create(fate, 0, s, readable, nodes, hashes, encodes, bytes);
    TookConserves(s, s', if r.Some? then Holdings(r.value) else []);
  }

  const EMPTY := Store(map[], [], {}, map[], map[], [], multiset{})

  lemma {:induction false} RunConservesFrom(digest: Digest, s: Store, ops: seq<Op>)
    requires Conserved(s) && AllHarmless(digest, s, ops)
    ensures Conserved(Run(digest, s, ops))
    decreases |ops|
  {
    if ops != [] {
      DoConservesIff(digest, s, ops[0]);
      RunConservesFrom(digest, Do(digest, s, ops[0]), ops[1..]);
    }
  }

  /**
   * Over every run of harmless operations from an empty store, a blob's count is its attached missions plus its
   * outstanding anonymous retains; so a blob that anything refers to is in the table and has its file.
   */
  lemma EveryRunConserves(digest: Digest, ops: seq<Op>, h: string)
    requires AllHarmless(digest, EMPTY, ops)
    ensures var s := Run(digest, EMPTY, ops);
            && Count(s.rows, h) == Missions(s.attached, h) + s.anonymous[h]
            && (Missions(s.attached, h) > 0 || s.anonymous[h] > 0 ==> h in s.rows && h in s.files)
  {
    RunConservesFrom(digest, EMPTY, ops);
    var s := Run(digest, EMPTY, ops);
    if Missions(s.attached, h) > 0 || s.anonymous[h] > 0 {
      ReferencedIsKept(s, h);
    }
  }
}
