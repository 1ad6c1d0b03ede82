/** Blob reference counts, shared by missions, anonymous retains, snapshots and mission deletion. */
module BlobStore {
  import opened Wrappers
  import opened Machine

  datatype Ref = Ref(hash: string, size: nat, media: string)

  /** A row of the blob table, under its hash. */
  datatype Row = Row(size: nat, media: string, count: nat)

  type Rows = map<string, Row>

  /** A row of the table of mission attachments; mission and hash are its key. */
  datatype Attachment = Attachment(mission: string, blob: Ref)

  type Attachments = seq<Attachment>

  datatype Usage = Usage(events: nat, bytes: nat)

  /** Whether a mission is archived or deleted, and when and by which plan it was archived. */
  datatype Lifecycle = Lifecycle(archived: bool, deleted: bool, archivedAt: Option<string>, archivePlan: Option<string>)

  /** A blob a mission deletion releases, with its count and whether its file will go. */
  datatype Impact = Impact(blob: Ref, count: nat, willRemove: bool)

  datatype Plan = Plan(mission: string, events: nat, bytes: nat, blobs: seq<Impact>, impactHash: string)

  /** A row of the audit table: an operation that was carried out, with its plan. */
  datatype Receipt = Receipt(
    id: string,
    operation: string,
    mission: string,
    planHash: string,
    createdAt: string,
    impact: Plan)

  datatype Error = InvalidReference | FileNotRemoved | MissionNotFound | PlanMismatch | PlanAlreadyApplied

  /**
   * The tables and the blob files, the events a mission has, its lifecycle, the audit table, and, for the record,
   * the anonymous retains that have not been released.
   */
  datatype Store = Store(
    rows: Rows,
    attached: Attachments,
    files: set<string>,
    usage: map<string, Usage>,
    lifecycle: map<string, Lifecycle>,
    audit: seq<Receipt>,
    anonymous: multiset<string>)

  // ---------- the blob table ----------

  predicate IsHex(c: char) {
    '0' <= c <= '9' || 'a' <= c <= 'f' || 'A' <= c <= 'F'
  }

  predicate ValidHash(h: string) {
    |h| == 64 && forall i :: 0 <= i < |h| ==> IsHex(h[i])
  }

  /** The table has a row with exactly this hash, size and media type. */
  predicate Known(rows: Rows, r: Ref) {
    r.hash in rows && rows[r.hash].size == r.size && rows[r.hash].media == r.media
  }

  function Count(rows: Rows, h: string): nat {
    if h in rows then rows[h].count else 0
  }

  function Adjusted(rows: Rows, h: string, count: nat): Rows {
    if h in rows then rows[h := rows[h].(count := count)] else rows
  }

  /** `ref_count = max(ref_count - 1, 0)` */
  function Decremented(rows: Rows, h: string): Rows {
    Adjusted(rows, h, Max(Count(rows, h) - 1, 0))
  }

  /** Storing bytes whose hash is given; a row that is already there is kept. */
  function Put(s: Store, r: Ref): Store {
    s.(files := s.files + {r.hash},
       rows := if r.hash in s.rows then s.rows else s.rows[r.hash := Row(r.size, r.media, 0)])
  }

  function Retain(s: Store, r: Ref): (Store, Result<(), Error>) {
    if !ValidHash(r.hash) || !Known(s.rows, r) then (s, Err(InvalidReference))
    else (s.(rows := Adjusted(s.rows, r.hash, Count(s.rows, r.hash) + 1), anonymous := s.anonymous + multiset{r.hash}),
          Ok(()))
  }

  /** Whether the released count was the last. */
  function Release(s: Store, r: Ref): (Store, Result<bool, Error>) {
    if !ValidHash(r.hash) || !Known(s.rows, r) then (s, Err(InvalidReference))
    else
      var count := Count(s.rows, r.hash);
      if count == 0 then (s, Ok(false))
      else (s.(rows := Adjusted(s.rows, r.hash, count - 1), anonymous := s.anonymous - multiset{r.hash}),
            Ok(count == 1))
  }

  function DeleteIfUnreferenced(s: Store, r: Ref): (Store, Result<bool, Error>) {
    if !ValidHash(r.hash) then (s, Err(InvalidReference))
    else if !Known(s.rows, r) || Count(s.rows, r.hash) != 0 then (s, Ok(false))
    else (s.(files := s.files - {r.hash}, rows := s.rows - {r.hash}), Ok(true))
  }

  /** The same when the file system may refuse: a file that is there and cannot be removed stays, with its row. */
  function TryDelete(s: Store, r: Ref, removable: bool): (Store, Result<bool, Error>) {
    if DeleteIfUnreferenced(s, r).1 == Ok(true) && r.hash in s.files && !removable then (s, Err(FileNotRemoved))
    else DeleteIfUnreferenced(s, r)
  }

  // ---------- attachments ----------

  predicate IsAttached(t: Attachments, mission: string, h: string) {
    exists i :: 0 <= i < |t| && t[i].mission == mission && t[i].blob.hash == h
  }

  /** Attaching a blob to a mission once. */
  function RetainForMission(s: Store, mission: string, r: Ref): (Store, Result<(), Error>) {
    if !ValidHash(r.hash) || !Known(s.rows, r) then (s, Err(InvalidReference))
    else if IsAttached(s.attached, mission, r.hash) then (s, Ok(()))
    else (s.(attached := s.attached + [Attachment(mission, r)],
             rows := Adjusted(s.rows, r.hash, Count(s.rows, r.hash) + 1)), Ok(()))
  }

  /** The table without one row. */
  function Without(t: Attachments, a: Attachment): Attachments {
    if t == [] then []
    else
      var last := t[|t| - 1];
      Without(t[..|t| - 1], a) + if last == a then [] else [last]
  }

  function ReleaseForMission(s: Store, mission: string, r: Ref): (Store, Result<bool, Error>) {
    if !ValidHash(r.hash) then (s, Err(InvalidReference))
    else if Attachment(mission, r) !in s.attached then (s, Ok(false))
    else (s.(attached := Without(s.attached, Attachment(mission, r)), rows := Decremented(s.rows, r.hash)), Ok(true))
  }

  // ---------- conservation ----------

  /** The number of missions a blob is attached to. */
  function Missions(t: Attachments, h: string): nat {
    if t == [] then 0
    else Missions(t[..|t| - 1], h) + if t[|t| - 1].blob.hash == h then 1 else 0
  }

  /** Every count is the blob's attached missions plus its outstanding anonymous retains. */
  ghost predicate Counted(rows: Rows, t: Attachments, anonymous: multiset<string>) {
    forall h :: Count(rows, h) == Missions(t, h) + anonymous[h]
  }

  /** Attachments name blobs as the table has them. */
  predicate AllKnown(rows: Rows, t: Attachments) {
    forall i :: 0 <= i < |t| ==> ValidHash(t[i].blob.hash) && Known(rows, t[i].blob)
  }

  /** No blob is attached to a mission twice. */
  predicate Keyed(t: Attachments) {
    forall i, j :: 0 <= i < j < |t| ==> t[i].mission != t[j].mission || t[i].blob.hash != t[j].blob.hash
  }

  /** Every blob in the table has its file. */
  predicate Filed(rows: Rows, files: set<string>) {
    forall h :: h in rows ==> h in files
  }

  ghost predicate Conserved(s: Store) {
    Counted(s.rows, s.attached, s.anonymous) && AllKnown(s.rows, s.attached) && Keyed(s.attached)
    && Filed(s.rows, s.files)
  }

  lemma MissionsSnoc(t: Attachments, a: Attachment, h: string)
    ensures Missions(t + [a], h) == Missions(t, h) + if a.blob.hash == h then 1 else 0
  {
    assert (t + [a])[..|t|] == t;
  }

  lemma {:induction false} MissionsPositive(t: Attachments, i: nat)
    requires i < |t|
    ensures Missions(t, t[i].blob.hash) > 0
  {
    if i < |t| - 1 {
      MissionsPositive(t[..|t| - 1], i);
    }
  }

  lemma PutConserves(s: Store, r: Ref)
    requires Conserved(s)
    ensures Conserved(Put(s, r))
  {
  }

  lemma RetainConserves(s: Store, r: Ref)
    requires Conserved(s)
    ensures Conserved(Retain(s, r).0)
  {
  }

  /** A release keeps the counts exact unless it takes a count that is a mission's. */
  lemma ReleaseConservesIff(s: Store, r: Ref)
    requires Conserved(s)
    ensures Conserved(Release(s, r).0) <==>
            !ValidHash(r.hash) || !Known(s.rows, r) || Count(s.rows, r.hash) == 0 || s.anonymous[r.hash] > 0
  {
    var s' := Release(s, r).0;
    if ValidHash(r.hash) && Known(s.rows, r) && Count(s.rows, r.hash) > 0 {
      assert Count(s'.rows, r.hash) == Count(s.rows, r.hash) - 1;
      if s.anonymous[r.hash] > 0 {
        assert Counted(s'.rows, s'.attached, s'.anonymous);
      }
    }
  }

  lemma AttachConserves(s: Store, mission: string, r: Ref)
    requires Conserved(s)
    ensures Conserved(RetainForMission(s, mission, r).0)
  {
    var s' := RetainForMission(s, mission, r).0;
    if s' != s {
      forall h ensures Count(s'.rows, h) == Missions(s'.attached, h) + s'.anonymous[h] {
        MissionsSnoc(s.attached, Attachment(mission, r), h);
      }
    }
  }

  lemma {:induction false} WithoutMissions(t: Attachments, a: Attachment, h: string)
    requires Keyed(t)
    ensures Missions(Without(t, a), h) == Missions(t, h) - if a in t && a.blob.hash == h then 1 else 0
    ensures forall b :: b in Without(t, a) <==> b in t && b != a
  {
    if t != [] {
      var front, last := t[..|t| - 1], t[|t| - 1];
      WithoutMissions(front, a, h);
      assert t == front + [last];
      if last != a {
        MissionsSnoc(Without(front, a), last, h);
      } else {
        assert Without(t, a) == Without(front, a);
        assert a !in front;
      }
    }
  }

  lemma {:induction false} WithoutKeyed(t: Attachments, a: Attachment)
    requires Keyed(t)
    ensures Keyed(Without(t, a))
  {
    if t != [] {
      var front, last := t[..|t| - 1], t[|t| - 1];
      WithoutKeyed(front, a);
      WithoutMissions(front, a, "");
      forall i | 0 <= i < |Without(front, a)|
        ensures Without(front, a)[i].mission != last.mission || Without(front, a)[i].blob.hash != last.blob.hash
      {
        assert Without(front, a)[i] in front;
      }
    }
  }

  lemma WithoutKnown(rows: Rows, t: Attachments, a: Attachment)
    requires AllKnown(rows, t) && Keyed(t)
    ensures AllKnown(rows, Without(t, a))
  {
    forall j | 0 <= j < |Without(t, a)|
      ensures ValidHash(Without(t, a)[j].blob.hash) && Known(rows, Without(t, a)[j].blob)
    {
      WithoutMissions(t, a, "");
      assert Without(t, a)[j] in t;
    }
  }

  lemma DecrementedKnown(rows: Rows, t: Attachments, h: string)
    requires AllKnown(rows, t)
    ensures AllKnown(Decremented(rows, h), t)
  {
  }

  lemma DetachConserves(s: Store, mission: string, r: Ref)
    requires Conserved(s)
    ensures Conserved(ReleaseForMission(s, mission, r).0)
  {
    var a := Attachment(mission, r);
    var s' := ReleaseForMission(s, mission, r).0;
    if a in s.attached && ValidHash(r.hash) {
      var i :| 0 <= i < |s.attached| && s.attached[i] == a;
      MissionsPositive(s.attached, i);
      WithoutKeyed(s.attached, a);
      WithoutKnown(s.rows, s.attached, a);
      DecrementedKnown(s.rows, s'.attached, r.hash);
      forall h ensures Count(s'.rows, h) == Missions(s'.attached, h) + s'.anonymous[h] {
        WithoutMissions(s.attached, a, h);
      }
    }
  }

  lemma DeleteConserves(s: Store, r: Ref)
    requires Conserved(s)
    ensures Conserved(DeleteIfUnreferenced(s, r).0)
  {
    var s' := DeleteIfUnreferenced(s, r).0;
    if s' != s {
      forall i | 0 <= i < |s.attached| ensures Known(s'.rows, s.attached[i].blob) {
        MissionsPositive(s.attached, i);
      }
      assert Counted(s'.rows, s'.attached, s'.anonymous);
    }
  }

  /** A blob that is attached or anonymously retained is in the table, counted, and has its file. */
  lemma ReferencedIsKept(s: Store, h: string)
    requires Conserved(s) && (Missions(s.attached, h) > 0 || s.anonymous[h] > 0)
    ensures h in s.rows && s.rows[h].count > 0 && h in s.files
  {
  }

  /** The state after a new blob is stored and attached, released without a retain, and deleted. */
  lemma AttachedThenReleased(s: Store, mission: string, r: Ref)
    requires ValidHash(r.hash) && r.hash !in s.rows && !IsAttached(s.attached, mission, r.hash)
    ensures var attached := RetainForMission(Put(s, r), mission, r).0;
            var released := Release(attached, r).0;
            && attached.rows[r.hash] == Row(r.size, r.media, 1) && released.rows[r.hash] == Row(r.size, r.media, 0)
            && released.attached == attached.attached == s.attached + [Attachment(mission, r)]
  {
  }

  /**
   * A release that no retain precedes, on a blob that is attached to a mission: the mission's count is gone, and the
   * blob, still attached, is deleted with its file.
   */
  lemma UnmatchedReleaseLosesBlob(s: Store, mission: string, r: Ref)
    requires Conserved(s) && ValidHash(r.hash) && r.hash !in s.rows
    ensures var attached := RetainForMission(Put(s, r), mission, r).0;
            var deleted := DeleteIfUnreferenced(Release(attached, r).0, r);
            && Conserved(attached) && deleted.1 == Ok(true)
            && IsAttached(deleted.0.attached, mission, r.hash)
            && r.hash !in deleted.0.rows && r.hash !in deleted.0.files
  {
    PutConserves(s, r);
    AttachConserves(Put(s, r), mission, r);
    UnknownIsUnattached(s, mission, r.hash);
    AttachedThenReleased(s, mission, r);
    DeletedWhileAttached(Release(RetainForMission(Put(s, r), mission, r).0, r).0, s.attached, mission, r);
  }

  lemma DeletedWhileAttached(s: Store, t: Attachments, mission: string, r: Ref)
    requires ValidHash(r.hash) && r.hash in s.rows && s.rows[r.hash] == Row(r.size, r.media, 0)
    requires s.attached == t + [Attachment(mission, r)]
    ensures var (s', deleted) := DeleteIfUnreferenced(s, r);
            && deleted == Ok(true) && r.hash !in s'.rows && r.hash !in s'.files
            && IsAttached(s'.attached, mission, r.hash)
  {
    assert s.attached[|t|] == Attachment(mission, r);
  }

  lemma UnknownIsUnattached(s: Store, mission: string, h: string)
    requires Conserved(s) && h !in s.rows
    ensures !IsAttached(s.attached, mission, h)
  {
    forall i | 0 <= i < |s.attached| ensures s.attached[i].blob.hash != h {
      assert Known(s.rows, s.attached[i].blob);
    }
  }

  // ---------- the store ----------

  /** The store of the source: its two tables and its files. */
  class EncryptedBlobStore {
    var rows: Rows
    var attached: Attachments
    var files: set<string>
    var usage: map<string, Usage>
    var lifecycle: map<string, Lifecycle>
    var audit: seq<Receipt>
    ghost var anonymous: multiset<string>

    ghost function View(): Store
      reads this
    {
      Store(rows, attached, files, usage, lifecycle, audit, anonymous)
    }

    constructor ()
      ensures View() == Store(map[], [], {}, map[], map[], [], multiset{})
    {
      rows, attached, files, usage := map[], [], {}, map[];
      lifecycle, audit, anonymous := map[], [], multiset{};
    }

    method PutBlob(r: Ref)
      modifies this
      ensures View() == Put(old(View()), r)
    {
      if r.hash !in files {
        files := files + {r.hash};
      }
      if r.hash !in rows {
        rows := rows[r.hash := Row(r.size, r.media, 0)];
      }
      assert files == old(files) + {r.hash};
    }

    method RetainBlob(r: Ref) returns (result: Result<(), Error>)
      modifies this
      ensures (View(), result) == Retain(old(View()), r)
    {
      if !ValidHash(r.hash) || !Known(rows, r) {
        return Err(InvalidReference);
      }
      rows := rows[r.hash := rows[r.hash].(count := rows[r.hash].count + 1)];
      anonymous := anonymous + multiset{r.hash};
      return Ok(());
    }

    method Attach(mission: string, r: Ref) returns (result: Result<(), Error>)
      modifies this
      ensures (View(), result) == RetainForMission(old(View()), mission, r)
    {
      if !ValidHash(r.hash) || !Known(rows, r) {
        return Err(InvalidReference);
      }
      if !IsAttached(attached, mission, r.hash) {
        attached := attached + [Attachment(mission, r)];
        rows := rows[r.hash := rows[r.hash].(count := rows[r.hash].count + 1)];
      }
      return Ok(());
    }

    method Detach(mission: string, r: Ref) returns (result: Result<bool, Error>)
      modifies this
      ensures (View(), result) == ReleaseForMission(old(View()), mission, r)
    {
      if !ValidHash(r.hash) {
        return Err(InvalidReference);
      }
      if Attachment(mission, r) !in attached {
        return Ok(false);
      }
      attached := Without(attached, Attachment(mission, r));
      rows := Decremented(rows, r.hash);
      return Ok(true);
    }

    method ReleaseBlob(r: Ref) returns (result: Result<bool, Error>)
      modifies this
      ensures (View(), result) == Release(old(View()), r)
    {
      if !ValidHash(r.hash) || !Known(rows, r) {
        return Err(InvalidReference);
      }
      var count := rows[r.hash].count;
      if count == 0 {
        return Ok(false);
      }
      rows := rows[r.hash := rows[r.hash].(count := count - 1)];
      anonymous := anonymous - multiset{r.hash};
      return Ok(count == 1);
    }

    method Delete(r: Ref, removable: bool) returns (result: Result<bool, Error>)
      modifies this
      ensures (View(), result) == TryDelete(old(View()), r, removable)
    {
      if !ValidHash(r.hash) {
        return Err(InvalidReference);
      }
      if !Known(rows, r) || rows[r.hash].count != 0 {
        return Ok(false);
      }
      if r.hash in files {
        if !removable {
          return Err(FileNotRemoved);
        }
        files := files - {r.hash};
      }
      assert files == old(files) - {r.hash};
      rows := rows - {r.hash};
      return Ok(true);
    }
  }
}
