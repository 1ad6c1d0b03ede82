/** Snapshots of a directory tree: the references they take, and give back when they fail part-way. */
module Snapshot {
  import opened Wrappers
  import opened BlobStore
  import Sorting
  import Text

  datatype Content = Content(hash: string, size: nat)

  /**
   * What walking a directory finds: an entry that cannot be read, one that is skipped (ignored, forbidden, a link
   * or a special file), a file with its bytes if they can be read, or a directory with its entries if it can.
   */
  datatype Node =
    | Broken
    | Skipped
    | Leaf(path: string, content: Option<Content>)
    | Folder(readable: bool, children: seq<Node>)

  datatype Entry = Entry(path: string, blob: Ref)

  const OCTETS := "application/octet-stream"
  const MANIFEST := "application/vnd.mission.snapshot+json"

  /** The walk so far: the store, how often it has been called, and the entries taken. */
  datatype Walk = Walk(store: Store, calls: nat, entries: seq<Entry>)

  /** Storing and retaining a blob; either call may fail by itself, or the store may refuse the reference. */
  function Take(fate: nat -> bool, w: Walk, r: Ref): (Walk, bool) {
    if !fate(w.calls) then (w.(calls := w.calls + 1), false)
    else
      var stored := w.(store := Put(w.store, r), calls := w.calls + 2);
      if !fate(w.calls + 1) then (stored, false)
      else
        var (s, retained) := Retain(stored.store, r);
        (stored.(store := s), retained.Ok?)
  }

  function Visit(fate: nat -> bool, w: Walk, node: Node): (Walk, bool)
    decreases node
  {
    match node
    case Broken => (w, false)
    case Skipped => (w, true)
    case Leaf(path, content) =>
      if content.None? then (w, false)
      else
        var blob := Ref(content.value.hash, content.value.size, OCTETS);
        var (w', ok) := Take(fate, w, blob);
        if ok then (w'.(entries := w'.entries + [Entry(path, blob)]), true) else (w', false)
    case Folder(readable, children) => if readable then Collect(fate, w, children) else (w, false)
  }

  function Collect(fate: nat -> bool, w: Walk, nodes: seq<Node>): (Walk, bool)
    decreases nodes
  {
    if nodes == [] then (w, true)
    else
      var (w', ok) := Visit(fate, w, nodes[0]);
      if ok then Collect(fate, w', nodes[1..]) else (w', false)
  }

  /** Giving references back, last first. */
  function ReleaseAll(s: Store, entries: seq<Entry>): Store
    decreases |entries|
  {
    if entries == [] then s else ReleaseAll(Release(s, entries[|entries| - 1].blob).0, entries[..|entries| - 1])
  }

  predicate ByPath(a: Entry, b: Entry) {
    Text.Leq(a.path, b.path)
  }

  datatype Manifest = Manifest(entries: seq<Entry>, blob: Ref)

  /**
   * A snapshot of a root directory. `hashes` and `encodes`: whether the entries can be hashed and the manifest
   * written; `bytes`: what is written.
   */
  function Create(fate: nat -> bool, calls: nat, s: Store, readable: bool, nodes: seq<Node>,
                  hashes: bool, encodes: bool, bytes: seq<Entry> -> Content): (Store, Option<Manifest>)
  {
    var (w, ok) := Visit(fate, Walk(s, calls, []), Folder(readable, nodes));
    if !ok then (ReleaseAll(w.store, w.entries), None)
    else
      var entries := Sorting.Sort(ByPath, w.entries);
      if !hashes || !encodes then (ReleaseAll(w.store, entries), None)
      else
        var blob := Ref(bytes(entries).hash, bytes(entries).size, MANIFEST);
        var (w', kept) := Take(fate, w, blob);
        if kept then (w'.store, Some(Manifest(entries, blob))) else (ReleaseAll(w'.store, entries), None)
  }

  // ---------- what the references add up to ----------

  /** How many of the entries are of this blob. */
  function Times(entries: seq<Entry>, h: string): nat {
    if entries == [] then 0 else (if entries[0].blob.hash == h then 1 else 0) + Times(entries[1..], h)
  }

  /** Nothing but new rows and files, and other counts. */
  ghost predicate Grown(before: Store, after: Store) {
    && after.attached == before.attached && after.usage == before.usage
    && after.lifecycle == before.lifecycle && after.audit == before.audit
    && (forall h :: h in before.rows ==>
          h in after.rows && after.rows[h].size == before.rows[h].size && after.rows[h].media == before.rows[h].media)
    && before.files <= after.files
    && (Filed(before.rows, before.files) ==> Filed(after.rows, after.files))
  }

  /** The counts, and the anonymous retains, are higher by exactly one for each entry. */
  ghost predicate Raised(before: Store, after: Store, entries: seq<Entry>) {
    forall h :: RaisedAt(before, after, entries, h)
  }

  predicate RaisedAt(before: Store, after: Store, entries: seq<Entry>, h: string) {
    && Count(after.rows, h) == Count(before.rows, h) + Times(entries, h)
    && after.anonymous[h] == before.anonymous[h] + Times(entries, h)
  }

  predicate Usable(s: Store, entries: seq<Entry>) {
    forall e :: e in entries ==> ValidHash(e.blob.hash) && Known(s.rows, e.blob)
  }

  /** The store holds exactly one more reference for each entry, and each can be given back. */
  ghost predicate Took(before: Store, after: Store, entries: seq<Entry>) {
    Grown(before, after) && Raised(before, after, entries) && Usable(after, entries)
  }

  lemma {:induction false} TimesSnoc(entries: seq<Entry>, e: Entry, h: string)
    ensures Times(entries + [e], h) == Times(entries, h) + if e.blob.hash == h then 1 else 0
  {
    if entries == [] {
      assert entries + [e] == [e];
    } else {
      TimesSnoc(entries[1..], e, h);
      assert (entries + [e])[1..] == entries[1..] + [e];
    }
  }

  lemma PutGrows(before: Store, s: Store, r: Ref, entries: seq<Entry>)
    requires Took(before, s, entries)
    ensures Took(before, Put(s, r), entries)
  {
    forall h ensures RaisedAt(before, Put(s, r), entries, h) {
      assert RaisedAt(before, s, entries, h);
    }
  }

  lemma RetainTakes(before: Store, s: Store, e: Entry, entries: seq<Entry>)
    requires Took(before, s, entries) && Retain(s, e.blob).1.Ok?
    ensures Took(before, Retain(s, e.blob).0, entries + [e])
  {
    var s' := Retain(s, e.blob).0;
    forall h ensures RaisedAt(before, s', entries + [e], h) {
      assert RaisedAt(before, s, entries, h);
      TimesSnoc(entries, e, h);
    }
    assert Usable(s', entries + [e]);
  }

  lemma TakeTakes(fate: nat -> bool, before: Store, w: Walk, e: Entry, entries: seq<Entry>)
    requires Took(before, w.store, entries)
    ensures var (w', ok) := Take(fate, w, e.blob);
            w'.entries == w.entries && Took(before, w'.store, if ok then entries + [e] else entries)
  {
    if fate(w.calls) {
      var s := Put(w.store, e.blob);
      PutGrows(before, w.store, e.blob, entries);
      if Retain(s, e.blob).1.Ok? {
        RetainTakes(before, s, e, entries);
      }
    }
  }

  lemma {:induction false} VisitTakes(fate: nat -> bool, before: Store, w: Walk, node: Node)
    requires Took(before, w.store, w.entries)
    ensures var w' := Visit(fate, w, node).0; Took(before, w'.store, w'.entries)
    decreases node
  {
    match node {
      case Leaf(path, content) =>
        if content.Some? {
          var e := Entry(path, Ref(content.value.hash, content.value.size, OCTETS));
          TakeTakes(fate, before, w, e, w.entries);
        }
      case Folder(readable, children) =>
        if readable {
          CollectTakes(fate, before, w, children);
        }
      case _ =>
    }
  }

  lemma {:induction false} CollectTakes(fate: nat -> bool, before: Store, w: Walk, nodes: seq<Node>)
    requires Took(before, w.store, w.entries)
    ensures var w' := Collect(fate, w, nodes).0; Took(before, w'.store, w'.entries)
    decreases nodes
  {
    if nodes != [] {
      VisitTakes(fate, before, w, nodes[0]);
      var (w', ok) := Visit(fate, w, nodes[0]);
      if ok {
        CollectTakes(fate, before, w', nodes[1..]);
      }
    }
  }

  lemma ReleaseLowers(before: Store, s: Store, entries: seq<Entry>, e: Entry, h: string)
    requires ValidHash(e.blob.hash) && Known(s.rows, e.blob)
    requires RaisedAt(before, s, entries + [e], h) && RaisedAt(before, s, entries + [e], e.blob.hash)
    ensures RaisedAt(before, Release(s, e.blob).0, entries, h)
  {
    TimesSnoc(entries, e, h);
    TimesSnoc(entries, e, e.blob.hash);
  }

  lemma ReleaseGivesBack(before: Store, s: Store, entries: seq<Entry>, e: Entry)
    requires Took(before, s, entries + [e])
    ensures Took(before, Release(s, e.blob).0, entries)
  {
    var s' := Release(s, e.blob).0;
    assert e in entries + [e];
    forall h ensures RaisedAt(before, s', entries, h) {
      assert RaisedAt(before, s, entries + [e], h) && RaisedAt(before, s, entries + [e], e.blob.hash);
      ReleaseLowers(before, s, entries, e, h);
    }
    forall x | x in entries ensures ValidHash(x.blob.hash) && Known(s'.rows, x.blob) {
      assert x in entries + [e];
    }
  }

  lemma {:induction false} ReleaseAllGivesBack(before: Store, s: Store, entries: seq<Entry>)
    requires Took(before, s, entries)
    ensures Took(before, ReleaseAll(s, entries), [])
    decreases |entries|
  {
    if entries != [] {
      var front, last := entries[..|entries| - 1], entries[|entries| - 1];
      assert entries == front + [last];
      ReleaseGivesBack(before, s, front, last);
      ReleaseAllGivesBack(before, Release(s, last.blob).0, front);
    }
  }

  lemma {:induction false} TimesInsert(e: Entry, entries: seq<Entry>, h: string)
    ensures Times(Sorting.Insert(ByPath, e, entries), h) == Times(entries, h) + if e.blob.hash == h then 1 else 0
  {
    if entries != [] && !ByPath(e, entries[0]) {
      TimesInsert(e, entries[1..], h);
      assert Sorting.Insert(ByPath, e, entries)[1..] == Sorting.Insert(ByPath, e, entries[1..]);
    } else {
      assert ([e] + entries)[1..] == entries;
    }
  }

  lemma {:induction false} TimesSort(entries: seq<Entry>, h: string)
    ensures Times(Sorting.Sort(ByPath, entries), h) == Times(entries, h)
  {
    if entries != [] {
      TimesSort(entries[1..], h);
      TimesInsert(entries[0], Sorting.Sort(ByPath, entries[1..]), h);
    }
  }

  lemma SortedTook(before: Store, s: Store, entries: seq<Entry>)
    requires Took(before, s, entries)
    ensures Took(before, s, Sorting.Sort(ByPath, entries))
  {
    forall h ensures RaisedAt(before, s, Sorting.Sort(ByPath, entries), h) {
      assert RaisedAt(before, s, entries, h);
      TimesSort(entries, h);
    }
    Sorting.SameMembers(Sorting.Sort(ByPath, entries), entries);
  }

  /** What a snapshot holds when it succeeds: its entries' blobs and its manifest. */
  function Holdings(m: Manifest): seq<Entry> {
    m.entries + [Entry("", m.blob)]
  }

  /**
   * Whatever fails and wherever: a failed snapshot leaves every count, every attachment and every anonymous retain
   * as it was, and one that succeeds holds exactly one reference for each entry and one for the manifest.
   */
  lemma CreateIsAllOrNothing(fate: nat -> bool, calls: nat, s: Store, readable: bool, nodes: seq<Node>,
                             hashes: bool, encodes: bool, bytes: seq<Entry> -> Content)
    ensures var (s', r) := Create(fate, calls, s, readable, nodes, hashes, encodes, bytes);
            Took(s, s', if r.Some? then Holdings(r.value) else [])
  {
    assert Took(s, s, []);
    var root := Folder(readable, nodes);
    VisitTakes(fate, s, Walk(s, calls, []), root);
    var (w, ok) := Visit(fate, Walk(s, calls, []), root);
    if !ok {
      ReleaseAllGivesBack(s, w.store, w.entries);
    } else {
      FinishIsAllOrNothing(fate, s, w, hashes, encodes, bytes);
    }
  }

  lemma FinishIsAllOrNothing(fate: nat -> bool, s: Store, w: Walk, hashes: bool, encodes: bool,
                             bytes: seq<Entry> -> Content)
    requires Took(s, w.store, w.entries)
    ensures var entries := Sorting.Sort(ByPath, w.entries);
            var blob := Ref(bytes(entries).hash, bytes(entries).size, MANIFEST);
            var (w', kept) := Take(fate, w, blob);
            && Took(s, ReleaseAll(w.store, entries), [])
            && (if kept then Took(s, w'.store, Holdings(Manifest(entries, blob)))
                else Took(s, ReleaseAll(w'.store, entries), []))
  {
    var entries := Sorting.Sort(ByPath, w.entries);
    var blob := Ref(bytes(entries).hash, bytes(entries).size, MANIFEST);
    SortedTook(s, w.store, w.entries);
    ReleaseAllGivesBack(s, w.store, entries);
    TakeTakes(fate, s, w, Entry("", blob), entries);
    var (w', kept) := Take(fate, w, blob);
    if !kept {
      ReleaseAllGivesBack(s, w'.store, entries);
    }
  }

  /** Taking references anonymously keeps the counts exact. */
  lemma TookConserves(before: Store, after: Store, entries: seq<Entry>)
    requires Conserved(before) && Took(before, after, entries)
    ensures Conserved(after)
  {
    forall h ensures Count(after.rows, h) == Missions(after.attached, h) + after.anonymous[h] {
      assert RaisedAt(before, after, entries, h);
    }
  }

  // ---------- as the source does it ----------

  /** The snapshotter with the store it writes to. */
  class Snapshotter {
    const fate: nat -> bool
    const store: EncryptedBlobStore
    var calls: nat
    var entries: seq<Entry>

    ghost function View(): Walk
      reads this, store
    {
      Walk(store.View(), calls, entries)
    }

    constructor (fate: nat -> bool, store: EncryptedBlobStore)
      ensures this.fate == fate && this.store == store && View() == Walk(store.View(), 0, [])
    {
      this.fate, this.store, calls, entries := fate, store, 0, [];
    }

    method TakeBlob(r: Ref) returns (ok: bool)
      modifies this, store
      ensures (View(), ok) == Take(fate, old(View()), r)
    {
      if !fate(calls) {
        calls := calls + 1;
        return false;
      }
      store.PutBlob(r);
      calls := calls + 2;
      if !fate(calls - 1) {
        return false;
      }
      var retained := store.RetainBlob(r);
      return retained.Ok?;
    }

    method CollectFiles(nodes: seq<Node>) returns (ok: bool)
      modifies this, store
      ensures (View(), ok) == Collect(fate, old(View()), nodes)
      decreases nodes
    {
      for i := 0 to |nodes|
        invariant Collect(fate, old(View()), nodes) == Collect(fate, View(), nodes[i..])
      {
        assert nodes[i..][0] == nodes[i] && nodes[i..][1..] == nodes[i + 1..];
        match nodes[i] {
          case Broken => return false;
          case Skipped =>
          case Leaf(path, content) =>
            if content.None? {
              return false;
            }
            var blob := Ref(content.value.hash, content.value.size, OCTETS);
            var taken := TakeBlob(blob);
            if !taken {
              return false;
            }
            entries := entries + [Entry(path, blob)];
          case Folder(readable, children) =>
            if !readable {
              return false;
            }
            var collected := CollectFiles(children);
            if !collected {
              return false;
            }
        }
      }
      return true;
    }

    method ReleaseEntries(list: seq<Entry>)
      modifies store
      ensures store.View() == ReleaseAll(old(store.View()), list)
    {
      assert list[..|list|] == list;
      for i := |list| downto 0
        invariant ReleaseAll(old(store.View()), list) == ReleaseAll(store.View(), list[..i])
      {
        assert list[..i + 1][..i] == list[..i];
        var released := store.ReleaseBlob(list[i].blob);
      }
    }

    method CreateSnapshot(readable: bool, nodes: seq<Node>, hashes: bool, encodes: bool, bytes: seq<Entry> -> Content)
      returns (r: Option<Manifest>)
      modifies this, store
      ensures (store.View(), r) == Create(fate, old(calls), old(store.View()), readable, nodes, hashes, encodes, bytes)
    {
      entries := [];
      var ok := false;
      if readable {
        ok := CollectFiles(nodes);
      }
      if !ok {
        ReleaseEntries(entries);
        return None;
      }
      var sorted := Sorting.Sort(ByPath, entries);
      if !hashes || !encodes {
        ReleaseEntries(sorted);
        return None;
      }
      var blob := Ref(bytes(sorted).hash, bytes(sorted).size, MANIFEST);
      var kept := TakeBlob(blob);
      if !kept {
        ReleaseEntries(sorted);
        return None;
      }
      return Some(Manifest(sorted, blob));
    }
  }
}
