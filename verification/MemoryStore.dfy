/** The memory lifecycle: items, and a history from which they can be rebuilt. */
module MemoryStore {
  import opened Wrappers
  import opened Machine
  import Text
  import ContextPack

  datatype Kind = ConfirmedDecision | Constraint | Fact | Preference | Risk | Inference

  datatype Status = Candidate | Confirmed | Deferred | Invalidated | Rejected

  datatype Author = User | Supervisor | Agent | System

  datatype Item = Item(
    id: string,
    kind: Kind,
    content: string,
    sources: seq<string>,
    version: nat,
    status: Status,
    author: Author)

  datatype Action = Created | Confirming | Edited | Narrowed | Deferring | Invalidating | Rejecting

  datatype Source = FromUser | FromSupervisor

  /** One entry of the history, with the fields of the event it carries. */
  datatype Mutation = Mutation(action: Action, actor: Author, item: Item, sequence: nat, source: Source,
                               confirmed: bool)

  datatype Error =
    | SourceRequired | InvalidItem | InferenceCannotBeConfirmed | ForbiddenActor
    | NotFound | DuplicateId | InvalidTransition

  function Validate(item: Item): Result<(), Error> {
    if Text.Blank(item.id) || Text.ByteLength(item.id) > 512 || Text.Blank(item.content) then Err(InvalidItem)
    else if item.sources == [] then Err(SourceRequired)
    else if item.version == 0 then Err(InvalidItem)
    else Ok(())
  }

  // ---------- one user mutation ----------

  /** What each action demands of the item it finds. */
  function Permitted(action: Action, item: Item): Result<(), Error> {
    match action
    case Confirming =>
      if item.kind == Inference then Err(InferenceCannotBeConfirmed)
      else if item.status in {Candidate, Deferred} then Ok(()) else Err(InvalidTransition)
    case Deferring => if item.status in {Candidate, Confirmed} then Ok(()) else Err(InvalidTransition)
    case Rejecting => if item.status in {Candidate, Deferred} then Ok(()) else Err(InvalidTransition)
    case Edited | Narrowed | Invalidating | Created =>
      if item.status in {Invalidated, Rejected} then Err(InvalidTransition) else Ok(())
  }

  function NewStatus(action: Action): Status {
    match action
    case Confirming => Confirmed
    case Deferring => Deferred
    case Invalidating => Invalidated
    case Rejecting => Rejected
    case Edited | Narrowed | Created => Candidate
  }

  predicate Rewrites(action: Action) {
    action == Edited || action == Narrowed
  }

  /** The item after a user action: edits replace the content, everything advances the version. */
  function Changed(item: Item, action: Action, content: string): Item {
    item.(content := if Rewrites(action) then content else item.content,
          status := NewStatus(action), version := item.version + 1, author := User)
  }

  function Mutated(items: map<string, Item>, id: string, actor: Author, action: Action, content: string)
    : Result<Item, Error>
  {
    if Rewrites(action) && Text.Blank(content) then Err(InvalidItem)
    else if actor != User then Err(ForbiddenActor)
    else if id !in items then Err(NotFound)
    else if Permitted(action, items[id]).Err? then Err(Permitted(action, items[id]).error)
    else if items[id].version >= U64_MAX then Err(InvalidItem)
    else if Validate(Changed(items[id], action, content)).Err?
    then Err(Validate(Changed(items[id], action, content)).error)
    else Ok(Changed(items[id], action, content))
  }

  function Inserted(items: map<string, Item>, item: Item): Result<(), Error> {
    if Validate(item).Err? then Validate(item)
    else if item.status != Candidate then Err(InvalidTransition)
    else if item.id in items then Err(DuplicateId)
    else Ok(())
  }

  function Entry(action: Action, actor: Author, item: Item, previous: nat): Mutation {
    Mutation(action, actor, item, SatAdd64(previous, 1),
             if actor == User then FromUser else FromSupervisor, item.status == Confirmed)
  }

  // ---------- the history ----------

  /** The item of the last entry for an id. */
  function Latest(history: seq<Mutation>, id: string): Option<Item> {
    if history == [] then None
    else
      var last := history[|history| - 1];
      if last.item.id == id then Some(last.item) else Latest(history[..|history| - 1], id)
  }

  /** What an entry may be, given the entry before it for the same id. */
  predicate Continues(before: Option<Item>, m: Mutation) {
    match before
    case None => m.action == Created && m.item.status == Candidate && m.actor == m.item.author
    case Some(item) =>
      && m.action != Created && m.actor == User
      && Permitted(m.action, item).Ok?
      && item.version < U64_MAX
      && m.item == Changed(item, m.action, m.item.content)
      && (Rewrites(m.action) || m.item.content == item.content)
  }

  predicate Lawful(history: seq<Mutation>) {
    forall i :: 0 <= i < |history| ==>
      && history[i].sequence == Min(i + 1, U64_MAX)
      && history[i].confirmed == (history[i].item.status == Confirmed)
      && Validate(history[i].item).Ok?
      && Continues(Latest(history[..i], history[i].item.id), history[i])
  }

  /** Every item is what the history last said of it. */
  ghost predicate Mirrors(items: map<string, Item>, history: seq<Mutation>) {
    forall id :: Latest(history, id) == if id in items then Some(items[id]) else None
  }

  class Store {
    var items: map<string, Item>
    var history: seq<Mutation>
    var nextSequence: nat

    ghost predicate Valid()
      reads this
    {
      Lawful(history) && Mirrors(items, history) && nextSequence == Min(|history|, U64_MAX)
    }

    constructor ()
      ensures Valid() && items == map[] && history == []
    {
      items, history, nextSequence := map[], [], 0;
    }

    method AppendMutation(action: Action, actor: Author, item: Item)
      modifies this`history, this`nextSequence
      ensures history == old(history) + [Entry(action, actor, item, old(nextSequence))]
      ensures nextSequence == SatAdd64(old(nextSequence), 1)
    {
      nextSequence := SatAdd64(nextSequence, 1);
      var source := if actor == User then FromUser else FromSupervisor;
      history := history + [Mutation(action, actor, item, nextSequence, source, item.status == Confirmed)];
    }

    method Insert(item: Item) returns (r: Result<(), Error>)
      requires Valid()
      modifies this
      ensures Valid()
      ensures r == Inserted(old(items), item)
      ensures r.Ok? ==> items == old(items)[item.id := item]
                        && history == old(history) + [Entry(Created, item.author, item, old(nextSequence))]
      ensures r.Err? ==> items == old(items) && history == old(history)
    {
      var valid := Validate(item);
      if valid.Err? {
        return valid;
      }
      if item.status != Candidate {
        return Err(InvalidTransition);
      }
      if item.id in items {
        return Err(DuplicateId);
      }
      items := items[item.id := item];
      AppendMutation(Created, item.author, item);
      Recorded(old(items), old(history), history[|history| - 1]);
      return Ok(());
    }

    method Mutate(id: string, actor: Author, action: Action, content: string) returns (r: Result<Item, Error>)
      requires Valid() && action != Created
      modifies this
      ensures Valid()
      ensures r == Mutated(old(items), id, actor, action, content)
      ensures r.Ok? ==> items == old(items)[id := r.value]
                        && history == old(history) + [Entry(action, User, r.value, old(nextSequence))]
      ensures r.Err? ==> items == old(items) && history == old(history)
    {
      r := Prepare(id, actor, action, content);
      if r.Ok? {
        MutationRecorded(items, history, id, action, content, r.value);
        items := items[id := r.value];
        AppendMutation(action, actor, r.value);
      }
    }

    /** The checks and the new item, in the order the source makes them. */
    method Prepare(id: string, actor: Author, action: Action, content: string) returns (r: Result<Item, Error>)
      ensures r == Mutated(items, id, actor, action, content)
    {
      if Rewrites(action) && Text.Blank(content) {
        return Err(InvalidItem);
      }
      if actor != User {
        return Err(ForbiddenActor);
      }
      if id !in items {
        return Err(NotFound);
      }
      var next := items[id];
      var permitted := Permitted(action, next);
      if permitted.Err? {
        return Err(permitted.error);
      }
      if Rewrites(action) {
        next := next.(content := content);
      }
      next := next.(status := NewStatus(action));
      if next.version >= U64_MAX {
        return Err(InvalidItem);
      }
      next := next.(version := next.version + 1, author := actor);
      var valid := Validate(next);
      if valid.Err? {
        return Err(valid.error);
      }
      return Ok(next);
    }
  }

  lemma MutationRecorded(items: map<string, Item>, history: seq<Mutation>, id: string, action: Action, content: string,
                         next: Item)
    requires Lawful(history) && Mirrors(items, history) && action != Created
    requires Mutated(items, id, User, action, content) == Ok(next)
    ensures var all := history + [Entry(action, User, next, Min(|history|, U64_MAX))];
            Lawful(all) && Mirrors(items[id := next], all)
  {
    assert Latest(history, id) == Some(items[id]);
    LatestId(history, id);
    Recorded(items, history, Entry(action, User, next, Min(|history|, U64_MAX)));
  }

  lemma {:induction false} LatestId(history: seq<Mutation>, id: string)
    ensures Latest(history, id).Some? ==> Latest(history, id).value.id == id
  {
    if history != [] {
      LatestId(history[..|history| - 1], id);
    }
  }

  lemma LatestSnoc(history: seq<Mutation>, m: Mutation, id: string)
    ensures Latest(history + [m], id) == if m.item.id == id then Some(m.item) else Latest(history, id)
  {
    assert (history + [m])[..|history|] == history;
  }

  /** Writing an item and appending its entry keeps items and history in step. */
  lemma Recorded(items: map<string, Item>, history: seq<Mutation>, m: Mutation)
    requires Lawful(history) && Mirrors(items, history)
    requires m.sequence == Min(|history| + 1, U64_MAX) && m.confirmed == (m.item.status == Confirmed)
             && Validate(m.item).Ok?
    requires Continues(Latest(history, m.item.id), m)
    ensures Lawful(history + [m]) && Mirrors(items[m.item.id := m.item], history + [m])
  {
    var all := history + [m];
    forall i | 0 <= i < |all| ensures
        && all[i].sequence == Min(i + 1, U64_MAX)
        && all[i].confirmed == (all[i].item.status == Confirmed)
        && Validate(all[i].item).Ok?
        && Continues(Latest(all[..i], all[i].item.id), all[i])
    {
      assert all[..i] == history[..i];
    }
    forall id
      ensures Latest(all, id) == if id in items[m.item.id := m.item] then Some(items[m.item.id := m.item][id]) else None
    {
      LatestSnoc(history, m, id);
    }
  }

  // ---------- what every history shows ----------

  /** Where the last entry for an id stands. */
  lemma {:induction false} LatestAt(history: seq<Mutation>, id: string) returns (k: nat)
    requires Latest(history, id).Some?
    ensures k < |history| && history[k].item == Latest(history, id).value && history[k].item.id == id
    ensures forall j :: k < j < |history| ==> history[j].item.id != id
  {
    var n := |history| - 1;
    if history[n].item.id == id {
      k := n;
    } else {
      k := LatestAt(history[..n], id);
    }
  }

  lemma {:induction false} LatestFrom(history: seq<Mutation>, i: nat)
    requires i < |history|
    ensures Latest(history, history[i].item.id).Some?
  {
    if i < |history| - 1 {
      LatestFrom(history[..|history| - 1], i);
    }
  }

  /** Each mutation follows the previous entry for its id and advances its version by one. */
  lemma VersionsGrowByOne(history: seq<Mutation>, j: nat) returns (i: nat)
    requires Lawful(history) && j < |history| && history[j].action != Created
    ensures i < j && history[i].item.id == history[j].item.id
    ensures forall k :: i < k < j ==> history[k].item.id != history[j].item.id
    ensures history[j].item.version == history[i].item.version + 1
    ensures Permitted(history[j].action, history[i].item).Ok? && history[j].actor == User
  {
    var front := history[..j];
    i := LatestAt(front, history[j].item.id);
    assert front[i] == history[i];
    assert forall k :: i < k < j ==> front[k] == history[k];
  }

  /** An id that has an entry is not created again. */
  lemma SecondIsMutation(history: seq<Mutation>, i: nat, j: nat)
    requires Lawful(history) && i < j < |history| && history[j].item.id == history[i].item.id
    ensures history[j].action != Created
  {
    var front := history[..j];
    assert front[i] == history[i];
    LatestFrom(front, i);
    assert Continues(Latest(front, history[j].item.id), history[j]);
  }

  lemma FinalPermitsNothing(action: Action, item: Item)
    requires item.status in {Invalidated, Rejected}
    ensures Permitted(action, item).Err?
  {
  }

  /** Nothing is ever recorded for an id after it was invalidated or rejected. */
  lemma FinalIsFinal(history: seq<Mutation>, i: nat, j: nat)
    requires Lawful(history) && i < j < |history| && history[i].item.status in {Invalidated, Rejected}
    ensures history[j].item.id != history[i].item.id
    decreases j
  {
    if history[j].item.id == history[i].item.id {
      SecondIsMutation(history, i, j);
      var k := VersionsGrowByOne(history, j);
      assert i <= k;
      assert Permitted(history[j].action, history[k].item).Ok?;
      if k > i {
        FinalIsFinal(history, i, k);
      } else {
        FinalPermitsNothing(history[j].action, history[i].item);
      }
    }
  }

  /** An inference is never confirmed. */
  lemma NoInferenceConfirmed(history: seq<Mutation>, i: nat)
    requires Lawful(history) && i < |history| && history[i].item.status == Confirmed
    ensures history[i].item.kind != Inference && history[i].action == Confirming && history[i].actor == User
  {
    assert Continues(Latest(history[..i], history[i].item.id), history[i]);
  }

  /** A confirmed item was last touched by the user confirming it, with this very content. */
  lemma ConfirmedByUser(items: map<string, Item>, history: seq<Mutation>, id: string) returns (k: nat)
    requires Lawful(history) && Mirrors(items, history) && id in items && items[id].status == Confirmed
    ensures k < |history| && history[k].item == items[id] && history[k].action == Confirming && history[k].actor == User
    ensures forall j :: k < j < |history| ==> history[j].item.id != id
    ensures exists i :: 0 <= i < k && history[i].item.id == id && history[i].item.content == items[id].content
                        && history[i].item.status in {Candidate, Deferred}
  {
    assert Latest(history, id) == Some(items[id]);
    k := LatestAt(history, id);
    NoInferenceConfirmed(history, k);
    var i := VersionsGrowByOne(history, k);
    PreviousEntry(history, i, k);
  }

  lemma PreviousEntry(history: seq<Mutation>, i: nat, k: nat)
    requires Lawful(history) && i < k < |history| && history[i].item.id == history[k].item.id
    requires forall j :: i < j < k ==> history[j].item.id != history[k].item.id
    ensures Latest(history[..k], history[k].item.id) == Some(history[i].item)
    ensures Continues(Some(history[i].item), history[k])
  {
    var front, id := history[..k], history[k].item.id;
    assert front[i] == history[i];
    LatestFrom(front, i);
    var at := LatestAt(front, id);
    assert front[at] == history[at];
    assert at == i;
  }

  // ---------- into a context pack ----------

  function ToCandidate(item: Item): Result<ContextPack.Candidate, ContextPack.Error> {
    if item.status != Confirmed then Err(ContextPack.UnconfirmedMemory)
    else
      var c := ContextPack.Candidate(item.id, ContextPack.ConfirmedMemory, item.content, item.sources, item.version);
      if ContextPack.Acceptable(c) then Ok(c) else Err(ContextPack.InvalidCandidate)
  }

  /** Stored memory enters a pack exactly when the user's last word on it was to confirm that content. */
  lemma PackedMemoryWasConfirmed(items: map<string, Item>, history: seq<Mutation>, id: string)
    requires Lawful(history) && Mirrors(items, history) && id in items
    ensures ToCandidate(items[id]).Ok? <==>
            exists k :: 0 <= k < |history| && history[k].item == items[id] && history[k].action == Confirming
                        && history[k].actor == User && forall j :: k < j < |history| ==> history[j].item.id != id
  {
    assert Latest(history, id) == Some(items[id]);
    var at := LatestAt(history, id);
    assert Validate(history[at].item).Ok?;
    if items[id].status == Confirmed {
      var k := ConfirmedByUser(items, history, id);
    }
    forall k | 0 <= k < |history| && history[k].item == items[id] && history[k].action == Confirming
      ensures items[id].status == Confirmed
    {
      assert Continues(Latest(history[..k], history[k].item.id), history[k]);
    }
  }
}
