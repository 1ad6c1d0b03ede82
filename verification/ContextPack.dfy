/** Greedy packing of context candidates under a token budget. */
module ContextPack {
  import opened Wrappers
  import opened Machine
  import Sequences
  import Sorting
  import Text

  datatype Kind = Contract | RouteCheckpoint | Approval | Blocker | Risk | Evidence | ConfirmedMemory

  function Priority(kind: Kind): nat {
    match kind
    case Contract => 0
    case RouteCheckpoint => 1
    case Approval | Blocker | Risk => 2
    case Evidence => 3
    case ConfirmedMemory => 4
  }

  datatype Candidate = Candidate(id: string, kind: Kind, content: string, sources: seq<string>, version: nat)

  datatype Item = Item(id: string, kind: Kind, content: string, sources: seq<string>, version: nat, tokens: nat)

  datatype Pack = Pack(maxTokens: nat, items: seq<Item>, excluded: seq<string>)

  datatype Error = BudgetInvalid | InvalidCandidate | UnconfirmedMemory

  predicate Acceptable(c: Candidate) {
    !Text.Blank(c.id) && Text.ByteLength(c.id) <= 512 && !Text.Blank(c.content) && c.sources != [] && c.version != 0
  }

  /** Callers cannot label their own candidate as confirmed memory. */
  function NewCandidate(id: string, kind: Kind, content: string, sources: seq<string>, version: nat)
    : (r: Result<Candidate, Error>)
    ensures r.Ok? ==> r.value.kind != ConfirmedMemory && Acceptable(r.value)
  {
    var c := Candidate(id, kind, content, sources, version);
    if kind == ConfirmedMemory then Err(UnconfirmedMemory) else if Acceptable(c) then Ok(c) else Err(InvalidCandidate)
  }

  /** A quarter token per character, rounded up, at least one; the cast to 32 bits wraps. */
  function Estimate(content: string): nat {
    Max((|content| + 3) / 4, 1) % (U32_MAX + 1)
  }

  function Tokens(c: Candidate): nat {
    Estimate(c.content)
  }

  /** Priority first, then id, then version. */
  predicate Leq(a: Candidate, b: Candidate) {
    if Priority(a.kind) != Priority(b.kind) then Priority(a.kind) < Priority(b.kind)
    else if a.id != b.id then Text.Leq(a.id, b.id)
    else a.version <= b.version
  }

  /** The two candidates compare equal: same priority, id and version. */
  predicate SameKey(a: Candidate, b: Candidate) {
    Priority(a.kind) == Priority(b.kind) && a.id == b.id && a.version == b.version
  }

  // ---------- what the loop decides ----------

  /** One decision per candidate, with the saturating 32-bit running total of the loop. */
  function Choices(ordered: seq<Candidate>, max: nat, used: nat): (keep: seq<bool>)
    ensures |keep| == |ordered|
  {
    if ordered == [] then []
    else
      var next := SatAdd32(used, Tokens(ordered[0]));
      if next <= max then [true] + Choices(ordered[1..], max, next)
      else [false] + Choices(ordered[1..], max, used)
  }

  /** The candidates decided one way, in order. */
  function Select(ordered: seq<Candidate>, keep: seq<bool>, which: bool): (r: seq<Candidate>)
    requires |keep| == |ordered|
  {
    if ordered == [] then []
    else (if keep[0] == which then [ordered[0]] else []) + Select(ordered[1..], keep[1..], which)
  }

  function Total(cs: seq<Candidate>): nat {
    if cs == [] then 0 else Tokens(cs[0]) + Total(cs[1..])
  }

  function ToItem(c: Candidate): Item {
    Item(c.id, c.kind, c.content, c.sources, c.version, Tokens(c))
  }

  function ToItems(cs: seq<Candidate>): (r: seq<Item>)
    ensures |r| == |cs| && forall i :: 0 <= i < |cs| ==> r[i] == ToItem(cs[i])
  {
    seq(|cs|, i requires 0 <= i < |cs| => ToItem(cs[i]))
  }

  function ToIds(cs: seq<Candidate>): (r: seq<string>)
    ensures |r| == |cs| && forall i :: 0 <= i < |cs| ==> r[i] == cs[i].id
  {
    seq(|cs|, i requires 0 <= i < |cs| => cs[i].id)
  }

  function Ordered(candidates: seq<Candidate>): seq<Candidate> {
    Sorting.Sort(Leq, candidates)
  }

  /** The candidates the pack keeps, and those it excludes, in priority order. */
  function Packed(max: nat, candidates: seq<Candidate>, which: bool): seq<Candidate> {
    var ordered := Ordered(candidates);
    Select(ordered, Choices(ordered, max, 0), which)
  }

  predicate AllAcceptable(candidates: seq<Candidate>) {
    forall i :: 0 <= i < |candidates| ==> Acceptable(candidates[i])
  }

  function Built(max: nat, candidates: seq<Candidate>): Result<Pack, Error> {
    if max == 0 then Err(BudgetInvalid)
    else if !AllAcceptable(candidates) then Err(InvalidCandidate)
    else Ok(Pack(max, ToItems(Packed(max, candidates, true)), ToIds(Packed(max, candidates, false))))
  }

  /** The source's two loops: validate all, then walk the sorted candidates with a running total. */
  method Build(max: nat, candidates: seq<Candidate>) returns (r: Result<Pack, Error>)
    ensures r == Built(max, candidates)
  {
    if max == 0 {
      return Err(BudgetInvalid);
    }
    for i := 0 to |candidates|
      invariant forall j :: 0 <= j < i ==> Acceptable(candidates[j])
    {
      if !Acceptable(candidates[i]) {
        return Err(InvalidCandidate);
      }
    }
    var items, excluded := Fill(Ordered(candidates), max);
    return Ok(Pack(max, items, excluded));
  }

  method Fill(ordered: seq<Candidate>, max: nat) returns (items: seq<Item>, excluded: seq<string>)
    ensures items == ToItems(Pending(ordered, max, 0, true))
    ensures excluded == ToIds(Pending(ordered, max, 0, false))
  {
    var used: nat := 0;
    items, excluded := [], [];
    ghost var kept: seq<Candidate>, left: seq<Candidate> := [], [];
    for i := 0 to |ordered|
      invariant items == ToItems(kept) && excluded == ToIds(left)
      invariant kept + Pending(ordered[i..], max, used, true) == Pending(ordered, max, 0, true)
      invariant left + Pending(ordered[i..], max, used, false) == Pending(ordered, max, 0, false)
    {
      var c := ordered[i];
      PendingAt(ordered, i, max, used, kept, true);
      PendingAt(ordered, i, max, used, left, false);
      Snoc(kept, c);
      Snoc(left, c);
      var tokens := Tokens(c);
      if SatAdd32(used, tokens) <= max {
        used := SatAdd32(used, tokens);
        items := items + [Item(c.id, c.kind, c.content, c.sources, c.version, tokens)];
        kept := kept + [c];
      } else {
        excluded := excluded + [c.id];
        left := left + [c];
      }
    }
    assert ordered[|ordered|..] == [];
    assert kept + [] == kept && left + [] == left;
  }

  lemma Snoc(cs: seq<Candidate>, c: Candidate)
    ensures ToItems(cs + [c]) == ToItems(cs) + [ToItem(c)]
    ensures ToIds(cs + [c]) == ToIds(cs) + [c.id]
  {
  }

  lemma PendingAt(ordered: seq<Candidate>, i: nat, max: nat, used: nat, front: seq<Candidate>, which: bool)
    requires i < |ordered|
    ensures var next := SatAdd32(used, Tokens(ordered[i]));
            front + Pending(ordered[i..], max, used, which) ==
            if next <= max
            then (if which then front + [ordered[i]] else front) + Pending(ordered[i + 1..], max, next, which)
            else (if which then front else front + [ordered[i]]) + Pending(ordered[i + 1..], max, used, which)
  {
    assert ordered[i..][0] == ordered[i] && ordered[i..][1..] == ordered[i + 1..];
    PendingStep(ordered[i..], max, used, which);
  }

  /** What a suffix of the sorted candidates still contributes. */
  function Pending(cs: seq<Candidate>, max: nat, used: nat, which: bool): seq<Candidate> {
    Select(cs, Choices(cs, max, used), which)
  }

  lemma PendingStep(cs: seq<Candidate>, max: nat, used: nat, which: bool)
    requires cs != []
    ensures var next := SatAdd32(used, Tokens(cs[0]));
            Pending(cs, max, used, which) ==
            if next <= max then (if which then [cs[0]] else []) + Pending(cs[1..], max, next, which)
            else (if which then [] else [cs[0]]) + Pending(cs[1..], max, used, which)
  {
    var next := SatAdd32(used, Tokens(cs[0]));
    assert Choices(cs, max, used)[1..] == Choices(cs[1..], max, if next <= max then next else used);
  }

  lemma TotalCons(c: Candidate, cs: seq<Candidate>)
    ensures Total([c] + cs) == Tokens(c) + Total(cs) && [] + cs == cs
  {
    assert ([c] + cs)[1..] == cs;
  }

  // ---------- what the pack promises ----------

  /** A candidate is kept exactly when it fits beside what was kept ahead of it. */
  lemma {:induction false} KeptIffFits(ordered: seq<Candidate>, max: nat, used: nat, i: nat)
    requires used <= max < U32_MAX && i < |ordered|
    ensures var keep := Choices(ordered, max, used);
            keep[i] <==> used + Total(Select(ordered[..i], keep[..i], true)) + Tokens(ordered[i]) <= max
  {
    var keep := Choices(ordered, max, used);
    if i > 0 {
      var next := SatAdd32(used, Tokens(ordered[0]));
      var used' := if next <= max then next else used;
      KeptIffFits(ordered[1..], max, used', i - 1);
      assert keep[1..] == Choices(ordered[1..], max, used');
      assert keep[i] == keep[1..][i - 1] && ordered[i] == ordered[1..][i - 1];
      TotalSelectStep(ordered, keep, i);
    }
  }

  lemma TotalSelectStep(ordered: seq<Candidate>, keep: seq<bool>, i: nat)
    requires 0 < i <= |ordered| == |keep|
    ensures Total(Select(ordered[..i], keep[..i], true)) ==
            (if keep[0] then Tokens(ordered[0]) else 0) + Total(Select(ordered[1..][..i - 1], keep[1..][..i - 1], true))
  {
    assert ordered[..i][1..] == ordered[1..][..i - 1] && keep[..i][1..] == keep[1..][..i - 1];
    TotalCons(ordered[0], Select(ordered[1..][..i - 1], keep[1..][..i - 1], true));
  }

  lemma {:induction false} KeptWithin(ordered: seq<Candidate>, max: nat, used: nat)
    requires used <= max < U32_MAX
    ensures used + Total(Pending(ordered, max, used, true)) <= max
  {
    if ordered != [] {
      var next := SatAdd32(used, Tokens(ordered[0]));
      var used' := if next <= max then next else used;
      KeptWithin(ordered[1..], max, used');
      PendingStep(ordered, max, used, true);
      TotalCons(ordered[0], Pending(ordered[1..], max, used', true));
    }
  }

  /** At the largest 32-bit budget the saturating total never exceeds it, so everything is kept. */
  lemma {:induction false} LargestBudgetKeepsAll(ordered: seq<Candidate>, used: nat)
    ensures Select(ordered, Choices(ordered, U32_MAX, used), true) == ordered
  {
    if ordered != [] {
      var next := SatAdd32(used, Tokens(ordered[0]));
      LargestBudgetKeepsAll(ordered[1..], next);
      assert Choices(ordered, U32_MAX, used)[1..] == Choices(ordered[1..], U32_MAX, next);
    }
  }

  lemma {:induction false} TotalInsert(x: Candidate, cs: seq<Candidate>)
    ensures Total(Sorting.Insert(Leq, x, cs)) == Tokens(x) + Total(cs)
  {
    if cs != [] && !Leq(x, cs[0]) {
      TotalInsert(x, cs[1..]);
      assert Sorting.Insert(Leq, x, cs)[1..] == Sorting.Insert(Leq, x, cs[1..]);
    }
  }

  lemma {:induction false} TotalSort(cs: seq<Candidate>)
    ensures Total(Ordered(cs)) == Total(cs)
  {
    if cs != [] {
      TotalSort(cs[1..]);
      TotalInsert(cs[0], Ordered(cs[1..]));
    }
  }

  /** The kept estimates stay within the budget, except at the largest budget with more than it on offer. */
  lemma WithinBudgetIff(max: nat, candidates: seq<Candidate>)
    requires max <= U32_MAX
    ensures Total(Packed(max, candidates, true)) <= max <==> max < U32_MAX || Total(candidates) <= U32_MAX
  {
    if max < U32_MAX {
      KeptWithin(Ordered(candidates), max, 0);
    } else {
      LargestBudgetKeepsAll(Ordered(candidates), 0);
      TotalSort(candidates);
    }
  }

  lemma {:induction false} TotalCopies(c: Candidate, n: nat)
    requires Tokens(c) == 1
    ensures Total(Sequences.Repeat(c, n)) == n
  {
    if n > 0 {
      TotalCopies(c, n - 1);
      assert Sequences.Repeat(c, n)[1..] == Sequences.Repeat(c, n - 1);
    }
  }

  /** One token more than the largest budget, in single-token candidates: they are all packed. */
  lemma LargestBudgetExceeded(c: Candidate)
    requires Acceptable(c) && Tokens(c) == 1
    ensures Built(U32_MAX, Sequences.Repeat(c, U32_MAX + 1)).Ok?
    ensures Total(Packed(U32_MAX, Sequences.Repeat(c, U32_MAX + 1), true)) > U32_MAX
  {
    TotalCopies(c, U32_MAX + 1);
    WithinBudgetIff(U32_MAX, Sequences.Repeat(c, U32_MAX + 1));
  }

  lemma CountCons(c: Candidate, cs: seq<Candidate>, x: Candidate)
    ensures multiset([c] + cs)[x] == multiset(cs)[x] + if c == x then 1 else 0
  {
  }

  lemma SelectCons(ordered: seq<Candidate>, keep: seq<bool>, which: bool, x: Candidate)
    requires |keep| == |ordered| && ordered != []
    ensures multiset(Select(ordered, keep, which))[x] ==
              multiset(Select(ordered[1..], keep[1..], which))[x] + if keep[0] == which && ordered[0] == x then 1 else 0
  {
    var rest := Select(ordered[1..], keep[1..], which);
    CountCons(ordered[0], rest, x);
    assert [] + rest == rest;
  }

  lemma {:induction false} SelectCount(ordered: seq<Candidate>, keep: seq<bool>, x: Candidate)
    requires |keep| == |ordered|
    ensures multiset(Select(ordered, keep, true))[x] + multiset(Select(ordered, keep, false))[x] == multiset(ordered)[x]
  {
    if ordered != [] {
      SelectCount(ordered[1..], keep[1..], x);
      SelectCons(ordered, keep, true, x);
      SelectCons(ordered, keep, false, x);
      CountCons(ordered[0], ordered[1..], x);
      assert ordered == [ordered[0]] + ordered[1..];
    }
  }

  lemma SelectPartition(ordered: seq<Candidate>, keep: seq<bool>)
    requires |keep| == |ordered|
    ensures multiset(Select(ordered, keep, true)) + multiset(Select(ordered, keep, false)) == multiset(ordered)
  {
    var kept, left := Select(ordered, keep, true), Select(ordered, keep, false);
    forall x ensures (multiset(kept) + multiset(left))[x] == multiset(ordered)[x] {
      SelectCount(ordered, keep, x);
    }
  }

  /** Nothing is lost and nothing is invented: kept and excluded are exactly the candidates. */
  lemma NothingLost(max: nat, candidates: seq<Candidate>)
    ensures multiset(Packed(max, candidates, true)) + multiset(Packed(max, candidates, false)) == multiset(candidates)
  {
    var ordered := Ordered(candidates);
    SelectPartition(ordered, Choices(ordered, max, 0));
  }

  lemma LeqIsPreorder()
    ensures Sorting.TotalPreorder(Leq)
  {
    forall a: Candidate, b: Candidate ensures Leq(a, b) || Leq(b, a) {
      Text.LeqTotal(a.id, b.id);
    }
    forall a: Candidate, b: Candidate, c: Candidate | Leq(a, b) && Leq(b, c) ensures Leq(a, c) {
      if Text.Leq(a.id, b.id) && Text.Leq(b.id, c.id) {
        Text.LeqTransitive(a.id, b.id, c.id);
        if a.id == c.id {
          Text.LeqAntisymmetric(a.id, b.id);
        }
      }
    }
  }

  lemma EqualInOrder(a: Candidate, b: Candidate)
    requires Leq(a, b) && Leq(b, a)
    ensures SameKey(a, b)
  {
    if a.id != b.id {
      Text.LeqAntisymmetric(a.id, b.id);
    }
  }

  /** When (priority, id, version) tells the candidates apart, the order they arrive in does not matter. */
  lemma ArrivalOrderFree(max: nat, xs: seq<Candidate>, ys: seq<Candidate>)
    requires multiset(xs) == multiset(ys)
    requires forall a, b :: a in xs && b in xs && SameKey(a, b) ==> a == b
    ensures Built(max, xs) == Built(max, ys)
  {
    LeqIsPreorder();
    forall a, b | a in xs && b in xs && Leq(a, b) && Leq(b, a) ensures a == b {
      EqualInOrder(a, b);
    }
    Sorting.SortOrderFree(Leq, xs, ys);
    assert AllAcceptable(xs) == AllAcceptable(ys) by {
      Sorting.SameMembers(xs, ys);
      SameAcceptable(xs, ys);
    }
  }

  lemma SameAcceptable(xs: seq<Candidate>, ys: seq<Candidate>)
    requires forall x :: x in xs <==> x in ys
    ensures AllAcceptable(xs) == AllAcceptable(ys)
  {
    forall i | 0 <= i < |ys| && AllAcceptable(xs) ensures Acceptable(ys[i]) {
      assert ys[i] in xs;
    }
    forall i | 0 <= i < |xs| && AllAcceptable(ys) ensures Acceptable(xs[i]) {
      assert xs[i] in ys;
    }
  }
}
