/** Weighted scheduling of missions: bounded concurrency, a cursor over an expanded schedule, one queue each. */
module Scheduler {
  import opened Wrappers
  import Sequences

  const FOREGROUND_WEIGHT := 3
  const BACKGROUND_WEIGHT := 1

  type MissionId = nat

  datatype Action = Action(mission: MissionId, name: string)

  datatype State = Queued | Active | Paused | Completed

  datatype Queue = Queue(state: State, foreground: bool, actions: seq<Action>, reason: Option<string>)

  type Missions = map<MissionId, Queue>

  datatype Authorization = PolicyAllowed | ApprovalConsumed | Denied

  datatype Decision = Proceed | Throttle(reason: string) | PauseAtSafeBoundary(reason: string)

  datatype Error = InvalidConcurrency | AlreadyRegistered | NotRegistered | ActionNotApproved | MissionCompleted

  function Weight(q: Queue): nat {
    if q.foreground then FOREGROUND_WEIGHT else BACKGROUND_WEIGHT
  }

  predicate IsActive(ms: Missions, m: MissionId) {
    m in ms && ms[m].state == Active
  }

  /** Queued and with work: the next activation may pick it. */
  predicate Waiting(ms: Missions, m: MissionId) {
    m in ms && ms[m].state == Queued && ms[m].actions != []
  }

  /** Active and with work: a dispatch may serve it. */
  predicate Ready(ms: Missions, m: MissionId) {
    IsActive(ms, m) && ms[m].actions != []
  }

  function ActiveSet(ms: Missions): set<MissionId> {
    set m | m in ms && ms[m].state == Active
  }

  function ActiveCount(ms: Missions): nat {
    |ActiveSet(ms)|
  }

  // ---------- the schedule ----------

  /** The slots one mission gets. */
  function Slots(ms: Missions, m: MissionId): seq<MissionId> {
    if IsActive(ms, m) then Sequences.Repeat(m, Weight(ms[m])) else []
  }

  /** Every active mission, as often as it weighs, in registration order. */
  function Weighted(ms: Missions, order: seq<MissionId>): seq<MissionId> {
    if order == [] then [] else Weighted(ms, order[..|order| - 1]) + Slots(ms, order[|order| - 1])
  }

  predicate Distinct(order: seq<MissionId>) {
    forall i, j :: 0 <= i < j < |order| ==> order[i] != order[j]
  }

  /** The schedule depends only on which missions are active and how much they weigh. */
  lemma {:induction false} WeightedFrame(ms: Missions, ms': Missions, order: seq<MissionId>)
    requires forall m :: m in order ==> Slots(ms, m) == Slots(ms', m)
    ensures Weighted(ms, order) == Weighted(ms', order)
  {
    if order != [] {
      var n := |order| - 1;
      assert order[n] in order;
      WeightedFrame(ms, ms', order[..n]);
    }
  }

  lemma {:induction false} WeightedMembers(ms: Missions, order: seq<MissionId>, i: nat)
    requires i < |Weighted(ms, order)|
    ensures var m := Weighted(ms, order)[i]; m in order && IsActive(ms, m)
  {
    var n := |order| - 1;
    if i < |Weighted(ms, order[..n])| {
      WeightedMembers(ms, order[..n], i);
    } else {
      assert order[n] in order;
    }
  }

  /** A mission's slots are one block of its weight. */
  predicate Block(schedule: seq<MissionId>, m: MissionId, start: nat, width: nat) {
    && start + width <= |schedule|
    && forall i :: 0 <= i < |schedule| ==> (schedule[i] == m <==> start <= i < start + width)
  }

  lemma {:induction false} FindBlock(ms: Missions, order: seq<MissionId>, m: MissionId) returns (start: nat)
    requires Distinct(order) && m in order && IsActive(ms, m)
    ensures Block(Weighted(ms, order), m, start, Weight(ms[m]))
  {
    var n := |order| - 1;
    var front := order[..n];
    var head := Weighted(ms, front);
    assert order == front + [order[n]];
    if order[n] == m {
      start := |head|;
      forall i | 0 <= i < |head| ensures head[i] != m {
        WeightedMembers(ms, front, i);
        var k :| 0 <= k < |front| && front[k] == head[i];
        assert order[k] != order[n];
      }
    } else {
      start := FindBlock(ms, front, m);
    }
  }

  function ActiveIn(ms: Missions, order: seq<MissionId>): set<MissionId> {
    set m | m in order && IsActive(ms, m)
  }

  /** Other missions take at most a foreground share each. */
  lemma {:induction false} WeightedLength(ms: Missions, order: seq<MissionId>, m: MissionId)
    requires Distinct(order)
    ensures |Weighted(ms, order)| <= FOREGROUND_WEIGHT * |ActiveIn(ms, order)|
    ensures m in ActiveIn(ms, order) ==>
              |Weighted(ms, order)| <= FOREGROUND_WEIGHT * (|ActiveIn(ms, order)| - 1) + Weight(ms[m])
  {
    if order != [] {
      var n := |order| - 1;
      WeightedLength(ms, order[..n], m);
      ActiveInSnoc(ms, order);
    }
  }

  lemma ActiveInSnoc(ms: Missions, order: seq<MissionId>)
    requires order != [] && Distinct(order)
    ensures var n := |order| - 1;
            && order[n] !in ActiveIn(ms, order[..n])
            && ActiveIn(ms, order) == ActiveIn(ms, order[..n]) + if IsActive(ms, order[n]) then {order[n]} else {}
  {
    var n := |order| - 1;
    assert order == order[..n] + [order[n]];
  }

  // ---------- dispatch ----------

  /** A position counted on from the cursor, around the schedule. */
  function Wrap(i: nat, n: nat): (r: nat)
    requires i < 2 * n
    ensures r < n
  {
    if i < n then i else i - n
  }

  lemma WrapIsModulo(i: nat, n: nat)
    requires i < 2 * n
    ensures i % n == Wrap(i, n)
  {
    if i >= n {
      assert i == n * 1 + (i - n);
    }
  }

  /** The part of the scheduler that dispatching reads and writes. */
  datatype Sched = Sched(missions: Missions, order: seq<MissionId>, schedule: seq<MissionId>, cursor: nat) {

    predicate InRange() {
      if schedule == [] then cursor == 0 else cursor < |schedule|
    }

    function Slot(k: nat): MissionId
      requires cursor < |schedule| && k <= |schedule|
    {
      schedule[Wrap(cursor + k, |schedule|)]
    }

    /** How many slots from the cursor on have nothing to serve, looking at no more than a full turn. */
    function Skips(k: nat): nat
      requires cursor < |schedule| && k <= |schedule|
      decreases |schedule| - k
    {
      if k == |schedule| || Ready(missions, Slot(k)) then k else Skips(k + 1)
    }

    function Pop(m: MissionId): Missions
      requires Ready(missions, m)
    {
      missions[m := missions[m].(actions := missions[m].actions[1..])]
    }

    /** One call of the iterator: serve the first slot with work, or nothing. */
    function Next(): (Sched, Option<Action>)
      requires InRange()
    {
      if schedule == [] || Skips(0) == |schedule| then (this, None)
      else
        SkipsMeaning(this, 0);
        var k := Skips(0);
        var m := Slot(k);
        (this.(missions := Pop(m), cursor := Wrap(cursor + k + 1, |schedule|)), Some(missions[m].actions[0]))
    }
  }

  lemma {:induction false} SkipsMeaning(s: Sched, k: nat)
    requires s.cursor < |s.schedule| && k <= |s.schedule|
    ensures k <= s.Skips(k) <= |s.schedule|
    ensures forall j :: k <= j < s.Skips(k) ==> !Ready(s.missions, s.Slot(j))
    ensures s.Skips(k) < |s.schedule| ==> Ready(s.missions, s.Slot(s.Skips(k)))
    decreases |s.schedule| - k
  {
    if k < |s.schedule| && !Ready(s.missions, s.Slot(k)) {
      SkipsMeaning(s, k + 1);
    }
  }

  /** Every slot is within one turn of the cursor. */
  lemma SlotOffset(s: Sched, i: nat) returns (k: nat)
    requires s.cursor < |s.schedule| && i < |s.schedule|
    ensures k < |s.schedule| && Wrap(s.cursor + k, |s.schedule|) == i
  {
    k := if i >= s.cursor then i - s.cursor else i + |s.schedule| - s.cursor;
  }

  /** Nothing is served exactly when no mission on the schedule has work, and then nothing changes. */
  lemma NextNoneIff(s: Sched)
    requires s.InRange()
    ensures s.Next().1.None? <==> forall m :: m in s.schedule ==> !Ready(s.missions, m)
    ensures s.Next().1.None? ==> s.Next().0 == s
  {
    if s.schedule != [] {
      SkipsMeaning(s, 0);
      forall m | m in s.schedule && s.Skips(0) == |s.schedule| ensures !Ready(s.missions, m) {
        var i :| 0 <= i < |s.schedule| && s.schedule[i] == m;
        var k := SlotOffset(s, i);
        assert s.Slot(k) == m;
      }
    }
  }

  // ---------- fairness between rebuilds ----------

  /** How many slots the cursor is away from a mission's block. */
  function Distance(cursor: nat, start: nat, width: nat, n: nat): (d: nat)
    requires cursor < n && start + width <= n && width > 0
    ensures d <= n - width
  {
    if cursor < start then start - cursor
    else if cursor < start + width then 0
    else n - cursor + start
  }

  /** A dispatch either serves a ready mission or brings the cursor closer to it. */
  lemma NextApproaches(s: Sched, m: MissionId, start: nat, width: nat)
    requires s.InRange() && width > 0 && Block(s.schedule, m, start, width) && Ready(s.missions, m)
    ensures var (s', a) := s.Next();
            && a.Some? && s'.InRange()
            && (a.value == s.missions[m].actions[0]
                || (Ready(s'.missions, m)
                    && Distance(s'.cursor, start, width, |s.schedule|)
                       < Distance(s.cursor, start, width, |s.schedule|)))
  {
    var n := |s.schedule|;
    var d := Distance(s.cursor, start, width, n);
    assert s.schedule[start] == m;
    assert s.Slot(d) == m;
    SkipsMeaning(s, 0);
    var k := s.Skips(0);
    assert k <= d;
    if s.Slot(k) != m {
      assert k < d;
    }
  }

  /** Calls that leave the schedule as it is. */
  datatype Call =
    | Dispatch
    | Enqueue(action: Action, authorization: Authorization)
    | Register(mission: MissionId, foreground: bool)
    | Note(mission: MissionId, reason: Option<string>)

  predicate Enqueues(ms: Missions, a: Action, auth: Authorization) {
    auth != Denied && a.mission in ms && ms[a.mission].state != Completed
  }

  function Push(ms: Missions, a: Action): Missions
    requires a.mission in ms
  {
    ms[a.mission := ms[a.mission].(actions := ms[a.mission].actions + [a])]
  }

  function Noted(s: Sched, m: MissionId, reason: Option<string>): Sched
    requires m in s.missions
  {
    s.(missions := s.missions[m := s.missions[m].(reason := reason)])
  }

  function Step(s: Sched, c: Call): (Sched, seq<Action>)
    requires s.InRange()
  {
    match c
    case Dispatch => (s.Next().0, match s.Next().1 case Some(a) => [a] case None => [])
    case Enqueue(a, auth) => (if Enqueues(s.missions, a, auth) then s.(missions := Push(s.missions, a)) else s, [])
    case Register(m, foreground) =>
      (if m in s.missions then s
       else s.(missions := s.missions[m := Queue(Queued, foreground, [], None)], order := s.order + [m]), [])
    case Note(m, reason) => (if m in s.missions then Noted(s, m, reason) else s, [])
  }

  lemma StepInRange(s: Sched, c: Call)
    requires s.InRange()
    ensures Step(s, c).0.InRange() && Step(s, c).0.schedule == s.schedule
  {
  }

  /** The actions dispatched by a run of calls. */
  function Run(s: Sched, calls: seq<Call>): seq<Action>
    requires s.InRange()
    decreases |calls|
  {
    if calls == [] then []
    else
      StepInRange(s, calls[0]);
      Step(s, calls[0]).1 + Run(Step(s, calls[0]).0, calls[1..])
  }

  /** Each queue holds its own mission's actions. */
  predicate Owned(ms: Missions) {
    forall m, i :: m in ms && 0 <= i < |ms[m].actions| ==> ms[m].actions[i].mission == m
  }

  lemma StepKeeps(s: Sched, c: Call, m: MissionId)
    requires s.InRange() && Owned(s.missions) && Ready(s.missions, m)
    ensures Owned(Step(s, c).0.missions)
    ensures c.Dispatch? || (Ready(Step(s, c).0.missions, m) && Step(s, c).0.cursor == s.cursor)
  {
    if c.Dispatch? && s.schedule != [] {
      SkipsMeaning(s, 0);
    }
  }

  predicate Serves(actions: seq<Action>, m: MissionId) {
    exists i :: 0 <= i < |actions| && actions[i].mission == m
  }

  /** The number of dispatches among some calls. */
  function Dispatched(calls: seq<Call>): nat {
    if calls == [] then 0 else (if calls[0].Dispatch? then 1 else 0) + Dispatched(calls[1..])
  }

  /** Until a ready mission is served, every dispatch brings the cursor closer: their number is bounded. */
  lemma {:induction false} ServedWithin(s: Sched, calls: seq<Call>, m: MissionId, start: nat, width: nat)
    requires s.InRange() && Owned(s.missions) && Ready(s.missions, m)
    requires width > 0 && Block(s.schedule, m, start, width)
    requires !Serves(Run(s, calls), m)
    ensures |Run(s, calls)| == Dispatched(calls) <= Distance(s.cursor, start, width, |s.schedule|)
    decreases |calls|
  {
    if calls != [] {
      StepInRange(s, calls[0]);
      StepKeeps(s, calls[0], m);
      var (s', done) := Step(s, calls[0]);
      var rest := Run(s', calls[1..]);
      NotServedSplit(done, rest, m);
      if calls[0].Dispatch? {
        NextApproaches(s, m, start, width);
        assert done[0].mission != m;
      }
      ServedWithin(s', calls[1..], m, start, width);
    }
  }

  lemma NotServedSplit(a: seq<Action>, b: seq<Action>, m: MissionId)
    requires !Serves(a + b, m)
    ensures !Serves(a, m) && !Serves(b, m)
  {
    forall i | 0 <= i < |a| ensures a[i].mission != m {
      assert (a + b)[i] == a[i];
    }
    forall i | 0 <= i < |b| ensures b[i].mission != m {
      assert (a + b)[|a| + i] == b[i];
    }
  }

  /** The registration order lists each mission once. */
  ghost predicate Listed(ms: Missions, order: seq<MissionId>) {
    Distinct(order) && (forall m :: m in order <==> m in ms)
  }

  /** What holds of a scheduler after every operation. */
  ghost predicate Consistent(s: Sched) {
    && Listed(s.missions, s.order)
    && s.schedule == Weighted(s.missions, s.order)
    && s.InRange()
    && Owned(s.missions)
  }

  lemma ActiveInAll(s: Sched)
    requires Consistent(s)
    ensures ActiveIn(s.missions, s.order) == ActiveSet(s.missions)
  {
  }

  /**
   * Between rebuilds, while an active mission with work is not served, every dispatch serves another one, and there
   * are at most as many as the others have slots, never more than twelve.
   */
  lemma BoundedWait(s: Sched, calls: seq<Call>, m: MissionId)
    requires Consistent(s) && ActiveCount(s.missions) <= 5 && Ready(s.missions, m)
    requires !Serves(Run(s, calls), m)
    ensures |Run(s, calls)| == Dispatched(calls) <= |s.schedule| - Weight(s.missions[m]) <= 12
  {
    var start := FindBlock(s.missions, s.order, m);
    ServedWithin(s, calls, m, start, Weight(s.missions[m]));
    WeightedLength(s.missions, s.order, m);
    ActiveInAll(s);
  }

  // ---------- one full turn ----------

  /** No mission on the schedule is out of work at any of the dispatches. */
  predicate NeverDry(s: Sched, calls: seq<Call>)
    requires s.InRange()
    decreases |calls|
  {
    calls == [] ||
    ((calls[0].Dispatch? ==> forall i :: 0 <= i < |s.schedule| ==> Ready(s.missions, s.schedule[i]))
     && (StepInRange(s, calls[0]); NeverDry(Step(s, calls[0]).0, calls[1..])))
  }

  lemma StepOwned(s: Sched, c: Call)
    requires s.InRange() && Owned(s.missions)
    ensures Owned(Step(s, c).0.missions)
    ensures !c.Dispatch? ==> Step(s, c).0.cursor == s.cursor && Step(s, c).1 == []
  {
    if c.Dispatch? && s.schedule != [] {
      SkipsMeaning(s, 0);
    }
  }

  /** A dispatch on a schedule that is ready serves the slot at the cursor and moves the cursor on by one. */
  lemma DispatchServes(s: Sched)
    requires s.cursor < |s.schedule| && Owned(s.missions) && Ready(s.missions, s.Slot(0))
    ensures var (s', done) := Step(s, Dispatch);
            |done| == 1 && done[0].mission == s.Slot(0) && s'.cursor == Wrap(s.cursor + 1, |s.schedule|)
  {
    assert s.Skips(0) == 0;
  }

  lemma SlotShifts(s: Sched, s': Sched, i: nat)
    requires s.cursor < |s.schedule| && s'.schedule == s.schedule && s'.cursor == Wrap(s.cursor + 1, |s.schedule|)
    requires 0 < i < |s.schedule|
    ensures s'.cursor < |s'.schedule| && s'.Slot(i - 1) == s.Slot(i)
  {
  }

  /** What one call adds to a run that never goes dry: nothing, or the action at the cursor, which moves on. */
  lemma FirstCall(s: Sched, calls: seq<Call>)
    requires calls != [] && s.cursor < |s.schedule| && Owned(s.missions) && NeverDry(s, calls)
    ensures var (s', done) := Step(s, calls[0]);
            && s'.cursor < |s'.schedule| && s'.schedule == s.schedule && Owned(s'.missions) && NeverDry(s', calls[1..])
            && (if calls[0].Dispatch?
                then |done| == 1 && done[0].mission == s.Slot(0) && s'.cursor == Wrap(s.cursor + 1, |s.schedule|)
                else done == [] && s'.cursor == s.cursor)
  {
    StepInRange(s, calls[0]);
    StepOwned(s, calls[0]);
    if calls[0].Dispatch? {
      DispatchServes(s);
    }
  }

  /** The ith dispatch serves the ith slot from the cursor, whatever else is called in between. */
  lemma {:induction false} RunVisits(s: Sched, calls: seq<Call>, i: nat)
    requires s.cursor < |s.schedule| && Owned(s.missions) && NeverDry(s, calls)
    ensures |Run(s, calls)| == Dispatched(calls)
    ensures i < |Run(s, calls)| && i < |s.schedule| ==> Run(s, calls)[i].mission == s.Slot(i)
    decreases |calls|
  {
    if calls != [] {
      FirstCall(s, calls);
      var (s', done) := Step(s, calls[0]);
      if calls[0].Dispatch? && i > 0 {
        RunVisits(s', calls[1..], i - 1);
        if i < |s.schedule| {
          SlotShifts(s, s', i);
        }
      } else {
        RunVisits(s', calls[1..], i);
      }
    }
  }

  function Owners(actions: seq<Action>): (r: seq<MissionId>)
    ensures |r| == |actions| && forall i :: 0 <= i < |r| ==> r[i] == actions[i].mission
  {
    seq(|actions|, i requires 0 <= i < |actions| => actions[i].mission)
  }

  lemma {:induction false} WeightedCount(ms: Missions, order: seq<MissionId>, m: MissionId)
    requires Distinct(order)
    ensures multiset(Weighted(ms, order))[m] == if m in ActiveIn(ms, order) then Weight(ms[m]) else 0
  {
    if order != [] {
      var n := |order| - 1;
      WeightedCount(ms, order[..n], m);
      ActiveInSnoc(ms, order);
      if IsActive(ms, order[n]) {
        Sequences.RepeatCount(order[n], Weight(ms[order[n]]), m);
      }
    }
  }

  lemma RotationAt(xs: seq<MissionId>, c: nat, i: nat)
    requires c < |xs| && i < |xs|
    ensures (xs[c..] + xs[..c])[i] == xs[Wrap(c + i, |xs|)]
  {
  }

  lemma TurnAt(s: Sched, calls: seq<Call>, i: nat)
    requires s.cursor < |s.schedule| && Owned(s.missions) && NeverDry(s, calls)
    requires Dispatched(calls) == |s.schedule| && i < |s.schedule|
    ensures |Run(s, calls)| == |s.schedule|
    ensures Owners(Run(s, calls))[i] == (s.schedule[s.cursor..] + s.schedule[..s.cursor])[i]
  {
    RunVisits(s, calls, i);
    RotationAt(s.schedule, s.cursor, i);
  }

  lemma TurnIsRotation(s: Sched, calls: seq<Call>)
    requires s.cursor < |s.schedule| && Owned(s.missions) && NeverDry(s, calls) && Dispatched(calls) == |s.schedule|
    ensures Owners(Run(s, calls)) == s.schedule[s.cursor..] + s.schedule[..s.cursor]
  {
    var served, rotated := Owners(Run(s, calls)), s.schedule[s.cursor..] + s.schedule[..s.cursor];
    TurnAt(s, calls, 0);
    forall i | 0 <= i < |rotated| ensures served[i] == rotated[i] {
      TurnAt(s, calls, i);
    }
  }

  lemma RotationKeeps(xs: seq<MissionId>, c: nat)
    requires c <= |xs|
    ensures multiset(xs[c..] + xs[..c]) == multiset(xs)
  {
    assert xs == xs[..c] + xs[c..];
  }

  /**
   * If no active mission runs dry, as many dispatches as the schedule is long serve each foreground mission exactly
   * three times and each background mission once, wherever the cursor starts and whatever is enqueued, registered
   * or noted in between.
   */
  lemma FullTurnIsWeighted(s: Sched, calls: seq<Call>, m: MissionId)
    requires Consistent(s) && s.schedule != [] && NeverDry(s, calls) && Dispatched(calls) == |s.schedule|
    ensures multiset(Owners(Run(s, calls)))[m] == if IsActive(s.missions, m) then Weight(s.missions[m]) else 0
  {
    TurnIsRotation(s, calls);
    RotationKeeps(s.schedule, s.cursor);
    WeightedCount(s.missions, s.order, m);
    ActiveInAll(s);
  }

  // ---------- activation ----------

  function SetState(ms: Missions, m: MissionId, state: State): Missions
    requires m in ms
  {
    ms[m := ms[m].(state := state)]
  }

  /** Free slots go to waiting missions in registration order. */
  function Activate(ms: Missions, order: seq<MissionId>, free: nat): Missions {
    if order == [] || free == 0 then ms
    else if Waiting(ms, order[0]) then Activate(SetState(ms, order[0], Active), order[1..], free - 1)
    else Activate(ms, order[1..], free)
  }

  lemma ActiveSetAfter(ms: Missions, m: MissionId, state: State)
    requires m in ms
    ensures ActiveSet(SetState(ms, m, state)) == if state == Active then ActiveSet(ms) + {m} else ActiveSet(ms) - {m}
  {
  }

  /** Activation takes free slots only, fills them while a listed mission waits, and touches nothing but states. */
  lemma {:induction false} ActivateFills(ms: Missions, order: seq<MissionId>, free: nat)
    ensures var after := Activate(ms, order, free);
            && ActiveCount(ms) <= ActiveCount(after) <= ActiveCount(ms) + free
            && (ActiveCount(after) == ActiveCount(ms) + free || forall m :: m in order ==> !Waiting(after, m))
    decreases |order|
  {
    if order != [] && free > 0 {
      if Waiting(ms, order[0]) {
        var next := SetState(ms, order[0], Active);
        ActiveSetAfter(ms, order[0], Active);
        assert order[0] !in ActiveSet(ms);
        ActivateFills(next, order[1..], free - 1);
        ActivateOnly(next, order[1..], free - 1, order[0]);
      } else {
        ActivateFills(ms, order[1..], free);
        ActivateOnly(ms, order[1..], free, order[0]);
      }
    }
  }

  /** A mission is left as it was, or it was waiting and is now active. */
  lemma {:induction false} ActivateOnly(ms: Missions, order: seq<MissionId>, free: nat, m: MissionId)
    ensures var after := Activate(ms, order, free);
            && after.Keys == ms.Keys
            && (m in ms ==> after[m] == ms[m] || (Waiting(ms, m) && m in order && after[m] == ms[m].(state := Active)))
    decreases |order|
  {
    if order != [] && free > 0 {
      if Waiting(ms, order[0]) {
        ActivateOnly(SetState(ms, order[0], Active), order[1..], free - 1, m);
      } else {
        ActivateOnly(ms, order[1..], free, m);
      }
    }
  }

  /** First registered, first activated. */
  lemma {:induction false} ActivateInOrder(ms: Missions, order: seq<MissionId>, free: nat, i: nat, j: nat)
    requires Distinct(order) && i < j < |order| && Waiting(ms, order[i]) && Waiting(ms, order[j])
    requires IsActive(Activate(ms, order, free), order[j])
    ensures IsActive(Activate(ms, order, free), order[i])
    decreases |order|
  {
    if free == 0 {
    } else if Waiting(ms, order[0]) {
      var next := SetState(ms, order[0], Active);
      if i == 0 {
        ActivateOnly(next, order[1..], free - 1, order[0]);
      } else {
        assert order[i] != order[0] && order[j] != order[0];
        ActivateInOrder(next, order[1..], free - 1, i - 1, j - 1);
      }
    } else {
      ActivateInOrder(ms, order[1..], free, i - 1, j - 1);
    }
  }

  // ---------- conservation ----------

  /** A mission's actions, in order. */
  function Of(actions: seq<Action>, m: MissionId): seq<Action> {
    if actions == [] then []
    else
      var n := |actions| - 1;
      Of(actions[..n], m) + if actions[n].mission == m then [actions[n]] else []
  }

  lemma OfSnoc(actions: seq<Action>, a: Action, m: MissionId)
    ensures Of(actions + [a], m) == Of(actions, m) + if a.mission == m then [a] else []
  {
    assert (actions + [a])[..|actions|] == actions;
  }

  /** What was accepted for a mission is what was dispatched for it followed by what is still queued. */
  ghost predicate Conserved(ms: Missions, accepted: seq<Action>, dispatched: seq<Action>) {
    forall m :: ConservedAt(ms, accepted, dispatched, m)
  }

  predicate ConservedAt(ms: Missions, accepted: seq<Action>, dispatched: seq<Action>, m: MissionId) {
    Of(accepted, m) == Of(dispatched, m) + QueueOf(ms, m)
  }

  function QueueOf(ms: Missions, m: MissionId): seq<Action> {
    if m in ms then ms[m].actions else []
  }

  lemma AcceptConserves(ms: Missions, accepted: seq<Action>, dispatched: seq<Action>, a: Action)
    requires Conserved(ms, accepted, dispatched) && a.mission in ms
    ensures Conserved(Push(ms, a), accepted + [a], dispatched)
  {
    forall m ensures ConservedAt(Push(ms, a), accepted + [a], dispatched, m) {
      assert ConservedAt(ms, accepted, dispatched, m);
      OfSnoc(accepted, a, m);
      if m == a.mission {
        Sequences.Regroup(Of(dispatched, m), ms[m].actions, [a]);
      }
    }
  }

  lemma PopAt(ms: Missions, popped: Missions, m: MissionId, accepted: seq<Action>, dispatched: seq<Action>, a: Action)
    requires ConservedAt(ms, accepted, dispatched, m)
    requires QueueOf(ms, m) == (if a.mission == m then [a] else []) + QueueOf(popped, m)
    ensures ConservedAt(popped, accepted, dispatched + [a], m)
  {
    OfSnoc(dispatched, a, m);
    Sequences.Regroup(Of(dispatched, m), if a.mission == m then [a] else [], QueueOf(popped, m));
  }

  lemma PopConserves(ms: Missions, m: MissionId, accepted: seq<Action>, dispatched: seq<Action>)
    requires Conserved(ms, accepted, dispatched) && Owned(ms) && Ready(ms, m)
    ensures var popped := ms[m := ms[m].(actions := ms[m].actions[1..])];
            Conserved(popped, accepted, dispatched + [ms[m].actions[0]])
  {
    var a := ms[m].actions[0];
    var popped := ms[m := ms[m].(actions := ms[m].actions[1..])];
    forall x ensures ConservedAt(popped, accepted, dispatched + [a], x) {
      assert ConservedAt(ms, accepted, dispatched, x);
      assert QueueOf(ms, x) == (if a.mission == x then [a] else []) + QueueOf(popped, x);
      PopAt(ms, popped, x, accepted, dispatched, a);
    }
  }

  lemma DispatchConserves(s: Sched, accepted: seq<Action>, dispatched: seq<Action>)
    requires s.InRange() && Owned(s.missions) && Conserved(s.missions, accepted, dispatched) && s.Next().1.Some?
    ensures Conserved(s.Next().0.missions, accepted, dispatched + [s.Next().1.value])
  {
    SkipsMeaning(s, 0);
    PopConserves(s.missions, s.Slot(s.Skips(0)), accepted, dispatched);
  }

  // ---------- what operations keep ----------

  /** Same missions, active ones unchanged in state and weight, queues still their own. */
  ghost predicate SameActivity(ms: Missions, ms': Missions) {
    && (forall m :: m in ms <==> m in ms')
    && (forall m :: m in ms ==> ms[m].state == ms'[m].state && ms[m].foreground == ms'[m].foreground)
  }

  lemma SameActivityKeeps(ms: Missions, ms': Missions, order: seq<MissionId>)
    requires SameActivity(ms, ms')
    ensures Weighted(ms, order) == Weighted(ms', order) && ActiveSet(ms) == ActiveSet(ms')
  {
    WeightedFrame(ms, ms', order);
  }

  lemma NewMissionSchedule(ms: Missions, order: seq<MissionId>, m: MissionId, q: Queue)
    requires m !in ms && q.state == Queued
    ensures Weighted(ms[m := q], order + [m]) == Weighted(ms, order)
    ensures ActiveSet(ms[m := q]) == ActiveSet(ms)
  {
    var ms' := ms[m := q];
    assert (order + [m])[..|order|] == order;
    assert Slots(ms', m) == [];
    forall x | x in order ensures Slots(ms, x) == Slots(ms', x) {
    }
    WeightedFrame(ms', ms, order);
  }

  lemma NewMissionOrder(ms: Missions, order: seq<MissionId>, m: MissionId, q: Queue)
    requires Listed(ms, order) && m !in ms
    ensures Listed(ms[m := q], order + [m])
  {
    forall x ensures x in order + [m] <==> x in ms[m := q] {
      assert x in order + [m] <==> x in order || x == m;
    }
  }

  lemma RegisterConsistent(s: Sched, m: MissionId, q: Queue)
    requires Consistent(s) && m !in s.missions && q.state == Queued && q.actions == []
    ensures Consistent(s.(missions := s.missions[m := q], order := s.order + [m]))
  {
    NewMissionSchedule(s.missions, s.order, m, q);
    NewMissionOrder(s.missions, s.order, m, q);
  }

  lemma SameActivityConsistent(s: Sched, s': Sched)
    requires Consistent(s) && SameActivity(s.missions, s'.missions) && Owned(s'.missions)
    requires s'.order == s.order && s'.schedule == s.schedule && s'.InRange()
    ensures Consistent(s') && ActiveSet(s'.missions) == ActiveSet(s.missions)
  {
    SameActivityKeeps(s.missions, s'.missions, s.order);
  }

  /** Calls between rebuilds keep the scheduler consistent and the active missions as they were. */
  lemma StepKeepsActivity(s: Sched, c: Call)
    requires s.InRange() && Owned(s.missions) && !c.Register?
    ensures var s' := Step(s, c).0;
            && SameActivity(s.missions, s'.missions) && Owned(s'.missions)
            && s'.order == s.order && s'.schedule == s.schedule && s'.InRange()
  {
    if c.Dispatch? {
      NextKeeps(s);
    }
  }

  lemma StepConsistent(s: Sched, c: Call)
    requires Consistent(s)
    ensures Consistent(Step(s, c).0) && ActiveSet(Step(s, c).0.missions) == ActiveSet(s.missions)
  {
    if c.Register? {
      if c.mission !in s.missions {
        RegisterConsistent(s, c.mission, Queue(Queued, c.foreground, [], None));
        NewMissionSchedule(s.missions, s.order, c.mission, Queue(Queued, c.foreground, [], None));
      }
    } else {
      StepKeepsActivity(s, c);
      SameActivityConsistent(s, Step(s, c).0);
    }
  }

  lemma NextKeeps(s: Sched)
    requires s.InRange() && Owned(s.missions)
    ensures s.Next().0.InRange() && Owned(s.Next().0.missions) && SameActivity(s.missions, s.Next().0.missions)
    ensures s.Next().0.order == s.order && s.Next().0.schedule == s.schedule
  {
    if s.schedule != [] {
      SkipsMeaning(s, 0);
    }
  }

  /** After a rebuild the cursor is at the front of a fresh schedule. */
  function Rebuilt(s: Sched, ms: Missions): Sched {
    Sched(ms, s.order, Weighted(ms, s.order), 0)
  }

  /** Same missions with the same queues; states may differ. */
  ghost predicate SameQueues(ms: Missions, ms': Missions) {
    && (forall m :: m in ms <==> m in ms')
    && (forall m :: m in ms ==> ms[m].actions == ms'[m].actions)
  }

  lemma RebuiltConsistent(s: Sched, ms: Missions)
    requires Consistent(s) && SameQueues(s.missions, ms)
    ensures Consistent(Rebuilt(s, ms))
  {
  }

  /** What activation does: nothing when every slot is taken, otherwise fill and rebuild. */
  function Activated(s: Sched, maxActive: nat): Sched {
    var count := ActiveCount(s.missions);
    if count >= maxActive then s else Rebuilt(s, Activate(s.missions, s.order, maxActive - count))
  }

  ghost predicate NoneWaiting(ms: Missions) {
    forall m :: m in ms ==> !Waiting(ms, m)
  }

  /** No slot is idle while a queued mission has work. */
  ghost predicate Saturated(ms: Missions, maxActive: nat) {
    ActiveCount(ms) == maxActive || NoneWaiting(ms)
  }

  lemma ActivateSameQueues(ms: Missions, order: seq<MissionId>, free: nat)
    ensures SameQueues(ms, Activate(ms, order, free))
  {
    var ms' := Activate(ms, order, free);
    forall m ensures (m in ms <==> m in ms') && (m in ms ==> ms[m].actions == ms'[m].actions) {
      ActivateOnly(ms, order, free, m);
    }
  }

  lemma ActivateSaturates(ms: Missions, order: seq<MissionId>, maxActive: nat)
    requires Listed(ms, order) && ActiveCount(ms) < maxActive
    ensures var ms' := Activate(ms, order, maxActive - ActiveCount(ms));
            ActiveCount(ms') <= maxActive && Saturated(ms', maxActive) && SameQueues(ms, ms')
  {
    var free := maxActive - ActiveCount(ms);
    ActivateFills(ms, order, free);
    ActivateSameQueues(ms, order, free);
  }

  /** The scheduler is consistent again, with the same queues, and no slot is idle while a queued mission has work. */
  ghost predicate Settled(s: Sched, s': Sched, maxActive: nat) {
    && Consistent(s') && SameQueues(s.missions, s'.missions)
    && ActiveCount(s'.missions) <= maxActive && Saturated(s'.missions, maxActive)
  }

  lemma RebuiltSettles(s: Sched, ms: Missions, maxActive: nat)
    requires Consistent(s) && SameQueues(s.missions, ms) && ActiveCount(ms) <= maxActive && Saturated(ms, maxActive)
    ensures Settled(s, Rebuilt(s, ms), maxActive)
  {
    RebuiltConsistent(s, ms);
  }

  lemma FullIsSettled(s: Sched, maxActive: nat)
    requires Consistent(s) && ActiveCount(s.missions) == maxActive
    ensures Settled(s, s, maxActive)
  {
  }

  lemma FreeSettles(s: Sched, maxActive: nat)
    requires Consistent(s) && ActiveCount(s.missions) < maxActive
    ensures Settled(s, Rebuilt(s, Activate(s.missions, s.order, maxActive - ActiveCount(s.missions))), maxActive)
  {
    ActivateSaturates(s.missions, s.order, maxActive);
    RebuiltSettles(s, Activate(s.missions, s.order, maxActive - ActiveCount(s.missions)), maxActive);
  }

  lemma ActivatedKeeps(s: Sched, maxActive: nat)
    requires Consistent(s) && ActiveCount(s.missions) <= maxActive
    ensures Settled(s, Activated(s, maxActive), maxActive)
  {
    if ActiveCount(s.missions) < maxActive {
      var ms := Activate(s.missions, s.order, maxActive - ActiveCount(s.missions));
      assert Activated(s, maxActive) == Rebuilt(s, ms);
      FreeSettles(s, maxActive);
    } else {
      FullIsSettled(s, maxActive);
    }
  }

  // ---------- what a rebuild costs ----------

  lemma {:induction false} NothingToActivate(ms: Missions, order: seq<MissionId>, free: nat)
    requires forall m :: m in order ==> !Waiting(ms, m)
    ensures Activate(ms, order, free) == ms
    decreases |order|
  {
    if order != [] && free > 0 {
      NothingToActivate(ms, order[1..], free);
    }
  }

  /** A slot is free and no queued mission has work for it. */
  ghost predicate Slack(s: Sched, maxActive: nat) {
    && Consistent(s) && ActiveCount(s.missions) < maxActive
    && NoneWaiting(s.missions)
  }

  /** With a free slot and nothing waiting, activation only moves the cursor back to the front. */
  lemma IdleActivationResets(s: Sched, maxActive: nat)
    requires Slack(s, maxActive)
    ensures Activated(s, maxActive) == s.(cursor := 0)
  {
    NothingToActivate(s.missions, s.order, maxActive - ActiveCount(s.missions));
  }

  /** Activation leaves the schedule and the cursor alone exactly when no slot is free, or there is nothing to move. */
  lemma ActivationKeepsIff(s: Sched, maxActive: nat)
    requires Consistent(s)
    ensures Activated(s, maxActive) == s <==>
            || ActiveCount(s.missions) >= maxActive
            || (s.cursor == 0 && NoneWaiting(s.missions))
  {
    if ActiveCount(s.missions) < maxActive {
      if NoneWaiting(s.missions) {
        IdleActivationResets(s, maxActive);
      } else {
        ActivateFills(s.missions, s.order, maxActive - ActiveCount(s.missions));
      }
    }
  }

  /** An activation and then a dispatch. */
  function Round(s: Sched, maxActive: nat): (r: (Sched, Option<Action>))
    requires s.InRange()
    ensures r.0.InRange()
  {
    StepInRange(Activated(s, maxActive), Dispatch);
    Activated(s, maxActive).Next()
  }

  /** The next rounds serve exactly these actions, one after the other. */
  predicate RoundsServe(s: Sched, maxActive: nat, actions: seq<Action>)
    requires s.InRange()
    decreases |actions|
  {
    actions == [] ||
    var (s', a) := Round(s, maxActive);
    a == Some(actions[0]) && RoundsServe(s', maxActive, actions[1..])
  }

  /** The queue of the mission at the front of the schedule. */
  function FrontQueue(s: Sched): seq<Action> {
    if s.schedule != [] && IsActive(s.missions, s.schedule[0]) then s.missions[s.schedule[0]].actions else []
  }

  lemma FrontServed(s: Sched)
    requires Consistent(s) && s.cursor == 0 && FrontQueue(s) != []
    ensures var (s', a) := s.Next();
            a == Some(FrontQueue(s)[0]) && FrontQueue(s') == FrontQueue(s)[1..] && SameActivity(s.missions, s'.missions)
  {
    assert s.Slot(0) == s.schedule[0] && s.Skips(0) == 0;
  }

  lemma SlackStays(s: Sched, maxActive: nat)
    requires Slack(s, maxActive) && s.cursor == 0 && FrontQueue(s) != []
    ensures Slack(s.Next().0, maxActive)
  {
    FrontServed(s);
    StepConsistent(s, Dispatch);
    assert s.Slot(0) == s.schedule[0] && s.Skips(0) == 0;
  }

  lemma ResetRound(s: Sched, maxActive: nat)
    requires Slack(s, maxActive) && FrontQueue(s) != []
    ensures var (s', a) := Round(s, maxActive);
            a == Some(FrontQueue(s)[0]) && FrontQueue(s') == FrontQueue(s)[1..] && Slack(s', maxActive)
  {
    IdleActivationResets(s, maxActive);
    FrontServed(s.(cursor := 0));
    SlackStays(s.(cursor := 0), maxActive);
  }

  /**
   * An activation before every dispatch, with a free slot and nothing waiting, starves every mission but the first
   * for as long as that has work: its whole queue is served before anything else.
   */
  lemma {:induction false} ResetStarves(s: Sched, maxActive: nat)
    requires Slack(s, maxActive)
    ensures RoundsServe(s, maxActive, FrontQueue(s))
    decreases |FrontQueue(s)|
  {
    if FrontQueue(s) != [] {
      ResetRound(s, maxActive);
      ResetStarves(Round(s, maxActive).0, maxActive);
    }
  }

  /** Taking a mission off the active list (pausing or completing it), then filling its slot. */
  function Retired(s: Sched, m: MissionId, state: State, maxActive: nat): Sched
    requires m in s.missions
  {
    Activated(Rebuilt(s, SetState(s.missions, m, state)), maxActive)
  }

  lemma RetiredKeeps(s: Sched, m: MissionId, state: State, maxActive: nat)
    requires Consistent(s) && ActiveCount(s.missions) <= maxActive && m in s.missions && state != Active
    ensures Settled(s, Retired(s, m, state, maxActive), maxActive)
  {
    var ms := SetState(s.missions, m, state);
    RebuiltConsistent(s, ms);
    ActiveSetAfter(s.missions, m, state);
    ActivatedKeeps(Rebuilt(s, ms), maxActive);
  }

  // ---------- every run ----------

  datatype Op =
    | Quiet(call: Call)
    | ActivateReady
    | Pause(mission: MissionId)
    | Complete(mission: MissionId)

  /** What an operation does to the scheduler; refused operations change nothing. */
  function After(s: Sched, op: Op, maxActive: nat): Sched
    requires s.InRange()
  {
    match op
    case Quiet(call) => Step(s, call).0
    case ActivateReady => Activated(s, maxActive)
    case Pause(m) => AfterPause(s, m, maxActive)
    case Complete(m) => if m in s.missions then Retired(s, m, Completed, maxActive) else s
  }

  function AfterPause(s: Sched, m: MissionId, maxActive: nat): Sched {
    if m in s.missions && s.missions[m].state != Completed then Retired(s, m, Paused, maxActive) else s
  }

  /** The scheduler together with everything it ever accepted and dispatched. */
  datatype History = History(s: Sched, accepted: seq<Action>, dispatched: seq<Action>)

  function Accepts(ms: Missions, call: Call): Option<Action> {
    if call.Enqueue? && Enqueues(ms, call.action, call.authorization) then Some(call.action) else None
  }

  function Dispatches(s: Sched, call: Call): Option<Action>
    requires s.InRange()
  {
    if call.Dispatch? then s.Next().1 else None
  }

  function Append(actions: seq<Action>, a: Option<Action>): seq<Action> {
    if a.Some? then actions + [a.value] else actions
  }

  function Called(h: History, call: Call): History
    requires h.s.InRange()
  {
    History(Step(h.s, call).0, Append(h.accepted, Accepts(h.s.missions, call)),
            Append(h.dispatched, Dispatches(h.s, call)))
  }

  function Do(h: History, op: Op, maxActive: nat): History
    requires h.s.InRange()
  {
    if op.Quiet? then Called(h, op.call) else h.(s := After(h.s, op, maxActive))
  }

  ghost predicate Sound(h: History, maxActive: nat) {
    && Consistent(h.s)
    && ActiveCount(h.s.missions) <= maxActive
    && Conserved(h.s.missions, h.accepted, h.dispatched)
  }

  lemma SameQueuesConserved(ms: Missions, ms': Missions, accepted: seq<Action>, dispatched: seq<Action>)
    requires Conserved(ms, accepted, dispatched) && SameQueues(ms, ms')
    ensures Conserved(ms', accepted, dispatched)
  {
    forall m ensures ConservedAt(ms', accepted, dispatched, m) {
      assert ConservedAt(ms, accepted, dispatched, m);
    }
  }

  lemma EmptyQueueConserves(ms: Missions, m: MissionId, q: Queue, accepted: seq<Action>, dispatched: seq<Action>)
    requires Conserved(ms, accepted, dispatched) && m !in ms && q.actions == []
    ensures Conserved(ms[m := q], accepted, dispatched)
  {
    var more := ms[m := q];
    forall x ensures ConservedAt(more, accepted, dispatched, x) {
      assert ConservedAt(ms, accepted, dispatched, x);
    }
  }

  lemma DispatchStepConserves(s: Sched, accepted: seq<Action>, dispatched: seq<Action>)
    requires s.InRange() && Owned(s.missions) && Conserved(s.missions, accepted, dispatched)
    ensures Conserved(s.Next().0.missions, accepted, Append(dispatched, s.Next().1))
  {
    if s.Next().1.Some? {
      DispatchConserves(s, accepted, dispatched);
    } else {
      NextNoneIff(s);
    }
  }

  lemma EnqueueConserves(h: History, a: Action, auth: Authorization)
    requires h.s.InRange() && Conserved(h.s.missions, h.accepted, h.dispatched)
    ensures var h' := Called(h, Enqueue(a, auth)); Conserved(h'.s.missions, h'.accepted, h'.dispatched)
  {
    if Enqueues(h.s.missions, a, auth) {
      AcceptConserves(h.s.missions, h.accepted, h.dispatched, a);
    }
  }

  lemma RegisterConserves(h: History, m: MissionId, foreground: bool)
    requires h.s.InRange() && Conserved(h.s.missions, h.accepted, h.dispatched)
    ensures var h' := Called(h, Register(m, foreground)); Conserved(h'.s.missions, h'.accepted, h'.dispatched)
  {
    if m !in h.s.missions {
      EmptyQueueConserves(h.s.missions, m, Queue(Queued, foreground, [], None), h.accepted, h.dispatched);
    }
  }

  lemma NoteConserves(h: History, m: MissionId, reason: Option<string>)
    requires h.s.InRange() && Conserved(h.s.missions, h.accepted, h.dispatched)
    ensures var h' := Called(h, Note(m, reason)); Conserved(h'.s.missions, h'.accepted, h'.dispatched)
  {
    SameQueuesConserved(h.s.missions, Step(h.s, Note(m, reason)).0.missions, h.accepted, h.dispatched);
  }

  lemma CallConserves(h: History, call: Call)
    requires Consistent(h.s) && Conserved(h.s.missions, h.accepted, h.dispatched)
    ensures Conserved(Called(h, call).s.missions, Called(h, call).accepted, Called(h, call).dispatched)
  {
    match call {
      case Dispatch =>
        DispatchStepConserves(h.s, h.accepted, h.dispatched);
      case Enqueue(a, auth) =>
        EnqueueConserves(h, a, auth);
      case Register(m, foreground) =>
        RegisterConserves(h, m, foreground);
      case Note(m, reason) =>
        NoteConserves(h, m, reason);
    }
  }

  lemma CallKeepsSound(h: History, call: Call, maxActive: nat)
    requires Sound(h, maxActive)
    ensures Sound(Called(h, call), maxActive)
  {
    StepConsistent(h.s, call);
    CallConserves(h, call);
  }

  lemma RetireKeepsSound(h: History, m: MissionId, state: State, maxActive: nat)
    requires Sound(h, maxActive) && m in h.s.missions && state != Active
    ensures Sound(h.(s := Retired(h.s, m, state, maxActive)), maxActive)
  {
    RetiredKeeps(h.s, m, state, maxActive);
    SameQueuesConserved(h.s.missions, Retired(h.s, m, state, maxActive).missions, h.accepted, h.dispatched);
  }

  lemma ActivateKeepsSound(h: History, maxActive: nat)
    requires Sound(h, maxActive)
    ensures Sound(h.(s := Activated(h.s, maxActive)), maxActive)
  {
    ActivatedKeeps(h.s, maxActive);
    SameQueuesConserved(h.s.missions, Activated(h.s, maxActive).missions, h.accepted, h.dispatched);
  }

  lemma PauseKeepsSound(h: History, m: MissionId, maxActive: nat)
    requires Sound(h, maxActive)
    ensures Sound(h.(s := AfterPause(h.s, m, maxActive)), maxActive)
  {
    if m in h.s.missions && h.s.missions[m].state != Completed {
      RetireKeepsSound(h, m, Paused, maxActive);
    } else {
      assert h.(s := AfterPause(h.s, m, maxActive)) == h;
    }
  }

  /** Every operation keeps the schedule exact, the slots bounded and the actions conserved. */
  lemma DoKeepsSound(h: History, op: Op, maxActive: nat)
    requires Sound(h, maxActive)
    ensures Sound(Do(h, op, maxActive), maxActive)
  {
    var h' := Do(h, op, maxActive);
    match op {
      case Quiet(call) =>
        CallKeepsSound(h, call, maxActive);
      case ActivateReady =>
        ActivateKeepsSound(h, maxActive);
      case Pause(m) =>
        PauseKeepsSound(h, m, maxActive);
      case Complete(m) =>
        if m in h.s.missions {
          RetireKeepsSound(h, m, Completed, maxActive);
        }
        assert h' == h || h' == h.(s := Retired(h.s, m, Completed, maxActive));
    }
  }

  function RunOps(h: History, ops: seq<Op>, maxActive: nat): History
    requires h.s.InRange()
    decreases |ops|
  {
    if ops == [] then h
    else
      var h' := Do(h, ops[0], maxActive);
      if h'.s.InRange() then RunOps(h', ops[1..], maxActive) else h'
  }

  const EMPTY := History(Sched(map[], [], [], 0), [], [])

  lemma {:induction false} RunKeepsSound(h: History, ops: seq<Op>, maxActive: nat)
    requires Sound(h, maxActive)
    ensures Sound(RunOps(h, ops, maxActive), maxActive)
    decreases |ops|
  {
    if ops != [] {
      DoKeepsSound(h, ops[0], maxActive);
      RunKeepsSound(Do(h, ops[0], maxActive), ops[1..], maxActive);
    }
  }

  /** From an empty scheduler, no sequence of operations breaks any of it. */
  lemma EveryRunSound(ops: seq<Op>, maxActive: nat)
    requires 1 <= maxActive <= 5
    ensures Sound(RunOps(EMPTY, ops, maxActive), maxActive)
  {
    assert ActiveSet(EMPTY.s.missions) == {};
    RunKeepsSound(EMPTY, ops, maxActive);
  }

  /** After an accepted activation, pause or completion every slot that could be filled is. */
  lemma NoIdleSlot(h: History, op: Op, maxActive: nat)
    requires Sound(h, maxActive)
    requires op.ActivateReady?
             || (op.Pause? && op.mission in h.s.missions && h.s.missions[op.mission].state != Completed)
             || (op.Complete? && op.mission in h.s.missions)
    ensures Saturated(Do(h, op, maxActive).s.missions, maxActive)
  {
    if op.ActivateReady? {
      ActivatedKeeps(h.s, maxActive);
    } else {
      RetiredKeeps(h.s, op.mission, if op.Pause? then Paused else Completed, maxActive);
    }
  }

  /** Whatever is ready has a slot, so nothing is dispatched exactly when no active mission has work. */
  lemma IdleIffNoWork(s: Sched)
    requires Consistent(s)
    ensures s.Next().1.None? <==> forall m :: m in s.missions ==> !Ready(s.missions, m)
  {
    NextNoneIff(s);
    forall m | Ready(s.missions, m) ensures m in s.schedule {
      var start := FindBlock(s.missions, s.order, m);
      assert s.schedule[start] == m;
    }
  }

  // ---------- the scheduler ----------

  class MissionScheduler {
    const maxActive: nat
    var missions: Missions
    var order: seq<MissionId>
    var schedule: seq<MissionId>
    var cursor: nat

    function View(): Sched
      reads this
    {
      Sched(missions, order, schedule, cursor)
    }

    constructor (maxActive: nat)
      ensures View() == EMPTY.s && this.maxActive == maxActive
    {
      this.maxActive := maxActive;
      missions, order, schedule, cursor := map[], [], [], 0;
    }

    static method TryNew(maxActive: nat) returns (r: Result<MissionScheduler, Error>)
      ensures r.Ok? <==> 1 <= maxActive <= 5
      ensures r.Ok? ==> fresh(r.value) && r.value.View() == EMPTY.s && r.value.maxActive == maxActive
      ensures r.Err? ==> r.error == InvalidConcurrency
    {
      if !(1 <= maxActive <= 5) {
        return Err(InvalidConcurrency);
      }
      var s := new MissionScheduler(maxActive);
      return Ok(s);
    }

    method RegisterMission(m: MissionId, foreground: bool) returns (r: Result<(), Error>)
      requires View().InRange()
      modifies this`missions, this`order
      ensures r == if m in old(missions) then Err(AlreadyRegistered) else Ok(())
      ensures View() == After(old(View()), Quiet(Register(m, foreground)), maxActive)
    {
      if m in missions {
        return Err(AlreadyRegistered);
      }
      missions := missions[m := Queue(Queued, foreground, [], None)];
      order := order + [m];
      return Ok(());
    }

    method EnqueueAction(a: Action, auth: Authorization) returns (r: Result<(), Error>)
      requires View().InRange()
      modifies this`missions
      ensures r == if auth == Denied then Err(ActionNotApproved)
                   else if a.mission !in old(missions) then Err(NotRegistered)
                   else if old(missions)[a.mission].state == Completed then Err(MissionCompleted)
                   else Ok(())
      ensures View() == After(old(View()), Quiet(Enqueue(a, auth)), maxActive)
    {
      if auth == Denied {
        return Err(ActionNotApproved);
      }
      if a.mission !in missions {
        return Err(NotRegistered);
      }
      if missions[a.mission].state == Completed {
        return Err(MissionCompleted);
      }
      missions := missions[a.mission := missions[a.mission].(actions := missions[a.mission].actions + [a])];
      return Ok(());
    }

    method RebuildSchedule()
      modifies this`schedule, this`cursor
      ensures View() == Rebuilt(old(View()), missions)
    {
      schedule := [];
      for i := 0 to |order|
        invariant schedule == Weighted(missions, order[..i])
      {
        var m := order[i];
        assert order[..i + 1][..i] == order[..i];
        if m in missions && missions[m].state == Active {
          var weight := if missions[m].foreground then FOREGROUND_WEIGHT else BACKGROUND_WEIGHT;
          schedule := schedule + Sequences.Repeat(m, weight);
        }
      }
      assert order[..|order|] == order;
      cursor := 0;
    }

    method ActivateQueued()
      modifies this`missions, this`schedule, this`cursor
      ensures View() == Activated(old(View()), maxActive)
    {
      var available: int := maxActive - ActiveCount(missions);
      if available <= 0 {
        return;
      }
      ghost var after := Activate(missions, order, available);
      for i := 0 to |order|
        invariant 0 <= available
        invariant Activate(missions, order[i..], available) == after
      {
        var m := order[i];
        assert order[i..][0] == m && order[i..][1..] == order[i + 1..];
        if m in missions && available > 0 && missions[m].state == Queued && missions[m].actions != [] {
          missions := missions[m := missions[m].(state := Active)];
          available := available - 1;
        }
      }
      assert missions == after;
      RebuildSchedule();
    }

    method PauseMission(m: MissionId) returns (r: Result<(), Error>)
      requires View().InRange()
      modifies this`missions, this`schedule, this`cursor
      ensures r == if m !in old(missions) then Err(NotRegistered)
                   else if old(missions)[m].state == Completed then Err(MissionCompleted)
                   else Ok(())
      ensures View() == After(old(View()), Pause(m), maxActive)
    {
      if m !in missions {
        return Err(NotRegistered);
      }
      if missions[m].state == Completed {
        return Err(MissionCompleted);
      }
      missions := missions[m := missions[m].(state := Paused)];
      RebuildSchedule();
      ActivateQueued();
      return Ok(());
    }

    method CompleteMission(m: MissionId) returns (r: Result<(), Error>)
      requires View().InRange()
      modifies this`missions, this`schedule, this`cursor
      ensures r == if m !in old(missions) then Err(NotRegistered) else Ok(())
      ensures View() == After(old(View()), Complete(m), maxActive)
    {
      if m !in missions {
        return Err(NotRegistered);
      }
      missions := missions[m := missions[m].(state := Completed)];
      RebuildSchedule();
      ActivateQueued();
      return Ok(());
    }

    method ApplyResourceDecision(m: MissionId, decision: Decision) returns (r: Result<(), Error>)
      requires View().InRange()
      modifies this`missions, this`schedule, this`cursor
      ensures r == if m !in old(missions) then Err(NotRegistered)
                   else if decision.PauseAtSafeBoundary? && old(missions)[m].state == Completed
                   then Err(MissionCompleted)
                   else Ok(())
      ensures var noted := Step(old(View()), Note(m, if decision.Proceed? then None else Some(decision.reason))).0;
              View() == if decision.PauseAtSafeBoundary? then AfterPause(noted, m, maxActive) else noted
    {
      if m !in missions {
        return Err(NotRegistered);
      }
      match decision {
        case Proceed =>
          missions := missions[m := missions[m].(reason := None)];
          return Ok(());
        case Throttle(reason) =>
          missions := missions[m := missions[m].(reason := Some(reason))];
          return Ok(());
        case PauseAtSafeBoundary(reason) =>
          missions := missions[m := missions[m].(reason := Some(reason))];
          r := PauseMission(m);
      }
    }

    /** The iterator. */
    method Next() returns (r: Option<Action>)
      requires View().InRange() && forall i :: 0 <= i < |schedule| ==> schedule[i] in missions
      modifies this`missions, this`cursor
      ensures (View(), r) == old(View()).Next()
    {
      ghost var start := View();
      if schedule == [] {
        return None;
      }
      for k := 0 to |schedule|
        invariant missions == start.missions
        invariant cursor == Wrap(start.cursor + k, |schedule|)
        invariant start.Skips(k) == start.Skips(0)
      {
        var m := schedule[cursor];
        assert m == start.Slot(k);
        WrapIsModulo(cursor + 1, |schedule|);
        cursor := (cursor + 1) % |schedule|;
        if missions[m].state == Active && missions[m].actions != [] {
          assert start.Skips(0) == k;
          r := Some(missions[m].actions[0]);
          missions := missions[m := missions[m].(actions := missions[m].actions[1..])];
          return;
        }
      }
      return None;
    }
  }
}
