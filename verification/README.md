# Mission supervisor: a Dafny model

The supervisor is event-sourced. Small state machines mint numbered events, an append-only ledger accepts or refuses
them, and a restart rebuilds everything from what the ledger kept. This project models the parts of that design that
have to agree with one another, and proves that they do: for every run, for every choice of what the ledger or the
store refuses, and for every input the code accepts.

`dafny verify dfyconfig.toml` checks the whole project (Dafny 4.11).

## How the model is built

Code that updates state in place is a class with the same fields, and each method is proved equal to a specification
function on the class's abstract value (`View()`); the properties are lemmas about those functions and about runs of
them. Code that only computes is functions and lemmas. Parts outside the supervisor are parameters:

- the ledger's acceptance of the nth append (`MissionActor.Env.fate`), and the success of the nth store call of a
  snapshot, are arbitrary functions of n, so every theorem covers every pattern of failures;
- the payload hash, redaction, the JSON text codec, the decoding of an evidence entry and the JSON form of an approval
  are functions (`Events.Codec`, `MissionActor.Env`); where a theorem needs the codec to round-trip, or a hash to be
  injective, it says so in its `requires`;
- time is a parameter of each call, ids that fail to parse are `None`, and the order a hash map is walked in is a
  function of the map and of the moment.

| file | models |
|---|---|
| `Wrappers`, `Text`, `Sorting`, `Json`, `Events` | options and results, machine integers, strings, stable sort, JSON values, event kinds |
| `Approval`, `Pause`, `MissionActor`, `ActorLedger` | approval requests, the pause controller, the mission actor and its rebuild, and the actor over the ledger's table |
| `Scheduler` | the weighted mission scheduler |
| `Ledger`, `ReadModel`, `EventPipeline` | the event table, the projection, and the pipeline that keeps them together |
| `BlobStore`, `Deletion`, `Snapshot`, `BlobHistory` | blob reference counts and everything that moves them |
| `Route`, `MemoryStore` | route events and the memory lifecycle |
| `CivilDate`, `Budget`, `ContextPack` | calendar arithmetic, saturating budgets, greedy packing |
| `LineReader`, `Handshake` | bounded line reading, the nonce window and the proof bytes |

## Where the code does not do what one might expect

Each of these is stated as an if-and-only-if with the exact condition, and with an input that shows it:

- A budget of 2^32 - 1 tokens does not bound a context pack, because the running sum saturates there
  (`ContextPack.WithinBudgetIff`, `ContextPack.LargestBudgetExceeded`).
- The 80% warning can come early for limits above (2^64 - 1) / 4, never late (`Budget.NearLimitIff`,
  `Budget.NearLimitEarly`).
- An unknown event kind that carries the name of a known one is read back as the known one, so the live and the
  replayed model differ for exactly those kinds (`EventPipeline.AgreementIffCanonical`,
  `EventPipeline.BorrowedNameDisagrees`). Over the ledger, an actor's log is replayed as it was exactly when no recorded
  event was changed like that or by redaction (`ActorLedger.RunOverLedger`, `ActorLedger.BorrowedStartDisagrees`).
- A pipeline whose mission has no events yet takes the first event of any mission and goes on running with it
  (`EventPipeline.AppendAgreesIff`, `EventPipeline.RunAgreesIff`, `EventPipeline.StrayFirstDisagrees`).
- A pipeline started empty over a ledger that already has events of its mission disagrees with it
  (`EventPipeline.EmptyAgreesIff`, `EventPipeline.LateEmptyStartDisagrees`).
- An agent's approval request that names no usable approval is recorded without one, and the next restart of that
  mission fails (`MissionActor.RecordAgentAgreesIff`, `MissionActor.UnusableRequestFailsRestart`).
- A recorded event of a pause kind can put the rebuilt pause ahead of the live one
  (`MissionActor.RecordEventTracksIff`, `MissionActor.ForgedTerminationIsAhead`).
- An anonymous release that matches no anonymous retain takes a mission's count, and the blob can then be deleted
  while it is attached (`BlobStore.ReleaseConservesIff`, `BlobStore.UnmatchedReleaseLosesBlob`).
- A deletion plan's hash is compared and not recomputed, so a plan that lists other blobs under the current hash is
  applied, and the counts stay exact only if its list takes from each what the mission holds
  (`Deletion.DeleteMissionConservesIff`, `Deletion.StrippedPlanLeaks`).
- Activating with a free slot puts the cursor back even if nothing is activated, so an activation before every dispatch
  lets the first mission starve the others (`Scheduler.ActivationKeepsIff`, `Scheduler.ResetStarves`).

## Model

| member | source | states |
|---|---|---|
| `MissionActor.RunConsistent` | crates/supervisor/src/mission_actor.rs:99-117 | from any restart, after any run of harmless operations with any appends refused, the sequence, recovery flag and approvals are what another restart rebuilds; the live pause stage is never behind the rebuilt one and the states match if no append was refused |
| `MissionActor.DoConsistentIff` | crates/supervisor/src/mission_actor.rs:148-554 | every public operation keeps that agreement, whether its appends are accepted or refused, exactly if it is harmless: all of them are but a recording that is accepted and fits the approvals or the pause badly |
| `MissionActor.OwnOpsKeep` | crates/supervisor/src/mission_actor.rs:148-554 | the thirteen operations that record nothing given by the caller keep that agreement in every state |
| `MissionActor.OrdinaryIsHarmless` | crates/supervisor/src/mission_actor.rs:364-401 | recordings of kinds that are not the actor's own, and agents' requests with a usable approval, are harmless in every state |
| `MissionActor.AgreesIsRestart` | crates/supervisor/src/mission_actor.rs:99-117 | agreement is equality with the rebuilt sequence, recovery flag and approvals |
| `MissionActor.RestartConsistent` | crates/supervisor/src/mission_actor.rs:99-117 | a restarted actor agrees with its own log, and has issued no token |
| `MissionActor.ApprovalAppend` | crates/supervisor/src/mission_actor.rs:168-173 | an approval's event followed by its insertion keeps agreement, and a refused event inserts nothing |
| `MissionActor.PauseAppend` | crates/supervisor/src/mission_actor.rs:425-443 | moving the pause before its event keeps the live stage at or ahead of the rebuilt one even when the append is refused |
| `MissionActor.PlainAppend` | crates/supervisor/src/mission_actor.rs:515-554 | any other event keeps sequence, recovery, approvals and pause in agreement |
| `MissionActor.GateKeeps` | crates/supervisor/src/mission_actor.rs:148-180 | gating an action keeps agreement |
| `MissionActor.ResolveKeeps` | crates/supervisor/src/mission_actor.rs:182-246 | resolving an approval keeps agreement; what a failed call did to the copy is dropped |
| `MissionActor.AuthorizeKeeps` | crates/supervisor/src/mission_actor.rs:248-270 | authorizing keeps agreement, with and without an event |
| `MissionActor.SignalsKeep` | crates/supervisor/src/mission_actor.rs:272-294 | applying budget signals keeps agreement at whichever event it stops |
| `MissionActor.LoadoutKeeps` | crates/supervisor/src/mission_actor.rs:316-362 | a loadout change keeps agreement at whichever revocation it stops |
| `MissionActor.RecordEventAgreesIff` | crates/supervisor/src/mission_actor.rs:395-401 | recording any event keeps agreement exactly when it is refused, is no approval event, or repeats an approval already held |
| `MissionActor.RecordAgentAgreesIff` | crates/supervisor/src/mission_actor.rs:364-393 | the same for an agent event, or when it brings a usable approval of its own |
| `MissionActor.RecordEventTracksIff` | crates/supervisor/src/mission_actor.rs:395-401 | recording keeps the live pause at or ahead of the rebuilt one exactly when the event is refused, is of no pause kind, or is rebuilt at or below the live stage and, while nothing was refused, as the live state |
| `MissionActor.RecordAgentTracksIff` | crates/supervisor/src/mission_actor.rs:364-393 | the same for an agent event |
| `MissionActor.ForgedTerminationIsAhead` | crates/supervisor/src/mission_actor.rs:395-401 | an accepted recording of a termination that did not happen leaves the rebuilt stage ahead of the live one, with everything else in agreement |
| `MissionActor.UnusableRequestFailsRestart` | crates/supervisor/src/mission_actor.rs:590-619 | an accepted agent request without a usable approval makes the rebuild fail at its sequence |
| `MissionActor.ReplayKeyed` | crates/supervisor/src/mission_actor.rs:590-619 | rebuilt approvals are filed under their own ids |
| `MissionActor.GateMeaning` | crates/supervisor/src/mission_actor.rs:148-180 | an action waits only on a recorded approval bound to this mission, route, action and class; it is ready only if the policy allows it |
| `MissionActor.CarriedMeaning` | crates/supervisor/src/mission_actor.rs:640-682 | an agent's request, however worded, is pending, for one write action of this mission and route, with non-blank binding data and the id it names |
| `MissionActor.RecordAgentMeaning` | crates/supervisor/src/mission_actor.rs:364-393 | a recorded agent event is the one new event of the log, and the approval it carries is filed exactly as the log records it |
| `MissionActor.RecoveryMeaning` | crates/supervisor/src/mission_actor.rs:403-423 | a resolved recovery was required and no longer is; a refused one changes nothing |
| `MissionActor.SignalsMeaning` | crates/supervisor/src/mission_actor.rs:272-294 | applied signals are in the log in order, and a pause is requested exactly when one of them asks for it |
| `MissionActor.LoadoutChangeRevokes` | crates/supervisor/src/mission_actor.rs:316-362 | a loadout change that succeeds leaves every open approval revoked and the others untouched, and fails only if the ledger or the pause refuses |
| `MissionActor.DoPause` | crates/supervisor/src/mission_actor.rs:425-513 | no operation moves the pause except by calls on the controller, and only a termination whose process tree is gone terminates |
| `MissionActor.RunAdvancesPause` | crates/supervisor/src/mission_actor.rs:425-505 | over every run pause stages only advance and at most one token is ever issued |
| `MissionActor.TerminatedWithToken` | crates/supervisor/src/mission_actor.rs:461-481 | a mission becomes terminated only by a termination given the one token, after it was made available |
| `MissionActor.DoApproval` | crates/supervisor/src/mission_actor.rs:182-362 | an operation that does not file a request under an id changes its approval only by calls on it, and a resolving call is the command it was given; a mismatched or refused filing counts as none |
| `MissionActor.RunApproval` | crates/supervisor/src/mission_actor.rs:182-362 | so between two filings of an id, a run is a run of calls on its approval |
| `MissionActor.OnceBetweenInsertions` | crates/supervisor/src/mission_actor.rs:248-270 | with no request filed under the id in between, a request for one action authorizes at most one, whatever was refused in between |
| `MissionActor.AuthorizedWasApproved` | crates/supervisor/src/mission_actor.rs:182-270 | every authorization under a request that was not filed as approved follows an accepted approval by the user, before expiry and in the same context |
| `MissionActor.SoundOverRun` | crates/supervisor/src/mission_actor.rs:182-362 | between filings state, revision and resolver stay in step, and the revision never exceeds two |
| `MissionActor.BoundOverRun` | crates/supervisor/src/mission_actor.rs:182-362 | between filings any request keeps its binding and gains at most two revisions |
| `MissionActor.FinalOverRun` | crates/supervisor/src/mission_actor.rs:182-362 | a denied, expired, revoked or consumed approval stays as it is until a request is filed under its id again |
| `MissionActor.FinalFrom` | crates/supervisor/src/mission_actor.rs:182-362 | the same from any point of a run to any later one |
| `MissionActor.RecoveryIsRequired` | crates/supervisor/src/mission_actor.rs:557-580 | the loop computes whether the log leaves a run open |
| `MissionActor.Actor.Restart` | crates/supervisor/src/mission_actor.rs:99-117 | builds the actor the log determines, or fails on the first bad approval event |
| `MissionActor.Actor.AppendEvent` | crates/supervisor/src/mission_actor.rs:528-554 | a refused event changes nothing held; an accepted one moves the log, the recovery flag and the sequence together |
| `MissionActor.Actor.Mint` | crates/supervisor/src/mission_actor.rs:515-526 | offers the ledger the next event of this mission and route |
| `MissionActor.Actor.Gate` | crates/supervisor/src/mission_actor.rs:148-180 | allows, waits on a bound approval that is logged before it is filed, or pauses; a mismatched request or a refused event files nothing |
| `MissionActor.Actor.Resolve` | crates/supervisor/src/mission_actor.rs:182-246 | works on a copy and files it only after its event is in the log; any failed check or refused event leaves the approval as it was |
| `MissionActor.Actor.Authorize` | crates/supervisor/src/mission_actor.rs:248-270 | a single-action approval is consumed through a logged event, a wider one is left; a failure leaves the approval as it was |
| `MissionActor.Actor.ApplySignals` | crates/supervisor/src/mission_actor.rs:272-294 | the loop appends the signals in order, stops at the first refusal and then pauses if asked |
| `MissionActor.Actor.CheckFlight` | crates/supervisor/src/mission_actor.rs:296-314 | records a changed identity, then pauses |
| `MissionActor.Actor.RevokeOpen` | crates/supervisor/src/mission_actor.rs:338-352 | the loop revokes the listed approvals one after another, stopping at the first failure |
| `MissionActor.Actor.CheckLoadout` | crates/supervisor/src/mission_actor.rs:316-362 | revokes the open approvals, records the change, then pauses |
| `MissionActor.Actor.RecordAgent` | crates/supervisor/src/mission_actor.rs:364-393 | appends the agent's event with the approval it asks for, then files that approval |
| `MissionActor.Actor.Record` | crates/supervisor/src/mission_actor.rs:395-401 | appends the event |
| `MissionActor.Actor.Recover` | crates/supervisor/src/mission_actor.rs:403-423 | logs the decision only while a recovery is required and only for the two known decisions |
| `MissionActor.Actor.SafePause` | crates/supervisor/src/mission_actor.rs:425-435 | moves the pause, then appends its event |
| `MissionActor.Actor.Acknowledge` | crates/supervisor/src/mission_actor.rs:437-443 | acknowledges, then appends its event |
| `MissionActor.Actor.Timeout` | crates/supervisor/src/mission_actor.rs:445-448 | issues the token and records it |
| `MissionActor.Actor.RecordToken` | crates/supervisor/src/mission_actor.rs:487-505 | records a token once, when it is first issued |
| `MissionActor.Actor.RequestForce` | crates/supervisor/src/mission_actor.rs:450-459 | pauses first if running, then issues the token |
| `MissionActor.Actor.Terminate` | crates/supervisor/src/mission_actor.rs:461-481 | terminates only with the token and only if the process tree could be killed |
| `MissionActor.Actor.Connect` | crates/supervisor/src/mission_actor.rs:507-513 | losing the user interface pauses a running mission |
| `ActorLedger.RunOverLedger` | crates/supervisor/src/mission_actor.rs:45-59 | over every run, if the ledger took the events of the log each in its turn, it inserted every one, and replaying the mission gives what it kept of each; that is the log exactly when redaction left every event alone and no kind borrows a known name |
| `ActorLedger.AcceptedIsInserted` | crates/ledger/src/sqlcipher.rs:138-209 | what an intact ledger accepts of the actor is a new row, and the replay is one event longer, by what was kept of it |
| `ActorLedger.AcceptedBacksIff` | crates/ledger/src/sqlcipher.rs:138-209 | after it the table goes on replaying to the log exactly when the ledger keeps the event as it is |
| `ActorLedger.PersistedIff` | crates/domain/src/event.rs:96-170 | an accepted event is read back as it was exactly when redaction leaves it alone and its kind does not borrow a known name |
| `ActorLedger.BorrowedStartDisagrees` | crates/supervisor/src/mission_actor.rs:557-580 | a recorded event under the name of a run start, after which memory needs no recovery and a restart from the ledger does |
| `ActorLedger.NextIsNotHeld` | crates/ledger/src/sqlcipher.rs:138-209 | on an intact table an event with the next sequence is never taken as a redelivery |
| `ActorLedger.RunExtends` | crates/supervisor/src/mission_actor.rs:515-554 | over every run the log only grows, by the mission's own events, numbered without a gap |
| `Pause.RunAdvances` | crates/supervisor/src/pause.rs:83-168 | over any calls stages only advance and at most one token is issued |
| `Pause.TerminatedWithToken` | crates/supervisor/src/pause.rs:154-168 | Terminated is reached only by a call with a token an earlier call handed out |
| `Pause.AvailableWasIssued` | crates/supervisor/src/pause.rs:124-152 | a controller that awaits confirmation has handed its token out |
| `Pause.DoAdvances` | crates/supervisor/src/pause.rs:83-168 | each call keeps the stage or advances it, and any token returned is the first |
| `Pause.RebuiltIsInitial` | crates/supervisor/src/pause.rs:57-77 | a rebuilt controller has issued no token and never awaits confirmation |
| `Pause.PauseController.FromEvents` | crates/supervisor/src/pause.rs:57-77 | the loop rebuilds the state the last pause event left |
| `Pause.PauseController.Request` | crates/supervisor/src/pause.rs:83-100 | only a running controller moves, to requested with the reason given; repeated and late requests fail differently |
| `Pause.PauseController.Acknowledge` | crates/supervisor/src/pause.rs:102-118 | only a requested pause becomes paused, keeping its reason |
| `Pause.PauseController.Timeout` | crates/supervisor/src/pause.rs:120-122 | the same as asking for the token |
| `Pause.PauseController.ForceToken` | crates/supervisor/src/pause.rs:124-152 | issues a token to any pausing controller; asking again returns the same one |
| `Pause.PauseController.ForceTerminate` | crates/supervisor/src/pause.rs:154-168 | terminates only while the token is outstanding and only with it |
| `Approval.RevisionCountsTransitions` | crates/policy/src/approval.rs:118-247 | over any calls with any arguments, from any request, the revision counts the state changes, there are at most two, and the binding never changes |
| `Approval.RunKeepsSound` | crates/policy/src/approval.rs:118-247 | over any calls state, revision and resolver stay in step, with at most two revisions |
| `Approval.FinalStays` | crates/policy/src/approval.rs:142-232 | denied, expired, revoked and consumed requests are left as they are by every call, and no call on them succeeds |
| `Approval.ApprovedSince` | crates/policy/src/approval.rs:142-174 | an approved request was approved by one user call in time and context, and nothing has changed it since |
| `Approval.AuthorizedWasApproved` | crates/policy/src/approval.rs:142-202 | every successful authorization, unless the request was approved to begin with, follows such an approval, before expiry, in the same authority context, within the granted scope |
| `Approval.OnceAuthorizesOnce` | crates/policy/src/approval.rs:191-201 | two authorizations mean the scope was not a single action |
| `Approval.ApprovedByCall` | crates/policy/src/approval.rs:142-232 | a call leaves a request approved only if it did nothing to an approved one or approved it |
| `Approval.DoKeepsSound` | crates/policy/src/approval.rs:118-247 | each call keeps state, revision and resolver in step |
| `Approval.DoCounts` | crates/policy/src/approval.rs:242-246 | each call raises the revision exactly when it changes the state, and keeps the binding |
| `Approval.NewIsPending` | crates/policy/src/approval.rs:73-100 | a request is made exactly for the supervisor with non-blank binding data, and starts pending |
| `Approval.ApprovalRequest.Transition` | crates/policy/src/approval.rs:242-246 | the state and resolver given, one revision later |
| `Approval.ApprovalRequest.SetScope` | crates/policy/src/approval.rs:118-124 | changes the scope of a pending request only |
| `Approval.ApprovalRequest.Resolve` | crates/policy/src/approval.rs:142-174 | a matching, current, timely decision by the user moves a pending request; a late one expires it; anything else leaves it |
| `Approval.ApprovalRequest.Authorize` | crates/policy/src/approval.rs:176-202 | succeeds only for an approved request in time, in context and in scope; a late call expires it; a single-action one is consumed |
| `Approval.ApprovalRequest.Revoke` | crates/policy/src/approval.rs:204-213 | only the user revokes, and only an open request |
| `Approval.ApprovalRequest.RevokeForLoadoutChange` | crates/policy/src/approval.rs:215-221 | the supervisor revokes an open request |
| `Approval.ApprovalRequest.Expire` | crates/policy/src/approval.rs:223-232 | an open request past its time expires, once |
| `Scheduler.BoundedWait` | crates/supervisor/src/scheduler.rs:227-263 | between rebuilds, while an active mission with work is not served every call of `next` serves another one, and there are at most the schedule's length less its own weight of them, never more than 12 |
| `Scheduler.ServedWithin` | crates/supervisor/src/scheduler.rs:251-263 | as long as a mission with work is not served, every call of `next` serves another one, and the calls number at most the cursor's distance to its block |
| `Scheduler.NextApproaches` | crates/supervisor/src/scheduler.rs:251-263 | a dispatch serves the mission or brings the cursor nearer to its block |
| `Scheduler.FullTurnIsWeighted` | crates/supervisor/src/scheduler.rs:227-263 | if no mission runs dry, as many dispatches as the schedule is long serve each foreground mission three times and each background mission once, whatever is enqueued, registered or noted in between |
| `Scheduler.RunVisits` | crates/supervisor/src/scheduler.rs:251-263 | the ith dispatch serves the ith slot from the cursor, whatever is called in between |
| `Scheduler.NextNoneIff` | crates/supervisor/src/scheduler.rs:251-263 | nothing is dispatched exactly when no scheduled mission has work, and then nothing changes |
| `Scheduler.IdleIffNoWork` | crates/supervisor/src/scheduler.rs:251-263 | on a consistent scheduler that is: no active mission has work |
| `Scheduler.EveryRunSound` | crates/supervisor/src/scheduler.rs:89-263 | over every run: at most `max_active` missions are active, the schedule is the weighted list of them in registration order with the cursor in range, and per mission what was accepted is what was dispatched followed by what is queued |
| `Scheduler.DoKeepsSound` | crates/supervisor/src/scheduler.rs:89-263 | each operation keeps that |
| `Scheduler.NoIdleSlot` | crates/supervisor/src/scheduler.rs:129-176 | after activating, pausing or completing no slot is idle while a queued mission has work |
| `Scheduler.ActivateFills` | crates/supervisor/src/scheduler.rs:129-147 | activation fills the free slots or leaves no queued mission with work |
| `Scheduler.ActivateOnly` | crates/supervisor/src/scheduler.rs:129-147 | activation changes nothing but the state of queued missions with work |
| `Scheduler.ActivateInOrder` | crates/supervisor/src/scheduler.rs:129-147 | activation goes by registration order |
| `Scheduler.ActivationKeepsIff` | crates/supervisor/src/scheduler.rs:129-147 | activation leaves everything as it is exactly when no slot is free, or the cursor is at the front and nothing waits |
| `Scheduler.IdleActivationResets` | crates/supervisor/src/scheduler.rs:129-147 | with a free slot and nothing waiting, activation only puts the cursor back to the front |
| `Scheduler.ResetStarves` | crates/supervisor/src/scheduler.rs:129-263 | then an activation before every dispatch serves the whole queue of the first scheduled mission before anything else |
| `Scheduler.MissionScheduler.TryNew` | crates/supervisor/src/scheduler.rs:17-28 | a scheduler exists exactly for one to five active missions |
| `Scheduler.MissionScheduler.RegisterMission` | crates/supervisor/src/scheduler.rs:89-108 | a new mission is queued last in the order; a known one is refused and nothing changes |
| `Scheduler.MissionScheduler.EnqueueAction` | crates/supervisor/src/scheduler.rs:110-127 | an approved action joins the end of its mission's queue; the three refusals change nothing |
| `Scheduler.MissionScheduler.RebuildSchedule` | crates/supervisor/src/scheduler.rs:227-245 | the loops build the weighted list and reset the cursor |
| `Scheduler.MissionScheduler.ActivateQueued` | crates/supervisor/src/scheduler.rs:129-147 | the loop activates in registration order and rebuilds when a slot was free |
| `Scheduler.MissionScheduler.PauseMission` | crates/supervisor/src/scheduler.rs:149-165 | the mission leaves the active list and its slot is filled; a completed one is refused |
| `Scheduler.MissionScheduler.CompleteMission` | crates/supervisor/src/scheduler.rs:167-176 | the mission leaves the active list for good and its slot is filled |
| `Scheduler.MissionScheduler.ApplyResourceDecision` | crates/supervisor/src/scheduler.rs:178-196 | notes or clears the reason, and pauses the mission when the decision says so |
| `Scheduler.MissionScheduler.Next` | crates/supervisor/src/scheduler.rs:251-263 | the loop finds the first slot with work from the cursor, once around |
| `Ledger.BatchIsOneByOne` | crates/ledger/src/sqlcipher.rs:217-326 | a batch is accepted exactly when its events would all be accepted one by one, with the same table |
| `Ledger.ResubmissionIsNoOp` | crates/ledger/src/sqlcipher.rs:217-326 | resubmitting an accepted batch changes nothing |
| `Ledger.HeldIsNoOp` | crates/ledger/src/sqlcipher.rs:138-209 | an event the table holds is accepted and changes nothing |
| `Ledger.EveryTableIntact` | crates/ledger/src/sqlcipher.rs:138-326 | over every run of appends, batches and deletions each mission's sequences are 1..n, ids are unique, and every row's hash matches and reads back |
| `Ledger.InsertKeepsIntact` | crates/ledger/src/sqlcipher.rs:138-209 | one insertion keeps that |
| `Ledger.WithoutKeepsIntact` | crates/ledger/src/delete.rs:172-176 | deleting a mission's rows keeps that |
| `Ledger.ScanMeaning` | crates/ledger/src/sqlcipher.rs:409-461 | on any table with the primary key, the ordered scan is clean exactly when every mission's sequences are 1..n and every stored hash matches |
| `Ledger.IntactPassesScan` | crates/ledger/src/sqlcipher.rs:409-461 | a table that the operations reach passes |
| `Ledger.ReplayIntact` | crates/ledger/src/sqlcipher.rs:338-392 | replaying an intact table gives the mission's rows in order, numbered from one, with matching hashes |
| `Ledger.RestorePrepared` | crates/ledger/src/sqlcipher.rs:338-392 | an accepted event is read back with its kind by name and its payload and evidence redacted |
| `Ledger.EncryptedLedger.AppendEvent` | crates/ledger/src/sqlcipher.rs:138-215 | appends, ignores a held event or refuses with the error of the first failing check; a refusal changes nothing |
| `Ledger.EncryptedLedger.PrepareEach` | crates/ledger/src/sqlcipher.rs:230-260 | the first loop prepares every event before anything is inserted |
| `Ledger.EncryptedLedger.InsertEach` | crates/ledger/src/sqlcipher.rs:262-323 | the second loop inserts them in order, or stops |
| `Ledger.EncryptedLedger.AppendEvents` | crates/ledger/src/sqlcipher.rs:217-326 | all of the batch or nothing |
| `Ledger.EncryptedLedger.Scan` | crates/ledger/src/sqlcipher.rs:409-461 | the single pass with its running mission, expected sequence, count and last sequence is clean exactly when every row of the listing passes |
| `Ledger.EncryptedLedger.IntegrityReport` | crates/ledger/src/sqlcipher.rs:409-461 | reports Ok exactly when contiguity and stored hashes hold, with the number of events and the highest sequence |
| `ReadModel.ArrivalOrderFree` | crates/domain/src/read_model.rs:115-146 | the same events in any order with any number of copies replay to the same result, when an id and a sequence each name one event |
| `ReadModel.MissingIsExact` | crates/domain/src/read_model.rs:115-146 | the missing sequences are ascending, disjoint, maximal ranges that cover exactly the absent numbers from one to the highest, and the model is incomplete exactly when there are any |
| `ReadModel.ReplayEvents` | crates/domain/src/read_model.rs:115-146 | the loop computes the fold over the events by sequence |
| `ReadModel.ReduceFrame` | crates/domain/src/read_model.rs:44-113 | reducing never touches the gaps, and remembers the event it applied |
| `ReadModel.StepAgain` | crates/domain/src/read_model.rs:115-146 | an event just taken changes nothing when it comes again |
| `ReadModel.StepTracks` | crates/domain/src/read_model.rs:115-146 | one event keeps the gaps exact |
| `EventPipeline.RunAgreesIff` | crates/supervisor/src/event_pipeline.rs:51-98 | over every run of appends, new, redelivered, refused or of other missions, a running pipeline's model is what recovery from its ledger rebuilds, exactly if it had a mission or was first given an event of this one |
| `EventPipeline.AppendAgreesIff` | crates/supervisor/src/event_pipeline.rs:72-98 | an append that succeeds keeps agreement exactly when the event is the mission's own |
| `EventPipeline.StrayFirstDisagrees` | crates/domain/src/read_model.rs:48-53 | a first event of another mission after which the pipeline runs on and disagrees |
| `EventPipeline.RedeliveryChangesNothing` | crates/supervisor/src/event_pipeline.rs:72-98 | a redelivered event succeeds and changes neither table nor model |
| `EventPipeline.AcceptedRecovers` | crates/supervisor/src/event_pipeline.rs:72-98 | after a new event, recovery gives one more reduction, of what the ledger kept of it |
| `EventPipeline.RecoveredIsReduction` | crates/supervisor/src/event_pipeline.rs:51-62 | on an intact table recovery is plain reduction in order, with no gaps |
| `EventPipeline.RecoveredMeaning` | crates/domain/src/read_model.rs:44-113 | a recovered model has the version of the last contract update, the route, state and version of the last event that set them, every evidence entry in order, and exactly the ids of the events |
| `EventPipeline.ContractVersionIsLast` | crates/domain/src/read_model.rs:44-113 | the contract version is that of the last contract update, or 0 |
| `EventPipeline.RouteIsLast` | crates/domain/src/read_model.rs:44-113 | the route part is what the last route event says, or nothing |
| `EventPipeline.EvidenceIsAll` | crates/domain/src/read_model.rs:44-113 | the evidence is every recorded entry, decoded, in order |
| `EventPipeline.AgreementIffCanonical` | crates/domain/src/event.rs:96-170 | with an unchanged payload, a new event keeps agreement exactly when its kind is not an unknown kind under a known name |
| `EventPipeline.BorrowedNameDisagrees` | crates/domain/src/event.rs:96-170 | one such event after which live and replayed model differ |
| `EventPipeline.ForeignEventPauses` | crates/supervisor/src/event_pipeline.rs:72-98 | another mission's event pauses a pipeline that has a mission and leaves its model |
| `EventPipeline.PausedForever` | crates/supervisor/src/event_pipeline.rs:72-76 | once paused, every append of every run is refused with the same reason and nothing changes |
| `EventPipeline.RefusalPauses` | crates/supervisor/src/event_pipeline.rs:72-98 | an append fails exactly when the pipeline is paused afterwards |
| `EventPipeline.EmptyAgreesIff` | crates/supervisor/src/event_pipeline.rs:64-71 | starting empty agrees with a ledger exactly when it has nothing of the mission |
| `EventPipeline.LateEmptyStartDisagrees` | crates/supervisor/src/event_pipeline.rs:64-71 | a ledger with one event of the mission, over which an empty start disagrees |
| `EventPipeline.UnreadableSticks` | crates/supervisor/src/event_pipeline.rs:83-92 | after a pause on an accepted event the cause is a malformed payload, and recovery fails with that error then and after any further rows |
| `EventPipeline.Pipeline.WithEmpty` | crates/supervisor/src/event_pipeline.rs:64-71 | an empty model over the given ledger |
| `EventPipeline.Pipeline.Recover` | crates/supervisor/src/event_pipeline.rs:51-62 | the recovered model over the given ledger, or the error of the ledger or the projection |
| `EventPipeline.Pipeline.Append` | crates/supervisor/src/event_pipeline.rs:72-98 | table, model and status after an append; a refusal by the ledger or the projection pauses and keeps the model |
| `Events.StoredIff` | crates/domain/src/event.rs:87-170 | a kind written by name reads back as itself exactly when it is no unknown kind under a known name |
| `BlobHistory.EveryRunConserves` | crates/ledger/src/blob_store.rs:109-292 | over every run of harmless puts, retains, releases, attachments, mission deletions, cleanups and snapshots, a blob's count is its attached missions plus its outstanding anonymous retains, and a referenced blob keeps its row and file |
| `BlobHistory.DoConservesIff` | crates/ledger/src/blob_store.rs:109-292 | each operation keeps that exactly if it is harmless: all are but a release that takes more than an anonymous retain, and a deletion plan that is applied and takes other counts than the mission holds |
| `BlobHistory.MatchedIsHarmless` | crates/ledger/src/blob_store.rs:244-266 | a release of what was retained and a plan as it was issued are harmless in every state |
| `BlobHistory.SnapshotConserves` | crates/workspace/src/snapshot.rs:48-102 | so does a snapshot, however it ends |
| `BlobStore.PutConserves` | crates/ledger/src/blob_store.rs:109-143 | storing a blob keeps every count, including that of a row already there |
| `BlobStore.RetainConserves` | crates/ledger/src/blob_store.rs:158-168 | a retain raises the count and the outstanding retains together |
| `BlobStore.ReleaseConservesIff` | crates/ledger/src/blob_store.rs:244-266 | a release keeps the counts exact if and only if it is refused, finds a zero count, or gives back an anonymous retain |
| `BlobStore.UnmatchedReleaseLosesBlob` | crates/ledger/src/blob_store.rs:244-292 | storing, attaching, releasing without a retain and deleting a blob leaves it attached with neither row nor file |
| `BlobStore.AttachConserves` | crates/ledger/src/blob_store.rs:171-200 | attaching counts once per mission |
| `BlobStore.DetachConserves` | crates/ledger/src/blob_store.rs:221-242 | detaching takes back exactly the count of the attachment it removes |
| `BlobStore.DeleteConserves` | crates/ledger/src/blob_store.rs:268-292 | deletion removes no blob that anything refers to |
| `BlobStore.ReferencedIsKept` | crates/ledger/src/blob_store.rs:268-292 | an attached or retained blob has its row, a positive count and its file |
| `BlobStore.EncryptedBlobStore.PutBlob` | crates/ledger/src/blob_store.rs:109-143 | the file is there and the row is there; a row already there keeps its count, size and media type |
| `BlobStore.EncryptedBlobStore.RetainBlob` | crates/ledger/src/blob_store.rs:158-168 | raises the count of a row that matches in hash, size and media type, and otherwise refuses |
| `BlobStore.EncryptedBlobStore.Attach` | crates/ledger/src/blob_store.rs:171-200 | attaches once and raises the count with the attachment; a second attachment changes nothing |
| `BlobStore.EncryptedBlobStore.Detach` | crates/ledger/src/blob_store.rs:221-242 | removes the matching attachment and lowers the count with it, or changes nothing |
| `BlobStore.EncryptedBlobStore.ReleaseBlob` | crates/ledger/src/blob_store.rs:244-266 | lowers a positive count of a matching row and says whether it was the last |
| `BlobStore.EncryptedBlobStore.Delete` | crates/ledger/src/blob_store.rs:268-292 | removes row and file of a matching blob whose count is zero, and nothing else; a file that cannot be removed leaves both |
| `Deletion.WillRemoveIsExact` | crates/ledger/src/delete.rs:110-203 | deletion and cleanup remove a planned blob, row and file, exactly if the plan says so; otherwise its count is one less and positive and its file stays |
| `Deletion.OthersAreUntouched` | crates/ledger/src/delete.rs:155-203 | a blob the mission did not hold keeps its row and its file |
| `Deletion.DeletedCount` | crates/ledger/src/delete.rs:172-186 | applying a plan takes one exactly from each blob the mission held |
| `Deletion.DeleteMissionConservesIff` | crates/ledger/src/delete.rs:155-203 | applying any plan keeps the counts exact exactly when its list takes from each count what the mission holds |
| `Deletion.IssuedPlanTakesWhatIsHeld` | crates/ledger/src/delete.rs:118-171 | an unmodified plan that is applied does |
| `Deletion.StrippedPlanLeaks` | crates/supervisor/src/mission_service.rs:676-722 | the current plan with its blobs left out is applied, and a blob of the mission keeps a count nobody holds |
| `Deletion.CommittedCount` | crates/ledger/src/delete.rs:172-186 | after any applied plan a blob has its old count less what the list takes, which stops at zero, and the missions that hold it are the others |
| `Deletion.AppliedPlanIsCurrent` | crates/ledger/src/delete.rs:159-171 | an unmodified plan is applied only if it is what would be planned now |
| `Deletion.PlannedOnce` | crates/ledger/src/delete.rs:118-135 | a plan lists each blob of the mission once and no other |
| `Deletion.PlannedImpact` | crates/ledger/src/delete.rs:122-133 | each listed blob is described as the table has it |
| `Deletion.CleanUpEffect` | crates/supervisor/src/mission_service.rs:723-730 | cleanup removes a listed blob exactly if its count is zero, and touches nothing else |
| `Deletion.CleanUpConserves` | crates/supervisor/src/mission_service.rs:723-730 | cleanup keeps the counts exact |
| `Deletion.Preview` | crates/ledger/src/delete.rs:110-153 | the plan for the mission as the tables stand, or that the mission has no events |
| `Deletion.Apply` | crates/ledger/src/delete.rs:155-203 | a current, new plan removes the mission's events and attachments, decrements each planned blob, marks the mission deleted beside its archive columns and adds the receipt it returns, with its copy of the plan; any other changes nothing |
| `Deletion.Commit` | crates/ledger/src/delete.rs:172-201 | the five writes of the transaction, together |
| `Deletion.RemoveUnreferenced` | crates/supervisor/src/mission_service.rs:723-730 | the loop cleans up the blobs in order and stops at the first error |
| `Deletion.CleanUpUntilMeaning` | crates/supervisor/src/mission_service.rs:723-730 | that is the cleanup of all blobs before the first malformed hash or file of an unreferenced blob that cannot be removed, and it succeeds exactly when there is neither |
| `Deletion.DecrementPlanned` | crates/ledger/src/delete.rs:181-186 | the loop takes one from the count of each planned blob |
| `Snapshot.CreateIsAllOrNothing` | crates/workspace/src/snapshot.rs:48-102 | whatever fails and wherever, a failed snapshot leaves every count and retain as it was; one that succeeds holds one reference for each entry and one for the manifest |
| `Snapshot.CollectTakes` | crates/workspace/src/snapshot.rs:143-175 | walking a tree takes exactly one reference for each entry it has recorded, wherever it stops |
| `Snapshot.ReleaseAllGivesBack` | crates/workspace/src/snapshot.rs:228-232 | releasing the entries gives back exactly those references |
| `Snapshot.TakeTakes` | crates/workspace/src/snapshot.rs:166-167 | storing and retaining a blob takes one reference or none |
| `Snapshot.Snapshotter.TakeBlob` | crates/workspace/src/snapshot.rs:166-167 | a blob is stored and retained, or the step that failed leaves no reference behind |
| `Snapshot.Snapshotter.CollectFiles` | crates/workspace/src/snapshot.rs:143-175 | the recursive loop is the specified walk |
| `Snapshot.Snapshotter.ReleaseEntries` | crates/workspace/src/snapshot.rs:228-232 | the loop gives the references back, last first |
| `Snapshot.Snapshotter.CreateSnapshot` | crates/workspace/src/snapshot.rs:48-102 | the manifest and the store it leaves, or the rolled-back store, for every point of failure |
| `Route.RunLawful` | crates/domain/src/route.rs:64-166 | events minted by the route at any earlier moment, delivered in any order any number of times, give a history in which each version is reached by one lawful step |
| `Route.DeliverKeepsLawful` | crates/domain/src/route.rs:125-166 | one delivery adds at most one lawful step |
| `Route.DeliveredOnce` | crates/domain/src/route.rs:125-166 | an event once delivered never applies again |
| `Route.StaleChangesNothing` | crates/domain/src/route.rs:125-166 | an event for another version changes nothing |
| `Route.MintedFits` | crates/domain/src/route.rs:64-123 | a minted event fits the version that minted it, and is a lawful step there |
| `Route.TerminalNeverLeft` | crates/domain/src/route.rs:22-38 | a completed or abandoned route never changes again |
| `Route.AbandonedHasMetadata` | crates/domain/src/route.rs:106-138 | a route is abandoned exactly when it has its metadata, and that is complete |
| `Route.CompletedWasAccepted` | crates/domain/src/route.rs:80-104 | a completed route has an acceptance and complete evidence, and came through execution, verification and acceptance |
| `Route.DerivableIffAbandoned` | crates/domain/src/route.rs:54-62 | a route can be derived exactly from an abandoned one, and starts a history of its own |
| `Route.Route.ApplyTransition` | crates/domain/src/route.rs:140-166 | an event for this route, state and version moves it one version on; any other changes nothing |
| `Route.Route.ApplyAbandonment` | crates/domain/src/route.rs:125-138 | the same for an abandonment, which also leaves its metadata |
| `MemoryStore.Store.Insert` | crates/memory/src/lifecycle.rs:36-47 | the new items and history, the outcome, and that items mirror the history |
| `MemoryStore.Store.Mutate` | crates/memory/src/lifecycle.rs:182-213 | the new items and history, the outcome, and that items mirror the history |
| `MemoryStore.Store.Prepare` | crates/memory/src/lifecycle.rs:57-181 | the item a mutation would make, or why it may not |
| `MemoryStore.Store.AppendMutation` | crates/memory/src/lifecycle.rs:215-245 | one numbered history entry |
| `MemoryStore.Recorded` | crates/memory/src/lifecycle.rs:215-245 | an entry that continues an item's history keeps numbering, laws and mirroring |
| `MemoryStore.MutationRecorded` | crates/memory/src/lifecycle.rs:182-213 | every permitted mutation is such an entry |
| `MemoryStore.VersionsGrowByOne` | crates/memory/src/lifecycle.rs:182-213 | each mutation is by the user, permitted, and one version above the item's previous entry |
| `MemoryStore.FinalIsFinal` | crates/memory/src/lifecycle.rs:116-152 | after an item is invalidated or rejected it has no further entry |
| `MemoryStore.NoInferenceConfirmed` | crates/memory/src/lifecycle.rs:57-77 | a confirmed entry is a user's confirmation and never of an inference |
| `MemoryStore.ConfirmedByUser` | crates/memory/src/lifecycle.rs:57-77 | a confirmed item's last entry is a user's confirmation, of content an earlier candidate had |
| `MemoryStore.PackedMemoryWasConfirmed` | crates/memory/src/context_pack.rs:63-76 | an item may be packed exactly when its last entry is a user's confirmation |
| `CivilDate.FromDaysIsCalendar` | crates/ledger/src/delete.rs:95-105 | for every day from 1970 on the date is a real Gregorian date (section 5.7 and Appendix C of RFC 3339) with that day number |
| `CivilDate.CalendarRoundTrip` | crates/ledger/src/delete.rs:95-105 | every date from 1970 on is the conversion of its day number |
| `CivilDate.NextDayIsTomorrow` | crates/ledger/src/delete.rs:95-105 | consecutive days give consecutive dates |
| `CivilDate.DayNumberAscends` | crates/ledger/src/delete.rs:95-105 | later dates have larger day numbers |
| `CivilDate.Epoch` | crates/ledger/src/delete.rs:95-105 | day zero is 1970-01-01 |
| `CivilDate.YearOfEraFormula` | crates/ledger/src/delete.rs:97-99 | the division formula gives the year of the era that the calendar's cycles give |
| `CivilDate.FromSecondsRoundTrip` | crates/ledger/src/delete.rs:89-106 | the date and time fields are in range and determine the second |
| `Budget.ReplayMeaning` | crates/policy/src/budget.rs:168-189 | after any records a projection is unknown, or the last correction plus later samples, capped at 2^64 - 1 |
| `Budget.NearLimitIff` | crates/policy/src/budget.rs:191-213 | the saturating 80% test holds exactly at a true crossing or when both products saturate, and is exact for limits up to (2^64 - 1) / 4 |
| `Budget.NearLimitEarly` | crates/policy/src/budget.rs:191-213 | a use and a limit for which it warns too early |
| `Budget.WarnsOnce` | crates/policy/src/budget.rs:191-213 | one evaluation gives at most one warning for a dimension, and none if it was warned |
| `Budget.EvaluationKeepsWarnedOnce` | crates/policy/src/budget.rs:191-213 | over evaluations since the last change of limits each dimension is warned at most once |
| `Budget.Tracker.Add` | crates/policy/src/budget.rs:168-189 | the projection after a record is the replay of all records |
| `Budget.Tracker.AddSample` | crates/policy/src/budget.rs:170-177 | the loop adds each value of a sample |
| `Budget.Tracker.Evaluate` | crates/policy/src/budget.rs:193-211 | the signal of one dimension and whether it is now warned |
| `Budget.Tracker.EvaluateSafeBoundary` | crates/policy/src/budget.rs:191-213 | the signals of all dimensions in order, at most one warning each between limit changes |
| `Budget.Tracker.ReplaceLimits` | crates/policy/src/budget.rs:215-226 | only the user may replace limits, with a later contract version, and then warnings start afresh |
| `Budget.UsageReported` | crates/supervisor/src/mission_service.rs:177-210 | the deltas of a run of usage events add up to the rise of the highest total, and count the totals seen |
| `Budget.RunProjectsHighWater` | crates/supervisor/src/mission_service.rs:177-210 | so the projected tokens are the highest cumulative total, whether totals repeat or go backwards |
| `Budget.Meter.Convert` | crates/supervisor/src/mission_service.rs:177-210 | the record for one event and the remembered total |
| `ContextPack.Build` | crates/memory/src/context_pack.rs:133-185 | the pack of the candidates in priority order, or the first error |
| `ContextPack.Fill` | crates/memory/src/context_pack.rs:153-174 | the loop keeps each candidate that fits and excludes the others, in order |
| `ContextPack.KeptIffFits` | crates/memory/src/context_pack.rs:153-174 | below 2^32 - 1 a candidate is kept exactly when it fits with what was kept ahead of it |
| `ContextPack.KeptWithin` | crates/memory/src/context_pack.rs:153-174 | below 2^32 - 1 the kept estimates stay within the budget |
| `ContextPack.WithinBudgetIff` | crates/memory/src/context_pack.rs:153-174 | the kept estimates stay within the budget exactly when it is below 2^32 - 1 or everything fits |
| `ContextPack.LargestBudgetKeepsAll` | crates/memory/src/context_pack.rs:153-174 | a budget of 2^32 - 1 keeps everything |
| `ContextPack.LargestBudgetExceeded` | crates/memory/src/context_pack.rs:153-174 | 2^32 single-token candidates are all packed under a budget of 2^32 - 1 |
| `ContextPack.NothingLost` | crates/memory/src/context_pack.rs:133-185 | kept and excluded together are the candidates |
| `ContextPack.ArrivalOrderFree` | crates/memory/src/context_pack.rs:133-185 | the pack does not depend on the order of candidates with distinct priority, id and version |
| `ContextPack.NewCandidate` | crates/memory/src/context_pack.rs:42-61 | a candidate made directly is acceptable and never claims to be confirmed memory |
| `LineReader.ReadBoundedLine` | crates/adapter-codex/src/app_server.rs:307-342 | the result and what is consumed depend only on the bytes and not on the chunks, and the buffer never outgrows the line nor, for every limit below 2^64 - 1, the limit |
| `LineReader.LineEndMeaning` | crates/adapter-codex/src/app_server.rs:307-342 | a line ends at its first newline or at the end of the input |
| `LineReader.SessionRejoins` | crates/adapter-codex/src/app_server.rs:307-342 | the lines that reading one after another gives, put together, are the input up to its end or to a line that fails |
| `LineReader.Position` | crates/adapter-codex/src/app_server.rs:323-324 | the first newline of a chunk, if it has one |
| `Handshake.MaterialInjective` | crates/protocol/src/handshake.rs:102-112 | the bytes fed to the MAC (HMAC, section 2 of RFC 2104) determine install id, nonce and version list for lengths below 2^32 |
| `Handshake.UpdateProof` | crates/protocol/src/handshake.rs:102-112 | the loop feeds exactly those bytes |
| `Handshake.EvictIsLive` | crates/protocol/src/handshake.rs:175-183 | dropping expired entries from the front leaves exactly the live ones |
| `Handshake.WindowSlides` | crates/protocol/src/handshake.rs:175-183 | as time goes on, the cache stays exactly what was accepted within the window |
| `Handshake.WindowAccepts` | crates/protocol/src/handshake.rs:129-173 | accepting a nonce the cache does not have keeps the window exact, its nonces spaced and its size bounded |
| `Handshake.AcceptKeepsSpacing` | crates/protocol/src/handshake.rs:129-173 | no nonce is accepted twice within the window |
| `Handshake.Verifier.Verify` | crates/protocol/src/handshake.rs:129-173 | the verdict against the live cache, what is recorded, and that the window stays exact while time does not go back |
| `Handshake.Verifier.RemoveExpired` | crates/protocol/src/handshake.rs:175-183 | the loop drops expired entries from the front |
| `Handshake.Verifier.Judge` | crates/protocol/src/handshake.rs:129-173 | the checks in the order of the source |

## Left out

- Ciphers, key derivation, SHA-256, HMAC and the SQL engine: tables are sequences and maps, a transaction is all or nothing, hashes are functions.
- Pipes, process trees, mutexes, tasks, cancellation and time-outs: calls are serial and complete; whether a process tree could be killed is a parameter.
- Event fields and payload fields that nothing reads back (source, confidence, run id, and the descriptive parts of approval, budget, loadout and pause payloads).
- The subscribers of a pipeline: they receive each new model and do not influence it.
- The policy decision of `gate_action`, the flight-envelope comparison and resource thresholds: finite tables, taken as parameters.
- The 64-bit overflow of `sequence + 1` in the actor and of a blob's count: neither is reachable below 2^63 events or references.
- Events with sequence 0, which `replay_after` filters out and no append produces.
- Direct writes through `ledger_mut` and to public fields, and route events not made by the route's constructors.
- The hash of a context pack, timestamps of routes, and mission archive and export.
- I/O failures of the blob store outside snapshots and cleanup, and the contents of blob files: a put or retain is one step.
- Which directory entries a snapshot skips (ignored names, forbidden scopes, links): they are nodes marked as skipped.
- MissionActor.RunConsistent: the run stops being covered at a recording that is not harmless; DoConsistentIff says that exactly there agreement is lost.
- EventPipeline.RunAgreesIff: assumes redaction leaves each payload as it is and kinds do not borrow known names, as AgreementIffCanonical shows to be necessary for the kinds.
- LineReader.ReadBoundedLine: for a limit of exactly 2^64 - 1 the saturating sum never exceeds it, so only the line bounds the buffer; no stream is that long.
- BlobHistory.EveryRunConserves: the run stops being covered at an operation that is not harmless; DoConservesIff says that exactly there the counts stop being exact.
- LineReader.SessionRejoins: the parsing of each line as JSON and the queues of `next_line`, which keep lines and responses in the order they are read.
