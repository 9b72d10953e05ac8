# Companion server: verified models

Dafny models of the stateful parts of the companion server and its end-to-end proxy, with
proofs over every input and every run. `dafny verify dfyconfig.toml` checks all of it.

| file | what it models |
|---|---|
| `BackgroundGate.dfy` | the shared single-slot background gate, with wakes that call back into it |
| `Kernel.dfy` | what the auto-dispatch service reads from the kernel repository, how that may change, and the fence over it |
| `Autodispatch.dfy` | the intake protocol as a state machine: one step per synchronous block, with every other actor as environment steps |
| `AutodispatchSafety.dfy` | the invariants of that machine, part by part |
| `AutodispatchRuns.dfy` | what follows for whole runs |
| `AutodispatchSteps.dfy` | what each step does, field by field, from the conditions the source tests |
| `AutodispatchOutcomes.dfy` | what the steps come to: why intents are dropped, what is planned, prepared and kept, the storage bound, and that nothing gets stuck |
| `AutodispatchBlocks.dfy` | the same protocol run block by block, as a single thread does, and how many drains that leaves |
| `AutodispatchAwaits.dfy` | that each of these blocks runs to its end |
| `AutodispatchService.dfy` | the service as an object with the original's closure variables; each block is proved to be one step of the machine, and a host that records the steps keeps the object where the machine's run of them ends |
| `Sequences.dfy`, `Options.dfy` | small notions several files share |
| `PathScopes.dfy` | the scope algebra of a materialization |
| `Retention.dfy` | the retention sweep, and the storage bound over runs of it |
| `RetentionJobs.dfy` | what one sweep, whole or thrown, does to each job |
| `RemoteSession.dfy` | remote login sessions over traces, and the login lockout |
| `BodyReader.dfy` | the byte-bounded request body readers |
| `FrameForwarder.dfy` | the chunked event-stream forwarder, its faults, and the gauge of active streams |
| `Lifecycle.dfy` | startup, graceful shutdown with retry, failure teardown, and the handlers teardown waits for |
| `LifecycleResources.dfy` | what startup acquires against what teardown gives back, on every path |

How the pieces fit. The service is single-threaded but interleaved: between two `await`s a
block of code runs alone, and anything may happen at an `await`. `Autodispatch.Step` has one
constructor for each block and one for each thing others may do: change the repository or
the clock, acquire and release the gate, close, reopen or shut it down. `release` calls its
wakes synchronously; a step that frees the slot leaves a call of the service's wake `owed`,
and the wake is a step of its own. This allows more schedules than the original has, so every
safety result holds for the original's schedules too; the clock may move between any two
blocks. `BackgroundGate` treats re-entrancy exactly: a release carries a tree of the gate
calls its wakes make.

Objects whose variables the original updates in place are classes here
(`BackgroundResourceGate`, `Service`, `RetentionStore`, `Sessions`, `Limiter`, `ByteStream`,
`ProxyState`, `Downstream`, `SseGauge`, `ServerControls`, `Server`). Their methods are proved
equal to value functions; what these do is stated again from the fields and conditions alone
(the lemmas named `...Exact`), and the theorems are about their runs; `Host` and
`ServerHost` record the steps of a service and a server, so that the theorems hold of them.

## What the proofs found

- `drainTask` is documented as the single owned drain, but it is assigned only after the
  synchronous prefix of the drain has run. In runs in which everything between two `await`s
  runs alone, there is a single drain exactly as long as no first fence lapses: fails, before
  its drain is recorded, with intents still queued, the gate open and the wake registered
  (`SingleDrainIffNoLapse`). A first fence fails exactly if, between the two readings of one
  block, the policy's expiry is crossed or some table becomes unreadable (`FirstFenceExact`),
  so while clock and readable tables stay as they are within blocks there is only ever one
  drain (`SingleDrainWhenStill`); an explicit run of a new service on a monotone clock, all
  tables readable, ends with two (`TwoDrainsCanRun`). Exclusion therefore rests on the gate,
  and is proved from it (`OneIntakeAtATime`).
- No wake is lost as long as the gate is not shut down before the service is stopped, which is
  the order of server teardown. While the service runs its wake is registered exactly if the
  gate was never shut down (`RegisteredIffNoShutdown`), and a release by another owner loses
  queued work exactly if it is not (`ReleaseLosesIffUnregistered`, `ShutdownLosesWake`); an
  explicit run of a new service does (`LostWakeCanHappen`).
- Revoking or expiring a policy does not raise its version in the kernel. The whole-interval
  fence still holds because both are final for that version (`Kernel.PolicyEvolves`).
- The admission sweep can count fewer retained jobs than there are live ones: it counts none
  when it cannot list the directory or when one of its record writes throws (which leaves that
  record old, unreadable or new and the rest of the sweep undone), and it skips a job whose
  record it cannot read at that moment (`UndercountHasCause`). An admission goes over the
  bound of twenty live jobs exactly if its sweep counts less than that and leaves twenty
  (`NextBounded`, `StorageBounded`, `FailedSweepOverfills`); a run from an empty store comes to
  where either kind of undercount does it (`FullStoreOverfills`).
- Once a store is closed, the engine has been drained exactly if no startup failed and no
  drain failed after a failed listen (`ClosedUndrainedIffSkipped`); only a shutdown insists on
  the drain (`TeardownInOrder`), and from every startup about to listen, of which there are
  some (`BothFailuresHappen`), a failed listen can close the database undrained
  (`FailedListenClosesUndrained`).
- If startup throws once the listener is up, the stores are closed without closing the listener
  or refusing handlers, so from every startup about to listen there is a run in which stores
  close under a handler (`LateFailureClosesUnderAHandler`); in all other runs nothing is
  closed under an admitted handler (`NothingClosesUnderAHandler`). After
  `startedListener = server` only synchronous calls run, such as `server.address` and
  `process.on`; the case assumes that one of them throws.
- A logout ends a session exactly if its delete is saved (`LogoutEndsWhenSaved`); one whose
  delete fails answers success and leaves the session open (`FailedLogoutLeavesTheSession`).
  Other failing writes can only shorten a session on a clock that does not run backwards
  (`AcceptedIsGood`).
- The login lockout slows the guesses whose failure is recorded (`LockoutSlowsGuessing`).
  Recording is not guarded: when its write throws the route fails, but the password has been
  looked at and the count is unchanged (`UnrecordedGuessesAreFree`).

## Model

| member | source | states |
|---|---|---|
| BackgroundGate.BackgroundResourceGate.constructor | apps/server/src/background_resource.ts:90-94 | a new gate is open, free, without wakes, and its first token is 1 |
| BackgroundGate.BackgroundResourceGate.TryAcquire | apps/server/src/background_resource.ts:96-107 | grants exactly when the gate is not closed and nobody holds it, with the next token; a refusal changes nothing |
| BackgroundGate.BackgroundResourceGate.Free | apps/server/src/background_resource.ts:109-115 | only the live token frees the slot and takes a snapshot of the wakes; a stale one changes nothing |
| BackgroundGate.BackgroundResourceGate.Release | apps/server/src/background_resource.ts:109-127 | a genuine release runs exactly the wakes registered at that moment, each once, in order, whatever they do to the gate; a stale one runs none |
| BackgroundGate.BackgroundResourceGate.WakeAll | apps/server/src/background_resource.ts:120-126 | the wake loop walks its own snapshot although wakes re-enter the gate |
| BackgroundGate.BackgroundResourceGate.Run | apps/server/src/background_resource.ts:120-126 | any tree of gate calls made from a wake has the effect the value functions give it |
| BackgroundGate.BackgroundResourceGate.Close | apps/server/src/background_resource.ts:129-131 | closing fires no wake and keeps holder and wakes |
| BackgroundGate.BackgroundResourceGate.Reopen | apps/server/src/background_resource.ts:133-135 | reopening fires no wake and keeps holder and wakes |
| BackgroundGate.BackgroundResourceGate.OnSettled | apps/server/src/background_resource.ts:137-142 | a wake is registered once, at the end |
| BackgroundGate.BackgroundResourceGate.Unsubscribe | apps/server/src/background_resource.ts:139-141 | unsubscribing removes that wake only |
| Sequences.WithoutInParts | apps/server/src/background_resource.ts:139-141 | and the other wakes keep their order |
| BackgroundGate.BackgroundResourceGate.Shutdown | apps/server/src/background_resource.ts:144-147 | shutdown closes the gate and forgets all wakes, keeping the holder |
| BackgroundGate.PerformKeeps | apps/server/src/background_resource.ts:96-147 | any re-entrant run from a consistent gate keeps it consistent, and releases begun in it ran their whole snapshots |
| BackgroundGate.ReleaseKeeps | apps/server/src/background_resource.ts:109-127 | a genuine release runs its snapshot exactly once and in order, through any nesting |
| BackgroundGate.WakesKeep | apps/server/src/background_resource.ts:120-126 | the rest of a wake loop adds exactly its remaining wakes to its own release and disturbs no other |
| BackgroundGate.EveryReleaseRunsItsSnapshot | apps/server/src/background_resource.ts:81-85 | in every run from a new gate each release woke exactly its snapshot, no wake twice |
| BackgroundGate.AtMostOneLease | apps/server/src/background_resource.ts:71-75 | at every moment of every run at most one lease is live, across all owners |
| BackgroundGate.NoGrantWhileClosed | apps/server/src/background_resource.ts:76-79 | in every run from a new gate no lease is granted between a close or shutdown and the next reopen, whatever the wakes of releases in between do |
| BackgroundGate.RefusedOnlyIfClosedOrHeld | apps/server/src/background_resource.ts:97-99 | and one is refused only then or while a lease is live |
| BackgroundGate.TokensIncrease | apps/server/src/background_resource.ts:100-105 | of two grants in a run the later has the larger token |
| BackgroundGate.StaleReleaseIsIgnored | apps/server/src/background_resource.ts:110-114 | a lease given back can never again free a newer lease or wake anyone, whatever happened since |
| Kernel.FenceExact | apps/server/src/autodispatch_service.ts:273-355 | the fence passes under a policy exactly when every table can be read and run, selection, intent, expiry and unpaused control record stand as captured and that policy, with the captured id and version, is the first active one listed |
| Kernel.ActivePolicyIsFirst | apps/server/src/autodispatch_service.ts:320-326 | the policy a session runs under is the first active one of its listing |
| Kernel.NewerPolicyFails | apps/server/src/autodispatch_service.ts:327-333 | an active policy listed before the captured one makes the fence fail |
| Kernel.CaptureExact | apps/server/src/autodispatch_service.ts:578-620 | a completed run is captured exactly if the three tables can be read, its session's latest selected run is that run and an active policy is listed; what is captured is that intent, policy id and version, and control version |
| Kernel.FenceRereads | apps/server/src/autodispatch_service.ts:273-346 | read again over the same data, the fence depends on the clock only through the expiry, and on every table being readable |
| Kernel.FenceSpansInterval | apps/server/src/autodispatch_service.ts:261-355 | an intent that passes the fence was under one unchanged, unpaused authority at every moment since its capture |
| AutodispatchSafety.LeaseStep | apps/server/src/autodispatch_service.ts:482-486 | an intake holds the gate's current lease exactly from admission to its `finally`, through every step |
| AutodispatchSafety.QueueStep | apps/server/src/autodispatch_service.ts:220-230 | accepted runs are distinct; each is pending, admitted or dropped, exactly once; queue and tokens keep notification order |
| AutodispatchSafety.DrainSteps | apps/server/src/autodispatch_service.ts:535-571 | with work queued and no drain running, the slot is held or a wake is owed |
| AutodispatchSafety.StopStep | apps/server/src/autodispatch_service.ts:631-656 | once stopped the queue stays empty and active intakes stay aborted |
| AutodispatchSafety.EffectsStep | apps/server/src/autodispatch_service.ts:378-488 | plans, grants, prepared and discarded bytes and freed leases of each intake match its phase |
| AutodispatchSafety.AlwaysInv | apps/server/src/autodispatch_service.ts:223-237 | all of these hold in every state of every run of a new service |
| AutodispatchRuns.NoLostWake | apps/server/src/autodispatch_service.ts:495-571 | if the gate is shut down only after stop, no reachable state has queued work, no drain, no owed wake and a free slot with the service running; a release during unwinding and re-entrant wakes included |
| AutodispatchRuns.RegisteredIffNoShutdown | apps/server/src/autodispatch_service.ts:658-660 | in every run, while the service is not stopped its wake is registered exactly if the gate was never shut down |
| AutodispatchRuns.ReleaseLosesIffUnregistered | apps/server/src/background_resource.ts:109-127 | with work queued behind another owner's lease and nothing of the service under way, the release loses the work exactly if the wake is not registered |
| AutodispatchRuns.ShutdownLosesWake | apps/server/src/background_resource.ts:144-147 | in every run that comes to such a state, the release loses the work exactly if the gate was shut down before, and reopening does not bring it back |
| AutodispatchBlocks.LostWakeCanHappen | apps/server/src/background_resource.ts:144-147 | a run of a new service that ends with an open gate, a free slot, queued work and nobody to look at it |
| AutodispatchRuns.ReleaseRedrives | apps/server/src/background_resource.ts:109-127 | when any holder frees the slot, the service's wake starts a drain over the untouched queue, or drops the queue if the gate is closed |
| AutodispatchRuns.IntentsAreFresh | apps/server/src/autodispatch_service.ts:573-629 | everything queued, and every unaborted active intake, is what its notification captured, with no foreground activity or stop since |
| AutodispatchRuns.WholeIntervalFence | apps/server/src/autodispatch_service.ts:448-467 | whenever a grant is asked for: policy and control record were the same, active and unpaused at every moment since notification; no foreground activity or stop in between; service not stopped, intake not aborted, gate not closed |
| AutodispatchRuns.InvalidationIsPermanent | apps/server/src/autodispatch_service.ts:623-646 | a run queued or admitted when foreground activity or stop arrives is never granted afterwards |
| AutodispatchRuns.ClosureIsPermanent | apps/server/src/autodispatch_service.ts:500-505 | once a drain request or drain step has seen the gate closed, nothing queued then is ever queued or admitted again, reopen and duplicate notifications included |
| AutodispatchRuns.ClosureDrops | apps/server/src/autodispatch_service.ts:541-561 | the observation itself drops every queued intent |
| AutodispatchRuns.AcceptedWereNotified | apps/server/src/autodispatch_service.ts:607-620 | every accepted intent comes from a notification of its run |
| AutodispatchRuns.AdmittedOnceInOrder | apps/server/src/autodispatch_service.ts:497-531 | each run is admitted at most once, and admissions keep notification order |
| AutodispatchRuns.OneIntakeAtATime | apps/server/src/autodispatch_service.ts:513-531 | at most one intake is between admission and its `finally`, however many drains run |
| AutodispatchRuns.FinishedIntakesAreSettled | apps/server/src/autodispatch_service.ts:378-488 | on every path the lease was freed exactly once, and prepared bytes were either kept by a grant or replay or discarded, never both |
| AutodispatchRuns.DrainsTerminate | apps/server/src/autodispatch_service.ts:495-533 | all drains of a run together make at most one working turn for each notification, so without new ones each drain ends |
| AutodispatchRuns.StopIsFinal | apps/server/src/autodispatch_service.ts:631-646 | after stop nothing is admitted, planned, granted or kept |
| AutodispatchRuns.StopQuiesces | apps/server/src/autodispatch_service.ts:647-656 | once stop has resolved no intake is active, no lease is held, all prepared bytes are settled, and none of it ever changes |
| AutodispatchRuns.OnePreparation | apps/server/src/autodispatch_service.ts:417-452 | from its room check to its grant an intake is the only one there, so preparations never overlap |
| AutodispatchSteps.TurnExact | apps/server/src/autodispatch_service.ts:495-531 | with work queued and the gate open, a turn drops the first intent exactly if its own fence fails, admits it exactly if the fence passes and the slot is free, and leaves all behind it queued in order |
| AutodispatchSteps.LastTurnExact | apps/server/src/autodispatch_service.ts:496-506 | a drain ends on an empty queue or a stopped service, and under a closed gate drops the whole queue |
| AutodispatchSteps.UnwindExact | apps/server/src/autodispatch_service.ts:556-568 | a drain that ends is gone and none is on record; it drops the queue under a closed gate, and otherwise starts the next drain exactly if one was asked for and work is queued |
| AutodispatchSteps.PublishResumeExact | apps/server/src/autodispatch_service.ts:531-570 | a drain is put on record when its starting call returns, and goes on when its intake is done |
| AutodispatchSteps.NotifyExact | apps/server/src/autodispatch_service.ts:573-621 | a notification is accepted exactly if the service runs, is enabled, has a planner, has not seen the run and can capture it; then the captured intent is queued and wakes or starts a drain, or is dropped with the queue under a closed gate |
| AutodispatchSteps.WakeStepExact | apps/server/src/autodispatch_service.ts:536-571 | the registered wake drops the queue under a closed gate, notes a request for the drain on record, or starts a drain over queued work |
| AutodispatchSteps.InvalidateExact | apps/server/src/autodispatch_service.ts:623-646 | foreground activity and the first stop drop the queue and abort exactly the active intakes; stop also takes the wake from the gate, and no other |
| AutodispatchSteps.StopExact | apps/server/src/autodispatch_service.ts:631-656 | a second stop changes nothing; the stop promise settles exactly when no drain is on record and no intake is active |
| AutodispatchSteps.BeginExact | apps/server/src/autodispatch_service.ts:384-396 | the planner is asked exactly if the first fence passes |
| AutodispatchSteps.ProposeExact | apps/server/src/autodispatch_service.ts:397-416 | a plan is created exactly for an operation that the config and the policy of a passing fence allow; the intake goes on exactly with a frozen plan and all it takes to prepare it |
| AutodispatchSteps.RoomExact | apps/server/src/autodispatch_service.ts:417-426 | preparation starts exactly if the fence passes and fewer jobs than the budget are retained |
| AutodispatchSteps.PreparedExact | apps/server/src/autodispatch_service.ts:432-444 | the intake goes on exactly if the preparation succeeded |
| AutodispatchSteps.AuthorizeExact | apps/server/src/autodispatch_service.ts:445-478 | a grant is asked for exactly if the last fence passes; the bytes are kept exactly if it was and the execution is authorized, reserved or a replay, and discarded otherwise |
| AutodispatchSteps.FinallyExact | apps/server/src/autodispatch_service.ts:480-487 | the lease is given back, owing the registered wake a call, before the intake is settled |
| AutodispatchSteps.OutsideExact | apps/server/src/background_resource.ts:96-147 | what the other owners, the repository and the clock do, field by field |
| AutodispatchSteps.OutOfTurn | apps/server/src/autodispatch_service.ts:378-571 | out of turn no drain, intake or wake does anything: a drain does not go on before the intake it awaits is done |
| AutodispatchOutcomes.QueuedIntentGoes | apps/server/src/autodispatch_service.ts:495-571 | over any step a queued intent is dropped exactly if its own fence fails in a turn that looks at it, the gate is found closed, or there is foreground activity or a stop; it is admitted exactly if it is first, passes and the slot is free; else it stays |
| AutodispatchOutcomes.DroppedHadCause | apps/server/src/autodispatch_service.ts:495-646 | over every run each dropped intent has such a cause at some step |
| AutodispatchOutcomes.KeptIffAnswered | apps/server/src/autodispatch_service.ts:445-478 | over every run, what a finished intake prepared was kept exactly if at some step its fence passed and the grant was answered authorized, reserved or replayed |
| AutodispatchOutcomes.PlannedIffAllowed | apps/server/src/autodispatch_service.ts:397-406 | over every run an intake created a plan exactly if at some step the proposed operation was allowed by the config and by the policy its intent stood under |
| AutodispatchOutcomes.PreparedHadRoom | apps/server/src/autodispatch_service.ts:417-438 | nothing is ever prepared without a room check of its own intake that passed the fence and found fewer than the budget |
| AutodispatchOutcomes.PreparationsAreAdmissions | apps/server/src/autodispatch_service.ts:417-444 | however service and retention store interleave, a job is in preparation exactly while an intake is preparing, so there is never a second |
| AutodispatchOutcomes.IntakesKeepTheBound | apps/server/src/autodispatch_service.ts:418-426 | live jobs and the one an intake is preparing are at most the budget, unless a sweep that undercounts admits one over it |
| AutodispatchOutcomes.NeverStuck | apps/server/src/autodispatch_service.ts:495-656 | while a drain runs or an intake is active some step of it can be taken; when none can, all leases are back, stop may settle, and queued work has a held slot or an owed wake |
| AutodispatchBlocks.PrefixGrows | apps/server/src/autodispatch_service.ts:553-570 | the synchronous part of a drain, with the intakes, releases, wakes and drains nested in it, adds exactly one recorded drain for each first fence that lapses |
| AutodispatchBlocks.CallCounts | apps/server/src/autodispatch_service.ts:536-571 | from a state with at most one drain on record, every callback or settling promise leaves one drain more for each lapse in its block, and such a state if there is none |
| AutodispatchBlocks.OnRecordUntilLapse | apps/server/src/autodispatch_service.ts:231-232 | in a run without lapses there is at most one drain between blocks, and `drainTask` is that one |
| AutodispatchBlocks.SingleDrainIffNoLapse | apps/server/src/autodispatch_service.ts:231-232 | over every run of blocks the service owns a single drain exactly as long as no first fence lapses |
| AutodispatchBlocks.FirstFenceExact | apps/server/src/autodispatch_service.ts:385-386 | the first fence of an intake just admitted fails exactly if, at the second reading, its policy has expired or some table cannot be read |
| AutodispatchBlocks.SingleDrainWhenStill | apps/server/src/autodispatch_service.ts:553-570 | if the clock and the readable tables stay as they are within each block there is only ever one drain, and `drainTask` is it |
| AutodispatchBlocks.TwoDrainsCanRun | apps/server/src/autodispatch_service.ts:553-570 | a run of blocks of a new service, on a monotone clock, that ends with two recorded drains |
| AutodispatchBlocks.BlocksAreRuns | apps/server/src/autodispatch_service.ts:495-571 | every run of blocks is a run of the protocol, so its invariants and theorems hold between blocks |
| AutodispatchAwaits.BlocksEndAtAwaits | apps/server/src/autodispatch_service.ts:378-571 | after any run of blocks every intake awaits the planner or the materializer or is settled: each block runs to its end |
| AutodispatchService.Service.constructor | apps/server/src/autodispatch_service.ts:216-237 | a new service starts in an initial state of the protocol with its wake registered |
| AutodispatchService.Service.ReadCurrentIntake | apps/server/src/autodispatch_service.ts:263-355 | the fence as evaluated on the service's own variables is the protocol's fence |
| AutodispatchService.Service.RequestDrain | apps/server/src/autodispatch_service.ts:536-571 | a drain request drops the queue, records a wake, does nothing or starts a drain, as the protocol says |
| AutodispatchService.Service.OnRunCompleted | apps/server/src/autodispatch_service.ts:573-621 | a notification is the protocol's step: deduplicated, captured and queued, or ignored |
| AutodispatchService.Service.OnSettled | apps/server/src/autodispatch_service.ts:658-660 | the registered wake is the protocol's wake step |
| AutodispatchService.Service.DrainTurn | apps/server/src/autodispatch_service.ts:495-533 | one turn of the drain loop, with the gate it acquires from, is the protocol's turn |
| AutodispatchService.Service.DrainPublish | apps/server/src/autodispatch_service.ts:570 | `drainTask` is set when the starting call returns |
| AutodispatchService.Service.DrainResume | apps/server/src/autodispatch_service.ts:531-532 | a drain goes on when its intake is done |
| AutodispatchService.Service.DrainFinally | apps/server/src/autodispatch_service.ts:556-568 | the `finally` of a drain drops the queue, starts the next drain or ends |
| AutodispatchService.Service.Begin | apps/server/src/autodispatch_service.ts:384-396 | the first fence and the call of the planner |
| AutodispatchService.Service.Proposed | apps/server/src/autodispatch_service.ts:397-416 | the second fence, the operation checks and the creation of the plan |
| AutodispatchService.Service.StartPreparing | apps/server/src/autodispatch_service.ts:417-438 | the third fence and the retention budget |
| AutodispatchService.Service.Prepared | apps/server/src/autodispatch_service.ts:439-444 | the end of the preparation |
| AutodispatchService.Service.AuthorizeOrDiscard | apps/server/src/autodispatch_service.ts:445-478 | the last fence and the grant in one block; what is not granted or replayed is discarded |
| AutodispatchService.Service.ReleaseLease | apps/server/src/autodispatch_service.ts:482-485 | the lease is given back before the intake leaves `active`, owing the wake |
| AutodispatchService.Service.RemoveActive | apps/server/src/autodispatch_service.ts:486 | the intake leaves `active` |
| AutodispatchService.Service.NotifyForeground | apps/server/src/autodispatch_service.ts:623-629 | the queue is dropped and every active intake aborted |
| AutodispatchService.Service.AbortAll | apps/server/src/autodispatch_service.ts:628 | the loop over `active` aborts exactly the active intakes |
| AutodispatchService.Service.Stop | apps/server/src/autodispatch_service.ts:631-646 | stop up to its first await; a second call changes nothing |
| AutodispatchService.Service.PollStop | apps/server/src/autodispatch_service.ts:647-655 | the stop loop returns exactly when nothing is active and no drain is current |
| AutodispatchService.Service.OutsideActs | apps/server/src/background_resource.ts:96-147 | what others do to the gate, the repository and the clock is the protocol's step, owing the service its wake on a release |
| AutodispatchService.Host.Perform | apps/server/src/autodispatch_service.ts:216-662 | after any sequence of enabled steps the object is where the protocol's run of those steps ends, with all its invariants |
| PathScopes.IntersectScopesIsMeet | apps/server/src/autodispatch_materializer.ts:725-740 | a path is within the intersection exactly when it is within the policy scopes and within the config scopes, "." included |
| PathScopes.ComputeIntersectScopes | apps/server/src/autodispatch_materializer.ts:725-740 | the nested loops compute that meet without duplicates |
| PathScopes.NarrowerIsMeet | apps/server/src/autodispatch_materializer.ts:732-736 | what one pair contributes is inside both members and above every path inside both |
| PathScopes.CollapseShape | apps/server/src/autodispatch_materializer.ts:703-715 | the collapsed roots are exactly the non-redundant ones, strictly sorted, none an ancestor of another |
| PathScopes.CollapseCoverage | apps/server/src/autodispatch_materializer.ts:696-715 | collapsing changes no path's coverage |
| PathScopes.CollapseCanonical | apps/server/src/autodispatch_materializer.ts:703-715 | two root lists collapse to the same list exactly when they cover the same paths |
| PathScopes.CollapseIdempotent | apps/server/src/autodispatch_materializer.ts:703-715 | collapsing twice is collapsing once |
| PathScopes.AssertPlanScope | apps/server/src/autodispatch_materializer.ts:781-798 | the loop accepts exactly the plans all of whose relevant paths are within the plan's scopes and not "." |
| PathScopes.ImplementPlanAccepted | apps/server/src/autodispatch_materializer.ts:745-798 | an implement plan is accepted exactly when each relevant path is within the policy's and the config's write scopes |
| PathScopes.InvestigatePlanAccepted | apps/server/src/autodispatch_materializer.ts:754-798 | an investigate plan is accepted exactly when each relevant path is within the policy's and the config's read scopes or is an allowed top-level file |
| PathScopes.PolicyScopesCover | apps/server/src/autodispatch_materializer.ts:754-774 | the scopes of a plan cover what policy and config both allow to read, for an implement plan also to write, and the top-level files |
| PathScopes.AcceptedPathsAreUsable | apps/server/src/autodispatch_materializer.ts:1241-1246 | every path of an accepted plan, of either operation, may be used under the profile and is in the snapshot, below a copied root or as an allowed top-level file |
| PathScopes.ConfigOnlyNarrows | apps/server/src/autodispatch_materializer.ts:1378-1384 | whatever the config becomes, an implement profile edits exactly what policy and config both allow, never more than the policy |
| PathScopes.InvestigateProfile | apps/server/src/autodispatch_materializer.ts:1378-1384 | an investigate profile reaches exactly what policy and config both allow to read and the top-level files, never "." |
| PathScopes.SnapshotCopiesExactly | apps/server/src/autodispatch_materializer.ts:1241-1246 | the snapshot copies exactly what some scope reaches that policy and config have in common and that is no top-level file |
| PathScopes.CoversBySegments | apps/server/src/autodispatch_materializer.ts:774-779 | a scope covers exactly the paths that begin with all its segments, so `src` does not cover `src2`; "." covers only itself |
| PathScopes.LessAt | apps/server/src/autodispatch_materializer.ts:714 | roots are ordered by the first code unit in which they differ |
| Retention.RetentionStore.Prune | apps/server/src/autodispatch_materializer.ts:410-558 | the sweep computes its specification and accounts for every live job, stops where a record write throws, and reports zeros unconfigured or unlistable |
| Retention.RetentionStore.Retained | apps/server/src/autodispatch_service.ts:206-214 | a sweep that throws leaves what it had done and counts as nothing retained |
| Retention.RetentionStore.WriteRetention | apps/server/src/autodispatch_materializer.ts:235-240 | a record write replaces the record, or throws leaving it old, unreadable or new |
| Retention.RetentionStore.ReleaseQuiescent | apps/server/src/autodispatch_materializer.ts:430-535 | the loop over the entries, with its four counters and the list it collects, or up to the write that throws |
| Retention.RetentionStore.ExpireOld | apps/server/src/autodispatch_materializer.ts:536-557 | the sort, the slice of survivors and the expiring loop, or up to the write that throws |
| Retention.SortByAgeSorts | apps/server/src/autodispatch_materializer.ts:536 | sorting by age orders the records and keeps all of them |
| Retention.SweepAccounts | apps/server/src/autodispatch_materializer.ts:410-558 | the live jobs a sweep can read are those it retains plus those it expires, the retained ones are the live ones it can read after, and it skips the others |
| Retention.SweepThatReadsAll | apps/server/src/autodispatch_materializer.ts:410-558 | if every record can be read, live jobs before are those retained plus those expired, and the retained ones are the live jobs after |
| Retention.SweepJob | apps/server/src/autodispatch_materializer.ts:436-556 | what one sweep leaves of each job |
| Retention.PreparedNeedsProof | apps/server/src/autodispatch_materializer.ts:439-534 | a prepared job is touched exactly when its record can be read, its stored materialization matches and the kernel proves it revoked before launch or quiescent |
| Retention.SweepKeepsFewAndRecent | apps/server/src/autodispatch_materializer.ts:537-556 | afterwards at most twenty cleaned jobs it could read are left, none older than seven days |
| Retention.SweepExpiresOldestFirst | apps/server/src/autodispatch_materializer.ts:536-546 | no job expired by the count alone is newer than one it could read and kept |
| Retention.SweepIdempotent | apps/server/src/autodispatch_materializer.ts:441-451 | a second sweep at the same time that can read the same records changes nothing and reports the same retained count, in whatever order the directory is read |
| RetentionJobs.SweepPrepared | apps/server/src/autodispatch_materializer.ts:455-535 | a prepared job with a matching ledger expires at once if its grant was revoked before launch, loses its copies if the recorded outcome is consumed, succeeded and authorized, or interrupted and quiescent or succeeded, and is else left as it is |
| RetentionJobs.SweepCleaned | apps/server/src/autodispatch_materializer.ts:436-451 | a cleaned job keeps its record or expires with it, and expires when older than the window; anything else stays |
| RetentionJobs.SweepExpiresOnlyOverflow | apps/server/src/autodispatch_materializer.ts:537-546 | a recent job expires only when the sweep leaves exactly twenty cleaned ones |
| RetentionJobs.SweepBreaksTiesByListing | apps/server/src/autodispatch_materializer.ts:536-538 | of two recent jobs of one age the one listed first goes first |
| RetentionJobs.SweepCountsReleases | apps/server/src/autodispatch_materializer.ts:528-534 | the reported count of cleaned jobs is the number of prepared ones whose worker is gone |
| RetentionJobs.ThrowsInFirst | apps/server/src/autodispatch_materializer.ts:455-535 | the first loop writes, and so can throw, at exactly the prepared jobs it cleans or expires |
| RetentionJobs.ThrownInFirst | apps/server/src/autodispatch_materializer.ts:470-534 | then the copies are gone, the record is old, unreadable or new, the jobs listed later are untouched, and nothing counts as retained |
| RetentionJobs.ThrownInSecond | apps/server/src/autodispatch_materializer.ts:547-556 | the second loop throws at a job the whole sweep would expire, with its artifacts gone |
| RetentionJobs.ThrownSparesOthers | apps/server/src/autodispatch_materializer.ts:536-557 | every other job is then as the first loop left it or as the whole sweep leaves it |
| RetentionJobs.SweepsAndAdmissions | apps/server/src/autodispatch_service.ts:418-432 | an admission takes a new job in after its sweep exactly if none is in preparation and the sweep counts fewer than twenty |
| RetentionJobs.EventsExact | apps/server/src/autodispatch_materializer.ts:344-371 | the end of a preparation, the cleanup after a worker and a discard, field by field |
| Retention.SweepRevivesNothing | apps/server/src/autodispatch_materializer.ts:410-558 | a job live after a sweep was live before, wherever the sweep stops |
| Retention.StorageBounded | apps/server/src/autodispatch_service.ts:418-426 | over all runs of sweeps, preparations, cleanups and discards at most twenty jobs are live, unless a store left full by a sweep that undercounts admits one more |
| Retention.NextBounded | apps/server/src/autodispatch_service.ts:418-426 | an event breaks the bound exactly when it is an admission whose sweep counts less than the budget and leaves the store full |
| Retention.UndercountHasCause | apps/server/src/autodispatch_materializer.ts:205-211 | a sweep that neither throws nor fails to list undercounts exactly if it leaves a live job whose record it could not read |
| Retention.FullStoreOverfills | apps/server/src/autodispatch_service.ts:206-214 | a run from an empty store fills it within the bound, and there an unlistable directory and one unreadable record each let an admission over it |
| Retention.FailedSweepOverfills | apps/server/src/autodispatch_service.ts:206-214 | every such admission, once its job is prepared, leaves one live job too many |
| Retention.NextAdvances | apps/server/src/autodispatch_materializer.ts:344-371 | no step moves a record's status backwards or changes its creation time; only a torn write loses it |
| Retention.StatusOnlyAdvances | apps/server/src/autodispatch_materializer.ts:344-557 | over any run a record only moves prepared, cleaned, artifact-expired, or skips cleaned, and stays readable unless a write tore it |
| RemoteSession.AcceptedIffGood | apps/server/src/app.ts:848-882 | over every run, whatever writes fail and whatever the clock does, a request is accepted exactly when its session was opened, no logout of it was saved, its absolute expiry has not passed, and no two saved uses in a row lie more than the idle time apart |
| RemoteSession.AcceptedIffGoodReliably | apps/server/src/app.ts:848-882 | with a reliable store that is every use of the session |
| RemoteSession.AcceptedIsGood | apps/server/src/app.ts:863-881 | on a clock that does not run backwards failing writes only shorten a session: what is accepted is good with every use counted |
| RemoteSession.RejectionIsFinal | apps/server/src/app.ts:868-875 | once rejected, never accepted again, even if deleting the row failed |
| RemoteSession.LogoutEndsWhenSaved | apps/server/src/app.ts:2156-2170 | after a logout a request is accepted exactly if the delete was not saved and it was accepted before |
| RemoteSession.RowsExact | apps/server/src/app.ts:863-881 | a session's row is stored exactly while no logout of it was saved and its saved uses were prompt, and it records the last of them |
| RemoteSession.Sessions.Create | apps/server/src/app.ts:2125-2134 | a login inserts the row with its absolute expiry, or fails |
| RemoteSession.Sessions.HasValidSession | apps/server/src/app.ts:848-882 | the gate's answer, and what it does to the row when writes work or fail |
| RemoteSession.Sessions.LogOut | apps/server/src/app.ts:2156-2170 | logout deletes the row if there is a token and the write works |
| RemoteSession.LockoutSlowsGuessing | apps/server/src/remote_session.ts:199-222 | in any stretch without a right password, more recorded guesses than the limit take at least the lockout time |
| RemoteSession.EveryGuessRecorded | apps/server/src/remote_session.ts:199-212 | with a store that saves every write those are all guesses |
| RemoteSession.UnrecordedGuessesAreFree | apps/server/src/app.ts:2106-2114 | while no lockout is in force any number of guesses whose failure cannot be recorded is looked at and leaves the limiter alone |
| RemoteSession.LockoutExact | apps/server/src/remote_session.ts:199-222 | over every run of a new limiter the count and the lock are those of the wrong guesses recorded since the last right one: locked exactly when they come to a multiple of the limit and the lockout time has not passed since the last |
| RemoteSession.RightPasswordClears | apps/server/src/remote_session.ts:214-216 | a recorded right password leaves nothing of the failures before it |
| RemoteSession.FewGuessesNeverLock | apps/server/src/remote_session.ts:199-212 | while fewer wrong guesses than the limit were recorded since the last right one, every password is looked at |
| RemoteSession.Limiter.RecordFailure | apps/server/src/remote_session.ts:199-212 | a failure counts up, keeping a lockout in force, or locks and resets the count |
| RemoteSession.Limiter.Login | apps/server/src/app.ts:2099-2124 | a password is looked at exactly when no lockout is in force, and the limiter moves accordingly |
| BodyReader.Accumulate | apps/server/src/app.ts:1082-1111 | chunks are delivered exactly when the stream ends without failing within the cap; never more than the cap is kept, and the stream is cancelled exactly when the cap is crossed |
| BodyReader.Combine | apps/server/src/app.ts:1116-1121 | the offset-copy loop yields the concatenation of the chunks |
| BodyReader.CheckLength | apps/server/src/app.ts:1057-1073 | the declared length is refused malformed, unsafe or over the cap, before anything is read |
| BodyReader.LengthGateExact | apps/server/src/app.ts:1057-1073 | a declared length is malformed exactly if it is not a digit string, and too long exactly if it is a numeral, leading zeros or not, above the cap or the safe integers |
| BodyReader.ReadJsonBody | apps/server/src/app.ts:1053-1131 | the JSON result depends on the declared length and the whole body's bytes only, not on the chunks |
| BodyReader.JsonExact | apps/server/src/app.ts:1113-1130 | a body that is empty or decodes to no text gives the empty value and counts no bytes; any other is accepted exactly if it decodes and parses, with its length |
| BodyReader.ReadLoginFormBody | apps/server/src/app.ts:960-1028 | the same for the login form, under its own cap |
| BodyReader.EveryCutDelivers | apps/server/src/app.ts:1079-1107 | however a body is cut into chunks it is delivered whole within the cap and refused above it |
| BodyReader.DeliversExactly | apps/server/src/app.ts:1079-1111 | a stream delivers a body exactly if no read fails and its chunks put together are that body, within the cap |
| BodyReader.OnlyBytesMatter | apps/server/src/app.ts:1079-1107 | two streams that do not fail and carry the same bytes are the same body |
| FrameForwarder.FindBreakIsFirst | apps/server/e2e/server.ts:1185-1189 | the break found is a blank line and there is none before it |
| FrameForwarder.FramesPartition | apps/server/e2e/server.ts:1190-1191 | the frames and the rest put together are the text |
| FrameForwarder.FramesAreMinimal | apps/server/e2e/server.ts:1185-1191 | the rest holds no complete frame, and a frame's only blank line ends it |
| FrameForwarder.ProcessExtends | apps/server/e2e/server.ts:1182-1191 | text that arrives later continues from the rest as if it had been there at once |
| FrameForwarder.ChunkingDoesNotMatter | apps/server/e2e/server.ts:1182-1211 | for every way of cutting a stream the forwarder ends as if it had come in one piece, and between chunks its buffer holds no complete frame |
| FrameForwarder.ChunkingNeverMatters | apps/server/e2e/server.ts:1182-1211 | runs of several streams, with faults armed and reset in between, end alike if they only differ in how what a stream gets in a row is cut |
| FrameForwarder.BuffersAreExact | apps/server/e2e/server.ts:1182-1191 | whatever the faults and the other streams do, a stream's buffer is the unfinished last frame of what it has received |
| FrameForwarder.UnarmedNetIsTransparent | apps/server/e2e/server.ts:1182-1217 | while nothing is armed every stream passes on exactly the decoded text it receives, however streams mix |
| FrameForwarder.UnarmedIsTransparent | apps/server/e2e/server.ts:1182-1217 | with no fault armed the text passed on is identical to the decoded text received |
| FrameForwarder.EachFaultHitsOneFrame | apps/server/e2e/server.ts:1192-1210 | an armed drop removes the first frame with its id, an armed duplicate doubles the first one not dropped, every other frame goes through once and in order |
| FrameForwarder.FaultsBalance | apps/server/e2e/server.ts:1193-1210 | frames written are frames received less drops plus duplicates, and each fault fires at most once |
| FrameForwarder.FrameIdExact | apps/server/e2e/server.ts:1191 | a frame's id is the number on its first whole line `id: <digits>`, and it has none exactly if it has no such line |
| FrameForwarder.LastForwardedExact | apps/server/e2e/server.ts:1201-1203 | the last forwarded id is that of the last frame written that has one, and stays while none has |
| FrameForwarder.FaultsAreShared | apps/server/e2e/server.ts:1182-1211 | between arming events the faults fire over all streams' frames as over one sequence in the order they are completed |
| FrameForwarder.ArmingExact | apps/server/e2e/server.ts:983-1001 | arming replaces the drop and adds duplicates, a reset disarms and zeroes the counters; neither touches what streams hold or have written |
| FrameForwarder.Downstream.OnData | apps/server/e2e/server.ts:1182-1211 | the loop over the buffer does what cutting the buffered text at once does |
| FrameForwarder.Downstream.Write | apps/server/e2e/server.ts:1192-1210 | one frame is dropped, written or written twice, with the counters |
| FrameForwarder.Downstream.OnEnd | apps/server/e2e/server.ts:1212-1218 | at the end the unfinished frame is passed on |
| FrameForwarder.GaugeIsExact | apps/server/e2e/server.ts:1168-1178 | the gauge is the number of open streams of the current generation, for every order of connections, clean-ups and resets |
| FrameForwarder.OpenExact | apps/server/e2e/server.ts:1158-1178 | a response is open exactly if it has connected and not been cleaned up since, in the generation of the resets before |
| FrameForwarder.CountedIffOpen | apps/server/e2e/server.ts:1158-1178 | the gauge counts the responses that have connected and were neither cleaned up nor reset since |
| FrameForwarder.SseGauge.OnConnect | apps/server/e2e/server.ts:1158-1168 | a connection counts and remembers its generation |
| FrameForwarder.SseGauge.OnCleanup | apps/server/e2e/server.ts:1169-1178 | a clean-up happens once and lowers only the gauge of its own generation |
| FrameForwarder.SseGauge.ResetProxyState | apps/server/e2e/server.ts:983-1001 | a reset starts a new generation at zero |
| Lifecycle.GivenBackAtMostOnce | apps/server/src/bootstrap.ts:1007-1072 | on every startup and shutdown path the owned hook is called at most once and each store closed at most once |
| Lifecycle.DoneLeavesNothingOpen | apps/server/src/bootstrap.ts:3838-3893 | when teardown is over the hook is consumed and no store is open; after a shutdown the listener is down |
| LifecycleResources.GivenBackIffAcquired | apps/server/src/bootstrap.ts:3815-3882 | when teardown is over, on whatever path, the hook was called exactly if one was adopted and each store closed exactly if it was opened |
| LifecycleResources.FailureInOrder | apps/server/src/bootstrap.ts:3611-3657 | a failed startup gives back drain, hook, listener, AGORA, database, in that order |
| LifecycleResources.TeardownNeverStuck | apps/server/src/bootstrap.ts:3676-3893 | in every state of a teardown its next step can be taken, or it waits for a handler that can end |
| LifecycleResources.ServingServes | apps/server/src/bootstrap.ts:3659-3676 | a server that serves, or is shutting down and not done, has its engine, database and listener up |
| LifecycleResources.RefusesWhileWaiting | apps/server/src/app.ts:1626-1652 | while teardown waits for the sends none is admitted any more, and later neither is an adoption |
| Lifecycle.TeardownInOrder | apps/server/src/bootstrap.ts:3676-3893 | a shutdown goes drain, hook, AGORA, database, listener, each after an engine drain that succeeded |
| Lifecycle.ClosedUndrainedIffSkipped | apps/server/src/bootstrap.ts:3522-3657 | on every path, once a store is closed the engine has been drained exactly if no startup failed and no drain failed after a failed listen |
| Lifecycle.FailedListenClosesUndrained | apps/server/src/bootstrap.ts:3611-3657 | from every startup about to listen, a failed listen and a failed drain can close the database undrained |
| Lifecycle.BothFailuresHappen | apps/server/src/bootstrap.ts:3611-3657 | two runs from the start of startup, one that closes the database undrained and one that closes it under a handler |
| Lifecycle.FailedDrainClosesNothing | apps/server/src/bootstrap.ts:3773-3782 | a failed drain gives nothing back, leaves the server draining, and can be retried |
| Lifecycle.NothingClosesUnderAHandler | apps/server/src/bootstrap.ts:3857-3881 | unless startup failed with the listener up, no admitted send or adoption is in flight once a store is closed |
| Lifecycle.LateFailureClosesUnderAHandler | apps/server/src/bootstrap.ts:4011-4125 | every startup about to listen can fail so that a handler sees its stores closed |
| Lifecycle.EveryHandlerIsTracked | apps/server/src/app.ts:1611-1646 | a server that is not draining tracks every handler: the untracked branches never run |
| Lifecycle.SettledMeansNone | apps/server/src/app.ts:1626-1631 | the drain loop goes round at most once: when a snapshot is over no handler is left |
| Lifecycle.TeardownProgresses | apps/server/src/bootstrap.ts:3676-3893 | every wait of a teardown that ends brings it closer to its end, a failed drain aside |
| Lifecycle.ServerControls.BeginAgoraSend | apps/server/src/app.ts:1611-1625 | a send is refused while draining, otherwise admitted under a new handle |
| Lifecycle.ServerControls.EndAgoraSend | apps/server/src/app.ts:1622-1624 | ending a send removes it, once |
| Lifecycle.ServerControls.BeginTrialAdoption | apps/server/src/app.ts:1632-1646 | the same for adoptions |
| Lifecycle.Server.Shutdown | apps/server/src/bootstrap.ts:3669-3676 | the first call starts draining, a call while one is under way changes nothing |
| Lifecycle.Server.OnStopped | apps/server/src/bootstrap.ts:3773-3782 | after the engine drain: on to the connectors, or back with the memo reset |
| Lifecycle.Server.TakeOwnedActionShutdown | apps/server/src/bootstrap.ts:1068-1072 | the hook is handed out once |
| Lifecycle.Server.OnHookSettled | apps/server/src/bootstrap.ts:3857-3881 | sends are refused and awaited before anything closes; failure paths close at once |
| Lifecycle.Server.OnSendsSettled | apps/server/src/bootstrap.ts:3862-3869 | after the sends, adoptions are refused and awaited |
| Lifecycle.Server.OnAdoptionsSettled | apps/server/src/bootstrap.ts:3869-3881 | after the adoptions the stores are closed |
| Lifecycle.Server.OnListenerDown | apps/server/src/bootstrap.ts:3643-3657 | the listener closes last on shutdown, and before AGORA after a failed listen |
| Lifecycle.Server.CloseAgoraStore | apps/server/src/bootstrap.ts:1007-1016 | AGORA is closed at most once |
| Lifecycle.ServerHost.Perform | apps/server/src/bootstrap.ts:3669-3893 | after any sequence of enabled steps the object is where the run of those steps ends, with all its invariants |

## Left out

- The kernel repository, the run engine, SQLite and the schemas: repositories are values that
  evolve under the rules of `Kernel.Evolves`; table reads that the original guards may fail,
  the one it does not guard (apps/server/src/autodispatch_service.ts:278-282) is total.
- The planner, gateway calls and the deadline timer: a step that brings a proposal, a failure
  or a deadline.
- The other owners of the gate: steps that acquire and release it; their own queues are not
  modelled.
- Run-to-completion scheduling: `Autodispatch` also lets other steps come between a release and
  its wake and between a drain's first turn and `drainTask = task`, which only adds runs;
  `AutodispatchBlocks` does not, but leaves out what the wakes of other owners do inside the
  same release loop, and lets only the clock and the readable tables change inside a block.
- Files of a materialization: a job is its record and whether its copies exist; removal,
  sealing, sockets and digests are not modelled, and a removal is taken to succeed.
- `deriveEffectiveRelayCaps`: a minimum taken field by field.
- Waits that never end: results about stop and teardown speak of what holds when a wait ends,
  not of how long it takes.
- The services stopped and connectors shut down during teardown, and their time budgets: only
  the awaits they cause.
- UTF-8 decoding, JSON and form parsing, and number conversion of frame ids: function
  parameters.
- Cookie parsing and hashing of session tokens: a token stands for its hash, and tokens are
  issued once.
- HTTP routing, headers, status codes, logging, user interface, speech, vision, connectors,
  calendar, command lines and fixtures.
- The pages, held transports and page counters of the end-to-end proxy: simpler than the
  stream gauge.
