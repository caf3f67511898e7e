# Fabric Upgrade Manager: verification model

The Fabric Upgrade Manager runs staged upgrades of software on many targets. Operators create, start, pause, resume, abort and
roll back campaigns; an engine claims work, lets adapters execute it outside its lock, and commits the results under a fence;
every change is a record in a hash-chained journal from which a restarted engine rebuilds its state. This project models that
system in Dafny and proves what it promises over every run.

How the model is built:

- **Kernels.** `Bytes`, `Hex`, `Crc32c`, `Sha256`, `Json`, `JsonParser` are the byte-level routines. `JsonRoundTrip` and
  `JsonNormalForm` say that reading undoes writing; `JsonGrammar`, `JsonAcceptance` and `JsonUnicode` that the reader accepts exactly
  the JSON texts, and what it makes of escapes. `Sha256Facts`, `Sha256Example` and `Crc32cExample` tie the hash and the checksum to their
  standards: functions by bits, constants by the roots they come from, and the published examples. `Journal`, `JournalFile`,
  `JournalProofs` are the journal file as bytes: the frames that are appended, the conservative reader, and what the reader recovers
  from any cut of any file; `JournalFormat` gives the format byte by byte. `Ledger` is the chained provenance ledger, and
  `LedgerProofs` says that its head determines it.
- **Store.** `Store` gives journal entries, the live effect of a write and the effect of reading it back; `Mirror` relates the two;
  `DurableStore` is the class over a journal of records.
- **Protocol.** `Lifecycle`, `TextOrder`, `Skew`, `Verification`, `Records` are the rules and records. Each critical section of the engine mutex
  is specified in `Protocol`, `Commands` and `Restart` as the sequence of journal entries it writes; `Engine` is the class whose
  methods, with the loops and branches of the program, write exactly these. `Execution` is the part of a work item that runs outside
  the lock, `Preflight` the assessment before a start, `Staging`, `Planner` and `PlannedTargets` the construction of plans.
- **Proofs.** `Invariants` states an invariant and which single write may follow it; `Sections`, `PlanSections` and
  `CommandSections` show that every write of every section is such a write, so the invariant holds at every crash point.
  `CommandEffects` and `CommitEffects` say what each command and each commit makes of the records, without the writes. `Effects`,
  `Work`, `Exclusive`, `ActivationLimits` add the outstanding work. `Runs` puts sections, crashes after any write, shutdowns, openings and compactions
  together into runs; `Guarantees`, `PlannedRuns`, `LedgerRuns` state what holds over all of them. `Onward`, `Driver`,
  `IdleDriver`, `StuckDriver` and `StuckRuns` say exactly when the inline driver goes idle, what that means, and how it fails to;
  `FirstRuns` and `CompletingRuns` that campaigns can be completed, and `RollbackRuns` what a rollback can leave.

What a reader should know about the program, as modelled:

- The outside of a section (clock, inventory, integrity, maintenance tickets, adapter reports) is arbitrary at every event, and records
  are listed in an arbitrary order where the program iterates over a map whose order does not matter.
- Writes to the store succeed; a crash may cut a section after any of its writes, and a restart may find any prefix of the journal.
- An attempt is identified by campaign, stage position and target, for which the program never creates a second attempt.
- Where the reader bounds a JSON string, only plain characters are compared with the bound (src/core/json.cpp:256-322); a string that
  ends in escapes may be longer.
- A record whose payload exceeds the bounds of the JSON reader can be written and is then taken for damage when the file is opened
  again (src/store/journal.cpp:421-482 checks the size only); the condition in `JournalProofs.FrameBack` is exact.
- Compaction starts a new chain and a new sequence, whatever the comment at src/store/state.cpp:478 says. It also forgets the
  decisions and the rolling-back attempts in memory.
- There is no move from rolling back to blocked in the rule table, although reconciliation asks for it: `Restart.OpenSucceeds` gives the
  exact condition, and `Restart.RollingBackStaysShut` the consequence.
- A start of a campaign whose attempts are unfinished raises the generation and not that of the attempts. An attempt in preparation is
  then handed out and fenced again and again (`StuckDriver.EveryPassBusy`, `StuckDriver.AgainAndFenced`);
  `StuckDriver.DriverGoesIdleIff` gives the exact condition, `StuckRuns.StartSticks` the starts that lead there,
  `StuckRuns.StuckIsReachable` a run that does. Artifacts are taken to report a version, as src/model/artifact.cpp:329-345 demands.
- A rollback does not wait for verifications under way: their attempts count as neither activated nor verified
  (src/engine/engine_exec.cpp:259-271, src/engine/engine_ops.cpp:369-380), their commits are fenced from then on, and the campaign can
  count as rolled back with such a target left on the new version. `RollbackRuns.RolledBackIff` is the exact condition and
  `RollbackRuns.RollbackForgets` a run that gets there.
- The rule table lets a paused campaign be staged with its staging alone (`Lifecycle.StagedWithoutPreflight`); no section of the engine
  asks for that move.
- A preflight refreshes the inventory (src/engine/engine.cpp:376-422) and passes over planned targets that are no longer in it, so a pass
  does not promise that the mix stays within budget; `Preflight.PassCoversRunIff` is the exact condition.
- An activation whose acknowledgement is lost on the last permitted call is reported as failed without another look at the target;
  `Execution.ReportIsRightIff` is the exact condition, in what the caller sees.
- A verification never sees health evidence of its own: it is gathered for activations only (src/engine/engine_run.cpp:164-219), so the
  health checks at src/engine/verification.cpp:52-64 do not take part.
- The decision list bound is positive, as src/store/state.cpp:22-33 demands. The store's configuration also names the digest that
  chains the ledger, so that what holds for every digest is proved once; `LedgerRuns` takes the one of the program.
- Strings are byte strings throughout.

## Model

| member | source | states |
|---|---|---|
| Guarantees.CompletedMeansVerified | src/engine/engine_run.cpp:531-591 | At every point of every run (any interleaving of passes, commits, operator commands, crashes at any write, restarts, compactions), live or replayed from any journal prefix: a completed campaign has every stage complete, and its attempts are exactly one per planned target, each verified, with activation observed and the observed version equal to the artifact's |
| PlannedRuns.CompletedUpgradesTheSelected | src/engine/planner.cpp:139-263 | Planner and protocol together: a completed campaign over a plan of the planner made exactly one attempt at each selected target, verified, and attempted nothing else |
| CompletingRuns.EveryPlanCompletes | src/engine/engine_run.cpp:697-750 | For every executable plan there is a run from an empty journal to the completed campaign with nothing outstanding, as long as the policy permits work, the adapters know and support every target and do what they are asked to, the mix is tolerated, no stage is empty and whoever must leave service has left it |
| CompletingRuns.RunOn | src/engine/engine_exec.cpp:458-734 | From any store on the way, in any stage and phase, passes and commits follow one another until the campaign is completed |
| PlannedRuns.BuiltPlanCompletes | src/engine/planner.cpp:106-286 | Planner and protocol together: every executable plan of the planner, whatever the strategy, can be completed under the same conditions on the surroundings of its selected targets |
| RollbackRuns.RolledBackIff | src/engine/engine_run.cpp:616-636 | For the rollback commit that makes a campaign count as rolled back: no attempt of it has its target left on the new version if and only if no verification of the campaign is under way |
| RollbackRuns.RollbackForgets | src/engine/engine_exec.cpp:259-271 | For every reversible executable plan whose first stage has two targets there is a run from an empty journal, over adapters that do what they are asked to, to a campaign that is rolled back with a target left on the new version: its verification was under way when the rollback was executed |
| Guarantees.OutcomesAreRecordedOnce | src/engine/engine_run.cpp:384-653 | At every point of every run the ledger holds at most one record per campaign, stage, target and outcome (applied, verified, rolled back), and the attempt bears it out |
| Guarantees.NoDoubleOperation | src/engine/engine_exec.cpp:674-731 | In every reachable engine at most one outstanding activation, verification or rollback exists per attempt, counted with multiplicity |
| Guarantees.ExecutionIsGated | src/engine/engine_ops.cpp:26-148 | An attempt exists only for a campaign whose plan is executable, whose rollback plan is recorded and whose irreversible steps are absent or acknowledged, and only for a planned stage and target |
| Guarantees.RollbackIsGated | src/engine/engine_ops.cpp:369-441 | A campaign on the rollback side always has a reversible artifact |
| Guarantees.ActivationIsBounded | src/engine/engine_exec.cpp:677-708 | In every reachable engine the activating attempts of a stage never exceed the stage's parallel limit nor the policy's concurrent-activation limit |
| Guarantees.PausedMeansIdle | src/engine/engine_ops.cpp:238-254 | A paused campaign of a running engine has no attempt in flight |
| Driver.FenceDecides | src/engine/engine_run.cpp:348-382 | Work handed out by a pass changes a campaign, an attempt or the ledger when it is committed if and only if it passes the fence, whatever the adapter reports |
| Guarantees.EffectiveCommitIsCurrent | src/engine/engine_exec.cpp:384-440 | A commit that changes a campaign, an attempt or the ledger was claimed under the generation that both campaign and attempt still carry, under the campaign's epoch, by the running incarnation, and its attempt waits for exactly this operation |
| Effects.FencedCommit | src/engine/engine_run.cpp:352-376 | A fenced commit changes nothing but the decision trail, to which it appends fence decisions only |
| Effects.CommitEffect | src/engine/engine_run.cpp:384-653 | An effective commit replaces exactly the attempt it was claimed for and leaves every other attempt and every other campaign alone |
| CommitEffects.PrepareMeans | src/engine/engine_run.cpp:384-438 | An effective prepare commit, from record to record: a failure fails the attempt and the campaign; a success leaves the attempt prepared, and the campaign staged with its stage prepared exactly if every target of the stage is |
| CommitEffects.ActivateMeans | src/engine/engine_run.cpp:440-529 | An effective activate commit: a refused gate puts the attempt back and blocks the campaign; a failure fails both; a success leaves the attempt activated and recorded, and the campaign blocked if the mix is over budget, verifying if the whole stage is activated and drained, activating otherwise |
| CommitEffects.VerifyMeans | src/engine/engine_run.cpp:531-613 | An effective verify commit: proven evidence leaves the attempt verified and recorded; a stage verified throughout becomes complete, the next one becomes active and staged if mix and drain permit, and after the last one a verifying campaign with fresh evidence is completed; otherwise the attempt is retried within the limit, and failed with the campaign beyond it |
| CommitEffects.RevertMeans | src/engine/engine_run.cpp:615-653 | An effective rollback commit: a failure fails attempt and campaign; a success leaves the attempt rolled back and recorded, and the campaign rolled back exactly if no attempt of it is left on the new version |
| Guarantees.StartFencesOutstanding | src/engine/engine_ops.cpp:113-125 | After an admitted start, no item claimed before can ever commit, however the run goes on and however often it restarts without losing a record, unless the generation counter is used up |
| Guarantees.StartFencesUnlessExhausted | src/engine/engine_ops.cpp:113-125 | The exact exception: an item that passes the fence before an admitted start of its campaign no longer passes it afterwards if and only if the 64-bit generation counter is below its maximum |
| Guarantees.RestartFencesEverything | src/engine/engine.cpp:134-200 | After a successful opening no item of any earlier incarnation passes the fence |
| Guarantees.NothingIsUndone | src/model/lifecycle.cpp:19-125 | Over any run that loses no record: plans, artifacts and epochs of campaigns are fixed, generations never go back, terminal states are final, the ledger is only extended, and the attempts of a completed campaign stay exactly as they were |
| Guarantees.MixStaysWithinIff | src/engine/engine_exec.cpp:166-203 | With a given inventory, the mix is within the skew budget in every state a campaign can be in, for any upgraded targets and any attempts, if and only if every planned target is known and tolerated with the version it has installed |
| Guarantees.MixWithinIff | src/engine/engine_exec.cpp:166-203 | In any one state: the mix is within the budget exactly when each planned target has an activated or verified attempt, or is known and tolerated as it is installed; a target whose verification is under way counts as still on the old version |
| Preflight.PassCoversRunIff | src/engine/preflight.cpp:101-195 | For a passed preflight and exactly the inventory it saw: the live mix stays within the budget in every later state if and only if each planned target is found in that inventory and is of the component, or tolerated on its own. A planned target missing from the refreshed inventory is skipped and does not keep the preflight from passing |
| Preflight.MissingTargetPasses | src/engine/preflight.cpp:101-118 | A concrete input for the exception: a plan for two targets one of which has left the inventory passes, and the mix exceeds the budget in every state in which the missing target is not upgraded |
| Preflight.PassCoversPlannedInventory | src/engine/preflight.cpp:101-195 | If the plan was built from the inventory the preflight saw, a pass covers every later state of the run |
| Guarantees.JournalFollowsStore | src/store/state.cpp:82-294 | In every reachable engine, replaying the journal agrees with the live store up to rolling-back attempts and dropped decisions |
| Guarantees.RecoveryIsReplay | src/store/state.cpp:82-114 | On any journal a run can leave, cut anywhere, the backward epoch scan of recovery corrects nothing: recovery is plain replay |
| Guarantees.IncarnationsAreFresh | src/store/state.cpp:65-79 | Every opening runs under an incarnation strictly above that of every earlier engine and compaction, whatever records restarts lost in between, as long as no restart lost the last boot record or snapshot |
| Guarantees.NextIncarnation | src/store/state.cpp:65-79 | The incarnation of an opening is above a given one if and only if the last boot or snapshot of the surviving journal is of at least that one |
| Guarantees.IncarnationsOnlyRise | src/store/state.cpp:65-79 | The incarnation in the journal never goes back over a run whose restarts keep the last boot record |
| Guarantees.CompactKeeps | src/store/state.cpp:436-492 | A compaction, stopped at any of the contents its file goes through, undoes nothing |
| Runs.EveryRunOk | src/engine/engine_run.cpp:348-653 | The inductive invariant behind the guarantees holds after any sequence of events: store invariant live and for every journal prefix, agreement of both, outstanding work matched to attempts, limits kept |
| Invariants.AllowedKeepsInv | src/engine/engine_exec.cpp:205-343 | Any single permitted journal write keeps the store invariant, whether it is applied live or read back, so every crash point is covered |
| Sections.CommitAllowed | src/engine/engine_run.cpp:384-653 | Whatever an adapter reports for outstanding work, every write of the commit is a permitted one |
| PlanSections.PlanAllowed | src/engine/engine_exec.cpp:458-734 | Every write of a planning pass is a permitted one, for any policy, order and work budget |
| CommandSections.StartAllowed | src/engine/engine_ops.cpp:26-213 | Every write of start is a permitted one |
| CommandSections.RollbackAllowed | src/engine/engine_ops.cpp:353-466 | Every write of rollback is a permitted one, planned or executed |
| CommandSections.PauseAllowed | src/engine/engine_ops.cpp:215-262 | Every write of pause, retirements included, is a permitted one |
| CommandSections.AbortAllowed | src/engine/engine_ops.cpp:311-351 | Every write of abort, retirements included, is a permitted one |
| CommandSections.ResumeAllowed | src/engine/engine_ops.cpp:264-309 | Every write of resume is a permitted one |
| CommandSections.PreflightAllowed | src/engine/engine.cpp:424-480 | Every write of the commit section of preflight is a permitted one, whatever the report says |
| CommandEffects.CreateMeans | src/engine/engine.cpp:319-374 | Create, from store to store: a new id gets a proposed campaign of generation one with every stage pending, an id in use changes nothing |
| CommandEffects.PreflightMeans | src/engine/engine.cpp:424-480 | The commit of a preflight: which states it is effective in, the state each verdict leaves, the ticket renewed by a pass, and all attempts and other campaigns as they were |
| CommandEffects.StartMeans | src/engine/engine_ops.cpp:26-213 | Start: effective exactly under the listed conditions on state, plan, integrity, acknowledgement and rollback readiness; then the campaign is prepared, or stays where it was if it was further, with the next generation and a renewed ticket; otherwise no record changes |
| CommandEffects.PauseMeans | src/engine/engine_ops.cpp:215-262 | Pause: effective exactly in validated, prepared, staged and blocked campaigns, which become paused with every attempt in flight abandoned and all else unchanged; otherwise the store stays as it is |
| CommandEffects.ResumeMeans | src/engine/engine_ops.cpp:264-309 | Resume: the condition for being released, the state the campaign is released to, and no other change; otherwise no record changes |
| CommandEffects.AbortMeans | src/engine/engine_ops.cpp:311-351 | Abort: the campaign is failed and its attempts in flight are aborted, exactly where the state permits it; otherwise no record changes |
| CommandEffects.RollbackMeans | src/engine/engine_ops.cpp:353-466 | Rollback: admitted exactly under the listed conditions; then the campaign is rollback planned if only a plan was asked for and rolling back if execution was, attempts and everything else about the campaign unchanged; refused, its record stays as it is |
| Exclusive.PlanCalm | src/engine/engine_exec.cpp:638-731 | Planning keeps the engine calm: at most one operation per claimed attempt, activation limits kept, paused campaigns idle, the new work included |
| Exclusive.CommitCalm | src/engine/engine_run.cpp:348-653 | A commit, effective or fenced, keeps the engine calm after its item is removed from the outstanding work |
| Mirror.EveryPrefixReplays | src/store/state.cpp:340-427 | From any journal and for any further writes: after each single write the replay of the journal equals the live maps, ledger, epoch and incarnation up to rolling-back attempts, and each live decision list is a suffix of the replayed one |
| DurableStores.ScanBootIsReplayed | src/store/state.cpp:65-79 | The backward scan for the last boot record finds exactly the incarnation the forward replay ends with |
| DurableStores.CompactionKeeps | src/store/state.cpp:436-492 | Recovery from a snapshot gives back campaigns, the ledger with its head and sequence, epoch, incarnation and every reloadable attempt; what is lost is exactly the decisions and the rolling-back attempts |
| DurableStores.DurableStore.Compact | src/store/state.cpp:436-492 | The journal becomes one snapshot, with the head and the sequence of the ledger, and the shutdown record; the maps in memory become what recovery rebuilds from it |
| DurableStores.DurableStore.Recover | src/store/state.cpp:82-114 | Maps, ledger, head and sequence become what replay of the records and the epoch scan yield |
| DurableStores.DurableStore.ApplyRecord | src/store/state.cpp:125-294 | Reading one record back changes the store as specified: a rolling-back attempt is rejected, a provenance record sets the head and the sequence, a snapshot replaces everything |
| DurableStores.DurableStore.AppendDecision | src/store/state.cpp:387-398 | Appends to journal and bounded list: the oldest decision makes room |
| DurableStores.DurableStore.SetEpoch | src/store/state.cpp:416-427 | An epoch is written exactly when it advances |
| Restart.OpenSucceeds | src/engine/engine.cpp:114-200 | Opening succeeds if and only if no stored campaign is rolling back |
| Restart.RollingBackStaysShut | src/engine/reconcile.cpp:68-79 | A store with a rolling-back campaign never opens, in whatever order records are listed, and the campaign is still rolling back after the attempt |
| Restart.OpenReconciles | src/engine/engine.cpp:134-200 | After a successful opening, record by record: the next incarnation and epoch; exactly the attempts that were in flight abandoned; activating and verifying campaigns blocked, stale tickets dropped, everything else unchanged |
| Restart.ReopenedIdle | src/engine/reconcile.cpp:68-92 | A corollary: after a successful opening no campaign executes, no stale ticket is left, and terminal campaigns changed in nothing but a stale ticket |
| Restart.ReconciliationIsIdempotent | src/engine/reconcile.cpp:39-94 | Reconciling again right after a successful opening writes nothing, in any order |
| Reconcile.PlannedReconciliation | src/engine/reconcile.cpp:39-94 | The planned list of actions, performed one after another until one fails, writes exactly what the record-by-record specification of reconciliation writes, with the same outcome |
| Driver.CommitShrinks | src/engine/engine_run.cpp:592-613 | Every commit that takes effect makes the measure of its campaign strictly smaller, verification retries included, whatever was reported |
| Driver.PassShrinks | src/engine/engine_run.cpp:697-750 | While no attempt is stuck, every inline pass that hands out work makes the total measure strictly smaller, no pass makes it larger, and none gets stuck; an attempt of an older generation counts for at most one claim |
| StuckDriver.DriverGoesIdleIff | src/engine/engine_run.cpp:697-750 | For passes that list every campaign in one order under one positive work budget, as the program's do: the driver goes idle within the linear bound, whatever the adapters and the surroundings do, if and only if no attempt is stuck: in preparation by the running incarnation, in the active stage of a staging campaign, under an older generation than the campaign's |
| Driver.DriverGoesIdle | src/engine/engine_run.cpp:697-750 | From any store without a stuck attempt, attempts of older generations included, at most as many busy passes occur in a row as the measure says |
| IdleDriver.IdleStaysIdle | src/engine/engine_exec.cpp:458-734 | An idle pass is a fixed point of planning: whatever moves it still made, a further pass over the same surroundings hands out nothing |
| IdleDriver.IdleMeans | src/engine/engine_exec.cpp:458-734 | What an idle pass means on the store it leaves, for every running campaign it lists: a gathering stage has an attempt for every known target unless the policy permits none; an activating or verifying one has nothing activated left to verify; what is left prepared waits for the least of the stage, policy and adapter limits; a rolling-back campaign has nothing left to roll back; and no move is left |
| ActivationLimits.PlanKeepsLimits | src/engine/engine_exec.cpp:677-708 | Right after each activation claim of any pass, the activating attempts of the stage are within the limits of the target's adapter, the stage and the policy |
| Driver.TotalIsLinear | src/engine/engine_run.cpp:697-750 | The bound is linear: one per campaign plus retries plus three per planned target of running campaigns |
| Driver.ReadyIffCurrent | src/engine/engine_exec.cpp:384-440 | Work just handed out passes the fence if and only if its attempt carries the campaign's generation |
| StuckDriver.EveryPassBusy | src/engine/engine_exec.cpp:458-734 | With a stuck attempt, in any plan and beside any other campaigns: every sequence of passes that list the campaign, know the target, have room and prepare what they are asked to is busy throughout and leaves the attempt stuck; a staged campaign must in addition not be held up by the version mix, and one whose stage already counts as prepared not be staged |
| StuckDriver.AgainAndFenced | src/engine/engine_exec.cpp:622-670 | If such a pass has room for the whole stage when it comes to the campaign, it hands out the stuck preparation again, and when that item is committed, after the commits before it, the attempt is still stuck and the fence refuses it |
| StuckDriver.StuckNeverIdle | src/engine/engine_exec.cpp:458-734 | For any order that lists the campaign, any positive budget and any answers by which preparations succeed, busy sequences of every length exist that repeat one and the same pass |
| StuckRuns.StartSticks | src/engine/engine_ops.cpp:113-125 | While the generation can rise, an admitted start makes stuck exactly the attempts the running incarnation prepares in the active stage of a campaign that is validated, paused, blocked, prepared, or staged with the stage pending |
| StuckRuns.StuckIsReachable | src/engine/engine_ops.cpp:26-213 | For every executable plan with a target that is known to the adapters, there is a run from an empty journal that ends with a stuck attempt |
| Onward.CommitNoReturn | src/engine/engine_run.cpp:384-653 | After an effective commit a campaign is staging only where it was staging before, or in a later stage |
| Engines.Engine.GuardsLocked | src/engine/engine_exec.cpp:205-309 | The guards accumulated by loops over stages, targets and attempts are the declarative ones |
| Engines.Engine.TransitionLocked | src/engine/engine_exec.cpp:311-343 | A permitted move writes the record and its decision, a move to the same state writes nothing, and a refused one writes a deny decision and leaves the record alone |
| Engines.Engine.AssessCurrentSkew | src/engine/engine_exec.cpp:166-203 | The live mix is within budget exactly when every planned target is tolerated and, if any is planned, something is known about one of them |
| Engines.Engine.CheckFenceLocked | src/engine/engine_exec.cpp:384-440 | The chain of checks accepts exactly the items that pass the fence |
| Engines.Engine.PlanWorkLocked | src/engine/engine_exec.cpp:458-734 | The nested planning loops write and hand out exactly what the specification of a pass says, for the campaign order and budget given |
| Engines.Engine.ClaimTarget | src/engine/engine_exec.cpp:620-731 | The per-target body: creation of a missing attempt, claims by state, activation limits, work items |
| Engines.Engine.CountActivating | src/engine/engine_exec.cpp:677-681 | The loop counts exactly the activating attempts of the stage |
| Engines.Engine.CommitItem | src/engine/engine_run.cpp:348-382 | The store after the commit is the specified one, fenced or effective, for each of the four operations |
| Engines.Engine.RunSteps | src/engine/engine_run.cpp:697-750 | The bounded inline driver makes busy passes one after another, each planned and executed as specified, and returns how many; it is idle exactly if it stopped before the passes were used up, at a pass that handed out and claimed nothing and would again hand out nothing on the final store; unless an attempt was stuck, the busy passes are no more than the measure of the store it started from |
| Engines.Engine.CreateCampaign | src/engine/engine.cpp:319-374 | A new id gets a proposed campaign and the decision on its plan; an existing id is refused and nothing is written |
| Engines.Engine.CommitPreflight | src/engine/engine.cpp:424-480 | The commit section of preflight: ticket, moves and decision, for either verdict |
| Engines.Engine.StartLocked | src/engine/engine_ops.cpp:26-213 | Start writes what the specification says and refuses exactly when it is not admitted |
| Engines.Engine.PauseLocked | src/engine/engine_ops.cpp:215-262 | Pause moves the campaign and retires every attempt of it that is in flight, or refuses |
| Engines.Engine.ResumeLocked | src/engine/engine_ops.cpp:264-309 | Resume releases the campaign again, or refuses |
| Engines.Engine.AbortLocked | src/engine/engine_ops.cpp:311-351 | Abort fails the campaign and retires its in-flight attempts, or refuses |
| Engines.Engine.RollbackLocked | src/engine/engine_ops.cpp:353-466 | Rollback runs through failed, planned and rolling back as far as asked and permitted; an already planned rollback is refused |
| Engines.Engine.PlanReconciliation | src/engine/reconcile.cpp:39-94 | The loops over attempts and campaigns list exactly the specified actions |
| Engines.Engine.ApplyReconciliation | src/engine/engine.cpp:134-200 | Performing the actions stops at the first failure, with the store the specification says |
| Engines.OpenEngine | src/engine/engine.cpp:92-132 | From the records of a journal: recovery, new incarnation and epoch, reconciliation; success exactly when reconciliation goes through |
| Execution.Retry | src/engine/engine_run.cpp:224-243 | The loop around an operation ends with the first answer, the first error not worth a retry, or the budget, after at most one call more than the budget; its result is the last reply |
| Execution.Activate | src/engine/engine_run.cpp:244-285 | The activation loop goes on only after a retryable loss that no observation resolved; a loss resolved by observation ends it as activated |
| Execution.EffectsBound | src/engine/engine_run.cpp:263-283 | Among any first calls of the loop, the effective ones are at most one more than the observations that failed between them, although acknowledgements may be lost |
| Execution.OneEffect | src/engine/engine_run.cpp:263-283 | A corollary: with the target in sight, no call is made on a live target and at most one call takes effect |
| Execution.ReportIsRightIff | src/engine/engine_run.cpp:252-279 | From the replies and observations alone: the report agrees with the target in every honest course of events that looks the same, if and only if the last reply is not a loss with a non-retryable error or a used-up budget |
| Execution.LostForGood | src/engine/engine_run.cpp:258-262 | For every budget a run exists, with honest answers and a visible target, that activates the target and reports a failure |
| Execution.HealthGate | src/engine/engine_run.cpp:164-216 | The gate refuses exactly on failed probes and on unhealthy or stale evidence; unknown health passes |
| Execution.ExecuteItem | src/engine/engine_run.cpp:92-346 | The adapter is never asked without being registered nor past a refusing gate, at most once more than the retry budget; the report follows from the last reply |
| Planner.BuildPlan | src/engine/planner.cpp:106-286 | A rejection is recorded if and only if its declared reason holds, for all thirteen codes; the plan is executable if and only if no reason holds, and then its stages partition the selected targets; irreversible exactly when some stage has an irreversible step |
| Planner.ExecutablePartitions | src/engine/planner.cpp:139-263 | Without rejections each selected target stands in exactly one place of exactly one stage, and nothing else does, under all four strategies and within the limits |
| PlannedTargets.SelectedExactly | src/engine/planner.cpp:137-157 | The selected targets with their multiplicities: all of the component, as often as the inventory holds them, or the first entry of each name asked for, as often as it is asked for; in the order of their names |
| TextOrder.LessIff | src/engine/planner.cpp:156-157 | The order of names: at the first byte that differs, or a proper prefix first |
| Planner.RollingStages | src/engine/planner.cpp:227-262 | The wave loop over the group map terminates with exactly the specified waves, and rejects exactly ungrouped targets and one-member groups |
| Staging.WavesSpreadGroups | src/engine/planner.cpp:227-262 | Rolling replacement: stage k holds the k-th member of every group that has one, no stage holds two members of a group, and there are as many stages as the largest group has members |
| Staging.WavesPartition | src/engine/planner.cpp:227-262 | The waves place each grouped target exactly once |
| Planner.CheckDuplicates | src/engine/planner.cpp:158-165 | On the sorted targets, comparing neighbours finds exactly the names that occur twice |
| Preflight.RunPreflight | src/engine/preflight.cpp:53-195 | It passes if and only if every gate holds, some planned target is known, every known one is admissible, and the component's mix is within the skew budget |
| Lifecycle.EvaluateTransition | src/model/lifecycle.cpp:278-320 | The scan of the 33-row table allows exactly the moves of a per-state specification, and a refusal names exactly the unmet guards of the first rule for the pair |
| Lifecycle.NoReturnToForward | src/model/lifecycle.cpp:19-125 | Under any guards the failure and rollback side never leads back to forward execution, and terminal states lead nowhere |
| Lifecycle.CompletionIsGuarded | src/model/lifecycle.cpp:19-125 | Completion is entered only from verifying, with fresh verification and all stages complete |
| Lifecycle.EntryGates | src/model/lifecycle.cpp:19-125 | State by state: from where it can be entered and which guards that takes, for all pairs of states |
| Lifecycle.PathIsPreflighted | src/model/lifecycle.cpp:19-125 | No path of permitted moves takes a proposed campaign forward without a current preflight and verified integrity on the way, unless it goes from paused straight to staged |
| Lifecycle.StagedWithoutPreflight | src/model/lifecycle.cpp:95-100 | The exception, as a path: blocked, paused, staged and activating without any preflight is permitted by the rules |
| Skew.AssessSkew | src/model/skew.cpp:122-215 | The sorted pass is within budget exactly when each target is tolerated on its own, and every violation it names is one |
| Skew.AssessTarget | src/model/skew.cpp:122-215 | The chain of checks for one target decides exactly whether it reports a version that is the newest, waived, or older within the limit of the most significant difference |
| Skew.ToleratedIff | src/model/skew.cpp:122-215 | The budget in plain terms, by the numbers of the two versions: a reported version that is neither the newest nor waived is within budget if and only if it is not above it and the first number that differs trails by no more than its limit |
| Skew.ToleratedOtherwise | src/model/skew.cpp:133-155 | The other cases: no reported version is never within budget; the newest version and one waived in either order always are |
| Skew.NewerIsOrder | src/model/version.cpp:97-105 | The release order is irreflexive, asymmetric, transitive and total up to equality |
| Skew.NewerByNumbers | src/model/version.cpp:97-105 | It goes by major, minor and patch; a release outranks its prereleases, which go by their text |
| Skew.PairAllowed | src/model/skew.cpp:35-42 | A pair is waived exactly if it is listed, in either order |
| Skew.UpgradingKeepsBudget | src/model/skew.cpp:122-215 | Moving any targets to the newest version, and looking at any part of the mix, stays within budget |
| Verification.AssessVerification | src/engine/verification.cpp:18-74 | No finding is reported exactly when adapter, version, build, freshness and, where required, health all agree |
| LedgerRuns.LedgerVerifies | src/store/state.cpp:366-385 | At every point of every run, live or replayed from any prefix of the journal, through crashes and compactions: verify_ledger accepts the ledger the store holds, and the stored head and sequence are those of its last record |
| Ledger.VerifyLedger | src/model/provenance.cpp:119-149 | Accepts exactly the ledgers in which every record is in sequence, linked and digested correctly; otherwise reports the least bad index and its reason |
| Ledger.PrefixAccepted | src/model/provenance.cpp:119-149 | Every prefix of an accepted ledger is accepted |
| Ledger.ChainedIsAccepted | src/store/state.cpp:366-385 | A ledger made by appending is accepted |
| Ledger.VerifiesOn | src/store/state.cpp:366-385 | A sealed record appended to a verifying ledger keeps it verifying, with the record's digest and sequence as the new head and sequence |
| DurableStores.DurableStore.AppendProvenance | src/store/state.cpp:366-385 | The record gets the next sequence, the previous head and its digest, is written to journal and ledger, and becomes the head |
| DurableStores.DurableStore.TryAppendProvenance | src/store/state.cpp:366-385 | With the bound on the ledger and the 64-bit counter: refuses exactly at the bound or with a used-up counter, changing nothing |
| LedgerProofs.SameHeadSameLedger | src/model/provenance.cpp:112-149 | Two accepted ledgers with the same head are equal in every field of every record, or two of their records exhibit a collision of the digest |
| LedgerProofs.BodyIsInjective | src/model/provenance.cpp:29-51 | The digested JSON text of a record determines each of its fields |
| LedgerRuns.LedgerOnlyGrows | src/store/state.cpp:366-385 | Over every run that loses no record the ledger in the journal is an extension of every earlier one |
| JournalFiles.JournalFile.Open | src/store/journal.cpp:134-419 | Opening bytes gives the records, the end and the damage flag of the reader's specification, and what the backward scans find; a new file gets a header; bounds that make no sense and files beyond the size bound are refused |
| JournalFiles.JournalFile.LookBack | src/store/journal.cpp:363-382 | The backward scan, which replaces what it found by what it finds next, ends with the first epoch and the first incarnation written since the last boot or snapshot |
| JournalFiles.JournalFile.LookForShutdown | src/store/journal.cpp:384-392 | The shutdown was clean exactly if some shutdown record has no boot after it |
| JournalFiles.ShutdownStep | src/store/journal.cpp:384-392 | One more record: a shutdown makes the end clean, a boot makes it unclean, any other leaves it as it was |
| JournalFiles.JournalFile.FrameAt | src/store/journal.cpp:168-350 | One round of the loop accepts a frame exactly when magic, length, checksum, JSON, fields, link, digest and sequence hold |
| JournalFiles.JournalFile.Replay | src/store/journal.cpp:168-350 | The replay loop computes the specified scan, and its end, chain and sequence |
| JournalFiles.JournalFile.WriteRecord | src/store/journal.cpp:421-482 | Appends one frame and one record, or changes nothing; which of the two is decided by the bounds on records, sequence, record size and file size |
| JournalFiles.JournalFile.Close | src/store/journal.cpp:492-513 | A shutdown record is appended, which makes the shutdown clean, unless the tail is damaged or a bound is reached |
| JournalProofs.FrameBack | src/store/journal.cpp:421-482 | A written frame, anywhere in any file, reads back as its record with normalised data if and only if its payload is within the JSON reader's bounds; otherwise it is taken for damage |
| JournalProofs.AppendReads | src/store/journal.cpp:421-482 | Appending to any cleanly readable file adds exactly that record; if the payload cannot be read back, everything before it is kept and damage is flagged |
| JournalProofs.WrittenFileReads | src/store/journal.cpp:168-350 | A file written record by record reads back in full and without damage |
| JournalProofs.WrittenFileCut | src/store/journal.cpp:168-350 | Cut at any point after the header, a written file yields exactly the records whose frames fit, and damage exactly when the cut is not a frame boundary |
| JournalProofs.CutFile | src/store/journal.cpp:168-350 | The same for any file the reader accepts, whoever wrote it |
| JournalProofs.RepairIsClean | src/store/state.cpp:35-64 | Dropping exactly the ignored bytes leaves a file that reads cleanly with the same records |
| JournalProofs.AnyFileLinks | src/store/journal.cpp:168-350 | For arbitrary bytes the accepted records are linked by their digests with strictly increasing sequence numbers, and all fields of each are what a payload with its digest says |
| JournalFormat.FrameAcceptedIff | src/store/journal.cpp:168-350 | The reader accepts a frame with a record if and only if, byte by byte: the letters FUMR, the little-endian length of the payload within bounds, its CRC-32C, the SHA-256 digest of the previous digest, a bar and the payload, and a JSON payload whose first members of each name say what the record holds, in sequence and linked |
| JournalFormat.WrittenStands | src/store/journal.cpp:421-482 | What the writer appends is such a frame, wherever in the file it is put |
| JournalFormat.HeaderIff | src/store/journal.cpp:134-167 | A header is accepted exactly if it is long enough, spells FUMJRNL1 and has format version 1 |
| JournalFormat.HeaderStands | src/store/journal.cpp:409-416 | A new file starts with the eight letters, version 1, an empty word and the creation time |
| JournalProofs.KindBack | src/store/journal.cpp:51-75 | Every record type parses back from the name it is written with, the snapshot written as unknown included |
| JsonRoundTrip.RoundTrip | src/core/json.cpp:55-408 | parse(dump(v)), compact or pretty, is v with small unsigned integers read as signed and equal keys merged, if and only if v is within the depth, node, string and size bounds; for every value without reals |
| JsonNormalForm.RoundTripExact | src/core/json.cpp:610-672 | A value with unique keys and normalised integers comes back exactly |
| JsonNormalForm.DumpIsInjective | src/core/json.cpp:610-672 | Values with the same text have the same normal form, without any bound |
| JsonRoundTrip.StringBack | src/core/json.cpp:256-322 | A quoted string of any bytes reads back, unless a plain character stands beyond the size bound |
| JsonRoundTrip.IntegerBack | src/core/json.cpp:324-408 | A written 64-bit integer reads back, signed where it fits and unsigned beyond |
| JsonAcceptance.AcceptsExactlyJson | src/core/json.cpp:55-408 | The reader accepts a text with a value if and only if the text is one JSON value, by a grammar stated without reference to the reader (section 2 to 7 of RFC 8259), within the bounds on depth, nodes, strings and size; malformed text is refused, never accepted in part, and no text has two values |
| JsonGrammar.OnlyJsonIsAccepted | src/core/json.cpp:55-408 | Whatever is read is derived by the grammar, all of the text |
| JsonAcceptance.JsonIsAccepted | src/core/json.cpp:55-408 | Whatever the grammar derives within the bounds is read, with its value |
| JsonUnicode.Utf8Back | src/core/json.cpp:238-254 | Every code point is encoded in the fewest bytes of UTF-8 and decodes, by lead byte and continuation bits, to itself |
| JsonUnicode.EscapeReads | src/core/json.cpp:284-310 | An escape, or a pair of them for the UTF-16 halves of a code point beyond 16 bits, reads as the UTF-8 of that code point |
| JsonUnicode.LoneSurrogate | src/core/json.cpp:292-307 | A surrogate that is not the first half of a pair is refused |
| JsonUnicode.Alphabet | src/core/json.cpp:79-88 | Which bytes are spaces and hexadecimal digits |
| JsonParser.Parser.Run | src/core/json.cpp:59-73 | The parser with its position and node counter computes the specified result for every text |
| JsonParser.Parser.ParseAny | src/core/json.cpp:97-140 | Value, position and node count after the recursive descent are the specified ones, or it fails exactly when the specification does |
| JsonParser.Parser.ParseString | src/core/json.cpp:256-322 | String reading with escapes, surrogate pairs and the size bound as specified |
| JsonParser.Parser.ParseNumber | src/core/json.cpp:324-408 | Number tokens are read as signed, unsigned or real as specified, or refused |
| JsonParser.AppendEscaped | src/core/json.cpp:11-35 | The escaping loop appends the quoted form |
| JsonParser.DumpInto | src/core/json.cpp:610-672 | The writer appends the text of the value for any indentation |
| Sha256.Sha256Stream.Update | src/core/hash.cpp:72-98 | Any chunk extends the message that the state and buffer stand for, whatever was buffered |
| Sha256.Sha256Stream.Finish | src/core/hash.cpp:100-124 | The digest is that of the message padded as in section 5.1.1 of FIPS 180-4; the zero-fill loop terminates |
| Sha256.DigestOfChunks | src/core/hash.cpp:72-124 | Any chunking of a message gives the digest of the concatenation |
| Sha256.Sha256Stream.CompressBlock | src/core/hash.cpp:26-65 | The schedule and round loops compute the block function of section 6.2 of FIPS 180-4 |
| Sha256Facts.BigSigmaBits | src/core/hash.cpp:47-56 | Each bit of the large sigma functions is the parity of the three bits of the word that section 4.1.2 of FIPS 180-4 names |
| Sha256Facts.SmallSigmaBits | src/core/hash.cpp:35-40 | Likewise the small ones, in which one of the three is shifted out |
| Sha256Facts.ChoiceBits | src/core/hash.cpp:48-53 | Each bit of the choice is taken from the second word where the first has a one, and from the third elsewhere |
| Sha256Facts.MajorityBits | src/core/hash.cpp:50-53 | Each bit of the majority is what at least two of the three words have |
| Sha256Facts.RoundConstantsAreRoots | src/core/hash.cpp:8-19 | The 64 round constants are the first 32 bits of the fractional parts of the cube roots of the first 64 primes |
| Sha256Facts.PrimesInOrder | src/core/hash.cpp:8-19 | The 64 listed numbers are primes, in increasing order from 2 |
| Sha256Facts.NoneIsMissing | src/core/hash.cpp:8-19 | Every prime up to the last of the 64 listed ones is among them |
| Sha256Facts.InitialAreRoots | src/core/hash.cpp:67-70 | The eight initial words are those of the square roots of the first eight primes |
| Sha256Facts.PadStands | src/core/hash.cpp:100-124 | The padded message is the message, a one bit, the fewest zeros that leave room for the length, and the length |
| Sha256Example.DigestOfAbc | src/core/hash.cpp:26-65 | The digest of abc is the one FIPS 180-4 gives, through every word of the schedule and every round |
| Sha256.PadIsInjective | src/core/hash.cpp:100-124 | Below 2^61 bytes different messages have different padded forms |
| Hex.DigestBack | src/core/hash.cpp:139-171 | A digest parses back from its hexadecimal text |
| Hex.ReadHex | src/core/hash.cpp:150-171 | Exactly 64 digits of either case are accepted, with their bytes |
| Hex.WriteHex | src/core/hash.cpp:139-148 | The loop writes two lower-case digits per byte |
| Crc32c.Checksum | src/core/crc.cpp:26-33 | One table look-up per byte computes the remainder of bit-by-bit reflected polynomial division, for every seed and data (section 12.1 of RFC 3720) |
| Crc32c.BuildTable | src/core/crc.cpp:10-20 | Each entry is eight division steps of its index |
| Crc32c.TableStep | src/core/crc.cpp:26-33 | Eight division steps are one look-up of the low byte and a shift of the rest |
| Crc32c.CrcAppend | src/core/crc.cpp:26-33 | crc(crc(s, a), b) = crc(s, a + b) |
| Crc32cExample.CheckValue | src/core/crc.cpp:10-33 | The checksum of the digits one to nine is E3069283 |
| Bytes.ReadPut | src/store/journal.cpp:20-38 | A little-endian 32-bit integer reads back wherever it stands |

## Left out

- File system calls, sockets, the framed transport, the process supervisor and the local-process adapter: a file is a byte sequence and
  an append is atomic; what a failed append leaves in the file is not modelled (src/store/journal.cpp:463-466).
- Command line, examples, benchmarks, logging, `status`, `explain` and the JSON renderings for display.
- Worker threads, latches, condition variables and shutdown joining: a run interleaves whole critical sections; liveness is shown for
  the inline driver only.
- `create_campaign` checks and writes in two critical sections; it is modelled as one, so one creator per id is assumed.
- Progress of drained multi-stage campaigns and of rollbacks over abandoned attempts: the program can stop there; safety is shown.
- Validation of requests, artifacts, budgets and descriptors before planning, and the field-by-field JSON forms of campaigns,
  attempts, artifacts and policies: long and easy. The one gap among them that matters, attempts that cannot be read back while rolling
  back (src/model/campaign.cpp:752), is in `Store.Reloadable`.
- Free texts outside the ledger, timestamps of records, revisions, stored tickets and policies of their own, and the operation index
  are not part of the records; decisions are kept as kind and verdict. Timestamps of journal records are texts with a parameter for which of them parse.
- Counters other than the generation and the sequences are unbounded; `Engines.Engine.StartLocked` saturates the generation.
- JSON reals are tokens with parameters for finiteness and whole values: floating point; equality across number kinds is not modelled.
- The numeric value of the skew distance (src/model/skew.cpp:8-16) wraps around; only the verdict is modelled.
- Collision resistance of SHA-256 is not assumed: `LedgerProofs.SameHeadSameLedger` exhibits the collision instead.
- The order of rejections and blockers in a report and their texts; the fingerprint of a preflight report.
- Releasing maintenance tickets (src/engine/engine_run.cpp:658-691) and the registration of an acquired one: which tickets are held is
  part of the arbitrary outside.
- The compaction of an open store while an engine runs: the engine never asks for it; compaction is an event on a closed store.
- Bounds on the number of campaigns and attempts (src/store/state.cpp:311-338) are left out with failing writes. The bound on the ledger
  and its used-up counter are modelled in `DurableStores.DurableStore.TryAppendProvenance`, those of the journal in
  `JournalFiles.JournalFile`; runs take their writes to be within bounds.
- A payload of the run model's journal is an entry and not bytes: the JSON form of each entry lies between `DurableStores` and
  `JournalFiles`.
