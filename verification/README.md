# Dev Autopilot: verified model

Dev Autopilot runs milestones of a software project unattended: it drives agents through a
fixed workflow, keeps a journal, findings and budgets in SQLite, and moves large files and
worker jobs through an object store such as Google Drive. This project models the parts of
it whose correctness spans many steps, processes and crashes, and proves what they promise.
`dafny verify dfyconfig.toml` checks everything.

**Worker queue** (`QueueProtocol`, `QueueTheorems`, `QueueTrace`, `QueueEffects`, `DriveQueue`,
`WorkerRunner`).
Every stored object names one job, so the queue is a product of jobs. An operation is the list
of single puts and deletes it performs on a job; a crash or a raised storage error cuts the list
anywhere. Histories are sequences of such cut operations, and the theorems hold after every
history. `DriveQueue` is the class itself, with loops over listed keys and a fault before or
after any put or delete; its invariant says that the stored objects are the ones the recorded
histories lead to, so each theorem holds of the class after every call. `WorkerRunner` is
`run_one` on that class while other workers, watchdogs and its own heartbeat thread call it.
Results worth knowing:

- An inconsistent listing may show an old queued object of a job again. That harms exactly when the
  job has no terminal record and the object's attempt is no newer than the last one handed out: then
  an attempt can be handed out again (`ReappearanceHarmsIff`). The theorems admit all other
  reappearances. Fencing and the permanence of terminal records survive the harmful ones too.
- The branches of `claim` for a lost lease or a failed read-back are never taken while operations
  are serial, and its branch for exhausted attempts never with consistent listings.
- Job ids ending in `.lease` or `.heartbeat` can collide with another job's files, and running
  jobs whose ids end in `.lease`, `.heartbeat` or `.checkpoint` are never recovered. The exact
  conditions are proved; the queue model takes ids for which neither happens.

**Split and reassembly** (`ChunkManifests`, `Splitting`, `SplitStore`, `StorageKeys`). The
splitter's and the reassembler's loops over short reads, on a backend whose calls may fail,
report damaged uploads, or lose the manifest's confirmation. `verify_parts` is stricter than
`reassemble`, and by how much is proved.

**Budget** (`Budgets`, `BudgetStore`, `Providers`, `CallIds`). The two SQL tables as values, the
store's transactions as methods, and the provider wrapper with other processes' transactions between
any two of its own. A call id joins texts with NULs; which requests share one is stated exactly.

**Workflow** (`Workflow`, `TransitionEngine`). The transition table, one run's row and journal,
and an engine whose read and compare-and-set other engines interleave with. `resume` reads the
record twice; a resume that was overtaken can skip gates. `OvertakenResumeSkipsGates` gives such
a run. `LeavingMaySkipIff` says exactly when leaving a pause for a phase makes it possible: when that
phase is a gate that was neither entered in order since the last edit nor is the next to enter.
`SoundIff` says exactly which journals never could have skipped one.

**Findings and orchestrator** (`Findings`, `FindingLedger`, `Orchestrator`). The phase handlers
with arbitrary agents, commands and working trees. With bundle generation or acceptance enforced,
which is the default, the code is stricter than its documentation says: findings made stale by a
changed diff are never resolved again, and a failing audit report is cached for its diff. So a run
cannot become ready for human review once the audit has rejected a diff, once a finding has been
invalidated, or with a diff other than the one a finding was raised on (`RejectedNeverReady`,
`ReadyOnlyOnTheSameDiff`). A diff that changes and is back before the next invalidation does no harm.

**Run lease** (`IsoTime`, `RunLock`). Expiry is compared as text; text order is shown to be time
order, with and without the optional microseconds.

**Milestones** (`MilestoneGraph`, `MilestoneOrder`, `ProjectRunner`). The depth-first cycle check,
the batch order, and the runner.

**Drive put** (`DriveFiles`, `DriveBackend`) and **`git cat-file --batch` frames** (`BlobFrames`).

Conventions: SHA-256 is taken as injective, so a digest is the content seen through equality.
Fencing tokens are fresh, the clock does not run backwards, and workers pass the queue only claims
it returned. A raised exception is an `Err` result. Assignments from `*` stand for what the
environment decides; storage that is `reliable`, or without faults to come, does not raise.

## Model

| member | source | states |
|---|---|---|
| QueueProtocol.StepKeepsInv | src/dev_autopilot/worker/queue.py:188-308 | after any prefix of any operation's puts and deletes: the job is present, carries its own job record, sits only in its own queue, no stored attempt is behind the last one handed out, and queued ones are newer unless the job has ended |
| QueueProtocol.HarmlessKeepsInv | src/dev_autopilot/worker/queue.py:235-256 | an old record of the job that reappears keeps the invariant if it is newer than every claim handed out or the job has ended |
| QueueProtocol.InvHolds | src/dev_autopilot/worker/queue.py:198-481 | that invariant holds at the end of every crash-cut history, harmless reappearances of old records included |
| QueueTheorems.ClaimsAreBounded | src/dev_autopilot/worker/queue.py:220-308 | the claims returned for a job have strictly increasing attempts below `max_attempts`, so at most `max_attempts` of them exist, harmless reappearances included |
| QueueTheorems.GrantEffect | src/dev_autopilot/worker/queue.py:273-307 | what a returned claim leaves stored, and that nothing terminal or checkpointed is touched |
| QueueTheorems.ReappearanceHarmsIff | src/dev_autopilot/worker/queue.py:239-256 | after any history, an old record of the job that reappears lets later operations break the order of attempts exactly when the job has no terminal record and that attempt is no newer than the last one handed out |
| QueueTheorems.AtMostOneOwner | src/dev_autopilot/worker/queue.py:310-320 | at any instant at most one returned claim passes `assert_ownership` |
| QueueTheorems.LostForever | src/dev_autopilot/worker/queue.py:310-335 | a claim that fails `assert_ownership` once fails it at every later instant |
| QueueTheorems.CheckpointAfter | src/dev_autopilot/worker/queue.py:337-353 | only an accepted checkpoint of the lease owner moves the stored sequence, and upwards |
| QueueTheorems.AcceptedSequencesIncrease | src/dev_autopilot/worker/queue.py:337-353 | accepted checkpoint sequences strictly increase across owners and crashes |
| QueueTheorems.NextSequenceAccepted | src/dev_autopilot/worker/runner.py:369-444 | while a claim is live its next sequence number is accepted, whatever others did |
| QueueTheorems.TerminalForever | src/dev_autopilot/worker/queue.py:139-151 | COMPLETED stays the reported status for ever; once COMPLETED or FAILED exists no claim returns the job, leftovers and stale listings included |
| QueueTheorems.SubmittedJobConserved | src/dev_autopilot/worker/queue.py:188-206 | after `submit` every later state holds a record of the job, in no other resource's queue, and a second submit is refused |
| QueueTheorems.ReclaimEffect | src/dev_autopilot/worker/queue.py:424-457 | an uninterrupted `reclaim_expired` on an unleased, unfinished job requeues or fails it |
| QueueTheorems.NeverStranded | src/dev_autopilot/worker/queue.py:413-458 | in every reachable unfinished state, once the lease has run out, one `reclaim_expired` followed by `claim` hands the job out again or leaves it FAILED |
| QueueEffects.ClaimEffect | src/dev_autopilot/worker/queue.py:220-308 | what a full `claim` leaves stored for each queued job: handed out, dropped when finished, untouched while leased, failed when exhausted |
| QueueEffects.ReclaimingEffect | src/dev_autopilot/worker/queue.py:413-458 | what `reclaim_expired` leaves stored for each running job: cleaned up, untouched, requeued with the next attempt, or failed |
| QueueEffects.ResumingEffect | src/dev_autopilot/worker/queue.py:460-481 | a cleared blocked job with attempts left is queued with the next attempt and its blocked record is gone; nothing else changes |
| QueueEffects.ResumedIsClaimed | src/dev_autopilot/worker/queue.py:460-481 | the `claim` after it hands out the attempt after the blocked one |
| QueueEffects.StatusExact | src/dev_autopilot/worker/queue.py:139-151 | which of the six answers `job_status` gives, by what is stored |
| QueueTrace.ConcludeKeeps | src/dev_autopilot/worker/queue.py:198-481 | a finished operation on one job extends that job's history by one event and leaves all other jobs alone |
| QueueTrace.SweepEnds | src/dev_autopilot/worker/queue.py:413-481 | a sweep over the listed jobs has handled every job, listed or not |
| DriveQueues.DriveQueue.Do | src/dev_autopilot/worker/queue.py:176-180 | one put or delete either takes effect and returns, or raises before or after taking effect, and then the history records the cut operation |
| DriveQueues.DriveQueue.Submit | src/dev_autopilot/worker/queue.py:198-206 | refuses exactly a present job; otherwise the job is queued at attempt 0 and reported so; without storage errors it does not fail otherwise |
| DriveQueues.DriveQueue.Claim | src/dev_autopilot/worker/queue.py:220-308 | None exactly when no queued job is free, unleased and unexhausted, and then finished ones are dropped and exhausted ones failed; a returned claim is that of such a job, its records are those of the lease, and it owns the job exactly until the lease ends; an interrupted call hands out none, and without storage errors none is interrupted |
| DriveQueues.DriveQueue.Heartbeat | src/dev_autopilot/worker/queue.py:322-335 | raises exactly without the live lease, and then changes nothing; otherwise the lease ends exactly `ttl` from now and the heartbeat is the present one |
| DriveQueues.DriveQueue.Checkpoint | src/dev_autopilot/worker/queue.py:337-353 | the three refusals, each exactly when it happens, and the record written otherwise |
| DriveQueues.DriveQueue.Finish | src/dev_autopilot/worker/queue.py:383-411 | the record of the given status and this attempt is stored, running, lease and heartbeat are gone, all else is kept; refusals change nothing |
| DriveQueues.DriveQueue.ReclaimExpired | src/dev_autopilot/worker/queue.py:413-458 | what every job's records are afterwards, case by case, and that exactly the requeued ids are returned; without storage errors it succeeds |
| DriveQueues.DriveQueue.ResumeClearedBlockers | src/dev_autopilot/worker/queue.py:460-481 | returns exactly the cleared blocked jobs with attempts left; each of them is queued with the next attempt and no longer blocked, every other job is unchanged; without storage errors it succeeds |
| WorkerRunners.OwnerUndisturbed | src/dev_autopilot/worker/queue.py:220-411 | while a returned claim is live and unfinished, nobody else changes anything of its job but expiry, heartbeat and checkpoint: it stays running and no terminal record appears |
| WorkerRunners.SaveNext | src/dev_autopilot/worker/runner.py:387-398 | with any calls of others in between, the next checkpoint fails only by a storage error or a lost lease, never as stale, and the lease is lost only if the heartbeat failed or the claim does not own the job any more |
| WorkerRunners.Work | src/dev_autopilot/worker/runner.py:369-444 | the counter equals the stored sequence, which a finished run has raised by at least two |
| WorkerRunners.Execute | src/dev_autopilot/worker/runner.py:374-479 | what the returned result says is stored: the terminal record of this attempt, the last sequence, no lease; after a lost lease it published nothing; without storage errors a claim just handed out ends completed, failed or lost, never unsettled |
| WorkerRunners.RunOne | src/dev_autopilot/worker/runner.py:297-483 | idle means no job was grantable; every other result is for the queued job this call claimed; without storage errors `claim` does not raise, and parking raises only after the lease is lost |
| StorageKeys.KeysCollideIff | src/dev_autopilot/worker/queue.py:153-174 | two queue records share a key exactly when one is a running job whose id looks like the other's lease or heartbeat |
| StorageKeys.RecoverySkipsIff | src/dev_autopilot/worker/queue.py:417-421 | `reclaim_expired` skips a running job exactly when its id ends in one of three suffixes |
| StorageKeys.PartKeysDiffer | src/dev_autopilot/storage/splitter.py:45-46 | part keys determine prefix and index, also past six digits |
| StorageKeys.ManifestIsNoPart | src/dev_autopilot/storage/splitter.py:49-50 | a manifest is never stored under a part key |
| ChunkManifests.ResolvePartSize | src/dev_autopilot/storage/manifest.py:48-57 | an explicit size is taken as it is, a profile gives its size, and exactly which inputs fail, with which error |
| ChunkManifests.CheckContiguity | src/dev_autopilot/storage/manifest.py:89-100 | accepts exactly contiguous manifests and names the first fault; wrong coverage only when all parts are in place |
| ChunkManifests.ContiguousTiles | src/dev_autopilot/storage/manifest.py:89-104 | in an accepted manifest each byte of the source lies in exactly one part |
| Splitting.ChunkSizes | src/dev_autopilot/storage/splitter.py:101-127 | ceil(size / part size) parts, one empty part for an empty source, all full but the last |
| Splitting.ManifestContiguous | src/dev_autopilot/storage/splitter.py:132-139 | every manifest a split builds passes the validator and is complete |
| Splitting.RewrittenIn | src/dev_autopilot/storage/splitter.py:60-73 | a part is uploaded exactly when its stored bytes are missing or different |
| Splitting.RewrittenInOrder | src/dev_autopilot/storage/splitter.py:101-127 | each of them once, in the order of the indices |
| Splitting.ResumeUploadsTheRest | src/dev_autopilot/storage/splitter.py:60-73 | resuming after `k` parts uploads exactly the later parts that are missing or different |
| Splitting.RerunUploadsNothing | src/dev_autopilot/storage/splitter.py:60-73 | a rerun of a complete split uploads nothing |
| Splitting.ResumeSameObjects | src/dev_autopilot/storage/splitter.py:98-141 | wherever and however a split stopped, a full run afterwards ends in the same objects |
| Splitting.VerifiedIff | src/dev_autopilot/storage/splitter.py:226-236 | no problems exactly when all parts can be gathered and no object is missing or has extra bytes |
| Splitting.ProblemsDiagnosed | src/dev_autopilot/storage/splitter.py:226-236 | one problem for each damaged part, in order: missing, of another size, or of other bytes of that size |
| Splitting.ReassembledIff | src/dev_autopilot/storage/reassembler.py:37-61 | `reassemble` yields this content exactly when every part's object is there and long enough, the content is what they hold one after another, and under verification the digests of the parts and of the whole agree |
| Splitting.LongerObjectReassembles | src/dev_autopilot/storage/reassembler.py:37-55 | an object longer than its part reassembles although verification reports it |
| Splitting.RoundTrip | src/dev_autopilot/storage/reassembler.py:24-65 | for every source, part size and prior content, the parts of a complete split verify and reassemble to exactly the source |
| SplitStores.ReadPart | src/dev_autopilot/storage/splitter.py:106-113 | short reads add up to exactly the expected bytes, or the source has ended |
| SplitStores.Backend.Publish | src/dev_autopilot/storage/splitter.py:60-73 | on success the object holds these bytes, and true is returned exactly when it did not before |
| SplitStores.Backend.Split | src/dev_autopilot/storage/splitter.py:76-141 | success: parts, uploads, counts and manifest with its name, size, part size and digest are those of the specification, the manifest published last; failure: some prefix of the parts, and a manifest only with all of them; on reliable storage it succeeds exactly for a stable source as long as announced |
| SplitStores.Backend.VerifyParts | src/dev_autopilot/storage/splitter.py:226-236 | the reported problems, in order, are exactly the damaged parts with what is wrong with each |
| SplitStores.Backend.Reassemble | src/dev_autopilot/storage/reassembler.py:24-65 | the target is replaced by exactly what the parts hold, with the whole digest of the manifest under verification, or not at all; each error tells what is wrong with the objects; the partial file is always gone; reliable storage raises no other error |
| SplitStores.Backend.ReassembleFromPrefix | src/dev_autopilot/storage/reassembler.py:68-75 | the same for the manifest stored at a prefix; without one the target is left alone |
| SplitStores.Backend.SplitAndRestore | src/dev_autopilot/storage/reassembler.py:24-75 | split, verification and reassembly on one backend give the source back; only a storage error can prevent it, which reliable storage does not raise, and then the target is as it was |
| Budgets.ReserveKeeps | src/dev_autopilot/budget.py:147-160 | a row that breaks no cap keeps all caps, those of sibling milestones included |
| Budgets.CallsCounted | src/dev_autopilot/budget.py:130-137 | the call totals are the numbers of rows of the milestone and of the project, whatever became of them |
| Budgets.CostSums | src/dev_autopilot/budget.py:138-146 | the cost totals are sums over rows, each at its measured cost or else its estimate |
| Budgets.OnlyOverrunsExceed | src/dev_autopilot/budget.py:106-254 | at all times the numbers of calls keep the caps, and so do the costs with every measured cost counted at most at its estimate |
| Budgets.UpdateKeeps | src/dev_autopilot/budget.py:245-253 | settling keeps calls within caps and cost within cap plus measured overruns |
| Budgets.ConfigureKeeps | src/dev_autopilot/budget.py:177-206 | a compatible configuration keeps project limits equal across rows and all caps kept |
| Budgets.IncrementalTotal | src/dev_autopilot/budget.py:223-241 | sum - estimate + cost is the sum over the table after the update |
| Budgets.SpentOutRefuses | src/dev_autopilot/budget.py:147-156 | while spending is at or over a monetary cap no new reservation fits |
| Budgets.LaterTransitive | src/dev_autopilot/budget.py:164-175 | across any number of transactions configurations stay, statuses move forward, settled rows are final |
| BudgetStores.AnyRowDecides | src/dev_autopilot/budget.py:179-184 | comparing with any one row of the project decides agreement with all of them |
| BudgetStores.BudgetStore.ConfigureTx | src/dev_autopilot/budget.py:177-206 | accepts exactly compatible configurations |
| BudgetStores.BudgetStore.Configure | src/dev_autopilot/budget.py:70-104 | accepts exactly configurations with names, at least one call, no negative cap, and agreement with those stored; otherwise changes nothing |
| BudgetStores.BudgetStore.Reserve | src/dev_autopilot/budget.py:106-162 | idempotent for a known request, otherwise admitted exactly when the number of rows and the summed cost leave room under every cap; refusals roll back |
| BudgetStores.BudgetStore.ClaimExecution | src/dev_autopilot/budget.py:164-175 | succeeds exactly on a pending row, so at most once per call id over the life of the store |
| BudgetStores.BudgetStore.Settle | src/dev_autopilot/budget.py:208-254 | which settlements are rejected; overruns are recorded and raised exactly when the recomputed cost exceeds a cap; settled rows are not rewritten |
| BudgetStores.ClaimKeeps | src/dev_autopilot/budget.py:164-175 | a claimed id had not been started, and stays started once |
| CallIds.PlainIdsDiffer | src/dev_autopilot/providers.py:43-44 | different requests have different call ids when only their task texts may hold a NUL |
| CallIds.SharedWithPlainIff | src/dev_autopilot/providers.py:43-44 | a request shares its call id with a different request in which only the task may hold a NUL exactly when its own project, milestone, provider or invocation holds one |
| CallIds.SharedIff | src/dev_autopilot/providers.py:43-44 | a request shares its call id with any different request exactly when one of its five texts holds a NUL |
| Providers.BudgetedAgentAdapter.Execute | src/dev_autopilot/providers.py:39-56 | under any interleaving the wrapped adapter runs only for an id nobody had started; success returns and records the cost it reported, a failure of it is passed on; a refusal says why the call could not be reserved, claimed or settled |
| Workflows.MovedKeeps | src/dev_autopilot/engine.py:114-150 | an allowed move keeps: journal numbered 0..n-1, chained, legal, replaying to the row; failures carry class and reason, only failures and cancellations have a class; pauses a resumable phase |
| Workflows.PausesResumable | src/dev_autopilot/engine.py:76-107 | whatever phase is paused may legally be re-entered from that pause |
| Workflows.EnteredFrom | src/dev_autopilot/engine.py:13-107 | from which states each state is entered |
| Workflows.GatesReached | src/dev_autopilot/engine.py:13-107 | in each phase the gates it stands for were entered in order since the last edit, if every pause was left for an edit, a phase no later than the interrupted one, or a gate itself entered in order |
| Workflows.ReadyAfterAllGates | src/dev_autopilot/engine.py:13-107 | entry to human review comes after the five gates in order, all after the last implementation or correction, in every run whose pauses were left in one of those ways |
| Workflows.ReachedIff | src/dev_autopilot/engine.py:13-107 | the backward scan for gates finds what positions in the journal say: an edit, then the gates in order, no edit after it |
| Workflows.MaySkipIff | src/dev_autopilot/engine.py:13-107 | from any legal journal, faithful resuming can still lead to human review past a gate exactly when the phase in progress is a gate not entered in order since the last edit |
| Workflows.FaithfulMoveIff | src/dev_autopilot/engine.py:175-179 | a move keeps the journal faithful exactly when it does not leave a pause for a phase other than the stored one |
| Workflows.LeavingMaySkipIff | src/dev_autopilot/engine.py:175-179 | leaving a pause for a phase makes skipping possible exactly when that phase is a gate which, by the journal, neither was entered in order since the last edit nor is the next to enter |
| Workflows.SoundIff | src/dev_autopilot/engine.py:13-107 | the condition on leaving pauses is exact: it holds of a journal exactly when no prefix of it could be continued past a gate |
| Workflows.OvertakenResumeSkipsGates | src/dev_autopilot/engine.py:175-179 | a legal run in which a stale resume reaches human review with no gate after its correction |
| TransitionEngines.RunStore.NextSequence | src/dev_autopilot/db.py:408-411 | the next sequence number is the number of events |
| TransitionEngines.RunStore.CreateRun | src/dev_autopilot/db.py:299-326 | a new run has state CREATED and one event numbered 0 |
| TransitionEngines.RunStore.UpdateState | src/dev_autopilot/db.py:348-393 | compare-and-set: row and journal entry together, exactly when the state is the expected one |
| TransitionEngines.TransitionEngine.Transition | src/dev_autopilot/engine.py:114-150 | with others in between: moves exactly when allowed from the state read and that state is still current; the row and the journal entry it writes; which error every refusal gives |
| TransitionEngines.TransitionEngine.Fail | src/dev_autopilot/engine.py:152-167 | an undisturbed run fails exactly when it is not over and the reason is not blank; the row it leaves |
| TransitionEngines.TransitionEngine.Cancel | src/dev_autopilot/engine.py:169-173 | an undisturbed run is cancelled exactly when it is not over and the reason is not blank; idempotent on cancelled runs, refused on other terminal ones |
| TransitionEngines.TransitionEngine.Resume | src/dev_autopilot/engine.py:175-179 | refused exactly for runs that are not paused, and undisturbed successful for every reason that is not blank; goes to the phase of its first reading, which is the interrupted one exactly when the second reading agrees; by the journal and that phase, exactly when the run may now skip gates |
| Findings.FindingIdsDiffer | src/dev_autopilot/findings.py:127-136 | an id determines milestone, role and ordinal |
| Findings.FindingIdShape | src/dev_autopilot/findings.py:127-136 | an id starts with milestone, role and P and ends in at least three digits that are its number |
| Findings.PointsCounted | src/dev_autopilot/ledger.py:66-71 | the number an id is made from is the number of findings of the milestone and the role |
| Findings.IdsNeverCollide | src/dev_autopilot/ledger.py:66-126 | ids numbered by counting never collide |
| Findings.AcceptedIff | src/dev_autopilot/findings.py:200-256 | acceptance exactly when every listed condition of the charter holds |
| Findings.ReasonsExact | src/dev_autopilot/findings.py:200-256 | the decision names exactly the open blockers and the findings to review again, and gives each reason exactly when it holds |
| FindingLedgers.FindingLedger.RaiseFinding | src/dev_autopilot/ledger.py:73-126 | accepted exactly for valid input; the new id differs from all earlier ones |
| FindingLedgers.FindingLedger.ResolveFinding | src/dev_autopilot/ledger.py:138-186 | exactly that row is resolved and bound to the given diff, and only with a resolution and a verifier |
| FindingLedgers.FindingLedger.InvalidateStale | src/dev_autopilot/ledger.py:188-231 | exactly the live findings of other diffs are invalidated, and their ids returned |
| Orchestrators.ReadyOnlyOnTheSameDiff | src/dev_autopilot/orchestrator.py:534-602 | where enforced, a run ready for review has every finding resolved, none from the audit, all raised on the final diff itself |
| Orchestrators.RejectedNeverReady | src/dev_autopilot/orchestrator.py:402-457 | so after an audit rejection or any invalidation such a run never becomes ready |
| Orchestrators.Orchestrator.RaiseReviewFindings | src/dev_autopilot/orchestrator.py:699-720 | one open P1 finding a problem, with its text and bound to this diff; it raises exactly at the first blank problem, after those before it |
| Orchestrators.Orchestrator.ResolveRoleFindings | src/dev_autopilot/orchestrator.py:722-734 | resolves exactly the open findings of the role on this diff, with the resolution text and verifiers of the source, and changes nothing else |
| Orchestrators.Orchestrator.RetryOrFail | src/dev_autopilot/orchestrator.py:643-697 | an agent that fails transiently pauses the run until it has failed `max_attempts` times in a row, and fails it then; the count goes up by one |
| Orchestrators.Orchestrator.RunAudit | src/dev_autopilot/orchestrator.py:402-457 | the auditor is asked exactly without a cached report; what it said is cached as it is; a pass leads to review, a rejection records its problems and leads to correction, and a blank problem raises; stale findings are invalidated and no other changes |
| Orchestrators.Orchestrator.RunReview | src/dev_autopilot/orchestrator.py:459-516 | each decision leads to its phase; changes requested record exactly the problems and lead to correction only below the round limit; approval resolves exactly the open review findings; a human decision changes none; transient failures are counted |
| Orchestrators.Orchestrator.RunFinalTests | src/dev_autopilot/orchestrator.py:534-602 | a failed gate is corrected below the round limit; with passed tests, ready exactly when, where acceptance is enforced, every finding is settled on the current diff and the score suffices, and, where a bundle is made, its own evidence allows it |
| Orchestrators.Orchestrator.OtherPhase | src/dev_autopilot/orchestrator.py:210-370 | the remaining handlers lead to their successor, to failure, or to a retry or correction where the source allows one; only a correction counts a round |
| Orchestrators.Orchestrator.Step | src/dev_autopilot/orchestrator.py:160-199 | every step runs the handler of its phase and moves along a legal edge that what it heard explains, unless the lease was lost inside the handler; invalidated findings never change |
| Orchestrators.Orchestrator.RunUntilBlocked | src/dev_autopilot/orchestrator.py:108-158 | the phases passed through, each led to by what its handler heard; it comes back paused, over, cancelled, or failed after exactly the allowed number of steps, unless the lease is lost or a finished run meets the limit |
| Orchestrators.Orchestrator.ResumeRun | src/dev_autopilot/orchestrator.py:201-208 | a paused run goes back into the phase it interrupted |
| IsoTime.IsoOrder | src/dev_autopilot/db.py:107-110 | comparing timestamps as text is comparing them as instants, with and without microseconds |
| RunLocks.AtMostOneLive | src/dev_autopilot/db.py:622-630 | at any time at most one token passes the ownership check |
| RunLocks.NeverRevived | src/dev_autopilot/db.py:598-620 | a lost or expired token never passes again, whatever is requested afterwards |
| RunLocks.OthersWait | src/dev_autopilot/db.py:564-596 | while a token is live no other token's request changes the lease |
| RunLocks.RunLock.Acquire | src/dev_autopilot/db.py:564-587 | succeeds exactly when there is no lease or it has expired; then the token is live exactly before the new expiry |
| RunLocks.RunLock.Renew | src/dev_autopilot/db.py:598-620 | succeeds exactly for the live owner; then the token is live exactly before the new expiry |
| RunLocks.RunLock.AssertOwner | src/dev_autopilot/db.py:622-630 | passes exactly for the live owner |
| RunLocks.RunLock.Release | src/dev_autopilot/db.py:589-596 | succeeds exactly for the row's token |
| MilestoneGraphs.CycleCheck.Visit | src/dev_autopilot/project.py:100-109 | raises only on a node that lies on a cycle; otherwise everything reachable is finished in dependency order |
| MilestoneGraphs.ValidateGraph | src/dev_autopilot/project.py:84-113 | accepts exactly unique ids, known dependencies and no cycle; each error names a milestone it is true of, and a cycle is reported only where the earlier checks pass |
| MilestoneGraphs.TopologicalAcyclic | src/dev_autopilot/project.py:96-112 | a dependency order of all nodes excludes every cycle |
| MilestoneGraphs.ChainsAreShort | src/dev_autopilot/project.py:119-125 | without cycles no dependency chain is as long as the graph is large |
| MilestoneGraphs.SomeNodeEnds | src/dev_autopilot/project.py:119-125 | so some remaining milestone can always be executed |
| MilestoneOrders.BeforeAsymmetric | src/dev_autopilot/project.py:115-130 | no two milestones can change places in the order |
| MilestoneOrders.OrderUnique | src/dev_autopilot/project.py:115-130 | two orders of the same milestones that follow the relation are equal |
| MilestoneOrders.Ready | src/dev_autopilot/project.py:120-123 | exactly the milestones whose dependencies are accepted, by ascending id |
| MilestoneOrders.OrderedMilestones | src/dev_autopilot/project.py:115-130 | terminates without raising; a permutation, dependencies first, in the unique order by depth and id |
| ProjectRunners.ContinuousProjectRunner.Drive | src/dev_autopilot/project.py:331-401 | a milestone that has a run keeps it, another gets a new one; each outcome with the status it leaves; other milestones are untouched and no two share a run |
| ProjectRunners.ContinuousProjectRunner.Run | src/dev_autopilot/project.py:309-406 | the dependency guard never fires; ready for release exactly when every milestone is accepted; the first milestone that is not ready stops the run |
| ProjectRunners.StopKeepsClosed | src/dev_autopilot/project.py:315-330 | over repeated runs accepted milestones have accepted dependencies |
| DriveFiles.FileUnique | src/dev_autopilot/storage/drive_backend.py:229-243 | with unique names a key names at most one file |
| DriveFiles.OldOrNewBytes | src/dev_autopilot/storage/drive_backend.py:252-292 | after any put the key names one file at most, the one it named before, with old or new bytes |
| DriveBackends.DriveStorageBackend.EnsureFolder | src/dev_autopilot/storage/drive_backend.py:206-223 | retries never make a second folder of the name; it gives up on an error that is not retryable or after all attempts |
| DriveBackends.DriveStorageBackend.ResolveFolder | src/dev_autopilot/storage/drive_backend.py:189-227 | finds the folder at the path, or tells that there is none, or makes what is missing |
| DriveBackends.DriveStorageBackend.ResolveFile | src/dev_autopilot/storage/drive_backend.py:229-243 | finds the key's file, or tells that there is none |
| DriveBackends.DriveStorageBackend.Put | src/dev_autopilot/storage/drive_backend.py:252-338 | names stay unique under any lost requests and responses; success means the key's file holds the given bytes, and comes if no request raises; it gives up on an error that is not retryable or after all attempts; nothing else changes |
| BlobFrames.BatchBlobs | src/dev_autopilot/retrieval.py:74-104 | the loop computes the frame parser's result |
| BlobFrames.ParsesIffFramed | src/dev_autopilot/retrieval.py:86-104 | the output is accepted with these contents exactly when it begins with frames of these contents |
| BlobFrames.FirstBadFrame | src/dev_autopilot/retrieval.py:86-104 | a refused output has a first bad frame after frames in order, and the error says what is wrong with it |
| BlobFrames.ParseUndoesPrinted | src/dev_autopilot/retrieval.py:74-104 | printed frames parse to exactly their blobs, newlines and trailing bytes included |
| BlobFrames.SignedParses | src/dev_autopilot/retrieval.py:93-95 | a sign before a printed size is read as its sign |
| BlobFrames.DictionaryHolds | src/dev_autopilot/retrieval.py:86-104 | for distinct ids the result maps each id to its own blob |

## Left out

- WorkerRunners.RunOne: does not model staging of inputs, uploads, the process timeout or scratch directories; they appear as calls of others and arbitrary outcomes. `poll_loop` only repeats it.
- DriveQueues.DriveQueue.Claim: a malformed or unreadable lease (skipped by the code) and queued records in the older format are not modelled; the JSON payloads of records are reduced to the fields the protocol uses.
- DriveQueues.DriveQueue.ResumeClearedBlockers: which blockers are cleared is a parameter.
- QueueProtocol.InvHolds: takes job ids whose files no other job's id collides with (StorageKeys.KeysCollideIff) and that recovery does not skip (StorageKeys.RecoverySkipsIff). A reappearing record is one of the job's own, in its own queue, with attempts left.
- The coordinator: its lock is taken as given, so queue operations are serial. Of worker registrations only a failing put is modelled.
- SplitStores.Backend.Split: `split_object` is the same loop over ranged reads; it is covered for a source key that is not one of the split's own part keys. Format strategies other than byte ranges are refused by the code and left out.
- SplitStores.Backend.Publish: a put reports the digest of what it stored, as the local backend does. Drive's put reports the digest of the local file, so there damage of equal size is not noticed.
- Digests are updated block by block in the source; the model digests the collected bytes.
- ChunkManifests.CheckContiguity: field patterns and JSON are left to Pydantic.
- BudgetStores.BudgetStore.Reserve: a call id is always given; the random default is one that is not in the table.
- Telemetry of the provider wrapper.
- TransitionEngines.RunStore.CreateRun: run ids are fresh. Timestamps and actors of events are left out.
- A bound on correction rounds: there is none, an audit rejection enters correction without a check.
- Orchestrators.Orchestrator.RunReview: prompts, agent contexts, one-time repair of malformed output and the times of retries are reduced to their outcomes. Baseline capture, bundle files and evidence rows are left out; a bundle's other readiness conditions are one arbitrary answer.
- Findings.AcceptedIff: the score is its total; the orchestrator always gives the full score.
- IsoTime.IsoOrder: instants are their UTC fields; conversion from other zones is left out.
- ProjectRunners.ContinuousProjectRunner.Run: waiting out quota pauses may never end in the source; the model starts from the state in which the run comes to rest.
- MilestoneGraphs.ValidateGraph: the pattern of milestone ids.
- DriveBackends.DriveStorageBackend.Put: listings are consistent and nobody else changes the tree. Deleting, backoff times and credential refresh are left out.
- BlobFrames.BatchBlobs: sizes are non-negative, as git prints them. Starting the process, choosing files and cutting passages are left out.
- Approvals, legacy import, CLI, MCP server, HTML reports, evaluation suite and subprocess adapters.
