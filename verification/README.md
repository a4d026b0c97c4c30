# Durable evaluation queue, review engine and V1.1 workflow

This project models how an application evaluates uploaded videos with a billable
model, and proves what it promises about it.

- **The queue and its ledger.** Jobs are claimed by workers under a lease with a
  fencing token, one at a time. A lease is renewed, marked before the billable
  call, finished, lost and recovered. Each transaction moves the job, its attempt,
  its usage record and its quota entry together. `QueueModel` and `QuotaModel`
  give the effect of each transaction; `QueueInvariant`, `QueueSteps` and
  `QueueSafety` the invariant of all of them; `QueueRuns` and `QueueProgress` what
  holds over whole runs under a clock that never goes back.
- **The review engine.** One to three blind runs give anchors, ratings and fact
  claims; `ContentScoring` and `ReviewEngine` score and decide, `ReviewTheorems`
  says what a decision means. `DataRating` rates published results.
- **The V1.1 workflow** on top of both: revisions, groups, runs, holds, appeals,
  decisions and gates (`WorkflowModel`), the invariant of the whole database
  (`WorkflowInvariant` and the files that keep it), and its runs
  (`WorkflowTraces`, `WorkflowHistory`, `WorkflowTheorems`). `WorkflowPayments`
  follows every decision back to what was charged for it.
- **What each operation answers.** The `Outcomes` files say which rows every transaction,
  decision and event leaves behind, under which conditions on the rows before it, and in
  which order it refuses (`QueueOutcomes`, `QuotaOutcomes`, `ReviewOutcomes`,
  `TriggerOutcomes`, `CompletionOutcomes`, `WorkflowOutcomes`, `PollerOutcomes`).
  `WorkerOutcomes` shows that a worker's pass is a run of these events.
- **The services as objects.** `Store.Database` has one field per table.
  `QuotasService`, `EvaluationJobsService`, `EvaluationWorker`,
  `V11ContentService` and `V11WorkflowService` change those fields statement by
  statement, restore them where the original rolls back, and are proved to have
  exactly the effect that the theorems are about.
- **Three stand-alone parts.** The canonical JSON text behind the evaluation
  fingerprint (`CanonicalJson`, `CanonicalTheorems`, `CanonicalBoundary`), keyset paging
  (`HistoryPaging`) and the status poller of the web client (`StatusPolling`).

`dafny verify dfyconfig.toml` checks everything.

Times are milliseconds on the database clock. A transaction is atomic; a step that
is refused changes nothing. Identifiers are numbers, new ones are fresh. Which video
rows another transaction has locked is an argument of claim and recovery, and so is
everything that comes from outside: the model's answer, the file, the permission
checks, feature switches and the first byte of a digest. Anchors are reals, scores
are integers in tenths.

What the proofs brought to light:

- The completion transaction has a branch for a revision that is no longer current
  (`v11-content.service.ts:376-381`). It is never taken: the check before it has
  already refused such a run (`WorkflowCompletion.BoundIsNotStale`).
- A revision passes its content gate at most once. A completion that would be adopted
  on a revision that has passed its gate fails when it is recorded, after the model
  has been paid, unless something else holds the revision
  (`WorkflowTheorems.AdoptionGoesThrough` has the exact condition, seen from before the
  completion; `WorkflowTheorems.NoSecondDecision`). A formal trigger for changed input
  leads there, because it keeps the decided revision
  (`WorkflowTheorems.DecidedRevisionIsReused`, `WorkflowWitness.SecondDecisionFails`).
- `recoverExpired` takes up to a hundred candidates; there never is more than one
  (`EvaluationJobsService.OneCandidate`).
- The hold for want of a rating majority (`review-engine.ts:167`) is never returned: three ratings within one
  level of each other always have one (`ReviewOutcomes.FactsOutcome`).
- An array item that is undefined prints as nothing, so an array of a lone undefined
  prints like an empty one. That is the only ambiguity of the canonical text
  (`CanonicalBoundary.CanonicalTextDecidesCollapsed`).

## Model

| member | source | states |
|---|---|---|
| QueueSafety.StepInv | apps/api/src/modules/evaluation-jobs/evaluation-jobs.service.ts:66-361 | every transaction of the queue, at any time and with any arguments, keeps the invariant: at most one active job per video and stage, at most one running job, one job per target, a lease exactly on running jobs, attempts numbered 1..attempts and at most maxAttempts, a usage record exactly for externally started attempts, and a ledger that agrees with the jobs |
| QueueRuns.RunInv | apps/api/src/modules/evaluation-jobs/evaluation-jobs.service.ts:66-361 | the invariant holds in every state that any sequence of transactions reaches |
| QueueInvariant.EmptyInv | apps/api/src/modules/evaluation-jobs/evaluation-jobs.service.ts:66-99 | an empty queue over an empty ledger satisfies the invariant |
| QueueSafety.EnqueueInv | apps/api/src/modules/evaluation-jobs/evaluation-jobs.service.ts:66-99 | a job that is queued keeps the invariant, together with its reservation |
| QueueSafety.OrphanInv | apps/api/src/modules/evaluation-jobs/evaluation-jobs.service.ts:325-348 | closing a legacy orphan keeps the invariant, and never charges anybody |
| QueueSafety.OrphanIsClosedAtOnce | apps/api/src/modules/evaluation-jobs/evaluation-jobs.service.ts:344-346 | queueing an orphan and abandoning it in one transaction comes to one closed, uncharged diagnostic job, and the ledger is untouched |
| QueueSafety.ClaimInv | apps/api/src/modules/evaluation-jobs/evaluation-jobs.service.ts:112-137 | claiming keeps the invariant although it never looks at maxAttempts |
| QueueSafety.MarkInv | apps/api/src/modules/evaluation-jobs/evaluation-jobs.service.ts:223-244 | the external mark keeps the invariant: the marked attempt is the last one of its job |
| QueueSafety.FinishInv | apps/api/src/modules/evaluation-jobs/evaluation-jobs.service.ts:246-274 | the lease holder can always finish: no outcome meets a settled quota entry, and job, attempt, usage and entry close together |
| QueueSafety.RequeueInv | apps/api/src/modules/evaluation-jobs/evaluation-jobs.service.ts:307-319 | a job requeued after an expired lease still has an attempt left and no external marker |
| QueueSafety.RecoverInv | apps/api/src/modules/evaluation-jobs/evaluation-jobs.service.ts:295-320 | recovery of any candidate always goes through and keeps the invariant |
| QueueInvariant.OneBillableAttempt | apps/api/src/modules/evaluation-jobs/evaluation-jobs.service.ts:223-242 | at most one attempt of a job is ever externally started, and a waiting job has none |
| QueueInvariant.OneUsagePerJob | apps/api/src/modules/evaluation-jobs/evaluation-jobs.service.ts:242-242 | at most one usage record per job ever exists |
| QueueInvariant.ClaimClearsNothing | apps/api/src/modules/evaluation-jobs/evaluation-jobs.service.ts:128-131 | the external marker that a claim resets was not set, and the claim stays within maxAttempts |
| QueueInvariant.TokenIsTheOngoingAttempt | apps/api/src/modules/evaluation-jobs/evaluation-jobs.service.ts:127-135 | the lease token of the running job is the token of the only ongoing attempt of all jobs |
| QueueInvariant.FinishNeverConflicts | apps/api/src/modules/evaluation-jobs/evaluation-jobs.service.ts:260-266 | settling the quota entry of an active job never hits the already-settled conflict |
| QueueRuns.StepMoves | apps/api/src/modules/evaluation-jobs/evaluation-jobs.service.ts:112-361 | no transaction removes a job, and a job row only stays, is claimed when due, is renewed by the holder of a live lease, is closed, or is requeued into the future |
| QueueRuns.StepKeepsAttempts | apps/api/src/modules/evaluation-jobs/evaluation-jobs.service.ts:133-135 | attempts are never removed, keep job and number, and never lose their external marker |
| QueueRuns.StepKeepsLost | apps/api/src/modules/evaluation-jobs/evaluation-jobs.service.ts:176-182 | one transaction cannot bring a lost lease back |
| QueueRuns.LostForEver | apps/api/src/modules/evaluation-jobs/evaluation-jobs.service.ts:176-251 | once the lease check fails for an issued token, no heartbeat, external mark or finish with it succeeds in any continuation |
| QueueRuns.FinishLosesLease | apps/api/src/modules/evaluation-jobs/evaluation-jobs.service.ts:246-274 | the holder of a live lease can finish, and its lease is lost with that |
| QueueRuns.TimeLosesLease | apps/api/src/modules/evaluation-jobs/evaluation-jobs.service.ts:178-180 | a lease is lost exactly from its expiry time on, and at once when the holder ends it |
| QueueRuns.RecoveryLosesLease | apps/api/src/modules/evaluation-jobs/evaluation-jobs.service.ts:295-319 | recovering a job takes the token of its expired lease away |
| QueueRuns.StepKeepsLease | apps/api/src/modules/evaluation-jobs/evaluation-jobs.service.ts:176-221 | before a lease expires, no transaction of anybody but its holder touches it |
| QueueRuns.LiveLeaseIsExclusive | apps/api/src/modules/evaluation-jobs/evaluation-jobs.service.ts:114-221 | whatever all others do, a holder that neither finishes nor ends its lease keeps it until its time, and nobody else runs a job meanwhile |
| QueueModel.LeaseMilliseconds | apps/api/src/modules/evaluation-jobs/evaluation-jobs.service.ts:107-110 | a lease lasts between fifteen seconds and ten minutes, whatever is configured |
| QueueInvariant.RetriedOnce | apps/api/src/modules/evaluation-jobs/evaluation-jobs.service.ts:69-93 | a job is retried at most once, and only after it failed or needed attention |
| QueueRuns.ClosedForEver | apps/api/src/modules/evaluation-jobs/evaluation-jobs.service.ts:260-274 | a job with a terminal status never changes again in any run |
| QueueRuns.NeverStartedTwice | apps/api/src/modules/evaluation-jobs/evaluation-jobs.service.ts:305-316 | an externally started job is never attempted again in any run |
| QueueRuns.LedgerFollowsTheQueue | apps/api/src/modules/evaluation-jobs/evaluation-jobs.service.ts:95-95 | in every reachable state the entry of a job queued by a user is reserved exactly while the job is active, committed exactly when it ended externally started or succeeded, and released otherwise |
| QueueRuns.StepKeepsQuota | apps/api/src/modules/quotas/quotas.service.ts:30-56 | no queue or quota transaction but an adjustment takes any window over its limit, and entries only settle |
| QueueRuns.RunsStayWithinLimits | apps/api/src/modules/quotas/quotas.service.ts:30-56 | between two adjustments every (user, kind, window) sum that was within its limit stays within it, whatever the queue does |
| QueueRuns.BackoffIsPositive | apps/api/src/modules/evaluation-jobs/evaluation-jobs.service.ts:317-318 | the backoff lies between one millisecond and one minute |
| QueueProgress.MoveDrains | apps/api/src/modules/evaluation-jobs/evaluation-jobs.service.ts:112-319 | the potential 2*(maxAttempts-attempts)+(1 if running) of a job drops exactly when its status changes |
| QueueProgress.JobDrains | apps/api/src/modules/evaluation-jobs/evaluation-jobs.service.ts:112-319 | a job sees at most 2*maxAttempts claims, recoveries and finishes in any run |
| QueueProgress.StepDrains | apps/api/src/modules/evaluation-jobs/evaluation-jobs.service.ts:112-319 | every claim, recovery or finish lowers the sum of the potentials and nothing raises it while no job is added |
| QueueProgress.QueueDrains | apps/api/src/modules/evaluation-jobs/evaluation-jobs.service.ts:112-319 | without new jobs, the number of claims, recoveries and finishes is bounded by the potential that was there |
| QueueProgress.PotentialNonNegative | apps/api/src/modules/evaluation-jobs/evaluation-jobs.service.ts:112-319 | when the potential is used up no job is active |
| QueueProgress.ClaimServesSomebody | apps/api/src/modules/evaluation-jobs/evaluation-jobs.service.ts:113-126 | a claim takes a job exactly when capacity is free, nothing runs, and some due job is not locked |
| QueueProgress.NobodyOvertakes | apps/api/src/modules/evaluation-jobs/evaluation-jobs.service.ts:97-97 | the set of waiting jobs ahead of a due job never grows under enqueueing, recovery or backoff |
| QueueProgress.ClaimShortensTheLine | apps/api/src/modules/evaluation-jobs/evaluation-jobs.service.ts:118-137 | a claim that could have served a due job takes it or one that was ahead of it |
| QueueProgress.BoundedBypass | apps/api/src/modules/evaluation-jobs/evaluation-jobs.service.ts:112-137 | as long as a due job is not claimed, the claims made meanwhile are at most the jobs that were ahead of it |
| QueueProgress.ClaimedInTurn | apps/api/src/modules/evaluation-jobs/evaluation-jobs.service.ts:112-137 | a due job is claimed within one claim more than there were jobs ahead of it |
| EvaluationJobsService.EvaluationJobs.Enqueue | apps/api/src/modules/evaluation-jobs/evaluation-jobs.service.ts:66-99 | has the effect of the enqueue transaction on jobs and ledger, with the same refusals in the same order |
| EvaluationJobsService.EvaluationJobs.RetryFor | apps/api/src/modules/evaluation-jobs/evaluation-jobs.service.ts:69-77 | the checks of an administrator retry, and the account the new job is charged to |
| EvaluationJobsService.EvaluationJobs.NextWaiting | apps/api/src/modules/evaluation-jobs/evaluation-jobs.service.ts:118-121 | scans for the first due unlocked job in (availableAt, createdAt, id) order, or finds that there is none |
| EvaluationJobsService.HeadIsClaimed | apps/api/src/modules/evaluation-jobs/evaluation-jobs.service.ts:118-126 | the head of the queue is unique, so the scan and the claim agree |
| EvaluationJobsService.EvaluationJobs.Claim | apps/api/src/modules/evaluation-jobs/evaluation-jobs.service.ts:112-137 | has the effect of the claim on jobs and attempts and returns the lease of the claimed job |
| EvaluationJobsService.EvaluationJobs.AssertLease | apps/api/src/modules/evaluation-jobs/evaluation-jobs.service.ts:176-182 | true exactly when the lease is live |
| EvaluationJobsService.EvaluationJobs.Heartbeat | apps/api/src/modules/evaluation-jobs/evaluation-jobs.service.ts:215-221 | renews a live lease, and nothing else |
| EvaluationJobsService.EvaluationJobs.MarkExternalStarted | apps/api/src/modules/evaluation-jobs/evaluation-jobs.service.ts:223-244 | marks job, attempt and usage for a live, bound lease of an eligible account, or changes nothing |
| EvaluationJobsService.EvaluationJobs.Finish | apps/api/src/modules/evaluation-jobs/evaluation-jobs.service.ts:260-274 | settles the entry and closes job, attempt and usage as the transaction does |
| EvaluationJobsService.EvaluationJobs.FinishCurrent | apps/api/src/modules/evaluation-jobs/evaluation-jobs.service.ts:246-251 | finishes for the holder of a live lease only |
| EvaluationJobsService.EvaluationJobs.FailRunRows | apps/api/src/modules/evaluation-jobs/evaluation-jobs.service.ts:282-285 | fails a live run, and its group if that is queued or running |
| EvaluationJobsService.EvaluationJobs.Abandon | apps/api/src/modules/evaluation-jobs/evaluation-jobs.service.ts:276-287 | finishes the job and fails the run it worked on |
| EvaluationJobsService.EvaluationJobs.RecoverCandidate | apps/api/src/modules/evaluation-jobs/evaluation-jobs.service.ts:299-320 | has the effect of recovering one candidate that is rechecked under its lock |
| EvaluationJobsService.EvaluationJobs.ExpiredCandidates | apps/api/src/modules/evaluation-jobs/evaluation-jobs.service.ts:296-298 | collects exactly the jobs with an expired lease, each once |
| EvaluationJobsService.OneCandidate | apps/api/src/modules/evaluation-jobs/evaluation-jobs.service.ts:296-298 | in a reachable state there is at most one candidate, so the limit of a hundred never matters |
| EvaluationJobsService.EvaluationJobs.RecoverExpired | apps/api/src/modules/evaluation-jobs/evaluation-jobs.service.ts:295-321 | keeps the invariant of the whole database, and afterwards no expired lease is left on a video that was not locked |
| EvaluationJobsService.EvaluationJobs.RecoverOrphanRow | apps/api/src/modules/evaluation-jobs/evaluation-jobs.service.ts:334-347 | has the effect of closing one orphan that is rechecked under its lock |
| EvaluationJobsService.EvaluationJobs.RecoverOrphans | apps/api/src/modules/evaluation-jobs/evaluation-jobs.service.ts:325-348 | closes one row after the other, up to the first whose transaction fails in the state reached, says whether none did, and keeps the invariant |
| EvaluationJobsService.EvaluationJobs.ReleaseAfterExecutionError | apps/api/src/modules/evaluation-jobs/evaluation-jobs.service.ts:351-361 | whatever state the lease is in, it is lost afterwards, and the invariant holds |
| EvaluationWorker.Worker.ExecuteOnce | apps/api/src/modules/evaluation-jobs/evaluation-worker.ts:37-72 | recover, close orphans, claim, execute, release, in this order and with exactly these effects; an orphan that cannot be closed ends the pass; however the execution ends, the token of the worker is lost when the pass returns |
| EvaluationWorker.Worker.RunAndRelease | apps/api/src/modules/evaluation-jobs/evaluation-worker.ts:55-68 | returning and throwing both end with the lease lost |
| EvaluationWorker.Worker.RunStage | apps/api/src/modules/evaluation-jobs/evaluation-worker.ts:56-62 | dispatches on the stage and keeps the invariant of the whole database |
| EvaluationWorker.ReturnedWorkerIsShutOut | apps/api/src/modules/evaluation-jobs/evaluation-worker.ts:64-68 | in every continuation after the release, by any workers, users and timers, nothing the returned worker sends has an effect |
| WorkerOutcomes.PassIsARun | apps/api/src/modules/evaluation-jobs/evaluation-worker.ts:37-72 | the effect of a pass is a run of the events of the system in the order of its times, so that every theorem about all runs holds for what any number of workers do |
| WorkerOutcomes.JobLeads | apps/api/src/modules/v11/v11-content.service.ts:334-550 | the same for the execution of a run: it begins, marks, completes or fails |
| WorkerOutcomes.WhenAPassClaims | apps/api/src/modules/evaluation-jobs/evaluation-worker.ts:42-45 | a pass claims a job exactly when every orphan could be closed, the worker has room, nothing is running after recovery and a waiting job is due on a free video; otherwise it only recovers |
| WorkerOutcomes.AnswerNeedsMark | apps/api/src/modules/v11/v11-content.service.ts:352-399 | a run succeeds only with the answer that was given, and through a job that was marked as billable before the model was asked |
| WorkerOutcomes.GoneSourceIsFree | apps/api/src/modules/v11/v11-content.service.ts:350-352 | a source that is gone or changed before the model is asked costs nothing: the evaluation is given back |
| WorkerOutcomes.FailedModelIsCharged | apps/api/src/modules/v11/v11-content.service.ts:352-367 | a model that fails after it was asked costs one evaluation |
| WorkerOutcomes.WhenItThrows | apps/api/src/modules/v11/v11-content.service.ts:338-344 | execution throws exactly when the run could not be begun, or when the lease was lost before a failure could be recorded |
| WorkerOutcomes.ReleaseOutcome | apps/api/src/modules/evaluation-jobs/evaluation-jobs.service.ts:351-361 | a live lease that is given up is recovered at once, with the outcome of recovery, and a lease that is not live is left alone |
| QueueOutcomes.EnqueuedRow | apps/api/src/modules/evaluation-jobs/evaluation-jobs.service.ts:66-99 | a job goes in queued for now, unclaimed, with three attempts unless told otherwise, and no other row of the queue changes |
| QueueOutcomes.EnqueuedEntry | apps/api/src/modules/evaluation-jobs/evaluation-jobs.service.ts:95-95 | one evaluation is reserved for the account of the job, unless its stage is free of charge or it is a legacy job |
| QueueOutcomes.EnqueueRefusals | apps/api/src/modules/evaluation-jobs/evaluation-jobs.service.ts:78-93 | a video whose stage is being worked on, input that is not durable, and a target that is gone are refused in this order, and a target never gets a second job |
| QueueOutcomes.EnqueueGoesThrough | apps/api/src/modules/evaluation-jobs/evaluation-jobs.service.ts:78-95 | without these, an active account with room in its limit always gets its job |
| QueueOutcomes.RetryIsChargedToTheOriginal | apps/api/src/modules/evaluation-jobs/evaluation-jobs.service.ts:69-77 | a retry that goes through is of the latest job of its video and stage, which failed or needs attention and was not retried before, and it is charged to the account of that job, whoever asks |
| QueueOutcomes.RetryRefusals | apps/api/src/modules/evaluation-jobs/evaluation-jobs.service.ts:69-77 | every other retry is a conflict; then the administrator and the original account must be active |
| QueueOutcomes.ClaimTakesTheFirst | apps/api/src/modules/evaluation-jobs/evaluation-jobs.service.ts:112-137 | the claimed job is due, not locked, and first by schedule, creation and identifier; it gets one more attempt, without a marker |
| QueueOutcomes.ClaimTakesSomebody | apps/api/src/modules/evaluation-jobs/evaluation-jobs.service.ts:114-122 | a claim takes a job exactly when the worker has room, no evaluation is running and a waiting job is due on a free video |
| QueueOutcomes.ClaimGrantsLease | apps/api/src/modules/evaluation-jobs/evaluation-jobs.service.ts:127-131 | from the claim on the lease is live for exactly the time asked for |
| QueueOutcomes.HeartbeatRenewsLease | apps/api/src/modules/evaluation-jobs/evaluation-jobs.service.ts:215-221 | a renewal by the holder makes the lease last exactly that long again, counted from now, and nobody else can renew it |
| QueueOutcomes.ConfiguredLease | apps/api/src/modules/evaluation-jobs/evaluation-jobs.service.ts:107-110 | a configured lease is taken if it lies between fifteen seconds and ten minutes, and ninety seconds otherwise |
| QueueOutcomes.ClaimedJobIsProtected | apps/api/src/modules/evaluation-jobs/evaluation-jobs.service.ts:107-137 | in every run in which its worker neither finishes nor gives up, a claimed job is that worker's alone for at least fifteen seconds |
| QueueOutcomes.ExpiredOrLive | apps/api/src/modules/evaluation-jobs/evaluation-jobs.service.ts:178-180 | a running job's lease is expired exactly when it is not live any more |
| QueueOutcomes.MarkOutcome | apps/api/src/modules/evaluation-jobs/evaluation-jobs.service.ts:223-243 | marking needs a live lease, a binding that holds and an eligible account, in this order; then exactly job, attempt and usage record carry the time |
| QueueOutcomes.FinishOutcome | apps/api/src/modules/evaluation-jobs/evaluation-jobs.service.ts:246-274 | a success, a failure and an uncertain result end job, attempt and usage record alike, each with its own status and code |
| QueueOutcomes.FinishSettlesEntry | apps/api/src/modules/evaluation-jobs/evaluation-jobs.service.ts:260-266 | what was reserved is kept exactly if the billable call was made or the job succeeded, and given back otherwise |
| QueueOutcomes.RecoveryOutcome | apps/api/src/modules/evaluation-jobs/evaluation-jobs.service.ts:299-319 | an expired job needs attention exactly if the billable call was made, has failed exactly if it was not and no attempt is left, and waits for another attempt otherwise; code, attempt and usage record say the same |
| QueueOutcomes.RecoveryLeavesOthersAlone | apps/api/src/modules/evaluation-jobs/evaluation-jobs.service.ts:299-304 | without an expired lease, or while the video is locked, recovery does nothing |
| QueueOutcomes.BackoffDoubles | apps/api/src/modules/evaluation-jobs/evaluation-jobs.service.ts:317-318 | the wait doubles with each attempt, from two seconds up to a minute |
| QueueOutcomes.OrphanOutcome | apps/api/src/modules/evaluation-jobs/evaluation-jobs.service.ts:334-347 | an orphan is closed as uncertain without a charge, unless it has a job after all, its video is being worked on, or it is over |
| QueueOutcomes.CodesMeanWhatTheySay | apps/api/src/modules/evaluation-jobs/evaluation-jobs.service.ts:246-319 | in every reachable state a job with used-up attempts was never billed, and an uncertain result needs attention |
| WorkflowOutcomes.CodesInEveryRun | apps/api/src/modules/evaluation-jobs/evaluation-jobs.service.ts:246-319 | the same along every run of the whole system |
| QuotaWindows.InWindow | apps/api/src/modules/quotas/quotas.service.ts:9-16 | an instant lies in its own window |
| QuotaWindows.WindowsTile | apps/api/src/modules/quotas/quotas.service.ts:9-16 | windows of one period tile time: a later instant has the same window exactly until that window ends |
| QuotaModel.ReserveStaysWithinLimit | apps/api/src/modules/quotas/quotas.service.ts:30-45 | a reservation that goes through adds exactly its amount to one window and keeps it within the limit in force; a replayed key adds nothing; all other sums stay |
| QuotaModel.SettleNeverRaises | apps/api/src/modules/quotas/quotas.service.ts:46-56 | committing changes no sum, releasing never raises one, and entries keep amount and window |
| QuotaModel.UsedAfterSettle | apps/api/src/modules/quotas/quotas.service.ts:48-56 | releasing gives back exactly what was reserved |
| QuotaModel.StepStaysWithin | apps/api/src/modules/quotas/quotas.service.ts:30-56 | one reservation or settlement keeps every window within its limit |
| QuotaModel.RunStaysWithin | apps/api/src/modules/quotas/quotas.service.ts:30-56 | any sequence of reservations and settlements keeps every window that was within its limit within it |
| QuotaModel.ReplayIsIdempotent | apps/api/src/modules/quotas/quotas.service.ts:33-38 | repeating a reservation that went through succeeds and changes nothing |
| QuotaModel.AdjustIsIdempotent | apps/api/src/modules/quotas/quotas.service.ts:64-69 | repeating an adjustment succeeds and changes nothing, and adjusting leaves the ledger alone |
| QuotaModel.AdjustKeepsPeriodInUse | apps/api/src/modules/quotas/quotas.service.ts:70-72 | a period is never changed under existing usage |
| QuotasService.Aggregate | apps/api/src/modules/quotas/quotas.service.ts:42-42 | adds up the rows of the ledger |
| QuotasService.Quotas.Reserve | apps/api/src/modules/quotas/quotas.service.ts:30-45 | has the effect of a reservation, with the same refusals in the same order, or changes nothing |
| QuotasService.Quotas.Settle | apps/api/src/modules/quotas/quotas.service.ts:48-56 | has the effect of a settlement, or changes nothing |
| QuotasService.Quotas.Adjust | apps/api/src/modules/quotas/quotas.service.ts:57-76 | has the effect of an adjustment, or changes nothing |
| QuotasService.Quotas.Summary | apps/api/src/modules/quotas/quotas.service.ts:77-93 | one line per kind whose used and reserved figures add up to what counts against the limit, and whose remaining figure is the rest or zero |
| QuotasService.UsedSplits | apps/api/src/modules/quotas/quotas.service.ts:85-89 | used plus reserved is the sum the limit is checked against |
| QuotasService.RemainingIsExact | apps/api/src/modules/quotas/quotas.service.ts:88-89 | a fresh reservation goes through exactly when it asks for no more than the remaining figure |
| QuotaOutcomes.FirstRequest | apps/api/src/modules/quotas/quotas.service.ts:30-45 | a first request is granted exactly when amount and key are valid, the account may act and the window has room, and then reserves exactly its amount there |
| QuotaOutcomes.RepeatedRequest | apps/api/src/modules/quotas/quotas.service.ts:33-38 | a repeated request changes nothing, and is a conflict with another amount or after a release |
| QuotaOutcomes.ReserveRefusals | apps/api/src/modules/quotas/quotas.service.ts:30-45 | the refusals of a reservation, in their order |
| QuotaOutcomes.SettleOutcome | apps/api/src/modules/quotas/quotas.service.ts:46-56 | an entry is settled once: the same way again does nothing, the other way is a conflict |
| QuotaOutcomes.AdjustmentIsInForce | apps/api/src/modules/quotas/quotas.service.ts:57-76 | an adjustment puts exactly its limit and period in force for one account and kind |
| QuotaOutcomes.AdjustedLimitIsKept | apps/api/src/modules/quotas/quotas.service.ts:57-76 | after it, exactly what fits the new limit in the new window is granted |
| QuotaOutcomes.AdjustRefusals | apps/api/src/modules/quotas/quotas.service.ts:57-73 | the refusals of an adjustment, in their order |
| QuotaWindows.DaysFollowTheCalendar | apps/api/src/modules/quotas/quotas.service.ts:9-17 | a daily window is a day at UTC+8, and a lifetime window has no end |
| QuotaWindows.MonthsFollowTheCalendar | apps/api/src/modules/quotas/quotas.service.ts:9-17 | a monthly window is the Gregorian calendar month at UTC+8, leap years included |
| ReviewEngine.DecideReviewProgress | apps/api/src/modules/v11/review-engine.ts:142-177 | computes the consensus decision |
| ReviewEngine.ProgressOfTwo | apps/api/src/modules/v11/review-engine.ts:154-162 | decides between averaging two runs and asking for a third |
| ReviewEngine.ProgressOfThree | apps/api/src/modules/v11/review-engine.ts:164-176 | decides between the median of three runs and a hold |
| ReviewEngine.CheckFactsAgree | apps/api/src/modules/v11/review-engine.ts:50-62 | true exactly when every dimension has a definite claim that is stated at least twice |
| ReviewEngine.DefiniteCounts | apps/api/src/modules/v11/review-engine.ts:52-59 | counts each definite claim of a dimension over all runs |
| ReviewEngine.ExplicitFactContradictions | apps/api/src/modules/v11/review-engine.ts:66-80 | collects exactly the keys that are claimed both present and absent |
| ReviewEngine.SoftConflictsHaveMajority | apps/api/src/modules/v11/review-engine.ts:90-100 | true exactly when one side has at least two runs |
| ReviewEngine.TakeMedians | apps/api/src/modules/v11/review-engine.ts:169-174 | takes the anchor that two of three runs gave on every dimension, or finds the first dimension without one |
| ReviewEngine.RatingMajority | apps/api/src/modules/v11/review-engine.ts:164-167 | finds the rating that two of three runs gave, if there is one |
| ReviewEngine.ScoreSpread | apps/api/src/modules/v11/review-engine.ts:145-146 | true exactly when two scores are more than ten apart |
| ReviewEngine.RatingSpread | apps/api/src/modules/v11/review-engine.ts:147-147 | true exactly when two ratings are two levels apart |
| ReviewEngine.MaxAnchorDifference | apps/api/src/modules/v11/review-engine.ts:156-156 | the largest difference between the anchors of two runs: no dimension has a larger one, and some dimension has it |
| ReviewTheorems.DecideIgnoresOrder | apps/api/src/modules/v11/review-engine.ts:142-177 | for every permutation of any list of runs, with any claims, the decision is identical: action, reason, method, anchors, score and rating |
| ReviewTheorems.AveragingKeepsVerdict | apps/api/src/modules/v11/review-engine.ts:154-160 | when two scored runs are averaged, the adopted rating is the rating of both, and the rounded total lies between their scores and within 0..100 |
| ReviewTheorems.AverageScoreBetween | apps/api/src/modules/v11/review-engine.ts:41-43 | the rounded score of averaged anchors lies between the two scores |
| ReviewTheorems.ThreeRunsSettle | apps/api/src/modules/v11/review-engine.ts:164-176 | with three runs the engine only adopts or holds, never for want of a rating majority, and on adoption at least two runs gave every anchor and the rating |
| ReviewTheorems.EngineErrors | apps/api/src/modules/v11/review-engine.ts:143-144 | with anchors in range the engine fails exactly for a fourth run |
| ReviewTheorems.AdoptionImpliesAgreement | apps/api/src/modules/v11/review-engine.ts:45-100 | adoption by two or three runs without repeated claims means that every dimension has a definite claim of two different runs, no hard key is opposed, a soft conflict is outvoted two to one, and clear never meets confirmed |
| ReviewTheorems.SingleAdoptionIsRobust | apps/api/src/modules/v11/review-engine.ts:21-35 | a score adopted after one run keeps its rating when it is off by two points either way |
| ReviewTheorems.DetectFirstRunContradiction | apps/api/src/modules/v11/review-engine.ts:102-112 | finds exactly the runs that contradict themselves on a hard claim, or whose first audio claim contradicts the file |
| ReviewTheorems.CompleteResultIsScored | apps/api/src/modules/v11/content-scoring.ts:60-102 | every complete scoring result is a run whose score and rating are those of its anchors, which is what the other results assume of a complete run |
| ReviewOutcomes.GuardOutcome | apps/api/src/modules/v11/review-engine.ts:145-152 | each hold for distance, facts and compliance, and the third review for a soft conflict, is returned exactly under its own condition when none before it applies |
| ReviewOutcomes.PairIsAdopted | apps/api/src/modules/v11/review-engine.ts:154-162 | two runs are adopted exactly when the ratings are equal, the scores differ by at most five points and every anchor by at most one, every dimension has a definite claim stated twice, no claim is opposed and clear does not meet confirmed |
| ReviewOutcomes.PairOutcome | apps/api/src/modules/v11/review-engine.ts:154-162 | two compatible runs that are not adopted get a third review, for their anchors exactly if some differ by two, and as unstable otherwise |
| ReviewOutcomes.PairIsAveraged | apps/api/src/modules/v11/review-engine.ts:158-160 | what is adopted is the average of the anchors, with the score and rating these have |
| ReviewOutcomes.TripleIsAdopted | apps/api/src/modules/v11/review-engine.ts:164-176 | three runs are adopted exactly with the anchors that two of them gave, the score and rating these have, if two of them gave that rating, the facts are stated twice and nothing forbids it |
| ReviewOutcomes.FactsOutcome | apps/api/src/modules/v11/review-engine.ts:164-168 | three compatible runs are held for their facts exactly if these are not stated twice, and never for want of a rating majority |
| ReviewOutcomes.AnchorOutcome | apps/api/src/modules/v11/review-engine.ts:169-174 | they are held for an anchor exactly at the first dimension on which all three differ |
| ReviewOutcomes.BackendOutcome | apps/api/src/modules/v11/review-engine.ts:175-176 | they are held for the rating exactly if two of them did not give the one of the agreed anchors |
| ReviewOutcomes.AdoptedAreNear | apps/api/src/modules/v11/review-engine.ts:145-147 | adopted runs are all within ten points and one rating of each other |
| CompletionOutcomes.SingleRunOutcome | apps/api/src/modules/v11/review-engine.ts:21-35 | a single run is trusted exactly when fifty pilots are in, it is no appeal and no sample, not of the best rating, at odds neither with itself, nor with the file, nor by more than five points with the last comparable score, and no score within two points rates differently |
| CompletionOutcomes.FirstStateIsFirst | apps/api/src/modules/v11/review-engine.ts:94-112 | of several claims of a kind the first one is read |
| ContentScoring.CalculateContentScore | apps/api/src/modules/v11/content-scoring.ts:60-102 | every list is scored, found incomplete or refused exactly as its observations demand |
| ContentScoring.ScoreDefinitions | apps/api/src/modules/v11/content-scoring.ts:69-86 | collects the unknown dimensions and the points of the observed ones, or the first invalid anchor |
| ContentScoring.EpsilonIsHarmless | apps/api/src/modules/v11/content-scoring.ts:56-58 | adding the machine epsilon before rounding never changes the score of integer anchors |
| ContentScoring.EarnedIsWeightTimesAnchorOverFour | apps/api/src/modules/v11/content-scoring.ts:84-84 | a dimension earns its weight times the anchor over four |
| ContentScoring.IntegerAnchorsScore | apps/api/src/modules/v11/content-scoring.ts:84-91 | in tenths, the score of integer anchors is (25*m+1)/2 rounded down, where m is the sum of the anchors with the weights divided by five, and anchors within 0..4 get a rating |
| ReviewTheorems.AveragedAnchorsScore | apps/api/src/modules/v11/review-engine.ts:41-43 | in tenths, the score of two averaged runs is (25*k+2)/4 rounded down, where k is the sum of their weighted sums |
| ContentScoring.ScoreInRange | apps/api/src/modules/v11/content-scoring.ts:46-58 | anchors within 0..4 score within 0..100, and so always get a rating |
| ContentScoring.RatingMonotone | apps/api/src/modules/v11/content-scoring.ts:46-54 | a higher score never gets a worse rating |
| ContentScoring.AnchorsAreWhole | apps/api/src/modules/v11/content-scoring.ts:77-79 | the anchors accepted are exactly the whole numbers from zero to four |
| ContentScoring.UnitsOfDimensions | apps/api/src/modules/v11/content-scoring.ts:4-13 | the dimensions count four, four, three, three, two, two, one and one |
| ContentScoring.RatingsByScore | apps/api/src/modules/v11/content-scoring.ts:46-54 | the scores from which each rating is given |
| ContentScoring.ScoringIgnoresOrder | apps/api/src/modules/v11/content-scoring.ts:64-97 | the order in which the observations are listed does not matter |
| DataRating.RatingFor | apps/api/src/modules/v11/data-rating-engine.ts:39-46 | finds the best grade whose threshold the value meets, or reports disordered thresholds |
| DataRating.RatingMonotone | apps/api/src/modules/v11/data-rating-engine.ts:39-46 | with ordered thresholds a better value never gets a worse grade, in both directions |
| DataRating.RatingByThreshold | apps/api/src/modules/v11/data-rating-engine.ts:41-43 | a value earns at least the grade of every threshold it meets, and no better one |
| DataRating.ThresholdsAreChecked | apps/api/src/modules/v11/data-rating-engine.ts:30-37 | thresholds are accepted exactly when all six are finite and none is better than any before it |
| DataRating.ThresholdsAreInclusive | apps/api/src/modules/v11/data-rating-engine.ts:39-46 | a value that meets a threshold exactly has met it, whichever direction is better |
| DataRating.GuardsCompare | apps/api/src/modules/v11/data-rating-engine.ts:48-54 | which comparisons a value below, at and above the bound of a guard meets |
| DataRating.ObservedDaysCount | apps/api/src/modules/v11/data-rating-engine.ts:72-75 | part of a day counts as a day, and a missing date as none |
| DataRating.ApplyGuards | apps/api/src/modules/v11/data-rating-engine.ts:79-86 | the guard loop ends with the worst of the base grade and the caps of all matching guards, and records strictly worsening caps of matching guards |
| DataRating.GuardOrderIrrelevant | apps/api/src/modules/v11/data-rating-engine.ts:80-86 | the final grade is the same in whatever order the guards come |
| DataRating.WorseningBound | apps/api/src/modules/v11/data-rating-engine.ts:79-86 | at most six caps are ever recorded |
| DataRating.CalculateDataRating | apps/api/src/modules/v11/data-rating-engine.ts:56-88 | either the first reason for insufficient data, or the worst of the threshold grade and all matching caps |
| DataRating.MissingMeaning | apps/api/src/modules/v11/data-rating-engine.ts:68-69 | the reported metrics are exactly the required ones without a finite value |
| CanonicalTheorems.CanonicalTextDecidesEquality | apps/api/src/modules/v11/provenance.ts:10-17 | two values with distinct keys and no array of a lone undefined, JSON trees among them, print the same canonical text exactly when they are equal up to the order of object members |
| CanonicalBoundary.CanonicalTextDecidesCollapsed | apps/api/src/modules/v11/provenance.ts:10-17 | two values with distinct keys print the same text exactly when they are equal up to the order of members once every array of a lone undefined is read as an empty one |
| CanonicalBoundary.LoneUndefinedCollides | apps/api/src/modules/v11/provenance.ts:11-12 | reading arrays of a lone undefined as empty never changes the text, and changes the value exactly when it holds such an array |
| CanonicalTheorems.TreeIsUnambiguous | apps/api/src/modules/v11/provenance.ts:10-17 | a JSON tree holds no array of a lone undefined |
| CanonicalTheorems.ReadBack | apps/api/src/modules/v11/provenance.ts:16-16 | a quoted string, escaped as in section 7 of RFC 8259, reads back to itself |
| CanonicalTheorems.QuoteUnique | apps/api/src/modules/v11/provenance.ts:16-16 | a quoted string is the only one that its text can start with |
| CanonicalTheorems.ValueUnique | apps/api/src/modules/v11/provenance.ts:10-17 | canonical text is a prefix code: what follows a value cannot be mistaken for part of it |
| CanonicalTheorems.SameText | apps/api/src/modules/v11/provenance.ts:13-16 | equal trees print the same text whatever the order of their members |
| CanonicalTheorems.UndefinedItemCollides | apps/api/src/modules/v11/provenance.ts:11-12 | the smallest collision: an array of a lone undefined prints like an empty one |
| CanonicalTheorems.CanonicalForm | apps/api/src/modules/v11/provenance.ts:10-17 | brackets or braces around the parts, commas between them, members as a quoted key, a colon and a value in the order of the keys |
| CanonicalTheorems.EscapeLengths | apps/api/src/modules/v11/provenance.ts:16-16 | seven characters have a short escape, other controls and lone surrogates the long one of section 7 of RFC 8259, and all others stand for themselves |
| HistoryPaging.WalkDelivers | apps/api/src/modules/result-metrics/result-metrics.service.ts:179-221 | the pages of any walk concatenate to a prefix of the (createdAt desc, id desc) order, even if newer snapshots arrive during the walk |
| HistoryPaging.WalkContinues | apps/api/src/modules/result-metrics/result-metrics.service.ts:179-221 | a cursor handed out is accepted by the next request, and the walk goes on |
| HistoryPaging.WalkIsComplete | apps/api/src/modules/result-metrics/result-metrics.service.ts:179-221 | a walk whose last page has no cursor has delivered every row of the first table exactly once and in order, on exactly as many pages as the page size demands |
| HistoryPaging.RestIsOlder | apps/api/src/modules/result-metrics/result-metrics.service.ts:190-202 | the rows older than the cursor are exactly the rest of the order |
| HistoryPaging.FirstPageIsNewest | apps/api/src/modules/result-metrics/result-metrics.service.ts:189-221 | the first page holds the newest rows, latest first and by identifier among simultaneous ones, as many as asked for or twenty, and a cursor exactly if there are more |
| HistoryPaging.NextPageIsOlder | apps/api/src/modules/result-metrics/result-metrics.service.ts:189-221 | a page from a cursor holds the newest of the rows that are older than the cursor's row, latest first and by identifier among simultaneous ones |
| HistoryPaging.UnknownCursor | apps/api/src/modules/result-metrics/result-metrics.service.ts:179-187 | a cursor is refused exactly if no row has it |
| StatusPolling.NextValid | apps/web/src/lib/status-polling.ts:39-83 | every event keeps the poller's invariant |
| StatusPolling.PollerIsSafe | apps/web/src/lib/status-polling.ts:39-83 | in every interleaving at most one request is in flight, while running exactly one of request and poll timer is pending, errors stay below the maximum, and at most one ending callback is made, as the last one |
| StatusPolling.StoppedIsSilent | apps/web/src/lib/status-polling.ts:40-40 | a stopped poller makes no further callback |
| StatusPolling.EndingStops | apps/web/src/lib/status-polling.ts:41-77 | an ending callback leaves the poller stopped |
| StatusPolling.NoLateRequest | apps/web/src/lib/status-polling.ts:41-45 | no request is started after the maximum duration |
| StatusPolling.RunValid | apps/web/src/lib/status-polling.ts:4-87 | every reachable poller state is valid |
| StatusPolling.Poller.BeginTick | apps/web/src/lib/status-polling.ts:39-49 | starts a request, pauses with a timeout, or does nothing |
| StatusPolling.Poller.LoadFails | apps/web/src/lib/status-polling.ts:53-70 | counts the error, pauses at the maximum, and schedules the next poll unless stopped |
| StatusPolling.Poller.LoadSucceeds | apps/web/src/lib/status-polling.ts:63-78 | delivers the value, and ends on a terminal one |
| StatusPolling.Poller.OnVisibility | apps/web/src/lib/status-polling.ts:79-83 | polls at once when the page becomes visible |
| StatusPolling.Poller.StopPolling | apps/web/src/lib/status-polling.ts:32-38 | cancels the timers and stops listening |
| StatusPolling.Poller.Deliver | apps/web/src/lib/status-polling.ts:39-86 | every event has the effect of its transition |
| PollerOutcomes.StartOutcome | apps/web/src/lib/status-polling.ts:84-86 | the first poll is due at once |
| PollerOutcomes.ValueOutcome | apps/web/src/lib/status-polling.ts:62-77 | a value resets the errors and is delivered; a terminal one ends the polling with its callback, any other leaves exactly the next poll pending, later while the page is hidden |
| PollerOutcomes.ErrorOutcome | apps/web/src/lib/status-polling.ts:52-70 | an error is counted and reported, and the next poll scheduled |
| PollerOutcomes.LastErrorOutcome | apps/web/src/lib/status-polling.ts:52-60 | the last error allowed pauses the polling with its callback |
| PollerOutcomes.TimerOutcome | apps/web/src/lib/status-polling.ts:39-49 | a poll that is due starts one request with its own time limit, or pauses after the longest duration |
| PollerOutcomes.VisibilityOutcome | apps/web/src/lib/status-polling.ts:79-83 | a page that becomes visible polls at once unless a request is in flight |
| PollerOutcomes.CallerStopOutcome | apps/web/src/lib/status-polling.ts:32-38 | the stop of the caller ends everything without a callback |
| WorkflowTheorems.EventIsSound | apps/api/src/modules/v11/v11-content.service.ts:171-549 | every transaction of the workflow and the queue keeps the invariant of the whole database, rewrites no history, and is to the queue a few of its own transactions |
| WorkflowTheorems.UnfoldInv | apps/api/src/modules/v11/v11-content.service.ts:171-549 | the invariant holds in every state that any sequence of events reaches |
| WorkflowTheorems.EmptyDbInv | apps/api/src/modules/v11/v11-content.service.ts:171-248 | an empty database satisfies the invariant |
| WorkflowTheorems.UnfoldIsExecution | apps/api/src/modules/v11/v11-content.service.ts:171-549 | every run of the whole system is a run of the queue under the same clock, so what holds of the queue's runs holds here |
| WorkflowTheorems.LostInEveryRun | apps/api/src/modules/evaluation-jobs/evaluation-jobs.service.ts:176-251 | with a lost lease nothing can be begun, completed, failed, marked, renewed or finished after any run of the whole system |
| WorkflowTheorems.HistoryIsKept | apps/api/src/modules/v11/v11-content.service.ts:498-511 | decisions, closed runs and superseded revisions survive every run unchanged |
| WorkflowTheorems.TriggerQueuesAtMostOne | apps/api/src/modules/v11/v11-content.service.ts:249-324 | a trigger that goes through either finds an unfinished or adopted formal group with the same owner and fingerprint and leaves queue and ledger as they are, or queues exactly one job for the first run and adds exactly one reserved evaluation to the ledger |
| TriggerOutcomes.TriggerRefusals | apps/api/src/modules/v11/v11-content.service.ts:112-122 | a trigger is refused without the feature, for a formal evaluation in shadow mode, for a missing video and without permission |
| TriggerOutcomes.HeldRevisionIsRefused | apps/api/src/modules/v11/v11-content.service.ts:198-207 | a formal trigger on a formal revision that waits for its decision is a conflict if anything but a single instability hold is open on it |
| TriggerOutcomes.UnstableRevisionIsRetried | apps/api/src/modules/v11/v11-content.service.ts:190-227 | with a single instability hold it is never a conflict: the revision makes way for a formal one with the next number, and nothing of the old one changes |
| TriggerOutcomes.OtherModeIsCutOver | apps/api/src/modules/v11/v11-content.service.ts:228-239 | a trigger in the other mode closes exactly the unfinished work of the revision and puts one in the mode asked for in its place, whatever holds it |
| TriggerOutcomes.SameModeIsKept | apps/api/src/modules/v11/v11-content.service.ts:228-248 | in every other case the current revision, its runs, groups and holds stay as they are |
| TriggerOutcomes.FirstTriggerStarts | apps/api/src/modules/v11/v11-content.service.ts:240-248 | a video without a current revision gets number 1 in the mode asked for |
| TriggerOutcomes.TriggerGroup | apps/api/src/modules/v11/v11-content.service.ts:249-324 | a formal trigger reuses a group of the same owner and fingerprint that is open or adopted if there is one; every other opens a group with its first run and its job on the current revision, two attempts for a formal one and one for a pilot |
| WorkflowTheorems.AdoptionGoesThrough | apps/api/src/modules/v11/v11-content.service.ts:372-534 | the completion of a live formal run whose reviews the engine would adopt succeeds exactly when, before it, the gate is unused or something other than the appeal of the group holds the revision (for a verdict that is not clear: the gate is unused and no compliance check is open), and otherwise fails on a constraint |
| WorkflowTheorems.NoSecondDecision | apps/api/src/modules/v11/v11-content.service.ts:523-533 | on a revision that has passed its gate and that nothing holds, every completion that would adopt fails, whichever run of the group it completes |
| WorkflowWitness.SecondDecisionFails | apps/api/src/modules/v11/v11-content.service.ts:372-534 | a state with the invariant in which a second formal group runs on a revision that has passed its gate, the engine would adopt it, and its completion fails |
| CompletionOutcomes.AdoptionOutcome | apps/api/src/modules/v11/v11-content.service.ts:496-534 | an adopted completion records the verdict for all runs of the group, confirmed exactly if one of them is and clear exactly if all are; only then is the gate approved or sent back, by the rating, and otherwise gate, group and revision are on hold; the appeal of the group is resolved with its hold |
| CompletionOutcomes.EveryDecisionIsBacked | apps/api/src/modules/v11/v11-content.service.ts:496-512 | in every reachable state every decision has the rating and the compliance that its source runs support |
| CompletionOutcomes.PilotOutcome | apps/api/src/modules/v11/v11-content.service.ts:387-401 | a pilot is completed exactly if input and answer are complete, and nothing is decided or held |
| CompletionOutcomes.IncompleteOutcome | apps/api/src/modules/v11/v11-content.service.ts:402-410 | an incomplete formal answer puts the revision on hold for its input, unless it already is |
| CompletionOutcomes.HoldOutcome | apps/api/src/modules/v11/v11-content.service.ts:486-495 | runs that cannot be reconciled put the revision on hold for instability, unless it already is |
| CompletionOutcomes.NextReviewOutcome | apps/api/src/modules/v11/v11-content.service.ts:463-485 | when another review is wanted, the run with the next number is pending with a job of two attempts for the same account, and the group is under review |
| WorkflowOutcomes.BeginOutcome | apps/api/src/modules/v11/v11-content.service.ts:338-344 | a run is started by the holder of a live lease while its revision is current, at most six times in its group |
| WorkflowOutcomes.FailOutcome | apps/api/src/modules/v11/v11-content.service.ts:540-548 | a technical failure closes the job as failed, fails a live run, and fails its group unless that is under review or closed |
| WorkflowOutcomes.RecoverOutcome | apps/api/src/modules/evaluation-jobs/evaluation-jobs.service.ts:276-319 | recovery ends the job as the queue demands, and fails the run exactly when the job is given up |
| WorkflowOutcomes.AppealRefusals | apps/api/src/modules/v11/v11-workflow.service.ts:16-25 | an appeal needs a visible active video, a decision of that video on its current revision, and no open appeal |
| WorkflowOutcomes.AppealOutcome | apps/api/src/modules/v11/v11-workflow.service.ts:26-35 | it closes the work of the decided revision, an adopted group included, and reruns the input of the decided group on a revision of its own |
| WorkflowOutcomes.ResolveOutcome | apps/api/src/modules/v11/v11-workflow.service.ts:94-103 | the open appeal of an active video and the appeal holds of its revision get the same answer, and nothing else changes |
| WorkflowOutcomes.ManualHoldOutcome | apps/api/src/modules/v11/v11-workflow.service.ts:59-68 | the current revision is put on a manual hold, once |
| WorkflowOutcomes.ResumeOutcome | apps/api/src/modules/v11/v11-workflow.service.ts:75-87 | resuming resolves a manual hold exactly if it is the only open hold |
| WorkflowTheorems.DecidedRevisionIsReused | apps/api/src/modules/v11/v11-content.service.ts:173-248 | once the current revision has a decision, every formal trigger keeps working on that revision, however the input has changed |
| WorkflowPayments.EventPays | apps/api/src/modules/v11/v11-content.service.ts:171-549 | every transaction keeps it so that each run that has succeeded has a job that has succeeded for it |
| WorkflowPayments.UnfoldPays | apps/api/src/modules/v11/v11-content.service.ts:171-549 | the same in every state that any sequence of events reaches |
| WorkflowPayments.PaidIsChargedOnce | apps/api/src/modules/v11/v11-content.service.ts:399-537 | a run with such a job has no other job, and the entry of that job is committed with amount one |
| WorkflowPayments.DecisionsArePaidFor | apps/api/src/modules/v11/v11-content.service.ts:498-511 | after any run of the whole system, every source run of every decision was charged exactly once: one job, one committed entry |
| WorkflowClosing.CompleteCloses | apps/api/src/modules/v11/v11-content.service.ts:399-537 | a completion that goes through closes the job it was made with as succeeded, and no other run than its own succeeds with it |
| WorkflowClosing.FailCloses | apps/api/src/modules/v11/v11-content.service.ts:540-548 | a recorded failure closes its job as failed, and no run succeeds with it |
| WorkflowCompletion.BoundIsNotStale | apps/api/src/modules/v11/v11-content.service.ts:376-381 | the branch for a revision that is no longer current is never taken: the check before it has refused such a run |
| WorkflowHistory.TriggerHistory | apps/api/src/modules/v11/v11-content.service.ts:171-330 | a trigger leaves the decisions as they are, and freezes the revision it supersedes |
| WorkflowHistory.CompleteHistory | apps/api/src/modules/v11/v11-content.service.ts:372-538 | a completion writes a decision and its pointer only on a revision that is current before and after |
| WorkflowHistory.AppealHistory | apps/api/src/modules/v11/v11-workflow.service.ts:18-38 | an appeal leaves the decisions as they are, and freezes the revision it supersedes |
| WorkflowInvariant.RevisionsAreConsecutive | apps/api/src/modules/v11/v11-content.service.ts:208-248 | the revisions of a video are exactly 1..n with only n current |
| WorkflowInvariant.OneCurrent | apps/api/src/modules/v11/v11-content.service.ts:173-179 | the current revision of a video is unique |
| WorkflowInvariant.OneLiveRunPerVideo | apps/api/src/modules/v11/v11-content.service.ts:301-324 | at most one run of a video is pending or running |
| WorkflowInvariant.EarlierRunsAreUsable | apps/api/src/modules/v11/v11-content.service.ts:463-485 | the runs of a group are numbered consecutively up to at most three, and all but the last succeeded with a complete answer |
| WorkflowInvariant.DecidedGroupsAreDone | apps/api/src/modules/v11/v11-content.service.ts:463-512 | a decided group has no run beyond its source runs, and none that is live |
| WorkflowInvariant.DecisionsAreBacked | apps/api/src/modules/v11/v11-content.service.ts:496-510 | one or two source runs all gave the recorded rating, of three at least two did, an appeal is never decided by one run, a single run is only trusted below the best rating, without a hard contradiction and with a score that two points either way would not move to another rating; the decision is confirmed exactly if a source run is, and clear exactly if all are |
| WorkflowInvariant.AppealMirrorsHold | apps/api/src/modules/v11/v11-workflow.service.ts:33-34 | an appeal is active exactly while its appeal hold is |
| WorkflowSteps.NextNumbers | apps/api/src/modules/v11/v11-content.service.ts:208-239 | superseding the current revision by one with the next number keeps 1..n with only n current |
| WorkflowSteps.FirstRevisionNumbers | apps/api/src/modules/v11/v11-content.service.ts:240-248 | a video without a current revision has none at all and starts with number 1 |
| WorkflowSteps.ResolvedTogether | apps/api/src/modules/v11/v11-workflow.service.ts:99-100 | resolving an appeal and its hold the same way keeps the two in step |
| WorkflowEvents.TriggerKeeps | apps/api/src/modules/v11/v11-content.service.ts:171-330 | a trigger, be it new, retried after instability, cut over or a duplicate, keeps the invariant |
| WorkflowEvents.WorkflowForOk | apps/api/src/modules/v11/v11-content.service.ts:173-248 | the revision a trigger works on is the current one afterwards |
| WorkflowEvents.BeginKeeps | apps/api/src/modules/v11/v11-content.service.ts:338-344 | starting a run keeps the invariant |
| WorkflowEvents.FailKeeps | apps/api/src/modules/v11/v11-content.service.ts:540-548 | a technical failure keeps the invariant, leaves the job failed and without a lease, fails its run if that was live, and touches no other run |
| WorkflowEvents.RecoverKeeps | apps/api/src/modules/evaluation-jobs/evaluation-jobs.service.ts:276-320 | recovery always goes through and closes an abandoned run with its job |
| WorkflowEvents.AppealKeeps | apps/api/src/modules/v11/v11-workflow.service.ts:18-38 | an appeal keeps the invariant; the decided revision is superseded by the next number with no live run left on it, and the new group with its pending run, the appeal, its hold and one queued job appear together |
| WorkflowEvents.HoldKeeps | apps/api/src/modules/v11/v11-workflow.service.ts:59-69 | a manual hold keeps the invariant |
| WorkflowEvents.ResumeKeeps | apps/api/src/modules/v11/v11-workflow.service.ts:75-87 | resuming keeps the invariant |
| WorkflowEvents.ResolveKeeps | apps/api/src/modules/v11/v11-workflow.service.ts:94-103 | resolving or rejecting an appeal keeps the invariant |
| WorkflowCompletion.CompleteKeeps | apps/api/src/modules/v11/v11-content.service.ts:372-538 | every way a completion can go keeps the invariant |
| WorkflowCompletion.SucceededAreAll | apps/api/src/modules/v11/v11-content.service.ts:385-385 | once a live run has succeeded, the succeeded runs of its group are all its runs, 1..n |
| WorkflowCompletion.EngineAnswers | apps/api/src/modules/v11/v11-content.service.ts:439-462 | the engine never fails on the runs of a group, and asks for another run only after the first or second |
| WorkflowCompletion.UndecidedWhileLive | apps/api/src/modules/v11/v11-content.service.ts:498-510 | a group with a live run has no decision yet |
| WorkflowTraces.CompleteSteps | apps/api/src/modules/v11/v11-content.service.ts:399-537 | a completion is to the queue a finish, followed by an enqueue when another run is needed |
| V11ContentService.V11Content.Trigger | apps/api/src/modules/v11/v11-content.service.ts:171-330 | has the effect of the trigger transaction or changes nothing, and keeps the invariant |
| V11ContentService.V11Content.PrepareWorkflow | apps/api/src/modules/v11/v11-content.service.ts:173-248 | finds, retries, cuts over or creates the revision to work on, or refuses a held one |
| V11ContentService.V11Content.Begin | apps/api/src/modules/v11/v11-content.service.ts:338-344 | has the effect of starting a bound run within the attempt limit, or changes nothing |
| V11ContentService.V11Content.Complete | apps/api/src/modules/v11/v11-content.service.ts:372-538 | has the effect of the completion transaction or changes nothing, and keeps the invariant |
| V11ContentService.V11Content.SucceededRuns | apps/api/src/modules/v11/v11-content.service.ts:385-385 | collects the succeeded runs of a group by number |
| V11ContentService.V11Content.Progressed | apps/api/src/modules/v11/v11-content.service.ts:432-462 | asks the first-run check or the engine |
| V11ContentService.V11Content.AdoptRows | apps/api/src/modules/v11/v11-content.service.ts:496-533 | records the decision, points the revision to it, resolves the appeal and passes the gate |
| V11ContentService.V11Content.GateRows | apps/api/src/modules/v11/v11-content.service.ts:517-534 | approves, sends back or holds the revision, at most once |
| V11ContentService.V11Content.ContinueRunRows | apps/api/src/modules/v11/v11-content.service.ts:463-485 | finishes the job and queues the next run of the group |
| V11ContentService.V11Content.Fail | apps/api/src/modules/v11/v11-content.service.ts:540-548 | has the effect of the failure transaction, or changes nothing when the lease is gone |
| V11ContentService.V11Content.Mark | apps/api/src/modules/evaluation-jobs/evaluation-jobs.service.ts:223-244 | marks a run's job only if the lease is live and the run is live on the current revision, changes nothing otherwise, and keeps the invariant |
| V11ContentService.V11Content.ExecuteJob | apps/api/src/modules/v11/v11-content.service.ts:334-550 | begins, marks, asks and records, or fails, with exactly the effects of these transactions; when it returns normally the run was not live or the job is closed and its lease gone |
| V11ContentService.FirstGapIsTheEnd | apps/api/src/modules/v11/v11-content.service.ts:385-385 | the first missing run number ends the group |
| V11WorkflowService.V11Workflow.FileAppeal | apps/api/src/modules/v11/v11-workflow.service.ts:18-38 | has the effect of the appeal transaction or changes nothing, and keeps the invariant |
| V11WorkflowService.V11Workflow.Hold | apps/api/src/modules/v11/v11-workflow.service.ts:59-69 | has the effect of placing a manual hold or changes nothing |
| V11WorkflowService.V11Workflow.Resume | apps/api/src/modules/v11/v11-workflow.service.ts:75-87 | has the effect of resuming or changes nothing |
| V11WorkflowService.V11Workflow.ResolveAppeal | apps/api/src/modules/v11/v11-workflow.service.ts:94-103 | has the effect of resolving an appeal or changes nothing |

## Left out

- Model calls, storage, media probing, hashing, HTTP, validation of requests, permissions, and the content, result and final stages' own tables: input and output, or code of other components. Their executors appear as a script of what they do with the lease.
- Rows that only report: operation logs, worker names, failure categories, model and token columns of usage records, raw responses, and the status column of videos.
- Input revisions as rows of their own: a group carries the fingerprint and completeness of its input, and the unique index on active groups of one input is not modelled.
- The count of pilot samples, the latest comparable score and the audio flag of the media manifest are arguments of the first-run check, not queries.
- Interleaving inside a transaction, SKIP LOCKED and isolation levels: a transaction is one step, and locked rows are arguments. Renewals by a timer while a stage executes are covered by the theorems over all runs, not by the method of the worker.
- Rounding of timestamps to milliseconds, and the difference between the application's clock and the database's.
- Floating point: sums of weighted anchors are exact in tenths; the difference of two scores is taken exactly.
- Dashboards, statistics, exports, the rule and comprehensive matrices, the final gate and the user interface: finite tables, queries or display.
- Sequences of events in which a caller queues V1.1 jobs outside the trigger, appeal and completion transactions: no code does.
- CanonicalTheorems.CanonicalTextDecidesEquality: numbers are taken as their printed text, and the comparison of keys is any strict total order, because the locale's comparison is a library.
- StatusPolling.PollerIsSafe: callbacks are assumed not to stop the poller themselves, and the maximum number of errors to be at least one.
- HistoryPaging.WalkDelivers: the latest flag and the formatting of a row are not part of a page.
- EvaluationWorker.Worker.ExecuteOnce: the sweep of upload tickets and the heartbeats of the process are not part of a pass.
- V11ContentService.V11Content.ExecuteJob: the parsing of the answer and the evidence checks are the difference between an answer and a failed model.
- QueueProgress.BoundedBypass: the clock is assumed to be past the job's scheduled time, strictly, and only claims that did not find the job's own video locked are counted.
