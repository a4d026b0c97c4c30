// The durable evaluation queue: jobs, attempts with fencing tokens, usage
// records and the quota entries that follow them. Each operation is the effect
// of one database transaction at a given time of the database clock; an
// operation that is refused, or rolled back, changes nothing.
module QueueModel {
  import opened Basics
  import opened QuotaModel

  datatype Stage = Content | ResultStage | Final | V11Content

  // The evaluation a job works on. A V1.1 run is identified by its group and number.
  datatype Target = Review(id: Id) | Run(groupId: Id, runNumber: nat)

  datatype JobStatus = Queued | Running | RetryWait | Succeeded | Failed | NeedsAttention

  datatype FailureCode =
    | LeaseExpiredBeforeExternal | RetryExhausted | ExternalResultUncertain
    | EvaluationFailed | LegacyExternalResultUncertain

  datatype Job = Job(
    videoId: Id, actorId: Id, stage: Stage, target: Target, revisionId: Id,
    status: JobStatus, attempts: nat, maxAttempts: nat,
    availableAt: Time, createdAt: Time,
    leaseToken: Option<Id>, leaseExpiresAt: Option<Time>, externalStartedAt: Option<Time>,
    failureCode: Option<FailureCode>, completedAt: Option<Time>, retriedFromId: Option<Id>)

  // Ended carries the terminal status the job got with this attempt.
  datatype Progress = Ongoing | Expired | Ended(status: JobStatus)

  datatype Attempt = Attempt(jobId: Id, number: nat, progress: Progress, externalStartedAt: Option<Time>)

  datatype Usage = Usage(jobId: Id, userId: Id, stage: Stage, progress: Progress)

  // Attempts and usage records are keyed by the attempt's fencing token.
  datatype Queue = Queue(jobs: map<Id, Job>, attempts: map<Id, Attempt>, usage: map<Id, Usage>)

  datatype Core = Core(quota: Quota, queue: Queue)

  datatype QueueError = LeaseLost | JobConflict | JobForbidden | ConstraintViolated | QuotaRefused(quotaError: QuotaError)

  // ------------------------------------------------------------------------
  // Status predicates

  predicate Waiting(j: Job) { j.status == Queued || j.status == RetryWait }

  predicate Active(j: Job) { Waiting(j) || j.status == Running }

  predicate Retryable(j: Job) { j.status == Failed || j.status == NeedsAttention }

  predicate LeaseLive(q: Queue, now: Time, id: Id, token: Id) {
    && id in q.jobs
    && q.jobs[id].status == Running
    && q.jobs[id].leaseToken == Some(token)
    && q.jobs[id].leaseExpiresAt.Some?
    && q.jobs[id].leaseExpiresAt.value > now
  }

  predicate LeaseExpired(q: Queue, now: Time, id: Id) {
    && id in q.jobs
    && q.jobs[id].status == Running
    && q.jobs[id].leaseExpiresAt.Some?
    && q.jobs[id].leaseExpiresAt.value <= now
  }

  // EVALUATION_JOB_LEASE_MS
  function LeaseMilliseconds(configured: Option<int>): (ms: nat)
    ensures 15000 <= ms <= 600000
  {
    if configured.Some? && 15000 <= configured.value <= 600000 then configured.value else 90000
  }

  predicate UsesQuota(stage: Stage) { stage == Content || stage == V11Content }

  function EntryKey(j: Job, id: Id): LedgerKey {
    LedgerKey(j.actorId, ContentEvaluations, ContentKey(id))
  }

  // ------------------------------------------------------------------------
  // enqueue

  datatype JobInput = JobInput(
    videoId: Id, actorId: Id, stage: Stage, target: Target, revisionId: Id, maxAttempts: Option<nat>, refsDurable: bool)

  // An administrator's retry of a finished job.
  datatype Retry = Retry(oldId: Id, administratorActive: bool)

  // ORDER BY created_at DESC, id DESC
  predicate LaterJob(j: Job, id: Id, k: Job, other: Id) {
    j.createdAt > k.createdAt || (j.createdAt == k.createdAt && id > other)
  }

  predicate IsLatest(q: Queue, id: Id)
    requires id in q.jobs
  {
    forall other :: other in q.jobs && other != id
      && q.jobs[other].videoId == q.jobs[id].videoId && q.jobs[other].stage == q.jobs[id].stage
      ==> LaterJob(q.jobs[id], id, q.jobs[other], other)
  }

  predicate HasActive(q: Queue, videoId: Id, stage: Stage) {
    exists id :: id in q.jobs && q.jobs[id].videoId == videoId && q.jobs[id].stage == stage && Active(q.jobs[id])
  }

  predicate TargetTaken(q: Queue, stage: Stage, target: Target) {
    exists id :: id in q.jobs && q.jobs[id].stage == stage && q.jobs[id].target == target
  }

  predicate AlreadyRetried(q: Queue, oldId: Id) {
    exists id :: id in q.jobs && q.jobs[id].retriedFromId == Some(oldId)
  }

  // The retry checks, and the account the job is then run for.
  function RetryActor(c: Core, now: Time, input: JobInput, retry: Option<Retry>): Result<Id, QueueError> {
    if retry.None? then Success(input.actorId)
    else if retry.value.oldId !in c.queue.jobs then Failure(JobConflict)
    else
      var original := c.queue.jobs[retry.value.oldId];
      if original.videoId != input.videoId || original.stage != input.stage || !Retryable(original)
         || !IsLatest(c.queue, retry.value.oldId) || AlreadyRetried(c.queue, retry.value.oldId) then Failure(JobConflict)
      else if !retry.value.administratorActive then Failure(JobForbidden)
      else if original.actorId !in c.quota.users then Failure(QuotaRefused(NotFound))
      else if !IdentityActive(c.quota.users[original.actorId], now) then Failure(QuotaRefused(QuotaError.Forbidden))
      else Success(original.actorId)
  }

  function NewJob(input: JobInput, actorId: Id, now: Time, retry: Option<Retry>): Job {
    Job(input.videoId, actorId, input.stage, input.target, input.revisionId,
        Queued, 0, if input.maxAttempts.Some? then input.maxAttempts.value else 3,
        now, now, None, None, None, None, None,
        if retry.Some? then Some(retry.value.oldId) else None)
  }

  ghost function Enqueue(c: Core, now: Time, id: Id, input: JobInput, retry: Option<Retry>, targetLive: bool, legacy: bool)
    : Result<Core, QueueError>
  {
    var actor := RetryActor(c, now, input, retry);
    if actor.Failure? then Failure(actor.error)
    else if HasActive(c.queue, input.videoId, input.stage) then Failure(JobConflict)
    else if !input.refsDurable then Failure(JobConflict)
    else if !targetLive then Failure(LeaseLost)
    else
      var job := NewJob(input, actor.value, now, retry);
      if job.actorId !in c.quota.users || !(1 <= job.maxAttempts <= 5) || TargetTaken(c.queue, input.stage, input.target)
      then Failure(ConstraintViolated)
      else
        var queue := c.queue.(jobs := c.queue.jobs[id := job]);
        if UsesQuota(input.stage) && !legacy then
          match Reserve(c.quota, now, job.actorId, ContentEvaluations, 1, ContentKey(id))
          case Failure(e) => Failure(QuotaRefused(e))
          case Success(quota) => Success(Core(quota, queue))
        else Success(Core(c.quota, queue))
  }

  // ------------------------------------------------------------------------
  // claim

  // ORDER BY available_at, created_at, id
  predicate Before(j: Job, id: Id, k: Job, other: Id) {
    || j.availableAt < k.availableAt
    || (j.availableAt == k.availableAt && j.createdAt < k.createdAt)
    || (j.availableAt == k.availableAt && j.createdAt == k.createdAt && id < other)
  }

  predicate Candidate(q: Queue, now: Time, locked: set<Id>, id: Id) {
    && id in q.jobs
    && Waiting(q.jobs[id])
    && q.jobs[id].availableAt <= now
    && q.jobs[id].videoId !in locked
  }

  ghost predicate IsHead(q: Queue, now: Time, locked: set<Id>, id: Id) {
    && Candidate(q, now, locked, id)
    && forall other :: Candidate(q, now, locked, other) && other != id ==> Before(q.jobs[id], id, q.jobs[other], other)
  }

  predicate AnyRunning(q: Queue) {
    exists id :: id in q.jobs && q.jobs[id].status == Running
  }

  function ClaimRows(q: Queue, now: Time, id: Id, token: Id, leaseMs: nat): Queue
    requires id in q.jobs
  {
    var job := q.jobs[id];
    var claimed := job.(status := Running, attempts := job.attempts + 1, leaseToken := Some(token),
                        externalStartedAt := None, leaseExpiresAt := Some(now + leaseMs));
    q.(jobs := q.jobs[id := claimed], attempts := q.attempts[token := Attempt(id, claimed.attempts, Ongoing, None)])
  }

  // locked: the videos whose rows another transaction holds. capacityFree: the
  // advisory lock was acquired.
  ghost function ClaimedJob(q: Queue, now: Time, locked: set<Id>, capacityFree: bool): Option<Id> {
    if !capacityFree || AnyRunning(q) then None
    else if exists id :: IsHead(q, now, locked, id) then
      var id :| IsHead(q, now, locked, id);
      Some(id)
    else None
  }

  ghost function Claim(q: Queue, now: Time, token: Id, locked: set<Id>, capacityFree: bool, leaseMs: nat): Queue {
    var id := ClaimedJob(q, now, locked, capacityFree);
    if id.None? then q else ClaimRows(q, now, id.value, token, leaseMs)
  }

  // ------------------------------------------------------------------------
  // heartbeat, external start, finish

  function Heartbeat(q: Queue, now: Time, id: Id, token: Id, leaseMs: nat): Queue {
    if LeaseLive(q, now, id, token) then q.(jobs := q.jobs[id := q.jobs[id].(leaseExpiresAt := Some(now + leaseMs))]) else q
  }

  // The last eligibility check before the billable request.
  predicate ActorMayExecute(c: Core, now: Time, job: Job, ownsVideo: bool) {
    && job.actorId in c.quota.users
    && IdentityActive(c.quota.users[job.actorId], now)
    && (c.quota.users[job.actorId].role == Visitor ==> UsesQuota(job.stage) && ownsVideo)
  }

  function MarkRows(q: Queue, now: Time, id: Id, token: Id): Queue
    requires id in q.jobs && token in q.attempts
  {
    var job := q.jobs[id];
    Queue(q.jobs[id := job.(externalStartedAt := Some(now))],
          q.attempts[token := q.attempts[token].(externalStartedAt := Some(now))],
          if token in q.usage then q.usage else q.usage[token := Usage(id, job.actorId, job.stage, Ongoing)])
  }

  function MarkExternalStarted(c: Core, now: Time, id: Id, token: Id, bindingValid: bool, ownsVideo: bool): Result<Core, QueueError> {
    if !LeaseLive(c.queue, now, id, token) || !bindingValid then Failure(LeaseLost)
    else if !ActorMayExecute(c, now, c.queue.jobs[id], ownsVideo) then Failure(JobForbidden)
    else if token !in c.queue.attempts then Failure(ConstraintViolated)
    else Success(c.(queue := MarkRows(c.queue, now, id, token)))
  }

  function FinishRows(q: Queue, now: Time, id: Id, token: Option<Id>, status: JobStatus, code: Option<FailureCode>): Queue
    requires id in q.jobs && (token.Some? ==> token.value in q.attempts)
  {
    Queue(
      q.jobs[id := q.jobs[id].(status := status, failureCode := code, completedAt := Some(now),
                               leaseExpiresAt := None, leaseToken := None)],
      if token.Some? then q.attempts[token.value := q.attempts[token.value].(progress := Ended(status))] else q.attempts,
      if token.Some? && token.value in q.usage
      then q.usage[token.value := q.usage[token.value].(progress := Ended(status))] else q.usage)
  }

  // Settles the quota entry, then closes the job, its attempt and its usage record.
  function Finish(c: Core, now: Time, id: Id, token: Option<Id>, status: JobStatus, code: Option<FailureCode>): Result<Core, QueueError>
    requires id in c.queue.jobs
  {
    var job := c.queue.jobs[id];
    var settled :=
      if !UsesQuota(job.stage) then Success(c.quota)
      else Settle(c.quota, job.actorId, ContentEvaluations, ContentKey(id),
                  if job.externalStartedAt.Some? || status == Succeeded then Committed else Released);
    match settled
    case Failure(e) => Failure(QuotaRefused(e))
    case Success(quota) =>
      if token.Some? && token.value !in c.queue.attempts then Failure(ConstraintViolated)
      else Success(Core(quota, FinishRows(c.queue, now, id, token, status, code)))
  }

  datatype Outcome = Success' | Failure' | Uncertain'

  function OutcomeStatus(o: Outcome): JobStatus {
    match o case Success' => Succeeded case Failure' => Failed case Uncertain' => NeedsAttention
  }

  function OutcomeCode(o: Outcome): Option<FailureCode> {
    match o case Success' => None case Failure' => Some(EvaluationFailed) case Uncertain' => Some(ExternalResultUncertain)
  }

  function FinishCurrent(c: Core, now: Time, id: Id, token: Id, outcome: Outcome): Result<Core, QueueError> {
    if !LeaseLive(c.queue, now, id, token) then Failure(LeaseLost)
    else Finish(c, now, id, Some(token), OutcomeStatus(outcome), OutcomeCode(outcome))
  }

  // ------------------------------------------------------------------------
  // recovery

  function Power2(n: nat): nat { if n == 0 then 1 else 2 * Power2(n - 1) }

  function Backoff(attempts: nat): nat {
    if 1000 * Power2(attempts) < 60000 then 1000 * Power2(attempts) else 60000
  }

  predicate MustAbandon(j: Job) { j.externalStartedAt.Some? || j.attempts >= j.maxAttempts }

  function RequeueRows(q: Queue, now: Time, id: Id, token: Id): Queue
    requires id in q.jobs && token in q.attempts
  {
    var job := q.jobs[id];
    q.(jobs := q.jobs[id := job.(status := RetryWait, leaseToken := None, leaseExpiresAt := None,
                                 failureCode := Some(LeaseExpiredBeforeExternal), availableAt := now + Backoff(job.attempts))],
       attempts := q.attempts[token := q.attempts[token].(progress := Expired)])
  }

  // One candidate of recoverExpired, rechecked inside its own transaction.
  function RecoverOne(c: Core, now: Time, id: Id, videoLocked: bool): Result<Core, QueueError> {
    if videoLocked || !LeaseExpired(c.queue, now, id) then Success(c)
    else
      var job := c.queue.jobs[id];
      if MustAbandon(job) then
        if job.externalStartedAt.Some? then Finish(c, now, id, job.leaseToken, NeedsAttention, Some(ExternalResultUncertain))
        else Finish(c, now, id, job.leaseToken, Failed, Some(RetryExhausted))
      else if job.leaseToken.None? || job.leaseToken.value !in c.queue.attempts then Failure(ConstraintViolated)
      else Success(c.(queue := RequeueRows(c.queue, now, id, job.leaseToken.value)))
  }

  // A running evaluation without a job gets a job that is closed at once.
  ghost function RecoverOrphan(c: Core, now: Time, id: Id, input: JobInput, stillRunning: bool): Result<Core, QueueError> {
    if TargetTaken(c.queue, input.stage, input.target) || HasActive(c.queue, input.videoId, input.stage) || !stillRunning then Success(c)
    else
      match Enqueue(c, now, id, input, None, true, true)
      case Failure(e) => Failure(e)
      case Success(queued) => Finish(queued, now, id, None, NeedsAttention, Some(LegacyExternalResultUncertain))
  }

  // The first half of releaseAfterExecutionError; recovery does the rest.
  function ExpireNow(q: Queue, now: Time, id: Id, token: Id): Queue {
    if LeaseLive(q, now, id, token) then q.(jobs := q.jobs[id := q.jobs[id].(leaseExpiresAt := Some(0))]) else q
  }

  // ------------------------------------------------------------------------
  // Transactions as operations

  datatype Op =
    | OpEnqueue(id: Id, input: JobInput, retry: Option<Retry>, targetLive: bool)
    | OpOrphan(id: Id, input: JobInput, stillRunning: bool)
    | OpClaim(token: Id, locked: set<Id>, capacityFree: bool, leaseMs: nat)
    | OpHeartbeat(id: Id, token: Id, leaseMs: nat)
    | OpMark(id: Id, token: Id, bindingValid: bool, ownsVideo: bool)
    | OpFinish(id: Id, token: Id, outcome: Outcome)
    | OpRecover(id: Id, videoLocked: bool)
    | OpExpire(id: Id, token: Id)
    | OpQuota(op: QuotaOp)
    | OpAccount(userId: Id, user: User)

  // Identifiers are fresh UUIDs; a legacy orphan is never a V1.1 run; other
  // callers of the ledger use keys of their own.
  predicate WellFormed(c: Core, op: Op) {
    match op
    case OpEnqueue(id, _, _, _) => id !in c.queue.jobs
    case OpOrphan(id, input, _) => id !in c.queue.jobs && input.stage != V11Content && input.maxAttempts.None? && input.refsDurable
    case OpClaim(token, _, _, _) => token !in c.queue.attempts
    case OpQuota(DoReserve(_, _, _, _, key)) => key.TextKey?
    case OpQuota(DoSettle(_, _, key, _)) => key.TextKey?
    case _ => true
  }

  ghost function Effect(c: Core, now: Time, op: Op): Result<Core, QueueError> {
    match op
    case OpEnqueue(id, input, retry, targetLive) => Enqueue(c, now, id, input, retry, targetLive, false)
    case OpOrphan(id, input, stillRunning) => RecoverOrphan(c, now, id, input, stillRunning)
    case OpClaim(token, locked, capacityFree, leaseMs) => Success(c.(queue := Claim(c.queue, now, token, locked, capacityFree, leaseMs)))
    case OpHeartbeat(id, token, leaseMs) => Success(c.(queue := Heartbeat(c.queue, now, id, token, leaseMs)))
    case OpMark(id, token, bindingValid, ownsVideo) => MarkExternalStarted(c, now, id, token, bindingValid, ownsVideo)
    case OpFinish(id, token, outcome) => FinishCurrent(c, now, id, token, outcome)
    case OpRecover(id, videoLocked) => RecoverOne(c, now, id, videoLocked)
    case OpExpire(id, token) => Success(c.(queue := ExpireNow(c.queue, now, id, token)))
    case OpQuota(op) => Success(c.(quota := QuotaStep(c.quota, op)))
    case OpAccount(userId, user) => Success(c.(quota := c.quota.(users := c.quota.users[userId := user])))
  }

  ghost function Step(c: Core, now: Time, op: Op): Core {
    if !WellFormed(c, op) then c
    else match Effect(c, now, op) case Success(after) => after case Failure(_) => c
  }
}
