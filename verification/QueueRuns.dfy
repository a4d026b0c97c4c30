// Runs of the queue under a clock that never goes back: fencing, the frozen end
// of a job, draining, and bounded bypass.
module QueueRuns {
  import opened Basics
  import opened QuotaModel
  import opened QueueModel
  import opened QueueInvariant
  import opened QueueSteps
  import opened QueueSafety

  // ------------------------------------------------------------------------
  // Runs

  datatype Timed = Timed(now: Time, op: Op)

  ghost function Execute(c: Core, steps: seq<Timed>): Core
    decreases |steps|
  {
    if steps == [] then c else Execute(Step(c, steps[0].now, steps[0].op), steps[1..])
  }

  predicate Clocked(from: Time, steps: seq<Timed>)
    decreases |steps|
  {
    steps != [] ==> from <= steps[0].now && Clocked(steps[0].now, steps[1..])
  }

  function EndTime(from: Time, steps: seq<Timed>): Time
    decreases |steps|
  {
    if steps == [] then from else EndTime(steps[0].now, steps[1..])
  }

  // Every reachable state satisfies the invariant.
  lemma {:induction false} RunInv(c: Core, steps: seq<Timed>)
    requires Inv(c)
    ensures Inv(Execute(c, steps))
    decreases |steps|
  {
    if steps != [] {
      StepInv(c, steps[0].now, steps[0].op);
      RunInv(Step(c, steps[0].now, steps[0].op), steps[1..]);
    }
  }

  // ------------------------------------------------------------------------
  // The moves a job row can make

  predicate Claimed(q: Queue, now: Time, j: Job, k: Job) {
    && Waiting(j) && k.status == Running && j.availableAt <= now
    && SameBinding(j, k) && k.attempts == j.attempts + 1
    && k.leaseToken.Some? && k.leaseToken.value !in q.attempts && k.externalStartedAt.None?
  }

  // Renewed, marked or expired by the holder of a live lease.
  predicate Held(now: Time, j: Job, k: Job) {
    && j.status == Running && k.status == Running
    && j.leaseToken.Some? && j.leaseExpiresAt.Some? && j.leaseExpiresAt.value > now
    && SameBinding(j, k) && k.attempts == j.attempts && k.leaseToken == j.leaseToken
    && (j.externalStartedAt.Some? ==> k.externalStartedAt.Some?)
  }

  predicate Closed(j: Job, k: Job) {
    && j.status == Running && !Active(k) && k.leaseToken.None?
    && SameBinding(j, k) && k.attempts == j.attempts && k.externalStartedAt == j.externalStartedAt
  }

  predicate Requeued(now: Time, j: Job, k: Job) {
    && j.status == Running && k.status == RetryWait && k.leaseToken.None?
    && SameBinding(j, k) && k.attempts == j.attempts < j.maxAttempts
    && j.externalStartedAt.None? && k.externalStartedAt.None? && k.availableAt > now
  }

  predicate Moved(q: Queue, now: Time, j: Job, k: Job) {
    k == j || Claimed(q, now, j, k) || Held(now, j, k) || Closed(j, k) || Requeued(now, j, k)
  }

  lemma BackoffIsPositive(attempts: nat)
    ensures 1 <= Backoff(attempts) <= 60000
  {
    PowerIsPositive(attempts);
  }

  lemma {:induction false} PowerIsPositive(n: nat)
    ensures Power2(n) >= 1
  {
    if n != 0 { PowerIsPositive(n - 1); }
  }

  lemma RecoverMoves(c: Core, now: Time, target: Id, videoLocked: bool, id: Id)
    requires id in c.queue.jobs
    ensures RecoverOne(c, now, target, videoLocked).Success? ==>
              var after := RecoverOne(c, now, target, videoLocked).value;
              id in after.queue.jobs && Moved(c.queue, now, c.queue.jobs[id], after.queue.jobs[id])
  {
    if target in c.queue.jobs { BackoffIsPositive(c.queue.jobs[target].attempts); }
  }

  lemma FinishMoves(c: Core, now: Time, target: Id, token: Id, outcome: Outcome, id: Id)
    requires id in c.queue.jobs
    ensures FinishCurrent(c, now, target, token, outcome).Success? ==>
              var after := FinishCurrent(c, now, target, token, outcome).value;
              id in after.queue.jobs && Moved(c.queue, now, c.queue.jobs[id], after.queue.jobs[id])
  {
  }

  lemma InsertionMovesNothing(c: Core, now: Time, op: Op, id: Id)
    requires (op.OpEnqueue? || op.OpOrphan?) && id in c.queue.jobs
    ensures id in Step(c, now, op).queue.jobs && Step(c, now, op).queue.jobs[id] == c.queue.jobs[id]
  {
  }

  // No step does anything else to a job, and no job is ever removed.
  lemma StepMoves(c: Core, now: Time, op: Op, id: Id)
    requires id in c.queue.jobs
    ensures id in Step(c, now, op).queue.jobs
    ensures Moved(c.queue, now, c.queue.jobs[id], Step(c, now, op).queue.jobs[id])
  {
    match op
    case OpEnqueue(_, _, _, _) => InsertionMovesNothing(c, now, op, id);
    case OpOrphan(_, _, _) => InsertionMovesNothing(c, now, op, id);
    case OpFinish(target, token, outcome) => FinishMoves(c, now, target, token, outcome, id);
    case OpRecover(target, videoLocked) => RecoverMoves(c, now, target, videoLocked, id);
    case OpClaim(token, locked, capacityFree, leaseMs) =>
    case OpHeartbeat(_, _, _) =>
    case OpMark(_, _, _, _) =>
    case OpExpire(_, _) =>
    case OpQuota(_) =>
    case OpAccount(_, _) =>
  }

  // Attempts are kept for ever, with their job, their number and their marker.
  lemma StepKeepsAttempts(c: Core, now: Time, op: Op, t: Id)
    requires t in c.queue.attempts
    ensures t in Step(c, now, op).queue.attempts
    ensures var a, b := c.queue.attempts[t], Step(c, now, op).queue.attempts[t];
            b.jobId == a.jobId && b.number == a.number && (a.externalStartedAt.Some? ==> b.externalStartedAt.Some?)
  {
  }

  // ------------------------------------------------------------------------
  // Fencing: a lost lease is lost for good

  predicate Lost(q: Queue, now: Time, id: Id, token: Id) {
    token in q.attempts && !LeaseLive(q, now, id, token)
  }

  lemma StepKeepsLost(c: Core, from: Time, now: Time, op: Op, id: Id, token: Id)
    requires from <= now && Lost(c.queue, from, id, token)
    ensures Lost(Step(c, now, op).queue, now, id, token)
  {
    StepKeepsAttempts(c, now, op, token);
    if id in c.queue.jobs {
      StepMoves(c, now, op, id);
    } else {
      NewJobHasNoLease(c, now, op, id);
    }
  }

  lemma NewJobHasNoLease(c: Core, now: Time, op: Op, id: Id)
    requires id !in c.queue.jobs
    ensures id in Step(c, now, op).queue.jobs ==> Step(c, now, op).queue.jobs[id].leaseToken.None?
  {
  }

  // What a worker may still do with its token: nothing.
  ghost predicate Fenced(c: Core, now: Time, id: Id, token: Id) {
    && (forall leaseMs :: Heartbeat(c.queue, now, id, token, leaseMs) == c.queue)
    && (forall bound, owns :: MarkExternalStarted(c, now, id, token, bound, owns) == Failure(LeaseLost))
    && (forall outcome :: FinishCurrent(c, now, id, token, outcome) == Failure(LeaseLost))
    && ExpireNow(c.queue, now, id, token) == c.queue
  }

  // Once the lease check fails for an issued token, no heartbeat, external mark
  // or finish with it succeeds in any continuation.
  lemma {:induction false} LostForEver(c: Core, from: Time, steps: seq<Timed>, id: Id, token: Id)
    requires Lost(c.queue, from, id, token) && Clocked(from, steps)
    ensures Lost(Execute(c, steps).queue, EndTime(from, steps), id, token)
    ensures Fenced(Execute(c, steps), EndTime(from, steps), id, token)
    decreases |steps|
  {
    if steps != [] {
      StepKeepsLost(c, from, steps[0].now, steps[0].op, id, token);
      LostForEver(Step(c, steps[0].now, steps[0].op), steps[0].now, steps[1..], id, token);
    }
  }

  // The lease is lost by finishing with it, ...
  lemma FinishLosesLease(c: Core, now: Time, id: Id, token: Id, outcome: Outcome)
    requires Inv(c) && LeaseLive(c.queue, now, id, token)
    ensures FinishCurrent(c, now, id, token, outcome).Success?
    ensures Lost(FinishCurrent(c, now, id, token, outcome).value.queue, now, id, token)
  {
    FinishInv(c, now, id, token, OutcomeStatus(outcome), OutcomeCode(outcome));
  }

  // ... by expiring it, when its time has come, ...
  lemma TimeLosesLease(c: Core, now: Time, later: Time, id: Id, token: Id)
    requires LeasesOk(c.queue) && LeaseLive(c.queue, now, id, token)
    ensures Lost(ExpireNow(c.queue, now, id, token), now, id, token)
    ensures Lost(c.queue, later, id, token) <==> later >= c.queue.jobs[id].leaseExpiresAt.value
  {
  }

  // ... and by the recovery of its job.
  lemma RecoveryLosesLease(c: Core, now: Time, id: Id, token: Id)
    requires Inv(c) && token in c.queue.attempts && !LeaseLive(c.queue, now, id, token)
    ensures RecoverOne(c, now, id, false).Success?
    ensures var after := RecoverOne(c, now, id, false).value.queue;
            id in after.jobs ==> after.jobs[id].leaseToken != Some(token)
  {
    RecoverInv(c, now, id, false);
    if id in c.queue.jobs {
      assert RowOk(c.queue.jobs[id]);
      RecoveredJob(c, now, id);
    }
  }

  lemma RecoveredJob(c: Core, now: Time, id: Id)
    requires id in c.queue.jobs && RecoverOne(c, now, id, false).Success?
    ensures var after := RecoverOne(c, now, id, false).value.queue;
            && id in after.jobs
            && after.jobs[id].leaseToken == if LeaseExpired(c.queue, now, id) then None else c.queue.jobs[id].leaseToken
  {
  }

  // ------------------------------------------------------------------------
  // A live lease is exclusive

  // Only the holder gives a lease up before its time.
  predicate GivesUp(op: Op, id: Id, token: Id) {
    (op.OpFinish? || op.OpExpire?) && op.id == id && op.token == token
  }

  predicate Renews(op: Op, id: Id, token: Id) {
    op.OpHeartbeat? && op.id == id && op.token == token
  }

  predicate LeasedUntil(q: Queue, id: Id, token: Id, until: Time) {
    && id in q.jobs && q.jobs[id].status == Running && q.jobs[id].leaseToken == Some(token)
    && q.jobs[id].leaseExpiresAt.Some? && q.jobs[id].leaseExpiresAt.value >= until
  }

  // Before it expires, no transaction of anybody else touches a lease.
  lemma StepKeepsLease(c: Core, now: Time, op: Op, id: Id, token: Id, until: Time)
    requires LeasedUntil(c.queue, id, token, until) && now < until
    requires !GivesUp(op, id, token) && (Renews(op, id, token) ==> now + op.leaseMs >= until)
    ensures LeasedUntil(Step(c, now, op).queue, id, token, until)
  {
    match op
    case OpEnqueue(_, _, _, _) => InsertionMovesNothing(c, now, op, id);
    case OpOrphan(_, _, _) => InsertionMovesNothing(c, now, op, id);
    case OpFinish(other, _, _) => assert other != id || Step(c, now, op) == c;
    case OpRecover(other, _) => assert other != id || Step(c, now, op) == c;
    case OpClaim(_, _, _, _) => assert AnyRunning(c.queue);
    case OpHeartbeat(_, _, _) =>
    case OpMark(_, _, _, _) =>
    case OpExpire(_, _) =>
    case OpQuota(_) =>
    case OpAccount(_, _) =>
  }

  ghost predicate HolderStays(steps: seq<Timed>, id: Id, token: Id, until: Time) {
    forall i :: 0 <= i < |steps| ==>
      && steps[i].now < until && !GivesUp(steps[i].op, id, token)
      && (Renews(steps[i].op, id, token) ==> steps[i].now + steps[i].op.leaseMs >= until)
  }

  // Whatever all others do, a holder that neither finishes nor ends its lease keeps
  // it until its time, and nobody else runs a job meanwhile.
  lemma {:induction false} LiveLeaseIsExclusive(c: Core, steps: seq<Timed>, id: Id, token: Id, until: Time, now: Time)
    requires Inv(c) && LeasedUntil(c.queue, id, token, until) && HolderStays(steps, id, token, until) && now < until
    ensures var after := Execute(c, steps).queue;
            && LeaseLive(after, now, id, token)
            && forall other :: other in after.jobs && after.jobs[other].status == Running ==> other == id
    decreases |steps|
  {
    if steps != [] {
      var head, tail := steps[0], steps[1..];
      StepKeepsLease(c, head.now, head.op, id, token, until);
      StepInv(c, head.now, head.op);
      assert forall i :: 0 <= i < |tail| ==> tail[i] == steps[i + 1];
      LiveLeaseIsExclusive(Step(c, head.now, head.op), tail, id, token, until, now);
    }
  }

  // ------------------------------------------------------------------------
  // Closed jobs are final

  lemma {:induction false} ClosedForEver(c: Core, steps: seq<Timed>, id: Id)
    requires id in c.queue.jobs && !Active(c.queue.jobs[id])
    ensures id in Execute(c, steps).queue.jobs && Execute(c, steps).queue.jobs[id] == c.queue.jobs[id]
    decreases |steps|
  {
    if steps != [] {
      StepMoves(c, steps[0].now, steps[0].op, id);
      ClosedForEver(Step(c, steps[0].now, steps[0].op), steps[1..], id);
    }
  }

  lemma StartedStays(c: Core, now: Time, op: Op, id: Id)
    requires id in c.queue.jobs && RowOk(c.queue.jobs[id]) && c.queue.jobs[id].externalStartedAt.Some?
    ensures var after := Step(c, now, op).queue;
            && id in after.jobs && after.jobs[id].externalStartedAt.Some?
            && after.jobs[id].attempts == c.queue.jobs[id].attempts
  {
    StepMoves(c, now, op, id);
  }

  // Once a job has been externally started it is never attempted again: the
  // number of its billable attempts stays one whatever follows.
  lemma {:induction false} NeverStartedTwice(c: Core, steps: seq<Timed>, id: Id)
    requires Inv(c) && id in c.queue.jobs && c.queue.jobs[id].externalStartedAt.Some?
    ensures var after := Execute(c, steps).queue;
            && id in after.jobs && after.jobs[id].externalStartedAt.Some?
            && after.jobs[id].attempts == c.queue.jobs[id].attempts
    decreases |steps|
  {
    if steps != [] {
      StartedStays(c, steps[0].now, steps[0].op, id);
      StepInv(c, steps[0].now, steps[0].op);
      NeverStartedTwice(Step(c, steps[0].now, steps[0].op), steps[1..], id);
    }
  }

  // ------------------------------------------------------------------------
  // The ledger over whole runs

  // The quota entry of every job that was queued by a user is reserved exactly
  // while the job is active; afterwards it is committed exactly when the job was
  // externally started or succeeded, and released otherwise.
  lemma LedgerFollowsTheQueue(c: Core, steps: seq<Timed>, id: Id)
    requires Inv(c)
    ensures var after := Execute(c, steps);
            id in after.queue.jobs && Charged(after.queue.jobs[id]) ==>
              var j := after.queue.jobs[id];
              && EntryKey(j, id) in after.quota.ledger
              && var entry := after.quota.ledger[EntryKey(j, id)];
              && entry.amount == 1
              && (entry.state == Reserved <==> Active(j))
              && (entry.state == Committed <==> !Active(j) && (j.externalStartedAt.Some? || j.status == Succeeded))
              && (entry.state == Released <==> !Active(j) && j.externalStartedAt.None? && j.status != Succeeded)
  {
    RunInv(c, steps);
    var after := Execute(c, steps);
    if id in after.queue.jobs && Charged(after.queue.jobs[id]) {
      assert EntryOk(after.quota.ledger, after.queue.jobs[id], id);
    }
  }

  // What a queue transaction does to the quota is a reservation, a settlement,
  // or nothing.
  lemma EnqueueQuota(c: Core, now: Time, id: Id, input: JobInput, retry: Option<Retry>, targetLive: bool, legacy: bool)
    requires Enqueue(c, now, id, input, retry, targetLive, legacy).Success?
    ensures var after := Enqueue(c, now, id, input, retry, targetLive, legacy).value.quota;
            after == c.quota || exists op: QuotaOp :: op.DoReserve? && after == QuotaStep(c.quota, op)
  {
    if UsesQuota(input.stage) && !legacy {
      var actor := RetryActor(c, now, input, retry).value;
      var op := DoReserve(now, actor, ContentEvaluations, 1, ContentKey(id));
      assert Enqueue(c, now, id, input, retry, targetLive, legacy).value.quota == QuotaStep(c.quota, op);
    }
  }

  lemma FinishQuota(c: Core, now: Time, id: Id, token: Option<Id>, status: JobStatus, code: Option<FailureCode>)
    requires id in c.queue.jobs && Finish(c, now, id, token, status, code).Success?
    ensures var after := Finish(c, now, id, token, status, code).value.quota;
            after == c.quota || exists op: QuotaOp :: op.DoSettle? && after == QuotaStep(c.quota, op)
  {
    var j := c.queue.jobs[id];
    if UsesQuota(j.stage) {
      var op := DoSettle(j.actorId, ContentEvaluations, ContentKey(id), j.externalStartedAt.Some? || status == Succeeded);
      assert Finish(c, now, id, token, status, code).value.quota == QuotaStep(c.quota, op);
    }
  }

  ghost predicate QuotaKept(before: Quota, after: Quota, userId: Id, kind: Kind, start: int) {
    && OnlySettles(before.ledger, after.ledger) && NonNegative(after.ledger)
    && after.policies == before.policies
    && (Within(before, userId, kind, start) ==> Within(after, userId, kind, start))
  }

  lemma QuotaStepKept(q: Quota, op: QuotaOp, userId: Id, kind: Kind, start: int)
    requires NonNegative(q.ledger) && !op.DoAdjust?
    ensures QuotaKept(q, QuotaStep(q, op), userId, kind, start)
  {
    StepStaysWithin(q, op, userId, kind, start);
  }

  lemma EnqueueKept(c: Core, now: Time, id: Id, input: JobInput, retry: Option<Retry>, targetLive: bool, legacy: bool,
                    userId: Id, kind: Kind, start: int)
    requires NonNegative(c.quota.ledger) && Enqueue(c, now, id, input, retry, targetLive, legacy).Success?
    ensures QuotaKept(c.quota, Enqueue(c, now, id, input, retry, targetLive, legacy).value.quota, userId, kind, start)
  {
    EnqueueQuota(c, now, id, input, retry, targetLive, legacy);
    var after := Enqueue(c, now, id, input, retry, targetLive, legacy).value.quota;
    if after != c.quota {
      var op: QuotaOp :| op.DoReserve? && after == QuotaStep(c.quota, op);
      QuotaStepKept(c.quota, op, userId, kind, start);
    }
  }

  lemma FinishKept(c: Core, now: Time, id: Id, token: Option<Id>, status: JobStatus, code: Option<FailureCode>,
                   userId: Id, kind: Kind, start: int)
    requires NonNegative(c.quota.ledger) && id in c.queue.jobs && Finish(c, now, id, token, status, code).Success?
    ensures QuotaKept(c.quota, Finish(c, now, id, token, status, code).value.quota, userId, kind, start)
  {
    FinishQuota(c, now, id, token, status, code);
    var after := Finish(c, now, id, token, status, code).value.quota;
    if after != c.quota {
      var op: QuotaOp :| op.DoSettle? && after == QuotaStep(c.quota, op);
      QuotaStepKept(c.quota, op, userId, kind, start);
    }
  }

  lemma RecoverKept(c: Core, now: Time, id: Id, videoLocked: bool, userId: Id, kind: Kind, start: int)
    requires NonNegative(c.quota.ledger) && RecoverOne(c, now, id, videoLocked).Success?
    ensures QuotaKept(c.quota, RecoverOne(c, now, id, videoLocked).value.quota, userId, kind, start)
  {
    if !videoLocked && LeaseExpired(c.queue, now, id) && MustAbandon(c.queue.jobs[id]) {
      var j := c.queue.jobs[id];
      if j.externalStartedAt.Some? {
        FinishKept(c, now, id, j.leaseToken, NeedsAttention, Some(ExternalResultUncertain), userId, kind, start);
      } else {
        FinishKept(c, now, id, j.leaseToken, Failed, Some(RetryExhausted), userId, kind, start);
      }
    }
  }

  lemma OrphanKept(c: Core, now: Time, id: Id, input: JobInput, stillRunning: bool, userId: Id, kind: Kind, start: int)
    requires LedgerOk(c) && id !in c.queue.jobs && RecoverOrphan(c, now, id, input, stillRunning).Success?
    ensures QuotaKept(c.quota, RecoverOrphan(c, now, id, input, stillRunning).value.quota, userId, kind, start)
  {
    if Enqueue(c, now, id, input, None, true, true).Success? {
      OrphanIsClosedAtOnce(c, now, id, input);
    }
  }

  // Adjustments and account changes aside, no transaction takes a window over its
  // limit, and entries only ever settle.
  lemma StepKeepsQuota(c: Core, now: Time, op: Op, userId: Id, kind: Kind, start: int)
    requires Inv(c) && !(op.OpQuota? && op.op.DoAdjust?)
    ensures QuotaKept(c.quota, Step(c, now, op).quota, userId, kind, start)
  {
    if WellFormed(c, op) && Effect(c, now, op).Success? {
      match op
      case OpEnqueue(id, input, retry, targetLive) =>
        EnqueueKept(c, now, id, input, retry, targetLive, false, userId, kind, start);
      case OpOrphan(id, input, stillRunning) => OrphanKept(c, now, id, input, stillRunning, userId, kind, start);
      case OpFinish(id, token, outcome) =>
        FinishKept(c, now, id, Some(token), OutcomeStatus(outcome), OutcomeCode(outcome), userId, kind, start);
      case OpRecover(id, videoLocked) => RecoverKept(c, now, id, videoLocked, userId, kind, start);
      case OpQuota(op) => QuotaStepKept(c.quota, op, userId, kind, start);
      case _ =>
    }
  }

  // Between two adjustments every window that was within its limit stays within
  // it, whatever the queue does.
  lemma {:induction false} RunsStayWithinLimits(c: Core, steps: seq<Timed>, userId: Id, kind: Kind, start: int)
    requires Inv(c)
    requires forall i :: 0 <= i < |steps| ==> !(steps[i].op.OpQuota? && steps[i].op.op.DoAdjust?)
    ensures QuotaKept(c.quota, Execute(c, steps).quota, userId, kind, start)
    decreases |steps|
  {
    if steps != [] {
      var after := Step(c, steps[0].now, steps[0].op);
      StepKeepsQuota(c, steps[0].now, steps[0].op, userId, kind, start);
      StepInv(c, steps[0].now, steps[0].op);
      assert forall i :: 0 <= i < |steps[1..]| ==> steps[1..][i] == steps[i + 1];
      RunsStayWithinLimits(after, steps[1..], userId, kind, start);
    }
  }
}
