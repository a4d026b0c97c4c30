// Safety over whole runs: the invariant holds in every reachable state.
module QueueSafety {
  import opened Basics
  import opened QuotaModel
  import opened QueueModel
  import opened QueueInvariant
  import opened QueueSteps

  lemma EnqueueInv(c: Core, now: Time, id: Id, input: JobInput, retry: Option<Retry>, targetLive: bool)
    requires Inv(c) && id !in c.queue.jobs
    requires Enqueue(c, now, id, input, retry, targetLive, false).Success?
    ensures Inv(Enqueue(c, now, id, input, retry, targetLive, false).value)
  {
    var j := NewJob(input, RetryActor(c, now, input, retry).value, now, retry);
    InsertJob(c.queue, id, j);
    InsertJobAttempts(c.queue, id, j);
    if UsesQuota(input.stage) {
      InsertCharged(c, now, id, j);
    } else {
      InsertUncharged(c, id, j);
    }
  }

  // The diagnostic job of a legacy orphan appears already closed.
  function OrphanJob(input: JobInput, now: Time): Job {
    NewJob(input, input.actorId, now, None).(
      status := NeedsAttention, failureCode := Some(LegacyExternalResultUncertain), completedAt := Some(now))
  }

  lemma OrphanIsClosedAtOnce(c: Core, now: Time, id: Id, input: JobInput)
    requires LedgerOk(c) && id !in c.queue.jobs
    requires Enqueue(c, now, id, input, None, true, true).Success?
    ensures var queued := Enqueue(c, now, id, input, None, true, true).value;
            && input.actorId in c.quota.users
            && Finish(queued, now, id, None, NeedsAttention, Some(LegacyExternalResultUncertain))
               == Success(c.(queue := c.queue.(jobs := c.queue.jobs[id := OrphanJob(input, now)])))
  {
    var queued := Enqueue(c, now, id, input, None, true, true).value;
    assert EntryKey(queued.queue.jobs[id], id) !in c.quota.ledger;
    assert c.queue.jobs[id := NewJob(input, input.actorId, now, None)][id := OrphanJob(input, now)]
        == c.queue.jobs[id := OrphanJob(input, now)];
  }

  lemma OrphanInv(c: Core, now: Time, id: Id, input: JobInput, stillRunning: bool)
    requires Inv(c) && id !in c.queue.jobs
    requires RecoverOrphan(c, now, id, input, stillRunning).Success?
    ensures Inv(RecoverOrphan(c, now, id, input, stillRunning).value)
  {
    if Enqueue(c, now, id, input, None, true, true).Success? {
      OrphanIsClosedAtOnce(c, now, id, input);
      var j := OrphanJob(input, now);
      if !TargetTaken(c.queue, input.stage, input.target) {
        InsertJob(c.queue, id, j);
        InsertJobAttempts(c.queue, id, j);
        InsertUncharged(c, id, j);
      }
    }
  }

  lemma ClaimInv(c: Core, now: Time, token: Id, locked: set<Id>, capacityFree: bool, leaseMs: nat)
    requires Inv(c) && token !in c.queue.attempts
    ensures Inv(c.(queue := Claim(c.queue, now, token, locked, capacityFree, leaseMs)))
  {
    var claimed := ClaimedJob(c.queue, now, locked, capacityFree);
    if claimed.Some? {
      var id := claimed.value;
      ClaimQueue(c.queue, now, id, token, leaseMs);
      var r := ClaimRows(c.queue, now, id, token, leaseMs);
      StillReserved(c, r, id, r.jobs[id]);
    }
  }

  // A renewed or expired lease changes nothing but its end.
  lemma LeaseTimeInv(c: Core, id: Id, until: Time)
    requires Inv(c) && id in c.queue.jobs && c.queue.jobs[id].status == Running
    ensures Inv(c.(queue := c.queue.(jobs := c.queue.jobs[id := c.queue.jobs[id].(leaseExpiresAt := Some(until))])))
  {
    var j := c.queue.jobs[id].(leaseExpiresAt := Some(until));
    assert RowOk(c.queue.jobs[id]) && RowOk(j);
    ChangeJob(c.queue, id, j);
    SameAttempts(c.queue, id, j);
    StillReserved(c, c.queue.(jobs := c.queue.jobs[id := j]), id, j);
  }

  lemma MarkInv(c: Core, now: Time, id: Id, token: Id, bindingValid: bool, ownsVideo: bool)
    requires Inv(c)
    requires MarkExternalStarted(c, now, id, token, bindingValid, ownsVideo).Success?
    ensures Inv(MarkExternalStarted(c, now, id, token, bindingValid, ownsVideo).value)
  {
    MarkQueue(c.queue, now, id, token);
    var r := MarkRows(c.queue, now, id, token);
    StillReserved(c, r, id, r.jobs[id]);
  }

  // The holder of the lease closes the job with any terminal status.
  lemma FinishInv(c: Core, now: Time, id: Id, token: Id, status: JobStatus, code: Option<FailureCode>)
    requires Inv(c) && id in c.queue.jobs && c.queue.jobs[id].leaseToken == Some(token)
    requires status == Succeeded || status == Failed || status == NeedsAttention
    requires code != Some(LegacyExternalResultUncertain)
    ensures token in c.queue.attempts
    ensures Finish(c, now, id, Some(token), status, code).Success?
    ensures Inv(Finish(c, now, id, Some(token), status, code).value)
  {
    var j := c.queue.jobs[id];
    assert RowOk(j);
    assert token in c.queue.attempts;
    FinishNeverConflicts(c, now, id, Some(token), status, code);
    var r := FinishRows(c.queue, now, id, Some(token), status, code);
    FinishIsClose(c.queue, now, id, token, status, code);
    CloseQueue(c.queue, id, token, r.jobs[id], Ended(status), r.usage);
    SettledTogether(c, r, id, r.jobs[id], Finish(c, now, id, Some(token), status, code).value.quota);
  }

  lemma FinishIsClose(q: Queue, now: Time, id: Id, token: Id, status: JobStatus, code: Option<FailureCode>)
    requires id in q.jobs && token in q.attempts
    ensures var r := FinishRows(q, now, id, Some(token), status, code);
            r == CloseRows(q, id, token, r.jobs[id], Ended(status), r.usage) && SameUsageJobs(q.usage, r.usage)
  {
  }

  lemma RequeueInv(c: Core, now: Time, id: Id, token: Id)
    requires Inv(c) && id in c.queue.jobs && c.queue.jobs[id].leaseToken == Some(token) && !MustAbandon(c.queue.jobs[id])
    ensures token in c.queue.attempts
    ensures Inv(c.(queue := RequeueRows(c.queue, now, id, token)))
  {
    var j := c.queue.jobs[id];
    assert RowOk(j);
    assert token in c.queue.attempts;
    var r := RequeueRows(c.queue, now, id, token);
    CloseQueue(c.queue, id, token, r.jobs[id], Expired, c.queue.usage);
    assert r == CloseRows(c.queue, id, token, r.jobs[id], Expired, c.queue.usage);
    StillReserved(c, r, id, r.jobs[id]);
  }

  lemma RecoverInv(c: Core, now: Time, id: Id, videoLocked: bool)
    requires Inv(c)
    ensures RecoverOne(c, now, id, videoLocked).Success? && Inv(RecoverOne(c, now, id, videoLocked).value)
  {
    if !videoLocked && LeaseExpired(c.queue, now, id) {
      var j := c.queue.jobs[id];
      assert RowOk(j);
      if j.externalStartedAt.Some? {
        FinishInv(c, now, id, j.leaseToken.value, NeedsAttention, Some(ExternalResultUncertain));
      } else if MustAbandon(j) {
        FinishInv(c, now, id, j.leaseToken.value, Failed, Some(RetryExhausted));
      } else {
        RequeueInv(c, now, id, j.leaseToken.value);
      }
    }
  }

  lemma QuotaInv(c: Core, op: QuotaOp)
    requires Inv(c) && WellFormed(c, OpQuota(op))
    ensures Inv(c.(quota := QuotaStep(c.quota, op)))
  {
    match op
    case DoReserve(now, userId, kind, amount, key) =>
      if Reserve(c.quota, now, userId, kind, amount, key).Success? {
        OtherEntries(c, QuotaStep(c.quota, op));
      }
    case DoSettle(userId, kind, key, commit) => OtherEntries(c, QuotaStep(c.quota, op));
    case DoAdjust(userId, input, key) => OtherEntries(c, QuotaStep(c.quota, op));
  }

  lemma AccountInv(c: Core, userId: Id, user: User)
    requires Inv(c)
    ensures Inv(c.(quota := c.quota.(users := c.quota.users[userId := user])))
  {
  }

  lemma LeaseInv(c: Core, now: Time, id: Id, token: Id, leaseMs: nat)
    requires Inv(c)
    ensures Inv(c.(queue := Heartbeat(c.queue, now, id, token, leaseMs)))
    ensures Inv(c.(queue := ExpireNow(c.queue, now, id, token)))
  {
    if LeaseLive(c.queue, now, id, token) {
      LeaseTimeInv(c, id, now + leaseMs);
      LeaseTimeInv(c, id, 0);
    }
  }

  predicate OnLeases(op: Op) { op.OpClaim? || op.OpHeartbeat? || op.OpMark? || op.OpExpire? }

  lemma LeaseStepInv(c: Core, now: Time, op: Op)
    requires Inv(c) && WellFormed(c, op) && OnLeases(op) && Effect(c, now, op).Success?
    ensures Inv(Effect(c, now, op).value)
  {
    match op
    case OpClaim(token, locked, capacityFree, leaseMs) => ClaimInv(c, now, token, locked, capacityFree, leaseMs);
    case OpHeartbeat(id, token, leaseMs) => LeaseInv(c, now, id, token, leaseMs);
    case OpMark(id, token, bindingValid, ownsVideo) => MarkInv(c, now, id, token, bindingValid, ownsVideo);
    case OpExpire(id, token) => LeaseInv(c, now, id, token, 0);
  }

  lemma OtherStepInv(c: Core, now: Time, op: Op)
    requires Inv(c) && WellFormed(c, op) && !OnLeases(op) && Effect(c, now, op).Success?
    ensures Inv(Effect(c, now, op).value)
  {
    match op
    case OpEnqueue(id, input, retry, targetLive) => EnqueueInv(c, now, id, input, retry, targetLive);
    case OpOrphan(id, input, stillRunning) => OrphanInv(c, now, id, input, stillRunning);
    case OpFinish(id, token, outcome) => FinishInv(c, now, id, token, OutcomeStatus(outcome), OutcomeCode(outcome));
    case OpRecover(id, videoLocked) => RecoverInv(c, now, id, videoLocked);
    case OpQuota(op) => QuotaInv(c, op);
    case OpAccount(userId, user) => AccountInv(c, userId, user);
  }

  lemma StepInv(c: Core, now: Time, op: Op)
    requires Inv(c)
    ensures Inv(Step(c, now, op))
  {
    if WellFormed(c, op) && Effect(c, now, op).Success? {
      if OnLeases(op) { LeaseStepInv(c, now, op); } else { OtherStepInv(c, now, op); }
    }
  }
}
