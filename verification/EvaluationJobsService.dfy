// evaluation-jobs.service.ts: the queue's transactions as methods that change the
// database. A caller rolls back after a failure.
module EvaluationJobsService {
  import opened Basics
  import opened QuotaModel
  import opened QueueModel
  import opened QueueInvariant
  import opened QueueRuns
  import opened QueueProgress
  import opened WorkflowModel
  import opened WorkflowInvariant
  import opened WorkflowSafety
  import opened WorkflowEvents
  import opened WorkflowTraces
  import opened Store
  import QuotasService

  datatype Lease = Lease(jobId: Id, token: Id)

  // The head of the queue is unique.
  lemma HeadIsClaimed(q: Queue, now: Time, locked: set<Id>, head: Option<Id>)
    requires !AnyRunning(q)
    requires head.Some? ==> IsHead(q, now, locked, head.value)
    requires head.None? ==> forall id :: !Candidate(q, now, locked, id)
    ensures ClaimedJob(q, now, locked, true) == head
  {
    ClaimServesSomebody(q, now, locked, true);
    if head.Some? {
      var other := ClaimedJob(q, now, locked, true).value;
      assert IsHead(q, now, locked, other);
      assert Candidate(q, now, locked, other) && Candidate(q, now, locked, head.value);
    }
  }

  class EvaluationJobs {
    const db: Database
    const quotas: QuotasService.Quotas

    constructor (db: Database)
      ensures this.db == db && this.quotas.db == db
    {
      this.db := db;
      this.quotas := new QuotasService.Quotas(db);
    }

    ghost predicate Wired()
      reads this
    {
      quotas.db == db
    }

    // The checks of a retry, in the order the service makes them.
    method RetryFor(now: Time, input: JobInput, retry: Retry) returns (r: Result<Id, QueueError>)
      ensures r == RetryActor(db.CoreState(), now, input, Some(retry))
    {
      if retry.oldId !in db.jobs { return Failure(JobConflict); }
      var original := db.jobs[retry.oldId];
      if original.videoId != input.videoId || original.stage != input.stage { return Failure(JobConflict); }
      if original.status != Failed && original.status != NeedsAttention { return Failure(JobConflict); }
      var queue := db.CoreState().queue;
      if !IsLatest(queue, retry.oldId) || AlreadyRetried(queue, retry.oldId) { return Failure(JobConflict); }
      if !retry.administratorActive { return Failure(JobForbidden); }
      if original.actorId !in db.users { return Failure(QuotaRefused(NotFound)); }
      if !IdentityActive(db.users[original.actorId], now) { return Failure(QuotaRefused(QuotaError.Forbidden)); }
      return Success(original.actorId);
    }

    method Enqueue(now: Time, id: Id, input: JobInput, retry: Option<Retry>, targetLive: bool, legacy: bool)
      returns (r: Result<(), QueueError>)
      requires Wired()
      modifies db`jobs, db`ledger
      ensures db.FlowState() == old(db.FlowState())
      ensures r.Success? ==> QueueModel.Enqueue(old(db.CoreState()), now, id, input, retry, targetLive, legacy) == Success(db.CoreState())
      ensures r.Failure? ==> QueueModel.Enqueue(old(db.CoreState()), now, id, input, retry, targetLive, legacy) == Failure(r.error)
    {
      var actorId := input.actorId;
      if retry.Some? {
        var owner := RetryFor(now, input, retry.value);
        if owner.Failure? { return Failure(owner.error); }
        actorId := owner.value;
      }
      var queue := db.CoreState().queue;
      if HasActive(queue, input.videoId, input.stage) { return Failure(JobConflict); }
      if !input.refsDurable { return Failure(JobConflict); }
      if !targetLive { return Failure(LeaseLost); }
      var job := NewJob(input, actorId, now, retry);
      if actorId !in db.users || !(1 <= job.maxAttempts <= 5) || TargetTaken(queue, input.stage, input.target) {
        return Failure(ConstraintViolated);
      }
      db.jobs := db.jobs[id := job];
      if UsesQuota(input.stage) && !legacy {
        var reserved := quotas.Reserve(now, actorId, ContentEvaluations, 1, ContentKey(id));
        if reserved.Failure? { return Failure(QuotaRefused(reserved.error)); }
      }
      return Success(());
    }

    // ORDER BY available_at, created_at, id LIMIT 1, skipping locked videos.
    method NextWaiting(now: Time, locked: set<Id>) returns (head: Option<Id>)
      ensures head.Some? ==> IsHead(db.CoreState().queue, now, locked, head.value)
      ensures head.None? ==> forall id :: !Candidate(db.CoreState().queue, now, locked, id)
    {
      head := None;
      var queue := db.CoreState().queue;
      var rest := db.jobs.Keys;
      while rest != {}
        invariant rest <= db.jobs.Keys
        invariant head.Some? ==> head.value in db.jobs.Keys - rest && Candidate(queue, now, locked, head.value)
        invariant forall id :: id in db.jobs.Keys - rest && Candidate(queue, now, locked, id) ==>
          head.Some? && (id == head.value || Before(db.jobs[head.value], head.value, db.jobs[id], id))
        decreases rest
      {
        var id :| id in rest;
        rest := rest - {id};
        if Candidate(queue, now, locked, id) {
          if head.None? || Before(db.jobs[id], id, db.jobs[head.value], head.value) { head := Some(id); }
        }
      }
    }

    method Claim(now: Time, token: Id, locked: set<Id>, capacityFree: bool, leaseMs: nat) returns (lease: Option<Lease>)
      modifies db`jobs, db`attempts
      ensures db.FlowState() == old(db.FlowState())
      ensures db.CoreState() == old(db.CoreState()).(
                queue := QueueModel.Claim(old(db.CoreState().queue), now, token, locked, capacityFree, leaseMs))
      ensures lease == match ClaimedJob(old(db.CoreState().queue), now, locked, capacityFree)
                       case None => None case Some(id) => Some(Lease(id, token))
    {
      if !capacityFree { return None; }
      if AnyRunning(db.CoreState().queue) { return None; }
      var head := NextWaiting(now, locked);
      HeadIsClaimed(db.CoreState().queue, now, locked, head);
      if head.None? { return None; }
      var id := head.value;
      var job := db.jobs[id];
      var claimed := job.(status := Running, attempts := job.attempts + 1, leaseToken := Some(token),
                          externalStartedAt := None, leaseExpiresAt := Some(now + leaseMs));
      db.jobs := db.jobs[id := claimed];
      db.attempts := db.attempts[token := Attempt(id, claimed.attempts, Ongoing, None)];
      return Some(Lease(id, token));
    }

    method AssertLease(now: Time, lease: Lease) returns (held: bool)
      ensures held == LeaseLive(db.CoreState().queue, now, lease.jobId, lease.token)
    {
      if lease.jobId !in db.jobs { return false; }
      var job := db.jobs[lease.jobId];
      held := job.status == Running && job.leaseToken == Some(lease.token)
              && job.leaseExpiresAt.Some? && job.leaseExpiresAt.value > now;
    }

    // UPDATE ... WHERE the lease is live; true when one row was updated.
    method Heartbeat(now: Time, lease: Lease, leaseMs: nat) returns (renewed: bool)
      modifies db`jobs
      ensures db.CoreState().queue == QueueModel.Heartbeat(old(db.CoreState().queue), now, lease.jobId, lease.token, leaseMs)
      ensures renewed == LeaseLive(old(db.CoreState().queue), now, lease.jobId, lease.token)
    {
      renewed := AssertLease(now, lease);
      if renewed {
        db.jobs := db.jobs[lease.jobId := db.jobs[lease.jobId].(leaseExpiresAt := Some(now + leaseMs))];
      }
    }

    method MarkExternalStarted(now: Time, lease: Lease, bindingValid: bool, ownsVideo: bool) returns (r: Result<(), QueueError>)
      modifies db`jobs, db`attempts, db`usage
      ensures db.FlowState() == old(db.FlowState())
      ensures r.Success? ==> QueueModel.MarkExternalStarted(old(db.CoreState()), now, lease.jobId, lease.token, bindingValid, ownsVideo)
                             == Success(db.CoreState())
      ensures r.Failure? ==> QueueModel.MarkExternalStarted(old(db.CoreState()), now, lease.jobId, lease.token, bindingValid, ownsVideo)
                             == Failure(r.error) && db.CoreState() == old(db.CoreState())
    {
      var held := AssertLease(now, lease);
      if !held || !bindingValid { return Failure(LeaseLost); }
      var job := db.jobs[lease.jobId];
      if !ActorMayExecute(db.CoreState(), now, job, ownsVideo) { return Failure(JobForbidden); }
      if lease.token !in db.attempts { return Failure(ConstraintViolated); }
      db.jobs := db.jobs[lease.jobId := job.(externalStartedAt := Some(now))];
      db.attempts := db.attempts[lease.token := db.attempts[lease.token].(externalStartedAt := Some(now))];
      if lease.token !in db.usage {
        db.usage := db.usage[lease.token := Usage(lease.jobId, job.actorId, job.stage, Ongoing)];
      }
      return Success(());
    }

    // Closes the job, and with it its attempt and its usage record.
    method Close(now: Time, id: Id, token: Option<Id>, status: JobStatus, code: Option<FailureCode>)
      requires id in db.jobs && (token.Some? ==> token.value in db.attempts)
      modifies db`jobs, db`attempts, db`usage
      ensures db.CoreState().quota == old(db.CoreState().quota) && db.FlowState() == old(db.FlowState())
      ensures db.CoreState().queue == FinishRows(old(db.CoreState().queue), now, id, token, status, code)
    {
      db.jobs := db.jobs[id := db.jobs[id].(status := status, failureCode := code, completedAt := Some(now),
                                            leaseExpiresAt := None, leaseToken := None)];
      if token.Some? {
        db.attempts := db.attempts[token.value := db.attempts[token.value].(progress := Ended(status))];
        if token.value in db.usage {
          db.usage := db.usage[token.value := db.usage[token.value].(progress := Ended(status))];
        }
      }
    }

    // The entry is kept if the billable call was made or the job succeeded.
    method SettleEntry(id: Id, status: JobStatus) returns (r: Result<(), QuotaError>)
      requires Wired() && id in db.jobs
      modifies db`ledger
      ensures db.FlowState() == old(db.FlowState()) && db.CoreState().queue == old(db.CoreState().queue)
      ensures r.Success? ==> EntrySettled(old(db.CoreState()), id, status) == Success(db.QuotaState())
      ensures r.Failure? ==> EntrySettled(old(db.CoreState()), id, status) == Failure(r.error)
    {
      var job := db.jobs[id];
      if !UsesQuota(job.stage) { return Success(()); }
      var state := if job.externalStartedAt.Some? || status == Succeeded then Committed else Released;
      r := quotas.Settle(job.actorId, ContentEvaluations, ContentKey(id), state);
    }

    // Settles the quota entry before the job is closed.
    method Finish(now: Time, id: Id, token: Option<Id>, status: JobStatus, code: Option<FailureCode>) returns (r: Result<(), QueueError>)
      requires Wired() && id in db.jobs
      modifies db`jobs, db`attempts, db`usage, db`ledger
      ensures db.FlowState() == old(db.FlowState())
      ensures r.Success? ==> QueueModel.Finish(old(db.CoreState()), now, id, token, status, code) == Success(db.CoreState())
      ensures r.Failure? ==> QueueModel.Finish(old(db.CoreState()), now, id, token, status, code) == Failure(r.error)
    {
      ghost var before := db.CoreState();
      var settled := SettleEntry(id, status);
      FinishSettled(before, db.QuotaState(), settled, now, id, token, status, code);
      if settled.Failure? { return Failure(QuotaRefused(settled.error)); }
      if token.Some? && token.value !in db.attempts { return Failure(ConstraintViolated); }
      Close(now, id, token, status, code);
      return Success(());
    }

    method FinishCurrent(now: Time, lease: Lease, outcome: Outcome) returns (r: Result<(), QueueError>)
      requires Wired()
      modifies db`jobs, db`attempts, db`usage, db`ledger
      ensures db.FlowState() == old(db.FlowState())
      ensures r.Success? ==> QueueModel.FinishCurrent(old(db.CoreState()), now, lease.jobId, lease.token, outcome) == Success(db.CoreState())
      ensures r.Failure? ==> QueueModel.FinishCurrent(old(db.CoreState()), now, lease.jobId, lease.token, outcome) == Failure(r.error)
    {
      var held := AssertLease(now, lease);
      if !held { return Failure(LeaseLost); }
      r := Finish(now, lease.jobId, Some(lease.token), OutcomeStatus(outcome), OutcomeCode(outcome));
    }

    // The run of an abandoned or failed job fails with it.
    method FailRunRows(k: RunKey)
      modifies db`runs, db`groups
      ensures db.CoreState() == old(db.CoreState())
      ensures db.FlowState() == FailRun(old(db.FlowState()), k)
    {
      if k in db.runs && Live(db.runs[k]) {
        db.runs := db.runs[k := RunFailed];
      }
      if k.0 in db.groups && (db.groups[k.0].status == GroupQueued || db.groups[k.0].status == GroupRunning) {
        db.groups := db.groups[k.0 := db.groups[k.0].(status := GroupFailed)];
      }
    }

    method Abandon(now: Time, id: Id, status: JobStatus, code: FailureCode) returns (r: Result<(), QueueError>)
      requires Wired() && id in db.jobs
      modifies db`jobs, db`attempts, db`usage, db`ledger, db`runs, db`groups
      ensures var finished := QueueModel.Finish(old(db.CoreState()), now, id, old(db.jobs[id].leaseToken), status, Some(code));
              && (r.Success? ==> finished == Success(db.CoreState()))
              && (r.Failure? ==> finished == Failure(r.error))
      ensures r.Success? ==>
                db.FlowState() == if IsRunJob(old(db.CoreState()), id) then FailRun(old(db.FlowState()), KeyOf(old(db.jobs[id])))
                                  else old(db.FlowState())
    {
      var job := db.jobs[id];
      r := Finish(now, id, job.leaseToken, status, Some(code));
      if r.Success? && job.stage == V11Content && job.target.Run? {
        FailRunRows(KeyOf(job));
      }
    }

    method Requeue(now: Time, id: Id, token: Id)
      requires id in db.jobs && token in db.attempts
      modifies db`jobs, db`attempts
      ensures db.FlowState() == old(db.FlowState())
      ensures db.CoreState().queue == RequeueRows(old(db.CoreState().queue), now, id, token)
    {
      var job := db.jobs[id];
      db.attempts := db.attempts[token := db.attempts[token].(progress := Expired)];
      db.jobs := db.jobs[id := job.(status := RetryWait, leaseToken := None, leaseExpiresAt := None,
                                    failureCode := Some(LeaseExpiredBeforeExternal))];
      db.jobs := db.jobs[id := db.jobs[id].(availableAt := now + Backoff(job.attempts))];
    }

    // One candidate, rechecked under its video's lock.
    method RecoverCandidate(now: Time, id: Id, videoLocked: bool) returns (r: Result<(), QueueError>)
      requires Wired()
      modifies db`jobs, db`attempts, db`usage, db`ledger, db`runs, db`groups
      ensures r.Success? ==> WorkflowModel.Recover(old(db.State()), now, id, videoLocked) == Success(db.State())
      ensures r.Failure? ==> WorkflowModel.Recover(old(db.State()), now, id, videoLocked) == Failure(QueueFailure(r.error))
    {
      if videoLocked { return Success(()); }
      if id !in db.jobs { return Success(()); }
      var job := db.jobs[id];
      if job.status != Running || job.leaseExpiresAt.None? || job.leaseExpiresAt.value > now { return Success(()); }
      if job.externalStartedAt.Some? {
        r := Abandon(now, id, NeedsAttention, ExternalResultUncertain);
      } else if job.attempts >= job.maxAttempts {
        r := Abandon(now, id, Failed, RetryExhausted);
      } else {
        if job.leaseToken.None? || job.leaseToken.value !in db.attempts { return Failure(ConstraintViolated); }
        Requeue(now, id, job.leaseToken.value);
        return Success(());
      }
    }

    // SELECT ... WHERE status = 'running' AND lease_expires_at <= now
    method ExpiredCandidates(now: Time) returns (ids: seq<Id>)
      ensures forall id :: id in ids <==> LeaseExpired(db.CoreState().queue, now, id)
      ensures forall i, k :: 0 <= i < k < |ids| ==> ids[i] != ids[k]
    {
      ids := [];
      var rest := db.jobs.Keys;
      var queue := db.CoreState().queue;
      while rest != {}
        invariant rest <= db.jobs.Keys
        invariant forall id :: id in ids <==> id in db.jobs.Keys - rest && LeaseExpired(queue, now, id)
        invariant forall i, k :: 0 <= i < k < |ids| ==> ids[i] != ids[k]
        decreases rest
      {
        var id :| id in rest;
        rest := rest - {id};
        if LeaseExpired(queue, now, id) { ids := ids + [id]; }
      }
    }

    // Every expired lease whose video is not locked is gone afterwards. There is
    // at most one, so the limit of a hundred candidates never matters.
    method RecoverExpired(now: Time, locked: set<Id>)
      requires Wired() && db.Valid()
      modifies db
      ensures db.Valid()
      ensures db.State() == Recovered(old(db.State()), now, locked)
      ensures forall id :: LeaseExpired(db.CoreState().queue, now, id) ==> db.jobs[id].videoId in locked
      ensures old(db.attempts).Keys <= db.attempts.Keys
    {
      var candidates := ExpiredCandidates(now);
      ghost var before := db.State();
      OneCandidate(before, now, candidates);
      var i := 0;
      while i < |candidates|
        invariant 0 <= i <= |candidates| <= 1
        invariant i == 0 ==> db.State() == before
        invariant i == 1 ==> db.State() == Recovered(before, now, locked)
      {
        var id := candidates[i];
        var videoLocked := id in db.jobs && db.jobs[id].videoId in locked;
        RecoveryGoesThrough(before, now, id, locked);
        var r := RecoverCandidate(now, id, videoLocked);
        i := i + 1;
      }
      RecoveredIsSound(before, now, locked);
    }

    // One running evaluation without a job, rechecked under its video's lock.
    method RecoverOrphanRow(now: Time, row: Orphan) returns (r: Result<(), QueueError>)
      requires Wired() && row.jobId !in db.jobs
      modifies db`jobs, db`ledger, db`attempts, db`usage
      ensures r.Success? ==> QueueModel.RecoverOrphan(old(db.CoreState()), now, row.jobId, row.input, row.stillRunning) == Success(db.CoreState())
      ensures r.Failure? ==> QueueModel.RecoverOrphan(old(db.CoreState()), now, row.jobId, row.input, row.stillRunning) == Failure(r.error)
    {
      var queue := db.CoreState().queue;
      if TargetTaken(queue, row.input.stage, row.input.target) { return Success(()); }
      if HasActive(queue, row.input.videoId, row.input.stage) { return Success(()); }
      if !row.stillRunning { return Success(()); }
      r := Enqueue(now, row.jobId, row.input, None, true, true);
      if r.Failure? { return r; }
      r := Finish(now, row.jobId, None, NeedsAttention, Some(LegacyExternalResultUncertain));
    }

    // In a transaction of its own.
    method RecoverOrphanAlone(now: Time, row: Orphan) returns (closed: bool)
      requires Wired() && row.jobId !in db.jobs
      modifies db
      ensures var recovered := QueueModel.RecoverOrphan(old(db.CoreState()), now, row.jobId, row.input, row.stillRunning);
              && closed == recovered.Success?
              && db.State() == if closed then old(db.State()).(core := recovered.value) else old(db.State())
    {
      var saved := db.State();
      var r := RecoverOrphanRow(now, row);
      if r.Failure? { db.Restore(saved); }
      closed := r.Success?;
    }

    // Orphans are closed one transaction at a time; a failing one ends the pass.
    method RecoverOrphans(now: Time, rows: seq<Orphan>) returns (done: nat)
      requires Wired() && db.Valid() && FreshOrphans(db.jobs, rows)
      modifies db
      ensures db.Valid() && done <= |rows|
      ensures db.FlowState() == old(db.FlowState())
      ensures db.CoreState() == Execute(old(db.CoreState()), OrphanSteps(now, rows[..done]))
      ensures (done == |rows|, db.CoreState()) == AfterOrphans(old(db.CoreState()), now, rows)
      ensures old(db.attempts).Keys <= db.attempts.Keys
    {
      ghost var before := db.State();
      done := 0;
      NoOrphansDone(before, now, rows);
      assert rows[0..] == rows;
      while done < |rows|
        invariant OrphansDone(before, db.State(), now, rows, done)
        invariant AfterOrphans(db.CoreState(), now, rows[done..]) == AfterOrphans(before.core, now, rows)
      {
        NextOrphan(before, db.State(), now, rows, done);
        OrphansUnfold(db.CoreState(), now, rows, done);
        var closed := RecoverOrphanAlone(now, rows[done]);
        if !closed { return; }
        done := done + 1;
      }
    }

    // Ends the lease if it is still held, and lets recovery take the job over.
    method ReleaseAfterExecutionError(now: Time, lease: Lease, locked: set<Id>)
      requires Wired() && db.Valid() && lease.token in db.attempts
      modifies db
      ensures db.Valid()
      ensures db.State() == AfterRelease(old(db.State()), now, lease, locked)
      ensures Lost(db.CoreState().queue, now, lease.jobId, lease.token)
    {
      var held := AssertLease(now, lease);
      if held {
        ExpiryIsSound(db.State(), now, lease);
        EndLease(now, lease);
        RecoveryKeepsLost(db.State(), now, lease, locked);
        RecoverExpired(now, locked);
      }
    }

    method EndLease(now: Time, lease: Lease)
      requires LeaseLive(db.CoreState().queue, now, lease.jobId, lease.token)
      modifies db`jobs
      ensures db.State() == WithLeaseEnded(old(db.State()), now, lease)
      ensures db.attempts == old(db.attempts)
    {
      db.jobs := db.jobs[lease.jobId := db.jobs[lease.jobId].(leaseExpiresAt := Some(0))];
    }
  }

  ghost function EntrySettled(c: Core, id: Id, status: JobStatus): Result<Quota, QuotaError>
    requires id in c.queue.jobs
  {
    var job := c.queue.jobs[id];
    if !UsesQuota(job.stage) then Success(c.quota)
    else
      QuotaModel.Settle(c.quota, job.actorId, ContentEvaluations, ContentKey(id),
                        if job.externalStartedAt.Some? || status == Succeeded then Committed else Released)
  }

  lemma FinishSettled(c: Core, quota: Quota, settled: Result<(), QuotaError>, now: Time, id: Id, token: Option<Id>,
                      status: JobStatus, code: Option<FailureCode>)
    requires id in c.queue.jobs
    requires settled.Success? ==> EntrySettled(c, id, status) == Success(quota)
    requires settled.Failure? ==> EntrySettled(c, id, status) == Failure(settled.error)
    ensures QueueModel.Finish(c, now, id, token, status, code)
         == if settled.Failure? then Failure(QuotaRefused(settled.error))
            else if token.Some? && token.value !in c.queue.attempts then Failure(ConstraintViolated)
            else Success(Core(quota, FinishRows(c.queue, now, id, token, status, code)))
  {
  }

  // A running evaluation that was found without a job, and the identifier its
  // diagnostic job gets.
  datatype Orphan = Orphan(jobId: Id, input: JobInput, stillRunning: bool)

  ghost predicate FreshOrphans(jobs: map<Id, Job>, rows: seq<Orphan>) {
    && (forall i :: 0 <= i < |rows| ==>
          rows[i].jobId !in jobs && rows[i].input.stage != V11Content
          && rows[i].input.maxAttempts.None? && rows[i].input.refsDurable)
    && (forall i, k :: 0 <= i < k < |rows| ==> rows[i].jobId != rows[k].jobId)
  }

  // One after the other, up to the first that fails; whether none did.
  ghost function AfterOrphans(c: Core, now: Time, rows: seq<Orphan>): (bool, Core)
    decreases |rows|
  {
    if rows == [] then (true, c)
    else
      match QueueModel.RecoverOrphan(c, now, rows[0].jobId, rows[0].input, rows[0].stillRunning)
      case Failure(_) => (false, c)
      case Success(closed) => AfterOrphans(closed, now, rows[1..])
  }

  lemma OrphansUnfold(c: Core, now: Time, rows: seq<Orphan>, done: nat)
    requires done < |rows|
    ensures AfterOrphans(c, now, rows[done..])
         == match QueueModel.RecoverOrphan(c, now, rows[done].jobId, rows[done].input, rows[done].stillRunning)
            case Failure(_) => (false, c)
            case Success(closed) => AfterOrphans(closed, now, rows[done + 1..])
  {
    assert rows[done..][0] == rows[done] && rows[done..][1..] == rows[done + 1..];
  }

  ghost function OrphanSteps(now: Time, rows: seq<Orphan>): seq<Timed> {
    if rows == [] then []
    else
      var last := rows[|rows| - 1];
      OrphanSteps(now, rows[..|rows| - 1]) + [Timed(now, OpOrphan(last.jobId, last.input, last.stillRunning))]
  }

  // The first orphans have been closed, and the others still can be.
  ghost predicate OrphansDone(before: Db, db: Db, now: Time, rows: seq<Orphan>, done: nat) {
    && done <= |rows| && DbInv(db)
    && db == before.(core := Execute(before.core, OrphanSteps(now, rows[..done])))
    && (forall t :: t in before.core.queue.attempts ==> t in db.core.queue.attempts)
    && FreshOrphans(db.core.queue.jobs, rows[done..])
  }

  lemma NoOrphansDone(db: Db, now: Time, rows: seq<Orphan>)
    requires DbInv(db) && FreshOrphans(db.core.queue.jobs, rows)
    ensures OrphansDone(db, db, now, rows, 0)
  {
    assert rows[..0] == [] && rows[0..] == rows;
  }

  // The next orphan's transaction is the next step of the run.
  lemma OrphanIsNextStep(start: Core, c: Core, now: Time, rows: seq<Orphan>, done: nat)
    requires done < |rows| && c == Execute(start, OrphanSteps(now, rows[..done]))
    requires WellFormed(c, OpOrphan(rows[done].jobId, rows[done].input, rows[done].stillRunning))
    ensures var row := rows[done];
            var recovered := QueueModel.RecoverOrphan(c, now, row.jobId, row.input, row.stillRunning);
            recovered.Success? ==>
              && recovered.value == Step(c, now, OpOrphan(row.jobId, row.input, row.stillRunning))
              && recovered.value == Execute(start, OrphanSteps(now, rows[..done + 1]))
  {
    var row := rows[done];
    var op := OpOrphan(row.jobId, row.input, row.stillRunning);
    assert rows[..done + 1][..done] == rows[..done];
    ExecuteBoth(start, OrphanSteps(now, rows[..done]), [Timed(now, op)]);
    OneStep(c, Timed(now, op));
  }

  lemma OrphanKeepsIds(c: Core, now: Time, row: Orphan)
    requires QueueModel.RecoverOrphan(c, now, row.jobId, row.input, row.stillRunning).Success?
    ensures var after := QueueModel.RecoverOrphan(c, now, row.jobId, row.input, row.stillRunning).value.queue;
            && (forall id :: id in after.jobs ==> id in c.queue.jobs || id == row.jobId)
            && after.attempts == c.queue.attempts
  {
  }

  lemma RestIsFresh(jobs: map<Id, Job>, after: map<Id, Job>, rows: seq<Orphan>, done: nat)
    requires done < |rows| && FreshOrphans(jobs, rows[done..])
    requires forall id :: id in after ==> id in jobs || id == rows[done].jobId
    ensures FreshOrphans(after, rows[done + 1..])
  {
    assert rows[done..][0] == rows[done];
    var rest, tail := rows[done..], rows[done + 1..];
    assert forall i :: 0 <= i < |tail| ==> tail[i] == rest[i + 1];
  }

  lemma HeadIsFresh(jobs: map<Id, Job>, rows: seq<Orphan>, done: nat)
    requires done < |rows| && FreshOrphans(jobs, rows[done..])
    ensures var row := rows[done];
            && row.jobId !in jobs && row.input.stage != V11Content && row.input.maxAttempts.None? && row.input.refsDurable
  {
    assert rows[done..][0] == rows[done];
  }

  lemma NextOrphan(before: Db, db: Db, now: Time, rows: seq<Orphan>, done: nat)
    requires done < |rows| && OrphansDone(before, db, now, rows, done)
    ensures rows[done].jobId !in db.core.queue.jobs
    ensures var recovered := QueueModel.RecoverOrphan(db.core, now, rows[done].jobId, rows[done].input, rows[done].stillRunning);
            recovered.Success? ==> OrphansDone(before, db.(core := recovered.value), now, rows, done + 1)
  {
    var row := rows[done];
    HeadIsFresh(db.core.queue.jobs, rows, done);
    var recovered := QueueModel.RecoverOrphan(db.core, now, row.jobId, row.input, row.stillRunning);
    if recovered.Success? {
      OrphanIsNextStep(before.core, db.core, now, rows, done);
      CoreEventKeeps(db, now, OpOrphan(row.jobId, row.input, row.stillRunning));
      OrphanKeepsIds(db.core, now, row);
      RestIsFresh(db.core.queue.jobs, recovered.value.queue.jobs, rows, done);
    }
  }

  function WithLeaseEnded(db: Db, now: Time, lease: Lease): Db {
    db.(core := db.core.(queue := ExpireNow(db.core.queue, now, lease.jobId, lease.token)))
  }

  ghost function AfterRelease(db: Db, now: Time, lease: Lease, locked: set<Id>): Db {
    if LeaseLive(db.core.queue, now, lease.jobId, lease.token) then Recovered(WithLeaseEnded(db, now, lease), now, locked) else db
  }

  lemma ExpiryIsStep(db: Db, now: Time, lease: Lease)
    requires LeaseLive(db.core.queue, now, lease.jobId, lease.token)
    ensures WithLeaseEnded(db, now, lease) == db.(core := Step(db.core, now, OpExpire(lease.jobId, lease.token)))
    ensures LeaseExpired(WithLeaseEnded(db, now, lease).core.queue, now, lease.jobId)
  {
  }

  lemma ExpiryIsSound(db: Db, now: Time, lease: Lease)
    requires DbInv(db) && LeaseLive(db.core.queue, now, lease.jobId, lease.token)
    ensures DbInv(WithLeaseEnded(db, now, lease))
    ensures LeaseExpired(WithLeaseEnded(db, now, lease).core.queue, now, lease.jobId)
  {
    ExpiryIsStep(db, now, lease);
    CoreEventKeeps(db, now, OpExpire(lease.jobId, lease.token));
  }

  // The state after one pass of recovery over the only candidate.
  ghost function Recovered(db: Db, now: Time, locked: set<Id>): Db {
    if exists id: Id :: LeaseExpired(db.core.queue, now, id) then
      var id: Id :| LeaseExpired(db.core.queue, now, id);
      RecoveredJob(db, now, id, locked)
    else db
  }

  function RecoveredJob(db: Db, now: Time, id: Id, locked: set<Id>): Db
    requires id in db.core.queue.jobs
  {
    match WorkflowModel.Recover(db, now, id, db.core.queue.jobs[id].videoId in locked)
    case Success(after) => after
    case Failure(_) => db
  }

  lemma OnlyOneExpires(db: Db, now: Time, i: Id, k: Id)
    requires DbInv(db) && LeaseExpired(db.core.queue, now, i) && LeaseExpired(db.core.queue, now, k)
    ensures i == k
  {
  }

  lemma OneCandidate(db: Db, now: Time, ids: seq<Id>)
    requires DbInv(db) && forall id :: id in ids <==> LeaseExpired(db.core.queue, now, id)
    requires forall i, k :: 0 <= i < k < |ids| ==> ids[i] != ids[k]
    ensures |ids| <= 1 && (ids == [] ==> forall locked :: Recovered(db, now, locked) == db)
  {
    if |ids| > 1 {
      OnlyOneExpires(db, now, ids[0], ids[1]);
      assert false;
    }
  }

  lemma OnlyRecovery(db: Db, now: Time, id: Id, locked: set<Id>)
    requires LeaseExpired(db.core.queue, now, id) && forall k :: LeaseExpired(db.core.queue, now, k) ==> k == id
    requires WorkflowModel.Recover(db, now, id, db.core.queue.jobs[id].videoId in locked).Success?
    ensures WorkflowModel.Recover(db, now, id, db.core.queue.jobs[id].videoId in locked) == Success(Recovered(db, now, locked))
  {
    var other: Id :| LeaseExpired(db.core.queue, now, other) && Recovered(db, now, locked) == RecoveredJob(db, now, other, locked);
  }

  lemma RecoveryGoesThrough(db: Db, now: Time, id: Id, locked: set<Id>)
    requires DbInv(db) && LeaseExpired(db.core.queue, now, id)
    ensures WorkflowModel.Recover(db, now, id, db.core.queue.jobs[id].videoId in locked) == Success(Recovered(db, now, locked))
  {
    RecoverKeeps(db, now, id, db.core.queue.jobs[id].videoId in locked);
    forall k | LeaseExpired(db.core.queue, now, k) ensures k == id { OnlyOneExpires(db, now, id, k); }
    OnlyRecovery(db, now, id, locked);
  }

  lemma RecoveredJobIsDone(c: Core, now: Time, id: Id)
    requires LeaseExpired(c.queue, now, id) && RowOk(c.queue.jobs[id]) && RecoverOne(c, now, id, false).Success?
    ensures !LeaseExpired(RecoverOne(c, now, id, false).value.queue, now, id)
    ensures forall t :: t in c.queue.attempts ==> t in RecoverOne(c, now, id, false).value.queue.attempts
    ensures forall k :: k in c.queue.jobs && k != id ==>
              k in RecoverOne(c, now, id, false).value.queue.jobs && RecoverOne(c, now, id, false).value.queue.jobs[k] == c.queue.jobs[k]
    ensures forall k :: k in RecoverOne(c, now, id, false).value.queue.jobs ==> k in c.queue.jobs
  {
  }

  lemma RecoveredIsSound(db: Db, now: Time, locked: set<Id>)
    requires DbInv(db)
    ensures DbInv(Recovered(db, now, locked))
    ensures forall id :: LeaseExpired(Recovered(db, now, locked).core.queue, now, id) ==>
              Recovered(db, now, locked).core.queue.jobs[id].videoId in locked
    ensures forall t :: t in db.core.queue.attempts ==> t in Recovered(db, now, locked).core.queue.attempts
  {
    if exists id: Id :: LeaseExpired(db.core.queue, now, id) {
      var id: Id :| LeaseExpired(db.core.queue, now, id);
      RecoveryGoesThrough(db, now, id, locked);
      var videoLocked := db.core.queue.jobs[id].videoId in locked;
      RecoverKeeps(db, now, id, videoLocked);
      ExpiredAfterRecovery(db, now, id, videoLocked);
    }
  }

  lemma ExpiredAfterRecovery(db: Db, now: Time, id: Id, videoLocked: bool)
    requires DbInv(db) && LeaseExpired(db.core.queue, now, id) && WorkflowModel.Recover(db, now, id, videoLocked).Success?
    ensures var after := WorkflowModel.Recover(db, now, id, videoLocked).value.core.queue;
            && (forall k :: LeaseExpired(after, now, k) ==> videoLocked && k == id && after.jobs[k] == db.core.queue.jobs[k])
            && (forall t :: t in db.core.queue.attempts ==> t in after.attempts)
  {
    assert RowOk(db.core.queue.jobs[id]);
    var after := WorkflowModel.Recover(db, now, id, videoLocked).value.core.queue;
    if !videoLocked { RecoveredJobIsDone(db.core, now, id); }
    forall k | LeaseExpired(after, now, k) ensures videoLocked && k == id && after.jobs[k] == db.core.queue.jobs[k] {
      if k != id { OnlyOneExpires(db, now, k, id); }
    }
  }

  lemma RecoveryIsStep(db: Db, now: Time, id: Id, locked: set<Id>)
    requires DbInv(db) && LeaseExpired(db.core.queue, now, id)
    ensures Recovered(db, now, locked).core
         == Step(db.core, now, OpRecover(id, db.core.queue.jobs[id].videoId in locked))
  {
    RecoveryGoesThrough(db, now, id, locked);
    RecoverIsStep(db, now, id, db.core.queue.jobs[id].videoId in locked);
  }

  lemma RecoverIsStep(db: Db, now: Time, id: Id, videoLocked: bool)
    requires WorkflowModel.Recover(db, now, id, videoLocked).Success?
    ensures WorkflowModel.Recover(db, now, id, videoLocked).value.core == Step(db.core, now, OpRecover(id, videoLocked))
  {
  }

  lemma RecoveryKeepsLost(db: Db, now: Time, lease: Lease, locked: set<Id>)
    requires DbInv(db) && lease.token in db.core.queue.attempts && LeaseExpired(db.core.queue, now, lease.jobId)
    ensures Lost(Recovered(db, now, locked).core.queue, now, lease.jobId, lease.token)
  {
    var op := OpRecover(lease.jobId, db.core.queue.jobs[lease.jobId].videoId in locked);
    RecoveryIsStep(db, now, lease.jobId, locked);
    StepKeepsLost(db.core, now, now, op, lease.jobId, lease.token);
  }
}
