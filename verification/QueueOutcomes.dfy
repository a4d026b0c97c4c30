// What each queue transaction answers: which rows it leaves behind, when, and why.
module QueueOutcomes {
  import opened Basics
  import opened QuotaModel
  import opened QueueModel
  import opened QueueInvariant
  import opened QueueSafety
  import opened QueueRuns
  import opened QueueProgress

  // ------------------------------------------------------------------------
  // enqueue

  // The job is queued for now, unclaimed and unstarted, and nothing else changes.
  lemma EnqueuedRow(c: Core, now: Time, id: Id, input: JobInput, retry: Option<Retry>, live: bool, legacy: bool)
    requires id !in c.queue.jobs && Enqueue(c, now, id, input, retry, live, legacy).Success?
    ensures var after := Enqueue(c, now, id, input, retry, live, legacy).value;
            && id in after.queue.jobs && after.queue == c.queue.(jobs := c.queue.jobs[id := after.queue.jobs[id]])
            && var j := after.queue.jobs[id];
            && j.videoId == input.videoId && j.stage == input.stage && j.target == input.target && j.revisionId == input.revisionId
            && j.status == Queued && j.attempts == 0 && j.availableAt == now && j.createdAt == now
            && j.leaseToken.None? && j.leaseExpiresAt.None? && j.externalStartedAt.None?
            && j.failureCode.None? && j.completedAt.None?
            && 1 <= j.maxAttempts <= 5
            && j.maxAttempts == (match input.maxAttempts case Some(n) => n case None => 3)
            && (retry.None? ==> j.actorId == input.actorId && j.retriedFromId.None?)
            && (retry.Some? ==> j.retriedFromId == Some(retry.value.oldId))
  {
  }

  // One evaluation is reserved for the job's account, unless the stage is not charged
  // or the job is a legacy one.
  lemma EnqueuedEntry(c: Core, now: Time, id: Id, input: JobInput, retry: Option<Retry>, live: bool, legacy: bool)
    requires NoStrayEntries(c.quota.ledger, c.queue.jobs)
    requires id !in c.queue.jobs && Enqueue(c, now, id, input, retry, live, legacy).Success?
    ensures var after := Enqueue(c, now, id, input, retry, live, legacy).value;
            && id in after.queue.jobs
            && var key := LedgerKey(after.queue.jobs[id].actorId, ContentEvaluations, ContentKey(id));
            && key !in c.quota.ledger
            && (if (input.stage == Content || input.stage == V11Content) && !legacy
                then
                  && key in after.quota.ledger
                  && after.quota == c.quota.(ledger := c.quota.ledger[key := after.quota.ledger[key]])
                  && after.quota.ledger[key].amount == 1 && after.quota.ledger[key].state == Reserved
                else after.quota == c.quota)
  {
  }

  predicate Occupies(j: Job, input: JobInput) {
    j.videoId == input.videoId && j.stage == input.stage && (j.status == Queued || j.status == Running || j.status == RetryWait)
  }

  // The refusals, in their order: somebody is at work on the video's stage, the input
  // can be lost, the target is gone, the target already has a job.
  lemma EnqueueRefusals(c: Core, now: Time, id: Id, input: JobInput, live: bool, legacy: bool, other: Id)
    ensures other in c.queue.jobs && Occupies(c.queue.jobs[other], input) ==>
              Enqueue(c, now, id, input, None, live, legacy) == Failure(JobConflict)
    ensures !input.refsDurable ==> Enqueue(c, now, id, input, None, live, legacy) == Failure(JobConflict)
    ensures input.refsDurable && !live && (forall k :: k in c.queue.jobs ==> !Occupies(c.queue.jobs[k], input)) ==>
              Enqueue(c, now, id, input, None, live, legacy) == Failure(LeaseLost)
    ensures other in c.queue.jobs && c.queue.jobs[other].stage == input.stage && c.queue.jobs[other].target == input.target ==>
              Enqueue(c, now, id, input, None, live, legacy).Failure?
    ensures Enqueue(c, now, id, input, None, live, legacy) == Failure(LeaseLost) ==> !live
  {
  }

  // With none of these, an active account with room left in its limit gets its job.
  lemma EnqueueGoesThrough(c: Core, now: Time, id: Id, input: JobInput)
    requires NoStrayEntries(c.quota.ledger, c.queue.jobs) && id !in c.queue.jobs
    requires input.refsDurable && (input.maxAttempts.Some? ==> 1 <= input.maxAttempts.value <= 5)
    requires forall k :: k in c.queue.jobs ==>
               !Occupies(c.queue.jobs[k], input) && !(c.queue.jobs[k].stage == input.stage && c.queue.jobs[k].target == input.target)
    requires input.actorId in c.quota.users && c.quota.users[input.actorId].active
    requires c.quota.users[input.actorId].expiresAt.Some? ==> c.quota.users[input.actorId].expiresAt.value > now
    requires (input.actorId, ContentEvaluations) in c.quota.policies
    requires var policy := c.quota.policies[(input.actorId, ContentEvaluations)];
             policy.limit.Some? ==>
               Used(c.quota.ledger, input.actorId, ContentEvaluations, WindowOf(c.quota, input.actorId, ContentEvaluations, now).start)
               < policy.limit.value
    ensures Enqueue(c, now, id, input, None, true, false).Success?
  {
  }

  // ------------------------------------------------------------------------
  // retry

  predicate LaterThan(q: Queue, i: Id, k: Id)
    requires i in q.jobs && k in q.jobs
  {
    q.jobs[i].createdAt > q.jobs[k].createdAt || (q.jobs[i].createdAt == q.jobs[k].createdAt && i > k)
  }

  // What may be retried: the latest job of its video and stage, once, if it failed or
  // needs attention.
  ghost predicate MayBeRetried(q: Queue, original: Id, input: JobInput) {
    && original in q.jobs
    && q.jobs[original].videoId == input.videoId && q.jobs[original].stage == input.stage
    && (q.jobs[original].status == Failed || q.jobs[original].status == NeedsAttention)
    && (forall k :: k in q.jobs && k != original && q.jobs[k].videoId == input.videoId && q.jobs[k].stage == input.stage ==>
          LaterThan(q, original, k))
    && (forall k :: k in q.jobs ==> q.jobs[k].retriedFromId != Some(original))
  }

  // A retry is run for, and charged to, the account of the original job, whoever asks.
  lemma RetryIsChargedToTheOriginal(c: Core, now: Time, id: Id, input: JobInput, retry: Retry, live: bool)
    requires id !in c.queue.jobs && Enqueue(c, now, id, input, Some(retry), live, false).Success?
    ensures MayBeRetried(c.queue, retry.oldId, input) && retry.administratorActive
    ensures var after := Enqueue(c, now, id, input, Some(retry), live, false).value;
            id in after.queue.jobs && after.queue.jobs[id].actorId == c.queue.jobs[retry.oldId].actorId
  {
  }

  lemma RetryRefusals(c: Core, now: Time, id: Id, input: JobInput, retry: Retry, live: bool, legacy: bool)
    ensures !MayBeRetried(c.queue, retry.oldId, input) ==>
              Enqueue(c, now, id, input, Some(retry), live, legacy) == Failure(JobConflict)
    ensures MayBeRetried(c.queue, retry.oldId, input) && !retry.administratorActive ==>
              Enqueue(c, now, id, input, Some(retry), live, legacy) == Failure(JobForbidden)
    ensures MayBeRetried(c.queue, retry.oldId, input) && retry.administratorActive ==>
              var actor := c.queue.jobs[retry.oldId].actorId;
              && (actor !in c.quota.users ==>
                    Enqueue(c, now, id, input, Some(retry), live, legacy) == Failure(QuotaRefused(NotFound)))
              && (actor in c.quota.users && !IdentityActive(c.quota.users[actor], now) ==>
                    Enqueue(c, now, id, input, Some(retry), live, legacy) == Failure(QuotaRefused(QuotaError.Forbidden)))
              && (actor in c.quota.users && IdentityActive(c.quota.users[actor], now) ==>
                    Enqueue(c, now, id, input, Some(retry), live, legacy).Failure?
                    == Enqueue(c, now, id, input.(actorId := actor), None, live, legacy).Failure?)
  {
  }

  // ------------------------------------------------------------------------
  // claim

  predicate DueAndFree(q: Queue, now: Time, locked: set<Id>, id: Id) {
    && id in q.jobs && (q.jobs[id].status == Queued || q.jobs[id].status == RetryWait)
    && q.jobs[id].availableAt <= now && q.jobs[id].videoId !in locked
  }

  // First scheduled, first created, smallest identifier.
  predicate NotAfter(q: Queue, i: Id, k: Id)
    requires i in q.jobs && k in q.jobs
  {
    var a, b := q.jobs[i], q.jobs[k];
    && a.availableAt <= b.availableAt
    && (a.availableAt == b.availableAt ==> a.createdAt <= b.createdAt && (a.createdAt == b.createdAt ==> i <= k))
  }

  // The claimed job is the first that is due and not locked, and it gets one more attempt.
  lemma ClaimTakesTheFirst(q: Queue, now: Time, token: Id, locked: set<Id>, capacityFree: bool, leaseMs: nat, other: Id)
    requires ClaimedJob(q, now, locked, capacityFree).Some?
    ensures var id := ClaimedJob(q, now, locked, capacityFree).value;
            && capacityFree && DueAndFree(q, now, locked, id)
            && (DueAndFree(q, now, locked, other) ==> NotAfter(q, id, other))
            && (other in q.jobs ==> q.jobs[other].status != Running)
            && var after := Claim(q, now, token, locked, capacityFree, leaseMs);
            && id in after.jobs && after.jobs == q.jobs[id := after.jobs[id]]
            && after.jobs[id].status == Running && after.jobs[id].attempts == q.jobs[id].attempts + 1
            && after.jobs[id].externalStartedAt.None?
            && after.attempts == q.attempts[token := Attempt(id, q.jobs[id].attempts + 1, Ongoing, None)]
            && after.usage == q.usage
  {
  }

  // A claim takes a job whenever the worker has room, no evaluation is running, and some
  // waiting job is due on a free video.
  lemma ClaimTakesSomebody(q: Queue, now: Time, locked: set<Id>, capacityFree: bool)
    ensures ClaimedJob(q, now, locked, capacityFree).Some? <==>
              && capacityFree && (forall k :: k in q.jobs ==> q.jobs[k].status != Running)
              && exists id: Id :: DueAndFree(q, now, locked, id)
  {
    ClaimServesSomebody(q, now, locked, capacityFree);
    if id: Id :| DueAndFree(q, now, locked, id) {
      assert Candidate(q, now, locked, id);
    }
    if id: Id :| Candidate(q, now, locked, id) {
      assert DueAndFree(q, now, locked, id);
    }
  }

  // The lease of a claim is live from now on for exactly as long as it was asked for.
  lemma ClaimGrantsLease(q: Queue, now: Time, token: Id, locked: set<Id>, capacityFree: bool, leaseMs: nat, t: Time)
    requires ClaimedJob(q, now, locked, capacityFree).Some? && t >= now
    ensures LeaseLive(Claim(q, now, token, locked, capacityFree, leaseMs), t, ClaimedJob(q, now, locked, capacityFree).value, token)
       <==> t < now + leaseMs
  {
  }

  // A renewal by the holder of a live lease makes it last as long again, counted from
  // now; for anybody else nothing happens.
  lemma HeartbeatRenewsLease(q: Queue, now: Time, id: Id, token: Id, leaseMs: nat, t: Time)
    requires t >= now
    ensures LeaseLive(q, now, id, token) ==>
              && (LeaseLive(Heartbeat(q, now, id, token, leaseMs), t, id, token) <==> t < now + leaseMs)
              && id in Heartbeat(q, now, id, token, leaseMs).jobs
              && Heartbeat(q, now, id, token, leaseMs)
                 == q.(jobs := q.jobs[id := q.jobs[id].(leaseExpiresAt := Heartbeat(q, now, id, token, leaseMs).jobs[id].leaseExpiresAt)])
    ensures !LeaseLive(q, now, id, token) ==> Heartbeat(q, now, id, token, leaseMs) == q
  {
  }

  lemma ConfiguredLease(configured: Option<int>)
    ensures LeaseMilliseconds(configured)
         == (if configured.None? || configured.value < 15000 || configured.value > 600000 then 90000 else configured.value)
  {
  }

  const SHORTEST_LEASE: nat := 15000

  // Nobody else gets in the way, and the holder only renews, never by less than the
  // shortest lease.
  ghost predicate HolderWorks(now: Time, steps: seq<Timed>, id: Id, token: Id) {
    forall i :: 0 <= i < |steps| ==>
      && now <= steps[i].now < now + SHORTEST_LEASE && !GivesUp(steps[i].op, id, token)
      && (Renews(steps[i].op, id, token) ==> steps[i].op.leaseMs >= SHORTEST_LEASE)
  }

  // A claimed job is its worker's for at least fifteen seconds, whatever everybody
  // else does, unless the worker finishes or gives up.
  lemma ClaimedJobIsProtected(c: Core, now: Time, token: Id, locked: set<Id>, capacityFree: bool, configured: Option<int>,
                              steps: seq<Timed>, t: Time)
    requires Inv(c) && token !in c.queue.attempts && ClaimedJob(c.queue, now, locked, capacityFree).Some?
    requires HolderWorks(now, steps, ClaimedJob(c.queue, now, locked, capacityFree).value, token)
    requires t < now + SHORTEST_LEASE
    ensures var id := ClaimedJob(c.queue, now, locked, capacityFree).value;
            var claimed := c.(queue := Claim(c.queue, now, token, locked, capacityFree, LeaseMilliseconds(configured)));
            var after := Execute(claimed, steps).queue;
            && LeaseLive(after, t, id, token)
            && forall other :: other in after.jobs && after.jobs[other].status == Running ==> other == id
  {
    var id := ClaimedJob(c.queue, now, locked, capacityFree).value;
    var leaseMs := LeaseMilliseconds(configured);
    var claimed := c.(queue := Claim(c.queue, now, token, locked, capacityFree, leaseMs));
    ClaimInv(c, now, token, locked, capacityFree, leaseMs);
    ClaimGrantsLease(c.queue, now, token, locked, capacityFree, leaseMs, now + SHORTEST_LEASE - 1);
    LiveLeaseIsExclusive(claimed, steps, id, token, now + SHORTEST_LEASE, t);
  }

  // ------------------------------------------------------------------------
  // external start

  // The account still exists, is active and has not expired; a visitor only evaluates
  // the content of a video of its own.
  predicate Eligible(c: Core, now: Time, j: Job, ownsVideo: bool) {
    && j.actorId in c.quota.users && c.quota.users[j.actorId].active
    && (c.quota.users[j.actorId].expiresAt.Some? ==> now < c.quota.users[j.actorId].expiresAt.value)
    && (c.quota.users[j.actorId].role == Visitor ==> (j.stage == Content || j.stage == V11Content) && ownsVideo)
  }

  // Marking needs a live lease, a binding that holds and an eligible account, in this
  // order; then job, attempt and usage record carry the time, and nothing else changes.
  lemma MarkOutcome(c: Core, now: Time, id: Id, token: Id, bound: bool, ownsVideo: bool)
    requires Inv(c)
    ensures !LeaseLive(c.queue, now, id, token) || !bound ==>
              MarkExternalStarted(c, now, id, token, bound, ownsVideo) == Failure(LeaseLost)
    ensures LeaseLive(c.queue, now, id, token) && bound && !Eligible(c, now, c.queue.jobs[id], ownsVideo) ==>
              MarkExternalStarted(c, now, id, token, bound, ownsVideo) == Failure(JobForbidden)
    ensures LeaseLive(c.queue, now, id, token) && bound && Eligible(c, now, c.queue.jobs[id], ownsVideo) ==>
              && token in c.queue.attempts
              && var marked := MarkExternalStarted(c, now, id, token, bound, ownsVideo);
              && marked.Success? && marked.value.quota == c.quota
              && marked.value.queue.jobs == c.queue.jobs[id := c.queue.jobs[id].(externalStartedAt := Some(now))]
              && marked.value.queue.attempts == c.queue.attempts[token := c.queue.attempts[token].(externalStartedAt := Some(now))]
              && token in marked.value.queue.usage
              && (token !in c.queue.usage ==>
                    marked.value.queue.usage
                    == c.queue.usage[token := Usage(id, c.queue.jobs[id].actorId, c.queue.jobs[id].stage, Ongoing)])
              && (token in c.queue.usage ==> marked.value.queue.usage == c.queue.usage)
  {
    if LeaseLive(c.queue, now, id, token) { assert token in c.queue.attempts; }
  }

  // ------------------------------------------------------------------------
  // finish

  // How a job ends: its status and code, and the same on its attempt and usage record.
  ghost predicate EndedWith(q: Queue, after: Queue, now: Time, id: Id, token: Id, status: JobStatus, code: Option<FailureCode>) {
    && id in q.jobs && token in q.attempts
    && after.jobs == q.jobs[id := q.jobs[id].(status := status, failureCode := code, completedAt := Some(now),
                                              leaseToken := None, leaseExpiresAt := None)]
    && after.attempts == q.attempts[token := q.attempts[token].(progress := Ended(status))]
    && after.usage == (if token in q.usage then q.usage[token := q.usage[token].(progress := Ended(status))] else q.usage)
  }

  lemma EndedRows(c: Core, now: Time, id: Id, token: Id, status: JobStatus, code: Option<FailureCode>)
    requires id in c.queue.jobs && Finish(c, now, id, Some(token), status, code).Success?
    ensures EndedWith(c.queue, Finish(c, now, id, Some(token), status, code).value.queue, now, id, token, status, code)
  {
  }

  // A success has no code, a failure and an uncertain result have theirs.
  lemma FinishOutcome(c: Core, now: Time, id: Id, token: Id, outcome: Outcome)
    requires Inv(c) && LeaseLive(c.queue, now, id, token)
    ensures var finished := FinishCurrent(c, now, id, token, outcome);
            && finished.Success?
            && (outcome == Success' ==> EndedWith(c.queue, finished.value.queue, now, id, token, Succeeded, None))
            && (outcome == Failure' ==> EndedWith(c.queue, finished.value.queue, now, id, token, Failed, Some(EvaluationFailed)))
            && (outcome == Uncertain' ==>
                  EndedWith(c.queue, finished.value.queue, now, id, token, NeedsAttention, Some(ExternalResultUncertain)))
  {
    FinishLosesLease(c, now, id, token, outcome);
    EndedRows(c, now, id, token, OutcomeStatus(outcome), OutcomeCode(outcome));
  }

  // What was reserved is kept if the billable call was made or the job succeeded, and
  // given back otherwise.
  lemma FinishSettlesEntry(c: Core, now: Time, id: Id, token: Id, outcome: Outcome)
    requires Inv(c) && LeaseLive(c.queue, now, id, token) && Charged(c.queue.jobs[id])
    ensures FinishCurrent(c, now, id, token, outcome).Success?
    ensures var key := LedgerKey(c.queue.jobs[id].actorId, ContentEvaluations, ContentKey(id));
            var after := FinishCurrent(c, now, id, token, outcome).value;
            && key in c.quota.ledger
            && after.quota == c.quota.(ledger := c.quota.ledger[key := c.quota.ledger[key].(
                 state := if outcome == Success' || c.queue.jobs[id].externalStartedAt.Some? then Committed else Released)])
  {
    FinishLosesLease(c, now, id, token, outcome);
    assert EntryOk(c.quota.ledger, c.queue.jobs[id], id);
    SettledEntry(c, now, id, token, outcome);
  }

  lemma SettledEntry(c: Core, now: Time, id: Id, token: Id, outcome: Outcome)
    requires LeaseLive(c.queue, now, id, token) && Charged(c.queue.jobs[id]) && EntryOk(c.quota.ledger, c.queue.jobs[id], id)
    requires FinishCurrent(c, now, id, token, outcome).Success?
    ensures var key := LedgerKey(c.queue.jobs[id].actorId, ContentEvaluations, ContentKey(id));
            var after := FinishCurrent(c, now, id, token, outcome).value;
            && key in c.quota.ledger
            && after.quota == c.quota.(ledger := c.quota.ledger[key := c.quota.ledger[key].(
                 state := if outcome == Success' || c.queue.jobs[id].externalStartedAt.Some? then Committed else Released)])
  {
  }

  // ------------------------------------------------------------------------
  // recovery

  // The wait after an attempt doubles each time, up to a minute.
  lemma BackoffDoubles(n: nat)
    ensures Backoff(0) == 1000
    ensures Backoff(n + 1) == if 2 * Backoff(n) < 60000 then 2 * Backoff(n) else 60000
  {
  }

  lemma BackoffTable()
    ensures Backoff(1) == 2000 && Backoff(2) == 4000 && Backoff(3) == 8000 && Backoff(4) == 16000
  {
    BackoffDoubles(0);
    BackoffDoubles(1);
    BackoffDoubles(2);
    BackoffDoubles(3);
  }

  // A running job's lease is either live or expired, never both and never neither.
  lemma ExpiredOrLive(q: Queue, now: Time, id: Id, token: Id)
    requires id in q.jobs && q.jobs[id].status == Running
    requires q.jobs[id].leaseToken == Some(token) && q.jobs[id].leaseExpiresAt.Some?
    ensures LeaseExpired(q, now, id) <==> !LeaseLive(q, now, id, token)
    ensures LeaseExpired(q, now, id) <==> q.jobs[id].leaseExpiresAt.value <= now
  {
  }

  // The job waits for another attempt, its lease gone and its attempt over.
  ghost predicate WaitsAgain(q: Queue, after: Queue, now: Time, id: Id, token: Id) {
    && id in q.jobs && token in q.attempts
    && after.jobs == q.jobs[id := q.jobs[id].(status := RetryWait, failureCode := Some(LeaseExpiredBeforeExternal),
                                              leaseToken := None, leaseExpiresAt := None,
                                              availableAt := now + Backoff(q.jobs[id].attempts))]
    && after.attempts == q.attempts[token := q.attempts[token].(progress := Expired)]
    && after.usage == q.usage
  }

  lemma AbandonedRows(c: Core, now: Time, id: Id, token: Id)
    requires LeaseExpired(c.queue, now, id) && c.queue.jobs[id].leaseToken == Some(token)
    requires c.queue.jobs[id].externalStartedAt.Some? || c.queue.jobs[id].attempts == c.queue.jobs[id].maxAttempts
    requires RecoverOne(c, now, id, false).Success?
    ensures var uncertain := c.queue.jobs[id].externalStartedAt.Some?;
            EndedWith(c.queue, RecoverOne(c, now, id, false).value.queue, now, id, token,
                      if uncertain then NeedsAttention else Failed,
                      Some(if uncertain then ExternalResultUncertain else RetryExhausted))
  {
    var uncertain := c.queue.jobs[id].externalStartedAt.Some?;
    EndedRows(c, now, id, token, if uncertain then NeedsAttention else Failed,
              Some(if uncertain then ExternalResultUncertain else RetryExhausted));
  }

  lemma RequeuedRows(c: Core, now: Time, id: Id, token: Id)
    requires LeaseExpired(c.queue, now, id) && c.queue.jobs[id].leaseToken == Some(token)
    requires token in c.queue.attempts && c.queue.attempts[token].jobId == id && c.queue.attempts[token].progress == Ongoing
    requires c.queue.jobs[id].externalStartedAt.None? && c.queue.jobs[id].attempts < c.queue.jobs[id].maxAttempts
    requires RecoverOne(c, now, id, false).Success?
    ensures WaitsAgain(c.queue, RecoverOne(c, now, id, false).value.queue, now, id, token)
    ensures RecoverOne(c, now, id, false).value.quota == c.quota
  {
  }

  lemma ExpiredJob(c: Core, now: Time, id: Id) returns (token: Id)
    requires Inv(c) && LeaseExpired(c.queue, now, id)
    ensures c.queue.jobs[id].leaseToken == Some(token) && token in c.queue.attempts
    ensures c.queue.attempts[token].jobId == id && c.queue.attempts[token].progress == Ongoing
    ensures c.queue.jobs[id].attempts <= c.queue.jobs[id].maxAttempts
  {
    assert RowOk(c.queue.jobs[id]);
    token := c.queue.jobs[id].leaseToken.value;
  }

  // An expired job on a free video: if the billable call was made its result is
  // uncertain; if not, it has failed once its attempts are used up, and waits for
  // another one before.
  lemma RecoveryOutcome(c: Core, now: Time, id: Id)
    requires Inv(c) && LeaseExpired(c.queue, now, id)
    ensures var j := c.queue.jobs[id];
            var recovered := RecoverOne(c, now, id, false);
            && recovered.Success? && j.leaseToken.Some? && id in recovered.value.queue.jobs
            && var token, after := j.leaseToken.value, recovered.value.queue;
            && (after.jobs[id].status == NeedsAttention <==> j.externalStartedAt.Some?)
            && (after.jobs[id].status == Failed <==> j.externalStartedAt.None? && j.attempts == j.maxAttempts)
            && (after.jobs[id].status == RetryWait <==> j.externalStartedAt.None? && j.attempts < j.maxAttempts)
            && (after.jobs[id].status == NeedsAttention ==>
                  EndedWith(c.queue, after, now, id, token, NeedsAttention, Some(ExternalResultUncertain)))
            && (after.jobs[id].status == Failed ==> EndedWith(c.queue, after, now, id, token, Failed, Some(RetryExhausted)))
            && (after.jobs[id].status == RetryWait ==>
                  WaitsAgain(c.queue, after, now, id, token) && recovered.value.quota == c.quota)
  {
    var j := c.queue.jobs[id];
    RecoverInv(c, now, id, false);
    var token := ExpiredJob(c, now, id);
    if j.externalStartedAt.Some? || j.attempts == j.maxAttempts {
      AbandonedRows(c, now, id, token);
    } else {
      RequeuedRows(c, now, id, token);
    }
  }

  // Without an expired lease, or while the video is locked, recovery does nothing.
  lemma RecoveryLeavesOthersAlone(c: Core, now: Time, id: Id, videoLocked: bool)
    requires videoLocked || !LeaseExpired(c.queue, now, id)
    ensures RecoverOne(c, now, id, videoLocked) == Success(c)
  {
  }

  predicate Concerns(j: Job, input: JobInput) {
    Occupies(j, input) || (j.stage == input.stage && j.target == input.target)
  }

  // A running evaluation without a job is closed as uncertain, unless it has a job
  // after all, its video is being worked on, or it is over.
  lemma OrphanOutcome(c: Core, now: Time, id: Id, input: JobInput, stillRunning: bool)
    requires LedgerOk(c) && id !in c.queue.jobs && RecoverOrphan(c, now, id, input, stillRunning).Success?
    ensures var after := RecoverOrphan(c, now, id, input, stillRunning).value;
            if !stillRunning || (exists k :: k in c.queue.jobs && Concerns(c.queue.jobs[k], input)) then after == c
            else
              && after.quota == c.quota && id in after.queue.jobs
              && after.queue == c.queue.(jobs := c.queue.jobs[id := after.queue.jobs[id]])
              && after.queue.jobs[id].target == input.target
              && after.queue.jobs[id].status == NeedsAttention
              && after.queue.jobs[id].failureCode == Some(LegacyExternalResultUncertain)
  {
    if !TargetTaken(c.queue, input.stage, input.target) && !HasActive(c.queue, input.videoId, input.stage) && stillRunning {
      OrphanIsClosedAtOnce(c, now, id, input);
    }
  }

  // ------------------------------------------------------------------------
  // Endings over whole runs

  // A code says how the job ended: exhausted attempts only without a billable call,
  // an uncertain result only with a job that needs attention.
  predicate CodeOk(j: Job) {
    && (j.status == Succeeded ==> j.failureCode.None?)
    && (j.status == Failed ==> j.failureCode == Some(RetryExhausted) || j.failureCode == Some(EvaluationFailed))
    && (j.status == NeedsAttention ==>
          j.failureCode == Some(ExternalResultUncertain) || j.failureCode == Some(LegacyExternalResultUncertain))
    && (Active(j) ==> j.failureCode.None? || j.failureCode == Some(LeaseExpiredBeforeExternal))
    && (j.failureCode == Some(RetryExhausted) ==> j.externalStartedAt.None? && j.attempts >= j.maxAttempts)
  }

  ghost predicate CodesOk(jobs: map<Id, Job>) {
    forall id :: id in jobs ==> CodeOk(jobs[id])
  }

  lemma InsertedCode(c: Core, now: Time, op: Op, id: Id)
    requires (op.OpEnqueue? || op.OpOrphan?) && id in Step(c, now, op).queue.jobs
    requires id in c.queue.jobs ==> CodeOk(c.queue.jobs[id])
    ensures CodeOk(Step(c, now, op).queue.jobs[id])
  {
    if id in c.queue.jobs { InsertionMovesNothing(c, now, op, id); }
  }

  lemma RecoveredCode(c: Core, now: Time, target: Id, videoLocked: bool, id: Id)
    requires id in c.queue.jobs && CodeOk(c.queue.jobs[id]) && RecoverOne(c, now, target, videoLocked).Success?
    ensures id in RecoverOne(c, now, target, videoLocked).value.queue.jobs
    ensures CodeOk(RecoverOne(c, now, target, videoLocked).value.queue.jobs[id])
  {
  }

  lemma FinishedCode(c: Core, now: Time, target: Id, token: Id, outcome: Outcome, id: Id)
    requires id in c.queue.jobs && CodeOk(c.queue.jobs[id]) && FinishCurrent(c, now, target, token, outcome).Success?
    ensures id in FinishCurrent(c, now, target, token, outcome).value.queue.jobs
    ensures CodeOk(FinishCurrent(c, now, target, token, outcome).value.queue.jobs[id])
  {
  }

  lemma StepKeepsCode(c: Core, now: Time, op: Op, id: Id)
    requires id in Step(c, now, op).queue.jobs && (id in c.queue.jobs ==> CodeOk(c.queue.jobs[id]))
    ensures CodeOk(Step(c, now, op).queue.jobs[id])
  {
    if op.OpEnqueue? || op.OpOrphan? {
      InsertedCode(c, now, op, id);
    } else if WellFormed(c, op) && Effect(c, now, op).Success? {
      match op
      case OpRecover(target, videoLocked) => RecoveredCode(c, now, target, videoLocked, id);
      case OpFinish(target, token, outcome) => FinishedCode(c, now, target, token, outcome, id);
      case _ =>
    }
  }

  lemma StepKeepsCodes(c: Core, now: Time, op: Op)
    requires CodesOk(c.queue.jobs)
    ensures CodesOk(Step(c, now, op).queue.jobs)
  {
    forall id | id in Step(c, now, op).queue.jobs ensures CodeOk(Step(c, now, op).queue.jobs[id]) {
      StepKeepsCode(c, now, op, id);
    }
  }

  lemma {:induction false} CodesStay(c: Core, steps: seq<Timed>)
    requires CodesOk(c.queue.jobs)
    ensures CodesOk(Execute(c, steps).queue.jobs)
    decreases |steps|
  {
    if steps != [] {
      StepKeepsCodes(c, steps[0].now, steps[0].op);
      CodesStay(Step(c, steps[0].now, steps[0].op), steps[1..]);
    }
  }

  // In every reachable state a job with exhausted attempts was never billed, and an
  // uncertain result always needs attention.
  lemma CodesMeanWhatTheySay(c: Core, steps: seq<Timed>, id: Id)
    requires CodesOk(c.queue.jobs)
    ensures var after := Execute(c, steps).queue;
            id in after.jobs ==>
              && (after.jobs[id].failureCode == Some(RetryExhausted) ==>
                    after.jobs[id].status == Failed && after.jobs[id].externalStartedAt.None?)
              && (after.jobs[id].failureCode == Some(ExternalResultUncertain) ==> after.jobs[id].status == NeedsAttention)
  {
    CodesStay(c, steps);
  }
}
