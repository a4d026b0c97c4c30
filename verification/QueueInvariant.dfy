// What every reachable queue state satisfies.
module QueueInvariant {
  import opened Basics
  import opened QuotaModel
  import opened QueueModel

  // ------------------------------------------------------------------------
  // Job rows

  // A lease exists exactly while the job runs; a waiting job has an attempt left
  // and was never externally started.
  predicate RowOk(j: Job) {
    && 1 <= j.maxAttempts
    && j.attempts <= j.maxAttempts
    && (j.leaseToken.Some? <==> j.status == Running)
    && (j.leaseExpiresAt.Some? <==> j.status == Running)
    && (Waiting(j) ==> j.attempts < j.maxAttempts && j.externalStartedAt.None?)
    && (j.status == Running ==> 1 <= j.attempts)
    && (Active(j) ==> j.failureCode != Some(LegacyExternalResultUncertain))
  }

  ghost predicate RowsOk(jobs: map<Id, Job>) {
    forall id :: id in jobs ==> RowOk(jobs[id])
  }

  predicate SamePlace(j: Job, k: Job) { j.videoId == k.videoId && j.stage == k.stage }

  ghost predicate OneActivePerStage(jobs: map<Id, Job>) {
    forall i, k :: i in jobs && k in jobs && Active(jobs[i]) && Active(jobs[k]) && SamePlace(jobs[i], jobs[k]) ==> i == k
  }

  ghost predicate OneRunning(jobs: map<Id, Job>) {
    forall i, k :: i in jobs && k in jobs && jobs[i].status == Running && jobs[k].status == Running ==> i == k
  }

  predicate SameTarget(j: Job, k: Job) { j.stage == k.stage && j.target == k.target }

  ghost predicate OneJobPerTarget(jobs: map<Id, Job>) {
    forall i, k :: i in jobs && k in jobs && SameTarget(jobs[i], jobs[k]) ==> i == k
  }

  predicate RetryOf(jobs: map<Id, Job>, i: Id, original: Id)
    requires i in jobs
  {
    jobs[i].retriedFromId == Some(original)
  }

  // A job is retried at most once, and only after it failed or needed attention.
  ghost predicate RetriesOk(jobs: map<Id, Job>) {
    && (forall i, o :: i in jobs && RetryOf(jobs, i, o) ==> o in jobs && Retryable(jobs[o]))
    && (forall i, k, o :: i in jobs && k in jobs && RetryOf(jobs, i, o) && RetryOf(jobs, k, o) ==> i == k)
  }

  ghost predicate JobsOk(jobs: map<Id, Job>) {
    && RowsOk(jobs)
    && OneActivePerStage(jobs)
    && OneRunning(jobs)
    && OneJobPerTarget(jobs)
    && RetriesOk(jobs)
  }

  // ------------------------------------------------------------------------
  // Attempts and usage records

  predicate IsAttempt(attempts: map<Id, Attempt>, t: Id, id: Id, number: nat) {
    t in attempts && attempts[t].jobId == id && attempts[t].number == number
  }

  ghost predicate HasAttempt(attempts: map<Id, Attempt>, id: Id, number: nat) {
    exists t :: IsAttempt(attempts, t, id, number)
  }

  // A job's attempts are numbered 1, 2, ..., attempts.
  ghost predicate NumberedOnce(attempts: map<Id, Attempt>) {
    forall s, t, id, n: nat :: IsAttempt(attempts, s, id, n) && IsAttempt(attempts, t, id, n) ==> s == t
  }

  ghost predicate NumberedFully(q: Queue) {
    forall id, n: nat :: id in q.jobs && 1 <= n <= q.jobs[id].attempts ==> HasAttempt(q.attempts, id, n)
  }

  // The attempt that holds the lease is the ongoing one. An externally started
  // attempt is the job's last, and its job carries the marker.
  ghost predicate AttemptOk(jobs: map<Id, Job>, t: Id, a: Attempt) {
    && a.jobId in jobs
    && 1 <= a.number <= jobs[a.jobId].attempts
    && (a.progress == Ongoing <==> jobs[a.jobId].leaseToken == Some(t))
    && (a.progress == Ongoing ==> a.number == jobs[a.jobId].attempts)
    && (a.externalStartedAt.Some? <==> a.number == jobs[a.jobId].attempts && jobs[a.jobId].externalStartedAt.Some?)
  }

  ghost predicate AttemptsOk(q: Queue) {
    forall t :: t in q.attempts ==> AttemptOk(q.jobs, t, q.attempts[t])
  }

  ghost predicate LeasesOk(q: Queue) {
    forall id :: id in q.jobs && q.jobs[id].leaseToken.Some? ==>
      q.jobs[id].leaseToken.value in q.attempts && q.attempts[q.jobs[id].leaseToken.value].jobId == id
  }

  // Exactly the externally started attempts have a usage record.
  ghost predicate UsageOk(attempts: map<Id, Attempt>, usage: map<Id, Usage>) {
    && (forall t :: t in usage ==> t in attempts && attempts[t].externalStartedAt.Some? && usage[t].jobId == attempts[t].jobId)
    && (forall t :: t in attempts && attempts[t].externalStartedAt.Some? ==> t in usage)
  }

  ghost predicate QueueOk(q: Queue) {
    && JobsOk(q.jobs)
    && NumberedOnce(q.attempts)
    && NumberedFully(q)
    && AttemptsOk(q)
    && LeasesOk(q)
    && UsageOk(q.attempts, q.usage)
  }

  // ------------------------------------------------------------------------
  // The ledger

  // Jobs of the quota stages that were queued by a user, not found as legacy orphans.
  predicate Charged(j: Job) {
    UsesQuota(j.stage) && j.failureCode != Some(LegacyExternalResultUncertain)
  }

  // The state of a job's quota entry, read off the job row.
  function ExpectedEntry(j: Job): EntryState {
    if Active(j) then Reserved
    else if j.externalStartedAt.Some? || j.status == Succeeded then Committed
    else Released
  }

  predicate EntryOk(ledger: map<LedgerKey, Entry>, j: Job, id: Id) {
    && EntryKey(j, id) in ledger
    && ledger[EntryKey(j, id)].state == ExpectedEntry(j)
    && ledger[EntryKey(j, id)].amount == 1
  }

  // Every charged job has its entry in the expected state...
  ghost predicate EntriesOk(ledger: map<LedgerKey, Entry>, jobs: map<Id, Job>) {
    forall id :: id in jobs && Charged(jobs[id]) ==> EntryOk(ledger, jobs[id], id)
  }

  // ... and there are no other content entries.
  ghost predicate NoStrayEntries(ledger: map<LedgerKey, Entry>, jobs: map<Id, Job>) {
    forall k: LedgerKey :: k in ledger && k.key.ContentKey? ==>
      k.key.jobId in jobs && k == EntryKey(jobs[k.key.jobId], k.key.jobId) && Charged(jobs[k.key.jobId])
  }

  ghost predicate ActorsExist(users: map<Id, User>, jobs: map<Id, Job>) {
    forall id :: id in jobs ==> jobs[id].actorId in users
  }

  ghost predicate LedgerOk(c: Core) {
    && NonNegative(c.quota.ledger)
    && ActorsExist(c.quota.users, c.queue.jobs)
    && EntriesOk(c.quota.ledger, c.queue.jobs)
    && NoStrayEntries(c.quota.ledger, c.queue.jobs)
  }

  ghost predicate Inv(c: Core) {
    QueueOk(c.queue) && LedgerOk(c)
  }

  lemma EmptyInv(quota: Quota)
    requires quota.ledger == map[]
    ensures Inv(Core(quota, Queue(map[], map[], map[])))
  {
  }

  // ------------------------------------------------------------------------
  // What the invariant says about one state

  // At most one attempt of a job is ever externally started, and so at most one
  // usage record exists for it; a waiting job has none at all.
  lemma OneBillableAttempt(q: Queue, s: Id, t: Id)
    requires QueueOk(q)
    requires s in q.attempts && t in q.attempts && q.attempts[s].jobId == q.attempts[t].jobId
    requires q.attempts[s].externalStartedAt.Some? && q.attempts[t].externalStartedAt.Some?
    ensures s == t
    ensures q.attempts[s].jobId in q.jobs && !Waiting(q.jobs[q.attempts[s].jobId])
  {
    var a := q.attempts[s];
    assert AttemptOk(q.jobs, s, a) && AttemptOk(q.jobs, t, q.attempts[t]);
    assert RowOk(q.jobs[a.jobId]);
    assert IsAttempt(q.attempts, s, a.jobId, a.number) && IsAttempt(q.attempts, t, a.jobId, a.number);
  }

  lemma OneUsagePerJob(q: Queue, s: Id, t: Id)
    requires QueueOk(q)
    requires s in q.usage && t in q.usage && q.usage[s].jobId == q.usage[t].jobId
    ensures s == t
  {
    OneBillableAttempt(q, s, t);
  }

  // A job is retried at most once, and only after it failed or needed attention.
  lemma RetriedOnce(q: Queue, i: Id, k: Id)
    requires QueueOk(q) && i in q.jobs && k in q.jobs && q.jobs[i].retriedFromId.Some?
    requires q.jobs[i].retriedFromId == q.jobs[k].retriedFromId
    ensures i == k && q.jobs[i].retriedFromId.value in q.jobs && Retryable(q.jobs[q.jobs[i].retriedFromId.value])
  {
    var o := q.jobs[i].retriedFromId.value;
    assert RetryOf(q.jobs, i, o) && RetryOf(q.jobs, k, o);
  }

  // Claiming clears the external marker, but there never is one to clear.
  lemma ClaimClearsNothing(q: Queue, now: Time, id: Id, token: Id, leaseMs: nat)
    requires QueueOk(q) && id in q.jobs && Waiting(q.jobs[id])
    ensures ClaimRows(q, now, id, token, leaseMs).jobs[id].externalStartedAt == q.jobs[id].externalStartedAt
    ensures ClaimRows(q, now, id, token, leaseMs).jobs[id].attempts <= q.jobs[id].maxAttempts
  {
    assert RowOk(q.jobs[id]);
  }

  // A running job's lease token is the token of the only ongoing attempt of all jobs.
  lemma TokenIsTheOngoingAttempt(q: Queue, id: Id, t: Id)
    requires QueueOk(q) && id in q.jobs && q.jobs[id].status == Running && t in q.attempts
    ensures q.attempts[t].progress == Ongoing <==> q.jobs[id].leaseToken == Some(t)
  {
    var a := q.attempts[t];
    assert AttemptOk(q.jobs, t, a);
    assert RowOk(q.jobs[id]) && RowOk(q.jobs[a.jobId]);
    if a.progress == Ongoing {
      assert q.jobs[a.jobId].status == Running;
      assert a.jobId == id;
    }
  }

  // While a job is active its entry is reserved or absent, so finishing it in
  // any way never meets an entry that is already settled.
  lemma FinishNeverConflicts(c: Core, now: Time, id: Id, token: Option<Id>, status: JobStatus, code: Option<FailureCode>)
    requires Inv(c) && id in c.queue.jobs && Active(c.queue.jobs[id])
    requires token.Some? ==> token.value in c.queue.attempts
    ensures Finish(c, now, id, token, status, code).Success?
  {
    var j := c.queue.jobs[id];
    assert RowOk(j);
    assert Charged(j) ==> EntryOk(c.quota.ledger, j, id);
    ReservedSettles(c, now, id, token, status, code);
  }

  lemma ReservedSettles(c: Core, now: Time, id: Id, token: Option<Id>, status: JobStatus, code: Option<FailureCode>)
    requires id in c.queue.jobs && Active(c.queue.jobs[id]) && RowOk(c.queue.jobs[id])
    requires c.queue.jobs[id].actorId in c.quota.users
    requires Charged(c.queue.jobs[id]) ==> EntryOk(c.quota.ledger, c.queue.jobs[id], id)
    requires token.Some? ==> token.value in c.queue.attempts
    ensures Finish(c, now, id, token, status, code).Success?
  {
  }

}
