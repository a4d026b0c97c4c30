// Every transaction keeps the queue invariant.
module QueueSteps {
  import opened Basics
  import opened QuotaModel
  import opened QueueModel
  import opened QueueInvariant

  // ------------------------------------------------------------------------
  // Job rows

  lemma InsertJob(q: Queue, id: Id, j: Job)
    requires JobsOk(q.jobs) && id !in q.jobs
    requires RowOk(j) && j.status != Running
    requires Active(j) ==> !HasActive(q, j.videoId, j.stage)
    requires !TargetTaken(q, j.stage, j.target)
    requires j.retriedFromId.Some? ==>
               && j.retriedFromId.value in q.jobs && Retryable(q.jobs[j.retriedFromId.value])
               && !AlreadyRetried(q, j.retriedFromId.value)
    ensures JobsOk(q.jobs[id := j])
  {
    var jobs := q.jobs[id := j];
    assert OneActivePerStage(jobs) by {
      assert forall i :: i in q.jobs && Active(j) && Active(q.jobs[i]) ==> !SamePlace(j, q.jobs[i]);
    }
    assert OneJobPerTarget(jobs) by {
      assert forall i :: i in q.jobs ==> !SameTarget(j, q.jobs[i]);
    }
    assert RetriesOk(jobs) by {
      assert forall i, o :: i in q.jobs && RetryOf(jobs, i, o) ==> RetryOf(q.jobs, i, o);
      assert forall i, o :: i in q.jobs && RetryOf(jobs, id, o) ==> !RetryOf(q.jobs, i, o);
    }
  }

  predicate SameBinding(j: Job, k: Job) {
    && j.videoId == k.videoId && j.actorId == k.actorId && j.stage == k.stage && j.target == k.target
    && j.revisionId == k.revisionId && j.retriedFromId == k.retriedFromId
    && j.maxAttempts == k.maxAttempts && j.createdAt == k.createdAt
  }

  lemma ChangeJob(q: Queue, id: Id, j: Job)
    requires JobsOk(q.jobs) && id in q.jobs
    requires RowOk(j) && SameBinding(q.jobs[id], j)
    requires Active(q.jobs[id])
    requires j.status == Running ==> q.jobs[id].status == Running || !AnyRunning(q)
    ensures JobsOk(q.jobs[id := j])
  {
    var jobs := q.jobs[id := j];
    assert OneRunning(jobs) by {
      assert j.status == Running && q.jobs[id].status != Running ==> forall i :: i in q.jobs ==> q.jobs[i].status != Running;
    }
    assert OneActivePerStage(jobs);
    assert OneJobPerTarget(jobs);
    assert RetriesOk(jobs) by {
      assert forall i, o :: i in q.jobs ==> (RetryOf(jobs, i, o) <==> RetryOf(q.jobs, i, o));
    }
  }

  // ------------------------------------------------------------------------
  // Attempts and usage records

  lemma InsertJobAttempts(q: Queue, id: Id, j: Job)
    requires QueueOk(q) && id !in q.jobs
    requires j.attempts == 0 && j.leaseToken.None?
    requires JobsOk(q.jobs[id := j])
    ensures QueueOk(q.(jobs := q.jobs[id := j]))
  {
    var r := q.(jobs := q.jobs[id := j]);
    assert AttemptsOk(r) by {
      forall t | t in r.attempts ensures AttemptOk(r.jobs, t, r.attempts[t]) {
        assert AttemptOk(q.jobs, t, q.attempts[t]);
      }
    }
    assert NumberedFully(r);
  }

  lemma SameAttemptRows(q: Queue, id: Id, j: Job)
    requires AttemptsOk(q) && id in q.jobs
    requires j.attempts == q.jobs[id].attempts && j.leaseToken == q.jobs[id].leaseToken
    requires j.externalStartedAt == q.jobs[id].externalStartedAt
    ensures AttemptsOk(q.(jobs := q.jobs[id := j]))
  {
    var r := q.(jobs := q.jobs[id := j]);
    forall t | t in r.attempts ensures AttemptOk(r.jobs, t, r.attempts[t]) {
      assert AttemptOk(q.jobs, t, q.attempts[t]);
    }
  }

  lemma SameNumberRange(q: Queue, id: Id, j: Job)
    requires NumberedFully(q) && id in q.jobs && j.attempts == q.jobs[id].attempts
    ensures NumberedFully(q.(jobs := q.jobs[id := j]))
  {
  }

  // Only the lease time, the schedule or the failure code changed.
  lemma SameAttempts(q: Queue, id: Id, j: Job)
    requires QueueOk(q) && id in q.jobs
    requires j.attempts == q.jobs[id].attempts && j.leaseToken == q.jobs[id].leaseToken
    requires j.externalStartedAt == q.jobs[id].externalStartedAt
    requires JobsOk(q.jobs[id := j])
    ensures QueueOk(q.(jobs := q.jobs[id := j]))
  {
    SameAttemptRows(q, id, j);
    SameNumberRange(q, id, j);
    LeasesKept(q, q.(jobs := q.jobs[id := j]), id);
  }

  lemma KeptNumbers(before: map<Id, Attempt>, after: map<Id, Attempt>, id: Id, n: nat)
    requires HasAttempt(before, id, n)
    requires forall t :: t in before ==> t in after && after[t].jobId == before[t].jobId && after[t].number == before[t].number
    ensures HasAttempt(after, id, n)
  {
    var t :| IsAttempt(before, t, id, n);
    assert IsAttempt(after, t, id, n);
  }

  lemma ClaimJobs(q: Queue, now: Time, id: Id, token: Id, leaseMs: nat)
    requires JobsOk(q.jobs) && id in q.jobs && Waiting(q.jobs[id]) && !AnyRunning(q)
    ensures JobsOk(ClaimRows(q, now, id, token, leaseMs).jobs)
  {
    var k := ClaimRows(q, now, id, token, leaseMs).jobs[id];
    assert RowOk(q.jobs[id]) && RowOk(k);
    ChangeJob(q, id, k);
  }

  lemma ClaimAttempts(q: Queue, now: Time, id: Id, token: Id, leaseMs: nat)
    requires AttemptsOk(q) && RowsOk(q.jobs) && id in q.jobs && Waiting(q.jobs[id]) && token !in q.attempts
    ensures AttemptsOk(ClaimRows(q, now, id, token, leaseMs))
  {
    var r := ClaimRows(q, now, id, token, leaseMs);
    assert RowOk(q.jobs[id]);
    forall t | t in q.attempts ensures AttemptOk(r.jobs, t, r.attempts[t]) {
      assert AttemptOk(q.jobs, t, q.attempts[t]);
    }
    assert AttemptOk(r.jobs, token, r.attempts[token]);
  }

  lemma ClaimLeases(q: Queue, now: Time, id: Id, token: Id, leaseMs: nat)
    requires LeasesOk(q) && UsageOk(q.attempts, q.usage) && id in q.jobs && token !in q.attempts
    ensures var r := ClaimRows(q, now, id, token, leaseMs); LeasesOk(r) && UsageOk(r.attempts, r.usage)
  {
  }

  lemma ClaimQueue(q: Queue, now: Time, id: Id, token: Id, leaseMs: nat)
    requires QueueOk(q) && id in q.jobs && Waiting(q.jobs[id]) && !AnyRunning(q) && token !in q.attempts
    ensures QueueOk(ClaimRows(q, now, id, token, leaseMs))
  {
    ClaimJobs(q, now, id, token, leaseMs);
    ClaimAttempts(q, now, id, token, leaseMs);
    ClaimNumbers(q, now, id, token, leaseMs);
    ClaimLeases(q, now, id, token, leaseMs);
  }

  lemma ClaimNumbers(q: Queue, now: Time, id: Id, token: Id, leaseMs: nat)
    requires AttemptsOk(q) && NumberedOnce(q.attempts) && NumberedFully(q) && id in q.jobs && token !in q.attempts
    ensures var r := ClaimRows(q, now, id, token, leaseMs); NumberedOnce(r.attempts) && NumberedFully(r)
  {
    var r := ClaimRows(q, now, id, token, leaseMs);
    forall s, t, k, n: nat | IsAttempt(r.attempts, s, k, n) && IsAttempt(r.attempts, t, k, n) ensures s == t {
      if s != token { assert IsAttempt(q.attempts, s, k, n) && AttemptOk(q.jobs, s, q.attempts[s]); }
      if t != token { assert IsAttempt(q.attempts, t, k, n) && AttemptOk(q.jobs, t, q.attempts[t]); }
    }
    forall k, n: nat | k in r.jobs && 1 <= n <= r.jobs[k].attempts ensures HasAttempt(r.attempts, k, n) {
      if k == id && n == r.jobs[id].attempts {
        assert IsAttempt(r.attempts, token, k, n);
      } else {
        KeptNumbers(q.attempts, r.attempts, k, n);
      }
    }
  }

  // One attempt row was rewritten; its job and number stayed.
  lemma SameNumbers(q: Queue, r: Queue, token: Id, a: Attempt)
    requires NumberedOnce(q.attempts) && NumberedFully(q)
    requires token in q.attempts && a.jobId == q.attempts[token].jobId && a.number == q.attempts[token].number
    requires r.attempts == q.attempts[token := a]
    requires r.jobs.Keys == q.jobs.Keys && forall id :: id in q.jobs ==> r.jobs[id].attempts == q.jobs[id].attempts
    ensures NumberedOnce(r.attempts) && NumberedFully(r)
  {
    forall s, t, k, n: nat | IsAttempt(r.attempts, s, k, n) && IsAttempt(r.attempts, t, k, n) ensures s == t {
      assert IsAttempt(q.attempts, s, k, n) && IsAttempt(q.attempts, t, k, n);
    }
    forall k, n: nat | k in r.jobs && 1 <= n <= r.jobs[k].attempts ensures HasAttempt(r.attempts, k, n) {
      assert k in q.jobs;
      KeptNumbers(q.attempts, r.attempts, k, n);
    }
  }

  lemma MarkAttempts(q: Queue, now: Time, id: Id, token: Id)
    requires AttemptsOk(q) && NumberedOnce(q.attempts) && id in q.jobs && token in q.attempts
    requires q.jobs[id].leaseToken == Some(token) && q.attempts[token].jobId == id
    ensures AttemptsOk(MarkRows(q, now, id, token))
  {
    var r := MarkRows(q, now, id, token);
    assert AttemptOk(q.jobs, token, q.attempts[token]);
    forall t | t in r.attempts ensures AttemptOk(r.jobs, t, r.attempts[t]) {
      assert AttemptOk(q.jobs, t, q.attempts[t]);
      if t != token { OtherNumber(q, token, t); }
    }
  }

  // The lease holder marks the external start.
  lemma MarkQueue(q: Queue, now: Time, id: Id, token: Id)
    requires QueueOk(q) && id in q.jobs && q.jobs[id].leaseToken == Some(token)
    ensures token in q.attempts && QueueOk(MarkRows(q, now, id, token))
  {
    assert token in q.attempts && q.attempts[token].jobId == id;
    var r := MarkRows(q, now, id, token);
    MarkJob(q, id, q.jobs[id].(externalStartedAt := Some(now)));
    SameNumbers(q, r, token, r.attempts[token]);
    MarkAttempts(q, now, id, token);
    LeasesKept(q, r, id);
    MarkUsage(q, now, id, token);
  }

  lemma MarkJob(q: Queue, id: Id, j: Job)
    requires JobsOk(q.jobs) && id in q.jobs && q.jobs[id].leaseToken.Some? && j == q.jobs[id].(externalStartedAt := j.externalStartedAt)
    ensures JobsOk(q.jobs[id := j])
  {
    assert RowOk(q.jobs[id]) && RowOk(j);
    ChangeJob(q, id, j);
  }

  lemma MarkUsage(q: Queue, now: Time, id: Id, token: Id)
    requires UsageOk(q.attempts, q.usage) && id in q.jobs && token in q.attempts && q.attempts[token].jobId == id
    ensures var r := MarkRows(q, now, id, token); UsageOk(r.attempts, r.usage)
  {
  }

  lemma LeasesKept(q: Queue, r: Queue, id: Id)
    requires LeasesOk(q) && id in q.jobs && id in r.jobs && r.jobs == q.jobs[id := r.jobs[id]]
    requires r.jobs[id].leaseToken.Some? ==> r.jobs[id].leaseToken == q.jobs[id].leaseToken
    requires forall t :: t in q.attempts ==> t in r.attempts && r.attempts[t].jobId == q.attempts[t].jobId
    ensures LeasesOk(r)
  {
  }

  lemma OtherNumber(q: Queue, s: Id, t: Id)
    requires NumberedOnce(q.attempts) && s in q.attempts && t in q.attempts && s != t
    ensures q.attempts[s].jobId == q.attempts[t].jobId ==> q.attempts[s].number != q.attempts[t].number
  {
    assert IsAttempt(q.attempts, s, q.attempts[s].jobId, q.attempts[s].number);
    assert IsAttempt(q.attempts, t, q.attempts[t].jobId, q.attempts[t].number);
  }

  ghost predicate SameUsageJobs(before: map<Id, Usage>, after: map<Id, Usage>) {
    && (forall t :: t in after ==> t in before && after[t].jobId == before[t].jobId)
    && (forall t :: t in before ==> t in after)
  }

  function CloseRows(q: Queue, id: Id, token: Id, j: Job, progress: Progress, usage: map<Id, Usage>): Queue
    requires token in q.attempts
  {
    Queue(q.jobs[id := j], q.attempts[token := q.attempts[token].(progress := progress)], usage)
  }

  lemma CloseAttempts(q: Queue, id: Id, token: Id, j: Job, progress: Progress, usage: map<Id, Usage>)
    requires AttemptsOk(q) && id in q.jobs && token in q.attempts
    requires q.jobs[id].leaseToken == Some(token) && q.attempts[token].jobId == id
    requires j.attempts == q.jobs[id].attempts && j.externalStartedAt == q.jobs[id].externalStartedAt
    requires j.leaseToken.None? && progress != Ongoing
    ensures AttemptsOk(CloseRows(q, id, token, j, progress, usage))
  {
    var r := CloseRows(q, id, token, j, progress, usage);
    forall t | t in r.attempts ensures AttemptOk(r.jobs, t, r.attempts[t]) {
      assert AttemptOk(q.jobs, t, q.attempts[t]);
    }
  }

  lemma CloseJobs(q: Queue, id: Id, j: Job)
    requires JobsOk(q.jobs) && id in q.jobs && q.jobs[id].leaseToken.Some?
    requires RowOk(j) && SameBinding(q.jobs[id], j) && j.status != Running
    ensures JobsOk(q.jobs[id := j])
  {
    assert RowOk(q.jobs[id]);
    ChangeJob(q, id, j);
  }

  lemma CloseNumbers(q: Queue, id: Id, token: Id, j: Job, progress: Progress, usage: map<Id, Usage>)
    requires NumberedOnce(q.attempts) && NumberedFully(q) && id in q.jobs && token in q.attempts
    requires j.attempts == q.jobs[id].attempts
    ensures NumberedOnce(CloseRows(q, id, token, j, progress, usage).attempts)
    ensures NumberedFully(CloseRows(q, id, token, j, progress, usage))
  {
    var r := CloseRows(q, id, token, j, progress, usage);
    SameNumbers(q, r, token, r.attempts[token]);
  }

  lemma CloseLeases(q: Queue, id: Id, token: Id, j: Job, progress: Progress, usage: map<Id, Usage>)
    requires LeasesOk(q) && id in q.jobs && token in q.attempts && j.leaseToken.None?
    ensures LeasesOk(CloseRows(q, id, token, j, progress, usage))
  {
    LeasesKept(q, CloseRows(q, id, token, j, progress, usage), id);
  }

  // The lease is given up: its attempt is no longer ongoing.
  lemma CloseQueue(q: Queue, id: Id, token: Id, j: Job, progress: Progress, usage: map<Id, Usage>)
    requires QueueOk(q) && id in q.jobs && q.jobs[id].leaseToken == Some(token)
    requires RowOk(j) && SameBinding(q.jobs[id], j) && j.status != Running
    requires j.attempts == q.jobs[id].attempts && j.externalStartedAt == q.jobs[id].externalStartedAt
    requires progress != Ongoing
    requires SameUsageJobs(q.usage, usage)
    ensures token in q.attempts
    ensures QueueOk(CloseRows(q, id, token, j, progress, usage))
  {
    assert token in q.attempts && q.attempts[token].jobId == id;
    CloseJobs(q, id, j);
    CloseNumbers(q, id, token, j, progress, usage);
    CloseAttempts(q, id, token, j, progress, usage);
    CloseLeases(q, id, token, j, progress, usage);
    CloseUsage(q, token, progress, usage);
  }

  lemma CloseUsage(q: Queue, token: Id, progress: Progress, usage: map<Id, Usage>)
    requires UsageOk(q.attempts, q.usage) && token in q.attempts
    requires SameUsageJobs(q.usage, usage)
    ensures UsageOk(q.attempts[token := q.attempts[token].(progress := progress)], usage)
  {
  }

  // ------------------------------------------------------------------------
  // The ledger

  lemma InsertCharged(c: Core, now: Time, id: Id, j: Job)
    requires LedgerOk(c) && id !in c.queue.jobs && j.actorId in c.quota.users
    requires Charged(j) && Active(j)
    requires Reserve(c.quota, now, j.actorId, ContentEvaluations, 1, ContentKey(id)).Success?
    ensures LedgerOk(Core(Reserve(c.quota, now, j.actorId, ContentEvaluations, 1, ContentKey(id)).value,
                          c.queue.(jobs := c.queue.jobs[id := j])))
  {
    var ledger := c.quota.ledger;
    var after := Reserve(c.quota, now, j.actorId, ContentEvaluations, 1, ContentKey(id)).value.ledger;
    var jobs := c.queue.jobs[id := j];
    var k := EntryKey(j, id);
    assert k !in ledger;
    assert k in after && after == ledger[k := after[k]] && after[k].state == Reserved && after[k].amount == 1;
    forall i | i in jobs && Charged(jobs[i]) ensures EntryOk(after, jobs[i], i) {
      if i != id { assert EntryOk(ledger, c.queue.jobs[i], i); }
    }
  }

  lemma InsertUncharged(c: Core, id: Id, j: Job)
    requires LedgerOk(c) && id !in c.queue.jobs && j.actorId in c.quota.users && !Charged(j)
    ensures LedgerOk(c.(queue := c.queue.(jobs := c.queue.jobs[id := j])))
  {
    var jobs := c.queue.jobs[id := j];
    forall i | i in jobs && Charged(jobs[i]) ensures EntryOk(c.quota.ledger, jobs[i], i) {
      assert EntryOk(c.quota.ledger, c.queue.jobs[i], i);
    }
  }

  // The job stays active, and so its entry stays reserved.
  lemma StillReserved(c: Core, r: Queue, id: Id, j: Job)
    requires LedgerOk(c) && id in c.queue.jobs && r.jobs == c.queue.jobs[id := j]
    requires Active(c.queue.jobs[id]) && Active(j) && SameBinding(c.queue.jobs[id], j)
    requires Charged(c.queue.jobs[id]) == Charged(j)
    ensures LedgerOk(c.(queue := r))
  {
    forall i | i in r.jobs && Charged(r.jobs[i]) ensures EntryOk(c.quota.ledger, r.jobs[i], i) {
      assert EntryOk(c.quota.ledger, c.queue.jobs[i], i);
    }
  }

  // The job ends, and its entry is committed or released with it.
  lemma SettledTogether(c: Core, r: Queue, id: Id, j: Job, quota: Quota)
    requires LedgerOk(c) && id in c.queue.jobs && r.jobs == c.queue.jobs[id := j]
    requires Active(c.queue.jobs[id]) && !Active(j) && SameBinding(c.queue.jobs[id], j)
    requires Charged(c.queue.jobs[id]) == Charged(j) == UsesQuota(j.stage)
    requires if UsesQuota(j.stage)
             then Settle(c.quota, j.actorId, ContentEvaluations, ContentKey(id), ExpectedEntry(j)) == Success(quota)
             else quota == c.quota
    ensures LedgerOk(Core(quota, r))
  {
    forall i | i in r.jobs && Charged(r.jobs[i]) ensures EntryOk(quota.ledger, r.jobs[i], i) {
      assert EntryOk(c.quota.ledger, c.queue.jobs[i], i);
    }
  }

  // Ledger entries with keys of other callers do not concern the queue.
  lemma OtherEntries(c: Core, quota: Quota)
    requires LedgerOk(c) && NonNegative(quota.ledger) && quota.users == c.quota.users
    requires forall k: LedgerKey :: k.key.ContentKey? ==>
               (k in quota.ledger <==> k in c.quota.ledger) && (k in quota.ledger ==> quota.ledger[k] == c.quota.ledger[k])
    ensures LedgerOk(c.(quota := quota))
  {
    forall i | i in c.queue.jobs && Charged(c.queue.jobs[i]) ensures EntryOk(quota.ledger, c.queue.jobs[i], i) {
      assert EntryOk(c.quota.ledger, c.queue.jobs[i], i);
    }
  }
}
