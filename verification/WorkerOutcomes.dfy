// What one pass of a worker comes to: which events of the system it makes happen, what
// it takes to record an answer, and what a failure costs.
module WorkerOutcomes {
  import opened Basics
  import opened QuotaModel
  import opened QueueModel
  import opened QueueInvariant
  import QueueOutcomes
  import opened WorkflowModel
  import opened WorkflowInvariant
  import opened WorkflowClosing
  import opened WorkflowEvents
  import opened WorkflowTheorems
  import WorkflowOutcomes
  import opened EvaluationJobsService
  import opened V11ContentService
  import opened EvaluationWorker

  // ------------------------------------------------------------------------
  // Runs of the system between two times

  ghost predicate Leads(db: Db, after: Db, from: Time, to: Time) {
    exists events: seq<TimedEvent> :: InOrder(from, events) && LastTime(from, events) <= to && Unfold(db, events) == after
  }

  lemma Stays(db: Db, from: Time, to: Time)
    requires from <= to
    ensures Leads(db, db, from, to)
  {
    assert InOrder(from, []) && LastTime(from, []) <= to && Unfold(db, []) == db;
  }

  lemma OneEvent(db: Db, now: Time, e: Event, from: Time, to: Time)
    requires from <= now <= to
    ensures Leads(db, Happen(db, now, e), from, to)
  {
    var events := [TimedEvent(now, e)];
    assert events[0] == TimedEvent(now, e) && events[1..] == [];
    assert InOrder(now, events[1..]) && LastTime(now, events[1..]) == now && Unfold(Happen(db, now, e), events[1..]) == Happen(db, now, e);
    assert InOrder(from, events) && LastTime(from, events) <= to && Unfold(db, events) == Happen(db, now, e);
  }

  lemma {:induction false} UnfoldBoth(db: Db, from: Time, first: seq<TimedEvent>, mid: Time, second: seq<TimedEvent>)
    requires InOrder(from, first) && LastTime(from, first) <= mid && InOrder(mid, second)
    ensures Unfold(db, first + second) == Unfold(Unfold(db, first), second)
    ensures InOrder(from, first + second) && LastTime(from, first + second) <= LastTime(mid, second)
    decreases |first|
  {
    if first == [] {
      assert first + second == second;
    } else {
      assert (first + second)[0] == first[0] && (first + second)[1..] == first[1..] + second;
      UnfoldBoth(Happen(db, first[0].now, first[0].event), first[0].now, first[1..], mid, second);
    }
  }

  lemma LeadsOn(db: Db, middle: Db, after: Db, from: Time, mid: Time, to: Time)
    requires Leads(db, middle, from, mid) && Leads(middle, after, mid, to)
    ensures Leads(db, after, from, to)
  {
    var first: seq<TimedEvent> :| InOrder(from, first) && LastTime(from, first) <= mid && Unfold(db, first) == middle;
    var second: seq<TimedEvent> :| InOrder(mid, second) && LastTime(mid, second) <= to && Unfold(middle, second) == after;
    UnfoldBoth(db, from, first, mid, second);
  }

  lemma LeadsInv(db: Db, after: Db, from: Time, to: Time)
    requires DbInv(db) && Leads(db, after, from, to)
    ensures DbInv(after)
  {
    var events: seq<TimedEvent> :| InOrder(from, events) && LastTime(from, events) <= to && Unfold(db, events) == after;
    UnfoldInv(db, events);
  }

  // ------------------------------------------------------------------------
  // Executing a run

  predicate Ordered(times: JobTimes) { times.begin <= times.mark <= times.complete <= times.fail }

  ghost predicate Storable(db: Db, answer: ModelAnswer) {
    answer.Answered? ==> Recordable(db, answer.completion)
  }

  lemma BeginLeads(db: Db, now: Time, lease: Lease, answer: ModelAnswer)
    requires WorkflowModel.Begin(db, now, lease.jobId, lease.token).Success? && Storable(db, answer)
    ensures var begun := WorkflowModel.Begin(db, now, lease.jobId, lease.token).value;
            Leads(db, begun, now, now) && Storable(begun, answer) && begun.core == db.core
  {
    OneEvent(db, now, BeginEvent(lease.jobId, lease.token), now, now);
  }

  lemma MarkLeads(db: Db, from: Time, now: Time, lease: Lease, ownsVideo: bool, answer: ModelAnswer)
    requires from <= now && MarkResult(db, now, lease, ownsVideo).Success? && Storable(db, answer)
    ensures Leads(db, AfterMark(db, now, lease, ownsVideo), from, now) && Storable(AfterMark(db, now, lease, ownsVideo), answer)
  {
    var op := OpMark(lease.jobId, lease.token, Bound(db, now, lease.jobId, lease.token), ownsVideo);
    MarkIsStep(db.core, now, lease.jobId, lease.token, Bound(db, now, lease.jobId, lease.token), ownsVideo);
    MarkKeepsRows(db.core, now, lease.jobId, lease.token, Bound(db, now, lease.jobId, lease.token), ownsVideo);
    OneEvent(db, now, CoreEvent(op), from, now);
  }

  lemma RecordLeads(db: Db, from: Time, now: Time, lease: Lease, c: Completion)
    requires from <= now && Recordable(db, c)
    ensures Leads(db, AfterRecord(db, now, lease, c).1, from, now)
  {
    Stays(db, from, now);
    OneEvent(db, now, CompleteEvent(lease.jobId, lease.token, c), from, now);
  }

  lemma AttemptLeads(db: Db, times: JobTimes, lease: Lease, ownsVideo: bool, answer: ModelAnswer)
    requires Ordered(times) && Storable(db, answer)
    ensures Leads(db, AfterAttempt(db, times, lease, ownsVideo, answer).1, times.begin, times.complete)
  {
    Stays(db, times.begin, times.complete);
    if !answer.SourceGone? && MarkResult(db, times.mark, lease, ownsVideo).Success? {
      var marked := AfterMark(db, times.mark, lease, ownsVideo);
      MarkLeads(db, times.begin, times.mark, lease, ownsVideo, answer);
      Stays(marked, times.mark, times.complete);
      if answer.Answered? { RecordLeads(marked, times.mark, times.complete, lease, answer.completion); }
      LeadsOn(db, marked, AfterAttempt(db, times, lease, ownsVideo, answer).1, times.begin, times.mark, times.complete);
    }
  }

  lemma BegunLeads(db: Db, times: JobTimes, lease: Lease, ownsVideo: bool, answer: ModelAnswer)
    requires Ordered(times) && Storable(db, answer)
    ensures Leads(db, AfterBegun(db, times, lease, ownsVideo, answer).1, times.begin, times.fail)
  {
    AttemptLeads(db, times, lease, ownsVideo, answer);
    var attempted := AfterAttempt(db, times, lease, ownsVideo, answer).1;
    Stays(attempted, times.complete, times.fail);
    OneEvent(attempted, times.fail, FailEvent(lease.jobId, lease.token), times.complete, times.fail);
    LeadsOn(db, attempted, AfterBegun(db, times, lease, ownsVideo, answer).1, times.begin, times.complete, times.fail);
  }

  // Executing a run is a run of the system: it begins, marks, completes or fails.
  lemma JobLeads(db: Db, times: JobTimes, lease: Lease, ownsVideo: bool, answer: ModelAnswer)
    requires IsRunJob(db.core, lease.jobId) && Ordered(times) && Storable(db, answer)
    ensures Leads(db, AfterJob(db, times, lease, ownsVideo, answer).1, times.begin, times.fail)
  {
    Stays(db, times.begin, times.fail);
    var begun := WorkflowModel.Begin(db, times.begin, lease.jobId, lease.token);
    if begun.Success? && AfterJob(db, times, lease, ownsVideo, answer) == AfterBegun(begun.value, times, lease, ownsVideo, answer) {
      BeginLeads(db, times.begin, lease, answer);
      BegunLeads(begun.value, times, lease, ownsVideo, answer);
      LeadsOn(db, begun.value, AfterJob(db, times, lease, ownsVideo, answer).1, times.begin, times.begin, times.fail);
    }
  }

  // ------------------------------------------------------------------------
  // The other stages

  lemma OtherMarkLeads(db: Db, from: Time, now: Time, lease: Lease, ownsVideo: bool)
    requires from <= now && !IsRunJob(db.core, lease.jobId)
    requires MarkExternalStarted(db.core, now, lease.jobId, lease.token, true, ownsVideo).Success?
    ensures Leads(db, db.(core := MarkExternalStarted(db.core, now, lease.jobId, lease.token, true, ownsVideo).value), from, now)
  {
    MarkIsStep(db.core, now, lease.jobId, lease.token, true, ownsVideo);
    OneEvent(db, now, CoreEvent(OpMark(lease.jobId, lease.token, true, ownsVideo)), from, now);
  }

  lemma OtherFinishLeads(db: Db, from: Time, now: Time, lease: Lease, outcome: Outcome)
    requires from <= now && lease.jobId in db.core.queue.jobs && db.core.queue.jobs[lease.jobId].stage != V11Content
    requires QueueModel.FinishCurrent(db.core, now, lease.jobId, lease.token, outcome).Success?
    ensures Leads(db, db.(core := QueueModel.FinishCurrent(db.core, now, lease.jobId, lease.token, outcome).value), from, now)
  {
    FinishIsStep(db.core, now, lease.jobId, lease.token, outcome);
    OneEvent(db, now, CoreEvent(OpFinish(lease.jobId, lease.token, outcome)), from, now);
  }

  lemma OtherStageLeads(db: Db, times: JobTimes, lease: Lease, ownsVideo: bool, work: StageWork)
    requires Ordered(times) && lease.jobId in db.core.queue.jobs && db.core.queue.jobs[lease.jobId].stage != V11Content
    ensures Leads(db, AfterOtherStage(db, times, lease, ownsVideo, work).1, times.begin, times.fail)
  {
    Stays(db, times.begin, times.fail);
    var marking := MarkExternalStarted(db.core, times.mark, lease.jobId, lease.token, true, ownsVideo);
    if work.Calls? && marking.Success? {
      var marked := db.(core := marking.value);
      OtherMarkLeads(db, times.begin, times.mark, lease, ownsVideo);
      MarkKeepsStage(db.core, times.mark, lease.jobId, lease.token, ownsVideo);
      Stays(marked, times.mark, times.fail);
      var finished := QueueModel.FinishCurrent(marking.value, times.complete, lease.jobId, lease.token, work.outcome);
      if finished.Success? {
        OtherFinishLeads(marked, times.mark, times.complete, lease, work.outcome);
        Stays(marked.(core := finished.value), times.complete, times.fail);
        LeadsOn(marked, marked.(core := finished.value), marked.(core := finished.value), times.mark, times.complete, times.fail);
      }
      LeadsOn(db, marked, AfterOtherStage(db, times, lease, ownsVideo, work).1, times.begin, times.mark, times.fail);
    }
  }

  lemma StageLeads(db: Db, times: JobTimes, lease: Lease, work: Work)
    requires DbInv(db) && lease.jobId in db.core.queue.jobs && Ordered(times) && Storable(db, work.answer)
    ensures Leads(db, AfterStage(db, times, lease, work).1, times.begin, times.fail)
  {
    if IsRunJob(db.core, lease.jobId) {
      JobLeads(db, times, lease, work.ownsVideo, work.answer);
    } else {
      if db.core.queue.jobs[lease.jobId].stage == V11Content { RunJobsHaveRuns(db, lease.jobId); }
      OtherStageLeads(db, times, lease, work.ownsVideo, work.stage);
    }
  }

  // ------------------------------------------------------------------------
  // Recovery and release

  lemma RecoverHappens(db: Db, now: Time, id: Id, videoLocked: bool, after: Db)
    requires WorkflowModel.Recover(db, now, id, videoLocked) == Success(after)
    ensures Leads(db, after, now, now)
  {
    OneEvent(db, now, RecoverEvent(id, videoLocked), now, now);
  }

  lemma RecoveredLeads(db: Db, now: Time, locked: set<Id>)
    requires DbInv(db)
    ensures Leads(db, Recovered(db, now, locked), now, now)
  {
    Stays(db, now, now);
    if id: Id :| LeaseExpired(db.core.queue, now, id) {
      RecoveryGoesThrough(db, now, id, locked);
      RecoverHappens(db, now, id, db.core.queue.jobs[id].videoId in locked, Recovered(db, now, locked));
    }
  }

  lemma OrphanLeads(db: Db, now: Time, row: Orphan)
    requires FreshOrphans(db.core.queue.jobs, [row])
    requires QueueModel.RecoverOrphan(db.core, now, row.jobId, row.input, row.stillRunning).Success?
    ensures Leads(db, db.(core := QueueModel.RecoverOrphan(db.core, now, row.jobId, row.input, row.stillRunning).value), now, now)
  {
    assert [row][0] == row;
    OneEvent(db, now, CoreEvent(OpOrphan(row.jobId, row.input, row.stillRunning)), now, now);
  }

  ghost predicate OnlyOrphansAdded(before: Queue, after: Queue, rows: seq<Orphan>) {
    && after.attempts == before.attempts
    && forall id :: id in after.jobs ==> id in before.jobs || exists i :: 0 <= i < |rows| && rows[i].jobId == id
  }

  lemma {:induction false} OrphansLead(db: Db, now: Time, rows: seq<Orphan>)
    requires FreshOrphans(db.core.queue.jobs, rows)
    ensures Leads(db, db.(core := AfterOrphans(db.core, now, rows).1), now, now)
    ensures OnlyOrphansAdded(db.core.queue, AfterOrphans(db.core, now, rows).1.queue, rows)
    decreases |rows|
  {
    Stays(db, now, now);
    if rows != [] && QueueModel.RecoverOrphan(db.core, now, rows[0].jobId, rows[0].input, rows[0].stillRunning).Success? {
      var closed := QueueModel.RecoverOrphan(db.core, now, rows[0].jobId, rows[0].input, rows[0].stillRunning).value;
      OrphanLeads(db, now, rows[0]);
      OrphanKeepsIds(db.core, now, rows[0]);
      assert rows[0..] == rows;
      RestIsFresh(db.core.queue.jobs, closed.queue.jobs, rows, 0);
      OrphansLead(db.(core := closed), now, rows[1..]);
      var after := AfterOrphans(closed, now, rows[1..]).1;
      LeadsOn(db, db.(core := closed), db.(core := after), now, now, now);
      forall id | id in after.queue.jobs && id !in db.core.queue.jobs
        ensures exists i :: 0 <= i < |rows| && rows[i].jobId == id {
        if id != rows[0].jobId {
          var i :| 0 <= i < |rows[1..]| && rows[1..][i].jobId == id;
          assert rows[i + 1].jobId == id;
        }
      }
    }
  }

  lemma ExpiryHappens(db: Db, now: Time, lease: Lease)
    requires LeaseLive(db.core.queue, now, lease.jobId, lease.token)
    ensures Leads(db, WithLeaseEnded(db, now, lease), now, now)
  {
    ExpiryIsStep(db, now, lease);
    OneEvent(db, now, CoreEvent(OpExpire(lease.jobId, lease.token)), now, now);
  }

  lemma ReleaseLeads(db: Db, now: Time, lease: Lease, locked: set<Id>)
    requires DbInv(db)
    ensures Leads(db, AfterRelease(db, now, lease, locked), now, now)
  {
    Stays(db, now, now);
    if LeaseLive(db.core.queue, now, lease.jobId, lease.token) {
      ExpiryIsSound(db, now, lease);
      ExpiryHappens(db, now, lease);
      RecoveredLeads(WithLeaseEnded(db, now, lease), now, locked);
      LeadsOn(db, WithLeaseEnded(db, now, lease), AfterRelease(db, now, lease, locked), now, now, now);
    }
  }

  // ------------------------------------------------------------------------
  // The pass

  predicate InTime(times: PassTimes) {
    times.recover <= times.claim <= times.job.begin && Ordered(times.job) && times.job.fail <= times.release
  }

  lemma RecoveryLeads(db: Db, now: Time, orphans: seq<Orphan>, token: Id, locked: set<Id>, answer: ModelAnswer)
    requires DbInv(db) && FreshOrphans(db.core.queue.jobs, orphans) && token !in db.core.queue.attempts
    requires answer.Answered? ==> Unused(db, answer.completion, orphans)
    ensures var ready := AfterRecovery(db, now, orphans, locked).1;
            && Leads(db, ready, now, now) && token !in ready.core.queue.attempts && Storable(ready, answer)
  {
    var recovered := Recovered(db, now, locked);
    RecoveredLeads(db, now, locked);
    RecoveryAddsNothing(db, now, locked);
    OrphansLead(recovered, now, orphans);
    LeadsOn(db, recovered, AfterRecovery(db, now, orphans, locked).1, now, now, now);
  }

  lemma ClaimLeads(db: Db, from: Time, now: Time, token: Id, locked: set<Id>, capacityFree: bool, leaseMs: nat, answer: ModelAnswer)
    requires from <= now && token !in db.core.queue.attempts && Storable(db, answer)
    ensures var claimed := db.(core := AfterClaim(db.core, now, token, locked, capacityFree, leaseMs));
            Leads(db, claimed, from, now) && Storable(claimed, answer)
  {
    ClaimedRows(db.core, now, token, locked, capacityFree, leaseMs);
    OneEvent(db, now, CoreEvent(OpClaim(token, locked, capacityFree, leaseMs)), from, now);
  }

  lemma WorkLeads(db: Db, from: Time, times: PassTimes, lease: Lease, locked: set<Id>, work: Work)
    requires DbInv(db) && from <= times.job.begin && InTime(times) && Storable(db, work.answer)
    ensures Leads(db, AfterWork(db, times, lease, locked, work), from, times.release)
  {
    Stays(db, from, times.release);
    if lease.jobId in db.core.queue.jobs {
      var worked := AfterStage(db, times.job, lease, work).1;
      Stays(db, from, times.job.begin);
      StageLeads(db, times.job, lease, work);
      LeadsInv(db, worked, times.job.begin, times.job.fail);
      Stays(worked, times.job.fail, times.release);
      ReleaseLeads(worked, times.release, lease, locked);
      LeadsOn(worked, worked, AfterWork(db, times, lease, locked, work), times.job.fail, times.release, times.release);
      LeadsOn(db, worked, AfterWork(db, times, lease, locked, work), times.job.begin, times.job.fail, times.release);
      LeadsOn(db, db, AfterWork(db, times, lease, locked, work), from, times.job.begin, times.release);
    }
  }

  // A pass of a worker is a run of the system, in the order of its times: whatever
  // holds in every run holds for what any number of workers do.
  lemma PassIsARun(db: Db, times: PassTimes, orphans: seq<Orphan>, token: Id, locked: set<Id>, capacityFree: bool,
                   leaseSetting: Option<int>, work: Work)
    requires DbInv(db) && InTime(times) && token !in db.core.queue.attempts && FreshOrphans(db.core.queue.jobs, orphans)
    requires work.answer.Answered? ==> Unused(db, work.answer.completion, orphans)
    ensures var after := AfterPass(db, times, orphans, token, locked, capacityFree, leaseSetting, work).1;
            exists events: seq<TimedEvent> ::
              InOrder(times.recover, events) && LastTime(times.recover, events) <= times.release && Unfold(db, events) == after
  {
    var (all, ready) := AfterRecovery(db, times.recover, orphans, locked);
    var after := AfterPass(db, times, orphans, token, locked, capacityFree, leaseSetting, work).1;
    var leaseMs := LeaseMilliseconds(leaseSetting);
    RecoveryLeads(db, times.recover, orphans, token, locked, work.answer);
    Stays(ready, times.recover, times.release);
    if all {
      var claimed := ready.(core := AfterClaim(ready.core, times.claim, token, locked, capacityFree, leaseMs));
      LeadsInv(db, ready, times.recover, times.recover);
      ClaimLeads(ready, times.recover, times.claim, token, locked, capacityFree, leaseMs, work.answer);
      LeadsInv(ready, claimed, times.recover, times.claim);
      var lease := ClaimedLease(ready.core, times.claim, token, locked, capacityFree);
      if lease.None? {
        Stays(claimed, times.claim, times.release);
      } else {
        WorkLeads(claimed, times.claim, times, lease.value, locked, work);
      }
      LeadsOn(ready, claimed, after, times.recover, times.claim, times.release);
    }
    LeadsOn(db, ready, after, times.recover, times.recover, times.release);
  }

  // ------------------------------------------------------------------------
  // What it takes to record an answer

  lemma RecordedAttempt(db: Db, times: JobTimes, lease: Lease, ownsVideo: bool, answer: ModelAnswer)
    requires IsRunJob(db.core, lease.jobId) && Storable(db, answer)
    requires AfterAttempt(db, times, lease, ownsVideo, answer).0
    ensures answer.Answered?
    ensures var after := AfterAttempt(db, times, lease, ownsVideo, answer).1;
            && NoNewSuccess(db.flow.runs[KeyOf(db.core.queue.jobs[lease.jobId]) := RunSucceeded(answer.completion.output)],
                            after.flow.runs)
            && lease.jobId in after.core.queue.jobs && after.core.queue.jobs[lease.jobId].status == Succeeded
            && after.core.queue.jobs[lease.jobId].externalStartedAt == Some(times.mark)
  {
    var marked := AfterMark(db, times.mark, lease, ownsVideo);
    MarkedRow(db, times.mark, lease, ownsVideo);
    CompleteCloses(marked, times.complete, lease.jobId, lease.token, answer.completion);
  }

  lemma MarkedRow(db: Db, now: Time, lease: Lease, ownsVideo: bool)
    requires IsRunJob(db.core, lease.jobId) && MarkResult(db, now, lease, ownsVideo).Success?
    ensures var after := AfterMark(db, now, lease, ownsVideo);
            && after.flow == db.flow && after.core.queue.jobs.Keys == db.core.queue.jobs.Keys
            && after.core.queue.jobs[lease.jobId] == db.core.queue.jobs[lease.jobId].(externalStartedAt := Some(now))
  {
  }

  lemma UnrecordedAttempt(db: Db, times: JobTimes, lease: Lease, ownsVideo: bool, answer: ModelAnswer)
    requires IsRunJob(db.core, lease.jobId) && !AfterAttempt(db, times, lease, ownsVideo, answer).0
    ensures var after := AfterBegun(db, times, lease, ownsVideo, answer).1;
            NoNewSuccess(db.flow.runs, after.flow.runs)
  {
    var attempted := AfterAttempt(db, times, lease, ownsVideo, answer).1;
    if WorkflowModel.Fail(attempted, times.fail, lease.jobId, lease.token).Success? {
      FailCloses(attempted, times.fail, lease.jobId, lease.token);
    }
  }

  // A run only succeeds with the answer that was given, through a job that had been
  // marked as billable before the model was asked.
  lemma AnswerNeedsMark(db: Db, times: JobTimes, lease: Lease, ownsVideo: bool, answer: ModelAnswer, k: RunKey)
    requires IsRunJob(db.core, lease.jobId) && Storable(db, answer)
    requires var after := AfterJob(db, times, lease, ownsVideo, answer).1;
             k in after.flow.runs && after.flow.runs[k].RunSucceeded?
    requires !(k in db.flow.runs && db.flow.runs[k].RunSucceeded?)
    ensures k == KeyOf(db.core.queue.jobs[lease.jobId]) && answer.Answered?
    ensures var (ending, after) := AfterJob(db, times, lease, ownsVideo, answer);
            && ending == Returned
            && lease.jobId in after.core.queue.jobs && after.core.queue.jobs[lease.jobId].status == Succeeded
            && after.core.queue.jobs[lease.jobId].externalStartedAt == Some(times.mark)
  {
    WorkflowOutcomes.BeginOutcome(db, times.begin, lease.jobId, lease.token);
    var begun := WorkflowModel.Begin(db, times.begin, lease.jobId, lease.token).value;
    if AfterAttempt(begun, times, lease, ownsVideo, answer).0 {
      RecordedAttempt(begun, times, lease, ownsVideo, answer);
    } else {
      UnrecordedAttempt(begun, times, lease, ownsVideo, answer);
    }
  }

  // ------------------------------------------------------------------------
  // What a failure costs

  // The entry of the job afterwards.
  ghost predicate EntryIs(before: Core, after: Core, id: Id, state: EntryState) {
    && id in before.queue.jobs
    && var key := LedgerKey(before.queue.jobs[id].actorId, ContentEvaluations, ContentKey(id));
    && key in before.quota.ledger
    && after.quota == before.quota.(ledger := before.quota.ledger[key := before.quota.ledger[key].(state := state)])
  }

  lemma FailureSettles(db: Db, now: Time, lease: Lease)
    requires Inv(db.core) && IsRunJob(db.core, lease.jobId) && LeaseLive(db.core.queue, now, lease.jobId, lease.token)
    requires Charged(db.core.queue.jobs[lease.jobId])
    ensures var failed := WorkflowModel.Fail(db, now, lease.jobId, lease.token);
            && failed.Success?
            && EntryIs(db.core, failed.value.core, lease.jobId,
                       if db.core.queue.jobs[lease.jobId].externalStartedAt.Some? then Committed else Released)
  {
    WorkflowOutcomes.FailOutcome(db, now, lease.jobId, lease.token);
    QueueOutcomes.FinishSettlesEntry(db.core, now, lease.jobId, lease.token, Failure');
  }

  // A video that is gone before the model was asked costs nothing ...
  lemma GoneSourceIsFree(db: Db, times: JobTimes, lease: Lease, ownsVideo: bool)
    requires DbInv(db) && IsRunJob(db.core, lease.jobId) && Charged(db.core.queue.jobs[lease.jobId])
    requires db.core.queue.jobs[lease.jobId].externalStartedAt.None?
    requires LeaseLive(db.core.queue, times.fail, lease.jobId, lease.token)
    ensures var (ending, after) := AfterBegun(db, times, lease, ownsVideo, SourceGone);
            ending == Returned && EntryIs(db.core, after.core, lease.jobId, Released)
  {
    FailureSettles(db, times.fail, lease);
  }

  // ... and a model that fails after it was asked costs one evaluation.
  lemma FailedModelIsCharged(db: Db, times: JobTimes, lease: Lease, ownsVideo: bool)
    requires DbInv(db) && IsRunJob(db.core, lease.jobId) && Charged(db.core.queue.jobs[lease.jobId])
    requires MarkResult(db, times.mark, lease, ownsVideo).Success?
    requires LeaseLive(db.core.queue, times.fail, lease.jobId, lease.token)
    ensures var (ending, after) := AfterBegun(db, times, lease, ownsVideo, ModelFailed);
            ending == Returned && EntryIs(db.core, after.core, lease.jobId, Committed)
  {
    var marked := AfterMark(db, times.mark, lease, ownsVideo);
    MarkKeeps(db, times.mark, lease.jobId, lease.token, ownsVideo);
    MarkedRow(db, times.mark, lease, ownsVideo);
    FailureSettles(marked, times.fail, lease);
    EntryOfMarked(db, times, lease, ownsVideo, WorkflowModel.Fail(marked, times.fail, lease.jobId, lease.token).value);
  }

  lemma EntryOfMarked(db: Db, times: JobTimes, lease: Lease, ownsVideo: bool, failed: Db)
    requires IsRunJob(db.core, lease.jobId) && MarkResult(db, times.mark, lease, ownsVideo).Success?
    requires var marked := AfterMark(db, times.mark, lease, ownsVideo);
             && WorkflowModel.Fail(marked, times.fail, lease.jobId, lease.token) == Success(failed)
             && EntryIs(marked.core, failed.core, lease.jobId, Committed)
    ensures AfterBegun(db, times, lease, ownsVideo, ModelFailed) == (Returned, failed)
    ensures EntryIs(db.core, failed.core, lease.jobId, Committed)
  {
  }

  lemma WhenBegunThrows(db: Db, times: JobTimes, lease: Lease, ownsVideo: bool, answer: ModelAnswer)
    requires DbInv(db) && IsRunJob(db.core, lease.jobId)
    ensures var (done, after) := AfterAttempt(db, times, lease, ownsVideo, answer);
            AfterBegun(db, times, lease, ownsVideo, answer).0 == Threw <==>
              !done && !LeaseLive(after.core.queue, times.fail, lease.jobId, lease.token)
  {
    var (done, after) := AfterAttempt(db, times, lease, ownsVideo, answer);
    if !done {
      AttemptIsSound(db, times, lease, ownsVideo, answer);
      WorkflowOutcomes.FailOutcome(after, times.fail, lease.jobId, lease.token);
    }
  }

  // Execution throws exactly when the run could not be begun, or when the lease was
  // lost before a failure could be recorded.
  lemma WhenItThrows(db: Db, times: JobTimes, lease: Lease, ownsVideo: bool, answer: ModelAnswer)
    requires DbInv(db) && IsRunJob(db.core, lease.jobId)
    requires KeyOf(db.core.queue.jobs[lease.jobId]) in db.flow.runs
    requires Live(db.flow.runs[KeyOf(db.core.queue.jobs[lease.jobId])])
    ensures var begun := WorkflowModel.Begin(db, times.begin, lease.jobId, lease.token);
            AfterJob(db, times, lease, ownsVideo, answer).0 == Threw <==>
              || begun.Failure?
              || (var (done, after) := AfterAttempt(begun.value, times, lease, ownsVideo, answer);
                  !done && !LeaseLive(after.core.queue, times.fail, lease.jobId, lease.token))
  {
    var begun := WorkflowModel.Begin(db, times.begin, lease.jobId, lease.token);
    if begun.Success? {
      BeginKeeps(db, times.begin, lease.jobId, lease.token);
      WorkflowOutcomes.BeginOutcome(db, times.begin, lease.jobId, lease.token);
      assert begun.value.core == db.core;
      WhenBegunThrows(begun.value, times, lease, ownsVideo, answer);
      JobIsBegun(db, begun.value, times, lease, ownsVideo, answer);
    }
  }

  lemma JobIsBegun(db: Db, begun: Db, times: JobTimes, lease: Lease, ownsVideo: bool, answer: ModelAnswer)
    requires IsRunJob(db.core, lease.jobId) && KeyOf(db.core.queue.jobs[lease.jobId]) in db.flow.runs
    requires Live(db.flow.runs[KeyOf(db.core.queue.jobs[lease.jobId])])
    requires WorkflowModel.Begin(db, times.begin, lease.jobId, lease.token) == Success(begun)
    ensures AfterJob(db, times, lease, ownsVideo, answer) == AfterBegun(begun, times, lease, ownsVideo, answer)
  {
  }

  lemma AttemptIsSound(db: Db, times: JobTimes, lease: Lease, ownsVideo: bool, answer: ModelAnswer)
    requires DbInv(db) && IsRunJob(db.core, lease.jobId) && !AfterAttempt(db, times, lease, ownsVideo, answer).0
    ensures DbInv(AfterAttempt(db, times, lease, ownsVideo, answer).1)
    ensures IsRunJob(AfterAttempt(db, times, lease, ownsVideo, answer).1.core, lease.jobId)
  {
    UnrecordedState(db, times, lease, ownsVideo, answer);
    if MarkResult(db, times.mark, lease, ownsVideo).Success? {
      MarkKeeps(db, times.mark, lease.jobId, lease.token, ownsVideo);
      MarkedRow(db, times.mark, lease, ownsVideo);
    }
  }

  lemma UnrecordedState(db: Db, times: JobTimes, lease: Lease, ownsVideo: bool, answer: ModelAnswer)
    requires !AfterAttempt(db, times, lease, ownsVideo, answer).0
    ensures var after := AfterAttempt(db, times, lease, ownsVideo, answer).1;
            after == db || (MarkResult(db, times.mark, lease, ownsVideo).Success? && after == AfterMark(db, times.mark, lease, ownsVideo))
  {
  }

  // ------------------------------------------------------------------------
  // Releasing the lease

  // A lease that is given up is recovered at once: an uncertain result needs attention,
  // used-up attempts have failed, any other job waits again. A lease that is not live
  // any more is left alone.
  lemma ReleaseOutcome(db: Db, now: Time, lease: Lease, locked: set<Id>)
    requires DbInv(db)
    ensures !LeaseLive(db.core.queue, now, lease.jobId, lease.token) ==> AfterRelease(db, now, lease, locked) == db
    ensures LeaseLive(db.core.queue, now, lease.jobId, lease.token) && db.core.queue.jobs[lease.jobId].videoId !in locked ==>
              var j, after := db.core.queue.jobs[lease.jobId], AfterRelease(db, now, lease, locked).core.queue;
              && lease.jobId in after.jobs
              && (after.jobs[lease.jobId].status == NeedsAttention <==> j.externalStartedAt.Some?)
              && (after.jobs[lease.jobId].status == Failed <==> j.externalStartedAt.None? && j.attempts == j.maxAttempts)
              && (after.jobs[lease.jobId].status == RetryWait <==> j.externalStartedAt.None? && j.attempts < j.maxAttempts)
  {
    if LeaseLive(db.core.queue, now, lease.jobId, lease.token) && db.core.queue.jobs[lease.jobId].videoId !in locked {
      ExpiryIsSound(db, now, lease);
      EndedRow(db, now, lease);
      RecoveryGoesThrough(WithLeaseEnded(db, now, lease), now, lease.jobId, locked);
      QueueOutcomes.RecoveryOutcome(WithLeaseEnded(db, now, lease).core, now, lease.jobId);
      WorkflowOutcomes.RecoverIsQueueRecovery(WithLeaseEnded(db, now, lease), now, lease.jobId);
    }
  }

  lemma EndedRow(db: Db, now: Time, lease: Lease)
    requires LeaseLive(db.core.queue, now, lease.jobId, lease.token)
    ensures var ended := WithLeaseEnded(db, now, lease).core.queue;
            && lease.jobId in ended.jobs
            && ended.jobs[lease.jobId] == db.core.queue.jobs[lease.jobId].(leaseExpiresAt := ended.jobs[lease.jobId].leaseExpiresAt)
  {
  }

  // A pass claims exactly when recovery went through and then a waiting job is due,
  // none is running, and the worker has room.
  lemma WhenAPassClaims(db: Db, times: PassTimes, orphans: seq<Orphan>, token: Id, locked: set<Id>, capacityFree: bool,
                        leaseSetting: Option<int>, work: Work)
    ensures var (all, ready) := AfterRecovery(db, times.recover, orphans, locked);
            var (lease, after) := AfterPass(db, times, orphans, token, locked, capacityFree, leaseSetting, work);
            && (lease.Some? <==>
                  && all && capacityFree && (forall k :: k in ready.core.queue.jobs ==> ready.core.queue.jobs[k].status != Running)
                  && exists id: Id :: QueueOutcomes.DueAndFree(ready.core.queue, times.claim, locked, id))
            && (lease.Some? ==> lease.value.token == token)
            && (lease.None? ==> after == ready)
  {
    var ready := AfterRecovery(db, times.recover, orphans, locked).1;
    QueueOutcomes.ClaimTakesSomebody(ready.core.queue, times.claim, locked, capacityFree);
  }
}
