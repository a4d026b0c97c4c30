// evaluation-worker.ts: one pass of a worker, and what it may still do afterwards.
module EvaluationWorker {
  import opened Basics
  import opened QueueModel
  import opened QueueRuns
  import opened ReviewTheorems
  import opened WorkflowModel
  import opened WorkflowInvariant
  import opened WorkflowSafety
  import opened WorkflowTheorems
  import opened Store
  import opened EvaluationJobsService
  import opened V11ContentService

  // What the executor of another stage does with the lease.
  datatype StageWork = ReturnsEarly | ThrowsAtOnce | Calls(outcome: Outcome)

  datatype Work = Work(stage: StageWork, answer: ModelAnswer, ownsVideo: bool)

  datatype PassTimes = PassTimes(recover: Time, claim: Time, job: JobTimes, release: Time)

  class Worker {
    const db: Database
    const v11: V11Content

    constructor (db: Database)
      ensures this.db == db && Wired()
    {
      this.db := db;
      this.v11 := new V11Content(db);
    }

    ghost predicate Wired()
      reads this, v11, v11.jobs
    {
      v11.db == db && v11.Wired()
    }

    method ClaimNext(now: Time, token: Id, locked: set<Id>, capacityFree: bool, leaseMs: nat) returns (lease: Option<Lease>)
      requires Wired() && db.Valid() && token !in db.attempts
      modifies db`jobs, db`attempts
      ensures db.Valid()
      ensures lease.Some? ==> lease.value.token == token && token in db.attempts && lease.value.jobId in db.jobs
      ensures db.jobs.Keys == old(db.jobs).Keys
      ensures lease == ClaimedLease(old(db.CoreState()), now, token, locked, capacityFree)
      ensures db.State() == old(db.State()).(core := AfterClaim(old(db.CoreState()), now, token, locked, capacityFree, leaseMs))
    {
      ghost var before := db.State();
      ClaimKeeps(before, now, token, locked, capacityFree, leaseMs);
      lease := v11.jobs.Claim(now, token, locked, capacityFree, leaseMs);
      assert db.CoreState() == AfterClaim(before.core, now, token, locked, capacityFree, leaseMs);
      assert db.State() == before.(core := AfterClaim(before.core, now, token, locked, capacityFree, leaseMs));
    }

    // The other stages mark the request and finish, or give up before.
    method RunOtherStage(times: JobTimes, lease: Lease, ownsVideo: bool, work: StageWork) returns (ending: Ending)
      requires Wired() && db.Valid() && lease.jobId in db.jobs && db.jobs[lease.jobId].stage != V11Content
      modifies db
      ensures db.Valid() && old(db.attempts).Keys <= db.attempts.Keys
      ensures (ending, db.State()) == AfterOtherStage(old(db.State()), times, lease, ownsVideo, work)
    {
      if work.ReturnsEarly? { return Returned; }
      if work.ThrowsAtOnce? { return Threw; }
      var marked := OtherMark(times.mark, lease, ownsVideo);
      if !marked { return Threw; }
      var finished := OtherFinish(times.complete, lease, work.outcome);
      ending := if finished then Returned else Threw;
    }

    method OtherMark(now: Time, lease: Lease, ownsVideo: bool) returns (marked: bool)
      requires Wired() && db.Valid() && lease.jobId in db.jobs && db.jobs[lease.jobId].stage != V11Content
      modifies db`jobs, db`attempts, db`usage
      ensures db.Valid() && old(db.attempts).Keys <= db.attempts.Keys
      ensures lease.jobId in db.jobs && db.jobs[lease.jobId].stage == old(db.jobs[lease.jobId].stage)
      ensures var r := QueueModel.MarkExternalStarted(old(db.CoreState()), now, lease.jobId, lease.token, true, ownsVideo);
              && marked == r.Success?
              && db.State() == if r.Success? then old(db.State()).(core := r.value) else old(db.State())
    {
      ghost var before := db.State();
      OtherMarkKeeps(before, now, lease, ownsVideo);
      var r := v11.jobs.MarkExternalStarted(now, lease, true, ownsVideo);
      marked := r.Success?;
      assert db.FlowState() == before.flow;
    }

    method OtherFinish(now: Time, lease: Lease, outcome: Outcome) returns (finished: bool)
      requires Wired() && db.Valid() && lease.jobId in db.jobs && db.jobs[lease.jobId].stage != V11Content
      modifies db
      ensures db.Valid() && old(db.attempts).Keys <= db.attempts.Keys
      ensures var r := QueueModel.FinishCurrent(old(db.CoreState()), now, lease.jobId, lease.token, outcome);
              && finished == r.Success?
              && db.State() == if r.Success? then old(db.State()).(core := r.value) else old(db.State())
    {
      var saved := db.State();
      OtherFinishKeeps(saved, now, lease, outcome);
      var r := v11.jobs.FinishCurrent(now, lease, outcome);
      assert db.FlowState() == saved.flow;
      finished := r.Success?;
      if !finished { db.Restore(saved); }
    }

    method RunStage(times: JobTimes, lease: Lease, work: Work) returns (ending: Ending)
      requires Wired() && db.Valid() && lease.jobId in db.jobs
      requires work.answer.Answered? ==> Recordable(db.State(), work.answer.completion)
      modifies db
      ensures db.Valid() && old(db.attempts).Keys <= db.attempts.Keys
      ensures (ending, db.State()) == AfterStage(old(db.State()), times, lease, work)
    {
      if db.jobs[lease.jobId].stage == V11Content {
        RunJobsHaveRuns(db.State(), lease.jobId);
        ending := v11.ExecuteJob(times, lease, work.ownsVideo, work.answer);
      } else {
        ending := RunOtherStage(times, lease, work.ownsVideo, work.stage);
      }
    }

    // However the execution ends, the lease is given up.
    method RunAndRelease(times: PassTimes, lease: Lease, locked: set<Id>, work: Work)
      requires Wired() && db.Valid() && lease.jobId in db.jobs && lease.token in db.attempts
      requires work.answer.Answered? ==> Recordable(db.State(), work.answer.completion)
      modifies db
      ensures db.Valid() && Lost(db.CoreState().queue, times.release, lease.jobId, lease.token)
      ensures db.State() == AfterRelease(AfterStage(old(db.State()), times.job, lease, work).1, times.release, lease, locked)
    {
      var ending := RunStage(times.job, lease, work);
      match ending
      case Returned => v11.jobs.ReleaseAfterExecutionError(times.release, lease, locked);
      case Threw => v11.jobs.ReleaseAfterExecutionError(times.release, lease, locked);
    }

    // Recover, claim, execute, release: when the pass returns, the worker's own
    // token can write no more. An orphan that cannot be closed ends the pass.
    method ExecuteOnce(times: PassTimes, orphans: seq<Orphan>, token: Id, locked: set<Id>, capacityFree: bool,
                       leaseSetting: Option<int>, work: Work)
      returns (lease: Option<Lease>)
      requires Wired() && db.Valid() && token !in db.attempts && FreshOrphans(db.jobs, orphans)
      requires work.answer.Answered? ==> Unused(db.State(), work.answer.completion, orphans)
      modifies db
      ensures db.Valid()
      ensures lease.Some? ==> lease.value.token == token && Lost(db.CoreState().queue, times.release, lease.value.jobId, token)
      ensures (lease, db.State()) == AfterPass(old(db.State()), times, orphans, token, locked, capacityFree, leaseSetting, work)
    {
      lease := None;
      var recovered := RecoverFirst(times.recover, orphans, token, locked, work);
      if recovered {
        lease := ClaimNext(times.claim, token, locked, capacityFree, LeaseMilliseconds(leaseSetting));
        if lease.Some? { RunAndRelease(times, lease.value, locked, work); }
      }
    }

    method RecoverFirst(now: Time, orphans: seq<Orphan>, token: Id, locked: set<Id>, work: Work) returns (recovered: bool)
      requires Wired() && db.Valid() && token !in db.attempts && FreshOrphans(db.jobs, orphans)
      requires work.answer.Answered? ==> Unused(db.State(), work.answer.completion, orphans)
      modifies db
      ensures db.Valid() && token !in db.attempts
      ensures work.answer.Answered? ==> Recordable(db.State(), work.answer.completion)
      ensures (recovered, db.State()) == AfterRecovery(old(db.State()), now, orphans, locked)
    {
      RecoverLeases(now, locked);
      recovered := RecoverLegacy(now, orphans);
    }

    method RecoverLeases(now: Time, locked: set<Id>)
      requires Wired() && db.Valid()
      modifies db
      ensures db.Valid() && db.jobs.Keys == old(db.jobs).Keys && db.attempts.Keys == old(db.attempts).Keys
      ensures db.decisions == old(db.decisions) && db.holds == old(db.holds)
      ensures db.State() == Recovered(old(db.State()), now, locked)
      ensures forall id :: LeaseExpired(db.CoreState().queue, now, id) ==> db.jobs[id].videoId in locked
    {
      ghost var before := db.State();
      v11.jobs.RecoverExpired(now, locked);
      RecoveryAddsNothing(before, now, locked);
    }

    method RecoverLegacy(now: Time, orphans: seq<Orphan>) returns (all: bool)
      requires Wired() && db.Valid() && FreshOrphans(db.jobs, orphans)
      modifies db
      ensures db.Valid() && db.attempts == old(db.attempts) && db.FlowState() == old(db.FlowState())
      ensures forall id :: id in db.jobs ==> id in old(db.jobs) || exists i :: 0 <= i < |orphans| && orphans[i].jobId == id
      ensures (all, db.CoreState()) == AfterOrphans(old(db.CoreState()), now, orphans)
    {
      ghost var before := db.CoreState();
      var done := v11.jobs.RecoverOrphans(now, orphans);
      OrphansAddThemselves(before, now, orphans[..done]);
      assert forall i :: 0 <= i < done ==> orphans[..done][i] == orphans[i];
      all := done == |orphans|;
    }
  }

  // The identifiers of the completion's new rows are free, and its answer is scored.
  ghost predicate Recordable(db: Db, c: Completion) {
    && (c.output.complete ==> Scored(c.output.review))
    && c.nextJobId !in db.core.queue.jobs && c.decisionId !in db.flow.decisions && c.holdId !in db.flow.holds
  }

  ghost predicate Unused(db: Db, c: Completion, orphans: seq<Orphan>) {
    Recordable(db, c) && forall i :: 0 <= i < |orphans| ==> orphans[i].jobId != c.nextJobId
  }

  ghost function ClaimedLease(c: Core, now: Time, token: Id, locked: set<Id>, capacityFree: bool): Option<Lease> {
    match ClaimedJob(c.queue, now, locked, capacityFree)
    case Some(id) => Some(Lease(id, token))
    case None => None
  }

  ghost function AfterOtherStage(db: Db, times: JobTimes, lease: Lease, ownsVideo: bool, work: StageWork): (Ending, Db) {
    match work
    case ReturnsEarly => (Returned, db)
    case ThrowsAtOnce => (Threw, db)
    case Calls(outcome) =>
      match MarkExternalStarted(db.core, times.mark, lease.jobId, lease.token, true, ownsVideo)
      case Failure(_) => (Threw, db)
      case Success(marked) =>
        match QueueModel.FinishCurrent(marked, times.complete, lease.jobId, lease.token, outcome)
        case Failure(_) => (Threw, db.(core := marked))
        case Success(finished) => (Returned, db.(core := finished))
  }

  ghost function AfterStage(db: Db, times: JobTimes, lease: Lease, work: Work): (Ending, Db)
    requires lease.jobId in db.core.queue.jobs
  {
    if IsRunJob(db.core, lease.jobId) then AfterJob(db, times, lease, work.ownsVideo, work.answer)
    else AfterOtherStage(db, times, lease, work.ownsVideo, work.stage)
  }

  // Expired leases first, then the orphans; whether all of these could be closed.
  ghost function AfterRecovery(db: Db, now: Time, orphans: seq<Orphan>, locked: set<Id>): (bool, Db) {
    var recovered := Recovered(db, now, locked);
    var (all, core) := AfterOrphans(recovered.core, now, orphans);
    (all, recovered.(core := core))
  }

  ghost function AfterWork(db: Db, times: PassTimes, lease: Lease, locked: set<Id>, work: Work): Db {
    if lease.jobId !in db.core.queue.jobs then db
    else AfterRelease(AfterStage(db, times.job, lease, work).1, times.release, lease, locked)
  }

  ghost function AfterPass(db: Db, times: PassTimes, orphans: seq<Orphan>, token: Id, locked: set<Id>, capacityFree: bool,
                           leaseSetting: Option<int>, work: Work): (Option<Lease>, Db)
  {
    var (all, ready) := AfterRecovery(db, times.recover, orphans, locked);
    if !all then (None, ready)
    else
      var lease := ClaimedLease(ready.core, times.claim, token, locked, capacityFree);
      var claimed := ready.(core := AfterClaim(ready.core, times.claim, token, locked, capacityFree, LeaseMilliseconds(leaseSetting)));
      (lease, if lease.None? then claimed else AfterWork(claimed, times, lease.value, locked, work))
  }

  lemma RunJobsHaveRuns(db: Db, id: Id)
    requires DbInv(db) && id in db.core.queue.jobs && db.core.queue.jobs[id].stage == V11Content
    ensures IsRunJob(db.core, id)
  {
    assert JobTargetOk(db.core.queue.jobs[id], db.flow.groups, db.flow.runs);
  }

  ghost function AfterClaim(c: Core, now: Time, token: Id, locked: set<Id>, capacityFree: bool, leaseMs: nat): Core {
    c.(queue := QueueModel.Claim(c.queue, now, token, locked, capacityFree, leaseMs))
  }

  lemma ClaimKeeps(db: Db, now: Time, token: Id, locked: set<Id>, capacityFree: bool, leaseMs: nat)
    requires DbInv(db) && token !in db.core.queue.attempts
    ensures var after := AfterClaim(db.core, now, token, locked, capacityFree, leaseMs);
            && DbInv(db.(core := after)) && after.queue.jobs.Keys == db.core.queue.jobs.Keys
            && (ClaimedJob(db.core.queue, now, locked, capacityFree).Some? ==>
                  token in after.queue.attempts && ClaimedJob(db.core.queue, now, locked, capacityFree).value in after.queue.jobs)
  {
    ClaimedRows(db.core, now, token, locked, capacityFree, leaseMs);
    CoreEventKeeps(db, now, OpClaim(token, locked, capacityFree, leaseMs));
  }

  lemma ClaimedRows(c: Core, now: Time, token: Id, locked: set<Id>, capacityFree: bool, leaseMs: nat)
    requires token !in c.queue.attempts
    ensures var after := AfterClaim(c, now, token, locked, capacityFree, leaseMs);
            && after == Step(c, now, OpClaim(token, locked, capacityFree, leaseMs))
            && after.queue.jobs.Keys == c.queue.jobs.Keys
            && (ClaimedJob(c.queue, now, locked, capacityFree).Some? ==>
                  token in after.queue.attempts && ClaimedJob(c.queue, now, locked, capacityFree).value in after.queue.jobs)
  {
  }

  lemma OtherMarkKeeps(db: Db, now: Time, lease: Lease, ownsVideo: bool)
    requires DbInv(db) && lease.jobId in db.core.queue.jobs && db.core.queue.jobs[lease.jobId].stage != V11Content
    ensures var marked := MarkExternalStarted(db.core, now, lease.jobId, lease.token, true, ownsVideo);
            marked.Success? ==>
              && DbInv(db.(core := marked.value)) && db.core.queue.attempts.Keys <= marked.value.queue.attempts.Keys
              && lease.jobId in marked.value.queue.jobs
              && marked.value.queue.jobs[lease.jobId].stage == db.core.queue.jobs[lease.jobId].stage
  {
    if MarkExternalStarted(db.core, now, lease.jobId, lease.token, true, ownsVideo).Success? {
      MarkIsStep(db.core, now, lease.jobId, lease.token, true, ownsVideo);
      MarkKeepsStage(db.core, now, lease.jobId, lease.token, ownsVideo);
      CoreEventKeeps(db, now, OpMark(lease.jobId, lease.token, true, ownsVideo));
    }
  }

  lemma MarkKeepsStage(c: Core, now: Time, id: Id, token: Id, ownsVideo: bool)
    requires id in c.queue.jobs && MarkExternalStarted(c, now, id, token, true, ownsVideo).Success?
    ensures var after := MarkExternalStarted(c, now, id, token, true, ownsVideo).value.queue;
            && c.queue.attempts.Keys <= after.attempts.Keys
            && id in after.jobs && after.jobs[id].stage == c.queue.jobs[id].stage
  {
  }

  lemma OtherFinishKeeps(db: Db, now: Time, lease: Lease, outcome: Outcome)
    requires DbInv(db) && lease.jobId in db.core.queue.jobs && db.core.queue.jobs[lease.jobId].stage != V11Content
    ensures var finished := QueueModel.FinishCurrent(db.core, now, lease.jobId, lease.token, outcome);
            finished.Success? ==>
              && DbInv(db.(core := finished.value)) && db.core.queue.attempts.Keys <= finished.value.queue.attempts.Keys
              && lease.jobId in finished.value.queue.jobs && finished.value.queue.jobs[lease.jobId].leaseToken.None?
  {
    if QueueModel.FinishCurrent(db.core, now, lease.jobId, lease.token, outcome).Success? {
      FinishIsStep(db.core, now, lease.jobId, lease.token, outcome);
      CoreEventKeeps(db, now, OpFinish(lease.jobId, lease.token, outcome));
    }
  }

  lemma FinishIsStep(c: Core, now: Time, id: Id, token: Id, outcome: Outcome)
    requires QueueModel.FinishCurrent(c, now, id, token, outcome).Success?
    ensures var after := QueueModel.FinishCurrent(c, now, id, token, outcome).value;
            && Step(c, now, OpFinish(id, token, outcome)) == after
            && c.queue.attempts.Keys <= after.queue.attempts.Keys
            && id in after.queue.jobs && after.queue.jobs[id].leaseToken.None?
  {
  }

  lemma RecoveryAddsNothing(db: Db, now: Time, locked: set<Id>)
    requires DbInv(db)
    ensures var after := Recovered(db, now, locked);
            && after.core.queue.jobs.Keys == db.core.queue.jobs.Keys
            && after.core.queue.attempts.Keys == db.core.queue.attempts.Keys
            && after.flow.decisions == db.flow.decisions && after.flow.holds == db.flow.holds
  {
    if exists id: Id :: LeaseExpired(db.core.queue, now, id) {
      var id: Id :| LeaseExpired(db.core.queue, now, id);
      RecoveryGoesThrough(db, now, id, locked);
      OneRecoveryAddsNothing(db, now, id, db.core.queue.jobs[id].videoId in locked);
    }
  }

  lemma OneRecoveryAddsNothing(db: Db, now: Time, id: Id, videoLocked: bool)
    requires LeaseExpired(db.core.queue, now, id) && WorkflowModel.Recover(db, now, id, videoLocked).Success?
    ensures var after := WorkflowModel.Recover(db, now, id, videoLocked).value;
            && after.core.queue.jobs.Keys == db.core.queue.jobs.Keys
            && after.core.queue.attempts.Keys == db.core.queue.attempts.Keys
            && after.flow.decisions == db.flow.decisions && after.flow.holds == db.flow.holds
  {
  }

  lemma OrphanAddsItself(c: Core, now: Time, o: Orphan)
    ensures var after := Step(c, now, OpOrphan(o.jobId, o.input, o.stillRunning));
            && after.queue.attempts == c.queue.attempts
            && forall id :: id in after.queue.jobs ==> id in c.queue.jobs || id == o.jobId
  {
  }

  lemma {:induction false} OrphansAddThemselves(c: Core, now: Time, orphans: seq<Orphan>)
    ensures var after := Execute(c, OrphanSteps(now, orphans));
            && after.queue.attempts == c.queue.attempts
            && forall id :: id in after.queue.jobs ==> id in c.queue.jobs || exists i :: 0 <= i < |orphans| && orphans[i].jobId == id
    decreases |orphans|
  {
    if orphans != [] {
      var rest, last := orphans[..|orphans| - 1], orphans[|orphans| - 1];
      var op := OpOrphan(last.jobId, last.input, last.stillRunning);
      OrphansAddThemselves(c, now, rest);
      WorkflowTraces.ExecuteBoth(c, OrphanSteps(now, rest), [Timed(now, op)]);
      WorkflowTraces.OneStep(Execute(c, OrphanSteps(now, rest)), Timed(now, op));
      OrphanAddsItself(Execute(c, OrphanSteps(now, rest)), now, last);
      forall id | id in Execute(c, OrphanSteps(now, orphans)).queue.jobs && id !in c.queue.jobs
        ensures exists i :: 0 <= i < |orphans| && orphans[i].jobId == id {
        if id != last.jobId {
          var i :| 0 <= i < |rest| && rest[i].jobId == id;
          assert orphans[i].jobId == id;
        } else {
          assert orphans[|orphans| - 1].jobId == id;
        }
      }
    }
  }

  lemma ReleaseLosesLease(db: Db, now: Time, lease: Lease, locked: set<Id>)
    requires DbInv(db) && lease.token in db.core.queue.attempts
    ensures DbInv(AfterRelease(db, now, lease, locked))
    ensures Lost(AfterRelease(db, now, lease, locked).core.queue, now, lease.jobId, lease.token)
  {
    if LeaseLive(db.core.queue, now, lease.jobId, lease.token) {
      ExpiryIsSound(db, now, lease);
      RecoveryKeepsLost(WithLeaseEnded(db, now, lease), now, lease, locked);
      RecoveredIsSound(WithLeaseEnded(db, now, lease), now, locked);
    }
  }

  // And it stays so in every continuation: whatever other workers, users and
  // timers do after the release, nothing the returned worker sends has an effect.
  lemma ReturnedWorkerIsShutOut(db: Db, now: Time, lease: Lease, locked: set<Id>, events: seq<TimedEvent>)
    requires DbInv(db) && lease.token in db.core.queue.attempts && InOrder(now, events)
    ensures ShutOut(Unfold(AfterRelease(db, now, lease, locked), events), LastTime(now, events), lease.jobId, lease.token)
  {
    ReleaseLosesLease(db, now, lease, locked);
    LostInEveryRun(AfterRelease(db, now, lease, locked), now, events, lease.jobId, lease.token);
  }
}
