// v11-content.service.ts: the transactions that trigger an evaluation and that
// begin, complete and fail its runs.
module V11ContentService {
  import opened Basics
  import opened ContentScoring
  import opened ReviewEngine
  import opened ReviewTheorems
  import opened QueueModel
  import opened QueueSteps
  import opened WorkflowModel
  import opened WorkflowInvariant
  import opened WorkflowSteps
  import opened WorkflowSafety
  import opened WorkflowEvents
  import opened WorkflowCompletion
  import opened WorkflowClosing
  import opened Store
  import opened EvaluationJobsService

  // ------------------------------------------------------------------------
  // The succeeded runs, collected by number

  lemma {:induction false} BoundIsIrrelevant(runs: map<RunKey, RunState>, g: Id, n: nat, m: nat)
    requires n <= m && NoRunAfter(runs, g, n)
    ensures SucceededUpTo(runs, g, m) == SucceededUpTo(runs, g, n)
    decreases m
  {
    if n < m {
      assert (g, m) !in runs;
      BoundIsIrrelevant(runs, g, n, m - 1);
    }
  }

  lemma AnyBound(runs: map<RunKey, RunState>, g: Id, n: nat)
    requires NoRunAfter(runs, g, n)
    ensures SucceededNumbers(runs, g) == SucceededUpTo(runs, g, n)
  {
    var m := RunCount(runs, g);
    assert NoRunAfter(runs, g, m);
    if n <= m { BoundIsIrrelevant(runs, g, n, m); } else { BoundIsIrrelevant(runs, g, m, n); }
  }

  // Runs are numbered without gaps, so the first missing number is the end.
  lemma FirstGapIsTheEnd(groups: map<Id, Group>, runs: map<RunKey, RunState>, g: Id, n: nat)
    requires RunsOk(groups, runs) && (g, n + 1) !in runs
    ensures NoRunAfter(runs, g, n)
  {
    forall m: nat | m > n ensures (g, m) !in runs {
      if (g, m) in runs {
        EarlierRunsAreUsable(groups, runs, g, m);
        assert false;
      }
    }
  }

  lemma RunsAreFew(groups: map<Id, Group>, runs: map<RunKey, RunState>, g: Id, n: nat)
    requires RunsOk(groups, runs) && (g, n) in runs
    ensures 1 <= n <= 3
  {
    assert RunOk(groups, runs, (g, n));
  }

  class V11Content {
    const db: Database
    const jobs: EvaluationJobs

    constructor (db: Database)
      ensures this.db == db && Wired()
    {
      this.db := db;
      this.jobs := new EvaluationJobs(db);
    }

    ghost predicate Wired()
      reads this, jobs
    {
      jobs.db == db && jobs.quotas.db == db
    }

    // ----------------------------------------------------------------------
    // trigger

    method CurrentRevision(videoId: Id) returns (workflow: Option<Id>)
      requires RevisionsOk(db.revisions)
      ensures workflow == CurrentOf(db.revisions, videoId)
    {
      if r: Id :| r in db.revisions && IsCurrent(db.revisions, videoId, r) {
        OneCurrent(db.revisions, videoId, r, r);
        return Some(r);
      }
      return None;
    }

    method Supersede(previous: Id, id: Id, mode: Option<bool>)
      requires previous in db.revisions
      modifies db`revisions
      ensures db.CoreState() == old(db.CoreState())
      ensures db.FlowState() == NextRevision(old(db.FlowState()), previous, id, mode)
    {
      var number, videoId := db.revisions[previous].number, db.revisions[previous].videoId;
      db.revisions := db.revisions[previous := db.revisions[previous].(status := Superseded)];
      db.revisions := db.revisions[id := Revision(videoId, number + 1, Current, mode, None)];
    }

    method CloseOpenWork(r: Id, statuses: set<GroupStatus>)
      modifies db`runs, db`groups
      ensures db.CoreState() == old(db.CoreState())
      ensures db.FlowState() == CloseWork(old(db.FlowState()), r, statuses)
    {
      var runs := StaleRuns(db.FlowState(), r);
      var groups := SupersededGroups(db.FlowState(), r, statuses);
      db.runs := runs;
      db.groups := groups;
    }

    // The revision the trigger works on: retried, cut over, new or as it is.
    method PrepareWorkflow(videoId: Id, shadow: bool, newId: Id) returns (r: Result<Id, FlowError>)
      requires RevisionsOk(db.revisions) && newId !in db.revisions
      modifies db`revisions, db`runs, db`groups
      ensures db.CoreState() == old(db.CoreState())
      ensures r.Success? ==> WorkflowFor(old(db.FlowState()), videoId, shadow, newId) == Success((db.FlowState(), r.value))
      ensures r.Failure? ==> WorkflowFor(old(db.FlowState()), videoId, shadow, newId) == Failure(r.error)
                             && db.FlowState() == old(db.FlowState())
    {
      var workflow := CurrentRevision(videoId);
      if workflow.None? {
        db.revisions := db.revisions[newId := Revision(videoId, 1, Current, Some(shadow), None)];
        return Success(newId);
      }
      var id := workflow.value;
      var mode := ModeOf(db.FlowState(), id);
      var holds := ActiveHolds(db.FlowState(), id);
      var appeals := ActiveAppeals(db.FlowState(), id);
      var undecided := !shadow && mode == Some(false) && db.revisions[id].activeDecision.None?;
      var retryable := undecided && OnlyInstability(db.FlowState(), id);
      if undecided && (holds != {} || appeals != {}) && !retryable { return Failure(FlowConflict); }
      if retryable {
        Supersede(id, newId, Some(false));
        id := newId;
      }
      if mode.Some? && mode.value != shadow {
        CloseOpenWork(id, OPEN_STATUSES);
        Supersede(id, newId, Some(shadow));
        id := newId;
      }
      return Success(id);
    }

    method EnqueueRun(now: Time, jobId: Id, actorId: Id, k: RunKey, maxAttempts: nat) returns (r: Result<(), FlowError>)
      requires Wired() && k.0 in db.groups
      modifies db`jobs, db`ledger
      ensures db.FlowState() == old(db.FlowState())
      ensures r.Success? ==> WorkflowModel.EnqueueRun(old(db.State()), now, jobId, actorId, k, maxAttempts) == Success(db.State())
      ensures r.Failure? ==> WorkflowModel.EnqueueRun(old(db.State()), now, jobId, actorId, k, maxAttempts) == Failure(r.error)
    {
      var live := TargetLive(db.FlowState(), db.groups[k.0].videoId, k);
      var queued := jobs.Enqueue(now, jobId, RunJob(db.FlowState(), actorId, k, maxAttempts), None, live, false);
      if queued.Failure? { return Failure(QueueFailure(queued.error)); }
      return Success(());
    }

    method FinishJob(now: Time, lease: Lease, outcome: Outcome) returns (r: Result<(), FlowError>)
      requires Wired()
      modifies db`jobs, db`attempts, db`usage, db`ledger
      ensures db.FlowState() == old(db.FlowState())
      ensures r.Success? ==> WorkflowModel.FinishJob(old(db.State()), now, lease.jobId, lease.token, outcome) == Success(db.State())
      ensures r.Failure? ==> WorkflowModel.FinishJob(old(db.State()), now, lease.jobId, lease.token, outcome) == Failure(r.error)
    {
      var finished := jobs.FinishCurrent(now, lease, outcome);
      if finished.Failure? { return Failure(QueueFailure(finished.error)); }
      return Success(());
    }

    method OpenGroupRows(id: Id, group: Group)
      modifies db`groups, db`runs
      ensures db.CoreState() == old(db.CoreState())
      ensures db.FlowState() == OpenGroup(old(db.FlowState()), id, group)
    {
      db.groups := db.groups[id := group];
      db.runs := db.runs[(id, 1) := RunPending];
    }

    method TriggerRows(now: Time, t: TriggerInput) returns (r: Result<(), FlowError>)
      requires Wired() && RevisionsOk(db.revisions) && t.revisionId !in db.revisions
      modifies db`revisions, db`runs, db`groups, db`jobs, db`ledger
      ensures r.Success? ==> WorkflowModel.Trigger(old(db.State()), now, t) == Success(db.State())
      ensures r.Failure? ==> WorkflowModel.Trigger(old(db.State()), now, t) == Failure(r.error)
    {
      if !t.featureEnabled { return Failure(FlowConflict); }
      if t.featureShadow && !t.pilot { return Failure(FlowConflict); }
      if t.videoId !in db.videos { return Failure(FlowNotFound); }
      if !t.permitted { return Failure(FlowForbidden); }
      var ownerId := db.videos[t.videoId].creatorId;
      var workflow := PrepareWorkflow(t.videoId, t.pilot, t.revisionId);
      if workflow.Failure? { return Failure(workflow.error); }
      var flow := db.FlowState();
      if !t.pilot && exists g :: g in flow.groups && IsDuplicate(flow, g, ownerId, t.pilot, t.fingerprint) {
        return Success(());
      }
      var group := Group(t.videoId, ownerId, workflow.value, false, t.pilot, t.pilot, t.fingerprint, t.inputComplete, GroupQueued, 0);
      OpenGroupRows(t.groupId, group);
      r := EnqueueRun(now, t.jobId, t.actorId, (t.groupId, 1), if t.pilot then 1 else 2);
    }

    method Trigger(now: Time, t: TriggerInput) returns (r: Result<(), FlowError>)
      requires Wired() && db.Valid()
      requires t.revisionId !in db.revisions && t.groupId !in db.groups && t.jobId !in db.jobs
      modifies db
      ensures db.Valid()
      ensures r.Success? ==> WorkflowModel.Trigger(old(db.State()), now, t) == Success(db.State())
      ensures r.Failure? ==> WorkflowModel.Trigger(old(db.State()), now, t) == Failure(r.error) && db.State() == old(db.State())
    {
      var saved := db.State();
      r := TriggerRows(now, t);
      if r.Failure? { db.Restore(saved); } else { TriggerKeeps(saved, now, t); }
    }

    // ----------------------------------------------------------------------
    // executeJob

    method BeginRows(now: Time, lease: Lease) returns (r: Result<(), FlowError>)
      modifies db`runs, db`groups
      ensures db.CoreState() == old(db.CoreState()) && db.decisions == old(db.decisions) && db.holds == old(db.holds)
      ensures r.Success? ==> WorkflowModel.Begin(old(db.State()), now, lease.jobId, lease.token) == Success(db.State())
      ensures r.Failure? ==> WorkflowModel.Begin(old(db.State()), now, lease.jobId, lease.token) == Failure(r.error)
                             && db.State() == old(db.State())
    {
      if !Bound(db.State(), now, lease.jobId, lease.token) { return Failure(QueueFailure(LeaseLost)); }
      var k := KeyOf(db.jobs[lease.jobId]);
      var group := db.groups[k.0];
      if group.technicalAttempts >= TECHNICAL_ATTEMPT_LIMIT { return Failure(AttemptLimit); }
      db.runs := db.runs[k := RunRunning];
      db.groups := db.groups[k.0 := group.(status := GroupRunning, technicalAttempts := group.technicalAttempts + 1)];
      return Success(());
    }

    method Begin(now: Time, lease: Lease) returns (r: Result<(), FlowError>)
      requires db.Valid()
      modifies db`runs, db`groups
      ensures db.Valid()
      ensures db.CoreState() == old(db.CoreState()) && db.decisions == old(db.decisions) && db.holds == old(db.holds)
      ensures r.Success? ==> WorkflowModel.Begin(old(db.State()), now, lease.jobId, lease.token) == Success(db.State())
      ensures r.Failure? ==> WorkflowModel.Begin(old(db.State()), now, lease.jobId, lease.token) == Failure(r.error)
                             && db.State() == old(db.State())
    {
      ghost var before := db.State();
      r := BeginRows(now, lease);
      if r.Success? { BeginKeeps(before, now, lease.jobId, lease.token); }
    }

    method FailRows(now: Time, lease: Lease) returns (r: Result<(), FlowError>)
      requires Wired()
      modifies db`runs, db`groups, db`jobs, db`attempts, db`usage, db`ledger
      ensures r.Success? ==> WorkflowModel.Fail(old(db.State()), now, lease.jobId, lease.token) == Success(db.State())
      ensures r.Failure? ==> WorkflowModel.Fail(old(db.State()), now, lease.jobId, lease.token) == Failure(r.error)
    {
      if !IsRunJob(db.CoreState(), lease.jobId) { return Failure(QueueFailure(LeaseLost)); }
      jobs.FailRunRows(KeyOf(db.jobs[lease.jobId]));
      r := FinishJob(now, lease, Failure');
    }

    method Fail(now: Time, lease: Lease) returns (r: Result<(), FlowError>)
      requires Wired() && db.Valid()
      modifies db
      ensures db.Valid()
      ensures r.Success? ==> WorkflowModel.Fail(old(db.State()), now, lease.jobId, lease.token) == Success(db.State())
      ensures r.Failure? ==> WorkflowModel.Fail(old(db.State()), now, lease.jobId, lease.token) == Failure(r.error)
                             && db.State() == old(db.State())
    {
      var saved := db.State();
      r := FailRows(now, lease);
      if r.Failure? { db.Restore(saved); } else { FailKeeps(saved, now, lease.jobId, lease.token); }
    }

    method SucceededRuns(g: Id) returns (numbers: seq<nat>)
      requires RunsOk(db.groups, db.runs)
      ensures numbers == SucceededNumbers(db.runs, g)
    {
      numbers := [];
      var n := 0;
      while (g, n + 1) in db.runs
        invariant numbers == SucceededUpTo(db.runs, g, n) && n <= 3
        decreases 3 - n
      {
        RunsAreFew(db.groups, db.runs, g, n + 1);
        n := n + 1;
        if db.runs[(g, n)].RunSucceeded? { numbers := numbers + [n]; }
      }
      FirstGapIsTheEnd(db.groups, db.runs, g, n);
      AnyBound(db.runs, g, n);
    }

    method HoldRows(id: Id, revisionId: Id, groupId: Option<Id>, holdType: HoldType) returns (r: Result<(), FlowError>)
      modifies db`holds
      ensures db.CoreState() == old(db.CoreState())
      ensures r.Success? ==> AddHold(old(db.FlowState()), id, revisionId, groupId, holdType) == Success(db.FlowState())
      ensures r.Failure? ==> AddHold(old(db.FlowState()), id, revisionId, groupId, holdType) == Failure(r.error)
    {
      if HoldActive(db.FlowState(), revisionId, holdType) { return Failure(FlowConstraint); }
      db.holds := db.holds[id := WorkflowHold(revisionId, groupId, holdType, Unresolved)];
      return Success(());
    }

    method GateRows(g: Id, decision: Decision, holdId: Id) returns (r: Result<(), FlowError>)
      requires g in db.groups
      modifies db`gates, db`holds, db`groups
      ensures db.CoreState() == old(db.CoreState())
      ensures r.Success? ==> PassGate(old(db.FlowState()), g, decision, holdId) == Success(db.FlowState())
      ensures r.Failure? ==> PassGate(old(db.FlowState()), g, decision, holdId) == Failure(r.error)
    {
      var revisionId := decision.revisionId;
      var hasHold := ActiveHolds(db.FlowState(), revisionId) != {};
      var hasAppeal := ActiveAppeals(db.FlowState(), revisionId) != {};
      if decision.compliance == Clear && !hasHold && !hasAppeal {
        if revisionId in db.gates { return Failure(FlowConstraint); }
        var approved := decision.rating == APlus || decision.rating == A || decision.rating == B || decision.rating == BMinus;
        db.gates := db.gates[revisionId := if approved then Approved else RevisionRequired];
      } else if decision.compliance != Clear {
        if revisionId in db.gates { return Failure(FlowConstraint); }
        db.gates := db.gates[revisionId := GateHold];
        var held := HoldRows(holdId, revisionId, Some(g), ComplianceCheck);
        if held.Failure? { return held; }
        db.groups := db.groups[g := db.groups[g].(status := GroupHeld)];
      }
      return Success(());
    }

    method RecordRows(g: Id, id: Id, decision: Decision)
      requires g in db.groups && decision.revisionId in db.revisions
      modifies db`decisions, db`revisions, db`groups
      ensures db.FlowState() == RecordDecision(old(db.FlowState()), g, id, decision)
      ensures db.CoreState() == old(db.CoreState())
    {
      db.decisions := db.decisions[id := decision];
      db.revisions := db.revisions[decision.revisionId := db.revisions[decision.revisionId].(activeDecision := Some(id))];
      db.groups := db.groups[g := db.groups[g].(status := GroupAdopted)];
    }

    method ResolveRows(g: Id)
      modifies db`appeals, db`holds
      ensures db.FlowState() == ResolveByGroup(old(db.FlowState()), g)
      ensures db.CoreState() == old(db.CoreState())
    {
      var resolved := ResolveByGroup(db.FlowState(), g);
      db.appeals := resolved.appeals;
      db.holds := resolved.holds;
    }

    method AdoptRows(g: Id, id: Id, decision: Decision, holdId: Id) returns (r: Result<(), FlowError>)
      requires g in db.groups && decision.revisionId in db.revisions
      modifies db`decisions, db`revisions, db`groups, db`appeals, db`holds, db`gates
      ensures db.CoreState() == old(db.CoreState())
      ensures r.Success? ==> AdoptDecision(old(db.FlowState()), g, id, decision, holdId) == Success(db.FlowState())
      ensures r.Failure? ==> AdoptDecision(old(db.FlowState()), g, id, decision, holdId) == Failure(r.error)
    {
      if HasDecision(db.FlowState(), g) { return Failure(FlowConstraint); }
      var group := db.groups[g];
      RecordRows(g, id, decision);
      if group.appeal { ResolveRows(g); }
      if group.shadow { return Success(()); }
      r := GateRows(g, decision, holdId);
    }

    method AdoptRunRows(now: Time, lease: Lease, decisionId: Id, decision: Decision, holdId: Id) returns (r: Result<(), FlowError>)
      requires Wired() && decision.groupId in db.groups && decision.revisionId in db.revisions
      modifies db`decisions, db`revisions, db`groups, db`appeals, db`holds, db`gates, db`jobs, db`attempts, db`usage, db`ledger
      ensures r.Success? ==> AdoptRun(old(db.State()), now, lease.jobId, lease.token, decisionId, decision, holdId) == Success(db.State())
      ensures r.Failure? ==> AdoptRun(old(db.State()), now, lease.jobId, lease.token, decisionId, decision, holdId) == Failure(r.error)
    {
      r := AdoptRows(decision.groupId, decisionId, decision, holdId);
      if r.Failure? { return r; }
      r := FinishJob(now, lease, Success');
    }

    method HoldRunRows(now: Time, lease: Lease, g: Id, holdId: Id, holdType: HoldType) returns (r: Result<(), FlowError>)
      requires Wired() && g in db.groups
      modifies db`groups, db`holds, db`jobs, db`attempts, db`usage, db`ledger
      ensures r.Success? ==> HoldRun(old(db.State()), now, lease.jobId, lease.token, g, holdId, holdType) == Success(db.State())
      ensures r.Failure? ==> HoldRun(old(db.State()), now, lease.jobId, lease.token, g, holdId, holdType) == Failure(r.error)
    {
      r := HoldRows(holdId, db.groups[g].revisionId, Some(g), holdType);
      if r.Failure? { return r; }
      db.groups := db.groups[g := db.groups[g].(status := GroupHeld)];
      r := FinishJob(now, lease, Success');
    }

    // The run that follows, and its job.
    method ContinueRunRows(now: Time, lease: Lease, k: RunKey, actorId: Id, nextJobId: Id) returns (r: Result<(), FlowError>)
      requires Wired() && k.0 in db.groups
      modifies db`runs, db`groups, db`jobs, db`attempts, db`usage, db`ledger
      ensures r.Success? ==> ContinueRun(old(db.State()), now, lease.jobId, lease.token, k, actorId, nextJobId) == Success(db.State())
      ensures r.Failure? ==> ContinueRun(old(db.State()), now, lease.jobId, lease.token, k, actorId, nextJobId) == Failure(r.error)
    {
      if k in db.runs { return Failure(FlowConstraint); }
      db.runs := db.runs[k := RunPending];
      r := FinishJob(now, lease, Success');
      if r.Failure? { return r; }
      r := EnqueueRun(now, nextJobId, actorId, k, 2);
      if r.Failure? { return r; }
      db.groups := db.groups[k.0 := db.groups[k.0].(status := ReviewRequired)];
    }

    method Progressed(reviews: seq<ReviewRun>, appeal: bool, check: FirstCheck) returns (p: Result<ReviewEngine.Progress, EngineError>)
      ensures p == ProgressOf(reviews, appeal, check)
    {
      if |reviews| == 1 {
        var run := reviews[0];
        var contradiction := DetectFirstRunContradiction(run, check.hasAudio);
        if RequiresIndependentReview(check.eligiblePilotCount, check.bucket, run.score, run.rating,
                                     check.historicalScore, contradiction, appeal) {
          return Success(SecondReview);
        }
        return Success(Adopt(SingleAfterPilot, run.anchors, run.score, run.rating));
      }
      p := DecideReviewProgress(reviews);
    }

    method ProceedRows(now: Time, lease: Lease, g: Id, numbers: seq<nat>, c: Completion, p: ReviewEngine.Progress)
      returns (r: Result<(), FlowError>)
      requires Wired() && lease.jobId in db.jobs && g in db.groups && db.groups[g].revisionId in db.revisions
      requires HasOutputs(db.runs, g, numbers)
      modifies db`decisions, db`revisions, db`groups, db`appeals, db`holds, db`gates, db`runs,
               db`jobs, db`attempts, db`usage, db`ledger
      ensures r.Success? ==> Proceed(old(db.State()), now, lease.jobId, lease.token, g, numbers, c, p) == Success(db.State())
      ensures r.Failure? ==> Proceed(old(db.State()), now, lease.jobId, lease.token, g, numbers, c, p) == Failure(r.error)
    {
      match p
      case Adopt(adoption, anchors, score, rating) =>
        var compliance := WorstCompliance(Reviews(db.runs, g, numbers));
        var decision := Decision(g, db.groups[g].revisionId, numbers, anchors, score, rating, compliance, adoption);
        r := AdoptRunRows(now, lease, c.decisionId, decision, c.holdId);
      case Hold(_) => r := HoldRunRows(now, lease, g, c.holdId, EvaluationInstability);
      case SecondReview => r := ContinueRunRows(now, lease, (g, |numbers| + 1), db.jobs[lease.jobId].actorId, c.nextJobId);
      case ThirdReview(_) => r := ContinueRunRows(now, lease, (g, |numbers| + 1), db.jobs[lease.jobId].actorId, c.nextJobId);
    }

    method ConcludeRows(now: Time, lease: Lease, c: Completion) returns (r: Result<(), FlowError>)
      requires Wired() && RunsOk(db.groups, db.runs)
      requires IsRunJob(db.CoreState(), lease.jobId) && KeyOf(db.jobs[lease.jobId]).0 in db.groups
      requires db.groups[KeyOf(db.jobs[lease.jobId]).0].revisionId in db.revisions
      requires HasOutputs(db.runs, KeyOf(db.jobs[lease.jobId]).0, SucceededNumbers(db.runs, KeyOf(db.jobs[lease.jobId]).0))
      modifies db`decisions, db`revisions, db`groups, db`appeals, db`holds, db`gates, db`runs,
               db`jobs, db`attempts, db`usage, db`ledger
      ensures r.Success? ==> Conclude(old(db.State()), now, lease.jobId, lease.token, c) == Success(db.State())
      ensures r.Failure? ==> Conclude(old(db.State()), now, lease.jobId, lease.token, c) == Failure(r.error)
    {
      var g := KeyOf(db.jobs[lease.jobId]).0;
      var numbers := SucceededRuns(g);
      var progress := Progressed(Reviews(db.runs, g, numbers), db.groups[g].appeal, c.check);
      if progress.Failure? { return Failure(EngineFailure(progress.error)); }
      r := ProceedRows(now, lease, g, numbers, c, progress.value);
    }

    method WeighRows(now: Time, lease: Lease, g: Id, c: Completion) returns (r: Result<(), FlowError>)
      requires Wired() && RunsOk(db.groups, db.runs)
      requires IsRunJob(db.CoreState(), lease.jobId) && KeyOf(db.jobs[lease.jobId]).0 == g
      requires g in db.groups && db.groups[g].revisionId in db.revisions
      modifies db`decisions, db`revisions, db`groups, db`appeals, db`holds, db`gates, db`runs,
               db`jobs, db`attempts, db`usage, db`ledger
      ensures r.Success? ==> Weigh(old(db.State()), now, lease.jobId, lease.token, g, c) == Success(db.State())
      ensures r.Failure? ==> Weigh(old(db.State()), now, lease.jobId, lease.token, g, c) == Failure(r.error)
    {
      var complete := db.groups[g].inputComplete && c.output.complete;
      if db.groups[g].pilot {
        db.groups := db.groups[g := db.groups[g].(status := if complete then PilotCompleted else PilotIncomplete)];
        r := FinishJob(now, lease, Success');
      } else if !complete {
        r := HoldRunRows(now, lease, g, c.holdId, InputIncomplete);
      } else {
        SucceededHaveOutputs(db.runs, g, RunCount(db.runs, g));
        r := ConcludeRows(now, lease, c);
      }
    }

    method CompleteRows(now: Time, lease: Lease, c: Completion) returns (r: Result<(), FlowError>)
      requires Wired() && RunsOk(db.groups, db.runs) && (c.output.complete ==> Scored(c.output.review))
      modifies db`decisions, db`revisions, db`groups, db`appeals, db`holds, db`gates, db`runs,
               db`jobs, db`attempts, db`usage, db`ledger
      ensures r.Success? ==> WorkflowModel.Complete(old(db.State()), now, lease.jobId, lease.token, c) == Success(db.State())
      ensures r.Failure? ==> WorkflowModel.Complete(old(db.State()), now, lease.jobId, lease.token, c) == Failure(r.error)
    {
      if !Bound(db.State(), now, lease.jobId, lease.token) { return Failure(QueueFailure(LeaseLost)); }
      var k := KeyOf(db.jobs[lease.jobId]);
      // The check for a stale revision: the check above has refused it already.
      if IsStale(db.FlowState(), k) { assert false; }
      RunChanges(db.groups, db.groups, db.runs, k, RunSucceeded(c.output));
      db.runs := db.runs[k := RunSucceeded(c.output)];
      r := WeighRows(now, lease, k.0, c);
    }

    method Complete(now: Time, lease: Lease, c: Completion) returns (r: Result<(), FlowError>)
      requires Wired() && db.Valid() && (c.output.complete ==> Scored(c.output.review))
      requires c.nextJobId !in db.jobs && c.decisionId !in db.decisions && c.holdId !in db.holds
      modifies db
      ensures db.Valid()
      ensures r.Success? ==> WorkflowModel.Complete(old(db.State()), now, lease.jobId, lease.token, c) == Success(db.State())
      ensures r.Failure? ==> WorkflowModel.Complete(old(db.State()), now, lease.jobId, lease.token, c) == Failure(r.error)
                             && db.State() == old(db.State())
    {
      var saved := db.State();
      r := CompleteRows(now, lease, c);
      if r.Failure? { db.Restore(saved); } else { CompleteKeeps(saved, now, lease.jobId, lease.token, c); }
    }

    method MarkRows(now: Time, lease: Lease, ownsVideo: bool) returns (marked: bool)
      requires Wired()
      modifies db`jobs, db`attempts, db`usage
      ensures db.State() == AfterMark(old(db.State()), now, lease, ownsVideo)
      ensures marked == MarkResult(old(db.State()), now, lease, ownsVideo).Success?
    {
      var bound := Bound(db.State(), now, lease.jobId, lease.token);
      var r := jobs.MarkExternalStarted(now, lease, bound, ownsVideo);
      marked := r.Success?;
    }

    // The lease holder marks the billable request, if the run is still bound to it.
    method Mark(now: Time, lease: Lease, ownsVideo: bool) returns (marked: bool)
      requires Wired() && db.Valid() && IsRunJob(db.CoreState(), lease.jobId)
      modifies db`jobs, db`attempts, db`usage
      ensures db.Valid() && IsRunJob(db.CoreState(), lease.jobId)
      ensures db.jobs.Keys == old(db.jobs).Keys && old(db.attempts).Keys <= db.attempts.Keys
      ensures marked ==> Bound(old(db.State()), now, lease.jobId, lease.token)
      ensures marked ==> db.jobs[lease.jobId].externalStartedAt == Some(now)
      ensures db.FlowState() == old(db.FlowState())
      ensures db.State() == AfterMark(old(db.State()), now, lease, ownsVideo)
      ensures marked == MarkResult(old(db.State()), now, lease, ownsVideo).Success?
    {
      MarkOutcome(db.State(), now, lease, ownsVideo);
      marked := MarkRows(now, lease, ownsVideo);
    }

    // When it returns normally, the run was not waiting to be executed, or the
    // worker's lease is closed with the job.
    method ExecuteJob(times: JobTimes, lease: Lease, ownsVideo: bool, answer: ModelAnswer) returns (ending: Ending)
      requires Wired() && db.Valid() && IsRunJob(db.CoreState(), lease.jobId)
      requires answer.Answered? ==>
                 && (answer.completion.output.complete ==> Scored(answer.completion.output.review))
                 && answer.completion.nextJobId !in db.jobs && answer.completion.decisionId !in db.decisions
                 && answer.completion.holdId !in db.holds
      modifies db
      ensures db.Valid()
      ensures old(db.attempts).Keys <= db.attempts.Keys
      ensures (ending, db.State()) == AfterJob(old(db.State()), times, lease, ownsVideo, answer)
      ensures ending == Returned ==>
                || !(KeyOf(old(db.jobs[lease.jobId])) in old(db.runs) && Live(old(db.runs)[KeyOf(old(db.jobs[lease.jobId]))]))
                || (lease.jobId in db.jobs && db.jobs[lease.jobId].leaseToken.None?)
    {
      var k := KeyOf(db.jobs[lease.jobId]);
      if k !in db.runs || !Live(db.runs[k]) { return Returned; }
      var begun := Begin(times.begin, lease);
      if begun.Failure? { return Threw; }
      var done := Attempted(times, lease, ownsVideo, answer);
      if done { return Returned; }
      ghost var before := db.State();
      var failed := Fail(times.fail, lease);
      if failed.Failure? { return Threw; }
      FailCloses(before, times.fail, lease.jobId, lease.token);
      return Returned;
    }

    // The try block: true when the completion went through.
    method Attempted(times: JobTimes, lease: Lease, ownsVideo: bool, answer: ModelAnswer) returns (done: bool)
      requires Wired() && db.Valid() && IsRunJob(db.CoreState(), lease.jobId)
      requires answer.Answered? ==>
                 && (answer.completion.output.complete ==> Scored(answer.completion.output.review))
                 && answer.completion.nextJobId !in db.jobs && answer.completion.decisionId !in db.decisions
                 && answer.completion.holdId !in db.holds
      modifies db
      ensures db.Valid() && IsRunJob(db.CoreState(), lease.jobId)
      ensures old(db.attempts).Keys <= db.attempts.Keys
      ensures done ==> lease.jobId in db.jobs && db.jobs[lease.jobId].leaseToken.None?
      ensures (done, db.State()) == AfterAttempt(old(db.State()), times, lease, ownsVideo, answer)
    {
      if answer.SourceGone? { return false; }
      ghost var before := db.State();
      var marked := Mark(times.mark, lease, ownsVideo);
      if !marked { return false; }
      ghost var after := db.State();
      MarkedAttempt(before, after, times, lease, ownsVideo, answer);
      if answer.ModelFailed? { return false; }
      done := Record(times.complete, lease, answer.completion);
    }

    method Record(now: Time, lease: Lease, c: Completion) returns (done: bool)
      requires Wired() && db.Valid() && IsRunJob(db.CoreState(), lease.jobId)
      requires c.output.complete ==> Scored(c.output.review)
      requires c.nextJobId !in db.jobs && c.decisionId !in db.decisions && c.holdId !in db.holds
      modifies db
      ensures db.Valid() && IsRunJob(db.CoreState(), lease.jobId)
      ensures old(db.attempts).Keys <= db.attempts.Keys
      ensures done ==> lease.jobId in db.jobs && db.jobs[lease.jobId].leaseToken.None?
      ensures (done, db.State()) == AfterRecord(old(db.State()), now, lease, c)
    {
      ghost var before := db.State();
      var completed := Complete(now, lease, c);
      RecordOutcome(before, now, lease, c);
      done := completed.Success?;
    }
  }

  datatype JobTimes = JobTimes(begin: Time, mark: Time, complete: Time, fail: Time)

  // What the storage and the model make of the request.
  datatype ModelAnswer = SourceGone | ModelFailed | Answered(completion: Completion)

  datatype Ending = Returned | Threw

  ghost function AfterRecord(db: Db, now: Time, lease: Lease, c: Completion): (bool, Db) {
    match WorkflowModel.Complete(db, now, lease.jobId, lease.token, c)
    case Success(after) => (true, after)
    case Failure(_) => (false, db)
  }

  lemma RecordOutcome(db: Db, now: Time, lease: Lease, c: Completion)
    requires IsRunJob(db.core, lease.jobId) && c.nextJobId !in db.core.queue.jobs
    ensures var completed := WorkflowModel.Complete(db, now, lease.jobId, lease.token, c);
            && (completed.Failure? ==> AfterRecord(db, now, lease, c) == (false, db))
            && (completed.Success? ==>
                  var after := completed.value;
                  && AfterRecord(db, now, lease, c) == (true, after)
                  && IsRunJob(after.core, lease.jobId) && after.core.queue.jobs[lease.jobId].leaseToken.None?
                  && db.core.queue.attempts.Keys <= after.core.queue.attempts.Keys)
  {
    if WorkflowModel.Complete(db, now, lease.jobId, lease.token, c).Success? {
      CompleteCloses(db, now, lease.jobId, lease.token, c);
    }
  }

  // The try block: whether the answer was recorded, and what is left behind.
  ghost function AfterAttempt(db: Db, times: JobTimes, lease: Lease, ownsVideo: bool, answer: ModelAnswer): (bool, Db) {
    if answer.SourceGone? || MarkResult(db, times.mark, lease, ownsVideo).Failure? then (false, db)
    else
      var marked := AfterMark(db, times.mark, lease, ownsVideo);
      if answer.ModelFailed? then (false, marked) else AfterRecord(marked, times.complete, lease, answer.completion)
  }

  lemma MarkedAttempt(db: Db, marked: Db, times: JobTimes, lease: Lease, ownsVideo: bool, answer: ModelAnswer)
    requires !answer.SourceGone? && MarkResult(db, times.mark, lease, ownsVideo).Success?
    requires marked == AfterMark(db, times.mark, lease, ownsVideo)
    ensures AfterAttempt(db, times, lease, ownsVideo, answer)
         == if answer.ModelFailed? then (false, marked) else AfterRecord(marked, times.complete, lease, answer.completion)
  {
  }

  // With the catch block: an attempt that fails is recorded as a failure.
  ghost function AfterBegun(db: Db, times: JobTimes, lease: Lease, ownsVideo: bool, answer: ModelAnswer): (Ending, Db) {
    var (done, after) := AfterAttempt(db, times, lease, ownsVideo, answer);
    if done then (Returned, after)
    else
      match WorkflowModel.Fail(after, times.fail, lease.jobId, lease.token)
      case Success(failed) => (Returned, failed)
      case Failure(_) => (Threw, after)
  }

  ghost function AfterJob(db: Db, times: JobTimes, lease: Lease, ownsVideo: bool, answer: ModelAnswer): (Ending, Db)
    requires IsRunJob(db.core, lease.jobId)
  {
    var k := KeyOf(db.core.queue.jobs[lease.jobId]);
    if k !in db.flow.runs || !Live(db.flow.runs[k]) then (Returned, db)
    else
      match WorkflowModel.Begin(db, times.begin, lease.jobId, lease.token)
      case Success(begun) => AfterBegun(begun, times, lease, ownsVideo, answer)
      case Failure(_) => (Threw, db)
  }

  lemma MarkKeeps(db: Db, now: Time, id: Id, token: Id, ownsVideo: bool)
    requires DbInv(db)
    requires MarkExternalStarted(db.core, now, id, token, Bound(db, now, id, token), ownsVideo).Success?
    ensures DbInv(db.(core := MarkExternalStarted(db.core, now, id, token, Bound(db, now, id, token), ownsVideo).value))
  {
    var op := OpMark(id, token, Bound(db, now, id, token), ownsVideo);
    MarkIsStep(db.core, now, id, token, Bound(db, now, id, token), ownsVideo);
    assert LeavesRunsAlone(db, now, op);
    CoreEventKeeps(db, now, op);
  }

  lemma MarkIsStep(c: Core, now: Time, id: Id, token: Id, bound: bool, ownsVideo: bool)
    requires MarkExternalStarted(c, now, id, token, bound, ownsVideo).Success?
    ensures Step(c, now, OpMark(id, token, bound, ownsVideo)) == MarkExternalStarted(c, now, id, token, bound, ownsVideo).value
  {
  }

  lemma MarkKeepsRows(c: Core, now: Time, id: Id, token: Id, bound: bool, ownsVideo: bool)
    requires MarkExternalStarted(c, now, id, token, bound, ownsVideo).Success?
    ensures var after := MarkExternalStarted(c, now, id, token, bound, ownsVideo).value.queue;
            && after.jobs.Keys == c.queue.jobs.Keys
            && (IsRunJob(c, id) ==> IsRunJob(c.(queue := after), id))
            && c.queue.attempts.Keys <= after.attempts.Keys
            && bound && id in after.jobs && after.jobs[id].externalStartedAt == Some(now)
  {
  }

  function MarkResult(db: Db, now: Time, lease: Lease, ownsVideo: bool): Result<Core, QueueError> {
    MarkExternalStarted(db.core, now, lease.jobId, lease.token, Bound(db, now, lease.jobId, lease.token), ownsVideo)
  }

  function AfterMark(db: Db, now: Time, lease: Lease, ownsVideo: bool): Db {
    var r := MarkResult(db, now, lease, ownsVideo);
    if r.Success? then db.(core := r.value) else db
  }

  lemma MarkOutcome(db: Db, now: Time, lease: Lease, ownsVideo: bool)
    requires DbInv(db) && IsRunJob(db.core, lease.jobId)
    ensures var marked, after := MarkResult(db, now, lease, ownsVideo).Success?, AfterMark(db, now, lease, ownsVideo);
            && DbInv(after) && IsRunJob(after.core, lease.jobId)
            && after.core.queue.jobs.Keys == db.core.queue.jobs.Keys
            && db.core.queue.attempts.Keys <= after.core.queue.attempts.Keys
            && (marked ==> Bound(db, now, lease.jobId, lease.token))
            && (marked ==> after.core.queue.jobs[lease.jobId].externalStartedAt == Some(now))
            && (!marked ==> after == db)
  {
    if MarkResult(db, now, lease, ownsVideo).Success? {
      MarkKeeps(db, now, lease.jobId, lease.token, ownsVideo);
      MarkKeepsRows(db.core, now, lease.jobId, lease.token, Bound(db, now, lease.jobId, lease.token), ownsVideo);
    }
  }
}
