// A completion that goes through, or a failure that is recorded, closes the job it
// was made with in the same transaction.
module WorkflowClosing {
  import opened Basics
  import opened ReviewEngine
  import opened QueueModel
  import opened QueueSteps
  import opened WorkflowModel
  import opened WorkflowSafety
  import opened WorkflowCompletion

  ghost predicate JobClosed(before: Core, after: Core, id: Id, outcome: Outcome) {
    && id in before.queue.jobs && id in after.queue.jobs && SameBinding(before.queue.jobs[id], after.queue.jobs[id])
    && after.queue.jobs[id].status == OutcomeStatus(outcome) && after.queue.jobs[id].failureCode == OutcomeCode(outcome)
    && after.queue.jobs[id].leaseToken.None? && after.queue.jobs[id].externalStartedAt == before.queue.jobs[id].externalStartedAt
    && forall t :: t in before.queue.attempts ==> t in after.queue.attempts
  }

  // No run has succeeded that had not before.
  predicate NoNewSuccess(before: map<RunKey, RunState>, after: map<RunKey, RunState>) {
    forall k :: k in after && after[k].RunSucceeded? ==> k in before && before[k].RunSucceeded?
  }

  ghost predicate Closes(before: Db, after: Db, id: Id, outcome: Outcome) {
    JobClosed(before.core, after.core, id, outcome) && NoNewSuccess(before.flow.runs, after.flow.runs)
  }

  lemma FinishCloses(db: Db, now: Time, id: Id, token: Id, outcome: Outcome)
    requires FinishJob(db, now, id, token, outcome).Success?
    ensures Closes(db, FinishJob(db, now, id, token, outcome).value, id, outcome)
  {
  }

  // The same with other rows changed before.
  lemma FinishClosesAfter(db: Db, flow: Flow, now: Time, id: Id, token: Id, outcome: Outcome)
    requires FinishJob(db.(flow := flow), now, id, token, outcome).Success? && NoNewSuccess(db.flow.runs, flow.runs)
    ensures Closes(db, FinishJob(db.(flow := flow), now, id, token, outcome).value, id, outcome)
  {
    FinishCloses(db.(flow := flow), now, id, token, outcome);
    FinishJobIsStep(db.(flow := flow), now, id, token, outcome);
  }

  lemma FailCloses(db: Db, now: Time, id: Id, token: Id)
    requires Fail(db, now, id, token).Success?
    ensures Closes(db, Fail(db, now, id, token).value, id, Failure')
  {
    FinishClosesAfter(db, FailRun(db.flow, KeyOf(db.core.queue.jobs[id])), now, id, token, Failure');
  }

  lemma ContinueCloses(db: Db, now: Time, id: Id, token: Id, k: RunKey, actorId: Id, nextJobId: Id)
    requires k.0 in db.flow.groups && nextJobId !in db.core.queue.jobs
    requires ContinueRun(db, now, id, token, k, actorId, nextJobId).Success?
    ensures Closes(db, ContinueRun(db, now, id, token, k, actorId, nextJobId).value, id, Success')
  {
    var next := db.(flow := SetRun(db.flow, k, RunPending));
    FinishCloses(next, now, id, token, Success');
    FinishJobIsStep(next, now, id, token, Success');
    EnqueueRunIsStep(FinishJob(next, now, id, token, Success').value, now, nextJobId, actorId, k, 2);
    EnqueueKeepsAttempts(FinishJob(next, now, id, token, Success').value, now, nextJobId, actorId, k, 2);
  }

  lemma EnqueueKeepsAttempts(db: Db, now: Time, jobId: Id, actorId: Id, k: RunKey, maxAttempts: nat)
    requires k.0 in db.flow.groups && EnqueueRun(db, now, jobId, actorId, k, maxAttempts).Success?
    ensures EnqueueRun(db, now, jobId, actorId, k, maxAttempts).value.core.queue.attempts == db.core.queue.attempts
  {
  }

  lemma HoldCloses(db: Db, now: Time, id: Id, token: Id, g: Id, holdId: Id, holdType: HoldType)
    requires g in db.flow.groups && HoldRun(db, now, id, token, g, holdId, holdType).Success?
    ensures Closes(db, HoldRun(db, now, id, token, g, holdId, holdType).value, id, Success')
  {
    var held := AddHold(db.flow, holdId, db.flow.groups[g].revisionId, Some(g), holdType).value;
    FinishClosesAfter(db, SetGroup(held, g, GroupHeld), now, id, token, Success');
  }

  lemma AdoptKeepsRuns(flow: Flow, g: Id, id: Id, d: Decision, holdId: Id)
    requires g in flow.groups && d.revisionId in flow.revisions && AdoptDecision(flow, g, id, d, holdId).Success?
    ensures AdoptDecision(flow, g, id, d, holdId).value.runs == flow.runs
  {
    SettledRows(flow, g, id, d);
    if !flow.groups[g].shadow { PassGateRows(Settled(flow, g, id, d), g, d, holdId); }
  }

  lemma AdoptCloses(db: Db, now: Time, id: Id, token: Id, decisionId: Id, d: Decision, holdId: Id)
    requires d.groupId in db.flow.groups && d.revisionId in db.flow.revisions
    requires AdoptRun(db, now, id, token, decisionId, d, holdId).Success?
    ensures Closes(db, AdoptRun(db, now, id, token, decisionId, d, holdId).value, id, Success')
  {
    AdoptKeepsRuns(db.flow, d.groupId, decisionId, d, holdId);
    FinishClosesAfter(db, AdoptDecision(db.flow, d.groupId, decisionId, d, holdId).value, now, id, token, Success');
  }

  lemma ProceedCloses(db: Db, now: Time, id: Id, token: Id, g: Id, numbers: seq<nat>, c: Completion, p: ReviewEngine.Progress)
    requires id in db.core.queue.jobs && g in db.flow.groups && db.flow.groups[g].revisionId in db.flow.revisions
    requires HasOutputs(db.flow.runs, g, numbers) && c.nextJobId !in db.core.queue.jobs
    requires Proceed(db, now, id, token, g, numbers, c, p).Success?
    ensures Closes(db, Proceed(db, now, id, token, g, numbers, c, p).value, id, Success')
  {
    match p
    case Adopt(adoption, anchors, score, rating) =>
      var compliance := WorstCompliance(Reviews(db.flow.runs, g, numbers));
      AdoptCloses(db, now, id, token, c.decisionId,
                  Decision(g, db.flow.groups[g].revisionId, numbers, anchors, score, rating, compliance, adoption), c.holdId);
    case Hold(_) => HoldCloses(db, now, id, token, g, c.holdId, EvaluationInstability);
    case _ => ContinueCloses(db, now, id, token, (g, |numbers| + 1), db.core.queue.jobs[id].actorId, c.nextJobId);
  }

  lemma WeighCloses(db: Db, now: Time, id: Id, token: Id, g: Id, c: Completion)
    requires IsRunJob(db.core, id) && KeyOf(db.core.queue.jobs[id]).0 == g && c.nextJobId !in db.core.queue.jobs
    requires g in db.flow.groups && db.flow.groups[g].revisionId in db.flow.revisions
    requires Weigh(db, now, id, token, g, c).Success?
    ensures Closes(db, Weigh(db, now, id, token, g, c).value, id, Success')
  {
    var complete := db.flow.groups[g].inputComplete && c.output.complete;
    if db.flow.groups[g].pilot {
      FinishClosesAfter(db, SetGroup(db.flow, g, if complete then PilotCompleted else PilotIncomplete), now, id, token, Success');
    } else if !complete {
      HoldCloses(db, now, id, token, g, c.holdId, InputIncomplete);
    } else {
      SucceededHaveOutputs(db.flow.runs, g, RunCount(db.flow.runs, g));
      var numbers := SucceededNumbers(db.flow.runs, g);
      var p := ProgressOf(Reviews(db.flow.runs, g, numbers), db.flow.groups[g].appeal, c.check).value;
      ProceedCloses(db, now, id, token, g, numbers, c, p);
    }
  }

  // A completion that goes through closes its job as succeeded, and no other run than
  // the job's own has succeeded with it.
  lemma CompleteCloses(db: Db, now: Time, id: Id, token: Id, c: Completion)
    requires c.nextJobId !in db.core.queue.jobs && Complete(db, now, id, token, c).Success?
    ensures Bound(db, now, id, token)
    ensures JobClosed(db.core, Complete(db, now, id, token, c).value.core, id, Success')
    ensures NoNewSuccess(db.flow.runs[KeyOf(db.core.queue.jobs[id]) := RunSucceeded(c.output)],
                         Complete(db, now, id, token, c).value.flow.runs)
  {
    var k := KeyOf(db.core.queue.jobs[id]);
    BoundIsNotStale(db, now, id, token, c);
    WeighCloses(db.(flow := SetRun(db.flow, k, RunSucceeded(c.output))), now, id, token, k.0, c);
  }
}
