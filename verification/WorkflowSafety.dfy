// Every event keeps the workflow invariant.
module WorkflowSafety {
  import opened Basics
  import opened QueueModel
  import opened QueueInvariant
  import opened QueueSteps
  import opened QueueSafety
  import opened QueueRuns
  import opened WorkflowModel
  import opened WorkflowInvariant
  import opened WorkflowSteps

  // ------------------------------------------------------------------------
  // Runs and jobs

  // Live runs that still have to get a job are listed in free.
  ghost predicate LiveRunsBut(jobs: map<Id, Job>, groups: map<Id, Group>, runs: map<RunKey, RunState>, free: set<RunKey>) {
    forall k: RunKey :: k in runs && Live(runs[k]) && k !in free ==> k.0 in groups && HasJob(jobs, k, groups[k.0].videoId)
  }

  // Rows were kept, and no run became live except the free ones.
  ghost predicate Calmer(flow: Flow, after: Flow, free: set<RunKey>) {
    && GroupsKept(flow.groups, after.groups)
    && RunsKept(flow.runs, after.runs)
    && forall k: RunKey :: k in after.runs && Live(after.runs[k]) && k !in free ==> k in flow.runs && Live(flow.runs[k])
  }

  lemma CalmBridge(jobs: map<Id, Job>, flow: Flow, after: Flow, free: set<RunKey>)
    requires BridgeOk(jobs, flow) && Calmer(flow, after, free) && RunsOk(flow.groups, flow.runs)
    ensures LiveRunsBut(jobs, after.groups, after.runs, free)
    ensures JobTargetsOk(jobs, after.groups, after.runs)
  {
    forall k: RunKey | k in after.runs && Live(after.runs[k]) && k !in free
      ensures k.0 in after.groups && HasJob(jobs, k, after.groups[k.0].videoId) {
      assert k in flow.runs && k.0 in flow.groups && HasJob(jobs, k, flow.groups[k.0].videoId);
    }
    forall id | id in jobs && jobs[id].stage == V11Content ensures JobTargetOk(jobs[id], after.groups, after.runs) {
      assert JobTargetOk(jobs[id], flow.groups, flow.runs);
    }
  }

  // The free run gets its job.
  lemma BridgeAfterEnqueue(jobs: map<Id, Job>, flow: Flow, k: RunKey, id: Id, j: Job)
    requires LiveRunsBut(jobs, flow.groups, flow.runs, {k}) && JobTargetsOk(jobs, flow.groups, flow.runs)
    requires id !in jobs && Active(j) && j.stage == V11Content && j.target == Run(k.0, k.1)
    requires JobTargetOk(j, flow.groups, flow.runs)
    ensures BridgeOk(jobs[id := j], flow)
  {
    var after := jobs[id := j];
    forall l: RunKey | l in flow.runs && Live(flow.runs[l])
      ensures l.0 in flow.groups && HasJob(after, l, flow.groups[l.0].videoId) {
      if l == k {
        assert WorksOn(after, id, l, flow.groups[l.0].videoId);
      } else {
        var i: Id :| WorksOn(jobs, i, l, flow.groups[l.0].videoId);
        assert WorksOn(after, i, l, flow.groups[l.0].videoId);
      }
    }
  }

  // A job and its run are closed together.
  lemma BridgeAfterClose(jobs: map<Id, Job>, flow: Flow, id: Id, j: Job, free: set<RunKey>)
    requires LiveRunsBut(jobs, flow.groups, flow.runs, free) && JobTargetsOk(jobs, flow.groups, flow.runs)
    requires id in jobs && jobs[id].target.Run? && SameBinding(jobs[id], j)
    requires KeyOf(jobs[id]) in flow.runs && !Live(flow.runs[KeyOf(jobs[id])])
    ensures LiveRunsBut(jobs[id := j], flow.groups, flow.runs, free) && JobTargetsOk(jobs[id := j], flow.groups, flow.runs)
  {
    var after := jobs[id := j];
    forall l: RunKey | l in flow.runs && Live(flow.runs[l]) && l !in free
      ensures l.0 in flow.groups && HasJob(after, l, flow.groups[l.0].videoId) {
      var i: Id :| WorksOn(jobs, i, l, flow.groups[l.0].videoId);
      assert WorksOn(after, i, l, flow.groups[l.0].videoId);
    }
    forall i | i in after && after[i].stage == V11Content ensures JobTargetOk(after[i], flow.groups, flow.runs) {
      assert JobTargetOk(jobs[i], flow.groups, flow.runs);
    }
  }

  // Other transactions leave the jobs of runs as they are or active.
  lemma BridgeAfterStep(jobs: map<Id, Job>, after: map<Id, Job>, flow: Flow)
    requires BridgeOk(jobs, flow)
    requires forall id :: id in jobs && jobs[id].stage == V11Content ==>
               id in after && SameBinding(jobs[id], after[id]) && (Active(jobs[id]) ==> Active(after[id]))
    requires forall id :: id in after && after[id].stage == V11Content ==> id in jobs && SameBinding(jobs[id], after[id])
    ensures BridgeOk(after, flow)
  {
    forall l: RunKey | l in flow.runs && Live(flow.runs[l])
      ensures l.0 in flow.groups && HasJob(after, l, flow.groups[l.0].videoId) {
      var i: Id :| WorksOn(jobs, i, l, flow.groups[l.0].videoId);
      assert WorksOn(after, i, l, flow.groups[l.0].videoId);
    }
    forall i | i in after && after[i].stage == V11Content ensures JobTargetOk(after[i], flow.groups, flow.runs) {
      assert JobTargetOk(jobs[i], flow.groups, flow.runs);
    }
  }

  // ------------------------------------------------------------------------
  // Enqueueing and finishing inside a workflow transaction

  lemma EnqueueRunIsStep(db: Db, now: Time, jobId: Id, actorId: Id, k: RunKey, maxAttempts: nat)
    requires k.0 in db.flow.groups && jobId !in db.core.queue.jobs
    requires EnqueueRun(db, now, jobId, actorId, k, maxAttempts).Success?
    ensures var after := EnqueueRun(db, now, jobId, actorId, k, maxAttempts).value;
            var op := OpEnqueue(jobId, RunJob(db.flow, actorId, k, maxAttempts), None,
                                TargetLive(db.flow, db.flow.groups[k.0].videoId, k));
            && after.flow == db.flow
            && after.core == Step(db.core, now, op)
            && TargetLive(db.flow, db.flow.groups[k.0].videoId, k)
            && after.core.queue.jobs
               == db.core.queue.jobs[jobId := NewJob(RunJob(db.flow, actorId, k, maxAttempts), actorId, now, None)]
  {
  }

  lemma EnqueueRunKeeps(db: Db, now: Time, jobId: Id, actorId: Id, k: RunKey, maxAttempts: nat)
    requires Inv(db.core) && FlowOk(db.flow)
    requires LiveRunsBut(db.core.queue.jobs, db.flow.groups, db.flow.runs, {k})
    requires JobTargetsOk(db.core.queue.jobs, db.flow.groups, db.flow.runs)
    requires k.0 in db.flow.groups && jobId !in db.core.queue.jobs
    requires EnqueueRun(db, now, jobId, actorId, k, maxAttempts).Success?
    ensures DbInv(EnqueueRun(db, now, jobId, actorId, k, maxAttempts).value)
  {
    EnqueueRunIsStep(db, now, jobId, actorId, k, maxAttempts);
    var op := OpEnqueue(jobId, RunJob(db.flow, actorId, k, maxAttempts), None,
                        TargetLive(db.flow, db.flow.groups[k.0].videoId, k));
    StepInv(db.core, now, op);
    var j := NewJob(RunJob(db.flow, actorId, k, maxAttempts), actorId, now, None);
    BridgeAfterEnqueue(db.core.queue.jobs, db.flow, k, jobId, j);
  }

  lemma FinishJobIsStep(db: Db, now: Time, id: Id, token: Id, outcome: Outcome)
    requires FinishJob(db, now, id, token, outcome).Success?
    ensures var after := FinishJob(db, now, id, token, outcome).value;
            && after.flow == db.flow
            && after.core == Step(db.core, now, OpFinish(id, token, outcome))
            && LeaseLive(db.core.queue, now, id, token)
            && id in after.core.queue.jobs
            && after.core.queue.jobs == db.core.queue.jobs[id := after.core.queue.jobs[id]]
            && SameBinding(db.core.queue.jobs[id], after.core.queue.jobs[id])
  {
  }

  lemma FinishJobKeeps(db: Db, now: Time, id: Id, token: Id, outcome: Outcome, free: set<RunKey>)
    requires Inv(db.core)
    requires LiveRunsBut(db.core.queue.jobs, db.flow.groups, db.flow.runs, free)
    requires JobTargetsOk(db.core.queue.jobs, db.flow.groups, db.flow.runs)
    requires IsRunJob(db.core, id)
    requires KeyOf(db.core.queue.jobs[id]) in db.flow.runs && !Live(db.flow.runs[KeyOf(db.core.queue.jobs[id])])
    requires FinishJob(db, now, id, token, outcome).Success?
    ensures var after := FinishJob(db, now, id, token, outcome).value;
            && Inv(after.core) && after.flow == db.flow
            && LiveRunsBut(after.core.queue.jobs, db.flow.groups, db.flow.runs, free)
            && JobTargetsOk(after.core.queue.jobs, db.flow.groups, db.flow.runs)
            && after.core.queue.jobs.Keys == db.core.queue.jobs.Keys
  {
    FinishJobIsStep(db, now, id, token, outcome);
    StepInv(db.core, now, OpFinish(id, token, outcome));
    var after := FinishJob(db, now, id, token, outcome).value;
    BridgeAfterClose(db.core.queue.jobs, db.flow, id, after.core.queue.jobs[id], free);
  }

  // ------------------------------------------------------------------------
  // Core events, recovery

  lemma CoreKeepsRunJobs(db: Db, now: Time, op: Op, id: Id)
    requires LeavesRunsAlone(db, now, op)
    requires id in db.core.queue.jobs && db.core.queue.jobs[id].stage == V11Content
    ensures var jobs := Step(db.core, now, op).queue.jobs;
            id in jobs && SameBinding(db.core.queue.jobs[id], jobs[id]) && (Active(db.core.queue.jobs[id]) ==> Active(jobs[id]))
  {
    StepMoves(db.core, now, op, id);
  }

  lemma CoreAddsNoRunJobs(db: Db, now: Time, op: Op, id: Id)
    requires LeavesRunsAlone(db, now, op)
    requires id in Step(db.core, now, op).queue.jobs && id !in db.core.queue.jobs
    ensures Step(db.core, now, op).queue.jobs[id].stage != V11Content
  {
  }

  lemma CoreBridge(db: Db, now: Time, op: Op)
    requires BridgeOk(db.core.queue.jobs, db.flow) && LeavesRunsAlone(db, now, op)
    ensures BridgeOk(Step(db.core, now, op).queue.jobs, db.flow)
  {
    var jobs := Step(db.core, now, op).queue.jobs;
    forall id | id in db.core.queue.jobs && db.core.queue.jobs[id].stage == V11Content
      ensures id in jobs && SameBinding(db.core.queue.jobs[id], jobs[id]) && (Active(db.core.queue.jobs[id]) ==> Active(jobs[id])) {
      CoreKeepsRunJobs(db, now, op, id);
    }
    forall id | id in jobs && jobs[id].stage == V11Content ensures id in db.core.queue.jobs && SameBinding(db.core.queue.jobs[id], jobs[id]) {
      if id !in db.core.queue.jobs { CoreAddsNoRunJobs(db, now, op, id); } else { StepMoves(db.core, now, op, id); }
    }
    BridgeAfterStep(db.core.queue.jobs, jobs, db.flow);
  }

  lemma CoreEventKeeps(db: Db, now: Time, op: Op)
    requires DbInv(db) && LeavesRunsAlone(db, now, op)
    ensures DbInv(db.(core := Step(db.core, now, op)))
  {
    StepInv(db.core, now, op);
    CoreBridge(db, now, op);
  }
}
