// Triggering, running, completing and appealing keep the workflow invariant.
module WorkflowEvents {
  import opened Basics
  import opened ReviewTheorems
  import opened QueueModel
  import opened QueueInvariant
  import opened QueueSteps
  import opened QueueSafety
  import opened WorkflowModel
  import opened WorkflowInvariant
  import opened WorkflowSteps
  import opened WorkflowSafety

  // ------------------------------------------------------------------------
  // trigger

  predicate SameRest(flow: Flow, after: Flow) {
    && after.videos == flow.videos && after.decisions == flow.decisions
    && after.holds == flow.holds && after.appeals == flow.appeals && after.gates == flow.gates
  }

  lemma CloseWorkCalms(flow: Flow, r: Id, statuses: set<GroupStatus>)
    requires RunsOk(flow.groups, flow.runs)
    ensures Calmer(flow, CloseWork(flow, r, statuses), {}) && SameRest(flow, CloseWork(flow, r, statuses))
    ensures CloseWork(flow, r, statuses).groups.Keys == flow.groups.Keys
  {
    RunsGoStale(flow, r, flow.groups);
  }

  // The workflow after a trigger, and the revision it works on.
  ghost predicate Readied(flow: Flow, videoId: Id, after: Flow, r: Id) {
    && FlowOk(after) && IsCurrent(after.revisions, videoId, r)
    && Calmer(flow, after, {}) && SameRest(flow, after) && after.groups.Keys == flow.groups.Keys
  }

  lemma StartOk(flow: Flow, videoId: Id, shadow: bool, newId: Id)
    requires FlowOk(flow) && newId !in flow.revisions && CurrentOf(flow.revisions, videoId).None?
    ensures Readied(flow, videoId, FirstRevision(flow, newId, videoId, shadow), newId)
  {
    FirstRevisionFlow(flow, newId, videoId, shadow);
  }

  lemma RetryOk(flow: Flow, videoId: Id, r: Id, newId: Id)
    requires FlowOk(flow) && newId !in flow.revisions && IsCurrent(flow.revisions, videoId, r)
    ensures Readied(flow, videoId, NextRevision(flow, r, newId, Some(false)), newId)
  {
    NextRevisionFlow(flow, videoId, r, newId, Some(false));
  }

  // The workflow a trigger works on is the current revision afterwards.
  lemma WorkflowForOk(flow: Flow, videoId: Id, shadow: bool, newId: Id)
    requires FlowOk(flow) && newId !in flow.revisions
    requires WorkflowFor(flow, videoId, shadow, newId).Success?
    ensures var (after, r) := WorkflowFor(flow, videoId, shadow, newId).value; Readied(flow, videoId, after, r)
  {
    match CurrentOf(flow.revisions, videoId)
    case None => StartOk(flow, videoId, shadow, newId);
    case Some(r) =>
      if FormalRetry(flow, r, shadow) {
        RetryOk(flow, videoId, r, newId);
      } else if ModeOf(flow, r) == Some(!shadow) {
        CutoverOk(flow, videoId, shadow, r, newId);
      }
  }

  lemma CutoverOk(flow: Flow, videoId: Id, shadow: bool, r: Id, newId: Id)
    requires FlowOk(flow) && newId !in flow.revisions && IsCurrent(flow.revisions, videoId, r)
    ensures Readied(flow, videoId, NextRevision(CloseWork(flow, r, OPEN_STATUSES), r, newId, Some(shadow)), newId)
  {
    CloseWorkFlow(flow, r, OPEN_STATUSES);
    CloseWorkCalms(flow, r, OPEN_STATUSES);
    NextRevisionFlow(CloseWork(flow, r, OPEN_STATUSES), videoId, r, newId, Some(shadow));
  }

  lemma OpenGroupCalms(flow: Flow, id: Id, group: Group)
    requires RunsOk(flow.groups, flow.runs) && id !in flow.groups
    ensures Calmer(flow, OpenGroup(flow, id, group), {(id, 1)})
  {
    FreshGroupHasNoRuns(flow.groups, flow.runs, id);
  }

  // A new group with its first run, which still has to get a job.
  lemma GroupOpens(jobs: map<Id, Job>, flow: Flow, id: Id, group: Group)
    requires FlowOk(flow) && BridgeOk(jobs, flow) && id !in flow.groups
    requires group.revisionId in flow.revisions && flow.revisions[group.revisionId].videoId == group.videoId
    requires group.shadow == group.pilot
    ensures FlowOk(OpenGroup(flow, id, group))
    ensures LiveRunsBut(jobs, OpenGroup(flow, id, group).groups, OpenGroup(flow, id, group).runs, {(id, 1)})
    ensures JobTargetsOk(jobs, OpenGroup(flow, id, group).groups, OpenGroup(flow, id, group).runs)
  {
    OpenGroupFlow(flow, id, group);
    OpenGroupCalms(flow, id, group);
    CalmBridge(jobs, flow, OpenGroup(flow, id, group), {(id, 1)});
  }

  lemma CalmKeepsBridge(jobs: map<Id, Job>, flow: Flow, after: Flow)
    requires BridgeOk(jobs, flow) && Calmer(flow, after, {}) && RunsOk(flow.groups, flow.runs)
    ensures BridgeOk(jobs, after)
  {
    CalmBridge(jobs, flow, after, {});
    assert forall k: RunKey :: k in after.runs && Live(after.runs[k]) ==> k !in {};
  }

  function NewGroup(t: TriggerInput, ownerId: Id, r: Id): Group {
    Group(t.videoId, ownerId, r, false, t.pilot, t.pilot, t.fingerprint, t.inputComplete, GroupQueued, 0)
  }

  lemma NewGroupKeeps(db: Db, now: Time, t: TriggerInput, ownerId: Id, r: Id)
    requires DbInv(db) && IsCurrent(db.flow.revisions, t.videoId, r)
    requires t.groupId !in db.flow.groups && t.jobId !in db.core.queue.jobs
    ensures var withGroup := db.(flow := OpenGroup(db.flow, t.groupId, NewGroup(t, ownerId, r)));
            var queued := EnqueueRun(withGroup, now, t.jobId, t.actorId, (t.groupId, 1), if t.pilot then 1 else 2);
            queued.Success? ==> DbInv(queued.value)
  {
    GroupOpens(db.core.queue.jobs, db.flow, t.groupId, NewGroup(t, ownerId, r));
    var withGroup := db.(flow := OpenGroup(db.flow, t.groupId, NewGroup(t, ownerId, r)));
    if EnqueueRun(withGroup, now, t.jobId, t.actorId, (t.groupId, 1), if t.pilot then 1 else 2).Success? {
      EnqueueRunKeeps(withGroup, now, t.jobId, t.actorId, (t.groupId, 1), if t.pilot then 1 else 2);
    }
  }

  // An unfinished or adopted formal group with the same owner and input stands in for a new one.
  predicate Reuses(flow: Flow, t: TriggerInput, ownerId: Id) {
    !t.pilot && exists g :: g in flow.groups && IsDuplicate(flow, g, ownerId, false, t.fingerprint)
  }

  lemma TriggerCases(db: Db, now: Time, t: TriggerInput)
    requires Trigger(db, now, t).Success?
    ensures WorkflowFor(db.flow, t.videoId, t.pilot, t.revisionId).Success?
    ensures t.videoId in db.flow.videos
    ensures var (flow, r) := WorkflowFor(db.flow, t.videoId, t.pilot, t.revisionId).value;
            var withGroup := db.(flow := OpenGroup(flow, t.groupId, NewGroup(t, db.flow.videos[t.videoId].creatorId, r)));
            || (Trigger(db, now, t) == Success(db.(flow := flow)) && Reuses(flow, t, db.flow.videos[t.videoId].creatorId))
            || Trigger(db, now, t) == EnqueueRun(withGroup, now, t.jobId, t.actorId, (t.groupId, 1), if t.pilot then 1 else 2)
  {
  }

  lemma TriggerKeeps(db: Db, now: Time, t: TriggerInput)
    requires DbInv(db) && Acceptable(db, now, TriggerEvent(t)) && Trigger(db, now, t).Success?
    ensures DbInv(Trigger(db, now, t).value)
  {
    TriggerCases(db, now, t);
    WorkflowForOk(db.flow, t.videoId, t.pilot, t.revisionId);
    var (flow, r) := WorkflowFor(db.flow, t.videoId, t.pilot, t.revisionId).value;
    CalmKeepsBridge(db.core.queue.jobs, db.flow, flow);
    NewGroupKeeps(db.(flow := flow), now, t, db.flow.videos[t.videoId].creatorId, r);
  }

  // ------------------------------------------------------------------------
  // executeJob: begin, fail

  lemma GroupSet(flow: Flow, g: Id, group: Group)
    requires FlowOk(flow) && g in flow.groups && SameGroup(flow.groups[g], group)
    ensures FlowOk(flow.(groups := flow.groups[g := group]))
  {
    GroupsChange(flow, flow.groups[g := group]);
  }

  lemma RunSet(flow: Flow, k: RunKey, s: RunState)
    requires FlowOk(flow) && k in flow.runs && Live(flow.runs[k]) && (Usable(s) ==> Scored(s.output.review))
    ensures FlowOk(SetRun(flow, k, s)) && RunsKept(flow.runs, SetRun(flow, k, s).runs)
  {
    RunChanges(flow.groups, flow.groups, flow.runs, k, s);
    RunsChange(flow, flow.runs[k := s]);
  }

  lemma BeginCalms(flow: Flow, k: RunKey, groups: map<Id, Group>)
    requires k in flow.runs && Live(flow.runs[k]) && GroupsKept(flow.groups, groups)
    ensures Calmer(flow, SetRun(flow, k, RunRunning).(groups := groups), {})
  {
  }

  lemma BeginFlow(flow: Flow, k: RunKey, groups: map<Id, Group>)
    requires FlowOk(flow) && k in flow.runs && Live(flow.runs[k])
    requires GroupsKept(flow.groups, groups) && groups.Keys == flow.groups.Keys
    ensures FlowOk(SetRun(flow, k, RunRunning).(groups := groups))
  {
    RunSet(flow, k, RunRunning);
    GroupsChange(SetRun(flow, k, RunRunning), groups);
  }

  lemma BeginRows(db: Db, now: Time, id: Id, token: Id)
    requires Begin(db, now, id, token).Success?
    ensures Bound(db, now, id, token)
    ensures var k, after := KeyOf(db.core.queue.jobs[id]), Begin(db, now, id, token).value;
            && after == db.(flow := SetRun(db.flow, k, RunRunning).(groups := after.flow.groups))
            && GroupsKept(db.flow.groups, after.flow.groups) && after.flow.groups.Keys == db.flow.groups.Keys
  {
  }

  lemma BeginKeeps(db: Db, now: Time, id: Id, token: Id)
    requires DbInv(db) && Begin(db, now, id, token).Success?
    ensures DbInv(Begin(db, now, id, token).value)
  {
    BeginRows(db, now, id, token);
    var k := KeyOf(db.core.queue.jobs[id]);
    var after := Begin(db, now, id, token).value.flow;
    BeginFlow(db.flow, k, after.groups);
    BeginCalms(db.flow, k, after.groups);
    CalmKeepsBridge(db.core.queue.jobs, db.flow, after);
  }

  lemma FailRunCalms(flow: Flow, k: RunKey)
    ensures var after := FailRun(flow, k);
            && Calmer(flow, after, {}) && after.groups.Keys == flow.groups.Keys
            && (k in flow.runs ==> k in after.runs && !Live(after.runs[k]))
            && after.runs == (if k in flow.runs && Live(flow.runs[k]) then SetRun(flow, k, RunFailed).runs else flow.runs)
            && after == flow.(runs := after.runs).(groups := after.groups)
  {
  }

  lemma FailRunFlow(flow: Flow, k: RunKey)
    requires FlowOk(flow) && k in flow.runs
    ensures FlowOk(FailRun(flow, k))
  {
    FailRunCalms(flow, k);
    if Live(flow.runs[k]) {
      RunSet(flow, k, RunFailed);
    }
    GroupsChange(flow.(runs := FailRun(flow, k).runs), FailRun(flow, k).groups);
  }

  lemma FailRunOk(jobs: map<Id, Job>, flow: Flow, k: RunKey)
    requires FlowOk(flow) && BridgeOk(jobs, flow) && k in flow.runs
    ensures FlowOk(FailRun(flow, k)) && BridgeOk(jobs, FailRun(flow, k))
    ensures k in FailRun(flow, k).runs && !Live(FailRun(flow, k).runs[k])
  {
    FailRunFlow(flow, k);
    FailRunCalms(flow, k);
    CalmKeepsBridge(jobs, flow, FailRun(flow, k));
  }

  lemma BridgeOf(jobs: map<Id, Job>, flow: Flow)
    ensures BridgeOk(jobs, flow) <==> LiveRunsBut(jobs, flow.groups, flow.runs, {}) && JobTargetsOk(jobs, flow.groups, flow.runs)
  {
    assert forall k: RunKey :: k in flow.runs && Live(flow.runs[k]) ==> k !in {};
  }

  // The run is closed, as failed if it was live, and its job has failed without a lease.
  ghost predicate FailedTogether(db: Db, id: Id, after: Db) {
    && IsRunJob(db.core, id) && id in after.core.queue.jobs
    && after.core.queue.jobs[id].status == Failed && after.core.queue.jobs[id].leaseToken.None?
    && after.core.queue.jobs.Keys == db.core.queue.jobs.Keys
    && var k := KeyOf(db.core.queue.jobs[id]);
    && k in db.flow.runs
    && after.flow.runs == (if Live(db.flow.runs[k]) then db.flow.runs[k := RunFailed] else db.flow.runs)
  }

  lemma FailedRows(db: Db, now: Time, id: Id, token: Id)
    requires Fail(db, now, id, token).Success? && KeyOf(db.core.queue.jobs[id]) in db.flow.runs
    ensures FailedTogether(db, id, Fail(db, now, id, token).value)
  {
    FinishedRow(db.(flow := FailRun(db.flow, KeyOf(db.core.queue.jobs[id]))), now, id, token, Failure');
  }

  lemma FinishedRow(db: Db, now: Time, id: Id, token: Id, outcome: Outcome)
    requires FinishJob(db, now, id, token, outcome).Success?
    ensures var after := FinishJob(db, now, id, token, outcome).value;
            && after.flow == db.flow && id in after.core.queue.jobs
            && after.core.queue.jobs.Keys == db.core.queue.jobs.Keys
            && after.core.queue.jobs[id].status == OutcomeStatus(outcome) && after.core.queue.jobs[id].leaseToken.None?
  {
    FinishJobIsStep(db, now, id, token, outcome);
  }

  lemma FailKeeps(db: Db, now: Time, id: Id, token: Id)
    requires DbInv(db) && Fail(db, now, id, token).Success?
    ensures DbInv(Fail(db, now, id, token).value)
    ensures FailedTogether(db, id, Fail(db, now, id, token).value)
  {
    var k := KeyOf(db.core.queue.jobs[id]);
    assert JobTargetOk(db.core.queue.jobs[id], db.flow.groups, db.flow.runs);
    FailRunOk(db.core.queue.jobs, db.flow, k);
    var failed := FailRun(db.flow, k);
    BridgeOf(db.core.queue.jobs, failed);
    FinishJobKeeps(db.(flow := failed), now, id, token, Failure', {});
    BridgeOf(Fail(db, now, id, token).value.core.queue.jobs, failed);
    FailedRows(db, now, id, token);
  }

  // ------------------------------------------------------------------------
  // Recovery

  lemma RecoveredRow(c: Core, now: Time, id: Id, videoLocked: bool)
    requires RecoverOne(c, now, id, videoLocked).Success? && id in c.queue.jobs
    ensures var jobs := RecoverOne(c, now, id, videoLocked).value.queue.jobs;
            && id in jobs && jobs == c.queue.jobs[id := jobs[id]] && SameBinding(c.queue.jobs[id], jobs[id])
            && ((videoLocked || !LeaseExpired(c.queue, now, id) || !MustAbandon(c.queue.jobs[id])) && Active(c.queue.jobs[id])
                ==> Active(jobs[id]))
  {
  }

  predicate AbandonsRun(db: Db, now: Time, id: Id, videoLocked: bool) {
    !videoLocked && LeaseExpired(db.core.queue, now, id) && MustAbandon(db.core.queue.jobs[id]) && IsRunJob(db.core, id)
  }

  lemma AbandonKeeps(db: Db, core: Core, id: Id)
    requires DbInv(db) && IsRunJob(db.core, id) && Inv(core)
    requires id in core.queue.jobs && core.queue.jobs == db.core.queue.jobs[id := core.queue.jobs[id]]
    requires SameBinding(db.core.queue.jobs[id], core.queue.jobs[id])
    ensures DbInv(Db(core, FailRun(db.flow, KeyOf(db.core.queue.jobs[id]))))
  {
    var jobs := db.core.queue.jobs;
    assert JobTargetOk(jobs[id], db.flow.groups, db.flow.runs);
    FailRunOk(jobs, db.flow, KeyOf(jobs[id]));
    var failed := FailRun(db.flow, KeyOf(jobs[id]));
    BridgeOf(jobs, failed);
    BridgeAfterClose(jobs, failed, id, core.queue.jobs[id], {});
    BridgeOf(core.queue.jobs, failed);
  }

  lemma RequeueBridge(jobs: map<Id, Job>, after: map<Id, Job>, flow: Flow, id: Id)
    requires BridgeOk(jobs, flow) && id in jobs && id in after && after == jobs[id := after[id]]
    requires SameBinding(jobs[id], after[id]) && (jobs[id].stage == V11Content && Active(jobs[id]) ==> Active(after[id]))
    ensures BridgeOk(after, flow)
  {
    BridgeAfterStep(jobs, after, flow);
  }

  lemma RequeueKeeps(db: Db, core: Core, id: Id)
    requires DbInv(db) && id in db.core.queue.jobs && Inv(core)
    requires id in core.queue.jobs && core.queue.jobs == db.core.queue.jobs[id := core.queue.jobs[id]]
    requires SameBinding(db.core.queue.jobs[id], core.queue.jobs[id])
    requires db.core.queue.jobs[id].stage == V11Content && Active(db.core.queue.jobs[id]) ==> Active(core.queue.jobs[id])
    ensures DbInv(db.(core := core))
  {
    RequeueBridge(db.core.queue.jobs, core.queue.jobs, db.flow, id);
  }

  lemma RecoverKeeps(db: Db, now: Time, id: Id, videoLocked: bool)
    requires DbInv(db)
    ensures Recover(db, now, id, videoLocked).Success? && DbInv(Recover(db, now, id, videoLocked).value)
  {
    RecoverInv(db.core, now, id, videoLocked);
    if id in db.core.queue.jobs {
      RecoveredRow(db.core, now, id, videoLocked);
      assert db.core.queue.jobs[id].stage == V11Content ==> JobTargetOk(db.core.queue.jobs[id], db.flow.groups, db.flow.runs);
      var core := RecoverOne(db.core, now, id, videoLocked).value;
      if AbandonsRun(db, now, id, videoLocked) {
        AbandonKeeps(db, core, id);
      } else {
        RequeueKeeps(db, core, id);
      }
    }
  }

  // ------------------------------------------------------------------------
  // Appeals, holds and videos

  predicate Appealable(flow: Flow, a: AppealInput) {
    && a.videoId in flow.videos && a.decisionId in flow.decisions && a.revisionId !in flow.revisions && a.groupId !in flow.groups
    && a.appealId !in flow.appeals && a.holdId !in flow.holds
    && flow.decisions[a.decisionId].groupId in flow.groups
    && flow.groups[flow.decisions[a.decisionId].groupId].videoId == a.videoId
    && flow.decisions[a.decisionId].revisionId in flow.revisions
    && flow.revisions[flow.decisions[a.decisionId].revisionId].status == Current
  }

  // The superseded revision with its work closed, and the next revision.
  lemma AppealRevision(jobs: map<Id, Job>, flow: Flow, a: AppealInput)
    requires FlowOk(flow) && BridgeOk(jobs, flow) && Appealable(flow, a)
    ensures var r := flow.decisions[a.decisionId].revisionId;
            var next := NextRevision(CloseWork(flow, r, REUSABLE_STATUSES), r, a.revisionId, None);
            && FlowOk(next) && BridgeOk(jobs, next) && IsCurrent(next.revisions, a.videoId, a.revisionId)
            && SameRest(flow, next) && next.groups.Keys == flow.groups.Keys
  {
    var r := flow.decisions[a.decisionId].revisionId;
    assert DecisionOk(flow.groups, flow.runs, flow.decisions[a.decisionId]);
    assert IsCurrent(flow.revisions, a.videoId, r);
    CloseWorkFlow(flow, r, REUSABLE_STATUSES);
    CloseWorkCalms(flow, r, REUSABLE_STATUSES);
    var closed := CloseWork(flow, r, REUSABLE_STATUSES);
    CalmKeepsBridge(jobs, flow, closed);
    NextRevisionFlow(closed, a.videoId, r, a.revisionId, None);
  }

  function AppealGroup(flow: Flow, a: AppealInput): Group
    requires a.decisionId in flow.decisions && flow.decisions[a.decisionId].groupId in flow.groups && a.videoId in flow.videos
  {
    var source := flow.groups[flow.decisions[a.decisionId].groupId];
    Group(a.videoId, flow.videos[a.videoId].creatorId, a.revisionId, true, source.shadow, false,
          source.fingerprint, source.inputComplete, GroupQueued, 0)
  }

  lemma AppealedGroupIsFormal(flow: Flow, d: Id)
    requires GroupsOk(flow.groups, flow.revisions) && DecisionsOk(flow.groups, flow.runs, flow.decisions) && d in flow.decisions
    ensures flow.decisions[d].groupId in flow.groups && !flow.groups[flow.decisions[d].groupId].shadow
  {
    assert DecisionOk(flow.groups, flow.runs, flow.decisions[d]);
  }

  // The revision of an appeal is new, and so no other appeal is on it.
  lemma NobodyElseAppeals(flow: Flow, r: Id)
    requires RerunsOk(flow) && r !in flow.revisions
    ensures forall b :: b in flow.appeals ==> flow.appeals[b].revisionId != r
  {
  }

  // The new revision with the appeal's group.
  function Rerun(flow: Flow, a: AppealInput): Flow
    requires Appealable(flow, a)
  {
    var r := flow.decisions[a.decisionId].revisionId;
    OpenGroup(NextRevision(CloseWork(flow, r, REUSABLE_STATUSES), r, a.revisionId, None), a.groupId, AppealGroup(flow, a))
  }

  lemma RerunRows(flow: Flow, a: AppealInput)
    requires Appealable(flow, a)
    ensures var rerun := Rerun(flow, a);
            && rerun.appeals == flow.appeals && rerun.holds == flow.holds
            && a.revisionId in rerun.revisions && InRevision(rerun.groups, a.groupId, a.revisionId)
            && OpenAppeal(flow, a) == rerun.(
                 appeals := flow.appeals[a.appealId := Appeal(a.videoId, a.revisionId, a.decisionId, a.groupId, Unresolved)],
                 holds := flow.holds[a.holdId := WorkflowHold(a.revisionId, Some(a.groupId), UnderAppeal, Unresolved)])
  {
  }

  lemma RerunOk(jobs: map<Id, Job>, flow: Flow, a: AppealInput)
    requires FlowOk(flow) && BridgeOk(jobs, flow) && Appealable(flow, a)
    ensures FlowOk(Rerun(flow, a))
    ensures LiveRunsBut(jobs, Rerun(flow, a).groups, Rerun(flow, a).runs, {(a.groupId, 1)})
    ensures JobTargetsOk(jobs, Rerun(flow, a).groups, Rerun(flow, a).runs)
  {
    AppealRevision(jobs, flow, a);
    AppealedGroupIsFormal(flow, a.decisionId);
    var r := flow.decisions[a.decisionId].revisionId;
    GroupOpens(jobs, NextRevision(CloseWork(flow, r, REUSABLE_STATUSES), r, a.revisionId, None), a.groupId, AppealGroup(flow, a));
  }

  lemma OpenAppealOk(jobs: map<Id, Job>, flow: Flow, a: AppealInput)
    requires FlowOk(flow) && BridgeOk(jobs, flow) && Appealable(flow, a)
    ensures FlowOk(OpenAppeal(flow, a))
    ensures LiveRunsBut(jobs, OpenAppeal(flow, a).groups, OpenAppeal(flow, a).runs, {(a.groupId, 1)})
    ensures JobTargetsOk(jobs, OpenAppeal(flow, a).groups, OpenAppeal(flow, a).runs)
  {
    RerunOk(jobs, flow, a);
    RerunRows(flow, a);
    NobodyElseAppeals(flow, a.revisionId);
    AppealAdded(Rerun(flow, a), a.appealId, Appeal(a.videoId, a.revisionId, a.decisionId, a.groupId, Unresolved),
                a.holdId, WorkflowHold(a.revisionId, Some(a.groupId), UnderAppeal, Unresolved));
  }

  lemma AppealCases(db: Db, now: Time, a: AppealInput)
    requires Acceptable(db, now, AppealEvent(a)) && SubmitAppeal(db, now, a).Success?
    ensures Appealable(db.flow, a) && a.jobId !in db.core.queue.jobs
    ensures SubmitAppeal(db, now, a)
         == EnqueueRun(db.(flow := OpenAppeal(db.flow, a)), now, a.jobId, a.actorId, (a.groupId, 1), 2)
  {
  }

  lemma OpenedAppealKeeps(db: Db, now: Time, a: AppealInput)
    requires DbInv(db) && Appealable(db.flow, a) && a.jobId !in db.core.queue.jobs
    ensures var queued := EnqueueRun(db.(flow := OpenAppeal(db.flow, a)), now, a.jobId, a.actorId, (a.groupId, 1), 2);
            queued.Success? ==> DbInv(queued.value)
  {
    OpenAppealOk(db.core.queue.jobs, db.flow, a);
    var next := db.(flow := OpenAppeal(db.flow, a));
    if EnqueueRun(next, now, a.jobId, a.actorId, (a.groupId, 1), 2).Success? {
      EnqueueRunKeeps(next, now, a.jobId, a.actorId, (a.groupId, 1), 2);
    }
  }

  // The five rows of an appeal: a revision that takes the decided one's place, a group
  // of its own with its first run, the appeal and its hold.
  predicate AppealedRevision(revisions: map<Id, Revision>, r: Id, id: Id, after: map<Id, Revision>)
    requires r in revisions
  {
    && after.Keys == revisions.Keys + {id}
    && after[r].status == Superseded && IsCurrent(after, revisions[r].videoId, id)
    && after[id].number == revisions[r].number + 1 && after[id].activeDecision.None?
  }

  ghost predicate AppealedGroup(flow: Flow, r: Id, a: AppealInput, after: Flow) {
    && after.groups.Keys == flow.groups.Keys + {a.groupId} && after.runs.Keys == flow.runs.Keys + {(a.groupId, 1)}
    && after.groups[a.groupId].revisionId == a.revisionId && after.groups[a.groupId].appeal
    && after.runs[(a.groupId, 1)] == RunPending
    && forall k :: k in after.runs && InRevision(flow.groups, k.0, r) ==> !Live(after.runs[k])
  }

  ghost predicate Appealed(flow: Flow, a: AppealInput, after: Flow)
    requires a.decisionId in flow.decisions && flow.decisions[a.decisionId].revisionId in flow.revisions
  {
    var r := flow.decisions[a.decisionId].revisionId;
    && AppealedRevision(flow.revisions, r, a.revisionId, after.revisions)
    && AppealedGroup(flow, r, a, after)
    && after.appeals == flow.appeals[a.appealId := Appeal(a.videoId, a.revisionId, a.decisionId, a.groupId, Unresolved)]
    && after.holds == flow.holds[a.holdId := WorkflowHold(a.revisionId, Some(a.groupId), UnderAppeal, Unresolved)]
  }

  lemma AppealedGroupRows(flow: Flow, a: AppealInput, r: Id, group: Group, after: Flow)
    requires a.groupId !in flow.groups && group.revisionId == a.revisionId && group.appeal
    requires after.runs == StaleRuns(flow, r)[(a.groupId, 1) := RunPending]
    requires after.groups == SupersededGroups(flow, r, REUSABLE_STATUSES)[a.groupId := group]
    ensures AppealedGroup(flow, r, a, after)
  {
    assert StaleRuns(flow, r).Keys == flow.runs.Keys;
    assert SupersededGroups(flow, r, REUSABLE_STATUSES).Keys == flow.groups.Keys;
  }

  lemma AppealedRows(flow: Flow, a: AppealInput)
    requires Appealable(flow, a)
    ensures Appealed(flow, a, OpenAppeal(flow, a))
  {
    var r := flow.decisions[a.decisionId].revisionId;
    AppealedGroupRows(flow, a, r, AppealGroup(flow, a), OpenAppeal(flow, a));
    assert OpenAppeal(flow, a).revisions == Renumbered(flow.revisions, r, a.revisionId, None);
  }

  lemma AppealJob(db: Db, now: Time, a: AppealInput)
    requires Acceptable(db, now, AppealEvent(a)) && SubmitAppeal(db, now, a).Success?
    ensures var jobs := SubmitAppeal(db, now, a).value.core.queue.jobs;
            && Appealable(db.flow, a) && SubmitAppeal(db, now, a).value.flow == OpenAppeal(db.flow, a)
            && jobs.Keys == db.core.queue.jobs.Keys + {a.jobId}
            && jobs[a.jobId].status == Queued && jobs[a.jobId].target == Run(a.groupId, 1) && jobs[a.jobId].actorId == a.actorId
  {
    AppealCases(db, now, a);
    EnqueueRunIsStep(db.(flow := OpenAppeal(db.flow, a)), now, a.jobId, a.actorId, (a.groupId, 1), 2);
  }

  lemma AppealKeeps(db: Db, now: Time, a: AppealInput)
    requires DbInv(db) && Acceptable(db, now, AppealEvent(a)) && SubmitAppeal(db, now, a).Success?
    ensures var after := SubmitAppeal(db, now, a).value;
            && DbInv(after) && Appealable(db.flow, a) && Appealed(db.flow, a, after.flow)
            && after.core.queue.jobs.Keys == db.core.queue.jobs.Keys + {a.jobId}
            && after.core.queue.jobs[a.jobId].status == Queued
            && after.core.queue.jobs[a.jobId].target == Run(a.groupId, 1)
            && after.core.queue.jobs[a.jobId].actorId == a.actorId
  {
    AppealCases(db, now, a);
    OpenedAppealKeeps(db, now, a);
    AppealedRows(db.flow, a);
    AppealJob(db, now, a);
  }

  lemma HoldKeeps(db: Db, videoId: Id, visible: bool, holdId: Id)
    requires DbInv(db) && holdId !in db.flow.holds && PlaceHold(db.flow, videoId, visible, holdId).Success?
    ensures DbInv(db.(flow := PlaceHold(db.flow, videoId, visible, holdId).value))
  {
    var r := CurrentOf(db.flow.revisions, videoId).value;
    HoldAdded(db.flow, holdId, WorkflowHold(r, None, Manual, Unresolved));
  }

  // Resuming resolves one manual hold, and nothing else.
  lemma ResumedHold(flow: Flow, videoId: Id, visible: bool) returns (h: Id)
    requires Resume(flow, videoId, visible).Success?
    ensures h in flow.holds && flow.holds[h].holdType == Manual
    ensures Resume(flow, videoId, visible).value == flow.(holds := flow.holds[h := flow.holds[h].(resolution := Resolved)])
  {
    var r := CurrentOf(flow.revisions, videoId).value;
    h :| IsManualHold(flow, r, h)
      && Resume(flow, videoId, visible).value == flow.(holds := flow.holds[h := flow.holds[h].(resolution := Resolved)]);
  }

  lemma ResumeKeeps(db: Db, videoId: Id, visible: bool)
    requires DbInv(db) && Resume(db.flow, videoId, visible).Success?
    ensures DbInv(db.(flow := Resume(db.flow, videoId, visible).value))
  {
    var h := ResumedHold(db.flow, videoId, visible);
    ManualHoldResolved(db.flow, h);
  }

  lemma ResolveKeeps(db: Db, videoId: Id, appealId: Id, rejected: bool)
    requires DbInv(db) && ResolveAppeal(db.flow, videoId, appealId, rejected).Success?
    ensures DbInv(db.(flow := ResolveAppeal(db.flow, videoId, appealId, rejected).value))
  {
    AppealClosedFlow(db.flow, appealId, if rejected then Rejected else Resolved);
  }
}
