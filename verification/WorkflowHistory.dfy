// History is never rewritten: closed runs, decisions and superseded revisions
// keep their rows, and decisions are only written on the current revision.
module WorkflowHistory {
  import opened Basics
  import opened ContentScoring
  import ReviewTheorems
  import opened QueueModel
  import opened WorkflowModel
  import opened WorkflowInvariant
  import opened WorkflowSteps
  import opened WorkflowSafety
  import opened WorkflowEvents
  import opened WorkflowCompletion

  // ------------------------------------------------------------------------
  // Revisions and decisions

  // A new decision comes with its pointer, on a revision that is current before
  // and after; superseded revisions are frozen; new revisions start undecided.
  ghost predicate RevisionHistory(flow: Flow, after: Flow) {
    && (forall r :: r in flow.revisions ==>
          && r in after.revisions
          && after.revisions[r].videoId == flow.revisions[r].videoId && after.revisions[r].number == flow.revisions[r].number
          && (flow.revisions[r].status == Superseded ==> after.revisions[r] == flow.revisions[r])
          && (after.revisions[r].activeDecision != flow.revisions[r].activeDecision ==>
                && after.revisions[r].status == Current
                && after.revisions[r].activeDecision.Some? && after.revisions[r].activeDecision.value !in flow.decisions))
    && (forall r :: r in after.revisions && r !in flow.revisions ==>
          after.revisions[r].status == Current && after.revisions[r].activeDecision.None?)
  }

  ghost predicate DecisionHistory(flow: Flow, after: Flow) {
    && (forall d :: d in flow.decisions ==> d in after.decisions && after.decisions[d] == flow.decisions[d])
    && (forall d :: d in after.decisions && d !in flow.decisions ==>
          var r := after.decisions[d].revisionId;
          && r in flow.revisions && flow.revisions[r].status == Current
          && r in after.revisions && after.revisions[r] == flow.revisions[r].(activeDecision := Some(d)))
  }

  ghost predicate History(flow: Flow, after: Flow) {
    && RevisionHistory(flow, after) && DecisionHistory(flow, after)
    && RunsKept(flow.runs, after.runs) && GroupsKept(flow.groups, after.groups)
  }

  lemma CalmHistory(flow: Flow, after: Flow, free: set<RunKey>)
    requires Calmer(flow, after, free) && after.revisions == flow.revisions && after.decisions == flow.decisions
    ensures History(flow, after)
  {
  }

  // The current revision makes way for a new one.
  lemma NextHistory(flow: Flow, after: Flow, previous: Id, id: Id, mode: Option<bool>, free: set<RunKey>)
    requires previous in flow.revisions && flow.revisions[previous].status == Current && id !in flow.revisions
    requires after.revisions == Renumbered(flow.revisions, previous, id, mode) && after.decisions == flow.decisions
    requires Calmer(flow, after, free)
    ensures History(flow, after)
  {
  }

  lemma FirstHistory(flow: Flow, after: Flow, id: Id, videoId: Id, shadow: bool, free: set<RunKey>)
    requires id !in flow.revisions && after.decisions == flow.decisions
    requires after.revisions == Started(flow.revisions, id, videoId, Some(shadow)) && Calmer(flow, after, free)
    ensures History(flow, after)
  {
  }

  lemma AdoptHistory(flow: Flow, after: Flow, id: Id, d: Decision)
    requires id !in flow.decisions && d.revisionId in flow.revisions && flow.revisions[d.revisionId].status == Current
    requires after.revisions == flow.revisions[d.revisionId := flow.revisions[d.revisionId].(activeDecision := Some(id))]
    requires after.decisions == flow.decisions[id := d] && RunsKept(flow.runs, after.runs) && GroupsKept(flow.groups, after.groups)
    ensures History(flow, after)
  {
  }

  // ------------------------------------------------------------------------
  // Events

  lemma OpenGroupHistory(flow: Flow, id: Id, group: Group)
    requires RunsOk(flow.groups, flow.runs) && id !in flow.groups
    ensures var after := OpenGroup(flow, id, group);
            Calmer(flow, after, {(id, 1)}) && after.revisions == flow.revisions && after.decisions == flow.decisions
  {
    OpenGroupCalms(flow, id, group);
  }

  lemma CalmChain(flow: Flow, middle: Flow, after: Flow, free: set<RunKey>)
    requires Calmer(flow, middle, {}) && Calmer(middle, after, free)
    ensures Calmer(flow, after, free)
  {
  }

  // The revisions of the workflow a trigger works on.
  lemma WorkflowForRevisions(flow: Flow, videoId: Id, shadow: bool, newId: Id, after: Flow, free: set<RunKey>)
    requires newId !in flow.revisions && WorkflowFor(flow, videoId, shadow, newId).Success?
    requires after.revisions == WorkflowFor(flow, videoId, shadow, newId).value.0.revisions
    requires after.decisions == flow.decisions && Calmer(flow, after, free)
    ensures History(flow, after)
  {
    match CurrentOf(flow.revisions, videoId)
    case None => FirstHistory(flow, after, newId, videoId, shadow, free);
    case Some(r) =>
      if FormalRetry(flow, r, shadow) {
        NextHistory(flow, after, r, newId, Some(false), free);
      } else if ModeOf(flow, r) == Some(!shadow) {
        NextHistory(flow, after, r, newId, Some(shadow), free);
      } else {
        CalmHistory(flow, after, free);
      }
  }

  lemma TriggerHistory(db: Db, now: Time, t: TriggerInput)
    requires FlowOk(db.flow) && Acceptable(db, now, TriggerEvent(t)) && Trigger(db, now, t).Success?
    ensures History(db.flow, Trigger(db, now, t).value.flow)
    ensures Trigger(db, now, t).value.flow.decisions == db.flow.decisions
  {
    TriggerCases(db, now, t);
    WorkflowForOk(db.flow, t.videoId, t.pilot, t.revisionId);
    var (flow, r) := WorkflowFor(db.flow, t.videoId, t.pilot, t.revisionId).value;
    if Trigger(db, now, t) == Success(db.(flow := flow)) {
      WorkflowForRevisions(db.flow, t.videoId, t.pilot, t.revisionId, flow, {});
    } else {
      var group := NewGroup(t, db.flow.videos[t.videoId].creatorId, r);
      var after := OpenGroup(flow, t.groupId, group);
      EnqueueRunIsStep(db.(flow := after), now, t.jobId, t.actorId, (t.groupId, 1), if t.pilot then 1 else 2);
      OpenGroupHistory(flow, t.groupId, group);
      CalmChain(db.flow, flow, after, {(t.groupId, 1)});
      WorkflowForRevisions(db.flow, t.videoId, t.pilot, t.revisionId, after, {(t.groupId, 1)});
    }
  }

  lemma AppealCalms(flow: Flow, a: AppealInput)
    requires RunsOk(flow.groups, flow.runs) && Appealable(flow, a)
    ensures Calmer(flow, OpenAppeal(flow, a), {(a.groupId, 1)})
    ensures OpenAppeal(flow, a).decisions == flow.decisions
    ensures OpenAppeal(flow, a).revisions == Renumbered(flow.revisions, flow.decisions[a.decisionId].revisionId, a.revisionId, None)
  {
    var closed := CloseWork(flow, flow.decisions[a.decisionId].revisionId, REUSABLE_STATUSES);
    CloseWorkCalms(flow, flow.decisions[a.decisionId].revisionId, REUSABLE_STATUSES);
    FreshGroupHasNoRuns(flow.groups, flow.runs, a.groupId);
    OpenedCalms(closed, a.groupId, AppealGroup(flow, a), OpenAppeal(flow, a));
    CalmChain(flow, closed, OpenAppeal(flow, a), {(a.groupId, 1)});
  }

  lemma OpenedCalms(flow: Flow, id: Id, group: Group, after: Flow)
    requires id !in flow.groups && (id, 1) !in flow.runs
    requires after.groups == flow.groups[id := group] && after.runs == flow.runs[(id, 1) := RunPending]
    ensures Calmer(flow, after, {(id, 1)})
  {
  }

  lemma AppealHistory(db: Db, now: Time, a: AppealInput)
    requires DbInv(db) && Acceptable(db, now, AppealEvent(a)) && SubmitAppeal(db, now, a).Success?
    ensures History(db.flow, SubmitAppeal(db, now, a).value.flow)
    ensures SubmitAppeal(db, now, a).value.flow.decisions == db.flow.decisions
  {
    AppealJob(db, now, a);
    AppealCalms(db.flow, a);
    NextHistory(db.flow, OpenAppeal(db.flow, a), db.flow.decisions[a.decisionId].revisionId, a.revisionId, None, {(a.groupId, 1)});
  }

  lemma AdoptionRows(flow: Flow, g: Id, id: Id, d: Decision, holdId: Id)
    requires g in flow.groups && d.revisionId in flow.revisions && AdoptDecision(flow, g, id, d, holdId).Success?
    ensures var after := AdoptDecision(flow, g, id, d, holdId).value;
            && after.revisions == flow.revisions[d.revisionId := flow.revisions[d.revisionId].(activeDecision := Some(id))]
            && after.decisions == flow.decisions[id := d]
  {
    SettledKeepsRows(flow, g, id, d);
    if !flow.groups[g].shadow { GateKeepsRows(Settled(flow, g, id, d), g, d, holdId); }
  }

  lemma RecordRows(flow: Flow, g: Id, id: Id, d: Decision)
    requires g in flow.groups && d.revisionId in flow.revisions
    ensures var after := RecordDecision(flow, g, id, d);
            && after.revisions == flow.revisions[d.revisionId := flow.revisions[d.revisionId].(activeDecision := Some(id))]
            && after.decisions == flow.decisions[id := d] && g in after.groups
  {
  }

  lemma ResolveKeepsRows(flow: Flow, g: Id)
    ensures var after := ResolveByGroup(flow, g);
            after.revisions == flow.revisions && after.decisions == flow.decisions && after.groups == flow.groups
  {
  }

  lemma SettledKeepsRows(flow: Flow, g: Id, id: Id, d: Decision)
    requires g in flow.groups && d.revisionId in flow.revisions
    ensures var after := Settled(flow, g, id, d);
            && after.revisions == flow.revisions[d.revisionId := flow.revisions[d.revisionId].(activeDecision := Some(id))]
            && after.decisions == flow.decisions[id := d] && g in after.groups
  {
    RecordRows(flow, g, id, d);
    ResolveKeepsRows(RecordDecision(flow, g, id, d), g);
  }

  lemma GateKeepsRows(flow: Flow, g: Id, d: Decision, holdId: Id)
    requires g in flow.groups && PassGate(flow, g, d, holdId).Success?
    ensures var after := PassGate(flow, g, d, holdId).value;
            after.revisions == flow.revisions && after.decisions == flow.decisions
  {
    if d.compliance != Clear {
      GateHoldKeepsRows(flow.(gates := flow.gates[d.revisionId := GateHold]), g, d.revisionId, holdId);
    }
  }

  lemma GateHoldKeepsRows(flow: Flow, g: Id, r: Id, holdId: Id)
    requires g in flow.groups && AddHold(flow, holdId, r, Some(g), ComplianceCheck).Success?
    ensures var held := AddHold(flow, holdId, r, Some(g), ComplianceCheck).value;
            && g in held.groups
            && SetGroup(held, g, GroupHeld).revisions == flow.revisions && SetGroup(held, g, GroupHeld).decisions == flow.decisions
  {
  }

  lemma ConcludeHistory(db: Db, now: Time, id: Id, token: Id, n: nat, c: Completion)
    requires Known(db, id, n) && ProgressAt(db, id, n, c.check).Success?
    requires NoRunAfter(db.flow.runs, KeyOf(db.core.queue.jobs[id]).0, n)
    requires c.nextJobId !in db.core.queue.jobs && c.decisionId !in db.flow.decisions
    requires db.flow.revisions[db.flow.groups[KeyOf(db.core.queue.jobs[id]).0].revisionId].status == Current
    ensures HasOutputs(db.flow.runs, KeyOf(db.core.queue.jobs[id]).0,
                       SucceededNumbers(db.flow.runs, KeyOf(db.core.queue.jobs[id]).0))
    ensures Conclude(db, now, id, token, c).Success? ==> History(db.flow, Conclude(db, now, id, token, c).value.flow)
  {
    var g := KeyOf(db.core.queue.jobs[id]).0;
    var p := ProgressAt(db, id, n, c.check).value;
    if p.Adopt? {
      AdoptedHistory(db, now, id, token, n, c);
    } else if p.Hold? {
      HeldHistory(db, now, id, token, n, c);
    } else {
      ConcludeContinues(db, now, id, token, n, c);
      if Conclude(db, now, id, token, c).Success? { ContinueHistory(db, now, id, token, n, c); }
    }
  }

  lemma AdoptedHistory(db: Db, now: Time, id: Id, token: Id, n: nat, c: Completion)
    requires Known(db, id, n) && ProgressAt(db, id, n, c.check).Success? && ProgressAt(db, id, n, c.check).value.Adopt?
    requires c.decisionId !in db.flow.decisions
    requires db.flow.revisions[db.flow.groups[KeyOf(db.core.queue.jobs[id]).0].revisionId].status == Current
    ensures HasOutputs(db.flow.runs, KeyOf(db.core.queue.jobs[id]).0,
                       SucceededNumbers(db.flow.runs, KeyOf(db.core.queue.jobs[id]).0))
    ensures Conclude(db, now, id, token, c).Success? ==> History(db.flow, Conclude(db, now, id, token, c).value.flow)
  {
    var g := KeyOf(db.core.queue.jobs[id]).0;
    ConcludeAdopts(db, now, id, token, n, c);
    if Conclude(db, now, id, token, c).Success? {
      var d := DecisionFor(db, g, FirstNumbers(n), ProgressAt(db, id, n, c.check).value);
      var flow := AdoptDecision(db.flow, g, c.decisionId, d, c.holdId).value;
      AdoptionRows(db.flow, g, c.decisionId, d, c.holdId);
      AdoptCalms(db.flow, g, c.decisionId, d, c.holdId);
      FinishJobIsStep(db.(flow := flow), now, id, token, Success');
      AdoptHistory(db.flow, flow, c.decisionId, d);
    }
  }

  lemma HeldHistory(db: Db, now: Time, id: Id, token: Id, n: nat, c: Completion)
    requires Known(db, id, n) && ProgressAt(db, id, n, c.check).Success? && ProgressAt(db, id, n, c.check).value.Hold?
    ensures HasOutputs(db.flow.runs, KeyOf(db.core.queue.jobs[id]).0,
                       SucceededNumbers(db.flow.runs, KeyOf(db.core.queue.jobs[id]).0))
    ensures Conclude(db, now, id, token, c).Success? ==> History(db.flow, Conclude(db, now, id, token, c).value.flow)
  {
    var g := KeyOf(db.core.queue.jobs[id]).0;
    ConcludeHolds(db, now, id, token, n, c);
    if Conclude(db, now, id, token, c).Success? {
      var held := AddHold(db.flow, c.holdId, db.flow.groups[g].revisionId, Some(g), EvaluationInstability).value;
      FinishJobIsStep(db.(flow := SetGroup(held, g, GroupHeld)), now, id, token, Success');
      HeldRows(db.flow, g, c.holdId, EvaluationInstability);
      CalmHistory(db.flow, SetGroup(held, g, GroupHeld), {});
    }
  }

  // The flow with the next run added and the group under review.
  ghost function Continued(flow: Flow, g: Id, n: nat): Flow
    requires g in flow.groups
  {
    SetGroup(SetRun(flow, (g, n + 1), RunPending), g, ReviewRequired)
  }

  lemma ContinuedIsCalm(flow: Flow, g: Id, n: nat)
    requires g in flow.groups && NoRunAfter(flow.runs, g, n)
    ensures History(flow, Continued(flow, g, n))
  {
    assert (g, n + 1) !in flow.runs;
    CalmHistory(flow, Continued(flow, g, n), {(g, n + 1)});
  }

  lemma ContinueFlow(db: Db, now: Time, id: Id, token: Id, k: RunKey, actorId: Id, nextJobId: Id)
    requires k.0 in db.flow.groups && nextJobId !in db.core.queue.jobs
    requires FinishJob(db, now, id, token, Success').Success?
    requires var finished := FinishJob(db, now, id, token, Success').value;
             k.0 in finished.flow.groups && EnqueueRun(finished, now, nextJobId, actorId, k, 2).Success?
    ensures var finished := FinishJob(db, now, id, token, Success').value;
            EnqueueRun(finished, now, nextJobId, actorId, k, 2).value.flow == db.flow
  {
    FinishJobIsStep(db, now, id, token, Success');
    EnqueueRunIsStep(FinishJob(db, now, id, token, Success').value, now, nextJobId, actorId, k, 2);
  }

  lemma ContinueHistory(db: Db, now: Time, id: Id, token: Id, n: nat, c: Completion)
    requires Known(db, id, n) && NoRunAfter(db.flow.runs, KeyOf(db.core.queue.jobs[id]).0, n)
    requires c.nextJobId !in db.core.queue.jobs
    requires HasOutputs(db.flow.runs, KeyOf(db.core.queue.jobs[id]).0,
                        SucceededNumbers(db.flow.runs, KeyOf(db.core.queue.jobs[id]).0))
    requires ProgressAt(db, id, n, c.check).Success?
    requires ProgressAt(db, id, n, c.check).value.SecondReview? || ProgressAt(db, id, n, c.check).value.ThirdReview?
    requires Conclude(db, now, id, token, c).Success?
    ensures History(db.flow, Conclude(db, now, id, token, c).value.flow)
  {
    ConcludeContinues(db, now, id, token, n, c);
    var g := KeyOf(db.core.queue.jobs[id]).0;
    ContinueFlow(db.(flow := SetRun(db.flow, (g, n + 1), RunPending)), now, id, token, (g, n + 1),
                 db.core.queue.jobs[id].actorId, c.nextJobId);
    ContinuedIsCalm(db.flow, g, n);
  }

  lemma HistoryChain(flow: Flow, middle: Flow, after: Flow)
    requires middle.revisions == flow.revisions && middle.decisions == flow.decisions
    requires RunsKept(flow.runs, middle.runs) && GroupsKept(flow.groups, middle.groups)
    requires History(middle, after)
    ensures History(flow, after)
  {
  }

  lemma ClosedHistory(db: Db, now: Time, id: Id, token: Id, k: RunKey, output: RunOutput, flow: Flow)
    requires FlowOk(db.flow) && k in db.flow.runs && Live(db.flow.runs[k]) && (output.complete ==> ReviewTheorems.Scored(output.review))
    requires Calmer(SetRun(db.flow, k, RunSucceeded(output)), flow, {})
    requires flow.revisions == db.flow.revisions && flow.decisions == db.flow.decisions
    requires FinishJob(db.(flow := flow), now, id, token, Success').Success?
    ensures History(db.flow, FinishJob(db.(flow := flow), now, id, token, Success').value.flow)
  {
    var middle := SetRun(db.flow, k, RunSucceeded(output));
    RunSet(db.flow, k, RunSucceeded(output));
    FinishJobIsStep(db.(flow := flow), now, id, token, Success');
    CalmHistory(middle, flow, {});
    HistoryChain(db.flow, middle, flow);
  }

  lemma ReviewedHistory(db: Db, now: Time, id: Id, token: Id, c: Completion, result: Result<Db, FlowError>)
    requires DbInv(db) && Bound(db, now, id, token) && c.output.complete && ReviewTheorems.Scored(c.output.review)
    requires c.nextJobId !in db.core.queue.jobs && c.decisionId !in db.flow.decisions
    requires !db.flow.groups[KeyOf(db.core.queue.jobs[id]).0].pilot && db.flow.groups[KeyOf(db.core.queue.jobs[id]).0].inputComplete
    requires var k := KeyOf(db.core.queue.jobs[id]);
             Goes(db, now, id, token, c, k, SetRun(db.flow, k, RunSucceeded(c.output)), result)
    ensures result.Success? ==> History(db.flow, result.value.flow)
  {
    var k := KeyOf(db.core.queue.jobs[id]);
    var flow := SetRun(db.flow, k, RunSucceeded(c.output));
    AnsweredState(db, now, id, token, c.output);
    AnswerIsKnown(db.(flow := flow), id, k.1, c.check);
    NothingBeyond(db.(flow := flow), id, k.1);
    ConcludeHistory(db.(flow := flow), now, id, token, k.1, c);
    RunSet(db.flow, k, RunSucceeded(c.output));
    if result.Success? { HistoryChain(db.flow, flow, result.value.flow); }
  }

  lemma PilotHistory(db: Db, now: Time, id: Id, token: Id, k: RunKey, output: RunOutput, status: GroupStatus)
    requires FlowOk(db.flow) && k in db.flow.runs && Live(db.flow.runs[k]) && k.0 in db.flow.groups
    requires output.complete ==> ReviewTheorems.Scored(output.review)
    requires var flow := SetGroup(SetRun(db.flow, k, RunSucceeded(output)), k.0, status);
             FinishJob(db.(flow := flow), now, id, token, Success').Success?
    ensures var flow := SetGroup(SetRun(db.flow, k, RunSucceeded(output)), k.0, status);
            History(db.flow, FinishJob(db.(flow := flow), now, id, token, Success').value.flow)
  {
    StatusCalms(SetRun(db.flow, k, RunSucceeded(output)), k.0, status);
    ClosedHistory(db, now, id, token, k, output, SetGroup(SetRun(db.flow, k, RunSucceeded(output)), k.0, status));
  }

  lemma HeldRows(flow: Flow, g: Id, holdId: Id, t: HoldType)
    requires g in flow.groups && AddHold(flow, holdId, flow.groups[g].revisionId, Some(g), t).Success?
    ensures var held := AddHold(flow, holdId, flow.groups[g].revisionId, Some(g), t).value;
            && g in held.groups && held.revisions == flow.revisions && held.decisions == flow.decisions
            && Calmer(flow, SetGroup(held, g, GroupHeld), {})
  {
    StatusCalms(flow, g, GroupHeld);
  }

  lemma IncompleteHistory(db: Db, now: Time, id: Id, token: Id, k: RunKey, output: RunOutput, holdId: Id, held: Flow)
    requires FlowOk(db.flow) && k in db.flow.runs && Live(db.flow.runs[k]) && k.0 in db.flow.groups
    requires output.complete ==> ReviewTheorems.Scored(output.review)
    requires AddHold(SetRun(db.flow, k, RunSucceeded(output)), holdId, db.flow.groups[k.0].revisionId, Some(k.0), InputIncomplete)
             == Success(held)
    requires k.0 in held.groups && FinishJob(db.(flow := SetGroup(held, k.0, GroupHeld)), now, id, token, Success').Success?
    ensures History(db.flow, FinishJob(db.(flow := SetGroup(held, k.0, GroupHeld)), now, id, token, Success').value.flow)
  {
    HeldRows(SetRun(db.flow, k, RunSucceeded(output)), k.0, holdId, InputIncomplete);
    ClosedHistory(db, now, id, token, k, output, SetGroup(held, k.0, GroupHeld));
  }

  lemma UnreviewedHistory(db: Db, now: Time, id: Id, token: Id, c: Completion, k: RunKey, result: Result<Db, FlowError>)
    requires FlowOk(db.flow) && k in db.flow.runs && Live(db.flow.runs[k]) && k.0 in db.flow.groups
    requires c.output.complete ==> ReviewTheorems.Scored(c.output.review)
    requires db.flow.groups[k.0].pilot || !(db.flow.groups[k.0].inputComplete && c.output.complete)
    requires Goes(db, now, id, token, c, k, SetRun(db.flow, k, RunSucceeded(c.output)), result) && result.Success?
    ensures History(db.flow, result.value.flow)
  {
    var group := db.flow.groups[k.0];
    if group.pilot {
      PilotHistory(db, now, id, token, k, c.output,
                   if group.inputComplete && c.output.complete then PilotCompleted else PilotIncomplete);
    } else {
      var held := AddHold(SetRun(db.flow, k, RunSucceeded(c.output)), c.holdId, group.revisionId, Some(k.0), InputIncomplete).value;
      IncompleteHistory(db, now, id, token, k, c.output, c.holdId, held);
    }
  }

  lemma CompleteHistory(db: Db, now: Time, id: Id, token: Id, c: Completion)
    requires DbInv(db) && Acceptable(db, now, CompleteEvent(id, token, c)) && Complete(db, now, id, token, c).Success?
    ensures History(db.flow, Complete(db, now, id, token, c).value.flow)
  {
    CompleteCases(db, now, id, token, c);
    var k := KeyOf(db.core.queue.jobs[id]);
    if db.flow.groups[k.0].pilot || !(db.flow.groups[k.0].inputComplete && c.output.complete) {
      UnreviewedHistory(db, now, id, token, c, k, Complete(db, now, id, token, c));
    } else {
      ReviewedHistory(db, now, id, token, c, Complete(db, now, id, token, c));
    }
  }

  lemma FailHistory(db: Db, now: Time, id: Id, token: Id)
    requires Fail(db, now, id, token).Success?
    ensures History(db.flow, Fail(db, now, id, token).value.flow)
  {
    var failed := FailRun(db.flow, KeyOf(db.core.queue.jobs[id]));
    FinishJobIsStep(db.(flow := failed), now, id, token, Failure');
    FailRunCalms(db.flow, KeyOf(db.core.queue.jobs[id]));
    CalmHistory(db.flow, failed, {});
  }

  lemma RecoverHistory(db: Db, now: Time, id: Id, videoLocked: bool)
    requires Recover(db, now, id, videoLocked).Success?
    ensures History(db.flow, Recover(db, now, id, videoLocked).value.flow)
  {
    if AbandonsRun(db, now, id, videoLocked) {
      FailRunCalms(db.flow, KeyOf(db.core.queue.jobs[id]));
      CalmHistory(db.flow, FailRun(db.flow, KeyOf(db.core.queue.jobs[id])), {});
    } else {
      CalmHistory(db.flow, db.flow, {});
    }
  }

  lemma BeginHistory(db: Db, now: Time, id: Id, token: Id)
    requires Begin(db, now, id, token).Success?
    ensures History(db.flow, Begin(db, now, id, token).value.flow)
  {
    BeginRows(db, now, id, token);
  }

  lemma OtherHistory(flow: Flow, after: Flow)
    requires after.revisions == flow.revisions && after.decisions == flow.decisions
    requires after.runs == flow.runs && after.groups == flow.groups
    ensures History(flow, after)
  {
  }
}
