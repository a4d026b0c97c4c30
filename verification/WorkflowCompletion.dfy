// Completing a run: what the engine makes of the group's runs, and that every
// outcome keeps the workflow invariant.
module WorkflowCompletion {
  import opened Basics
  import opened ContentScoring
  import opened ReviewEngine
  import opened ReviewTheorems
  import opened QueueModel
  import opened QueueInvariant
  import opened WorkflowModel
  import opened WorkflowInvariant
  import opened WorkflowSteps
  import opened WorkflowSafety
  import opened WorkflowEvents

  // ------------------------------------------------------------------------
  // The succeeded runs of a group are all its runs

  lemma {:induction false} AllSucceeded(runs: map<RunKey, RunState>, g: Id, n: nat, m: nat)
    requires AllUsable(runs, g, n) && NoRunAfter(runs, g, n)
    ensures SucceededUpTo(runs, g, m) == FirstNumbers(if m <= n then m else n)
  {
    if m > 0 {
      AllSucceeded(runs, g, n, m - 1);
      if m > n { assert (g, m) !in runs; }
    }
  }

  // Nothing follows a live run, so once it has succeeded the group's succeeded
  // runs are exactly 1..n.
  lemma SucceededAreAll(groups: map<Id, Group>, runs: map<RunKey, RunState>, k: RunKey, output: RunOutput)
    requires RunsOk(groups, runs) && k in runs && Live(runs[k]) && output.complete
    ensures var after := runs[k := RunSucceeded(output)];
            && 1 <= k.1 <= 3 && AllUsable(after, k.0, k.1) && NoRunAfter(after, k.0, k.1)
            && SucceededNumbers(after, k.0) == FirstNumbers(k.1)
  {
    var after := runs[k := RunSucceeded(output)];
    var (g, n) := k;
    assert k == (g, n);
    EarlierRunsAreUsable(groups, runs, g, n);
    NothingFollows(groups, runs, g, n);
    assert NoRunAfter(after, g, n);
    var count := RunCount(after, g);
    assert NoRunAfter(after, g, count);
    assert count >= n;
    AllSucceeded(after, g, n, count);
  }

  lemma NothingFollows(groups: map<Id, Group>, runs: map<RunKey, RunState>, g: Id, n: nat)
    requires RunsOk(groups, runs) && (g, n) in runs && !Usable(runs[(g, n)])
    ensures NoRunAfter(runs, g, n)
  {
    assert RunOk(groups, runs, (g, n));
    forall m: nat | m > n ensures (g, m) !in runs {
      if (g, m) in runs {
        EarlierRunsAreUsable(groups, runs, g, m);
        assert false;
      }
    }
  }

  // ------------------------------------------------------------------------
  // The engine never fails here, and a third run is always the last

  lemma EngineAnswers(reviews: seq<ReviewRun>, appeal: bool, check: FirstCheck)
    requires 1 <= |reviews| <= 3
    requires forall i :: 0 <= i < |reviews| ==> Scored(reviews[i])
    ensures ProgressOf(reviews, appeal, check).Success?
    ensures var p := ProgressOf(reviews, appeal, check).value;
            && (p.SecondReview? || p.ThirdReview? ==> |reviews| <= 2)
            && (p.Adopt? && |reviews| == 1 ==> !appeal)
  {
    if |reviews| > 1 {
      forall run | run in reviews ensures InRange(run.anchors) {}
      EngineErrors(reviews);
      if |reviews| == 3 { ThreeRunsSettle(reviews); }
    }
  }

  // ------------------------------------------------------------------------
  // Adoption

  lemma RecordedDecision(groups: map<Id, Group>, runs: map<RunKey, RunState>, decisions: map<Id, Decision>, id: Id, d: Decision)
    requires DecisionsOk(groups, runs, decisions) && id !in decisions && DecisionOk(groups, runs, d)
    requires forall e :: e in decisions ==> decisions[e].groupId != d.groupId
    ensures DecisionsOk(groups, runs, decisions[id := d])
  {
  }

  lemma PointedRevision(revisions: map<Id, Revision>, decisions: map<Id, Decision>, id: Id, d: Decision)
    requires PointersOk(revisions, decisions) && id !in decisions && d.revisionId in revisions
    ensures var pointed := revisions[d.revisionId := revisions[d.revisionId].(activeDecision := Some(id))];
            PointersOk(pointed, decisions[id := d]) && RevisionsKept(revisions, pointed)
  {
  }

  lemma PointedFlow(flow: Flow, id: Id, d: Decision, pointed: map<Id, Revision>)
    requires FlowOk(flow) && DecisionsOk(flow.groups, flow.runs, flow.decisions[id := d])
    requires RevisionsOk(pointed) && PointersOk(pointed, flow.decisions[id := d]) && RevisionsKept(flow.revisions, pointed)
    ensures FlowOk(flow.(decisions := flow.decisions[id := d], revisions := pointed))
  {
    RevisionsStay(flow, flow.(decisions := flow.decisions[id := d], revisions := pointed));
  }

  lemma DecisionHasRevision(flow: Flow, d: Decision)
    requires GroupsOk(flow.groups, flow.revisions) && DecisionOk(flow.groups, flow.runs, d)
    ensures d.revisionId in flow.revisions
  {
  }

  lemma RecordFlow(flow: Flow, g: Id, id: Id, d: Decision)
    requires FlowOk(flow) && g in flow.groups && d.groupId == g && id !in flow.decisions
    requires DecisionOk(flow.groups, flow.runs, d) && !HasDecision(flow, g)
    ensures d.revisionId in flow.revisions
    ensures FlowOk(RecordDecision(flow, g, id, d))
  {
    DecisionHasRevision(flow, d);
    var pointed := flow.revisions[d.revisionId := flow.revisions[d.revisionId].(activeDecision := Some(id))];
    PointedNumbers(flow.revisions, d.revisionId, id);
    PointedRevision(flow.revisions, flow.decisions, id, d);
    RecordedDecision(flow.groups, flow.runs, flow.decisions, id, d);
    PointedFlow(flow, id, d, pointed);
    StatusSet(flow.(decisions := flow.decisions[id := d], revisions := pointed), g, GroupAdopted);
  }

  lemma StatusCalms(flow: Flow, g: Id, status: GroupStatus)
    requires g in flow.groups
    ensures Calmer(flow, SetGroup(flow, g, status), {}) && SetGroup(flow, g, status).groups.Keys == flow.groups.Keys
  {
  }

  lemma StatusSet(flow: Flow, g: Id, status: GroupStatus)
    requires FlowOk(flow) && g in flow.groups
    ensures FlowOk(SetGroup(flow, g, status))
  {
    GroupSet(flow, g, flow.groups[g].(status := status));
  }

  lemma HoldSet(flow: Flow, id: Id, r: Id, g: Option<Id>, t: HoldType)
    requires FlowOk(flow) && id !in flow.holds && r in flow.revisions && t != UnderAppeal
    requires AddHold(flow, id, r, g, t).Success?
    ensures FlowOk(AddHold(flow, id, r, g, t).value)
    ensures var after := AddHold(flow, id, r, g, t).value; after.groups == flow.groups && after.runs == flow.runs
  {
    HoldAdded(flow, id, WorkflowHold(r, g, t, Unresolved));
  }

  lemma GateSet(flow: Flow, r: Id, gate: Gate)
    requires FlowOk(flow)
    ensures FlowOk(flow.(gates := flow.gates[r := gate]))
  {
  }

  lemma OneStatusCalms(flow: Flow, after: Flow, g: Id, status: GroupStatus)
    requires g in flow.groups && after.runs == flow.runs
    requires after.groups == flow.groups[g := flow.groups[g].(status := status)]
    ensures Calmer(flow, after, {})
  {
  }

  lemma PassGateRows(flow: Flow, g: Id, d: Decision, holdId: Id)
    requires g in flow.groups && PassGate(flow, g, d, holdId).Success?
    ensures var after := PassGate(flow, g, d, holdId).value;
            && after.runs == flow.runs
            && after.groups == flow.groups[g := flow.groups[g].(status := if d.compliance != Clear then GroupHeld else flow.groups[g].status)]
  {
    assert flow.groups[g := flow.groups[g]] == flow.groups;
  }

  lemma GateCalms(flow: Flow, g: Id, d: Decision, holdId: Id)
    requires g in flow.groups && PassGate(flow, g, d, holdId).Success?
    ensures Calmer(flow, PassGate(flow, g, d, holdId).value, {})
  {
    PassGateRows(flow, g, d, holdId);
    OneStatusCalms(flow, PassGate(flow, g, d, holdId).value, g, if d.compliance != Clear then GroupHeld else flow.groups[g].status);
  }

  lemma GateHolds(flow: Flow, g: Id, r: Id, holdId: Id)
    requires FlowOk(flow) && g in flow.groups && r in flow.revisions && holdId !in flow.holds
    requires AddHold(flow.(gates := flow.gates[r := GateHold]), holdId, r, Some(g), ComplianceCheck).Success?
    ensures var held := AddHold(flow.(gates := flow.gates[r := GateHold]), holdId, r, Some(g), ComplianceCheck).value;
            g in held.groups && FlowOk(SetGroup(held, g, GroupHeld))
  {
    var gated := flow.(gates := flow.gates[r := GateHold]);
    GateSet(flow, r, GateHold);
    HoldSet(gated, holdId, r, Some(g), ComplianceCheck);
    StatusSet(AddHold(gated, holdId, r, Some(g), ComplianceCheck).value, g, GroupHeld);
  }

  lemma GateFlow(flow: Flow, g: Id, d: Decision, holdId: Id)
    requires FlowOk(flow) && g in flow.groups && d.revisionId in flow.revisions && holdId !in flow.holds
    requires PassGate(flow, g, d, holdId).Success?
    ensures FlowOk(PassGate(flow, g, d, holdId).value)
  {
    if d.compliance != Clear {
      GateHolds(flow, g, d.revisionId, holdId);
    } else {
      GateSet(flow, d.revisionId, if d.rating in {APlus, A, B, BMinus} then Approved else RevisionRequired);
    }
  }

  function Settled(flow: Flow, g: Id, id: Id, d: Decision): Flow
    requires g in flow.groups && d.revisionId in flow.revisions
  {
    if flow.groups[g].appeal then ResolveByGroup(RecordDecision(flow, g, id, d), g) else RecordDecision(flow, g, id, d)
  }

  lemma SettledRows(flow: Flow, g: Id, id: Id, d: Decision)
    requires g in flow.groups && d.revisionId in flow.revisions
    ensures var s := Settled(flow, g, id, d);
            && Calmer(flow, s, {}) && s.holds.Keys == flow.holds.Keys && s.runs == flow.runs
            && d.revisionId in s.revisions && g in s.groups
  {
    var s := Settled(flow, g, id, d);
    assert s.groups == RecordDecision(flow, g, id, d).groups == flow.groups[g := flow.groups[g].(status := GroupAdopted)];
    OneStatusCalms(flow, s, g, GroupAdopted);
  }

  lemma SettledFlow(flow: Flow, g: Id, id: Id, d: Decision)
    requires FlowOk(flow) && g in flow.groups && d.groupId == g && id !in flow.decisions
    requires DecisionOk(flow.groups, flow.runs, d) && !HasDecision(flow, g) && d.revisionId in flow.revisions
    ensures FlowOk(Settled(flow, g, id, d))
  {
    RecordFlow(flow, g, id, d);
    ResolvedByGroupFlow(RecordDecision(flow, g, id, d), g);
  }

  lemma CalmTwice(flow: Flow, middle: Flow, after: Flow)
    requires Calmer(flow, middle, {}) && Calmer(middle, after, {})
    ensures Calmer(flow, after, {})
  {
  }

  lemma AdoptFlow(flow: Flow, g: Id, id: Id, d: Decision, holdId: Id)
    requires FlowOk(flow) && g in flow.groups && d.groupId == g && id !in flow.decisions && holdId !in flow.holds
    requires DecisionOk(flow.groups, flow.runs, d) && d.revisionId in flow.revisions
    requires AdoptDecision(flow, g, id, d, holdId).Success?
    ensures FlowOk(AdoptDecision(flow, g, id, d, holdId).value)
  {
    SettledFlow(flow, g, id, d);
    SettledRows(flow, g, id, d);
    if !flow.groups[g].shadow { GateFlow(Settled(flow, g, id, d), g, d, holdId); }
  }

  lemma AdoptCalms(flow: Flow, g: Id, id: Id, d: Decision, holdId: Id)
    requires g in flow.groups && d.revisionId in flow.revisions
    requires AdoptDecision(flow, g, id, d, holdId).Success?
    ensures Calmer(flow, AdoptDecision(flow, g, id, d, holdId).value, {})
  {
    SettledRows(flow, g, id, d);
    if !flow.groups[g].shadow {
      GateCalms(Settled(flow, g, id, d), g, d, holdId);
      CalmTwice(flow, Settled(flow, g, id, d), AdoptDecision(flow, g, id, d, holdId).value);
    }
  }

  // ------------------------------------------------------------------------
  // The transaction

  // The state in which the engine is asked: the run has succeeded, its job still runs.
  ghost predicate Answered(db: Db, id: Id, n: nat) {
    && Inv(db.core) && FlowOk(db.flow) && BridgeOk(db.core.queue.jobs, db.flow)
    && IsRunJob(db.core, id)
    && var g := KeyOf(db.core.queue.jobs[id]).0;
    && KeyOf(db.core.queue.jobs[id]) == (g, n)
    && g in db.flow.groups && !db.flow.groups[g].pilot && db.flow.groups[g].revisionId in db.flow.revisions
    && 1 <= n <= 3 && AllUsable(db.flow.runs, g, n) && NoRunAfter(db.flow.runs, g, n)
    && SucceededNumbers(db.flow.runs, g) == FirstNumbers(n)
    && !HasDecision(db.flow, g)
  }

  lemma RunIsClosed(db: Db, id: Id, n: nat)
    requires Answered(db, id, n)
    ensures KeyOf(db.core.queue.jobs[id]) in db.flow.runs && !Live(db.flow.runs[KeyOf(db.core.queue.jobs[id])])
  {
  }

  // The job is finished with its run closed.
  lemma CloseWith(db: Db, now: Time, id: Id, token: Id, flow: Flow)
    requires Inv(db.core) && BridgeOk(db.core.queue.jobs, db.flow) && RunsOk(db.flow.groups, db.flow.runs)
    requires IsRunJob(db.core, id) && KeyOf(db.core.queue.jobs[id]) in db.flow.runs
    requires !Live(db.flow.runs[KeyOf(db.core.queue.jobs[id])])
    requires FlowOk(flow) && Calmer(db.flow, flow, {})
    ensures var done := FinishJob(db.(flow := flow), now, id, token, Success'); done.Success? ==> DbInv(done.value)
  {
    var jobs := db.core.queue.jobs;
    var done := FinishJob(db.(flow := flow), now, id, token, Success');
    if done.Success? {
      CalmBridge(jobs, db.flow, flow, {});
      FinishJobKeeps(db.(flow := flow), now, id, token, Success', {});
      BridgeOf(done.value.core.queue.jobs, flow);
    }
  }

  function DecisionFor(db: Db, g: Id, numbers: seq<nat>, p: ReviewEngine.Progress): Decision
    requires p.Adopt? && g in db.flow.groups && HasOutputs(db.flow.runs, g, numbers)
  {
    Decision(g, db.flow.groups[g].revisionId, numbers, p.anchors, p.score, p.rating,
             WorstCompliance(Reviews(db.flow.runs, g, numbers)), p.adoption)
  }

  lemma DecisionIsOk(db: Db, id: Id, n: nat, check: FirstCheck, p: ReviewEngine.Progress)
    requires Answered(db, id, n) && p.Adopt?
    requires var g := KeyOf(db.core.queue.jobs[id]).0;
             ProgressOf(ReviewsOfGroup(db.flow.runs, g, n), db.flow.groups[g].appeal, check) == Success(p)
    ensures var g := KeyOf(db.core.queue.jobs[id]).0;
            && HasOutputs(db.flow.runs, g, FirstNumbers(n))
            && DecisionOk(db.flow.groups, db.flow.runs, DecisionFor(db, g, FirstNumbers(n), p))
  {
    var g := KeyOf(db.core.queue.jobs[id]).0;
    UsableHaveOutputs(db.flow.runs, g, n);
    var reviews := ReviewsOfGroup(db.flow.runs, g, n);
    ReviewsAreScored(db.flow, g, n);
    EngineAnswers(reviews, db.flow.groups[g].appeal, check);
    assert (g, n + 1) !in db.flow.runs;
    assert Verdict(DecisionFor(db, g, FirstNumbers(n), p), reviews, db.flow.groups[g].appeal);
  }

  lemma AdoptAnswered(db: Db, now: Time, id: Id, token: Id, n: nat, c: Completion, p: ReviewEngine.Progress)
    requires Answered(db, id, n) && c.decisionId !in db.flow.decisions && c.holdId !in db.flow.holds && p.Adopt?
    requires var g := KeyOf(db.core.queue.jobs[id]).0;
             ProgressOf(ReviewsOfGroup(db.flow.runs, g, n), db.flow.groups[g].appeal, c.check) == Success(p)
    ensures var g := KeyOf(db.core.queue.jobs[id]).0;
            HasOutputs(db.flow.runs, g, FirstNumbers(n))
    ensures var g := KeyOf(db.core.queue.jobs[id]).0;
            var adopted := AdoptDecision(db.flow, g, c.decisionId, DecisionFor(db, g, FirstNumbers(n), p), c.holdId);
            adopted.Success? ==>
              var done := FinishJob(db.(flow := adopted.value), now, id, token, Success');
              done.Success? ==> DbInv(done.value)
  {
    var g := KeyOf(db.core.queue.jobs[id]).0;
    DecisionIsOk(db, id, n, c.check, p);
    var d := DecisionFor(db, g, FirstNumbers(n), p);
    var adopted := AdoptDecision(db.flow, g, c.decisionId, d, c.holdId);
    if adopted.Success? {
      AdoptFlow(db.flow, g, c.decisionId, d, c.holdId);
      AdoptCalms(db.flow, g, c.decisionId, d, c.holdId);
      RunIsClosed(db, id, n);
      CloseWith(db, now, id, token, adopted.value);
    }
  }

  lemma HeldFlow(flow: Flow, g: Id, holdId: Id, t: HoldType)
    requires FlowOk(flow) && g in flow.groups && holdId !in flow.holds && t != UnderAppeal
    requires flow.groups[g].revisionId in flow.revisions
    ensures var held := AddHold(flow, holdId, flow.groups[g].revisionId, Some(g), t);
            held.Success? ==> FlowOk(SetGroup(held.value, g, GroupHeld)) && Calmer(flow, SetGroup(held.value, g, GroupHeld), {})
  {
    var held := AddHold(flow, holdId, flow.groups[g].revisionId, Some(g), t);
    if held.Success? {
      HoldSet(flow, holdId, flow.groups[g].revisionId, Some(g), t);
      StatusSet(held.value, g, GroupHeld);
      StatusCalms(held.value, g, GroupHeld);
    }
  }

  lemma NextRunFlow(flow: Flow, g: Id, n: nat)
    requires FlowOk(flow) && g in flow.groups && !flow.groups[g].pilot && 1 <= n <= 2
    requires AllUsable(flow.runs, g, n) && NoRunAfter(flow.runs, g, n) && !HasDecision(flow, g)
    ensures FlowOk(SetRun(flow, (g, n + 1), RunPending))
    ensures Calmer(flow, SetRun(flow, (g, n + 1), RunPending), {(g, n + 1)})
  {
    var after := SetRun(flow, (g, n + 1), RunPending);
    assert (g, n + 1) !in flow.runs;
    assert Usable(flow.runs[(g, n)]);
    RunAdded(flow.groups, flow.groups, flow.runs, (g, n + 1));
    assert NoneAdded(flow.decisions, flow.runs, after.runs);
    RunsChange(flow, after.runs);
  }

  lemma FinishThenQueue(db: Db, now: Time, id: Id, token: Id, k: RunKey, nextJobId: Id, actorId: Id)
    requires Inv(db.core) && FlowOk(db.flow) && IsRunJob(db.core, id)
    requires LiveRunsBut(db.core.queue.jobs, db.flow.groups, db.flow.runs, {k})
    requires JobTargetsOk(db.core.queue.jobs, db.flow.groups, db.flow.runs)
    requires KeyOf(db.core.queue.jobs[id]) in db.flow.runs && !Live(db.flow.runs[KeyOf(db.core.queue.jobs[id])])
    requires k.0 in db.flow.groups && nextJobId !in db.core.queue.jobs
    ensures var finished := FinishJob(db, now, id, token, Success');
            finished.Success? ==>
              && k.0 in finished.value.flow.groups
              && var queued := EnqueueRun(finished.value, now, nextJobId, actorId, k, 2);
              queued.Success? ==>
                k.0 in queued.value.flow.groups && DbInv(queued.value.(flow := SetGroup(queued.value.flow, k.0, ReviewRequired)))
  {
    var finished := FinishJob(db, now, id, token, Success');
    if finished.Success? {
      FinishJobKeeps(db, now, id, token, Success', {k});
      QueueNext(finished.value, now, nextJobId, actorId, k);
    }
  }

  lemma NextRunIsOk(db: Db, id: Id, n: nat)
    requires Answered(db, id, n) && n <= 2
    ensures var g := KeyOf(db.core.queue.jobs[id]).0;
            var flow := SetRun(db.flow, (g, n + 1), RunPending);
            FlowOk(flow) && Calmer(db.flow, flow, {(g, n + 1)})
  {
    NextRunFlow(db.flow, KeyOf(db.core.queue.jobs[id]).0, n);
  }

  lemma NextRunBridge(jobs: map<Id, Job>, flow: Flow, g: Id, n: nat)
    requires BridgeOk(jobs, flow) && RunsOk(flow.groups, flow.runs)
    requires Calmer(flow, SetRun(flow, (g, n + 1), RunPending), {(g, n + 1)})
    ensures var after := SetRun(flow, (g, n + 1), RunPending);
            LiveRunsBut(jobs, after.groups, after.runs, {(g, n + 1)}) && JobTargetsOk(jobs, after.groups, after.runs)
  {
    CalmBridge(jobs, flow, SetRun(flow, (g, n + 1), RunPending), {(g, n + 1)});
  }

  lemma ClosedRunStays(db: Db, id: Id, n: nat)
    requires Answered(db, id, n)
    ensures var k := KeyOf(db.core.queue.jobs[id]);
            var runs := db.flow.runs[(k.0, n + 1) := RunPending];
            k in runs && !Live(runs[k]) && k.0 in db.flow.groups
  {
  }

  // The finished run makes way for the next run of the group, and its job.
  lemma ContinueAnswered(db: Db, now: Time, id: Id, token: Id, n: nat, nextJobId: Id)
    requires Answered(db, id, n) && n <= 2 && nextJobId !in db.core.queue.jobs
    ensures var g := KeyOf(db.core.queue.jobs[id]).0;
            var finished := FinishJob(db.(flow := SetRun(db.flow, (g, n + 1), RunPending)), now, id, token, Success');
            finished.Success? ==>
              && g in finished.value.flow.groups
              && var queued := EnqueueRun(finished.value, now, nextJobId, db.core.queue.jobs[id].actorId, (g, n + 1), 2);
              queued.Success? ==>
                && g in queued.value.flow.groups
                && DbInv(queued.value.(flow := SetGroup(queued.value.flow, g, ReviewRequired)))
  {
    var g := KeyOf(db.core.queue.jobs[id]).0;
    NextRunIsOk(db, id, n);
    NextRunBridge(db.core.queue.jobs, db.flow, g, n);
    ClosedRunStays(db, id, n);
    FinishThenQueue(db.(flow := SetRun(db.flow, (g, n + 1), RunPending)), now, id, token, (g, n + 1), nextJobId, db.core.queue.jobs[id].actorId);
  }

  lemma QueueNext(db: Db, now: Time, jobId: Id, actorId: Id, k: RunKey)
    requires Inv(db.core) && FlowOk(db.flow)
    requires LiveRunsBut(db.core.queue.jobs, db.flow.groups, db.flow.runs, {k})
    requires JobTargetsOk(db.core.queue.jobs, db.flow.groups, db.flow.runs)
    requires k.0 in db.flow.groups && jobId !in db.core.queue.jobs
    ensures var queued := EnqueueRun(db, now, jobId, actorId, k, 2);
            queued.Success? ==>
              && k.0 in queued.value.flow.groups
              && DbInv(queued.value.(flow := SetGroup(queued.value.flow, k.0, ReviewRequired)))
  {
    var queued := EnqueueRun(db, now, jobId, actorId, k, 2);
    if queued.Success? {
      EnqueueRunIsStep(db, now, jobId, actorId, k, 2);
      EnqueueRunKeeps(db, now, jobId, actorId, k, 2);
      StatusSet(db.flow, k.0, ReviewRequired);
      StatusCalms(db.flow, k.0, ReviewRequired);
      CalmKeepsBridge(queued.value.core.queue.jobs, db.flow, SetGroup(db.flow, k.0, ReviewRequired));
    }
  }

  // ------------------------------------------------------------------------
  // complete

  // What concluding comes to, once the succeeded runs are known to be 1..n.
  ghost predicate Known(db: Db, id: Id, n: nat) {
    && IsRunJob(db.core, id)
    && var g := KeyOf(db.core.queue.jobs[id]).0;
    && g in db.flow.groups && db.flow.groups[g].revisionId in db.flow.revisions
    && AllUsable(db.flow.runs, g, n) && SucceededNumbers(db.flow.runs, g) == FirstNumbers(n)
  }

  ghost function ProgressAt(db: Db, id: Id, n: nat, check: FirstCheck): Result<ReviewEngine.Progress, EngineError>
    requires Known(db, id, n)
  {
    var g := KeyOf(db.core.queue.jobs[id]).0;
    ProgressOf(ReviewsOfGroup(db.flow.runs, g, n), db.flow.groups[g].appeal, check)
  }

  lemma ConcludeAdopts(db: Db, now: Time, id: Id, token: Id, n: nat, c: Completion)
    requires Known(db, id, n) && ProgressAt(db, id, n, c.check).Success? && ProgressAt(db, id, n, c.check).value.Adopt?
    ensures var g := KeyOf(db.core.queue.jobs[id]).0;
            && HasOutputs(db.flow.runs, g, FirstNumbers(n))
            && var d := DecisionFor(db, g, FirstNumbers(n), ProgressAt(db, id, n, c.check).value);
            var adopted := AdoptDecision(db.flow, g, c.decisionId, d, c.holdId);
            Conclude(db, now, id, token, c) ==
            match adopted case Failure(e) => Failure(e)
            case Success(flow) => FinishJob(db.(flow := flow), now, id, token, Success')
  {
    UsableHaveOutputs(db.flow.runs, KeyOf(db.core.queue.jobs[id]).0, n);
  }

  lemma ConcludeHolds(db: Db, now: Time, id: Id, token: Id, n: nat, c: Completion)
    requires Known(db, id, n) && ProgressAt(db, id, n, c.check).Success? && ProgressAt(db, id, n, c.check).value.Hold?
    ensures var g := KeyOf(db.core.queue.jobs[id]).0;
            && HasOutputs(db.flow.runs, g, FirstNumbers(n))
            && var held := AddHold(db.flow, c.holdId, db.flow.groups[g].revisionId, Some(g), EvaluationInstability);
            Conclude(db, now, id, token, c) ==
            match held case Failure(e) => Failure(e)
            case Success(flow) => FinishJob(db.(flow := SetGroup(flow, g, GroupHeld)), now, id, token, Success')
  {
    UsableHaveOutputs(db.flow.runs, KeyOf(db.core.queue.jobs[id]).0, n);
  }

  lemma ContinueCases(db: Db, now: Time, id: Id, token: Id, k: RunKey, actorId: Id, nextJobId: Id)
    requires k.0 in db.flow.groups && ContinueRun(db, now, id, token, k, actorId, nextJobId).Success?
    ensures var finished := FinishJob(db.(flow := SetRun(db.flow, k, RunPending)), now, id, token, Success');
            && finished.Success? && k.0 in finished.value.flow.groups
            && var queued := EnqueueRun(finished.value, now, nextJobId, actorId, k, 2);
            && queued.Success? && k.0 in queued.value.flow.groups
            && ContinueRun(db, now, id, token, k, actorId, nextJobId)
               == Success(queued.value.(flow := SetGroup(queued.value.flow, k.0, ReviewRequired)))
  {
  }

  lemma ConcludeIsContinue(db: Db, now: Time, id: Id, token: Id, n: nat, c: Completion)
    requires Known(db, id, n) && ProgressAt(db, id, n, c.check).Success?
    requires ProgressAt(db, id, n, c.check).value.SecondReview? || ProgressAt(db, id, n, c.check).value.ThirdReview?
    ensures var g := KeyOf(db.core.queue.jobs[id]).0;
            && HasOutputs(db.flow.runs, g, FirstNumbers(n))
            && Conclude(db, now, id, token, c)
               == ContinueRun(db, now, id, token, (g, n + 1), db.core.queue.jobs[id].actorId, c.nextJobId)
  {
    UsableHaveOutputs(db.flow.runs, KeyOf(db.core.queue.jobs[id]).0, n);
  }

  lemma ConcludeContinues(db: Db, now: Time, id: Id, token: Id, n: nat, c: Completion)
    requires Known(db, id, n) && ProgressAt(db, id, n, c.check).Success? && NoRunAfter(db.flow.runs, KeyOf(db.core.queue.jobs[id]).0, n)
    requires ProgressAt(db, id, n, c.check).value.SecondReview? || ProgressAt(db, id, n, c.check).value.ThirdReview?
    ensures var g := KeyOf(db.core.queue.jobs[id]).0;
            && HasOutputs(db.flow.runs, g, FirstNumbers(n))
            && (Conclude(db, now, id, token, c).Success? ==>
                  var finished := FinishJob(db.(flow := SetRun(db.flow, (g, n + 1), RunPending)), now, id, token, Success');
                  && finished.Success? && g in finished.value.flow.groups
                  && var queued := EnqueueRun(finished.value, now, c.nextJobId, db.core.queue.jobs[id].actorId, (g, n + 1), 2);
                  && queued.Success? && g in queued.value.flow.groups
                  && Conclude(db, now, id, token, c)
                     == Success(queued.value.(flow := SetGroup(queued.value.flow, g, ReviewRequired))))
  {
    ConcludeIsContinue(db, now, id, token, n, c);
    if Conclude(db, now, id, token, c).Success? {
      ContinueCases(db, now, id, token, (KeyOf(db.core.queue.jobs[id]).0, n + 1), db.core.queue.jobs[id].actorId, c.nextJobId);
    }
  }

  lemma AnswerIsKnown(db: Db, id: Id, n: nat, check: FirstCheck)
    requires Answered(db, id, n)
    ensures Known(db, id, n) && ProgressAt(db, id, n, check).Success?
    ensures var p := ProgressAt(db, id, n, check).value; p.SecondReview? || p.ThirdReview? ==> n <= 2
  {
    var g := KeyOf(db.core.queue.jobs[id]).0;
    ReviewsAreScored(db.flow, g, n);
    EngineAnswers(ReviewsOfGroup(db.flow.runs, g, n), db.flow.groups[g].appeal, check);
  }

  lemma NothingBeyond(db: Db, id: Id, n: nat)
    requires Answered(db, id, n)
    ensures NoRunAfter(db.flow.runs, KeyOf(db.core.queue.jobs[id]).0, n)
  {
  }

  lemma ConcludeKeeps(db: Db, now: Time, id: Id, token: Id, n: nat, c: Completion)
    requires Answered(db, id, n)
    requires c.nextJobId !in db.core.queue.jobs && c.decisionId !in db.flow.decisions && c.holdId !in db.flow.holds
    ensures HasOutputs(db.flow.runs, KeyOf(db.core.queue.jobs[id]).0,
                       SucceededNumbers(db.flow.runs, KeyOf(db.core.queue.jobs[id]).0))
    ensures Conclude(db, now, id, token, c).Success? ==> DbInv(Conclude(db, now, id, token, c).value)
  {
    AnswerIsKnown(db, id, n, c.check);
    NothingBeyond(db, id, n);
    var p := ProgressAt(db, id, n, c.check).value;
    if p.Adopt? {
      ConcludeAdopts(db, now, id, token, n, c);
      AdoptAnswered(db, now, id, token, n, c, p);
    } else if p.Hold? {
      ConcludeHolds(db, now, id, token, n, c);
      HoldAnswered(db, now, id, token, n, c.holdId);
    } else {
      ConcludeContinues(db, now, id, token, n, c);
      ContinueAnswered(db, now, id, token, n, c.nextJobId);
    }
  }

  // The run is closed and its group held.
  lemma HeldKeeps(db: Db, now: Time, id: Id, token: Id, holdId: Id, t: HoldType)
    requires Inv(db.core) && FlowOk(db.flow) && BridgeOk(db.core.queue.jobs, db.flow) && IsRunJob(db.core, id)
    requires KeyOf(db.core.queue.jobs[id]) in db.flow.runs && !Live(db.flow.runs[KeyOf(db.core.queue.jobs[id])])
    requires KeyOf(db.core.queue.jobs[id]).0 in db.flow.groups && holdId !in db.flow.holds && t != UnderAppeal
    requires db.flow.groups[KeyOf(db.core.queue.jobs[id]).0].revisionId in db.flow.revisions
    ensures var g := KeyOf(db.core.queue.jobs[id]).0;
            var held := AddHold(db.flow, holdId, db.flow.groups[g].revisionId, Some(g), t);
            held.Success? ==>
              var done := FinishJob(db.(flow := SetGroup(held.value, g, GroupHeld)), now, id, token, Success');
              done.Success? ==> DbInv(done.value)
  {
    var g := KeyOf(db.core.queue.jobs[id]).0;
    var held := AddHold(db.flow, holdId, db.flow.groups[g].revisionId, Some(g), t);
    HeldFlow(db.flow, g, holdId, t);
    if held.Success? { CloseWith(db, now, id, token, SetGroup(held.value, g, GroupHeld)); }
  }

  lemma HoldAnswered(db: Db, now: Time, id: Id, token: Id, n: nat, holdId: Id)
    requires Answered(db, id, n) && holdId !in db.flow.holds
    ensures var g := KeyOf(db.core.queue.jobs[id]).0;
            var held := AddHold(db.flow, holdId, db.flow.groups[g].revisionId, Some(g), EvaluationInstability);
            held.Success? ==>
              var done := FinishJob(db.(flow := SetGroup(held.value, g, GroupHeld)), now, id, token, Success');
              done.Success? ==> DbInv(done.value)
  {
    RunIsClosed(db, id, n);
    HeldKeeps(db, now, id, token, holdId, EvaluationInstability);
  }

  lemma SucceedCalms(flow: Flow, k: RunKey, output: RunOutput)
    requires k in flow.runs && Live(flow.runs[k])
    ensures Calmer(flow, SetRun(flow, k, RunSucceeded(output)), {})
  {
  }

  lemma BoundRun(db: Db, now: Time, id: Id, token: Id, output: RunOutput)
    requires Bound(db, now, id, token)
    ensures var k := KeyOf(db.core.queue.jobs[id]);
            var flow := SetRun(db.flow, k, RunSucceeded(output));
            && k in db.flow.runs && Live(db.flow.runs[k])
            && k in flow.runs && !Live(flow.runs[k]) && k.0 in flow.groups && flow.groups[k.0].revisionId in flow.revisions
  {
  }

  lemma SucceededFlow(jobs: map<Id, Job>, flow: Flow, k: RunKey, output: RunOutput)
    requires FlowOk(flow) && BridgeOk(jobs, flow) && k in flow.runs && Live(flow.runs[k])
    requires output.complete ==> Scored(output.review)
    ensures FlowOk(SetRun(flow, k, RunSucceeded(output))) && BridgeOk(jobs, SetRun(flow, k, RunSucceeded(output)))
  {
    RunSet(flow, k, RunSucceeded(output));
    SucceedCalms(flow, k, output);
    CalmKeepsBridge(jobs, flow, SetRun(flow, k, RunSucceeded(output)));
  }

  // The run has succeeded, whatever it says.
  lemma RunSucceeds(db: Db, now: Time, id: Id, token: Id, output: RunOutput)
    requires DbInv(db) && Bound(db, now, id, token) && (output.complete ==> Scored(output.review))
    ensures var k := KeyOf(db.core.queue.jobs[id]);
            var flow := SetRun(db.flow, k, RunSucceeded(output));
            && FlowOk(flow) && BridgeOk(db.core.queue.jobs, flow)
            && k in flow.runs && !Live(flow.runs[k]) && k.0 in flow.groups && flow.groups[k.0].revisionId in flow.revisions
  {
    BoundRun(db, now, id, token, output);
    SucceededFlow(db.core.queue.jobs, db.flow, KeyOf(db.core.queue.jobs[id]), output);
  }

  lemma UndecidedWhileLive(flow: Flow, k: RunKey)
    requires FlowOk(flow) && k in flow.runs && Live(flow.runs[k])
    ensures !HasDecision(flow, k.0)
  {
    if HasDecision(flow, k.0) {
      var d :| d in flow.decisions && flow.decisions[d].groupId == k.0;
      DecidedGroupsAreDone(flow, d, k);
      assert false;
    }
  }

  lemma AnsweredState(db: Db, now: Time, id: Id, token: Id, output: RunOutput)
    requires DbInv(db) && Bound(db, now, id, token) && output.complete && Scored(output.review)
    requires !db.flow.groups[KeyOf(db.core.queue.jobs[id]).0].pilot
    ensures var k := KeyOf(db.core.queue.jobs[id]);
            Answered(db.(flow := SetRun(db.flow, k, RunSucceeded(output))), id, k.1)
  {
    var k := KeyOf(db.core.queue.jobs[id]);
    RunSucceeds(db, now, id, token, output);
    SucceededAreAll(db.flow.groups, db.flow.runs, k, output);
    UndecidedWhileLive(db.flow, k);
    assert k == (k.0, k.1);
  }

  lemma PilotKeeps(db: Db, now: Time, id: Id, token: Id, status: GroupStatus)
    requires Inv(db.core) && FlowOk(db.flow) && BridgeOk(db.core.queue.jobs, db.flow) && IsRunJob(db.core, id)
    requires KeyOf(db.core.queue.jobs[id]) in db.flow.runs && !Live(db.flow.runs[KeyOf(db.core.queue.jobs[id])])
    requires KeyOf(db.core.queue.jobs[id]).0 in db.flow.groups
    ensures var g := KeyOf(db.core.queue.jobs[id]).0;
            var done := FinishJob(db.(flow := SetGroup(db.flow, g, status)), now, id, token, Success');
            done.Success? ==> DbInv(done.value)
  {
    var g := KeyOf(db.core.queue.jobs[id]).0;
    StatusSet(db.flow, g, status);
    StatusCalms(db.flow, g, status);
    CloseWith(db, now, id, token, SetGroup(db.flow, g, status));
  }

  // The three ways a completion can go.
  ghost predicate Goes(db: Db, now: Time, id: Id, token: Id, c: Completion, k: RunKey, flow: Flow, result: Result<Db, FlowError>)
    requires k.0 in flow.groups
  {
    var group := flow.groups[k.0];
    var complete := group.inputComplete && c.output.complete;
    if group.pilot then
      result == FinishJob(db.(flow := SetGroup(flow, k.0, if complete then PilotCompleted else PilotIncomplete)), now, id, token, Success')
    else if !complete then
      var held := AddHold(flow, c.holdId, group.revisionId, Some(k.0), InputIncomplete);
      && (held.Success? && k.0 in held.value.groups)
      && result == FinishJob(db.(flow := SetGroup(held.value, k.0, GroupHeld)), now, id, token, Success')
    else
      && id in db.core.queue.jobs && db.core.queue.jobs[id].target.Run? && KeyOf(db.core.queue.jobs[id]) == k
      && group.revisionId in flow.revisions
      && HasOutputs(flow.runs, k.0, SucceededNumbers(flow.runs, k.0))
      && result == Conclude(db.(flow := flow), now, id, token, c)
  }

  // The branch for a stale revision is never taken: the run is bound to a current one.
  lemma BoundIsNotStale(db: Db, now: Time, id: Id, token: Id, c: Completion)
    requires Bound(db, now, id, token)
    ensures !IsStale(db.flow, KeyOf(db.core.queue.jobs[id]))
    ensures var k := KeyOf(db.core.queue.jobs[id]);
            Complete(db, now, id, token, c)
            == Weigh(db.(flow := SetRun(db.flow, k, RunSucceeded(c.output))), now, id, token, k.0, c)
  {
  }

  lemma CompleteCases(db: Db, now: Time, id: Id, token: Id, c: Completion)
    requires Complete(db, now, id, token, c).Success?
    ensures Bound(db, now, id, token)
    ensures var k := KeyOf(db.core.queue.jobs[id]);
            Goes(db, now, id, token, c, k, SetRun(db.flow, k, RunSucceeded(c.output)), Complete(db, now, id, token, c))
  {
    var k := KeyOf(db.core.queue.jobs[id]);
    var flow := SetRun(db.flow, k, RunSucceeded(c.output));
    SucceededHaveOutputs(flow.runs, k.0, RunCount(flow.runs, k.0));
  }

  lemma UnreviewedKeeps(db: Db, now: Time, id: Id, token: Id, c: Completion, result: Result<Db, FlowError>)
    requires Inv(db.core) && FlowOk(db.flow) && BridgeOk(db.core.queue.jobs, db.flow) && IsRunJob(db.core, id)
    requires KeyOf(db.core.queue.jobs[id]) in db.flow.runs && !Live(db.flow.runs[KeyOf(db.core.queue.jobs[id])])
    requires KeyOf(db.core.queue.jobs[id]).0 in db.flow.groups && c.holdId !in db.flow.holds
    requires var group := db.flow.groups[KeyOf(db.core.queue.jobs[id]).0];
             group.revisionId in db.flow.revisions && (group.pilot || !(group.inputComplete && c.output.complete))
    requires Goes(db, now, id, token, c, KeyOf(db.core.queue.jobs[id]), db.flow, result)
    ensures result.Success? ==> DbInv(result.value)
  {
    var group := db.flow.groups[KeyOf(db.core.queue.jobs[id]).0];
    if group.pilot {
      PilotKeeps(db, now, id, token, if group.inputComplete && c.output.complete then PilotCompleted else PilotIncomplete);
    } else {
      HeldKeeps(db, now, id, token, c.holdId, InputIncomplete);
    }
  }

  lemma GoesKeeps(db: Db, now: Time, id: Id, token: Id, c: Completion, result: Result<Db, FlowError>)
    requires DbInv(db) && Bound(db, now, id, token) && (c.output.complete ==> Scored(c.output.review))
    requires c.nextJobId !in db.core.queue.jobs && c.decisionId !in db.flow.decisions && c.holdId !in db.flow.holds
    requires var k := KeyOf(db.core.queue.jobs[id]);
             Goes(db, now, id, token, c, k, SetRun(db.flow, k, RunSucceeded(c.output)), result)
    ensures result.Success? ==> DbInv(result.value)
  {
    var k := KeyOf(db.core.queue.jobs[id]);
    var group := db.flow.groups[k.0];
    var succeeded := db.(flow := SetRun(db.flow, k, RunSucceeded(c.output)));
    if group.pilot || !(group.inputComplete && c.output.complete) {
      RunSucceeds(db, now, id, token, c.output);
      GoesOnlyByFlow(db, now, id, token, c, k, succeeded.flow, result);
      UnreviewedKeeps(succeeded, now, id, token, c, result);
    } else {
      AnsweredState(db, now, id, token, c.output);
      ConcludeKeeps(succeeded, now, id, token, k.1, c);
    }
  }

  lemma GoesOnlyByFlow(db: Db, now: Time, id: Id, token: Id, c: Completion, k: RunKey, flow: Flow, result: Result<Db, FlowError>)
    requires k.0 in flow.groups && Goes(db, now, id, token, c, k, flow, result)
    ensures Goes(db.(flow := flow), now, id, token, c, k, flow, result)
  {
  }

  lemma CompleteKeeps(db: Db, now: Time, id: Id, token: Id, c: Completion)
    requires DbInv(db) && Acceptable(db, now, CompleteEvent(id, token, c)) && Complete(db, now, id, token, c).Success?
    ensures DbInv(Complete(db, now, id, token, c).value)
  {
    CompleteCases(db, now, id, token, c);
    GoesKeeps(db, now, id, token, c, Complete(db, now, id, token, c));
  }
}
