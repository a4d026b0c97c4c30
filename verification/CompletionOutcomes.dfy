// What a completion leaves behind: the decision and its gate, a hold, or the next run.
module CompletionOutcomes {
  import opened Basics
  import opened ContentScoring
  import opened ReviewEngine
  import opened ReviewTheorems
  import opened ReviewOutcomes
  import opened QueueModel
  import opened QueueInvariant
  import opened WorkflowModel
  import opened WorkflowInvariant
  import opened WorkflowSafety
  import opened WorkflowCompletion
  import opened WorkflowTheorems

  // ------------------------------------------------------------------------
  // What the runs say about compliance

  ghost predicate SomeConfirmed(reviews: seq<ReviewRun>) {
    exists i :: 0 <= i < |reviews| && reviews[i].compliance == Confirmed
  }

  ghost predicate AllClear(reviews: seq<ReviewRun>) {
    forall i :: 0 <= i < |reviews| ==> reviews[i].compliance == Clear
  }

  // Confirmed if some run is, clear only if all are, suspected in between.
  ghost predicate Overall(compliance: Compliance, reviews: seq<ReviewRun>) {
    (compliance == Confirmed <==> SomeConfirmed(reviews)) && (compliance == Clear <==> AllClear(reviews))
  }

  lemma WorstOfAll(reviews: seq<ReviewRun>)
    ensures Overall(WorstCompliance(reviews), reviews)
  {
  }

  // ------------------------------------------------------------------------
  // Adoption

  // The decision is recorded and pointed to, and the appeal that asked for it resolved
  // together with its hold.
  ghost predicate Recorded(flow: Flow, after: Flow, g: Id, id: Id, d: Decision) {
    && g in flow.groups && d.revisionId in flow.revisions
    && after.decisions == flow.decisions[id := d]
    && after.revisions == flow.revisions[d.revisionId := flow.revisions[d.revisionId].(activeDecision := Some(id))]
    && after.runs == flow.runs && after.videos == flow.videos
    && after.appeals.Keys == flow.appeals.Keys
    && (forall a :: a in flow.appeals ==>
          after.appeals[a] == if flow.groups[g].appeal && flow.appeals[a].rerunGroupId == g && flow.appeals[a].resolution == Unresolved
                              then flow.appeals[a].(resolution := Resolved) else flow.appeals[a])
    && (forall h :: h in flow.holds ==>
          && h in after.holds
          && after.holds[h] == if flow.groups[g].appeal && flow.holds[h].holdType == UnderAppeal && flow.holds[h].groupId == Some(g)
                                  && flow.holds[h].resolution == Unresolved
                               then flow.holds[h].(resolution := Resolved) else flow.holds[h])
  }

  predicate Passing(rating: Rating) {
    rating == APlus || rating == A || rating == B || rating == BMinus
  }

  // A clear decision passes or fails the revision's gate, unless something else holds
  // the revision; any other puts the gate, the group and the revision on hold.
  ghost predicate Gated(flow: Flow, after: Flow, g: Id, d: Decision, clear: bool, holdId: Id)
    requires g in flow.groups
  {
    var r := d.revisionId;
    if clear then
      && after.groups == flow.groups[g := flow.groups[g].(status := GroupAdopted)]
      && after.holds.Keys == flow.holds.Keys
      && after.gates == if Blocked(flow, g) then flow.gates
                        else flow.gates[r := if Passing(d.rating) then Approved else RevisionRequired]
    else
      && after.groups == flow.groups[g := flow.groups[g].(status := GroupHeld)]
      && after.gates == flow.gates[r := GateHold] && r !in flow.gates
      && after.holds.Keys == flow.holds.Keys + {holdId}
      && after.holds[holdId] == WorkflowHold(r, Some(g), ComplianceCheck, Unresolved)
  }

  lemma SettledIsRecorded(flow: Flow, g: Id, id: Id, d: Decision)
    requires g in flow.groups && d.revisionId in flow.revisions
    ensures Recorded(flow, Settled(flow, g, id, d), g, id, d)
    ensures Settled(flow, g, id, d).groups == flow.groups[g := flow.groups[g].(status := GroupAdopted)]
    ensures Settled(flow, g, id, d).gates == flow.gates && Settled(flow, g, id, d).holds.Keys == flow.holds.Keys
  {
  }

  lemma GatePassed(flow: Flow, g: Id, d: Decision, holdId: Id)
    requires g in flow.groups && PassGate(flow, g, d, holdId).Success? && holdId !in flow.holds
    ensures var after := PassGate(flow, g, d, holdId).value;
            var blocked := ActiveHolds(flow, d.revisionId) != {} || ActiveAppeals(flow, d.revisionId) != {};
            && after.(groups := flow.groups, gates := flow.gates, holds := flow.holds) == flow
            && (d.compliance == Clear ==>
                  && after.groups == flow.groups && after.holds == flow.holds
                  && after.gates == if blocked then flow.gates
                                    else flow.gates[d.revisionId := if Passing(d.rating) then Approved else RevisionRequired])
            && (d.compliance != Clear ==>
                  && after.groups == flow.groups[g := flow.groups[g].(status := GroupHeld)]
                  && after.gates == flow.gates[d.revisionId := GateHold] && d.revisionId !in flow.gates
                  && after.holds == flow.holds[holdId := WorkflowHold(d.revisionId, Some(g), ComplianceCheck, Unresolved)])
  {
  }

  lemma BlockedAfterSettling(flow: Flow, g: Id, id: Id, d: Decision)
    requires g in flow.groups && d.revisionId == flow.groups[g].revisionId && d.revisionId in flow.revisions
    ensures var settled := Settled(flow, g, id, d);
            Blocked(flow, g) <==> ActiveHolds(settled, d.revisionId) != {} || ActiveAppeals(settled, d.revisionId) != {}
  {
    HoldsAfterSettling(flow, g, id, d);
    AppealsAfterSettling(flow, g, id, d);
    var settled := Settled(flow, g, id, d);
    if Blocked(flow, g) {
      if h :| h in flow.holds && h in ActiveHolds(flow, d.revisionId) && !OwnHold(flow, g, h) {
        assert h in ActiveHolds(settled, d.revisionId);
      } else {
        var a :| a in flow.appeals && a in ActiveAppeals(flow, d.revisionId) && !OwnAppeal(flow, g, a);
        assert a in ActiveAppeals(settled, d.revisionId);
      }
    }
    if ActiveHolds(settled, d.revisionId) != {} { var h :| h in ActiveHolds(settled, d.revisionId); }
    if ActiveAppeals(settled, d.revisionId) != {} { var a :| a in ActiveAppeals(settled, d.revisionId); }
  }

  lemma AdoptedFlow(flow: Flow, g: Id, id: Id, d: Decision, holdId: Id)
    requires g in flow.groups && !flow.groups[g].shadow && d.revisionId == flow.groups[g].revisionId
    requires d.revisionId in flow.revisions && holdId !in flow.holds
    requires AdoptDecision(flow, g, id, d, holdId).Success?
    ensures var after := AdoptDecision(flow, g, id, d, holdId).value;
            Recorded(flow, after, g, id, d) && Gated(flow, after, g, d, d.compliance == Clear, holdId)
  {
    var settled := Settled(flow, g, id, d);
    SettledIsRecorded(flow, g, id, d);
    BlockedAfterSettling(flow, g, id, d);
    GatePassed(settled, g, d, holdId);
    RegroupedTwice(flow.groups, g);
  }

  lemma RegroupedTwice(groups: map<Id, Group>, g: Id)
    requires g in groups
    ensures var once := groups[g := groups[g].(status := GroupAdopted)];
            once[g := once[g].(status := GroupHeld)] == groups[g := groups[g].(status := GroupHeld)]
  {
  }

  lemma FinishKeepsFlow(db: Db, now: Time, id: Id, token: Id)
    requires FinishJob(db, now, id, token, Success').Success?
    ensures FinishJob(db, now, id, token, Success').value.flow == db.flow
  {
    FinishJobIsStep(db, now, id, token, Success');
  }

  // The workflow with the run's answer in, before anything is made of it.
  function WithAnswer(db: Db, id: Id, c: Completion): Db
    requires IsRunJob(db.core, id)
  {
    db.(flow := SetRun(db.flow, KeyOf(db.core.queue.jobs[id]), RunSucceeded(c.output)))
  }

  lemma ConcludedAdoption(db: Db, now: Time, id: Id, token: Id, n: nat, c: Completion, p: ReviewEngine.Progress)
    returns (compliance: Compliance)
    requires Known(db, id, n) && ProgressAt(db, id, n, c.check) == Success(p) && p.Adopt?
    requires c.holdId !in db.flow.holds && !db.flow.groups[KeyOf(db.core.queue.jobs[id]).0].shadow
    requires HasOutputs(db.flow.runs, KeyOf(db.core.queue.jobs[id]).0,
                        SucceededNumbers(db.flow.runs, KeyOf(db.core.queue.jobs[id]).0))
    requires Conclude(db, now, id, token, c).Success?
    ensures var g, after := KeyOf(db.core.queue.jobs[id]).0, Conclude(db, now, id, token, c).value.flow;
            var reviews := ReviewsOfGroup(db.flow.runs, g, n);
            var d := Decision(g, db.flow.groups[g].revisionId, FirstNumbers(n), p.anchors, p.score, p.rating, compliance, p.adoption);
            && Overall(compliance, reviews)
            && Recorded(db.flow, after, g, c.decisionId, d) && Gated(db.flow, after, g, d, AllClear(reviews), c.holdId)
  {
    var g := KeyOf(db.core.queue.jobs[id]).0;
    ConcludeAdopts(db, now, id, token, n, c);
    var d := DecisionFor(db, g, FirstNumbers(n), p);
    var adopted := AdoptDecision(db.flow, g, c.decisionId, d, c.holdId);
    AdoptedFlow(db.flow, g, c.decisionId, d, c.holdId);
    FinishKeepsFlow(db.(flow := adopted.value), now, id, token);
    WorstOfAll(ReviewsOfGroup(db.flow.runs, g, n));
    compliance := d.compliance;
  }

  // A complete formal answer, and what the engine makes of it with the runs before.
  ghost predicate Reviewed(db: Db, now: Time, id: Id, token: Id, c: Completion, p: ReviewEngine.Progress) {
    && DbInv(db) && Acceptable(db, now, CompleteEvent(id, token, c)) && Bound(db, now, id, token)
    && var k := KeyOf(db.core.queue.jobs[id]);
    && !db.flow.groups[k.0].pilot && db.flow.groups[k.0].inputComplete && c.output.complete
    && ProgressOf(ReviewsWith(db.flow, k, c.output), db.flow.groups[k.0].appeal, c.check) == Success(p)
  }

  lemma ReviewedAnswer(db: Db, now: Time, id: Id, token: Id, c: Completion, p: ReviewEngine.Progress)
    requires Reviewed(db, now, id, token, c, p)
    ensures var k, answered := KeyOf(db.core.queue.jobs[id]), WithAnswer(db, id, c);
            Answered(answered, id, k.1) && ReviewsOfGroup(answered.flow.runs, k.0, k.1) == ReviewsWith(db.flow, k, c.output)
  {
    AnsweredState(db, now, id, token, c.output);
    ReviewsAfter(db.flow, KeyOf(db.core.queue.jobs[id]), c.output);
  }

  // The completion comes to the conclusion from the answered state.
  ghost predicate Concludes(db: Db, now: Time, id: Id, token: Id, c: Completion, p: ReviewEngine.Progress) {
    && IsRunJob(db.core, id)
    && var k, answered := KeyOf(db.core.queue.jobs[id]), WithAnswer(db, id, c);
    && Known(answered, id, k.1) && ProgressAt(answered, id, k.1, c.check) == Success(p)
    && HasOutputs(answered.flow.runs, k.0, SucceededNumbers(answered.flow.runs, k.0))
    && Complete(db, now, id, token, c) == Conclude(answered, now, id, token, c)
    && ReviewsOfGroup(answered.flow.runs, k.0, k.1) == ReviewsWith(db.flow, k, c.output)
  }

  // New rows have new identifiers, and the group is not a pilot's.
  predicate Ordinary(db: Db, id: Id, c: Completion) {
    && IsRunJob(db.core, id) && c.nextJobId !in db.core.queue.jobs && c.holdId !in db.flow.holds
    && KeyOf(db.core.queue.jobs[id]).0 in db.flow.groups && !db.flow.groups[KeyOf(db.core.queue.jobs[id]).0].shadow
  }

  lemma ReviewedIsOrdinary(db: Db, now: Time, id: Id, token: Id, c: Completion, p: ReviewEngine.Progress)
    requires Reviewed(db, now, id, token, c, p)
    ensures Ordinary(db, id, c)
  {
  }

  lemma AnsweredConcludes(db: Db, now: Time, id: Id, token: Id, c: Completion, p: ReviewEngine.Progress)
    requires Bound(db, now, id, token)
    requires var group := db.flow.groups[KeyOf(db.core.queue.jobs[id]).0]; !group.pilot && group.inputComplete && c.output.complete
    requires var k, answered := KeyOf(db.core.queue.jobs[id]), WithAnswer(db, id, c);
             && Known(answered, id, k.1) && ProgressAt(answered, id, k.1, c.check) == Success(p)
             && ReviewsOfGroup(answered.flow.runs, k.0, k.1) == ReviewsWith(db.flow, k, c.output)
    ensures Concludes(db, now, id, token, c, p)
  {
    CompleteConcludes(db, now, id, token, c);
  }

  lemma ReviewedIsKnown(db: Db, now: Time, id: Id, token: Id, c: Completion, p: ReviewEngine.Progress)
    requires Reviewed(db, now, id, token, c, p)
    ensures var k, answered := KeyOf(db.core.queue.jobs[id]), WithAnswer(db, id, c);
            && Known(answered, id, k.1) && ProgressAt(answered, id, k.1, c.check) == Success(p)
            && ReviewsOfGroup(answered.flow.runs, k.0, k.1) == ReviewsWith(db.flow, k, c.output)
  {
    ReviewedAnswer(db, now, id, token, c, p);
    AnsweredIsKnown(WithAnswer(db, id, c), id, KeyOf(db.core.queue.jobs[id]).1, c.check, p);
  }

  lemma ReviewedConcludes(db: Db, now: Time, id: Id, token: Id, c: Completion, p: ReviewEngine.Progress)
    requires Reviewed(db, now, id, token, c, p)
    ensures Concludes(db, now, id, token, c, p) && Ordinary(db, id, c)
  {
    ReviewedIsOrdinary(db, now, id, token, c, p);
    ReviewedIsKnown(db, now, id, token, c, p);
    AnsweredConcludes(db, now, id, token, c, p);
  }

  // What an adopted completion leaves.
  ghost predicate AdoptionLeft(db: Db, after: Flow, id: Id, c: Completion, p: ReviewEngine.Progress, compliance: Compliance)
    requires IsRunJob(db.core, id) && KeyOf(db.core.queue.jobs[id]).0 in db.flow.groups && p.Adopt?
  {
    var k := KeyOf(db.core.queue.jobs[id]);
    var flow, reviews := WithAnswer(db, id, c).flow, ReviewsWith(db.flow, k, c.output);
    var d := Decision(k.0, flow.groups[k.0].revisionId, FirstNumbers(k.1), p.anchors, p.score, p.rating, compliance, p.adoption);
    Overall(compliance, reviews) && Recorded(flow, after, k.0, c.decisionId, d) && Gated(flow, after, k.0, d, AllClear(reviews), c.holdId)
  }

  lemma ConcludesAdoption(db: Db, now: Time, id: Id, token: Id, c: Completion, p: ReviewEngine.Progress)
    requires Ordinary(db, id, c)
    requires Concludes(db, now, id, token, c, p) && p.Adopt? && Complete(db, now, id, token, c).Success?
    ensures exists compliance :: AdoptionLeft(db, Complete(db, now, id, token, c).value.flow, id, c, p, compliance)
  {
    var k, answered := KeyOf(db.core.queue.jobs[id]), WithAnswer(db, id, c);
    var compliance := ConcludedAdoption(answered, now, id, token, k.1, c, p);
    assert AdoptionLeft(db, Complete(db, now, id, token, c).value.flow, id, c, p, compliance);
  }

  // A formal completion that is adopted records the engine's verdict with the overall
  // compliance of all source runs, the new one included. Its gate is approved or sent
  // back only if all are clear, and on hold otherwise.
  lemma AdoptionOutcome(db: Db, now: Time, id: Id, token: Id, c: Completion, p: ReviewEngine.Progress)
    requires Reviewed(db, now, id, token, c, p) && p.Adopt? && Complete(db, now, id, token, c).Success?
    ensures exists compliance :: AdoptionLeft(db, Complete(db, now, id, token, c).value.flow, id, c, p, compliance)
  {
    ReviewedConcludes(db, now, id, token, c, p);
    ConcludesAdoption(db, now, id, token, c, p);
  }

  // In every state a run of the system reaches, every decision is backed by its runs.
  lemma EveryDecisionIsBacked(db: Db, events: seq<TimedEvent>, d: Id)
    requires DbInv(db)
    ensures var flow := Unfold(db, events).flow;
            d in flow.decisions ==>
              var decision := flow.decisions[d];
              && decision.groupId in flow.groups
              && AllUsable(flow.runs, decision.groupId, |decision.sourceRuns|)
              && Backed(decision, ReviewsOfGroup(flow.runs, decision.groupId, |decision.sourceRuns|),
                        flow.groups[decision.groupId].appeal)
  {
    UnfoldInv(db, events);
    if d in Unfold(db, events).flow.decisions { DecisionsAreBacked(Unfold(db, events).flow, d); }
  }

  // ------------------------------------------------------------------------
  // Pilots, incomplete answers, holds, and the next run

  lemma AnswerWeighed(db: Db, now: Time, id: Id, token: Id, c: Completion)
    requires Bound(db, now, id, token)
    ensures var g := KeyOf(db.core.queue.jobs[id]).0;
            && g in db.flow.groups && db.flow.groups[g].revisionId in db.flow.revisions
            && Complete(db, now, id, token, c) == Weigh(WithAnswer(db, id, c), now, id, token, g, c)
  {
    BoundIsNotStale(db, now, id, token, c);
  }

  // A pilot is completed or incomplete, and nothing is decided or held.
  lemma PilotOutcome(db: Db, now: Time, id: Id, token: Id, c: Completion)
    requires Inv(db.core) && Bound(db, now, id, token) && db.flow.groups[KeyOf(db.core.queue.jobs[id]).0].pilot
    ensures Complete(db, now, id, token, c).Success?
    ensures var k := KeyOf(db.core.queue.jobs[id]);
            var group := db.flow.groups[k.0];
            Complete(db, now, id, token, c).value.flow
            == db.flow.(runs := db.flow.runs[k := RunSucceeded(c.output)],
                        groups := db.flow.groups[k.0 := group.(
                          status := if group.inputComplete && c.output.complete then PilotCompleted else PilotIncomplete)])
  {
    AnswerWeighed(db, now, id, token, c);
    var g := KeyOf(db.core.queue.jobs[id]).0;
    var complete := db.flow.groups[g].inputComplete && c.output.complete;
    var flow := SetGroup(WithAnswer(db, id, c).flow, g, if complete then PilotCompleted else PilotIncomplete);
    LeaseHolderFinishes(db, now, id, token, flow);
    FinishKeepsFlow(db.(flow := flow), now, id, token);
  }

  ghost predicate OnHold(flow: Flow, r: Id, t: HoldType) {
    exists h :: h in flow.holds && flow.holds[h].revisionId == r && flow.holds[h].holdType == t && flow.holds[h].resolution == Unresolved
  }

  // The workflow with the group held.
  function Holding(flow: Flow, g: Id, holdId: Id, t: HoldType): Flow
    requires g in flow.groups
  {
    flow.(holds := flow.holds[holdId := WorkflowHold(flow.groups[g].revisionId, Some(g), t, Unresolved)],
          groups := flow.groups[g := flow.groups[g].(status := GroupHeld)])
  }

  lemma HoldRunOutcome(db: Db, now: Time, id: Id, token: Id, g: Id, holdId: Id, t: HoldType)
    requires Inv(db.core) && LeaseLive(db.core.queue, now, id, token) && g in db.flow.groups
    ensures var held := HoldRun(db, now, id, token, g, holdId, t);
            && (held.Success? <==> !OnHold(db.flow, db.flow.groups[g].revisionId, t))
            && (held.Failure? ==> held == Failure(FlowConstraint))
            && (held.Success? ==> held.value.flow == Holding(db.flow, g, holdId, t))
  {
    LeaseHolderFinishes(db, now, id, token, Holding(db.flow, g, holdId, t));
    HoldRunRows(db, now, id, token, g, holdId, t);
  }

  lemma HoldRunRows(db: Db, now: Time, id: Id, token: Id, g: Id, holdId: Id, t: HoldType)
    requires g in db.flow.groups && FinishJob(db.(flow := Holding(db.flow, g, holdId, t)), now, id, token, Success').Success?
    ensures var held := HoldRun(db, now, id, token, g, holdId, t);
            && (held.Success? <==> !OnHold(db.flow, db.flow.groups[g].revisionId, t))
            && (held.Failure? ==> held == Failure(FlowConstraint))
            && (held.Success? ==> held.value.flow == Holding(db.flow, g, holdId, t))
  {
    FinishKeepsFlow(db.(flow := Holding(db.flow, g, holdId, t)), now, id, token);
  }

  // An incomplete formal answer puts the revision on hold for its input, unless it is
  // on that hold already.
  lemma IncompleteOutcome(db: Db, now: Time, id: Id, token: Id, c: Completion)
    requires Inv(db.core) && Bound(db, now, id, token)
    requires var group := db.flow.groups[KeyOf(db.core.queue.jobs[id]).0];
             !group.pilot && !(group.inputComplete && c.output.complete)
    ensures var g := KeyOf(db.core.queue.jobs[id]).0;
            var completed := Complete(db, now, id, token, c);
            && g in db.flow.groups
            && (completed.Success? <==> !OnHold(db.flow, db.flow.groups[g].revisionId, InputIncomplete))
            && (completed.Failure? ==> completed == Failure(FlowConstraint))
            && (completed.Success? ==> completed.value.flow == Holding(WithAnswer(db, id, c).flow, g, c.holdId, InputIncomplete))
  {
    AnswerWeighed(db, now, id, token, c);
    HoldRunOutcome(WithAnswer(db, id, c), now, id, token, KeyOf(db.core.queue.jobs[id]).0, c.holdId, InputIncomplete);
  }

  lemma ConcludedHold(db: Db, now: Time, id: Id, token: Id, n: nat, c: Completion, p: ReviewEngine.Progress)
    requires Inv(db.core) && LeaseLive(db.core.queue, now, id, token)
    requires Known(db, id, n) && ProgressAt(db, id, n, c.check) == Success(p) && p.Hold?
    requires HasOutputs(db.flow.runs, KeyOf(db.core.queue.jobs[id]).0,
                        SucceededNumbers(db.flow.runs, KeyOf(db.core.queue.jobs[id]).0))
    ensures var g := KeyOf(db.core.queue.jobs[id]).0;
            Conclude(db, now, id, token, c) == HoldRun(db, now, id, token, g, c.holdId, EvaluationInstability)
  {
    ConcludeHolds(db, now, id, token, n, c);
  }

  // Runs that the engine cannot reconcile put the revision on hold for instability,
  // unless it is on that hold already.
  lemma HoldOutcome(db: Db, now: Time, id: Id, token: Id, c: Completion, p: ReviewEngine.Progress)
    requires Reviewed(db, now, id, token, c, p) && p.Hold?
    ensures var g := KeyOf(db.core.queue.jobs[id]).0;
            var completed := Complete(db, now, id, token, c);
            && (completed.Success? <==> !OnHold(db.flow, db.flow.groups[g].revisionId, EvaluationInstability))
            && (completed.Failure? ==> completed == Failure(FlowConstraint))
            && (completed.Success? ==> completed.value.flow == Holding(WithAnswer(db, id, c).flow, g, c.holdId, EvaluationInstability))
  {
    ReviewedConcludes(db, now, id, token, c, p);
    ConcludesHold(db, now, id, token, c, p);
  }

  lemma ConcludesHold(db: Db, now: Time, id: Id, token: Id, c: Completion, p: ReviewEngine.Progress)
    requires Concludes(db, now, id, token, c, p) && p.Hold? && Inv(db.core) && LeaseLive(db.core.queue, now, id, token)
    ensures var g := KeyOf(db.core.queue.jobs[id]).0;
            var completed := Complete(db, now, id, token, c);
            && g in db.flow.groups
            && (completed.Success? <==> !OnHold(db.flow, db.flow.groups[g].revisionId, EvaluationInstability))
            && (completed.Failure? ==> completed == Failure(FlowConstraint))
            && (completed.Success? ==> completed.value.flow == Holding(WithAnswer(db, id, c).flow, g, c.holdId, EvaluationInstability))
  {
    var k := KeyOf(db.core.queue.jobs[id]);
    ConcludedHold(WithAnswer(db, id, c), now, id, token, k.1, c, p);
    HoldRunOutcome(WithAnswer(db, id, c), now, id, token, k.0, c.holdId, EvaluationInstability);
  }

  // The next run of the group is pending, with a job of its own for the same account.
  ghost predicate RunFollows(flow: Flow, after: Db, k: RunKey, jobId: Id, actorId: Id) {
    && k.0 in flow.groups
    && after.flow == flow.(runs := flow.runs[k := RunPending],
                           groups := flow.groups[k.0 := flow.groups[k.0].(status := ReviewRequired)])
    && jobId in after.core.queue.jobs
    && var j := after.core.queue.jobs[jobId];
    && j.stage == V11Content && j.target == Run(k.0, k.1) && j.actorId == actorId && j.status == Queued && j.maxAttempts == 2
    && j.videoId == flow.groups[k.0].videoId && j.revisionId == flow.groups[k.0].revisionId
  }

  lemma ContinueOutcome(db: Db, now: Time, id: Id, token: Id, k: RunKey, actorId: Id, nextJobId: Id)
    requires k.0 in db.flow.groups && nextJobId !in db.core.queue.jobs
    requires ContinueRun(db, now, id, token, k, actorId, nextJobId).Success?
    ensures RunFollows(db.flow, ContinueRun(db, now, id, token, k, actorId, nextJobId).value, k, nextJobId, actorId)
  {
    ContinueCases(db, now, id, token, k, actorId, nextJobId);
    var next := db.(flow := SetRun(db.flow, k, RunPending));
    FinishJobIsStep(next, now, id, token, Success');
    EnqueueRunIsStep(FinishJob(next, now, id, token, Success').value, now, nextJobId, actorId, k, 2);
  }

  lemma ConcludedReview(db: Db, now: Time, id: Id, token: Id, n: nat, c: Completion, p: ReviewEngine.Progress)
    requires Known(db, id, n) && ProgressAt(db, id, n, c.check) == Success(p) && (p.SecondReview? || p.ThirdReview?)
    requires HasOutputs(db.flow.runs, KeyOf(db.core.queue.jobs[id]).0,
                        SucceededNumbers(db.flow.runs, KeyOf(db.core.queue.jobs[id]).0))
    requires c.nextJobId !in db.core.queue.jobs && Conclude(db, now, id, token, c).Success?
    ensures RunFollows(db.flow, Conclude(db, now, id, token, c).value, (KeyOf(db.core.queue.jobs[id]).0, n + 1), c.nextJobId,
                       db.core.queue.jobs[id].actorId)
  {
    ConcludeIsContinue(db, now, id, token, n, c);
    ContinueOutcome(db, now, id, token, (KeyOf(db.core.queue.jobs[id]).0, n + 1), db.core.queue.jobs[id].actorId, c.nextJobId);
  }

  // When the engine wants another review, the run with the next number follows.
  lemma NextReviewOutcome(db: Db, now: Time, id: Id, token: Id, c: Completion, p: ReviewEngine.Progress)
    requires Reviewed(db, now, id, token, c, p) && (p.SecondReview? || p.ThirdReview?)
    requires Complete(db, now, id, token, c).Success?
    ensures var k := KeyOf(db.core.queue.jobs[id]);
            RunFollows(WithAnswer(db, id, c).flow, Complete(db, now, id, token, c).value, (k.0, k.1 + 1), c.nextJobId,
                       db.core.queue.jobs[id].actorId)
  {
    ReviewedConcludes(db, now, id, token, c, p);
    ConcludesReview(db, now, id, token, c, p);
  }

  lemma ConcludesReview(db: Db, now: Time, id: Id, token: Id, c: Completion, p: ReviewEngine.Progress)
    requires Ordinary(db, id, c)
    requires Concludes(db, now, id, token, c, p) && (p.SecondReview? || p.ThirdReview?)
    requires Complete(db, now, id, token, c).Success?
    ensures var k := KeyOf(db.core.queue.jobs[id]);
            RunFollows(WithAnswer(db, id, c).flow, Complete(db, now, id, token, c).value, (k.0, k.1 + 1), c.nextJobId,
                       db.core.queue.jobs[id].actorId)
  {
    ConcludedReview(WithAnswer(db, id, c), now, id, token, KeyOf(db.core.queue.jobs[id]).1, c, p);
  }

  // ------------------------------------------------------------------------
  // What the engine is asked

  // Every score from just below to twenty tenths above rates the same.
  ghost predicate SafeScore(score: int) {
    forall other :: 0 <= other <= 1000 && score - 21 <= other <= score + 20 ==>
      ContentRatingFromScore(other) == ContentRatingFromScore(score)
  }

  lemma NoBoundaryNear(score: int)
    requires 0 <= score <= 1000
    ensures SafeScore(score) <==> forall i :: 0 <= i < |BOUNDARIES| ==> Abs(score - BOUNDARIES[i]) > 20
  {
    assert BOUNDARIES[0] == 600 && BOUNDARIES[1] == 680 && BOUNDARIES[2] == 740 && BOUNDARIES[3] == 820 && BOUNDARIES[4] == 900;
    forall i | 0 <= i < |BOUNDARIES| && Abs(score - BOUNDARIES[i]) <= 20
      ensures !SafeScore(score) {
      var b := BOUNDARIES[i];
      assert ContentRatingFromScore(b) != ContentRatingFromScore(b - 1);
      assert score - 21 <= b - 1 && b <= score + 20;
    }
  }

  // The file and the run disagree about sound.
  ghost predicate SoundContradicted(run: ReviewRun, hasAudio: Option<bool>) {
    || (hasAudio == Some(true) && FirstState(run.claims, SubtitleAudio, "audio_present") == Some(Absent))
    || (hasAudio == Some(false) && FirstState(run.claims, SubtitleAudio, "audio_present") == Some(Present))
  }

  // A single run is trusted exactly when pilots are enough, it is no appeal, no sample,
  // not of the best rating, at odds neither with itself nor with the file nor with the
  // last comparable score, and its score is safe on both sides.
  lemma SingleRunOutcome(run: ReviewRun, appeal: bool, check: FirstCheck)
    requires 0 <= run.score <= 1000
    ensures var trusted :=
              && check.eligiblePilotCount >= 50 && !appeal && check.bucket != 0 && run.rating != APlus
              && !HardOpposed([run]) && !SoundContradicted(run, check.hasAudio) && SafeScore(run.score)
              && (check.historicalScore.Some? ==>
                    run.score <= check.historicalScore.value + 50 && check.historicalScore.value <= run.score + 50);
            ProgressOf([run], appeal, check)
            == if trusted then Success(Adopt(SingleAfterPilot, run.anchors, run.score, run.rating)) else Success(SecondReview)
  {
    ConflictsAgree([run]);
    NoBoundaryNear(run.score);
  }

  lemma FurtherRunsAskTheEngine(reviews: seq<ReviewRun>, appeal: bool, check: FirstCheck)
    requires |reviews| != 1
    ensures ProgressOf(reviews, appeal, check) == Decide(reviews)
  {
  }

  // The first claim of a kind is the one that is read.
  lemma {:induction false} FirstStateIsFirst(claims: seq<Claim>, d: Dimension, key: string, s: ClaimState)
    ensures FirstState(claims, d, key) == Some(s) <==>
              exists i :: 0 <= i < |claims| && claims[i] == Claim(d, key, s)
                && forall j :: 0 <= j < i ==> !(claims[j].dimension == d && claims[j].key == key)
  {
    if claims != [] {
      FirstStateIsFirst(claims[1..], d, key, s);
      if claims[0].dimension == d && claims[0].key == key {
        if FirstState(claims, d, key) == Some(s) { assert claims[0] == Claim(d, key, s); }
      } else {
        if i :| 0 <= i < |claims[1..]| && claims[1..][i] == Claim(d, key, s)
                && forall j :: 0 <= j < i ==> !(claims[1..][j].dimension == d && claims[1..][j].key == key) {
          assert claims[i + 1] == Claim(d, key, s);
          assert forall j :: 0 < j < i + 1 ==> claims[j] == claims[1..][j - 1];
        }
        if i :| 0 <= i < |claims| && claims[i] == Claim(d, key, s)
                && forall j :: 0 <= j < i ==> !(claims[j].dimension == d && claims[j].key == key) {
          assert claims[1..][i - 1] == Claim(d, key, s);
          assert forall j :: 0 <= j < i - 1 ==> claims[1..][j] == claims[j + 1];
        }
      }
    }
  }
}
