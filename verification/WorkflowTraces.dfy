// To the queue, every event of the workflow is a few of its own transactions.
module WorkflowTraces {
  import opened Basics
  import opened ReviewTheorems
  import opened QueueModel
  import opened QueueRuns
  import opened WorkflowModel
  import opened WorkflowInvariant
  import opened WorkflowSafety
  import opened WorkflowEvents
  import opened WorkflowCompletion

  lemma OneStep(c: Core, s: Timed)
    ensures Execute(c, [s]) == Step(c, s.now, s.op)
  {
    assert [s][1..] == [];
  }

  ghost predicate AllAt(now: Time, steps: seq<Timed>) {
    forall i :: 0 <= i < |steps| ==> steps[i].now == now
  }

  lemma FinishSteps(db: Db, now: Time, id: Id, token: Id, outcome: Outcome) returns (steps: seq<Timed>)
    requires FinishJob(db, now, id, token, outcome).Success?
    ensures AllAt(now, steps) && Execute(db.core, steps) == FinishJob(db, now, id, token, outcome).value.core
  {
    steps := [Timed(now, OpFinish(id, token, outcome))];
    FinishJobIsStep(db, now, id, token, outcome);
    OneStep(db.core, steps[0]);
  }

  lemma EnqueueSteps(db: Db, now: Time, jobId: Id, actorId: Id, k: RunKey, maxAttempts: nat) returns (steps: seq<Timed>)
    requires k.0 in db.flow.groups && jobId !in db.core.queue.jobs
    requires EnqueueRun(db, now, jobId, actorId, k, maxAttempts).Success?
    ensures AllAt(now, steps) && Execute(db.core, steps) == EnqueueRun(db, now, jobId, actorId, k, maxAttempts).value.core
  {
    var op := OpEnqueue(jobId, RunJob(db.flow, actorId, k, maxAttempts), None,
                        TargetLive(db.flow, db.flow.groups[k.0].videoId, k));
    steps := [Timed(now, op)];
    EnqueueRunIsStep(db, now, jobId, actorId, k, maxAttempts);
    OneStep(db.core, steps[0]);
  }

  lemma {:induction false} ExecuteBoth(c: Core, first: seq<Timed>, second: seq<Timed>)
    ensures Execute(c, first + second) == Execute(Execute(c, first), second)
    decreases |first|
  {
    if first == [] {
      assert first + second == second;
    } else {
      assert (first + second)[1..] == first[1..] + second;
      ExecuteBoth(Step(c, first[0].now, first[0].op), first[1..], second);
    }
  }

  lemma ContinueSteps(db: Db, now: Time, id: Id, token: Id, k: RunKey, jobId: Id, actorId: Id) returns (steps: seq<Timed>)
    requires FinishJob(db, now, id, token, Success').Success?
    requires var finished := FinishJob(db, now, id, token, Success').value;
             && k.0 in finished.flow.groups && jobId !in finished.core.queue.jobs
             && EnqueueRun(finished, now, jobId, actorId, k, 2).Success?
    ensures var finished := FinishJob(db, now, id, token, Success').value;
            AllAt(now, steps) && Execute(db.core, steps) == EnqueueRun(finished, now, jobId, actorId, k, 2).value.core
  {
    var finished := FinishJob(db, now, id, token, Success').value;
    var finish := FinishSteps(db, now, id, token, Success');
    var enqueue := EnqueueSteps(finished, now, jobId, actorId, k, 2);
    ExecuteBoth(db.core, finish, enqueue);
    steps := finish + enqueue;
  }

  // Concluding finishes the job and may queue the next run's.
  lemma ConcludeSteps(db: Db, now: Time, id: Id, token: Id, n: nat, c: Completion) returns (steps: seq<Timed>)
    requires Known(db, id, n) && ProgressAt(db, id, n, c.check).Success? && c.nextJobId !in db.core.queue.jobs
    requires NoRunAfter(db.flow.runs, KeyOf(db.core.queue.jobs[id]).0, n)
    ensures HasOutputs(db.flow.runs, KeyOf(db.core.queue.jobs[id]).0,
                       SucceededNumbers(db.flow.runs, KeyOf(db.core.queue.jobs[id]).0))
    ensures Conclude(db, now, id, token, c).Success? ==>
              AllAt(now, steps) && Execute(db.core, steps) == Conclude(db, now, id, token, c).value.core
  {
    var g := KeyOf(db.core.queue.jobs[id]).0;
    var p := ProgressAt(db, id, n, c.check).value;
    steps := [];
    if p.Adopt? {
      ConcludeAdopts(db, now, id, token, n, c);
      var d := DecisionFor(db, g, FirstNumbers(n), p);
      if Conclude(db, now, id, token, c).Success? {
        steps := FinishSteps(db.(flow := AdoptDecision(db.flow, g, c.decisionId, d, c.holdId).value), now, id, token, Success');
      }
    } else if p.Hold? {
      ConcludeHolds(db, now, id, token, n, c);
      var held := AddHold(db.flow, c.holdId, db.flow.groups[g].revisionId, Some(g), EvaluationInstability);
      if Conclude(db, now, id, token, c).Success? {
        steps := FinishSteps(db.(flow := SetGroup(held.value, g, GroupHeld)), now, id, token, Success');
      }
    } else {
      ConcludeContinues(db, now, id, token, n, c);
      if Conclude(db, now, id, token, c).Success? {
        var next := db.(flow := SetRun(db.flow, (g, n + 1), RunPending));
        FinishJobIsStep(next, now, id, token, Success');
        steps := ContinueSteps(next, now, id, token, (g, n + 1), c.nextJobId, db.core.queue.jobs[id].actorId);
      }
    }
  }

  lemma GoesSteps(db: Db, now: Time, id: Id, token: Id, c: Completion, result: Result<Db, FlowError>) returns (steps: seq<Timed>)
    requires DbInv(db) && Bound(db, now, id, token) && (c.output.complete ==> Scored(c.output.review))
    requires c.nextJobId !in db.core.queue.jobs
    requires var k := KeyOf(db.core.queue.jobs[id]);
             Goes(db, now, id, token, c, k, SetRun(db.flow, k, RunSucceeded(c.output)), result) && result.Success?
    ensures AllAt(now, steps) && Execute(db.core, steps) == result.value.core
  {
    var k := KeyOf(db.core.queue.jobs[id]);
    var group := db.flow.groups[k.0];
    var complete := group.inputComplete && c.output.complete;
    var flow := SetRun(db.flow, k, RunSucceeded(c.output));
    if group.pilot {
      steps := FinishSteps(db.(flow := SetGroup(flow, k.0, if complete then PilotCompleted else PilotIncomplete)),
                           now, id, token, Success');
    } else if !complete {
      var held := AddHold(flow, c.holdId, group.revisionId, Some(k.0), InputIncomplete).value;
      steps := FinishSteps(db.(flow := SetGroup(held, k.0, GroupHeld)), now, id, token, Success');
    } else {
      AnsweredState(db, now, id, token, c.output);
      AnswerIsKnown(db.(flow := flow), id, k.1, c.check);
      NothingBeyond(db.(flow := flow), id, k.1);
      steps := ConcludeSteps(db.(flow := flow), now, id, token, k.1, c);
    }
  }

  lemma CompleteSteps(db: Db, now: Time, id: Id, token: Id, c: Completion) returns (steps: seq<Timed>)
    requires DbInv(db) && Acceptable(db, now, CompleteEvent(id, token, c)) && Complete(db, now, id, token, c).Success?
    ensures AllAt(now, steps) && Execute(db.core, steps) == Complete(db, now, id, token, c).value.core
  {
    CompleteCases(db, now, id, token, c);
    steps := GoesSteps(db, now, id, token, c, Complete(db, now, id, token, c));
  }

  lemma TriggerSteps(db: Db, now: Time, t: TriggerInput) returns (steps: seq<Timed>)
    requires Acceptable(db, now, TriggerEvent(t)) && Trigger(db, now, t).Success?
    ensures AllAt(now, steps) && Execute(db.core, steps) == Trigger(db, now, t).value.core
  {
    TriggerCases(db, now, t);
    var (flow, r) := WorkflowFor(db.flow, t.videoId, t.pilot, t.revisionId).value;
    steps := [];
    if Trigger(db, now, t) != Success(db.(flow := flow)) {
      var grown := db.(flow := OpenGroup(flow, t.groupId, NewGroup(t, db.flow.videos[t.videoId].creatorId, r)));
      steps := EnqueueSteps(grown, now, t.jobId, t.actorId, (t.groupId, 1), if t.pilot then 1 else 2);
    }
  }

  lemma {:induction false} SameTimeIsClocked(from: Time, now: Time, steps: seq<Timed>)
    requires from <= now && AllAt(now, steps)
    ensures Clocked(from, steps) && from <= EndTime(from, steps) <= now
    decreases |steps|
  {
    if steps != [] {
      assert forall i :: 0 <= i < |steps[1..]| ==> steps[1..][i] == steps[i + 1];
      SameTimeIsClocked(now, now, steps[1..]);
    }
  }

  lemma {:induction false} ClockedBoth(from: Time, first: seq<Timed>, second: seq<Timed>)
    requires Clocked(from, first) && Clocked(EndTime(from, first), second)
    ensures Clocked(from, first + second) && EndTime(from, first + second) == EndTime(EndTime(from, first), second)
    decreases |first|
  {
    if first == [] {
      assert first + second == second;
    } else {
      assert (first + second)[1..] == first[1..] + second;
      ClockedBoth(first[0].now, first[1..], second);
    }
  }

  lemma {:induction false} LaterClock(from: Time, later: Time, steps: seq<Timed>)
    requires from <= later && Clocked(later, steps)
    ensures Clocked(from, steps) && (steps != [] ==> EndTime(from, steps) == EndTime(later, steps))
  {
  }
}
