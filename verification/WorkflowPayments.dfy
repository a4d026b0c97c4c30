// What a decision costs: every run that has succeeded was paid for once, by a job of
// its own, in every state a run of the whole system reaches.
module WorkflowPayments {
  import opened Basics
  import opened QuotaModel
  import opened QueueModel
  import opened QueueInvariant
  import opened QueueRuns
  import opened WorkflowModel
  import opened WorkflowInvariant
  import opened WorkflowSafety
  import opened WorkflowEvents
  import opened WorkflowClosing
  import opened WorkflowTraces
  import opened WorkflowTheorems

  predicate JobFor(jobs: map<Id, Job>, id: Id, k: RunKey) {
    id in jobs && jobs[id].stage == V11Content && jobs[id].target == Run(k.0, k.1)
  }

  // The job has succeeded for the run, and is one that the account pays for.
  predicate PaidBy(jobs: map<Id, Job>, id: Id, k: RunKey) {
    && JobFor(jobs, id, k)
    && jobs[id].status == Succeeded && jobs[id].failureCode.None?
  }

  ghost predicate HasPayment(jobs: map<Id, Job>, k: RunKey) {
    exists id :: PaidBy(jobs, id, k)
  }

  ghost predicate PaidOk(jobs: map<Id, Job>, runs: map<RunKey, RunState>) {
    forall k :: k in runs && runs[k].RunSucceeded? ==> HasPayment(jobs, k)
  }

  // ------------------------------------------------------------------------
  // Only a completion makes a run succeed

  lemma StaleSucceedsNothing(flow: Flow, r: Id)
    ensures NoNewSuccess(flow.runs, StaleRuns(flow, r))
  {
  }

  lemma WorkflowForSucceedsNothing(flow: Flow, videoId: Id, shadow: bool, newId: Id)
    requires WorkflowFor(flow, videoId, shadow, newId).Success?
    ensures NoNewSuccess(flow.runs, WorkflowFor(flow, videoId, shadow, newId).value.0.runs)
  {
    match CurrentOf(flow.revisions, videoId)
    case None =>
    case Some(r) => StaleSucceedsNothing(flow, r);
  }

  lemma TriggerSucceedsNothing(db: Db, now: Time, t: TriggerInput)
    requires Acceptable(db, now, TriggerEvent(t)) && Trigger(db, now, t).Success?
    ensures NoNewSuccess(db.flow.runs, Trigger(db, now, t).value.flow.runs)
  {
    TriggerCases(db, now, t);
    WorkflowForSucceedsNothing(db.flow, t.videoId, t.pilot, t.revisionId);
    var (flow, r) := WorkflowFor(db.flow, t.videoId, t.pilot, t.revisionId).value;
    var withGroup := db.(flow := OpenGroup(flow, t.groupId, NewGroup(t, db.flow.videos[t.videoId].creatorId, r)));
    if Trigger(db, now, t) != Success(db.(flow := flow)) {
      EnqueueRunIsStep(withGroup, now, t.jobId, t.actorId, (t.groupId, 1), if t.pilot then 1 else 2);
    }
  }

  lemma AppealSucceedsNothing(db: Db, now: Time, a: AppealInput)
    requires Acceptable(db, now, AppealEvent(a)) && SubmitAppeal(db, now, a).Success?
    ensures NoNewSuccess(db.flow.runs, SubmitAppeal(db, now, a).value.flow.runs)
  {
    AppealJob(db, now, a);
    StaleSucceedsNothing(db.flow, db.flow.decisions[a.decisionId].revisionId);
  }

  lemma RecoverSucceedsNothing(db: Db, now: Time, id: Id, videoLocked: bool)
    requires Recover(db, now, id, videoLocked).Success?
    ensures NoNewSuccess(db.flow.runs, Recover(db, now, id, videoLocked).value.flow.runs)
  {
  }

  lemma BeginSucceedsNothing(db: Db, now: Time, id: Id, token: Id)
    requires Begin(db, now, id, token).Success?
    ensures NoNewSuccess(db.flow.runs, Begin(db, now, id, token).value.flow.runs)
  {
    BeginRows(db, now, id, token);
  }

  lemma AppealEventSucceedsNothing(db: Db, now: Time, e: Event)
    requires Acceptable(db, now, e) && !OnRuns(e) && ResultOf(db, now, e).Success?
    ensures NoNewSuccess(db.flow.runs, ResultOf(db, now, e).value.flow.runs)
  {
    match e
    case AppealEvent(a) => AppealSucceedsNothing(db, now, a);
    case HoldEvent(videoId, visible, holdId) => HoldRows(db.flow, videoId, visible, holdId);
    case ResumeEvent(videoId, visible) => ResumeRows(db.flow, videoId, visible);
    case ResolveEvent(videoId, appealId, rejected) => ResolveRows(db.flow, videoId, appealId, rejected);
    case VideoEvent(_, _) =>
  }

  lemma RunEventSucceedsNothing(db: Db, now: Time, e: Event)
    requires Acceptable(db, now, e) && OnRuns(e) && !e.CompleteEvent? && ResultOf(db, now, e).Success?
    ensures NoNewSuccess(db.flow.runs, ResultOf(db, now, e).value.flow.runs)
  {
    match e
    case CoreEvent(_) =>
    case TriggerEvent(t) => TriggerSucceedsNothing(db, now, t);
    case BeginEvent(id, token) => BeginSucceedsNothing(db, now, id, token);
    case FailEvent(id, token) => FailCloses(db, now, id, token);
    case RecoverEvent(id, videoLocked) => RecoverSucceedsNothing(db, now, id, videoLocked);
  }

  // ------------------------------------------------------------------------
  // A payment stays

  lemma TracedKeepsClosed(before: Core, now: Time, after: Core, id: Id)
    requires Traced(before, now, after) && id in before.queue.jobs && !Active(before.queue.jobs[id])
    ensures id in after.queue.jobs && after.queue.jobs[id] == before.queue.jobs[id]
  {
    var steps :| AllAt(now, steps) && Execute(before, steps) == after;
    ClosedForEver(before, steps, id);
  }

  lemma PaymentStays(before: Core, now: Time, after: Core, k: RunKey)
    requires Traced(before, now, after) && HasPayment(before.queue.jobs, k)
    ensures HasPayment(after.queue.jobs, k)
  {
    var id: Id :| PaidBy(before.queue.jobs, id, k);
    TracedKeepsClosed(before, now, after, id);
    assert PaidBy(after.queue.jobs, id, k);
  }

  lemma NothingToPay(before: Core, now: Time, after: Core, runs: map<RunKey, RunState>, runs': map<RunKey, RunState>)
    requires Traced(before, now, after) && PaidOk(before.queue.jobs, runs) && NoNewSuccess(runs, runs')
    ensures PaidOk(after.queue.jobs, runs')
  {
    forall k | k in runs' && runs'[k].RunSucceeded? ensures HasPayment(after.queue.jobs, k) {
      PaymentStays(before, now, after, k);
    }
  }

  lemma CompletionPays(db: Db, now: Time, id: Id, token: Id, c: Completion)
    requires c.nextJobId !in db.core.queue.jobs && Complete(db, now, id, token, c).Success?
    requires PaidOk(db.core.queue.jobs, db.flow.runs) && Traced(db.core, now, Complete(db, now, id, token, c).value.core)
    ensures PaidOk(Complete(db, now, id, token, c).value.core.queue.jobs, Complete(db, now, id, token, c).value.flow.runs)
  {
    CompleteCloses(db, now, id, token, c);
    var own := KeyOf(db.core.queue.jobs[id]);
    var after := Complete(db, now, id, token, c).value;
    assert PaidBy(after.core.queue.jobs, id, own);
    forall k | k in after.flow.runs && after.flow.runs[k].RunSucceeded? ensures HasPayment(after.core.queue.jobs, k) {
      if k != own { PaymentStays(db.core, now, after.core, k); }
    }
  }

  // ------------------------------------------------------------------------
  // Every event, every run

  lemma SoundIsTraced(db: Db, now: Time, e: Event)
    requires DbInv(db)
    ensures Traced(db.core, now, Happen(db, now, e).core) && DbInv(Happen(db, now, e))
  {
    EventIsSound(db, now, e);
  }

  lemma EventPays(db: Db, now: Time, e: Event)
    requires PaidOk(db.core.queue.jobs, db.flow.runs) && Traced(db.core, now, Happen(db, now, e).core)
    ensures PaidOk(Happen(db, now, e).core.queue.jobs, Happen(db, now, e).flow.runs)
  {
    if Acceptable(db, now, e) && ResultOf(db, now, e).Success? {
      if e.CompleteEvent? {
        CompletionPays(db, now, e.id, e.token, e.completion);
      } else {
        if OnRuns(e) { RunEventSucceedsNothing(db, now, e); } else { AppealEventSucceedsNothing(db, now, e); }
        NothingToPay(db.core, now, Happen(db, now, e).core, db.flow.runs, Happen(db, now, e).flow.runs);
      }
    }
  }

  lemma {:induction false} UnfoldPays(db: Db, events: seq<TimedEvent>)
    requires DbInv(db) && PaidOk(db.core.queue.jobs, db.flow.runs)
    ensures DbInv(Unfold(db, events))
    ensures PaidOk(Unfold(db, events).core.queue.jobs, Unfold(db, events).flow.runs)
    decreases |events|
  {
    if events != [] {
      SoundIsTraced(db, events[0].now, events[0].event);
      EventPays(db, events[0].now, events[0].event);
      UnfoldPays(Happen(db, events[0].now, events[0].event), events[1..]);
    }
  }

  // Exactly one job was queued for the run, and its account was charged one evaluation.
  ghost predicate ChargedOnce(db: Db, k: RunKey) {
    exists id ::
      && PaidBy(db.core.queue.jobs, id, k)
      && (forall other :: JobFor(db.core.queue.jobs, other, k) ==> other == id)
      && var key := EntryKey(db.core.queue.jobs[id], id);
      && key in db.core.quota.ledger
      && db.core.quota.ledger[key].state == Committed && db.core.quota.ledger[key].amount == 1
  }

  lemma PaidIsChargedOnce(db: Db, k: RunKey)
    requires Inv(db.core) && HasPayment(db.core.queue.jobs, k)
    ensures ChargedOnce(db, k)
  {
    var jobs := db.core.queue.jobs;
    var id: Id :| PaidBy(jobs, id, k);
    assert EntryOk(db.core.quota.ledger, jobs[id], id);
    forall other | JobFor(jobs, other, k) ensures other == id {
      assert SameTarget(jobs[id], jobs[other]);
    }
  }

  // Every run a decision stands on was charged exactly once, whatever retries, lease
  // losses and recoveries came before.
  lemma DecisionsArePaidFor(db: Db, events: seq<TimedEvent>, d: Id, i: nat)
    requires DbInv(db) && PaidOk(db.core.queue.jobs, db.flow.runs)
    ensures var after := Unfold(db, events);
            d in after.flow.decisions && i < |after.flow.decisions[d].sourceRuns| ==>
              ChargedOnce(after, (after.flow.decisions[d].groupId, after.flow.decisions[d].sourceRuns[i]))
  {
    UnfoldPays(db, events);
    var after := Unfold(db, events);
    if d in after.flow.decisions && i < |after.flow.decisions[d].sourceRuns| {
      assert DecisionOk(after.flow.groups, after.flow.runs, after.flow.decisions[d]);
      SourceRunsSucceeded(after, d, i);
      PaidIsChargedOnce(after, (after.flow.decisions[d].groupId, after.flow.decisions[d].sourceRuns[i]));
    }
  }

  lemma SourceRunsSucceeded(db: Db, d: Id, i: nat)
    requires d in db.flow.decisions && DecisionOk(db.flow.groups, db.flow.runs, db.flow.decisions[d])
    requires i < |db.flow.decisions[d].sourceRuns|
    ensures var k := (db.flow.decisions[d].groupId, db.flow.decisions[d].sourceRuns[i]);
            k in db.flow.runs && db.flow.runs[k].RunSucceeded?
  {
    assert db.flow.decisions[d].sourceRuns[i] == i + 1;
  }
}
