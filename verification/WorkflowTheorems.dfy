// Runs of the whole system: every reachable state satisfies the invariant, the
// queue's own guarantees carry over, and history is never rewritten.
module WorkflowTheorems {
  import opened Basics
  import opened ContentScoring
  import opened ReviewEngine
  import opened QuotaModel
  import opened QueueModel
  import opened QueueInvariant
  import opened QueueSafety
  import opened QueueRuns
  import opened WorkflowModel
  import opened WorkflowInvariant
  import opened WorkflowSteps
  import opened WorkflowSafety
  import opened WorkflowEvents
  import opened WorkflowCompletion
  import opened WorkflowTraces
  import opened WorkflowHistory

  // ------------------------------------------------------------------------
  // One event

  // To the queue, the event is a few of its own transactions at one time.
  ghost predicate Traced(before: Core, now: Time, after: Core) {
    exists steps :: AllAt(now, steps) && Execute(before, steps) == after
  }

  lemma Untouched(c: Core, now: Time)
    ensures Traced(c, now, c)
  {
    assert AllAt(now, []) && Execute(c, []) == c;
  }

  // An event keeps the invariant, rewrites no history, and is a queue trace.
  ghost predicate Sound(db: Db, now: Time, after: Db) {
    DbInv(after) && History(db.flow, after.flow) && Traced(db.core, now, after.core)
  }

  lemma NothingHappens(db: Db, now: Time)
    requires DbInv(db)
    ensures Sound(db, now, db)
  {
    Untouched(db.core, now);
    OtherHistory(db.flow, db.flow);
  }

  lemma CoreIsSound(db: Db, now: Time, op: Op)
    requires DbInv(db) && LeavesRunsAlone(db, now, op)
    ensures Sound(db, now, db.(core := Step(db.core, now, op)))
  {
    CoreEventKeeps(db, now, op);
    OneStep(db.core, Timed(now, op));
    assert AllAt(now, [Timed(now, op)]);
    OtherHistory(db.flow, db.flow);
  }

  lemma TriggerIsSound(db: Db, now: Time, t: TriggerInput)
    requires DbInv(db) && Acceptable(db, now, TriggerEvent(t)) && Trigger(db, now, t).Success?
    ensures Sound(db, now, Trigger(db, now, t).value)
  {
    TriggerKeeps(db, now, t);
    TriggerHistory(db, now, t);
    var steps := TriggerSteps(db, now, t);
  }

  lemma BeginIsSound(db: Db, now: Time, id: Id, token: Id)
    requires DbInv(db) && Begin(db, now, id, token).Success?
    ensures Sound(db, now, Begin(db, now, id, token).value)
  {
    BeginKeeps(db, now, id, token);
    BeginHistory(db, now, id, token);
    BeginRows(db, now, id, token);
    Untouched(db.core, now);
  }

  lemma CompleteIsSound(db: Db, now: Time, id: Id, token: Id, c: Completion)
    requires DbInv(db) && Acceptable(db, now, CompleteEvent(id, token, c)) && Complete(db, now, id, token, c).Success?
    ensures Sound(db, now, Complete(db, now, id, token, c).value)
  {
    CompleteKeeps(db, now, id, token, c);
    CompleteHistory(db, now, id, token, c);
    var steps := CompleteSteps(db, now, id, token, c);
  }

  lemma FailIsSound(db: Db, now: Time, id: Id, token: Id)
    requires DbInv(db) && Fail(db, now, id, token).Success?
    ensures Sound(db, now, Fail(db, now, id, token).value)
  {
    FailKeeps(db, now, id, token);
    FailHistory(db, now, id, token);
    var steps := FinishSteps(db.(flow := FailRun(db.flow, KeyOf(db.core.queue.jobs[id]))), now, id, token, Failure');
  }

  lemma RecoverSteps(db: Db, now: Time, id: Id, videoLocked: bool)
    requires Recover(db, now, id, videoLocked).Success?
    ensures Traced(db.core, now, Recover(db, now, id, videoLocked).value.core)
  {
    var steps := [Timed(now, OpRecover(id, videoLocked))];
    OneStep(db.core, steps[0]);
    assert AllAt(now, steps);
  }

  lemma RecoverIsSound(db: Db, now: Time, id: Id, videoLocked: bool)
    requires DbInv(db)
    ensures Recover(db, now, id, videoLocked).Success? && Sound(db, now, Recover(db, now, id, videoLocked).value)
  {
    RecoverKeeps(db, now, id, videoLocked);
    RecoverHistory(db, now, id, videoLocked);
    RecoverSteps(db, now, id, videoLocked);
  }

  lemma AppealSteps(db: Db, now: Time, a: AppealInput)
    requires Acceptable(db, now, AppealEvent(a)) && SubmitAppeal(db, now, a).Success?
    ensures Traced(db.core, now, SubmitAppeal(db, now, a).value.core)
  {
    var steps := EnqueueSteps(db.(flow := OpenAppeal(db.flow, a)), now, a.jobId, a.actorId, (a.groupId, 1), 2);
  }

  lemma AppealIsSound(db: Db, now: Time, a: AppealInput)
    requires DbInv(db) && Acceptable(db, now, AppealEvent(a)) && SubmitAppeal(db, now, a).Success?
    ensures Sound(db, now, SubmitAppeal(db, now, a).value)
  {
    AppealKeeps(db, now, a);
    AppealHistory(db, now, a);
    AppealSteps(db, now, a);
  }

  // Holds and videos: only rows that no run, decision or revision depends on.
  lemma HoldsAreSound(db: Db, now: Time, flow: Flow)
    requires DbInv(db.(flow := flow))
    requires flow.revisions == db.flow.revisions && flow.decisions == db.flow.decisions
    requires flow.runs == db.flow.runs && flow.groups == db.flow.groups
    ensures Sound(db, now, db.(flow := flow))
  {
    Untouched(db.core, now);
    OtherHistory(db.flow, flow);
  }

  lemma VideoKeeps(db: Db, videoId: Id, video: Video)
    requires DbInv(db)
    ensures DbInv(db.(flow := db.flow.(videos := db.flow.videos[videoId := video])))
  {
  }

  lemma HoldRows(flow: Flow, videoId: Id, visible: bool, holdId: Id)
    requires PlaceHold(flow, videoId, visible, holdId).Success?
    ensures var after := PlaceHold(flow, videoId, visible, holdId).value;
            && after.revisions == flow.revisions && after.decisions == flow.decisions
            && after.runs == flow.runs && after.groups == flow.groups
  {
  }

  lemma HoldIsSound(db: Db, now: Time, videoId: Id, visible: bool, holdId: Id)
    requires DbInv(db) && holdId !in db.flow.holds && PlaceHold(db.flow, videoId, visible, holdId).Success?
    ensures Sound(db, now, db.(flow := PlaceHold(db.flow, videoId, visible, holdId).value))
  {
    HoldRows(db.flow, videoId, visible, holdId);
    HoldKeeps(db, videoId, visible, holdId);
    HoldsAreSound(db, now, PlaceHold(db.flow, videoId, visible, holdId).value);
  }

  lemma ResumeRows(flow: Flow, videoId: Id, visible: bool)
    requires Resume(flow, videoId, visible).Success?
    ensures var after := Resume(flow, videoId, visible).value;
            && after.revisions == flow.revisions && after.decisions == flow.decisions
            && after.runs == flow.runs && after.groups == flow.groups
  {
    var h := ResumedHold(flow, videoId, visible);
  }

  lemma ResumeIsSound(db: Db, now: Time, videoId: Id, visible: bool)
    requires DbInv(db) && Resume(db.flow, videoId, visible).Success?
    ensures Sound(db, now, db.(flow := Resume(db.flow, videoId, visible).value))
  {
    ResumeRows(db.flow, videoId, visible);
    ResumeKeeps(db, videoId, visible);
    HoldsAreSound(db, now, Resume(db.flow, videoId, visible).value);
  }

  lemma ResolveRows(flow: Flow, videoId: Id, appealId: Id, rejected: bool)
    requires ResolveAppeal(flow, videoId, appealId, rejected).Success?
    ensures var after := ResolveAppeal(flow, videoId, appealId, rejected).value;
            && after.revisions == flow.revisions && after.decisions == flow.decisions
            && after.runs == flow.runs && after.groups == flow.groups
  {
  }

  lemma ResolveIsSound(db: Db, now: Time, videoId: Id, appealId: Id, rejected: bool)
    requires DbInv(db) && ResolveAppeal(db.flow, videoId, appealId, rejected).Success?
    ensures Sound(db, now, db.(flow := ResolveAppeal(db.flow, videoId, appealId, rejected).value))
  {
    ResolveRows(db.flow, videoId, appealId, rejected);
    ResolveKeeps(db, videoId, appealId, rejected);
    HoldsAreSound(db, now, ResolveAppeal(db.flow, videoId, appealId, rejected).value);
  }

  lemma VideoIsSound(db: Db, now: Time, videoId: Id, video: Video)
    requires DbInv(db)
    ensures Sound(db, now, db.(flow := db.flow.(videos := db.flow.videos[videoId := video])))
  {
    VideoKeeps(db, videoId, video);
    HoldsAreSound(db, now, db.flow.(videos := db.flow.videos[videoId := video]));
  }

  predicate OnRuns(e: Event) {
    e.CoreEvent? || e.TriggerEvent? || e.BeginEvent? || e.CompleteEvent? || e.FailEvent? || e.RecoverEvent?
  }

  lemma RunEventIsSound(db: Db, now: Time, e: Event)
    requires DbInv(db) && Acceptable(db, now, e) && OnRuns(e) && ResultOf(db, now, e).Success?
    ensures Sound(db, now, ResultOf(db, now, e).value)
  {
    match e
    case CoreEvent(op) => CoreIsSound(db, now, op);
    case TriggerEvent(t) => TriggerIsSound(db, now, t);
    case BeginEvent(id, token) => BeginIsSound(db, now, id, token);
    case CompleteEvent(id, token, c) => CompleteIsSound(db, now, id, token, c);
    case FailEvent(id, token) => FailIsSound(db, now, id, token);
    case RecoverEvent(id, videoLocked) => RecoverIsSound(db, now, id, videoLocked);
  }

  lemma AppealEventIsSound(db: Db, now: Time, e: Event)
    requires DbInv(db) && Acceptable(db, now, e) && !OnRuns(e) && ResultOf(db, now, e).Success?
    ensures Sound(db, now, ResultOf(db, now, e).value)
  {
    match e
    case AppealEvent(a) => AppealIsSound(db, now, a);
    case HoldEvent(videoId, visible, holdId) => HoldIsSound(db, now, videoId, visible, holdId);
    case ResumeEvent(videoId, visible) => ResumeIsSound(db, now, videoId, visible);
    case ResolveEvent(videoId, appealId, rejected) => ResolveIsSound(db, now, videoId, appealId, rejected);
    case VideoEvent(videoId, video) => VideoIsSound(db, now, videoId, video);
  }

  lemma EventIsSound(db: Db, now: Time, e: Event)
    requires DbInv(db)
    ensures Sound(db, now, Happen(db, now, e))
  {
    if !Acceptable(db, now, e) || ResultOf(db, now, e).Failure? {
      NothingHappens(db, now);
    } else if OnRuns(e) {
      RunEventIsSound(db, now, e);
    } else {
      AppealEventIsSound(db, now, e);
    }
  }

  // ------------------------------------------------------------------------
  // Runs

  datatype TimedEvent = TimedEvent(now: Time, event: Event)

  ghost function Unfold(db: Db, events: seq<TimedEvent>): Db
    decreases |events|
  {
    if events == [] then db else Unfold(Happen(db, events[0].now, events[0].event), events[1..])
  }

  predicate InOrder(from: Time, events: seq<TimedEvent>)
    decreases |events|
  {
    events != [] ==> from <= events[0].now && InOrder(events[0].now, events[1..])
  }

  function LastTime(from: Time, events: seq<TimedEvent>): Time
    decreases |events|
  {
    if events == [] then from else LastTime(events[0].now, events[1..])
  }

  // Every reachable state satisfies the invariant.
  lemma {:induction false} UnfoldInv(db: Db, events: seq<TimedEvent>)
    requires DbInv(db)
    ensures DbInv(Unfold(db, events))
    decreases |events|
  {
    if events != [] {
      EventIsSound(db, events[0].now, events[0].event);
      UnfoldInv(Happen(db, events[0].now, events[0].event), events[1..]);
    }
  }

  lemma EmptyDbInv(quota: Quota)
    requires quota.ledger == map[]
    ensures DbInv(Db(Core(quota, Queue(map[], map[], map[])),
                     Flow(map[], map[], map[], map[], map[], map[], map[], map[])))
  {
    EmptyInv(quota);
  }

  // A run of the system is a run of the queue: what holds of every run of the
  // queue holds here.
  lemma {:induction false} UnfoldIsExecution(db: Db, from: Time, events: seq<TimedEvent>) returns (steps: seq<Timed>)
    requires DbInv(db) && InOrder(from, events)
    ensures Clocked(from, steps) && from <= EndTime(from, steps) <= LastTime(from, events)
    ensures Execute(db.core, steps) == Unfold(db, events).core
    decreases |events|
  {
    steps := [];
    if events != [] {
      var now := events[0].now;
      EventIsSound(db, now, events[0].event);
      var first :| AllAt(now, first) && Execute(db.core, first) == Happen(db, now, events[0].event).core;
      SameTimeIsClocked(from, now, first);
      var rest := UnfoldIsExecution(Happen(db, now, events[0].event), now, events[1..]);
      LaterClock(EndTime(from, first), now, rest);
      ClockedBoth(from, first, rest);
      ExecuteBoth(db.core, first, rest);
      steps := first + rest;
    }
  }

  // Nothing of the workflow can be done with a lost lease.
  ghost predicate ShutOut(db: Db, now: Time, id: Id, token: Id) {
    && Fenced(db.core, now, id, token)
    && Begin(db, now, id, token) == Failure(QueueFailure(LeaseLost))
    && Fail(db, now, id, token) == Failure(QueueFailure(LeaseLost))
    && forall c :: Complete(db, now, id, token, c) == Failure(QueueFailure(LeaseLost))
  }

  lemma LostShutsOut(db: Db, now: Time, id: Id, token: Id)
    requires Lost(db.core.queue, now, id, token)
    ensures ShutOut(db, now, id, token)
  {
  }

  // Lease loss is permanent in every run of the whole system.
  lemma LostInEveryRun(db: Db, from: Time, events: seq<TimedEvent>, id: Id, token: Id)
    requires DbInv(db) && Lost(db.core.queue, from, id, token) && InOrder(from, events)
    ensures ShutOut(Unfold(db, events), LastTime(from, events), id, token)
  {
    var steps := UnfoldIsExecution(db, from, events);
    LostForEver(db.core, from, steps, id, token);
    LostLater(Unfold(db, events).core.queue, EndTime(from, steps), LastTime(from, events), id, token);
    LostShutsOut(Unfold(db, events), LastTime(from, events), id, token);
  }

  lemma LostLater(q: Queue, now: Time, later: Time, id: Id, token: Id)
    requires Lost(q, now, id, token) && now <= later
    ensures Lost(q, later, id, token)
  {
  }

  // ------------------------------------------------------------------------
  // Whole runs

  // Decisions, closed runs and superseded revisions survive every run unchanged.
  lemma {:induction false} HistoryIsKept(db: Db, events: seq<TimedEvent>)
    requires DbInv(db)
    ensures var flow, after := db.flow, Unfold(db, events).flow;
            && (forall d :: d in flow.decisions ==> d in after.decisions && after.decisions[d] == flow.decisions[d])
            && (forall r :: r in flow.revisions && flow.revisions[r].status == Superseded ==>
                  r in after.revisions && after.revisions[r] == flow.revisions[r])
            && RunsKept(flow.runs, after.runs)
    decreases |events|
  {
    if events != [] {
      EventIsSound(db, events[0].now, events[0].event);
      HistoryIsKept(Happen(db, events[0].now, events[0].event), events[1..]);
    }
  }

  // ------------------------------------------------------------------------
  // What a trigger costs

  // One reserved evaluation of the account is added to the ledger, and nothing else changes in it.
  predicate ChargedFor(before: Core, after: Core, jobId: Id)
    requires jobId in after.queue.jobs
  {
    var key := EntryKey(after.queue.jobs[jobId], jobId);
    && key !in before.quota.ledger && EntryOk(after.quota.ledger, after.queue.jobs[jobId], jobId)
    && after.quota == before.quota.(ledger := before.quota.ledger[key := after.quota.ledger[key]])
  }

  // A trigger that goes through either finds a formal group for the same input to
  // reuse and leaves queue and ledger as they are, or queues exactly one job, for the
  // first run of its group, with one reserved evaluation of the account that asked.
  lemma TriggerQueuesAtMostOne(db: Db, now: Time, t: TriggerInput)
    requires DbInv(db) && Acceptable(db, now, TriggerEvent(t)) && Trigger(db, now, t).Success?
    ensures t.videoId in db.flow.videos
    ensures var after := Trigger(db, now, t).value;
            || (after.core == db.core && Reuses(after.flow, t, db.flow.videos[t.videoId].creatorId))
            || (&& after.core.queue.jobs.Keys == db.core.queue.jobs.Keys + {t.jobId}
                && after.core.queue.attempts == db.core.queue.attempts
                && after.core.queue.jobs[t.jobId].status == Queued
                && after.core.queue.jobs[t.jobId].target == Run(t.groupId, 1)
                && (t.groupId, 1) in after.flow.runs && after.flow.runs[(t.groupId, 1)] == RunPending
                && after.core.queue.jobs[t.jobId].actorId == t.actorId
                && ChargedFor(db.core, after.core, t.jobId))
  {
    TriggerCases(db, now, t);
    TriggerKeeps(db, now, t);
    var (flow, r) := WorkflowFor(db.flow, t.videoId, t.pilot, t.revisionId).value;
    if !(Trigger(db, now, t) == Success(db.(flow := flow)) && Reuses(flow, t, db.flow.videos[t.videoId].creatorId)) {
      var group := NewGroup(t, db.flow.videos[t.videoId].creatorId, r);
      NewJobIsReserved(db.(flow := OpenGroup(flow, t.groupId, group)), now, t);
    }
  }

  lemma NewJobIsReserved(db: Db, now: Time, t: TriggerInput)
    requires t.groupId in db.flow.groups && t.jobId !in db.core.queue.jobs
    requires (t.groupId, 1) in db.flow.runs && db.flow.runs[(t.groupId, 1)] == RunPending
    requires NoStrayEntries(db.core.quota.ledger, db.core.queue.jobs)
    requires var queued := EnqueueRun(db, now, t.jobId, t.actorId, (t.groupId, 1), if t.pilot then 1 else 2);
             queued.Success? && EntriesOk(queued.value.core.quota.ledger, queued.value.core.queue.jobs)
    ensures var after := EnqueueRun(db, now, t.jobId, t.actorId, (t.groupId, 1), if t.pilot then 1 else 2).value;
            && after.flow == db.flow
            && after.core.queue.jobs.Keys == db.core.queue.jobs.Keys + {t.jobId}
            && after.core.queue.attempts == db.core.queue.attempts
            && after.core.queue.jobs[t.jobId].status == Queued
            && after.core.queue.jobs[t.jobId].target == Run(t.groupId, 1)
            && after.core.queue.jobs[t.jobId].actorId == t.actorId
            && ChargedFor(db.core, after.core, t.jobId)
  {
    EnqueueRunIsStep(db, now, t.jobId, t.actorId, (t.groupId, 1), if t.pilot then 1 else 2);
    var after := EnqueueRun(db, now, t.jobId, t.actorId, (t.groupId, 1), if t.pilot then 1 else 2).value;
    assert Charged(after.core.queue.jobs[t.jobId]);
    EnqueueAddsOneEntry(db.core, now, t.jobId, RunJob(db.flow, t.actorId, (t.groupId, 1), if t.pilot then 1 else 2),
                        TargetLive(db.flow, db.flow.groups[t.groupId].videoId, (t.groupId, 1)));
  }

  lemma EnqueueAddsOneEntry(c: Core, now: Time, id: Id, input: JobInput, live: bool)
    requires id !in c.queue.jobs && NoStrayEntries(c.quota.ledger, c.queue.jobs) && UsesQuota(input.stage)
    requires Enqueue(c, now, id, input, None, live, false).Success?
    ensures var after := Enqueue(c, now, id, input, None, live, false).value;
            && after.queue.attempts == c.queue.attempts && id in after.queue.jobs
            && var key := EntryKey(after.queue.jobs[id], id);
            && key !in c.quota.ledger && key in after.quota.ledger
            && after.quota == c.quota.(ledger := c.quota.ledger[key := after.quota.ledger[key]])
  {
  }

  // ------------------------------------------------------------------------
  // When an adoption goes through

  // A revision passes its gate once: a clear decision is recorded if nothing
  // blocks the gate and it is unused, or something blocks it; any other needs an
  // unused gate and no open compliance check.
  predicate GateOpen(flow: Flow, d: Decision) {
    var r := d.revisionId;
    if d.compliance != Clear then r !in flow.gates && !HoldActive(flow, r, ComplianceCheck)
    else r !in flow.gates || ActiveHolds(flow, r) != {} || ActiveAppeals(flow, r) != {}
  }

  lemma PassesGate(flow: Flow, g: Id, d: Decision, holdId: Id)
    requires g in flow.groups
    ensures PassGate(flow, g, d, holdId).Success? <==> GateOpen(flow, d)
  {
  }

  lemma AdoptsWhen(flow: Flow, g: Id, id: Id, d: Decision, holdId: Id)
    requires g in flow.groups && d.revisionId in flow.revisions && !HasDecision(flow, g)
    ensures AdoptDecision(flow, g, id, d, holdId).Success? <==> flow.groups[g].shadow || GateOpen(Settled(flow, g, id, d), d)
  {
    SettledRows(flow, g, id, d);
    PassesGate(Settled(flow, g, id, d), g, d, holdId);
  }

  lemma LeaseHolderFinishes(db: Db, now: Time, id: Id, token: Id, flow: Flow)
    requires Inv(db.core) && LeaseLive(db.core.queue, now, id, token)
    ensures FinishJob(db.(flow := flow), now, id, token, Success').Success?
  {
    FinishInv(db.core, now, id, token, Succeeded, None);
  }

  // Concluding with a verdict to adopt records it exactly when the gate is open.
  lemma ConcludeAdoptsWhen(db: Db, now: Time, id: Id, token: Id, n: nat, c: Completion)
    requires Inv(db.core) && LeaseLive(db.core.queue, now, id, token) && Known(db, id, n)
    requires !HasDecision(db.flow, KeyOf(db.core.queue.jobs[id]).0)
    requires ProgressAt(db, id, n, c.check).Success? && ProgressAt(db, id, n, c.check).value.Adopt?
    ensures var g := KeyOf(db.core.queue.jobs[id]).0;
            && HasOutputs(db.flow.runs, g, FirstNumbers(n))
            && HasOutputs(db.flow.runs, g, SucceededNumbers(db.flow.runs, g))
            && var d := DecisionFor(db, g, FirstNumbers(n), ProgressAt(db, id, n, c.check).value);
            && (Conclude(db, now, id, token, c).Success?
                <==> db.flow.groups[g].shadow || GateOpen(Settled(db.flow, g, c.decisionId, d), d))
            && (Conclude(db, now, id, token, c).Failure? ==> Conclude(db, now, id, token, c) == Failure(FlowConstraint))
  {
    var g := KeyOf(db.core.queue.jobs[id]).0;
    ConcludeAdopts(db, now, id, token, n, c);
    var d := DecisionFor(db, g, FirstNumbers(n), ProgressAt(db, id, n, c.check).value);
    AdoptsWhen(db.flow, g, c.decisionId, d, c.holdId);
    var adopted := AdoptDecision(db.flow, g, c.decisionId, d, c.holdId);
    if adopted.Success? { LeaseHolderFinishes(db, now, id, token, adopted.value); }
  }

  // The reviews the engine will see when this output completes the run.
  ghost function ReviewsWith(flow: Flow, k: RunKey, output: RunOutput): seq<ReviewRun> {
    if k.1 >= 1 && AllUsable(flow.runs, k.0, k.1 - 1) then ReviewsOfGroup(flow.runs, k.0, k.1 - 1) + [output.review] else []
  }

  lemma ReviewsAfter(flow: Flow, k: RunKey, output: RunOutput)
    requires RunsOk(flow.groups, flow.runs) && k in flow.runs && output.complete
    ensures var runs := flow.runs[k := RunSucceeded(output)];
            AllUsable(runs, k.0, k.1) && ReviewsOfGroup(runs, k.0, k.1) == ReviewsWith(flow, k, output)
  {
    assert k == (k.0, k.1);
    EarlierRunsAreUsable(flow.groups, flow.runs, k.0, k.1);
  }

  // An adoption resolves the appeal that asked for it, and nothing else.
  predicate OwnHold(flow: Flow, g: Id, h: Id)
    requires g in flow.groups && h in flow.holds
  {
    flow.groups[g].appeal && flow.holds[h].holdType == UnderAppeal && flow.holds[h].groupId == Some(g)
  }

  predicate OwnAppeal(flow: Flow, g: Id, a: Id)
    requires g in flow.groups && a in flow.appeals
  {
    flow.groups[g].appeal && flow.appeals[a].rerunGroupId == g
  }

  predicate Blocked(flow: Flow, g: Id)
    requires g in flow.groups
  {
    var r := flow.groups[g].revisionId;
    || (exists h :: h in flow.holds && h in ActiveHolds(flow, r) && !OwnHold(flow, g, h))
    || (exists a :: a in flow.appeals && a in ActiveAppeals(flow, r) && !OwnAppeal(flow, g, a))
  }

  // What a caller can see before the completion: a revision passes its gate once.
  // A clear verdict is recorded if the gate is unused or something else holds the
  // revision; any other needs an unused gate and no open compliance check.
  predicate GateWillOpen(flow: Flow, g: Id, compliance: Compliance)
    requires g in flow.groups
  {
    var r := flow.groups[g].revisionId;
    if compliance != Clear then r !in flow.gates && !HoldActive(flow, r, ComplianceCheck)
    else r !in flow.gates || Blocked(flow, g)
  }

  lemma HoldsAfterSettling(flow: Flow, g: Id, id: Id, d: Decision)
    requires g in flow.groups && d.revisionId == flow.groups[g].revisionId && d.revisionId in flow.revisions
    ensures ActiveHolds(Settled(flow, g, id, d), d.revisionId)
         == set h | h in flow.holds && h in ActiveHolds(flow, d.revisionId) && !OwnHold(flow, g, h)
    ensures HoldActive(Settled(flow, g, id, d), d.revisionId, ComplianceCheck) <==> HoldActive(flow, d.revisionId, ComplianceCheck)
  {
    SettledRows(flow, g, id, d);
    var after := Settled(flow, g, id, d);
    assert forall h :: h in after.holds <==> h in flow.holds;
  }

  lemma AppealsAfterSettling(flow: Flow, g: Id, id: Id, d: Decision)
    requires g in flow.groups && d.revisionId == flow.groups[g].revisionId && d.revisionId in flow.revisions
    ensures ActiveAppeals(Settled(flow, g, id, d), d.revisionId)
         == set a | a in flow.appeals && a in ActiveAppeals(flow, d.revisionId) && !OwnAppeal(flow, g, a)
    ensures Settled(flow, g, id, d).gates == flow.gates
  {
    var after := Settled(flow, g, id, d);
    assert forall a :: a in after.appeals <==> a in flow.appeals;
  }

  lemma GateOpensAsSeen(flow: Flow, g: Id, id: Id, d: Decision)
    requires g in flow.groups && d.revisionId == flow.groups[g].revisionId && d.revisionId in flow.revisions
    ensures GateOpen(Settled(flow, g, id, d), d) <==> GateWillOpen(flow, g, d.compliance)
  {
    HoldsAfterSettling(flow, g, id, d);
    AppealsAfterSettling(flow, g, id, d);
    var r := d.revisionId;
    var holds := set h | h in flow.holds && h in ActiveHolds(flow, r) && !OwnHold(flow, g, h);
    var appeals := set a | a in flow.appeals && a in ActiveAppeals(flow, r) && !OwnAppeal(flow, g, a);
    if Blocked(flow, g) {
      if h :| h in flow.holds && h in ActiveHolds(flow, r) && !OwnHold(flow, g, h) {
        assert h in holds;
      } else {
        var a :| a in flow.appeals && a in ActiveAppeals(flow, r) && !OwnAppeal(flow, g, a);
        assert a in appeals;
      }
    }
    if holds != {} { var h :| h in holds; }
    if appeals != {} { var a :| a in appeals; }
  }

  // The completion that would adopt, seen from the state before it.
  ghost predicate WouldAdopt(db: Db, now: Time, id: Id, token: Id, c: Completion, p: ReviewEngine.Progress) {
    && DbInv(db) && Acceptable(db, now, CompleteEvent(id, token, c)) && Bound(db, now, id, token)
    && var k := KeyOf(db.core.queue.jobs[id]);
    && !db.flow.groups[k.0].pilot && db.flow.groups[k.0].inputComplete && c.output.complete
    && p.Adopt? && ProgressOf(ReviewsWith(db.flow, k, c.output), db.flow.groups[k.0].appeal, c.check) == Success(p)
  }

  // The completion comes to the conclusion of the state in which the run has succeeded.
  lemma CompleteConcludes(db: Db, now: Time, id: Id, token: Id, c: Completion)
    requires Bound(db, now, id, token)
    requires var group := db.flow.groups[KeyOf(db.core.queue.jobs[id]).0]; !group.pilot && group.inputComplete && c.output.complete
    ensures var k := KeyOf(db.core.queue.jobs[id]);
            var answered := db.(flow := SetRun(db.flow, k, RunSucceeded(c.output)));
            && k.0 in answered.flow.groups && answered.flow.groups[k.0].revisionId in answered.flow.revisions
            && HasOutputs(answered.flow.runs, k.0, SucceededNumbers(answered.flow.runs, k.0))
            && Complete(db, now, id, token, c) == Conclude(answered, now, id, token, c)
  {
    var k := KeyOf(db.core.queue.jobs[id]);
    BoundIsNotStale(db, now, id, token, c);
    var runs := db.flow.runs[k := RunSucceeded(c.output)];
    SucceededHaveOutputs(runs, k.0, RunCount(runs, k.0));
  }

  lemma AnsweredIsKnown(answered: Db, id: Id, n: nat, check: FirstCheck, p: ReviewEngine.Progress)
    requires Answered(answered, id, n)
    requires var g := KeyOf(answered.core.queue.jobs[id]).0;
             ProgressOf(ReviewsOfGroup(answered.flow.runs, g, n), answered.flow.groups[g].appeal, check) == Success(p)
    ensures Inv(answered.core) && Known(answered, id, n) && !HasDecision(answered.flow, KeyOf(answered.core.queue.jobs[id]).0)
    ensures ProgressAt(answered, id, n, check) == Success(p)
  {
    AnswerIsKnown(answered, id, n, check);
  }

  lemma WouldAdoptAnswers(db: Db, now: Time, id: Id, token: Id, c: Completion, p: ReviewEngine.Progress)
    requires WouldAdopt(db, now, id, token, c, p)
    ensures var k := KeyOf(db.core.queue.jobs[id]);
            var answered := db.(flow := SetRun(db.flow, k, RunSucceeded(c.output)));
            && Answered(answered, id, k.1)
            && ReviewsOfGroup(answered.flow.runs, k.0, k.1) == ReviewsWith(db.flow, k, c.output)
            && !db.flow.groups[k.0].shadow
  {
    AnsweredState(db, now, id, token, c.output);
    ReviewsAfter(db.flow, KeyOf(db.core.queue.jobs[id]), c.output);
  }

  // A verdict to adopt becomes a decision exactly when the gate will open; otherwise
  // the completion fails on a constraint.
  lemma AdoptionGoesThrough(db: Db, now: Time, id: Id, token: Id, c: Completion, p: ReviewEngine.Progress)
    requires WouldAdopt(db, now, id, token, c, p)
    ensures var k := KeyOf(db.core.queue.jobs[id]);
            && (Complete(db, now, id, token, c).Success?
                <==> GateWillOpen(db.flow, k.0, WorstCompliance(ReviewsWith(db.flow, k, c.output))))
            && (Complete(db, now, id, token, c).Failure? ==> Complete(db, now, id, token, c) == Failure(FlowConstraint))
  {
    var k := KeyOf(db.core.queue.jobs[id]);
    var answered := db.(flow := SetRun(db.flow, k, RunSucceeded(c.output)));
    WouldAdoptAnswers(db, now, id, token, c, p);
    AnsweredIsKnown(answered, id, k.1, c.check, p);
    CompleteConcludes(db, now, id, token, c);
    ConcludeAdoptsWhen(answered, now, id, token, k.1, c);
    var d := DecisionFor(answered, k.0, FirstNumbers(k.1), p);
    GateOpensAsSeen(answered.flow, k.0, c.decisionId, d);
    GateIgnoresRuns(db.flow, k, RunSucceeded(c.output), d.compliance);
  }

  lemma GateIgnoresRuns(flow: Flow, k: RunKey, s: RunState, compliance: Compliance)
    requires k.0 in flow.groups
    ensures GateWillOpen(SetRun(flow, k, s), k.0, compliance) <==> GateWillOpen(flow, k.0, compliance)
  {
    var after := SetRun(flow, k, s);
    var r := flow.groups[k.0].revisionId;
    assert ActiveHolds(after, r) == ActiveHolds(flow, r) && ActiveAppeals(after, r) == ActiveAppeals(flow, r);
    assert forall h :: h in flow.holds ==> (OwnHold(after, k.0, h) <==> OwnHold(flow, k.0, h));
    assert forall a :: a in flow.appeals ==> (OwnAppeal(after, k.0, a) <==> OwnAppeal(flow, k.0, a));
    assert HoldActive(after, r, ComplianceCheck) <==> HoldActive(flow, r, ComplianceCheck);
  }

  // So a revision that has passed its gate, and that nothing holds, never gets a
  // second decision: whichever run would bring it, its completion fails.
  lemma NoSecondDecision(db: Db, now: Time, id: Id, token: Id, c: Completion, p: ReviewEngine.Progress)
    requires WouldAdopt(db, now, id, token, c, p)
    requires var r := db.flow.groups[KeyOf(db.core.queue.jobs[id]).0].revisionId;
             r in db.flow.gates && ActiveHolds(db.flow, r) == {} && ActiveAppeals(db.flow, r) == {}
    ensures Complete(db, now, id, token, c) == Failure(FlowConstraint)
  {
    AdoptionGoesThrough(db, now, id, token, c, p);
  }

  // And every later formal trigger does lead there: once the current revision has a
  // decision, it keeps working on that revision, however the input has changed.
  lemma DecidedRevisionIsReused(flow: Flow, videoId: Id, r: Id, newId: Id)
    requires FlowOk(flow) && IsCurrent(flow.revisions, videoId, r) && flow.revisions[r].activeDecision.Some?
    ensures ModeOf(flow, r) == Some(false)
    ensures WorkflowFor(flow, videoId, false, newId) == Success((flow, r))
  {
    OneCurrent(flow.revisions, videoId, r, r);
    var d := flow.revisions[r].activeDecision.value;
    AppealedGroupIsFormal(flow, d);
  }
}
