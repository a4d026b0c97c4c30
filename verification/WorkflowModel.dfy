// The V1.1 content workflow on top of the queue: revisions of a video's
// workflow, evaluation groups with one to three blind runs, holds, appeals,
// decisions and gates. Each function is the effect of one transaction; a
// transaction that fails is rolled back.
module WorkflowModel {
  import opened Basics
  import opened ContentScoring
  import opened ReviewEngine
  import opened ReviewTheorems
  import opened QueueModel

  datatype Video = Video(creatorId: Id, active: bool)

  datatype RevisionStatus = Current | Superseded

  // shadowMode: the mode in the policy snapshot, which appeals leave out.
  datatype Revision = Revision(
    videoId: Id, number: nat, status: RevisionStatus, shadowMode: Option<bool>, activeDecision: Option<Id>)

  datatype GroupStatus =
    | GroupQueued | GroupRunning | ReviewRequired | GroupAdopted | GroupHeld | GroupFailed | GroupSuperseded
    | PilotCompleted | PilotIncomplete

  // A group carries the fingerprint and completeness of its input revision.
  datatype Group = Group(
    videoId: Id, ownerId: Id, revisionId: Id, appeal: bool, shadow: bool, pilot: bool,
    fingerprint: string, inputComplete: bool, status: GroupStatus, technicalAttempts: nat)

  // complete: every dimension was observable. The review of an incomplete output is not used.
  datatype RunOutput = RunOutput(review: ReviewRun, complete: bool)

  datatype RunState = RunPending | RunRunning | RunSucceeded(output: RunOutput) | RunFailed | RunStale

  // A run is identified by its group and its number in the group.
  type RunKey = (Id, nat)

  datatype Decision = Decision(
    groupId: Id, revisionId: Id, sourceRuns: seq<nat>, anchors: Anchors, score: int, rating: Rating,
    compliance: Compliance, adoption: Method)

  datatype HoldType = InputIncomplete | EvaluationInstability | UnderAppeal | Manual | ComplianceCheck

  datatype Resolution = Unresolved | Resolved | Rejected

  datatype WorkflowHold = WorkflowHold(revisionId: Id, groupId: Option<Id>, holdType: HoldType, resolution: Resolution)

  datatype Appeal = Appeal(videoId: Id, revisionId: Id, decisionId: Id, rerunGroupId: Id, resolution: Resolution)

  datatype Gate = Approved | RevisionRequired | GateHold

  datatype Flow = Flow(
    videos: map<Id, Video>,
    revisions: map<Id, Revision>,
    groups: map<Id, Group>,
    runs: map<RunKey, RunState>,
    decisions: map<Id, Decision>,
    holds: map<Id, WorkflowHold>,
    appeals: map<Id, Appeal>,
    gates: map<Id, Gate>)

  datatype Db = Db(core: Core, flow: Flow)

  datatype FlowError =
    | FlowNotFound | FlowForbidden | FlowConflict | FlowConstraint | AttemptLimit
    | QueueFailure(queueError: QueueError) | EngineFailure(engineError: EngineError)

  // ------------------------------------------------------------------------
  // Queries

  predicate Live(r: RunState) { r == RunPending || r == RunRunning }

  predicate IsCurrent(revisions: map<Id, Revision>, videoId: Id, r: Id) {
    r in revisions && revisions[r].videoId == videoId && revisions[r].status == Current
  }

  // findFirst({ videoId, status: 'current' })
  ghost function CurrentOf(revisions: map<Id, Revision>, videoId: Id): Option<Id> {
    if exists r :: IsCurrent(revisions, videoId, r) then
      var r :| IsCurrent(revisions, videoId, r);
      Some(r)
    else None
  }

  function ActiveHolds(flow: Flow, revisionId: Id): set<Id> {
    set h | h in flow.holds && flow.holds[h].revisionId == revisionId && flow.holds[h].resolution == Unresolved
  }

  function ActiveAppeals(flow: Flow, revisionId: Id): set<Id> {
    set a | a in flow.appeals && flow.appeals[a].revisionId == revisionId && flow.appeals[a].resolution == Unresolved
  }

  // The mode of the active decision's group, or else of the policy snapshot.
  function ModeOf(flow: Flow, revisionId: Id): Option<bool>
    requires revisionId in flow.revisions
  {
    var r := flow.revisions[revisionId];
    if r.activeDecision.Some? && r.activeDecision.value in flow.decisions
       && flow.decisions[r.activeDecision.value].groupId in flow.groups
    then Some(flow.groups[flow.decisions[r.activeDecision.value].groupId].shadow)
    else r.shadowMode
  }

  // The numbers of a group's succeeded runs up to n, in order.
  function SucceededUpTo(runs: map<RunKey, RunState>, g: Id, n: nat): seq<nat> {
    if n == 0 then []
    else SucceededUpTo(runs, g, n - 1) + if (g, n) in runs && runs[(g, n)].RunSucceeded? then [n] else []
  }

  ghost predicate NoRunAfter(runs: map<RunKey, RunState>, g: Id, n: nat) {
    forall m :: m > n ==> (g, m) !in runs
  }

  ghost function RunCount(runs: map<RunKey, RunState>, g: Id): nat {
    if exists n: nat :: NoRunAfter(runs, g, n) then
      var n: nat :| NoRunAfter(runs, g, n);
      n
    else 0
  }

  // findMany({ groupId, status: 'succeeded' }, orderBy runNumber)
  ghost function SucceededNumbers(runs: map<RunKey, RunState>, g: Id): seq<nat> {
    SucceededUpTo(runs, g, RunCount(runs, g))
  }

  predicate HasOutputs(runs: map<RunKey, RunState>, g: Id, numbers: seq<nat>) {
    forall i :: 0 <= i < |numbers| ==> (g, numbers[i]) in runs && runs[(g, numbers[i])].RunSucceeded?
  }

  function Reviews(runs: map<RunKey, RunState>, g: Id, numbers: seq<nat>): seq<ReviewRun>
    requires HasOutputs(runs, g, numbers)
  {
    seq(|numbers|, i requires 0 <= i < |numbers| => runs[(g, numbers[i])].output.review)
  }

  // worstCompliance
  function WorstCompliance(reviews: seq<ReviewRun>): Compliance {
    if exists i :: 0 <= i < |reviews| && reviews[i].compliance == Confirmed then Confirmed
    else if exists i :: 0 <= i < |reviews| && reviews[i].compliance == Suspected then Suspected
    else Clear
  }

  // ------------------------------------------------------------------------
  // Row changes

  function Started(revisions: map<Id, Revision>, id: Id, videoId: Id, mode: Option<bool>): map<Id, Revision> {
    revisions[id := Revision(videoId, 1, Current, mode, None)]
  }

  function FirstRevision(flow: Flow, id: Id, videoId: Id, shadow: bool): Flow {
    flow.(revisions := Started(flow.revisions, id, videoId, Some(shadow)))
  }

  function Renumbered(revisions: map<Id, Revision>, previous: Id, id: Id, mode: Option<bool>): map<Id, Revision>
    requires previous in revisions
  {
    var p := revisions[previous];
    revisions[previous := p.(status := Superseded)][id := Revision(p.videoId, p.number + 1, Current, mode, None)]
  }

  // The previous revision is superseded by one with the next number.
  function NextRevision(flow: Flow, previous: Id, id: Id, mode: Option<bool>): Flow
    requires previous in flow.revisions
  {
    flow.(revisions := Renumbered(flow.revisions, previous, id, mode))
  }

  predicate InRevision(groups: map<Id, Group>, g: Id, revisionId: Id) {
    g in groups && groups[g].revisionId == revisionId
  }

  function StaleRuns(flow: Flow, revisionId: Id): map<RunKey, RunState> {
    map k | k in flow.runs ::
      if InRevision(flow.groups, k.0, revisionId) && Live(flow.runs[k]) then RunStale else flow.runs[k]
  }

  function SupersededGroups(flow: Flow, revisionId: Id, statuses: set<GroupStatus>): map<Id, Group> {
    map g | g in flow.groups ::
      if flow.groups[g].revisionId == revisionId && flow.groups[g].status in statuses
      then flow.groups[g].(status := GroupSuperseded) else flow.groups[g]
  }

  // Unfinished work of a revision: its live runs go stale, its open groups are superseded.
  function CloseWork(flow: Flow, revisionId: Id, statuses: set<GroupStatus>): Flow {
    flow.(runs := StaleRuns(flow, revisionId), groups := SupersededGroups(flow, revisionId, statuses))
  }

  function OpenGroup(flow: Flow, id: Id, group: Group): Flow {
    flow.(groups := flow.groups[id := group], runs := flow.runs[(id, 1) := RunPending])
  }

  function SetGroup(flow: Flow, g: Id, status: GroupStatus): Flow
    requires g in flow.groups
  {
    flow.(groups := flow.groups[g := flow.groups[g].(status := status)])
  }

  function SetRun(flow: Flow, k: RunKey, state: RunState): Flow {
    flow.(runs := flow.runs[k := state])
  }

  // Closing a run after a technical failure; a group under review stays under review.
  function FailRun(flow: Flow, k: RunKey): Flow {
    var runs := if k in flow.runs && Live(flow.runs[k]) then flow.runs[k := RunFailed] else flow.runs;
    var groups :=
      if k.0 in flow.groups && flow.groups[k.0].status in {GroupQueued, GroupRunning}
      then flow.groups[k.0 := flow.groups[k.0].(status := GroupFailed)] else flow.groups;
    flow.(runs := runs, groups := groups)
  }

  predicate HoldActive(flow: Flow, revisionId: Id, holdType: HoldType) {
    exists h :: h in flow.holds && flow.holds[h].revisionId == revisionId
      && flow.holds[h].holdType == holdType && flow.holds[h].resolution == Unresolved
  }

  // A revision has at most one active hold of a type.
  function AddHold(flow: Flow, id: Id, revisionId: Id, groupId: Option<Id>, holdType: HoldType): Result<Flow, FlowError> {
    if HoldActive(flow, revisionId, holdType) then Failure(FlowConstraint)
    else Success(flow.(holds := flow.holds[id := WorkflowHold(revisionId, groupId, holdType, Unresolved)]))
  }

  // ------------------------------------------------------------------------
  // Queue access

  predicate TargetLive(flow: Flow, videoId: Id, k: RunKey) {
    k in flow.runs && Live(flow.runs[k]) && k.0 in flow.groups && flow.groups[k.0].videoId == videoId
  }

  function RunJob(flow: Flow, actorId: Id, k: RunKey, maxAttempts: nat): JobInput
    requires k.0 in flow.groups
  {
    var group := flow.groups[k.0];
    JobInput(group.videoId, actorId, V11Content, Run(k.0, k.1), group.revisionId, Some(maxAttempts), true)
  }

  ghost function EnqueueRun(db: Db, now: Time, jobId: Id, actorId: Id, k: RunKey, maxAttempts: nat): Result<Db, FlowError>
    requires k.0 in db.flow.groups
  {
    var live := TargetLive(db.flow, db.flow.groups[k.0].videoId, k);
    match Enqueue(db.core, now, jobId, RunJob(db.flow, actorId, k, maxAttempts), None, live, false)
    case Failure(e) => Failure(QueueFailure(e))
    case Success(core) => Success(db.(core := core))
  }

  function FinishJob(db: Db, now: Time, id: Id, token: Id, outcome: Outcome): Result<Db, FlowError> {
    match FinishCurrent(db.core, now, id, token, outcome)
    case Failure(e) => Failure(QueueFailure(e))
    case Success(core) => Success(db.(core := core))
  }

  function KeyOf(job: Job): RunKey
    requires job.target.Run?
  {
    (job.target.groupId, job.target.runNumber)
  }

  predicate IsRunJob(core: Core, id: Id) {
    id in core.queue.jobs && core.queue.jobs[id].stage == V11Content && core.queue.jobs[id].target.Run?
  }

  // assertCurrent: the lease is live, and the run is live on the current revision it was queued for.
  predicate Bound(db: Db, now: Time, id: Id, token: Id) {
    && IsRunJob(db.core, id)
    && LeaseLive(db.core.queue, now, id, token)
    && var job := db.core.queue.jobs[id];
    && TargetLive(db.flow, job.videoId, KeyOf(job))
    && var revisionId := db.flow.groups[job.target.groupId].revisionId;
    && revisionId == job.revisionId
    && revisionId in db.flow.revisions && db.flow.revisions[revisionId].status == Current
  }

  // ------------------------------------------------------------------------
  // trigger

  datatype TriggerInput = TriggerInput(
    videoId: Id, actorId: Id, pilot: bool, featureEnabled: bool, featureShadow: bool, permitted: bool,
    fingerprint: string, inputComplete: bool, revisionId: Id, groupId: Id, jobId: Id)

  predicate OnlyInstability(flow: Flow, r: Id) {
    && ActiveAppeals(flow, r) == {}
    && |ActiveHolds(flow, r)| == 1
    && forall h :: h in ActiveHolds(flow, r) ==> flow.holds[h].holdType == EvaluationInstability
  }

  const OPEN_STATUSES: set<GroupStatus> := {GroupQueued, GroupRunning, ReviewRequired}
  const REUSABLE_STATUSES: set<GroupStatus> := OPEN_STATUSES + {GroupAdopted}

  // A formal retry of a held revision that has no decision yet.
  predicate FormalRetry(flow: Flow, r: Id, shadow: bool)
    requires r in flow.revisions
  {
    && !shadow && ModeOf(flow, r) == Some(false) && flow.revisions[r].activeDecision.None?
    && (ActiveHolds(flow, r) != {} || ActiveAppeals(flow, r) != {})
  }

  // The revision a trigger works on: the current one, or a new one after an
  // instability hold or a change of mode.
  ghost function WorkflowFor(flow: Flow, videoId: Id, shadow: bool, newId: Id): Result<(Flow, Id), FlowError> {
    match CurrentOf(flow.revisions, videoId)
    case None => Success((FirstRevision(flow, newId, videoId, shadow), newId))
    case Some(r) =>
      if FormalRetry(flow, r, shadow) then
        if OnlyInstability(flow, r) then Success((NextRevision(flow, r, newId, Some(false)), newId)) else Failure(FlowConflict)
      else if ModeOf(flow, r) == Some(!shadow) then
        Success((NextRevision(CloseWork(flow, r, OPEN_STATUSES), r, newId, Some(shadow)), newId))
      else Success((flow, r))
  }

  predicate IsDuplicate(flow: Flow, g: Id, ownerId: Id, shadow: bool, fingerprint: string) {
    && g in flow.groups
    && flow.groups[g].ownerId == ownerId && flow.groups[g].shadow == shadow && !flow.groups[g].pilot
    && flow.groups[g].status in REUSABLE_STATUSES && flow.groups[g].fingerprint == fingerprint
  }

  ghost function Trigger(db: Db, now: Time, t: TriggerInput): Result<Db, FlowError> {
    if !t.featureEnabled || (t.featureShadow && !t.pilot) then Failure(FlowConflict)
    else if t.videoId !in db.flow.videos then Failure(FlowNotFound)
    else if !t.permitted then Failure(FlowForbidden)
    else
      var shadow := t.pilot;
      var ownerId := db.flow.videos[t.videoId].creatorId;
      var workflow :- WorkflowFor(db.flow, t.videoId, shadow, t.revisionId);
      if !t.pilot && exists g :: IsDuplicate(workflow.0, g, ownerId, shadow, t.fingerprint) then Success(db.(flow := workflow.0))
      else
        var group := Group(t.videoId, ownerId, workflow.1, false, shadow, t.pilot, t.fingerprint, t.inputComplete, GroupQueued, 0);
        EnqueueRun(db.(flow := OpenGroup(workflow.0, t.groupId, group)), now, t.jobId, t.actorId, (t.groupId, 1),
                   if t.pilot then 1 else 2)
  }

  // ------------------------------------------------------------------------
  // executeJob

  const TECHNICAL_ATTEMPT_LIMIT: nat := 6

  function Begin(db: Db, now: Time, id: Id, token: Id): Result<Db, FlowError> {
    if !Bound(db, now, id, token) then Failure(QueueFailure(LeaseLost))
    else
      var k := KeyOf(db.core.queue.jobs[id]);
      var group := db.flow.groups[k.0];
      if group.technicalAttempts >= TECHNICAL_ATTEMPT_LIMIT then Failure(AttemptLimit)
      else
        var groups := db.flow.groups[k.0 := group.(status := GroupRunning, technicalAttempts := group.technicalAttempts + 1)];
        Success(db.(flow := SetRun(db.flow, k, RunRunning).(groups := groups)))
  }

  // The catch block: the run and the job fail together, if the lease still holds.
  function Fail(db: Db, now: Time, id: Id, token: Id): Result<Db, FlowError> {
    if !IsRunJob(db.core, id) then Failure(QueueFailure(LeaseLost))
    else FinishJob(db.(flow := FailRun(db.flow, KeyOf(db.core.queue.jobs[id]))), now, id, token, Failure')
  }

  // What the first-run check looks at besides the run itself.
  datatype FirstCheck = FirstCheck(eligiblePilotCount: nat, bucket: nat, historicalScore: Option<int>, hasAudio: Option<bool>)

  datatype Completion = Completion(
    output: RunOutput, check: FirstCheck, nextJobId: Id, decisionId: Id, holdId: Id)

  // The engine's decision once the group has succeeded runs with these reviews.
  ghost function ProgressOf(reviews: seq<ReviewRun>, appeal: bool, check: FirstCheck): Result<ReviewEngine.Progress, EngineError> {
    if |reviews| == 1 then
      if RequiresIndependentReview(check.eligiblePilotCount, check.bucket, reviews[0].score, reviews[0].rating,
                                   check.historicalScore, FirstRunContradiction(reviews[0], check.hasAudio), appeal)
      then Success(SecondReview)
      else Success(Adopt(SingleAfterPilot, reviews[0].anchors, reviews[0].score, reviews[0].rating))
    else Decide(reviews)
  }

  // Resolving the appeal that asked for this group, and its hold.
  function ResolveByGroup(flow: Flow, g: Id): Flow {
    flow.(
      appeals := map a | a in flow.appeals ::
        if flow.appeals[a].rerunGroupId == g && flow.appeals[a].resolution == Unresolved
        then flow.appeals[a].(resolution := Resolved) else flow.appeals[a],
      holds := map h | h in flow.holds ::
        if flow.holds[h].groupId == Some(g) && flow.holds[h].holdType == UnderAppeal && flow.holds[h].resolution == Unresolved
        then flow.holds[h].(resolution := Resolved) else flow.holds[h])
  }

  // The gate of an adopted formal decision; a revision has at most one.
  function PassGate(flow: Flow, g: Id, decision: Decision, holdId: Id): Result<Flow, FlowError>
    requires g in flow.groups
  {
    var r := decision.revisionId;
    var blocked := ActiveHolds(flow, r) != {} || ActiveAppeals(flow, r) != {};
    if decision.compliance != Clear then
      if r in flow.gates then Failure(FlowConstraint)
      else
        var held :- AddHold(flow.(gates := flow.gates[r := GateHold]), holdId, r, Some(g), ComplianceCheck);
        Success(SetGroup(held, g, GroupHeld))
    else if blocked then Success(flow)
    else if r in flow.gates then Failure(FlowConstraint)
    else
      var gate := if decision.rating in {APlus, A, B, BMinus} then Approved else RevisionRequired;
      Success(flow.(gates := flow.gates[r := gate]))
  }

  predicate HasDecision(flow: Flow, g: Id) {
    exists d :: d in flow.decisions && flow.decisions[d].groupId == g
  }

  function RecordDecision(flow: Flow, g: Id, id: Id, decision: Decision): Flow
    requires g in flow.groups && decision.revisionId in flow.revisions
  {
    var pointed := flow.revisions[decision.revisionId].(activeDecision := Some(id));
    SetGroup(flow.(decisions := flow.decisions[id := decision], revisions := flow.revisions[decision.revisionId := pointed]),
             g, GroupAdopted)
  }

  function AdoptDecision(flow: Flow, g: Id, id: Id, decision: Decision, holdId: Id): Result<Flow, FlowError>
    requires g in flow.groups && decision.revisionId in flow.revisions
  {
    if HasDecision(flow, g) then Failure(FlowConstraint)
    else
      var adopted := RecordDecision(flow, g, id, decision);
      var settled := if flow.groups[g].appeal then ResolveByGroup(adopted, g) else adopted;
      if flow.groups[g].shadow then Success(settled) else PassGate(settled, g, decision, holdId)
  }

  function AdoptRun(db: Db, now: Time, id: Id, token: Id, decisionId: Id, decision: Decision, holdId: Id): Result<Db, FlowError>
    requires decision.groupId in db.flow.groups && decision.revisionId in db.flow.revisions
  {
    var flow :- AdoptDecision(db.flow, decision.groupId, decisionId, decision, holdId);
    FinishJob(db.(flow := flow), now, id, token, Success')
  }

  function HoldRun(db: Db, now: Time, id: Id, token: Id, g: Id, holdId: Id, holdType: HoldType): Result<Db, FlowError>
    requires g in db.flow.groups
  {
    var held :- AddHold(db.flow, holdId, db.flow.groups[g].revisionId, Some(g), holdType);
    FinishJob(db.(flow := SetGroup(held, g, GroupHeld)), now, id, token, Success')
  }

  // The next run of the group takes over, with a job of its own.
  ghost function ContinueRun(db: Db, now: Time, id: Id, token: Id, k: RunKey, actorId: Id, nextJobId: Id): Result<Db, FlowError>
    requires k.0 in db.flow.groups
  {
    if k in db.flow.runs then Failure(FlowConstraint)
    else
      var finished :- FinishJob(db.(flow := SetRun(db.flow, k, RunPending)), now, id, token, Success');
      var queued :- EnqueueRun(finished, now, nextJobId, actorId, k, 2);
      Success(queued.(flow := SetGroup(queued.flow, k.0, ReviewRequired)))
  }

  // What the engine's answer means for a group with these succeeded runs.
  ghost function Proceed(db: Db, now: Time, id: Id, token: Id, g: Id, numbers: seq<nat>, c: Completion, p: ReviewEngine.Progress)
    : Result<Db, FlowError>
    requires id in db.core.queue.jobs && g in db.flow.groups && db.flow.groups[g].revisionId in db.flow.revisions
    requires HasOutputs(db.flow.runs, g, numbers)
  {
    match p
    case Adopt(adoption, anchors, score, rating) =>
      var compliance := WorstCompliance(Reviews(db.flow.runs, g, numbers));
      var decision := Decision(g, db.flow.groups[g].revisionId, numbers, anchors, score, rating, compliance, adoption);
      AdoptRun(db, now, id, token, c.decisionId, decision, c.holdId)
    case Hold(_) => HoldRun(db, now, id, token, g, c.holdId, EvaluationInstability)
    case _ => ContinueRun(db, now, id, token, (g, |numbers| + 1), db.core.queue.jobs[id].actorId, c.nextJobId)
  }

  // What the succeeded runs of the group lead to. The job's lease has been checked.
  ghost function Conclude(db: Db, now: Time, id: Id, token: Id, c: Completion): Result<Db, FlowError>
    requires id in db.core.queue.jobs && db.core.queue.jobs[id].target.Run?
    requires KeyOf(db.core.queue.jobs[id]).0 in db.flow.groups
    requires db.flow.groups[KeyOf(db.core.queue.jobs[id]).0].revisionId in db.flow.revisions
    requires HasOutputs(db.flow.runs, KeyOf(db.core.queue.jobs[id]).0, SucceededNumbers(db.flow.runs, KeyOf(db.core.queue.jobs[id]).0))
  {
    var g := KeyOf(db.core.queue.jobs[id]).0;
    var numbers := SucceededNumbers(db.flow.runs, g);
    match ProgressOf(Reviews(db.flow.runs, g, numbers), db.flow.groups[g].appeal, c.check)
    case Failure(e) => Failure(EngineFailure(e))
    case Success(p) => Proceed(db, now, id, token, g, numbers, c, p)
  }

  lemma {:induction false} SucceededHaveOutputs(runs: map<RunKey, RunState>, g: Id, n: nat)
    ensures HasOutputs(runs, g, SucceededUpTo(runs, g, n))
  {
    if n > 0 { SucceededHaveOutputs(runs, g, n - 1); }
  }

  // The run has succeeded: a pilot is done, an incomplete answer is held, and a
  // complete one is put before the engine.
  ghost function Weigh(db: Db, now: Time, id: Id, token: Id, g: Id, c: Completion): Result<Db, FlowError>
    requires IsRunJob(db.core, id) && KeyOf(db.core.queue.jobs[id]).0 == g
    requires g in db.flow.groups && db.flow.groups[g].revisionId in db.flow.revisions
  {
    var complete := db.flow.groups[g].inputComplete && c.output.complete;
    if db.flow.groups[g].pilot then
      FinishJob(db.(flow := SetGroup(db.flow, g, if complete then PilotCompleted else PilotIncomplete)), now, id, token, Success')
    else if !complete then HoldRun(db, now, id, token, g, c.holdId, InputIncomplete)
    else
      SucceededHaveOutputs(db.flow.runs, g, RunCount(db.flow.runs, g));
      Conclude(db, now, id, token, c)
  }

  // The run's revision is no longer current.
  predicate IsStale(flow: Flow, k: RunKey) {
    && k.0 in flow.groups && !flow.groups[k.0].pilot
    && flow.groups[k.0].revisionId in flow.revisions
    && flow.revisions[flow.groups[k.0].revisionId].status != Current
  }

  // The answer of a stale run is dropped, and its job fails.
  function DropStale(db: Db, now: Time, id: Id, token: Id, k: RunKey): Result<Db, FlowError> {
    var groups :=
      if k.0 in db.flow.groups && db.flow.groups[k.0].status in OPEN_STATUSES
      then db.flow.groups[k.0 := db.flow.groups[k.0].(status := GroupSuperseded)] else db.flow.groups;
    FinishJob(db.(flow := SetRun(db.flow, k, RunStale).(groups := groups)), now, id, token, Failure')
  }

  // The transaction after the model's answer has been parsed and scored.
  ghost function Complete(db: Db, now: Time, id: Id, token: Id, c: Completion): Result<Db, FlowError> {
    if !Bound(db, now, id, token) then Failure(QueueFailure(LeaseLost))
    else if IsStale(db.flow, KeyOf(db.core.queue.jobs[id])) then DropStale(db, now, id, token, KeyOf(db.core.queue.jobs[id]))
    else
      var k := KeyOf(db.core.queue.jobs[id]);
      Weigh(db.(flow := SetRun(db.flow, k, RunSucceeded(c.output))), now, id, token, k.0, c)
  }

  // ------------------------------------------------------------------------
  // Recovery, with what abandoning a run's job does to the run

  function Recover(db: Db, now: Time, id: Id, videoLocked: bool): Result<Db, FlowError> {
    match RecoverOne(db.core, now, id, videoLocked)
    case Failure(e) => Failure(QueueFailure(e))
    case Success(core) =>
      if !videoLocked && LeaseExpired(db.core.queue, now, id) && MustAbandon(db.core.queue.jobs[id]) && IsRunJob(db.core, id)
      then Success(Db(core, FailRun(db.flow, KeyOf(db.core.queue.jobs[id]))))
      else Success(db.(core := core))
  }

  // ------------------------------------------------------------------------
  // Appeals and holds

  datatype AppealInput = AppealInput(
    videoId: Id, decisionId: Id, actorId: Id, visible: bool, revisionId: Id, groupId: Id, appealId: Id, holdId: Id, jobId: Id)

  predicate AppealActive(flow: Flow, decisionId: Id) {
    exists a :: a in flow.appeals && flow.appeals[a].decisionId == decisionId && flow.appeals[a].resolution == Unresolved
  }

  function OpenAppeal(flow: Flow, a: AppealInput): Flow
    requires a.decisionId in flow.decisions && flow.decisions[a.decisionId].groupId in flow.groups
    requires flow.decisions[a.decisionId].revisionId in flow.revisions && a.videoId in flow.videos
  {
    var decision := flow.decisions[a.decisionId];
    var source := flow.groups[decision.groupId];
    var next := NextRevision(CloseWork(flow, decision.revisionId, REUSABLE_STATUSES), decision.revisionId, a.revisionId, None);
    var group := Group(a.videoId, flow.videos[a.videoId].creatorId, a.revisionId, true, source.shadow, false,
                       source.fingerprint, source.inputComplete, GroupQueued, 0);
    OpenGroup(next, a.groupId, group).(
      appeals := flow.appeals[a.appealId := Appeal(a.videoId, a.revisionId, a.decisionId, a.groupId, Unresolved)],
      holds := flow.holds[a.holdId := WorkflowHold(a.revisionId, Some(a.groupId), UnderAppeal, Unresolved)])
  }

  ghost function SubmitAppeal(db: Db, now: Time, a: AppealInput): Result<Db, FlowError> {
    var flow := db.flow;
    if a.videoId !in flow.videos || !a.visible then Failure(FlowNotFound)
    else if !flow.videos[a.videoId].active then Failure(FlowConflict)
    else if a.decisionId !in flow.decisions || flow.decisions[a.decisionId].groupId !in flow.groups
            || flow.groups[flow.decisions[a.decisionId].groupId].videoId != a.videoId then Failure(FlowNotFound)
    else if flow.decisions[a.decisionId].revisionId !in flow.revisions
            || flow.revisions[flow.decisions[a.decisionId].revisionId].status != Current then Failure(FlowConflict)
    else if AppealActive(flow, a.decisionId) then Failure(FlowConflict)
    else EnqueueRun(db.(flow := OpenAppeal(flow, a)), now, a.jobId, a.actorId, (a.groupId, 1), 2)
  }

  ghost function PlaceHold(flow: Flow, videoId: Id, visible: bool, holdId: Id): Result<Flow, FlowError> {
    if videoId !in flow.videos || !visible then Failure(FlowNotFound)
    else if !flow.videos[videoId].active then Failure(FlowConflict)
    else match CurrentOf(flow.revisions, videoId)
      case None => Failure(FlowConflict)
      case Some(r) =>
        if HoldActive(flow, r, Manual) then Failure(FlowConflict) else AddHold(flow, holdId, r, None, Manual)
  }

  predicate IsManualHold(flow: Flow, r: Id, h: Id) {
    h in ActiveHolds(flow, r) && flow.holds[h].holdType == Manual
  }

  ghost function Resume(flow: Flow, videoId: Id, visible: bool): Result<Flow, FlowError> {
    if videoId !in flow.videos || !visible then Failure(FlowNotFound)
    else if !flow.videos[videoId].active then Failure(FlowConflict)
    else match CurrentOf(flow.revisions, videoId)
      case None => Failure(FlowConflict)
      case Some(r) =>
        if !exists h: Id :: IsManualHold(flow, r, h) then Failure(FlowConflict)
        else
          var h: Id :| IsManualHold(flow, r, h);
          if ActiveHolds(flow, r) != {h} then Failure(FlowConflict)
          else Success(flow.(holds := flow.holds[h := flow.holds[h].(resolution := Resolved)]))
  }

  function CloseAppeal(flow: Flow, appealId: Id, resolution: Resolution): Flow
    requires appealId in flow.appeals
  {
    var appeal := flow.appeals[appealId];
    flow.(
      appeals := flow.appeals[appealId := appeal.(resolution := resolution)],
      holds := map h | h in flow.holds ::
        if flow.holds[h].revisionId == appeal.revisionId && flow.holds[h].holdType == UnderAppeal
           && flow.holds[h].resolution == Unresolved
        then flow.holds[h].(resolution := resolution) else flow.holds[h])
  }

  function ResolveAppeal(flow: Flow, videoId: Id, appealId: Id, rejected: bool): Result<Flow, FlowError> {
    if videoId !in flow.videos then Failure(FlowNotFound)
    else if !flow.videos[videoId].active then Failure(FlowConflict)
    else if appealId !in flow.appeals || flow.appeals[appealId].videoId != videoId
            || flow.appeals[appealId].resolution != Unresolved then Failure(FlowNotFound)
    else Success(CloseAppeal(flow, appealId, if rejected then Rejected else Resolved))
  }

  // ------------------------------------------------------------------------
  // Transactions as events

  datatype Event =
    | CoreEvent(op: Op)
    | TriggerEvent(trigger: TriggerInput)
    | BeginEvent(id: Id, token: Id)
    | CompleteEvent(id: Id, token: Id, completion: Completion)
    | FailEvent(id: Id, token: Id)
    | RecoverEvent(id: Id, videoLocked: bool)
    | AppealEvent(appeal: AppealInput)
    | HoldEvent(videoId: Id, visible: bool, holdId: Id)
    | ResumeEvent(videoId: Id, visible: bool)
    | ResolveEvent(videoId: Id, appealId: Id, rejected: bool)
    | VideoEvent(videoId: Id, video: Video)

  // Runs of the workflow are queued, marked, finished and recovered by the
  // events that also keep the workflow's own rows.
  ghost predicate LeavesRunsAlone(db: Db, now: Time, op: Op) {
    match op
    case OpEnqueue(_, input, _, _) => input.stage != V11Content
    case OpMark(id, token, bindingValid, _) => IsRunJob(db.core, id) ==> bindingValid == Bound(db, now, id, token)
    case OpFinish(id, _, _) => id in db.core.queue.jobs ==> db.core.queue.jobs[id].stage != V11Content
    case OpRecover(_, _) => false
    case _ => true
  }

  // New rows get fresh identifiers, and a complete output carries the score and
  // rating that the scoring code computes for its anchors.
  ghost predicate Acceptable(db: Db, now: Time, e: Event) {
    match e
    case CoreEvent(op) => LeavesRunsAlone(db, now, op)
    case TriggerEvent(t) =>
      t.revisionId !in db.flow.revisions && t.groupId !in db.flow.groups && t.jobId !in db.core.queue.jobs
    case CompleteEvent(_, _, c) =>
      && c.nextJobId !in db.core.queue.jobs && c.decisionId !in db.flow.decisions && c.holdId !in db.flow.holds
      && (c.output.complete ==> Scored(c.output.review))
    case AppealEvent(a) =>
      && a.revisionId !in db.flow.revisions && a.groupId !in db.flow.groups && a.jobId !in db.core.queue.jobs
      && a.appealId !in db.flow.appeals && a.holdId !in db.flow.holds
    case HoldEvent(_, _, holdId) => holdId !in db.flow.holds
    case _ => true
  }

  ghost function FlowOnly(db: Db, r: Result<Flow, FlowError>): Result<Db, FlowError> {
    match r case Success(flow) => Success(db.(flow := flow)) case Failure(e) => Failure(e)
  }

  ghost function ResultOf(db: Db, now: Time, e: Event): Result<Db, FlowError> {
    match e
    case CoreEvent(op) => Success(db.(core := Step(db.core, now, op)))
    case TriggerEvent(t) => Trigger(db, now, t)
    case BeginEvent(id, token) => Begin(db, now, id, token)
    case CompleteEvent(id, token, c) => Complete(db, now, id, token, c)
    case FailEvent(id, token) => Fail(db, now, id, token)
    case RecoverEvent(id, videoLocked) => Recover(db, now, id, videoLocked)
    case AppealEvent(a) => SubmitAppeal(db, now, a)
    case HoldEvent(videoId, visible, holdId) => FlowOnly(db, PlaceHold(db.flow, videoId, visible, holdId))
    case ResumeEvent(videoId, visible) => FlowOnly(db, Resume(db.flow, videoId, visible))
    case ResolveEvent(videoId, appealId, rejected) => FlowOnly(db, ResolveAppeal(db.flow, videoId, appealId, rejected))
    case VideoEvent(videoId, video) => Success(db.(flow := db.flow.(videos := db.flow.videos[videoId := video])))
  }

  ghost function Happen(db: Db, now: Time, e: Event): Db {
    if !Acceptable(db, now, e) then db
    else match ResultOf(db, now, e) case Success(after) => after case Failure(_) => db
  }
}
