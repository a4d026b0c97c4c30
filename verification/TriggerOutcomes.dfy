// What a trigger does with the video's current revision, and when it refuses: the
// revision is started, kept, retried after instability, cut over or left held.
module TriggerOutcomes {
  import opened Basics
  import opened QueueModel
  import opened WorkflowModel
  import opened WorkflowInvariant
  import opened WorkflowSafety
  import opened WorkflowEvents

  // ------------------------------------------------------------------------
  // Who may trigger

  predicate Admitted(flow: Flow, t: TriggerInput) {
    t.featureEnabled && (t.featureShadow ==> t.pilot) && t.videoId in flow.videos && t.permitted
  }

  // Formal evaluations need the feature out of shadow mode; then the video must exist
  // and the caller be permitted.
  lemma TriggerRefusals(db: Db, now: Time, t: TriggerInput)
    ensures !t.featureEnabled || (t.featureShadow && !t.pilot) ==> Trigger(db, now, t) == Failure(FlowConflict)
    ensures t.featureEnabled && (t.featureShadow ==> t.pilot) && t.videoId !in db.flow.videos ==>
              Trigger(db, now, t) == Failure(FlowNotFound)
    ensures t.featureEnabled && (t.featureShadow ==> t.pilot) && t.videoId in db.flow.videos && !t.permitted ==>
              Trigger(db, now, t) == Failure(FlowForbidden)
  {
  }

  // ------------------------------------------------------------------------
  // The revision

  predicate OpenHold(flow: Flow, h: Id, r: Id) {
    h in flow.holds && flow.holds[h].revisionId == r && flow.holds[h].resolution == Unresolved
  }

  predicate OpenAppealOn(flow: Flow, a: Id, r: Id) {
    a in flow.appeals && flow.appeals[a].revisionId == r && flow.appeals[a].resolution == Unresolved
  }

  // Something but a single instability hold is open on the revision.
  ghost predicate HeldFast(flow: Flow, r: Id) {
    || (exists h :: OpenHold(flow, h, r) && flow.holds[h].holdType != EvaluationInstability)
    || (exists h, k :: OpenHold(flow, h, r) && OpenHold(flow, k, r) && h != k)
    || (exists a :: OpenAppealOn(flow, a, r))
  }

  // A single instability hold, and nothing else, is open on the revision.
  ghost predicate OnlyUnstable(flow: Flow, r: Id) {
    (exists h :: OpenHold(flow, h, r)) && !HeldFast(flow, r)
  }

  ghost predicate Free(flow: Flow, r: Id) {
    (forall h :: !OpenHold(flow, h, r)) && (forall a :: !OpenAppealOn(flow, a, r))
  }

  predicate Formal(flow: Flow, r: Id)
    requires r in flow.revisions
  {
    flow.revisions[r].shadowMode == Some(false)
  }

  predicate Decided(flow: Flow, r: Id)
    requires r in flow.revisions
  {
    flow.revisions[r].activeDecision.Some?
  }

  lemma HoldsAreOpen(flow: Flow, r: Id)
    ensures Free(flow, r) <==> ActiveHolds(flow, r) == {} && ActiveAppeals(flow, r) == {}
    ensures !Free(flow, r) ==> (OnlyUnstable(flow, r) <==> OnlyInstability(flow, r))
  {
    forall h ensures OpenHold(flow, h, r) <==> h in ActiveHolds(flow, r) {}
    forall a ensures OpenAppealOn(flow, a, r) <==> a in ActiveAppeals(flow, r) {}
    if |ActiveHolds(flow, r)| == 1 { OnlyOne(ActiveHolds(flow, r)); }
    if OnlyUnstable(flow, r) {
      var h: Id :| OpenHold(flow, h, r);
      assert ActiveHolds(flow, r) == {h};
    }
  }

  lemma OnlyOne(s: set<Id>)
    requires |s| == 1
    ensures exists h :: h in s && s == {h}
  {
    var h :| h in s;
    assert |s - {h}| == 0;
    assert s == (s - {h}) + {h};
  }

  // The revision has made way for one with the next number.
  predicate Renewed(revisions: map<Id, Revision>, after: map<Id, Revision>, r: Id, id: Id, mode: Option<bool>)
    requires r in revisions
  {
    && after.Keys == revisions.Keys + {id}
    && after[r] == revisions[r].(status := Superseded)
    && after[id] == Revision(revisions[r].videoId, revisions[r].number + 1, Current, mode, None)
    && forall s :: s in revisions && s != r ==> after[s] == revisions[s]
  }

  lemma RenumberedIsRenewed(revisions: map<Id, Revision>, r: Id, id: Id, mode: Option<bool>)
    requires r in revisions && id !in revisions
    ensures Renewed(revisions, Renumbered(revisions, r, id, mode), r, id, mode)
  {
  }

  // What a trigger that goes through makes of the workflow it was given.
  lemma TriggerKeepsWorkflow(db: Db, now: Time, t: TriggerInput)
    requires Acceptable(db, now, TriggerEvent(t)) && Trigger(db, now, t).Success?
    ensures WorkflowFor(db.flow, t.videoId, t.pilot, t.revisionId).Success?
    ensures var flow := WorkflowFor(db.flow, t.videoId, t.pilot, t.revisionId).value.0;
            var after := Trigger(db, now, t).value.flow;
            && after.revisions == flow.revisions && after.holds == flow.holds && after.appeals == flow.appeals
            && (forall k :: k in flow.runs && k != (t.groupId, 1) ==> k in after.runs && after.runs[k] == flow.runs[k])
            && (forall g :: g in flow.groups && g != t.groupId ==> g in after.groups && after.groups[g] == flow.groups[g])
  {
    TriggerCases(db, now, t);
    var (flow, r) := WorkflowFor(db.flow, t.videoId, t.pilot, t.revisionId).value;
    var withGroup := db.(flow := OpenGroup(flow, t.groupId, NewGroup(t, db.flow.videos[t.videoId].creatorId, r)));
    if !(Trigger(db, now, t) == Success(db.(flow := flow))) {
      EnqueueRunIsStep(withGroup, now, t.jobId, t.actorId, (t.groupId, 1), if t.pilot then 1 else 2);
    }
  }

  lemma WorkflowFails(db: Db, now: Time, t: TriggerInput)
    requires Admitted(db.flow, t)
    ensures WorkflowFor(db.flow, t.videoId, t.pilot, t.revisionId).Failure? ==>
              Trigger(db, now, t) == Failure(WorkflowFor(db.flow, t.videoId, t.pilot, t.revisionId).error)
    ensures WorkflowFor(db.flow, t.videoId, t.pilot, t.revisionId).Success? ==> Trigger(db, now, t) != Failure(FlowConflict)
  {
  }

  // A formal trigger on a formal revision that waits for its decision and is held for
  // any reason but a single instability is refused.
  lemma HeldRevisionIsRefused(db: Db, now: Time, t: TriggerInput, r: Id)
    requires RevisionsOk(db.flow.revisions) && Admitted(db.flow, t) && !t.pilot
    requires IsCurrent(db.flow.revisions, t.videoId, r) && Formal(db.flow, r) && !Decided(db.flow, r)
    requires HeldFast(db.flow, r)
    ensures Trigger(db, now, t) == Failure(FlowConflict)
  {
    OneCurrent(db.flow.revisions, t.videoId, r, r);
    HoldsAreOpen(db.flow, r);
    WorkflowFails(db, now, t);
  }

  // Held by a single instability, it is retried on a new formal revision; no run, group
  // or hold of the old one changes.
  lemma UnstableRevisionIsRetried(db: Db, now: Time, t: TriggerInput, r: Id)
    requires RevisionsOk(db.flow.revisions) && Admitted(db.flow, t) && !t.pilot
    requires IsCurrent(db.flow.revisions, t.videoId, r) && Formal(db.flow, r) && !Decided(db.flow, r)
    requires OnlyUnstable(db.flow, r) && Acceptable(db, now, TriggerEvent(t))
    ensures Trigger(db, now, t) != Failure(FlowConflict)
    ensures Trigger(db, now, t).Success? ==>
              var after := Trigger(db, now, t).value.flow;
              && Renewed(db.flow.revisions, after.revisions, r, t.revisionId, Some(false))
              && after.holds == db.flow.holds && after.appeals == db.flow.appeals
              && (forall k :: k in db.flow.runs && k.0 != t.groupId ==> k in after.runs && after.runs[k] == db.flow.runs[k])
              && (forall g :: g in db.flow.groups ==> g in after.groups && after.groups[g] == db.flow.groups[g])
  {
    OneCurrent(db.flow.revisions, t.videoId, r, r);
    HoldsAreOpen(db.flow, r);
    WorkflowFails(db, now, t);
    RenumberedIsRenewed(db.flow.revisions, r, t.revisionId, Some(false));
    if Trigger(db, now, t).Success? { TriggerKeepsWorkflow(db, now, t); }
  }

  // Whether the revision runs in the other mode than the trigger asks for. A decided
  // revision is formal; one that an appeal opened has no mode until then.
  predicate OtherMode(flow: Flow, r: Id, pilot: bool)
    requires r in flow.revisions
  {
    if Decided(flow, r) then pilot else flow.revisions[r].shadowMode == Some(!pilot)
  }

  lemma ModeIs(flow: Flow, r: Id, pilot: bool)
    requires FlowOk(flow) && r in flow.revisions
    ensures OtherMode(flow, r, pilot) <==> ModeOf(flow, r) == Some(!pilot)
    ensures Decided(flow, r) ==> ModeOf(flow, r) == Some(false)
    ensures !Decided(flow, r) ==> ModeOf(flow, r) == flow.revisions[r].shadowMode
  {
    if Decided(flow, r) { AppealedGroupIsFormal(flow, flow.revisions[r].activeDecision.value); }
  }

  // The unfinished work of a revision is closed: its live runs are stale, its open
  // groups superseded, and everything else is as it was.
  ghost predicate WorkClosed(flow: Flow, after: Flow, r: Id, added: Id, adoptedToo: bool) {
    && (forall k :: k in flow.runs && k.0 != added ==>
          && k in after.runs
          && after.runs[k] == if k.0 in flow.groups && flow.groups[k.0].revisionId == r
                                 && (flow.runs[k] == RunPending || flow.runs[k] == RunRunning)
                              then RunStale else flow.runs[k])
    && (forall g :: g in flow.groups ==>
          && g in after.groups
          && var s := flow.groups[g].status;
             after.groups[g] == if flow.groups[g].revisionId == r
                                   && (s == GroupQueued || s == GroupRunning || s == ReviewRequired || (adoptedToo && s == GroupAdopted))
                                then flow.groups[g].(status := GroupSuperseded) else flow.groups[g])
  }

  lemma ClosedWork(flow: Flow, r: Id, added: Id)
    ensures WorkClosed(flow, CloseWork(flow, r, OPEN_STATUSES), r, added, false)
    ensures WorkClosed(flow, CloseWork(flow, r, REUSABLE_STATUSES), r, added, true)
  {
  }

  // A trigger in the other mode cuts over: the work of the revision is closed and a new
  // revision in the mode asked for takes its place, whatever holds the old one.
  lemma OtherModeIsCutOver(db: Db, now: Time, t: TriggerInput, r: Id)
    requires FlowOk(db.flow) && Admitted(db.flow, t) && Acceptable(db, now, TriggerEvent(t))
    requires IsCurrent(db.flow.revisions, t.videoId, r) && OtherMode(db.flow, r, t.pilot)
    ensures Trigger(db, now, t) != Failure(FlowConflict)
    ensures Trigger(db, now, t).Success? ==>
              var after := Trigger(db, now, t).value.flow;
              && Renewed(db.flow.revisions, after.revisions, r, t.revisionId, Some(t.pilot))
              && WorkClosed(db.flow, after, r, t.groupId, false)
              && after.holds == db.flow.holds && after.appeals == db.flow.appeals
  {
    OneCurrent(db.flow.revisions, t.videoId, r, r);
    ModeIs(db.flow, r, t.pilot);
    CutOverOutcome(db, now, t, r);
  }

  lemma CutOverOutcome(db: Db, now: Time, t: TriggerInput, r: Id)
    requires Admitted(db.flow, t) && Acceptable(db, now, TriggerEvent(t))
    requires CurrentOf(db.flow.revisions, t.videoId) == Some(r) && r in db.flow.revisions
    requires ModeOf(db.flow, r) == Some(!t.pilot)
    ensures Trigger(db, now, t) != Failure(FlowConflict)
    ensures Trigger(db, now, t).Success? ==>
              var after := Trigger(db, now, t).value.flow;
              && Renewed(db.flow.revisions, after.revisions, r, t.revisionId, Some(t.pilot))
              && WorkClosed(db.flow, after, r, t.groupId, false)
              && after.holds == db.flow.holds && after.appeals == db.flow.appeals
  {
    WorkflowFails(db, now, t);
    CutOverWorkflow(db.flow, t, r);
    RenumberedIsRenewed(db.flow.revisions, r, t.revisionId, Some(t.pilot));
    if Trigger(db, now, t).Success? {
      TriggerKeepsWorkflow(db, now, t);
      ClosedWork(db.flow, r, t.groupId);
    }
  }

  lemma CutOverWorkflow(flow: Flow, t: TriggerInput, r: Id)
    requires CurrentOf(flow.revisions, t.videoId) == Some(r) && r in flow.revisions && ModeOf(flow, r) == Some(!t.pilot)
    ensures WorkflowFor(flow, t.videoId, t.pilot, t.revisionId)
         == Success((NextRevision(CloseWork(flow, r, OPEN_STATUSES), r, t.revisionId, Some(t.pilot)), t.revisionId))
  {
  }

  // In the same mode, or without one, the revision is kept, unless it waits for its
  // formal decision and is held.
  lemma SameModeIsKept(db: Db, now: Time, t: TriggerInput, r: Id)
    requires FlowOk(db.flow) && Admitted(db.flow, t) && Acceptable(db, now, TriggerEvent(t))
    requires IsCurrent(db.flow.revisions, t.videoId, r) && !OtherMode(db.flow, r, t.pilot)
    requires !t.pilot && Formal(db.flow, r) && !Decided(db.flow, r) ==> Free(db.flow, r)
    ensures Trigger(db, now, t) != Failure(FlowConflict)
    ensures Trigger(db, now, t).Success? ==>
              var after := Trigger(db, now, t).value.flow;
              && after.revisions == db.flow.revisions && after.holds == db.flow.holds && after.appeals == db.flow.appeals
              && (forall k :: k in db.flow.runs && k.0 != t.groupId ==> k in after.runs && after.runs[k] == db.flow.runs[k])
              && (forall g :: g in db.flow.groups ==> g in after.groups && after.groups[g] == db.flow.groups[g])
  {
    OneCurrent(db.flow.revisions, t.videoId, r, r);
    ModeIs(db.flow, r, t.pilot);
    HoldsAreOpen(db.flow, r);
    KeptWorkflow(db.flow, t, r);
    WorkflowFails(db, now, t);
    if Trigger(db, now, t).Success? { TriggerKeepsWorkflow(db, now, t); }
  }

  lemma KeptWorkflow(flow: Flow, t: TriggerInput, r: Id)
    requires CurrentOf(flow.revisions, t.videoId) == Some(r) && r in flow.revisions && ModeOf(flow, r) != Some(!t.pilot)
    requires !t.pilot && ModeOf(flow, r) == Some(false) && flow.revisions[r].activeDecision.None? ==>
               ActiveHolds(flow, r) == {} && ActiveAppeals(flow, r) == {}
    ensures WorkflowFor(flow, t.videoId, t.pilot, t.revisionId) == Success((flow, r))
  {
  }

  // A video without a current revision gets its first one, in the mode asked for.
  lemma FirstTriggerStarts(db: Db, now: Time, t: TriggerInput)
    requires Admitted(db.flow, t) && Acceptable(db, now, TriggerEvent(t))
    requires forall r :: !IsCurrent(db.flow.revisions, t.videoId, r)
    ensures Trigger(db, now, t) != Failure(FlowConflict)
    ensures Trigger(db, now, t).Success? ==>
              Trigger(db, now, t).value.flow.revisions
              == db.flow.revisions[t.revisionId := Revision(t.videoId, 1, Current, Some(t.pilot), None)]
  {
    WorkflowFails(db, now, t);
    if Trigger(db, now, t).Success? { TriggerKeepsWorkflow(db, now, t); }
  }

  // ------------------------------------------------------------------------
  // The group

  // A formal group of the owner for the same input that is open or adopted.
  predicate SameRequest(flow: Flow, g: Id, ownerId: Id, fingerprint: string) {
    && g in flow.groups
    && flow.groups[g].ownerId == ownerId && flow.groups[g].fingerprint == fingerprint
    && !flow.groups[g].shadow && !flow.groups[g].pilot
    && var s := flow.groups[g].status; s == GroupQueued || s == GroupRunning || s == ReviewRequired || s == GroupAdopted
  }

  predicate IsFresh(db: Db, after: Db, t: TriggerInput) {
    && t.groupId in after.flow.groups
    && IsCurrent(after.flow.revisions, t.videoId, after.flow.groups[t.groupId].revisionId)
    && t.videoId in db.flow.videos
    && after.flow.groups[t.groupId]
       == Group(t.videoId, db.flow.videos[t.videoId].creatorId, after.flow.groups[t.groupId].revisionId, false, t.pilot, t.pilot,
                t.fingerprint, t.inputComplete, GroupQueued, 0)
    && (t.groupId, 1) in after.flow.runs && after.flow.runs[(t.groupId, 1)] == RunPending
    && t.jobId in after.core.queue.jobs
    && var j := after.core.queue.jobs[t.jobId];
    && j.videoId == t.videoId && j.actorId == t.actorId && j.stage == V11Content && j.target == Run(t.groupId, 1)
    && j.revisionId == after.flow.groups[t.groupId].revisionId
    && j.status == Queued && j.maxAttempts == if t.pilot then 1 else 2
  }

  lemma AddedGroup(db: Db, now: Time, t: TriggerInput, flow: Flow, r: Id)
    requires t.videoId in db.flow.videos && t.jobId !in db.core.queue.jobs && IsCurrent(flow.revisions, t.videoId, r)
    requires var owner := db.flow.videos[t.videoId].creatorId;
             EnqueueRun(db.(flow := OpenGroup(flow, t.groupId, NewGroup(t, owner, r))), now, t.jobId, t.actorId,
                        (t.groupId, 1), if t.pilot then 1 else 2).Success?
    ensures var owner := db.flow.videos[t.videoId].creatorId;
            var after := EnqueueRun(db.(flow := OpenGroup(flow, t.groupId, NewGroup(t, owner, r))), now, t.jobId, t.actorId,
                                    (t.groupId, 1), if t.pilot then 1 else 2).value;
            IsFresh(db, after, t) && after.flow == OpenGroup(flow, t.groupId, NewGroup(t, owner, r))
  {
    var withGroup := db.(flow := OpenGroup(flow, t.groupId, NewGroup(t, db.flow.videos[t.videoId].creatorId, r)));
    EnqueueRunIsStep(withGroup, now, t.jobId, t.actorId, (t.groupId, 1), if t.pilot then 1 else 2);
  }

  ghost predicate HasSameRequest(flow: Flow, t: TriggerInput, ownerId: Id) {
    exists g :: g != t.groupId && SameRequest(flow, g, ownerId, t.fingerprint)
  }

  lemma RequestsAreDuplicates(flow: Flow, t: TriggerInput, ownerId: Id, group: Group)
    requires t.groupId !in flow.groups
    ensures HasSameRequest(flow, t, ownerId) <==> exists g :: IsDuplicate(flow, g, ownerId, false, t.fingerprint)
    ensures HasSameRequest(OpenGroup(flow, t.groupId, group), t, ownerId) <==> HasSameRequest(flow, t, ownerId)
  {
    var after := OpenGroup(flow, t.groupId, group);
    forall g | g != t.groupId
      ensures SameRequest(flow, g, ownerId, t.fingerprint) <==> IsDuplicate(flow, g, ownerId, false, t.fingerprint)
      ensures SameRequest(after, g, ownerId, t.fingerprint) <==> SameRequest(flow, g, ownerId, t.fingerprint) {
    }
  }

  // A formal trigger reuses a group for the same request if there is one; every other
  // trigger opens a group with its first run and a job for it, on the current revision.
  lemma TriggerGroup(db: Db, now: Time, t: TriggerInput)
    requires FlowOk(db.flow) && Acceptable(db, now, TriggerEvent(t)) && Trigger(db, now, t).Success?
    ensures t.videoId in db.flow.videos
    ensures var after := Trigger(db, now, t).value;
            if !t.pilot && HasSameRequest(after.flow, t, db.flow.videos[t.videoId].creatorId)
            then after.core == db.core && t.groupId !in after.flow.groups
            else IsFresh(db, after, t)
  {
    TriggerCases(db, now, t);
    WorkflowForOk(db.flow, t.videoId, t.pilot, t.revisionId);
    var (flow, r) := WorkflowFor(db.flow, t.videoId, t.pilot, t.revisionId).value;
    var owner := db.flow.videos[t.videoId].creatorId;
    GroupOf(db, now, t, flow, r);
  }

  lemma GroupOf(db: Db, now: Time, t: TriggerInput, flow: Flow, r: Id)
    requires Trigger(db, now, t).Success? && t.videoId in db.flow.videos && t.jobId !in db.core.queue.jobs
    requires WorkflowFor(db.flow, t.videoId, t.pilot, t.revisionId) == Success((flow, r))
    requires IsCurrent(flow.revisions, t.videoId, r) && t.groupId !in flow.groups
    ensures var after := Trigger(db, now, t).value;
            if !t.pilot && HasSameRequest(after.flow, t, db.flow.videos[t.videoId].creatorId)
            then after.core == db.core && t.groupId !in after.flow.groups
            else IsFresh(db, after, t)
  {
    var owner := db.flow.videos[t.videoId].creatorId;
    TriggerPaths(db, now, t, flow, r);
    RequestsAreDuplicates(flow, t, owner, NewGroup(t, owner, r));
    if t.pilot || !HasSameRequest(flow, t, owner) { AddedGroup(db, now, t, flow, r); }
  }

  lemma TriggerPaths(db: Db, now: Time, t: TriggerInput, flow: Flow, r: Id)
    requires Trigger(db, now, t).Success? && t.videoId in db.flow.videos
    requires WorkflowFor(db.flow, t.videoId, t.pilot, t.revisionId) == Success((flow, r))
    ensures var owner := db.flow.videos[t.videoId].creatorId;
            Trigger(db, now, t)
            == if !t.pilot && exists g :: IsDuplicate(flow, g, owner, false, t.fingerprint) then Success(db.(flow := flow))
               else EnqueueRun(db.(flow := OpenGroup(flow, t.groupId, NewGroup(t, owner, r))), now, t.jobId, t.actorId,
                               (t.groupId, 1), if t.pilot then 1 else 2)
  {
  }
}
