// What the other workflow transactions answer: starting, failing and recovering a
// run, appeals, and manual holds.
module WorkflowOutcomes {
  import opened Basics
  import opened QueueModel
  import opened QueueInvariant
  import opened QueueOutcomes
  import opened WorkflowModel
  import opened WorkflowInvariant
  import opened WorkflowSafety
  import opened WorkflowEvents
  import opened WorkflowTheorems
  import opened TriggerOutcomes

  // ------------------------------------------------------------------------
  // Starting a run

  // The lease is live, the job's run is pending or running, and its revision is the
  // one the job was queued for and still current.
  predicate MayWork(db: Db, now: Time, id: Id, token: Id) {
    && id in db.core.queue.jobs
    && var j := db.core.queue.jobs[id];
    && j.stage == V11Content && j.target.Run?
    && j.status == Running && j.leaseToken == Some(token) && j.leaseExpiresAt.Some? && now < j.leaseExpiresAt.value
    && var k := (j.target.groupId, j.target.runNumber);
    && k in db.flow.runs && (db.flow.runs[k] == RunPending || db.flow.runs[k] == RunRunning)
    && k.0 in db.flow.groups
    && var group := db.flow.groups[k.0];
    && group.videoId == j.videoId && group.revisionId == j.revisionId
    && j.revisionId in db.flow.revisions && db.flow.revisions[j.revisionId].status == Current
  }

  lemma BoundMeans(db: Db, now: Time, id: Id, token: Id)
    ensures Bound(db, now, id, token) <==> MayWork(db, now, id, token)
  {
  }

  // A run is started at most six times in its group; each start is counted.
  lemma BeginOutcome(db: Db, now: Time, id: Id, token: Id)
    ensures !MayWork(db, now, id, token) ==> Begin(db, now, id, token) == Failure(QueueFailure(LeaseLost))
    ensures MayWork(db, now, id, token) ==>
              var k := KeyOf(db.core.queue.jobs[id]);
              var group := db.flow.groups[k.0];
              Begin(db, now, id, token)
              == if group.technicalAttempts >= 6 then Failure(AttemptLimit)
                 else Success(db.(flow := db.flow.(runs := db.flow.runs[k := RunRunning],
                   groups := db.flow.groups[k.0 := group.(status := GroupRunning, technicalAttempts := group.technicalAttempts + 1)])))
  {
    BoundMeans(db, now, id, token);
  }

  // ------------------------------------------------------------------------
  // Failing and recovering a run

  // A live run fails; its group fails unless it is under review or closed.
  ghost predicate RunFailedIn(flow: Flow, after: Flow, k: RunKey) {
    && after.(runs := flow.runs, groups := flow.groups) == flow
    && after.runs == (if k in flow.runs && (flow.runs[k] == RunPending || flow.runs[k] == RunRunning)
                      then flow.runs[k := RunFailed] else flow.runs)
    && after.groups == (if k.0 in flow.groups && (flow.groups[k.0].status == GroupQueued || flow.groups[k.0].status == GroupRunning)
                        then flow.groups[k.0 := flow.groups[k.0].(status := GroupFailed)] else flow.groups)
  }

  // A technical failure closes the job as failed, and fails the run.
  lemma FailOutcome(db: Db, now: Time, id: Id, token: Id)
    requires Inv(db.core)
    ensures Fail(db, now, id, token).Success? <==> IsRunJob(db.core, id) && LeaseLive(db.core.queue, now, id, token)
    ensures Fail(db, now, id, token).Failure? ==> Fail(db, now, id, token) == Failure(QueueFailure(LeaseLost))
    ensures Fail(db, now, id, token).Success? ==>
              var after := Fail(db, now, id, token).value;
              && RunFailedIn(db.flow, after.flow, KeyOf(db.core.queue.jobs[id]))
              && EndedWith(db.core.queue, after.core.queue, now, id, token, Failed, Some(EvaluationFailed))
  {
    if IsRunJob(db.core, id) && LeaseLive(db.core.queue, now, id, token) {
      FinishOutcome(db.core, now, id, token, Failure');
    }
  }

  lemma RecoverIsQueueRecovery(db: Db, now: Time, id: Id)
    requires LeaseExpired(db.core.queue, now, id) && RecoverOne(db.core, now, id, false).Success?
    ensures var j, recovered := db.core.queue.jobs[id], Recover(db, now, id, false);
            && recovered.Success? && recovered.value.core == RecoverOne(db.core, now, id, false).value
            && (IsRunJob(db.core, id) && (j.externalStartedAt.Some? || j.attempts >= j.maxAttempts) ==>
                  RunFailedIn(db.flow, recovered.value.flow, KeyOf(j)))
            && (!(IsRunJob(db.core, id) && (j.externalStartedAt.Some? || j.attempts >= j.maxAttempts)) ==>
                  recovered.value.flow == db.flow)
  {
  }

  // Recovery of an expired candidate on a free video: an uncertain result needs
  // attention, used-up attempts have failed, both with their run; otherwise the job
  // waits for another attempt and its run goes on.
  lemma RecoverOutcome(db: Db, now: Time, id: Id)
    requires Inv(db.core) && LeaseExpired(db.core.queue, now, id)
    ensures var j, recovered := db.core.queue.jobs[id], Recover(db, now, id, false);
            && recovered.Success? && j.leaseToken.Some? && id in recovered.value.core.queue.jobs
            && var q, after, token := db.core.queue, recovered.value, j.leaseToken.value;
            && (after.core.queue.jobs[id].status == NeedsAttention <==> j.externalStartedAt.Some?)
            && (after.core.queue.jobs[id].status == Failed <==> j.externalStartedAt.None? && j.attempts == j.maxAttempts)
            && (after.core.queue.jobs[id].status == RetryWait <==> j.externalStartedAt.None? && j.attempts < j.maxAttempts)
            && (j.externalStartedAt.Some? ==>
                  EndedWith(q, after.core.queue, now, id, token, NeedsAttention, Some(ExternalResultUncertain)))
            && (j.externalStartedAt.None? && j.attempts == j.maxAttempts ==>
                  EndedWith(q, after.core.queue, now, id, token, Failed, Some(RetryExhausted)))
            && (j.externalStartedAt.None? && j.attempts < j.maxAttempts ==>
                  && after.core.queue.jobs[id].failureCode == Some(LeaseExpiredBeforeExternal)
                  && token in after.core.queue.attempts && after.core.queue.attempts[token].progress == Expired
                  && after.flow == db.flow)
            && (IsRunJob(db.core, id) && after.core.queue.jobs[id].status != RetryWait ==> RunFailedIn(db.flow, after.flow, KeyOf(j)))
  {
    RecoveryOutcome(db.core, now, id);
    RecoverIsQueueRecovery(db, now, id);
  }

  // In every state the whole system reaches, the code of a job says how it ended.
  lemma CodesInEveryRun(db: Db, from: Time, events: seq<TimedEvent>, id: Id)
    requires DbInv(db) && CodesOk(db.core.queue.jobs) && InOrder(from, events)
    ensures var jobs := Unfold(db, events).core.queue.jobs;
            id in jobs ==>
              && (jobs[id].failureCode == Some(RetryExhausted) ==> jobs[id].status == Failed && jobs[id].externalStartedAt.None?)
              && (jobs[id].failureCode == Some(ExternalResultUncertain) ==> jobs[id].status == NeedsAttention)
  {
    var steps := UnfoldIsExecution(db, from, events);
    CodesMeanWhatTheySay(db.core, steps, id);
  }

  // ------------------------------------------------------------------------
  // Appeals

  predicate Readable(flow: Flow, videoId: Id, visible: bool) { videoId in flow.videos && visible }

  predicate DecisionOf(flow: Flow, decisionId: Id, videoId: Id) {
    && decisionId in flow.decisions && flow.decisions[decisionId].groupId in flow.groups
    && flow.groups[flow.decisions[decisionId].groupId].videoId == videoId
  }

  // An appeal needs a video that the caller sees and that is active, a decision of that
  // video on its current revision, and no appeal that is still open.
  lemma AppealRefusals(db: Db, now: Time, a: AppealInput)
    ensures !Readable(db.flow, a.videoId, a.visible) ==> SubmitAppeal(db, now, a) == Failure(FlowNotFound)
    ensures Readable(db.flow, a.videoId, a.visible) && !db.flow.videos[a.videoId].active ==>
              SubmitAppeal(db, now, a) == Failure(FlowConflict)
    ensures Readable(db.flow, a.videoId, a.visible) && db.flow.videos[a.videoId].active && !DecisionOf(db.flow, a.decisionId, a.videoId) ==>
              SubmitAppeal(db, now, a) == Failure(FlowNotFound)
    ensures Readable(db.flow, a.videoId, a.visible) && db.flow.videos[a.videoId].active && DecisionOf(db.flow, a.decisionId, a.videoId) ==>
              var r := db.flow.decisions[a.decisionId].revisionId;
              && ((r !in db.flow.revisions || db.flow.revisions[r].status == Superseded) ==> SubmitAppeal(db, now, a) == Failure(FlowConflict))
              && ((exists x :: x in db.flow.appeals && db.flow.appeals[x].decisionId == a.decisionId
                     && db.flow.appeals[x].resolution == Unresolved) ==> SubmitAppeal(db, now, a) == Failure(FlowConflict))
              && (r in db.flow.revisions && db.flow.revisions[r].status == Current
                  && (forall x :: x in db.flow.appeals && db.flow.appeals[x].decisionId == a.decisionId ==>
                        db.flow.appeals[x].resolution != Unresolved)
                  ==> SubmitAppeal(db, now, a).Success? || SubmitAppeal(db, now, a).error.QueueFailure?)
  {
  }

  // The work of the decided revision is closed, an adopted group included, and the
  // appeal runs on a formal revision of its own with the input of the decided group.
  lemma AppealOutcome(db: Db, now: Time, a: AppealInput)
    requires Acceptable(db, now, AppealEvent(a)) && SubmitAppeal(db, now, a).Success?
    ensures Appealable(db.flow, a)
    ensures var r, after := db.flow.decisions[a.decisionId].revisionId, SubmitAppeal(db, now, a).value;
            var source := db.flow.groups[db.flow.decisions[a.decisionId].groupId];
            && Renewed(db.flow.revisions, after.flow.revisions, r, a.revisionId, None)
            && WorkClosed(db.flow, after.flow, r, a.groupId, true)
            && a.groupId in after.flow.groups
            && after.flow.groups[a.groupId]
               == Group(a.videoId, db.flow.videos[a.videoId].creatorId, a.revisionId, true, source.shadow, false,
                        source.fingerprint, source.inputComplete, GroupQueued, 0)
            && (a.groupId, 1) in after.flow.runs && after.flow.runs[(a.groupId, 1)] == RunPending
            && after.flow.appeals == db.flow.appeals[a.appealId := Appeal(a.videoId, a.revisionId, a.decisionId, a.groupId, Unresolved)]
            && after.flow.holds == db.flow.holds[a.holdId := WorkflowHold(a.revisionId, Some(a.groupId), UnderAppeal, Unresolved)]
            && after.flow.gates == db.flow.gates && after.flow.videos == db.flow.videos && after.flow.decisions == db.flow.decisions
  {
    AppealJob(db, now, a);
    AppealRows(db.flow, a);
  }

  lemma AppealRows(flow: Flow, a: AppealInput)
    requires Appealable(flow, a)
    ensures var r, after := flow.decisions[a.decisionId].revisionId, OpenAppeal(flow, a);
            && Renewed(flow.revisions, after.revisions, r, a.revisionId, None)
            && WorkClosed(flow, after, r, a.groupId, true)
  {
    var r := flow.decisions[a.decisionId].revisionId;
    RenumberedIsRenewed(flow.revisions, r, a.revisionId, None);
    ClosedWork(flow, r, a.groupId);
    assert OpenAppeal(flow, a).runs == CloseWork(flow, r, REUSABLE_STATUSES).runs[(a.groupId, 1) := RunPending];
  }

  lemma AppealJobRow(db: Db, now: Time, a: AppealInput)
    requires Acceptable(db, now, AppealEvent(a)) && SubmitAppeal(db, now, a).Success?
    ensures var jobs := SubmitAppeal(db, now, a).value.core.queue.jobs;
            && a.jobId in jobs && jobs[a.jobId].stage == V11Content && jobs[a.jobId].target == Run(a.groupId, 1)
            && jobs[a.jobId].videoId == a.videoId && jobs[a.jobId].revisionId == a.revisionId
            && jobs[a.jobId].actorId == a.actorId && jobs[a.jobId].status == Queued && jobs[a.jobId].maxAttempts == 2
  {
    AppealCases(db, now, a);
    EnqueueRunIsStep(db.(flow := OpenAppeal(db.flow, a)), now, a.jobId, a.actorId, (a.groupId, 1), 2);
  }

  // The appeal and the open appeal holds of its revision get the same answer.
  lemma ResolveOutcome(flow: Flow, videoId: Id, appealId: Id, rejected: bool)
    ensures videoId !in flow.videos ==> ResolveAppeal(flow, videoId, appealId, rejected) == Failure(FlowNotFound)
    ensures videoId in flow.videos && !flow.videos[videoId].active ==>
              ResolveAppeal(flow, videoId, appealId, rejected) == Failure(FlowConflict)
    ensures videoId in flow.videos && flow.videos[videoId].active ==>
              if appealId in flow.appeals && flow.appeals[appealId].videoId == videoId && flow.appeals[appealId].resolution == Unresolved
              then
                && ResolveAppeal(flow, videoId, appealId, rejected).Success?
                && var after := ResolveAppeal(flow, videoId, appealId, rejected).value;
                   var answer := if rejected then Rejected else Resolved;
                && after.(appeals := flow.appeals, holds := flow.holds) == flow
                && after.appeals == flow.appeals[appealId := flow.appeals[appealId].(resolution := answer)]
                && after.holds.Keys == flow.holds.Keys
                && (forall h :: h in flow.holds ==>
                      after.holds[h] == if flow.holds[h].revisionId == flow.appeals[appealId].revisionId
                                           && flow.holds[h].holdType == UnderAppeal && flow.holds[h].resolution == Unresolved
                                        then flow.holds[h].(resolution := answer) else flow.holds[h])
              else ResolveAppeal(flow, videoId, appealId, rejected) == Failure(FlowNotFound)
  {
  }

  // ------------------------------------------------------------------------
  // Manual holds

  predicate ManuallyHeld(flow: Flow, h: Id, r: Id) { OpenHold(flow, h, r) && flow.holds[h].holdType == Manual }

  // The current revision is put on a manual hold, once.
  lemma ManualHoldOutcome(flow: Flow, videoId: Id, visible: bool, holdId: Id, r: Id)
    requires RevisionsOk(flow.revisions)
    ensures !Readable(flow, videoId, visible) ==> PlaceHold(flow, videoId, visible, holdId) == Failure(FlowNotFound)
    ensures Readable(flow, videoId, visible) && !flow.videos[videoId].active ==> PlaceHold(flow, videoId, visible, holdId) == Failure(FlowConflict)
    ensures Readable(flow, videoId, visible) && (forall s :: !IsCurrent(flow.revisions, videoId, s)) ==>
              PlaceHold(flow, videoId, visible, holdId) == Failure(FlowConflict)
    ensures Readable(flow, videoId, visible) && flow.videos[videoId].active && IsCurrent(flow.revisions, videoId, r) ==>
              PlaceHold(flow, videoId, visible, holdId)
              == if exists h :: ManuallyHeld(flow, h, r) then Failure(FlowConflict)
                 else Success(flow.(holds := flow.holds[holdId := WorkflowHold(r, None, Manual, Unresolved)]))
  {
    if IsCurrent(flow.revisions, videoId, r) {
      OneCurrent(flow.revisions, videoId, r, r);
      if HoldActive(flow, r, Manual) {
        var h: Id :| h in flow.holds && flow.holds[h].revisionId == r && flow.holds[h].holdType == Manual && flow.holds[h].resolution == Unresolved;
        assert ManuallyHeld(flow, h, r);
      }
    }
  }

  // Resuming resolves the manual hold of the current revision, if nothing else holds it.
  lemma ResumeOutcome(flow: Flow, videoId: Id, visible: bool, r: Id)
    requires RevisionsOk(flow.revisions)
    ensures !Readable(flow, videoId, visible) ==> Resume(flow, videoId, visible) == Failure(FlowNotFound)
    ensures Readable(flow, videoId, visible) && !flow.videos[videoId].active ==> Resume(flow, videoId, visible) == Failure(FlowConflict)
    ensures Readable(flow, videoId, visible) && flow.videos[videoId].active && IsCurrent(flow.revisions, videoId, r) ==>
              && (Resume(flow, videoId, visible).Success? <==>
                    exists h :: ManuallyHeld(flow, h, r) && forall k :: OpenHold(flow, k, r) ==> k == h)
              && (Resume(flow, videoId, visible).Failure? ==> Resume(flow, videoId, visible) == Failure(FlowConflict))
              && (Resume(flow, videoId, visible).Success? ==>
                    && forall h :: ManuallyHeld(flow, h, r) ==>
                         Resume(flow, videoId, visible).value == flow.(holds := flow.holds[h := flow.holds[h].(resolution := Resolved)]))
  {
    if IsCurrent(flow.revisions, videoId, r) {
      OneCurrent(flow.revisions, videoId, r, r);
      forall h ensures OpenHold(flow, h, r) <==> h in ActiveHolds(flow, r) {}
      forall h: Id ensures ManuallyHeld(flow, h, r) <==> IsManualHold(flow, r, h) {}
      forall h: Id | ManuallyHeld(flow, h, r) && forall k :: OpenHold(flow, k, r) ==> k == h ensures ActiveHolds(flow, r) == {h} {}
    }
  }
}
