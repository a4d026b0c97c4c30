// v11-workflow.service.ts: appeals, manual holds and their resolution.
module V11WorkflowService {
  import opened Basics
  import opened WorkflowModel
  import opened WorkflowInvariant
  import opened WorkflowEvents
  import opened Store
  import opened V11ContentService

  class V11Workflow {
    const db: Database
    const content: V11Content

    constructor (db: Database)
      ensures this.db == db && Wired()
    {
      this.db := db;
      this.content := new V11Content(db);
    }

    ghost predicate Wired()
      reads this, content, content.jobs
    {
      content.db == db && content.Wired()
    }

    // Supersedes the revision of the decision and opens the next one, with the
    // appeal, its hold and the group that reruns the evaluation.
    method OpenAppealRows(a: AppealInput)
      requires Wired()
      requires a.decisionId in db.decisions && db.decisions[a.decisionId].groupId in db.groups
      requires db.decisions[a.decisionId].revisionId in db.revisions && a.videoId in db.videos
      modifies db`revisions, db`runs, db`groups, db`appeals, db`holds
      ensures db.CoreState() == old(db.CoreState())
      ensures db.FlowState() == OpenAppeal(old(db.FlowState()), a)
    {
      var decision := db.decisions[a.decisionId];
      var source := db.groups[decision.groupId];
      content.CloseOpenWork(decision.revisionId, REUSABLE_STATUSES);
      content.Supersede(decision.revisionId, a.revisionId, None);
      content.OpenGroupRows(a.groupId, Group(a.videoId, db.videos[a.videoId].creatorId, a.revisionId, true, source.shadow, false,
                                             source.fingerprint, source.inputComplete, GroupQueued, 0));
      FileRows(a);
    }

    method FileRows(a: AppealInput)
      modifies db`appeals, db`holds
      ensures db.FlowState() == old(db.FlowState()).(
                appeals := old(db.appeals)[a.appealId := Appeal(a.videoId, a.revisionId, a.decisionId, a.groupId, Unresolved)],
                holds := old(db.holds)[a.holdId := WorkflowHold(a.revisionId, Some(a.groupId), UnderAppeal, Unresolved)])
      ensures db.CoreState() == old(db.CoreState())
    {
      db.appeals := db.appeals[a.appealId := Appeal(a.videoId, a.revisionId, a.decisionId, a.groupId, Unresolved)];
      db.holds := db.holds[a.holdId := WorkflowHold(a.revisionId, Some(a.groupId), UnderAppeal, Unresolved)];
    }

    method AppealRows(now: Time, a: AppealInput) returns (r: Result<(), FlowError>)
      requires Wired()
      modifies db`revisions, db`runs, db`groups, db`appeals, db`holds, db`jobs, db`ledger
      ensures r.Success? ==> SubmitAppeal(old(db.State()), now, a) == Success(db.State())
      ensures r.Failure? ==> SubmitAppeal(old(db.State()), now, a) == Failure(r.error)
    {
      if a.videoId !in db.videos || !a.visible { return Failure(FlowNotFound); }
      if !db.videos[a.videoId].active { return Failure(FlowConflict); }
      if a.decisionId !in db.decisions { return Failure(FlowNotFound); }
      var decision := db.decisions[a.decisionId];
      if decision.groupId !in db.groups || db.groups[decision.groupId].videoId != a.videoId { return Failure(FlowNotFound); }
      if decision.revisionId !in db.revisions || db.revisions[decision.revisionId].status != Current { return Failure(FlowConflict); }
      if AppealActive(db.FlowState(), a.decisionId) { return Failure(FlowConflict); }
      OpenAppealRows(a);
      r := content.EnqueueRun(now, a.jobId, a.actorId, (a.groupId, 1), 2);
    }

    method FileAppeal(now: Time, a: AppealInput) returns (r: Result<(), FlowError>)
      requires Wired() && db.Valid()
      requires a.revisionId !in db.revisions && a.groupId !in db.groups && a.jobId !in db.jobs
      requires a.appealId !in db.appeals && a.holdId !in db.holds
      modifies db
      ensures db.Valid()
      ensures r.Success? ==> SubmitAppeal(old(db.State()), now, a) == Success(db.State())
      ensures r.Failure? ==> SubmitAppeal(old(db.State()), now, a) == Failure(r.error) && db.State() == old(db.State())
    {
      var saved := db.State();
      r := AppealRows(now, a);
      if r.Failure? { db.Restore(saved); } else { AppealKeeps(saved, now, a); }
    }

    method Hold(videoId: Id, visible: bool, holdId: Id) returns (r: Result<(), FlowError>)
      requires Wired() && db.Valid() && holdId !in db.holds
      modifies db`holds
      ensures db.Valid()
      ensures r.Success? ==> PlaceHold(old(db.FlowState()), videoId, visible, holdId) == Success(db.FlowState())
      ensures r.Failure? ==> PlaceHold(old(db.FlowState()), videoId, visible, holdId) == Failure(r.error) && db.holds == old(db.holds)
    {
      ghost var before := db.State();
      if videoId !in db.videos || !visible { return Failure(FlowNotFound); }
      if !db.videos[videoId].active { return Failure(FlowConflict); }
      var revision := content.CurrentRevision(videoId);
      if revision.None? { return Failure(FlowConflict); }
      if HoldActive(db.FlowState(), revision.value, Manual) { return Failure(FlowConflict); }
      r := content.HoldRows(holdId, revision.value, None, Manual);
      if r.Success? { HoldKeeps(before, videoId, visible, holdId); }
    }

    // Only the manual hold may be left on the revision.
    method ResumeRows(videoId: Id, visible: bool) returns (r: Result<(), FlowError>)
      requires Wired() && RevisionsOk(db.revisions)
      modifies db`holds
      ensures r.Success? ==> WorkflowModel.Resume(old(db.FlowState()), videoId, visible) == Success(db.FlowState())
      ensures r.Failure? ==> WorkflowModel.Resume(old(db.FlowState()), videoId, visible) == Failure(r.error) && db.holds == old(db.holds)
    {
      if videoId !in db.videos || !visible { return Failure(FlowNotFound); }
      if !db.videos[videoId].active { return Failure(FlowConflict); }
      var revision := content.CurrentRevision(videoId);
      if revision.None? { return Failure(FlowConflict); }
      ghost var flow := db.FlowState();
      var active := ActiveHolds(db.FlowState(), revision.value);
      if h: Id :| h in active && db.holds[h].holdType == Manual {
        assert IsManualHold(flow, revision.value, h);
        if active != {h} { return Failure(FlowConflict); }
        db.holds := db.holds[h := db.holds[h].(resolution := Resolved)];
        return Success(());
      }
      assert !exists h: Id :: IsManualHold(flow, revision.value, h);
      return Failure(FlowConflict);
    }

    method Resume(videoId: Id, visible: bool) returns (r: Result<(), FlowError>)
      requires Wired() && db.Valid()
      modifies db`holds
      ensures db.Valid()
      ensures r.Success? ==> WorkflowModel.Resume(old(db.FlowState()), videoId, visible) == Success(db.FlowState())
      ensures r.Failure? ==> WorkflowModel.Resume(old(db.FlowState()), videoId, visible) == Failure(r.error) && db.holds == old(db.holds)
    {
      ghost var before := db.State();
      r := ResumeRows(videoId, visible);
      assert db.State() == before.(flow := db.FlowState());
      if r.Success? { ResumeKeeps(before, videoId, visible); }
    }

    method ResolveAppealRows(videoId: Id, appealId: Id, rejected: bool) returns (r: Result<(), FlowError>)
      modifies db`appeals, db`holds
      ensures r.Success? ==> WorkflowModel.ResolveAppeal(old(db.FlowState()), videoId, appealId, rejected) == Success(db.FlowState())
      ensures r.Failure? ==> WorkflowModel.ResolveAppeal(old(db.FlowState()), videoId, appealId, rejected) == Failure(r.error)
                             && db.FlowState() == old(db.FlowState())
    {
      if videoId !in db.videos { return Failure(FlowNotFound); }
      if !db.videos[videoId].active { return Failure(FlowConflict); }
      if appealId !in db.appeals { return Failure(FlowNotFound); }
      var appeal := db.appeals[appealId];
      if appeal.videoId != videoId || appeal.resolution != Unresolved { return Failure(FlowNotFound); }
      CloseAppealRows(appealId, if rejected then Rejected else Resolved);
      return Success(());
    }

    // The appeal, and every active appeal hold of its revision.
    method CloseAppealRows(appealId: Id, resolution: Resolution)
      requires appealId in db.appeals
      modifies db`appeals, db`holds
      ensures db.FlowState() == CloseAppeal(old(db.FlowState()), appealId, resolution)
    {
      var appeal := db.appeals[appealId];
      db.appeals := db.appeals[appealId := appeal.(resolution := resolution)];
      db.holds := map h | h in db.holds ::
        if db.holds[h].revisionId == appeal.revisionId && db.holds[h].holdType == UnderAppeal && db.holds[h].resolution == Unresolved
        then db.holds[h].(resolution := resolution) else db.holds[h];
    }

    method ResolveAppeal(videoId: Id, appealId: Id, rejected: bool) returns (r: Result<(), FlowError>)
      requires db.Valid()
      modifies db`appeals, db`holds
      ensures db.Valid()
      ensures r.Success? ==> WorkflowModel.ResolveAppeal(old(db.FlowState()), videoId, appealId, rejected) == Success(db.FlowState())
      ensures r.Failure? ==> WorkflowModel.ResolveAppeal(old(db.FlowState()), videoId, appealId, rejected) == Failure(r.error)
                             && db.FlowState() == old(db.FlowState())
    {
      ghost var before := db.State();
      r := ResolveAppealRows(videoId, appealId, rejected);
      assert db.State() == before.(flow := db.FlowState());
      if r.Success? { ResolveKeeps(before, videoId, appealId, rejected); }
    }
  }
}
