// What every reachable workflow state satisfies.
module WorkflowInvariant {
  import opened Basics
  import opened ContentScoring
  import opened ReviewEngine
  import opened ReviewTheorems
  import opened QueueModel
  import opened QueueInvariant
  import opened WorkflowModel

  // ------------------------------------------------------------------------
  // Revisions: a video's are numbered 1..n, and exactly the last one is current

  predicate IsNumbered(revisions: map<Id, Revision>, r: Id, videoId: Id, n: nat) {
    r in revisions && revisions[r].videoId == videoId && revisions[r].number == n
  }

  ghost predicate HasNumber(revisions: map<Id, Revision>, videoId: Id, n: nat) {
    exists r :: IsNumbered(revisions, r, videoId, n)
  }

  ghost predicate NumberedOnce(revisions: map<Id, Revision>) {
    forall r, s, v, n: nat :: IsNumbered(revisions, r, v, n) && IsNumbered(revisions, s, v, n) ==> r == s
  }

  ghost predicate NumberedFully(revisions: map<Id, Revision>) {
    forall r, n: nat :: r in revisions && 1 <= n <= revisions[r].number ==> HasNumber(revisions, revisions[r].videoId, n)
  }

  ghost predicate CurrentIsLast(revisions: map<Id, Revision>) {
    forall r, s :: r in revisions && s in revisions && IsCurrent(revisions, revisions[r].videoId, s) ==>
      1 <= revisions[r].number <= revisions[s].number
  }

  ghost predicate HasCurrent(revisions: map<Id, Revision>, videoId: Id) {
    exists r :: IsCurrent(revisions, videoId, r)
  }

  ghost predicate AllHaveCurrent(revisions: map<Id, Revision>) {
    forall r :: r in revisions ==> HasCurrent(revisions, revisions[r].videoId)
  }

  ghost predicate RevisionsOk(revisions: map<Id, Revision>) {
    NumberedOnce(revisions) && NumberedFully(revisions) && CurrentIsLast(revisions) && AllHaveCurrent(revisions)
  }

  lemma OneCurrent(revisions: map<Id, Revision>, videoId: Id, r: Id, s: Id)
    requires RevisionsOk(revisions) && IsCurrent(revisions, videoId, r) && IsCurrent(revisions, videoId, s)
    ensures r == s && CurrentOf(revisions, videoId) == Some(r)
  {
    CurrentIsUnique(revisions, videoId, r, s);
    CurrentIsUnique(revisions, videoId, r, CurrentOf(revisions, videoId).value);
  }

  lemma CurrentIsUnique(revisions: map<Id, Revision>, videoId: Id, r: Id, s: Id)
    requires NumberedOnce(revisions) && CurrentIsLast(revisions)
    requires IsCurrent(revisions, videoId, r) && IsCurrent(revisions, videoId, s)
    ensures r == s
  {
    assert IsNumbered(revisions, r, videoId, revisions[r].number);
    assert IsNumbered(revisions, s, videoId, revisions[s].number);
  }

  // ------------------------------------------------------------------------
  // Groups and runs

  // Groups in shadow mode are exactly the pilots.
  predicate GroupsOk(groups: map<Id, Group>, revisions: map<Id, Revision>) {
    forall g :: g in groups ==>
      && groups[g].revisionId in revisions && revisions[groups[g].revisionId].videoId == groups[g].videoId
      && groups[g].shadow == groups[g].pilot
  }

  predicate Usable(r: RunState) { r.RunSucceeded? && r.output.complete }

  // Runs are numbered without gaps, at most three, and all but the last gave a
  // complete answer; a pilot group has one run.
  ghost predicate RunOk(groups: map<Id, Group>, runs: map<RunKey, RunState>, k: RunKey)
    requires k in runs
  {
    && k.0 in groups
    && 1 <= k.1 <= 3
    && (k.1 > 1 ==> !groups[k.0].pilot && (k.0, k.1 - 1) in runs && Usable(runs[(k.0, k.1 - 1)]))
    && (Usable(runs[k]) ==> Scored(runs[k].output.review))
  }

  ghost predicate RunsOk(groups: map<Id, Group>, runs: map<RunKey, RunState>) {
    forall k {:trigger RunOk(groups, runs, k)} :: k in runs ==> RunOk(groups, runs, k)
  }

  // ------------------------------------------------------------------------
  // Decisions: what the engine says about all runs of the group

  function FirstNumbers(k: nat): seq<nat> { seq(k, i => i + 1) }

  ghost predicate AllUsable(runs: map<RunKey, RunState>, g: Id, k: nat) {
    forall i :: 1 <= i <= k ==> (g, i) in runs && Usable(runs[(g, i)])
  }

  lemma UsableHaveOutputs(runs: map<RunKey, RunState>, g: Id, k: nat)
    requires AllUsable(runs, g, k)
    ensures HasOutputs(runs, g, FirstNumbers(k))
  {
  }

  ghost function ReviewsOfGroup(runs: map<RunKey, RunState>, g: Id, k: nat): seq<ReviewRun>
    requires AllUsable(runs, g, k)
  {
    UsableHaveOutputs(runs, g, k);
    Reviews(runs, g, FirstNumbers(k))
  }

  // The decision records what the engine, or the first-run check, made of the reviews.
  ghost predicate Verdict(d: Decision, reviews: seq<ReviewRun>, appeal: bool) {
    && d.compliance == WorstCompliance(reviews)
    && exists check :: ProgressOf(reviews, appeal, check) == Success(Adopt(d.adoption, d.anchors, d.score, d.rating))
  }

  ghost predicate DecisionOk(groups: map<Id, Group>, runs: map<RunKey, RunState>, d: Decision) {
    var k := |d.sourceRuns|;
    && d.groupId in groups && groups[d.groupId].revisionId == d.revisionId && !groups[d.groupId].pilot
    && 1 <= k <= 3 && d.sourceRuns == FirstNumbers(k)
    && AllUsable(runs, d.groupId, k)
    && (d.groupId, k + 1) !in runs
    && Verdict(d, ReviewsOfGroup(runs, d.groupId, k), groups[d.groupId].appeal)
  }

  ghost predicate DecisionsOk(groups: map<Id, Group>, runs: map<RunKey, RunState>, decisions: map<Id, Decision>) {
    && (forall d :: d in decisions ==> DecisionOk(groups, runs, decisions[d]))
    && (forall d, e :: d in decisions && e in decisions && decisions[d].groupId == decisions[e].groupId ==> d == e)
  }

  predicate PointersOk(revisions: map<Id, Revision>, decisions: map<Id, Decision>) {
    forall r :: r in revisions && revisions[r].activeDecision.Some? ==>
      revisions[r].activeDecision.value in decisions && decisions[revisions[r].activeDecision.value].revisionId == r
  }

  // ------------------------------------------------------------------------
  // Appeals: an appeal is active exactly while its hold is

  predicate HoldOf(a: Appeal, h: WorkflowHold) {
    h.holdType == UnderAppeal && h.revisionId == a.revisionId && h.groupId == Some(a.rerunGroupId)
  }

  ghost predicate HasHold(holds: map<Id, WorkflowHold>, a: Appeal) {
    exists h :: h in holds && HoldOf(a, holds[h])
  }

  ghost predicate HasAppeal(appeals: map<Id, Appeal>, h: WorkflowHold) {
    exists a :: a in appeals && HoldOf(appeals[a], h)
  }

  ghost predicate AppealsOk(appeals: map<Id, Appeal>, holds: map<Id, WorkflowHold>) {
    && (forall a :: a in appeals ==> HasHold(holds, appeals[a]))
    && (forall h :: h in holds && holds[h].holdType == UnderAppeal ==> HasAppeal(appeals, holds[h]))
    && (forall a, h :: a in appeals && h in holds && HoldOf(appeals[a], holds[h]) ==>
          appeals[a].resolution == holds[h].resolution)
    && (forall a, b :: a in appeals && b in appeals && appeals[a].revisionId == appeals[b].revisionId ==> a == b)
  }

  // An appeal reruns a group of its own, on the revision it opened.
  ghost predicate RerunsOk(flow: Flow) {
    && (forall a :: a in flow.appeals ==>
          && flow.appeals[a].revisionId in flow.revisions
          && InRevision(flow.groups, flow.appeals[a].rerunGroupId, flow.appeals[a].revisionId))
    && (forall h :: h in flow.holds ==> flow.holds[h].revisionId in flow.revisions)
  }

  ghost predicate FlowOk(flow: Flow) {
    && RevisionsOk(flow.revisions)
    && GroupsOk(flow.groups, flow.revisions)
    && RunsOk(flow.groups, flow.runs)
    && DecisionsOk(flow.groups, flow.runs, flow.decisions)
    && PointersOk(flow.revisions, flow.decisions)
    && AppealsOk(flow.appeals, flow.holds)
    && RerunsOk(flow)
  }

  // ------------------------------------------------------------------------
  // Runs and jobs

  predicate WorksOn(jobs: map<Id, Job>, id: Id, k: RunKey, videoId: Id) {
    && id in jobs && Active(jobs[id])
    && jobs[id].stage == V11Content && jobs[id].target == Run(k.0, k.1) && jobs[id].videoId == videoId
  }

  ghost predicate HasJob(jobs: map<Id, Job>, k: RunKey, videoId: Id) {
    exists id :: WorksOn(jobs, id, k, videoId)
  }

  // A live run has an active job.
  ghost predicate LiveRunsOk(jobs: map<Id, Job>, groups: map<Id, Group>, runs: map<RunKey, RunState>) {
    forall k :: k in runs && Live(runs[k]) ==> k.0 in groups && HasJob(jobs, k, groups[k.0].videoId)
  }

  predicate JobTargetOk(j: Job, groups: map<Id, Group>, runs: map<RunKey, RunState>) {
    && j.target.Run? && KeyOf(j) in runs
    && KeyOf(j).0 in groups && groups[KeyOf(j).0].videoId == j.videoId && groups[KeyOf(j).0].revisionId == j.revisionId
  }

  // Every job of the stage works on a run of its video.
  ghost predicate JobTargetsOk(jobs: map<Id, Job>, groups: map<Id, Group>, runs: map<RunKey, RunState>) {
    forall id :: id in jobs && jobs[id].stage == V11Content ==> JobTargetOk(jobs[id], groups, runs)
  }

  ghost predicate BridgeOk(jobs: map<Id, Job>, flow: Flow) {
    LiveRunsOk(jobs, flow.groups, flow.runs) && JobTargetsOk(jobs, flow.groups, flow.runs)
  }

  ghost predicate DbInv(db: Db) {
    Inv(db.core) && FlowOk(db.flow) && BridgeOk(db.core.queue.jobs, db.flow)
  }

  // ------------------------------------------------------------------------
  // What the invariant says about one state

  // The revisions of a video are exactly 1..n, with only n current.
  lemma RevisionsAreConsecutive(flow: Flow, videoId: Id, current: Id, r: Id)
    requires FlowOk(flow) && IsCurrent(flow.revisions, videoId, current)
    requires r in flow.revisions && flow.revisions[r].videoId == videoId
    ensures 1 <= flow.revisions[r].number <= flow.revisions[current].number
    ensures flow.revisions[r].status == Current <==> flow.revisions[r].number == flow.revisions[current].number
    ensures forall n: nat :: 1 <= n <= flow.revisions[current].number ==> HasNumber(flow.revisions, videoId, n)
  {
    assert IsNumbered(flow.revisions, r, videoId, flow.revisions[r].number);
    assert IsNumbered(flow.revisions, current, videoId, flow.revisions[current].number);
    if flow.revisions[r].status == Current {
      OneCurrent(flow.revisions, videoId, current, r);
    }
  }

  // At most one run of a video is pending or running.
  lemma OneLiveRunPerVideo(db: Db, k: RunKey, l: RunKey)
    requires DbInv(db) && k in db.flow.runs && l in db.flow.runs
    requires Live(db.flow.runs[k]) && Live(db.flow.runs[l])
    requires k.0 in db.flow.groups && l.0 in db.flow.groups
    requires db.flow.groups[k.0].videoId == db.flow.groups[l.0].videoId
    ensures k == l
  {
    var jobs := db.core.queue.jobs;
    var videoId := db.flow.groups[k.0].videoId;
    var i: Id :| WorksOn(jobs, i, k, videoId);
    var j: Id :| WorksOn(jobs, j, l, videoId);
    assert SamePlace(jobs[i], jobs[j]);
  }

  // A group's runs before a given one all gave a complete answer.
  lemma {:induction false} EarlierRunsAreUsable(groups: map<Id, Group>, runs: map<RunKey, RunState>, g: Id, n: nat)
    requires RunsOk(groups, runs) && (g, n) in runs
    ensures 1 <= n <= 3 && AllUsable(runs, g, n - 1)
  {
    assert RunOk(groups, runs, (g, n));
    if n > 1 {
      EarlierRunsAreUsable(groups, runs, g, n - 1);
    }
  }

  // Once a group has a decision it has no further run, and none that is live.
  lemma DecidedGroupsAreDone(flow: Flow, d: Id, k: RunKey)
    requires RunsOk(flow.groups, flow.runs) && d in flow.decisions && DecisionOk(flow.groups, flow.runs, flow.decisions[d])
    requires k in flow.runs && k.0 == flow.decisions[d].groupId
    ensures 1 <= k.1 <= |flow.decisions[d].sourceRuns| && Usable(flow.runs[k])
  {
    EarlierRunsAreUsable(flow.groups, flow.runs, k.0, k.1);
    assert k == (k.0, k.1);
  }

  // A single run behind a decision has a score that is safe on both sides, is not
  // of the best rating, and does not contradict itself on a hard claim.
  ghost predicate SingleIsSafe(d: Decision, run: ReviewRun) {
    && d.rating != APlus && !HardContradiction([run])
    && forall other :: 0 <= other <= 1000 && Abs(d.score - other) <= 20 ==> ContentRatingFromScore(other) == Some(d.rating)
  }

  ghost predicate Backed(d: Decision, reviews: seq<ReviewRun>, appeal: bool) {
    && (appeal ==> |reviews| >= 2)
    && (|reviews| == 1 ==> SingleIsSafe(d, reviews[0]))
    && (|reviews| <= 2 ==> forall i :: 0 <= i < |reviews| ==> reviews[i].rating == d.rating)
    && (|reviews| == 3 ==> RatedByTwo(reviews, d.rating))
    && 0 <= d.score <= 1000
    && (d.compliance == Confirmed <==> exists i :: 0 <= i < |reviews| && reviews[i].compliance == Confirmed)
    && (d.compliance == Clear <==> forall i :: 0 <= i < |reviews| ==> reviews[i].compliance == Clear)
  }

  lemma SingleVerdict(d: Decision, reviews: seq<ReviewRun>, appeal: bool, check: FirstCheck)
    requires |reviews| == 1 && Scored(reviews[0])
    requires ProgressOf(reviews, appeal, check) == Success(Adopt(d.adoption, d.anchors, d.score, d.rating))
    ensures !appeal && SingleIsSafe(d, reviews[0]) && d.rating == reviews[0].rating && d.score == reviews[0].score
  {
    var contradiction := FirstRunContradiction(reviews[0], check.hasAudio);
    forall other | 0 <= other <= 1000 && Abs(d.score - other) <= 20 ensures ContentRatingFromScore(other) == Some(d.rating) {
      SingleAdoptionIsRobust(check.eligiblePilotCount, check.bucket, d.score, d.rating, check.historicalScore,
                             contradiction, appeal, other);
    }
  }

  lemma VerdictIsBacked(d: Decision, reviews: seq<ReviewRun>, appeal: bool)
    requires 1 <= |reviews| <= 3 && Verdict(d, reviews, appeal)
    requires forall i :: 0 <= i < |reviews| ==> Scored(reviews[i])
    ensures Backed(d, reviews, appeal)
  {
    var check :| ProgressOf(reviews, appeal, check) == Success(Adopt(d.adoption, d.anchors, d.score, d.rating));
    if |reviews| == 1 {
      SingleVerdict(d, reviews, appeal, check);
      ScoredInRange(reviews[0]);
    } else if |reviews| == 2 {
      assert reviews == [reviews[0], reviews[1]];
      AveragingKeepsVerdict(reviews[0], reviews[1]);
    } else {
      ThreeRunsSettle(reviews);
      RatedScoresInRange(d.score, d.rating);
    }
  }

  lemma ReviewsAreScored(flow: Flow, g: Id, k: nat)
    requires RunsOk(flow.groups, flow.runs) && AllUsable(flow.runs, g, k)
    ensures forall i :: 0 <= i < k ==> Scored(ReviewsOfGroup(flow.runs, g, k)[i])
  {
    forall i | 0 <= i < k ensures Scored(ReviewsOfGroup(flow.runs, g, k)[i]) {
      assert RunOk(flow.groups, flow.runs, (g, i + 1));
    }
  }

  // Every recorded decision stands on its group's runs: with one or two runs they
  // all gave its rating, with three at least two did, an appeal is never decided by
  // a single run, and a single run is only trusted where it is safe. It is confirmed
  // if some run is, and clear only if all are.
  lemma DecisionsAreBacked(flow: Flow, d: Id)
    requires FlowOk(flow) && d in flow.decisions
    ensures var decision := flow.decisions[d];
            && decision.groupId in flow.groups
            && AllUsable(flow.runs, decision.groupId, |decision.sourceRuns|)
            && Backed(decision, ReviewsOfGroup(flow.runs, decision.groupId, |decision.sourceRuns|),
                      flow.groups[decision.groupId].appeal)
  {
    var decision := flow.decisions[d];
    var k := |decision.sourceRuns|;
    assert DecisionOk(flow.groups, flow.runs, decision);
    ReviewsAreScored(flow, decision.groupId, k);
    VerdictIsBacked(decision, ReviewsOfGroup(flow.runs, decision.groupId, k), flow.groups[decision.groupId].appeal);
  }

  lemma ScoredInRange(run: ReviewRun)
    requires Scored(run)
    ensures 0 <= run.score <= 1000
  {
    RatedScoresInRange(run.score, run.rating);
  }

  lemma RatedScoresInRange(score: int, rating: Rating)
    requires ContentRatingFromScore(score) == Some(rating)
    ensures 0 <= score <= 1000
  {
  }

  lemma SameResolution(appeals: map<Id, Appeal>, holds: map<Id, WorkflowHold>, a: Id, h: Id)
    requires AppealsOk(appeals, holds) && a in appeals && h in holds
    requires holds[h].holdType == UnderAppeal && holds[h].revisionId == appeals[a].revisionId
    ensures appeals[a].resolution == holds[h].resolution
  {
    assert HasAppeal(appeals, holds[h]);
    var b :| b in appeals && HoldOf(appeals[b], holds[h]);
    assert a == b;
  }

  // Every appeal has its hold and every appeal hold its appeal, no revision has
  // two, and one is unresolved exactly while the other is.
  lemma AppealMirrorsHold(db: Db, a: Id, h: Id)
    requires DbInv(db)
    ensures a in db.flow.appeals ==> HasHold(db.flow.holds, db.flow.appeals[a])
    ensures h in db.flow.holds && db.flow.holds[h].holdType == UnderAppeal ==> HasAppeal(db.flow.appeals, db.flow.holds[h])
    ensures a in db.flow.appeals && h in db.flow.holds && db.flow.holds[h].holdType == UnderAppeal
            && db.flow.holds[h].revisionId == db.flow.appeals[a].revisionId ==>
              (db.flow.appeals[a].resolution == Unresolved <==> db.flow.holds[h].resolution == Unresolved)
  {
    if a in db.flow.appeals && h in db.flow.holds && db.flow.holds[h].holdType == UnderAppeal
       && db.flow.holds[h].revisionId == db.flow.appeals[a].revisionId {
      SameResolution(db.flow.appeals, db.flow.holds, a, h);
    }
  }
}
