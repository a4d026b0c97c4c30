// How the row changes of the workflow keep its invariant.
module WorkflowSteps {
  import opened Basics
  import opened ReviewTheorems
  import opened WorkflowModel
  import opened WorkflowInvariant

  // ------------------------------------------------------------------------
  // Revisions

  predicate RevisionsKept(before: map<Id, Revision>, after: map<Id, Revision>) {
    forall r :: r in before ==> r in after && after[r].videoId == before[r].videoId && after[r].number == before[r].number
  }

  lemma NumberKept(before: map<Id, Revision>, after: map<Id, Revision>, videoId: Id, n: nat)
    requires HasNumber(before, videoId, n) && RevisionsKept(before, after)
    ensures HasNumber(after, videoId, n)
  {
    var r :| IsNumbered(before, r, videoId, n);
    assert IsNumbered(after, r, videoId, n);
  }

  lemma FirstNumberedOnce(revisions: map<Id, Revision>, id: Id, videoId: Id, mode: Option<bool>)
    requires NumberedOnce(revisions) && NumberedFully(revisions) && id !in revisions
    requires forall r :: r in revisions ==> revisions[r].videoId != videoId
    ensures NumberedOnce(Started(revisions, id, videoId, mode)) && NumberedFully(Started(revisions, id, videoId, mode))
  {
    var after := Started(revisions, id, videoId, mode);
    forall r, s, v, n: nat | IsNumbered(after, r, v, n) && IsNumbered(after, s, v, n) ensures r == s {
      if r != id { assert IsNumbered(revisions, r, v, n); }
      if s != id { assert IsNumbered(revisions, s, v, n); }
    }
    forall r, n: nat | r in after && 1 <= n <= after[r].number ensures HasNumber(after, after[r].videoId, n) {
      if r == id {
        assert IsNumbered(after, id, videoId, 1);
      } else {
        NumberKept(revisions, after, after[r].videoId, n);
      }
    }
  }

  lemma FirstCurrent(revisions: map<Id, Revision>, id: Id, videoId: Id, mode: Option<bool>)
    requires CurrentIsLast(revisions) && AllHaveCurrent(revisions) && id !in revisions
    requires forall r :: r in revisions ==> revisions[r].videoId != videoId
    ensures CurrentIsLast(Started(revisions, id, videoId, mode)) && AllHaveCurrent(Started(revisions, id, videoId, mode))
  {
    var after := Started(revisions, id, videoId, mode);
    assert IsCurrent(after, videoId, id);
    forall r | r in after ensures HasCurrent(after, after[r].videoId) {
      if r != id {
        var s :| IsCurrent(revisions, revisions[r].videoId, s);
        assert IsCurrent(after, after[r].videoId, s);
      }
    }
    forall r, s | r in after && s in after && IsCurrent(after, after[r].videoId, s)
      ensures 1 <= after[r].number <= after[s].number {
      if r != id { assert IsCurrent(revisions, revisions[r].videoId, s); }
    }
  }

  // A video without a current revision has none at all, and starts with number 1.
  lemma FirstRevisionNumbers(revisions: map<Id, Revision>, id: Id, videoId: Id, mode: Option<bool>)
    requires RevisionsOk(revisions) && id !in revisions && !HasCurrent(revisions, videoId)
    ensures RevisionsOk(Started(revisions, id, videoId, mode))
  {
    assert forall r :: r in revisions ==> revisions[r].videoId != videoId;
    FirstNumberedOnce(revisions, id, videoId, mode);
    FirstCurrent(revisions, id, videoId, mode);
  }

  lemma NextNumberedOnce(revisions: map<Id, Revision>, videoId: Id, previous: Id, id: Id, mode: Option<bool>)
    requires NumberedOnce(revisions) && CurrentIsLast(revisions)
    requires IsCurrent(revisions, videoId, previous) && id !in revisions
    ensures NumberedOnce(Renumbered(revisions, previous, id, mode))
  {
    var after := Renumbered(revisions, previous, id, mode);
    forall r, s, v, n: nat | IsNumbered(after, r, v, n) && IsNumbered(after, s, v, n) ensures r == s {
      if r != id { assert IsNumbered(revisions, r, v, n); }
      if s != id { assert IsNumbered(revisions, s, v, n); }
    }
  }

  lemma NextNumberedFully(revisions: map<Id, Revision>, videoId: Id, previous: Id, id: Id, mode: Option<bool>)
    requires NumberedFully(revisions) && IsCurrent(revisions, videoId, previous) && id !in revisions
    ensures NumberedFully(Renumbered(revisions, previous, id, mode))
  {
    var after := Renumbered(revisions, previous, id, mode);
    forall r, n: nat | r in after && 1 <= n <= after[r].number ensures HasNumber(after, after[r].videoId, n) {
      if r == id && n == after[id].number {
        assert IsNumbered(after, id, videoId, n);
      } else {
        assert HasNumber(revisions, after[r].videoId, n) by {
          if r == id { assert HasNumber(revisions, revisions[previous].videoId, n); }
        }
        NumberKept(revisions, after, after[r].videoId, n);
      }
    }
  }

  lemma NextCurrent(revisions: map<Id, Revision>, videoId: Id, previous: Id, id: Id, mode: Option<bool>)
    requires RevisionsOk(revisions) && IsCurrent(revisions, videoId, previous) && id !in revisions
    ensures CurrentIsLast(Renumbered(revisions, previous, id, mode))
    ensures AllHaveCurrent(Renumbered(revisions, previous, id, mode))
  {
    var after := Renumbered(revisions, previous, id, mode);
    forall r, s | r in after && s in after && IsCurrent(after, after[r].videoId, s)
      ensures 1 <= after[r].number <= after[s].number {
      if s == id {
        if r != id { assert revisions[r].number <= revisions[previous].number; }
      } else {
        if after[r].videoId == videoId { OneCurrent(revisions, videoId, previous, s); }
        assert r != id;
        assert IsCurrent(revisions, revisions[r].videoId, s);
      }
    }
    assert IsCurrent(after, videoId, id);
    forall r | r in after ensures HasCurrent(after, after[r].videoId) {
      if after[r].videoId != videoId {
        var s :| IsCurrent(revisions, revisions[r].videoId, s);
        assert IsCurrent(after, after[r].videoId, s);
      }
    }
  }

  // Superseding the current revision by the next keeps the numbering.
  lemma NextNumbers(revisions: map<Id, Revision>, videoId: Id, previous: Id, id: Id, mode: Option<bool>)
    requires RevisionsOk(revisions) && IsCurrent(revisions, videoId, previous) && id !in revisions
    ensures RevisionsOk(Renumbered(revisions, previous, id, mode))
  {
    NextNumberedOnce(revisions, videoId, previous, id, mode);
    NextNumberedFully(revisions, videoId, previous, id, mode);
    NextCurrent(revisions, videoId, previous, id, mode);
  }

  function Pointed(revisions: map<Id, Revision>, r: Id, d: Id): map<Id, Revision>
    requires r in revisions
  {
    revisions[r := revisions[r].(activeDecision := Some(d))]
  }

  lemma PointedOnce(revisions: map<Id, Revision>, r: Id, d: Id)
    requires NumberedOnce(revisions) && NumberedFully(revisions) && r in revisions
    ensures NumberedOnce(Pointed(revisions, r, d)) && NumberedFully(Pointed(revisions, r, d))
  {
    var after := Pointed(revisions, r, d);
    forall s, t, v, n: nat | IsNumbered(after, s, v, n) && IsNumbered(after, t, v, n) ensures s == t {
      assert IsNumbered(revisions, s, v, n) && IsNumbered(revisions, t, v, n);
    }
    forall s, n: nat | s in after && 1 <= n <= after[s].number ensures HasNumber(after, after[s].videoId, n) {
      NumberKept(revisions, after, after[s].videoId, n);
    }
  }

  lemma PointedCurrent(revisions: map<Id, Revision>, r: Id, d: Id)
    requires CurrentIsLast(revisions) && AllHaveCurrent(revisions) && r in revisions
    ensures CurrentIsLast(Pointed(revisions, r, d)) && AllHaveCurrent(Pointed(revisions, r, d))
  {
    var after := Pointed(revisions, r, d);
    forall s, c | s in after && c in after && IsCurrent(after, after[s].videoId, c) ensures 1 <= after[s].number <= after[c].number {
      assert IsCurrent(revisions, revisions[s].videoId, c);
    }
    forall s | s in after ensures HasCurrent(after, after[s].videoId) {
      var c :| IsCurrent(revisions, revisions[s].videoId, c);
      assert IsCurrent(after, after[s].videoId, c);
    }
  }

  lemma PointedNumbers(revisions: map<Id, Revision>, r: Id, d: Id)
    requires RevisionsOk(revisions) && r in revisions
    ensures RevisionsOk(revisions[r := revisions[r].(activeDecision := Some(d))])
  {
    PointedOnce(revisions, r, d);
    PointedCurrent(revisions, r, d);
  }

  // ------------------------------------------------------------------------
  // Groups, runs and decisions only grow

  predicate SameGroup(g: Group, h: Group) {
    && g.videoId == h.videoId && g.ownerId == h.ownerId && g.revisionId == h.revisionId && g.appeal == h.appeal
    && g.shadow == h.shadow && g.pilot == h.pilot && g.fingerprint == h.fingerprint && g.inputComplete == h.inputComplete
  }

  predicate GroupsKept(before: map<Id, Group>, after: map<Id, Group>) {
    forall g :: g in before ==> g in after && SameGroup(before[g], after[g])
  }

  // A run that is not live any more never changes.
  predicate RunsKept(before: map<RunKey, RunState>, after: map<RunKey, RunState>) {
    forall k: RunKey :: k in before ==> k in after && (!Live(before[k]) ==> after[k] == before[k])
  }

  // No run was added to a decided group.
  ghost predicate NoneAdded(decisions: map<Id, Decision>, before: map<RunKey, RunState>, after: map<RunKey, RunState>) {
    forall d, n: nat :: d in decisions && (decisions[d].groupId, n) in after ==> (decisions[d].groupId, n) in before
  }

  lemma DecisionStays(groups: map<Id, Group>, after: map<Id, Group>, runs: map<RunKey, RunState>,
                      later: map<RunKey, RunState>, d: Decision)
    requires DecisionOk(groups, runs, d) && GroupsKept(groups, after) && RunsKept(runs, later)
    requires (d.groupId, |d.sourceRuns| + 1) !in later
    ensures DecisionOk(after, later, d)
  {
    var k := |d.sourceRuns|;
    assert AllUsable(later, d.groupId, k);
    assert ReviewsOfGroup(later, d.groupId, k) == ReviewsOfGroup(runs, d.groupId, k);
  }

  lemma NoneFollows(decisions: map<Id, Decision>, before: map<RunKey, RunState>, after: map<RunKey, RunState>, d: Id, n: nat)
    requires NoneAdded(decisions, before, after) && d in decisions && (decisions[d].groupId, n) !in before
    ensures (decisions[d].groupId, n) !in after
  {
  }

  lemma OneDecisionStays(groups: map<Id, Group>, after: map<Id, Group>, runs: map<RunKey, RunState>,
                         later: map<RunKey, RunState>, decisions: map<Id, Decision>, d: Id)
    requires d in decisions && DecisionOk(groups, runs, decisions[d]) && NoneAdded(decisions, runs, later)
    requires GroupsKept(groups, after) && RunsKept(runs, later)
    ensures DecisionOk(after, later, decisions[d])
  {
    NoneFollows(decisions, runs, later, d, |decisions[d].sourceRuns| + 1);
    DecisionStays(groups, after, runs, later, decisions[d]);
  }

  lemma DecisionsStay(groups: map<Id, Group>, after: map<Id, Group>, runs: map<RunKey, RunState>,
                      later: map<RunKey, RunState>, decisions: map<Id, Decision>)
    requires DecisionsOk(groups, runs, decisions) && GroupsKept(groups, after) && RunsKept(runs, later)
    requires NoneAdded(decisions, runs, later)
    ensures DecisionsOk(after, later, decisions)
  {
    forall d | d in decisions ensures DecisionOk(after, later, decisions[d]) {
      OneDecisionStays(groups, after, runs, later, decisions, d);
    }
  }

  // ------------------------------------------------------------------------
  // Runs

  // A live run ends, or starts; nothing follows a live run.
  lemma RunChanges(groups: map<Id, Group>, after: map<Id, Group>, runs: map<RunKey, RunState>, k: RunKey, s: RunState)
    requires RunsOk(groups, runs) && GroupsKept(groups, after)
    requires k in runs && Live(runs[k])
    requires Usable(s) ==> Scored(s.output.review)
    ensures RunsOk(after, runs[k := s]) && RunsKept(runs, runs[k := s])
  {
    var later := runs[k := s];
    forall l | l in later ensures RunOk(after, later, l) {
      assert RunOk(groups, runs, l);
    }
  }

  lemma RunAdded(groups: map<Id, Group>, after: map<Id, Group>, runs: map<RunKey, RunState>, k: RunKey)
    requires RunsOk(groups, runs) && GroupsKept(groups, after)
    requires k !in runs && k.0 in after && 1 <= k.1 <= 3
    requires k.1 > 1 ==> !after[k.0].pilot && (k.0, k.1 - 1) in runs && Usable(runs[(k.0, k.1 - 1)])
    ensures RunsOk(after, runs[k := RunPending]) && RunsKept(runs, runs[k := RunPending])
  {
    var later := runs[k := RunPending];
    forall l | l in later ensures RunOk(after, later, l) {
      if l != k { assert RunOk(groups, runs, l); }
    }
  }

  lemma RunsGoStale(flow: Flow, r: Id, after: map<Id, Group>)
    requires RunsOk(flow.groups, flow.runs) && GroupsKept(flow.groups, after)
    ensures RunsOk(after, StaleRuns(flow, r)) && RunsKept(flow.runs, StaleRuns(flow, r))
    ensures StaleRuns(flow, r).Keys == flow.runs.Keys
  {
    var later := StaleRuns(flow, r);
    forall l | l in later ensures RunOk(after, later, l) {
      assert RunOk(flow.groups, flow.runs, l);
    }
  }

  // ------------------------------------------------------------------------
  // Whole flows

  // Status changes of groups matter to nothing else.
  lemma GroupsChange(flow: Flow, groups: map<Id, Group>)
    requires FlowOk(flow) && GroupsKept(flow.groups, groups) && groups.Keys == flow.groups.Keys
    ensures FlowOk(flow.(groups := groups))
  {
    DecisionsStay(flow.groups, groups, flow.runs, flow.runs, flow.decisions);
    forall k | k in flow.runs ensures RunOk(groups, flow.runs, k) {
      assert RunOk(flow.groups, flow.runs, k);
    }
    GroupsStay(flow, groups);
  }

  lemma GroupsStay(flow: Flow, groups: map<Id, Group>)
    requires GroupsOk(flow.groups, flow.revisions) && RerunsOk(flow)
    requires GroupsKept(flow.groups, groups) && groups.Keys == flow.groups.Keys
    ensures GroupsOk(groups, flow.revisions) && RerunsOk(flow.(groups := groups))
  {
    assert forall g :: g in groups ==> g in flow.groups;
  }

  lemma RunsChange(flow: Flow, runs: map<RunKey, RunState>)
    requires FlowOk(flow) && RunsOk(flow.groups, runs) && RunsKept(flow.runs, runs) && NoneAdded(flow.decisions, flow.runs, runs)
    ensures FlowOk(flow.(runs := runs))
  {
    DecisionsStay(flow.groups, flow.groups, flow.runs, runs, flow.decisions);
  }

  lemma RevisionsChange(flow: Flow, revisions: map<Id, Revision>)
    requires FlowOk(flow) && RevisionsOk(revisions) && RevisionsKept(flow.revisions, revisions)
    requires PointersOk(revisions, flow.decisions)
    ensures FlowOk(flow.(revisions := revisions))
  {
    RevisionsStay(flow, flow.(revisions := revisions));
  }

  lemma RevisionsStay(flow: Flow, after: Flow)
    requires GroupsOk(flow.groups, flow.revisions) && RerunsOk(flow) && RevisionsKept(flow.revisions, after.revisions)
    requires after.groups == flow.groups && after.appeals == flow.appeals && after.holds == flow.holds
    ensures GroupsOk(after.groups, after.revisions) && RerunsOk(after)
  {
  }

  lemma FirstPointers(revisions: map<Id, Revision>, decisions: map<Id, Decision>, id: Id, videoId: Id, mode: Option<bool>)
    requires PointersOk(revisions, decisions) && id !in revisions
    ensures PointersOk(Started(revisions, id, videoId, mode), decisions)
    ensures RevisionsKept(revisions, Started(revisions, id, videoId, mode))
  {
  }

  lemma FirstRevisionFlow(flow: Flow, id: Id, videoId: Id, shadow: bool)
    requires FlowOk(flow) && id !in flow.revisions && !HasCurrent(flow.revisions, videoId)
    ensures FlowOk(FirstRevision(flow, id, videoId, shadow))
  {
    FirstRevisionNumbers(flow.revisions, id, videoId, Some(shadow));
    FirstPointers(flow.revisions, flow.decisions, id, videoId, Some(shadow));
    RevisionsChange(flow, Started(flow.revisions, id, videoId, Some(shadow)));
  }

  lemma NextPointers(revisions: map<Id, Revision>, decisions: map<Id, Decision>, previous: Id, id: Id, mode: Option<bool>)
    requires PointersOk(revisions, decisions) && previous in revisions && id !in revisions
    ensures PointersOk(Renumbered(revisions, previous, id, mode), decisions)
    ensures RevisionsKept(revisions, Renumbered(revisions, previous, id, mode))
  {
  }

  lemma NextRevisionFlow(flow: Flow, videoId: Id, previous: Id, id: Id, mode: Option<bool>)
    requires FlowOk(flow) && IsCurrent(flow.revisions, videoId, previous) && id !in flow.revisions
    ensures FlowOk(NextRevision(flow, previous, id, mode))
  {
    NextNumbers(flow.revisions, videoId, previous, id, mode);
    NextPointers(flow.revisions, flow.decisions, previous, id, mode);
    RevisionsChange(flow, Renumbered(flow.revisions, previous, id, mode));
  }

  lemma GroupsSuperseded(flow: Flow, r: Id, statuses: set<GroupStatus>)
    ensures GroupsKept(flow.groups, SupersededGroups(flow, r, statuses))
    ensures SupersededGroups(flow, r, statuses).Keys == flow.groups.Keys
  {
  }

  lemma CloseWorkFlow(flow: Flow, r: Id, statuses: set<GroupStatus>)
    requires FlowOk(flow)
    ensures FlowOk(CloseWork(flow, r, statuses))
    ensures GroupsKept(flow.groups, CloseWork(flow, r, statuses).groups)
    ensures RunsKept(flow.runs, CloseWork(flow, r, statuses).runs)
  {
    GroupsSuperseded(flow, r, statuses);
    RunsGoStale(flow, r, flow.groups);
    RunsChange(flow, StaleRuns(flow, r));
    GroupsChange(flow.(runs := StaleRuns(flow, r)), SupersededGroups(flow, r, statuses));
  }

  lemma FreshGroupHasNoRuns(groups: map<Id, Group>, runs: map<RunKey, RunState>, id: Id)
    requires RunsOk(groups, runs) && id !in groups
    ensures (id, 1) !in runs
  {
    assert (id, 1) in runs ==> RunOk(groups, runs, (id, 1));
  }

  lemma OpenGroupFlow(flow: Flow, id: Id, group: Group)
    requires FlowOk(flow) && id !in flow.groups
    requires group.revisionId in flow.revisions && flow.revisions[group.revisionId].videoId == group.videoId
    requires group.shadow == group.pilot
    ensures FlowOk(OpenGroup(flow, id, group))
    ensures (id, 1) !in flow.runs
    ensures NoneAdded(flow.decisions, flow.runs, OpenGroup(flow, id, group).runs)
  {
    var after := OpenGroup(flow, id, group);
    FreshGroupHasNoRuns(flow.groups, flow.runs, id);
    RunAdded(flow.groups, after.groups, flow.runs, (id, 1));
    assert NoneAdded(flow.decisions, flow.runs, after.runs) by {
      forall d | d in flow.decisions ensures flow.decisions[d].groupId != id {
        assert DecisionOk(flow.groups, flow.runs, flow.decisions[d]);
      }
    }
    DecisionsStay(flow.groups, after.groups, flow.runs, after.runs, flow.decisions);
    GroupOpened(flow, id, group);
  }

  lemma GroupOpened(flow: Flow, id: Id, group: Group)
    requires GroupsOk(flow.groups, flow.revisions) && RerunsOk(flow) && id !in flow.groups
    requires group.revisionId in flow.revisions && flow.revisions[group.revisionId].videoId == group.videoId
    requires group.shadow == group.pilot
    ensures GroupsOk(flow.groups[id := group], flow.revisions)
    ensures RerunsOk(OpenGroup(flow, id, group))
  {
  }

  // ------------------------------------------------------------------------
  // Holds and appeals

  lemma HoldsChange(flow: Flow, holds: map<Id, WorkflowHold>)
    requires FlowOk(flow) && AppealsOk(flow.appeals, holds) && RerunsOk(flow.(holds := holds))
    ensures FlowOk(flow.(holds := holds))
  {
  }

  lemma HoldsRerun(flow: Flow, holds: map<Id, WorkflowHold>)
    requires RerunsOk(flow) && forall h :: h in holds ==> holds[h].revisionId in flow.revisions
    ensures RerunsOk(flow.(holds := holds))
  {
  }

  lemma OneHoldAdded(holds: map<Id, WorkflowHold>, id: Id, h: WorkflowHold)
    requires id !in holds && h.holdType != UnderAppeal
    ensures SameAppealHolds(holds, holds[id := h])
  {
  }

  lemma HoldAdded(flow: Flow, id: Id, h: WorkflowHold)
    requires FlowOk(flow) && id !in flow.holds && h.holdType != UnderAppeal && h.revisionId in flow.revisions
    ensures FlowOk(flow.(holds := flow.holds[id := h]))
  {
    var holds := flow.holds[id := h];
    OneHoldAdded(flow.holds, id, h);
    OtherHoldsChange(flow.appeals, flow.holds, holds);
    assert RerunsOk(flow.(holds := holds)) by { HoldsRerun(flow, holds); }
    HoldsChange(flow, holds);
  }

  ghost predicate SameAppealHolds(before: map<Id, WorkflowHold>, after: map<Id, WorkflowHold>) {
    && (forall h :: h in before && before[h].holdType == UnderAppeal ==> h in after && after[h] == before[h])
    && (forall h :: h in after && after[h].holdType == UnderAppeal ==> h in before && after[h] == before[h])
  }

  lemma OtherHoldsChange(appeals: map<Id, Appeal>, holds: map<Id, WorkflowHold>, after: map<Id, WorkflowHold>)
    requires AppealsOk(appeals, holds) && SameAppealHolds(holds, after)
    ensures AppealsOk(appeals, after)
  {
    forall a | a in appeals ensures HasHold(after, appeals[a]) {
      var h :| h in holds && HoldOf(appeals[a], holds[h]);
      assert h in after && HoldOf(appeals[a], after[h]);
    }
    forall h | h in after && after[h].holdType == UnderAppeal ensures HasAppeal(appeals, after[h]) {
      assert HasAppeal(appeals, holds[h]);
    }
  }

  lemma OneHoldResolved(holds: map<Id, WorkflowHold>, h: Id)
    requires h in holds && holds[h].holdType != UnderAppeal
    ensures SameAppealHolds(holds, holds[h := holds[h].(resolution := Resolved)])
  {
  }

  lemma ManualHoldResolved(flow: Flow, h: Id)
    requires FlowOk(flow) && h in flow.holds && flow.holds[h].holdType != UnderAppeal
    ensures FlowOk(flow.(holds := flow.holds[h := flow.holds[h].(resolution := Resolved)]))
  {
    var holds := flow.holds[h := flow.holds[h].(resolution := Resolved)];
    OneHoldResolved(flow.holds, h);
    OtherHoldsChange(flow.appeals, flow.holds, holds);
    assert RerunsOk(flow.(holds := holds)) by { HoldsRerun(flow, holds); }
    HoldsChange(flow, holds);
  }

  predicate SameAppeal(a: Appeal, b: Appeal) { a.(resolution := b.resolution) == b }

  predicate SameHold(h: WorkflowHold, k: WorkflowHold) { h.(resolution := k.resolution) == k }

  // Only resolutions changed, and the same way on both sides of each pair.
  ghost predicate OnlyResolutions(flow: Flow, after: Flow) {
    && after.revisions == flow.revisions && after.groups == flow.groups
    && after.appeals.Keys == flow.appeals.Keys && after.holds.Keys == flow.holds.Keys
    && (forall a :: a in flow.appeals ==> SameAppeal(flow.appeals[a], after.appeals[a]))
    && (forall h :: h in flow.holds ==> SameHold(flow.holds[h], after.holds[h]))
  }

  lemma HoldStays(holds: map<Id, WorkflowHold>, holds': map<Id, WorkflowHold>, a: Appeal, a': Appeal)
    requires HasHold(holds, a) && SameAppeal(a, a') && holds'.Keys == holds.Keys
    requires forall h :: h in holds ==> SameHold(holds[h], holds'[h])
    ensures HasHold(holds', a')
  {
    var h :| h in holds && HoldOf(a, holds[h]);
    assert h in holds' && HoldOf(a', holds'[h]);
  }

  lemma AppealStays(appeals: map<Id, Appeal>, appeals': map<Id, Appeal>, h: WorkflowHold, h': WorkflowHold)
    requires HasAppeal(appeals, h) && SameHold(h, h') && appeals'.Keys == appeals.Keys
    requires forall a :: a in appeals ==> SameAppeal(appeals[a], appeals'[a])
    ensures HasAppeal(appeals', h')
  {
    var a :| a in appeals && HoldOf(appeals[a], h);
    assert a in appeals' && HoldOf(appeals'[a], h');
  }

  lemma ResolvedTogether(appeals: map<Id, Appeal>, holds: map<Id, WorkflowHold>,
                         appeals': map<Id, Appeal>, holds': map<Id, WorkflowHold>)
    requires AppealsOk(appeals, holds)
    requires appeals'.Keys == appeals.Keys && holds'.Keys == holds.Keys
    requires forall a :: a in appeals ==> SameAppeal(appeals[a], appeals'[a])
    requires forall h :: h in holds ==> SameHold(holds[h], holds'[h])
    requires forall a, h :: a in appeals && h in holds && HoldOf(appeals[a], holds[h]) ==>
               appeals'[a].resolution == holds'[h].resolution
    ensures AppealsOk(appeals', holds')
  {
    forall a | a in appeals' ensures HasHold(holds', appeals'[a]) {
      assert a in appeals;
      HoldStays(holds, holds', appeals[a], appeals'[a]);
    }
    forall h | h in holds' && holds'[h].holdType == UnderAppeal ensures HasAppeal(appeals', holds'[h]) {
      assert h in holds && SameHold(holds[h], holds'[h]);
      AppealStays(appeals, appeals', holds[h], holds'[h]);
    }
    forall a, b | a in appeals' && b in appeals' && appeals'[a].revisionId == appeals'[b].revisionId ensures a == b {
      assert SameAppeal(appeals[a], appeals'[a]) && SameAppeal(appeals[b], appeals'[b]);
    }
    forall a, h | a in appeals' && h in holds' && HoldOf(appeals'[a], holds'[h])
      ensures appeals'[a].resolution == holds'[h].resolution {
      assert SameAppeal(appeals[a], appeals'[a]) && SameHold(holds[h], holds'[h]);
      assert HoldOf(appeals[a], holds[h]);
    }
  }

  lemma RerunsStay(flow: Flow, after: Flow)
    requires RerunsOk(flow) && OnlyResolutions(flow, after)
    ensures RerunsOk(after)
  {
    assert forall a :: a in after.appeals ==> a in flow.appeals;
    assert forall h :: h in after.holds ==> h in flow.holds;
  }

  lemma GroupResolves(flow: Flow, g: Id)
    ensures OnlyResolutions(flow, ResolveByGroup(flow, g))
  {
  }

  lemma ClosingResolves(flow: Flow, id: Id, resolution: Resolution)
    requires id in flow.appeals
    ensures OnlyResolutions(flow, CloseAppeal(flow, id, resolution))
  {
  }

  // Adoption resolves the appeal of the group with its hold ...
  lemma GroupPairs(flow: Flow, g: Id, a: Id, h: Id)
    requires a in flow.appeals && h in flow.holds && HoldOf(flow.appeals[a], flow.holds[h])
    requires flow.appeals[a].resolution == flow.holds[h].resolution
    ensures ResolveByGroup(flow, g).appeals[a].resolution == ResolveByGroup(flow, g).holds[h].resolution
  {
  }

  lemma ResolvedByGroup(flow: Flow, g: Id)
    requires AppealsOk(flow.appeals, flow.holds) && RerunsOk(flow)
    ensures AppealsOk(ResolveByGroup(flow, g).appeals, ResolveByGroup(flow, g).holds) && RerunsOk(ResolveByGroup(flow, g))
  {
    var after := ResolveByGroup(flow, g);
    forall a, h | a in flow.appeals && h in flow.holds && HoldOf(flow.appeals[a], flow.holds[h])
      ensures after.appeals[a].resolution == after.holds[h].resolution {
      GroupPairs(flow, g, a, h);
    }
    GroupResolves(flow, g);
    ResolvedTogether(flow.appeals, flow.holds, after.appeals, after.holds);
    RerunsStay(flow, after);
  }

  lemma ResolvedByGroupFlow(flow: Flow, g: Id)
    requires FlowOk(flow)
    ensures FlowOk(ResolveByGroup(flow, g))
  {
    ResolvedByGroup(flow, g);
  }

  // ... and so does whoever resolves or rejects it.
  lemma ClosedPairs(flow: Flow, id: Id, resolution: Resolution, a: Id, h: Id)
    requires id in flow.appeals && flow.appeals[id].resolution == Unresolved
    requires a in flow.appeals && h in flow.holds && HoldOf(flow.appeals[a], flow.holds[h])
    requires flow.appeals[a].resolution == flow.holds[h].resolution
    requires flow.appeals[a].revisionId == flow.appeals[id].revisionId ==> a == id
    ensures var after := CloseAppeal(flow, id, resolution); after.appeals[a].resolution == after.holds[h].resolution
  {
  }

  lemma AllClosedPairs(flow: Flow, id: Id, resolution: Resolution)
    requires AppealsOk(flow.appeals, flow.holds)
    requires id in flow.appeals && flow.appeals[id].resolution == Unresolved
    ensures forall a, h :: a in flow.appeals && h in flow.holds && HoldOf(flow.appeals[a], flow.holds[h]) ==>
              CloseAppeal(flow, id, resolution).appeals[a].resolution == CloseAppeal(flow, id, resolution).holds[h].resolution
  {
    forall a, h | a in flow.appeals && h in flow.holds && HoldOf(flow.appeals[a], flow.holds[h])
      ensures CloseAppeal(flow, id, resolution).appeals[a].resolution == CloseAppeal(flow, id, resolution).holds[h].resolution {
      ClosedPairs(flow, id, resolution, a, h);
    }
  }

  lemma AppealClosed(flow: Flow, id: Id, resolution: Resolution)
    requires AppealsOk(flow.appeals, flow.holds) && RerunsOk(flow)
    requires id in flow.appeals && flow.appeals[id].resolution == Unresolved
    ensures AppealsOk(CloseAppeal(flow, id, resolution).appeals, CloseAppeal(flow, id, resolution).holds)
    ensures RerunsOk(CloseAppeal(flow, id, resolution))
  {
    var after := CloseAppeal(flow, id, resolution);
    AllClosedPairs(flow, id, resolution);
    ClosingResolves(flow, id, resolution);
    ResolvedTogether(flow.appeals, flow.holds, after.appeals, after.holds);
    RerunsStay(flow, after);
  }

  lemma AppealClosedFlow(flow: Flow, id: Id, resolution: Resolution)
    requires FlowOk(flow) && id in flow.appeals && flow.appeals[id].resolution == Unresolved
    ensures FlowOk(CloseAppeal(flow, id, resolution))
  {
    AppealClosed(flow, id, resolution);
  }

  lemma PairReruns(flow: Flow, id: Id, a: Appeal, holdId: Id, h: WorkflowHold)
    requires RerunsOk(flow) && a.revisionId in flow.revisions && h.revisionId == a.revisionId
    requires InRevision(flow.groups, a.rerunGroupId, a.revisionId)
    ensures RerunsOk(flow.(appeals := flow.appeals[id := a], holds := flow.holds[holdId := h]))
  {
  }

  lemma PairsChange(flow: Flow, appeals: map<Id, Appeal>, holds: map<Id, WorkflowHold>)
    requires FlowOk(flow) && AppealsOk(appeals, holds) && RerunsOk(flow.(appeals := appeals, holds := holds))
    ensures FlowOk(flow.(appeals := appeals, holds := holds))
  {
  }

  // A new appeal comes with its hold, on a revision that had none.
  lemma AppealAdded(flow: Flow, id: Id, a: Appeal, holdId: Id, h: WorkflowHold)
    requires FlowOk(flow) && id !in flow.appeals && holdId !in flow.holds
    requires HoldOf(a, h) && a.resolution == h.resolution
    requires a.revisionId in flow.revisions && InRevision(flow.groups, a.rerunGroupId, a.revisionId)
    requires forall b :: b in flow.appeals ==> flow.appeals[b].revisionId != a.revisionId
    ensures FlowOk(flow.(appeals := flow.appeals[id := a], holds := flow.holds[holdId := h]))
  {
    PairAdded(flow.appeals, flow.holds, id, a, holdId, h);
    PairReruns(flow, id, a, holdId, h);
    PairsChange(flow, flow.appeals[id := a], flow.holds[holdId := h]);
  }

  lemma PairHolds(appeals: map<Id, Appeal>, holds: map<Id, WorkflowHold>, id: Id, a: Appeal, holdId: Id, h: WorkflowHold, b: Id)
    requires holdId !in holds && HoldOf(a, h) && b in appeals[id := a]
    requires b != id ==> HasHold(holds, appeals[b])
    ensures HasHold(holds[holdId := h], appeals[id := a][b])
  {
    if b == id {
      assert HoldOf(a, holds[holdId := h][holdId]);
    } else {
      var k :| k in holds && HoldOf(appeals[b], holds[k]);
      assert k in holds[holdId := h] && HoldOf(appeals[b], holds[holdId := h][k]);
    }
  }

  lemma PairAppeals(appeals: map<Id, Appeal>, holds: map<Id, WorkflowHold>, id: Id, a: Appeal, holdId: Id, h: WorkflowHold, k: Id)
    requires id !in appeals && HoldOf(a, h) && k in holds[holdId := h]
    requires k != holdId ==> HasAppeal(appeals, holds[k])
    ensures HasAppeal(appeals[id := a], holds[holdId := h][k])
  {
    if k == holdId {
      assert HoldOf(appeals[id := a][id], h);
    } else {
      var b :| b in appeals && HoldOf(appeals[b], holds[k]);
      assert b in appeals[id := a] && HoldOf(appeals[id := a][b], holds[k]);
    }
  }

  lemma PairAdded(appeals: map<Id, Appeal>, holds: map<Id, WorkflowHold>, id: Id, a: Appeal, holdId: Id, h: WorkflowHold)
    requires AppealsOk(appeals, holds) && id !in appeals && holdId !in holds
    requires HoldOf(a, h) && a.resolution == h.resolution
    requires forall b :: b in appeals ==> appeals[b].revisionId != a.revisionId
    ensures AppealsOk(appeals[id := a], holds[holdId := h])
  {
    var appeals', holds' := appeals[id := a], holds[holdId := h];
    forall b | b in appeals' ensures HasHold(holds', appeals'[b]) {
      PairHolds(appeals, holds, id, a, holdId, h, b);
    }
    forall k | k in holds' && holds'[k].holdType == UnderAppeal ensures HasAppeal(appeals', holds'[k]) {
      PairAppeals(appeals, holds, id, a, holdId, h, k);
    }
    forall b, k | b in appeals' && k in holds' && HoldOf(appeals'[b], holds'[k])
      ensures appeals'[b].resolution == holds'[k].resolution {
      assert k != holdId ==> HasAppeal(appeals, holds[k]);
    }
  }
}
