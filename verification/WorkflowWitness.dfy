// A state with the invariant in which a formal evaluation can only fail: its revision
// has passed its gate, a second group for changed input runs on it, and nothing holds it.
module WorkflowWitness {
  import opened Basics
  import opened ContentScoring
  import opened ReviewEngine
  import opened ReviewTheorems
  import opened QuotaModel
  import opened QuotaWindows
  import opened QueueModel
  import opened QueueInvariant
  import opened WorkflowModel
  import opened WorkflowInvariant
  import opened WorkflowTheorems

  const ANCHORS: Anchors := PerDimension(3.0, 3.0, 3.0, 3.0, 3.0, 3.0, 4.0, 4.0)
  const REVIEW: ReviewRun := ReviewRun(775, B, ANCHORS, [], Clear)
  const OUTPUT: RunOutput := RunOutput(REVIEW, true)
  const CHECK: FirstCheck := FirstCheck(50, 1, None, None)
  const COMPLETION: Completion := Completion(OUTPUT, CHECK, 2, 41, 61)
  const ADOPTED: ReviewEngine.Progress := Adopt(SingleAfterPilot, ANCHORS, 775, B)

  const VIDEO: Id := 5
  const REVISION: Id := 20
  const FIRST: RunKey := (10, 1)
  const SECOND: RunKey := (11, 1)
  const TOKEN: Id := 31
  const NOW: Time := 500

  const DECIDED: Job := Job(VIDEO, 1, V11Content, Run(10, 1), REVISION, Succeeded, 1, 2,
                            0, 0, None, None, Some(10), None, Some(20), None)
  const RUNNING: Job := Job(VIDEO, 1, V11Content, Run(11, 1), REVISION, Running, 1, 2,
                            100, 100, Some(TOKEN), Some(1000), Some(200), None, None, None)

  const JOBS: map<Id, Job> := map[0 := DECIDED, 1 := RUNNING]
  const ATTEMPTS: map<Id, Attempt> := map[30 := Attempt(0, 1, Ended(Succeeded), Some(10)), 31 := Attempt(1, 1, Ongoing, Some(200))]
  const USAGE: map<Id, Usage> := map[30 := Usage(0, 1, V11Content, Ended(Succeeded)), 31 := Usage(1, 1, V11Content, Ongoing)]
  const USERS: map<Id, User> := map[1 := User(Staff, true, None)]
  const LEDGER: map<LedgerKey, Entry> :=
    map[EntryKey(DECIDED, 0) := Entry(1, Window(0, None), Committed), EntryKey(RUNNING, 1) := Entry(1, Window(0, None), Reserved)]

  const REVISIONS: map<Id, Revision> := map[REVISION := Revision(VIDEO, 1, Current, Some(false), Some(40))]
  const GROUPS: map<Id, Group> :=
    map[10 := Group(VIDEO, 1, REVISION, false, false, false, "a", true, GroupAdopted, 1),
        11 := Group(VIDEO, 1, REVISION, false, false, false, "b", true, GroupRunning, 1)]
  const RUNS: map<RunKey, RunState> := map[FIRST := RunSucceeded(OUTPUT), SECOND := RunRunning]
  const DECISION: Decision := Decision(10, REVISION, [1], ANCHORS, 775, B, Clear, SingleAfterPilot)
  const FLOW: Flow :=
    Flow(map[VIDEO := Video(1, true)], REVISIONS, GROUPS, RUNS, map[40 := DECISION], map[], map[], map[REVISION := Approved])
  const STATE: Db := Db(Core(Quota(USERS, map[], LEDGER, map[]), Queue(JOBS, ATTEMPTS, USAGE)), FLOW)

  // ------------------------------------------------------------------------
  // The review

  lemma UnitsOfReview()
    ensures Units(ANCHORS, |DIMENSIONS|) == 62
  {
    assert Units(ANCHORS, 0) == 0;
    assert Units(ANCHORS, 1) == 12;
    assert Units(ANCHORS, 2) == 24;
    assert Units(ANCHORS, 3) == 33;
    assert Units(ANCHORS, 4) == 42;
    assert Units(ANCHORS, 5) == 48;
    assert Units(ANCHORS, 6) == 54;
    assert Units(ANCHORS, 7) == 58;
  }

  lemma ReviewIsScored()
    ensures Scored(REVIEW)
  {
    UnitsOfReview();
    IntegerAnchorsScore(ANCHORS);
  }

  lemma NoClaims()
    ensures !FirstRunContradiction(REVIEW, None)
  {
    assert Claims([REVIEW]) == [];
  }

  lemma ReviewAdopts(reviews: seq<ReviewRun>)
    requires reviews == [REVIEW]
    ensures ProgressOf(reviews, false, CHECK) == Success(ADOPTED)
    ensures WorstCompliance(reviews) == Clear
  {
    NoClaims();
  }

  // ------------------------------------------------------------------------
  // The state

  lemma JobsAreOk()
    ensures JobsOk(JOBS)
  {
  }

  lemma NumbersAreOk()
    ensures QueueInvariant.NumberedOnce(ATTEMPTS) && QueueInvariant.NumberedFully(STATE.core.queue)
  {
    assert IsAttempt(ATTEMPTS, 30, 0, 1) && IsAttempt(ATTEMPTS, 31, 1, 1);
  }

  lemma AttemptsAreOk()
    ensures AttemptsOk(STATE.core.queue) && LeasesOk(STATE.core.queue) && UsageOk(ATTEMPTS, USAGE)
  {
  }

  lemma EntriesAreOk()
    ensures EntriesOk(LEDGER, JOBS) && NoStrayEntries(LEDGER, JOBS)
  {
  }

  lemma LedgerIsOk()
    ensures NonNegative(LEDGER) && ActorsExist(USERS, JOBS)
  {
  }

  lemma QueueIsOk()
    ensures Inv(STATE.core)
  {
    JobsAreOk();
    NumbersAreOk();
    AttemptsAreOk();
    EntriesAreOk();
    LedgerIsOk();
  }

  lemma RevisionsAreOk()
    ensures RevisionsOk(REVISIONS)
  {
    assert IsCurrent(REVISIONS, VIDEO, REVISION) && IsNumbered(REVISIONS, REVISION, VIDEO, 1);
  }

  lemma RunsAreOk()
    ensures RunsOk(GROUPS, RUNS)
  {
    ReviewIsScored();
  }

  lemma DecisionIsOk()
    ensures DecisionOk(GROUPS, RUNS, DECISION)
  {
    assert FirstNumbers(1) == [1];
    assert AllUsable(RUNS, 10, 1);
    ReviewAdopts(ReviewsOfGroup(RUNS, 10, 1));
  }

  lemma FlowIsOk()
    ensures FlowOk(FLOW)
  {
    RevisionsAreOk();
    RunsAreOk();
    DecisionIsOk();
  }

  lemma BridgeIsOk()
    ensures BridgeOk(JOBS, FLOW)
  {
    assert WorksOn(JOBS, 1, SECOND, VIDEO);
  }

  lemma StateIsOk()
    ensures DbInv(STATE)
  {
    QueueIsOk();
    FlowIsOk();
    BridgeIsOk();
  }

  lemma SecondRunIsBound()
    ensures Bound(STATE, NOW, 1, TOKEN) && KeyOf(JOBS[1]) == SECOND
  {
  }

  lemma SecondAdopts()
    ensures ReviewsWith(FLOW, SECOND, OUTPUT) == [REVIEW]
    ensures ProgressOf(ReviewsWith(FLOW, SECOND, OUTPUT), GROUPS[11].appeal, CHECK) == Success(ADOPTED)
  {
    assert AllUsable(RUNS, 11, 0) && ReviewsOfGroup(RUNS, 11, 0) == [];
    ReviewAdopts(ReviewsWith(FLOW, SECOND, OUTPUT));
  }

  lemma CompletionIsAcceptable()
    ensures Acceptable(STATE, NOW, CompleteEvent(1, TOKEN, COMPLETION))
  {
    ReviewIsScored();
  }

  lemma SecondWouldAdopt()
    ensures WouldAdopt(STATE, NOW, 1, TOKEN, COMPLETION, ADOPTED)
  {
    StateIsOk();
    SecondRunIsBound();
    SecondAdopts();
    CompletionIsAcceptable();
  }

  lemma NothingHoldsIt()
    ensures REVISION in FLOW.gates && ActiveHolds(FLOW, REVISION) == {} && ActiveAppeals(FLOW, REVISION) == {}
  {
  }

  // The state satisfies the invariant, the running evaluation would be adopted, and
  // its completion fails.
  lemma SecondDecisionFails()
    ensures DbInv(STATE) && Bound(STATE, NOW, 1, TOKEN)
    ensures WouldAdopt(STATE, NOW, 1, TOKEN, COMPLETION, ADOPTED)
    ensures Complete(STATE, NOW, 1, TOKEN, COMPLETION) == Failure(FlowConstraint)
  {
    SecondWouldAdopt();
    SecondRunIsBound();
    NothingHoldsIt();
    NoSecondDecision(STATE, NOW, 1, TOKEN, COMPLETION, ADOPTED);
  }
}
