// When the engine adopts, holds or asks again: each answer under exactly its own
// condition on the runs.
module ReviewOutcomes {
  import opened Basics
  import opened ContentScoring
  import opened ReviewEngine
  import opened ReviewTheorems

  // ------------------------------------------------------------------------
  // What the runs say

  ghost predicate FarScores(runs: seq<ReviewRun>) {
    exists l, r :: l in runs && r in runs && l.score > r.score + 100
  }

  ghost predicate FarRatings(runs: seq<ReviewRun>) {
    exists l, r :: l in runs && r in runs && Rank(l.rating) >= Rank(r.rating) + 2
  }

  ghost predicate HardOpposed(runs: seq<ReviewRun>) {
    exists d, key :: Opposed(runs, d, key) && !(d == ActionLogic && key == "action_cue_present")
  }

  ghost predicate SoftOpposed(runs: seq<ReviewRun>) {
    Opposed(runs, ActionLogic, "action_cue_present")
  }

  ghost predicate ClearMeetsConfirmed(runs: seq<ReviewRun>) {
    exists l, r :: l in runs && r in runs && l.compliance == Clear && r.compliance == Confirmed
  }

  // Two runs whose first word on the soft claim is the same definite one.
  ghost predicate SoftSettled(runs: seq<ReviewRun>) {
    exists i, j, s :: 0 <= i < j < |runs| && (s == Present || s == Absent)
      && FirstState(runs[i].claims, ActionLogic, "action_cue_present") == Some(s)
      && FirstState(runs[j].claims, ActionLogic, "action_cue_present") == Some(s)
  }

  // How often the runs make a claim, all together.
  function TimesStated(runs: seq<ReviewRun>, c: Claim): nat {
    if runs == [] then 0 else multiset(runs[0].claims)[c] + TimesStated(runs[1..], c)
  }

  ghost predicate StatedTwice(runs: seq<ReviewRun>, d: Dimension) {
    exists c: Claim :: c.dimension == d && (c.state == Present || c.state == Absent) && TimesStated(runs, c) >= 2
  }

  ghost predicate FactsStatedTwice(runs: seq<ReviewRun>) {
    forall d: Dimension :: StatedTwice(runs, d)
  }

  // Nothing in the runs forbids a decision.
  ghost predicate Compatible(runs: seq<ReviewRun>) {
    && !FarScores(runs) && !FarRatings(runs) && !HardOpposed(runs) && !ClearMeetsConfirmed(runs)
    && (SoftOpposed(runs) ==> |runs| == 3 && SoftSettled(runs))
  }

  // ------------------------------------------------------------------------
  // The engine reads the same from them

  lemma {:induction false} TimesAreMentions(runs: seq<ReviewRun>, c: Claim)
    ensures TimesStated(runs, c) == Mentions(runs, c)
  {
    if runs != [] { TimesAreMentions(runs[1..], c); }
  }

  lemma FactsAreStatedTwice(runs: seq<ReviewRun>)
    ensures FactsStatedTwice(runs) <==> FactsAgree(runs)
  {
    forall c ensures TimesStated(runs, c) == Mentions(runs, c) { TimesAreMentions(runs, c); }
    forall d: Dimension ensures StatedTwice(runs, d) <==> AgreedOn(runs, d) {
      if StatedTwice(runs, d) {
        var c: Claim :| c.dimension == d && (c.state == Present || c.state == Absent) && TimesStated(runs, c) >= 2;
        assert Mentions(runs, c) >= 2;
      }
      if AgreedOn(runs, d) {
        var c: Claim :| c.dimension == d && c.state != Uncertain && Mentions(runs, c) >= 2;
        assert TimesStated(runs, c) >= 2;
      }
    }
  }

  lemma DistancesAgree(runs: seq<ReviewRun>)
    ensures FarScores(runs) <==> ScoresFarApart(runs)
    ensures FarRatings(runs) <==> RatingsFarApart(runs)
    ensures ClearMeetsConfirmed(runs) <==> ComplianceConflict(runs)
  {
    if RatingsFarApart(runs) {
      var l, r :| l in runs && r in runs && RatingDistance(l.rating, r.rating) >= 2;
      assert Rank(l.rating) >= Rank(r.rating) + 2 || Rank(r.rating) >= Rank(l.rating) + 2;
    }
    if FarRatings(runs) {
      var l, r :| l in runs && r in runs && Rank(l.rating) >= Rank(r.rating) + 2;
      assert RatingDistance(l.rating, r.rating) >= 2;
    }
  }

  lemma ConflictsAgree(runs: seq<ReviewRun>)
    ensures HardOpposed(runs) <==> HardContradiction(runs)
    ensures SoftOpposed(runs) <==> SoftContradiction(runs)
  {
    forall d, key ensures Opposed(runs, d, key) <==> Contradicted(runs, d, key) { OpposedIsContradicted(runs, d, key); }
    if HardOpposed(runs) {
      var d, key :| Opposed(runs, d, key) && !(d == ActionLogic && key == "action_cue_present");
      assert Contradicted(runs, d, key) && !IsSoft(d, key);
    }
    if HardContradiction(runs) {
      var d, key :| Contradicted(runs, d, key) && !IsSoft(d, key);
      assert Opposed(runs, d, key);
    }
  }

  lemma SidesAgree(runs: seq<ReviewRun>)
    requires |runs| == 3
    ensures SoftSettled(runs) <==> SidesHaveMajority(runs, SOFT_DIMENSION, SOFT_KEY)
  {
    ThreeRuns(runs);
    forall i, s | 0 <= i < 3
      ensures Side([runs[i]], ActionLogic, "action_cue_present", s)
           == if FirstState(runs[i].claims, ActionLogic, "action_cue_present") == Some(s) then 1 else 0 {
      assert [runs[i]][1..] == [];
    }
  }

  // ------------------------------------------------------------------------
  // The holds and the third review that need no closer look, in their order

  lemma GuardOutcome(runs: seq<ReviewRun>)
    requires 2 <= |runs| <= 3
    ensures Decide(runs) == Success(Hold(ScoreDifferenceOverTen)) <==> FarScores(runs)
    ensures Decide(runs) == Success(Hold(RatingDifferenceTwoLevels)) <==> !FarScores(runs) && FarRatings(runs)
    ensures Decide(runs) == Success(Hold(MajorFactConflict)) <==> !FarScores(runs) && !FarRatings(runs) && HardOpposed(runs)
    ensures Decide(runs) == Success(Hold(MajorComplianceConflict)) <==>
              !FarScores(runs) && !FarRatings(runs) && !HardOpposed(runs) && ClearMeetsConfirmed(runs)
    ensures Decide(runs) == Success(ThirdReview(SoftFactConflict)) <==>
              && !FarScores(runs) && !FarRatings(runs) && !HardOpposed(runs) && !ClearMeetsConfirmed(runs)
              && SoftOpposed(runs) && |runs| == 2
    ensures Decide(runs) == Success(Hold(SoftFactConflictUnresolved)) <==>
              && !FarScores(runs) && !FarRatings(runs) && !HardOpposed(runs) && !ClearMeetsConfirmed(runs)
              && SoftOpposed(runs) && |runs| == 3 && !SoftSettled(runs)
  {
    DistancesAgree(runs);
    ConflictsAgree(runs);
    if |runs| == 3 { SidesAgree(runs); }
  }

  lemma CompatibleMeans(runs: seq<ReviewRun>)
    requires 2 <= |runs| <= 3
    ensures Compatible(runs) ==> Decide(runs) == if |runs| == 2 then DecideDouble(runs) else DecideTriple(runs)
    ensures !Compatible(runs) ==> Decide(runs).Success? && !Decide(runs).value.Adopt?
  {
    DistancesAgree(runs);
    ConflictsAgree(runs);
    if |runs| == 3 { SidesAgree(runs); }
  }

  // ------------------------------------------------------------------------
  // Two runs

  ghost predicate Near(l: ReviewRun, r: ReviewRun) {
    && l.rating == r.rating
    && l.score <= r.score + 50 && r.score <= l.score + 50
    && forall d: Dimension :: l.anchors.At(d) <= r.anchors.At(d) + 1.0 && r.anchors.At(d) <= l.anchors.At(d) + 1.0
  }

  ghost predicate FarAnchors(l: ReviewRun, r: ReviewRun) {
    exists d: Dimension :: l.anchors.At(d) >= r.anchors.At(d) + 2.0 || r.anchors.At(d) >= l.anchors.At(d) + 2.0
  }

  ghost predicate Opposing(runs: seq<ReviewRun>) {
    exists d, key :: Opposed(runs, d, key)
  }

  lemma NearMeans(l: ReviewRun, r: ReviewRun)
    ensures Near(l, r) <==> l.rating == r.rating && Abs(l.score - r.score) <= 50 && AnchorsWithin(l, r, 1.0)
    ensures FarAnchors(l, r) <==> AnchorGapReaches(l, r, 2.0)
  {
    if FarAnchors(l, r) {
      var d: Dimension :| l.anchors.At(d) >= r.anchors.At(d) + 2.0 || r.anchors.At(d) >= l.anchors.At(d) + 2.0;
      assert l.anchors.At(d) - r.anchors.At(d) >= 2.0 || r.anchors.At(d) - l.anchors.At(d) >= 2.0;
    }
    if AnchorGapReaches(l, r, 2.0) {
      var d: Dimension :| l.anchors.At(d) - r.anchors.At(d) >= 2.0 || r.anchors.At(d) - l.anchors.At(d) >= 2.0;
      assert l.anchors.At(d) >= r.anchors.At(d) + 2.0 || r.anchors.At(d) >= l.anchors.At(d) + 2.0;
    }
    if AnchorsWithin(l, r, 1.0) {
      forall d: Dimension ensures l.anchors.At(d) <= r.anchors.At(d) + 1.0 && r.anchors.At(d) <= l.anchors.At(d) + 1.0 {
        assert -1.0 <= l.anchors.At(d) - r.anchors.At(d) <= 1.0;
      }
    }
    if Near(l, r) {
      forall d: Dimension ensures -1.0 <= l.anchors.At(d) - r.anchors.At(d) <= 1.0 {
        assert l.anchors.At(d) <= r.anchors.At(d) + 1.0 && r.anchors.At(d) <= l.anchors.At(d) + 1.0;
      }
    }
  }

  // Near runs that oppose each other on nothing are compatible.
  lemma NearIsCompatible(l: ReviewRun, r: ReviewRun)
    requires Near(l, r)
    ensures Compatible([l, r]) <==> !Opposing([l, r]) && !ClearMeetsConfirmed([l, r])
  {
    var runs := [l, r];
    assert forall x :: x in runs ==> x == l || x == r;
    assert !FarScores(runs) && !FarRatings(runs);
    if Opposing(runs) {
      var d, key :| Opposed(runs, d, key);
      if !(d == ActionLogic && key == "action_cue_present") { assert HardOpposed(runs); }
    }
  }

  lemma AverageOf(l: ReviewRun, r: ReviewRun, anchors: Anchors)
    ensures anchors == AverageAnchors(l, r) <==> forall d: Dimension :: anchors.At(d) == (l.anchors.At(d) + r.anchors.At(d)) / 2.0
  {
    forall d: Dimension ensures AverageAnchors(l, r).At(d) == (l.anchors.At(d) + r.anchors.At(d)) / 2.0 { AverageAt(l, r, d); }
    if forall d: Dimension :: anchors.At(d) == (l.anchors.At(d) + r.anchors.At(d)) / 2.0 {
      AnchorsExtensional(anchors, AverageAnchors(l, r));
    }
  }

  // Two runs are adopted exactly when the ratings are equal, the scores differ by at
  // most five points, every anchor by at most one, every dimension has a definite
  // claim stated twice, no claim is opposed, and clear does not meet confirmed.
  lemma PairIsAdopted(l: ReviewRun, r: ReviewRun)
    requires InRange(l.anchors) && InRange(r.anchors)
    ensures Decide([l, r]).Success? && Decide([l, r]).value.Adopt? <==>
              Near(l, r) && FactsStatedTwice([l, r]) && !Opposing([l, r]) && !ClearMeetsConfirmed([l, r])
  {
    PairOutcome(l, r);
    if Near(l, r) { NearIsCompatible(l, r); }
  }

  // Every other answer for two runs.
  lemma PairOutcome(l: ReviewRun, r: ReviewRun)
    requires InRange(l.anchors) && InRange(r.anchors)
    ensures Decide([l, r]).Success? && Decide([l, r]).value.Adopt? <==>
              Compatible([l, r]) && Near(l, r) && FactsStatedTwice([l, r])
    ensures Decide([l, r]) == Success(ThirdReview(AnchorDifference)) <==>
              Compatible([l, r]) && !(Near(l, r) && FactsStatedTwice([l, r])) && FarAnchors(l, r)
    ensures Decide([l, r]) == Success(ThirdReview(UnstableDoubleReview)) <==>
              Compatible([l, r]) && !(Near(l, r) && FactsStatedTwice([l, r])) && !FarAnchors(l, r)
  {
    GuardOutcome([l, r]);
    CompatibleMeans([l, r]);
    NearMeans(l, r);
    FactsAreStatedTwice([l, r]);
    AverageInRange(l, r);
    ScoreInRange(AverageAnchors(l, r));
  }

  // What is adopted: the average of the anchors, and the score and rating they have.
  lemma PairIsAveraged(l: ReviewRun, r: ReviewRun, p: Progress)
    requires Decide([l, r]) == Success(p) && p.Adopt?
    ensures p.adoption == DoubleAverage
    ensures forall d: Dimension :: p.anchors.At(d) == (l.anchors.At(d) + r.anchors.At(d)) / 2.0
    ensures p.score == ScoreFromAnchors(p.anchors) && ContentRatingFromScore(p.score) == Some(p.rating)
  {
    AverageOf(l, r, AverageAnchors(l, r));
    CompatibleMeans([l, r]);
  }

  // ------------------------------------------------------------------------
  // Three runs

  ghost predicate AgreedAnchors(runs: seq<ReviewRun>, anchors: Anchors) {
    forall d: Dimension :: GivenByTwo(runs, d, anchors.At(d))
  }

  ghost predicate HasTwoEqual(runs: seq<ReviewRun>, d: Dimension) {
    exists i, j :: 0 <= i < j < |runs| && runs[i].anchors.At(d) == runs[j].anchors.At(d)
  }

  lemma MajorityMeans(runs: seq<ReviewRun>, d: Dimension, anchor: real)
    requires |runs| == 3
    ensures AnchorMajority(runs, d) == Some(anchor) <==> GivenByTwo(runs, d, anchor)
    ensures AnchorMajority(runs, d).Some? <==> HasTwoEqual(runs, d)
  {
    if GivenByTwo(runs, d, anchor) {
      var i, j :| 0 <= i < j < |runs| && runs[i].anchors.At(d) == anchor && runs[j].anchors.At(d) == anchor;
      assert (i == 0 && j == 1) || (i == 0 && j == 2) || (i == 1 && j == 2);
    }
    if HasTwoEqual(runs, d) {
      var i, j :| 0 <= i < j < |runs| && runs[i].anchors.At(d) == runs[j].anchors.At(d);
      assert (i == 0 && j == 1) || (i == 0 && j == 2) || (i == 1 && j == 2);
    }
  }

  lemma RatingMajorityMeans(runs: seq<ReviewRun>, rating: Rating)
    requires |runs| == 3
    ensures MajorityOf(runs[0].rating, runs[1].rating, runs[2].rating) == Some(rating) <==> RatedByTwo(runs, rating)
  {
    if RatedByTwo(runs, rating) {
      var i, j :| 0 <= i < j < |runs| && runs[i].rating == rating && runs[j].rating == rating;
      assert (i == 0 && j == 1) || (i == 0 && j == 2) || (i == 1 && j == 2);
    }
  }

  // The first dimension of the list on which all three differ.
  ghost predicate FirstApart(runs: seq<ReviewRun>, n: nat, d: Dimension)
    requires n <= |DIMENSIONS|
  {
    exists i :: 0 <= i < n && DIMENSIONS[i] == d && !HasTwoEqual(runs, d)
      && forall j :: 0 <= j < i ==> HasTwoEqual(runs, DIMENSIONS[j])
  }

  lemma {:induction false} FirstSplitMeans(runs: seq<ReviewRun>, n: nat)
    requires |runs| == 3 && n <= |DIMENSIONS|
    ensures FirstSplit(runs, n).None? <==> forall j :: 0 <= j < n ==> HasTwoEqual(runs, DIMENSIONS[j])
    ensures forall d :: FirstSplit(runs, n) == Some(d) <==> FirstApart(runs, n, d)
  {
    if n > 0 {
      FirstSplitMeans(runs, n - 1);
      MajorityMeans(runs, DIMENSIONS[n - 1], 0.0);
      forall d ensures FirstSplit(runs, n) == Some(d) <==> FirstApart(runs, n, d) {
        if FirstApart(runs, n - 1, d) {
          var i :| 0 <= i < n - 1 && DIMENSIONS[i] == d && !HasTwoEqual(runs, d)
            && forall j :: 0 <= j < i ==> HasTwoEqual(runs, DIMENSIONS[j]);
          assert FirstApart(runs, n, d);
        }
        if FirstApart(runs, n, d) {
          var i :| 0 <= i < n && DIMENSIONS[i] == d && !HasTwoEqual(runs, d)
            && forall j :: 0 <= j < i ==> HasTwoEqual(runs, DIMENSIONS[j]);
          if i < n - 1 { assert FirstApart(runs, n - 1, d); }
        }
      }
    }
  }

  lemma AgreedAreMedians(runs: seq<ReviewRun>, anchors: Anchors)
    requires |runs| == 3
    ensures AgreedAnchors(runs, anchors) ==> anchors == MedianAnchors(runs) && FirstSplit(runs, |DIMENSIONS|).None?
    ensures FirstSplit(runs, |DIMENSIONS|).None? ==> AgreedAnchors(runs, MedianAnchors(runs))
  {
    FirstSplitMeans(runs, |DIMENSIONS|);
    forall d: Dimension ensures AgreedAnchors(runs, anchors) ==> HasTwoEqual(runs, d) && anchors.At(d) == MedianAnchors(runs).At(d) {
      if AgreedAnchors(runs, anchors) {
        assert GivenByTwo(runs, d, anchors.At(d));
        MajorityMeans(runs, d, anchors.At(d));
        MedianAt(runs, d);
      }
    }
    if AgreedAnchors(runs, anchors) { AnchorsExtensional(anchors, MedianAnchors(runs)); }
    if FirstSplit(runs, |DIMENSIONS|).None? {
      forall d: Dimension ensures GivenByTwo(runs, d, MedianAnchors(runs).At(d)) {
        DimensionsComplete(d);
        MajorityMeans(runs, d, MedianAnchors(runs).At(d));
        MedianAt(runs, d);
      }
    }
  }

  lemma CompatibleHaveMajority(runs: seq<ReviewRun>)
    requires |runs| == 3 && Compatible(runs)
    ensures MajorityOf(runs[0].rating, runs[1].rating, runs[2].rating).Some?
  {
    DistancesAgree(runs);
    NearRatingsHaveMajority(runs);
  }

  // Three runs are adopted with exactly the anchors that two of them gave, the score
  // and rating these have, if two of them gave that rating as well.
  lemma TripleIsAdopted(runs: seq<ReviewRun>, m: Method, anchors: Anchors, score: int, rating: Rating)
    requires |runs| == 3
    ensures Decide(runs) == Success(Adopt(m, anchors, score, rating)) <==>
              && Compatible(runs) && FactsStatedTwice(runs) && AgreedAnchors(runs, anchors)
              && m == TripleMedian && score == ScoreFromAnchors(anchors)
              && ContentRatingFromScore(score) == Some(rating) && RatedByTwo(runs, rating)
  {
    CompatibleMeans(runs);
    if Compatible(runs) {
      FactsAreStatedTwice(runs);
      CompatibleHaveMajority(runs);
      AgreedAreMedians(runs, anchors);
      RatingMajorityMeans(runs, rating);
    }
  }

  // Every other answer for three runs: facts first, ...
  lemma FactsOutcome(runs: seq<ReviewRun>)
    requires |runs| == 3
    ensures Decide(runs) == Success(Hold(FactsNotAgreedAfterThird)) <==> Compatible(runs) && !FactsStatedTwice(runs)
    ensures Decide(runs) != Success(Hold(NoRatingMajority))
  {
    GuardOutcome(runs);
    CompatibleMeans(runs);
    FactsAreStatedTwice(runs);
    if Compatible(runs) { CompatibleHaveMajority(runs); }
  }

  // ... then the first dimension without two equal anchors, ...
  lemma AnchorOutcome(runs: seq<ReviewRun>, d: Dimension)
    requires |runs| == 3
    ensures Decide(runs) == Success(Hold(NoAnchorMajority(d))) <==>
              Compatible(runs) && FactsStatedTwice(runs) && FirstApart(runs, |DIMENSIONS|, d)
  {
    GuardOutcome(runs);
    CompatibleMeans(runs);
    FactsAreStatedTwice(runs);
    FirstSplitMeans(runs, |DIMENSIONS|);
    if Compatible(runs) { CompatibleHaveMajority(runs); }
  }

  ghost predicate Outvoted(runs: seq<ReviewRun>, anchors: Anchors) {
    forall rating :: ContentRatingFromScore(ScoreFromAnchors(anchors)) == Some(rating) ==> !RatedByTwo(runs, rating)
  }

  // ... then a rating of the agreed anchors that two runs did not give.
  lemma BackendOutcome(runs: seq<ReviewRun>)
    requires |runs| == 3 && forall run :: run in runs ==> InRange(run.anchors)
    ensures Decide(runs) == Success(Hold(BackendRatingDisagreesWithMajority)) <==>
              Compatible(runs) && FactsStatedTwice(runs) && exists anchors :: AgreedAnchors(runs, anchors) && Outvoted(runs, anchors)
  {
    var medians := MedianAnchors(runs);
    MediansOutcome(runs);
    AgreedAreMedians(runs, medians);
    if anchors :| AgreedAnchors(runs, anchors) && Outvoted(runs, anchors) { AgreedAreMedians(runs, anchors); }
  }

  lemma MediansOutcome(runs: seq<ReviewRun>)
    requires |runs| == 3 && forall run :: run in runs ==> InRange(run.anchors)
    ensures Decide(runs) == Success(Hold(BackendRatingDisagreesWithMajority)) <==>
              && Compatible(runs) && FactsStatedTwice(runs)
              && FirstSplit(runs, |DIMENSIONS|).None? && Outvoted(runs, MedianAnchors(runs))
  {
    GuardOutcome(runs);
    CompatibleMeans(runs);
    FactsAreStatedTwice(runs);
    MedianInRange(runs);
    ScoreInRange(MedianAnchors(runs));
    if Compatible(runs) { CompatibleHaveMajority(runs); }
    var rating := ContentRatingFromScore(ScoreFromAnchors(MedianAnchors(runs))).value;
    RatingMajorityMeans(runs, rating);
  }

  // Adopted runs are all within ten points and one rating of each other.
  lemma AdoptedAreNear(runs: seq<ReviewRun>, l: ReviewRun, r: ReviewRun)
    requires Decide(runs).Success? && Decide(runs).value.Adopt? && l in runs && r in runs
    ensures l.score <= r.score + 100 && Rank(l.rating) <= Rank(r.rating) + 1
  {
    CompatibleMeans(runs);
  }

  // One run asks for a second, a fourth is an error.
  lemma OtherCounts(runs: seq<ReviewRun>)
    ensures |runs| < 2 ==> Decide(runs) == Success(SecondReview)
    ensures |runs| > 3 ==> Decide(runs) == Failure(TooManyRuns)
    ensures Decide(runs) == Success(SecondReview) ==> |runs| < 2
  {
    if 2 <= |runs| <= 3 { CompatibleMeans(runs); GuardOutcome(runs); }
  }
}
