// What an adoption, a hold or a further review means, whatever the runs are.
module ReviewTheorems {
  import opened Basics
  import opened ContentScoring
  import opened ReviewEngine

  // ------------------------------------------------------------------------
  // The decision does not depend on the order of the runs

  lemma {:induction false} ClaimsContain(runs: seq<ReviewRun>, c: Claim)
    ensures c in Claims(runs) <==> exists run :: run in runs && c in run.claims
  {
    if runs != [] {
      ClaimsContain(runs[1..], c);
      if run :| run in runs && c in run.claims {
        assert run == runs[0] || run in runs[1..];
      }
    }
  }

  lemma TwoRuns(runs: seq<ReviewRun>)
    requires |runs| == 2
    ensures multiset(Claims(runs)) == multiset(runs[0].claims) + multiset(runs[1].claims)
    ensures forall d, key, s :: Side(runs, d, key, s) == Side([runs[0]], d, key, s) + Side([runs[1]], d, key, s)
  {
    assert runs[1..] == [runs[1]] && [runs[1]][1..] == [];
    assert Claims([]) == [];
    assert Claims(runs[1..]) == runs[1].claims + [];
    assert Claims(runs) == runs[0].claims + runs[1].claims;
    forall d, key, s ensures Side(runs, d, key, s) == Side([runs[0]], d, key, s) + Side([runs[1]], d, key, s) {
      assert [runs[0]][1..] == [];
    }
  }

  lemma ThreeRuns(runs: seq<ReviewRun>)
    requires |runs| == 3
    ensures multiset(Claims(runs))
         == multiset(runs[0].claims) + multiset(runs[1].claims) + multiset(runs[2].claims)
    ensures forall d, key, s ::
              Side(runs, d, key, s) == Side([runs[0]], d, key, s) + Side([runs[1]], d, key, s) + Side([runs[2]], d, key, s)
  {
    TwoRuns(runs[1..]);
    forall d, key, s ensures Side(runs, d, key, s)
         == Side([runs[0]], d, key, s) + Side([runs[1]], d, key, s) + Side([runs[2]], d, key, s) {
      assert [runs[0]][1..] == [];
      assert Side(runs, d, key, s) == Side([runs[0]], d, key, s) + Side(runs[1..], d, key, s);
    }
  }

  // Everything the engine reads from the claims of the runs.
  ghost predicate SameEvidence(p: seq<ReviewRun>, q: seq<ReviewRun>) {
    && multiset(Claims(p)) == multiset(Claims(q))
    && forall d, key, s :: Side(p, d, key, s) == Side(q, d, key, s)
  }

  lemma SameClaims(p: seq<ReviewRun>, q: seq<ReviewRun>)
    requires SameEvidence(p, q)
    ensures FactsAgree(p) == FactsAgree(q)
    ensures HardContradiction(p) == HardContradiction(q)
    ensures SoftContradiction(p) == SoftContradiction(q)
    ensures SidesHaveMajority(p, SOFT_DIMENSION, SOFT_KEY) == SidesHaveMajority(q, SOFT_DIMENSION, SOFT_KEY)
  {
    forall c ensures c in Claims(p) <==> c in Claims(q) {
      assert c in multiset(Claims(p)) <==> c in multiset(Claims(q));
    }
    forall c ensures Mentions(p, c) == Mentions(q, c) {}
    forall d ensures AgreedOn(p, d) == AgreedOn(q, d) {}
    forall d, key ensures Contradicted(p, d, key) == Contradicted(q, d, key) {}
  }

  lemma SameMembers(p: seq<ReviewRun>, q: seq<ReviewRun>)
    requires multiset(p) == multiset(q)
    ensures ScoresFarApart(p) == ScoresFarApart(q)
    ensures RatingsFarApart(p) == RatingsFarApart(q)
    ensures ComplianceConflict(p) == ComplianceConflict(q)
  {
    forall run ensures run in p <==> run in q {
      assert run in multiset(p) <==> run in multiset(q);
    }
  }

  lemma PairPermutation(p: seq<ReviewRun>, q: seq<ReviewRun>)
    requires |p| == 2 && multiset(p) == multiset(q)
    ensures q == p || q == [p[1], p[0]]
  {
    assert |q| == |multiset(q)| == 2;
    assert q == [q[0], q[1]] && p == [p[0], p[1]];
    assert q[0] in multiset(p);
    if q[0] == p[0] {
      assert multiset(q) - multiset{q[0]} == multiset{q[1]};
      assert multiset(p) - multiset{p[0]} == multiset{p[1]};
      assert q[1] in multiset{p[1]};
    } else {
      assert q[0] == p[1];
      assert multiset(q) - multiset{q[0]} == multiset{q[1]};
      assert multiset(p) - multiset{p[1]} == multiset{p[0]};
      assert q[1] in multiset{p[0]};
    }
  }

  lemma TripleHead(p: seq<ReviewRun>, q: seq<ReviewRun>, i: nat)
    requires |p| == 3 && |q| == 3 && i < 3 && multiset(p) == multiset(q) && q[0] == p[i]
    ensures multiset(q[1..]) == multiset(p[..i] + p[i + 1..])
  {
    assert q == [q[0]] + q[1..];
    assert p == p[..i] + [p[i]] + p[i + 1..];
    assert multiset(q) == multiset{q[0]} + multiset(q[1..]);
    assert multiset(p) == multiset{p[i]} + multiset(p[..i] + p[i + 1..]);
    assert multiset(q) - multiset{q[0]} == multiset(q[1..]);
    assert multiset(p) - multiset{p[i]} == multiset(p[..i] + p[i + 1..]);
  }

  lemma FromPair(p: seq<ReviewRun>, q: seq<ReviewRun>, a: nat, b: nat)
    requires |p| == 3 && |q| == 3 && a < 3 && b < 3
    ensures q[1..] == [p[a], p[b]] ==> q == [q[0], p[a], p[b]]
    ensures q[1..] == [p[b], p[a]] ==> q == [q[0], p[b], p[a]]
  {
    assert q == [q[0]] + q[1..];
  }

  lemma TriplePermutation(p: seq<ReviewRun>, q: seq<ReviewRun>) returns (i: nat, j: nat, k: nat)
    requires |p| == 3 && multiset(p) == multiset(q)
    ensures i < 3 && j < 3 && k < 3 && i != j && j != k && i != k
    ensures q == [p[i], p[j], p[k]]
  {
    assert |q| == |multiset(q)| == 3;
    assert q[0] in multiset(p);
    i :| 0 <= i < 3 && p[i] == q[0];
    TripleHead(p, q, i);
    var a, b := Others(i);
    WithoutOne(p, i, a, b);
    PairPermutation([p[a], p[b]], q[1..]);
    FromPair(p, q, a, b);
    if q[1..] == [p[a], p[b]] { j, k := a, b; } else { j, k := b, a; }
  }

  lemma WithoutOne(p: seq<ReviewRun>, i: nat, a: nat, b: nat)
    requires |p| == 3 && i < 3 && a < b < 3 && a != i && b != i
    ensures p[..i] + p[i + 1..] == [p[a], p[b]]
  {
  }

  lemma Others(i: nat) returns (a: nat, b: nat)
    requires i < 3
    ensures a < b < 3 && a != i && b != i
  {
    a, b := if i == 0 then 1 else 0, if i == 2 then 1 else 2;
  }

  lemma AverageAt(l: ReviewRun, r: ReviewRun, d: Dimension)
    ensures AverageAnchors(l, r).At(d) == (l.anchors.At(d) + r.anchors.At(d)) / 2.0
  {
    ForEachAt(Average(l, r), d);
  }

  lemma MedianAt(runs: seq<ReviewRun>, d: Dimension)
    requires |runs| == 3
    ensures MedianAnchors(runs).At(d) == (var m := AnchorMajority(runs, d); if m.Some? then m.value else 0.0)
  {
    ForEachAt(Median(runs), d);
  }

  lemma {:induction false} SplitIgnoresOrder(p: seq<ReviewRun>, q: seq<ReviewRun>, n: nat)
    requires |p| == 3 && |q| == 3 && n <= |DIMENSIONS|
    requires forall d: Dimension :: AnchorMajority(p, d) == AnchorMajority(q, d)
    ensures FirstSplit(p, n) == FirstSplit(q, n)
  {
    if n > 0 { SplitIgnoresOrder(p, q, n - 1); }
  }

  lemma DoubleIgnoresOrder(p: seq<ReviewRun>, q: seq<ReviewRun>)
    requires |p| == 2 && q == [p[1], p[0]] && SameEvidence(p, q)
    ensures DecideDouble(p) == DecideDouble(q)
  {
    SameClaims(p, q);
    forall d: Dimension ensures AverageAnchors(p[0], p[1]).At(d) == AverageAnchors(q[0], q[1]).At(d) {
      AverageAt(p[0], p[1], d);
      AverageAt(q[0], q[1], d);
    }
    AnchorsExtensional(AverageAnchors(p[0], p[1]), AverageAnchors(q[0], q[1]));
  }

  lemma TripleIgnoresOrder(p: seq<ReviewRun>, q: seq<ReviewRun>)
    requires |p| == 3 && |q| == 3 && SameEvidence(p, q)
    requires MajorityOf(p[0].rating, p[1].rating, p[2].rating) == MajorityOf(q[0].rating, q[1].rating, q[2].rating)
    requires forall d: Dimension :: AnchorMajority(p, d) == AnchorMajority(q, d)
    ensures DecideTriple(p) == DecideTriple(q)
  {
    SameClaims(p, q);
    SplitIgnoresOrder(p, q, |DIMENSIONS|);
    forall d: Dimension ensures MedianAnchors(p).At(d) == MedianAnchors(q).At(d) {
      MedianAt(p, d);
      MedianAt(q, d);
    }
    AnchorsExtensional(MedianAnchors(p), MedianAnchors(q));
  }

  lemma MajorityIgnoresOrder<T>(x: seq<T>, i: nat, j: nat, k: nat)
    requires |x| == 3 && i < 3 && j < 3 && k < 3 && i != j && j != k && i != k
    ensures MajorityOf(x[0], x[1], x[2]) == MajorityOf(x[i], x[j], x[k])
  {
  }

  lemma SumIgnoresOrder(x: seq<nat>, i: nat, j: nat, k: nat)
    requires |x| == 3 && i < 3 && j < 3 && k < 3 && i != j && j != k && i != k
    ensures x[0] + x[1] + x[2] == x[i] + x[j] + x[k]
  {
  }

  lemma BagIgnoresOrder(x: seq<multiset<Claim>>, i: nat, j: nat, k: nat)
    requires |x| == 3 && i < 3 && j < 3 && k < 3 && i != j && j != k && i != k
    ensures x[0] + x[1] + x[2] == x[i] + x[j] + x[k]
  {
  }

  lemma ClaimsIgnoreOrder(p: seq<ReviewRun>, q: seq<ReviewRun>, i: nat, j: nat, k: nat)
    requires |p| == 3 && i < 3 && j < 3 && k < 3 && i != j && j != k && i != k
    requires q == [p[i], p[j], p[k]]
    ensures multiset(Claims(p)) == multiset(Claims(q))
  {
    ThreeRuns(p);
    ThreeRuns(q);
    var bags := [multiset(p[0].claims), multiset(p[1].claims), multiset(p[2].claims)];
    assert bags[i] == multiset(q[0].claims) && bags[j] == multiset(q[1].claims) && bags[k] == multiset(q[2].claims);
    BagIgnoresOrder(bags, i, j, k);
  }

  lemma SideOfThree(p: seq<ReviewRun>, d: Dimension, key: string, s: ClaimState)
    requires |p| == 3
    ensures Side(p, d, key, s) == Side([p[0]], d, key, s) + Side([p[1]], d, key, s) + Side([p[2]], d, key, s)
  {
    ThreeRuns(p);
  }

  lemma SidesIgnoreOrder(p: seq<ReviewRun>, q: seq<ReviewRun>, i: nat, j: nat, k: nat, d: Dimension, key: string, s: ClaimState)
    requires |p| == 3 && i < 3 && j < 3 && k < 3 && i != j && j != k && i != k
    requires q == [p[i], p[j], p[k]]
    ensures Side(p, d, key, s) == Side(q, d, key, s)
  {
    SideOfThree(p, d, key, s);
    SideOfThree(q, d, key, s);
    var sides := [Side([p[0]], d, key, s), Side([p[1]], d, key, s), Side([p[2]], d, key, s)];
    SumIgnoresOrder(sides, i, j, k);
  }

  lemma EvidenceIgnoresOrder(p: seq<ReviewRun>, q: seq<ReviewRun>, i: nat, j: nat, k: nat)
    requires |p| == 3 && i < 3 && j < 3 && k < 3 && i != j && j != k && i != k
    requires q == [p[i], p[j], p[k]]
    ensures SameEvidence(p, q)
  {
    ClaimsIgnoreOrder(p, q, i, j, k);
    forall d, key, s ensures Side(p, d, key, s) == Side(q, d, key, s) {
      SidesIgnoreOrder(p, q, i, j, k, d, key, s);
    }
  }

  lemma TripleEvidence(p: seq<ReviewRun>, q: seq<ReviewRun>, i: nat, j: nat, k: nat)
    requires |p| == 3 && i < 3 && j < 3 && k < 3 && i != j && j != k && i != k
    requires q == [p[i], p[j], p[k]]
    ensures MajorityOf(p[0].rating, p[1].rating, p[2].rating) == MajorityOf(q[0].rating, q[1].rating, q[2].rating)
    ensures forall d: Dimension :: AnchorMajority(p, d) == AnchorMajority(q, d)
  {
    MajorityIgnoresOrder([p[0].rating, p[1].rating, p[2].rating], i, j, k);
    forall d: Dimension ensures AnchorMajority(p, d) == AnchorMajority(q, d) {
      MajorityIgnoresOrder([p[0].anchors.At(d), p[1].anchors.At(d), p[2].anchors.At(d)], i, j, k);
    }
  }

  lemma PermutedTriple(p: seq<ReviewRun>, q: seq<ReviewRun>)
    requires |p| == 3 && multiset(p) == multiset(q)
    ensures |q| == 3 && SameEvidence(p, q) && DecideTriple(p) == DecideTriple(q)
  {
    var i, j, k := TriplePermutation(p, q);
    EvidenceIgnoresOrder(p, q, i, j, k);
    TripleEvidence(p, q, i, j, k);
    TripleIgnoresOrder(p, q);
  }

  lemma PermutedPair(p: seq<ReviewRun>, q: seq<ReviewRun>)
    requires |p| == 2 && multiset(p) == multiset(q)
    ensures |q| == 2 && SameEvidence(p, q) && DecideDouble(p) == DecideDouble(q)
  {
    PairPermutation(p, q);
    TwoRuns(p);
    TwoRuns(q);
    if q != p { DoubleIgnoresOrder(p, q); }
  }

  lemma DecideIgnoresOrder(p: seq<ReviewRun>, q: seq<ReviewRun>)
    requires multiset(p) == multiset(q)
    ensures Decide(p) == Decide(q)
  {
    assert |p| == |multiset(p)| == |multiset(q)| == |q|;
    if 2 <= |p| <= 3 {
      if |p| == 2 { PermutedPair(p, q); } else { PermutedTriple(p, q); }
      SameMembers(p, q);
      SameClaims(p, q);
    } else if p == [] {
      assert q == [];
    }
  }

  // ------------------------------------------------------------------------
  // Averaging keeps the verdict

  // A run that carries the score and rating the scoring code computes for it.
  ghost predicate Scored(run: ReviewRun) {
    && InRange(run.anchors)
    && Integral(run.anchors)
    && run.score == RoundOne(TotalPoints(run.anchors))
    && ContentRatingFromScore(run.score) == Some(run.rating)
  }

  lemma {:induction false} AllObserved(m: map<Dimension, Observation>, n: nat, i: nat)
    requires i < n <= |DIMENSIONS| && (forall d: Dimension :: d in m) && UnknownAmong(m, n) == []
    ensures m[DIMENSIONS[i]].observed
  {
    if i < n - 1 { AllObserved(m, n - 1, i); }
  }

  // A complete scoring result makes a scored run.
  lemma CompleteResultIsScored(list: seq<Observation>, r: Result<Calculated, ScoringError>, run: ReviewRun)
    requires ScoringMeaning(list, r) && r.Success? && r.value.Complete()
    requires run.anchors == AnchorsOf(ByDimension(list))
    requires r.value.totalScore == Some(run.score) && r.value.rating == Some(run.rating)
    ensures Scored(run)
  {
    ExactlyOnceTotal(list);
    var m := ByDimension(list);
    forall i | 0 <= i < |DIMENSIONS| ensures ValidAnchor(m[DIMENSIONS[i]].anchor) {
      AllObserved(m, |DIMENSIONS|, i);
      assert !BadAnchorAt(m, i);
    }
    ObservedAnchors(m);
  }

  lemma {:induction false} AveragePoints(l: ReviewRun, r: ReviewRun, n: nat)
    requires n <= |DIMENSIONS|
    ensures Points(AverageAnchors(l, r), n) == (Points(l.anchors, n) + Points(r.anchors, n)) / 2.0
  {
    if n > 0 {
      AveragePoints(l, r, n - 1);
      AverageAt(l, r, DIMENSIONS[n - 1]);
    }
  }

  // The score of the average of two integer runs in exact integer arithmetic: half
  // tenths and quarter tenths of the two sums together.
  lemma AveragedAnchorsScore(l: ReviewRun, r: ReviewRun)
    requires Integral(l.anchors) && Integral(r.anchors)
    ensures ScoreFromAnchors(AverageAnchors(l, r))
         == (25 * (Units(l.anchors, |DIMENSIONS|) + Units(r.anchors, |DIMENSIONS|)) + 2) / 4
  {
    AveragePoints(l, r, |DIMENSIONS|);
    PointsAreQuarters(l.anchors, |DIMENSIONS|);
    PointsAreQuarters(r.anchors, |DIMENSIONS|);
    var k := Units(l.anchors, |DIMENSIONS|) + Units(r.anchors, |DIMENSIONS|);
    FloorIs(6.25 * k as real + 0.5, (25 * k + 2) / 4);
  }

  lemma AverageInRange(l: ReviewRun, r: ReviewRun)
    requires InRange(l.anchors) && InRange(r.anchors)
    ensures InRange(AverageAnchors(l, r))
  {
    forall d: Dimension ensures 0.0 <= AverageAnchors(l, r).At(d) <= 4.0 { AverageAt(l, r, d); }
  }

  function Min(x: int, y: int): int { if x < y then x else y }
  function Max(x: int, y: int): int { if x < y then y else x }

  lemma AverageScoreBetween(l: ReviewRun, r: ReviewRun)
    requires Scored(l) && Scored(r)
    ensures Min(l.score, r.score) <= ScoreFromAnchors(AverageAnchors(l, r)) <= Max(l.score, r.score)
    ensures 0 <= ScoreFromAnchors(AverageAnchors(l, r)) <= 1000
  {
    EpsilonIsHarmless(l.anchors);
    EpsilonIsHarmless(r.anchors);
    AverageInRange(l, r);
    ScoreInRange(AverageAnchors(l, r));
    AveragePoints(l, r, |DIMENSIONS|);
    var x, y := TotalPoints(l.anchors) * 10.0 + 0.5, TotalPoints(r.anchors) * 10.0 + 0.5;
    var z := TotalPoints(AverageAnchors(l, r)) * 10.0 + 0.5;
    assert z == (x + y) / 2.0;
    if x <= y { FloorMonotone(x, z); FloorMonotone(z, y); } else { FloorMonotone(y, z); FloorMonotone(z, x); }
  }

  lemma AveragingKeepsVerdict(l: ReviewRun, r: ReviewRun)
    requires Scored(l) && Scored(r)
    requires Decide([l, r]).Success? && Decide([l, r]).value.Adopt?
    ensures var a := Decide([l, r]).value;
            && a.adoption == DoubleAverage
            && a.rating == l.rating == r.rating
            && Min(l.score, r.score) <= a.score <= Max(l.score, r.score)
            && 0 <= a.score <= 1000
            && forall d: Dimension :: a.anchors.At(d) == (l.anchors.At(d) + r.anchors.At(d)) / 2.0
  {
    AverageScoreBetween(l, r);
    forall d: Dimension ensures AverageAnchors(l, r).At(d) == (l.anchors.At(d) + r.anchors.At(d)) / 2.0 {
      AverageAt(l, r, d);
    }
  }

  // ------------------------------------------------------------------------
  // Three runs always settle

  ghost predicate GivenByTwo(runs: seq<ReviewRun>, d: Dimension, anchor: real) {
    exists i, j :: 0 <= i < j < |runs| && runs[i].anchors.At(d) == anchor && runs[j].anchors.At(d) == anchor
  }

  ghost predicate RatedByTwo(runs: seq<ReviewRun>, rating: Rating) {
    exists i, j :: 0 <= i < j < |runs| && runs[i].rating == rating && runs[j].rating == rating
  }

  // Ratings within one level of each other leave room for two values only.
  lemma NearRatingsHaveMajority(runs: seq<ReviewRun>)
    requires |runs| == 3 && !RatingsFarApart(runs)
    ensures MajorityOf(runs[0].rating, runs[1].rating, runs[2].rating).Some?
  {
    var a, b, c := runs[0], runs[1], runs[2];
    assert RatingDistance(a.rating, b.rating) < 2 && RatingDistance(b.rating, c.rating) < 2
        && RatingDistance(a.rating, c.rating) < 2;
  }

  lemma {:induction false} NoSplit(runs: seq<ReviewRun>, n: nat, i: nat)
    requires |runs| == 3 && i < n <= |DIMENSIONS| && FirstSplit(runs, n).None?
    ensures AnchorMajority(runs, DIMENSIONS[i]).Some?
  {
    if i < n - 1 { NoSplit(runs, n - 1, i); }
  }

  lemma ThreeRunsSettle(runs: seq<ReviewRun>)
    requires |runs| == 3
    ensures Decide(runs) != Success(Hold(NoRatingMajority))
    ensures Decide(runs).Success? ==> Decide(runs).value.Adopt? || Decide(runs).value.Hold?
    ensures Decide(runs).Success? && Decide(runs).value.Adopt? ==>
              var a := Decide(runs).value;
              && a.adoption == TripleMedian
              && RatedByTwo(runs, a.rating)
              && (forall d: Dimension :: GivenByTwo(runs, d, a.anchors.At(d)))
              && a.score == ScoreFromAnchors(a.anchors)
              && ContentRatingFromScore(a.score) == Some(a.rating)
  {
    if !RatingsFarApart(runs) { NearRatingsHaveMajority(runs); }
    if Decide(runs).Success? && Decide(runs).value.Adopt? {
      var a := Decide(runs).value;
      forall d: Dimension ensures GivenByTwo(runs, d, a.anchors.At(d)) {
        DimensionsComplete(d);
        var i :| 0 <= i < |DIMENSIONS| && DIMENSIONS[i] == d;
        NoSplit(runs, |DIMENSIONS|, i);
        MedianAt(runs, d);
      }
    }
  }

  lemma MedianInRange(runs: seq<ReviewRun>)
    requires |runs| == 3 && forall run :: run in runs ==> InRange(run.anchors)
    ensures InRange(MedianAnchors(runs))
  {
    forall d: Dimension ensures 0.0 <= MedianAnchors(runs).At(d) <= 4.0 {
      MedianAt(runs, d);
      assert InRange(runs[0].anchors) && InRange(runs[1].anchors) && InRange(runs[2].anchors);
    }
  }

  // The engine raises an error exactly for a fourth run when anchors are in 0..4.
  lemma EngineErrors(runs: seq<ReviewRun>)
    requires forall run :: run in runs ==> InRange(run.anchors)
    ensures Decide(runs).Failure? <==> |runs| > 3
  {
    if |runs| == 2 {
      assert runs[0] in runs && runs[1] in runs;
      AverageInRange(runs[0], runs[1]);
      ScoreInRange(AverageAnchors(runs[0], runs[1]));
    } else if |runs| == 3 {
      MedianInRange(runs);
      ScoreInRange(MedianAnchors(runs));
    }
  }

  // ------------------------------------------------------------------------
  // Adoption implies agreement

  // content-schema: a claim key is unique within its dimension.
  ghost predicate NoRepeats(claims: seq<Claim>) {
    forall i, j :: 0 <= i < j < |claims| ==> claims[i].dimension != claims[j].dimension || claims[i].key != claims[j].key
  }

  lemma {:induction false} MentionedOnce(claims: seq<Claim>, c: Claim)
    requires NoRepeats(claims)
    ensures multiset(claims)[c] <= 1
  {
    if claims != [] {
      var front := claims[..|claims| - 1];
      assert claims == front + [claims[|claims| - 1]];
      MentionedOnce(front, c);
      if multiset(front)[c] == 1 {
        assert c in front;
      }
    }
  }

  lemma {:induction false} FirstStateIsTheClaim(claims: seq<Claim>, c: Claim)
    requires NoRepeats(claims)
    ensures c in claims <==> FirstState(claims, c.dimension, c.key) == Some(c.state)
  {
    if claims != [] {
      FirstStateIsTheClaim(claims[1..], c);
      assert claims == [claims[0]] + claims[1..];
      if FirstState(claims, c.dimension, c.key) == Some(c.state) && claims[0].dimension == c.dimension && claims[0].key == c.key {
        assert claims[0] == c;
      }
      if c in claims && claims[0].dimension == c.dimension && claims[0].key == c.key {
        var i :| 0 <= i < |claims| && claims[i] == c;
        assert i == 0;
      }
    }
  }

  ghost predicate StatedByTwo(runs: seq<ReviewRun>, c: Claim) {
    exists i, j :: 0 <= i < j < |runs| && c in runs[i].claims && c in runs[j].claims
  }

  lemma MentionsByTwo(runs: seq<ReviewRun>, c: Claim)
    requires 2 <= |runs| <= 3 && Mentions(runs, c) >= 2
    requires forall run :: run in runs ==> NoRepeats(run.claims)
    ensures StatedByTwo(runs, c)
  {
    forall i | 0 <= i < |runs| ensures multiset(runs[i].claims)[c] <= 1 { MentionedOnce(runs[i].claims, c); }
    if |runs| == 2 { TwoRuns(runs); } else { ThreeRuns(runs); }
    forall i | 0 <= i < |runs| ensures multiset(runs[i].claims)[c] == 1 ==> c in runs[i].claims {}
  }

  lemma SideByTwo(runs: seq<ReviewRun>, c: Claim)
    requires |runs| == 3 && Side(runs, c.dimension, c.key, c.state) >= 2
    requires forall run :: run in runs ==> NoRepeats(run.claims)
    ensures StatedByTwo(runs, c)
  {
    ThreeRuns(runs);
    forall i | 0 <= i < |runs| ensures Side([runs[i]], c.dimension, c.key, c.state) == if c in runs[i].claims then 1 else 0 {
      FirstStateIsTheClaim(runs[i].claims, c);
      assert [runs[i]][1..] == [];
    }
  }

  // Present in one run and absent in another.
  ghost predicate Opposed(runs: seq<ReviewRun>, d: Dimension, key: string) {
    exists l, r :: l in runs && r in runs && Claim(d, key, Present) in l.claims && Claim(d, key, Absent) in r.claims
  }

  lemma OpposedIsContradicted(runs: seq<ReviewRun>, d: Dimension, key: string)
    ensures Opposed(runs, d, key) <==> Contradicted(runs, d, key)
  {
    ClaimsContain(runs, Claim(d, key, Present));
    ClaimsContain(runs, Claim(d, key, Absent));
  }

  // The guards an adoption has passed.
  lemma AdoptionGuards(runs: seq<ReviewRun>)
    requires Decide(runs).Success? && Decide(runs).value.Adopt?
    ensures 2 <= |runs| <= 3
    ensures FactsAgree(runs) && !HardContradiction(runs) && !ComplianceConflict(runs)
    ensures SoftContradiction(runs) ==> |runs| == 3 && SidesHaveMajority(runs, SOFT_DIMENSION, SOFT_KEY)
  {
  }

  ghost predicate SettledByTwo(runs: seq<ReviewRun>, d: Dimension) {
    exists c: Claim :: c.dimension == d && c.state != Uncertain && StatedByTwo(runs, c)
  }

  lemma AgreementIsByTwo(runs: seq<ReviewRun>, d: Dimension)
    requires 2 <= |runs| <= 3 && AgreedOn(runs, d)
    requires forall run :: run in runs ==> NoRepeats(run.claims)
    ensures SettledByTwo(runs, d)
  {
    var c: Claim :| c.dimension == d && c.state != Uncertain && Mentions(runs, c) >= 2;
    MentionsByTwo(runs, c);
  }

  lemma SoftConflictIsOutvoted(runs: seq<ReviewRun>)
    requires |runs| == 3 && SidesHaveMajority(runs, SOFT_DIMENSION, SOFT_KEY)
    requires forall run :: run in runs ==> NoRepeats(run.claims)
    ensures StatedByTwo(runs, Claim(SOFT_DIMENSION, SOFT_KEY, Present))
         || StatedByTwo(runs, Claim(SOFT_DIMENSION, SOFT_KEY, Absent))
  {
    if Side(runs, SOFT_DIMENSION, SOFT_KEY, Present) >= 2 {
      SideByTwo(runs, Claim(SOFT_DIMENSION, SOFT_KEY, Present));
    } else {
      SideByTwo(runs, Claim(SOFT_DIMENSION, SOFT_KEY, Absent));
    }
  }

  lemma AdoptionImpliesAgreement(runs: seq<ReviewRun>)
    requires forall run :: run in runs ==> NoRepeats(run.claims)
    requires Decide(runs).Success? && Decide(runs).value.Adopt?
    ensures 2 <= |runs| <= 3
    ensures forall d: Dimension :: SettledByTwo(runs, d)
    ensures forall d, key :: Opposed(runs, d, key) ==>
              && IsSoft(d, key)
              && (StatedByTwo(runs, Claim(d, key, Present)) || StatedByTwo(runs, Claim(d, key, Absent)))
    ensures !((exists run :: run in runs && run.compliance == Clear)
              && (exists run :: run in runs && run.compliance == Confirmed))
  {
    AdoptionGuards(runs);
    forall d: Dimension ensures SettledByTwo(runs, d) { AgreementIsByTwo(runs, d); }
    forall d, key | Opposed(runs, d, key)
      ensures IsSoft(d, key)
      ensures StatedByTwo(runs, Claim(d, key, Present)) || StatedByTwo(runs, Claim(d, key, Absent))
    {
      OpposedIsContradicted(runs, d, key);
      SoftConflictIsOutvoted(runs);
    }
  }

  // ------------------------------------------------------------------------
  // The first-run check

  const AUDIO_KEY: string := "audio_present"

  // A run that contradicts itself on a hard claim, or the file on its audio.
  ghost predicate FirstRunContradiction(run: ReviewRun, hasAudio: Option<bool>) {
    var state := FirstState(run.claims, SubtitleAudio, AUDIO_KEY);
    || HardContradiction([run])
    || (hasAudio.Some? && state == Some(if hasAudio.value then Absent else Present))
  }

  method FindClaim(claims: seq<Claim>, d: Dimension, key: string) returns (state: Option<ClaimState>)
    ensures state == FirstState(claims, d, key)
  {
    var i := 0;
    while i < |claims|
      invariant 0 <= i <= |claims| && FirstState(claims, d, key) == FirstState(claims[i..], d, key)
    {
      if claims[i].dimension == d && claims[i].key == key { return Some(claims[i].state); }
      assert claims[i..][1..] == claims[i + 1..];
      i := i + 1;
    }
    state := None;
  }

  method DetectFirstRunContradiction(run: ReviewRun, hasAudio: Option<bool>) returns (found: bool)
    ensures found == FirstRunContradiction(run, hasAudio)
  {
    var conflicts := ExplicitFactContradictions([run]);
    if exists k :: k in conflicts && !IsSoft(k.0, k.1) {
      ghost var k :| k in conflicts && !IsSoft(k.0, k.1);
      assert Contradicted([run], k.0, k.1);
      return true;
    }
    if hasAudio.None? { return false; }
    var state := FindClaim(run.claims, SubtitleAudio, AUDIO_KEY);
    if state.None? || state.value == Uncertain { return false; }
    found := (hasAudio.value && state.value == Absent) || (!hasAudio.value && state.value == Present);
  }

  // ------------------------------------------------------------------------
  // requiresIndependentReview

  const BOUNDARIES: seq<int> := [600, 680, 740, 820, 900]

  // bucket is the first byte of the SHA-256 digest of the fingerprint, modulo ten.
  predicate RequiresIndependentReview(eligiblePilotCount: nat, bucket: nat, score: int, rating: Rating,
                                      historicalScore: Option<int>, factualContradiction: bool, appeal: bool)
  {
    if eligiblePilotCount < 50 || rating == APlus || appeal || factualContradiction then true
    else if exists i :: 0 <= i < |BOUNDARIES| && Abs(score - BOUNDARIES[i]) <= 20 then true
    else if historicalScore.Some? && Abs(score - historicalScore.value) > 50 then true
    else bucket == 0
  }

  // A score that is adopted after one run would keep its rating if it were off
  // by up to two points in either direction.
  lemma SingleAdoptionIsRobust(eligiblePilotCount: nat, bucket: nat, score: int, rating: Rating,
                               historicalScore: Option<int>, factualContradiction: bool, appeal: bool, other: int)
    requires !RequiresIndependentReview(eligiblePilotCount, bucket, score, rating, historicalScore, factualContradiction, appeal)
    requires ContentRatingFromScore(score) == Some(rating)
    requires 0 <= other <= 1000 && Abs(score - other) <= 20
    ensures ContentRatingFromScore(other) == Some(rating)
  {
    forall i | 0 <= i < |BOUNDARIES| ensures Abs(score - BOUNDARIES[i]) > 20 {}
    assert BOUNDARIES[0] == 600 && BOUNDARIES[1] == 680 && BOUNDARIES[2] == 740;
    assert BOUNDARIES[3] == 820 && BOUNDARIES[4] == 900;
  }
}
