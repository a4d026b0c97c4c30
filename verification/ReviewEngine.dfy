// The consensus decision over one to three blind scoring runs. Each predicate
// says what the engine looks for; the methods are the loops that look for it.
module ReviewEngine {
  import opened Basics
  import opened ContentScoring

  datatype ClaimState = Present | Absent | Uncertain

  datatype Claim = Claim(dimension: Dimension, key: string, state: ClaimState)

  datatype ReviewRun = ReviewRun(
    score: int,
    rating: Rating,
    anchors: Anchors,
    claims: seq<Claim>,
    compliance: Compliance)

  datatype HoldReason =
    | ScoreDifferenceOverTen
    | RatingDifferenceTwoLevels
    | MajorFactConflict
    | MajorComplianceConflict
    | SoftFactConflictUnresolved
    | NoRatingMajority
    | FactsNotAgreedAfterThird
    | NoAnchorMajority(dimension: Dimension)
    | BackendRatingDisagreesWithMajority

  datatype ThirdReason = SoftFactConflict | AnchorDifference | UnstableDoubleReview

  datatype Method = SingleAfterPilot | DoubleAverage | TripleMedian

  datatype Progress =
    | SecondReview
    | ThirdReview(third: ThirdReason)
    | Hold(reason: HoldReason)
    | Adopt(adoption: Method, anchors: Anchors, score: int, rating: Rating)

  datatype EngineError = TooManyRuns | ScoreOutOfRange

  // ------------------------------------------------------------------------
  // What the engine looks for

  function Abs(x: int): nat { if x < 0 then -x else x }

  // ratingOrder.indexOf
  function RatingIndex(r: Rating): nat {
    match r case D => 0 case C => 1 case BMinus => 2 case B => 3 case A => 4 case APlus => 5
  }

  function RatingDistance(l: Rating, r: Rating): nat {
    Abs(RatingIndex(l) - RatingIndex(r))
  }

  ghost predicate ScoresFarApart(runs: seq<ReviewRun>) {
    exists l, r :: l in runs && r in runs && l.score - r.score > 100
  }

  ghost predicate RatingsFarApart(runs: seq<ReviewRun>) {
    exists l, r :: l in runs && r in runs && RatingDistance(l.rating, r.rating) >= 2
  }

  ghost predicate ComplianceConflict(runs: seq<ReviewRun>) {
    (exists l :: l in runs && l.compliance == Clear) && (exists r :: r in runs && r.compliance == Confirmed)
  }

  function Claims(runs: seq<ReviewRun>): seq<Claim> {
    if runs == [] then [] else runs[0].claims + Claims(runs[1..])
  }

  ghost function Mentions(runs: seq<ReviewRun>, c: Claim): nat {
    multiset(Claims(runs))[c]
  }

  ghost predicate AgreedOn(runs: seq<ReviewRun>, d: Dimension) {
    exists c: Claim :: c.dimension == d && c.state != Uncertain && Mentions(runs, c) >= 2
  }

  ghost predicate FactsAgree(runs: seq<ReviewRun>) {
    forall d: Dimension :: AgreedOn(runs, d)
  }

  ghost predicate Contradicted(runs: seq<ReviewRun>, d: Dimension, key: string) {
    Claim(d, key, Present) in Claims(runs) && Claim(d, key, Absent) in Claims(runs)
  }

  const SOFT_DIMENSION: Dimension := ActionLogic
  const SOFT_KEY: string := "action_cue_present"

  predicate IsSoft(d: Dimension, key: string) {
    d == SOFT_DIMENSION && key == SOFT_KEY
  }

  ghost predicate HardContradiction(runs: seq<ReviewRun>) {
    exists d, key :: Contradicted(runs, d, key) && !IsSoft(d, key)
  }

  ghost predicate SoftContradiction(runs: seq<ReviewRun>) {
    Contradicted(runs, SOFT_DIMENSION, SOFT_KEY)
  }

  // run.factClaims.find(...)?.state
  function FirstState(claims: seq<Claim>, d: Dimension, key: string): Option<ClaimState> {
    if claims == [] then None
    else if claims[0].dimension == d && claims[0].key == key then Some(claims[0].state)
    else FirstState(claims[1..], d, key)
  }

  // How many runs take the given side on a claim.
  function Side(runs: seq<ReviewRun>, d: Dimension, key: string, state: ClaimState): nat {
    if runs == [] then 0
    else (if FirstState(runs[0].claims, d, key) == Some(state) then 1 else 0) + Side(runs[1..], d, key, state)
  }

  predicate SidesHaveMajority(runs: seq<ReviewRun>, d: Dimension, key: string) {
    Side(runs, d, key, Present) >= 2 || Side(runs, d, key, Absent) >= 2
  }

  // The value given by at least two of three.
  function MajorityOf<T(==)>(a: T, b: T, c: T): Option<T> {
    if a == b || a == c then Some(a) else if b == c then Some(b) else None
  }

  function AnchorMajority(runs: seq<ReviewRun>, d: Dimension): Option<real>
    requires |runs| == 3
  {
    MajorityOf(runs[0].anchors.At(d), runs[1].anchors.At(d), runs[2].anchors.At(d))
  }

  // The first of the first n dimensions on which three runs give three anchors.
  function FirstSplit(runs: seq<ReviewRun>, n: nat): Option<Dimension>
    requires |runs| == 3 && n <= |DIMENSIONS|
  {
    if n == 0 then None
    else
      var earlier := FirstSplit(runs, n - 1);
      if earlier.Some? then earlier
      else if AnchorMajority(runs, DIMENSIONS[n - 1]).None? then Some(DIMENSIONS[n - 1])
      else None
  }

  function Median(runs: seq<ReviewRun>): Dimension -> real
    requires |runs| == 3
  {
    d => var m := AnchorMajority(runs, d); if m.Some? then m.value else 0.0
  }

  function MedianAnchors(runs: seq<ReviewRun>): Anchors
    requires |runs| == 3
  {
    ForEach(Median(runs))
  }

  function Average(l: ReviewRun, r: ReviewRun): Dimension -> real {
    d => (l.anchors.At(d) + r.anchors.At(d)) / 2.0
  }

  function AverageAnchors(l: ReviewRun, r: ReviewRun): Anchors {
    ForEach(Average(l, r))
  }

  ghost predicate AnchorsWithin(l: ReviewRun, r: ReviewRun, gap: real) {
    forall d: Dimension :: -gap <= l.anchors.At(d) - r.anchors.At(d) <= gap
  }

  ghost predicate AnchorGapReaches(l: ReviewRun, r: ReviewRun, gap: real) {
    exists d: Dimension :: l.anchors.At(d) - r.anchors.At(d) >= gap || r.anchors.At(d) - l.anchors.At(d) >= gap
  }

  // The adopted score and rating are recomputed from the adopted anchors.
  function Adopted(anchors: Anchors, adoption: Method): Result<Progress, EngineError> {
    var score := ScoreFromAnchors(anchors);
    match ContentRatingFromScore(score)
    case None => Failure(ScoreOutOfRange)
    case Some(rating) => Success(Adopt(adoption, anchors, score, rating))
  }

  ghost function DecideDouble(runs: seq<ReviewRun>): Result<Progress, EngineError>
    requires |runs| == 2
  {
    var l, r := runs[0], runs[1];
    if l.rating == r.rating && Abs(l.score - r.score) <= 50 && AnchorsWithin(l, r, 1.0) && FactsAgree(runs) then
      Adopted(AverageAnchors(l, r), DoubleAverage)
    else if AnchorGapReaches(l, r, 2.0) then Success(ThirdReview(AnchorDifference))
    else Success(ThirdReview(UnstableDoubleReview))
  }

  ghost function DecideTriple(runs: seq<ReviewRun>): Result<Progress, EngineError>
    requires |runs| == 3
  {
    var majority := MajorityOf(runs[0].rating, runs[1].rating, runs[2].rating);
    if majority.None? then Success(Hold(NoRatingMajority))
    else if !FactsAgree(runs) then Success(Hold(FactsNotAgreedAfterThird))
    else if FirstSplit(runs, |DIMENSIONS|).Some? then
      Success(Hold(NoAnchorMajority(FirstSplit(runs, |DIMENSIONS|).value)))
    else
      var result := Adopted(MedianAnchors(runs), TripleMedian);
      if result.Failure? || result.value.rating == majority.value then result
      else Success(Hold(BackendRatingDisagreesWithMajority))
  }

  // decideReviewProgress
  ghost function Decide(runs: seq<ReviewRun>): Result<Progress, EngineError> {
    if |runs| < 2 then Success(SecondReview)
    else if |runs| > 3 then Failure(TooManyRuns)
    else if ScoresFarApart(runs) then Success(Hold(ScoreDifferenceOverTen))
    else if RatingsFarApart(runs) then Success(Hold(RatingDifferenceTwoLevels))
    else if HardContradiction(runs) then Success(Hold(MajorFactConflict))
    else if ComplianceConflict(runs) then Success(Hold(MajorComplianceConflict))
    else if SoftContradiction(runs) && |runs| == 2 then Success(ThirdReview(SoftFactConflict))
    else if SoftContradiction(runs) && !SidesHaveMajority(runs, SOFT_DIMENSION, SOFT_KEY) then
      Success(Hold(SoftFactConflictUnresolved))
    else if |runs| == 2 then DecideDouble(runs)
    else DecideTriple(runs)
  }

  // ------------------------------------------------------------------------
  // The loops

  method ScoreSpread(runs: seq<ReviewRun>) returns (far: bool)
    requires runs != []
    ensures far == ScoresFarApart(runs)
  {
    var low, high := runs[0], runs[0];
    for i := 0 to |runs|
      invariant low in runs && high in runs
      invariant forall j :: 0 <= j < i ==> low.score <= runs[j].score <= high.score
    {
      if runs[i].score < low.score { low := runs[i]; }
      if runs[i].score > high.score { high := runs[i]; }
    }
    far := high.score - low.score > 100;
  }

  method RatingSpread(runs: seq<ReviewRun>) returns (far: bool)
    ensures far == RatingsFarApart(runs)
  {
    far := exists i, j :: 0 <= i < |runs| && 0 <= j < |runs| && RatingDistance(runs[i].rating, runs[j].rating) >= 2;
    if far {
      var i, j :| 0 <= i < |runs| && 0 <= j < |runs| && RatingDistance(runs[i].rating, runs[j].rating) >= 2;
      assert runs[i] in runs && runs[j] in runs;
    }
  }

  ghost function CountIn(counts: map<(string, ClaimState), nat>, key: string, state: ClaimState): nat {
    if (key, state) in counts then counts[(key, state)] else 0
  }

  // definiteCounts of one dimension, grown by the claims of one run.
  method CountClaims(claims: seq<Claim>, d: Dimension, before: map<(string, ClaimState), nat>)
    returns (counts: map<(string, ClaimState), nat>)
    requires forall k :: k in before ==> k.1 != Uncertain
    ensures forall k :: k in counts ==> k.1 != Uncertain
    ensures forall key, state :: state != Uncertain ==>
              CountIn(counts, key, state) == CountIn(before, key, state) + multiset(claims)[Claim(d, key, state)]
  {
    counts := before;
    for i := 0 to |claims|
      invariant forall k :: k in counts ==> k.1 != Uncertain
      invariant forall key, state :: state != Uncertain ==>
                  CountIn(counts, key, state) == CountIn(before, key, state) + multiset(claims[..i])[Claim(d, key, state)]
    {
      assert claims[..i + 1] == claims[..i] + [claims[i]];
      var c := claims[i];
      if c.dimension == d && c.state != Uncertain {
        var k := (c.key, c.state);
        counts := counts[k := (if k in counts then counts[k] else 0) + 1];
      }
    }
    assert claims[..|claims|] == claims;
  }

  lemma {:induction false} ClaimsAppend(runs: seq<ReviewRun>, last: ReviewRun)
    ensures Claims(runs + [last]) == Claims(runs) + last.claims
  {
    if runs == [] {
      assert Claims([last]) == last.claims + Claims([]);
    } else {
      ClaimsAppend(runs[1..], last);
      assert (runs + [last])[1..] == runs[1..] + [last];
    }
  }

  method DefiniteCounts(runs: seq<ReviewRun>, d: Dimension) returns (counts: map<(string, ClaimState), nat>)
    ensures forall k :: k in counts ==> k.1 != Uncertain
    ensures forall key, state :: state != Uncertain ==> CountIn(counts, key, state) == Mentions(runs, Claim(d, key, state))
  {
    counts := map[];
    for i := 0 to |runs|
      invariant forall k :: k in counts ==> k.1 != Uncertain
      invariant forall key, state :: state != Uncertain ==>
                  CountIn(counts, key, state) == Mentions(runs[..i], Claim(d, key, state))
    {
      counts := CountClaims(runs[i].claims, d, counts);
      ClaimsAppend(runs[..i], runs[i]);
      assert runs[..i + 1] == runs[..i] + [runs[i]];
    }
    assert runs[..|runs|] == runs;
  }

  method CheckFactsAgree(runs: seq<ReviewRun>) returns (agree: bool)
    ensures agree == FactsAgree(runs)
  {
    for i := 0 to |DIMENSIONS|
      invariant forall j :: 0 <= j < i ==> AgreedOn(runs, DIMENSIONS[j])
    {
      var counts := DefiniteCounts(runs, DIMENSIONS[i]);
      if forall k :: k in counts ==> counts[k] < 2 {
        assert !AgreedOn(runs, DIMENSIONS[i]) by {
          forall c: Claim | c.dimension == DIMENSIONS[i] && c.state != Uncertain
            ensures Mentions(runs, c) < 2
          {
            assert c == Claim(DIMENSIONS[i], c.key, c.state);
            assert CountIn(counts, c.key, c.state) < 2;
          }
        }
        return false;
      }
      var k :| k in counts && counts[k] >= 2;
      assert Mentions(runs, Claim(DIMENSIONS[i], k.0, k.1)) >= 2;
    }
    forall d: Dimension ensures AgreedOn(runs, d) { DimensionsComplete(d); }
    agree := true;
  }

  // states: the definite states recorded under each claim key.
  ghost predicate StatesOf(states: map<(Dimension, string), set<ClaimState>>, claims: seq<Claim>) {
    forall d, key, s :: (s != Uncertain && Claim(d, key, s) in claims) <==> ((d, key) in states && s in states[(d, key)])
  }

  method RecordStates(claims: seq<Claim>, before: map<(Dimension, string), set<ClaimState>>, ghost seen: seq<Claim>)
    returns (states: map<(Dimension, string), set<ClaimState>>)
    requires StatesOf(before, seen)
    ensures StatesOf(states, seen + claims)
  {
    states := before;
    for i := 0 to |claims|
      invariant StatesOf(states, seen + claims[..i])
    {
      var c := claims[i];
      assert seen + claims[..i + 1] == (seen + claims[..i]) + [c];
      if c.state != Uncertain {
        var k := (c.dimension, c.key);
        states := states[k := (if k in states then states[k] else {}) + {c.state}];
      }
    }
    assert claims[..|claims|] == claims;
  }

  method ExplicitFactContradictions(runs: seq<ReviewRun>) returns (keys: set<(Dimension, string)>)
    ensures forall d, key :: (d, key) in keys <==> Contradicted(runs, d, key)
  {
    var states: map<(Dimension, string), set<ClaimState>> := map[];
    for i := 0 to |runs|
      invariant StatesOf(states, Claims(runs[..i]))
    {
      states := RecordStates(runs[i].claims, states, Claims(runs[..i]));
      ClaimsAppend(runs[..i], runs[i]);
      assert runs[..i + 1] == runs[..i] + [runs[i]];
    }
    assert runs[..|runs|] == runs;
    keys := set k | k in states && Present in states[k] && Absent in states[k];
  }

  method SoftConflictsHaveMajority(runs: seq<ReviewRun>, d: Dimension, key: string) returns (majority: bool)
    ensures majority == SidesHaveMajority(runs, d, key)
  {
    var present, absent := 0, 0;
    var i := |runs|;
    while i > 0
      invariant 0 <= i <= |runs|
      invariant present == Side(runs[i..], d, key, Present) && absent == Side(runs[i..], d, key, Absent)
    {
      i := i - 1;
      assert runs[i..][1..] == runs[i + 1..];
      var state := FirstState(runs[i].claims, d, key);
      if state == Some(Present) { present := present + 1; }
      if state == Some(Absent) { absent := absent + 1; }
    }
    majority := present >= 2 || absent >= 2;
  }

  // values.sort((a, b) => a - b) on three values
  function Sorted3(a: real, b: real, c: real): (s: (real, real, real))
    ensures s.0 <= s.1 <= s.2 && multiset{s.0, s.1, s.2} == multiset{a, b, c}
  {
    var (x, y) := if a <= b then (a, b) else (b, a);
    if c <= x then (c, x, y) else if c <= y then (x, c, y) else (x, y, c)
  }

  lemma MiddleIsMajority(a: real, b: real, c: real)
    ensures var s := Sorted3(a, b, c);
            if s.0 != s.1 && s.1 != s.2 then MajorityOf(a, b, c) == None else MajorityOf(a, b, c) == Some(s.1)
  {
  }

  // The median loop: stops at the first dimension without an anchor majority.
  method TakeMedians(runs: seq<ReviewRun>) returns (split: Option<Dimension>, anchors: Anchors)
    requires |runs| == 3
    ensures split == FirstSplit(runs, |DIMENSIONS|)
    ensures split.None? ==> anchors == MedianAnchors(runs)
  {
    anchors := ForEach(d => 0.0);
    split := None;
    for i := 0 to |DIMENSIONS|
      invariant split.None? && FirstSplit(runs, i).None?
      invariant forall j :: 0 <= j < i ==> AnchorMajority(runs, DIMENSIONS[j]) == Some(anchors.At(DIMENSIONS[j]))
    {
      var d := DIMENSIONS[i];
      var values := Sorted3(runs[0].anchors.At(d), runs[1].anchors.At(d), runs[2].anchors.At(d));
      MiddleIsMajority(runs[0].anchors.At(d), runs[1].anchors.At(d), runs[2].anchors.At(d));
      if values.0 != values.1 && values.1 != values.2 {
        SplitStays(runs, i + 1, |DIMENSIONS|);
        return Some(d), anchors;
      }
      forall j | 0 <= j <= i ensures anchors.Put(d, values.1).At(DIMENSIONS[j]) ==
                                     if j == i then values.1 else anchors.At(DIMENSIONS[j]) {
        DimensionsDistinct();
        PutAt(anchors, d, values.1, DIMENSIONS[j]);
      }
      anchors := anchors.Put(d, values.1);
    }
    AnchorsFromMajorities(runs, anchors);
  }

  lemma DimensionsDistinct()
    ensures forall i, j :: 0 <= i < j < |DIMENSIONS| ==> DIMENSIONS[i] != DIMENSIONS[j]
  {
  }

  lemma {:induction false} SplitStays(runs: seq<ReviewRun>, n: nat, m: nat)
    requires |runs| == 3 && n <= m <= |DIMENSIONS| && FirstSplit(runs, n).Some?
    ensures FirstSplit(runs, m) == FirstSplit(runs, n)
  {
    if n < m { SplitStays(runs, n, m - 1); }
  }

  lemma AnchorsExtensional(a: Anchors, b: Anchors)
    requires forall d: Dimension :: a.At(d) == b.At(d)
    ensures a == b
  {
    assert a.openingHook == a.At(OpeningHook) == b.At(OpeningHook) == b.openingHook;
    assert a.sellingPoint == a.At(SellingPoint) == b.At(SellingPoint) == b.sellingPoint;
    assert a.structure == a.At(Structure) == b.At(Structure) == b.structure;
    assert a.visualQuality == a.At(VisualQuality) == b.At(VisualQuality) == b.visualQuality;
    assert a.pacing == a.At(Pacing) == b.At(Pacing) == b.pacing;
    assert a.subtitleAudio == a.At(SubtitleAudio) == b.At(SubtitleAudio) == b.subtitleAudio;
    assert a.platformFit == a.At(PlatformFit) == b.At(PlatformFit) == b.platformFit;
    assert a.actionLogic == a.At(ActionLogic) == b.At(ActionLogic) == b.actionLogic;
  }

  lemma AnchorsFromMajorities(runs: seq<ReviewRun>, anchors: Anchors)
    requires |runs| == 3
    requires forall j :: 0 <= j < |DIMENSIONS| ==> AnchorMajority(runs, DIMENSIONS[j]) == Some(anchors.At(DIMENSIONS[j]))
    ensures anchors == MedianAnchors(runs)
  {
    forall d: Dimension ensures anchors.At(d) == MedianAnchors(runs).At(d) {
      DimensionsComplete(d);
      ForEachAt(Median(runs), d);
    }
    AnchorsExtensional(anchors, MedianAnchors(runs));
  }

  function RatingCount(runs: seq<ReviewRun>, n: nat, r: Rating): nat
    requires n <= |runs|
  {
    if n == 0 then 0 else RatingCount(runs, n - 1, r) + if runs[n - 1].rating == r then 1 else 0
  }

  lemma MajorityByCounting(runs: seq<ReviewRun>, r: Rating)
    requires |runs| == 3
    ensures RatingCount(runs, 3, r) >= 2 <==> MajorityOf(runs[0].rating, runs[1].rating, runs[2].rating) == Some(r)
  {
    assert RatingCount(runs, 1, r) == if runs[0].rating == r then 1 else 0;
  }

  // ratingCounts and find(count >= 2)
  method RatingMajority(runs: seq<ReviewRun>) returns (majority: Option<Rating>)
    requires |runs| == 3
    ensures majority == MajorityOf(runs[0].rating, runs[1].rating, runs[2].rating)
  {
    var counts: map<Rating, nat> := map[];
    for i := 0 to |runs|
      invariant forall r :: RatingCount(runs, i, r) == if r in counts then counts[r] else 0
    {
      var r := runs[i].rating;
      counts := counts[r := (if r in counts then counts[r] else 0) + 1];
    }
    forall r ensures RatingCount(runs, 3, r) >= 2 <==> MajorityOf(runs[0].rating, runs[1].rating, runs[2].rating) == Some(r) {
      MajorityByCounting(runs, r);
    }
    if r :| r in counts && counts[r] >= 2 {
      assert RatingCount(runs, 3, r) >= 2;
      return Some(r);
    }
    assert forall r :: RatingCount(runs, 3, r) < 2;
    majority := None;
  }

  function AnchorGap(l: ReviewRun, r: ReviewRun, d: Dimension): real {
    if l.anchors.At(d) >= r.anchors.At(d) then l.anchors.At(d) - r.anchors.At(d) else r.anchors.At(d) - l.anchors.At(d)
  }

  // The largest difference: no dimension exceeds it, and one reaches it.
  method MaxAnchorDifference(l: ReviewRun, r: ReviewRun) returns (gap: real)
    ensures forall d: Dimension :: AnchorGap(l, r, d) <= gap
    ensures exists d: Dimension :: AnchorGap(l, r, d) == gap
  {
    gap := 0.0;
    ghost var at: Option<Dimension> := None;
    for i := 0 to |DIMENSIONS|
      invariant gap >= 0.0
      invariant forall j :: 0 <= j < i ==> AnchorGap(l, r, DIMENSIONS[j]) <= gap
      invariant at.None? ==> gap == 0.0
      invariant at.Some? ==> gap == AnchorGap(l, r, at.value)
    {
      var d := DIMENSIONS[i];
      if AnchorGap(l, r, d) > gap {
        gap := AnchorGap(l, r, d);
        at := Some(d);
      }
    }
    forall d: Dimension ensures AnchorGap(l, r, d) <= gap { DimensionsComplete(d); }
    if at.None? { assert AnchorGap(l, r, OpeningHook) == gap; }
  }

  // What the largest difference says about the thresholds of the engine.
  lemma LargestDifference(l: ReviewRun, r: ReviewRun, gap: real)
    requires forall d: Dimension :: AnchorGap(l, r, d) <= gap
    requires exists d: Dimension :: AnchorGap(l, r, d) == gap
    ensures gap <= 1.0 <==> AnchorsWithin(l, r, 1.0)
    ensures gap >= 2.0 <==> AnchorGapReaches(l, r, 2.0)
  {
    var d: Dimension :| AnchorGap(l, r, d) == gap;
    if gap >= 2.0 {
      assert l.anchors.At(d) - r.anchors.At(d) >= 2.0 || r.anchors.At(d) - l.anchors.At(d) >= 2.0;
    }
    if AnchorGapReaches(l, r, 2.0) {
      var e: Dimension :| l.anchors.At(e) - r.anchors.At(e) >= 2.0 || r.anchors.At(e) - l.anchors.At(e) >= 2.0;
      assert AnchorGap(l, r, e) >= 2.0;
    }
    if gap <= 1.0 {
      forall e: Dimension ensures -1.0 <= l.anchors.At(e) - r.anchors.At(e) <= 1.0 {
        assert AnchorGap(l, r, e) <= 1.0;
      }
    }
  }

  // decideReviewProgress, with the loops in place.
  method DecideReviewProgress(runs: seq<ReviewRun>) returns (r: Result<Progress, EngineError>)
    ensures r == Decide(runs)
  {
    if |runs| < 2 { return Success(SecondReview); }
    if |runs| > 3 { return Failure(TooManyRuns); }
    var far := ScoreSpread(runs);
    if far { return Success(Hold(ScoreDifferenceOverTen)); }
    far := RatingSpread(runs);
    if far { return Success(Hold(RatingDifferenceTwoLevels)); }
    var conflicts := ExplicitFactContradictions(runs);
    if exists k :: k in conflicts && !IsSoft(k.0, k.1) {
      ghost var k :| k in conflicts && !IsSoft(k.0, k.1);
      assert Contradicted(runs, k.0, k.1);
      return Success(Hold(MajorFactConflict));
    }
    if (exists i :: 0 <= i < |runs| && runs[i].compliance == Clear)
       && (exists i :: 0 <= i < |runs| && runs[i].compliance == Confirmed) {
      return Success(Hold(MajorComplianceConflict));
    }
    var soft := (SOFT_DIMENSION, SOFT_KEY) in conflicts;
    if soft && |runs| == 2 { return Success(ThirdReview(SoftFactConflict)); }
    if soft {
      var majority := SoftConflictsHaveMajority(runs, SOFT_DIMENSION, SOFT_KEY);
      if !majority { return Success(Hold(SoftFactConflictUnresolved)); }
    }
    if |runs| == 2 {
      r := ProgressOfTwo(runs);
    } else {
      r := ProgressOfThree(runs);
    }
  }

  method ProgressOfTwo(runs: seq<ReviewRun>) returns (r: Result<Progress, EngineError>)
    requires |runs| == 2
    ensures r == DecideDouble(runs)
  {
    var left, right := runs[0], runs[1];
    var gap := MaxAnchorDifference(left, right);
    LargestDifference(left, right, gap);
    if left.rating == right.rating && Abs(left.score - right.score) <= 50 && gap <= 1.0 {
      var agree := CheckFactsAgree(runs);
      if agree { return Adopted(AverageAnchors(left, right), DoubleAverage); }
    }
    r := Success(ThirdReview(if gap >= 2.0 then AnchorDifference else UnstableDoubleReview));
  }

  method ProgressOfThree(runs: seq<ReviewRun>) returns (r: Result<Progress, EngineError>)
    requires |runs| == 3
    ensures r == DecideTriple(runs)
  {
    var majority := RatingMajority(runs);
    if majority.None? { return Success(Hold(NoRatingMajority)); }
    var agree := CheckFactsAgree(runs);
    if !agree { return Success(Hold(FactsNotAgreedAfterThird)); }
    var split, anchors := TakeMedians(runs);
    if split.Some? { return Success(Hold(NoAnchorMajority(split.value))); }
    r := Adopted(anchors, TripleMedian);
    if r.Success? && r.value.rating != majority.value {
      r := Success(Hold(BackendRatingDisagreesWithMajority));
    }
  }
}
