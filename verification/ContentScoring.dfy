// Anchor scoring of the eight V1.1 content dimensions. Scores are kept in
// tenths, so a published score of 82.5 is the integer 825; the arithmetic that
// leads to the final rounding is exact, over the reals.
module ContentScoring {
  import opened Basics

  datatype Dimension =
    | OpeningHook | SellingPoint | Structure | VisualQuality
    | Pacing | SubtitleAudio | PlatformFit | ActionLogic

  datatype Rating = D | C | BMinus | B | A | APlus

  datatype Compliance = Clear | Suspected | Confirmed

  const DIMENSIONS: seq<Dimension> :=
    [OpeningHook, SellingPoint, Structure, VisualQuality, Pacing, SubtitleAudio, PlatformFit, ActionLogic]

  function Weight(d: Dimension): int {
    match d
    case OpeningHook => 20
    case SellingPoint => 20
    case Structure => 15
    case VisualQuality => 15
    case Pacing => 10
    case SubtitleAudio => 10
    case PlatformFit => 5
    case ActionLogic => 5
  }

  // Record<V11ContentDimension, T>: one value for every dimension.
  datatype PerDimension<T> = PerDimension(
    openingHook: T, sellingPoint: T, structure: T, visualQuality: T,
    pacing: T, subtitleAudio: T, platformFit: T, actionLogic: T)
  {
    function At(d: Dimension): T {
      match d
      case OpeningHook => openingHook
      case SellingPoint => sellingPoint
      case Structure => structure
      case VisualQuality => visualQuality
      case Pacing => pacing
      case SubtitleAudio => subtitleAudio
      case PlatformFit => platformFit
      case ActionLogic => actionLogic
    }

    function Put(d: Dimension, value: T): PerDimension<T> {
      match d
      case OpeningHook => this.(openingHook := value)
      case SellingPoint => this.(sellingPoint := value)
      case Structure => this.(structure := value)
      case VisualQuality => this.(visualQuality := value)
      case Pacing => this.(pacing := value)
      case SubtitleAudio => this.(subtitleAudio := value)
      case PlatformFit => this.(platformFit := value)
      case ActionLogic => this.(actionLogic := value)
    }
  }

  // Object.fromEntries over the eight dimensions.
  function ForEach<T>(f: Dimension -> T): PerDimension<T> {
    PerDimension(f(OpeningHook), f(SellingPoint), f(Structure), f(VisualQuality),
                 f(Pacing), f(SubtitleAudio), f(PlatformFit), f(ActionLogic))
  }

  lemma ForEachAt<T>(f: Dimension -> T, d: Dimension)
    ensures ForEach(f).At(d) == f(d)
  {
    match d {
      case OpeningHook =>
      case SellingPoint =>
      case Structure =>
      case VisualQuality =>
      case Pacing =>
      case SubtitleAudio =>
      case PlatformFit =>
      case ActionLogic =>
    }
  }

  lemma PutAt<T>(record: PerDimension<T>, d: Dimension, value: T, e: Dimension)
    ensures record.Put(d, value).At(e) == if e == d then value else record.At(e)
  {
    match d {
      case OpeningHook =>
      case SellingPoint =>
      case Structure =>
      case VisualQuality =>
      case Pacing =>
      case SubtitleAudio =>
      case PlatformFit =>
      case ActionLogic =>
    }
  }

  // Averaged anchors may be half-integers, so anchors are reals.
  type Anchors = PerDimension<real>

  lemma DimensionsComplete(d: Dimension)
    ensures exists i :: 0 <= i < |DIMENSIONS| && DIMENSIONS[i] == d
  {
    match d
    case OpeningHook => assert DIMENSIONS[0] == d;
    case SellingPoint => assert DIMENSIONS[1] == d;
    case Structure => assert DIMENSIONS[2] == d;
    case VisualQuality => assert DIMENSIONS[3] == d;
    case Pacing => assert DIMENSIONS[4] == d;
    case SubtitleAudio => assert DIMENSIONS[5] == d;
    case PlatformFit => assert DIMENSIONS[6] == d;
    case ActionLogic => assert DIMENSIONS[7] == d;
  }

  // Points earned by the first n dimensions, out of 100 for all eight.
  function Points(anchors: Anchors, n: nat): real
    requires n <= |DIMENSIONS|
  {
    if n == 0 then 0.0
    else
      var d := DIMENSIONS[n - 1];
      Points(anchors, n - 1) + Earned(d, anchors.At(d))
  }

  // weight * anchor / 4, written per weight so that it stays linear.
  function Earned(d: Dimension, anchor: real): real {
    match Weight(d)
    case 20 => 20.0 * anchor / 4.0
    case 15 => 15.0 * anchor / 4.0
    case 10 => 10.0 * anchor / 4.0
    case _ => 5.0 * anchor / 4.0
  }

  lemma EarnedIsWeightTimesAnchorOverFour(d: Dimension, anchor: real)
    ensures Earned(d, anchor) == Weight(d) as real * anchor / 4.0
  {
    assert Weight(d) in {20, 15, 10, 5};
  }

  function TotalPoints(anchors: Anchors): real {
    Points(anchors, |DIMENSIONS|)
  }

  // Math.round: half-way cases go up.
  function MathRound(x: real): int {
    (x + 0.5).Floor
  }

  // Number.EPSILON is two to the power of minus 52.
  const EPSILON: real := 1.0 / 4503599627370496.0

  // The rounding used by the scoring code, in tenths.
  function RoundOne(points: real): int {
    MathRound((points + EPSILON) * 10.0)
  }

  // The rounding used by the review engine, in tenths.
  function ScoreFromAnchors(anchors: Anchors): int {
    MathRound(TotalPoints(anchors) * 10.0)
  }

  function ContentRatingFromScore(score: int): Option<Rating> {
    if score < 0 || score > 1000 then None
    else if score >= 900 then Some(APlus)
    else if score >= 820 then Some(A)
    else if score >= 740 then Some(B)
    else if score >= 680 then Some(BMinus)
    else if score >= 600 then Some(C)
    else Some(D)
  }

  // ------------------------------------------------------------------------
  // calculateV11ContentScore

  datatype Observation = Observation(dimension: Dimension, observed: bool, anchor: Option<real>)

  datatype ScoringError = NotExactlyOnce | InvalidAnchor(dimension: Dimension)

  datatype Calculated = Calculated(unknown: seq<Dimension>, totalScore: Option<int>, rating: Option<Rating>)
  {
    predicate Complete() { unknown == [] }
  }

  predicate ValidAnchor(a: Option<real>) {
    a.Some? && a.value == a.value.Floor as real && 0.0 <= a.value <= 4.0
  }

  // new Map(list): a later entry replaces an earlier one.
  function ByDimension(list: seq<Observation>): map<Dimension, Observation> {
    if list == [] then map[]
    else ByDimension(list[..|list| - 1])[list[|list| - 1].dimension := list[|list| - 1]]
  }

  predicate ExactlyOnce(list: seq<Observation>) {
    |list| == |DIMENSIONS| && |ByDimension(list).Keys| == |DIMENSIONS|
  }

  function UnknownAmong(m: map<Dimension, Observation>, n: nat): seq<Dimension>
    requires n <= |DIMENSIONS| && forall d: Dimension :: d in m
  {
    if n == 0 then []
    else UnknownAmong(m, n - 1) + (if m[DIMENSIONS[n - 1]].observed then [] else [DIMENSIONS[n - 1]])
  }

  ghost predicate BadAnchorAt(m: map<Dimension, Observation>, i: nat)
    requires i < |DIMENSIONS| && forall d: Dimension :: d in m
  {
    m[DIMENSIONS[i]].observed && !ValidAnchor(m[DIMENSIONS[i]].anchor)
  }

  function AnchorIn(m: map<Dimension, Observation>): Dimension -> real {
    d => if d in m && m[d].anchor.Some? then m[d].anchor.value else 0.0
  }

  function AnchorsOf(m: map<Dimension, Observation>): Anchors {
    ForEach(AnchorIn(m))
  }

  lemma {:induction false} ByDimensionKeys(list: seq<Observation>)
    ensures forall d :: d in ByDimension(list) <==> exists i :: 0 <= i < |list| && list[i].dimension == d
    ensures forall d :: d in ByDimension(list) ==> ByDimension(list)[d] in list && ByDimension(list)[d].dimension == d
    ensures |ByDimension(list).Keys| <= |list|
  {
    if list != [] {
      var front := list[..|list| - 1];
      var last := list[|list| - 1];
      ByDimensionKeys(front);
      assert list == front + [last];
      forall d ensures d in ByDimension(list) <==> exists i :: 0 <= i < |list| && list[i].dimension == d {
        if exists i :: 0 <= i < |list| && list[i].dimension == d {
          var i :| 0 <= i < |list| && list[i].dimension == d;
          if i < |front| { assert front[i].dimension == d; }
        }
        if d in ByDimension(list) {
          if d in ByDimension(front) && d != last.dimension {
            var i :| 0 <= i < |front| && front[i].dimension == d;
            assert list[i].dimension == d;
          } else {
            assert list[|list| - 1].dimension == d;
          }
        }
      }
      assert ByDimension(list).Keys == ByDimension(front).Keys + {last.dimension};
    }
  }

  const ALL: set<Dimension> :=
    {OpeningHook, SellingPoint, Structure, VisualQuality, Pacing, SubtitleAudio, PlatformFit, ActionLogic}

  lemma AllDimensions(d: Dimension)
    ensures d in ALL && |ALL| == |DIMENSIONS|
  {
    assert |ALL| == 8;
    match d { case _ => }
  }

  lemma SubsetCardinality<T>(a: set<T>, b: set<T>)
    requires a <= b && |a| == |b|
    ensures a == b
  {
    if x :| x in b && x !in a {
      var smaller := b - {x};
      assert a <= smaller && |smaller| == |b| - 1;
      SubsetBound(a, smaller);
    }
  }

  lemma {:induction false} SubsetBound<T>(a: set<T>, b: set<T>)
    requires a <= b
    ensures |a| <= |b|
    decreases a
  {
    if a != {} {
      var x :| x in a;
      SubsetBound(a - {x}, b - {x});
    }
  }

  lemma ExactlyOnceTotal(list: seq<Observation>)
    requires ExactlyOnce(list)
    ensures forall d: Dimension :: d in ByDimension(list)
  {
    forall d: Dimension ensures d in ALL && |ALL| == |DIMENSIONS| { AllDimensions(d); }
    AllDimensions(Pacing);
    SubsetCardinality(ByDimension(list).Keys, ALL);
  }

  // What the scoring code promises, stated without its loop.
  ghost predicate ScoringMeaning(list: seq<Observation>, r: Result<Calculated, ScoringError>)
  {
    if !ExactlyOnce(list) then r == Failure(NotExactlyOnce)
    else
      ExactlyOnceTotal(list);
      var m := ByDimension(list);
      if exists i :: 0 <= i < |DIMENSIONS| && BadAnchorAt(m, i) then
        exists i :: 0 <= i < |DIMENSIONS| && BadAnchorAt(m, i)
          && (forall j :: 0 <= j < i ==> !BadAnchorAt(m, j))
          && r == Failure(InvalidAnchor(DIMENSIONS[i]))
      else
        && r.Success?
        && r.value.unknown == UnknownAmong(m, |DIMENSIONS|)
        && (if r.value.unknown == [] then
              && r.value.totalScore == Some(RoundOne(TotalPoints(AnchorsOf(m))))
              && r.value.rating == ContentRatingFromScore(r.value.totalScore.value)
              && r.value.rating.Some?
            else r.value.totalScore == None && r.value.rating == None)
  }

  // The running sum of the loop: unknown dimensions earn nothing.
  function ObservedPoints(m: map<Dimension, Observation>, n: nat): real
    requires n <= |DIMENSIONS| && forall d: Dimension :: d in m
  {
    if n == 0 then 0.0
    else
      var o := m[DIMENSIONS[n - 1]];
      ObservedPoints(m, n - 1) + if o.anchor.Some? then Earned(DIMENSIONS[n - 1], o.anchor.value) else 0.0
  }

  lemma PointsStep(anchors: Anchors, n: nat)
    requires 0 < n <= |DIMENSIONS|
    ensures Points(anchors, n) == Points(anchors, n - 1) + Earned(DIMENSIONS[n - 1], anchors.At(DIMENSIONS[n - 1]))
  {
  }

  lemma ObservedStep(m: map<Dimension, Observation>, n: nat)
    requires 0 < n <= |DIMENSIONS| && (forall d: Dimension :: d in m) && m[DIMENSIONS[n - 1]].anchor.Some?
    ensures ObservedPoints(m, n) == ObservedPoints(m, n - 1) + Earned(DIMENSIONS[n - 1], m[DIMENSIONS[n - 1]].anchor.value)
  {
  }

  lemma {:induction false} ObservedPointsArePoints(m: map<Dimension, Observation>, n: nat)
    requires n <= |DIMENSIONS| && forall d: Dimension :: d in m
    requires forall d :: d in m ==> m[d].anchor.Some?
    ensures ObservedPoints(m, n) == Points(AnchorsOf(m), n)
  {
    if n > 0 {
      ObservedPointsArePoints(m, n - 1);
      AnchorOf(m, DIMENSIONS[n - 1]);
      PointsStep(AnchorsOf(m), n);
      ObservedStep(m, n);
    }
  }

  lemma AnchorOf(m: map<Dimension, Observation>, d: Dimension)
    requires (forall e: Dimension :: e in m) && m[d].anchor.Some?
    ensures AnchorsOf(m).At(d) == m[d].anchor.value
  {
    ForEachAt(AnchorIn(m), d);
  }

  // The loop of calculateV11ContentScore over the eight definitions.
  method ScoreDefinitions(m: map<Dimension, Observation>)
    returns (bad: Option<Dimension>, unknown: seq<Dimension>, sum: real)
    requires forall d: Dimension :: d in m
    ensures bad.None? ==> forall j :: 0 <= j < |DIMENSIONS| ==> !BadAnchorAt(m, j)
    ensures bad.Some? ==> exists i :: 0 <= i < |DIMENSIONS| && BadAnchorAt(m, i)
                            && (forall j :: 0 <= j < i ==> !BadAnchorAt(m, j)) && bad.value == DIMENSIONS[i]
    ensures bad.None? ==> unknown == UnknownAmong(m, |DIMENSIONS|)
    ensures bad.None? && unknown == [] ==> sum == ObservedPoints(m, |DIMENSIONS|)
    ensures bad.None? && unknown == [] ==>
              forall j :: 0 <= j < |DIMENSIONS| ==> ValidAnchor(m[DIMENSIONS[j]].anchor)
  {
    bad, unknown, sum := None, [], 0.0;
    for i := 0 to |DIMENSIONS|
      invariant bad.None?
      invariant forall j :: 0 <= j < i ==> !BadAnchorAt(m, j)
      invariant unknown == UnknownAmong(m, i)
      invariant unknown == [] ==> sum == ObservedPoints(m, i)
      invariant unknown == [] ==> forall j :: 0 <= j < i ==> ValidAnchor(m[DIMENSIONS[j]].anchor)
    {
      var d := DIMENSIONS[i];
      if !m[d].observed {
        unknown := unknown + [d];
      } else if !ValidAnchor(m[d].anchor) {
        assert BadAnchorAt(m, i);
        bad := Some(d);
        return;
      } else {
        sum := sum + Earned(d, m[d].anchor.value);
      }
    }
  }

  lemma ObservedAnchors(m: map<Dimension, Observation>)
    requires forall d: Dimension :: d in m
    requires forall j :: 0 <= j < |DIMENSIONS| ==> ValidAnchor(m[DIMENSIONS[j]].anchor)
    ensures InRange(AnchorsOf(m)) && Integral(AnchorsOf(m))
  {
    forall d: Dimension
      ensures 0.0 <= AnchorsOf(m).At(d) <= 4.0 && AnchorsOf(m).At(d) == AnchorsOf(m).At(d).Floor as real
    {
      DimensionsComplete(d);
      AnchorOf(m, d);
    }
  }

  method CalculateContentScore(list: seq<Observation>) returns (r: Result<Calculated, ScoringError>)
    ensures ScoringMeaning(list, r)
  {
    if |list| != |DIMENSIONS| { return Failure(NotExactlyOnce); }
    var m := ByDimension(list);
    if |m.Keys| != |DIMENSIONS| { return Failure(NotExactlyOnce); }
    ExactlyOnceTotal(list);
    var bad, unknown, sum := ScoreDefinitions(m);
    if bad.Some? { return Failure(InvalidAnchor(bad.value)); }
    if unknown != [] { return Success(Calculated(unknown, None, None)); }
    ObservedAnchors(m);
    forall d | d in m ensures m[d].anchor.Some? { DimensionsComplete(d); }
    ObservedPointsArePoints(m, |DIMENSIONS|);
    IntegerAnchorsScore(AnchorsOf(m));
    var total := RoundOne(sum);
    r := Success(Calculated([], Some(total), ContentRatingFromScore(total)));
  }

  // ------------------------------------------------------------------------
  // Arithmetic of the scores

  lemma FloorIs(x: real, n: int)
    requires n as real <= x < n as real + 1.0
    ensures x.Floor == n
  {
  }

  lemma FloorMonotone(x: real, y: real)
    requires x <= y
    ensures x.Floor <= y.Floor
  {
  }

  ghost predicate InRange(anchors: Anchors) {
    forall d: Dimension :: 0.0 <= anchors.At(d) <= 4.0
  }

  ghost predicate Integral(anchors: Anchors) {
    forall d: Dimension :: anchors.At(d) == anchors.At(d).Floor as real
  }

  function WeightSum(n: nat): int
    requires n <= |DIMENSIONS|
  {
    if n == 0 then 0 else WeightSum(n - 1) + Weight(DIMENSIONS[n - 1])
  }

  lemma WeightsAddUpTo100()
    ensures WeightSum(|DIMENSIONS|) == 100
  {
    assert WeightSum(3) == 55;
    assert WeightSum(6) == 90;
  }

  lemma {:induction false} PointsBounds(anchors: Anchors, n: nat)
    requires n <= |DIMENSIONS| && InRange(anchors)
    ensures 0.0 <= Points(anchors, n) <= WeightSum(n) as real
  {
    if n > 0 {
      PointsBounds(anchors, n - 1);
    }
  }

  // The weighted sum in fifths of a weight: every weight is a multiple of five.
  function Units(anchors: Anchors, n: nat): int
    requires n <= |DIMENSIONS|
  {
    if n == 0 then 0
    else
      var d := DIMENSIONS[n - 1];
      Units(anchors, n - 1) + Weight(d) / 5 * anchors.At(d).Floor
  }

  lemma EarnedIsQuarters(d: Dimension, anchor: real)
    requires anchor == anchor.Floor as real
    ensures Earned(d, anchor) == 1.25 * (Weight(d) / 5 * anchor.Floor) as real
  {
    match Weight(d) / 5
    case 4 =>
    case 3 =>
    case 2 =>
    case _ =>
  }

  // Integer anchors earn a multiple of 1.25 points.
  lemma {:induction false} PointsAreQuarters(anchors: Anchors, n: nat)
    requires n <= |DIMENSIONS| && Integral(anchors)
    ensures Points(anchors, n) == 1.25 * Units(anchors, n) as real
  {
    if n > 0 {
      PointsAreQuarters(anchors, n - 1);
      EarnedIsQuarters(DIMENSIONS[n - 1], anchors.At(DIMENSIONS[n - 1]));
    }
  }

  // Rounding a multiple of 1.25 points to tenths, half-way cases up.
  lemma RoundedQuarters(points: real, m: int)
    requires points == 1.25 * m as real
    ensures MathRound(points * 10.0) == MathRound((points + EPSILON) * 10.0) == (25 * m + 1) / 2
  {
    var q := m / 2;
    if m % 2 == 0 {
      FloorIs(12.5 * m as real + 0.5, 25 * q);
      FloorIs((1.25 * m as real + EPSILON) * 10.0 + 0.5, 25 * q);
    } else {
      FloorIs(12.5 * m as real + 0.5, 25 * q + 13);
      FloorIs((1.25 * m as real + EPSILON) * 10.0 + 0.5, 25 * q + 13);
    }
  }

  // Adding Number.EPSILON before rounding never changes the score of integer anchors.
  lemma EpsilonIsHarmless(anchors: Anchors)
    requires Integral(anchors)
    ensures RoundOne(TotalPoints(anchors)) == ScoreFromAnchors(anchors)
  {
    PointsAreQuarters(anchors, |DIMENSIONS|);
    RoundedQuarters(TotalPoints(anchors), Units(anchors, |DIMENSIONS|));
  }

  lemma ScoreInRange(anchors: Anchors)
    requires InRange(anchors)
    ensures 0 <= ScoreFromAnchors(anchors) <= 1000
    ensures ContentRatingFromScore(ScoreFromAnchors(anchors)).Some?
  {
    PointsBounds(anchors, |DIMENSIONS|);
    WeightsAddUpTo100();
    FloorMonotone(0.5, TotalPoints(anchors) * 10.0 + 0.5);
    FloorMonotone(TotalPoints(anchors) * 10.0 + 0.5, 1000.5);
  }

  // The score of integer anchors in exact integer arithmetic.
  lemma IntegerAnchorsScore(anchors: Anchors)
    requires Integral(anchors)
    ensures RoundOne(TotalPoints(anchors)) == (25 * Units(anchors, |DIMENSIONS|) + 1) / 2
    ensures InRange(anchors) ==>
              0 <= RoundOne(TotalPoints(anchors)) <= 1000 && ContentRatingFromScore(RoundOne(TotalPoints(anchors))).Some?
  {
    PointsAreQuarters(anchors, |DIMENSIONS|);
    RoundedQuarters(TotalPoints(anchors), Units(anchors, |DIMENSIONS|));
    if InRange(anchors) { ScoreInRange(anchors); }
  }

  // The anchors are the whole numbers from zero to four.
  lemma AnchorsAreWhole(a: Option<real>)
    ensures ValidAnchor(a) <==> a == Some(0.0) || a == Some(1.0) || a == Some(2.0) || a == Some(3.0) || a == Some(4.0)
  {
    if ValidAnchor(a) { assert 0 <= a.value.Floor <= 4; }
  }

  // What each dimension counts, out of eighty units for all.
  lemma UnitsOfDimensions(anchors: Anchors)
    ensures Units(anchors, |DIMENSIONS|)
         == 4 * anchors.openingHook.Floor + 4 * anchors.sellingPoint.Floor
          + 3 * anchors.structure.Floor + 3 * anchors.visualQuality.Floor
          + 2 * anchors.pacing.Floor + 2 * anchors.subtitleAudio.Floor
          + anchors.platformFit.Floor + anchors.actionLogic.Floor
  {
    assert Units(anchors, 1) == 4 * anchors.openingHook.Floor;
    assert Units(anchors, 2) == Units(anchors, 1) + 4 * anchors.sellingPoint.Floor;
    assert Units(anchors, 3) == Units(anchors, 2) + 3 * anchors.structure.Floor;
    assert Units(anchors, 4) == Units(anchors, 3) + 3 * anchors.visualQuality.Floor;
    assert Units(anchors, 5) == Units(anchors, 4) + 2 * anchors.pacing.Floor;
    assert Units(anchors, 6) == Units(anchors, 5) + 2 * anchors.subtitleAudio.Floor;
    assert Units(anchors, 7) == Units(anchors, 6) + anchors.platformFit.Floor;
  }

  // The ratings that a score in tenths reaches, and the best of them.
  lemma RatingsByScore(score: int)
    requires 0 <= score <= 1000
    ensures var rating := ContentRatingFromScore(score);
            && rating.Some?
            && (rating.value == APlus <==> score >= 900) && (Rank(rating.value) >= Rank(A) <==> score >= 820)
            && (Rank(rating.value) >= Rank(B) <==> score >= 740) && (Rank(rating.value) >= Rank(BMinus) <==> score >= 680)
            && (Rank(rating.value) >= Rank(C) <==> score >= 600)
  {
  }

  // A higher score never has a worse rating.
  ghost function Rank(r: Rating): nat {
    match r case D => 0 case C => 1 case BMinus => 2 case B => 3 case A => 4 case APlus => 5
  }

  lemma RatingMonotone(low: int, high: int)
    requires 0 <= low <= high <= 1000
    ensures Rank(ContentRatingFromScore(low).value) <= Rank(ContentRatingFromScore(high).value)
  {
  }

  ghost predicate Mentioned(list: seq<Observation>, d: Dimension) {
    exists k :: 0 <= k < |list| && list[k].dimension == d
  }

  lemma KeysAreMentioned(list: seq<Observation>)
    ensures forall d :: d in ByDimension(list) <==> Mentioned(list, d)
  {
    ByDimensionKeys(list);
  }

  lemma StillMentioned(list: seq<Observation>, i: nat, k: nat)
    requires i < |list| && k < |list| && k != i
    ensures Mentioned(list[..i] + list[i + 1..], list[k].dimension)
  {
    var shorter := list[..i] + list[i + 1..];
    if k < i {
      assert shorter[k] == list[k];
    } else {
      assert shorter[k - 1] == list[k];
    }
  }

  // An entry may be dropped when another one has its dimension.
  lemma DropDuplicate(list: seq<Observation>, i: nat, j: nat)
    requires i < |list| && j < |list| && i != j && list[i].dimension == list[j].dimension
    ensures ByDimension(list).Keys <= ByDimension(list[..i] + list[i + 1..]).Keys
  {
    KeysAreMentioned(list);
    KeysAreMentioned(list[..i] + list[i + 1..]);
    forall d | Mentioned(list, d) ensures Mentioned(list[..i] + list[i + 1..], d) {
      var k :| 0 <= k < |list| && list[k].dimension == d;
      StillMentioned(list, i, if k == i then j else k);
    }
  }

  // Where every dimension occurs exactly once, an entry is determined by its dimension.
  lemma DistinctEntry(list: seq<Observation>, x: Observation, y: Observation)
    requires ExactlyOnce(list) && x in list && y in list && x.dimension == y.dimension
    ensures x == y
  {
    if x != y {
      var i :| 0 <= i < |list| && list[i] == x;
      var j :| 0 <= j < |list| && list[j] == y;
      DropDuplicate(list, i, j);
      ByDimensionKeys(list[..i] + list[i + 1..]);
      SubsetBound(ByDimension(list).Keys, ByDimension(list[..i] + list[i + 1..]).Keys);
    }
  }

  lemma KeysIgnoreOrder(left: seq<Observation>, right: seq<Observation>)
    requires forall o :: o in left ==> o in right
    ensures ByDimension(left).Keys <= ByDimension(right).Keys
  {
    ByDimensionKeys(left);
    ByDimensionKeys(right);
    forall d | d in ByDimension(left) ensures d in ByDimension(right) {
      assert ByDimension(left)[d] in right;
      var j :| 0 <= j < |right| && right[j] == ByDimension(left)[d];
    }
  }

  lemma EntriesIgnoreOrder(left: seq<Observation>, right: seq<Observation>)
    requires forall o :: o in left <==> o in right
    requires ExactlyOnce(left) && ExactlyOnce(right)
    ensures ByDimension(left) == ByDimension(right)
  {
    KeysIgnoreOrder(left, right);
    KeysIgnoreOrder(right, left);
    ByDimensionKeys(left);
    ByDimensionKeys(right);
    forall d | d in ByDimension(left) ensures ByDimension(left)[d] == ByDimension(right)[d] {
      DistinctEntry(left, ByDimension(left)[d], ByDimension(right)[d]);
    }
  }

  // The result depends on what was observed, not on the order of the list.
  lemma ScoringIgnoresOrder(left: seq<Observation>, right: seq<Observation>,
                            a: Result<Calculated, ScoringError>, b: Result<Calculated, ScoringError>)
    requires multiset(left) == multiset(right)
    requires ScoringMeaning(left, a) && ScoringMeaning(right, b)
    ensures a == b
  {
    assert |left| == |multiset(left)| == |multiset(right)| == |right|;
    forall o ensures o in left <==> o in right {
      assert o in multiset(left) <==> o in multiset(right);
    }
    KeysIgnoreOrder(left, right);
    KeysIgnoreOrder(right, left);
    assert ByDimension(left).Keys == ByDimension(right).Keys;
    if ExactlyOnce(left) {
      EntriesIgnoreOrder(left, right);
    }
  }
}
