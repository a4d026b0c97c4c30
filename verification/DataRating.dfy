// Rating of performance data against benchmark thresholds and guard rules.
module DataRating {
  import opened Basics

  datatype Grade = S | APlus | A | B | BMinus | C | D

  const ORDER: seq<Grade> := [S, APlus, A, B, BMinus, C, D]

  // order.indexOf: zero is the best rating.
  function Index(g: Grade): nat {
    match g case S => 0 case APlus => 1 case A => 2 case B => 3 case BMinus => 4 case C => 5 case D => 6
  }

  function Worse(x: Grade, y: Grade): Grade {
    if Index(x) < Index(y) then y else x
  }

  datatype Direction = HigherBetter | LowerBetter

  // values[i] is the threshold of ORDER[i]; a value that is not finite is None.
  datatype Thresholds = Thresholds(metric: string, direction: Direction, values: seq<Option<real>>)

  datatype Operator = Lt | Lte | Gt | Gte | Eq

  datatype Guard = Guard(metric: string, operator: Operator, value: real, cap: Grade)

  datatype Reason =
    | BenchmarkMissing | RequiredMetricsMissing(missing: seq<string>) | MinimumSampleNotMet
    | ObservationWindowNotMet | PrimaryMetricMissing

  datatype ThresholdError = NotFinite | NotOrdered

  datatype Application = Application(metric: string, cap: Grade)

  datatype Outcome =
    | Insufficient(reason: Reason)
    | Sufficient(grade: Grade, primary: real, applications: seq<Application>)

  // metrics holds the values that finite() accepts; every other metric is absent.
  type Metrics = map<string, real>

  predicate AllFinite(t: Thresholds) {
    |t.values| == 6 && forall i :: 0 <= i < 6 ==> t.values[i].Some?
  }

  predicate AtLeastAsGood(direction: Direction, x: real, y: real) {
    match direction case HigherBetter => x >= y case LowerBetter => x <= y
  }

  // Neighbouring thresholds are compared, as the code does.
  predicate Ordered(t: Thresholds)
    requires AllFinite(t)
  {
    forall i {:trigger t.values[i]} :: 1 <= i < 6 ==> AtLeastAsGood(t.direction, t.values[i - 1].value, t.values[i].value)
  }

  function ValidateThresholdOrder(t: Thresholds): Result<(), ThresholdError>
    requires |t.values| == 6
  {
    if !AllFinite(t) then Failure(NotFinite) else if !Ordered(t) then Failure(NotOrdered) else Success(())
  }

  // The rating of a value: the best one whose threshold the value meets, or D.
  ghost predicate IsRatingFor(value: real, t: Thresholds, g: Grade)
    requires AllFinite(t)
  {
    && (Index(g) < 6 ==> AtLeastAsGood(t.direction, value, t.values[Index(g)].value))
    && forall i :: 0 <= i < Index(g) ==> !AtLeastAsGood(t.direction, value, t.values[i].value)
  }

  method RatingFor(value: real, t: Thresholds) returns (r: Result<Grade, ThresholdError>)
    requires |t.values| == 6
    ensures r.Success? ==> ValidateThresholdOrder(t).Success? && IsRatingFor(value, t, r.value)
    ensures r.Failure? ==> ValidateThresholdOrder(t) == Failure(r.error)
  {
    var valid := ValidateThresholdOrder(t);
    if valid.Failure? { return Failure(valid.error); }
    for i := 0 to 6
      invariant forall j :: 0 <= j < i ==> !AtLeastAsGood(t.direction, value, t.values[j].value)
    {
      if AtLeastAsGood(t.direction, value, t.values[i].value) {
        assert Index(ORDER[i]) == i;
        return Success(ORDER[i]);
      }
    }
    r := Success(D);
  }

  lemma {:induction false} OrderedApart(t: Thresholds, i: nat, j: nat)
    requires AllFinite(t) && Ordered(t) && i <= j < 6
    ensures AtLeastAsGood(t.direction, t.values[i].value, t.values[j].value)
  {
    if i < j { OrderedApart(t, i, j - 1); }
  }

  // A better primary metric never lowers the rating, in both directions; and
  // the rating is one value, so the specification above determines it.
  lemma RatingMonotone(t: Thresholds, better: real, worse: real, g: Grade, h: Grade)
    requires AllFinite(t) && Ordered(t)
    requires AtLeastAsGood(t.direction, better, worse)
    requires IsRatingFor(better, t, g) && IsRatingFor(worse, t, h)
    ensures Index(g) <= Index(h)
    ensures better == worse ==> g == h
  {
  }

  // Thresholds are accepted exactly when all are finite and none is better than one
  // before it.
  lemma ThresholdsAreChecked(t: Thresholds)
    requires |t.values| == 6
    ensures ValidateThresholdOrder(t) == Failure(NotFinite) <==> exists i :: 0 <= i < 6 && t.values[i].None?
    ensures ValidateThresholdOrder(t).Success? <==>
              && (forall i :: 0 <= i < 6 ==> t.values[i].Some?)
              && forall i, j :: 0 <= i <= j < 6 ==>
                   && (t.direction == HigherBetter ==> t.values[i].value >= t.values[j].value)
                   && (t.direction == LowerBetter ==> t.values[i].value <= t.values[j].value)
  {
    if AllFinite(t) && Ordered(t) {
      forall i, j | 0 <= i <= j < 6 ensures AtLeastAsGood(t.direction, t.values[i].value, t.values[j].value) {
        OrderedApart(t, i, j);
      }
    }
  }

  // A threshold that is met exactly counts as met: the value of a threshold earns its
  // grade or a better one, whichever direction is better.
  lemma ThresholdsAreInclusive(t: Thresholds, i: nat, value: real, g: Grade)
    requires AllFinite(t) && Ordered(t) && i < 6 && IsRatingFor(value, t, g)
    ensures t.direction == HigherBetter ==> (value >= t.values[i].value <==> Index(g) <= i)
    ensures t.direction == LowerBetter ==> (value <= t.values[i].value <==> Index(g) <= i)
  {
    RatingByThreshold(t, value, g, i);
  }

  // With ordered thresholds, meeting one threshold means meeting every lower one:
  // the rating is at least g exactly when the value meets the threshold of g.
  lemma RatingByThreshold(t: Thresholds, value: real, g: Grade, i: nat)
    requires AllFinite(t) && Ordered(t) && IsRatingFor(value, t, g) && i < 6
    ensures Index(g) <= i <==> AtLeastAsGood(t.direction, value, t.values[i].value)
  {
    if Index(g) <= i { OrderedApart(t, Index(g), i); }
  }

  predicate Matches(value: real, guard: Guard) {
    match guard.operator
    case Lt => value < guard.value
    case Lte => value <= guard.value
    case Gt => value > guard.value
    case Gte => value >= guard.value
    case Eq => value == guard.value
  }

  // A value below the bound meets only the two upper bounds, one above only the two
  // lower ones, and an equal one every bound that includes it.
  lemma GuardsCompare(value: real, guard: Guard)
    ensures value < guard.value ==> (Matches(value, guard) <==> guard.operator == Lt || guard.operator == Lte)
    ensures value == guard.value ==> (Matches(value, guard) <==> guard.operator in {Lte, Gte, Eq})
    ensures value > guard.value ==> (Matches(value, guard) <==> guard.operator == Gt || guard.operator == Gte)
  {
  }

  predicate Applies(metrics: Metrics, guard: Guard) {
    guard.metric in metrics && Matches(metrics[guard.metric], guard)
  }

  // The simple form: the worst of the base rating and every matching guard's cap.
  ghost predicate IsWorstOf(metrics: Metrics, base: Grade, guards: seq<Guard>, g: Grade) {
    && Index(base) <= Index(g)
    && (forall i :: 0 <= i < |guards| && Applies(metrics, guards[i]) ==> Index(guards[i].cap) <= Index(g))
    && (g == base || exists i :: 0 <= i < |guards| && Applies(metrics, guards[i]) && guards[i].cap == g)
  }

  // Each recorded application worsens the one before it.
  ghost predicate StrictlyWorsening(base: Grade, applications: seq<Application>) {
    && (forall i :: 0 <= i < |applications| ==> Index(base) < Index(applications[i].cap))
    && (forall i, j :: 0 <= i < j < |applications| ==> Index(applications[i].cap) < Index(applications[j].cap))
  }

  lemma NextGuard(metrics: Metrics, base: Grade, guards: seq<Guard>, guard: Guard, g: Grade)
    requires IsWorstOf(metrics, base, guards, g)
    ensures IsWorstOf(metrics, base, guards + [guard], if Applies(metrics, guard) then Worse(g, guard.cap) else g)
  {
    var longer := guards + [guard];
    assert longer[|guards|] == guard;
    if g != base {
      var i :| 0 <= i < |guards| && Applies(metrics, guards[i]) && guards[i].cap == g;
      assert longer[i] == guards[i];
    }
  }

  lemma NextApplication(base: Grade, applications: seq<Application>, last: Application)
    requires StrictlyWorsening(base, applications)
    requires Index(base) < Index(last.cap)
    requires applications != [] ==> Index(applications[|applications| - 1].cap) < Index(last.cap)
    ensures StrictlyWorsening(base, applications + [last])
  {
    forall i | 0 <= i < |applications| ensures Index(applications[i].cap) < Index(last.cap) {
      assert Index(applications[i].cap) <= Index(applications[|applications| - 1].cap);
    }
  }

  // Every recorded application is that of a matching guard.
  ghost predicate FromGuards(metrics: Metrics, guards: seq<Guard>, applications: seq<Application>) {
    forall a :: a in applications ==> Matched(metrics, guards, a)
  }

  ghost predicate Matched(metrics: Metrics, guards: seq<Guard>, a: Application) {
    exists guard :: guard in guards && Applies(metrics, guard) && a == Application(guard.metric, guard.cap)
  }

  lemma NextSource(metrics: Metrics, guards: seq<Guard>, applications: seq<Application>, guard: Guard)
    requires FromGuards(metrics, guards, applications)
    ensures FromGuards(metrics, guards + [guard], applications)
    ensures Applies(metrics, guard) ==>
              FromGuards(metrics, guards + [guard], applications + [Application(guard.metric, guard.cap)])
  {
    var longer := guards + [guard];
    forall a | Matched(metrics, guards, a) ensures Matched(metrics, longer, a) {
      var source :| source in guards && Applies(metrics, source) && a == Application(source.metric, source.cap);
      assert source in longer;
    }
    if Applies(metrics, guard) {
      assert guard in longer;
      assert Matched(metrics, longer, Application(guard.metric, guard.cap));
    }
  }

  method ApplyGuards(metrics: Metrics, base: Grade, guards: seq<Guard>)
    returns (grade: Grade, applications: seq<Application>)
    ensures IsWorstOf(metrics, base, guards, grade)
    ensures StrictlyWorsening(base, applications)
    ensures grade == if applications == [] then base else applications[|applications| - 1].cap
    ensures FromGuards(metrics, guards, applications)
  {
    grade, applications := base, [];
    for i := 0 to |guards|
      invariant IsWorstOf(metrics, base, guards[..i], grade)
      invariant StrictlyWorsening(base, applications)
      invariant grade == if applications == [] then base else applications[|applications| - 1].cap
      invariant FromGuards(metrics, guards[..i], applications)
    {
      var guard := guards[i];
      assert guards[..i + 1] == guards[..i] + [guard];
      NextGuard(metrics, base, guards[..i], guard, grade);
      NextSource(metrics, guards[..i], applications, guard);
      if Applies(metrics, guard) && Index(grade) < Index(guard.cap) {
        NextApplication(base, applications, Application(guard.metric, guard.cap));
        grade := guard.cap;
        applications := applications + [Application(guard.metric, guard.cap)];
      }
    }
    assert guards[..|guards|] == guards;
  }

  // The final rating does not depend on the order of the guards, and the
  // specification leaves exactly one rating.
  lemma GuardOrderIrrelevant(metrics: Metrics, base: Grade, p: seq<Guard>, q: seq<Guard>, g: Grade, h: Grade)
    requires multiset(p) == multiset(q)
    requires IsWorstOf(metrics, base, p, g) && IsWorstOf(metrics, base, q, h)
    ensures g == h
  {
    forall x ensures x in p <==> x in q { assert x in multiset(p) <==> x in multiset(q); }
    if g != base {
      var i :| 0 <= i < |p| && Applies(metrics, p[i]) && p[i].cap == g;
      assert p[i] in q;
      var j :| 0 <= j < |q| && q[j] == p[i];
      assert Index(g) <= Index(h);
    }
    if h != base {
      var i :| 0 <= i < |q| && Applies(metrics, q[i]) && q[i].cap == h;
      assert q[i] in p;
      var j :| 0 <= j < |p| && p[j] == q[i];
      assert Index(h) <= Index(g);
    }
  }

  lemma {:induction false} WorseningBound(base: Grade, applications: seq<Application>)
    requires StrictlyWorsening(base, applications)
    ensures applications != [] ==> Index(base) + |applications| <= Index(applications[|applications| - 1].cap)
    ensures |applications| <= 6 - Index(base)
  {
    if applications != [] {
      var front := applications[..|applications| - 1];
      WorseningBound(base, front);
    }
  }

  const MS_PER_DAY: int := 86400000

  // floor((end - start) / day) + 1, or zero when a date is missing or invalid.
  function ObservedDays(start: Option<int>, end: Option<int>): int {
    if start.Some? && end.Some? then (end.value - start.value) / MS_PER_DAY + 1 else 0
  }

  // A window of part of a day counts as one day, and every further day as one more.
  lemma ObservedDaysCount(start: int, days: nat, rest: int)
    requires 0 <= rest < 24 * 3600000
    ensures ObservedDays(Some(start), Some(start + days * 24 * 3600000 + rest)) == days + 1
    ensures ObservedDays(None, Some(start)) == ObservedDays(Some(start), None) == 0
  {
    assert days * 24 * 3600000 == days * MS_PER_DAY;
    assert (days * MS_PER_DAY + rest) / MS_PER_DAY == days;
  }

  function Missing(metrics: Metrics, required: seq<string>): seq<string> {
    if required == [] then []
    else (if required[0] in metrics then [] else [required[0]]) + Missing(metrics, required[1..])
  }

  // The one reason that makes the data insufficient, or None: the reasons exclude each other.
  ghost predicate IsReason(reason: Option<Reason>, metrics: Metrics, thresholds: Option<Thresholds>,
                           required: seq<string>, sampleMetric: string, sampleMinimum: real, windowDays: int,
                           start: Option<int>, end: Option<int>)
  {
    var complete := forall m :: m in required ==> m in metrics;
    var sampled := sampleMetric in metrics && metrics[sampleMetric] >= sampleMinimum;
    var observed := ObservedDays(start, end) >= windowDays;
    match reason
    case Some(BenchmarkMissing) => thresholds.None?
    case Some(RequiredMetricsMissing(missing)) =>
      thresholds.Some? && missing != [] && forall m :: m in missing <==> m in required && m !in metrics
    case Some(MinimumSampleNotMet) => thresholds.Some? && complete && !sampled
    case Some(ObservationWindowNotMet) => thresholds.Some? && complete && sampled && !observed
    case Some(PrimaryMetricMissing) =>
      thresholds.Some? && complete && sampled && observed && thresholds.value.metric !in metrics
    case None => thresholds.Some? && complete && sampled && observed && thresholds.value.metric in metrics
  }

  // calculateDataRating. A guard list that is absent is the empty list.
  method CalculateDataRating(metrics: Metrics, thresholds: Option<Thresholds>, required: seq<string>,
                             sampleMetric: string, sampleMinimum: real, windowDays: int,
                             start: Option<int>, end: Option<int>, guards: seq<Guard>)
    returns (r: Result<Outcome, ThresholdError>)
    requires thresholds.Some? ==> |thresholds.value.values| == 6
    ensures r.Success? && r.value.Insufficient? ==>
              IsReason(Some(r.value.reason), metrics, thresholds, required, sampleMetric, sampleMinimum, windowDays, start, end)
    ensures r.Failure? || r.value.Sufficient? ==>
              IsReason(None, metrics, thresholds, required, sampleMetric, sampleMinimum, windowDays, start, end)
    ensures r.Failure? ==> ValidateThresholdOrder(thresholds.value) == Failure(r.error)
    ensures r.Success? && r.value.Sufficient? ==>
              && ValidateThresholdOrder(thresholds.value).Success?
              && r.value.primary == metrics[thresholds.value.metric]
              && exists base :: IsRatingFor(r.value.primary, thresholds.value, base)
                   && IsWorstOf(metrics, base, guards, r.value.grade)
                   && StrictlyWorsening(base, r.value.applications)
                   && |r.value.applications| <= 6
  {
    if thresholds.None? { return Success(Insufficient(BenchmarkMissing)); }
    var missing := Missing(metrics, required);
    MissingMeaning(metrics, required);
    if missing != [] { return Success(Insufficient(RequiredMetricsMissing(missing))); }
    if sampleMetric !in metrics || metrics[sampleMetric] < sampleMinimum {
      return Success(Insufficient(MinimumSampleNotMet));
    }
    if ObservedDays(start, end) < windowDays { return Success(Insufficient(ObservationWindowNotMet)); }
    if thresholds.value.metric !in metrics { return Success(Insufficient(PrimaryMetricMissing)); }
    var primary := metrics[thresholds.value.metric];
    var base := RatingFor(primary, thresholds.value);
    if base.Failure? { return Failure(base.error); }
    var grade, applications := ApplyGuards(metrics, base.value, guards);
    WorseningBound(base.value, applications);
    r := Success(Sufficient(grade, primary, applications));
  }

  lemma {:induction false} MissingMeaning(metrics: Metrics, required: seq<string>)
    ensures forall m :: m in Missing(metrics, required) <==> m in required && m !in metrics
    ensures Missing(metrics, required) == [] <==> forall m :: m in required ==> m in metrics
  {
    if required != [] {
      MissingMeaning(metrics, required[1..]);
      assert required == [required[0]] + required[1..];
      if Missing(metrics, required) != [] {
        assert Missing(metrics, required)[0] in Missing(metrics, required);
      }
    }
  }
}
