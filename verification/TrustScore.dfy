/**
  The trust-score engine: a fold over the event ledger of one user with
  exponential decay, per-category totals, variance flags, a clamp and a round.

  Time is in milliseconds. The decay 0.5^(age / half-life) is written r^age for a
  real r whose power at the half-life is one half.
 */
module TrustScore {
  import opened Wrappers
  import opened Sums
  import opened Statistics

  datatype EventType =
    | BookingCompleted
    | DisputeResolvedAgainst
    | DisputeResolvedFor
    | FraudReportConfirmed
    | ReviewReceived
    | IdentityVerified

  datatype TrustEvent = TrustEvent(eventType: EventType, weight: real, occurredAt: int,
                                   reviewerTrustFactor: Option<real>)

  datatype TrustScoreResult = TrustScoreResult(score: int, breakdown: map<EventType, real>, flaggedForReview: bool)

  const HALF_LIFE_MS: int := 180 * 24 * 60 * 60 * 1000
  const MAX_EXPECTED_WEIGHT := 200.0
  const NEUTRAL_SCORE := 50.0

  function DefaultWeight(t: EventType): real {
    match t
    case IdentityVerified => 15.0
    case BookingCompleted => 20.0
    case ReviewReceived => 10.0
    case DisputeResolvedFor => -15.0
    case DisputeResolvedAgainst => -30.0
    case FraudReportConfirmed => -60.0
  }

  function Power(r: real, n: nat): real {
    if n == 0 then 1.0 else r * Power(r, n - 1)
  }

  /** r is the decay per millisecond: it halves a weight in HALF_LIFE_MS. */
  ghost predicate DecayRate(r: real) {
    0.0 < r < 1.0 && Power(r, HALF_LIFE_MS) == 0.5
  }

  // ---------------------------------------------------------------------------
  // Reference definition of the score
  // ---------------------------------------------------------------------------

  function RecencyWeight(occurredAt: int, now: int, r: real): real {
    if now - occurredAt < 0 then 0.0 else Power(r, now - occurredAt)
  }

  function BaseWeight(e: TrustEvent): real {
    if e.weight > 0.0 then e.weight else DefaultWeight(e.eventType)
  }

  function Clamp(lo: real, hi: real, v: real): real {
    if v > hi then hi else if v < lo then lo else v
  }

  function ReviewerFactor(e: TrustEvent): real {
    if e.eventType == ReviewReceived && e.reviewerTrustFactor.Some?
    then Clamp(0.0, 1.0, e.reviewerTrustFactor.value)
    else 1.0
  }

  /** The weight an event has at time `now`. */
  function EffectiveWeight(e: TrustEvent, now: int, r: real): real {
    BaseWeight(e) * RecencyWeight(e.occurredAt, now, r) * ReviewerFactor(e)
  }

  function WeightAt(now: int, r: real): TrustEvent -> real {
    (e: TrustEvent) => EffectiveWeight(e, now, r)
  }

  function InCategory(c: EventType): TrustEvent -> real {
    (e: TrustEvent) => if e.eventType == c then 1.0 else 0.0
  }

  function Categories(events: seq<TrustEvent>): set<EventType> {
    set e | e in events :: e.eventType
  }

  function TotalWeight(events: seq<TrustEvent>, now: int, r: real): real {
    SumBy(WeightAt(now, r), events)
  }

  function CategoryWeight(events: seq<TrustEvent>, c: EventType, now: int, r: real): real {
    SumBy(Product(InCategory(c), WeightAt(now, r)), events)
  }

  function Breakdown(events: seq<TrustEvent>, now: int, r: real): map<EventType, real> {
    map c | c in Categories(events) :: CategoryWeight(events, c, now, r)
  }

  function CategoryVariance(events: seq<TrustEvent>, c: EventType, now: int, r: real): real {
    Variance(InCategory(c), WeightAt(now, r), events)
  }

  function OverallVariance(events: seq<TrustEvent>, now: int, r: real): real {
    Variance(One(), WeightAt(now, r), events)
  }

  function RoundHalfUp(v: real): int {
    (v + 0.5).Floor
  }

  function ScoreOfTotal(total: real): int {
    RoundHalfUp(Clamp(0.0, 100.0, 50.0 + total / 200.0 * 50.0))
  }

  predicate IsRecentDispute(e: TrustEvent, now: int) {
    && (e.eventType == DisputeResolvedAgainst || e.eventType == FraudReportConfirmed)
    && now - e.occurredAt < HALF_LIFE_MS
  }

  predicate HasRecentDispute(events: seq<TrustEvent>, now: int) {
    exists i :: 0 <= i < |events| && IsRecentDispute(events[i], now)
  }

  predicate VarianceFlag(events: seq<TrustEvent>, now: int, r: real) {
    || (exists c :: c in Categories(events) && CategoryVariance(events, c, now, r) > 200.0)
    || (|events| > 3 && OverallVariance(events, now, r) > 100.0)
  }

  function TrustScoreOf(events: seq<TrustEvent>, now: int, r: real): TrustScoreResult {
    TrustScoreResult(
      ScoreOfTotal(TotalWeight(events, now, r)),
      Breakdown(events, now, r),
      VarianceFlag(events, now, r) || HasRecentDispute(events, now))
  }

  // ---------------------------------------------------------------------------
  // The code
  // ---------------------------------------------------------------------------

  /** Running totals of one category. */
  datatype CategorySum = CategorySum(sum: real, count: nat, values: seq<real>)

  /** The effective weights of one category, in ledger order. */
  function CategoryValues(events: seq<TrustEvent>, c: EventType, now: int, r: real): seq<real> {
    if |events| == 0 then []
    else
      var e := events[|events| - 1];
      CategoryValues(events[..|events| - 1], c, now, r)
      + (if e.eventType == c then [EffectiveWeight(e, now, r)] else [])
  }

  /** What a category accumulates over a ledger. */
  function CategorySumOf(events: seq<TrustEvent>, c: EventType, now: int, r: real): CategorySum {
    var values := CategoryValues(events, c, now, r);
    CategorySum(CategoryWeight(events, c, now, r), |values|, values)
  }

  ghost predicate NoRepeats(order: seq<EventType>) {
    forall i, j :: 0 <= i < j < |order| ==> order[i] != order[j]
  }

  /** `order` lists the keys of `sums` in the order they were first inserted. */
  ghost predicate Tallied(order: seq<EventType>, sums: map<EventType, CategorySum>, events: seq<TrustEvent>, now: int,
                          r: real) {
    && NoRepeats(order)
    && (forall c :: c in order <==> c in Categories(events))
    && sums == map c | c in Categories(events) :: CategorySumOf(events, c, now, r)
  }

  lemma TallyStep(events: seq<TrustEvent>, e: TrustEvent, c: EventType, now: int, r: real)
    ensures Categories(events + [e]) == Categories(events) + {e.eventType}
    ensures e.eventType != c ==> CategorySumOf(events + [e], c, now, r) == CategorySumOf(events, c, now, r)
    ensures e.eventType == c ==>
              CategorySumOf(events + [e], c, now, r) ==
                var old' := CategorySumOf(events, c, now, r);
                var w := EffectiveWeight(e, now, r);
                CategorySum(old'.sum + w, old'.count + 1, old'.values + [w])
  {
    assert (events + [e])[..|events|] == events;
    SumByAppend(Product(InCategory(c), WeightAt(now, r)), events, e);
    forall t ensures t in Categories(events + [e]) <==> t in Categories(events) + {e.eventType} {
      if t in Categories(events) {
        var i :| 0 <= i < |events| && events[i].eventType == t;
        assert (events + [e])[i].eventType == t;
      }
      assert (events + [e])[|events|].eventType == e.eventType;
    }
  }

  lemma EmptyCategory(events: seq<TrustEvent>, c: EventType, now: int, r: real)
    requires c !in Categories(events)
    ensures CategorySumOf(events, c, now, r) == CategorySum(0.0, 0, [])
  {
    if |events| > 0 {
      var e := events[|events| - 1];
      assert e.eventType in Categories(events);
      forall t | t in events[..|events| - 1] ensures t.eventType in Categories(events) {
      }
      EmptyCategory(events[..|events| - 1], c, now, r);
    }
  }

  /** One event entered under its category keeps the tally. */
  lemma TalliedStep(order: seq<EventType>, sums: map<EventType, CategorySum>, events: seq<TrustEvent>, e: TrustEvent,
                    now: int, r: real)
    requires Tallied(order, sums, events, now, r)
    ensures var c := e.eventType;
            var d := if c in sums then sums[c] else CategorySum(0.0, 0, []);
            var w := EffectiveWeight(e, now, r);
            Tallied(if c in sums then order else order + [c],
                    sums[c := CategorySum(d.sum + w, d.count + 1, d.values + [w])],
                    events + [e], now, r)
  {
    hide CategorySumOf, EffectiveWeight;
    var c := e.eventType;
    if c !in sums {
      EmptyCategory(events, c, now, r);
    }
    forall t {
      TallyStep(events, e, t, now, r);
    }
  }

  lemma BreakdownStep(events: seq<TrustEvent>, e: TrustEvent, now: int, r: real)
    ensures var b, c := Breakdown(events, now, r), e.eventType;
            Breakdown(events + [e], now, r) ==
              b[c := (if c in b then b[c] else 0.0) + EffectiveWeight(e, now, r)]
  {
    hide EffectiveWeight, CategoryWeight, CategoryValues;
    forall t
      ensures CategoryWeight(events + [e], t, now, r)
           == CategoryWeight(events, t, now, r) + (if t == e.eventType then EffectiveWeight(e, now, r) else 0.0)
    {
      CategoryWeightStep(events, e, t, now, r);
    }
    assert Categories(events + [e]) == Categories(events) + {e.eventType} by {
      TallyStep(events, e, e.eventType, now, r);
    }
    if e.eventType !in Categories(events) {
      EmptyCategory(events, e.eventType, now, r);
      assert CategorySumOf(events, e.eventType, now, r).sum == 0.0;
    }
  }

  lemma CategoryWeightStep(events: seq<TrustEvent>, e: TrustEvent, c: EventType, now: int, r: real)
    ensures CategoryWeight(events + [e], c, now, r)
         == CategoryWeight(events, c, now, r) + (if c == e.eventType then EffectiveWeight(e, now, r) else 0.0)
  {
    SumByAppend(Product(InCategory(c), WeightAt(now, r)), events, e);
  }

  lemma TotalStep(events: seq<TrustEvent>, e: TrustEvent, now: int, r: real)
    ensures TotalWeight(events + [e], now, r) == TotalWeight(events, now, r) + EffectiveWeight(e, now, r)
  {
    SumByAppend(WeightAt(now, r), events, e);
  }

  /** Variance of a plain list of values. */
  function ValueVariance(values: seq<real>): real {
    Variance(One(), Identity(), values)
  }

  /** The value lists of the categories, one after the other. */
  function AllValues(order: seq<EventType>, sums: map<EventType, CategorySum>): seq<real>
    requires forall c :: c in order ==> c in sums
  {
    if |order| == 0 then []
    else AllValues(order[..|order| - 1], sums) + sums[order[|order| - 1]].values
  }

  predicate FlagOfSums(order: seq<EventType>, sums: map<EventType, CategorySum>)
    requires forall c :: c in order ==> c in sums
  {
    || (exists i :: 0 <= i < |order| && ValueVariance(sums[order[i]].values) > 200.0)
    || (|AllValues(order, sums)| > 3 && ValueVariance(AllValues(order, sums)) > 100.0)
  }

  /** The variance pass over the category table. */
  method ComputeVarianceAndFlags(order: seq<EventType>, sums: map<EventType, CategorySum>) returns (flagged: bool)
    requires forall c :: c in order ==> c in sums
    requires forall c :: c in sums ==>
               sums[c].count == |sums[c].values| > 0 && sums[c].sum == SumBy(Identity(), sums[c].values)
    ensures flagged == FlagOfSums(order, sums)
  {
    hide SumBy, Variance;
    flagged := false;
    var allValues: seq<real> := [];
    for k := 0 to |order|
      invariant flagged == exists i :: 0 <= i < k && ValueVariance(sums[order[i]].values) > 200.0
      invariant allValues == AllValues(order[..k], sums)
    {
      var data := sums[order[k]];
      var catVariance := CategorySpread(data);
      assert order[..k + 1][..k] == order[..k];
      allValues := allValues + data.values;
      if catVariance > 200.0 {
        flagged := true;
      }
    }
    assert order[..|order|] == order;
    if |allValues| > 3 {
      var overallVariance := ComputeVariance(allValues);
      if overallVariance > 100.0 {
        flagged := true;
      }
    }
  }

  lemma DeviationStep(values: seq<real>, mean: real, i: nat)
    requires i < |values|
    ensures var f := Deviation(One(), Identity(), mean);
            SumBy(f, values[..i + 1]) == SumBy(f, values[..i]) + (values[i] - mean) * (values[i] - mean)
  {
    SumByStep(Deviation(One(), Identity(), mean), values, i);
  }

  method SquaredDistances(values: seq<real>, mean: real) returns (sum: real)
    ensures sum == SumBy(Deviation(One(), Identity(), mean), values)
  {
    hide Deviation;
    sum := 0.0;
    for i := 0 to |values|
      invariant sum == SumBy(Deviation(One(), Identity(), mean), values[..i])
    {
      DeviationStep(values, mean, i);
      sum := sum + (values[i] - mean) * (values[i] - mean);
    }
    assert values[..|values|] == values;
  }

  /** The inner loop of the variance pass: the mean is the running sum over the count. */
  method CategorySpread(data: CategorySum) returns (catVariance: real)
    requires data.count == |data.values| > 0 && data.sum == SumBy(Identity(), data.values)
    ensures catVariance == ValueVariance(data.values)
  {
    hide SumBy, Variance;
    ValueMoments(data.values);
    var mean := data.sum / data.count as real;
    var sumSqDiff := SquaredDistances(data.values, mean);
    catVariance := if data.count > 1 then sumSqDiff / data.count as real else 0.0;
  }

  method ComputeVariance(values: seq<real>) returns (v: real)
    ensures v == ValueVariance(values)
  {
    if |values| == 0 {
      return 0.0;
    }
    var sum := 0.0;
    for i := 0 to |values|
      invariant sum == SumBy(Identity(), values[..i])
    {
      SumByStep(Identity(), values, i);
      sum := sum + values[i];
    }
    assert values[..|values|] == values;
    hide SumBy, Variance;
    ValueMoments(values);
    var sqDiffs := SquaredDistances(values, sum / |values| as real);
    v := sqDiffs / |values| as real;
  }

  lemma {:induction false} CountOfAll<T>(s: seq<T>)
    ensures Count(One(), s) == |s| as real
  {
    if |s| > 0 {
      CountOfAll(s[..|s| - 1]);
    }
  }

  /** Mean and variance of a list in the terms the loops use. */
  lemma ValueMoments(values: seq<real>)
    requires |values| > 0
    ensures ValueVariance(values) ==
              SumBy(Deviation(One(), Identity(), SumBy(Identity(), values) / |values| as real),
                    values) / |values| as real
    ensures |values| == 1 ==> ValueVariance(values) == 0.0
  {
    CountOfAll(values);
    SumByCong(Product(One(), Identity()), Identity(), values);
    if |values| == 1 {
      assert values[..0] == [];
    }
  }

  // ---------------------------------------------------------------------------
  // The category table says the same as the ledger
  // ---------------------------------------------------------------------------

  /** f summed over the effective weights of one category. */
  function Through(c: EventType, now: int, r: real, f: real -> real): TrustEvent -> real {
    (e: TrustEvent) => if e.eventType == c then f(EffectiveWeight(e, now, r)) else 0.0
  }

  lemma {:induction false} CategoryValueSum(events: seq<TrustEvent>, c: EventType, now: int, r: real, f: real -> real)
    ensures SumBy(f, CategoryValues(events, c, now, r)) == SumBy(Through(c, now, r, f), events)
  {
    if |events| > 0 {
      var e := events[|events| - 1];
      var prefix := events[..|events| - 1];
      CategoryValueSum(prefix, c, now, r, f);
      if e.eventType == c {
        SumByAppend(f, CategoryValues(prefix, c, now, r), EffectiveWeight(e, now, r));
      } else {
        assert CategoryValues(prefix, c, now, r) + [] == CategoryValues(prefix, c, now, r);
      }
    }
  }

  lemma CategoryCount(events: seq<TrustEvent>, c: EventType, now: int, r: real)
    ensures Count(InCategory(c), events) == |CategoryValues(events, c, now, r)| as real
  {
    CategoryValueSum(events, c, now, r, One());
    CountOfAll(CategoryValues(events, c, now, r));
    SumByCong(Through(c, now, r, One()), InCategory(c), events);
  }

  lemma CategorySpreadSum(events: seq<TrustEvent>, c: EventType, now: int, r: real, m: real)
    ensures SumBy(Deviation(One(), Identity(), m), CategoryValues(events, c, now, r))
         == SumBy(Deviation(InCategory(c), WeightAt(now, r), m), events)
  {
    var f := Deviation(One(), Identity(), m);
    CategoryValueSum(events, c, now, r, f);
    hide EffectiveWeight;
    SumByCong(Through(c, now, r, f), Deviation(InCategory(c), WeightAt(now, r), m), events);
  }

  lemma CategoryPlainSum(events: seq<TrustEvent>, c: EventType, now: int, r: real)
    ensures SumBy(Identity(), CategoryValues(events, c, now, r)) == CategoryWeight(events, c, now, r)
  {
    CategoryValueSum(events, c, now, r, Identity());
    hide EffectiveWeight;
    SumByCong(Through(c, now, r, Identity()), Product(InCategory(c), WeightAt(now, r)), events);
  }

  /** The variance of a category's value list is the category's variance. */
  lemma CategoryVarianceOfValues(events: seq<TrustEvent>, c: EventType, now: int, r: real)
    ensures ValueVariance(CategoryValues(events, c, now, r)) == CategoryVariance(events, c, now, r)
  {
    hide SumBy, Deviation, Identity, CategoryValues;
    var values := CategoryValues(events, c, now, r);
    CategoryCount(events, c, now, r);
    CategoryPlainSum(events, c, now, r);
    CategorySpreadSum(events, c, now, r, Mean(InCategory(c), WeightAt(now, r), events));
    if |values| > 0 {
      ValueMoments(values);
    } else {
      CountOfAll(values);
    }
  }

  /** f summed over the effective weights of the listed categories. */
  function ThroughAll(order: seq<EventType>, now: int, r: real, f: real -> real): TrustEvent -> real {
    (e: TrustEvent) => if e.eventType in order then f(EffectiveWeight(e, now, r)) else 0.0
  }

  lemma {:induction false} AllValueSum(order: seq<EventType>, sums: map<EventType, CategorySum>,
                                       events: seq<TrustEvent>, now: int, r: real, f: real -> real)
    requires NoRepeats(order)
    requires forall c :: c in order ==> c in sums && sums[c].values == CategoryValues(events, c, now, r)
    ensures SumBy(f, AllValues(order, sums)) == SumBy(ThroughAll(order, now, r, f), events)
  {
    hide EffectiveWeight, CategoryValues;
    if |order| == 0 {
      SumByScale(0.0, One(), ThroughAll(order, now, r, f), events);
    } else {
      var init, c := order[..|order| - 1], order[|order| - 1];
      AllValueSum(init, sums, events, now, r, f);
      SumByConcat(f, AllValues(init, sums), sums[c].values);
      CategoryValueSum(events, c, now, r, f);
      forall e | e in events
        ensures ThroughAll(order, now, r, f)(e) == ThroughAll(init, now, r, f)(e) + Through(c, now, r, f)(e)
      {
        assert order == init + [c];
      }
      SumByAdd(ThroughAll(init, now, r, f), Through(c, now, r, f), ThroughAll(order, now, r, f), events);
    }
  }

  lemma AllValueSumOfLedger(order: seq<EventType>, sums: map<EventType, CategorySum>, events: seq<TrustEvent>,
                            now: int, r: real,
                            f: real -> real, g: TrustEvent -> real)
    requires Tallied(order, sums, events, now, r)
    requires forall e :: g(e) == f(EffectiveWeight(e, now, r))
    ensures SumBy(f, AllValues(order, sums)) == SumBy(g, events)
  {
    AllValueSum(order, sums, events, now, r, f);
    forall e | e in events ensures ThroughAll(order, now, r, f)(e) == g(e) {
      assert e.eventType in Categories(events);
    }
    SumByCong(ThroughAll(order, now, r, f), g, events);
  }

  /** The variance of all collected values is the variance over the ledger,
      whatever order the categories were inserted in. */
  lemma OverallVarianceOfValues(order: seq<EventType>, sums: map<EventType, CategorySum>, events: seq<TrustEvent>,
                                now: int, r: real)
    requires Tallied(order, sums, events, now, r)
    ensures |AllValues(order, sums)| == |events|
    ensures ValueVariance(AllValues(order, sums)) == OverallVariance(events, now, r)
  {
    var values, w := AllValues(order, sums), WeightAt(now, r);
    AllValueSumOfLedger(order, sums, events, now, r, One(), One());
    CountOfAll(values);
    CountOfAll(events);
    AllValueSumOfLedger(order, sums, events, now, r, Product(One(), Identity()), Product(One(), w));
    var m := Mean(One(), Identity(), values);
    SquaredWeights(now, r, m);
    AllValueSumOfLedger(order, sums, events, now, r, Deviation(One(), Identity(), m), Deviation(One(), w, m));
  }

  lemma SquaredWeights(now: int, r: real, m: real)
    ensures forall e ::
              Deviation(One(), WeightAt(now, r), m)(e) == Deviation(One(), Identity(), m)(EffectiveWeight(e, now, r))
  {
    hide EffectiveWeight;
  }

  lemma FlagOfTally(order: seq<EventType>, sums: map<EventType, CategorySum>, events: seq<TrustEvent>, now: int,
                    r: real)
    requires Tallied(order, sums, events, now, r)
    ensures FlagOfSums(order, sums) == VarianceFlag(events, now, r)
  {
    hide ValueVariance, CategoryVariance, OverallVariance, CategoryValues, CategoryWeight, AllValues;
    OverallVarianceOfValues(order, sums, events, now, r);
    forall c | c in Categories(events)
      ensures ValueVariance(sums[c].values) == CategoryVariance(events, c, now, r)
    {
      CategoryVarianceOfValues(events, c, now, r);
    }
    if c :| c in Categories(events) && CategoryVariance(events, c, now, r) > 200.0 {
      var i :| 0 <= i < |order| && order[i] == c;
    }
  }

  lemma TallyIsWellFormed(order: seq<EventType>, sums: map<EventType, CategorySum>, events: seq<TrustEvent>, now: int,
                          r: real)
    requires Tallied(order, sums, events, now, r)
    ensures forall c :: c in order ==> c in sums
    ensures forall c :: c in sums ==>
              sums[c].count == |sums[c].values| > 0 && sums[c].sum == SumBy(Identity(), sums[c].values)
  {
    forall c | c in sums
      ensures sums[c].count == |sums[c].values| > 0 && sums[c].sum == SumBy(Identity(), sums[c].values)
    {
      CategoryPlainSum(events, c, now, r);
      PresentCategory(events, c, now, r);
    }
  }

  lemma {:induction false} PresentCategory(events: seq<TrustEvent>, c: EventType, now: int, r: real)
    requires c in Categories(events)
    ensures |CategoryValues(events, c, now, r)| > 0
  {
    var e := events[|events| - 1];
    if e.eventType != c {
      var i :| 0 <= i < |events| && events[i].eventType == c;
      assert events[..|events| - 1][i].eventType == c;
      PresentCategory(events[..|events| - 1], c, now, r);
    }
  }

  method DisputeWithinSixMonths(events: seq<TrustEvent>, now: int) returns (found: bool)
    ensures found == HasRecentDispute(events, now)
  {
    for i := 0 to |events|
      invariant forall j :: 0 <= j < i ==> !IsRecentDispute(events[j], now)
    {
      if (events[i].eventType == DisputeResolvedAgainst || events[i].eventType == FraudReportConfirmed)
         && now - events[i].occurredAt < HALF_LIFE_MS {
        return true;
      }
    }
    found := false;
  }

  /** The fold over the ledger. */
  method ComputeTrustScore(events: seq<TrustEvent>, now: int, r: real) returns (result: TrustScoreResult)
    ensures result == TrustScoreOf(events, now, r)
  {
    hide CategoryWeight, CategorySumOf, VarianceFlag, HasRecentDispute, SumBy, Tallied, Breakdown, TotalWeight,
      EffectiveWeight, FlagOfSums;
    var breakdown: map<EventType, real> := map[];
    var total := 0.0;
    var order: seq<EventType> := [];
    var categorySums: map<EventType, CategorySum> := map[];
    EmptyLedger(now, r);
    for i := 0 to |events|
      invariant total == TotalWeight(events[..i], now, r)
      invariant breakdown == Breakdown(events[..i], now, r)
      invariant Tallied(order, categorySums, events[..i], now, r)
    {
      var event := events[i];
      assert events[..i + 1] == events[..i] + [event];
      var effectiveWeight := WeighEvent(event, now, r);
      var category := event.eventType;
      TalliedStep(order, categorySums, events[..i], event, now, r);
      BreakdownStep(events[..i], event, now, r);
      TotalStep(events[..i], event, now, r);
      ghost var before := categorySums;
      if category !in categorySums {
        categorySums := categorySums[category := CategorySum(0.0, 0, [])];
        order := order + [category];
      }
      var data := categorySums[category];
      categorySums := categorySums[category :=
        CategorySum(data.sum + effectiveWeight, data.count + 1, data.values + [effectiveWeight])];
      assert categorySums == before[category := categorySums[category]];
      total := total + effectiveWeight;
      breakdown := breakdown[category :=
        (if category in breakdown then breakdown[category] else 0.0) + effectiveWeight];
    }
    assert events[..|events|] == events;
    var normalized := total / MAX_EXPECTED_WEIGHT;
    var score := Clamp(0.0, 100.0, NEUTRAL_SCORE + normalized * NEUTRAL_SCORE);
    TallyIsWellFormed(order, categorySums, events, now, r);
    FlagOfTally(order, categorySums, events, now, r);
    var flagged := ComputeVarianceAndFlags(order, categorySums);
    var dispute := DisputeWithinSixMonths(events, now);
    result := TrustScoreResult(RoundHalfUp(score), breakdown, flagged || dispute);
  }

  lemma EmptyLedger(now: int, r: real)
    ensures TotalWeight([], now, r) == 0.0 && Breakdown([], now, r) == map[] && Tallied([], map[], [], now, r)
  {
  }

  /** The branch-by-branch weighing of one event. */
  method WeighEvent(event: TrustEvent, now: int, r: real) returns (effectiveWeight: real)
    ensures effectiveWeight == EffectiveWeight(event, now, r)
  {
    hide Power;
    var baseWeight := if event.weight > 0.0 then event.weight else DefaultWeight(event.eventType);
    var recency := RecencyWeight(event.occurredAt, now, r);
    effectiveWeight := baseWeight * recency;
    if event.eventType == ReviewReceived && event.reviewerTrustFactor.Some? {
      effectiveWeight := effectiveWeight * Clamp(0.0, 1.0, event.reviewerTrustFactor.value);
    }
  }
}
