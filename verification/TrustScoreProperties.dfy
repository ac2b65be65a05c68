/**
  What the trust score promises: conservation of the breakdown, how the variance
  flags relate, which ledgers are never flagged, and what time does to a score.
 */
module TrustScoreProperties {
  import opened Wrappers
  import opened Sums
  import opened Statistics
  import opened TrustScore

  function OverTypes(f: EventType -> real): real {
    f(BookingCompleted) + f(DisputeResolvedAgainst) + f(DisputeResolvedFor)
    + f(FraudReportConfirmed) + f(ReviewReceived) + f(IdentityVerified)
  }

  // ---------------------------------------------------------------------------
  // Conservation
  // ---------------------------------------------------------------------------

  function Entries(b: map<EventType, real>): EventType -> real {
    c => if c in b then b[c] else 0.0
  }

  /** f restricted to each category in turn. */
  function PartSum(events: seq<TrustEvent>, f: TrustEvent -> real): EventType -> real {
    c => SumBy(Product(InCategory(c), f), events)
  }

  lemma {:induction false} PartsMakeWhole(events: seq<TrustEvent>, f: TrustEvent -> real)
    ensures OverTypes(PartSum(events, f)) == SumBy(f, events)
  {
    if |events| > 0 {
      var prefix, e := events[..|events| - 1], events[|events| - 1];
      PartsMakeWhole(prefix, f);
      forall c ensures PartSum(events, f)(c) == PartSum(prefix, f)(c) + (if e.eventType == c then f(e) else 0.0) {
      }
      hide PartSum;
    }
  }

  lemma AbsentCategory(events: seq<TrustEvent>, c: EventType, now: int, r: real)
    requires c !in Categories(events)
    ensures CategoryWeight(events, c, now, r) == 0.0
  {
    EmptyCategory(events, c, now, r);
    assert CategorySumOf(events, c, now, r).sum == 0.0;
  }

  /** The entries of the breakdown add up to the total; so the score, an integer
      from 0 to 100, is determined by the breakdown alone. */
  lemma BreakdownDeterminesScore(events: seq<TrustEvent>, now: int, r: real)
    ensures var result := TrustScoreOf(events, now, r);
            && OverTypes(Entries(result.breakdown)) == TotalWeight(events, now, r)
            && result.score == ScoreOfTotal(OverTypes(Entries(result.breakdown)))
            && 0 <= result.score <= 100
            && result.breakdown.Keys == Categories(events)
  {
    PartsMakeWhole(events, WeightAt(now, r));
    forall c ensures Entries(Breakdown(events, now, r))(c) == PartSum(events, WeightAt(now, r))(c) {
      if c !in Categories(events) {
        AbsentCategory(events, c, now, r);
      }
    }
    hide Breakdown, PartSum, VarianceFlag, HasRecentDispute;
  }

  // ---------------------------------------------------------------------------
  // Pooled variance
  // ---------------------------------------------------------------------------

  function CategoryCountOf(events: seq<TrustEvent>, c: EventType): real {
    Count(InCategory(c), events)
  }

  function MeanGap(events: seq<TrustEvent>, c: EventType, now: int, r: real): real {
    Mean(InCategory(c), WeightAt(now, r), events) - Mean(One(), WeightAt(now, r), events)
  }

  /** What category c contributes to n times the overall variance. */
  function VarianceShare(events: seq<TrustEvent>, now: int, r: real): EventType -> real {
    c => CategoryCountOf(events, c) *
         (CategoryVariance(events, c, now, r) + MeanGap(events, c, now, r) * MeanGap(events, c, now, r))
  }

  lemma CountIsNonNegative(events: seq<TrustEvent>, c: EventType)
    ensures CategoryCountOf(events, c) >= 0.0
  {
    SumByNonNegative(InCategory(c), events);
  }

  lemma ShareOfCategory(events: seq<TrustEvent>, c: EventType, now: int, r: real)
    ensures VarianceShare(events, now, r)(c) ==
              SumBy(Deviation(InCategory(c), WeightAt(now, r), Mean(One(), WeightAt(now, r), events)), events)
  {
    var m := Mean(One(), WeightAt(now, r), events);
    if CategoryCountOf(events, c) == 0.0 {
      EmptyDeviation(events, c, WeightAt(now, r), m);
    } else {
      hide SumBy, Mean, Variance, Deviation, InCategory, WeightAt;
      ParallelAxis(InCategory(c), WeightAt(now, r), m, events);
    }
  }

  lemma EmptyDeviation(events: seq<TrustEvent>, c: EventType, x: TrustEvent -> real, m: real)
    requires CategoryCountOf(events, c) == 0.0
    ensures SumBy(Deviation(InCategory(c), x, m), events) == 0.0
  {
    var d := Deviation(InCategory(c), x, m);
    SumByNonNegative(InCategory(c), events);
    forall e | e in events ensures d(e) == 0.0 {
      assert InCategory(c)(e) == 0.0;
    }
    hide SumBy, Deviation;
    SumByNonNegative(d, events);
  }

  /** n * overall variance == sum over categories of
      n_c * variance_c + n_c * (mean_c - mean)^2. */
  lemma PooledVariance(events: seq<TrustEvent>, now: int, r: real)
    requires |events| > 0
    ensures |events| as real * OverallVariance(events, now, r) == OverTypes(VarianceShare(events, now, r))
  {
    var w := WeightAt(now, r);
    var m := Mean(One(), w, events);
    var d := Deviation(One(), w, m);
    CountOfAll(events);
    Moments(One(), w, events);
    PartsMakeWhole(events, d);
    forall c ensures VarianceShare(events, now, r)(c) == PartSum(events, d)(c) {
      ShareOfCategory(events, c, now, r);
      PartDeviation(events, c, now, r, m);
    }
    hide VarianceShare, PartSum, Mean, SumBy, Deviation;
  }

  lemma PartDeviation(events: seq<TrustEvent>, c: EventType, now: int, r: real, m: real)
    ensures SumBy(Deviation(InCategory(c), WeightAt(now, r), m), events)
         == PartSum(events, Deviation(One(), WeightAt(now, r), m))(c)
  {
    hide EffectiveWeight, SumBy;
    SumByCong(Deviation(InCategory(c), WeightAt(now, r), m),
              Product(InCategory(c), Deviation(One(), WeightAt(now, r), m)), events);
  }

  lemma ShareIsNonNegative(events: seq<TrustEvent>, c: EventType, now: int, r: real)
    ensures VarianceShare(events, now, r)(c) >= CategoryCountOf(events, c) * CategoryVariance(events, c, now, r) >= 0.0
  {
    CountIsNonNegative(events, c);
    VarianceNonNegative(InCategory(c), WeightAt(now, r), events);
    hide CategoryVariance, CategoryCountOf, MeanGap;
    ShareArithmetic(CategoryCountOf(events, c), CategoryVariance(events, c, now, r), MeanGap(events, c, now, r));
  }

  lemma ShareArithmetic(n: real, v: real, g: real)
    requires n >= 0.0 && v >= 0.0
    ensures n * (v + g * g) >= n * v >= 0.0
  {
    assert g * g >= 0.0;
    assert n * (g * g) >= 0.0;
  }

  /** A category that fires its own threshold and holds at least half of more
      than three events also fires the overall threshold. */
  lemma MajorityCategoryFiresOverall(events: seq<TrustEvent>, c: EventType, now: int, r: real)
    requires |events| > 3
    requires 2.0 * CategoryCountOf(events, c) >= |events| as real
    requires CategoryVariance(events, c, now, r) > 200.0
    ensures OverallVariance(events, now, r) > 100.0
  {
    hide CategoryVariance, OverallVariance, CategoryCountOf, VarianceShare;
    PooledVariance(events, now, r);
    forall t ensures VarianceShare(events, now, r)(t) >= 0.0 {
      ShareIsNonNegative(events, t, now, r);
    }
    ShareIsNonNegative(events, c, now, r);
    OverTypesAtLeast(VarianceShare(events, now, r), c);
    MajorityArithmetic(|events| as real, CategoryCountOf(events, c), CategoryVariance(events, c, now, r),
                       OverallVariance(events, now, r));
  }

  lemma OverTypesAtLeast(f: EventType -> real, c: EventType)
    requires forall t :: f(t) >= 0.0
    ensures OverTypes(f) >= f(c)
  {
  }

  lemma MajorityArithmetic(n: real, k: real, v: real, overall: real)
    requires n > 0.0 && 2.0 * k >= n && v > 200.0
    requires n * overall >= k * v
    ensures overall > 100.0
  {
    AtMostTimes(200.0, v, k);
    if overall <= 100.0 {
      AtMostTimes(overall, 100.0, n);
      assert false;
    }
  }

  lemma AtMostTimes(a: real, b: real, n: real)
    requires n > 0.0 && a <= b
    ensures n * a <= n * b
    ensures a < b ==> n * a < n * b
  {
    assert n * (b - a) == n * b - n * a;
  }

  // ---------------------------------------------------------------------------
  // Ledgers that are never flagged
  // ---------------------------------------------------------------------------

  lemma {:induction false} PowerInUnitInterval(r: real, n: nat)
    requires 0.0 < r < 1.0
    ensures 0.0 < Power(r, n) <= 1.0
  {
    if n > 0 {
      PowerInUnitInterval(r, n - 1);
      ProductInRange(1.0, r, Power(r, n - 1));
    }
  }

  lemma ProductInRange(w: real, a: real, b: real)
    requires w >= 0.0 && 0.0 <= a <= 1.0 && 0.0 <= b <= 1.0
    ensures 0.0 <= w * a <= w
    ensures 0.0 <= w * a * b <= w
    ensures w > 0.0 && a > 0.0 && b > 0.0 ==> w * a * b > 0.0
  {
    assert 0.0 <= w * a <= w;
    assert 0.0 <= (w * a) * b <= w * a;
  }

  lemma DecayedInRange(w: real, a: real, b: real, v: real)
    requires w >= 0.0 && 0.0 <= a <= 1.0 && 0.0 <= b <= 1.0 && v == w * a * b
    ensures 0.0 <= v <= w
  {
    ProductInRange(w, a, b);
  }

  /** Events of positive weight at most `bound`, none of them a lost dispute or a
      confirmed fraud report. */
  ghost predicate PositiveLedger(events: seq<TrustEvent>, bound: real) {
    forall i :: 0 <= i < |events| ==>
      && 0.0 < events[i].weight <= bound
      && events[i].eventType != DisputeResolvedAgainst
      && events[i].eventType != FraudReportConfirmed
  }

  lemma PositiveWeightInRange(e: TrustEvent, bound: real, now: int, r: real)
    requires 0.0 < r < 1.0 && 0.0 < e.weight <= bound
    ensures 0.0 <= EffectiveWeight(e, now, r) <= bound
  {
    if now - e.occurredAt >= 0 {
      PowerInUnitInterval(r, now - e.occurredAt);
    }
    var a, b := RecencyWeight(e.occurredAt, now, r), ReviewerFactor(e);
    assert 0.0 <= a <= 1.0 && 0.0 <= b <= 1.0;
    DecayedInRange(e.weight, a, b, EffectiveWeight(e, now, r));
  }

  /** No ledger of positive events of weight at most 20 is flagged, at any time. */
  lemma PositiveLedgerIsNotFlagged(events: seq<TrustEvent>, now: int, r: real)
    requires 0.0 < r < 1.0 && PositiveLedger(events, 20.0)
    ensures !TrustScoreOf(events, now, r).flaggedForReview
  {
    forall e | e in events ensures 0.0 <= WeightAt(now, r)(e) <= 20.0 {
      PositiveWeightInRange(e, 20.0, now, r);
    }
    forall c ensures CategoryVariance(events, c, now, r) <= 100.0 {
      VarianceWithinRange(InCategory(c), WeightAt(now, r), 0.0, 20.0, events);
    }
    VarianceWithinRange(One(), WeightAt(now, r), 0.0, 20.0, events);
  }

  /** Two reviews that count in full and two that do not count at all. */
  function SplitReviews(w: real, now: int): seq<TrustEvent> {
    var full := TrustEvent(ReviewReceived, w, now, Some(1.0));
    var none := TrustEvent(ReviewReceived, w, now, Some(0.0));
    [full, full, none, none]
  }

  lemma SumOfFour<T>(f: T -> real, a: T, b: T, c: T, d: T)
    ensures SumBy(f, [a, b, c, d]) == f(a) + f(b) + f(c) + f(d)
  {
    assert [a, b, c, d] == [] + [a] + [b] + [c] + [d];
    SumByAppend(f, [], a);
    SumByAppend(f, [] + [a], b);
    SumByAppend(f, [] + [a] + [b], c);
    SumByAppend(f, [] + [a] + [b] + [c], d);
  }

  lemma SplitReviewVariance(w: real, now: int, r: real)
    requires w > 0.0
    ensures OverallVariance(SplitReviews(w, now), now, r) == w * w / 4.0
  {
    var s, x := SplitReviews(w, now), WeightAt(now, r);
    var m := Mean(One(), x, s);
    SumOfFour(One(), s[0], s[1], s[2], s[3]);
    SumOfFour(Product(One(), x), s[0], s[1], s[2], s[3]);
    SumOfFour(Deviation(One(), x, m), s[0], s[1], s[2], s[3]);
    hide SumBy;
    assert x(s[0]) == x(s[1]) == w && x(s[2]) == x(s[3]) == 0.0;
    assert m == w / 2.0;
    assert Deviation(One(), x, m)(s[0]) == Deviation(One(), x, m)(s[2]) == w * w / 4.0;
  }

  /** The bound 20 is exact: it is the largest weight for which positive ledgers
      are never flagged. */
  lemma PositiveWeightBoundIsExact(bound: real, now: int, r: real)
    requires 0.0 < r < 1.0
    ensures (forall events :: PositiveLedger(events, bound) ==> !TrustScoreOf(events, now, r).flaggedForReview)
       <==> bound <= 20.0
  {
    if bound <= 20.0 {
      forall events | PositiveLedger(events, bound) ensures !TrustScoreOf(events, now, r).flaggedForReview {
        assert PositiveLedger(events, 20.0);
        PositiveLedgerIsNotFlagged(events, now, r);
      }
    } else {
      var s := SplitReviews(bound, now);
      SplitReviewVariance(bound, now, r);
      assert bound * bound > 400.0;
      assert PositiveLedger(s, bound);
      assert TrustScoreOf(s, now, r).flaggedForReview;
    }
  }

  // ---------------------------------------------------------------------------
  // The two recompute paths
  // ---------------------------------------------------------------------------

  /** The order in which the ledger is read changes nothing. */
  lemma ScoreIgnoresOrder(a: seq<TrustEvent>, b: seq<TrustEvent>, now: int, r: real)
    requires multiset(a) == multiset(b)
    ensures TrustScoreOf(a, now, r) == TrustScoreOf(b, now, r)
  {
    SumByPermutation(WeightAt(now, r), a, b);
    SameElements(a, b);
    forall c
      ensures CategoryWeight(a, c, now, r) == CategoryWeight(b, c, now, r)
      ensures CategoryVariance(a, c, now, r) == CategoryVariance(b, c, now, r)
    {
      SumByPermutation(Product(InCategory(c), WeightAt(now, r)), a, b);
      VariancePermutation(InCategory(c), WeightAt(now, r), a, b);
    }
    VariancePermutation(One(), WeightAt(now, r), a, b);
    hide CategoryWeight, CategoryVariance, OverallVariance, SumBy;
    RecentDisputeByElement(a, now);
    RecentDisputeByElement(b, now);
    assert |multiset(a)| == |multiset(b)|;
  }

  lemma SameElements(a: seq<TrustEvent>, b: seq<TrustEvent>)
    requires multiset(a) == multiset(b)
    ensures forall e :: e in a <==> e in b
    ensures Categories(a) == Categories(b)
  {
    forall e ensures e in a <==> e in b {
      assert e in multiset(a) <==> e in multiset(b);
    }
  }

  lemma RecentDisputeByElement(a: seq<TrustEvent>, now: int)
    ensures HasRecentDispute(a, now) <==> exists e :: e in a && IsRecentDispute(e, now)
  {
  }

  /** The worker reads the ledger without the reviewer factor. */
  function Erased(e: TrustEvent): TrustEvent {
    e.(reviewerTrustFactor := None)
  }

  function WithoutFactors(events: seq<TrustEvent>): seq<TrustEvent> {
    seq(|events|, i requires 0 <= i < |events| => Erased(events[i]))
  }

  /** A factor that leaves the weight alone: absent, on another type, or at least 1. */
  predicate NeutralFactor(e: TrustEvent) {
    e.eventType == ReviewReceived && e.reviewerTrustFactor.Some? ==> e.reviewerTrustFactor.value >= 1.0
  }

  /** Exactly when dropping the factor of an event changes nothing. */
  lemma ErasedWeight(e: TrustEvent, now: int, r: real)
    requires 0.0 < r < 1.0
    ensures EffectiveWeight(Erased(e), now, r) == EffectiveWeight(e, now, r)
       <==> NeutralFactor(e) || now < e.occurredAt
  {
    var w, f := BaseWeight(e) * RecencyWeight(e.occurredAt, now, r), ReviewerFactor(e);
    assert EffectiveWeight(e, now, r) == w * f;
    assert EffectiveWeight(Erased(e), now, r) == w * 1.0;
    assert NeutralFactor(e) <==> f == 1.0;
    if now >= e.occurredAt {
      PowerInUnitInterval(r, now - e.occurredAt);
      NonZeroProduct(BaseWeight(e), Power(r, now - e.occurredAt));
      hide *;
      NonUnitFactor(w, f);
    }
  }

  lemma NonZeroProduct(a: real, b: real)
    requires a != 0.0 && b > 0.0
    ensures a * b != 0.0
  {
  }

  lemma NonUnitFactor(w: real, f: real)
    requires w != 0.0
    ensures w * 1.0 == w * f <==> f == 1.0
  {
    assert w * f - w == w * (f - 1.0);
  }

  lemma {:induction false} ErasedSum(events: seq<TrustEvent>, f: TrustEvent -> real)
    requires forall e :: e in events ==> f(Erased(e)) == f(e)
    ensures SumBy(f, WithoutFactors(events)) == SumBy(f, events)
  {
    if |events| > 0 {
      var prefix := events[..|events| - 1];
      ErasedSum(prefix, f);
      assert WithoutFactors(events)[..|events| - 1] == WithoutFactors(prefix);
    } else {
      assert WithoutFactors(events) == [];
    }
  }

  lemma ErasedVariance(events: seq<TrustEvent>, sel: TrustEvent -> real, x: TrustEvent -> real)
    requires forall e :: e in events ==> sel(Erased(e)) == sel(e) && x(Erased(e)) == x(e)
    ensures Variance(sel, x, WithoutFactors(events)) == Variance(sel, x, events)
  {
    ErasedSum(events, sel);
    ErasedSum(events, Product(sel, x));
    ErasedSum(events, Deviation(sel, x, Mean(sel, x, events)));
  }

  lemma ErasedCategories(events: seq<TrustEvent>)
    ensures Categories(WithoutFactors(events)) == Categories(events)
  {
    var e' := WithoutFactors(events);
    forall c ensures c in Categories(e') <==> c in Categories(events) {
      if c in Categories(e') {
        var i :| 0 <= i < |e'| && e'[i].eventType == c;
        assert events[i].eventType == c;
      }
      if c in Categories(events) {
        var i :| 0 <= i < |events| && events[i].eventType == c;
        assert e'[i].eventType == c;
      }
    }
  }

  lemma ErasedDisputes(events: seq<TrustEvent>, now: int)
    ensures HasRecentDispute(WithoutFactors(events), now) == HasRecentDispute(events, now)
  {
    var e' := WithoutFactors(events);
    forall i | 0 <= i < |events| ensures IsRecentDispute(e'[i], now) == IsRecentDispute(events[i], now) {
    }
  }

  lemma ScoreIgnoresNeutralFactors(events: seq<TrustEvent>, now: int, r: real)
    requires 0.0 < r < 1.0
    requires forall e :: e in events ==> NeutralFactor(e)
    ensures TrustScoreOf(WithoutFactors(events), now, r) == TrustScoreOf(events, now, r)
  {
    var x := WeightAt(now, r);
    forall e | e in events ensures x(Erased(e)) == x(e) {
      ErasedWeight(e, now, r);
    }
    hide EffectiveWeight;
    ErasedSum(events, x);
    ErasedCategories(events);
    forall c
      ensures CategoryWeight(WithoutFactors(events), c, now, r) == CategoryWeight(events, c, now, r)
      ensures CategoryVariance(WithoutFactors(events), c, now, r) == CategoryVariance(events, c, now, r)
    {
      ErasedSum(events, Product(InCategory(c), x));
      ErasedVariance(events, InCategory(c), x);
    }
    ErasedVariance(events, One(), x);
    ErasedDisputes(events, now);
    hide CategoryWeight, CategoryVariance, OverallVariance, SumBy, HasRecentDispute;
  }

  /** The worker (ascending, no factor) and the service (descending, with factor)
      compute the same score, breakdown and flag from the same rows, as long as
      every stored factor is neutral. */
  lemma RecomputePathsAgree(ascending: seq<TrustEvent>, descending: seq<TrustEvent>, now: int, r: real)
    requires 0.0 < r < 1.0
    requires multiset(ascending) == multiset(descending)
    requires forall e :: e in ascending ==> NeutralFactor(e)
    ensures TrustScoreOf(WithoutFactors(ascending), now, r) == TrustScoreOf(descending, now, r)
  {
    ScoreIgnoresNeutralFactors(ascending, now, r);
    ScoreIgnoresOrder(ascending, descending, now, r);
  }

  // ---------------------------------------------------------------------------
  // Stored weights that are never read
  // ---------------------------------------------------------------------------

  /** The same ledger up to the values of its non-positive weights. */
  ghost predicate SameUpToNonPositiveWeights(a: seq<TrustEvent>, b: seq<TrustEvent>) {
    && |a| == |b|
    && forall i :: 0 <= i < |a| ==>
         a[i] == b[i] || (a[i].weight <= 0.0 && b[i].weight <= 0.0 && a[i] == b[i].(weight := a[i].weight))
  }

  lemma {:induction false} SumBySamePoints(a: seq<TrustEvent>, b: seq<TrustEvent>, f: TrustEvent -> real)
    requires |a| == |b| && forall i :: 0 <= i < |a| ==> f(a[i]) == f(b[i])
    ensures SumBy(f, a) == SumBy(f, b)
  {
    if |a| > 0 {
      SumBySamePoints(a[..|a| - 1], b[..|b| - 1], f);
    }
  }

  lemma VarianceSamePoints(a: seq<TrustEvent>, b: seq<TrustEvent>, sel: TrustEvent -> real, x: TrustEvent -> real)
    requires |a| == |b| && forall i :: 0 <= i < |a| ==> sel(a[i]) == sel(b[i]) && x(a[i]) == x(b[i])
    ensures Variance(sel, x, a) == Variance(sel, x, b)
  {
    var m := Mean(sel, x, a);
    SumBySamePoints(a, b, sel);
    forall i | 0 <= i < |a|
      ensures Product(sel, x)(a[i]) == Product(sel, x)(b[i]) && Deviation(sel, x, m)(a[i]) == Deviation(sel, x, m)(b[i])
    {
      SamePoint(sel, x, m, a[i], b[i]);
    }
    hide SumBy, Product, Deviation;
    SumBySamePoints(a, b, Product(sel, x));
    SumBySamePoints(a, b, Deviation(sel, x, m));
  }

  lemma SamePoint(sel: TrustEvent -> real, x: TrustEvent -> real, m: real, a: TrustEvent, b: TrustEvent)
    requires sel(a) == sel(b) && x(a) == x(b)
    ensures Product(sel, x)(a) == Product(sel, x)(b) && Deviation(sel, x, m)(a) == Deviation(sel, x, m)(b)
  {
  }

  /** Penalties of any stored size count the same: a non-positive weight is
      always replaced by the default of its type. */
  lemma PenaltySizesAreIgnored(a: seq<TrustEvent>, b: seq<TrustEvent>, now: int, r: real)
    requires SameUpToNonPositiveWeights(a, b)
    ensures TrustScoreOf(a, now, r) == TrustScoreOf(b, now, r)
  {
    var x := WeightAt(now, r);
    forall i | 0 <= i < |a| ensures x(a[i]) == x(b[i]) {
      hide RecencyWeight;
    }
    hide EffectiveWeight;
    SumBySamePoints(a, b, x);
    forall c
      ensures CategoryWeight(a, c, now, r) == CategoryWeight(b, c, now, r)
      ensures CategoryVariance(a, c, now, r) == CategoryVariance(b, c, now, r)
    {
      SumBySamePoints(a, b, Product(InCategory(c), x));
      VarianceSamePoints(a, b, InCategory(c), x);
    }
    VarianceSamePoints(a, b, One(), x);
    forall i | 0 <= i < |a|
      ensures a[i].eventType == b[i].eventType && IsRecentDispute(a[i], now) == IsRecentDispute(b[i], now)
    {
    }
    SameCategories(a, b);
    hide CategoryWeight, CategoryVariance, OverallVariance, SumBy;
  }

  /** Filing a fraud report counts against the reporter exactly like a report that
      was confirmed against them, and gets them flagged for the next 180 days. */
  lemma FiledReportCountsAsConfirmed(events: seq<TrustEvent>, filed: TrustEvent, now: int, r: real)
    requires filed.eventType == FraudReportConfirmed && filed.weight == -10.0
    ensures TrustScoreOf(events + [filed], now, r) == TrustScoreOf(events + [filed.(weight := -60.0)], now, r)
    ensures now - filed.occurredAt < HALF_LIFE_MS ==> TrustScoreOf(events + [filed], now, r).flaggedForReview
  {
    PenaltySizesAreIgnored(events + [filed], events + [filed.(weight := -60.0)], now, r);
    hide Breakdown, VarianceFlag, ScoreOfTotal, TotalWeight;
    RecentDisputeByElement(events + [filed], now);
    assert filed in events + [filed];
  }

  lemma SameCategories(a: seq<TrustEvent>, b: seq<TrustEvent>)
    requires |a| == |b| && forall i :: 0 <= i < |a| ==> a[i].eventType == b[i].eventType
    ensures Categories(a) == Categories(b)
  {
    forall c ensures c in Categories(a) <==> c in Categories(b) {
      if c in Categories(a) {
        var i :| 0 <= i < |a| && a[i].eventType == c;
        assert b[i].eventType == c;
      }
      if c in Categories(b) {
        var i :| 0 <= i < |b| && b[i].eventType == c;
        assert a[i].eventType == c;
      }
    }
  }

  // ---------------------------------------------------------------------------
  // Time
  // ---------------------------------------------------------------------------

  lemma {:induction false} PowerAdd(r: real, m: nat, n: nat)
    ensures Power(r, m + n) == Power(r, n) * Power(r, m)
  {
    if n > 0 {
      PowerAdd(r, m, n - 1);
      assert r * (Power(r, n - 1) * Power(r, m)) == (r * Power(r, n - 1)) * Power(r, m);
    }
  }

  lemma RecencyDecays(occurredAt: int, now: int, d: nat, r: real)
    requires occurredAt <= now
    ensures RecencyWeight(occurredAt, now + d, r) == Power(r, d) * RecencyWeight(occurredAt, now, r)
  {
    hide Power;
    var age := now - occurredAt;
    PowerAdd(r, age, d);
    assert RecencyWeight(occurredAt, now, r) == Power(r, age);
    assert RecencyWeight(occurredAt, now + d, r) == Power(r, age + d);
  }

  lemma WeightDecays(e: TrustEvent, now: int, d: nat, r: real)
    requires e.occurredAt <= now
    ensures EffectiveWeight(e, now + d, r) == Power(r, d) * EffectiveWeight(e, now, r)
  {
    hide BaseWeight, RecencyWeight, ReviewerFactor, Power;
    RecencyDecays(e.occurredAt, now, d, r);
    DecayArithmetic(BaseWeight(e), RecencyWeight(e.occurredAt, now, r), Power(r, d), ReviewerFactor(e));
  }

  lemma DecayArithmetic(b: real, p: real, q: real, f: real)
    ensures b * (q * p) * f == q * (b * p * f)
  {
  }

  ghost predicate NoFutureEvents(events: seq<TrustEvent>, now: int) {
    forall e :: e in events ==> e.occurredAt <= now
  }

  /** With no new and no future events the total decays exponentially. */
  lemma TotalDecays(events: seq<TrustEvent>, now: int, d: nat, r: real)
    requires NoFutureEvents(events, now)
    ensures TotalWeight(events, now + d, r) == Power(r, d) * TotalWeight(events, now, r)
  {
    hide EffectiveWeight, SumBy, Power;
    forall e | e in events ensures WeightAt(now + d, r)(e) == Power(r, d) * WeightAt(now, r)(e) {
      WeightDecays(e, now, d, r);
    }
    SumByScale(Power(r, d), WeightAt(now, r), WeightAt(now + d, r), events);
  }

  lemma TotalHalves(events: seq<TrustEvent>, now: int, r: real)
    requires DecayRate(r) && NoFutureEvents(events, now)
    ensures TotalWeight(events, now + HALF_LIFE_MS, r) == TotalWeight(events, now, r) / 2.0
  {
    TotalDecays(events, now, HALF_LIFE_MS, r);
  }

  lemma ScoreIsMonotone(a: real, b: real)
    requires a <= b
    ensures ScoreOfTotal(a) <= ScoreOfTotal(b)
  {
  }

  lemma ShrinkTowardZero(k: real, t: real, t': real)
    requires 0.0 < k <= 1.0 && t' == k * t
    ensures t >= 0.0 ==> 0.0 <= t' <= t
    ensures t <= 0.0 ==> t <= t' <= 0.0
  {
  }

  /** Left alone, a score never moves away from 50 and never crosses it. */
  lemma ScoreRelaxesTowardNeutral(events: seq<TrustEvent>, now: int, d: nat, r: real)
    requires 0.0 < r < 1.0 && NoFutureEvents(events, now)
    ensures var before, later := TrustScoreOf(events, now, r).score, TrustScoreOf(events, now + d, r).score;
            (before >= 50 ==> 50 <= later <= before) && (before <= 50 ==> before <= later <= 50)
  {
    var t := TotalWeight(events, now, r);
    TotalDecays(events, now, d, r);
    PowerInUnitInterval(r, d);
    hide TotalWeight, Breakdown, VarianceFlag, HasRecentDispute, Power;
    var t' := TotalWeight(events, now + d, r);
    ShrinkTowardZero(Power(r, d), t, t');
    assert ScoreOfTotal(0.0) == 50;
    if t >= 0.0 {
      ScoreIsMonotone(0.0, t');
      ScoreIsMonotone(t', t);
    } else {
      ScoreIsMonotone(t', 0.0);
      ScoreIsMonotone(t, t');
    }
  }

  /** With no new and no future events every variance decays with the square of the
      factor of the weights. */
  lemma VariancesDecay(events: seq<TrustEvent>, c: EventType, now: int, d: nat, r: real)
    requires NoFutureEvents(events, now)
    ensures CategoryVariance(events, c, now + d, r) == (Power(r, d) * Power(r, d)) * CategoryVariance(events, c, now, r)
    ensures OverallVariance(events, now + d, r) == (Power(r, d) * Power(r, d)) * OverallVariance(events, now, r)
  {
    hide EffectiveWeight, Power, Variance;
    forall e | e in events ensures WeightAt(now + d, r)(e) == Power(r, d) * WeightAt(now, r)(e) {
      WeightDecays(e, now, d, r);
    }
    var k2 := Power(r, d) * Power(r, d);
    VarianceScales(InCategory(c), WeightAt(now, r), WeightAt(now + d, r), Power(r, d), k2, events);
    VarianceScales(One(), WeightAt(now, r), WeightAt(now + d, r), Power(r, d), k2, events);
  }

  lemma ProductShrinks(k: real, v: real, kv: real)
    requires k <= 1.0 && v >= 0.0 && kv == k * v
    ensures kv <= v
  {
    assert v - kv == (1.0 - k) * v;
  }

  lemma SquareShrinks(k: real, k2: real, v: real, v': real)
    requires 0.0 < k <= 1.0 && v >= 0.0 && k2 == k * k && v' == k2 * v
    ensures v' <= v
  {
    ProductShrinks(k, k, k2);
    ProductShrinks(k2, v, v');
  }

  lemma VariancesShrink(events: seq<TrustEvent>, c: EventType, now: int, d: nat, r: real)
    requires 0.0 < r < 1.0 && NoFutureEvents(events, now)
    ensures CategoryVariance(events, c, now + d, r) <= CategoryVariance(events, c, now, r)
    ensures OverallVariance(events, now + d, r) <= OverallVariance(events, now, r)
  {
    VarianceNonNegative(InCategory(c), WeightAt(now, r), events);
    VarianceNonNegative(One(), WeightAt(now, r), events);
    PowerInUnitInterval(r, d);
    VariancesDecay(events, c, now, d, r);
    var v, v' := CategoryVariance(events, c, now, r), CategoryVariance(events, c, now + d, r);
    var o, o' := OverallVariance(events, now, r), OverallVariance(events, now + d, r);
    hide *;
    var k := Power(r, d);
    SquareShrinks(k, k * k, v, v');
    SquareShrinks(k, k * k, o, o');
  }

  /** Left alone, a ledger that is not flagged for review never becomes so. */
  lemma UnflaggedStaysUnflagged(events: seq<TrustEvent>, now: int, d: nat, r: real)
    requires 0.0 < r < 1.0 && NoFutureEvents(events, now)
    requires !TrustScoreOf(events, now, r).flaggedForReview
    ensures !TrustScoreOf(events, now + d, r).flaggedForReview
  {
    hide CategoryVariance, OverallVariance, Breakdown, TotalWeight, ScoreOfTotal;
    forall c
      ensures CategoryVariance(events, c, now + d, r) <= CategoryVariance(events, c, now, r)
      ensures OverallVariance(events, now + d, r) <= OverallVariance(events, now, r)
    {
      VariancesShrink(events, c, now, d, r);
    }
    VariancesShrink(events, ReviewReceived, now, d, r);
    forall i | 0 <= i < |events| ensures !IsRecentDispute(events[i], now + d) {
      assert !IsRecentDispute(events[i], now);
    }
  }
}
