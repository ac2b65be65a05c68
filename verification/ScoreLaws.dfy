/**
  What single events do to a trust score, in plain numbers: which way each event
  moves it, what a ledger of fresh events of one type is worth, how far a reviewer's
  own standing scales a review, and which small ledgers are flagged.
 */
module ScoreLaws {
  import opened Wrappers
  import opened Sums
  import opened Statistics
  import opened TrustScore
  import opened TrustScoreProperties

  predicate IsPenalty(t: EventType) {
    t == DisputeResolvedFor || t == DisputeResolvedAgainst || t == FraudReportConfirmed
  }

  // ---------------------------------------------------------------------------
  // Direction
  // ---------------------------------------------------------------------------

  lemma SignOfProduct(w: real, a: real, b: real)
    requires a >= 0.0 && b >= 0.0
    ensures w >= 0.0 ==> w * a * b >= 0.0
    ensures w <= 0.0 ==> w * a * b <= 0.0
  {
    assert a * b >= 0.0;
    assert w * a * b == w * (a * b);
  }

  lemma WeightSign(e: TrustEvent, now: int, r: real)
    requires 0.0 < r < 1.0
    ensures e.weight <= 0.0 && IsPenalty(e.eventType) ==> EffectiveWeight(e, now, r) <= 0.0
    ensures e.weight > 0.0 || !IsPenalty(e.eventType) ==> EffectiveWeight(e, now, r) >= 0.0
  {
    if now >= e.occurredAt {
      PowerInUnitInterval(r, now - e.occurredAt);
    }
    var a, f := RecencyWeight(e.occurredAt, now, r), ReviewerFactor(e);
    assert a >= 0.0 && f >= 0.0;
    SignOfProduct(BaseWeight(e), a, f);
  }

  /** A penalty row without a positive weight never raises a score; every other row
      never lowers it. */
  lemma DirectionOfEvent(events: seq<TrustEvent>, e: TrustEvent, now: int, r: real)
    requires 0.0 < r < 1.0
    ensures var before, after := TrustScoreOf(events, now, r).score, TrustScoreOf(events + [e], now, r).score;
            if e.weight <= 0.0 && IsPenalty(e.eventType) then after <= before else before <= after
  {
    WeightSign(e, now, r);
    TotalStep(events, e, now, r);
    hide TotalWeight, EffectiveWeight, Breakdown, VarianceFlag, HasRecentDispute;
    var t, t' := TotalWeight(events, now, r), TotalWeight(events + [e], now, r);
    if t <= t' {
      ScoreIsMonotone(t, t');
    }
    if t' <= t {
      ScoreIsMonotone(t', t);
    }
  }

  // ---------------------------------------------------------------------------
  // Fresh ledgers
  // ---------------------------------------------------------------------------

  /** Rows of one type written just now, without a weight of their own. */
  ghost predicate Fresh(events: seq<TrustEvent>, t: EventType, now: int) {
    forall e :: e in events ==>
      e.eventType == t && e.weight <= 0.0 && e.occurredAt == now && e.reviewerTrustFactor == None
  }

  function Max0(v: int): int {
    if v < 0 then 0 else v
  }

  function Min100(v: int): int {
    if v > 100 then 100 else v
  }

  /** The score of k such rows, by type. */
  function FreshScore(t: EventType, k: nat): int {
    match t
    case FraudReportConfirmed => Max0(50 - 15 * k)
    case DisputeResolvedAgainst => Max0((101 - 15 * k) / 2)
    case DisputeResolvedFor => Max0((202 - 15 * k) / 4)
    case IdentityVerified => Min100((202 + 15 * k) / 4)
    case ReviewReceived => Min100((101 + 5 * k) / 2)
    case BookingCompleted => Min100(50 + 5 * k)
  }

  lemma {:induction false} SumOfEqual(events: seq<TrustEvent>, f: TrustEvent -> real, w: real)
    requires forall e :: e in events ==> f(e) == w
    ensures SumBy(f, events) == |events| as real * w
  {
    if |events| > 0 {
      SumOfEqual(events[..|events| - 1], f, w);
      OneMore((|events| - 1) as real, w, |events| as real);
    }
  }

  lemma OneMore(k: real, w: real, n: real)
    requires n == k + 1.0
    ensures n * w == k * w + w
  {
  }

  lemma FloorOfQuarter(n: int, v: real)
    requires 4.0 * v == n as real
    ensures v.Floor == n / 4
  {
    assert (4 * (n / 4)) as real <= 4.0 * v < (4 * (n / 4) + 4) as real;
  }

  lemma ScoreOfQuarters(total: real, n: int)
    requires total == n as real
    ensures ScoreOfTotal(total) == if n > 200 then 100 else if n < -200 then 0 else (202 + n) / 4
  {
    if -200 <= n <= 200 {
      FloorOfQuarter(202 + n, 50.0 + total / 200.0 * 50.0 + 0.5);
    }
  }

  /** Four times the points one such row is worth. */
  function Quarters(t: EventType): int {
    match t
    case FraudReportConfirmed => -60
    case DisputeResolvedAgainst => -30
    case DisputeResolvedFor => -15
    case IdentityVerified => 15
    case ReviewReceived => 10
    case BookingCompleted => 20
  }

  lemma FreshTotal(events: seq<TrustEvent>, t: EventType, now: int, r: real)
    requires Fresh(events, t, now)
    ensures TotalWeight(events, now, r) == (Quarters(t) * |events|) as real
  {
    forall e | e in events ensures WeightAt(now, r)(e) == Quarters(t) as real {
    }
    hide Quarters;
    SumOfEqual(events, WeightAt(now, r), Quarters(t) as real);
  }

  /** Exactly what k fresh rows of each type are worth. */
  lemma FreshLedgerScore(events: seq<TrustEvent>, t: EventType, now: int, r: real)
    requires Fresh(events, t, now)
    ensures TrustScoreOf(events, now, r).score == FreshScore(t, |events|)
  {
    FreshTotal(events, t, now, r);
    hide Fresh, Breakdown, VarianceFlag, HasRecentDispute, TotalWeight, ScoreOfTotal;
    ScoreOfQuarters(TotalWeight(events, now, r), Quarters(t) * |events|);
  }

  /** With a positive weight of their own, k fresh rows are worth k * w / 4 points
      above 50, whatever their type. */
  lemma FreshRewardsScore(events: seq<TrustEvent>, w: nat, now: int, r: real)
    requires w > 0
    requires forall e :: e in events ==>
               e.weight == w as real && e.occurredAt == now && e.reviewerTrustFactor == None
    ensures TrustScoreOf(events, now, r).score == Min100((202 + w * |events|) / 4)
  {
    forall e | e in events ensures WeightAt(now, r)(e) == w as real {
    }
    SumOfEqual(events, WeightAt(now, r), w as real);
    hide Breakdown, VarianceFlag, HasRecentDispute, SumBy, ScoreOfTotal;
    ScoreOfQuarters(TotalWeight(events, now, r), w * |events|);
  }

  // ---------------------------------------------------------------------------
  // Parts of a ledger
  // ---------------------------------------------------------------------------

  function Only(events: seq<TrustEvent>, c: EventType): seq<TrustEvent> {
    if |events| == 0 then []
    else
      var e := events[|events| - 1];
      Only(events[..|events| - 1], c) + (if e.eventType == c then [e] else [])
  }

  /** The breakdown entry of a type is the total of the rows of that type alone. */
  lemma {:induction false} BreakdownEntry(events: seq<TrustEvent>, c: EventType, now: int, r: real)
    ensures CategoryWeight(events, c, now, r) == TotalWeight(Only(events, c), now, r)
    ensures c in Categories(events) ==>
              TrustScoreOf(events, now, r).breakdown[c] == TotalWeight(Only(events, c), now, r)
  {
    if |events| > 0 {
      var prefix, e := events[..|events| - 1], events[|events| - 1];
      assert events == prefix + [e];
      BreakdownEntry(prefix, c, now, r);
      CategoryWeightStep(prefix, e, c, now, r);
      TotalStep(Only(prefix, c), e, now, r);
      assert Only(prefix, c) + [] == Only(prefix, c);
    }
  }

  /** A review counts in proportion to the reviewer's factor, cut off at 0 and 1; no
      other event reads the factor. */
  lemma ReviewerFactorScales(e: TrustEvent, f: real, now: int, r: real)
    requires e.reviewerTrustFactor == None
    ensures var full, scaled := TotalWeight([e], now, r), TotalWeight([e.(reviewerTrustFactor := Some(f))], now, r);
            scaled ==
              if e.eventType != ReviewReceived || f >= 1.0 then full else if f <= 0.0 then 0.0 else f * full
  {
    var e' := e.(reviewerTrustFactor := Some(f));
    SumByAppend(WeightAt(now, r), [], e);
    SumByAppend(WeightAt(now, r), [], e');
    assert [] + [e] == [e] && [] + [e'] == [e'];
    hide Power, SumBy;
    Scaled(BaseWeight(e) * RecencyWeight(e.occurredAt, now, r), f);
  }

  lemma Scaled(w: real, f: real)
    ensures w * 1.0 == w && w * 0.0 == 0.0 && w * f == f * w
  {
  }

  // ---------------------------------------------------------------------------
  // Small ledgers
  // ---------------------------------------------------------------------------

  lemma LoneCategory(events: seq<TrustEvent>, c: EventType, now: int, r: real)
    requires |CategoryValues(events, c, now, r)| <= 1
    ensures CategoryVariance(events, c, now, r) == 0.0
  {
    var values := CategoryValues(events, c, now, r);
    CategoryVarianceOfValues(events, c, now, r);
    if |values| == 1 {
      ValueMoments(values);
    }
  }

  lemma {:induction false} LoneValue(events: seq<TrustEvent>, c: EventType, now: int, r: real)
    requires forall i, j :: 0 <= i < j < |events| ==> events[i].eventType != events[j].eventType
    ensures |CategoryValues(events, c, now, r)| <= if c in Categories(events) then 1 else 0
  {
    if |events| > 0 {
      var prefix, e := events[..|events| - 1], events[|events| - 1];
      LoneValue(prefix, c, now, r);
      assert events[|events| - 1].eventType in Categories(events);
      if c in Categories(prefix) {
        var i :| 0 <= i < |prefix| && prefix[i].eventType == c;
        assert events[i].eventType == c;
      }
    }
  }

  /** At most three events, all of different types, are flagged exactly when one of
      them is a lost dispute or a confirmed report of the last 180 days. */
  lemma SmallLedgerFlag(events: seq<TrustEvent>, now: int, r: real)
    requires |events| <= 3
    requires forall i, j :: 0 <= i < j < |events| ==> events[i].eventType != events[j].eventType
    ensures TrustScoreOf(events, now, r).flaggedForReview <==>
              exists e :: e in events && (e.eventType == DisputeResolvedAgainst || e.eventType == FraudReportConfirmed)
                          && now - e.occurredAt < 15_552_000_000
  {
    forall c ensures CategoryVariance(events, c, now, r) == 0.0 {
      LoneValue(events, c, now, r);
      LoneCategory(events, c, now, r);
    }
    hide CategoryVariance, OverallVariance, Breakdown, TotalWeight, ScoreOfTotal;
    RecentDisputeByElement(events, now);
  }

  lemma TwoValueVariance(a: real, b: real)
    ensures ValueVariance([a, b]) == (a - b) * (a - b) / 4.0
  {
    var s, d := [a, b], Deviation(One(), Identity(), (a + b) / 2.0);
    assert s == [] + [a] + [b];
    SumByAppend(Identity(), [] + [a], b);
    SumByAppend(Identity(), [], a);
    SumByAppend(d, [] + [a], b);
    SumByAppend(d, [], a);
    ValueMoments(s);
    hide SumBy;
    assert (a - (a + b) / 2.0) * (a - (a + b) / 2.0) == (a - b) * (a - b) / 4.0;
    assert (b - (a + b) / 2.0) * (b - (a + b) / 2.0) == (a - b) * (a - b) / 4.0;
  }

  lemma ValuesOfTwo(e: TrustEvent, e': TrustEvent, now: int, r: real)
    requires e.eventType == e'.eventType
    ensures CategoryValues([e, e'], e.eventType, now, r) == [EffectiveWeight(e, now, r), EffectiveWeight(e', now, r)]
  {
    hide EffectiveWeight;
    assert [e, e'][..1] == [e] && [e][..0] == [];
    assert CategoryValues([e], e.eventType, now, r) == [EffectiveWeight(e, now, r)];
  }

  /** Without a dispute against the user only the variances can raise the flag. */
  lemma PlainFlag(events: seq<TrustEvent>, now: int, r: real)
    requires forall e :: e in events ==>
               e.eventType != DisputeResolvedAgainst && e.eventType != FraudReportConfirmed
    ensures TrustScoreOf(events, now, r).flaggedForReview == VarianceFlag(events, now, r)
  {
    hide VarianceFlag, Breakdown, TotalWeight, ScoreOfTotal;
  }

  lemma FreshWeight(e: TrustEvent, now: int, r: real)
    requires e.weight > 0.0 && e.occurredAt == now && e.reviewerTrustFactor == None
    ensures EffectiveWeight(e, now, r) == e.weight
  {
  }

  lemma VarianceOfTwo(e: TrustEvent, e': TrustEvent, now: int, r: real)
    requires e.eventType == e'.eventType
    requires e.weight > 0.0 && e.occurredAt == now && e.reviewerTrustFactor == None
    requires e'.weight > 0.0 && e'.occurredAt == now && e'.reviewerTrustFactor == None
    ensures CategoryVariance([e, e'], e.eventType, now, r)
         == (e.weight - e'.weight) * (e.weight - e'.weight) / 4.0
  {
    hide *;
    ValuesOfTwo(e, e', now, r);
    FreshWeight(e, now, r);
    FreshWeight(e', now, r);
    CategoryVarianceOfValues([e, e'], e.eventType, now, r);
    TwoValueVariance(e.weight, e'.weight);
  }

  lemma FlagOfOneType(events: seq<TrustEvent>, t: EventType, now: int, r: real)
    requires 0 < |events| <= 3 && forall e :: e in events ==> e.eventType == t
    ensures VarianceFlag(events, now, r) <==> CategoryVariance(events, t, now, r) > 200.0
  {
    hide CategoryVariance, OverallVariance;
    assert events[0].eventType in Categories(events);
  }

  /** Two fresh events of one type with weights of their own are flagged exactly when
      the square of their difference exceeds 800, if the type is no dispute. */
  lemma TwoOfAKindFlag(e: TrustEvent, e': TrustEvent, now: int, r: real)
    requires e.eventType == e'.eventType
    requires e.eventType != DisputeResolvedAgainst && e.eventType != FraudReportConfirmed
    requires e.weight > 0.0 && e.occurredAt == now && e.reviewerTrustFactor == None
    requires e'.weight > 0.0 && e'.occurredAt == now && e'.reviewerTrustFactor == None
    ensures TrustScoreOf([e, e'], now, r).flaggedForReview
       <==> (e.weight - e'.weight) * (e.weight - e'.weight) > 800.0
  {
    hide *;
    VarianceOfTwo(e, e', now, r);
    PlainFlag([e, e'], now, r);
    FlagOfOneType([e, e'], e.eventType, now, r);
    MoreThan((e.weight - e'.weight) * (e.weight - e'.weight));
  }

  lemma MoreThan(square: real)
    ensures square / 4.0 > 200.0 <==> square > 800.0
    ensures square / 4.0 > 100.0 <==> square > 400.0
  {
  }

  /** The squared distances of four numbers from their mean, added up. */
  function SpreadOfFour(a: real, b: real, c: real, d: real): real {
    var m := (a + b + c + d) / 4.0;
    (a - m) * (a - m) + (b - m) * (b - m) + (c - m) * (c - m) + (d - m) * (d - m)
  }

  lemma SpreadOverFour<T>(x: T -> real, a: T, b: T, c: T, d: T)
    ensures Variance(One(), x, [a, b, c, d]) == SpreadOfFour(x(a), x(b), x(c), x(d)) / 4.0
  {
    var m := (x(a) + x(b) + x(c) + x(d)) / 4.0;
    SumOfFour(One(), a, b, c, d);
    SumOfFour(Product(One(), x), a, b, c, d);
    SumOfFour(Deviation(One(), x, m), a, b, c, d);
    hide SumBy;
    assert Mean(One(), x, [a, b, c, d]) == m;
  }

  lemma VarianceOfFour(a: TrustEvent, b: TrustEvent, c: TrustEvent, d: TrustEvent, now: int, r: real)
    requires forall e :: e in [a, b, c, d] ==> e.weight > 0.0 && e.occurredAt == now && e.reviewerTrustFactor == None
    ensures OverallVariance([a, b, c, d], now, r) == SpreadOfFour(a.weight, b.weight, c.weight, d.weight) / 4.0
  {
    SpreadOverFour(WeightAt(now, r), a, b, c, d);
    forall e | e in [a, b, c, d] ensures WeightAt(now, r)(e) == e.weight {
      FreshWeight(e, now, r);
    }
  }

  /** Four fresh events of the four types that are no disputes against the user, with
      weights of their own, are flagged exactly when their variance exceeds 100. */
  lemma FourKindsFlag(a: TrustEvent, b: TrustEvent, c: TrustEvent, d: TrustEvent, now: int, r: real)
    requires a.eventType == BookingCompleted && b.eventType == DisputeResolvedFor
    requires c.eventType == ReviewReceived && d.eventType == IdentityVerified
    requires forall e :: e in [a, b, c, d] ==> e.weight > 0.0 && e.occurredAt == now && e.reviewerTrustFactor == None
    ensures TrustScoreOf([a, b, c, d], now, r).flaggedForReview
       <==> SpreadOfFour(a.weight, b.weight, c.weight, d.weight) > 400.0
  {
    var s := [a, b, c, d];
    VarianceOfFour(a, b, c, d, now, r);
    PlainFlag(s, now, r);
    hide CategoryVariance, OverallVariance, CategoryValues, TrustScoreOf, SpreadOfFour;
    forall t ensures CategoryVariance(s, t, now, r) == 0.0 {
      LoneValue(s, t, now, r);
      LoneCategory(s, t, now, r);
    }
    MoreThan(SpreadOfFour(a.weight, b.weight, c.weight, d.weight));
  }
}
