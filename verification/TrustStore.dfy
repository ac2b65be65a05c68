/**
  The two services that turn the ledger into a cached score. The ledger is
  append-only; a recompute overwrites the cache of one user and nothing else.
 */
module TrustStore {
  import Sums
  import opened Wrappers
  import opened TrustScore
  import opened TrustScoreProperties

  type Id = nat

  datatype LedgerRow = LedgerRow(userId: Id, event: TrustEvent)

  datatype CachedScore = CachedScore(trustScore: Option<int>, updatedAt: Option<int>)

  datatype Report = Report(score: int, breakdown: map<EventType, real>, flaggedForReview: bool, eventCount: nat)

  function EventsOf(ledger: seq<LedgerRow>, userId: Id): seq<TrustEvent> {
    if |ledger| == 0 then []
    else
      var last := ledger[|ledger| - 1];
      EventsOf(ledger[..|ledger| - 1], userId) + (if last.userId == userId then [last.event] else [])
  }

  ghost predicate Descending(rows: seq<TrustEvent>) {
    forall i, j :: 0 <= i < j < |rows| ==> rows[i].occurredAt >= rows[j].occurredAt
  }

  ghost predicate Ascending(rows: seq<TrustEvent>) {
    forall i, j :: 0 <= i < j < |rows| ==> rows[i].occurredAt <= rows[j].occurredAt
  }

  ghost predicate AllNeutral(ledger: seq<LedgerRow>) {
    forall i :: 0 <= i < |ledger| ==> NeutralFactor(ledger[i].event)
  }

  lemma {:induction false} NeutralRows(ledger: seq<LedgerRow>, userId: Id)
    requires AllNeutral(ledger)
    ensures forall e :: e in EventsOf(ledger, userId) ==> NeutralFactor(e)
  {
    if |ledger| > 0 {
      var prefix := ledger[..|ledger| - 1];
      assert AllNeutral(prefix);
      NeutralRows(prefix, userId);
    }
  }

  class Store {
    var ledger: seq<LedgerRow>
    var users: map<Id, CachedScore>
    const r: real

    constructor (r: real)
      ensures ledger == [] && users == map[] && this.r == r
    {
      ledger, users := [], map[];
      this.r := r;
    }

    method RecordTrustEvent(userId: Id, event: TrustEvent)
      modifies this`ledger
      ensures ledger == old(ledger) + [LedgerRow(userId, event)]
    {
      ledger := ledger + [LedgerRow(userId, event)];
    }

    /** The service path: `rows` is the user's ledger, newest first, with factors. */
    method RecomputeScore(userId: Id, rows: seq<TrustEvent>, now: int) returns (report: Option<Report>)
      requires multiset(rows) == multiset(EventsOf(ledger, userId)) && Descending(rows)
      modifies this`users
      ensures userId !in old(users) ==> report.None? && users == old(users)
      ensures userId in old(users) ==>
                var s := TrustScoreOf(EventsOf(ledger, userId), now, r);
                && users == old(users)[userId := CachedScore(Some(s.score), Some(now))]
                && report == Some(Report(s.score, s.breakdown, s.flaggedForReview, |EventsOf(ledger, userId)|))
    {
      hide TrustScoreOf;
      var result := ComputeTrustScore(rows, now, r);
      ScoreIgnoresOrder(rows, EventsOf(ledger, userId), now, r);
      assert |multiset(rows)| == |multiset(EventsOf(ledger, userId))|;
      if userId !in users {
        return None;
      }
      users := users[userId := CachedScore(Some(result.score), Some(now))];
      report := Some(Report(result.score, result.breakdown, result.flaggedForReview, |rows|));
    }

    /** The worker path: `rows` is the same ledger, oldest first, and the mapping
        to engine events drops the reviewer factor. With neutral factors the cache
        ends up exactly as the service path leaves it. */
    method ProcessRecompute(userId: Id, rows: seq<TrustEvent>, now: int) returns (done: bool)
      requires multiset(rows) == multiset(EventsOf(ledger, userId)) && Ascending(rows)
      modifies this`users
      ensures done == (userId in old(users))
      ensures !done ==> users == old(users)
      ensures done ==> users == old(users)[userId :=
                CachedScore(Some(TrustScoreOf(WithoutFactors(EventsOf(ledger, userId)), now, r).score), Some(now))]
      ensures done && 0.0 < r < 1.0 && AllNeutral(ledger) ==> users == old(users)[userId :=
                CachedScore(Some(TrustScoreOf(EventsOf(ledger, userId), now, r).score), Some(now))]
    {
      hide TrustScoreOf;
      var domainEvents := WithoutFactors(rows);
      var result := ComputeTrustScore(domainEvents, now, r);
      ErasedPermutation(rows, EventsOf(ledger, userId));
      ScoreIgnoresOrder(domainEvents, WithoutFactors(EventsOf(ledger, userId)), now, r);
      if 0.0 < r < 1.0 && AllNeutral(ledger) {
        NeutralRows(ledger, userId);
        ScoreIgnoresNeutralFactors(EventsOf(ledger, userId), now, r);
      }
      done := userId in users;
      if done {
        users := users[userId := CachedScore(Some(result.score), Some(now))];
      }
    }
  }

  lemma ErasedParts(a: seq<TrustEvent>, b: seq<TrustEvent>)
    ensures WithoutFactors(a + b) == WithoutFactors(a) + WithoutFactors(b)
  {
  }

  lemma ErasedWithout(l: seq<TrustEvent>, x: TrustEvent, t: seq<TrustEvent>)
    ensures multiset(WithoutFactors(l + [x] + t)) == multiset(WithoutFactors(l + t)) + multiset(WithoutFactors([x]))
  {
    ErasedParts(l + [x], t);
    ErasedParts(l, [x]);
    ErasedParts(l, t);
  }

  /** Erasing factors row by row keeps two orderings of the same rows in step. */
  lemma {:induction false} ErasedPermutation(a: seq<TrustEvent>, b: seq<TrustEvent>)
    requires multiset(a) == multiset(b)
    ensures multiset(WithoutFactors(a)) == multiset(WithoutFactors(b))
    decreases |a|
  {
    if |a| == 0 {
      assert |multiset(b)| == 0;
    } else {
      hide WithoutFactors;
      var a', x := a[..|a| - 1], a[|a| - 1];
      assert a == a' + [x];
      assert x in multiset(b);
      var j :| 0 <= j < |b| && b[j] == x;
      var l, t := b[..j], b[j + 1..];
      assert b == l + [x] + t;
      Sums.MultisetWithout(a', l, x, t);
      ErasedPermutation(a', l + t);
      ErasedParts(a', [x]);
      ErasedWithout(l, x, t);
    }
  }
}
