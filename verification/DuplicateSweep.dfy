/**
  The table of duplicate flags and the two workers that fill it: the nightly
  sweep, which compares every pair of a batch once, and the image-hash job,
  which compares one listing with all others.
 */
module DuplicateSweep {
  import opened DuplicateDetector

  datatype FlagStatus = Pending | Confirmed | Dismissed

  datatype FlagKey = FlagKey(listingIdA: ListingId, listingIdB: ListingId, matchType: MatchType)

  datatype FlagRow = FlagRow(similarity: real, status: FlagStatus)

  type Rows = map<FlagKey, FlagRow>

  function KeyOf(flag: DuplicateFlag): FlagKey {
    FlagKey(flag.listingIdA, flag.listingIdB, flag.matchType)
  }

  function Mirror(k: FlagKey): FlagKey {
    FlagKey(k.listingIdB, k.listingIdA, k.matchType)
  }

  /** Insert as PENDING, or refresh the similarity and keep the status. */
  function Upsert(rows: Rows, flag: DuplicateFlag): Rows {
    var k := KeyOf(flag);
    rows[k := FlagRow(flag.similarity, if k in rows then rows[k].status else Pending)]
  }

  function UpsertAll(rows: Rows, flags: seq<DuplicateFlag>): Rows {
    if |flags| == 0 then rows
    else Upsert(UpsertAll(rows, flags[..|flags| - 1]), flags[|flags| - 1])
  }

  /** The flags a sweep finds: each listing against those after it. */
  function SweepFlags(batch: seq<Fingerprint>): seq<DuplicateFlag> {
    if |batch| == 0 then []
    else RiskFlags(batch[0], batch[1..], DEFAULT_CONFIG) + SweepFlags(batch[1..])
  }

  lemma {:induction false} UpsertConcat(rows: Rows, a: seq<DuplicateFlag>, b: seq<DuplicateFlag>)
    ensures UpsertAll(rows, a + b) == UpsertAll(UpsertAll(rows, a), b)
  {
    if |b| == 0 {
      assert a + b == a;
    } else {
      UpsertConcat(rows, a, b[..|b| - 1]);
      assert (a + b)[..|a + b| - 1] == a + b[..|b| - 1];
    }
  }

  // ---------------------------------------------------------------------------
  // The code
  // ---------------------------------------------------------------------------

  class FlagTable {
    var rows: Rows

    constructor ()
      ensures rows == map[]
    {
      rows := map[];
    }

    method UpsertFlag(flag: DuplicateFlag)
      modifies this
      ensures rows == Upsert(old(rows), flag)
    {
      var k := KeyOf(flag);
      if k in rows {
        rows := rows[k := rows[k].(similarity := flag.similarity)];
      } else {
        rows := rows[k := FlagRow(flag.similarity, Pending)];
      }
    }

    method UpsertFlags(flags: seq<DuplicateFlag>)
      modifies this
      ensures rows == UpsertAll(old(rows), flags)
    {
      for n := 0 to |flags|
        invariant rows == UpsertAll(old(rows), flags[..n])
      {
        assert flags[..n + 1][..n] == flags[..n];
        UpsertFlag(flags[n]);
      }
      assert flags[..|flags|] == flags;
    }

    /** One sweep job over the batch of listings it read. */
    method Sweep(batch: seq<Fingerprint>) returns (flagCount: nat)
      modifies this
      ensures rows == UpsertAll(old(rows), SweepFlags(batch))
      ensures flagCount == |SweepFlags(batch)|
    {
      hide UpsertAll, SweepFlags, RiskFlags;
      flagCount := 0;
      if |batch| < 2 {
        NothingToCompare(batch);
        UpsertNone(rows);
        return;
      }
      ghost var done: seq<DuplicateFlag> := [];
      UpsertNone(rows);
      assert batch[0..] == batch;
      for i := 0 to |batch|
        invariant rows == UpsertAll(old(rows), done) && flagCount == |done|
        invariant done + SweepFlags(batch[i..]) == SweepFlags(batch)
      {
        SweepSplit(batch, i);
        var flags := EvaluateDuplicateRisk(batch[i], batch[i + 1..], DEFAULT_CONFIG);
        UpsertConcat(old(rows), done, flags);
        UpsertFlags(flags);
        flagCount := flagCount + |flags|;
        assert done + (flags + SweepFlags(batch[i + 1..])) == (done + flags) + SweepFlags(batch[i + 1..]);
        done := done + flags;
      }
      NothingToCompare(batch[|batch|..]);
      assert done + [] == done;
    }

    /** One image-hash job: the listing of the new photo against all others. */
    method CheckPhoto(candidate: Fingerprint, others: seq<Fingerprint>)
      modifies this
      ensures rows == PhotoChecked(old(rows), candidate, others)
    {
      var flags := EvaluateDuplicateRisk(candidate, others, DEFAULT_CONFIG);
      UpsertFlags(flags);
    }

    /** An administrator settles a pending flag; settled flags stay as they are. */
    method Resolve(k: FlagKey, status: FlagStatus) returns (done: bool)
      modifies this
      ensures done <==> k in old(rows) && old(rows)[k].status == Pending
      ensures rows == if done then old(rows)[k := old(rows)[k].(status := status)] else old(rows)
    {
      done := k in rows && rows[k].status == Pending;
      if done {
        rows := rows[k := rows[k].(status := status)];
      }
    }
  }

  lemma SweepSplit(batch: seq<Fingerprint>, i: nat)
    requires i < |batch|
    ensures SweepFlags(batch[i..]) == RiskFlags(batch[i], batch[i + 1..], DEFAULT_CONFIG) + SweepFlags(batch[i + 1..])
  {
    assert batch[i..][1..] == batch[i + 1..];
  }

  lemma NothingToCompare(batch: seq<Fingerprint>)
    requires |batch| < 2
    ensures SweepFlags(batch) == []
  {
    if |batch| == 1 {
      assert batch[1..] == [];
    }
  }

  lemma UpsertNone(rows: Rows)
    ensures UpsertAll(rows, []) == rows
  {
  }

  // ---------------------------------------------------------------------------
  // What the upserts leave behind
  // ---------------------------------------------------------------------------

  /** No two flags share a key. */
  ghost predicate DistinctKeys(flags: seq<DuplicateFlag>) {
    forall p, q :: 0 <= p < q < |flags| ==> KeyOf(flags[p]) != KeyOf(flags[q])
  }

  /** Upserting leaves every key not among the flags alone, keeps every status,
      and inserts new keys as PENDING. */
  lemma {:induction false} UpsertFrame(rows: Rows, flags: seq<DuplicateFlag>)
    ensures var after := UpsertAll(rows, flags);
            && (forall k :: k in after <==> k in rows || exists f :: f in flags && KeyOf(f) == k)
            && (forall k :: k in rows ==> after[k].status == rows[k].status)
            && (forall k :: k in rows && (forall f :: f in flags ==> KeyOf(f) != k) ==> after[k] == rows[k])
            && (forall k :: k in after && k !in rows ==> after[k].status == Pending)
  {
    if |flags| > 0 {
      var init, last := flags[..|flags| - 1], flags[|flags| - 1];
      UpsertFrame(rows, init);
      assert flags == init + [last];
      hide UpsertAll;
      assert UpsertAll(rows, flags) == Upsert(UpsertAll(rows, init), last) by {
        UpsertLast(rows, flags);
      }
    }
  }

  lemma UpsertLast(rows: Rows, flags: seq<DuplicateFlag>)
    requires |flags| > 0
    ensures UpsertAll(rows, flags) == Upsert(UpsertAll(rows, flags[..|flags| - 1]), flags[|flags| - 1])
  {
  }

  lemma {:induction false} UpsertSimilarity(rows: Rows, flags: seq<DuplicateFlag>, f: DuplicateFlag)
    requires DistinctKeys(flags) && f in flags
    ensures KeyOf(f) in UpsertAll(rows, flags) && UpsertAll(rows, flags)[KeyOf(f)].similarity == f.similarity
  {
    var init, last := flags[..|flags| - 1], flags[|flags| - 1];
    assert flags == init + [last];
    if f != last {
      assert f in init;
      assert DistinctKeys(init);
      UpsertSimilarity(rows, init, f);
      var p :| 0 <= p < |init| && init[p] == f;
      assert KeyOf(flags[p]) != KeyOf(flags[|flags| - 1]);
    }
  }

  /** Sweeping again changes nothing. */
  lemma UpsertTwice(rows: Rows, flags: seq<DuplicateFlag>)
    requires DistinctKeys(flags)
    ensures UpsertAll(UpsertAll(rows, flags), flags) == UpsertAll(rows, flags)
  {
    hide UpsertAll;
    var once := UpsertAll(rows, flags);
    var twice := UpsertAll(once, flags);
    UpsertFrame(rows, flags);
    UpsertFrame(once, flags);
    forall k | k in twice ensures k in once && twice[k] == once[k] {
      if f :| f in flags && KeyOf(f) == k {
        UpsertSimilarity(rows, flags, f);
        UpsertSimilarity(once, flags, f);
      }
    }
  }

  // ---------------------------------------------------------------------------
  // What a sweep finds
  // ---------------------------------------------------------------------------

  ghost predicate DistinctIds(batch: seq<Fingerprint>) {
    forall i, j :: 0 <= i < j < |batch| ==> batch[i].id != batch[j].id
  }

  /** Some pair of the batch, in batch order, passes the test named by k. */
  ghost predicate Accepted(batch: seq<Fingerprint>, k: FlagKey) {
    exists i, j :: 0 <= i < j < |batch| && AcceptedAt(batch, i, j, k)
  }

  predicate AcceptedAt(batch: seq<Fingerprint>, i: nat, j: nat, k: FlagKey)
    requires i < j < |batch|
  {
    k.listingIdA == batch[i].id && k.listingIdB == batch[j].id &&
      Matches(batch[i], batch[j], k.matchType, DEFAULT_CONFIG)
  }

  /** A flag comes out of the sweep exactly when it is the flag of an earlier and
      a later listing that match. */
  lemma {:induction false} SweepFindsMatches(batch: seq<Fingerprint>, flag: DuplicateFlag)
    requires DistinctIds(batch)
    ensures flag in SweepFlags(batch) <==>
              exists i, j :: 0 <= i < j < |batch| && flag in FlagFor(batch[i], batch[j], flag.matchType, DEFAULT_CONFIG)
  {
    hide FlagFor, RiskFlags;
    if |batch| > 0 {
      var first, rest := batch[0], batch[1..];
      SweepFindsMatches(rest, flag);
      FlagsAreTheMatches(first, rest, DEFAULT_CONFIG, flag);
      if flag in RiskFlags(first, rest, DEFAULT_CONFIG) {
        var ex :| ex in rest && flag in FlagFor(first, ex, flag.matchType, DEFAULT_CONFIG);
        var j :| 0 <= j < |rest| && rest[j] == ex;
        assert flag in FlagFor(batch[0], batch[j + 1], flag.matchType, DEFAULT_CONFIG);
      }
      if flag in SweepFlags(rest) {
        var i, j :| 0 <= i < j < |rest| && flag in FlagFor(rest[i], rest[j], flag.matchType, DEFAULT_CONFIG);
        assert flag in FlagFor(batch[i + 1], batch[j + 1], flag.matchType, DEFAULT_CONFIG);
      }
      if i, j :| 0 <= i < j < |batch| && flag in FlagFor(batch[i], batch[j], flag.matchType, DEFAULT_CONFIG) {
        assert batch[j] == rest[j - 1];
        if i > 0 {
          assert flag in FlagFor(rest[i - 1], rest[j - 1], flag.matchType, DEFAULT_CONFIG);
        }
      }
    }
  }

  /** Same two listings, in either order, and the same kind of match. */
  predicate SamePair(f: DuplicateFlag, g: DuplicateFlag) {
    KeyOf(f) == KeyOf(g) || KeyOf(f) == Mirror(KeyOf(g))
  }

  ghost predicate OnePerPair(flags: seq<DuplicateFlag>) {
    forall p, q :: 0 <= p < q < |flags| ==> !SamePair(flags[p], flags[q])
  }

  lemma OnePerPairConcat(a: seq<DuplicateFlag>, b: seq<DuplicateFlag>)
    requires OnePerPair(a) && OnePerPair(b)
    requires forall f, g :: f in a && g in b ==> !SamePair(f, g)
    ensures OnePerPair(a + b)
  {
    forall p, q | 0 <= p < q < |a + b| ensures !SamePair((a + b)[p], (a + b)[q]) {
      if p < |a| <= q {
        assert (a + b)[p] in a && (a + b)[q] in b;
      }
    }
  }

  lemma OnePerPairOfOne(a: Fingerprint, b: Fingerprint)
    ensures OnePerPair(PairFlags(a, b, DEFAULT_CONFIG))
    ensures forall f :: f in PairFlags(a, b, DEFAULT_CONFIG) ==>
      f.listingIdA == a.id && f.listingIdB == b.id && a.id != b.id
  {
    hide Matches, Similarity;
  }

  function Ids(batch: seq<Fingerprint>): set<ListingId> {
    set x | x in batch :: x.id
  }

  lemma FreshFirst(batch: seq<Fingerprint>)
    requires DistinctIds(batch) && |batch| > 0
    ensures DistinctIds(batch[1..]) && batch[0].id !in Ids(batch[1..])
    ensures Ids(batch) == {batch[0].id} + Ids(batch[1..])
  {
    var rest := batch[1..];
    forall x | x in rest ensures x.id != batch[0].id {
      var i :| 0 <= i < |rest| && rest[i] == x;
      assert batch[i + 1] == x;
    }
    assert batch == [batch[0]] + rest;
  }

  lemma FreshLast(batch: seq<Fingerprint>)
    requires DistinctIds(batch) && |batch| > 0
    ensures var init, last := batch[..|batch| - 1], batch[|batch| - 1];
            DistinctIds(init) && last.id !in Ids(init) && Ids(batch) == Ids(init) + {last.id}
  {
    var init, last := batch[..|batch| - 1], batch[|batch| - 1];
    forall x | x in init ensures x.id != last.id {
      var i :| 0 <= i < |init| && init[i] == x;
      assert batch[i] == x;
    }
    assert batch == init + [last];
  }

  lemma {:induction false} OnePerPairOfCandidate(candidate: Fingerprint, existing: seq<Fingerprint>)
    requires DistinctIds(existing)
    ensures OnePerPair(RiskFlags(candidate, existing, DEFAULT_CONFIG))
    ensures forall f :: f in RiskFlags(candidate, existing, DEFAULT_CONFIG) ==>
              f.listingIdA == candidate.id && f.listingIdB != candidate.id && f.listingIdB in Ids(existing)
  {
    hide PairFlags;
    if |existing| > 0 {
      var init, last := existing[..|existing| - 1], existing[|existing| - 1];
      FreshLast(existing);
      hide Ids;
      OnePerPairOfCandidate(candidate, init);
      OnePerPairOfOne(candidate, last);
      OnePerPairConcat(RiskFlags(candidate, init, DEFAULT_CONFIG), PairFlags(candidate, last, DEFAULT_CONFIG));
    }
  }

  /** A sweep raises at most one flag per unordered pair and kind of match. */
  lemma {:induction false} SweepFlagsOncePerPair(batch: seq<Fingerprint>)
    requires DistinctIds(batch)
    ensures OnePerPair(SweepFlags(batch))
    ensures forall f :: f in SweepFlags(batch) ==>
              f.listingIdA in Ids(batch) && f.listingIdB in Ids(batch) && f.listingIdA != f.listingIdB
  {
    hide RiskFlags;
    if |batch| > 0 {
      FreshFirst(batch);
      hide Ids;
      SweepFlagsOncePerPair(batch[1..]);
      OnePerPairOfCandidate(batch[0], batch[1..]);
      OnePerPairConcat(RiskFlags(batch[0], batch[1..], DEFAULT_CONFIG), SweepFlags(batch[1..]));
    }
  }

  lemma OnePerPairIsDistinct(flags: seq<DuplicateFlag>)
    requires OnePerPair(flags)
    ensures DistinctKeys(flags)
  {
    forall p, q | 0 <= p < q < |flags| ensures KeyOf(flags[p]) != KeyOf(flags[q]) {
      assert !SamePair(flags[p], flags[q]);
    }
  }

  /** The table after a sweep. */
  function Swept(rows: Rows, batch: seq<Fingerprint>): Rows {
    UpsertAll(rows, SweepFlags(batch))
  }

  lemma FlagOfKey(batch: seq<Fingerprint>, k: FlagKey)
    requires DistinctIds(batch)
    ensures Accepted(batch, k) <==> exists f :: f in SweepFlags(batch) && KeyOf(f) == k
  {
    hide SweepFlags, Matches, Similarity;
    if Accepted(batch, k) {
      var i, j :| 0 <= i < j < |batch| && AcceptedAt(batch, i, j, k);
      var f := DuplicateFlag(batch[i].id, batch[j].id, k.matchType,
                             Similarity(batch[i], batch[j], k.matchType, DEFAULT_CONFIG));
      SweepFindsMatches(batch, f);
      assert f in FlagFor(batch[i], batch[j], k.matchType, DEFAULT_CONFIG);
      assert f in SweepFlags(batch) && KeyOf(f) == k;
    }
    if f :| f in SweepFlags(batch) && KeyOf(f) == k {
      SweepFindsMatches(batch, f);
      var i, j :| 0 <= i < j < |batch| && f in FlagFor(batch[i], batch[j], f.matchType, DEFAULT_CONFIG);
      assert AcceptedAt(batch, i, j, k);
    }
  }

  /** What one sweep of distinct listings does to the table: the accepted pairs
      get a row with their similarity, PENDING when new; no status changes; no
      other row changes; and one row per flag is written. */
  lemma SweepEffect(rows: Rows, batch: seq<Fingerprint>)
    requires DistinctIds(batch)
    ensures var after := Swept(rows, batch);
            && (forall k :: k in after <==> k in rows || Accepted(batch, k))
            && (forall k :: k in rows ==> after[k].status == rows[k].status)
            && (forall k :: k in rows && !Accepted(batch, k) ==> after[k] == rows[k])
            && (forall k :: k in after && k !in rows ==> after[k].status == Pending)
            && (forall i, j, kind :: 0 <= i < j < |batch| && Matches(batch[i], batch[j], kind, DEFAULT_CONFIG) ==>
                  var k := FlagKey(batch[i].id, batch[j].id, kind);
                  k in after && after[k].similarity == Similarity(batch[i], batch[j], kind, DEFAULT_CONFIG))
  {
    hide UpsertAll, SweepFlags, Matches, Similarity;
    var flags := SweepFlags(batch);
    UpsertFrame(rows, flags);
    forall k ensures Accepted(batch, k) <==> exists f :: f in flags && KeyOf(f) == k {
      FlagOfKey(batch, k);
    }
    forall i, j, kind | 0 <= i < j < |batch| && Matches(batch[i], batch[j], kind, DEFAULT_CONFIG)
      ensures var k := FlagKey(batch[i].id, batch[j].id, kind);
              k in Swept(rows, batch) && Swept(rows, batch)[k].similarity ==
                Similarity(batch[i], batch[j], kind, DEFAULT_CONFIG)
    {
      SweptSimilarity(rows, batch, i, j, kind);
    }
  }

  lemma SweptSimilarity(rows: Rows, batch: seq<Fingerprint>, i: nat, j: nat, kind: MatchType)
    requires DistinctIds(batch) && i < j < |batch| && Matches(batch[i], batch[j], kind, DEFAULT_CONFIG)
    ensures var k := FlagKey(batch[i].id, batch[j].id, kind);
            k in Swept(rows, batch) && Swept(rows, batch)[k].similarity ==
              Similarity(batch[i], batch[j], kind, DEFAULT_CONFIG)
  {
    hide UpsertAll, SweepFlags, Matches, Similarity;
    var f := DuplicateFlag(batch[i].id, batch[j].id, kind, Similarity(batch[i], batch[j], kind, DEFAULT_CONFIG));
    assert f in FlagFor(batch[i], batch[j], kind, DEFAULT_CONFIG);
    SweepFindsMatches(batch, f);
    SweepFlagsOncePerPair(batch);
    OnePerPairIsDistinct(SweepFlags(batch));
    UpsertSimilarity(rows, SweepFlags(batch), f);
  }

  /** Sweeping the same batch again changes nothing. */
  lemma SweepTwice(rows: Rows, batch: seq<Fingerprint>)
    requires DistinctIds(batch)
    ensures Swept(Swept(rows, batch), batch) == Swept(rows, batch)
  {
    hide UpsertAll, SweepFlags;
    SweepFlagsOncePerPair(batch);
    OnePerPairIsDistinct(SweepFlags(batch));
    UpsertTwice(rows, SweepFlags(batch));
  }

  /** No two rows name the same two listings in opposite orders. */
  ghost predicate MirrorFree(rows: Rows) {
    forall k :: k in rows ==> Mirror(k) !in rows
  }

  lemma AcceptedOneWay(batch: seq<Fingerprint>, k: FlagKey)
    requires DistinctIds(batch) && Accepted(batch, k)
    ensures !Accepted(batch, Mirror(k))
  {
    var i, j :| 0 <= i < j < |batch| && AcceptedAt(batch, i, j, k);
    forall i', j' | 0 <= i' < j' < |batch| ensures !AcceptedAt(batch, i', j', Mirror(k)) {
      assert i' != j || j' != i;
    }
  }

  /** A sweep keeps one row per unordered pair exactly when none of the pairs it
      accepts is already stored the other way round. */
  lemma SweepKeepsOneRowPerPair(rows: Rows, batch: seq<Fingerprint>)
    requires DistinctIds(batch) && MirrorFree(rows)
    ensures MirrorFree(Swept(rows, batch)) <==> forall k :: Accepted(batch, k) ==> Mirror(k) !in rows
  {
    hide Swept, Accepted;
    SweepEffect(rows, batch);
    var after := Swept(rows, batch);
    if forall k :: Accepted(batch, k) ==> Mirror(k) !in rows {
      forall k | k in after ensures Mirror(k) !in after {
        assert Mirror(Mirror(k)) == k;
        if Accepted(batch, k) {
          AcceptedOneWay(batch, k);
        }
      }
    }
    if k :| Accepted(batch, k) && Mirror(k) in rows {
      assert k in after && Mirror(k) in after;
    }
  }

  /** The table after an image-hash job for a photo of the candidate. */
  function PhotoChecked(rows: Rows, candidate: Fingerprint, others: seq<Fingerprint>): Rows {
    UpsertAll(rows, RiskFlags(candidate, others, DEFAULT_CONFIG))
  }

  /** The candidate matches some other listing in the way named by k. */
  ghost predicate PhotoAccepted(candidate: Fingerprint, others: seq<Fingerprint>, k: FlagKey) {
    exists ex :: ex in others && PhotoMatch(candidate, ex, k)
  }

  predicate PhotoMatch(candidate: Fingerprint, ex: Fingerprint, k: FlagKey) {
    && ex.id != candidate.id && k == FlagKey(candidate.id, ex.id, k.matchType)
    && Matches(candidate, ex, k.matchType, DEFAULT_CONFIG)
  }

  lemma PhotoFlagOfKey(candidate: Fingerprint, others: seq<Fingerprint>, k: FlagKey)
    ensures PhotoAccepted(candidate, others, k)
       <==> exists f :: f in RiskFlags(candidate, others, DEFAULT_CONFIG) && KeyOf(f) == k
  {
    hide RiskFlags, Matches, Similarity;
    if PhotoAccepted(candidate, others, k) {
      var ex :| ex in others && PhotoMatch(candidate, ex, k);
      var f := DuplicateFlag(candidate.id, ex.id, k.matchType, Similarity(candidate, ex, k.matchType, DEFAULT_CONFIG));
      assert f in FlagFor(candidate, ex, k.matchType, DEFAULT_CONFIG);
      FlagsAreTheMatches(candidate, others, DEFAULT_CONFIG, f);
      assert KeyOf(f) == k;
    }
    if f :| f in RiskFlags(candidate, others, DEFAULT_CONFIG) && KeyOf(f) == k {
      FlagsAreTheMatches(candidate, others, DEFAULT_CONFIG, f);
      var ex :| ex in others && ex.id != candidate.id && f in FlagFor(candidate, ex, f.matchType, DEFAULT_CONFIG);
      assert PhotoMatch(candidate, ex, k);
    }
  }

  /** What one image-hash job writes: a row for every listing the candidate matches. */
  lemma PhotoEffect(rows: Rows, candidate: Fingerprint, others: seq<Fingerprint>)
    ensures var after := PhotoChecked(rows, candidate, others);
            && (forall k :: k in after <==> k in rows || PhotoAccepted(candidate, others, k))
            && (forall k :: k in rows ==> after[k].status == rows[k].status)
  {
    hide UpsertAll, RiskFlags, PhotoAccepted;
    UpsertFrame(rows, RiskFlags(candidate, others, DEFAULT_CONFIG));
    forall k ensures PhotoAccepted(candidate, others, k)
                <==> exists f :: f in RiskFlags(candidate, others, DEFAULT_CONFIG) && KeyOf(f) == k
    {
      PhotoFlagOfKey(candidate, others, k);
    }
  }

  /** An image-hash job keeps one row per unordered pair exactly when no listing the
      candidate matches is already stored in front of it. */
  lemma PhotoKeepsOneRowPerPair(rows: Rows, candidate: Fingerprint, others: seq<Fingerprint>)
    requires MirrorFree(rows)
    ensures MirrorFree(PhotoChecked(rows, candidate, others))
       <==> forall ex, kind :: ex in others && ex.id != candidate.id && Matches(candidate, ex, kind, DEFAULT_CONFIG)
              ==> FlagKey(ex.id, candidate.id, kind) !in rows
  {
    hide PhotoChecked, Matches;
    PhotoEffect(rows, candidate, others);
    var after := PhotoChecked(rows, candidate, others);
    if MirrorFree(after) {
      forall ex, kind | ex in others && ex.id != candidate.id && Matches(candidate, ex, kind, DEFAULT_CONFIG)
        ensures FlagKey(ex.id, candidate.id, kind) !in rows
      {
        var k := FlagKey(candidate.id, ex.id, kind);
        assert PhotoMatch(candidate, ex, k);
        assert k in after && Mirror(k) == FlagKey(ex.id, candidate.id, kind);
      }
    } else {
      var k :| k in after && Mirror(k) in after;
      assert Mirror(Mirror(k)) == k;
      var j := if PhotoAccepted(candidate, others, k) then k else Mirror(k);
      var ex :| ex in others && PhotoMatch(candidate, ex, j);
      assert FlagKey(ex.id, candidate.id, j.matchType) in rows;
    }
  }

  /** The two workers order a pair differently. The sweep lists the listing created
      later first; the image-hash job puts the listing of the new photo first. So
      when a photo is added to the older of two matching listings, both rows end up
      in the table, whichever worker comes first. */
  lemma WorkersStoreMirroredRows(younger: Fingerprint, older: Fingerprint, kind: MatchType)
    requires younger.id != older.id && Matches(older, younger, kind, DEFAULT_CONFIG)
    ensures var photoFirst := Swept(PhotoChecked(map[], older, [younger]), [younger, older]);
            FlagKey(older.id, younger.id, kind) in photoFirst && FlagKey(younger.id, older.id, kind) in photoFirst
    ensures var sweepFirst := PhotoChecked(Swept(map[], [younger, older]), older, [younger]);
            FlagKey(older.id, younger.id, kind) in sweepFirst && FlagKey(younger.id, older.id, kind) in sweepFirst
  {
    hide Swept, PhotoChecked, Matches, Similarity;
    PairTestIsSymmetric(older, younger, kind, DEFAULT_CONFIG);
    var batch, k := [younger, older], FlagKey(younger.id, older.id, kind);
    assert AcceptedAt(batch, 0, 1, k);
    assert PhotoMatch(older, younger, Mirror(k));
    PhotoEffect(map[], older, [younger]);
    SweepEffect(PhotoChecked(map[], older, [younger]), batch);
    SweepEffect(map[], batch);
    PhotoEffect(Swept(map[], batch), older, [younger]);
  }
}
