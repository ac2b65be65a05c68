/**
  Duplicate detection in terms of the listings themselves: which rows the two
  workers write is read off prices, coordinates, hashes and words, without the
  detector's own tests.
 */
module DuplicateLaws {
  import opened DuplicateDetector
  import opened DuplicateSweep

  /** The number of positions at which two hashes of one length differ. */
  function Differing(a: string, b: string): nat
    requires |a| == |b|
  {
    if |a| == 0 then 0
    else
      var n := |a| - 1;
      Differing(a[..n], b[..n]) + (if a[n] == b[n] then 0 else 1)
  }

  lemma {:induction false} DifferingIsDistance(a: string, b: string)
    requires |a| == |b|
    ensures PhashDistance(a, b) == Finite(Differing(a, b))
  {
    if |a| > 0 {
      var n := |a| - 1;
      DifferingIsDistance(a[..n], b[..n]);
      assert Differences(a, b) == Differences(a[..n], b[..n]) + (if a[n] == b[n] then {} else {n as nat});
    } else {
      assert Differences(a, b) == {};
    }
  }

  predicate Near(x: real, y: real, gap: real) {
    -gap < x - y < gap
  }

  /** Two listings are duplicates of a kind, with this similarity: by photo, hashes of
      one length with at most 15 differing digits; by text, at least 17 shared words
      in 20; by place, one price and less than 0.001 degrees apart each way. */
  predicate Duplicates(a: Fingerprint, b: Fingerprint, kind: MatchType, similarity: real) {
    match kind
    case ImagePhash =>
      && a.phash.Some? && b.phash.Some? && |a.phash.value| == |b.phash.value| > 0
      && var d := Differing(a.phash.value, b.phash.value);
         d <= 15 && similarity == 1.0 - d as real / |a.phash.value| as real
    case TextSimilarity =>
      && a.description + b.description != {}
      && var shared, all := |a.description * b.description|, |a.description + b.description|;
         20 * shared >= 17 * all && similarity == shared as real / all as real
    case GeoPrice =>
      a.price == b.price && Near(a.lat, b.lat, 0.001) && Near(a.lng, b.lng, 0.001) && similarity == 1.0
  }

  lemma TimesPositive(q: real, c: real, n: real, qn: real, cn: real)
    requires n > 0.0 && qn == q * n && cn == c * n
    ensures q >= c <==> qn >= cn
  {
    assert qn - cn == (q - c) * n;
  }

  lemma SeventeenInTwenty(shared: nat, all: nat)
    requires all > 0
    ensures shared as real / all as real >= 0.85 <==> 20 * shared >= 17 * all
  {
    var n := all as real;
    TimesPositive(shared as real / n, 0.85, n, shared as real, 0.85 * n);
  }

  lemma TextFlag(a: Fingerprint, b: Fingerprint, similarity: real)
    ensures Duplicates(a, b, TextSimilarity, similarity) <==>
              && Matches(a, b, TextSimilarity, DEFAULT_CONFIG)
              && similarity == Similarity(a, b, TextSimilarity, DEFAULT_CONFIG)
  {
    var x, y := a.description, b.description;
    if x + y != {} {
      SeventeenInTwenty(|x * y|, |x + y|);
      if x == {} || y == {} {
        assert x * y == {};
      }
    } else {
      assert x == {} && y == {};
    }
  }

  /** The flag of a pair, by its fields. */
  lemma FlagOfPair(a: Fingerprint, b: Fingerprint, kind: MatchType, similarity: real)
    ensures DuplicateFlag(a.id, b.id, kind, similarity) in FlagFor(a, b, kind, DEFAULT_CONFIG)
       <==> Duplicates(a, b, kind, similarity)
  {
    match kind
    case ImagePhash =>
      if HasHash(a) && HasHash(b) && |a.phash.value| == |b.phash.value| {
        DifferingIsDistance(a.phash.value, b.phash.value);
      }
    case TextSimilarity => TextFlag(a, b, similarity);
    case GeoPrice =>
  }

  lemma FlagNames(a: Fingerprint, b: Fingerprint, flag: DuplicateFlag)
    requires flag in FlagFor(a, b, flag.matchType, DEFAULT_CONFIG)
    ensures flag == DuplicateFlag(a.id, b.id, flag.matchType, flag.similarity)
  {
  }

  /** The detector returns a flag exactly when the candidate and the listing it names
      are duplicates of that kind with that similarity. */
  lemma FlagsByFields(candidate: Fingerprint, existing: seq<Fingerprint>, flag: DuplicateFlag)
    ensures flag in RiskFlags(candidate, existing, DEFAULT_CONFIG) <==>
              && flag.listingIdA == candidate.id && flag.listingIdB != candidate.id
              && exists ex :: ex in existing && ex.id == flag.listingIdB
                   && Duplicates(candidate, ex, flag.matchType, flag.similarity)
  {
    hide RiskFlags, Duplicates, FlagFor;
    FlagsAreTheMatches(candidate, existing, DEFAULT_CONFIG, flag);
    forall ex ensures flag in FlagFor(candidate, ex, flag.matchType, DEFAULT_CONFIG) <==>
                        flag.listingIdA == candidate.id && flag.listingIdB == ex.id
                        && Duplicates(candidate, ex, flag.matchType, flag.similarity)
    {
      FlagOfPair(candidate, ex, flag.matchType, flag.similarity);
      if flag in FlagFor(candidate, ex, flag.matchType, DEFAULT_CONFIG) {
        FlagNames(candidate, ex, flag);
      }
    }
  }

  lemma SameDuplicate(a: Fingerprint, b: Fingerprint, kind: MatchType, s: real, s': real)
    requires Duplicates(a, b, kind, s) && Duplicates(a, b, kind, s')
    ensures s == s'
  {
  }

  /** After a sweep a pair of the batch that had no row of a kind has one exactly when
      its listings are duplicates of that kind; the row is PENDING. */
  lemma SweptByFields(rows: Rows, batch: seq<Fingerprint>, i: nat, j: nat, kind: MatchType, similarity: real)
    requires DistinctIds(batch) && i < j < |batch| && FlagKey(batch[i].id, batch[j].id, kind) !in rows
    ensures var k, after := FlagKey(batch[i].id, batch[j].id, kind), Swept(rows, batch);
            k in after && after[k].similarity == similarity <==> Duplicates(batch[i], batch[j], kind, similarity)
    ensures var k, after := FlagKey(batch[i].id, batch[j].id, kind), Swept(rows, batch);
            k in after ==> after[k].status == Pending
  {
    hide Swept, Duplicates, FlagFor, Matches, Similarity;
    var k := FlagKey(batch[i].id, batch[j].id, kind);
    SweepEffect(rows, batch);
    PairIsAccepted(batch, i, j, kind);
    if k in Swept(rows, batch) {
      var s := Similarity(batch[i], batch[j], kind, DEFAULT_CONFIG);
      MatchIsDuplicate(batch[i], batch[j], kind, s);
      if Duplicates(batch[i], batch[j], kind, similarity) {
        SameDuplicate(batch[i], batch[j], kind, s, similarity);
      }
    }
    if Duplicates(batch[i], batch[j], kind, similarity) {
      MatchIsDuplicate(batch[i], batch[j], kind, similarity);
    }
  }

  lemma MatchIsDuplicate(a: Fingerprint, b: Fingerprint, kind: MatchType, similarity: real)
    ensures Matches(a, b, kind, DEFAULT_CONFIG) && similarity == Similarity(a, b, kind, DEFAULT_CONFIG)
       <==> Duplicates(a, b, kind, similarity)
  {
    FlagOfPair(a, b, kind, similarity);
    hide Duplicates, Matches, Similarity;
  }

  lemma PairIsAccepted(batch: seq<Fingerprint>, i: nat, j: nat, kind: MatchType)
    requires DistinctIds(batch) && i < j < |batch|
    ensures Accepted(batch, FlagKey(batch[i].id, batch[j].id, kind))
       <==> Matches(batch[i], batch[j], kind, DEFAULT_CONFIG)
  {
    hide Matches;
    var k := FlagKey(batch[i].id, batch[j].id, kind);
    if Accepted(batch, k) {
      var p, q :| 0 <= p < q < |batch| && AcceptedAt(batch, p, q, k);
      assert p == i && q == j;
    }
    if Matches(batch[i], batch[j], kind, DEFAULT_CONFIG) {
      assert AcceptedAt(batch, i, j, k);
    }
  }

  // ---------------------------------------------------------------------------
  // Chains of rooms
  // ---------------------------------------------------------------------------

  /** Some row by place and price names the two listings, in either order. */
  predicate PlaceRow(rows: Rows, a: ListingId, b: ListingId) {
    FlagKey(a, b, GeoPrice) in rows || FlagKey(b, a, GeoPrice) in rows
  }

  ghost predicate PlaceChain(rows: Rows, batch: seq<Fingerprint>, path: seq<nat>) {
    && (forall n :: 0 <= n < |path| ==> path[n] < |batch|)
    && (forall n :: 0 <= n < |path| - 1 ==>
          path[n] != path[n + 1] && PlaceRow(rows, batch[path[n]].id, batch[path[n + 1]].id))
  }

  /** One row by place and price, in either order. */
  lemma PlaceRowMeans(batch: seq<Fingerprint>, i: nat, j: nat)
    requires DistinctIds(batch) && i < |batch| && j < |batch| && i != j
    ensures PlaceRow(Swept(map[], batch), batch[i].id, batch[j].id) <==>
              batch[i].price == batch[j].price && Near(batch[i].lat, batch[j].lat, 0.001)
              && Near(batch[i].lng, batch[j].lng, 0.001)
  {
    hide Swept;
    var p, q := if i < j then i else j, if i < j then j else i;
    SweptByFields(map[], batch, p, q, GeoPrice, 1.0);
    var key := FlagKey(batch[p].id, batch[q].id, GeoPrice);
    SweepEffect(map[], batch);
    PairIsAccepted(batch, p, q, GeoPrice);
  }

  /** Along any chain of such rows in a swept table the price is one and the same, and
      the ends are less than 0.001 degrees per row apart. */
  lemma {:induction false} PlaceChainsAreTight(batch: seq<Fingerprint>, path: seq<nat>)
    requires DistinctIds(batch) && |path| > 1 && PlaceChain(Swept(map[], batch), batch, path)
    ensures var a, b, gap := batch[path[0]], batch[path[|path| - 1]], 0.001 * (|path| - 1) as real;
            a.price == b.price && Near(a.lat, b.lat, gap) && Near(a.lng, b.lng, gap)
  {
    hide Swept;
    var n := |path| - 1;
    PlaceRowMeans(batch, path[n - 1], path[n]);
    if n > 1 {
      PlaceChainsAreTight(batch, path[..n]);
    }
  }

  // ---------------------------------------------------------------------------
  // Photo jobs
  // ---------------------------------------------------------------------------

  /** The same for the rows an image-hash job writes. */
  lemma PhotoByFields(rows: Rows, candidate: Fingerprint, others: seq<Fingerprint>, id: ListingId, kind: MatchType)
    requires FlagKey(candidate.id, id, kind) !in rows
    ensures FlagKey(candidate.id, id, kind) in PhotoChecked(rows, candidate, others) <==>
              id != candidate.id
              && exists ex, s :: ex in others && ex.id == id && Duplicates(candidate, ex, kind, s)
  {
    hide PhotoChecked, Duplicates, Matches, Similarity;
    var k := FlagKey(candidate.id, id, kind);
    PhotoEffect(rows, candidate, others);
    if PhotoAccepted(candidate, others, k) {
      var ex :| ex in others && PhotoMatch(candidate, ex, k);
      var s := Similarity(candidate, ex, kind, DEFAULT_CONFIG);
      MatchIsDuplicate(candidate, ex, kind, s);
      assert Duplicates(candidate, ex, kind, s);
    }
    if ex, s :| id != candidate.id && ex in others && ex.id == id && Duplicates(candidate, ex, kind, s) {
      MatchIsDuplicate(candidate, ex, kind, s);
      assert PhotoMatch(candidate, ex, k);
    }
  }
}
