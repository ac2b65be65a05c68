/**
  Pairwise duplicate detection between listings: Hamming distance of photo
  hashes, Jaccard similarity of description words, and position plus price.

  Descriptions are given by their token sets; splitting text into words is not
  part of the model.
 */
module DuplicateDetector {
  import opened Wrappers

  type Token = string
  type ListingId = nat

  datatype MatchType = ImagePhash | TextSimilarity | GeoPrice

  datatype Fingerprint = Fingerprint(id: ListingId, phash: Option<string>, description: set<Token>, lat: real,
                                     lng: real, price: int)

  datatype DuplicateFlag = DuplicateFlag(listingIdA: ListingId, listingIdB: ListingId, matchType: MatchType,
                                         similarity: real)

  datatype Config = Config(phashThreshold: real, textSimilarityThreshold: real, geoPriceThreshold: real)

  const DEFAULT_CONFIG := Config(15.0, 0.85, 1.0)

  /** A Hamming distance, or the code's Infinity for unequal lengths. */
  datatype Distance = Infinite | Finite(value: nat)

  // ---------------------------------------------------------------------------
  // Hash distance
  // ---------------------------------------------------------------------------

  function Differences(a: string, b: string): set<nat>
    requires |a| == |b|
  {
    set i: nat | i < |a| && a[i] != b[i]
  }

  function PhashDistance(a: string, b: string): Distance {
    if |a| != |b| then Infinite else Finite(|Differences(a, b)|)
  }

  method ComparePhash(hashA: string, hashB: string) returns (d: Distance)
    ensures d == PhashDistance(hashA, hashB)
  {
    if |hashA| != |hashB| {
      return Infinite;
    }
    var distance: nat := 0;
    ghost var seen: set<nat> := {};
    for i := 0 to |hashA|
      invariant seen == set k: nat | k < i && hashA[k] != hashB[k]
      invariant distance == |seen|
    {
      if hashA[i] != hashB[i] {
        distance := distance + 1;
        seen := seen + {i};
      }
    }
    assert seen == Differences(hashA, hashB);
    d := Finite(distance);
  }

  lemma SubsetSize<T>(a: set<T>, b: set<T>)
    requires a <= b
    ensures |a| <= |b|
  {
    assert b == a + (b - a);
  }

  lemma UnionSize<T>(a: set<T>, b: set<T>)
    ensures |a + b| <= |a| + |b|
  {
    assert a + b == a + (b - a);
    SubsetSize(b - a, b);
  }

  /** The distance is a metric on hashes of one length, and bounded by it. */
  lemma PhashDistanceIsMetric(a: string, b: string, c: string)
    requires |a| == |b| == |c|
    ensures PhashDistance(a, b) == PhashDistance(b, a)
    ensures PhashDistance(a, b).value == 0 <==> a == b
    ensures PhashDistance(a, c).value <= PhashDistance(a, b).value + PhashDistance(b, c).value
    ensures PhashDistance(a, b).value <= |a|
  {
    assert Differences(a, b) == Differences(b, a);
    if |Differences(a, b)| == 0 {
      forall i | 0 <= i < |a| ensures a[i] == b[i] {
        assert i !in Differences(a, b);
      }
    }
    SubsetSize(Differences(a, c), Differences(a, b) + Differences(b, c));
    UnionSize(Differences(a, b), Differences(b, c));
    SubsetSize(Differences(a, b), Positions(|a|));
  }

  function Positions(n: nat): (s: set<nat>)
    ensures |s| == n && forall i: nat :: i in s <==> i < n
  {
    if n == 0 then {} else Positions(n - 1) + {n - 1}
  }

  // ---------------------------------------------------------------------------
  // Text similarity
  // ---------------------------------------------------------------------------

  function CompareListingText(a: set<Token>, b: set<Token>): real {
    if |a| == 0 && |b| == 0 then 0.0
    else if |a| == 0 || |b| == 0 then 0.0
    else
      assert a + b != {};
      |a * b| as real / |a + b| as real
  }

  function TextDistance(a: set<Token>, b: set<Token>): real {
    1.0 - CompareListingText(a, b)
  }

  /** Tokens on one side only, over all tokens. */
  lemma DistanceAsRatio(a: set<Token>, b: set<Token>)
    requires a != {} && b != {}
    ensures |a + b| > 0
    ensures TextDistance(a, b) == |(a - b) + (b - a)| as real / |a + b| as real
    ensures |(a - b) + (b - a)| <= |a + b|
  {
    assert a + b == ((a - b) + (b - a)) + a * b;
    assert a + b != {};
    RatioArithmetic(|a * b| as real, |(a - b) + (b - a)| as real, |a + b| as real);
  }

  lemma RatioArithmetic(i: real, d: real, u: real)
    requires u > 0.0 && u == d + i
    ensures 1.0 - i / u == d / u
  {
    var p, q := i / u, d / u;
    assert p * u == i && q * u == d;
    assert (p + q - 1.0) * u == 0.0;
    ZeroFactor(p + q - 1.0, u);
  }

  lemma ZeroFactor(x: real, u: real)
    requires u > 0.0 && x * u == 0.0
    ensures x == 0.0
  {
  }

  lemma SimilarityRange(a: set<Token>, b: set<Token>)
    ensures 0.0 <= CompareListingText(a, b) <= 1.0
    ensures CompareListingText(a, b) == CompareListingText(b, a)
    ensures CompareListingText(a, b) == 1.0 <==> a == b && a != {}
    ensures CompareListingText(a, b) == 0.0 <==> a * b == {}
  {
    assert a * b == b * a && a + b == b + a;
    SubsetSize(a * b, a + b);
    if a != {} && b != {} {
      assert a + b != {};
      QuotientRange(|a * b| as real, |a + b| as real);
      if |a * b| == |a + b| {
        assert a + b == a * b + ((a + b) - (a * b));
        assert (a + b) - (a * b) == {};
        forall t ensures t in a <==> t in b {
          assert t !in (a + b) - (a * b);
        }
      }
      if a == b {
        assert a * b == a == a + b;
      }
    }
  }

  lemma QuotientRange(n: real, d: real)
    requires 0.0 <= n <= d && d > 0.0
    ensures 0.0 <= n / d <= 1.0
    ensures n / d == 1.0 <==> n == d
    ensures n / d == 0.0 <==> n == 0.0
  {
  }

  lemma TriangleArithmetic(ac: real, uac: real, ab: real, uab: real, bc: real, ubc: real, k: real, u: real)
    requires 0.0 < uac && ac <= uac && 0.0 < uab <= u && 0.0 < ubc <= u
    requires ab >= 0.0 && bc >= 0.0 && k >= 0.0
    requires u == uac + k && ac + k <= ab + bc
    ensures ac / uac <= ab / uab + bc / ubc
  {
    LargerDenominator(ab, uab, u);
    LargerDenominator(bc, ubc, u);
    AddToBoth(ac, uac, k);
    CommonDenominator(ac + k, ab, bc, u);
  }

  lemma LargerDenominator(n: real, d: real, u: real)
    requires n >= 0.0 && 0.0 < d <= u
    ensures n / u <= n / d
  {
    var q := n / d;
    assert q * d == n && q >= 0.0;
    assert q * u >= n;
    AtMostQuotient(n, u, q);
  }

  lemma AtMostQuotient(n: real, u: real, q: real)
    requires u > 0.0 && n <= q * u
    ensures n / u <= q
  {
    var p := n / u;
    assert p * u == n;
    if p > q {
      assert (p - q) * u > 0.0;
    }
  }

  lemma AddToBoth(n: real, d: real, k: real)
    requires n <= d && d > 0.0 && k >= 0.0
    ensures n / d <= (n + k) / (d + k)
  {
    var q := (n + k) / (d + k);
    assert q * (d + k) == n + k;
    assert q <= 1.0 by {
      AtMostQuotient(n + k, d + k, 1.0);
    }
    assert q * k <= k;
    assert n <= q * d;
    AtMostQuotient(n, d, q);
  }

  lemma CommonDenominator(n: real, a: real, b: real, u: real)
    requires u > 0.0 && n <= a + b
    ensures n / u <= a / u + b / u
  {
    assert a / u + b / u == (a + b) / u;
    AtMostQuotient(n, u, (a + b) / u);
  }

  function SymmetricDifference(a: set<Token>, b: set<Token>): set<Token> {
    (a - b) + (b - a)
  }

  lemma OnlyInMiddle(a: set<Token>, b: set<Token>, c: set<Token>)
    ensures |SymmetricDifference(a, c)| + |b - (a + c)| <= |SymmetricDifference(a, b)| + |SymmetricDifference(b, c)|
    ensures |a + c| + |b - (a + c)| == |a + b + c|
    ensures |a + b| <= |a + b + c| && |b + c| <= |a + b + c|
  {
    var k := b - (a + c);
    var s, t := SymmetricDifference(a, b), SymmetricDifference(b, c);
    assert SymmetricDifference(a, c) + k <= s + t;
    assert SymmetricDifference(a, c) * k == {};
    assert |SymmetricDifference(a, c) + k| == |SymmetricDifference(a, c)| + |k|;
    SubsetSize(SymmetricDifference(a, c) + k, s + t);
    UnionSize(s, t);
    assert a + b + c == (a + c) + k;
    assert (a + c) * k == {};
    SubsetSize(a + b, a + b + c);
    SubsetSize(b + c, a + b + c);
  }

  /** One minus text similarity obeys the triangle inequality, empty texts included. */
  lemma TextDistanceTriangle(a: set<Token>, b: set<Token>, c: set<Token>)
    ensures TextDistance(a, c) <= TextDistance(a, b) + TextDistance(b, c)
  {
    SimilarityRange(a, b);
    SimilarityRange(b, c);
    SimilarityRange(a, c);
    if a != {} && b != {} && c != {} {
      DistanceAsRatio(a, b);
      DistanceAsRatio(b, c);
      DistanceAsRatio(a, c);
      OnlyInMiddle(a, b, c);
      hide TextDistance, CompareListingText;
      TriangleArithmetic(|SymmetricDifference(a, c)| as real, |a + c| as real,
                         |SymmetricDifference(a, b)| as real, |a + b| as real,
                         |SymmetricDifference(b, c)| as real, |b + c| as real,
                         |b - (a + c)| as real, |a + b + c| as real);
    }
  }

  /** Two matches through a shared listing force the outer pair to match as well:
      at the default threshold of 0.85, to at least 0.70. */
  lemma MatchesChain(a: set<Token>, b: set<Token>, c: set<Token>)
    ensures CompareListingText(a, c) >= CompareListingText(a, b) + CompareListingText(b, c) - 1.0
    ensures CompareListingText(a, b) >= 0.85 && CompareListingText(b, c) >= 0.85 ==> CompareListingText(a, c) >= 0.70
  {
    hide CompareListingText;
    TextDistanceTriangle(a, b, c);
  }

  // ---------------------------------------------------------------------------
  // The pairwise test
  // ---------------------------------------------------------------------------

  function Abs(x: real): real {
    if x < 0.0 then -x else x
  }

  /** A hash is compared only when it is present and not the empty string. */
  predicate HasHash(f: Fingerprint) {
    f.phash.Some? && f.phash.value != ""
  }

  /** The test the detector applies to one pair, for one kind of match. */
  predicate Matches(a: Fingerprint, b: Fingerprint, kind: MatchType, cfg: Config) {
    match kind
    case ImagePhash =>
      HasHash(a) && HasHash(b) &&
      var d := PhashDistance(a.phash.value, b.phash.value);
      d.Finite? && d.value as real <= cfg.phashThreshold
    case TextSimilarity =>
      CompareListingText(a.description, b.description) >= cfg.textSimilarityThreshold
    case GeoPrice =>
      Abs(a.lat - b.lat) < 0.001 && Abs(a.lng - b.lng) < 0.001 && a.price == b.price
  }

  function Similarity(a: Fingerprint, b: Fingerprint, kind: MatchType, cfg: Config): real
    requires Matches(a, b, kind, cfg)
  {
    match kind
    case ImagePhash => 1.0 - PhashDistance(a.phash.value, b.phash.value).value as real / |a.phash.value| as real
    case TextSimilarity => CompareListingText(a.description, b.description)
    case GeoPrice => 1.0
  }

  function FlagFor(a: Fingerprint, b: Fingerprint, kind: MatchType, cfg: Config): seq<DuplicateFlag> {
    if Matches(a, b, kind, cfg) then [DuplicateFlag(a.id, b.id, kind, Similarity(a, b, kind, cfg))] else []
  }

  function PairFlags(a: Fingerprint, b: Fingerprint, cfg: Config): seq<DuplicateFlag> {
    if b.id == a.id then []
    else FlagFor(a, b, ImagePhash, cfg) + FlagFor(a, b, TextSimilarity, cfg) + FlagFor(a, b, GeoPrice, cfg)
  }

  /** All flags of one candidate against a list, in list order. */
  function RiskFlags(candidate: Fingerprint, existing: seq<Fingerprint>, cfg: Config): seq<DuplicateFlag> {
    if |existing| == 0 then []
    else RiskFlags(candidate, existing[..|existing| - 1], cfg) + PairFlags(candidate, existing[|existing| - 1], cfg)
  }

  /** The body of the loop: the three tests on one pair. */
  method EvaluatePair(candidate: Fingerprint, ex: Fingerprint, cfg: Config) returns (flags: seq<DuplicateFlag>)
    requires ex.id != candidate.id
    ensures flags == PairFlags(candidate, ex, cfg)
  {
    flags := [];
    if candidate.phash.Some? && candidate.phash.value != "" && ex.phash.Some? && ex.phash.value != "" {
      var distance := ComparePhash(candidate.phash.value, ex.phash.value);
      if distance.Finite? && distance.value as real <= cfg.phashThreshold {
        var length := if |candidate.phash.value| == 0 then 1 else |candidate.phash.value|;
        flags := flags + [DuplicateFlag(candidate.id, ex.id, ImagePhash,
                                        1.0 - distance.value as real / length as real)];
      }
    }
    assert flags == FlagFor(candidate, ex, ImagePhash, cfg);
    var textSim := CompareListingText(candidate.description, ex.description);
    if textSim >= cfg.textSimilarityThreshold {
      flags := flags + [DuplicateFlag(candidate.id, ex.id, TextSimilarity, textSim)];
    }
    assert flags == FlagFor(candidate, ex, ImagePhash, cfg) + FlagFor(candidate, ex, TextSimilarity, cfg);
    if Abs(candidate.lat - ex.lat) < 0.001 && Abs(candidate.lng - ex.lng) < 0.001 && candidate.price == ex.price {
      flags := flags + [DuplicateFlag(candidate.id, ex.id, GeoPrice, 1.0)];
    }
  }

  method EvaluateDuplicateRisk(candidate: Fingerprint, existing: seq<Fingerprint>, cfg: Config)
    returns (flags: seq<DuplicateFlag>)
    ensures flags == RiskFlags(candidate, existing, cfg)
  {
    hide FlagFor;
    flags := [];
    for i := 0 to |existing|
      invariant flags == RiskFlags(candidate, existing[..i], cfg)
    {
      var ex := existing[i];
      assert existing[..i + 1][..i] == existing[..i];
      if ex.id == candidate.id {
        continue;
      }
      var found := EvaluatePair(candidate, ex, cfg);
      flags := flags + found;
    }
    assert existing[..|existing|] == existing;
  }

  /** The test and its similarity do not depend on which listing is the candidate. */
  lemma PairTestIsSymmetric(a: Fingerprint, b: Fingerprint, kind: MatchType, cfg: Config)
    ensures Matches(a, b, kind, cfg) == Matches(b, a, kind, cfg)
    ensures Matches(a, b, kind, cfg) ==> Similarity(a, b, kind, cfg) == Similarity(b, a, kind, cfg)
  {
    SimilarityRange(a.description, b.description);
    if kind == ImagePhash && HasHash(a) && HasHash(b) && |a.phash.value| == |b.phash.value| {
      PhashDistanceIsMetric(a.phash.value, b.phash.value, a.phash.value);
    }
  }

  /** Nothing the detector returns depends on the threshold for position and price. */
  lemma {:induction false} GeoPriceThresholdIsNotRead(candidate: Fingerprint, existing: seq<Fingerprint>, cfg: Config,
                                                      t: real)
    ensures RiskFlags(candidate, existing, cfg.(geoPriceThreshold := t)) == RiskFlags(candidate, existing, cfg)
  {
    if |existing| > 0 {
      GeoPriceThresholdIsNotRead(candidate, existing[..|existing| - 1], cfg, t);
      SamePairFlags(candidate, existing[|existing| - 1], cfg, t);
      hide PairFlags;
    }
  }

  lemma SamePairFlags(a: Fingerprint, b: Fingerprint, cfg: Config, t: real)
    ensures PairFlags(a, b, cfg.(geoPriceThreshold := t)) == PairFlags(a, b, cfg)
  {
    hide CompareListingText, PhashDistance;
  }

  /** Exactly the matching pairs are flagged, each with its own similarity. */
  lemma {:induction false} FlagsAreTheMatches(candidate: Fingerprint, existing: seq<Fingerprint>, cfg: Config,
                                              flag: DuplicateFlag)
    ensures flag in RiskFlags(candidate, existing, cfg) <==>
              exists ex :: ex in existing && ex.id != candidate.id &&
                flag in FlagFor(candidate, ex, flag.matchType, cfg)
  {
    if |existing| > 0 {
      var init, last := existing[..|existing| - 1], existing[|existing| - 1];
      FlagsAreTheMatches(candidate, init, cfg, flag);
      assert existing == init + [last];
      PairFlagsByKind(candidate, last, cfg, flag);
      hide PairFlags, FlagFor;
    }
  }

  lemma PairFlagsByKind(a: Fingerprint, b: Fingerprint, cfg: Config, flag: DuplicateFlag)
    ensures flag in PairFlags(a, b, cfg) <==> b.id != a.id && flag in FlagFor(a, b, flag.matchType, cfg)
  {
    hide Matches, Similarity;
    var p, t, g := FlagFor(a, b, ImagePhash, cfg), FlagFor(a, b, TextSimilarity, cfg), FlagFor(a, b, GeoPrice, cfg);
    assert flag in p ==> flag.matchType == ImagePhash;
    assert flag in t ==> flag.matchType == TextSimilarity;
    assert flag in g ==> flag.matchType == GeoPrice;
    assert flag in p + t + g <==> flag in p || flag in t || flag in g;
    match flag.matchType
    case ImagePhash =>
    case TextSimilarity =>
    case GeoPrice =>
  }

  predicate IsHighRisk(f: DuplicateFlag) {
    f.similarity >= 0.85 || (f.matchType == GeoPrice && f.similarity >= 0.9) ||
      (f.matchType == ImagePhash && f.similarity >= 0.8)
  }

  method IsHighRiskFlag(flags: seq<DuplicateFlag>) returns (high: bool)
    ensures high <==> exists f :: f in flags && IsHighRisk(f)
  {
    for i := 0 to |flags|
      invariant forall j :: 0 <= j < i ==> !IsHighRisk(flags[j])
    {
      if IsHighRisk(flags[i]) {
        return true;
      }
    }
    high := false;
  }

  /** A hash as the hashing step stores it: 63 digits. */
  predicate StandardHash(f: Fingerprint) {
    HasHash(f) ==> |f.phash.value| == 63
  }

  /** A default-threshold match by text or position, or by photo at distance 12 or less. */
  predicate CloseMatch(a: Fingerprint, b: Fingerprint, kind: MatchType) {
    Matches(a, b, kind, DEFAULT_CONFIG) &&
    (kind == ImagePhash ==> PhashDistance(a.phash.value, b.phash.value).value <= 12)
  }

  lemma HighRiskByDistance(a: Fingerprint, b: Fingerprint, kind: MatchType)
    requires StandardHash(a) && StandardHash(b) && Matches(a, b, kind, DEFAULT_CONFIG)
    ensures IsHighRisk(DuplicateFlag(a.id, b.id, kind, Similarity(a, b, kind, DEFAULT_CONFIG))) <==>
      CloseMatch(a, b, kind)
  {
    if kind == ImagePhash {
      SixtyThirds(PhashDistance(a.phash.value, b.phash.value).value);
    }
  }

  lemma SixtyThirds(d: nat)
    ensures 1.0 - d as real / 63.0 >= 0.8 <==> d <= 12
    ensures 1.0 - d as real / 63.0 >= 0.85 ==> d <= 12
  {
  }

  /** Under the default thresholds the detector's output is high risk exactly when
      some listing is a text or position match, or a photo match at distance 12 or less. */
  lemma HighRiskVerdict(candidate: Fingerprint, existing: seq<Fingerprint>)
    requires StandardHash(candidate) && forall ex :: ex in existing ==> StandardHash(ex)
    ensures (exists f :: f in RiskFlags(candidate, existing, DEFAULT_CONFIG) && IsHighRisk(f)) <==>
            exists ex, kind :: ex in existing && ex.id != candidate.id && CloseMatch(candidate, ex, kind)
  {
    hide RiskFlags, IsHighRisk, Matches, Similarity;
    var flags := RiskFlags(candidate, existing, DEFAULT_CONFIG);
    if f :| f in flags && IsHighRisk(f) {
      FlagsAreTheMatches(candidate, existing, DEFAULT_CONFIG, f);
      var ex :| ex in existing && ex.id != candidate.id && f in FlagFor(candidate, ex, f.matchType, DEFAULT_CONFIG);
      HighRiskByDistance(candidate, ex, f.matchType);
      assert CloseMatch(candidate, ex, f.matchType);
    }
    if ex, kind :| ex in existing && ex.id != candidate.id && CloseMatch(candidate, ex, kind) {
      var f := DuplicateFlag(candidate.id, ex.id, kind, Similarity(candidate, ex, kind, DEFAULT_CONFIG));
      HighRiskByDistance(candidate, ex, kind);
      FlagsAreTheMatches(candidate, existing, DEFAULT_CONFIG, f);
      assert f in FlagFor(candidate, ex, kind, DEFAULT_CONFIG);
      assert f in flags && IsHighRisk(f);
    }
  }
}
