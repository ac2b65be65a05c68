/**
  The similarity of two texts in terms of how often words occur in them: rarer words
  weigh more, a word of one text alone weighs 1 + ln(3/2), a shared one weighs 1, and
  the similarity is the cosine of the weighted counts.
 */
module TextWeights {
  import opened Sums
  import opened TextSimilarity

  ghost predicate IsIncreasing(ln: real -> real) {
    forall x, y :: 0.0 < x < y ==> ln(x) < ln(y)
  }

  lemma QuotientOrder(n: real, p: real, q: real)
    requires n > 0.0 && p > 0.0 && q > 0.0
    ensures n / p < n / q <==> q < p
    ensures n / p > 0.0
  {
    var x, y := n / p, n / q;
    assert x * p == n && y * q == n;
    PositiveOver(n, p);
    PositiveOver(n, q);
    if q < p {
      SmallerFactor(x, q, p, n);
      LargerQuotient(x, y, q, n);
    }
    if p < q {
      SmallerFactor(y, p, q, n);
      LargerQuotient(y, x, p, n);
    }
  }

  lemma PositiveOver(n: real, d: real)
    requires n > 0.0 && d > 0.0
    ensures n / d > 0.0
  {
  }

  lemma SmallerFactor(x: real, q: real, p: real, n: real)
    requires x > 0.0 && q < p && x * p == n
    ensures x * q < n
  {
    assert x * (p - q) > 0.0;
  }

  lemma LargerQuotient(x: real, y: real, q: real, n: real)
    requires q > 0.0 && x * q < n && y * q == n
    ensures x < y
  {
    assert (y - x) * q > 0.0;
  }

  /** The weight of a word falls as the number of documents with it grows. */
  lemma RarerWordsWeighMore(docs: seq<seq<Token>>, s: Token, t: Token, ln: real -> real)
    requires IsIncreasing(ln)
    ensures Idf(docs, s, ln) < Idf(docs, t, ln) <==> DocFrequency(docs, t) < DocFrequency(docs, s)
  {
    var n, p, q := (|docs| + 1) as real, (DocFrequency(docs, s) + 1) as real, (DocFrequency(docs, t) + 1) as real;
    QuotientOrder(n, p, q);
    QuotientOrder(n, q, p);
  }

  // ---------------------------------------------------------------------------
  // Two texts
  // ---------------------------------------------------------------------------

  /** The weight of a word in a comparison of two texts. */
  function WordWeight(t: Token, other: seq<Token>, ln: real -> real): real {
    if t in other then 1.0 else ln(1.5) + 1.0
  }

  lemma PairFrequency(a: seq<Token>, b: seq<Token>, t: Token)
    ensures DocFrequency([a, b], t) == (if t in a then 1 else 0) + (if t in b then 1 else 0)
  {
    assert [a, b][..1] == [a] && [a][..0] == [];
    assert DocFrequency([a], t) == if t in a then 1 else 0;
  }

  /** The vector entry of a word that occurs in the first of two texts. */
  lemma EntryOfWord(a: seq<Token>, b: seq<Token>, t: Token, ln: real -> real)
    requires ln(1.0) == 0.0 && (t in a || t in b)
    ensures TfIdf([a, b], 0, t, ln) ==
              TermFrequency(a, t) as real * WordWeight(t, if t in a then b else a, ln)
    ensures TfIdf([a, b], 1, t, ln) ==
              TermFrequency(b, t) as real * WordWeight(t, if t in a then b else a, ln)
  {
    TfIdfForm(a, b, t, ln);
    PairFrequency(a, b, t);
    hide TermFrequency, DocFrequency;
  }

  /** What a word of two texts contributes to the product of their counts. */
  function SharedTerm(a: seq<Token>, b: seq<Token>): Token -> real {
    t => TermFrequency(a, t) as real * TermFrequency(b, t) as real
  }

  /** What a word contributes to the squared length of text a next to text b. */
  function LengthTerm(a: seq<Token>, b: seq<Token>, ln: real -> real): Token -> real {
    t => (TermFrequency(a, t) as real * WordWeight(t, b, ln)) * (TermFrequency(a, t) as real * WordWeight(t, b, ln))
  }

  lemma MissingWord(a: seq<Token>, t: Token)
    requires t !in a
    ensures TermFrequency(a, t) == 0
  {
    AbsentTerms(a);
  }

  lemma ProductOfEntries(docs: seq<seq<Token>>, i: nat, j: nat, t: Token, ln: real -> real)
    requires i < |docs| && j < |docs|
    ensures EntryProduct(docs, i, j, ln)(t) == TfIdf(docs, i, t, ln) * TfIdf(docs, j, t, ln)
  {
    hide TfIdf;
  }

  lemma OwnArithmetic(e: real, f: real, w: real, v: real)
    requires e == f * w && (f == 0.0 || w == v)
    ensures e * e == (f * v) * (f * v)
  {
    assert e == f * v;
  }

  lemma SharedArithmetic(e: real, e': real, f: real, g: real, w: real)
    requires e == f * w && e' == g * w && (f == 0.0 || g == 0.0 || w == 1.0)
    ensures e * e' == f * g
  {
    if f == 0.0 || g == 0.0 {
      assert e == 0.0 || e' == 0.0;
    } else {
      assert e == f && e' == g;
    }
  }

  /** The three facts about the weight of a word that the sums need. */
  lemma WeightOfWord(a: seq<Token>, b: seq<Token>, t: Token, ln: real -> real)
    requires t in a || t in b
    ensures var f, g, w := TermFrequency(a, t) as real, TermFrequency(b, t) as real,
                           WordWeight(t, if t in a then b else a, ln);
            && (f == 0.0 || g == 0.0 || w == 1.0)
            && (f == 0.0 || w == WordWeight(t, b, ln)) && (g == 0.0 || w == WordWeight(t, a, ln))
  {
    if t !in a {
      MissingWord(a, t);
    }
    if t !in b {
      MissingWord(b, t);
    }
    hide TermFrequency;
  }

  lemma TermsOfWord(a: seq<Token>, b: seq<Token>, t: Token, ln: real -> real)
    ensures SharedTerm(a, b)(t) == TermFrequency(a, t) as real * TermFrequency(b, t) as real
    ensures LengthTerm(a, b, ln)(t) ==
              (TermFrequency(a, t) as real * WordWeight(t, b, ln))
              * (TermFrequency(a, t) as real * WordWeight(t, b, ln))
  {
    hide TermFrequency, WordWeight;
  }

  lemma ContributionOfWord(a: seq<Token>, b: seq<Token>, t: Token, ln: real -> real)
    requires ln(1.0) == 0.0 && (t in a || t in b)
    ensures EntryProduct([a, b], 0, 1, ln)(t) == SharedTerm(a, b)(t)
    ensures EntryProduct([a, b], 0, 0, ln)(t) == LengthTerm(a, b, ln)(t)
    ensures EntryProduct([a, b], 1, 1, ln)(t) == LengthTerm(b, a, ln)(t)
  {
    hide *;
    var docs, w := [a, b], WordWeight(t, if t in a then b else a, ln);
    var f, g := TermFrequency(a, t) as real, TermFrequency(b, t) as real;
    var e, e' := TfIdf(docs, 0, t, ln), TfIdf(docs, 1, t, ln);
    EntryOfWord(a, b, t, ln);
    WeightOfWord(a, b, t, ln);
    TermsOfWord(a, b, t, ln);
    TermsOfWord(b, a, t, ln);
    ProductOfEntries(docs, 0, 1, t, ln);
    ProductOfEntries(docs, 0, 0, t, ln);
    ProductOfEntries(docs, 1, 1, t, ln);
    SharedArithmetic(e, e', f, g, w);
    OwnArithmetic(e, f, w, WordWeight(t, b, ln));
    OwnArithmetic(e', g, w, WordWeight(t, a, ln));
  }

  lemma KnownWord(a: seq<Token>, b: seq<Token>, vocab: seq<Token>, t: Token)
    requires Enumerates(vocab, Vocabulary([a, b])) && t in vocab
    ensures t in a || t in b
  {
  }

  lemma SquareOfQuotient(d: real, r: real, c: real, x: real)
    requires r != 0.0 && c == d / r && r * r == x
    ensures c * c * x == d * d
  {
    assert c * r == d;
    assert c * c * x == (c * r) * (c * r);
  }

  lemma SquareOfCosine(d: real, x: real, y: real, sqrt: real -> real)
    requires IsSqrt(sqrt) && x > 0.0 && y > 0.0
    ensures var c := NormalisedDot(d, x, y, sqrt); c * c * (x * y) == d * d
  {
    RootsMultiply(x, y, sqrt);
    var root, c := sqrt(x) * sqrt(y), NormalisedDot(d, x, y, sqrt);
    assert c == d / root;
    hide *;
    SquareOfQuotient(d, root, c, x * y);
  }

  /** The cosine, without roots. */
  lemma CosineBySquares(u: seq<real>, v: seq<real>, sqrt: real -> real)
    requires IsSqrt(sqrt) && |u| == |v| && Dot(u, u) != 0.0 && Dot(v, v) != 0.0
    ensures var c := Cosine(u, v, sqrt); c * c * (Dot(u, u) * Dot(v, v)) == Dot(u, v) * Dot(u, v)
  {
    hide Dot, NormalisedDot, IsSqrt;
    SelfDot(u);
    SelfDot(v);
    var d, x, y := Dot(u, v), Dot(u, u), Dot(v, v);
    assert Cosine(u, v, sqrt) == NormalisedDot(d, x, y, sqrt);
    hide *;
    SquareOfCosine(d, x, y, sqrt);
  }

  lemma DotsOfCounts(a: seq<Token>, b: seq<Token>, vocab: seq<Token>, ln: real -> real)
    requires ln(1.0) == 0.0 && Enumerates(vocab, Vocabulary([a, b]))
    ensures var u, v := Vector([a, b], 0, vocab, ln), Vector([a, b], 1, vocab, ln);
            && Dot(u, v) == SumBy(SharedTerm(a, b), vocab)
            && Dot(u, u) == SumBy(LengthTerm(a, b, ln), vocab)
            && Dot(v, v) == SumBy(LengthTerm(b, a, ln), vocab)
  {
    hide *;
    DotAsSum([a, b], 0, 1, vocab, ln);
    DotAsSum([a, b], 0, 0, vocab, ln);
    DotAsSum([a, b], 1, 1, vocab, ln);
    forall t | t in vocab
      ensures EntryProduct([a, b], 0, 1, ln)(t) == SharedTerm(a, b)(t)
      ensures EntryProduct([a, b], 0, 0, ln)(t) == LengthTerm(a, b, ln)(t)
      ensures EntryProduct([a, b], 1, 1, ln)(t) == LengthTerm(b, a, ln)(t)
    {
      KnownWord(a, b, vocab, t);
      ContributionOfWord(a, b, t, ln);
    }
    SumByCong(EntryProduct([a, b], 0, 1, ln), SharedTerm(a, b), vocab);
    SumByCong(EntryProduct([a, b], 0, 0, ln), LengthTerm(a, b, ln), vocab);
    SumByCong(EntryProduct([a, b], 1, 1, ln), LengthTerm(b, a, ln), vocab);
  }

  /** The similarity of two non-empty texts is the non-negative number whose square is
      the squared product of their word counts over both squared lengths, in which a
      word of one text alone counts 1 + ln(3/2) times. */
  lemma SimilarityByCounts(a: seq<Token>, b: seq<Token>, vocab: seq<Token>, ln: real -> real, sqrt: real -> real)
    requires IsLog(ln) && ln(1.0) == 0.0 && IsSqrt(sqrt) && Enumerates(vocab, Vocabulary([a, b]))
    requires a != [] && b != []
    ensures var s, shared := Similarity(a, b, vocab, ln, sqrt), SumBy(SharedTerm(a, b), vocab);
            && s >= 0.0
            && s * s * (SumBy(LengthTerm(a, b, ln), vocab) * SumBy(LengthTerm(b, a, ln), vocab)) == shared * shared
  {
    hide Dot, Cosine, Vector, Enumerates, Vocabulary, IsLog, IsSqrt, SumBy, SharedTerm, LengthTerm;
    var u, v := Vector([a, b], 0, vocab, ln), Vector([a, b], 1, vocab, ln);
    DotsOfCounts(a, b, vocab, ln);
    TextDots(a, b, vocab, ln);
    VectorLengths(a, b, vocab, ln);
    CosineBySquares(u, v, sqrt);
    SimilarityRange(a, b, vocab, ln, sqrt);
  }

  lemma VectorLengths(a: seq<Token>, b: seq<Token>, vocab: seq<Token>, ln: real -> real)
    ensures |Vector([a, b], 0, vocab, ln)| == |Vector([a, b], 1, vocab, ln)|
  {
  }
}
