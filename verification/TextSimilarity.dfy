/**
  TF-IDF similarity of two texts. A text is given by its kept tokens in order;
  splitting, lower-casing and stop words are not part of the model. The
  logarithm and the square root are parameters of which only this is used:
  ln(x) >= 0 for x >= 1, and sqrt(x) is the non-negative root of x.
 */
module TextSimilarity {
  import opened Sums

  type Token = string

  ghost predicate IsLog(ln: real -> real) {
    forall x :: x >= 1.0 ==> ln(x) >= 0.0
  }

  ghost predicate IsSqrt(sqrt: real -> real) {
    forall x :: x >= 0.0 ==> sqrt(x) >= 0.0 && sqrt(x) * sqrt(x) == x
  }

  // ---------------------------------------------------------------------------
  // Reference definitions
  // ---------------------------------------------------------------------------

  function TermFrequency(tokens: seq<Token>, term: Token): nat {
    if |tokens| == 0 then 0
    else TermFrequency(tokens[..|tokens| - 1], term) + (if tokens[|tokens| - 1] == term then 1 else 0)
  }

  function DocFrequency(docs: seq<seq<Token>>, term: Token): nat {
    if |docs| == 0 then 0
    else DocFrequency(docs[..|docs| - 1], term) + (if term in docs[|docs| - 1] then 1 else 0)
  }

  function Idf(docs: seq<seq<Token>>, term: Token, ln: real -> real): real {
    ln((|docs| + 1) as real / (DocFrequency(docs, term) + 1) as real) + 1.0
  }

  function TfIdf(docs: seq<seq<Token>>, i: nat, term: Token, ln: real -> real): real
    requires i < |docs|
  {
    TermFrequency(docs[i], term) as real * Idf(docs, term, ln)
  }

  function Vocabulary(docs: seq<seq<Token>>): set<Token> {
    set d, t | d in docs && t in d :: t
  }

  /** A listing of a set without repeats; the code sorts it, nothing below depends on that. */
  ghost predicate Enumerates(vocab: seq<Token>, terms: set<Token>) {
    && (forall t :: t in vocab <==> t in terms)
    && (forall i, j :: 0 <= i < j < |vocab| ==> vocab[i] != vocab[j])
  }

  function Vector(docs: seq<seq<Token>>, i: nat, vocab: seq<Token>, ln: real -> real): seq<real>
    requires i < |docs|
  {
    seq(|vocab|, k requires 0 <= k < |vocab| => TfIdf(docs, i, vocab[k], ln))
  }

  function Dot(a: seq<real>, b: seq<real>): real
    requires |a| == |b|
  {
    if |a| == 0 then 0.0 else Dot(a[..|a| - 1], b[..|b| - 1]) + a[|a| - 1] * b[|b| - 1]
  }

  lemma {:induction false} SelfDot(a: seq<real>)
    ensures Dot(a, a) >= 0.0
  {
    if |a| > 0 {
      SelfDot(a[..|a| - 1]);
      SquareIsNonNegative(a[|a| - 1]);
    }
  }

  lemma SquareIsNonNegative(x: real)
    ensures x * x >= 0.0
  {
  }

  lemma RootsMultiply(x: real, y: real, sqrt: real -> real)
    requires IsSqrt(sqrt) && x > 0.0 && y > 0.0
    ensures sqrt(x) > 0.0 && sqrt(y) > 0.0
    ensures sqrt(x) * sqrt(y) > 0.0
    ensures (sqrt(x) * sqrt(y)) * (sqrt(x) * sqrt(y)) == x * y
  {
    var p, q := sqrt(x), sqrt(y);
    assert p != 0.0 && q != 0.0;
    assert (p * q) * (p * q) == (p * p) * (q * q);
  }

  function NormalisedDot(dot: real, magA: real, magB: real, sqrt: real -> real): real
    requires IsSqrt(sqrt) && magA > 0.0 && magB > 0.0
  {
    RootsMultiply(magA, magB, sqrt);
    dot / (sqrt(magA) * sqrt(magB))
  }

  function Cosine(a: seq<real>, b: seq<real>, sqrt: real -> real): real
    requires IsSqrt(sqrt)
  {
    if |a| != |b| then 0.0
    else if Dot(a, a) == 0.0 || Dot(b, b) == 0.0 then 0.0
    else
      SelfDot(a);
      SelfDot(b);
      NormalisedDot(Dot(a, b), Dot(a, a), Dot(b, b), sqrt)
  }

  // ---------------------------------------------------------------------------
  // The code
  // ---------------------------------------------------------------------------

  method CollectVocabulary(tokenized: seq<seq<Token>>) returns (vocabulary: set<Token>)
    ensures vocabulary == Vocabulary(tokenized)
  {
    vocabulary := {};
    for i := 0 to |tokenized|
      invariant vocabulary == Vocabulary(tokenized[..i])
    {
      var tokens := tokenized[i];
      for k := 0 to |tokens|
        invariant vocabulary == Vocabulary(tokenized[..i]) + set t | t in tokens[..k]
      {
        assert tokens[..k + 1] == tokens[..k] + [tokens[k]];
        vocabulary := vocabulary + {tokens[k]};
      }
      assert tokens[..|tokens|] == tokens;
      assert tokenized[..i + 1] == tokenized[..i] + [tokens];
    }
    assert tokenized[..|tokenized|] == tokenized;
  }

  method ListVocabulary(vocabulary: set<Token>) returns (vocab: seq<Token>)
    ensures Enumerates(vocab, vocabulary)
  {
    vocab := [];
    var rest := vocabulary;
    while rest != {}
      invariant rest <= vocabulary && Enumerates(vocab, vocabulary - rest)
      decreases rest
    {
      var t :| t in rest;
      rest := rest - {t};
      vocab := vocab + [t];
    }
  }

  method CountTerms(tokens: seq<Token>) returns (termFreq: map<Token, nat>)
    ensures forall t :: (t in termFreq <==> t in tokens) && (t in termFreq ==> termFreq[t] == TermFrequency(tokens, t))
  {
    termFreq := map[];
    for k := 0 to |tokens|
      invariant forall t :: t in termFreq <==> t in tokens[..k]
      invariant forall t :: t in termFreq ==> termFreq[t] == TermFrequency(tokens[..k], t)
    {
      var t := tokens[k];
      assert tokens[..k + 1] == tokens[..k] + [t];
      AbsentTerms(tokens[..k]);
      termFreq := termFreq[t := (if t in termFreq then termFreq[t] else 0) + 1];
    }
    assert tokens[..|tokens|] == tokens;
  }

  lemma {:induction false} TermPresence(tokens: seq<Token>, t: Token)
    ensures TermFrequency(tokens, t) > 0 <==> t in tokens
  {
    if |tokens| > 0 {
      TermPresence(tokens[..|tokens| - 1], t);
      assert tokens == tokens[..|tokens| - 1] + [tokens[|tokens| - 1]];
    }
  }

  lemma AbsentTerms(tokens: seq<Token>)
    ensures forall t :: t !in tokens ==> TermFrequency(tokens, t) == 0
  {
    forall t | t !in tokens ensures TermFrequency(tokens, t) == 0 {
      TermPresence(tokens, t);
    }
  }

  method CountDocs(tokenizedDocs: seq<seq<Token>>, term: Token) returns (n: nat)
    ensures n == DocFrequency(tokenizedDocs, term)
  {
    n := 0;
    for i := 0 to |tokenizedDocs|
      invariant n == DocFrequency(tokenizedDocs[..i], term)
    {
      assert tokenizedDocs[..i + 1][..i] == tokenizedDocs[..i];
      if term in tokenizedDocs[i] {
        n := n + 1;
      }
    }
    assert tokenizedDocs[..|tokenizedDocs|] == tokenizedDocs;
  }

  /** One vector per document, one entry per vocabulary term. */
  method ComputeTfidf(tokenized: seq<seq<Token>>, ln: real -> real) returns (vectors: seq<seq<real>>, vocab: seq<Token>)
    ensures Enumerates(vocab, Vocabulary(tokenized))
    ensures |vectors| == |tokenized|
    ensures forall i :: 0 <= i < |vectors| ==> vectors[i] == Vector(tokenized, i, vocab, ln)
  {
    var vocabulary := CollectVocabulary(tokenized);
    vocab := ListVocabulary(vocabulary);
    hide Enumerates, Vocabulary, TermFrequency;
    vectors := [];
    for i := 0 to |tokenized|
      invariant |vectors| == i
      invariant forall k :: 0 <= k < i ==> vectors[k] == Vector(tokenized, k, vocab, ln)
    {
      var termFreq := CountTerms(tokenized[i]);
      AbsentTerms(tokenized[i]);
      var vector: seq<real> := [];
      for k := 0 to |vocab|
        invariant vector == Vector(tokenized, i, vocab, ln)[..k]
      {
        var term := vocab[k];
        var tf := if term in termFreq then termFreq[term] else 0;
        var df := CountDocs(tokenized, term);
        var idf := ln((|tokenized| + 1) as real / (df + 1) as real) + 1.0;
        assert tf as real * idf == TfIdf(tokenized, i, term, ln);
        vector := vector + [tf as real * idf];
      }
      vectors := vectors + [vector];
    }
  }

  method CosineSimilarity(vecA: seq<real>, vecB: seq<real>, sqrt: real -> real) returns (s: real)
    requires IsSqrt(sqrt)
    ensures s == Cosine(vecA, vecB, sqrt)
  {
    if |vecA| != |vecB| {
      return 0.0;
    }
    var dot, magA, magB := 0.0, 0.0, 0.0;
    for i := 0 to |vecA|
      invariant dot == Dot(vecA[..i], vecB[..i])
      invariant magA == Dot(vecA[..i], vecA[..i])
      invariant magB == Dot(vecB[..i], vecB[..i])
    {
      assert vecA[..i + 1][..i] == vecA[..i] && vecB[..i + 1][..i] == vecB[..i];
      dot := dot + vecA[i] * vecB[i];
      magA := magA + vecA[i] * vecA[i];
      magB := magB + vecB[i] * vecB[i];
    }
    assert vecA[..|vecA|] == vecA && vecB[..|vecB|] == vecB;
    if magA == 0.0 || magB == 0.0 {
      return 0.0;
    }
    SelfDot(vecA);
    SelfDot(vecB);
    RootsMultiply(magA, magB, sqrt);
    s := dot / (sqrt(magA) * sqrt(magB));
  }

  // ---------------------------------------------------------------------------
  // Cauchy-Schwarz
  // ---------------------------------------------------------------------------

  lemma SquareOrder(x: real, y: real)
    requires x > y >= 0.0
    ensures x * x > y * y
  {
    assert x * (x - y) > 0.0;
    assert y * (x - y) >= 0.0;
  }

  lemma RootOrder(x: real, y: real)
    requires y >= 0.0 && x * x <= y * y
    ensures -y <= x <= y
  {
    if x > y {
      SquareOrder(x, y);
    }
    if -x > y {
      SquareOrder(-x, y);
    }
  }

  lemma SquareEquality(x: real, y: real)
    requires y > 0.0
    ensures x == y <==> x > 0.0 && x * x == y * y
  {
    if x > 0.0 && x * x == y * y {
      RootOrder(x, y);
      RootOrder(y, x);
    }
  }

  lemma ArithmeticGeometric(m: real, p: real, q: real)
    requires p >= 0.0 && q >= 0.0 && m * m <= p * q
    ensures 2.0 * m <= p + q
  {
    SquareIsNonNegative(p - q);
    assert (p + q) * (p + q) == (p - q) * (p - q) + 4.0 * (p * q);
    assert (2.0 * m) * (2.0 * m) == 4.0 * (m * m);
    RootOrder(2.0 * m, p + q);
  }

  lemma CauchyCross(d: real, x: real, y: real, c: real, s: real, m: real, p: real, q: real)
    requires d * d <= x * y && s == c * c && m == d * c && p * q == s * (x * y)
    ensures m * m <= p * q
  {
    SquareIsNonNegative(c);
    assert m * m == s * (d * d);
    assert s * (x * y - d * d) == s * (x * y) - s * (d * d);
  }

  lemma CauchyArithmetic(d: real, x: real, y: real, a: real, b: real)
    requires x >= 0.0 && y >= 0.0 && d * d <= x * y
    ensures (d + a * b) * (d + a * b) <= (x + a * a) * (y + b * b)
  {
    var p, q, m := x * (b * b), y * (a * a), d * (a * b);
    assert p * q == ((a * b) * (a * b)) * (x * y);
    CauchyCross(d, x, y, a * b, (a * b) * (a * b), m, p, q);
    ArithmeticGeometric(m, p, q);
    CauchyExpand(d, x, y, a, b, p, q, m);
  }

  lemma CauchyExpand(d: real, x: real, y: real, a: real, b: real, p: real, q: real, m: real)
    requires p == x * (b * b) && q == y * (a * a) && m == d * (a * b)
    ensures (d + a * b) * (d + a * b) == d * d + 2.0 * m + (a * a) * (b * b)
    ensures (x + a * a) * (y + b * b) == x * y + p + q + (a * a) * (b * b)
  {
  }

  lemma {:induction false} CauchySchwarz(a: seq<real>, b: seq<real>)
    requires |a| == |b|
    ensures Dot(a, b) * Dot(a, b) <= Dot(a, a) * Dot(b, b)
  {
    if |a| > 0 {
      var a', b' := a[..|a| - 1], b[..|b| - 1];
      CauchySchwarz(a', b');
      SelfDot(a');
      SelfDot(b');
      CauchyArithmetic(Dot(a', b'), Dot(a', a'), Dot(b', b'), a[|a| - 1], b[|b| - 1]);
    }
  }

  lemma QuotientBounds(n: real, d: real, q: real)
    requires d > 0.0 && q == n / d && -d <= n <= d
    ensures -1.0 <= q <= 1.0
  {
  }

  lemma QuotientOne(n: real, d: real, q: real)
    requires d > 0.0 && q * d == n
    ensures q == 1.0 <==> n == d
    ensures q == 0.0 <==> n == 0.0
  {
    if n == d {
      ZeroProduct(q - 1.0, d);
    }
    if n == 0.0 {
      ZeroProduct(q, d);
    }
  }

  lemma ZeroProduct(x: real, d: real)
    requires d > 0.0 && x * d == 0.0
    ensures x == 0.0
  {
    SignOfProduct(x, d);
  }

  lemma SignOfProduct(x: real, d: real)
    requires d > 0.0
    ensures x > 0.0 ==> x * d > 0.0
    ensures x < 0.0 ==> x * d < 0.0
  {
    if x < 0.0 {
      assert (-x) * d > 0.0;
    }
  }

  lemma QuotientInUnit(n: real, d: real)
    requires d > 0.0 && n * n <= d * d
    ensures -1.0 <= n / d <= 1.0
    ensures n / d == 0.0 <==> n == 0.0
    ensures n / d == 1.0 <==> n == d
  {
    RootOrder(n, d);
    QuotientBounds(n, d, n / d);
    QuotientOne(n, d, n / d);
  }

  lemma NormalisedRange(d: real, x: real, y: real, sqrt: real -> real)
    requires IsSqrt(sqrt) && x > 0.0 && y > 0.0 && d * d <= x * y
    ensures -1.0 <= NormalisedDot(d, x, y, sqrt) <= 1.0
    ensures NormalisedDot(d, x, y, sqrt) == 0.0 <==> d == 0.0
    ensures d > 0.0 ==> NormalisedDot(d, x, y, sqrt) > 0.0
    ensures NormalisedDot(d, x, y, sqrt) == 1.0 <==> d > 0.0 && d * d == x * y
    ensures NormalisedDot(d, x, y, sqrt) == NormalisedDot(d, y, x, sqrt)
  {
    RootsMultiply(x, y, sqrt);
    var root := sqrt(x) * sqrt(y);
    assert sqrt(y) * sqrt(x) == root;
    assert NormalisedDot(d, x, y, sqrt) == NormalisedDot(d, y, x, sqrt) == d / root;
    assert d * d <= root * root;
    hide *;
    SquareEquality(d, root);
    QuotientInUnit(d, root);
    PositiveQuotient(d, root);
  }

  lemma CosineOfNonZero(a: seq<real>, b: seq<real>, sqrt: real -> real)
    requires IsSqrt(sqrt) && |a| == |b| && Dot(a, a) != 0.0 && Dot(b, b) != 0.0
    ensures -1.0 <= Cosine(a, b, sqrt) <= 1.0
    ensures Cosine(a, b, sqrt) == 0.0 <==> Dot(a, b) == 0.0
    ensures Dot(a, b) > 0.0 ==> Cosine(a, b, sqrt) > 0.0
    ensures Cosine(a, b, sqrt) == 1.0 <==> Dot(a, b) > 0.0 && Dot(a, b) * Dot(a, b) == Dot(a, a) * Dot(b, b)
  {
    hide Dot, NormalisedDot, IsSqrt;
    SelfDot(a);
    SelfDot(b);
    CauchySchwarz(a, b);
    NormalisedRange(Dot(a, b), Dot(a, a), Dot(b, b), sqrt);
  }

  lemma PositiveQuotient(n: real, d: real)
    requires d > 0.0
    ensures n > 0.0 ==> n / d > 0.0
  {
  }

  /** The cosine lies between -1 and 1, and is 1 for a non-zero vector with itself. */
  lemma CosineRange(a: seq<real>, b: seq<real>, sqrt: real -> real)
    requires IsSqrt(sqrt)
    ensures -1.0 <= Cosine(a, b, sqrt) <= 1.0
    ensures Dot(a, a) != 0.0 ==> Cosine(a, a, sqrt) == 1.0
  {
    if |a| == |b| && Dot(a, a) != 0.0 && Dot(b, b) != 0.0 {
      CosineOfNonZero(a, b, sqrt);
    }
    if Dot(a, a) != 0.0 {
      SelfDot(a);
      CosineOfNonZero(a, a, sqrt);
    }
  }

  // ---------------------------------------------------------------------------
  // The similarity of two texts
  // ---------------------------------------------------------------------------

  lemma {:induction false} DocFrequencyBound(docs: seq<seq<Token>>, term: Token)
    ensures DocFrequency(docs, term) <= |docs|
  {
    if |docs| > 0 {
      DocFrequencyBound(docs[..|docs| - 1], term);
    }
  }

  lemma IdfAtLeastOne(docs: seq<seq<Token>>, term: Token, ln: real -> real)
    requires IsLog(ln)
    ensures Idf(docs, term, ln) >= 1.0
  {
    DocFrequencyBound(docs, term);
    AtLeastOne((|docs| + 1) as real, (DocFrequency(docs, term) + 1) as real);
  }

  lemma AtLeastOne(n: real, d: real)
    requires n >= d > 0.0
    ensures n / d >= 1.0
  {
  }

  /** An entry is zero exactly when the document lacks the term, and otherwise positive. */
  lemma EntryPresence(docs: seq<seq<Token>>, i: nat, term: Token, ln: real -> real)
    requires IsLog(ln) && i < |docs|
    ensures TfIdf(docs, i, term, ln) >= 0.0
    ensures TfIdf(docs, i, term, ln) > 0.0 <==> term in docs[i]
  {
    IdfAtLeastOne(docs, term, ln);
    TermPresence(docs[i], term);
    hide Idf, TermFrequency;
    var n, w := TermFrequency(docs[i], term) as real, Idf(docs, term, ln);
    assert n > 0.0 <==> term in docs[i];
    assert TfIdf(docs, i, term, ln) == n * w;
    PositiveProduct(n, w);
  }

  lemma PositiveProduct(a: real, b: real)
    requires a >= 0.0 && b > 0.0
    ensures a * b >= 0.0 && (a * b > 0.0 <==> a > 0.0)
  {
  }

  function EntryProduct(docs: seq<seq<Token>>, i: nat, j: nat, ln: real -> real): Token -> real
    requires i < |docs| && j < |docs|
  {
    t => TfIdf(docs, i, t, ln) * TfIdf(docs, j, t, ln)
  }

  /** A dot product of two document vectors is a sum over the vocabulary. */
  lemma {:induction false} DotAsSum(docs: seq<seq<Token>>, i: nat, j: nat, vocab: seq<Token>, ln: real -> real)
    requires i < |docs| && j < |docs|
    ensures Dot(Vector(docs, i, vocab, ln), Vector(docs, j, vocab, ln)) == SumBy(EntryProduct(docs, i, j, ln), vocab)
  {
    if |vocab| > 0 {
      var init := vocab[..|vocab| - 1];
      DotAsSum(docs, i, j, init, ln);
      hide TfIdf;
      assert Vector(docs, i, vocab, ln)[..|vocab| - 1] == Vector(docs, i, init, ln);
      assert Vector(docs, j, vocab, ln)[..|vocab| - 1] == Vector(docs, j, init, ln);
    }
  }

  lemma EntryProductSign(docs: seq<seq<Token>>, i: nat, j: nat, t: Token, ln: real -> real)
    requires IsLog(ln) && i < |docs| && j < |docs|
    ensures EntryProduct(docs, i, j, ln)(t) >= 0.0
    ensures EntryProduct(docs, i, j, ln)(t) > 0.0 <==> t in docs[i] && t in docs[j]
  {
    EntryPresence(docs, i, t, ln);
    EntryPresence(docs, j, t, ln);
    hide TfIdf;
    var a, b := TfIdf(docs, i, t, ln), TfIdf(docs, j, t, ln);
    if b > 0.0 {
      PositiveProduct(a, b);
    }
  }

  /** The dot product of two document vectors vanishes exactly when the documents
      share no token. */
  lemma DotSign(docs: seq<seq<Token>>, i: nat, j: nat, vocab: seq<Token>, ln: real -> real)
    requires IsLog(ln) && i < |docs| && j < |docs| && Enumerates(vocab, Vocabulary(docs))
    ensures var d := Dot(Vector(docs, i, vocab, ln), Vector(docs, j, vocab, ln));
            d >= 0.0 && (d > 0.0 <==> exists t :: t in docs[i] && t in docs[j])
  {
    var f := EntryProduct(docs, i, j, ln);
    DotAsSum(docs, i, j, vocab, ln);
    forall t ensures f(t) >= 0.0 && (f(t) > 0.0 <==> t in docs[i] && t in docs[j]) {
      EntryProductSign(docs, i, j, t, ln);
    }
    hide EntryProduct, Dot, SumBy;
    SumByNonNegative(f, vocab);
    if t :| t in docs[i] && t in docs[j] {
      assert docs[i] in docs && t in Vocabulary(docs);
      assert t in vocab && f(t) > 0.0;
    }
  }

  function Similarity(a: seq<Token>, b: seq<Token>, vocab: seq<Token>, ln: real -> real, sqrt: real -> real): real
    requires IsSqrt(sqrt)
  {
    Cosine(Vector([a, b], 0, vocab, ln), Vector([a, b], 1, vocab, ln), sqrt)
  }

  lemma TextDots(a: seq<Token>, b: seq<Token>, vocab: seq<Token>, ln: real -> real)
    requires IsLog(ln) && Enumerates(vocab, Vocabulary([a, b]))
    ensures var u, v := Vector([a, b], 0, vocab, ln), Vector([a, b], 1, vocab, ln);
            && (Dot(u, u) == 0.0 <==> a == [])
            && (Dot(v, v) == 0.0 <==> b == [])
            && Dot(u, v) >= 0.0
            && (Dot(u, v) == 0.0 <==> !exists t :: t in a && t in b)
            && (a == b ==> u == v)
  {
    hide TfIdf, Dot, Vector;
    var docs := [a, b];
    SelfDotOfText(docs, 0, vocab, ln);
    SelfDotOfText(docs, 1, vocab, ln);
    DotSign(docs, 0, 1, vocab, ln);
    if a == b {
      EqualTexts(a, vocab, ln);
    }
  }

  lemma SelfDotOfText(docs: seq<seq<Token>>, i: nat, vocab: seq<Token>, ln: real -> real)
    requires IsLog(ln) && i < |docs| && Enumerates(vocab, Vocabulary(docs))
    ensures Dot(Vector(docs, i, vocab, ln), Vector(docs, i, vocab, ln)) == 0.0 <==> docs[i] == []
  {
    hide TfIdf, Dot, Vocabulary;
    DotSign(docs, i, i, vocab, ln);
    if docs[i] != [] {
      assert docs[i][0] in docs[i];
    }
  }

  lemma EqualTexts(a: seq<Token>, vocab: seq<Token>, ln: real -> real)
    ensures Vector([a, a], 0, vocab, ln) == Vector([a, a], 1, vocab, ln)
  {
    var docs := [a, a];
    assert docs[0] == docs[1];
    forall k | 0 <= k < |vocab|
      ensures Vector(docs, 0, vocab, ln)[k] == Vector(docs, 1, vocab, ln)[k]
    {
      hide TermFrequency, Idf;
    }
  }

  /** The similarity of two texts lies in [0, 1]; it is 0 exactly when they share
      no token, and 1 for equal texts with at least one token. */
  lemma SimilarityRange(a: seq<Token>, b: seq<Token>, vocab: seq<Token>, ln: real -> real, sqrt: real -> real)
    requires IsLog(ln) && IsSqrt(sqrt) && Enumerates(vocab, Vocabulary([a, b]))
    ensures 0.0 <= Similarity(a, b, vocab, ln, sqrt) <= 1.0
    ensures Similarity(a, b, vocab, ln, sqrt) == 0.0 <==> !exists t :: t in a && t in b
    ensures a == b && a != [] ==> Similarity(a, b, vocab, ln, sqrt) == 1.0
  {
    hide Dot, Vocabulary, TfIdf, IsLog, Enumerates, NormalisedDot;
    TextDots(a, b, vocab, ln);
    var u, v := Vector([a, b], 0, vocab, ln), Vector([a, b], 1, vocab, ln);
    assert |u| == |v|;
    hide Vector;
    if a != [] && b != [] {
      SelfDot(u);
      CosineOfNonZero(u, v, sqrt);
    }
  }

  // ---------------------------------------------------------------------------
  // Order does not matter
  // ---------------------------------------------------------------------------

  lemma {:induction false} OneOfEach(vocab: seq<Token>, t: Token)
    requires forall i, j :: 0 <= i < j < |vocab| ==> vocab[i] != vocab[j]
    ensures multiset(vocab)[t] == if t in vocab then 1 else 0
  {
    if |vocab| > 0 {
      var init, last := vocab[..|vocab| - 1], vocab[|vocab| - 1];
      OneOfEach(init, t);
      assert vocab == init + [last];
    }
  }

  lemma EnumerationsArePermutations(v: seq<Token>, w: seq<Token>, terms: set<Token>)
    requires Enumerates(v, terms) && Enumerates(w, terms)
    ensures multiset(v) == multiset(w)
  {
    forall t ensures multiset(v)[t] == multiset(w)[t] {
      OneOfEach(v, t);
      OneOfEach(w, t);
    }
  }

  lemma SwappedDocuments(a: seq<Token>, b: seq<Token>, i: nat, t: Token, ln: real -> real)
    requires i < 2
    ensures Vocabulary([a, b]) == Vocabulary([b, a])
    ensures TfIdf([a, b], i, t, ln) == TfIdf([b, a], 1 - i, t, ln)
  {
    assert [a, b][..1] == [a] && [b, a][..1] == [b] && [a][..0] == [] && [b][..0] == [];
    assert DocFrequency([a, b], t) == DocFrequency([b, a], t);
  }

  lemma SwappedDot(a: seq<Token>, b: seq<Token>, i: nat, j: nat, v: seq<Token>, w: seq<Token>, ln: real -> real)
    requires i < 2 && j < 2 && Enumerates(v, Vocabulary([a, b])) && Enumerates(w, Vocabulary([b, a]))
    ensures Dot(Vector([a, b], i, v, ln), Vector([a, b], j, v, ln))
         == Dot(Vector([b, a], 1 - i, w, ln), Vector([b, a], 1 - j, w, ln))
  {
    SwappedDocuments(a, b, i, "", ln);
    EnumerationsArePermutations(v, w, Vocabulary([a, b]));
    DotAsSum([a, b], i, j, v, ln);
    DotAsSum([b, a], 1 - i, 1 - j, w, ln);
    SwappedProducts(a, b, i, j, ln);
    hide *;
    SumByPermutation(EntryProduct([a, b], i, j, ln), v, w);
    SumByCong(EntryProduct([a, b], i, j, ln), EntryProduct([b, a], 1 - i, 1 - j, ln), w);
  }

  lemma SwappedProducts(a: seq<Token>, b: seq<Token>, i: nat, j: nat, ln: real -> real)
    requires i < 2 && j < 2
    ensures forall t :: EntryProduct([a, b], i, j, ln)(t) == EntryProduct([b, a], 1 - i, 1 - j, ln)(t)
  {
    hide TfIdf;
    forall t ensures EntryProduct([a, b], i, j, ln)(t) == EntryProduct([b, a], 1 - i, 1 - j, ln)(t) {
      SwappedDocuments(a, b, i, t, ln);
      SwappedDocuments(a, b, j, t, ln);
    }
  }

  lemma {:induction false} DotIsSymmetric(a: seq<real>, b: seq<real>)
    requires |a| == |b|
    ensures Dot(a, b) == Dot(b, a)
  {
    if |a| > 0 {
      DotIsSymmetric(a[..|a| - 1], b[..|b| - 1]);
    }
  }

  /** The similarity is symmetric, and no ordering of the vocabulary changes it. */
  lemma SimilarityIsSymmetric(a: seq<Token>, b: seq<Token>, v: seq<Token>, w: seq<Token>, ln: real -> real,
                              sqrt: real -> real)
    requires IsSqrt(sqrt) && Enumerates(v, Vocabulary([a, b])) && Enumerates(w, Vocabulary([b, a]))
    ensures Similarity(a, b, v, ln, sqrt) == Similarity(b, a, w, ln, sqrt)
  {
    hide Dot, TfIdf, Vocabulary, IsSqrt, Enumerates, NormalisedDot;
    SwappedDot(a, b, 0, 0, v, w, ln);
    SwappedDot(a, b, 1, 1, v, w, ln);
    SwappedDot(a, b, 0, 1, v, w, ln);
    var p, q := Vector([b, a], 0, w, ln), Vector([b, a], 1, w, ln);
    DotIsSymmetric(p, q);
    if Dot(p, p) != 0.0 && Dot(q, q) != 0.0 {
      SelfDot(p);
      SelfDot(q);
      CauchySchwarz(p, q);
      NormalisedRange(Dot(p, q), Dot(p, p), Dot(q, q), sqrt);
    }
  }

  // ---------------------------------------------------------------------------
  // When the similarity is one
  // ---------------------------------------------------------------------------

  predicate IsMultiple(a: seq<real>, b: seq<real>, l: real)
    requires |a| == |b|
  {
    forall i :: 0 <= i < |a| ==> b[i] == l * a[i]
  }

  function Squared(x: real): real {
    x * x
  }

  function Gap(x: real, y: real, l: real): real {
    Squared(y - l * x)
  }

  lemma GapSign(x: real, y: real, l: real)
    ensures y == l * x ==> Gap(x, y, l) == 0.0
    ensures y != l * x ==> Gap(x, y, l) > 0.0
  {
    hide Squared;
    SquaredSign(y - l * x);
  }

  lemma SquaredSign(x: real)
    ensures x == 0.0 ==> Squared(x) == 0.0
    ensures x != 0.0 ==> Squared(x) > 0.0
  {
    if x != 0.0 {
      NonZeroSquare(x, Squared(x));
    }
  }

  /** The squared distance of b from l times a. */
  function Residual(a: seq<real>, b: seq<real>, l: real): real
    requires |a| == |b|
  {
    if |a| == 0 then 0.0
    else Residual(a[..|a| - 1], b[..|b| - 1], l) + Gap(a[|a| - 1], b[|b| - 1], l)
  }

  /** The same distance by three dot products: x = a.a, d = a.b, y = b.b. */
  function Expansion(l: real, x: real, d: real, y: real): real {
    y - 2.0 * l * d + l * l * x
  }

  lemma ExpansionTerm(l: real, x: real, y: real)
    ensures Expansion(l, x * x, x * y, y * y) == Gap(x, y, l)
  {
  }

  lemma ExpansionAdd(l: real, x: real, d: real, y: real, x': real, d': real, y': real, x'': real, d'': real, y'': real)
    requires x'' == x + x' && d'' == d + d' && y'' == y + y'
    ensures Expansion(l, x'', d'', y'') == Expansion(l, x, d, y) + Expansion(l, x', d', y')
  {
  }

  lemma EmptyExpansion(l: real)
    ensures Expansion(l, 0.0, 0.0, 0.0) == 0.0
  {
  }

  lemma {:induction false} ResidualExpansion(a: seq<real>, b: seq<real>, l: real)
    requires |a| == |b|
    ensures Residual(a, b, l) == Expansion(l, Dot(a, a), Dot(a, b), Dot(b, b))
  {
    hide Expansion, Gap;
    if |a| == 0 {
      EmptyExpansion(l);
    } else {
      var a', b', x, y := a[..|a| - 1], b[..|b| - 1], a[|a| - 1], b[|b| - 1];
      ResidualExpansion(a', b', l);
      ExpansionTerm(l, x, y);
      ExpansionAdd(l, Dot(a', a'), Dot(a', b'), Dot(b', b'), x * x, x * y, y * y, Dot(a, a), Dot(a, b), Dot(b, b));
    }
  }

  lemma {:induction false} ResidualIsZero(a: seq<real>, b: seq<real>, l: real)
    requires |a| == |b|
    ensures Residual(a, b, l) >= 0.0
    ensures Residual(a, b, l) == 0.0 <==> IsMultiple(a, b, l)
  {
    if |a| > 0 {
      var a', b', x, y := a[..|a| - 1], b[..|b| - 1], a[|a| - 1], b[|b| - 1];
      ResidualIsZero(a', b', l);
      GapSign(x, y, l);
      hide Gap;
      assert IsMultiple(a, b, l) <==> IsMultiple(a', b', l) && y == l * x;
    }
  }

  lemma NonZeroSquare(x: real, square: real)
    requires x != 0.0 && square == x * x
    ensures square > 0.0
  {
    if x > 0.0 {
      ProductIsPositive(x, x, square);
    } else {
      ProductIsPositive(-x, -x, square);
    }
  }

  lemma ProductIsPositive(x: real, y: real, p: real)
    requires x > 0.0 && y > 0.0 && p == x * y
    ensures p > 0.0
  {
  }

  lemma SameTimes(l: real, x: real, y: real)
    requires x == y
    ensures l * x == l * y
  {
  }

  lemma EqualityArithmetic(x: real, d: real, y: real, l: real)
    requires x > 0.0 && l * x == d
    ensures Expansion(l, x, d, y) == 0.0 <==> d * d == x * y
  {
    assert l * l * x == l * d;
    assert x * (y - l * d) == x * y - d * d;
    if d * d == x * y {
      ZeroProduct(y - l * d, x);
    }
  }

  /** Cauchy-Schwarz is an equality exactly when b is a multiple of a. */
  lemma CauchySchwarzEquality(a: seq<real>, b: seq<real>, l: real)
    requires |a| == |b| && Dot(a, a) > 0.0 && l * Dot(a, a) == Dot(a, b)
    ensures Dot(a, b) * Dot(a, b) == Dot(a, a) * Dot(b, b) <==> IsMultiple(a, b, l)
  {
    hide Dot, Residual, IsMultiple, Expansion;
    ResidualExpansion(a, b, l);
    ResidualIsZero(a, b, l);
    EqualityArithmetic(Dot(a, a), Dot(a, b), Dot(b, b), l);
  }

  /** Every token makes up the same share of both texts. */
  ghost predicate SameShares(a: seq<Token>, b: seq<Token>) {
    forall t :: |b| * TermFrequency(a, t) == |a| * TermFrequency(b, t)
  }

  function Occurrences(tokens: seq<Token>): Token -> real {
    t => TermFrequency(tokens, t) as real
  }

  function Equals(token: Token): Token -> real {
    t => if t == token then 1.0 else 0.0
  }

  lemma {:induction false} OneOccurrence(vocab: seq<Token>, token: Token)
    requires forall i, j :: 0 <= i < j < |vocab| ==> vocab[i] != vocab[j]
    ensures SumBy(Equals(token), vocab) == if token in vocab then 1.0 else 0.0
  {
    if |vocab| > 0 {
      var init := vocab[..|vocab| - 1];
      OneOccurrence(init, token);
      assert vocab == init + [vocab[|vocab| - 1]];
    }
  }

  lemma {:induction false} NoOccurrences(vocab: seq<Token>)
    ensures SumBy(Occurrences([]), vocab) == 0.0
  {
    if |vocab| > 0 {
      NoOccurrences(vocab[..|vocab| - 1]);
    }
  }

  /** The occurrences of all tokens of a vocabulary add up to the length of the text. */
  lemma {:induction false} OccurrencesSum(tokens: seq<Token>, vocab: seq<Token>)
    requires forall i, j :: 0 <= i < j < |vocab| ==> vocab[i] != vocab[j]
    requires forall t :: t in tokens ==> t in vocab
    ensures SumBy(Occurrences(tokens), vocab) == |tokens| as real
  {
    if |tokens| == 0 {
      assert tokens == [];
      NoOccurrences(vocab);
    } else {
      var init, last := tokens[..|tokens| - 1], tokens[|tokens| - 1];
      OccurrencesSum(init, vocab);
      OneOccurrence(vocab, last);
      SumByAdd(Occurrences(init), Equals(last), Occurrences(tokens), vocab);
    }
  }

  /** The share of b in a's terms: one factor for all tokens. */
  ghost predicate Scaled(a: seq<Token>, b: seq<Token>, l: real) {
    forall t :: TermFrequency(b, t) as real == l * TermFrequency(a, t) as real
  }

  lemma ListsEveryToken(a: seq<Token>, b: seq<Token>, vocab: seq<Token>)
    requires Enumerates(vocab, Vocabulary([a, b]))
    ensures forall i, j :: 0 <= i < j < |vocab| ==> vocab[i] != vocab[j]
    ensures forall t :: t in a || t in b ==> t in vocab
  {
    forall t | t in a || t in b ensures t in Vocabulary([a, b]) {
      assert [a, b][0] == a && [a, b][1] == b;
    }
  }

  lemma ScaledOccurrences(a: seq<Token>, b: seq<Token>, l: real, t: Token)
    requires Scaled(a, b, l)
    ensures Occurrences(b)(t) == l * Occurrences(a)(t)
  {
    hide TermFrequency;
    assert TermFrequency(b, t) as real == l * TermFrequency(a, t) as real;
  }

  lemma ScaledLengths(a: seq<Token>, b: seq<Token>, vocab: seq<Token>, l: real)
    requires Scaled(a, b, l) && Enumerates(vocab, Vocabulary([a, b]))
    ensures |b| as real == l * |a| as real
  {
    hide *;
    ListsEveryToken(a, b, vocab);
    OccurrencesSum(a, vocab);
    OccurrencesSum(b, vocab);
    forall t ensures Occurrences(b)(t) == l * Occurrences(a)(t) {
      ScaledOccurrences(a, b, l, t);
    }
    SumByScale(l, Occurrences(a), Occurrences(b), vocab);
    SameTimes(l, SumBy(Occurrences(a), vocab), |a| as real);
  }

  lemma ShareArithmetic(m: nat, n: nat, x: nat, y: nat, l: real)
    requires m > 0 && n as real == l * m as real
    ensures n * x == m * y <==> y as real == l * x as real
  {
    assert (n * x) as real == l * (m as real * x as real);
    assert (m * y) as real == m as real * y as real;
    assert m as real * (y as real - l * x as real) == (m * y) as real - (n * x) as real;
    if n * x == m * y {
      ZeroProduct(y as real - l * x as real, m as real);
    }
  }

  lemma ScaledIsSameShares(a: seq<Token>, b: seq<Token>, l: real)
    requires |a| > 0 && |b| as real == l * |a| as real
    ensures Scaled(a, b, l) <==> SameShares(a, b)
  {
    hide TermFrequency;
    forall t
      ensures |b| * TermFrequency(a, t) == |a| * TermFrequency(b, t)
         <==> TermFrequency(b, t) as real == l * TermFrequency(a, t) as real
    {
      ShareArithmetic(|a|, |b|, TermFrequency(a, t), TermFrequency(b, t), l);
    }
  }

  lemma CancelWeight(x: real, y: real, l: real, w: real, e: real, f: real)
    requires w > 0.0 && e == x * w && f == y * w
    ensures f == l * e <==> y == l * x
  {
    assert f - l * e == (y - l * x) * w;
    if f == l * e {
      ZeroProduct(y - l * x, w);
    }
  }

  lemma TfIdfForm(a: seq<Token>, b: seq<Token>, t: Token, ln: real -> real)
    ensures TfIdf([a, b], 0, t, ln) == TermFrequency(a, t) as real * Idf([a, b], t, ln)
    ensures TfIdf([a, b], 1, t, ln) == TermFrequency(b, t) as real * Idf([a, b], t, ln)
  {
    hide TermFrequency, Idf;
    assert [a, b][0] == a && [a, b][1] == b;
  }

  lemma EntryIsScaled(a: seq<Token>, b: seq<Token>, t: Token, ln: real -> real, l: real)
    requires IsLog(ln)
    ensures TfIdf([a, b], 1, t, ln) == l * TfIdf([a, b], 0, t, ln)
       <==> TermFrequency(b, t) as real == l * TermFrequency(a, t) as real
  {
    hide *;
    IdfAtLeastOne([a, b], t, ln);
    TfIdfForm(a, b, t, ln);
    CancelWeight(TermFrequency(a, t) as real, TermFrequency(b, t) as real, l, Idf([a, b], t, ln),
                 TfIdf([a, b], 0, t, ln), TfIdf([a, b], 1, t, ln));
  }

  lemma UnlistedTerm(a: seq<Token>, b: seq<Token>, vocab: seq<Token>, t: Token)
    requires Enumerates(vocab, Vocabulary([a, b])) && t !in vocab
    ensures TermFrequency(a, t) == 0 && TermFrequency(b, t) == 0
  {
    assert [a, b][0] == a && [a, b][1] == b;
    TermPresence(a, t);
    TermPresence(b, t);
  }

  /** The vectors are multiples of each other exactly when the texts are. */
  lemma VectorsAreScaled(a: seq<Token>, b: seq<Token>, vocab: seq<Token>, ln: real -> real, l: real)
    requires IsLog(ln) && Enumerates(vocab, Vocabulary([a, b]))
    ensures IsMultiple(Vector([a, b], 0, vocab, ln), Vector([a, b], 1, vocab, ln), l) <==> Scaled(a, b, l)
  {
    hide TfIdf, TermFrequency, IsLog, Enumerates, Vocabulary;
    var u, v := Vector([a, b], 0, vocab, ln), Vector([a, b], 1, vocab, ln);
    forall t
      ensures TfIdf([a, b], 1, t, ln) == l * TfIdf([a, b], 0, t, ln)
         <==> TermFrequency(b, t) as real == l * TermFrequency(a, t) as real
      ensures t !in vocab ==> TermFrequency(b, t) as real == l * TermFrequency(a, t) as real
    {
      EntryIsScaled(a, b, t, ln, l);
      if t !in vocab {
        UnlistedTerm(a, b, vocab, t);
      }
    }
    if IsMultiple(u, v, l) {
      forall t ensures TermFrequency(b, t) as real == l * TermFrequency(a, t) as real {
        if t in vocab {
          var k :| 0 <= k < |vocab| && vocab[k] == t;
          assert v[k] == l * u[k];
        }
      }
    }
  }

  lemma {:induction false} MultipleDot(a: seq<real>, b: seq<real>, l: real)
    requires |a| == |b| && IsMultiple(a, b, l)
    ensures Dot(a, b) == l * Dot(a, a)
  {
    if |a| > 0 {
      var a', b', x, y := a[..|a| - 1], b[..|b| - 1], a[|a| - 1], b[|b| - 1];
      MultipleDot(a', b', l);
      assert y == l * x;
      assert x * y == l * (x * x);
      assert l * Dot(a', a') + l * (x * x) == l * (Dot(a', a') + x * x);
    }
  }

  lemma PositiveTimes(x: real, y: real)
    requires x > 0.0 && y > 0.0
    ensures x * y > 0.0
  {
  }

  /** The similarity is 1 exactly for two non-empty texts in which every token makes
      up the same share. */
  lemma SimilarityIsOne(a: seq<Token>, b: seq<Token>, vocab: seq<Token>, ln: real -> real, sqrt: real -> real)
    requires IsLog(ln) && IsSqrt(sqrt) && Enumerates(vocab, Vocabulary([a, b]))
    ensures Similarity(a, b, vocab, ln, sqrt) == 1.0 <==> a != [] && b != [] && SameShares(a, b)
  {
    hide Dot, Vocabulary, TfIdf, IsLog, Enumerates, NormalisedDot, SameShares, Scaled, IsMultiple, IsSqrt;
    if a == [] || b == [] {
      SimilarityRange(a, b, vocab, ln, sqrt);
    } else {
      TextDots(a, b, vocab, ln);
      var u, v := Vector([a, b], 0, vocab, ln), Vector([a, b], 1, vocab, ln);
      assert |u| == |v|;
      hide Vector;
      SelfDot(u);
      CosineOfNonZero(u, v, sqrt);
      if SameShares(a, b) {
        var l := |b| as real / |a| as real;
        ScaledIsSameShares(a, b, l);
        VectorsAreScaled(a, b, vocab, ln, l);
        MultipleDot(u, v, l);
        PositiveTimes(l, Dot(u, u));
        CauchySchwarzEquality(u, v, l);
      }
      if Similarity(a, b, vocab, ln, sqrt) == 1.0 {
        var l := Dot(u, v) / Dot(u, u);
        CauchySchwarzEquality(u, v, l);
        VectorsAreScaled(a, b, vocab, ln, l);
        ScaledLengths(a, b, vocab, l);
        ScaledIsSameShares(a, b, l);
      }
    }
  }

  lemma SimilarityIgnoresListing(a: seq<Token>, b: seq<Token>, v: seq<Token>, w: seq<Token>, ln: real -> real,
                                 sqrt: real -> real)
    requires IsSqrt(sqrt) && Enumerates(v, Vocabulary([a, b])) && Enumerates(w, Vocabulary([a, b]))
    ensures Similarity(a, b, v, ln, sqrt) == Similarity(a, b, w, ln, sqrt)
  {
    hide *;
    SwappedDocuments(a, b, 0, "", ln);
    SimilarityIsSymmetric(a, b, v, w, ln, sqrt);
    SimilarityIsSymmetric(a, b, w, w, ln, sqrt);
  }

  /** The similarity the fraud module exports: the cosine for any listing of the
      common vocabulary, in [0, 1], zero exactly when no token is shared, and one
      exactly for non-empty texts with the same shares. */
  method ComputeTextSimilarity(textA: seq<Token>, textB: seq<Token>, ln: real -> real, sqrt: real -> real)
    returns (s: real)
    requires IsLog(ln) && IsSqrt(sqrt)
    ensures forall v :: Enumerates(v, Vocabulary([textA, textB])) ==> s == Similarity(textA, textB, v, ln, sqrt)
    ensures 0.0 <= s <= 1.0
    ensures s == 0.0 <==> !exists t :: t in textA && t in textB
    ensures s == 1.0 <==> textA != [] && textB != [] && SameShares(textA, textB)
  {
    hide Cosine, Vector, Enumerates, Vocabulary, IsLog, IsSqrt;
    var vectors, vocab := ComputeTfidf([textA, textB], ln);
    s := CosineSimilarity(vectors[0], vectors[1], sqrt);
    assert s == Similarity(textA, textB, vocab, ln, sqrt);
    hide *;
    SimilarityRange(textA, textB, vocab, ln, sqrt);
    SimilarityIsOne(textA, textB, vocab, ln, sqrt);
    forall v | Enumerates(v, Vocabulary([textA, textB])) ensures s == Similarity(textA, textB, v, ln, sqrt) {
      SimilarityIgnoresListing(textA, textB, v, vocab, ln, sqrt);
    }
  }
}
