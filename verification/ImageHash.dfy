/**
  The 63-bit hash read off the low-frequency block of the transform: what it
  ignores (brightness and contrast, in exact arithmetic), and which of its bits a
  rounding error of given size cannot change.
 */
module ImageHash {
  import opened Sums
  import opened ImagePhash

  const LOW_FREQUENCIES := 64
  const HASH_LENGTH := 63

  /** The 8x8 corner of the transform, in row order; entry 0 is the constant term. */
  function LowBlock(pixels: seq<real>, width: nat, height: nat, b: Basis): (low: seq<real>)
    ensures |low| == 64
  {
    seq(64, i requires 0 <= i < 64 => Coefficient2D(pixels, width, height, i % 8, i / 8, b))
  }

  function Tail(low: seq<real>): int -> real {
    i => At(low, i + 1)
  }

  /** The mean of the block without its constant term. */
  function MeanOf(low: seq<real>): real
    requires |low| == LOW_FREQUENCIES
  {
    Sigma(|low| - 1, Tail(low)) / 63.0
  }

  function HashBits(low: seq<real>): (hash: string)
    requires |low| == 64
  {
    seq(63, i requires 0 <= i < 63 => if low[i + 1] > MeanOf(low) then '1' else '0')
  }

  function HashOf(pixels: seq<real>, width: nat, height: nat, b: Basis): string {
    HashBits(LowBlock(pixels, width, height, b))
  }

  /** The loop that copies the 8x8 corner out of the transform. */
  method LowFrequencies(dctLow: array<real>, width: nat, height: nat, ghost low: seq<real>) returns (lowFreq: seq<real>)
    requires width >= 8 && height >= 8 && dctLow.Length == width * height && |low| == 64
    requires forall y: nat, x: nat :: y < 8 && x < 8 ==>
               Flat(y, x, width) < dctLow.Length && dctLow[Flat(y, x, width)] == low[8 * y + x]
    ensures lowFreq == low
  {
    lowFreq := [];
    for y := 0 to 8
      invariant lowFreq == low[..8 * y]
    {
      for x := 0 to 8
        invariant lowFreq == low[..8 * y + x]
      {
        lowFreq := lowFreq + [dctLow[Flat(y, x, width)]];
      }
    }
  }

  /** The mean and the bit loop. */
  method Threshold(lowFreq: seq<real>) returns (hash: string)
    requires |lowFreq| == 64
    ensures hash == HashBits(lowFreq)
  {
    var sum := 0.0;
    for i := 1 to 64
      invariant sum == Sigma(i - 1, Tail(lowFreq))
    {
      sum := sum + lowFreq[i];
    }
    var mean := sum / 63.0;
    assert mean == MeanOf(lowFreq);
    hash := "";
    for i := 1 to 64
      invariant hash == HashBits(lowFreq)[..i - 1]
    {
      assert HashBits(lowFreq)[..i] == HashBits(lowFreq)[..i - 1] + [HashBits(lowFreq)[i - 1]];
      hash := hash + [if lowFreq[i] > mean then '1' else '0'];
    }
  }

  method ComputePhash(pixels: seq<real>, width: nat, height: nat, b: Basis) returns (hash: string)
    requires width >= 8 && height >= 8
    requires |pixels| == width * height
    requires |b.table| == Max(width, height) * Max(width, height)
    ensures hash == HashOf(pixels, width, height, b)
  {
    var dctLow := Dct2D(pixels, width, height, b);
    ghost var low := LowBlock(pixels, width, height, b);
    forall y: nat, x: nat | y < 8 && x < 8
      ensures Flat(y, x, width) < dctLow.Length && dctLow[Flat(y, x, width)] == low[8 * y + x]
    {
      assert (8 * y + x) % 8 == x && (8 * y + x) / 8 == y;
    }
    var lowFreq := LowFrequencies(dctLow, width, height, low);
    hash := Threshold(lowFreq);
  }

  // ---------------------------------------------------------------------------
  // Shape of a hash
  // ---------------------------------------------------------------------------

  lemma {:induction false} SigmaMonotone(n: nat, f: int -> real, g: int -> real)
    requires forall i :: 0 <= i < n ==> f(i) <= g(i)
    ensures Sigma(n, f) <= Sigma(n, g)
    ensures Sigma(n, f) == Sigma(n, g) <==> forall i :: 0 <= i < n ==> f(i) == g(i)
  {
    if n > 0 {
      SigmaMonotone(n - 1, f, g);
    }
  }

  lemma SigmaMonotoneStrict(n: nat, f: int -> real, g: int -> real)
    requires Sigma(n, f) == Sigma(n, g) && n > 0
    ensures exists i :: 0 <= i < n && g(i) <= f(i)
  {
    if forall i :: 0 <= i < n ==> f(i) <= g(i) {
      SigmaMonotone(n, f, g);
      assert g(0) <= f(0);
    }
  }

  function Level(m: real): int -> real {
    _ => m
  }

  lemma {:induction false} SigmaLevel(n: nat, m: real)
    ensures Sigma(n, Level(m)) == (n as real) * m
  {
    if n > 0 {
      SigmaLevel(n - 1, m);
    }
  }

  lemma TailSumFromMean(low: seq<real>)
    requires |low| == 64
    ensures Sigma(|low| - 1, Tail(low)) == Sigma(|low| - 1, Level(MeanOf(low)))
  {
    SigmaLevel(|low| - 1, MeanOf(low));
  }

  lemma SomeBitIsZero(low: seq<real>)
    requires |low| == 64
    ensures exists i :: 0 <= i < 63 && HashBits(low)[i] == '0'
  {
    hide Sigma, MeanOf;
    TailSumFromMean(low);
    SigmaMonotoneStrict(|low| - 1, Level(MeanOf(low)), Tail(low));
    var i :| 0 <= i < 63 && Tail(low)(i) <= MeanOf(low);
    assert HashBits(low)[i] == '0';
  }

  lemma LevelFromBound(low: seq<real>, m: real)
    requires |low| == 64 && Sigma(|low| - 1, Tail(low)) == Sigma(|low| - 1, Level(m))
    requires forall i :: 1 <= i < 64 ==> low[i] <= m
    ensures forall i :: 1 <= i < 64 ==> low[i] == m
  {
    SigmaMonotone(|low| - 1, Tail(low), Level(m));
    forall i | 1 <= i < 64 ensures low[i] == m {
      assert Tail(low)(i - 1) == Level(m)(i - 1);
    }
  }

  lemma ZeroHashIsLevel(low: seq<real>)
    requires |low| == 64
    requires forall i :: 0 <= i < 63 ==> HashBits(low)[i] == '0'
    ensures forall i :: 1 <= i < 64 ==> low[i] == MeanOf(low)
  {
    TailSumFromMean(low);
    forall i | 1 <= i < 64 ensures low[i] <= MeanOf(low) {
      assert HashBits(low)[i - 1] == '0';
    }
    LevelFromBound(low, MeanOf(low));
  }

  lemma LevelHashIsZero(low: seq<real>, m: real)
    requires |low| == 64
    requires forall i :: 1 <= i < 64 ==> low[i] == m
    ensures forall i :: 0 <= i < 63 ==> HashBits(low)[i] == '0'
  {
    hide Sigma;
    assert MeanOf(low) == m by {
      SigmaCong(|low| - 1, Tail(low), Level(m));
      SigmaLevel(|low| - 1, m);
    }
  }

  /** A hash has 63 binary digits, never all ones; it is all zeros exactly when
      the 63 coefficients are all equal. */
  lemma HashShape(low: seq<real>)
    requires |low| == 64
    ensures |HashBits(low)| == HASH_LENGTH
    ensures forall i :: 0 <= i < 63 ==> HashBits(low)[i] == '0' || HashBits(low)[i] == '1'
    ensures exists i :: 0 <= i < 63 && HashBits(low)[i] == '0'
    ensures (forall i :: 0 <= i < 63 ==> HashBits(low)[i] == '0')
       <==> (forall i, j :: 1 <= i < 64 && 1 <= j < 64 ==> low[i] == low[j])
  {
    SomeBitIsZero(low);
    if forall i :: 0 <= i < 63 ==> HashBits(low)[i] == '0' {
      ZeroHashIsLevel(low);
    }
    if forall i, j :: 1 <= i < 64 && 1 <= j < 64 ==> low[i] == low[j] {
      LevelHashIsZero(low, low[1]);
    }
  }

  // ---------------------------------------------------------------------------
  // Brightness and contrast
  // ---------------------------------------------------------------------------

  function TableRow(b: Basis, n: nat, k: nat): int -> real {
    i => At(b.table, k * n + i)
  }

  ghost predicate RowsSumToZero(b: Basis, n: nat) {
    forall k: nat :: 1 <= k < n ==> Sigma(n, TableRow(b, n, k)) == 0.0
  }

  /** Every pixel p of the first image is a*p + c in the second. */
  ghost predicate Adjusted(before: seq<real>, after: seq<real>, a: real, c: real) {
    |before| == |after| && forall i :: 0 <= i < |before| ==> after[i] == a * before[i] + c
  }

  lemma AdjustedTerm(p: real, a: real, c: real, s: real, t: real)
    ensures (a * p + c) * s * t == a * (p * s * t) + (c * t) * s
  {
  }

  lemma AdjustedPixelTerm(before: seq<real>, after: seq<real>, a: real, c: real, n: nat, u: nat, v: nat, y: nat, x: nat,
                          b: Basis)
    requires Adjusted(before, after, a, c) && |before| == n * n && y < n && x < n
    ensures PixelTerm(after, n, n, u, v, y, b)(x)
         == a * PixelTerm(before, n, n, u, v, y, b)(x) + (c * TableRow(b, n, v)(y)) * TableRow(b, n, u)(x)
  {
    var j := y * n + x;
    assert 0 <= j < |before| by {
      FlatBound(y, x, n, n);
    }
    assert after[j] == a * before[j] + c;
    assert At(after, y * n + x) == a * At(before, y * n + x) + c;
    AdjustedTerm(At(before, y * n + x), a, c, At(b.table, u * n + x), At(b.table, v * n + y));
  }

  lemma AdjustedRowSum(before: seq<real>, after: seq<real>, a: real, c: real, n: nat, u: nat, v: nat, y: nat, b: Basis)
    requires Adjusted(before, after, a, c) && |before| == n * n && y < n
    ensures RowSum(after, n, n, u, v, b)(y)
         == a * RowSum(before, n, n, u, v, b)(y) + (c * TableRow(b, n, v)(y)) * Sigma(n, TableRow(b, n, u))
  {
    forall x: nat | x < n
      ensures PixelTerm(after, n, n, u, v, y, b)(x)
           == a * PixelTerm(before, n, n, u, v, y, b)(x) + (c * TableRow(b, n, v)(y)) * TableRow(b, n, u)(x)
    {
      AdjustedPixelTerm(before, after, a, c, n, u, v, y, x, b);
    }
    SigmaAffine(n, a, PixelTerm(before, n, n, u, v, y, b),
                c * TableRow(b, n, v)(y), TableRow(b, n, u), PixelTerm(after, n, n, u, v, y, b));
  }

  lemma AdjustedSum(before: seq<real>, after: seq<real>, a: real, c: real, n: nat, u: nat, v: nat, b: Basis)
    requires Adjusted(before, after, a, c) && |before| == n * n
    ensures Sigma(n, RowSum(after, n, n, u, v, b))
         == a * Sigma(n, RowSum(before, n, n, u, v, b))
            + (c * Sigma(n, TableRow(b, n, u))) * Sigma(n, TableRow(b, n, v))
  {
    hide *;
    forall y: nat | y < n
      ensures RowSum(after, n, n, u, v, b)(y)
           == a * RowSum(before, n, n, u, v, b)(y) + (c * Sigma(n, TableRow(b, n, u))) * TableRow(b, n, v)(y)
    {
      AdjustedRowSum(before, after, a, c, n, u, v, y, b);
      Exchange(c, TableRow(b, n, v)(y), Sigma(n, TableRow(b, n, u)));
    }
    SigmaAffine(n, a, RowSum(before, n, n, u, v, b),
                c * Sigma(n, TableRow(b, n, u)), TableRow(b, n, v), RowSum(after, n, n, u, v, b));
  }

  lemma Exchange(a: real, b: real, c: real)
    ensures (a * b) * c == (a * c) * b
  {
  }

  lemma AdjustedSumAwayFromCorner(before: seq<real>, after: seq<real>, a: real, c: real, n: nat, u: nat, v: nat,
                                  b: Basis)
    requires Adjusted(before, after, a, c) && |before| == n * n
    requires RowsSumToZero(b, n) && u < n && v < n && (u != 0 || v != 0)
    ensures Sigma(n, RowSum(after, n, n, u, v, b)) == a * Sigma(n, RowSum(before, n, n, u, v, b))
  {
    AdjustedSum(before, after, a, c, n, u, v, b);
    assert Sigma(n, TableRow(b, n, u)) == 0.0 || Sigma(n, TableRow(b, n, v)) == 0.0;
    Vanishes(c, Sigma(n, TableRow(b, n, u)), Sigma(n, TableRow(b, n, v)));
  }

  lemma Vanishes(c: real, s: real, t: real)
    requires s == 0.0 || t == 0.0
    ensures (c * s) * t == 0.0
  {
  }

  /** The offset reaches only the constant coefficient; every other one is
      multiplied by the contrast factor. */
  lemma AdjustedCoefficient(before: seq<real>, after: seq<real>, a: real, c: real, n: nat, u: nat, v: nat, b: Basis)
    requires Adjusted(before, after, a, c) && |before| == n * n
    requires RowsSumToZero(b, n) && u < n && v < n && (u != 0 || v != 0)
    ensures Coefficient2D(after, n, n, u, v, b) == a * Coefficient2D(before, n, n, u, v, b)
  {
    AdjustedSumAwayFromCorner(before, after, a, c, n, u, v, b);
    FactorOut(b.Factor(n, u) * b.Factor(n, v), a,
              Sigma(n, RowSum(before, n, n, u, v, b)), Sigma(n, RowSum(after, n, n, u, v, b)));
  }

  lemma FactorOut(p: real, a: real, s: real, t: real)
    requires t == a * s
    ensures p * t == a * (p * s)
  {
  }

  ghost predicate ScaledTail(low: seq<real>, low': seq<real>, a: real) {
    |low| == |low'| == 64 && forall i :: 1 <= i < 64 ==> low'[i] == a * low[i]
  }

  lemma ScaledMean(low: seq<real>, low': seq<real>, a: real)
    requires ScaledTail(low, low', a)
    ensures MeanOf(low') == a * MeanOf(low)
  {
    SigmaScale(|low| - 1, a, Tail(low), Tail(low'));
    DivideOut(a, Sigma(|low| - 1, Tail(low)));
  }

  lemma DivideOut(a: real, s: real)
    ensures (a * s) / 63.0 == a * (s / 63.0)
  {
  }

  lemma BitMeaning(low: seq<real>, i: nat)
    requires |low| == 64 && i < 63
    ensures HashBits(low)[i] == if low[i + 1] > MeanOf(low) then '1' else '0'
  {
    hide Sigma;
  }

  /** Order against the mean after scaling both by a. */
  lemma ScaledOrder(a: real, x: real, m: real, x': real, m': real)
    requires x' == a * x && m' == a * m
    ensures a > 0.0 ==> (x' > m' <==> x > m)
    ensures a < 0.0 ==> (x' > m' <==> x < m)
    ensures a == 0.0 ==> x' == m'
  {
    assert x' - m' == a * (x - m);
  }

  lemma ScaledBit(low: seq<real>, low': seq<real>, a: real, i: nat)
    requires ScaledTail(low, low', a) && i < 63
    ensures a > 0.0 ==> HashBits(low')[i] == HashBits(low)[i]
    ensures a < 0.0 ==> (HashBits(low')[i] == HashBits(low)[i] <==> low[i + 1] == MeanOf(low))
    ensures a == 0.0 ==> HashBits(low')[i] == '0'
  {
    hide Sigma, MeanOf, HashBits;
    ScaledMean(low, low', a);
    BitMeaning(low, i);
    BitMeaning(low', i);
    ScaledOrder(a, low[i + 1], MeanOf(low), low'[i + 1], MeanOf(low'));
  }

  /** Scaling the coefficients keeps every bit for a positive factor, and for a
      negative one keeps exactly the bits of coefficients equal to the mean. */
  lemma ScaledHash(low: seq<real>, low': seq<real>, a: real)
    requires ScaledTail(low, low', a)
    ensures a > 0.0 ==> HashBits(low') == HashBits(low)
    ensures a < 0.0 ==> forall i :: 0 <= i < 63 ==>
              (HashBits(low')[i] == HashBits(low)[i] <==> low[i + 1] == MeanOf(low))
    ensures a == 0.0 ==> forall i :: 0 <= i < 63 ==> HashBits(low')[i] == '0'
  {
    assert |HashBits(low)| == |HashBits(low')| == 63;
    hide Sigma, MeanOf, HashBits;
    forall i | 0 <= i < 63
      ensures a > 0.0 ==> HashBits(low')[i] == HashBits(low)[i]
      ensures a < 0.0 ==> (HashBits(low')[i] == HashBits(low)[i] <==> low[i + 1] == MeanOf(low))
      ensures a == 0.0 ==> HashBits(low')[i] == '0'
    {
      ScaledBit(low, low', a, i);
    }
  }

  lemma AdjustedCell(before: seq<real>, after: seq<real>, a: real, c: real, n: nat, b: Basis, i: nat)
    requires Adjusted(before, after, a, c) && |before| == n * n && n >= 8
    requires RowsSumToZero(b, n) && 1 <= i < 64
    ensures LowBlock(after, n, n, b)[i] == a * LowBlock(before, n, n, b)[i]
  {
    var u, v := i % 8, i / 8;
    assert u != 0 || v != 0;
    AdjustedCoefficient(before, after, a, c, n, u, v, b);
  }

  lemma AdjustedLowBlock(before: seq<real>, after: seq<real>, a: real, c: real, n: nat, b: Basis)
    requires Adjusted(before, after, a, c) && |before| == n * n && n >= 8
    requires RowsSumToZero(b, n)
    ensures ScaledTail(LowBlock(before, n, n, b), LowBlock(after, n, n, b), a)
  {
    forall i | 1 <= i < 64
      ensures LowBlock(after, n, n, b)[i] == a * LowBlock(before, n, n, b)[i]
    {
      AdjustedCell(before, after, a, c, n, b, i);
    }
  }

  /** The hash ignores brightness and contrast. */
  lemma HashIgnoresBrightnessAndContrast(before: seq<real>, after: seq<real>, a: real, c: real, n: nat, b: Basis)
    requires Adjusted(before, after, a, c) && |before| == n * n && n >= 8
    requires RowsSumToZero(b, n) && a > 0.0
    ensures HashOf(after, n, n, b) == HashOf(before, n, n, b)
  {
    AdjustedLowBlock(before, after, a, c, n, b);
    ScaledHash(LowBlock(before, n, n, b), LowBlock(after, n, n, b), a);
  }

  // ---------------------------------------------------------------------------
  // Rounding
  // ---------------------------------------------------------------------------

  /** The later coefficients of two blocks differ by at most eps. */
  ghost predicate Within(low: seq<real>, computed: seq<real>, eps: real) {
    |low| == |computed| == 64 && forall i :: 1 <= i < 64 ==> low[i] - eps <= computed[i] <= low[i] + eps
  }

  lemma ShiftedTail(low: seq<real>, shift: real)
    requires |low| == 64
    ensures Sigma(|low| - 1, Raised(low, shift)) == Sigma(|low| - 1, Tail(low)) + 63.0 * shift
  {
    SigmaLevel(|low| - 1, shift);
    SigmaAdd(|low| - 1, Tail(low), Level(shift), Raised(low, shift));
  }

  function Raised(low: seq<real>, shift: real): int -> real {
    i => Tail(low)(i) + shift
  }

  lemma MeanWithin(low: seq<real>, computed: seq<real>, eps: real)
    requires Within(low, computed, eps)
    ensures MeanOf(low) - eps <= MeanOf(computed) <= MeanOf(low) + eps
  {
    ShiftedTail(low, eps);
    ShiftedTail(low, -eps);
    SigmaMonotone(|low| - 1, Tail(computed), Raised(low, eps));
    SigmaMonotone(|low| - 1, Raised(low, -eps), Tail(computed));
  }

  /** A bit survives an error of eps in every coefficient when its coefficient is
      more than 2 * eps away from the mean. */
  lemma BitSurvivesRounding(low: seq<real>, computed: seq<real>, eps: real, i: nat)
    requires Within(low, computed, eps) && i < 63
    requires low[i + 1] > MeanOf(low) + 2.0 * eps || low[i + 1] < MeanOf(low) - 2.0 * eps
    ensures HashBits(computed)[i] == HashBits(low)[i]
  {
    hide Sigma, MeanOf, HashBits;
    MeanWithin(low, computed, eps);
    BitMeaning(low, i);
    BitMeaning(computed, i);
  }

  /** In exact arithmetic an image of one colour has no texture at all: its 63 later
      coefficients, and hence their mean, are zero. */
  lemma PlainImagesAreLevel(image: seq<real>, shade: real, n: nat, b: Basis)
    requires |image| == n * n && n >= 8 && RowsSumToZero(b, n)
    requires forall i :: 0 <= i < |image| ==> image[i] == shade
    ensures forall i :: 1 <= i < 64 ==> LowBlock(image, n, n, b)[i] == 0.0
    ensures MeanOf(LowBlock(image, n, n, b)) == 0.0
    ensures HashOf(image, n, n, b) == seq(63, _ => '0')
  {
    var low := LowBlock(image, n, n, b);
    AdjustedLowBlock(image, image, 0.0, shade, n, b);
    ScaledHash(low, low, 0.0);
    ScaledMean(low, low, 0.0);
  }

  /** The digits of a hash as coefficients 0 and eps. */
  function Residue(bits: string, eps: real): (low: seq<real>)
    requires |bits| == 63
    ensures |low| == 64
  {
    seq(64, i requires 0 <= i < 64 => if i > 0 && bits[i - 1] == '1' then eps else 0.0)
  }

  lemma ResidueMean(bits: string, eps: real)
    requires |bits| == 63 && eps > 0.0 && exists i :: 0 <= i < 63 && bits[i] == '0'
    ensures 0.0 <= MeanOf(Residue(bits, eps)) < eps
  {
    hide Sigma;
    var low := Residue(bits, eps);
    var k :| 0 <= k < 63 && bits[k] == '0';
    SigmaLevel(|low| - 1, 0.0);
    SigmaLevel(|low| - 1, eps);
    SigmaMonotone(|low| - 1, Level(0.0), Tail(low));
    SigmaMonotone(|low| - 1, Tail(low), Level(eps));
    assert Tail(low)(k) != Level(eps)(k);
  }

  /** So the hash of a plain photo says nothing: errors of any size eps > 0, however
      small, can turn its coefficients into any hash there is. */
  lemma RoundingDecidesPlainHashes(image: seq<real>, shade: real, n: nat, b: Basis, bits: string, eps: real)
    requires |image| == n * n && n >= 8 && RowsSumToZero(b, n)
    requires forall i :: 0 <= i < |image| ==> image[i] == shade
    requires |bits| == 63 && (forall i :: 0 <= i < 63 ==> bits[i] == '0' || bits[i] == '1') && eps > 0.0
    ensures (exists computed :: Within(LowBlock(image, n, n, b), computed, eps) && HashBits(computed) == bits)
       <==> exists i :: 0 <= i < 63 && bits[i] == '0'
  {
    var low, computed := LowBlock(image, n, n, b), Residue(bits, eps);
    PlainImagesAreLevel(image, shade, n, b);
    if exists i :: 0 <= i < 63 && bits[i] == '0' {
      ResidueMean(bits, eps);
      assert Within(low, computed, eps);
      assert HashBits(computed) == bits;
    }
    if c :| Within(low, c, eps) && HashBits(c) == bits {
      HashShape(c);
    }
  }
}
