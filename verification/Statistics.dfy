/**
  Counts, means and variances of a selected part of a sequence. The selection is
  a 0/1 weight, so one definition serves a whole list and one category of it.
 */
module Statistics {
  import opened Sums

  function One<T>(): T -> real {
    _ => 1.0
  }

  function Identity(): real -> real {
    v => v
  }

  function Product<T>(sel: T -> real, x: T -> real): T -> real {
    e => sel(e) * x(e)
  }

  function Square<T>(sel: T -> real, x: T -> real): T -> real {
    e => sel(e) * (x(e) * x(e))
  }

  function Deviation<T>(sel: T -> real, x: T -> real, m: real): T -> real {
    e => sel(e) * ((x(e) - m) * (x(e) - m))
  }

  function Count<T>(sel: T -> real, s: seq<T>): real {
    SumBy(sel, s)
  }

  function Mean<T>(sel: T -> real, x: T -> real, s: seq<T>): real {
    if Count(sel, s) == 0.0 then 0.0 else SumBy(Product(sel, x), s) / Count(sel, s)
  }

  /** The mean squared distance from the mean (0 for an empty selection). */
  function Variance<T>(sel: T -> real, x: T -> real, s: seq<T>): real {
    if Count(sel, s) == 0.0 then 0.0
    else SumBy(Deviation(sel, x, Mean(sel, x, s)), s) / Count(sel, s)
  }

  lemma DeviationTerm(w: real, x: real, m: real)
    ensures w * ((x - m) * (x - m)) == w * (x * x) + (-2.0 * m) * (w * x) + (m * m) * w
  {
  }

  /** Sum of squared distances from any point m, by the three moments. */
  lemma SpreadExpansion<T>(sel: T -> real, x: T -> real, m: real, s: seq<T>)
    ensures SumBy(Deviation(sel, x, m), s)
         == SumBy(Square(sel, x), s) + (-2.0 * m) * SumBy(Product(sel, x), s) + (m * m) * SumBy(sel, s)
  {
    hide SumBy;
    forall e | e in s
      ensures Deviation(sel, x, m)(e) == Square(sel, x)(e) + (-2.0 * m) * Product(sel, x)(e) + (m * m) * sel(e)
    {
      DeviationTerm(sel(e), x(e), m);
    }
    SumByCombine(Square(sel, x), -2.0 * m, Product(sel, x), m * m, sel, Deviation(sel, x, m), s);
  }

  lemma Moments<T>(sel: T -> real, x: T -> real, s: seq<T>)
    requires Count(sel, s) != 0.0
    ensures Mean(sel, x, s) * Count(sel, s) == SumBy(Product(sel, x), s)
    ensures Variance(sel, x, s) * Count(sel, s) == SumBy(Deviation(sel, x, Mean(sel, x, s)), s)
  {
    hide SumBy, Product, Deviation, Count;
  }

  lemma AxisArithmetic(n: real, s: real, q: real, mean: real, m: real, v: real)
    requires n != 0.0 && mean * n == s
    requires v * n == q + (-2.0 * mean) * s + (mean * mean) * n
    ensures q + (-2.0 * m) * s + (m * m) * n == n * (v + (mean - m) * (mean - m))
  {
    calc {
      n * (v + (mean - m) * (mean - m));
      v * n + n * (mean * mean) - 2.0 * m * (mean * n) + n * (m * m);
      q + (-2.0 * mean) * s + (mean * mean) * n + n * (mean * mean) - 2.0 * m * s + n * (m * m);
      { assert (mean * mean) * n == mean * s; }
      q - 2.0 * m * s + n * (m * m);
    }
  }

  /** Parallel axes: the spread around any point m is the count times variance
      plus squared distance of the mean from m. */
  lemma ParallelAxis<T>(sel: T -> real, x: T -> real, m: real, s: seq<T>)
    requires Count(sel, s) != 0.0
    ensures SumBy(Deviation(sel, x, m), s)
         == Count(sel, s) * (Variance(sel, x, s) + (Mean(sel, x, s) - m) * (Mean(sel, x, s) - m))
  {
    hide SumBy, Product, Square, Deviation, Mean, Variance;
    var mean := Mean(sel, x, s);
    Moments(sel, x, s);
    SpreadExpansion(sel, x, m, s);
    SpreadExpansion(sel, x, mean, s);
    AxisArithmetic(SumBy(sel, s), SumBy(Product(sel, x), s), SumBy(Square(sel, x), s), mean, m, Variance(sel, x, s));
  }

  lemma ProductOfGaps(w: real, x: real, lo: real, hi: real)
    requires w >= 0.0 && (w == 0.0 || lo <= x <= hi)
    ensures w * (x * x) <= (lo + hi) * (w * x) + (-lo * hi) * w
  {
    var g := (x - lo) * (hi - x);
    assert w * g >= 0.0 by {
      if w != 0.0 {
        assert g >= 0.0;
      }
    }
    assert w * g == (lo + hi) * (w * x) + (-lo * hi) * w - w * (x * x);
  }

  function Line<T>(b: real, g: T -> real, c: real, k: T -> real): T -> real {
    e => b * g(e) + c * k(e)
  }

  lemma SumByLine<T>(b: real, g: T -> real, c: real, k: T -> real, s: seq<T>)
    ensures SumBy(Line(b, g, c, k), s) == b * SumBy(g, s) + c * SumBy(k, s)
  {
    hide SumBy;
    var zero := (e: T) => 0.0;
    SumByScale(0.0, zero, zero, s);
    SumByCombine(zero, b, g, c, k, Line(b, g, c, k), s);
  }

  lemma SquaresBelow<T>(sel: T -> real, x: T -> real, lo: real, hi: real, b: real, c: real, s: seq<T>)
    requires forall e :: e in s ==> sel(e) >= 0.0 && (sel(e) == 0.0 || lo <= x(e) <= hi)
    requires b == lo + hi && c == -lo * hi
    ensures SumBy(Square(sel, x), s) <= b * SumBy(Product(sel, x), s) + c * SumBy(sel, s)
  {
    hide SumBy;
    forall e | e in s ensures Square(sel, x)(e) <= Line(b, Product(sel, x), c, sel)(e) {
      ProductOfGaps(sel(e), x(e), lo, hi);
    }
    hide *;
    SumByMonotone(Square(sel, x), Line(b, Product(sel, x), c, sel), s);
    SumByLine(b, Product(sel, x), c, sel, s);
  }

  lemma RangeArithmetic(n: real, s: real, q: real, mean: real, v: real, lo: real, hi: real, b: real, c: real)
    requires n > 0.0 && mean * n == s
    requires v * n == q + (-2.0 * mean) * s + (mean * mean) * n
    requires b == lo + hi && c == -lo * hi && q <= b * s + c * n
    ensures v <= (hi - lo) * (hi - lo) / 4.0
  {
    var d := mean - b / 2.0;
    assert (mean - lo) * (hi - mean) == (hi - lo) * (hi - lo) / 4.0 - d * d;
    assert d * d >= 0.0;
    assert v * n <= n * ((mean - lo) * (hi - mean));
    assert v <= (mean - lo) * (hi - mean);
  }

  lemma NonEmptyRange<T>(sel: T -> real, x: T -> real, lo: real, hi: real, s: seq<T>)
    requires forall e :: e in s ==> sel(e) >= 0.0 && (sel(e) == 0.0 || lo <= x(e) <= hi)
    requires Count(sel, s) > 0.0
    ensures Variance(sel, x, s) <= (hi - lo) * (hi - lo) / 4.0
  {
    hide SumBy, Product, Square, Deviation, Mean, Variance;
    var n, p, q := SumBy(sel, s), SumBy(Product(sel, x), s), SumBy(Square(sel, x), s);
    var mean, v := Mean(sel, x, s), Variance(sel, x, s);
    assert mean * n == p && v * n == q + (-2.0 * mean) * p + (mean * mean) * n by {
      Moments(sel, x, s);
      SpreadExpansion(sel, x, mean, s);
    }
    var b, c := lo + hi, -lo * hi;
    assert q <= b * p + c * n by {
      SquaresBelow(sel, x, lo, hi, b, c, s);
    }
    RangeArithmetic(n, p, q, mean, v, lo, hi, b, c);
  }

  /** Values in an interval of width w have variance at most w*w/4. */
  lemma VarianceWithinRange<T>(sel: T -> real, x: T -> real, lo: real, hi: real, s: seq<T>)
    requires forall e :: e in s ==> sel(e) >= 0.0 && (sel(e) == 0.0 || lo <= x(e) <= hi)
    ensures Variance(sel, x, s) <= (hi - lo) * (hi - lo) / 4.0
  {
    SumByNonNegative(sel, s);
    if Count(sel, s) == 0.0 {
      assert (hi - lo) * (hi - lo) >= 0.0;
    } else {
      NonEmptyRange(sel, x, lo, hi, s);
    }
  }

  lemma VarianceNonNegative<T>(sel: T -> real, x: T -> real, s: seq<T>)
    requires forall e :: e in s ==> sel(e) >= 0.0
    ensures Variance(sel, x, s) >= 0.0
  {
    var d := Deviation(sel, x, Mean(sel, x, s));
    SumByNonNegative(sel, s);
    forall e | e in s ensures d(e) >= 0.0 {
      NonNegativeTerm(sel(e), x(e) - Mean(sel, x, s));
    }
    SumByNonNegative(d, s);
  }

  lemma NonNegativeTerm(w: real, d: real)
    requires w >= 0.0
    ensures w * (d * d) >= 0.0
  {
    assert d * d >= 0.0;
  }

  /** Mean and variance do not depend on the order of the list. */
  lemma VariancePermutation<T>(sel: T -> real, x: T -> real, a: seq<T>, b: seq<T>)
    requires multiset(a) == multiset(b)
    ensures Variance(sel, x, a) == Variance(sel, x, b)
  {
    SumByPermutation(sel, a, b);
    SumByPermutation(Product(sel, x), a, b);
    SumByPermutation(Deviation(sel, x, Mean(sel, x, a)), a, b);
  }

  // ---------------------------------------------------------------------------
  // Scaling
  // ---------------------------------------------------------------------------

  lemma ScaledMean<T>(sel: T -> real, x: T -> real, y: T -> real, k: real, s: seq<T>)
    requires forall e :: e in s ==> y(e) == k * x(e)
    ensures Mean(sel, y, s) == k * Mean(sel, x, s)
  {
    forall e | e in s ensures Product(sel, y)(e) == k * Product(sel, x)(e) {
      ScaleFactor(sel(e), x(e), y(e), k);
    }
    SumByScale(k, Product(sel, x), Product(sel, y), s);
    if Count(sel, s) != 0.0 {
      ScaleQuotient(SumBy(Product(sel, x), s), SumBy(Product(sel, y), s), Count(sel, s), k);
    }
  }

  lemma ScaleFactor(w: real, x: real, y: real, k: real)
    requires y == k * x
    ensures w * y == k * (w * x)
  {
  }

  lemma ScaleQuotient(a: real, b: real, n: real, k: real)
    requires n != 0.0 && b == k * a
    ensures b / n == k * (a / n)
  {
  }

  lemma ScaleSquare(g: real, h: real, k: real, k2: real)
    requires h == k * g && k2 == k * k
    ensures h * h == k2 * (g * g)
  {
    calc {
      h * h;
      (k * g) * h;
      k * (g * h);
      k * (g * (k * g));
      k * (k * (g * g));
      k2 * (g * g);
    }
  }

  lemma ScaleDeviation<T>(sel: T -> real, x: T -> real, y: T -> real, m: real, m': real, k: real, k2: real, e: T)
    requires y(e) == k * x(e) && m' == k * m && k2 == k * k
    ensures Deviation(sel, y, m')(e) == k2 * Deviation(sel, x, m)(e)
  {
    var g, h := x(e) - m, y(e) - m';
    assert h == k * g;
    ScaleSquare(g, h, k, k2);
    ScaleFactor(sel(e), g * g, h * h, k2);
  }

  /** Values scaled by k have their variance scaled by the square of k. */
  lemma VarianceScales<T>(sel: T -> real, x: T -> real, y: T -> real, k: real, k2: real, s: seq<T>)
    requires (forall e :: e in s ==> y(e) == k * x(e)) && k2 == k * k
    ensures Variance(sel, y, s) == k2 * Variance(sel, x, s)
  {
    ScaledMean(sel, x, y, k, s);
    var m, m' := Mean(sel, x, s), Mean(sel, y, s);
    hide Mean, Deviation;
    forall e | e in s ensures Deviation(sel, y, m')(e) == k2 * Deviation(sel, x, m)(e) {
      ScaleDeviation(sel, x, y, m, m', k, k2, e);
    }
    SumByScale(k2, Deviation(sel, x, m), Deviation(sel, y, m'), s);
    if Count(sel, s) != 0.0 {
      ScaleQuotient(SumBy(Deviation(sel, x, m), s), SumBy(Deviation(sel, y, m'), s), Count(sel, s), k2);
    }
  }
}
