/**
  What the transform of a photo is for: with the cosine table it is a rotation. It
  keeps the energy of every signal and image, it can be undone, and an image made of
  one table row in each direction has a single coefficient, hence a single digit in
  its hash.

  Of the table this uses that its rows are at right angles, row 0 with squared length
  n and the others with n/2, and of the factors that their squares are 1/n and 2/n.
 */
module OrthogonalTransform {
  import opened Sums
  import opened Matrices
  import opened ImagePhash
  import opened ImageHash

  ghost predicate RightAngles(b: Basis, n: nat) {
    forall k, l :: 0 <= k < n && 0 <= l < n ==>
      Dot(n, TableRow(b, n, k), TableRow(b, n, l)) ==
        if k != l then 0.0 else if k == 0 then n as real else n as real / 2.0
  }

  ghost predicate NormalFactors(b: Basis, n: nat) {
    n > 0 ==> b.dc(n) * b.dc(n) == 1.0 / n as real && b.ac(n) * b.ac(n) == 2.0 / n as real
  }

  /** The cosine table and the factors of a transform of length n. */
  ghost predicate CosineBasis(b: Basis, n: nat) {
    RightAngles(b, n) && NormalFactors(b, n)
  }

  /** The factors as the code computes them, by a square root, have the right squares. */
  lemma FactorsByRoots(b: Basis, n: nat, sqrt: real -> real)
    requires forall x :: x >= 0.0 ==> sqrt(x) * sqrt(x) == x
    requires n > 0 ==> b.dc(n) == sqrt(1.0 / n as real) && b.ac(n) == sqrt(2.0 / n as real)
    ensures NormalFactors(b, n)
  {
  }

  lemma DotOfTwo(x: Vector, y: Vector)
    ensures Dot(2, x, y) == x(0) * y(0) + x(1) * y(1)
  {
    assert Sigma(1, Times(x, y)) == Times(x, y)(0);
  }

  lemma RowsOfTwo(b: Basis, h: real)
    requires b.table == [1.0, 1.0, h, -h]
    ensures TableRow(b, 2, 0)(0) == 1.0 && TableRow(b, 2, 0)(1) == 1.0
    ensures TableRow(b, 2, 1)(0) == h && TableRow(b, 2, 1)(1) == -h
  {
    assert At(b.table, 0) == 1.0 && At(b.table, 1) == 1.0 && At(b.table, 2) == h && At(b.table, 3) == -h;
    hide At;
  }

  lemma RightAnglesOfTwo(b: Basis, h: real)
    requires b.table == [1.0, 1.0, h, -h] && h * h == 0.5
    ensures RightAngles(b, 2)
  {
    RowsOfTwo(b, h);
    hide TableRow, Dot;
    DotOfTwo(TableRow(b, 2, 0), TableRow(b, 2, 0));
    DotOfTwo(TableRow(b, 2, 0), TableRow(b, 2, 1));
    DotOfTwo(TableRow(b, 2, 1), TableRow(b, 2, 0));
    DotOfTwo(TableRow(b, 2, 1), TableRow(b, 2, 1));
    forall k, l | 0 <= k < 2 && 0 <= l < 2
      ensures Dot(2, TableRow(b, 2, k), TableRow(b, 2, l)) == if k != l then 0.0 else if k == 0 then 2.0 else 1.0
    {
      assert (k == 0 || k == 1) && (l == 0 || l == 1);
    }
  }

  /** For n = 2 the cosines are the root of one half, once with either sign. */
  lemma BasisOfTwo(b: Basis, sqrt: real -> real)
    requires forall x :: x >= 0.0 ==> sqrt(x) * sqrt(x) == x
    requires b.table == [1.0, 1.0, sqrt(0.5), -sqrt(0.5)] && b.dc(2) == sqrt(0.5) && b.ac(2) == sqrt(1.0)
    ensures CosineBasis(b, 2)
  {
    hide RightAngles;
    RightAnglesOfTwo(b, sqrt(0.5));
    FactorsByRoots(b, 2, sqrt);
  }

  /** The transform as a matrix. */
  function Scaled(b: Basis, n: nat): Matrix {
    (k, i) => if k < 0 then 0.0 else b.Factor(n, k) * At(b.table, k * n + i)
  }

  function Signal(s: seq<real>): Vector {
    i => At(s, i)
  }

  function Coefficients(s: seq<real>, n: nat, b: Basis): Vector {
    k => if k < 0 then 0.0 else Coefficient1D(s, n, k, b)
  }

  lemma PairOff(f: real, g: real, x: real, y: real)
    ensures (f * x) * (g * y) == (f * g) * (x * y)
  {
  }

  lemma Turned(f: real, t: real, x: real)
    ensures (f * t) * x == f * (x * t)
  {
  }

  lemma MatrixTerm(s: seq<real>, n: nat, k: nat, b: Basis, i: int)
    ensures Times(Row(Scaled(b, n), k), Signal(s))(i) == b.Factor(n, k) * SignalTerm(s, n, k, b)(i)
  {
    Turned(b.Factor(n, k), At(b.table, k * n + i), At(s, i));
  }

  lemma CoefficientIsRow(s: seq<real>, n: nat, k: nat, b: Basis)
    ensures Coefficient1D(s, n, k, b) == Apply(Scaled(b, n), n, Signal(s))(k)
  {
    hide Sigma, SignalTerm;
    forall i | 0 <= i < n
      ensures Times(Row(Scaled(b, n), k), Signal(s))(i) == b.Factor(n, k) * SignalTerm(s, n, k, b)(i)
    {
      MatrixTerm(s, n, k, b, i);
    }
    hide Times, Row, Scaled, Signal;
    SigmaScale(n, b.Factor(n, k), SignalTerm(s, n, k, b), Times(Row(Scaled(b, n), k), Signal(s)));
  }

  lemma ProductTerm(b: Basis, n: nat, k: nat, l: nat, i: int)
    ensures Times(Row(Scaled(b, n), k), Row(Scaled(b, n), l))(i)
         == (b.Factor(n, k) * b.Factor(n, l)) * Times(TableRow(b, n, k), TableRow(b, n, l))(i)
  {
    PairOff(b.Factor(n, k), b.Factor(n, l), At(b.table, k * n + i), At(b.table, l * n + i));
  }

  lemma ScaledRowProduct(b: Basis, n: nat, k: nat, l: nat)
    ensures Dot(n, Row(Scaled(b, n), k), Row(Scaled(b, n), l))
         == (b.Factor(n, k) * b.Factor(n, l)) * Dot(n, TableRow(b, n, k), TableRow(b, n, l))
  {
    hide Sigma, Times, Row, Scaled, TableRow;
    forall i | 0 <= i < n {
      ProductTerm(b, n, k, l, i);
    }
    SigmaScale(n, b.Factor(n, k) * b.Factor(n, l), Times(TableRow(b, n, k), TableRow(b, n, l)),
               Times(Row(Scaled(b, n), k), Row(Scaled(b, n), l)));
  }

  lemma InverseProduct(q: real, p: real)
    requires p > 0.0
    ensures q == 1.0 / p ==> q * p == 1.0
    ensures q == 2.0 / p ==> q * (p / 2.0) == 1.0
  {
  }

  lemma ScaledRowsAreOrthonormal(b: Basis, n: nat)
    requires CosineBasis(b, n)
    ensures OrthonormalRows(Scaled(b, n), n)
  {
    hide Dot;
    forall k: nat, l: nat | k < n && l < n
      ensures Dot(n, Row(Scaled(b, n), k), Row(Scaled(b, n), l)) == if k == l then 1.0 else 0.0
    {
      ScaledRowProduct(b, n, k, l);
      InverseProduct(b.dc(n) * b.dc(n), n as real);
      InverseProduct(b.ac(n) * b.ac(n), n as real);
      assert RightAngles(b, n);
    }
  }

  // ---------------------------------------------------------------------------
  // Signals
  // ---------------------------------------------------------------------------

  /** The transform keeps the energy of a signal. */
  lemma EnergyOfSignal(s: seq<real>, n: nat, b: Basis)
    requires CosineBasis(b, n)
    ensures Dot(n, Coefficients(s, n, b), Coefficients(s, n, b)) == Dot(n, Signal(s), Signal(s))
  {
    var y := Apply(Scaled(b, n), n, Signal(s));
    ScaledRowsAreOrthonormal(b, n);
    LengthIsKept(n, Scaled(b, n), Signal(s));
    forall k: nat | k < n ensures Coefficients(s, n, b)(k) == y(k) {
      CoefficientIsRow(s, n, k, b);
    }
    DotSame(n, Coefficients(s, n, b), y, Coefficients(s, n, b));
    DotSame(n, Coefficients(s, n, b), y, y);
  }

  /** It can be undone: the same matrix, transposed, gives the signal back. */
  lemma SignalFromCoefficients(s: seq<real>, n: nat, b: Basis)
    requires CosineBasis(b, n)
    ensures forall i :: 0 <= i < n ==> ApplyTransposed(Scaled(b, n), n, Coefficients(s, n, b))(i) == At(s, i)
  {
    var a := Scaled(b, n);
    var y := Apply(a, n, Signal(s));
    ScaledRowsAreOrthonormal(b, n);
    ForthAndBack(n, a, Signal(s));
    forall k: nat | k < n ensures Coefficients(s, n, b)(k) == y(k) {
      CoefficientIsRow(s, n, k, b);
    }
    forall i | 0 <= i < n ensures ApplyTransposed(a, n, Coefficients(s, n, b))(i) == At(s, i) {
      DotSame(n, Coefficients(s, n, b), y, Column(a, i));
      assert ApplyTransposed(a, n, y)(i) == Signal(s)(i);
    }
  }

  lemma SameCoefficients(s: seq<real>, s': seq<real>, n: nat, b: Basis)
    requires CosineBasis(b, n) && forall k: nat :: k < n ==> Coefficient1D(s, n, k, b) == Coefficient1D(s', n, k, b)
    ensures forall i :: 0 <= i < n ==> At(s, i) == At(s', i)
  {
    hide Coefficient1D, Dot, CosineBasis;
    SignalFromCoefficients(s, n, b);
    SignalFromCoefficients(s', n, b);
    forall i | 0 <= i < n ensures At(s, i) == At(s', i) {
      DotSame(n, Coefficients(s, n, b), Coefficients(s', n, b), Column(Scaled(b, n), i));
    }
  }

  /** What one table row contributes to its own coefficient. */
  function Gain(b: Basis, n: nat, k: nat): real {
    if k == 0 then b.dc(n) * n as real else b.ac(n) * (n as real / 2.0)
  }

  lemma TableRowTerm(s: seq<real>, n: nat, b: Basis, j: nat, c: real, k: nat, i: int)
    requires At(s, i) == c * TableRow(b, n, j)(i)
    ensures SignalTerm(s, n, k, b)(i) == c * Times(TableRow(b, n, j), TableRow(b, n, k))(i)
  {
    Reassociate(c, At(b.table, j * n + i), At(b.table, k * n + i));
  }

  /** A multiple of one table row has that coefficient alone. */
  lemma TransformOfTableRow(s: seq<real>, n: nat, b: Basis, j: nat, c: real, k: nat)
    requires RightAngles(b, n) && j < n && k < n
    requires forall i :: 0 <= i < n ==> At(s, i) == c * TableRow(b, n, j)(i)
    ensures Coefficient1D(s, n, k, b) == if k == j then c * Gain(b, n, j) else 0.0
  {
    hide Sigma, Times, SignalTerm, TableRow;
    var d := Dot(n, TableRow(b, n, j), TableRow(b, n, k));
    forall i | 0 <= i < n
      ensures SignalTerm(s, n, k, b)(i) == c * Times(TableRow(b, n, j), TableRow(b, n, k))(i)
    {
      TableRowTerm(s, n, b, j, c, k, i);
    }
    SigmaScale(n, c, Times(TableRow(b, n, j), TableRow(b, n, k)), SignalTerm(s, n, k, b));
    assert d == if j == k then (if j == 0 then n as real else n as real / 2.0) else 0.0;
    Swapped(b.Factor(n, k), c, d);
    hide *;
  }

  lemma Swapped(f: real, c: real, d: real)
    ensures f * (c * d) == c * (f * d)
    ensures d == 0.0 ==> f * (c * d) == 0.0
  {
  }

  // ---------------------------------------------------------------------------
  // Images
  // ---------------------------------------------------------------------------

  function Image(pixels: seq<real>, width: nat): Matrix {
    (y, x) => At(pixels, y * width + x)
  }

  function RowSpectrum(pixels: seq<real>, width: nat, b: Basis): Matrix {
    (y, u) => if u < 0 then 0.0 else RowCoefficient(pixels, width, u, y, b)
  }

  function Spectrum(pixels: seq<real>, width: nat, height: nat, b: Basis): Matrix {
    (v, u) => if u < 0 || v < 0 then 0.0 else Coefficient2D(pixels, width, height, u, v, b)
  }

  /** The squares of all cells, added up. */
  function Energy(height: nat, width: nat, f: Matrix): real {
    Sigma(height, RowSums(width, Squares(f)))
  }

  function RowBuffer(pixels: seq<real>, width: nat, y: nat): seq<real> {
    seq(width, i requires 0 <= i < width => At(pixels, Flat(y, i, width)))
  }

  function ColumnBuffer(pixels: seq<real>, width: nat, height: nat, u: nat, b: Basis): seq<real> {
    seq(height, y requires 0 <= y < height => RowCoefficient(pixels, width, u, y, b))
  }

  lemma EnergyOfRow(pixels: seq<real>, width: nat, y: nat, b: Basis)
    requires CosineBasis(b, width)
    ensures Sigma(width, Row(Squares(RowSpectrum(pixels, width, b)), y))
         == Sigma(width, Row(Squares(Image(pixels, width)), y))
  {
    hide CosineBasis, Coefficient1D, RowCoefficient;
    var s := RowBuffer(pixels, width, y);
    EnergyOfSignal(s, width, b);
    forall u: nat | u < width
      ensures Row(Squares(RowSpectrum(pixels, width, b)), y)(u) ==
        Times(Coefficients(s, width, b), Coefficients(s, width, b))(u)
    {
      RowOfBuffer(pixels, width, u, y, b, s);
    }
    SigmaCong(width, Row(Squares(RowSpectrum(pixels, width, b)), y),
              Times(Coefficients(s, width, b), Coefficients(s, width, b)));
    SigmaCong(width, Row(Squares(Image(pixels, width)), y), Times(Signal(s), Signal(s)));
  }

  lemma EnergyOfColumn(pixels: seq<real>, width: nat, height: nat, u: nat, b: Basis)
    requires CosineBasis(b, height)
    ensures Sigma(height, Column(Squares(Spectrum(pixels, width, height, b)), u))
         == Sigma(height, Column(Squares(RowSpectrum(pixels, width, b)), u))
  {
    hide CosineBasis, Coefficient1D, RowCoefficient, Coefficient2D;
    var s := ColumnBuffer(pixels, width, height, u, b);
    EnergyOfSignal(s, height, b);
    forall v: nat | v < height
      ensures Column(Squares(Spectrum(pixels, width, height, b)), u)(v) ==
        Times(Coefficients(s, height, b), Coefficients(s, height, b))(v)
    {
      RowThenColumn(pixels, width, height, u, v, b, s);
    }
    SigmaCong(height, Column(Squares(Spectrum(pixels, width, height, b)), u),
              Times(Coefficients(s, height, b), Coefficients(s, height, b)));
    SigmaCong(height, Column(Squares(RowSpectrum(pixels, width, b)), u), Times(Signal(s), Signal(s)));
  }

  /** The two-dimensional transform keeps the energy of an image. */
  lemma EnergyOfImage(pixels: seq<real>, width: nat, height: nat, b: Basis)
    requires CosineBasis(b, width) && CosineBasis(b, height)
    ensures Energy(height, width, Spectrum(pixels, width, height, b)) == Energy(height, width, Image(pixels, width))
  {
    var all, rows := Squares(Spectrum(pixels, width, height, b)), Squares(RowSpectrum(pixels, width, b));
    SigmaExchange(height, width, all);
    SigmaExchange(height, width, rows);
    forall u: nat | u < width ensures ColumnSums(height, all)(u) == ColumnSums(height, rows)(u) {
      EnergyOfColumn(pixels, width, height, u, b);
    }
    SigmaCong(width, ColumnSums(height, all), ColumnSums(height, rows));
    forall y: nat | y < height
      ensures RowSums(width, rows)(y) == RowSums(width, Squares(Image(pixels, width)))(y)
    {
      EnergyOfRow(pixels, width, y, b);
    }
    SigmaCong(height, RowSums(width, rows), RowSums(width, Squares(Image(pixels, width))));
  }

  lemma SameRowSpectrum(p: seq<real>, q: seq<real>, width: nat, height: nat, u: nat, b: Basis)
    requires CosineBasis(b, height)
    requires forall v: nat :: v < height ==>
               Coefficient2D(p, width, height, u, v, b) == Coefficient2D(q, width, height, u, v, b)
    ensures forall y: nat :: y < height ==> RowCoefficient(p, width, u, y, b) == RowCoefficient(q, width, u, y, b)
  {
    hide CosineBasis, Coefficient1D, RowCoefficient, Coefficient2D;
    var s, t := ColumnBuffer(p, width, height, u, b), ColumnBuffer(q, width, height, u, b);
    forall v: nat | v < height ensures Coefficient1D(s, height, v, b) == Coefficient1D(t, height, v, b) {
      RowThenColumn(p, width, height, u, v, b, s);
      RowThenColumn(q, width, height, u, v, b, t);
    }
    SameCoefficients(s, t, height, b);
    forall y: nat | y < height ensures RowCoefficient(p, width, u, y, b) == RowCoefficient(q, width, u, y, b) {
      assert At(s, y) == At(t, y);
    }
  }

  /** No two images have the same transform. */
  lemma TransformIsInjective(p: seq<real>, q: seq<real>, width: nat, height: nat, b: Basis)
    requires CosineBasis(b, width) && CosineBasis(b, height)
    requires forall u: nat, v: nat :: u < width && v < height ==>
               Coefficient2D(p, width, height, u, v, b) == Coefficient2D(q, width, height, u, v, b)
    ensures forall y: nat, x: nat :: y < height && x < width ==> At(p, Flat(y, x, width)) == At(q, Flat(y, x, width))
  {
    hide CosineBasis, Coefficient1D, RowCoefficient, Coefficient2D;
    forall u: nat, y: nat | u < width && y < height
      ensures RowCoefficient(p, width, u, y, b) == RowCoefficient(q, width, u, y, b)
    {
      SameRowSpectrum(p, q, width, height, u, b);
    }
    forall y: nat, x: nat | y < height && x < width
      ensures At(p, Flat(y, x, width)) == At(q, Flat(y, x, width))
    {
      var s, t := RowBuffer(p, width, y), RowBuffer(q, width, y);
      forall u: nat | u < width ensures Coefficient1D(s, width, u, b) == Coefficient1D(t, width, u, b) {
        RowOfBuffer(p, width, u, y, b, s);
        RowOfBuffer(q, width, u, y, b, t);
      }
      SameCoefficients(s, t, width, b);
      assert At(s, x) == At(t, x);
    }
  }

  /** Row v of the table from top to bottom, times row u from left to right. */
  ghost predicate IsPattern(pixels: seq<real>, n: nat, b: Basis, u: nat, v: nat) {
    forall y: nat, x: nat :: y < n && x < n ==>
      At(pixels, Flat(y, x, n)) == TableRow(b, n, v)(y) * TableRow(b, n, u)(x)
  }

  /** The transform of a pattern has the coefficient [v][u] alone. */
  lemma TransformOfPattern(pixels: seq<real>, n: nat, b: Basis, u: nat, v: nat, i: nat, j: nat)
    requires RightAngles(b, n) && IsPattern(pixels, n, b, u, v) && u < n && v < n && i < n && j < n
    ensures Coefficient2D(pixels, n, n, i, j, b) == if i == u && j == v then Gain(b, n, u) * Gain(b, n, v) else 0.0
  {
    hide RightAngles, TableRow, Coefficient1D, Coefficient2D, RowCoefficient, Gain;
    var s := ColumnBuffer(pixels, n, n, i, b);
    var c := if i == u then Gain(b, n, u) else 0.0;
    forall y: nat | y < n ensures At(s, y) == c * TableRow(b, n, v)(y) {
      var row := RowBuffer(pixels, n, y);
      RowOfBuffer(pixels, n, i, y, b, row);
      TransformOfTableRow(row, n, b, u, TableRow(b, n, v)(y), i);
    }
    RowThenColumn(pixels, n, n, i, j, b, s);
    TransformOfTableRow(s, n, b, v, c, j);
  }

  lemma SingleCoefficientMean(low: seq<real>, i: nat, g: real)
    requires |low| == 64 && 1 <= i < 64 && low[i] == g
    requires forall k :: 1 <= k < 64 && k != i ==> low[k] == 0.0
    ensures MeanOf(low) == g / 63.0
  {
    SigmaCong(|low| - 1, Tail(low), Times(Unit(i - 1), Level(g)));
    DotUnit(|low| - 1, i - 1, Level(g));
  }

  /** So in its hash exactly one digit is 1, the one of that coefficient. */
  lemma HashOfPattern(pixels: seq<real>, n: nat, b: Basis, u: nat, v: nat)
    requires n >= 8 && u < 8 && v < 8 && (u != 0 || v != 0)
    requires RightAngles(b, n) && b.dc(n) > 0.0 && b.ac(n) > 0.0 && IsPattern(pixels, n, b, u, v)
    ensures var hash := HashOf(pixels, n, n, b);
            |hash| == 63 && forall i :: 0 <= i < 63 ==> hash[i] == if i == 8 * v + u - 1 then '1' else '0'
  {
    var low, at := LowBlock(pixels, n, n, b), 8 * v + u;
    var g := Gain(b, n, u) * Gain(b, n, v);
    assert g > 0.0 by {
      ProductSign(Gain(b, n, u), Gain(b, n, v), g);
    }
    forall k | 0 <= k < 64 ensures low[k] == if k == at then g else 0.0 {
      TransformOfPattern(pixels, n, b, u, v, k % 8, k / 8);
    }
    SingleCoefficientMean(low, at, g);
  }
}
