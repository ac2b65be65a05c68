/**
  Square matrices of reals, as far as the transform needs them: when the rows of a
  square matrix are orthonormal, so are its columns.
 */
module Matrices {
  import opened Sums

  type Vector = int -> real
  type Matrix = (int, int) -> real

  function Times(x: Vector, y: Vector): Vector {
    i => x(i) * y(i)
  }

  function Dot(n: nat, x: Vector, y: Vector): real {
    Sigma(n, Times(x, y))
  }

  function Row(a: Matrix, k: int): Vector {
    i => a(k, i)
  }

  function Column(a: Matrix, i: int): Vector {
    k => a(k, i)
  }

  /** The product of the matrix, or of its transpose, with a vector. */
  function Apply(a: Matrix, n: nat, x: Vector): Vector {
    k => Dot(n, Row(a, k), x)
  }

  function ApplyTransposed(a: Matrix, n: nat, u: Vector): Vector {
    i => Dot(n, Column(a, i), u)
  }

  function Unit(i: int): Vector {
    j => if j == i then 1.0 else 0.0
  }

  ghost predicate Same(n: nat, x: Vector, y: Vector) {
    forall i :: 0 <= i < n ==> x(i) == y(i)
  }

  /** The rows have length one and are at right angles. */
  ghost predicate OrthonormalRows(a: Matrix, n: nat) {
    forall k, l :: 0 <= k < n && 0 <= l < n ==> Dot(n, Row(a, k), Row(a, l)) == if k == l then 1.0 else 0.0
  }

  // ---------------------------------------------------------------------------
  // Double sums
  // ---------------------------------------------------------------------------

  function RowSums(m: nat, f: Matrix): Vector {
    i => Sigma(m, Row(f, i))
  }

  function ColumnSums(n: nat, f: Matrix): Vector {
    j => Sigma(n, Column(f, j))
  }

  lemma {:induction false} SigmaZero(n: nat, f: Vector)
    requires forall i :: 0 <= i < n ==> f(i) == 0.0
    ensures Sigma(n, f) == 0.0
  {
    if n > 0 {
      SigmaZero(n - 1, f);
    }
  }

  lemma {:induction false} SigmaConstant(n: nat, c: real, f: Vector)
    requires forall i :: 0 <= i < n ==> f(i) == c
    ensures Sigma(n, f) == n as real * c
  {
    if n > 0 {
      SigmaConstant(n - 1, c, f);
      OneMore((n - 1) as real, c, n as real);
    }
  }

  lemma OneMore(k: real, c: real, n: real)
    requires n == k + 1.0
    ensures n * c == k * c + c
  {
  }

  /** The order of summation does not matter. */
  lemma {:induction false} SigmaExchange(n: nat, m: nat, f: Matrix)
    ensures Sigma(n, RowSums(m, f)) == Sigma(m, ColumnSums(n, f))
  {
    if n == 0 {
      SigmaZero(m, ColumnSums(0, f));
    } else {
      SigmaExchange(n - 1, m, f);
      SigmaAdd(m, ColumnSums(n - 1, f), Row(f, n - 1), ColumnSums(n, f));
    }
  }

  lemma {:induction false} NonNegativeTerms(n: nat, f: Vector)
    requires forall i :: 0 <= i < n ==> f(i) >= 0.0
    ensures Sigma(n, f) >= 0.0
    ensures Sigma(n, f) == 0.0 ==> forall i :: 0 <= i < n ==> f(i) == 0.0
  {
    if n > 0 {
      NonNegativeTerms(n - 1, f);
    }
  }

  // ---------------------------------------------------------------------------
  // Scalar products
  // ---------------------------------------------------------------------------

  lemma DotCommutes(n: nat, x: Vector, y: Vector)
    ensures Dot(n, x, y) == Dot(n, y, x)
  {
    SigmaCong(n, Times(x, y), Times(y, x));
  }

  lemma DotSame(n: nat, x: Vector, x': Vector, y: Vector)
    requires Same(n, x, x')
    ensures Dot(n, x, y) == Dot(n, x', y) && Dot(n, y, x) == Dot(n, y, x')
  {
    SigmaCong(n, Times(x, y), Times(x', y));
    SigmaCong(n, Times(y, x), Times(y, x'));
  }

  lemma {:induction false} DotUnit(n: nat, i: nat, x: Vector)
    ensures Dot(n, Unit(i), x) == if i < n then x(i) else 0.0
  {
    if n > 0 {
      DotUnit(n - 1, i, x);
    }
  }

  function Weighted(u: Vector, a: Matrix, x: Vector): Matrix {
    (k, i) => u(k) * (a(k, i) * x(i))
  }

  lemma Moved(u: real, a: real, x: real)
    ensures u * (a * x) == x * (a * u)
  {
  }

  lemma RowOfWeighted(n: nat, a: Matrix, u: Vector, x: Vector, k: int)
    ensures Times(u, Apply(a, n, x))(k) == RowSums(n, Weighted(u, a, x))(k)
  {
    SigmaScale(n, u(k), Times(Row(a, k), x), Row(Weighted(u, a, x), k));
  }

  lemma ColumnOfWeighted(n: nat, a: Matrix, u: Vector, x: Vector, i: int)
    ensures Times(ApplyTransposed(a, n, u), x)(i) == ColumnSums(n, Weighted(u, a, x))(i)
  {
    var f := Weighted(u, a, x);
    forall k | 0 <= k < n ensures Column(f, i)(k) == x(i) * Times(Column(a, i), u)(k) {
      Moved(u(k), a(k, i), x(i));
    }
    SigmaScale(n, x(i), Times(Column(a, i), u), Column(f, i));
  }

  /** A matrix moves to the other side of a scalar product as its transpose. */
  lemma Adjoint(n: nat, a: Matrix, u: Vector, x: Vector)
    ensures Dot(n, u, Apply(a, n, x)) == Dot(n, ApplyTransposed(a, n, u), x)
  {
    hide Sigma, Times, Apply, ApplyTransposed, RowSums, ColumnSums, Weighted;
    var f := Weighted(u, a, x);
    forall k | 0 <= k < n ensures Times(u, Apply(a, n, x))(k) == RowSums(n, f)(k) {
      RowOfWeighted(n, a, u, x, k);
    }
    SigmaCong(n, Times(u, Apply(a, n, x)), RowSums(n, f));
    SigmaExchange(n, n, f);
    forall i | 0 <= i < n ensures Times(ApplyTransposed(a, n, u), x)(i) == ColumnSums(n, f)(i) {
      ColumnOfWeighted(n, a, u, x, i);
    }
    SigmaCong(n, Times(ApplyTransposed(a, n, u), x), ColumnSums(n, f));
  }

  // ---------------------------------------------------------------------------
  // Orthonormal rows
  // ---------------------------------------------------------------------------

  /** The product of the matrix and its transpose is the identity. */
  lemma BackAndForth(n: nat, a: Matrix, u: Vector)
    requires OrthonormalRows(a, n)
    ensures Same(n, Apply(a, n, ApplyTransposed(a, n, u)), u)
  {
    forall k | 0 <= k < n ensures Apply(a, n, ApplyTransposed(a, n, u))(k) == u(k) {
      DotCommutes(n, Row(a, k), ApplyTransposed(a, n, u));
      Adjoint(n, a, u, Row(a, k));
      DotSame(n, Apply(a, n, Row(a, k)), Unit(k), u);
      DotCommutes(n, u, Unit(k));
      DotUnit(n, k, u);
    }
  }

  /** Projection onto the rows. */
  function Projected(a: Matrix, n: nat, x: Vector): Vector {
    ApplyTransposed(a, n, Apply(a, n, x))
  }

  lemma ProjectionMoves(n: nat, a: Matrix, x: Vector, y: Vector)
    ensures Dot(n, x, Projected(a, n, y)) == Dot(n, Apply(a, n, x), Apply(a, n, y))
    ensures Dot(n, x, Projected(a, n, y)) == Dot(n, Projected(a, n, x), y)
  {
    Adjoint(n, a, Apply(a, n, y), x);
    Adjoint(n, a, Apply(a, n, x), y);
    DotCommutes(n, x, Projected(a, n, y));
    DotCommutes(n, Apply(a, n, x), Apply(a, n, y));
  }

  function Minus(x: Vector, y: Vector): Vector {
    i => x(i) - y(i)
  }

  function Square(x: Vector): Vector {
    Times(x, x)
  }

  lemma GapTerm(x: real, p: real)
    ensures (x - p) * (x - p) == x * x + -2.0 * (x * p) + p * p
  {
  }

  /** Squared distance of two vectors by their scalar products. */
  lemma GapExpansion(n: nat, x: Vector, p: Vector)
    ensures Dot(n, Minus(x, p), Minus(x, p)) == Dot(n, x, x) - 2.0 * Dot(n, x, p) + Dot(n, p, p)
  {
    var d, h := Square(Minus(x, p)), (i: int) => Times(x, x)(i) + -2.0 * Times(x, p)(i);
    SigmaAffine(n, 1.0, Times(x, x), -2.0, Times(x, p), h);
    forall i | 0 <= i < n ensures d(i) == h(i) + Times(p, p)(i) {
      GapTerm(x(i), p(i));
    }
    SigmaAdd(n, h, Times(p, p), d);
  }

  /** The squared distance of a unit vector from its projection. */
  lemma UnitGap(n: nat, a: Matrix, i: nat)
    requires OrthonormalRows(a, n) && i < n
    ensures var q := Minus(Unit(i), Projected(a, n, Unit(i)));
            Dot(n, q, q) == 1.0 - Dot(n, Column(a, i), Column(a, i))
  {
    hide Dot, OrthonormalRows;
    var e := Unit(i);
    var y := Apply(a, n, e);
    var p := Projected(a, n, e);
    GapExpansion(n, e, p);
    DotUnit(n, i, e);
    ProjectionMoves(n, a, e, e);
    Adjoint(n, a, y, p);
    DotCommutes(n, p, p);
    BackAndForth(n, a, y);
    DotSame(n, Apply(a, n, p), y, y);
    forall k | 0 <= k < n ensures y(k) == Column(a, i)(k) {
      DotCommutes(n, Row(a, k), e);
      DotUnit(n, i, Row(a, k));
    }
    DotSame(n, y, Column(a, i), y);
    DotSame(n, y, Column(a, i), Column(a, i));
  }

  function Squares(a: Matrix): Matrix {
    (k, i) => a(k, i) * a(k, i)
  }

  function Gap(a: Matrix, n: nat): Vector {
    i => 1.0 - Dot(n, Column(a, i), Column(a, i))
  }

  /** All rows together have squared length n, hence so do all columns. */
  lemma GapsAddUpToZero(n: nat, a: Matrix)
    requires OrthonormalRows(a, n)
    ensures Sigma(n, Gap(a, n)) == 0.0
  {
    var s := Squares(a);
    SigmaExchange(n, n, s);
    forall k | 0 <= k < n ensures RowSums(n, s)(k) == 1.0 {
      SigmaCong(n, Row(s, k), Times(Row(a, k), Row(a, k)));
      assert Dot(n, Row(a, k), Row(a, k)) == 1.0;
    }
    SigmaConstant(n, 1.0, RowSums(n, s));
    forall i | 0 <= i < n ensures Gap(a, n)(i) == 1.0 + -1.0 * ColumnSums(n, s)(i) {
      SigmaCong(n, Column(s, i), Times(Column(a, i), Column(a, i)));
    }
    var one := (i: int) => 1.0;
    SigmaConstant(n, 1.0, one);
    SigmaAffine(n, 1.0, one, -1.0, ColumnSums(n, s), Gap(a, n));
  }

  lemma ProductSign(x: real, y: real, p: real)
    requires p == x * y && x > 0.0 && y > 0.0
    ensures p > 0.0
  {
  }

  lemma SquareSign(x: real, x2: real)
    requires x2 == x * x
    ensures x2 >= 0.0 && (x2 == 0.0 ==> x == 0.0)
  {
    if x > 0.0 {
      ProductSign(x, x, x2);
    } else if x < 0.0 {
      ProductSign(-x, -x, x2);
    }
  }

  lemma DotSelf(n: nat, q: Vector)
    ensures Dot(n, q, q) >= 0.0
    ensures Dot(n, q, q) == 0.0 ==> forall i :: 0 <= i < n ==> q(i) == 0.0
  {
    forall i | 0 <= i < n ensures Times(q, q)(i) >= 0.0 && (Times(q, q)(i) == 0.0 ==> q(i) == 0.0) {
      SquareSign(q(i), q(i) * q(i));
    }
    NonNegativeTerms(n, Times(q, q));
  }

  /** Every unit vector is its own projection. */
  lemma UnitIsProjected(n: nat, a: Matrix, i: nat)
    requires OrthonormalRows(a, n) && i < n
    ensures Same(n, Projected(a, n, Unit(i)), Unit(i))
  {
    hide Dot, OrthonormalRows;
    forall j: nat | j < n ensures Gap(a, n)(j) >= 0.0 {
      UnitGap(n, a, j);
      DotSelf(n, Minus(Unit(j), Projected(a, n, Unit(j))));
    }
    GapsAddUpToZero(n, a);
    NonNegativeTerms(n, Gap(a, n));
    assert Gap(a, n)(i) == 0.0;
    UnitGap(n, a, i);
    var q := Minus(Unit(i), Projected(a, n, Unit(i)));
    DotSelf(n, q);
    forall j | 0 <= j < n ensures Projected(a, n, Unit(i))(j) == Unit(i)(j) {
      assert q(j) == 0.0;
    }
  }

  /** The transpose of a square matrix with orthonormal rows undoes it. */
  lemma ForthAndBack(n: nat, a: Matrix, x: Vector)
    requires OrthonormalRows(a, n)
    ensures Same(n, ApplyTransposed(a, n, Apply(a, n, x)), x)
  {
    hide Dot, OrthonormalRows;
    forall i | 0 <= i < n ensures Projected(a, n, x)(i) == x(i) {
      DotUnit(n, i, Projected(a, n, x));
      ProjectionMoves(n, a, Unit(i), x);
      UnitIsProjected(n, a, i);
      DotSame(n, Projected(a, n, Unit(i)), Unit(i), x);
      DotUnit(n, i, x);
    }
  }

  /** It keeps the length of every vector. */
  lemma LengthIsKept(n: nat, a: Matrix, x: Vector)
    requires OrthonormalRows(a, n)
    ensures Dot(n, Apply(a, n, x), Apply(a, n, x)) == Dot(n, x, x)
  {
    hide Dot, OrthonormalRows;
    ProjectionMoves(n, a, x, x);
    ForthAndBack(n, a, x);
    DotSame(n, Projected(a, n, x), x, x);
  }
}
