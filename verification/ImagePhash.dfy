/**
  The perceptual hash of a listing photo: a two-dimensional DCT computed in
  place, row by row and then column by column, followed by a mean threshold on
  the 63 lowest non-constant coefficients.

  The cosine table and the two normalising factors are parameters. The
  refinement results hold for every table and all factors; the hash results use
  only that each cosine row but the first sums to zero.
 */
module ImagePhash {
  import opened Sums

  /** The table read with the given stride, and the factors for k = 0 and k > 0
      of a transform of length n. */
  datatype Basis = Basis(table: seq<real>, dc: nat -> real, ac: nat -> real) {
    function Factor(n: nat, k: nat): real {
      if k == 0 then dc(n) else ac(n)
    }
  }

  /** Flat index of column x in row y. */
  function Flat(y: nat, x: nat, width: nat): nat {
    assert y * width >= 0;
    y * width + x
  }

  /** The value at a flat index; indices outside the sequence never matter. */
  function At(s: seq<real>, i: int): real {
    if 0 <= i < |s| then s[i] else 0.0
  }

  lemma FlatBound(y: nat, x: nat, width: nat, height: nat)
    requires y < height && x < width
    ensures Flat(y, x, width) < width * height
  {
    assert (height - 1 - y) * width >= 0;
    assert (height - 1) * width == y * width + (height - 1 - y) * width;
  }

  lemma EarlierRow(y: nat, x: nat, y': nat, width: nat)
    requires x < width && y < y'
    ensures Flat(y, x, width) < y' * width
  {
    assert (y' - y - 1) * width >= 0;
    assert y' * width == y * width + width + (y' - y - 1) * width;
  }

  lemma FlatInjective(y: nat, x: nat, y': nat, x': nat, width: nat)
    requires x < width && x' < width
    requires Flat(y, x, width) == Flat(y', x', width)
    ensures y == y' && x == x'
  {
    if y < y' {
      EarlierRow(y, x, y', width);
    } else if y' < y {
      EarlierRow(y', x', y, width);
    }
  }

  lemma FlatDistinct(width: nat, height: nat)
    ensures forall y: nat, x: nat :: y < height && x < width ==> Flat(y, x, width) < width * height
    ensures forall y: nat, x: nat, y': nat, x': nat ::
              x < width && x' < width && Flat(y, x, width) == Flat(y', x', width) ==> y == y' && x == x'
  {
    forall y: nat, x: nat | y < height && x < width
      ensures Flat(y, x, width) < width * height
    {
      FlatBound(y, x, width, height);
    }
    forall y: nat, x: nat, y': nat, x': nat | x < width && x' < width && Flat(y, x, width) == Flat(y', x', width)
      ensures y == y' && x == x'
    {
      FlatInjective(y, x, y', x', width);
    }
  }

  // ---------------------------------------------------------------------------
  // Reference definitions
  // ---------------------------------------------------------------------------

  function SignalTerm(signal: seq<real>, n: nat, k: nat, b: Basis): int -> real {
    i => At(signal, i) * At(b.table, k * n + i)
  }

  /** One coefficient of the transform of a signal of length n. */
  function Coefficient1D(signal: seq<real>, n: nat, k: nat, b: Basis): real {
    b.Factor(n, k) * Sigma(n, SignalTerm(signal, n, k, b))
  }

  function PixelTerm(pixels: seq<real>, width: nat, height: nat, u: nat, v: nat, y: int, b: Basis): int -> real {
    x => At(pixels, y * width + x) * At(b.table, u * width + x) * At(b.table, v * height + y)
  }

  function RowSum(pixels: seq<real>, width: nat, height: nat, u: nat, v: nat, b: Basis): int -> real {
    y => Sigma(width, PixelTerm(pixels, width, height, u, v, y, b))
  }

  /** Coefficient [v][u] as the direct double sum over all pixels. */
  function Coefficient2D(pixels: seq<real>, width: nat, height: nat, u: nat, v: nat, b: Basis): real {
    b.Factor(width, u) * b.Factor(height, v) * Sigma(height, RowSum(pixels, width, height, u, v, b))
  }

  function RowTerm(pixels: seq<real>, width: nat, u: nat, y: int, b: Basis): int -> real {
    x => At(pixels, y * width + x) * At(b.table, u * width + x)
  }

  /** Coefficient u of row y alone. */
  function RowCoefficient(pixels: seq<real>, width: nat, u: nat, y: int, b: Basis): real {
    b.Factor(width, u) * Sigma(width, RowTerm(pixels, width, u, y, b))
  }

  lemma ColumnTermFromRow(pixels: seq<real>, width: nat, height: nat, u: nat, v: nat, y: nat, b: Basis,
                          column: seq<real>)
    requires y < |column| && column[y] == RowCoefficient(pixels, width, u, y, b)
    ensures SignalTerm(column, height, v, b)(y) == b.Factor(width, u) * RowSum(pixels, width, height, u, v, b)(y)
  {
    var t := At(b.table, v * height + y);
    var row := RowTerm(pixels, width, u, y, b);
    SigmaScale(width, t, row, PixelTerm(pixels, width, height, u, v, y, b));
    Reassociate(b.Factor(width, u), Sigma(width, row), t);
    Reassociate(b.Factor(width, u), t, Sigma(width, row));
  }

  lemma ColumnSumFromRows(pixels: seq<real>, width: nat, height: nat, u: nat, v: nat, b: Basis, column: seq<real>)
    requires |column| >= height
    requires forall y :: 0 <= y < height ==> column[y] == RowCoefficient(pixels, width, u, y, b)
    ensures Sigma(height, SignalTerm(column, height, v, b))
         == b.Factor(width, u) * Sigma(height, RowSum(pixels, width, height, u, v, b))
  {
    hide *;
    var inner, outer := RowSum(pixels, width, height, u, v, b), SignalTerm(column, height, v, b);
    forall y | 0 <= y < height
      ensures outer(y) == b.Factor(width, u) * inner(y)
    {
      ColumnTermFromRow(pixels, width, height, u, v, y, b, column);
    }
    SigmaScale(height, b.Factor(width, u), inner, outer);
  }

  /** Transforming the rows and then column u of the result is the double sum. */
  lemma RowThenColumn(pixels: seq<real>, width: nat, height: nat, u: nat, v: nat, b: Basis, column: seq<real>)
    requires |column| >= height
    requires forall y :: 0 <= y < height ==> column[y] == RowCoefficient(pixels, width, u, y, b)
    ensures Coefficient1D(column, height, v, b) == Coefficient2D(pixels, width, height, u, v, b)
  {
    hide Sigma, SignalTerm, RowSum, RowCoefficient;
    ColumnSumFromRows(pixels, width, height, u, v, b, column);
    ScaledProduct(b.Factor(height, v), b.Factor(width, u),
                  Sigma(height, RowSum(pixels, width, height, u, v, b)),
                  Sigma(height, SignalTerm(column, height, v, b)));
  }

  lemma ScaledProduct(p: real, c: real, s: real, t: real)
    requires t == c * s
    ensures p * t == c * p * s
  {
  }

  lemma Reassociate(a: real, b: real, c: real)
    ensures a * b * c == a * (b * c)
    ensures b * a * c == a * (b * c)
  {
  }

  // ---------------------------------------------------------------------------
  // The code
  // ---------------------------------------------------------------------------

  lemma NoTerms(f: int -> real)
    ensures Sigma(0, f) == 0.0
  {
  }

  /** One pass of the inner loop, which reads the table at j. */
  lemma NextTerm(s: seq<real>, n: nat, k: nat, b: Basis, i: nat, j: nat)
    requires |s| == n && n * n <= |b.table| && k < n && i < n && j == k * n + i
    ensures j < |b.table|
    ensures Sigma(i + 1, SignalTerm(s, n, k, b)) == Sigma(i, SignalTerm(s, n, k, b)) + s[i] * b.table[j]
  {
    FlatBound(k, i, n, n);
  }

  lemma FactorTimesSum(s: seq<real>, n: nat, k: nat, b: Basis, ck: real, sum: real)
    requires ck == b.Factor(n, k) && sum == Sigma(n, SignalTerm(s, n, k, b))
    ensures ck * sum == Coefficient1D(s, n, k, b)
  {
  }

  method Dct1D(signal: array<real>, n: nat, b: Basis) returns (result: array<real>)
    requires n <= signal.Length
    requires n * n <= |b.table|
    ensures fresh(result) && result.Length == n
    ensures forall k :: 0 <= k < n ==> result[k] == Coefficient1D(signal[..n], n, k, b)
  {
    hide Sigma, SignalTerm, Coefficient1D;
    result := new real[n](_ => 0.0);
    ghost var s := signal[..n];
    for k := 0 to n
      invariant forall j :: 0 <= j < k ==> result[j] == Coefficient1D(s, n, j, b)
      invariant signal[..n] == s
    {
      var sum := 0.0;
      NoTerms(SignalTerm(s, n, k, b));
      for i := 0 to n
        invariant sum == Sigma(i, SignalTerm(s, n, k, b))
      {
        var j := k * n + i;
        assert s[i] == signal[i];
        assert j < |b.table| && Sigma(i + 1, SignalTerm(s, n, k, b)) == sum + signal[i] * b.table[j] by {
          NextTerm(s, n, k, b, i, j);
        }
        sum := sum + signal[i] * b.table[j];
      }
      var ck := if k == 0 then b.dc(n) else b.ac(n);
      FactorTimesSum(s, n, k, b, ck, sum);
      result[k] := ck * sum;
    }
  }

  function Max(a: nat, b: nat): nat {
    if a < b then b else a
  }

  /** Rows above `rows` hold row coefficients. */
  ghost predicate RowsDone(cells: seq<real>, pixels: seq<real>, width: nat, height: nat, rows: nat, b: Basis)
    requires |cells| == width * height && rows <= height
  {
    FlatDistinct(width, height);
    forall v: nat, u: nat :: v < rows && u < width ==>
      cells[Flat(v, u, width)] == RowCoefficient(pixels, width, u, v, b)
  }

  /** Columns left of `columns` are final, the others still hold row coefficients. */
  ghost predicate ColumnsDone(cells: seq<real>, pixels: seq<real>, width: nat, height: nat, columns: nat, b: Basis)
    requires |cells| == width * height && columns <= width
  {
    FlatDistinct(width, height);
    forall v: nat, u: nat :: v < height && u < width ==>
      cells[Flat(v, u, width)] ==
        if u < columns then Coefficient2D(pixels, width, height, u, v, b)
        else RowCoefficient(pixels, width, u, v, b)
  }

  method StoreRow(row: array<real>, y: nat, width: nat, height: nat, result: array<real>)
    requires row != result && row.Length >= width && result.Length == width * height && y < height
    modifies result
    ensures forall v: nat, u: nat :: v < height && u < width ==>
              Flat(v, u, width) < result.Length
              && result[Flat(v, u, width)] == if v == y then row[u] else old(result[Flat(v, u, width)])
  {
    FlatDistinct(width, height);
    for x := 0 to width
      invariant forall v: nat, u: nat :: v < height && u < width ==>
                  result[Flat(v, u, width)] ==
                    if v == y && u < x then row[u] else old(result[Flat(v, u, width)])
    {
      result[Flat(y, x, width)] := row[x];
    }
  }

  method StoreColumn(column: array<real>, x: nat, width: nat, height: nat, result: array<real>)
    requires column != result && column.Length >= height && result.Length == width * height && x < width
    modifies result
    ensures forall v: nat, u: nat :: v < height && u < width ==>
              Flat(v, u, width) < result.Length
              && result[Flat(v, u, width)] == if u == x then column[v] else old(result[Flat(v, u, width)])
  {
    FlatDistinct(width, height);
    for y := 0 to height
      invariant forall v: nat, u: nat :: v < height && u < width ==>
                  result[Flat(v, u, width)] ==
                    if u == x && v < y then column[v] else old(result[Flat(v, u, width)])
    {
      result[Flat(y, x, width)] := column[y];
    }
  }

  /** One pass of the first loop: row y is transformed through the shared buffer. */
  method TransformRow(pixels: seq<real>, width: nat, height: nat, y: nat, b: Basis, rowResult: array<real>,
                      result: array<real>)
    requires rowResult != result
    requires |pixels| == result.Length == width * height && y < height
    requires rowResult.Length >= width && |b.table| >= width * width
    requires RowsDone(result[..], pixels, width, height, y, b)
    modifies rowResult, result
    ensures RowsDone(result[..], pixels, width, height, y + 1, b)
  {
    FlatDistinct(width, height);
    for x := 0 to width
      invariant forall i :: 0 <= i < x ==> rowResult[i] == At(pixels, Flat(y, i, width))
      invariant result[..] == old(result[..])
    {
      rowResult[x] := pixels[Flat(y, x, width)];
    }
    var dctRow := Dct1D(rowResult, width, b);
    forall u: nat | u < width
      ensures dctRow[u] == RowCoefficient(pixels, width, u, y, b)
    {
      RowOfBuffer(pixels, width, u, y, b, rowResult[..width]);
    }
    StoreRow(dctRow, y, width, height, result);
  }

  /** One pass of the second loop: column x is transformed through the same buffer. */
  method TransformColumn(pixels: seq<real>, width: nat, height: nat, x: nat, b: Basis, rowResult: array<real>,
                         result: array<real>)
    requires rowResult != result
    requires |pixels| == result.Length == width * height && x < width
    requires rowResult.Length >= height && |b.table| >= height * height
    requires ColumnsDone(result[..], pixels, width, height, x, b)
    modifies rowResult, result
    ensures ColumnsDone(result[..], pixels, width, height, x + 1, b)
  {
    FlatDistinct(width, height);
    for y := 0 to height
      invariant forall i: nat :: i < y ==> rowResult[i] == RowCoefficient(pixels, width, x, i, b)
      invariant result[..] == old(result[..])
    {
      rowResult[y] := result[Flat(y, x, width)];
    }
    var dctCol := Dct1D(rowResult, height, b);
    forall v: nat | v < height
      ensures dctCol[v] == Coefficient2D(pixels, width, height, x, v, b)
    {
      RowThenColumn(pixels, width, height, x, v, b, rowResult[..height]);
    }
    StoreColumn(dctCol, x, width, height, result);
  }

  /** The in-place transform computes the direct double sum, for every image
      shape and every table. */
  method Dct2D(pixels: seq<real>, width: nat, height: nat, b: Basis) returns (result: array<real>)
    requires |pixels| == width * height
    requires |b.table| == Max(width, height) * Max(width, height)
    ensures fresh(result) && result.Length == width * height
    ensures forall v: nat, u: nat :: v < height && u < width ==>
              Flat(v, u, width) < result.Length
              && result[Flat(v, u, width)] == Coefficient2D(pixels, width, height, u, v, b)
  {
    result := new real[width * height](_ => 0.0);
    // The buffer grows to `height` entries when the image is taller than wide.
    var rowResult := new real[Max(width, height)](_ => 0.0);
    SquareBounds(width, height);
    for y := 0 to height
      invariant RowsDone(result[..], pixels, width, height, y, b)
    {
      TransformRow(pixels, width, height, y, b, rowResult, result);
    }
    for x := 0 to width
      invariant ColumnsDone(result[..], pixels, width, height, x, b)
    {
      TransformColumn(pixels, width, height, x, b, rowResult, result);
    }
    FlatDistinct(width, height);
  }

  lemma SquareBounds(width: nat, height: nat)
    ensures width * width <= Max(width, height) * Max(width, height)
    ensures height * height <= Max(width, height) * Max(width, height)
  {
  }

  /** The buffer holding row y transforms to the coefficients of row y. */
  lemma RowOfBuffer(pixels: seq<real>, width: nat, u: nat, y: nat, b: Basis, buffer: seq<real>)
    requires |buffer| == width
    requires forall i :: 0 <= i < width ==> buffer[i] == At(pixels, Flat(y, i, width))
    ensures Coefficient1D(buffer, width, u, b) == RowCoefficient(pixels, width, u, y, b)
  {
    SigmaCong(width, SignalTerm(buffer, width, u, b), RowTerm(pixels, width, u, y, b));
  }
}
