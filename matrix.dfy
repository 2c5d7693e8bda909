/**
 * Dense matrix algebra of the network library. A matrix is a value: every operation
 * returns a new matrix. The binary operations that the library writes as nested loops
 * filling a zero matrix are methods here, proved equal to the pure definitions below;
 * `real` stands for `f64`.
 */
module Matrices {
  import opened Outcomes

  /** The shapes of the two operands of a binary operation that do not fit together. */
  datatype DimensionError = DimensionError(lhsRows: nat, lhsCols: nat, rhsRows: nat, rhsCols: nat)

  datatype Matrix = Matrix(rows: nat, cols: nat, data: seq<seq<real>>)
  {
    /** `data` holds exactly `rows` rows of exactly `cols` entries each. */
    ghost predicate Valid() {
      |data| == rows && forall i :: 0 <= i < |data| ==> |data[i]| == cols
    }

    ghost predicate SameShape(other: Matrix) {
      rows == other.rows && cols == other.cols
    }
  }

  // ---------------------------------------------------------------------------
  // Pure definitions
  // ---------------------------------------------------------------------------

  /** A `rows` x `cols` matrix of zeros. */
  function Zeros(rows: nat, cols: nat): (m: Matrix)
    ensures m.Valid() && m.rows == rows && m.cols == cols
    ensures forall i, j {:trigger m.data[i][j]} :: 0 <= i < rows && 0 <= j < cols ==> m.data[i][j] == 0.0
  {
    Matrix(rows, cols, seq(rows, _ => seq(cols, _ => 0.0)))
  }

  /**
   * A `rows` x `cols` matrix whose entries are drawn by `sample`, which stands for the
   * random number generator (uniform in [-1, 1) in the library).
   */
  function Random(rows: nat, cols: nat, sample: (nat, nat) -> real): (m: Matrix)
    ensures m.Valid() && m.rows == rows && m.cols == cols
    ensures forall i, j {:trigger m.data[i][j]} :: 0 <= i < rows && 0 <= j < cols ==> m.data[i][j] == sample(i, j)
  {
    Matrix(rows, cols, seq(rows, i requires 0 <= i => seq(cols, j requires 0 <= j => sample(i, j))))
  }

  /**
   * A matrix over the given rows: the row count is the number of rows and the column
   * count is the length of the first row. The other rows are not checked, so the result
   * is well formed exactly when every row is as long as the first.
   */
  function FromRows(data: seq<seq<real>>): (m: Matrix)
    requires |data| > 0
    ensures m.rows == |data| && m.cols == |data[0]| && m.data == data
    ensures m.Valid() <==> forall i :: 0 <= i < |data| ==> |data[i]| == |data[0]|
  {
    Matrix(|data|, |data[0]|, data)
  }

  /** Applies `f` to every entry; the stored shape and the layout of `data` are kept. */
  function Mapped(m: Matrix, f: real -> real): (r: Matrix)
    ensures r.rows == m.rows && r.cols == m.cols && |r.data| == |m.data|
    ensures forall i {:trigger r.data[i]} :: 0 <= i < |m.data| ==> |r.data[i]| == |m.data[i]|
    ensures forall i, j {:trigger r.data[i][j]} :: 0 <= i < |m.data| && 0 <= j < |m.data[i]| ==> r.data[i][j] == f(m.data[i][j])
    ensures m.Valid() ==> r.Valid()
  {
    Matrix(m.rows, m.cols, seq(|m.data|, i requires 0 <= i < |m.data| =>
      seq(|m.data[i]|, j requires 0 <= j < |m.data[i]| => f(m.data[i][j]))))
  }

  /** Entrywise ("dot") product of two matrices of the same shape. */
  function Hadamard(a: Matrix, b: Matrix): (r: Matrix)
    requires a.Valid() && b.Valid() && a.SameShape(b)
    ensures r.Valid() && r.SameShape(a)
    ensures forall i, j {:trigger r.data[i][j]} :: 0 <= i < a.rows && 0 <= j < a.cols ==> r.data[i][j] == a.data[i][j] * b.data[i][j]
  {
    Matrix(a.rows, a.cols, seq(a.rows, i requires 0 <= i < a.rows =>
      seq(a.cols, j requires 0 <= j < a.cols => a.data[i][j] * b.data[i][j])))
  }

  /** Entrywise sum of two matrices of the same shape. */
  function Sum(a: Matrix, b: Matrix): (r: Matrix)
    requires a.Valid() && b.Valid() && a.SameShape(b)
    ensures r.Valid() && r.SameShape(a)
    ensures forall i, j {:trigger r.data[i][j]} :: 0 <= i < a.rows && 0 <= j < a.cols ==> r.data[i][j] == a.data[i][j] + b.data[i][j]
  {
    Matrix(a.rows, a.cols, seq(a.rows, i requires 0 <= i < a.rows =>
      seq(a.cols, j requires 0 <= j < a.cols => a.data[i][j] + b.data[i][j])))
  }

  /** Entrywise difference of two matrices of the same shape. */
  function Difference(a: Matrix, b: Matrix): (r: Matrix)
    requires a.Valid() && b.Valid() && a.SameShape(b)
    ensures r.Valid() && r.SameShape(a)
    ensures forall i, j {:trigger r.data[i][j]} :: 0 <= i < a.rows && 0 <= j < a.cols ==> r.data[i][j] == a.data[i][j] - b.data[i][j]
  {
    Matrix(a.rows, a.cols, seq(a.rows, i requires 0 <= i < a.rows =>
      seq(a.cols, j requires 0 <= j < a.cols => a.data[i][j] - b.data[i][j])))
  }

  /** Every entry multiplied by the scalar `c` (written scalar-first, as the library does). */
  function Scaled(m: Matrix, c: real): (r: Matrix)
    requires m.Valid()
    ensures r.Valid() && r.SameShape(m)
    ensures forall i, j {:trigger r.data[i][j]} :: 0 <= i < m.rows && 0 <= j < m.cols ==> r.data[i][j] == c * m.data[i][j]
  {
    Matrix(m.rows, m.cols, seq(m.rows, i requires 0 <= i < m.rows =>
      seq(m.cols, j requires 0 <= j < m.cols => c * m.data[i][j])))
  }

  /** The transpose: a `cols` x `rows` matrix with entry [j][i] equal to entry [i][j]. */
  function Transposed(m: Matrix): (r: Matrix)
    requires m.Valid()
    ensures r.Valid() && r.rows == m.cols && r.cols == m.rows
    ensures forall i, j {:trigger r.data[j][i]} :: 0 <= i < m.rows && 0 <= j < m.cols ==> r.data[j][i] == m.data[i][j]
  {
    Matrix(m.cols, m.rows, seq(m.cols, j requires 0 <= j < m.cols =>
      seq(m.rows, i requires 0 <= i < m.rows => m.data[i][j])))
  }

  /**
   * The running sum a[i][0]*b[0][j] + ... + a[i][n-1]*b[n-1][j], accumulated from zero
   * in increasing `k`, the order of the library's innermost loop.
   */
  function InnerProduct(a: Matrix, b: Matrix, i: nat, j: nat, n: nat): real
    requires a.Valid() && b.Valid() && a.cols == b.rows
    requires i < a.rows && j < b.cols && n <= a.cols
  {
    if n == 0 then 0.0 else InnerProduct(a, b, i, j, n - 1) + a.data[i][n - 1] * b.data[n - 1][j]
  }

  /** The matrix product: entry [i][j] is row `i` of `a` times column `j` of `b`. */
  function Product(a: Matrix, b: Matrix): (r: Matrix)
    requires a.Valid() && b.Valid() && a.cols == b.rows
    ensures r.Valid() && r.rows == a.rows && r.cols == b.cols
    ensures forall i, j {:trigger r.data[i][j]} :: 0 <= i < a.rows && 0 <= j < b.cols ==> r.data[i][j] == InnerProduct(a, b, i, j, a.cols)
  {
    Matrix(a.rows, b.cols, seq(a.rows, i requires 0 <= i < a.rows =>
      seq(b.cols, j requires 0 <= j < b.cols => InnerProduct(a, b, i, j, a.cols))))
  }

  // ---------------------------------------------------------------------------
  // The library's operations, as the nested loops that fill a zero matrix
  // ---------------------------------------------------------------------------

  /** Entrywise product; fails exactly when the shapes differ. */
  method Dot(a: Matrix, b: Matrix) returns (r: Result<Matrix, DimensionError>)
    requires a.Valid() && b.Valid()
    ensures r.Err? <==> a.rows != b.rows || a.cols != b.cols
    ensures r.Err? ==> r.error == DimensionError(a.rows, a.cols, b.rows, b.cols)
    ensures r.Ok? ==> r.value == Hadamard(a, b)
  {
    if a.rows != b.rows || a.cols != b.cols {
      return Err(DimensionError(a.rows, a.cols, b.rows, b.cols));
    }
    var product := Zeros(a.rows, a.cols);
    for i := 0 to a.rows
      invariant product.Valid() && product.SameShape(a)
      invariant forall k, l :: 0 <= k < i && 0 <= l < a.cols ==> product.data[k][l] == a.data[k][l] * b.data[k][l]
    {
      for j := 0 to a.cols
        invariant product.Valid() && product.SameShape(a)
        invariant forall k, l :: 0 <= k < i && 0 <= l < a.cols ==> product.data[k][l] == a.data[k][l] * b.data[k][l]
        invariant forall l :: 0 <= l < j ==> product.data[i][l] == a.data[i][l] * b.data[i][l]
      {
        product := product.(data := product.data[i := product.data[i][j := a.data[i][j] * b.data[i][j]]]);
      }
    }
    Extensionality(product, Hadamard(a, b));
    r := Ok(product);
  }

  /** Transpose, written as the loop that copies entry [i][j] to [j][i]. */
  method Transpose(m: Matrix) returns (t: Matrix)
    requires m.Valid()
    ensures t == Transposed(m)
  {
    t := Zeros(m.cols, m.rows);
    for i := 0 to m.rows
      invariant t.Valid() && t.rows == m.cols && t.cols == m.rows
      invariant forall k, l :: 0 <= k < i && 0 <= l < m.cols ==> t.data[l][k] == m.data[k][l]
    {
      for j := 0 to m.cols
        invariant t.Valid() && t.rows == m.cols && t.cols == m.rows
        invariant forall k, l :: 0 <= k < i && 0 <= l < m.cols ==> t.data[l][k] == m.data[k][l]
        invariant forall l :: 0 <= l < j ==> t.data[l][i] == m.data[i][l]
      {
        t := t.(data := t.data[j := t.data[j][i := m.data[i][j]]]);
      }
    }
    Extensionality(t, Transposed(m));
  }

  /** Matrix addition; fails exactly when the shapes differ. */
  method Add(a: Matrix, b: Matrix) returns (r: Result<Matrix, DimensionError>)
    requires a.Valid() && b.Valid()
    ensures r.Err? <==> a.rows != b.rows || a.cols != b.cols
    ensures r.Err? ==> r.error == DimensionError(a.rows, a.cols, b.rows, b.cols)
    ensures r.Ok? ==> r.value == Sum(a, b)
  {
    if a.rows != b.rows || a.cols != b.cols {
      return Err(DimensionError(a.rows, a.cols, b.rows, b.cols));
    }
    var sum := Zeros(a.rows, a.cols);
    for i := 0 to a.rows
      invariant sum.Valid() && sum.SameShape(a)
      invariant forall k, l :: 0 <= k < i && 0 <= l < a.cols ==> sum.data[k][l] == a.data[k][l] + b.data[k][l]
    {
      for j := 0 to a.cols
        invariant sum.Valid() && sum.SameShape(a)
        invariant forall k, l :: 0 <= k < i && 0 <= l < a.cols ==> sum.data[k][l] == a.data[k][l] + b.data[k][l]
        invariant forall l :: 0 <= l < j ==> sum.data[i][l] == a.data[i][l] + b.data[i][l]
      {
        sum := sum.(data := sum.data[i := sum.data[i][j := a.data[i][j] + b.data[i][j]]]);
      }
    }
    Extensionality(sum, Sum(a, b));
    r := Ok(sum);
  }

  /** Matrix subtraction; fails exactly when the shapes differ. */
  method Sub(a: Matrix, b: Matrix) returns (r: Result<Matrix, DimensionError>)
    requires a.Valid() && b.Valid()
    ensures r.Err? <==> a.rows != b.rows || a.cols != b.cols
    ensures r.Err? ==> r.error == DimensionError(a.rows, a.cols, b.rows, b.cols)
    ensures r.Ok? ==> r.value == Difference(a, b)
  {
    if a.rows != b.rows || a.cols != b.cols {
      return Err(DimensionError(a.rows, a.cols, b.rows, b.cols));
    }
    var difference := Zeros(a.rows, a.cols);
    for i := 0 to a.rows
      invariant difference.Valid() && difference.SameShape(a)
      invariant forall k, l :: 0 <= k < i && 0 <= l < a.cols ==> difference.data[k][l] == a.data[k][l] - b.data[k][l]
    {
      for j := 0 to a.cols
        invariant difference.Valid() && difference.SameShape(a)
        invariant forall k, l :: 0 <= k < i && 0 <= l < a.cols ==> difference.data[k][l] == a.data[k][l] - b.data[k][l]
        invariant forall l :: 0 <= l < j ==> difference.data[i][l] == a.data[i][l] - b.data[i][l]
      {
        difference := difference.(data := difference.data[i := difference.data[i][j := a.data[i][j] - b.data[i][j]]]);
      }
    }
    Extensionality(difference, Difference(a, b));
    r := Ok(difference);
  }

  /**
   * Matrix product; fails exactly when the column count of `a` is not the row count
   * of `b`. Each entry is accumulated in `sum`, starting from zero.
   */
  method Mul(a: Matrix, b: Matrix) returns (r: Result<Matrix, DimensionError>)
    requires a.Valid() && b.Valid()
    ensures r.Err? <==> a.cols != b.rows
    ensures r.Err? ==> r.error == DimensionError(a.rows, a.cols, b.rows, b.cols)
    ensures r.Ok? ==> r.value == Product(a, b)
  {
    if a.cols != b.rows {
      return Err(DimensionError(a.rows, a.cols, b.rows, b.cols));
    }
    var product := Zeros(a.rows, b.cols);
    for i := 0 to a.rows
      invariant product.Valid() && product.rows == a.rows && product.cols == b.cols
      invariant forall k, l :: 0 <= k < i && 0 <= l < b.cols ==> product.data[k][l] == InnerProduct(a, b, k, l, a.cols)
    {
      for j := 0 to b.cols
        invariant product.Valid() && product.rows == a.rows && product.cols == b.cols
        invariant forall k, l :: 0 <= k < i && 0 <= l < b.cols ==> product.data[k][l] == InnerProduct(a, b, k, l, a.cols)
        invariant forall l :: 0 <= l < j ==> product.data[i][l] == InnerProduct(a, b, i, l, a.cols)
      {
        var sum := 0.0;
        for k := 0 to a.cols
          invariant sum == InnerProduct(a, b, i, j, k)
        {
          sum := sum + a.data[i][k] * b.data[k][j];
        }
        product := product.(data := product.data[i := product.data[i][j := sum]]);
      }
    }
    Extensionality(product, Product(a, b));
    r := Ok(product);
  }

  /** Multiplication by a scalar; it cannot fail. */
  method Scale(m: Matrix, c: real) returns (r: Matrix)
    requires m.Valid()
    ensures r == Scaled(m, c)
  {
    r := Zeros(m.rows, m.cols);
    for i := 0 to m.rows
      invariant r.Valid() && r.SameShape(m)
      invariant forall k, l :: 0 <= k < i && 0 <= l < m.cols ==> r.data[k][l] == c * m.data[k][l]
    {
      for j := 0 to m.cols
        invariant r.Valid() && r.SameShape(m)
        invariant forall k, l :: 0 <= k < i && 0 <= l < m.cols ==> r.data[k][l] == c * m.data[k][l]
        invariant forall l :: 0 <= l < j ==> r.data[i][l] == c * m.data[i][l]
      {
        r := r.(data := r.data[i := r.data[i][j := c * m.data[i][j]]]);
      }
    }
    Extensionality(r, Scaled(m, c));
  }

  // ---------------------------------------------------------------------------
  // Laws
  // ---------------------------------------------------------------------------

  /** Two well-formed matrices of one shape with the same entries are equal. */
  lemma Extensionality(m: Matrix, n: Matrix)
    requires m.Valid() && n.Valid() && m.SameShape(n)
    requires forall i, j :: 0 <= i < m.rows && 0 <= j < m.cols ==> m.data[i][j] == n.data[i][j]
    ensures m == n
  {
    forall i | 0 <= i < m.rows
      ensures m.data[i] == n.data[i]
    {
      assert |m.data[i]| == |n.data[i]| == m.cols;
    }
  }

  /** Transposing twice gives back the original matrix. */
  lemma TransposeInvolution(m: Matrix)
    requires m.Valid()
    ensures Transposed(Transposed(m)) == m
  {
    Extensionality(Transposed(Transposed(m)), m);
  }

  /** A transposed 1 x n row is an n x 1 column holding the same entries, and back. */
  lemma RowColumnRoundTrip(v: seq<real>)
    ensures Transposed(FromRows([v])).rows == |v| && Transposed(FromRows([v])).cols == 1
    ensures forall i :: 0 <= i < |v| ==> Transposed(FromRows([v])).data[i][0] == v[i]
    ensures Transposed(Transposed(FromRows([v]))).data[0] == v
  {
    TransposeInvolution(FromRows([v]));
  }

  /** One step of the inner product of transposes is the same step with operands swapped. */
  lemma {:induction false} InnerProductTransposed(a: Matrix, b: Matrix, i: nat, j: nat, n: nat)
    requires a.Valid() && b.Valid() && a.cols == b.rows
    requires i < a.rows && j < b.cols && n <= a.cols
    ensures InnerProduct(Transposed(b), Transposed(a), j, i, n) == InnerProduct(a, b, i, j, n)
  {
    if n > 0 {
      InnerProductTransposed(a, b, i, j, n - 1);
    }
  }

  /** The transpose of a product is the product of the transposes in reverse order. */
  lemma ProductTranspose(a: Matrix, b: Matrix)
    requires a.Valid() && b.Valid() && a.cols == b.rows
    ensures Transposed(Product(a, b)) == Product(Transposed(b), Transposed(a))
  {
    var lhs, rhs := Transposed(Product(a, b)), Product(Transposed(b), Transposed(a));
    forall j, i | 0 <= j < b.cols && 0 <= i < a.rows
      ensures lhs.data[j][i] == rhs.data[j][i]
    {
      InnerProductTransposed(a, b, i, j, a.cols);
    }
    Extensionality(lhs, rhs);
  }

  /** Adding to a zero matrix, as the mini-batch accumulators do first, changes nothing. */
  lemma SumZerosLeft(m: Matrix)
    requires m.Valid()
    ensures Sum(Zeros(m.rows, m.cols), m) == m
  {
    Extensionality(Sum(Zeros(m.rows, m.cols), m), m);
  }
}
