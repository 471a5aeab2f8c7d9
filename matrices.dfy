/**
 * The value type `Matrix<Double>` of the Surge library, over reals, and the
 * arithmetic the matrix container either delegates to Surge (sum, product,
 * transpose, inverse) or writes by hand (zero fill, identity, difference).
 * Every operation here is pure: it builds a new value and never changes its
 * operands.
 */
module Matrices {

  /** Surge keeps its dimensions next to the row-major grid of entries. */
  datatype Matrix = Matrix(rows: nat, columns: nat, grid: seq<seq<real>>)
  {
    /** The grid has `rows` rows of `columns` entries each. */
    predicate Valid() {
      |grid| == rows && forall i | 0 <= i < |grid| :: |grid[i]| == columns
    }

    predicate HasShape(r: nat, c: nat) {
      Valid() && rows == r && columns == c
    }

    /** The subscript setter `m[i, j] = v`. */
    function Set(i: nat, j: nat, v: real): (m: Matrix)
      requires Valid() && i < rows && j < columns
      ensures m.HasShape(rows, columns)
      ensures m.grid[i][j] == v
      ensures forall p, q | 0 <= p < rows && 0 <= q < columns && (p != i || q != j) ::
                m.grid[p][q] == grid[p][q]
    {
      Matrix(rows, columns, grid[i := grid[i][j := v]])
    }
  }

  /** Nested row-major data whose rows all have the length of the first one. */
  predicate Rectangular(data: seq<seq<real>>) {
    |data| > 0 && forall i | 0 <= i < |data| :: |data[i]| == |data[0]|
  }

  /** Surge's `Matrix(contents)`: the dimensions are read off the data. */
  function FromRows(data: seq<seq<real>>): (m: Matrix)
    requires Rectangular(data)
    ensures m.HasShape(|data|, |data[0]|) && m.grid == data
  {
    Matrix(|data|, |data[0]|, data)
  }

  /** Surge's `Matrix(rows:columns:repeatedValue: 0.0)`. */
  function Zero(r: nat, c: nat): (m: Matrix)
    ensures m.HasShape(r, c)
    ensures forall i, j | 0 <= i < r && 0 <= j < c :: m.grid[i][j] == 0.0
  {
    Matrix(r, c, seq(r, i => seq(c, j => 0.0)))
  }

  function Identity(n: nat): (m: Matrix)
    ensures m.HasShape(n, n)
    ensures forall i, j | 0 <= i < n && 0 <= j < n :: m.grid[i][j] == if i == j then 1.0 else 0.0
  {
    Matrix(n, n, seq(n, i => seq(n, j => if i == j then 1.0 else 0.0)))
  }

  function Scale(c: real, a: Matrix): (m: Matrix)
    requires a.Valid()
    ensures m.HasShape(a.rows, a.columns)
    ensures forall i, j | 0 <= i < a.rows && 0 <= j < a.columns :: m.grid[i][j] == c * a.grid[i][j]
  {
    Matrix(a.rows, a.columns,
           seq(a.rows, i requires 0 <= i < a.rows =>
             seq(a.columns, j requires 0 <= j < a.columns => c * a.grid[i][j])))
  }

  /** `Surge.add`: Surge traps unless both operands have the same shape. */
  function Add(a: Matrix, b: Matrix): (m: Matrix)
    requires a.Valid() && b.HasShape(a.rows, a.columns)
    ensures m.HasShape(a.rows, a.columns)
    ensures forall i, j | 0 <= i < a.rows && 0 <= j < a.columns ::
              m.grid[i][j] == a.grid[i][j] + b.grid[i][j]
  {
    Matrix(a.rows, a.columns,
           seq(a.rows, i requires 0 <= i < a.rows =>
             seq(a.columns, j requires 0 <= j < a.columns => a.grid[i][j] + b.grid[i][j])))
  }

  /** Entrywise difference, the reference for the hand-written `-` loop. */
  function Sub(a: Matrix, b: Matrix): (m: Matrix)
    requires a.Valid() && b.HasShape(a.rows, a.columns)
    ensures m.HasShape(a.rows, a.columns)
    ensures forall i, j | 0 <= i < a.rows && 0 <= j < a.columns ::
              m.grid[i][j] == a.grid[i][j] - b.grid[i][j]
  {
    Matrix(a.rows, a.columns,
           seq(a.rows, i requires 0 <= i < a.rows =>
             seq(a.columns, j requires 0 <= j < a.columns => a.grid[i][j] - b.grid[i][j])))
  }

  /** The sum of a sequence of reals, taken from the left. */
  function SeqSum(s: seq<real>): real
    decreases |s|
  {
    if |s| == 0 then 0.0 else SeqSum(s[..|s| - 1]) + s[|s| - 1]
  }

  /** The terms a[i][k] * b[k][j] whose sum is entry (i, j) of the product. */
  function Products(a: Matrix, b: Matrix, i: nat, j: nat): (s: seq<real>)
    requires a.Valid() && b.Valid() && a.columns == b.rows && i < a.rows && j < b.columns
    ensures |s| == a.columns
    ensures forall k | 0 <= k < a.columns :: s[k] == a.grid[i][k] * b.grid[k][j]
  {
    seq(a.columns, k requires 0 <= k < a.columns => a.grid[i][k] * b.grid[k][j])
  }

  /**
   * `m` is the product of `a` and `b`: entry (i, j) is the sum of the terms
   * a[i][k] * b[k][j]. The entries are exposed only where a proof names the
   * terms, so that a chain of products is not unfolded entry by entry.
   */
  predicate IsProduct(a: Matrix, b: Matrix, m: Matrix)
    requires a.Valid() && b.Valid() && a.columns == b.rows
  {
    && m.HasShape(a.rows, b.columns)
    && forall i, j {:trigger Products(a, b, i, j)} | 0 <= i < a.rows && 0 <= j < b.columns ::
         m.grid[i][j] == SeqSum(Products(a, b, i, j))
  }

  lemma ProductExists(a: Matrix, b: Matrix)
    requires a.Valid() && b.Valid() && a.columns == b.rows
    ensures exists m :: IsProduct(a, b, m)
  {
    var m := Matrix(a.rows, b.columns,
                    seq(a.rows, i requires 0 <= i < a.rows =>
                      seq(b.columns, j requires 0 <= j < b.columns => SeqSum(Products(a, b, i, j)))));
    assert IsProduct(a, b, m);
  }

  lemma ProductUnique(a: Matrix, b: Matrix)
    requires a.Valid() && b.Valid() && a.columns == b.rows
    ensures forall m, n | IsProduct(a, b, m) && IsProduct(a, b, n) :: m == n
  {
    forall m, n | IsProduct(a, b, m) && IsProduct(a, b, n)
      ensures m == n
    {
      forall i, j | 0 <= i < a.rows && 0 <= j < b.columns
        ensures m.grid[i][j] == n.grid[i][j]
      {
        assert m.grid[i][j] == SeqSum(Products(a, b, i, j));
      }
      Extensionality(m, n);
    }
  }

  /** `Surge.mul`: Surge traps unless the inner dimensions agree. */
  function Mul(a: Matrix, b: Matrix): (m: Matrix)
    requires a.Valid() && b.Valid() && a.columns == b.rows
    ensures m.HasShape(a.rows, b.columns)
    ensures forall i, j {:trigger Products(a, b, i, j)} | 0 <= i < a.rows && 0 <= j < b.columns ::
              m.grid[i][j] == SeqSum(Products(a, b, i, j))
  {
    ProductExists(a, b);
    ProductUnique(a, b);
    var m :| IsProduct(a, b, m); m
  }

  /** `Surge.transpose`. */
  function Transpose(a: Matrix): (t: Matrix)
    requires a.Valid()
    ensures t.HasShape(a.columns, a.rows)
    ensures forall i, j | 0 <= i < a.columns && 0 <= j < a.rows :: t.grid[i][j] == a.grid[j][i]
  {
    Matrix(a.columns, a.rows,
           seq(a.columns, i requires 0 <= i < a.columns =>
             seq(a.rows, j requires 0 <= j < a.rows => a.grid[j][i])))
  }

  predicate Square(a: Matrix) {
    a.Valid() && a.rows == a.columns
  }

  predicate Symmetric(a: Matrix) {
    Square(a) && forall i, j | 0 <= i < a.rows && 0 <= j < a.rows :: a.grid[i][j] == a.grid[j][i]
  }

  /** `b` is a two-sided inverse of the square matrix `a`. */
  predicate IsInverse(a: Matrix, b: Matrix) {
    && Square(a)
    && b.HasShape(a.rows, a.rows)
    && Mul(a, b) == Identity(a.rows)
    && Mul(b, a) == Identity(a.rows)
  }

  ghost predicate Invertible(a: Matrix) {
    exists b :: IsInverse(a, b)
  }

  /**
   * `Surge.inv`, specified by what it computes and not by how: the inverse
   * of an invertible matrix, which is unique.
   */
  function Inverse(a: Matrix): (b: Matrix)
    requires Invertible(a)
    ensures IsInverse(a, b)
  {
    InverseUnique(a);
    var b :| IsInverse(a, b); b
  }

  // ---------------------------------------------------------------------
  // Sums

  lemma {:induction false} SumOfZeros(s: seq<real>)
    requires forall k | 0 <= k < |s| :: s[k] == 0.0
    ensures SeqSum(s) == 0.0
    decreases |s|
  {
    if |s| > 0 {
      SumOfZeros(s[..|s| - 1]);
    }
  }

  /** A sum with a single non-zero term is that term. */
  lemma {:induction false} SumOfUnit(s: seq<real>, p: nat)
    requires p < |s|
    requires forall k | 0 <= k < |s| && k != p :: s[k] == 0.0
    ensures SeqSum(s) == s[p]
    decreases |s|
  {
    if p == |s| - 1 {
      SumOfZeros(s[..|s| - 1]);
    } else {
      SumOfUnit(s[..|s| - 1], p);
    }
  }

  lemma {:induction false} SumScaledRight(s: seq<real>, t: seq<real>, c: real)
    requires |t| == |s|
    requires forall k | 0 <= k < |s| :: t[k] == s[k] * c
    ensures SeqSum(t) == SeqSum(s) * c
    decreases |s|
  {
    if |s| > 0 {
      SumScaledRight(s[..|s| - 1], t[..|t| - 1], c);
    }
  }

  lemma {:induction false} SumScaledLeft(s: seq<real>, t: seq<real>, c: real)
    requires |t| == |s|
    requires forall k | 0 <= k < |s| :: t[k] == c * s[k]
    ensures SeqSum(t) == c * SeqSum(s)
    decreases |s|
  {
    if |s| > 0 {
      SumScaledLeft(s[..|s| - 1], t[..|t| - 1], c);
    }
  }

  lemma {:induction false} SumPointwise(s: seq<real>, t: seq<real>, u: seq<real>)
    requires |t| == |s| && |u| == |s|
    requires forall k | 0 <= k < |s| :: u[k] == s[k] + t[k]
    ensures SeqSum(u) == SeqSum(s) + SeqSum(t)
    decreases |s|
  {
    if |s| > 0 {
      SumPointwise(s[..|s| - 1], t[..|t| - 1], u[..|u| - 1]);
    }
  }

  predicate RowsOfLength(m: seq<seq<real>>, cols: nat) {
    forall i | 0 <= i < |m| :: |m[i]| == cols
  }

  function RowSums(m: seq<seq<real>>): (r: seq<real>)
    ensures |r| == |m| && forall i | 0 <= i < |m| :: r[i] == SeqSum(m[i])
  {
    seq(|m|, i requires 0 <= i < |m| => SeqSum(m[i]))
  }

  function Column(m: seq<seq<real>>, cols: nat, j: nat): (c: seq<real>)
    requires RowsOfLength(m, cols) && j < cols
    ensures |c| == |m| && forall i | 0 <= i < |m| :: c[i] == m[i][j]
  {
    seq(|m|, i requires 0 <= i < |m| => m[i][j])
  }

  function ColumnSums(m: seq<seq<real>>, cols: nat): (r: seq<real>)
    requires RowsOfLength(m, cols)
    ensures |r| == cols && forall j | 0 <= j < cols :: r[j] == SeqSum(Column(m, cols, j))
  {
    seq(cols, j requires 0 <= j < cols => SeqSum(Column(m, cols, j)))
  }

  /** Summing a rectangle of terms row by row or column by column gives the same total. */
  lemma {:induction false} SumRowsColumns(m: seq<seq<real>>, cols: nat)
    requires RowsOfLength(m, cols)
    ensures SeqSum(RowSums(m)) == SeqSum(ColumnSums(m, cols))
    decreases |m|
  {
    if |m| == 0 {
      SumOfZeros(ColumnSums(m, cols));
    } else {
      var n := |m| - 1;
      var front := m[..n];
      var last := m[n];
      SumRowsColumns(front, cols);
      assert RowSums(m)[..n] == RowSums(front);
      forall j | 0 <= j < cols
        ensures ColumnSums(m, cols)[j] == ColumnSums(front, cols)[j] + last[j]
      {
        assert Column(m, cols, j)[..n] == Column(front, cols, j);
      }
      SumPointwise(ColumnSums(front, cols), last, ColumnSums(m, cols));
    }
  }

  // ---------------------------------------------------------------------
  // The algebra of the operations

  /** Two matrices of one shape with the same entries are equal. */
  lemma Extensionality(a: Matrix, b: Matrix)
    requires a.Valid() && b.HasShape(a.rows, a.columns)
    requires forall i, j | 0 <= i < a.rows && 0 <= j < a.columns :: a.grid[i][j] == b.grid[i][j]
    ensures a == b
  {
    forall i | 0 <= i < a.rows
      ensures a.grid[i] == b.grid[i]
    {
    }
  }

  lemma MulIdentityLeft(a: Matrix)
    requires a.Valid()
    ensures Mul(Identity(a.rows), a) == a
  {
    var m := Mul(Identity(a.rows), a);
    forall i, j | 0 <= i < a.rows && 0 <= j < a.columns
      ensures m.grid[i][j] == a.grid[i][j]
    {
      SumOfUnit(Products(Identity(a.rows), a, i, j), i);
    }
    Extensionality(m, a);
  }

  lemma MulIdentityRight(a: Matrix)
    requires a.Valid()
    ensures Mul(a, Identity(a.columns)) == a
  {
    var m := Mul(a, Identity(a.columns));
    forall i, j | 0 <= i < a.rows && 0 <= j < a.columns
      ensures m.grid[i][j] == a.grid[i][j]
    {
      SumOfUnit(Products(a, Identity(a.columns), i, j), j);
    }
    Extensionality(m, a);
  }

  /** The terms a[i][k] * b[k][l] * c[l][j] of entry (i, j) of a triple product, indexed [l][k]. */
  function TripleProducts(a: Matrix, b: Matrix, c: Matrix, i: nat, j: nat): (t: seq<seq<real>>)
    requires a.Valid() && b.Valid() && c.Valid()
    requires a.columns == b.rows && b.columns == c.rows
    requires i < a.rows && j < c.columns
    ensures |t| == b.columns && RowsOfLength(t, a.columns)
    ensures forall l, k | 0 <= l < b.columns && 0 <= k < a.columns ::
              t[l][k] == (a.grid[i][k] * b.grid[k][l]) * c.grid[l][j]
  {
    seq(b.columns, l requires 0 <= l < b.columns =>
      seq(a.columns, k requires 0 <= k < a.columns =>
        (a.grid[i][k] * b.grid[k][l]) * c.grid[l][j]))
  }

  lemma GroupedLeftAt(a: Matrix, b: Matrix, c: Matrix, i: nat, j: nat)
    requires a.Valid() && b.Valid() && c.Valid()
    requires a.columns == b.rows && b.columns == c.rows
    requires i < a.rows && j < c.columns
    ensures Mul(Mul(a, b), c).grid[i][j] == SeqSum(RowSums(TripleProducts(a, b, c, i, j)))
  {
    var t := TripleProducts(a, b, c, i, j);
    var p := Products(Mul(a, b), c, i, j);
    forall l | 0 <= l < b.columns
      ensures p[l] == SeqSum(t[l])
    {
      SumScaledRight(Products(a, b, i, l), t[l], c.grid[l][j]);
    }
    assert p == RowSums(t);
  }

  lemma GroupedRightAt(a: Matrix, b: Matrix, c: Matrix, i: nat, j: nat)
    requires a.Valid() && b.Valid() && c.Valid()
    requires a.columns == b.rows && b.columns == c.rows
    requires i < a.rows && j < c.columns
    ensures Mul(a, Mul(b, c)).grid[i][j] == SeqSum(ColumnSums(TripleProducts(a, b, c, i, j), a.columns))
  {
    var t := TripleProducts(a, b, c, i, j);
    var p := Products(a, Mul(b, c), i, j);
    forall k | 0 <= k < a.columns
      ensures p[k] == SeqSum(Column(t, a.columns, k))
    {
      var col := Column(t, a.columns, k);
      var bc := Products(b, c, k, j);
      forall l | 0 <= l < b.columns
        ensures col[l] == a.grid[i][k] * bc[l]
      {
        assert col[l] == (a.grid[i][k] * b.grid[k][l]) * c.grid[l][j];
      }
      SumScaledLeft(bc, col, a.grid[i][k]);
    }
    assert p == ColumnSums(t, a.columns);
  }

  lemma MulAssociative(a: Matrix, b: Matrix, c: Matrix)
    requires a.Valid() && b.Valid() && c.Valid()
    requires a.columns == b.rows && b.columns == c.rows
    ensures Mul(Mul(a, b), c) == Mul(a, Mul(b, c))
  {
    forall i, j | 0 <= i < a.rows && 0 <= j < c.columns
      ensures Mul(Mul(a, b), c).grid[i][j] == Mul(a, Mul(b, c)).grid[i][j]
    {
      GroupedLeftAt(a, b, c, i, j);
      GroupedRightAt(a, b, c, i, j);
      SumRowsColumns(TripleProducts(a, b, c, i, j), a.columns);
    }
    Extensionality(Mul(Mul(a, b), c), Mul(a, Mul(b, c)));
  }

  lemma TransposeInvolutive(a: Matrix)
    requires a.Valid()
    ensures Transpose(Transpose(a)) == a
  {
    Extensionality(Transpose(Transpose(a)), a);
  }

  lemma TransposeOfProduct(a: Matrix, b: Matrix)
    requires a.Valid() && b.Valid() && a.columns == b.rows
    ensures Transpose(Mul(a, b)) == Mul(Transpose(b), Transpose(a))
  {
    var left, right := Transpose(Mul(a, b)), Mul(Transpose(b), Transpose(a));
    forall i, j | 0 <= i < b.columns && 0 <= j < a.rows
      ensures left.grid[i][j] == right.grid[i][j]
    {
      var u, v := Products(a, b, j, i), Products(Transpose(b), Transpose(a), i, j);
      forall k | 0 <= k < a.columns
        ensures u[k] == v[k]
      {
        assert u[k] == a.grid[j][k] * b.grid[k][i];
        assert v[k] == Transpose(b).grid[i][k] * Transpose(a).grid[k][j];
      }
      assert u == v;
    }
    Extensionality(left, right);
  }

  lemma TransposeOfSum(a: Matrix, b: Matrix)
    requires a.Valid() && b.HasShape(a.rows, a.columns)
    ensures Transpose(Add(a, b)) == Add(Transpose(a), Transpose(b))
  {
    Extensionality(Transpose(Add(a, b)), Add(Transpose(a), Transpose(b)));
  }

  lemma SymmetricIsOwnTranspose(a: Matrix)
    requires Square(a)
    ensures Symmetric(a) <==> Transpose(a) == a
  {
    if Symmetric(a) {
      Extensionality(Transpose(a), a);
    }
  }

  lemma MulZeroRight(a: Matrix, c: nat)
    requires a.Valid()
    ensures Mul(a, Zero(a.columns, c)) == Zero(a.rows, c)
  {
    forall i, j | 0 <= i < a.rows && 0 <= j < c
      ensures Mul(a, Zero(a.columns, c)).grid[i][j] == 0.0
    {
      SumOfZeros(Products(a, Zero(a.columns, c), i, j));
    }
    Extensionality(Mul(a, Zero(a.columns, c)), Zero(a.rows, c));
  }

  lemma MulZeroLeft(r: nat, a: Matrix)
    requires a.Valid()
    ensures Mul(Zero(r, a.rows), a) == Zero(r, a.columns)
  {
    forall i, j | 0 <= i < r && 0 <= j < a.columns
      ensures Mul(Zero(r, a.rows), a).grid[i][j] == 0.0
    {
      SumOfZeros(Products(Zero(r, a.rows), a, i, j));
    }
    Extensionality(Mul(Zero(r, a.rows), a), Zero(r, a.columns));
  }

  lemma AddZeroLeft(a: Matrix)
    requires a.Valid()
    ensures Add(Zero(a.rows, a.columns), a) == a
  {
    Extensionality(Add(Zero(a.rows, a.columns), a), a);
  }

  lemma AddZeroRight(a: Matrix)
    requires a.Valid()
    ensures Add(a, Zero(a.rows, a.columns)) == a
  {
    Extensionality(Add(a, Zero(a.rows, a.columns)), a);
  }

  /** Adding back a difference recovers the minuend. */
  lemma AddSubCancel(a: Matrix, b: Matrix)
    requires a.Valid() && b.HasShape(a.rows, a.columns)
    ensures Add(a, Sub(b, a)) == b
  {
    Extensionality(Add(a, Sub(b, a)), b);
  }

  lemma SubSelf(a: Matrix)
    requires a.Valid()
    ensures Sub(a, a) == Zero(a.rows, a.columns)
  {
    Extensionality(Sub(a, a), Zero(a.rows, a.columns));
  }

  /** An invertible matrix has exactly one inverse. */
  lemma InverseUnique(a: Matrix)
    ensures forall b, c | IsInverse(a, b) && IsInverse(a, c) :: b == c
  {
    forall b, c | IsInverse(a, b) && IsInverse(a, c)
      ensures b == c
    {
      var n := a.rows;
      calc {
        b;
        { MulIdentityRight(b); }
        Mul(b, Identity(n));
        Mul(b, Mul(a, c));
        { MulAssociative(b, a, c); }
        Mul(Mul(b, a), c);
        Mul(Identity(n), c);
        { MulIdentityLeft(c); }
        c;
      }
    }
  }

  lemma IdentityInverse(n: nat)
    ensures Invertible(Identity(n)) && Inverse(Identity(n)) == Identity(n)
  {
    MulIdentityLeft(Identity(n));
    assert IsInverse(Identity(n), Identity(n));
    InverseUnique(Identity(n));
  }
}
