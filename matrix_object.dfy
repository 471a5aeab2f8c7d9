/**
 * The matrix container HCMatrixObject: a Surge matrix value together with
 * the container's own `rows` and `columns` fields. The two usually agree,
 * but `transpose` and `inverseMatrix` copy the fields of their operand, so
 * after transposing a non-square matrix they do not; `Consistent()` names
 * the case where they do.
 */
module MatrixObject {
  import opened Wrappers
  import M = Matrices

  /** What the as-written element read can end in. */
  datatype ReadOutcome = Returned(value: Option<real>) | Trapped

  class HCMatrixObject {
    var rows: nat
    var columns: nat
    var matrix: M.Matrix

    ghost predicate Valid()
      reads this
    {
      matrix.Valid()
    }

    ghost predicate Consistent()
      reads this
    {
      Valid() && matrix.rows == rows && matrix.columns == columns
    }

    ghost predicate HasShape(r: nat, c: nat)
      reads this
    {
      Consistent() && rows == r && columns == c
    }

    /** `init(rows:columns:)`: a zero-filled matrix of the requested shape. */
    constructor (rows: nat, columns: nat)
      ensures HasShape(rows, columns)
      ensures forall i, j | 0 <= i < rows && 0 <= j < columns :: matrix.grid[i][j] == 0.0
    {
      this.rows := rows;
      this.columns := columns;
      this.matrix := M.Zero(rows, columns);
    }

    /** `getIdentityMatrix(dim:)`: fills a zero matrix with ones on the diagonal. */
    static method GetIdentityMatrix(dim: nat) returns (identity: HCMatrixObject)
      ensures fresh(identity) && identity.HasShape(dim, dim)
      ensures forall i, j | 0 <= i < dim && 0 <= j < dim ::
                identity.matrix.grid[i][j] == if i == j then 1.0 else 0.0
      ensures identity.matrix == M.Identity(dim)
    {
      identity := new HCMatrixObject(dim, dim);
      for i := 0 to dim
        invariant identity.HasShape(dim, dim)
        invariant forall p, q | 0 <= p < dim && 0 <= q < dim ::
                    identity.matrix.grid[p][q] == if p < i && p == q then 1.0 else 0.0
      {
        for j := 0 to dim
          invariant identity.HasShape(dim, dim)
          invariant forall p, q | 0 <= p < dim && 0 <= q < dim ::
                      identity.matrix.grid[p][q] ==
                        if (p < i || (p == i && q < j)) && p == q then 1.0 else 0.0
        {
          if i == j {
            identity.matrix := identity.matrix.Set(i, j, 1.0);
          }
        }
      }
      M.Extensionality(identity.matrix, M.Identity(dim));
    }

    /**
     * `addElement(i:j:value:)`: despite its name it overwrites entry (i, j);
     * an index outside the matrix leaves it unchanged.
     */
    method AddElement(i: nat, j: nat, value: real)
      requires Valid()
      modifies this
      ensures Valid() && rows == old(rows) && columns == old(columns)
      ensures matrix.rows == old(matrix.rows) && matrix.columns == old(matrix.columns)
      ensures forall p, q | 0 <= p < matrix.rows && 0 <= q < matrix.columns ::
                matrix.grid[p][q] ==
                  if p == i && q == j then value else old(matrix.grid[p][q])
      ensures !(i < old(matrix.rows) && j < old(matrix.columns)) ==> matrix == old(matrix)
    {
      if i < matrix.rows && j < matrix.columns {
        matrix := matrix.Set(i, j, value);
      }
    }

    /** The guard of `setMatrix`: a non-empty matrix and data of its row count and first-row length. */
    predicate Accepts(data: seq<seq<real>>)
      reads this
    {
      matrix.rows > 0 && |data| == matrix.rows && |data[0]| == matrix.columns
    }

    /**
     * `setMatrix(matrix:)`: replaces the contents when the guard holds and
     * otherwise leaves the matrix silently unchanged.
     */
    method SetMatrix(data: seq<seq<real>>)
      requires Valid()
      requires Accepts(data) ==> M.Rectangular(data)
      modifies this
      ensures Valid() && rows == old(rows) && columns == old(columns)
      ensures old(Accepts(data)) ==> matrix == M.FromRows(data)
      ensures !old(Accepts(data)) ==> matrix == old(matrix)
      ensures old(Consistent()) ==> Consistent()
    {
      if matrix.rows > 0 {
        if |data| == matrix.rows && |data[0]| == matrix.columns {
          matrix := M.FromRows(data);
        }
      }
    }

    /**
     * `getElement(i:j:)` as written: its guard is the negation of the bounds
     * check, so it returns nil for every index inside the matrix, and when
     * the guard does let a read through the read is outside the matrix.
     */
    function GetElementAsWritten(i: int, j: int): (r: ReadOutcome)
      reads this
      requires Valid()
      ensures r == Returned(None) <==> (i < matrix.rows || j < matrix.columns)
      ensures r == Trapped <==> (matrix.rows <= i && matrix.columns <= j)
    {
      if matrix.rows <= i && matrix.columns <= j then
        // The read matrix[i, j] lies past the last entry: Surge's subscript traps.
        Trapped
      else
        Returned(None)
    }

    /** `getElement(i:j:)` with the bounds check it evidently intends. */
    function GetElement(i: int, j: int): (r: Option<real>)
      reads this
      requires Valid()
      ensures r.Some? <==> (0 <= i < matrix.rows && 0 <= j < matrix.columns)
      ensures r.Some? ==> r.value == matrix.grid[i][j]
    {
      if 0 <= i < matrix.rows && 0 <= j < matrix.columns then Some(matrix.grid[i][j]) else None
    }

    /**
     * On any non-empty matrix the as-written read of the first entry gives
     * nil, where the intended read gives the entry.
     */
    lemma GetElementMissesFirstEntry()
      requires Valid() && matrix.rows > 0 && matrix.columns > 0
      ensures GetElementAsWritten(0, 0) == Returned(None)
      ensures GetElement(0, 0) == Some(matrix.grid[0][0])
    {
    }

    /**
     * `transpose()`: the result holds the transposed Surge matrix, but its
     * `rows`/`columns` fields are copied from the operand unswapped.
     */
    method Transpose() returns (result: HCMatrixObject)
      requires Valid()
      ensures fresh(result) && result.Valid()
      ensures result.rows == rows && result.columns == columns
      ensures result.matrix == M.Transpose(matrix)
      ensures Consistent() && rows == columns ==> result.Consistent()
      ensures Consistent() && rows != columns ==> !result.Consistent()
    {
      result := new HCMatrixObject(rows, columns);
      result.matrix := M.Transpose(matrix);
    }

    /** `inverseMatrix()`: the Surge inverse, in an object with the operand's fields. */
    method InverseMatrix() returns (result: HCMatrixObject)
      requires Valid() && M.Invertible(matrix)
      ensures fresh(result) && result.Valid()
      ensures result.rows == rows && result.columns == columns
      ensures result.matrix == M.Inverse(matrix)
      ensures Consistent() ==> result.Consistent()
    {
      result := new HCMatrixObject(rows, columns);
      result.matrix := M.Inverse(matrix);
    }

    /** Operator `+`: the Surge sum, with the left operand's fields. */
    static method Plus(left: HCMatrixObject, right: HCMatrixObject) returns (result: HCMatrixObject)
      requires left.Valid() && right.matrix.HasShape(left.matrix.rows, left.matrix.columns)
      ensures fresh(result) && result.Valid()
      ensures result.rows == left.rows && result.columns == left.columns
      ensures result.matrix == M.Add(left.matrix, right.matrix)
      ensures left.Consistent() ==> result.Consistent()
    {
      result := new HCMatrixObject(left.rows, left.columns);
      result.matrix := M.Add(left.matrix, right.matrix);
    }

    /**
     * Operator `-`, written by hand: entrywise left - right when the shape
     * fields agree, and otherwise the zero matrix of the left operand's shape.
     */
    static method Minus(left: HCMatrixObject, right: HCMatrixObject) returns (result: HCMatrixObject)
      requires left.Valid() && right.Valid()
      requires left.rows == right.rows && left.columns == right.columns ==>
                 left.Consistent() && right.Consistent()
      ensures fresh(result) && result.HasShape(left.rows, left.columns)
      ensures left.rows == right.rows && left.columns == right.columns ==>
                forall i, j | 0 <= i < left.rows && 0 <= j < left.columns ::
                  result.matrix.grid[i][j] == left.matrix.grid[i][j] - right.matrix.grid[i][j]
      ensures left.rows == right.rows && left.columns == right.columns ==>
                result.matrix == M.Sub(left.matrix, right.matrix)
      ensures !(left.rows == right.rows && left.columns == right.columns) ==>
                result.matrix == M.Zero(left.rows, left.columns)
    {
      result := new HCMatrixObject(left.rows, left.columns);
      if left.rows == right.rows && left.columns == right.columns {
        var n, m := left.matrix.rows, left.matrix.columns;
        for i := 0 to n
          invariant result.HasShape(n, m)
          invariant forall p, q | 0 <= p < n && 0 <= q < m ::
                      result.matrix.grid[p][q] ==
                        if p < i then left.matrix.grid[p][q] - right.matrix.grid[p][q] else 0.0
        {
          for j := 0 to m
            invariant result.HasShape(n, m)
            invariant forall p, q | 0 <= p < n && 0 <= q < m ::
                        result.matrix.grid[p][q] ==
                          if p < i || (p == i && q < j)
                          then left.matrix.grid[p][q] - right.matrix.grid[p][q]
                          else 0.0
          {
            result.matrix := result.matrix.Set(i, j, left.matrix.grid[i][j] - right.matrix.grid[i][j]);
          }
        }
        M.Extensionality(result.matrix, M.Sub(left.matrix, right.matrix));
      } else {
        M.Extensionality(result.matrix, M.Zero(left.rows, left.columns));
      }
    }

    /** Operator `*`: the Surge product, with fields read off the product itself. */
    static method Times(left: HCMatrixObject, right: HCMatrixObject) returns (result: HCMatrixObject)
      requires left.Valid() && right.Valid() && left.matrix.columns == right.matrix.rows
      ensures fresh(result) && result.HasShape(left.matrix.rows, right.matrix.columns)
      ensures result.matrix == M.Mul(left.matrix, right.matrix)
    {
      var product := M.Mul(left.matrix, right.matrix);
      result := new HCMatrixObject(product.rows, product.columns);
      result.matrix := product;
    }
  }
}
