/** Row-major traversal of a rectangular grid of cells, the loop shape
    shared by every tessellator: `for i in 0..rows { for j in 0..cols {
    emit cell (i, j) } }`. `Rows(cell, rows, cols)` is everything such a
    nested loop appends, in order. */
module Grids {

  /** Cells (i, 0) .. (i, j - 1), concatenated in order. */
  function Row<T>(cell: (nat, nat) -> seq<T>, i: nat, j: nat): seq<T>
    decreases j
  {
    if j == 0 then [] else Row(cell, i, j - 1) + cell(i, j - 1)
  }

  /** Rows 0 .. i - 1 of `cols` cells each, concatenated in order. */
  function Rows<T>(cell: (nat, nat) -> seq<T>, i: nat, cols: nat): seq<T>
    decreases i
  {
    if i == 0 then [] else Rows(cell, i - 1, cols) + Row(cell, i - 1, cols)
  }

  /** Every cell of the grid emits exactly `s` elements. */
  ghost predicate Uniform<T>(cell: (nat, nat) -> seq<T>, rows: nat, cols: nat, s: nat) {
    forall i: nat, j: nat :: i < rows && j < cols ==> |cell(i, j)| == s
  }

  /** Every cell of the grid emits at most `s` elements. */
  ghost predicate AtMost<T>(cell: (nat, nat) -> seq<T>, rows: nat, cols: nat, s: nat) {
    forall i: nat, j: nat :: i < rows && j < cols ==> |cell(i, j)| <= s
  }

  /** Every element every cell of the grid emits satisfies `p`. */
  ghost predicate CellsAll<T>(cell: (nat, nat) -> seq<T>, rows: nat, cols: nat, p: T -> bool) {
    forall i: nat, j: nat, k: nat :: i < rows && j < cols && k < |cell(i, j)| ==> p(cell(i, j)[k])
  }

  /** Position of element k of cell (i, j) when every cell emits s elements. */
  function Offset(s: nat, i: nat, j: nat, cols: nat, k: nat): nat {
    s * (i * cols + j) + k
  }

  lemma Distrib(s: nat, a: nat, b: nat)
    ensures s * a + s * b == s * (a + b)
  {
  }

  lemma PredMul(a: nat, b: nat)
    requires a > 0
    ensures (a - 1) * b + b == a * b
  {
  }

  lemma RowOffset(s: nat, i: nat, j: nat, cols: nat, k: nat)
    ensures s * (i * cols + j) + k == s * (i * cols) + (s * j + k)
  {
    Distrib(s, i * cols, j);
  }

  lemma {:induction false} RowLen<T>(cell: (nat, nat) -> seq<T>, i: nat, j: nat, s: nat)
    requires forall jj: nat :: jj < j ==> |cell(i, jj)| == s
    ensures |Row(cell, i, j)| == s * j
  {
    if j > 0 {
      RowLen(cell, i, j - 1, s);
      Distrib(s, j - 1, 1);
    }
  }

  lemma {:induction false} RowsLen<T>(cell: (nat, nat) -> seq<T>, rows: nat, cols: nat, s: nat)
    requires Uniform(cell, rows, cols, s)
    ensures |Rows(cell, rows, cols)| == s * (rows * cols)
  {
    if rows > 0 {
      RowsLen(cell, rows - 1, cols, s);
      RowLen(cell, rows - 1, cols, s);
      Distrib(s, (rows - 1) * cols, cols);
      PredMul(rows, cols);
    }
  }

  lemma {:induction false} RowPrefix<T>(cell: (nat, nat) -> seq<T>, i: nat, j: nat, m: nat)
    requires j <= m
    ensures Row(cell, i, j) <= Row(cell, i, m)
  {
    if j < m {
      RowPrefix(cell, i, j, m - 1);
    }
  }

  lemma {:induction false} RowsPrefix<T>(cell: (nat, nat) -> seq<T>, i: nat, rows: nat, cols: nat)
    requires i <= rows
    ensures Rows(cell, i, cols) <= Rows(cell, rows, cols)
  {
    if i < rows {
      RowsPrefix(cell, i, rows - 1, cols);
    }
  }

  /** Element k of cell (i, j) follows the cells before j in row i. */
  lemma {:induction false} CellInRow<T>(cell: (nat, nat) -> seq<T>, i: nat, j: nat, cols: nat, k: nat)
    requires j < cols && k < |cell(i, j)|
    ensures |Row(cell, i, j)| + k < |Row(cell, i, cols)|
    ensures Row(cell, i, cols)[|Row(cell, i, j)| + k] == cell(i, j)[k]
  {
    RowPrefix(cell, i, j + 1, cols);
    var left := Row(cell, i, j);
    var pre := Row(cell, i, j + 1);
    var whole := Row(cell, i, cols);
    assert pre == left + cell(i, j);
    assert pre[|left| + k] == cell(i, j)[k];
    assert pre == whole[..|pre|];
    assert whole[|left| + k] == pre[|left| + k];
  }

  /** Element m of row i follows the rows before i. */
  lemma {:induction false} RowInRows<T>(cell: (nat, nat) -> seq<T>, i: nat, rows: nat, cols: nat, m: nat)
    requires i < rows && m < |Row(cell, i, cols)|
    ensures |Rows(cell, i, cols)| + m < |Rows(cell, rows, cols)|
    ensures Rows(cell, rows, cols)[|Rows(cell, i, cols)| + m] == Row(cell, i, cols)[m]
  {
    RowsPrefix(cell, i + 1, rows, cols);
    var before := Rows(cell, i, cols);
    var pre := Rows(cell, i + 1, cols);
    var whole := Rows(cell, rows, cols);
    assert pre == before + Row(cell, i, cols);
    assert pre[|before| + m] == Row(cell, i, cols)[m];
    assert pre == whole[..|pre|];
    assert whole[|before| + m] == pre[|before| + m];
  }

  /** Element k of cell (i, j) follows the rows before i and the cells
      before j of row i, whatever the cells' sizes. */
  lemma {:induction false} RowsAtLinear<T>(cell: (nat, nat) -> seq<T>, rows: nat, cols: nat, i: nat, j: nat, k: nat)
    requires i < rows && j < cols && k < |cell(i, j)|
    ensures |Rows(cell, i, cols)| + |Row(cell, i, j)| + k < |Rows(cell, rows, cols)|
    ensures Rows(cell, rows, cols)[|Rows(cell, i, cols)| + |Row(cell, i, j)| + k] == cell(i, j)[k]
  {
    CellInRow(cell, i, j, cols, k);
    RowInRows(cell, i, rows, cols, |Row(cell, i, j)| + k);
  }

  /** Element k of cell (i, j) of a uniform grid sits at Offset(s, i, j, cols, k). */
  lemma {:induction false} RowsAt<T>(cell: (nat, nat) -> seq<T>, rows: nat, cols: nat, s: nat, i: nat, j: nat, k: nat)
    requires Uniform(cell, rows, cols, s)
    requires i < rows && j < cols && k < s
    ensures Offset(s, i, j, cols, k) < |Rows(cell, rows, cols)| &&
            Rows(cell, rows, cols)[Offset(s, i, j, cols, k)] == cell(i, j)[k]
  {
    RowsAtLinear(cell, rows, cols, i, j, k);
    RowsLen(cell, i, cols, s);
    RowLen(cell, i, j, s);
    RowOffset(s, i, j, cols, k);
  }

  /** A grid of uniform cells has s * (rows * cols) elements, and element k
      of cell (i, j) sits at s * (i * cols + j) + k. */
  lemma {:induction false} RowsUniform<T>(cell: (nat, nat) -> seq<T>, rows: nat, cols: nat, s: nat)
    requires Uniform(cell, rows, cols, s)
    ensures |Rows(cell, rows, cols)| == s * (rows * cols)
    ensures forall i: nat, j: nat, k: nat :: i < rows && j < cols && k < s ==>
      Offset(s, i, j, cols, k) < |Rows(cell, rows, cols)| &&
      Rows(cell, rows, cols)[Offset(s, i, j, cols, k)] == cell(i, j)[k]
  {
    RowsLen(cell, rows, cols, s);
    forall i: nat, j: nat, k: nat | i < rows && j < cols && k < s
      ensures Offset(s, i, j, cols, k) < |Rows(cell, rows, cols)| &&
              Rows(cell, rows, cols)[Offset(s, i, j, cols, k)] == cell(i, j)[k]
    {
      RowsAt(cell, rows, cols, s, i, j, k);
    }
  }

  lemma {:induction false} RowAtMost<T>(cell: (nat, nat) -> seq<T>, i: nat, j: nat, s: nat)
    requires forall jj: nat :: jj < j ==> |cell(i, jj)| <= s
    ensures |Row(cell, i, j)| <= s * j
  {
    if j > 0 {
      RowAtMost(cell, i, j - 1, s);
      Distrib(s, j - 1, 1);
    }
  }

  /** A grid whose cells emit at most s elements emits at most rows * cols * s. */
  lemma {:induction false} RowsAtMost<T>(cell: (nat, nat) -> seq<T>, rows: nat, cols: nat, s: nat)
    requires AtMost(cell, rows, cols, s)
    ensures |Rows(cell, rows, cols)| <= s * (rows * cols)
  {
    if rows > 0 {
      RowsAtMost(cell, rows - 1, cols, s);
      RowAtMost(cell, rows - 1, cols, s);
      Distrib(s, (rows - 1) * cols, cols);
      PredMul(rows, cols);
    }
  }

  lemma {:induction false} RowAll<T>(cell: (nat, nat) -> seq<T>, i: nat, j: nat, p: T -> bool)
    requires forall jj: nat, k: nat :: jj < j && k < |cell(i, jj)| ==> p(cell(i, jj)[k])
    ensures forall k :: 0 <= k < |Row(cell, i, j)| ==> p(Row(cell, i, j)[k])
  {
    if j > 0 {
      RowAll(cell, i, j - 1, p);
      var r := Row(cell, i, j - 1);
      forall k | 0 <= k < |Row(cell, i, j)| ensures p(Row(cell, i, j)[k]) {
        if k >= |r| {
          assert Row(cell, i, j)[k] == cell(i, j - 1)[k - |r|];
        }
      }
    }
  }

  /** A property every cell's elements have holds of every element of the grid. */
  lemma {:induction false} RowsAll<T>(cell: (nat, nat) -> seq<T>, rows: nat, cols: nat, p: T -> bool)
    requires CellsAll(cell, rows, cols, p)
    ensures forall k :: 0 <= k < |Rows(cell, rows, cols)| ==> p(Rows(cell, rows, cols)[k])
  {
    if rows > 0 {
      RowsAll(cell, rows - 1, cols, p);
      RowAll(cell, rows - 1, cols, p);
      var r := Rows(cell, rows - 1, cols);
      forall k | 0 <= k < |Rows(cell, rows, cols)| ensures p(Rows(cell, rows, cols)[k]) {
        if k >= |r| {
          assert Rows(cell, rows, cols)[k] == Row(cell, rows - 1, cols)[k - |r|];
        }
      }
    }
  }
}
