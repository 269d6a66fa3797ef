/**
 * Two-dimensional numpy arrays of integer samples and the numpy operations
 * the tile paths apply to them: basic slicing with Python's clipping rules,
 * `[::-1]` on either axis, `.T` and `max()`.
 */
module Matrices {

  /** A 2D array: its shape (rows, cols) and its rows of samples. */
  datatype Matrix = Matrix(rows: nat, cols: nat, cells: seq<seq<int>>) {
    predicate Valid() {
      |cells| == rows && forall i :: 0 <= i < rows ==> |cells[i]| == cols
    }

    /** numpy's `size == 0`. */
    predicate IsEmpty() { rows == 0 || cols == 0 }
  }

  /** A slice bound i against a length n, as Python resolves it for step 1. */
  function Clip(i: int, n: nat): (c: nat)
    ensures c <= n
    ensures 0 <= i <= n ==> c == i
    ensures i > n ==> c == n
  {
    if i < 0 then (if i + n < 0 then 0 else i + n) else if i > n then n else i
  }

  /** Number of elements of s[lo:hi] when |s| == n. */
  function SliceLen(lo: int, hi: int, n: nat): (k: nat)
    ensures Clip(lo, n) + k <= n
    ensures 0 <= lo <= hi <= n ==> k == hi - lo
  {
    if Clip(hi, n) > Clip(lo, n) then Clip(hi, n) - Clip(lo, n) else 0
  }

  function Reverse<T>(s: seq<T>): (r: seq<T>)
    ensures |r| == |s|
  {
    if s == [] then [] else [s[|s| - 1]] + Reverse(s[..|s| - 1])
  }

  lemma {:induction false} ReverseAt<T>(s: seq<T>, k: nat)
    requires k < |s|
    ensures Reverse(s)[k] == s[|s| - 1 - k]
    decreases |s|
  {
    if k > 0 {
      ReverseAt(s[..|s| - 1], k - 1);
    }
  }

  lemma ReverseIndex<T>(s: seq<T>)
    ensures forall k :: 0 <= k < |s| ==> Reverse(s)[k] == s[|s| - 1 - k]
  {
    forall k | 0 <= k < |s| ensures Reverse(s)[k] == s[|s| - 1 - k] {
      ReverseAt(s, k);
    }
  }

  /** `[::-1]` undoes itself. */
  lemma ReverseReverse<T>(s: seq<T>)
    ensures Reverse(Reverse(s)) == s
  {
    ReverseIndex(s);
    ReverseIndex(Reverse(s));
  }

  /** m[::-1, :] */
  function FlipRows(m: Matrix): (r: Matrix)
    requires m.Valid()
    ensures r.Valid() && r.rows == m.rows && r.cols == m.cols
    ensures forall i, j :: 0 <= i < r.rows && 0 <= j < r.cols ==>
      r.cells[i][j] == m.cells[m.rows - 1 - i][j]
  {
    ReverseIndex(m.cells);
    Matrix(m.rows, m.cols, Reverse(m.cells))
  }

  /** m[:, ::-1] */
  function FlipCols(m: Matrix): (r: Matrix)
    requires m.Valid()
    ensures r.Valid() && r.rows == m.rows && r.cols == m.cols
    ensures forall i, j :: 0 <= i < r.rows && 0 <= j < r.cols ==>
      r.cells[i][j] == m.cells[i][m.cols - 1 - j]
  {
    forall i | 0 <= i < m.rows {
      ReverseIndex(m.cells[i]);
    }
    Matrix(m.rows, m.cols, seq(m.rows, i requires 0 <= i < m.rows => Reverse(m.cells[i])))
  }

  /** m.T */
  function Transpose(m: Matrix): (r: Matrix)
    requires m.Valid()
    ensures r.Valid() && r.rows == m.cols && r.cols == m.rows
  {
    Matrix(m.cols, m.rows,
      seq(m.cols, j requires 0 <= j < m.cols =>
        seq(m.rows, i requires 0 <= i < m.rows => m.cells[i][j])))
  }

  lemma TransposeAt(m: Matrix, i: nat, j: nat)
    requires m.Valid() && i < m.cols && j < m.rows
    ensures Transpose(m).cells[i][j] == m.cells[j][i]
  {
  }

  /** Flipping the rows twice gives back the array. */
  lemma FlipRowsTwice(m: Matrix)
    requires m.Valid()
    ensures FlipRows(FlipRows(m)) == m
  {
    ReverseReverse(m.cells);
  }

  /** m[r0:r1, c0:c1] */
  function Window(m: Matrix, r0: int, r1: int, c0: int, c1: int): (r: Matrix)
    requires m.Valid()
    ensures r.Valid()
    ensures r.rows == SliceLen(r0, r1, m.rows) && r.cols == SliceLen(c0, c1, m.cols)
  {
    var top, left := Clip(r0, m.rows), Clip(c0, m.cols);
    var h, w := SliceLen(r0, r1, m.rows), SliceLen(c0, c1, m.cols);
    Matrix(h, w,
      seq(h, i requires 0 <= i < h =>
        seq(w, j requires 0 <= j < w => m.cells[top + i][left + j])))
  }

  function SeqMax(s: seq<int>): int
    requires |s| >= 1
  {
    if |s| == 1 then s[0]
    else var rest := SeqMax(s[1..]); if s[0] >= rest then s[0] else rest
  }

  lemma {:induction false} SeqMaxIsMax(s: seq<int>)
    requires |s| >= 1
    ensures SeqMax(s) in s
    ensures forall k :: 0 <= k < |s| ==> s[k] <= SeqMax(s)
  {
    if |s| > 1 {
      SeqMaxIsMax(s[1..]);
      assert forall k :: 1 <= k < |s| ==> s[k] == s[1..][k - 1];
    }
  }

  /** The largest sample of the leading rows cells[..n], n >= 1. */
  function RowsMax(m: Matrix, n: nat): int
    requires m.Valid() && m.cols >= 1 && 1 <= n <= m.rows
  {
    if n == 1 then SeqMax(m.cells[0])
    else var prev := RowsMax(m, n - 1); var here := SeqMax(m.cells[n - 1]);
      if prev >= here then prev else here
  }

  /** numpy's max() of a non-empty array. */
  function MaxCell(m: Matrix): int
    requires m.Valid() && !m.IsEmpty()
  {
    RowsMax(m, m.rows)
  }

  lemma {:induction false} RowsMaxIsMax(m: Matrix, n: nat)
    requires m.Valid() && m.cols >= 1 && 1 <= n <= m.rows
    ensures exists i, j :: 0 <= i < n && 0 <= j < m.cols && m.cells[i][j] == RowsMax(m, n)
    ensures forall i, j :: 0 <= i < n && 0 <= j < m.cols ==> m.cells[i][j] <= RowsMax(m, n)
  {
    SeqMaxIsMax(m.cells[n - 1]);
    if n > 1 {
      RowsMaxIsMax(m, n - 1);
    }
  }

  /** max() is attained by some sample and bounds every sample. */
  lemma MaxCellIsMax(m: Matrix)
    requires m.Valid() && !m.IsEmpty()
    ensures exists i, j :: 0 <= i < m.rows && 0 <= j < m.cols && m.cells[i][j] == MaxCell(m)
    ensures forall i, j :: 0 <= i < m.rows && 0 <= j < m.cols ==> m.cells[i][j] <= MaxCell(m)
  {
    RowsMaxIsMax(m, m.rows);
  }
}
