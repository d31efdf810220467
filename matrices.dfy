/**
 * Row-major real matrices: the database's feature table (one row per frame, one column per
 * feature dimension) and the coarse bound tables.  `array2<real>` is what the database owns and
 * updates in place; `Matrix` is the value the contracts speak about.
 */
module Matrices {

  type Matrix = seq<seq<real>>

  /** Every row has at least `n` columns. */
  predicate HasColumns(m: Matrix, n: nat) {
    forall i :: 0 <= i < |m| ==> n <= |m[i]|
  }

  /** Every row has exactly `n` columns. */
  predicate IsMatrix(m: Matrix, n: nat) {
    forall i :: 0 <= i < |m| ==> |m[i]| == n
  }

  /** The contents of a two-dimensional array. */
  ghost function Cells(a: array2<real>): (m: Matrix)
    reads a
    ensures |m| == a.Length0 && IsMatrix(m, a.Length1)
    ensures forall i, j :: 0 <= i < a.Length0 && 0 <= j < a.Length1 ==> m[i][j] == a[i, j]
  {
    seq(a.Length0, i requires 0 <= i < a.Length0 reads a =>
      seq(a.Length1, j requires 0 <= j < a.Length1 reads a => a[i, j]))
  }

  /** Matrices with the same shape and the same cells are equal. */
  lemma MatrixEquality(a: Matrix, b: Matrix, n: nat)
    requires |a| == |b| && IsMatrix(a, n) && IsMatrix(b, n)
    requires forall i, j :: 0 <= i < |a| && 0 <= j < n ==> a[i][j] == b[i][j]
    ensures a == b
  {
    forall i | 0 <= i < |a|
      ensures a[i] == b[i]
    {
    }
  }

  function Square(x: real): (r: real)
    ensures r >= 0.0
  {
    x * x
  }

  function Min(a: real, b: real): (r: real)
    ensures r <= a && r <= b && (r == a || r == b)
  {
    if a < b then a else b
  }

  function Max(a: real, b: real): (r: real)
    ensures r >= a && r >= b && (r == a || r == b)
  {
    if a > b then a else b
  }
}
