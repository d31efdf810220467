/**
 * Z-score normalization of one feature group (`normalize_feature`) and its inverse
 * (`denormalize_features`), MotionMatchingDemo/database.h.
 *
 * A group is the block of columns `offset .. offset + size` of the feature table.  Every column
 * gets its own mean as offset; the whole group shares one scale, the average of its columns'
 * standard deviations divided by the group's weight.  `sqrtf` is the parameter `sqrt`.
 */
module Normalization {
  import opened Matrices

  // ---------------------------------------------------------------- statistics

  /** The running mean of column `c` after `k` rows, accumulated as `x / rows` per row. */
  function MeanPrefix(m: Matrix, c: nat, k: nat): real
    requires k <= |m| && HasColumns(m, c + 1)
  {
    if k == 0 then 0.0 else MeanPrefix(m, c, k - 1) + m[k - 1][c] / (|m| as real)
  }

  function Mean(m: Matrix, c: nat): real
    requires HasColumns(m, c + 1)
  {
    MeanPrefix(m, c, |m|)
  }

  /** The running variance of column `c` around `mean` after `k` rows. */
  function VariancePrefix(m: Matrix, c: nat, mean: real, k: nat): (r: real)
    requires k <= |m| && HasColumns(m, c + 1)
    ensures r >= 0.0
  {
    if k == 0 then 0.0 else VariancePrefix(m, c, mean, k - 1) + Square(m[k - 1][c] - mean) / (|m| as real)
  }

  function Variance(m: Matrix, c: nat): real
    requires HasColumns(m, c + 1)
  {
    VariancePrefix(m, c, Mean(m, c), |m|)
  }

  /** The running average, over the first `j` columns of the group, of the columns' deviations. */
  function StdPrefix(m: Matrix, offset: nat, size: nat, sqrt: real -> real, j: nat): real
    requires j <= size && HasColumns(m, offset + size)
  {
    if j == 0 then 0.0 else StdPrefix(m, offset, size, sqrt, j - 1) + sqrt(Variance(m, offset + j - 1)) / (size as real)
  }

  /** The group's overall deviation: the average deviation of its columns. */
  function AverageStd(m: Matrix, offset: nat, size: nat, sqrt: real -> real): real
    requires HasColumns(m, offset + size)
  {
    StdPrefix(m, offset, size, sqrt, size)
  }

  /** The running sums of a column depend on that column only. */
  lemma {:induction false} PrefixesAgree(m1: Matrix, m2: Matrix, c: nat, mean: real, k: nat)
    requires |m1| == |m2| && k <= |m1| && HasColumns(m1, c + 1) && HasColumns(m2, c + 1)
    requires forall i :: 0 <= i < |m1| ==> m1[i][c] == m2[i][c]
    ensures MeanPrefix(m1, c, k) == MeanPrefix(m2, c, k)
    ensures VariancePrefix(m1, c, mean, k) == VariancePrefix(m2, c, mean, k)
    decreases k
  {
    if k > 0 {
      PrefixesAgree(m1, m2, c, mean, k - 1);
    }
  }

  /** Two tables that agree on column `c` have the same mean and variance there. */
  lemma ColumnStatisticsAgree(m1: Matrix, m2: Matrix, c: nat)
    requires |m1| == |m2| && HasColumns(m1, c + 1) && HasColumns(m2, c + 1)
    requires forall i :: 0 <= i < |m1| ==> m1[i][c] == m2[i][c]
    ensures Mean(m1, c) == Mean(m2, c) && Variance(m1, c) == Variance(m2, c)
  {
    PrefixesAgree(m1, m2, c, Mean(m1, c), |m1|);
  }

  /** Two tables that agree on a group's columns have the same deviation for the group. */
  lemma {:induction false} GroupStdAgrees(m1: Matrix, m2: Matrix, offset: nat, size: nat, sqrt: real -> real, j: nat)
    requires |m1| == |m2| && j <= size && HasColumns(m1, offset + size) && HasColumns(m2, offset + size)
    requires forall i, c :: 0 <= i < |m1| && offset <= c < offset + size ==> m1[i][c] == m2[i][c]
    ensures StdPrefix(m1, offset, size, sqrt, j) == StdPrefix(m2, offset, size, sqrt, j)
    decreases j
  {
    if j > 0 {
      GroupStdAgrees(m1, m2, offset, size, sqrt, j - 1);
      ColumnStatisticsAgree(m1, m2, offset + j - 1);
    }
  }

  // ---------------------------------------------------------------- one value

  /** A normalized value: its distance from the offset in units of the scale. */
  function NormalizeValue(x: real, offset: real, scale: real): (r: real)
    requires scale != 0.0
    ensures r * scale + offset == x
  {
    (x - offset) / scale
  }

  /** `(x * scale) + offset` of `denormalize_features`: normalizing the result gives `x` back. */
  function DenormalizeValue(x: real, offset: real, scale: real): (r: real)
    ensures scale != 0.0 ==> NormalizeValue(r, offset, scale) == x
  {
    var y := x * scale;
    assert scale != 0.0 ==> y / scale == x;
    y + offset
  }

  // ---------------------------------------------------------------- a whole group

  /**
   * The feature table after normalizing the group's columns with the column offsets `offsets`
   * and the shared `scale`.
   */
  function NormalizeBlock(m: Matrix, offset: nat, size: nat, offsets: seq<real>, scale: real): (r: Matrix)
    requires HasColumns(m, offset + size) && offset + size <= |offsets| && scale != 0.0
    ensures |r| == |m| && forall i :: 0 <= i < |m| ==> |r[i]| == |m[i]|
  {
    seq(|m|, i requires 0 <= i < |m| =>
      seq(|m[i]|, c requires 0 <= c < |m[i]| =>
        if offset <= c < offset + size then NormalizeValue(m[i][c], offsets[c], scale) else m[i][c]))
  }

  /** Denormalizing a normalized frame with the same offsets and scale recovers the group's raw values. */
  lemma DenormalizeRecoversGroup(m: Matrix, offset: nat, size: nat, offsets: seq<real>, scales: seq<real>,
                                 scale: real, i: nat)
    requires HasColumns(m, offset + size) && scale != 0.0 && i < |m|
    requires |offsets| == |m[i]| && |scales| == |m[i]| && offset + size <= |m[i]|
    requires forall c :: offset <= c < offset + size ==> scales[c] == scale
    ensures var row := DenormalizeRow(NormalizeBlock(m, offset, size, offsets, scale)[i], offsets, scales);
      forall c :: offset <= c < offset + size ==> row[c] == m[i][c]
  {
    var normalized := NormalizeBlock(m, offset, size, offsets, scale)[i];
    var row := DenormalizeRow(normalized, offsets, scales);
    forall c | offset <= c < offset + size
      ensures row[c] == m[i][c]
    {
      assert normalized[c] == NormalizeValue(m[i][c], offsets[c], scale);
      assert row[c] == DenormalizeValue(normalized[c], offsets[c], scale);
    }
  }

  /** What `k` rows contribute to a running mean when every one of them holds `mu`. */
  function MeanShift(k: nat, mu: real, rows: real): real
    requires rows != 0.0
  {
    (k as real) * mu / rows
  }

  /**
   * One row of the running mean, before and after normalization: `before` and `after` are the
   * normalized column's running means, `a` and `total` the raw ones, `x` the new raw value.
   */
  lemma MeanStep(before: real, after: real, a: real, total: real, x: real, mu: real, k: nat, rows: real, scale: real)
    requires rows != 0.0 && scale != 0.0 && k > 0
    requires before * scale == a - MeanShift(k - 1, mu, rows)
    requires after == before + ((x - mu) / scale) / rows && total == a + x / rows
    ensures after * scale == total - MeanShift(k, mu, rows)
  {
    calc {
      after * scale;
      (before + ((x - mu) / scale) / rows) * scale;
      before * scale + ((x - mu) / scale) / rows * scale;
      { assert ((x - mu) / scale) / rows * scale == (x - mu) / rows; }
      before * scale + (x - mu) / rows;
      a - MeanShift(k - 1, mu, rows) + x / rows - mu / rows;
      { assert ((k - 1) as real) * mu / rows + mu / rows == (k as real) * mu / rows; }
      total - MeanShift(k, mu, rows);
    }
  }

  /** The normalized column's running mean is the raw running mean, shifted and scaled. */
  lemma {:induction false} NormalizedMeanPrefix(m: Matrix, offset: nat, size: nat, offsets: seq<real>, scale: real,
                                                c: nat, k: nat)
    requires HasColumns(m, offset + size) && offset + size <= |offsets| && scale != 0.0
    requires offset <= c < offset + size && 0 < |m| && k <= |m|
    ensures MeanPrefix(NormalizeBlock(m, offset, size, offsets, scale), c, k) * scale
         == MeanPrefix(m, c, k) - MeanShift(k, offsets[c], |m| as real)
  {
    if k > 0 {
      NormalizedMeanPrefix(m, offset, size, offsets, scale, c, k - 1);
      assert NormalizeBlock(m, offset, size, offsets, scale)[k - 1][c] == (m[k - 1][c] - offsets[c]) / scale;
      MeanStep(MeanPrefix(NormalizeBlock(m, offset, size, offsets, scale), c, k - 1),
               MeanPrefix(NormalizeBlock(m, offset, size, offsets, scale), c, k),
               MeanPrefix(m, c, k - 1), MeanPrefix(m, c, k), m[k - 1][c], offsets[c], k, |m| as real, scale);
    }
  }

  /** A group normalized with its own column means has mean zero in every column. */
  lemma NormalizedMeanIsZero(m: Matrix, offset: nat, size: nat, offsets: seq<real>, scale: real, c: nat)
    requires HasColumns(m, offset + size) && offset + size <= |offsets| && scale != 0.0
    requires offset <= c < offset + size && |m| > 0
    requires offsets[c] == Mean(m, c)
    ensures Mean(NormalizeBlock(m, offset, size, offsets, scale), c) == 0.0
  {
    NormalizedMeanPrefix(m, offset, size, offsets, scale, c, |m|);
    var rows := |m| as real;
    assert MeanShift(|m|, offsets[c], rows) == offsets[c];
    var mean := Mean(NormalizeBlock(m, offset, size, offsets, scale), c);
    assert mean * scale == 0.0;
  }

  /** `denormalize_features` on a row: every entry is scaled and shifted back. */
  function DenormalizeRow(row: seq<real>, offsets: seq<real>, scales: seq<real>): (r: seq<real>)
    requires |offsets| == |row| && |scales| == |row|
    ensures |r| == |row|
    ensures forall c :: 0 <= c < |row| && scales[c] != 0.0 ==> NormalizeValue(r[c], offsets[c], scales[c]) == row[c]
  {
    seq(|row|, c requires 0 <= c < |row| => DenormalizeValue(row[c], offsets[c], scales[c]))
  }

  /**
   * `normalize_feature`.  The source stops at `assert(std > 0.0)` when the group has no
   * variation; here that is the result `ok == false`, with the offsets already written and the
   * scales and features untouched.
   */
  method NormalizeFeature(features: array2<real>, featuresOffset: array<real>, featuresScale: array<real>,
                          offset: nat, size: nat, weight: real, sqrt: real -> real) returns (ok: bool)
    requires offset + size <= features.Length1
    requires featuresOffset.Length == features.Length1 && featuresScale.Length == features.Length1
    requires featuresOffset != featuresScale
    requires weight != 0.0
    modifies features, featuresOffset, featuresScale
    ensures ok == (AverageStd(old(Cells(features)), offset, size, sqrt) > 0.0)
    ensures forall c :: 0 <= c < featuresOffset.Length ==>
              featuresOffset[c] == if offset <= c < offset + size then Mean(old(Cells(features)), c) else old(featuresOffset[c])
    ensures forall c :: 0 <= c < featuresScale.Length ==>
              featuresScale[c] == if ok && offset <= c < offset + size
                                  then AverageStd(old(Cells(features)), offset, size, sqrt) / weight
                                  else old(featuresScale[c])
    ensures ok ==> Cells(features) == NormalizeBlock(old(Cells(features)), offset, size, featuresOffset[..],
                                                     AverageStd(old(Cells(features)), offset, size, sqrt) / weight)
    ensures !ok ==> Cells(features) == old(Cells(features))
  {
    ghost var m := Cells(features);
    ColumnMeans(features, featuresOffset, offset, size);
    assert Cells(features) == m;
    var vars := ColumnVariances(features, featuresOffset, offset, size);
    ghost var means := featuresOffset[..];

    var std := AverageDeviation(features, vars, offset, size, sqrt);
    ok := std > 0.0;
    if !ok {
      return;
    }
    var scale := std / weight;
    FillScale(featuresScale, offset, size, scale);
    NormalizeRows(features, featuresOffset, featuresScale, offset, size, scale);
    assert featuresOffset[..] == means;
  }

  /** The first two loops of `normalize_feature`: every column's mean, as a running sum. */
  method ColumnMeans(features: array2<real>, featuresOffset: array<real>, offset: nat, size: nat)
    requires offset + size <= features.Length1 && featuresOffset.Length == features.Length1
    modifies featuresOffset
    ensures forall c :: 0 <= c < featuresOffset.Length ==>
              featuresOffset[c] == if offset <= c < offset + size then Mean(Cells(features), c) else old(featuresOffset[c])
  {
    ghost var m := Cells(features);
    var rows := features.Length0;
    for j := 0 to size
      invariant forall c :: 0 <= c < featuresOffset.Length ==>
                  featuresOffset[c] == if offset <= c < offset + j then 0.0 else old(featuresOffset[c])
    {
      featuresOffset[offset + j] := 0.0;
    }
    for i := 0 to rows
      invariant forall c :: 0 <= c < featuresOffset.Length ==>
                  featuresOffset[c] == if offset <= c < offset + size then MeanPrefix(m, c, i) else old(featuresOffset[c])
    {
      AddToMeans(features, featuresOffset, offset, size, i, m);
    }
  }

  /** One row of the mean loop: every column of the group adds `x / rows`. */
  method AddToMeans(features: array2<real>, featuresOffset: array<real>, offset: nat, size: nat, i: nat,
                    ghost m: Matrix)
    requires m == Cells(features) && i < |m|
    requires offset + size <= features.Length1 && featuresOffset.Length == features.Length1
    requires forall c :: offset <= c < offset + size ==> featuresOffset[c] == MeanPrefix(m, c, i)
    modifies featuresOffset
    ensures forall c :: 0 <= c < featuresOffset.Length ==>
              featuresOffset[c] == if offset <= c < offset + size then MeanPrefix(m, c, i + 1) else old(featuresOffset[c])
  {
    var rows := features.Length0;
    for j := 0 to size
      invariant forall c :: 0 <= c < featuresOffset.Length ==>
                  featuresOffset[c] == if offset <= c < offset + j then MeanPrefix(m, c, i + 1) else old(featuresOffset[c])
    {
      assert m[i][offset + j] == features[i, offset + j];
      featuresOffset[offset + j] := featuresOffset[offset + j] + features[i, offset + j] / (rows as real);
    }
  }

  /** The variance loop of `normalize_feature`, around the means already stored. */
  method ColumnVariances(features: array2<real>, featuresOffset: array<real>, offset: nat, size: nat)
      returns (vars: array<real>)
    requires offset + size <= features.Length1 && featuresOffset.Length == features.Length1
    requires forall c :: offset <= c < offset + size ==> featuresOffset[c] == Mean(Cells(features), c)
    ensures fresh(vars) && vars.Length == size
    ensures forall j :: 0 <= j < size ==> vars[j] == Variance(Cells(features), offset + j)
  {
    ghost var m := Cells(features);
    var rows := features.Length0;
    vars := Zeros(size);
    for i := 0 to rows
      invariant forall j :: 0 <= j < size ==> vars[j] == VariancePrefix(m, offset + j, Mean(m, offset + j), i)
    {
      AddToVariances(features, featuresOffset, vars, offset, size, i, m);
    }
  }

  /** A fresh array of `size` zeros. */
  method Zeros(size: nat) returns (a: array<real>)
    ensures fresh(a) && a.Length == size && forall j :: 0 <= j < size ==> a[j] == 0.0
  {
    a := new real[size](_ => 0.0);
  }

  /** One row of the variance loop: every column of the group adds its squared deviation over `rows`. */
  method AddToVariances(features: array2<real>, featuresOffset: array<real>, vars: array<real>,
                        offset: nat, size: nat, i: nat, ghost m: Matrix)
    requires m == Cells(features) && i < |m|
    requires offset + size <= features.Length1 && featuresOffset.Length == features.Length1 && vars.Length == size
    requires vars != featuresOffset
    requires forall c :: offset <= c < offset + size ==> featuresOffset[c] == Mean(m, c)
    requires forall j :: 0 <= j < size ==> vars[j] == VariancePrefix(m, offset + j, Mean(m, offset + j), i)
    modifies vars
    ensures forall j :: 0 <= j < size ==> vars[j] == VariancePrefix(m, offset + j, Mean(m, offset + j), i + 1)
  {
    var rows := features.Length0;
    for j := 0 to size
      invariant forall j' :: 0 <= j' < j ==> vars[j'] == VariancePrefix(m, offset + j', Mean(m, offset + j'), i + 1)
      invariant forall j' :: j <= j' < size ==> vars[j'] == VariancePrefix(m, offset + j', Mean(m, offset + j'), i)
    {
      assert m[i][offset + j] == features[i, offset + j];
      vars[j] := vars[j] + Square(features[i, offset + j] - featuresOffset[offset + j]) / (rows as real);
    }
  }

  /** The deviation loop of `normalize_feature`: the average of the columns' deviations. */
  method AverageDeviation(features: array2<real>, vars: array<real>, offset: nat, size: nat, sqrt: real -> real)
      returns (std: real)
    requires offset + size <= features.Length1 && vars.Length == size
    requires forall j :: 0 <= j < size ==> vars[j] == Variance(Cells(features), offset + j)
    ensures std == AverageStd(Cells(features), offset, size, sqrt)
  {
    std := 0.0;
    for j := 0 to size
      invariant std == StdPrefix(Cells(features), offset, size, sqrt, j)
    {
      std := std + sqrt(vars[j]) / (size as real);
    }
  }

  /** The scale loop of `normalize_feature`: the whole group shares one scale. */
  method FillScale(featuresScale: array<real>, offset: nat, size: nat, scale: real)
    requires offset + size <= featuresScale.Length
    modifies featuresScale
    ensures forall c :: 0 <= c < featuresScale.Length ==>
              featuresScale[c] == if offset <= c < offset + size then scale else old(featuresScale[c])
  {
    for j := 0 to size
      invariant forall c :: 0 <= c < featuresScale.Length ==>
                  featuresScale[c] == if offset <= c < offset + j then scale else old(featuresScale[c])
    {
      featuresScale[offset + j] := scale;
    }
  }

  /** The last loop of `normalize_feature`: every frame's group entries become z-scores. */
  method NormalizeRows(features: array2<real>, featuresOffset: array<real>, featuresScale: array<real>,
                       offset: nat, size: nat, scale: real)
    requires offset + size <= features.Length1
    requires featuresOffset.Length == features.Length1 && featuresScale.Length == features.Length1
    requires scale != 0.0
    requires forall c :: offset <= c < offset + size ==> featuresScale[c] == scale
    modifies features
    ensures Cells(features) == NormalizeBlock(old(Cells(features)), offset, size, featuresOffset[..], scale)
  {
    ghost var m := Cells(features);
    ghost var offsets := featuresOffset[..];
    var rows := features.Length0;
    for i := 0 to rows
      invariant forall i', c :: 0 <= i' < i && offset <= c < offset + size ==>
                  features[i', c] == NormalizeValue(m[i'][c], offsets[c], scale)
      invariant forall i', c :: 0 <= i' < rows && 0 <= c < features.Length1 && (i <= i' || c < offset || offset + size <= c) ==>
                  features[i', c] == m[i'][c]
    {
      for j := 0 to size
        invariant forall i', c :: 0 <= i' < i && offset <= c < offset + size ==>
                    features[i', c] == NormalizeValue(m[i'][c], offsets[c], scale)
        invariant forall c :: offset <= c < offset + j ==> features[i, c] == NormalizeValue(m[i][c], offsets[c], scale)
        invariant forall i', c :: 0 <= i' < rows && 0 <= c < features.Length1 &&
                                  (i < i' || (i == i' && offset + j <= c) || c < offset || offset + size <= c) ==>
                    features[i', c] == m[i'][c]
      {
        features[i, offset + j] := (features[i, offset + j] - featuresOffset[offset + j]) / featuresScale[offset + j];
      }
    }
    MatrixEquality(Cells(features), NormalizeBlock(m, offset, size, offsets, scale), features.Length1);
  }

  /**
   * `denormalize_features`: a normalized feature vector is turned back into raw feature
   * values with the stored offsets and scales.
   */
  method DenormalizeFeatures(features: array<real>, featuresOffset: seq<real>, featuresScale: seq<real>)
    requires |featuresOffset| == features.Length && |featuresScale| == features.Length
    modifies features
    ensures features[..] == DenormalizeRow(old(features[..]), featuresOffset, featuresScale)
  {
    for i := 0 to features.Length
      invariant forall c :: 0 <= c < features.Length ==>
                  features[c] == if c < i then DenormalizeValue(old(features[c]), featuresOffset[c], featuresScale[c])
                                 else old(features[c])
    {
      features[i] := (features[i] * featuresScale[i]) + featuresOffset[i];
    }
  }
}
