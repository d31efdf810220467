/**
 * The feature database of MotionMatchingDemo/database.h: the normalized feature table with its
 * offsets and scales, the clip ranges, and the two levels of search boxes, together with
 * `database_build_matching_features` and `database_search`.
 *
 * The geometry of the feature extraction (`compute_*_feature` computing foot positions, foot
 * and hip velocities and the future trajectory from the skeleton) is not modelled: its output,
 * one row of 27 raw feature values per frame, is the input `raw` of the builder.  What is kept
 * of `compute_*_feature` is the bookkeeping: each writes its group of columns, normalizes it
 * and moves the column offset on by the group's width.
 */
module FeatureDatabase {
  import opened Matrices
  import Normalization
  import Bounds
  import Search

  /** Left and right foot position, left and right foot velocity, hip velocity (3 each), and
      trajectory positions and directions (6 each). */
  const Widths: seq<nat> := [3, 3, 3, 3, 3, 6, 6]

  /** The first column of each group, and the total number of features. */
  const Starts: seq<nat> := [0, 3, 6, 9, 12, 15, 21, 27]

  const NFeatures: nat := 27

  /** The weight of each group, from the five weights the builder is given. */
  function Weights(footPosition: real, footVelocity: real, hipVelocity: real,
                   trajectoryPositions: real, trajectoryDirections: real): (w: seq<real>)
    ensures |w| == |Widths|
  {
    [footPosition, footPosition, footVelocity, footVelocity, hipVelocity, trajectoryPositions, trajectoryDirections]
  }

  /** The group a feature column belongs to. */
  function GroupOf(c: nat): (k: nat)
    requires c < NFeatures
    ensures k < |Widths| && Starts[k] <= c < Starts[k + 1]
  {
    if c < 3 then 0 else if c < 6 then 1 else if c < 9 then 2 else if c < 12 then 3
    else if c < 15 then 4 else if c < 21 then 5 else 6
  }

  /** Each group starts where the previous one ends, and the groups cover the 27 features. */
  lemma GroupsTile(k: nat)
    requires k < |Widths|
    ensures Starts[k + 1] == Starts[k] + Widths[k] && Starts[|Widths|] == NFeatures
  {
  }

  /** Every group has a weight, and none is zero. */
  predicate ValidWeights(weights: seq<real>) {
    |weights| == |Widths| && forall k :: 0 <= k < |weights| ==> weights[k] != 0.0
  }

  /** The scale a successful build gives group `k`: its deviation over its weight. */
  function GroupScale(raw: Matrix, weights: seq<real>, sqrt: real -> real, k: nat): real
    requires IsMatrix(raw, NFeatures) && ValidWeights(weights) && k < |Widths|
  {
    Normalization.AverageStd(raw, Starts[k], Widths[k], sqrt) / weights[k]
  }

  lemma QuotientIsNonZero(a: real, b: real)
    requires a != 0.0 && b != 0.0
    ensures a / b != 0.0
  {
  }

  /** Group `k` of the raw table varies: the condition of the source's `assert(std > 0.0)`. */
  predicate GroupVaries(raw: Matrix, sqrt: real -> real, k: nat)
    requires IsMatrix(raw, NFeatures) && k < |Widths|
  {
    Normalization.AverageStd(raw, Starts[k], Widths[k], sqrt) > 0.0
  }

  /** Every group of the raw table varies. */
  predicate AllGroupsVary(raw: Matrix, sqrt: real -> real)
    requires IsMatrix(raw, NFeatures)
  {
    forall k :: 0 <= k < |Widths| ==> GroupVaries(raw, sqrt, k)
  }

  /** The seven groups one by one. */
  lemma AllGroupsVaryEach(raw: Matrix, sqrt: real -> real)
    requires IsMatrix(raw, NFeatures)
    ensures AllGroupsVary(raw, sqrt) <==>
              GroupVaries(raw, sqrt, 0) && GroupVaries(raw, sqrt, 1) && GroupVaries(raw, sqrt, 2) &&
              GroupVaries(raw, sqrt, 3) && GroupVaries(raw, sqrt, 4) && GroupVaries(raw, sqrt, 5) &&
              GroupVaries(raw, sqrt, 6)
  {
  }

  /** The normalized query of `database_search`, with the database's offsets and scales. */
  function NormalizeQuery(query: seq<real>, offsets: seq<real>, scales: seq<real>): (q: seq<real>)
    requires |offsets| == |query| && |scales| == |query|
    requires forall c :: 0 <= c < |query| ==> scales[c] != 0.0
    ensures |q| == |query|
    ensures forall c :: 0 <= c < |query| ==> q[c] * scales[c] + offsets[c] == query[c]
  {
    seq(|query|, c requires 0 <= c < |query| => Normalization.NormalizeValue(query[c], offsets[c], scales[c]))
  }

  /** The query normalization is the map `denormalize_features` inverts. */
  lemma DenormalizeNormalizedQuery(query: seq<real>, offsets: seq<real>, scales: seq<real>)
    requires |offsets| == |query| && |scales| == |query|
    requires forall c :: 0 <= c < |query| ==> scales[c] != 0.0
    ensures Normalization.DenormalizeRow(NormalizeQuery(query, offsets, scales), offsets, scales) == query
  {
    var q := NormalizeQuery(query, offsets, scales);
    var d := Normalization.DenormalizeRow(q, offsets, scales);
    forall c | 0 <= c < |query|
      ensures d[c] == query[c]
    {
      assert d[c] == Normalization.DenormalizeValue(q[c], offsets[c], scales[c]);
    }
  }

  /** `table` has a row per raw frame, and all three have a column per feature. */
  predicate Shaped(raw: Matrix, table: Matrix, offsets: seq<real>, scales: seq<real>) {
    |table| == |raw| && IsMatrix(table, NFeatures) && |offsets| == NFeatures && |scales| == NFeatures
  }

  /**
   * Group `k` is finished: each of its columns has its mean as offset and the group's scale,
   * and every frame holds its raw value normalized with both.
   */
  ghost predicate GroupFinished(raw: Matrix, weights: seq<real>, sqrt: real -> real, k: nat,
                                table: Matrix, offsets: seq<real>, scales: seq<real>)
    requires IsMatrix(raw, NFeatures) && ValidWeights(weights) && k < |Widths|
    requires Shaped(raw, table, offsets, scales)
  {
    forall c :: Starts[k] <= c < Starts[k + 1] ==>
      offsets[c] == Normalization.Mean(raw, c) &&
      scales[c] == GroupScale(raw, weights, sqrt, k) && scales[c] != 0.0 &&
      forall i :: 0 <= i < |raw| ==> table[i][c] == Normalization.NormalizeValue(raw[i][c], offsets[c], scales[c])
  }

  /** The first `k` groups are finished. */
  ghost predicate Prepared(raw: Matrix, weights: seq<real>, sqrt: real -> real, k: nat,
                           table: Matrix, offsets: seq<real>, scales: seq<real>)
    requires IsMatrix(raw, NFeatures) && ValidWeights(weights) && k <= |Widths|
    decreases k
  {
    Shaped(raw, table, offsets, scales) &&
    (k > 0 ==> Prepared(raw, weights, sqrt, k - 1, table, offsets, scales) &&
               GroupFinished(raw, weights, sqrt, k - 1, table, offsets, scales))
  }

  /** Whether the first `k` groups are finished depends on the columns before group `k` only. */
  lemma {:induction false} PreparedDependsOnEarlierColumns(raw: Matrix, weights: seq<real>, sqrt: real -> real, k: nat,
                                                           t1: Matrix, o1: seq<real>, s1: seq<real>,
                                                           t2: Matrix, o2: seq<real>, s2: seq<real>)
    requires IsMatrix(raw, NFeatures) && ValidWeights(weights) && k <= |Widths|
    requires Prepared(raw, weights, sqrt, k, t1, o1, s1) && Shaped(raw, t2, o2, s2)
    requires forall c :: 0 <= c < Starts[k] ==>
               o1[c] == o2[c] && s1[c] == s2[c] && forall i :: 0 <= i < |raw| ==> t1[i][c] == t2[i][c]
    ensures Prepared(raw, weights, sqrt, k, t2, o2, s2)
    decreases k
  {
    if k > 0 {
      GroupsTile(k - 1);
      PreparedDependsOnEarlierColumns(raw, weights, sqrt, k - 1, t1, o1, s1, t2, o2, s2);
      forall c | Starts[k - 1] <= c < Starts[k]
        ensures o2[c] == Normalization.Mean(raw, c)
        ensures s2[c] == GroupScale(raw, weights, sqrt, k - 1) && s2[c] != 0.0
        ensures forall i :: 0 <= i < |raw| ==> t2[i][c] == Normalization.NormalizeValue(raw[i][c], o2[c], s2[c])
      {
      }
    }
  }

  /**
   * After a successful build every column `c` is finished: its offset is its mean, its scale
   * its group's, and the table holds every raw value normalized.
   */
  lemma {:induction false} PreparedColumn(raw: Matrix, weights: seq<real>, sqrt: real -> real, k: nat,
                                          table: Matrix, offsets: seq<real>, scales: seq<real>, c: nat)
    requires IsMatrix(raw, NFeatures) && ValidWeights(weights) && k <= |Widths|
    requires Prepared(raw, weights, sqrt, k, table, offsets, scales) && c < Starts[k]
    ensures offsets[c] == Normalization.Mean(raw, c)
    ensures scales[c] == GroupScale(raw, weights, sqrt, GroupOf(c)) && scales[c] != 0.0
    ensures forall i :: 0 <= i < |raw| ==> table[i][c] == Normalization.NormalizeValue(raw[i][c], offsets[c], scales[c])
    decreases k
  {
    if c < Starts[k - 1] {
      PreparedColumn(raw, weights, sqrt, k - 1, table, offsets, scales, c);
    } else {
      assert GroupOf(c) == k - 1;
    }
  }

  /** The offsets of a successful build: every column's mean. */
  function Means(raw: Matrix): (offsets: seq<real>)
    requires IsMatrix(raw, NFeatures)
    ensures |offsets| == NFeatures
  {
    seq(NFeatures, c requires 0 <= c < NFeatures => Normalization.Mean(raw, c))
  }

  /** The scales of a successful build: every column gets its group's scale. */
  function Scales(raw: Matrix, weights: seq<real>, sqrt: real -> real): (scales: seq<real>)
    requires IsMatrix(raw, NFeatures) && ValidWeights(weights)
    ensures |scales| == NFeatures
  {
    seq(NFeatures, c requires 0 <= c < NFeatures => GroupScale(raw, weights, sqrt, GroupOf(c)))
  }

  /** Every raw value normalized with its column's offset and scale. */
  function NormalizedTable(raw: Matrix, offsets: seq<real>, scales: seq<real>): (table: Matrix)
    requires IsMatrix(raw, NFeatures) && |offsets| == NFeatures && |scales| == NFeatures
    requires forall c :: 0 <= c < NFeatures ==> scales[c] != 0.0
    ensures |table| == |raw| && IsMatrix(table, NFeatures)
  {
    seq(|raw|, i requires 0 <= i < |raw| =>
      seq(NFeatures, c requires 0 <= c < NFeatures => Normalization.NormalizeValue(raw[i][c], offsets[c], scales[c])))
  }

  /** Once all seven groups are finished, the tables are the means, the scales and the normalized values. */
  lemma PreparedIsNormalized(raw: Matrix, weights: seq<real>, sqrt: real -> real,
                             table: Matrix, offsets: seq<real>, scales: seq<real>)
    requires IsMatrix(raw, NFeatures) && ValidWeights(weights)
    requires Prepared(raw, weights, sqrt, |Widths|, table, offsets, scales)
    ensures offsets == Means(raw) && scales == Scales(raw, weights, sqrt)
    ensures forall c :: 0 <= c < NFeatures ==> scales[c] != 0.0
    ensures table == NormalizedTable(raw, offsets, scales)
  {
    forall c | 0 <= c < NFeatures
      ensures offsets[c] == Means(raw)[c] && scales[c] == Scales(raw, weights, sqrt)[c] && scales[c] != 0.0
      ensures forall i :: 0 <= i < |raw| ==> table[i][c] == Normalization.NormalizeValue(raw[i][c], offsets[c], scales[c])
    {
      PreparedColumn(raw, weights, sqrt, |Widths|, table, offsets, scales, c);
    }
    MatrixEquality(table, NormalizedTable(raw, offsets, scales), NFeatures);
  }

  /** `denormalize_features` turns every frame of a normalized table back into its raw features. */
  lemma NormalizedTableRoundTrip(raw: Matrix, offsets: seq<real>, scales: seq<real>, i: nat)
    requires IsMatrix(raw, NFeatures) && |offsets| == NFeatures && |scales| == NFeatures
    requires forall c :: 0 <= c < NFeatures ==> scales[c] != 0.0
    requires i < |raw|
    ensures Normalization.DenormalizeRow(NormalizedTable(raw, offsets, scales)[i], offsets, scales) == raw[i]
  {
    var row := NormalizedTable(raw, offsets, scales)[i];
    var back := Normalization.DenormalizeRow(row, offsets, scales);
    forall c | 0 <= c < NFeatures
      ensures back[c] == raw[i][c]
    {
      assert row[c] == Normalization.NormalizeValue(raw[i][c], offsets[c], scales[c]);
      assert back[c] == Normalization.DenormalizeValue(row[c], offsets[c], scales[c]);
    }
  }

  /** Normalized with the column means, every column of a non-empty table has mean zero. */
  lemma NormalizedTableMeanIsZero(raw: Matrix, scales: seq<real>, c: nat)
    requires IsMatrix(raw, NFeatures) && |raw| > 0 && |scales| == NFeatures
    requires forall c' :: 0 <= c' < NFeatures ==> scales[c'] != 0.0
    requires c < NFeatures
    ensures Normalization.Mean(NormalizedTable(raw, Means(raw), scales), c) == 0.0
  {
    var table := NormalizedTable(raw, Means(raw), scales);
    var block := Normalization.NormalizeBlock(raw, c, 1, Means(raw), scales[c]);
    forall i | 0 <= i < |raw|
      ensures table[i][c] == block[i][c]
    {
    }
    Normalization.PrefixesAgree(table, block, c, 0.0, |raw|);
    Normalization.NormalizedMeanIsZero(raw, c, 1, Means(raw), scales[c], c);
  }

  /**
   * One `compute_*_feature` on values: group `k` of `m` holds the raw values and the other
   * columns those of `before`; normalizing the group finishes it exactly when it varies.
   */
  lemma FinishGroup(raw: Matrix, weights: seq<real>, sqrt: real -> real, k: nat,
                    before: Matrix, offsets0: seq<real>, scales0: seq<real>, m: Matrix, ok: bool,
                    table: Matrix, offsets: seq<real>, scales: seq<real>)
    requires IsMatrix(raw, NFeatures) && ValidWeights(weights) && k < |Widths|
    requires Prepared(raw, weights, sqrt, k, before, offsets0, scales0)
    requires |m| == |raw| && IsMatrix(m, NFeatures) && Shaped(raw, table, offsets, scales)
    requires forall i, c :: 0 <= i < |raw| && 0 <= c < NFeatures ==>
               m[i][c] == if Starts[k] <= c < Starts[k + 1] then raw[i][c] else before[i][c]
    requires ok == (Normalization.AverageStd(m, Starts[k], Widths[k], sqrt) > 0.0)
    requires forall c :: 0 <= c < NFeatures ==>
               offsets[c] == if Starts[k] <= c < Starts[k] + Widths[k] then Normalization.Mean(m, c) else offsets0[c]
    requires forall c :: 0 <= c < NFeatures ==>
               scales[c] == if ok && Starts[k] <= c < Starts[k] + Widths[k]
                            then Normalization.AverageStd(m, Starts[k], Widths[k], sqrt) / weights[k]
                            else scales0[c]
    requires ok ==> table == Normalization.NormalizeBlock(m, Starts[k], Widths[k], offsets,
                                                          Normalization.AverageStd(m, Starts[k], Widths[k], sqrt) / weights[k])
    ensures ok == GroupVaries(raw, sqrt, k)
    ensures ok ==> Prepared(raw, weights, sqrt, k + 1, table, offsets, scales)
  {
    GroupsTile(k);
    var offset := Starts[k];
    Normalization.GroupStdAgrees(m, raw, offset, Widths[k], sqrt, Widths[k]);
    var std := Normalization.AverageStd(raw, offset, Widths[k], sqrt);
    assert Normalization.AverageStd(m, offset, Widths[k], sqrt) == std;
    if ok {
      QuotientIsNonZero(std, weights[k]);
      PreparedDependsOnEarlierColumns(raw, weights, sqrt, k, before, offsets0, scales0, table, offsets, scales);
      forall c | offset <= c < Starts[k + 1]
        ensures offsets[c] == Normalization.Mean(raw, c)
        ensures scales[c] == GroupScale(raw, weights, sqrt, k) && scales[c] != 0.0
        ensures forall i :: 0 <= i < |raw| ==> table[i][c] == Normalization.NormalizeValue(raw[i][c], offsets[c], scales[c])
      {
        Normalization.ColumnStatisticsAgree(m, raw, c);
      }
    }
  }

  class Database {
    var rangeStarts: seq<int>
    var rangeStops: seq<int>
    var features: array2<real>
    var featuresOffset: array<real>
    var featuresScale: array<real>
    var boundSmMin: array2<real>
    var boundSmMax: array2<real>
    var boundLrMin: array2<real>
    var boundLrMax: array2<real>

    /**
     * The tables fit together: one offset and one non-zero scale per feature, and both levels
     * of boxes built from the current feature table.
     */
    ghost predicate Valid()
      reads this, features, featuresOffset, featuresScale, boundSmMin, boundSmMax, boundLrMin, boundLrMax
    {
      featuresOffset.Length == features.Length1 && featuresScale.Length == features.Length1 &&
      featuresOffset != featuresScale &&
      (forall c :: 0 <= c < featuresScale.Length ==> featuresScale[c] != 0.0) &&
      Search.LevelShape(features.Length0, features.Length1, boundSmMin, boundSmMax, Bounds.SmallSize) &&
      Search.LevelShape(features.Length0, features.Length1, boundLrMin, boundLrMax, Bounds.LargeSize) &&
      Cells(boundSmMin) == Bounds.MinTable(Cells(features), features.Length1, Bounds.SmallSize) &&
      Cells(boundSmMax) == Bounds.MaxTable(Cells(features), features.Length1, Bounds.SmallSize) &&
      Cells(boundLrMin) == Bounds.MinTable(Cells(features), features.Length1, Bounds.LargeSize) &&
      Cells(boundLrMax) == Bounds.MaxTable(Cells(features), features.Length1, Bounds.LargeSize)
    }

    /** An empty database over the given clip ranges (`database_load` reads them from a file). */
    constructor(rangeStarts: seq<int>, rangeStops: seq<int>)
      ensures Valid()
      ensures this.rangeStarts == rangeStarts && this.rangeStops == rangeStops
      ensures features.Length0 == 0 && features.Length1 == 0
    {
      this.rangeStarts := rangeStarts;
      this.rangeStops := rangeStops;
      var table := new real[0, 0];
      features := table;
      featuresOffset := new real[0];
      featuresScale := new real[0];
      var smMin, smMax, lrMin, lrMax := Bounds.BuildBounds(table);
      boundSmMin, boundSmMax, boundLrMin, boundLrMax := smMin, smMax, lrMin, lrMax;
    }

    /** The column writes of one `compute_*_feature`: group `k` of every frame gets its raw values. */
    method WriteGroup(raw: Matrix, k: nat)
      requires IsMatrix(raw, NFeatures) && k < |Widths|
      requires features.Length0 == |raw| && features.Length1 == NFeatures
      modifies features
      ensures forall i, c :: 0 <= i < |raw| && 0 <= c < NFeatures ==>
                features[i, c] == if Starts[k] <= c < Starts[k + 1] then raw[i][c] else old(features[i, c])
    {
      GroupsTile(k);
      for i := 0 to |raw|
        invariant forall i', c :: 0 <= i' < |raw| && 0 <= c < NFeatures ==>
                    features[i', c] == if i' < i && Starts[k] <= c < Starts[k + 1] then raw[i'][c] else old(features[i', c])
      {
        for j := 0 to Widths[k]
          invariant forall i', c :: 0 <= i' < |raw| && 0 <= c < NFeatures ==>
                      features[i', c] == if (i' < i || (i' == i && c < Starts[k] + j)) && Starts[k] <= c < Starts[k + 1]
                                         then raw[i'][c] else old(features[i', c])
        {
          features[i, Starts[k] + j] := raw[i][Starts[k] + j];
        }
      }
    }

    /**
     * One `compute_*_feature` for group `k`, starting at column `offset`: write the group,
     * normalize it and move the offset past it.  The source stops unless the group varies.
     */
    method ComputeFeature(raw: Matrix, weights: seq<real>, k: nat, offset: nat, sqrt: real -> real)
        returns (next: nat, ok: bool)
      requires IsMatrix(raw, NFeatures) && ValidWeights(weights) && k < |Widths| && offset == Starts[k]
      requires features.Length0 == |raw| && features.Length1 == NFeatures
      requires featuresOffset.Length == NFeatures && featuresScale.Length == NFeatures
      requires featuresOffset != featuresScale
      requires Prepared(raw, weights, sqrt, k, Cells(features), featuresOffset[..], featuresScale[..])
      modifies features, featuresOffset, featuresScale
      ensures next == offset + Widths[k]
      ensures ok == GroupVaries(raw, sqrt, k)
      ensures ok ==> Prepared(raw, weights, sqrt, k + 1, Cells(features), featuresOffset[..], featuresScale[..])
    {
      ghost var before, offsets0, scales0 := Cells(features), featuresOffset[..], featuresScale[..];
      WriteGroup(raw, k);
      ghost var m := Cells(features);
      forall i, c | 0 <= i < |raw| && 0 <= c < NFeatures
        ensures m[i][c] == if Starts[k] <= c < Starts[k + 1] then raw[i][c] else before[i][c]
      {
        assert m[i][c] == features[i, c];
      }
      ok := Normalization.NormalizeFeature(features, featuresOffset, featuresScale, offset, Widths[k], weights[k], sqrt);
      next := offset + Widths[k];
      FinishGroup(raw, weights, sqrt, k, before, offsets0, scales0, m, ok,
                  Cells(features), featuresOffset[..], featuresScale[..]);
    }

    /**
     * `database_build_matching_features`: the seven groups are written and normalized one
     * after the other, the offset must end at 27, and the boxes are built from the result.
     * The build succeeds exactly when every group varies; the feature table then holds every
     * raw value normalized with its column's mean and its group's scale.
     */
    method BuildMatchingFeatures(raw: Matrix, footPosition: real, footVelocity: real, hipVelocity: real,
                                 trajectoryPositions: real, trajectoryDirections: real, sqrt: real -> real)
        returns (ok: bool)
      requires IsMatrix(raw, NFeatures)
      requires footPosition != 0.0 && footVelocity != 0.0 && hipVelocity != 0.0
      requires trajectoryPositions != 0.0 && trajectoryDirections != 0.0
      modifies this
      ensures rangeStarts == old(rangeStarts) && rangeStops == old(rangeStops)
      ensures ok == AllGroupsVary(raw, sqrt)
      ensures ok ==> Valid() && features.Length0 == |raw| && features.Length1 == NFeatures
      ensures ok ==> featuresOffset[..] == Means(raw)
      ensures ok ==> featuresScale[..] == Scales(raw, Weights(footPosition, footVelocity, hipVelocity,
                                                              trajectoryPositions, trajectoryDirections), sqrt)
      ensures ok ==> Cells(features) == NormalizedTable(raw, featuresOffset[..], featuresScale[..])
    {
      var weights := Weights(footPosition, footVelocity, hipVelocity, trajectoryPositions, trajectoryDirections);
      features := new real[|raw|, NFeatures];
      featuresOffset := new real[NFeatures];
      featuresScale := new real[NFeatures];
      ok := ComputeFeatures(raw, weights, sqrt);
      if ok {
        BuildBounds();
      }
    }

    /** `database_build_bounds` of this database: both levels of boxes of the current feature table. */
    method BuildBounds()
      modifies this
      ensures rangeStarts == old(rangeStarts) && rangeStops == old(rangeStops)
      ensures features == old(features) && featuresOffset == old(featuresOffset) && featuresScale == old(featuresScale)
      ensures Search.LevelShape(features.Length0, features.Length1, boundSmMin, boundSmMax, Bounds.SmallSize)
      ensures Search.LevelShape(features.Length0, features.Length1, boundLrMin, boundLrMax, Bounds.LargeSize)
      ensures Cells(boundSmMin) == Bounds.MinTable(Cells(features), features.Length1, Bounds.SmallSize)
      ensures Cells(boundSmMax) == Bounds.MaxTable(Cells(features), features.Length1, Bounds.SmallSize)
      ensures Cells(boundLrMin) == Bounds.MinTable(Cells(features), features.Length1, Bounds.LargeSize)
      ensures Cells(boundLrMax) == Bounds.MaxTable(Cells(features), features.Length1, Bounds.LargeSize)
    {
      var smMin, smMax, lrMin, lrMax := Bounds.BuildBounds(features);
      boundSmMin, boundSmMax, boundLrMin, boundLrMax := smMin, smMax, lrMin, lrMax;
    }

    /**
     * The seven `compute_*_feature` calls, each starting where the previous one ended: the
     * two foot positions, the three bone velocities, and the trajectory positions and
     * directions.
     */
    method ComputeFeatures(raw: Matrix, weights: seq<real>, sqrt: real -> real) returns (ok: bool)
      requires IsMatrix(raw, NFeatures) && ValidWeights(weights) && featuresOffset != featuresScale
      requires features.Length0 == |raw| && features.Length1 == NFeatures
      requires featuresOffset.Length == NFeatures && featuresScale.Length == NFeatures
      modifies features, featuresOffset, featuresScale
      ensures ok == AllGroupsVary(raw, sqrt)
      ensures ok ==> featuresOffset[..] == Means(raw) && featuresScale[..] == Scales(raw, weights, sqrt)
      ensures ok ==> (forall c :: 0 <= c < NFeatures ==> featuresScale[c] != 0.0) &&
                     Cells(features) == NormalizedTable(raw, featuresOffset[..], featuresScale[..])
    {
      AllGroupsVaryEach(raw, sqrt);
      var offset: nat;
      offset, ok := ComputePositionFeatures(raw, weights, sqrt);
      if !ok { return; }
      offset, ok := ComputeVelocityFeatures(raw, weights, offset, sqrt);
      if !ok { return; }
      offset, ok := ComputeTrajectoryFeatures(raw, weights, offset, sqrt);
      if ok {
        assert offset == NFeatures;
        PreparedIsNormalized(raw, weights, sqrt, Cells(features), featuresOffset[..], featuresScale[..]);
      }
    }

    /** The two `compute_bone_position_feature` calls: left and right foot. */
    method ComputePositionFeatures(raw: Matrix, weights: seq<real>, sqrt: real -> real) returns (offset: nat, ok: bool)
      requires IsMatrix(raw, NFeatures) && ValidWeights(weights) && featuresOffset != featuresScale
      requires features.Length0 == |raw| && features.Length1 == NFeatures
      requires featuresOffset.Length == NFeatures && featuresScale.Length == NFeatures
      modifies features, featuresOffset, featuresScale
      ensures ok == (GroupVaries(raw, sqrt, 0) && GroupVaries(raw, sqrt, 1))
      ensures ok ==> offset == Starts[2] && Prepared(raw, weights, sqrt, 2, Cells(features), featuresOffset[..], featuresScale[..])
    {
      offset := 0;
      offset, ok := ComputeFeature(raw, weights, 0, offset, sqrt);
      if !ok { return; }
      offset, ok := ComputeFeature(raw, weights, 1, offset, sqrt);
    }

    /** The three `compute_bone_velocity_feature` calls: left foot, right foot and hip. */
    method ComputeVelocityFeatures(raw: Matrix, weights: seq<real>, offset0: nat, sqrt: real -> real)
        returns (offset: nat, ok: bool)
      requires IsMatrix(raw, NFeatures) && ValidWeights(weights) && featuresOffset != featuresScale
      requires features.Length0 == |raw| && features.Length1 == NFeatures
      requires featuresOffset.Length == NFeatures && featuresScale.Length == NFeatures
      requires offset0 == Starts[2] && Prepared(raw, weights, sqrt, 2, Cells(features), featuresOffset[..], featuresScale[..])
      modifies features, featuresOffset, featuresScale
      ensures ok == (GroupVaries(raw, sqrt, 2) && GroupVaries(raw, sqrt, 3) && GroupVaries(raw, sqrt, 4))
      ensures ok ==> offset == Starts[5] && Prepared(raw, weights, sqrt, 5, Cells(features), featuresOffset[..], featuresScale[..])
    {
      offset, ok := ComputeFeature(raw, weights, 2, offset0, sqrt);
      if !ok { return; }
      offset, ok := ComputeFeature(raw, weights, 3, offset, sqrt);
      if !ok { return; }
      offset, ok := ComputeFeature(raw, weights, 4, offset, sqrt);
    }

    /** `compute_trajectory_position_feature` and `compute_trajectory_direction_feature`. */
    method ComputeTrajectoryFeatures(raw: Matrix, weights: seq<real>, offset0: nat, sqrt: real -> real)
        returns (offset: nat, ok: bool)
      requires IsMatrix(raw, NFeatures) && ValidWeights(weights) && featuresOffset != featuresScale
      requires features.Length0 == |raw| && features.Length1 == NFeatures
      requires featuresOffset.Length == NFeatures && featuresScale.Length == NFeatures
      requires offset0 == Starts[5] && Prepared(raw, weights, sqrt, 5, Cells(features), featuresOffset[..], featuresScale[..])
      modifies features, featuresOffset, featuresScale
      ensures ok == (GroupVaries(raw, sqrt, 5) && GroupVaries(raw, sqrt, 6))
      ensures ok ==> offset == Starts[7] && Prepared(raw, weights, sqrt, 7, Cells(features), featuresOffset[..], featuresScale[..])
    {
      offset, ok := ComputeFeature(raw, weights, 5, offset0, sqrt);
      if !ok { return; }
      offset, ok := ComputeFeature(raw, weights, 6, offset, sqrt);
    }

    /** The loop of `database_search` that normalizes the query with the database's offsets and scales. */
    method NormalizedQuery(query: seq<real>) returns (q: seq<real>)
      requires Valid() && |query| == features.Length1
      ensures q == NormalizeQuery(query, featuresOffset[..], featuresScale[..])
    {
      q := [];
      for i := 0 to |query|
        invariant q == NormalizeQuery(query[..i], featuresOffset[..i], featuresScale[..i])
      {
        q := q + [Normalization.NormalizeValue(query[i], featuresOffset[i], featuresScale[i])];
      }
      assert query[..|query|] == query && featuresOffset[..|query|] == featuresOffset[..]
        && featuresScale[..|query|] == featuresScale[..];
    }

    /**
     * `database_search`: normalize the query and run `motion_matching_search` over the
     * database.  The result is the exhaustive scan of every range with the normalized query.
     */
    method DatabaseSearch(query: seq<real>, transitionCost: real, ignoreRangeEnd: int, ignoreSurrounding: int,
                          bestIndex0: int, bestCost0: real)
        returns (bestIndex: int, bestCost: real)
      requires Valid() && |query| == features.Length1
      requires bestIndex0 == -1 || 0 <= bestIndex0 < features.Length0
      requires Search.ValidRanges(features.Length0, rangeStarts, rangeStops, ignoreRangeEnd)
      ensures var ctx := Search.SearchContext(features, NormalizeQuery(query, featuresOffset[..], featuresScale[..]),
                                              transitionCost, bestIndex0, ignoreSurrounding);
        Search.Best(bestIndex, bestCost) == Search.Exhaustive(ctx, rangeStarts, rangeStops, ignoreRangeEnd, bestCost0)
    {
      var q := NormalizedQuery(query);
      ghost var ctx := Search.SearchContext(features, q, transitionCost, bestIndex0, ignoreSurrounding);
      Bounds.LevelContains(Cells(features), features.Length1, Bounds.SmallSize);
      Bounds.LevelContains(Cells(features), features.Length1, Bounds.LargeSize);
      assert Search.BoxesContain(ctx, boundSmMin, boundSmMax, boundLrMin, boundLrMax);
      bestIndex, bestCost := Search.MotionMatchingSearch(features, boundSmMin, boundSmMax, boundLrMin, boundLrMax,
                                                         rangeStarts, rangeStops, q, transitionCost,
                                                         ignoreRangeEnd, ignoreSurrounding, bestIndex0, bestCost0);
    }
  }
}
