/**
 * The search acceleration structure of `database_build_bounds` (MotionMatchingDemo/database.h):
 * per-feature minima and maxima over consecutive blocks of 16 ("small") and 64 ("large")
 * frames, which bound the distance from a query to any frame of a block from below.
 *
 * The tables are defined as folds over the frames in scan order, the order in which the
 * source visits them.  The source updates the maxima from the freshly updated minima;
 * `AsWrittenBlockMax` models that line as written, and the builder `BuildBounds` uses the
 * running maximum it evidently intends.
 */
module Bounds {
  import opened Matrices

  /** `BOUND_SM_SIZE` and `BOUND_LR_SIZE`. */
  const SmallSize: nat := 16
  const LargeSize: nat := 64

  /** `FLT_MAX` and `FLT_MIN` (the smallest positive normal float, 2^-126), exactly. */
  const FltMax: real := 340282346638528859811704183484516925440.0
  const FltMin: real := 1.0 / 85070591730234615865843651857942052864.0

  /** The number of blocks of `size` frames needed to cover `frames` frames. */
  function BlockCount(frames: nat, size: nat): (count: nat)
    requires size > 0
    ensures count * size >= frames && (frames > 0 ==> (count - 1) * size < frames)
  {
    (frames + size - 1) / size
  }

  /**
   * The minimum of column `c` over the frames among the first `n` that fall into block `p`,
   * folded from `FLT_MAX` in frame order.
   */
  function BlockMin(m: Matrix, c: nat, size: nat, p: nat, n: nat): real
    requires size > 0 && n <= |m| && HasColumns(m, c + 1)
    decreases n
  {
    if n == 0 then FltMax
    else if (n - 1) / size == p then Min(BlockMin(m, c, size, p, n - 1), m[n - 1][c])
    else BlockMin(m, c, size, p, n - 1)
  }

  /** The same fold for the maximum, from `FLT_MIN`. */
  function BlockMax(m: Matrix, c: nat, size: nat, p: nat, n: nat): real
    requires size > 0 && n <= |m| && HasColumns(m, c + 1)
    decreases n
  {
    if n == 0 then FltMin
    else if (n - 1) / size == p then Max(BlockMax(m, c, size, p, n - 1), m[n - 1][c])
    else BlockMax(m, c, size, p, n - 1)
  }

  /**
   * The maximum as the source computes it: `maxf` of the freshly updated minimum and the frame.
   * The minimum never exceeds the frame just folded into it, so the result is the value of the
   * block's last frame seen so far.
   */
  function AsWrittenBlockMax(m: Matrix, c: nat, size: nat, p: nat, n: nat): (r: real)
    requires size > 0 && n <= |m| && HasColumns(m, c + 1)
    ensures n > 0 && (n - 1) / size == p ==> r == m[n - 1][c]
    decreases n
  {
    if n == 0 then FltMin
    else if (n - 1) / size == p then
      BlockBoundsContain(m, c, size, p, n, n - 1);
      Max(BlockMin(m, c, size, p, n), m[n - 1][c])
    else AsWrittenBlockMax(m, c, size, p, n - 1)
  }

  /** Every frame of block `p` among the first `n` lies between the folded minimum and maximum. */
  lemma {:induction false} BlockBoundsContain(m: Matrix, c: nat, size: nat, p: nat, n: nat, i: nat)
    requires size > 0 && n <= |m| && HasColumns(m, c + 1)
    requires i < n && i / size == p
    ensures BlockMin(m, c, size, p, n) <= m[i][c] <= BlockMax(m, c, size, p, n)
    decreases n
  {
    if i < n - 1 {
      BlockBoundsContain(m, c, size, p, n - 1, i);
    }
  }

  /** The folded minimum is attained by a frame of the block unless every such frame is above `FLT_MAX`. */
  lemma {:induction false} BlockMinIsAttained(m: Matrix, c: nat, size: nat, p: nat, n: nat)
    requires size > 0 && n <= |m| && HasColumns(m, c + 1)
    ensures BlockMin(m, c, size, p, n) == FltMax ||
            exists i :: 0 <= i < n && i / size == p && BlockMin(m, c, size, p, n) == m[i][c]
    decreases n
  {
    if n > 0 {
      BlockMinIsAttained(m, c, size, p, n - 1);
    }
  }

  /** The folded maximum is attained by a frame of the block unless every such frame is below `FLT_MIN`. */
  lemma {:induction false} BlockMaxIsAttained(m: Matrix, c: nat, size: nat, p: nat, n: nat)
    requires size > 0 && n <= |m| && HasColumns(m, c + 1)
    ensures BlockMax(m, c, size, p, n) == FltMin ||
            exists i :: 0 <= i < n && i / size == p && BlockMax(m, c, size, p, n) == m[i][c]
    decreases n
  {
    if n > 0 {
      BlockMaxIsAttained(m, c, size, p, n - 1);
    }
  }

  /**
   * Two frames whose feature falls from 1 to 0: as written, the block's maximum is 0, below
   * the first frame, so the box does not contain it; the running maximum does.
   */
  lemma AsWrittenMaxMissesAFrame()
    ensures var m := [[1.0], [0.0]];
      AsWrittenBlockMax(m, 0, SmallSize, 0, 2) == 0.0 < m[0][0] && m[0][0] <= BlockMax(m, 0, SmallSize, 0, 2)
  {
    var m := [[1.0], [0.0]];
    BlockBoundsContain(m, 0, SmallSize, 0, 2, 0);
  }

  /**
   * The fold for the maximum starts, like the source, from `FLT_MIN`, which is positive: a
   * block whose values are all negative gets `FLT_MIN` as its maximum.  The box still contains
   * every frame, but is wider than the frames need, so it prunes less.
   */
  lemma MaxSentinelWidensNegativeBlocks()
    ensures var m := [[-1.0], [-2.0]];
      m[1][0] < m[0][0] < 0.0 < FltMin == BlockMax(m, 0, SmallSize, 0, 2)
  {
  }

  // ---------------------------------------------------------------- block arithmetic

  /** Later blocks start after earlier blocks end. */
  lemma {:induction false} BlocksAreOrdered(p: nat, q: nat, size: nat)
    requires p < q
    ensures p * size + size <= q * size
    decreases q
  {
    assert q * size == (q - 1) * size + size;
    if p < q - 1 {
      BlocksAreOrdered(p, q - 1, size);
    }
  }

  /** Block starts are ordered like the blocks. */
  lemma StartsAreOrdered(p: nat, q: nat, size: nat)
    ensures p * size < q * size ==> p < q
  {
    if q < p {
      BlocksAreOrdered(q, p, size);
    }
  }

  /** Frame `i` lies in block `i / size`, which is one of the table's blocks. */
  lemma FrameInItsBlock(frames: nat, size: nat, i: nat)
    requires size > 0 && i < frames
    ensures i / size < BlockCount(frames, size)
    ensures (i / size) * size <= i < (i / size) * size + size
  {
    var b := i / size;
    assert i == b * size + i % size;
    StartsAreOrdered(b, BlockCount(frames, size), size);
  }

  // ---------------------------------------------------------------- the builder

  /** The tables of one level after the first `n` frames: every entry folds its block so far. */
  ghost predicate Partial(m: Matrix, bmin: array2<real>, bmax: array2<real>, size: nat, n: nat)
    reads bmin, bmax
    requires size > 0 && n <= |m| && IsMatrix(m, bmin.Length1)
  {
    bmax.Length0 == bmin.Length0 && bmax.Length1 == bmin.Length1 &&
    forall p, j :: 0 <= p < bmin.Length0 && 0 <= j < bmin.Length1 ==>
      bmin[p, j] == BlockMin(m, j, size, p, n) && bmax[p, j] == BlockMax(m, j, size, p, n)
  }

  /**
   * `database_build_bounds`, with the maxima corrected: one pass over the frames widens the
   * box of each frame's small and large block.
   */
  method BuildBounds(features: array2<real>)
    returns (smMin: array2<real>, smMax: array2<real>, lrMin: array2<real>, lrMax: array2<real>)
    ensures fresh(smMin) && fresh(smMax) && fresh(lrMin) && fresh(lrMax)
    ensures smMin != smMax && lrMin != lrMax && {smMin, smMax} !! {lrMin, lrMax}
    ensures smMin.Length0 == BlockCount(features.Length0, SmallSize) && smMin.Length1 == features.Length1
    ensures lrMin.Length0 == BlockCount(features.Length0, LargeSize) && lrMin.Length1 == features.Length1
    ensures smMax.Length0 == smMin.Length0 && smMax.Length1 == smMin.Length1
    ensures lrMax.Length0 == lrMin.Length0 && lrMax.Length1 == lrMin.Length1
    ensures Cells(smMin) == MinTable(Cells(features), features.Length1, SmallSize)
    ensures Cells(smMax) == MaxTable(Cells(features), features.Length1, SmallSize)
    ensures Cells(lrMin) == MinTable(Cells(features), features.Length1, LargeSize)
    ensures Cells(lrMax) == MaxTable(Cells(features), features.Length1, LargeSize)
  {
    ghost var m := Cells(features);
    var frames := features.Length0;
    smMin, smMax := NewLevel(frames, features.Length1, SmallSize);
    lrMin, lrMax := NewLevel(frames, features.Length1, LargeSize);
    for i := 0 to frames
      invariant Partial(m, smMin, smMax, SmallSize, i)
      invariant Partial(m, lrMin, lrMax, LargeSize, i)
    {
      WidenLevel(features, smMin, smMax, SmallSize, i, m);
      WidenLevel(features, lrMin, lrMax, LargeSize, i, m);
    }
    BuiltIsLevel(m, smMin, smMax, SmallSize);
    BuiltIsLevel(m, lrMin, lrMax, LargeSize);
  }

  /** The `resize` and `set` of one level: every minimum at `FLT_MAX`, every maximum at `FLT_MIN`. */
  method NewLevel(frames: nat, cols: nat, size: nat) returns (bmin: array2<real>, bmax: array2<real>)
    requires size > 0
    ensures fresh(bmin) && fresh(bmax) && bmin != bmax
    ensures bmin.Length0 == BlockCount(frames, size) == bmax.Length0 && bmin.Length1 == cols == bmax.Length1
    ensures forall p, j :: 0 <= p < bmin.Length0 && 0 <= j < cols ==> bmin[p, j] == FltMax && bmax[p, j] == FltMin
  {
    var nbound := (frames + size - 1) / size;
    bmin := new real[nbound, cols]((_, _) => FltMax);
    bmax := new real[nbound, cols]((_, _) => FltMin);
  }

  /** Frame `i` moves the fold of its own block one frame on and leaves the other blocks alone. */
  method WidenLevel(features: array2<real>, bmin: array2<real>, bmax: array2<real>, size: nat, i: nat,
                    ghost m: Matrix)
    requires m == Cells(features) && i < |m| && size > 0
    requires bmin != bmax && features != bmin && features != bmax
    requires bmin.Length0 == BlockCount(|m|, size) && bmin.Length1 == features.Length1
    requires Partial(m, bmin, bmax, size, i)
    modifies bmin, bmax
    ensures Partial(m, bmin, bmax, size, i + 1)
  {
    FrameInItsBlock(|m|, size, i);
    AddFrame(features, bmin, bmax, i, i / size);
    forall p, j | 0 <= p < bmin.Length0 && 0 <= j < bmin.Length1
      ensures bmin[p, j] == BlockMin(m, j, size, p, i + 1) && bmax[p, j] == BlockMax(m, j, size, p, i + 1)
    {
      assert m[i][j] == features[i, j];
    }
  }

  /** The inner loop of `database_build_bounds`: frame `i` widens the box of block `b`. */
  method AddFrame(features: array2<real>, bmin: array2<real>, bmax: array2<real>, i: nat, b: nat)
    requires i < features.Length0 && b < bmin.Length0
    requires bmin.Length1 == features.Length1 && bmax.Length0 == bmin.Length0 && bmax.Length1 == bmin.Length1
    requires bmin != bmax
    modifies bmin, bmax
    ensures forall p, j :: 0 <= p < bmin.Length0 && 0 <= j < bmin.Length1 ==>
              bmin[p, j] == (if p == b then Min(old(bmin[p, j]), features[i, j]) else old(bmin[p, j])) &&
              bmax[p, j] == (if p == b then Max(old(bmax[p, j]), features[i, j]) else old(bmax[p, j]))
  {
    for j := 0 to features.Length1
      invariant forall p, j' :: 0 <= p < bmin.Length0 && 0 <= j' < bmin.Length1 ==>
                  bmin[p, j'] == (if p == b && j' < j then Min(old(bmin[p, j']), features[i, j']) else old(bmin[p, j'])) &&
                  bmax[p, j'] == (if p == b && j' < j then Max(old(bmax[p, j']), features[i, j']) else old(bmax[p, j']))
    {
      bmin[b, j] := Min(bmin[b, j], features[i, j]);
      bmax[b, j] := Max(bmax[b, j], features[i, j]);
    }
  }

  /** The minima of one block size: one row per block, one column per feature. */
  ghost function MinTable(m: Matrix, cols: nat, size: nat): (t: Matrix)
    requires size > 0 && IsMatrix(m, cols)
    ensures |t| == BlockCount(|m|, size) && IsMatrix(t, cols)
  {
    seq(BlockCount(|m|, size), p requires 0 <= p => seq(cols, j requires 0 <= j < cols => BlockMin(m, j, size, p, |m|)))
  }

  /** The maxima of one block size, as the corrected builder computes them. */
  ghost function MaxTable(m: Matrix, cols: nat, size: nat): (t: Matrix)
    requires size > 0 && IsMatrix(m, cols)
    ensures |t| == BlockCount(|m|, size) && IsMatrix(t, cols)
  {
    seq(BlockCount(|m|, size), p requires 0 <= p => seq(cols, j requires 0 <= j < cols => BlockMax(m, j, size, p, |m|)))
  }

  /** Frame `i` lies inside the box of its block, feature by feature. */
  ghost predicate InItsBox(m: Matrix, cols: nat, bmin: Matrix, bmax: Matrix, size: nat, i: nat)
    requires size > 0 && IsMatrix(m, cols) && i < |m|
    requires IsMatrix(bmin, cols) && IsMatrix(bmax, cols) && |bmax| == |bmin|
  {
    i / size < |bmin| && forall j :: 0 <= j < cols ==> bmin[i / size][j] <= m[i][j] <= bmax[i / size][j]
  }

  /** Every frame lies inside the box of its block. */
  ghost predicate Contains(m: Matrix, cols: nat, bmin: Matrix, bmax: Matrix, size: nat)
    requires size > 0 && IsMatrix(m, cols)
  {
    |bmin| == BlockCount(|m|, size) && |bmax| == |bmin| && IsMatrix(bmin, cols) && IsMatrix(bmax, cols) &&
    forall i :: 0 <= i < |m| ==> InItsBox(m, cols, bmin, bmax, size, i)
  }

  /** The corrected tables bound every frame of their block. */
  lemma LevelContains(m: Matrix, cols: nat, size: nat)
    requires size > 0 && IsMatrix(m, cols)
    ensures Contains(m, cols, MinTable(m, cols, size), MaxTable(m, cols, size), size)
  {
    forall i | 0 <= i < |m|
      ensures InItsBox(m, cols, MinTable(m, cols, size), MaxTable(m, cols, size), size, i)
    {
      FrameInItsBlock(|m|, size, i);
      forall j | 0 <= j < cols
        ensures MinTable(m, cols, size)[i / size][j] <= m[i][j] <= MaxTable(m, cols, size)[i / size][j]
      {
        FrameInBox(m, cols, size, i, j);
      }
    }
  }

  /** One frame and one feature of `LevelContains`. */
  lemma FrameInBox(m: Matrix, cols: nat, size: nat, i: nat, j: nat)
    requires size > 0 && IsMatrix(m, cols) && i < |m| && j < cols
    ensures i / size < |MinTable(m, cols, size)| &&
            MinTable(m, cols, size)[i / size][j] <= m[i][j] <= MaxTable(m, cols, size)[i / size][j]
  {
    var p := i / size;
    FrameInItsBlock(|m|, size, i);
    BlockBoundsContain(m, j, size, p, |m|, i);
  }

  /** The tables the builder fills after the last frame are the level of their block size. */
  lemma BuiltIsLevel(m: Matrix, bmin: array2<real>, bmax: array2<real>, size: nat)
    requires size > 0 && IsMatrix(m, bmin.Length1) && bmin.Length0 == BlockCount(|m|, size)
    requires Partial(m, bmin, bmax, size, |m|)
    ensures Cells(bmin) == MinTable(m, bmin.Length1, size) && Cells(bmax) == MaxTable(m, bmin.Length1, size)
  {
    MatrixEquality(Cells(bmin), MinTable(m, bmin.Length1, size), bmin.Length1);
    MatrixEquality(Cells(bmax), MaxTable(m, bmin.Length1, size), bmin.Length1);
  }

  /** As written, the tables of a clip whose feature falls from 1 to 0 miss its first frame. */
  lemma AsWrittenLevelMissesAFrame()
    ensures var m := [[1.0], [0.0]];
      var bmin := [[BlockMin(m, 0, SmallSize, 0, 2)]];
      var bmax := [[AsWrittenBlockMax(m, 0, SmallSize, 0, 2)]];
      !Contains(m, 1, bmin, bmax, SmallSize)
  {
    AsWrittenMaxMissesAFrame();
    var m := [[1.0], [0.0]];
    assert 0 / SmallSize == 0;
    assert !InItsBox(m, 1, [[BlockMin(m, 0, SmallSize, 0, 2)]], [[AsWrittenBlockMax(m, 0, SmallSize, 0, 2)]], SmallSize, 0);
  }
}
