/**
 * `motion_matching_search` (MotionMatchingDemo/database.h): the nearest feature vector to a
 * query, pruned by the bounding boxes of `Bounds`.
 *
 * The reference is the exhaustive scan `Exhaustive`: the frames of every range, in order,
 * each costed as transition cost plus squared distance and taken when strictly cheaper than the
 * best so far.  The pruned search computes exactly that whenever the boxes contain their frames.
 */
module Search {
  import opened Matrices
  import Bounds

  /** A candidate match: a frame index (-1 for none) and its cost. */
  datatype Best = Best(index: int, cost: real)

  /** Everything the scan compares against, fixed for one search. */
  datatype Context = Context(features: Matrix, query: seq<real>, transitionCost: real,
                             current: int, ignoreSurrounding: int)

  predicate ValidContext(ctx: Context) {
    IsMatrix(ctx.features, |ctx.query|)
  }

  function Abs(x: int): nat {
    if x < 0 then -x else x
  }

  /** `clampf` of common.h, which is not part of this model (`x > max ? max : x < min ? min : x`). */
  function ClampF(x: real, lo: real, hi: real): (r: real)
    ensures lo <= hi ==> lo <= r <= hi
    ensures lo <= x <= hi ==> r == x
  {
    if x > hi then hi else if x < lo then lo else x
  }

  // ---------------------------------------------------------------- distances

  /** The squared distance over the first `k` dimensions, summed in order. */
  function SqDistPrefix(q: seq<real>, p: seq<real>, k: nat): (d: real)
    requires k <= |q| && k <= |p|
    ensures d >= 0.0
  {
    if k == 0 then 0.0 else SqDistPrefix(q, p, k - 1) + Square(q[k - 1] - p[k - 1])
  }

  function SqDist(q: seq<real>, p: seq<real>): real
    requires |q| <= |p|
  {
    SqDistPrefix(q, p, |q|)
  }

  /** The point of the box `lo .. hi` nearest to `q`, one dimension at a time. */
  function ClampToBox(q: seq<real>, lo: seq<real>, hi: seq<real>): seq<real>
    requires |q| <= |lo| && |q| <= |hi|
  {
    seq(|q|, j requires 0 <= j < |q| => ClampF(q[j], lo[j], hi[j]))
  }

  /** Partial sums only grow: an early-out on a partial sum is an early-out on the whole. */
  lemma {:induction false} SqDistPrefixGrows(q: seq<real>, p: seq<real>, k: nat, n: nat)
    requires k <= n <= |q| && n <= |p|
    ensures SqDistPrefix(q, p, k) <= SqDistPrefix(q, p, n)
    decreases n
  {
    if k < n {
      SqDistPrefixGrows(q, p, k, n - 1);
    }
  }

  lemma SquareGrows(a: real, b: real)
    requires 0.0 <= a <= b
    ensures Square(a) <= Square(b)
  {
    assert Square(b) - Square(a) == (b - a) * (b + a);
    ProductIsNonNegative(b - a, b + a);
  }

  lemma ProductIsNonNegative(x: real, y: real)
    requires x >= 0.0 && y >= 0.0
    ensures x * y >= 0.0
  {
  }

  /** Clamping onto a box moves `x` no farther than any point `p` of the box is from `x`. */
  lemma ClampIsNearest(x: real, lo: real, hi: real, p: real)
    requires lo <= p <= hi
    ensures Square(x - ClampF(x, lo, hi)) <= Square(x - p)
  {
    if x > hi {
      SquareGrows(x - hi, x - p);
    } else if x < lo {
      SquareGrows(lo - x, p - x);
      assert Square(x - lo) == Square(lo - x);
      assert Square(x - p) == Square(p - x);
    }
  }

  /** The distance to a box bounds the distance to every point inside it from below. */
  lemma {:induction false} BoxDistIsLowerBound(q: seq<real>, lo: seq<real>, hi: seq<real>, p: seq<real>, k: nat)
    requires k <= |q| <= |lo| && |q| <= |hi| && |q| <= |p|
    requires forall j :: 0 <= j < |q| ==> lo[j] <= p[j] <= hi[j]
    ensures SqDistPrefix(q, ClampToBox(q, lo, hi), k) <= SqDistPrefix(q, p, k)
    decreases k
  {
    if k > 0 {
      BoxDistIsLowerBound(q, lo, hi, p, k - 1);
      ClampIsNearest(q[k - 1], lo[k - 1], hi[k - 1], p[k - 1]);
    }
  }

  // ---------------------------------------------------------------- the exhaustive scan

  /** The cost of matching frame `i`: transition cost plus squared feature distance. */
  function FrameCost(ctx: Context, i: nat): real
    requires ValidContext(ctx) && i < |ctx.features|
  {
    ctx.transitionCost + SqDist(ctx.query, ctx.features[i])
  }

  /** Frames near the current one are never candidates (when there is a current frame). */
  predicate Eligible(ctx: Context, i: int) {
    ctx.current == -1 || Abs(i - ctx.current) >= ctx.ignoreSurrounding
  }

  /** One frame of the scan: it replaces the best so far when eligible and strictly cheaper. */
  function Step(ctx: Context, best: Best, i: nat): Best
    requires ValidContext(ctx) && i < |ctx.features|
  {
    if Eligible(ctx, i) && FrameCost(ctx, i) < best.cost then Best(i, FrameCost(ctx, i)) else best
  }

  /** The scan of the frames `lo .. hi`, in order, from `best`. */
  function ScanFrames(ctx: Context, best: Best, lo: nat, hi: int): Best
    requires ValidContext(ctx) && hi <= |ctx.features|
    decreases hi
  {
    if hi <= lo then best else Step(ctx, ScanFrames(ctx, best, lo, hi - 1), hi - 1)
  }

  /** The searchable frames of a range stop `ignoreRangeEnd` frames before its end. */
  predicate ValidRanges(frames: nat, rangeStarts: seq<int>, rangeStops: seq<int>, ignoreRangeEnd: int) {
    |rangeStarts| == |rangeStops| &&
    forall r :: 0 <= r < |rangeStarts| ==> 0 <= rangeStarts[r] && rangeStops[r] - ignoreRangeEnd <= frames
  }

  /** The scan of the first `r` ranges, from `best`. */
  function ScanRanges(ctx: Context, rangeStarts: seq<int>, rangeStops: seq<int>, ignoreRangeEnd: int,
                      best: Best, r: nat): Best
    requires ValidContext(ctx) && ValidRanges(|ctx.features|, rangeStarts, rangeStops, ignoreRangeEnd) && r <= |rangeStarts|
  {
    if r == 0 then best
    else ScanFrames(ctx, ScanRanges(ctx, rangeStarts, rangeStops, ignoreRangeEnd, best, r - 1),
                    rangeStarts[r - 1], rangeStops[r - 1] - ignoreRangeEnd)
  }

  /**
   * The starting point: with a current frame, its plain squared distance (no transition cost);
   * without one, the caller's `bestCost`.
   */
  function Initial(ctx: Context, bestCost: real): Best
    requires ValidContext(ctx) && (ctx.current == -1 || 0 <= ctx.current < |ctx.features|)
  {
    if ctx.current != -1 then Best(ctx.current, SqDist(ctx.query, ctx.features[ctx.current]))
    else Best(-1, bestCost)
  }

  /** The result `motion_matching_search` promises. */
  function Exhaustive(ctx: Context, rangeStarts: seq<int>, rangeStops: seq<int>, ignoreRangeEnd: int,
                      bestCost: real): Best
    requires ValidContext(ctx) && ValidRanges(|ctx.features|, rangeStarts, rangeStops, ignoreRangeEnd)
    requires ctx.current == -1 || 0 <= ctx.current < |ctx.features|
  {
    ScanRanges(ctx, rangeStarts, rangeStops, ignoreRangeEnd, Initial(ctx, bestCost), |rangeStarts|)
  }

  // ---------------------------------------------------------------- properties of the scan

  /** Scanning `lo .. mid` and then `mid .. hi` is scanning `lo .. hi`. */
  lemma {:induction false} ScanFramesSplits(ctx: Context, best: Best, lo: nat, mid: nat, hi: int)
    requires ValidContext(ctx) && lo <= mid && mid <= hi <= |ctx.features|
    ensures ScanFrames(ctx, ScanFrames(ctx, best, lo, mid), mid, hi) == ScanFrames(ctx, best, lo, hi)
    decreases hi
  {
    if mid < hi {
      ScanFramesSplits(ctx, best, lo, mid, hi - 1);
    }
  }

  /** Frames that cannot beat the best so far leave the scan where it is. */
  lemma {:induction false} ScanSkipsCostlyFrames(ctx: Context, best: Best, lo: nat, hi: int)
    requires ValidContext(ctx) && hi <= |ctx.features|
    requires forall k :: lo <= k < hi ==> FrameCost(ctx, k) >= best.cost
    ensures ScanFrames(ctx, best, lo, hi) == best
    decreases hi
  {
    if lo < hi {
      ScanSkipsCostlyFrames(ctx, best, lo, hi - 1);
    }
  }

  /** The scan never gets worse, and ends no costlier than any eligible frame it visits. */
  lemma {:induction false} ScanFramesIsOptimal(ctx: Context, best: Best, lo: nat, hi: int)
    requires ValidContext(ctx) && hi <= |ctx.features|
    ensures ScanFrames(ctx, best, lo, hi).cost <= best.cost
    ensures forall k :: lo <= k < hi && Eligible(ctx, k) ==> ScanFrames(ctx, best, lo, hi).cost <= FrameCost(ctx, k)
    decreases hi
  {
    if lo < hi {
      ScanFramesIsOptimal(ctx, best, lo, hi - 1);
    }
  }

  /** The scan's result is where it started, or an eligible visited frame with its true cost. */
  lemma {:induction false} ScanFramesIsSound(ctx: Context, best: Best, lo: nat, hi: int)
    requires ValidContext(ctx) && hi <= |ctx.features|
    ensures var r := ScanFrames(ctx, best, lo, hi);
      r == best || (lo <= r.index < hi && Eligible(ctx, r.index) && r.cost == FrameCost(ctx, r.index))
    decreases hi
  {
    if lo < hi {
      ScanFramesIsSound(ctx, best, lo, hi - 1);
    }
  }

  /** Ties keep the earlier frame: a later frame only wins by being strictly cheaper. */
  lemma {:induction false} ScanFramesKeepsFirst(ctx: Context, best: Best, lo: nat, hi: int)
    requires ValidContext(ctx) && hi <= |ctx.features|
    ensures var r := ScanFrames(ctx, best, lo, hi);
      r != best ==>
        (r.cost < best.cost && lo <= r.index < hi &&
         forall k :: lo <= k < r.index && Eligible(ctx, k) ==> FrameCost(ctx, k) > r.cost)
    decreases hi
  {
    if lo < hi {
      ScanFramesKeepsFirst(ctx, best, lo, hi - 1);
      ScanFramesIsOptimal(ctx, best, lo, hi - 1);
      ScanFramesIsSound(ctx, best, lo, hi - 1);
    }
  }

  /** No searchable frame is cheaper than the result, which is never worse than the start. */
  lemma {:induction false} ExhaustiveIsOptimal(ctx: Context, rangeStarts: seq<int>, rangeStops: seq<int>,
                                               ignoreRangeEnd: int, best: Best, n: nat)
    requires ValidContext(ctx) && ValidRanges(|ctx.features|, rangeStarts, rangeStops, ignoreRangeEnd) && n <= |rangeStarts|
    ensures var r := ScanRanges(ctx, rangeStarts, rangeStops, ignoreRangeEnd, best, n);
      r.cost <= best.cost &&
      forall k ::
        (0 <= k < |ctx.features| && Eligible(ctx, k) &&
         exists q :: 0 <= q < n && rangeStarts[q] <= k < rangeStops[q] - ignoreRangeEnd) ==> r.cost <= FrameCost(ctx, k)
    decreases n
  {
    if n > 0 {
      var before := ScanRanges(ctx, rangeStarts, rangeStops, ignoreRangeEnd, best, n - 1);
      ExhaustiveIsOptimal(ctx, rangeStarts, rangeStops, ignoreRangeEnd, best, n - 1);
      ScanFramesIsOptimal(ctx, before, rangeStarts[n - 1], rangeStops[n - 1] - ignoreRangeEnd);
    }
  }

  /** The result is the starting point or a searchable frame, with its true cost. */
  lemma {:induction false} ExhaustiveIsSound(ctx: Context, rangeStarts: seq<int>, rangeStops: seq<int>,
                                             ignoreRangeEnd: int, best: Best, n: nat)
    requires ValidContext(ctx) && ValidRanges(|ctx.features|, rangeStarts, rangeStops, ignoreRangeEnd) && n <= |rangeStarts|
    ensures var r := ScanRanges(ctx, rangeStarts, rangeStops, ignoreRangeEnd, best, n);
      r == best || (0 <= r.index < |ctx.features| && r.cost == FrameCost(ctx, r.index) &&
                    Eligible(ctx, r.index) &&
                    exists q :: 0 <= q < n && rangeStarts[q] <= r.index < rangeStops[q] - ignoreRangeEnd)
    decreases n
  {
    if n > 0 {
      var before := ScanRanges(ctx, rangeStarts, rangeStops, ignoreRangeEnd, best, n - 1);
      ExhaustiveIsSound(ctx, rangeStarts, rangeStops, ignoreRangeEnd, best, n - 1);
      ScanFramesIsSound(ctx, before, rangeStarts[n - 1], rangeStops[n - 1] - ignoreRangeEnd);
    }
  }

  // ---------------------------------------------------------------- the pruned search

  function MinInt(a: int, b: int): int {
    if a < b then a else b
  }

  /** The context of a search over `features`. */
  ghost function SearchContext(features: array2<real>, query: seq<real>, transitionCost: real,
                               current: int, ignoreSurrounding: int): (ctx: Context)
    reads features
    ensures features.Length1 == |query| ==> ValidContext(ctx)
  {
    Context(Cells(features), query, transitionCost, current, ignoreSurrounding)
  }

  /** `ctx` is the content of the search's inputs. */
  ghost predicate Describes(ctx: Context, features: array2<real>, query: seq<real>, transitionCost: real,
                            current: int, ignoreSurrounding: int)
    reads features
  {
    ctx == SearchContext(features, query, transitionCost, current, ignoreSurrounding) &&
    features.Length1 == |query|
  }

  /** Both tables of a level of boxes have one row per block and one column per feature. */
  predicate LevelShape(frames: nat, cols: nat, bmin: array2<real>, bmax: array2<real>, size: nat)
    requires size > 0
  {
    bmin.Length0 == Bounds.BlockCount(frames, size) && bmax.Length0 == bmin.Length0 &&
    bmin.Length1 == cols && bmax.Length1 == cols
  }

  /** The boxes of a level contain every frame of their block. */
  ghost predicate LevelContains(ctx: Context, bmin: array2<real>, bmax: array2<real>, size: nat)
    reads bmin, bmax
    requires size > 0 && ValidContext(ctx)
  {
    Bounds.Contains(ctx.features, |ctx.query|, Cells(bmin), Cells(bmax), size)
  }

  /** Both levels of boxes contain their frames. */
  ghost predicate BoxesContain(ctx: Context, smMin: array2<real>, smMax: array2<real>,
                               lrMin: array2<real>, lrMax: array2<real>)
    reads smMin, smMax, lrMin, lrMax
    requires ValidContext(ctx)
  {
    LevelContains(ctx, smMin, smMax, Bounds.SmallSize) && LevelContains(ctx, lrMin, lrMax, Bounds.LargeSize)
  }

  /**
   * Whatever the boxes hold, a search step ends where it started or on an eligible frame of
   * `lo .. hi` with its true cost, and never costlier than where it started.
   */
  ghost predicate Improves(ctx: Context, start: Best, b: Best, lo: int, hi: int)
    requires ValidContext(ctx)
  {
    b.cost <= start.cost &&
    (b == start ||
     (0 <= lo <= b.index < hi && b.index < |ctx.features| && Eligible(ctx, b.index) &&
      b.cost == FrameCost(ctx, b.index)))
  }

  /** Frame `k` lies in the searchable part of one of the first `n` ranges. */
  predicate InRanges(rangeStarts: seq<int>, rangeStops: seq<int>, ignoreRangeEnd: int, k: int, n: nat)
    requires n <= |rangeStarts| && n <= |rangeStops|
  {
    n > 0 &&
    ((rangeStarts[n - 1] <= k < rangeStops[n - 1] - ignoreRangeEnd) ||
     InRanges(rangeStarts, rangeStops, ignoreRangeEnd, k, n - 1))
  }

  /** Frame `k` is eligible and lies in the searchable part of one of the first `n` ranges. */
  ghost predicate Searchable(ctx: Context, rangeStarts: seq<int>, rangeStops: seq<int>, ignoreRangeEnd: int,
                             k: int, n: nat)
    requires n <= |rangeStarts| && n <= |rangeStops|
  {
    0 <= k < |ctx.features| && Eligible(ctx, k) && InRanges(rangeStarts, rangeStops, ignoreRangeEnd, k, n)
  }

  /**
   * The outcome of a search of the first `n` ranges from `start`: `start` itself, or a
   * searchable frame with its true cost; never costlier than `start`.
   */
  ghost predicate FoundOrStart(ctx: Context, rangeStarts: seq<int>, rangeStops: seq<int>, ignoreRangeEnd: int,
                               start: Best, b: Best, n: nat)
    requires ValidContext(ctx) && n <= |rangeStarts| && n <= |rangeStops|
  {
    b.cost <= start.cost &&
    (b == start ||
     (Searchable(ctx, rangeStarts, rangeStops, ignoreRangeEnd, b.index, n) && b.cost == FrameCost(ctx, b.index)))
  }

  /** A step over range `r` keeps the search's result the start or a searchable frame with its true cost. */
  lemma FoundInNextRange(ctx: Context, rangeStarts: seq<int>, rangeStops: seq<int>, ignoreRangeEnd: int,
                         start: Best, before: Best, after: Best, r: nat)
    requires ValidContext(ctx) && r < |rangeStarts| && r < |rangeStops|
    requires FoundOrStart(ctx, rangeStarts, rangeStops, ignoreRangeEnd, start, before, r)
    requires Improves(ctx, before, after, rangeStarts[r], rangeStops[r] - ignoreRangeEnd)
    ensures FoundOrStart(ctx, rangeStarts, rangeStops, ignoreRangeEnd, start, after, r + 1)
  {
    if after != before {
      assert rangeStarts[r] <= after.index < rangeStops[r] - ignoreRangeEnd;
    }
  }

  /**
   * A frame's cost with the source's early-out: the sum stops as soon as it reaches `best`.
   * The result is below `best` exactly when the full cost is, and is then the full cost.
   */
  method AccumulateFrameCost(features: array2<real>, i: nat, query: seq<real>, init: real, best: real)
      returns (cost: real)
    requires i < features.Length0 && |query| <= features.Length1
    ensures cost < best <==> init + SqDist(query, Cells(features)[i]) < best
    ensures cost < best ==> cost == init + SqDist(query, Cells(features)[i])
  {
    ghost var row := Cells(features)[i];
    cost := init;
    var j := 0;
    while j < |query|
      invariant 0 <= j <= |query|
      invariant cost == init + SqDistPrefix(query, row, j)
    {
      cost := cost + Square(query[j] - features[i, j]);
      if cost >= best {
        SqDistPrefixGrows(query, row, j + 1, |query|);
        return;
      }
      j := j + 1;
    }
  }

  /** The distance from the query to box `b`, with the same early-out. */
  method AccumulateBoxCost(bmin: array2<real>, bmax: array2<real>, b: nat, query: seq<real>, init: real, best: real)
      returns (cost: real)
    requires b < bmin.Length0 && b < bmax.Length0 && |query| <= bmin.Length1 && |query| <= bmax.Length1
    ensures cost >= best <==> init + SqDist(query, ClampToBox(query, Cells(bmin)[b], Cells(bmax)[b])) >= best
  {
    ghost var nearest := ClampToBox(query, Cells(bmin)[b], Cells(bmax)[b]);
    cost := init;
    var j := 0;
    while j < |query|
      invariant 0 <= j <= |query|
      invariant cost == init + SqDistPrefix(query, nearest, j)
    {
      assert nearest[j] == ClampF(query[j], bmin[b, j], bmax[b, j]);
      cost := cost + Square(query[j] - ClampF(query[j], bmin[b, j], bmax[b, j]));
      if cost >= best {
        SqDistPrefixGrows(query, nearest, j + 1, |query|);
        return;
      }
      j := j + 1;
    }
  }

  /**
   * Pruning is sound: when the distance to the box of block `b` already reaches the best cost,
   * no frame of that block inside `lo .. hi` changes the scan.
   */
  lemma PruneBlock(ctx: Context, bmin: Matrix, bmax: Matrix, size: nat, b: nat, best: Best, lo: nat, hi: int)
    requires size > 0 && ValidContext(ctx) && hi <= |ctx.features|
    requires Bounds.Contains(ctx.features, |ctx.query|, bmin, bmax, size) && b < |bmin|
    requires forall k :: lo <= k < hi ==> k / size == b
    requires ctx.transitionCost + SqDist(ctx.query, ClampToBox(ctx.query, bmin[b], bmax[b])) >= best.cost
    ensures ScanFrames(ctx, best, lo, hi) == best
  {
    forall k | lo <= k < hi
      ensures FrameCost(ctx, k) >= best.cost
    {
      assert Bounds.InItsBox(ctx.features, |ctx.query|, bmin, bmax, size, k);
      BoxDistIsLowerBound(ctx.query, bmin[b], bmax[b], ctx.features[k], |ctx.query|);
    }
    ScanSkipsCostlyFrames(ctx, best, lo, hi);
  }

  /** The frames from `i` up to the next small box all belong to `i`'s small box, which lies in its large box. */
  lemma SmallBlockOf(i: nat)
    ensures i < (i / Bounds.SmallSize + 1) * Bounds.SmallSize <= (i / Bounds.LargeSize + 1) * Bounds.LargeSize
    ensures forall k :: i <= k < (i / Bounds.SmallSize + 1) * Bounds.SmallSize ==> k / Bounds.SmallSize == i / Bounds.SmallSize
  {
  }

  /** The frames from `i` up to the next large box all belong to `i`'s large box. */
  lemma LargeBlockOf(i: nat)
    ensures i < (i / Bounds.LargeSize + 1) * Bounds.LargeSize
    ensures forall k :: i <= k < (i / Bounds.LargeSize + 1) * Bounds.LargeSize ==> k / Bounds.LargeSize == i / Bounds.LargeSize
  {
  }

  /** The innermost loop: the frames of one small box, `i0 .. min(next, end)`. */
  method ScanSmallBox(ghost ctx: Context, features: array2<real>, query: seq<real>, transitionCost: real,
                      current: int, ignoreSurrounding: int, i0: nat, next: int, end: int, bi: int, bc: real)
      returns (i: int, bestIndex: int, bestCost: real)
    requires Describes(ctx, features, query, transitionCost, current, ignoreSurrounding)
    requires end <= features.Length0
    ensures i == if i0 < MinInt(next, end) then MinInt(next, end) else i0
    ensures Best(bestIndex, bestCost) == ScanFrames(ctx, Best(bi, bc), i0, MinInt(next, end))
  {
    i, bestIndex, bestCost := i0, bi, bc;
    while i < next && i < end
      invariant if i0 < MinInt(next, end) then i0 <= i <= MinInt(next, end) else i == i0
      invariant Best(bestIndex, bestCost) == ScanFrames(ctx, Best(bi, bc), i0, MinInt(i, end))
    {
      if current != -1 && Abs(i - current) < ignoreSurrounding {
        i := i + 1;
      } else {
        var cost := AccumulateFrameCost(features, i, query, transitionCost, bestCost);
        if cost < bestCost {
          bestIndex, bestCost := i, cost;
        }
        i := i + 1;
      }
    }
  }

  /**
   * One turn of the loop over small boxes: the box of frame `i0` is pruned when its distance
   * reaches the best cost, and otherwise scanned frame by frame, up to `min(next small box, end)`.
   */
  method SmallBoxStep(ghost ctx: Context, features: array2<real>, smMin: array2<real>, smMax: array2<real>,
                      query: seq<real>, transitionCost: real, current: int, ignoreSurrounding: int,
                      i0: nat, end: int, bi: int, bc: real, ghost sound: bool)
      returns (i: int, bestIndex: int, bestCost: real)
    requires Describes(ctx, features, query, transitionCost, current, ignoreSurrounding)
    requires LevelShape(features.Length0, |query|, smMin, smMax, Bounds.SmallSize)
    requires i0 < end <= features.Length0
    requires sound ==> LevelContains(ctx, smMin, smMax, Bounds.SmallSize)
    ensures i == (i0 / Bounds.SmallSize + 1) * Bounds.SmallSize || i == end
    ensures i0 < i && MinInt(i, end) == MinInt((i0 / Bounds.SmallSize + 1) * Bounds.SmallSize, end)
    ensures Improves(ctx, Best(bi, bc), Best(bestIndex, bestCost), i0, end)
    ensures sound ==>
              Best(bestIndex, bestCost) == ScanFrames(ctx, Best(bi, bc), i0, MinInt(i, end))
  {
    var iSm := i0 / Bounds.SmallSize;
    var iSmNext := (iSm + 1) * Bounds.SmallSize;
    Bounds.FrameInItsBlock(features.Length0, Bounds.SmallSize, i0);
    SmallBlockOf(i0);
    var cost := AccumulateBoxCost(smMin, smMax, iSm, query, transitionCost, bc);
    if cost >= bc {
      if sound {
        PruneBlock(ctx, Cells(smMin), Cells(smMax), Bounds.SmallSize, iSm, Best(bi, bc), i0, MinInt(iSmNext, end));
      }
      i, bestIndex, bestCost := iSmNext, bi, bc;
    } else {
      i, bestIndex, bestCost := ScanSmallBox(ctx, features, query, transitionCost, current, ignoreSurrounding,
                                             i0, iSmNext, end, bi, bc);
      ScanFramesIsSound(ctx, Best(bi, bc), i0, MinInt(iSmNext, end));
      ScanFramesIsOptimal(ctx, Best(bi, bc), i0, MinInt(iSmNext, end));
    }
  }

  /** The loop over the small boxes inside one large box, `i0 .. min(nextLarge, end)`. */
  method ScanLargeBox(ghost ctx: Context, features: array2<real>, smMin: array2<real>, smMax: array2<real>,
                      query: seq<real>, transitionCost: real, current: int, ignoreSurrounding: int,
                      i0: nat, nextLarge: int, end: int, bi: int, bc: real, ghost sound: bool)
      returns (i: int, bestIndex: int, bestCost: real)
    requires Describes(ctx, features, query, transitionCost, current, ignoreSurrounding)
    requires LevelShape(features.Length0, |query|, smMin, smMax, Bounds.SmallSize)
    requires end <= features.Length0 && i0 < end && nextLarge == (i0 / Bounds.LargeSize + 1) * Bounds.LargeSize
    requires sound ==> LevelContains(ctx, smMin, smMax, Bounds.SmallSize)
    ensures i0 <= i && MinInt(i, end) == MinInt(nextLarge, end)
    ensures Improves(ctx, Best(bi, bc), Best(bestIndex, bestCost), i0, end)
    ensures sound ==>
              Best(bestIndex, bestCost) == ScanFrames(ctx, Best(bi, bc), i0, MinInt(nextLarge, end))
  {
    i, bestIndex, bestCost := i0, bi, bc;
    while i < nextLarge && i < end
      invariant i0 <= i <= nextLarge
      invariant Improves(ctx, Best(bi, bc), Best(bestIndex, bestCost), i0, end)
      invariant sound ==>
                  Best(bestIndex, bestCost) == ScanFrames(ctx, Best(bi, bc), i0, MinInt(i, end))
      decreases end - i
    {
      ghost var i1, before := i, Best(bestIndex, bestCost);
      SmallBlockOf(i);
      LargeBlockOf(i0);
      assert (i / Bounds.SmallSize + 1) * Bounds.SmallSize <= nextLarge;
      i, bestIndex, bestCost := SmallBoxStep(ctx, features, smMin, smMax, query, transitionCost, current,
                                             ignoreSurrounding, i, end, bestIndex, bestCost, sound);
      if sound {
        ScanFramesSplits(ctx, Best(bi, bc), i0, i1, MinInt(i, end));
      }
    }
  }

  /** One turn of the loop over large boxes, like `SmallBoxStep` one level up. */
  method LargeBoxStep(ghost ctx: Context, features: array2<real>, smMin: array2<real>, smMax: array2<real>,
                      lrMin: array2<real>, lrMax: array2<real>,
                      query: seq<real>, transitionCost: real, current: int, ignoreSurrounding: int,
                      i0: nat, end: int, bi: int, bc: real, ghost sound: bool)
      returns (i: int, bestIndex: int, bestCost: real)
    requires Describes(ctx, features, query, transitionCost, current, ignoreSurrounding)
    requires LevelShape(features.Length0, |query|, smMin, smMax, Bounds.SmallSize)
    requires LevelShape(features.Length0, |query|, lrMin, lrMax, Bounds.LargeSize)
    requires i0 < end <= features.Length0
    requires sound ==> BoxesContain(ctx, smMin, smMax, lrMin, lrMax)
    ensures i0 < i && MinInt(i, end) == MinInt((i0 / Bounds.LargeSize + 1) * Bounds.LargeSize, end)
    ensures Improves(ctx, Best(bi, bc), Best(bestIndex, bestCost), i0, end)
    ensures sound ==>
              Best(bestIndex, bestCost) == ScanFrames(ctx, Best(bi, bc), i0, MinInt(i, end))
  {
    var iLr := i0 / Bounds.LargeSize;
    var iLrNext := (iLr + 1) * Bounds.LargeSize;
    Bounds.FrameInItsBlock(features.Length0, Bounds.LargeSize, i0);
    LargeBlockOf(i0);
    var cost := AccumulateBoxCost(lrMin, lrMax, iLr, query, transitionCost, bc);
    if cost >= bc {
      if sound {
        PruneBlock(ctx, Cells(lrMin), Cells(lrMax), Bounds.LargeSize, iLr, Best(bi, bc), i0, MinInt(iLrNext, end));
      }
      i, bestIndex, bestCost := iLrNext, bi, bc;
    } else {
      i, bestIndex, bestCost := ScanLargeBox(ctx, features, smMin, smMax, query, transitionCost, current,
                                             ignoreSurrounding, i0, iLrNext, end, bi, bc, sound);
    }
  }

  /** The search of one range's frames `start .. end`, large box by large box. */
  method SearchRange(ghost ctx: Context, features: array2<real>, smMin: array2<real>, smMax: array2<real>,
                     lrMin: array2<real>, lrMax: array2<real>,
                     query: seq<real>, transitionCost: real, current: int, ignoreSurrounding: int,
                     start: nat, end: int, bi: int, bc: real, ghost sound: bool)
      returns (bestIndex: int, bestCost: real)
    requires Describes(ctx, features, query, transitionCost, current, ignoreSurrounding)
    requires LevelShape(features.Length0, |query|, smMin, smMax, Bounds.SmallSize)
    requires LevelShape(features.Length0, |query|, lrMin, lrMax, Bounds.LargeSize)
    requires end <= features.Length0
    requires sound ==> BoxesContain(ctx, smMin, smMax, lrMin, lrMax)
    ensures Improves(ctx, Best(bi, bc), Best(bestIndex, bestCost), start, end)
    ensures sound ==>
              Best(bestIndex, bestCost) == ScanFrames(ctx, Best(bi, bc), start, end)
  {
    var i: int := start;
    bestIndex, bestCost := bi, bc;
    while i < end
      invariant start <= i
      invariant Improves(ctx, Best(bi, bc), Best(bestIndex, bestCost), start, end)
      invariant sound ==>
                  Best(bestIndex, bestCost) == ScanFrames(ctx, Best(bi, bc), start, MinInt(i, end))
      decreases end - i
    {
      ghost var i1 := i;
      i, bestIndex, bestCost := LargeBoxStep(ctx, features, smMin, smMax, lrMin, lrMax, query, transitionCost,
                                             current, ignoreSurrounding, i, end, bestIndex, bestCost, sound);
      if sound {
        ScanFramesSplits(ctx, Best(bi, bc), start, i1, MinInt(i, end));
      }
    }
  }

  /** The loop over the ranges, from the best match `bi`, `bc` so far. */
  method SearchRanges(ghost ctx: Context, features: array2<real>, smMin: array2<real>, smMax: array2<real>,
                      lrMin: array2<real>, lrMax: array2<real>, rangeStarts: seq<int>, rangeStops: seq<int>,
                      query: seq<real>, transitionCost: real, current: int, ignoreRangeEnd: int, ignoreSurrounding: int,
                      bi: int, bc: real, ghost sound: bool)
      returns (bestIndex: int, bestCost: real)
    requires Describes(ctx, features, query, transitionCost, current, ignoreSurrounding)
    requires ValidRanges(features.Length0, rangeStarts, rangeStops, ignoreRangeEnd)
    requires LevelShape(features.Length0, |query|, smMin, smMax, Bounds.SmallSize)
    requires LevelShape(features.Length0, |query|, lrMin, lrMax, Bounds.LargeSize)
    requires sound ==> BoxesContain(ctx, smMin, smMax, lrMin, lrMax)
    ensures FoundOrStart(ctx, rangeStarts, rangeStops, ignoreRangeEnd, Best(bi, bc), Best(bestIndex, bestCost),
                         |rangeStarts|)
    ensures sound ==>
              Best(bestIndex, bestCost) == ScanRanges(ctx, rangeStarts, rangeStops, ignoreRangeEnd, Best(bi, bc), |rangeStarts|)
  {
    bestIndex, bestCost := bi, bc;
    for r := 0 to |rangeStarts|
      invariant FoundOrStart(ctx, rangeStarts, rangeStops, ignoreRangeEnd, Best(bi, bc), Best(bestIndex, bestCost), r)
      invariant sound ==>
                  Best(bestIndex, bestCost) == ScanRanges(ctx, rangeStarts, rangeStops, ignoreRangeEnd, Best(bi, bc), r)
    {
      assert 0 <= rangeStarts[r];
      ghost var before := Best(bestIndex, bestCost);
      bestIndex, bestCost := SearchRange(ctx, features, smMin, smMax, lrMin, lrMax, query, transitionCost, current,
                                         ignoreSurrounding, rangeStarts[r], rangeStops[r] - ignoreRangeEnd,
                                         bestIndex, bestCost, sound);
      FoundInNextRange(ctx, rangeStarts, rangeStops, ignoreRangeEnd, Best(bi, bc), before, Best(bestIndex, bestCost), r);
      assert ScanRanges(ctx, rangeStarts, rangeStops, ignoreRangeEnd, Best(bi, bc), r + 1)
          == ScanFrames(ctx, ScanRanges(ctx, rangeStarts, rangeStops, ignoreRangeEnd, Best(bi, bc), r),
                        rangeStarts[r], rangeStops[r] - ignoreRangeEnd);
    }
  }

  /** The squared distance from the query to frame `index`, summed without an early-out. */
  method CurrentCost(features: array2<real>, index: nat, query: seq<real>) returns (cost: real)
    requires index < features.Length0 && |query| <= features.Length1
    ensures cost == SqDist(query, Cells(features)[index])
  {
    ghost var row := Cells(features)[index];
    cost := 0.0;
    for j := 0 to |query|
      invariant cost == SqDistPrefix(query, row, j)
    {
      cost := cost + Square(query[j] - features[index, j]);
    }
  }

  /**
   * `motion_matching_search`: from the current frame `bestIndex0` (or none, -1) and its cost,
   * the cheapest eligible frame of the ranges.  Whatever the boxes hold, the result is the
   * starting point or a searchable frame with its true cost, never costlier than the start;
   * whenever both levels of boxes contain their frames, it is exactly that of the exhaustive scan.
   */
  method MotionMatchingSearch(features: array2<real>, smMin: array2<real>, smMax: array2<real>,
                              lrMin: array2<real>, lrMax: array2<real>,
                              rangeStarts: seq<int>, rangeStops: seq<int>, query: seq<real>,
                              transitionCost: real, ignoreRangeEnd: int, ignoreSurrounding: int,
                              bestIndex0: int, bestCost0: real)
      returns (bestIndex: int, bestCost: real)
    requires features.Length1 == |query|
    requires bestIndex0 == -1 || 0 <= bestIndex0 < features.Length0
    requires ValidRanges(features.Length0, rangeStarts, rangeStops, ignoreRangeEnd)
    requires LevelShape(features.Length0, |query|, smMin, smMax, Bounds.SmallSize)
    requires LevelShape(features.Length0, |query|, lrMin, lrMax, Bounds.LargeSize)
    ensures var ctx := SearchContext(features, query, transitionCost, bestIndex0, ignoreSurrounding);
      FoundOrStart(ctx, rangeStarts, rangeStops, ignoreRangeEnd, Initial(ctx, bestCost0), Best(bestIndex, bestCost),
                   |rangeStarts|)
    ensures var ctx := SearchContext(features, query, transitionCost, bestIndex0, ignoreSurrounding);
      BoxesContain(ctx, smMin, smMax, lrMin, lrMax) ==>
        Best(bestIndex, bestCost) == Exhaustive(ctx, rangeStarts, rangeStops, ignoreRangeEnd, bestCost0)
  {
    ghost var ctx := SearchContext(features, query, transitionCost, bestIndex0, ignoreSurrounding);
    ghost var sound := BoxesContain(ctx, smMin, smMax, lrMin, lrMax);
    var currIndex := bestIndex0;
    var startCost := bestCost0;
    if bestIndex0 != -1 {
      startCost := CurrentCost(features, bestIndex0, query);
    }
    assert Best(bestIndex0, startCost) == Initial(ctx, bestCost0);
    bestIndex, bestCost := SearchRanges(ctx, features, smMin, smMax, lrMin, lrMax, rangeStarts, rangeStops, query,
                                        transitionCost, currIndex, ignoreRangeEnd, ignoreSurrounding,
                                        bestIndex0, startCost, sound);
  }
}
