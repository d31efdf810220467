/**
 * Animation clips as frame ranges, and `database_trajectory_index_clamp`
 * (MotionMatchingDemo/database.h): a future-frame lookup never leaves the clip it starts in.
 *
 * Range `r` owns the frames `rangeStarts[r] <= frame < rangeStops[r]`.
 */
module Ranges {

  /**
   * Integer `clamp` of common.h, which is not part of this model
   * (`x < min ? min : x > max ? max : x`).
   */
  function Clamp(x: int, lo: int, hi: int): (r: int)
    ensures lo <= hi ==> lo <= r <= hi
    ensures lo <= x <= hi ==> r == x
    ensures x < lo ==> r == lo
    ensures lo <= hi && hi < x ==> r == hi
  {
    if x < lo then lo else if x > hi then hi else x
  }

  /** Range `r` owns `frame`. */
  predicate Owns(rangeStarts: seq<int>, rangeStops: seq<int>, r: nat, frame: int) {
    r < |rangeStarts| && r < |rangeStops| && rangeStarts[r] <= frame < rangeStops[r]
  }

  /** `r` is the first range that owns `frame`. */
  predicate FirstOwner(rangeStarts: seq<int>, rangeStops: seq<int>, r: nat, frame: int)
    requires |rangeStarts| == |rangeStops|
  {
    r < |rangeStarts| && Owns(rangeStarts, rangeStops, r, frame) &&
    forall q :: 0 <= q < r ==> !Owns(rangeStarts, rangeStops, q, frame)
  }

  /** No two ranges share a frame. */
  ghost predicate Disjoint(rangeStarts: seq<int>, rangeStops: seq<int>)
    requires |rangeStarts| == |rangeStops|
  {
    forall q, r, frame ::
      0 <= q < r < |rangeStarts| && Owns(rangeStarts, rangeStops, q, frame) ==> !Owns(rangeStarts, rangeStops, r, frame)
  }

  /**
   * `database_trajectory_index_clamp`: `frame + offset`, clamped into the first range owning
   * `frame`.  A frame owned by no range reaches the source's `assert(false)`; past it the source
   * returns -1, and so does this model.
   */
  method TrajectoryIndexClamp(rangeStarts: seq<int>, rangeStops: seq<int>, frame: int, offset: int)
      returns (index: int)
    requires |rangeStarts| == |rangeStops|
    ensures forall r: nat :: FirstOwner(rangeStarts, rangeStops, r, frame) ==>
              index == Clamp(frame + offset, rangeStarts[r], rangeStops[r] - 1)
    ensures (forall r :: 0 <= r < |rangeStarts| ==> !Owns(rangeStarts, rangeStops, r, frame)) ==> index == -1
  {
    var i := 0;
    while i < |rangeStarts|
      invariant 0 <= i <= |rangeStarts|
      invariant forall q :: 0 <= q < i ==> !Owns(rangeStarts, rangeStops, q, frame)
    {
      if frame >= rangeStarts[i] && frame < rangeStops[i] {
        assert FirstOwner(rangeStarts, rangeStops, i, frame);
        forall r: nat | FirstOwner(rangeStarts, rangeStops, r, frame)
          ensures r == i
        {
          FirstOwnerIsUnique(rangeStarts, rangeStops, r, i, frame);
        }
        return Clamp(frame + offset, rangeStarts[i], rangeStops[i] - 1);
      }
      i := i + 1;
    }
    assert forall r: nat :: !FirstOwner(rangeStarts, rangeStops, r, frame);
    return -1;
  }

  /** The first owner is unique. */
  lemma FirstOwnerIsUnique(rangeStarts: seq<int>, rangeStops: seq<int>, q: nat, r: nat, frame: int)
    requires |rangeStarts| == |rangeStops|
    requires FirstOwner(rangeStarts, rangeStops, q, frame) && FirstOwner(rangeStarts, rangeStops, r, frame)
    ensures q == r
  {
  }

  /**
   * The clip-boundary guarantee: whatever the offset, negative or beyond the clip's length,
   * the clamped index stays inside the range that owns `frame`.
   */
  lemma ClampStaysInOwner(rangeStarts: seq<int>, rangeStops: seq<int>, r: nat, frame: int, offset: int)
    requires |rangeStarts| == |rangeStops| && r < |rangeStarts|
    requires Owns(rangeStarts, rangeStops, r, frame)
    ensures Owns(rangeStarts, rangeStops, r, Clamp(frame + offset, rangeStarts[r], rangeStops[r] - 1))
  {
  }

  /** With disjoint ranges every owner is the first one, so the clamp uses the frame's own clip. */
  lemma {:induction false} OwnerIsFirstWhenDisjoint(rangeStarts: seq<int>, rangeStops: seq<int>, r: nat, frame: int)
    requires |rangeStarts| == |rangeStops| && r < |rangeStarts|
    requires Disjoint(rangeStarts, rangeStops) && Owns(rangeStarts, rangeStops, r, frame)
    ensures FirstOwner(rangeStarts, rangeStops, r, frame)
  {
    forall q | 0 <= q < r
      ensures !Owns(rangeStarts, rangeStops, q, frame)
    {
      assert Owns(rangeStarts, rangeStops, q, frame) ==> !Owns(rangeStarts, rangeStops, r, frame);
    }
  }
}
