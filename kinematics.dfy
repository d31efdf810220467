/**
 * Forward kinematics over a parent-index array (MotionMatchingDemo/database.h).
 *
 * Every traversal of the source composes a parent's global value with a bone's local value,
 * walking towards the root.  Here the composition is a parameter `compose(parentGlobal, local)`,
 * so that the agreement of the traversals depends only on the traversal order and the
 * `computed` flags.  The two compositions the source uses (position/rotation and
 * position/velocity/rotation/angular velocity) are built from the quaternion product and the
 * quaternion-vector rotation of quat.h, which are parameters as well.
 */
module Kinematics {
  import opened Vectors

  /** Bones are sorted from the root onwards: a parent is -1 (none) or an earlier bone. */
  predicate ValidParents(parents: seq<int>) {
    forall i :: 0 <= i < |parents| ==> -1 <= parents[i] < i
  }

  /** The global value of `bone`: its local value composed with its parent's global value. */
  function Global<T>(compose: (T, T) -> T, local: seq<T>, parents: seq<int>, bone: nat): T
    requires ValidParents(parents) && |local| == |parents| && bone < |parents|
    decreases bone
  {
    if parents[bone] == -1 then local[bone]
    else compose(Global(compose, local, parents, parents[bone]), local[bone])
  }

  /** `a` lies on the parent chain from `b` to the root (`b` included). */
  predicate IsAncestorOrSelf(parents: seq<int>, a: int, b: nat)
    requires ValidParents(parents) && b < |parents|
    decreases b
  {
    a == b || (parents[b] != -1 && IsAncestorOrSelf(parents, a, parents[b]))
  }

  /** The parent chain only goes backwards, so every ancestor comes no later than its bone. */
  lemma {:induction false} AncestorIsEarlier(parents: seq<int>, a: int, b: nat)
    requires ValidParents(parents) && b < |parents|
    requires IsAncestorOrSelf(parents, a, b)
    ensures 0 <= a <= b
    decreases b
  {
    if a != b {
      AncestorIsEarlier(parents, a, parents[b]);
    }
  }

  /** A bone's global value depends on the local values of its ancestors and of nothing else. */
  lemma {:induction false} GlobalDependsOnAncestorsOnly<T>(compose: (T, T) -> T, local1: seq<T>, local2: seq<T>,
                                                           parents: seq<int>, bone: nat)
    requires ValidParents(parents) && |local1| == |parents| && |local2| == |parents| && bone < |parents|
    requires forall a :: 0 <= a < |parents| && IsAncestorOrSelf(parents, a, bone) ==> local1[a] == local2[a]
    ensures Global(compose, local1, parents, bone) == Global(compose, local2, parents, bone)
    decreases bone
  {
    if parents[bone] != -1 {
      var p := parents[bone];
      forall a | 0 <= a < |parents| && IsAncestorOrSelf(parents, a, p)
        ensures IsAncestorOrSelf(parents, a, bone)
      {
      }
      GlobalDependsOnAncestorsOnly(compose, local1, local2, parents, p);
    }
  }

  // ---------------------------------------------------------------- the two compositions

  /** `quat_mul` and `quat_mul_vec3` of quat.h, which is not part of this model. */
  datatype QuatOps<!Q> = QuatOps(mul: (Q, Q) -> Q, rotate: (Q, Vec3) -> Vec3)

  /** A bone's position and rotation. */
  datatype Transform<Q> = Transform(position: Vec3, rotation: Q)

  /** A bone's position, linear velocity, rotation and angular velocity. */
  datatype Motion<Q> = Motion(position: Vec3, velocity: Vec3, rotation: Q, angularVelocity: Vec3)

  /**
   * The composition of `forward_kinematics`, `_full` and `_partial`: the child's rotation is the
   * parent's rotation followed by the local one, and the child sits at its local offset, turned
   * by the parent's rotation, away from the parent.
   */
  function ComposeTransform<Q>(ops: QuatOps<Q>, parent: Transform<Q>, local: Transform<Q>): (r: Transform<Q>)
    ensures r.rotation == ops.mul(parent.rotation, local.rotation)
    ensures Sub(r.position, parent.position) == ops.rotate(parent.rotation, local.position)
  {
    Transform(Add(ops.rotate(parent.rotation, local.position), parent.position),
              ops.mul(parent.rotation, local.rotation))
  }

  /**
   * The composition of `forward_kinematics_velocity` and `_velocity_partial`.  Its position and
   * rotation are those of `ComposeTransform`; the child's velocity exceeds the parent's by the
   * rotated local velocity plus the parent's angular velocity crossed with the rotated offset.
   */
  function ComposeMotion<Q>(ops: QuatOps<Q>, parent: Motion<Q>, local: Motion<Q>): (r: Motion<Q>)
    ensures ToTransform(r) == ComposeTransform(ops, ToTransform(parent), ToTransform(local))
    ensures Sub(r.velocity, parent.velocity)
         == Add(ops.rotate(parent.rotation, local.velocity),
                Cross(parent.angularVelocity, ops.rotate(parent.rotation, local.position)))
  {
    var rotatedPosition := ops.rotate(parent.rotation, local.position);
    Motion(Add(rotatedPosition, parent.position),
           Add(Add(parent.velocity, ops.rotate(parent.rotation, local.velocity)),
               Cross(parent.angularVelocity, rotatedPosition)),
           ops.mul(parent.rotation, local.rotation),
           ops.rotate(parent.rotation, Add(local.angularVelocity, parent.angularVelocity)))
  }

  function TransformComposer<Q>(ops: QuatOps<Q>): (Transform<Q>, Transform<Q>) -> Transform<Q> {
    (parent, local) => ComposeTransform(ops, parent, local)
  }

  function MotionComposer<Q>(ops: QuatOps<Q>): (Motion<Q>, Motion<Q>) -> Motion<Q> {
    (parent, local) => ComposeMotion(ops, parent, local)
  }

  function ToTransform<Q>(m: Motion<Q>): Transform<Q> {
    Transform(m.position, m.rotation)
  }

  function ToTransforms<Q>(ms: seq<Motion<Q>>): seq<Transform<Q>> {
    seq(|ms|, i requires 0 <= i < |ms| => ToTransform(ms[i]))
  }

  /**
   * Recursive `forward_kinematics`: a root's global transform is its local one, any other
   * bone's is its local transform composed onto its parent's global transform.
   */
  function ForwardKinematics<Q>(ops: QuatOps<Q>, local: seq<Transform<Q>>, parents: seq<int>, bone: nat): (r: Transform<Q>)
    requires ValidParents(parents) && |local| == |parents| && bone < |parents|
    ensures parents[bone] == -1 ==> r == local[bone]
    ensures parents[bone] != -1 ==>
      r == ComposeTransform(ops, ForwardKinematics(ops, local, parents, parents[bone]), local[bone])
    decreases bone
  {
    Global(TransformComposer(ops), local, parents, bone)
  }

  /**
   * Recursive `forward_kinematics_velocity`: the same recursion over `ComposeMotion`.
   */
  function ForwardKinematicsVelocity<Q>(ops: QuatOps<Q>, local: seq<Motion<Q>>, parents: seq<int>, bone: nat): (r: Motion<Q>)
    requires ValidParents(parents) && |local| == |parents| && bone < |parents|
    ensures parents[bone] == -1 ==> r == local[bone]
    ensures parents[bone] != -1 ==>
      r == ComposeMotion(ops, ForwardKinematicsVelocity(ops, local, parents, parents[bone]), local[bone])
    decreases bone
  {
    Global(MotionComposer(ops), local, parents, bone)
  }

  /** A root bone's global value is its local value, in both recursive traversals. */
  lemma RootIsLocal<Q>(ops: QuatOps<Q>, localT: seq<Transform<Q>>, localM: seq<Motion<Q>>, parents: seq<int>, bone: nat)
    requires ValidParents(parents) && |localT| == |parents| && |localM| == |parents| && bone < |parents|
    requires parents[bone] == -1
    ensures ForwardKinematics(ops, localT, parents, bone) == localT[bone]
    ensures ForwardKinematicsVelocity(ops, localM, parents, bone) == localM[bone]
  {
  }

  /**
   * The velocity traversal computes the same positions and rotations as the plain one: the
   * extra velocity terms never feed back into them.
   */
  lemma {:induction false} VelocityTraversalAgrees<Q>(ops: QuatOps<Q>, local: seq<Motion<Q>>, parents: seq<int>, bone: nat)
    requires ValidParents(parents) && |local| == |parents| && bone < |parents|
    ensures ToTransform(ForwardKinematicsVelocity(ops, local, parents, bone))
         == ForwardKinematics(ops, ToTransforms(local), parents, bone)
    decreases bone
  {
    if parents[bone] != -1 {
      VelocityTraversalAgrees(ops, local, parents, parents[bone]);
    }
  }

  // ---------------------------------------------------------------- the array traversals

  /**
   * `forward_kinematics_full` (and, with `MotionComposer`, its velocity counterpart): one
   * forward pass fills every bone's global value, each parent being ready before its children.
   */
  method ForwardKinematicsFull<T>(compose: (T, T) -> T, global: array<T>, local: seq<T>, parents: seq<int>)
    requires ValidParents(parents) && |local| == |parents| && global.Length == |parents|
    modifies global
    ensures forall b :: 0 <= b < global.Length ==> global[b] == Global(compose, local, parents, b)
  {
    for i := 0 to |parents|
      invariant forall b :: 0 <= b < i ==> global[b] == Global(compose, local, parents, b)
    {
      if parents[i] == -1 {
        global[i] := local[i];
      } else {
        global[i] := compose(global[parents[i]], local[i]);
      }
    }
  }

  /** Every bone marked computed holds its true global value. */
  ghost predicate MemoSound<T>(compose: (T, T) -> T, global: array<T>, computed: array<bool>, local: seq<T>, parents: seq<int>)
    reads global, computed
    requires ValidParents(parents) && |local| == |parents|
  {
    global.Length == |parents| && computed.Length == |parents| &&
    forall k :: 0 <= k < |parents| && computed[k] ==> global[k] == Global(compose, local, parents, k)
  }

  /** Whenever a bone is marked computed, so is its parent. */
  ghost predicate AncestorClosed(computed: seq<bool>, parents: seq<int>)
    requires ValidParents(parents) && |computed| == |parents|
  {
    forall k :: 0 <= k < |parents| && computed[k] && parents[k] != -1 ==> computed[parents[k]]
  }

  /**
   * `forward_kinematics_partial` (and, with `MotionComposer`, `_velocity_partial`): computes the
   * requested bone, recursing into a parent only when it is not yet marked computed.
   */
  method ForwardKinematicsPartial<T>(compose: (T, T) -> T, global: array<T>, computed: array<bool>,
                                     local: seq<T>, parents: seq<int>, bone: nat)
    requires ValidParents(parents) && |local| == |parents| && bone < |parents|
    requires global as object != computed as object
    requires MemoSound(compose, global, computed, local, parents)
    modifies global, computed
    ensures MemoSound(compose, global, computed, local, parents)
    ensures computed[bone] && global[bone] == Global(compose, local, parents, bone)
    ensures forall k :: 0 <= k < |parents| && old(computed[k]) ==> computed[k]
    ensures forall k :: 0 <= k < |parents| && !IsAncestorOrSelf(parents, k, bone) ==>
              global[k] == old(global[k]) && computed[k] == old(computed[k])
    ensures AncestorClosed(old(computed[..]), parents) ==> AncestorClosed(computed[..], parents)
    decreases bone
  {
    if parents[bone] == -1 {
      global[bone] := local[bone];
      computed[bone] := true;
      return;
    }
    var p := parents[bone];
    if !computed[p] {
      ForwardKinematicsPartial(compose, global, computed, local, parents, p);
      forall k | 0 <= k < |parents| && IsAncestorOrSelf(parents, k, p)
        ensures IsAncestorOrSelf(parents, k, bone) && k != bone
      {
        AncestorIsEarlier(parents, k, p);
      }
    }
    global[bone] := compose(global[p], local[bone]);
    computed[bone] := true;
  }
}
