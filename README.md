# Motion matching: feature database, search and inertialization

This project models the core of the Motion-Matching demo: the feature database with its search (`MotionMatchingDemo/database.h`), and the spring and inertialization helpers (`MotionMatchingDemo/spring.h`). It proves properties of that model.

The model has eight pieces:

- **Clip ranges** (`Ranges`). `database_trajectory_index_clamp` looks up the first clip range that owns a frame and clamps `frame + offset` into that range.
- **Normalization** (`Normalization`). `normalize_feature` computes a z-score for one group of feature columns. Each column is offset by its own mean. The group shares one scale: the average of its columns' deviations, divided by the group's weight. `denormalize_features` is its inverse. Both are methods over `array2<real>` / `array<real>` that update in place, as in the source. Each is proved against functions on the table's values.
- **Forward kinematics** (`Kinematics`). There are two recursive traversals, the single forward pass, and the memoized partial traversal that uses a `computed` flag array.
  - Everything is generic in the composition `compose(parentGlobal, local)`.
  - The quaternion product and rotation of quat.h are parameters (`QuatOps`).
- **Bounds** (`Bounds`). `database_build_bounds` computes per-feature minima and maxima over blocks of 16 and 64 frames. The folds start, as in the source, from `FLT_MAX` for the minima and from `FLT_MIN`, the smallest positive float, for the maxima, so a block of negative values gets `FLT_MIN` as its maximum. The model corrects the maximum update at database.h:704 and 706 (see Findings) but keeps these starting values.
- **Search** (`Search`). `motion_matching_search` is branch-and-bound with early-outs. Whenever the boxes contain their frames, it is proved equal to an exhaustive in-order scan (`Exhaustive`).
- **The database** (`FeatureDatabase`). A `Database` class owns the tables.
  - `BuildMatchingFeatures` writes and normalizes the seven feature groups: foot positions, foot velocities, hip velocity, and trajectory positions and directions. Their widths are 3, 3, 3, 3, 3, 6, 6, so the offset ends at 27. It then builds the boxes.
  - `DatabaseSearch` normalizes the query and runs the search.
- **Springs** (`Spring`): the closed-form critically damped spring, the decay, and vec3 inertialization.
- **Helpers**: `Vectors` (vec3 arithmetic) and `Matrices` (tables and `Cells`).

Numbers are `real`, so no float rounding is modelled.

- `sqrtf` is the function parameter `sqrt`; nothing is assumed about it.
- `fast_negexpf(y * dt)` is the parameter `eydt` of every spring update.
- The feature-extraction geometry is not modelled. It computes root-relative bone positions and velocities and the future trajectory. Its output, one row of 27 raw feature values per frame, is the input `raw` of the builder.

## Model

| member | source | states |
|---|---|---|
| Ranges.Clamp | MotionMatchingDemo/database.h:177 | the integer `clamp` lies in `[lo, hi]`; it is `x` inside that interval, `lo` below it and `hi` above it |
| Ranges.TrajectoryIndexClamp | MotionMatchingDemo/database.h:171-183 | when range `r` is the first range owning `frame`, the result is exactly `clamp(frame + offset, start_r, stop_r - 1)`; when no range owns the frame, the result is -1 |
| Ranges.FirstOwnerIsUnique | MotionMatchingDemo/database.h:173-179 | the range the lookup loop stops at is unique |
| Ranges.ClampStaysInOwner | MotionMatchingDemo/database.h:175-178 | for any offset, negative or past the clip's end, the clamped index stays inside the range that owns the frame |
| Ranges.OwnerIsFirstWhenDisjoint | MotionMatchingDemo/database.h:173-179 | when the ranges are disjoint, any range owning the frame is the one the loop finds |
| Normalization.VariancePrefix | MotionMatchingDemo/database.h:225-231 | the running variance is never negative |
| Normalization.PrefixesAgree | MotionMatchingDemo/database.h:211-231 | a column's running mean and variance depend on that column only |
| Normalization.ColumnStatisticsAgree | MotionMatchingDemo/database.h:211-231 | tables that agree on a column have the same mean and variance in it |
| Normalization.GroupStdAgrees | MotionMatchingDemo/database.h:236-240 | the group deviation depends only on the group's own columns |
| Normalization.NormalizeValue | MotionMatchingDemo/database.h:258 | the z-score `(x - offset) / scale` times the scale, plus the offset, is `x` again |
| Normalization.DenormalizeValue | MotionMatchingDemo/database.h:276 | with a non-zero scale, normalizing `x * scale + offset` gives back `x` |
| Normalization.NormalizeBlock | MotionMatchingDemo/database.h:254-260 | the normalized table keeps the shape of the raw table |
| Normalization.DenormalizeRecoversGroup | MotionMatchingDemo/database.h:254-260 | denormalizing a normalized frame with the same offsets and the group's scale gives back the group's raw values |
| Normalization.MeanStep | MotionMatchingDemo/database.h:211-218 | when a row is added, the normalized running mean follows the raw running mean, shifted and scaled |
| Normalization.NormalizedMeanPrefix | MotionMatchingDemo/database.h:211-260 | the normalized column's running mean times the scale equals the raw running mean minus the offset's share |
| Normalization.NormalizedMeanIsZero | MotionMatchingDemo/database.h:254-260 | a group normalized with its own column means has mean exactly 0 in every column |
| Normalization.DenormalizeRow | MotionMatchingDemo/database.h:269-278 | every entry with a non-zero scale normalizes back to the input entry |
| Normalization.NormalizeFeature | MotionMatchingDemo/database.h:195-261 | succeeds exactly when the average deviation is positive; each group column's offset becomes its mean, and no other column changes; on success every group column gets the scale `std / weight` and the table becomes the normalized block; on failure the scales and the table are unchanged |
| Normalization.ColumnMeans | MotionMatchingDemo/database.h:206-218 | the group's offsets become the column means, and the other offsets are unchanged |
| Normalization.AddToMeans | MotionMatchingDemo/database.h:213-217 | one row moves every group column's running mean one row on |
| Normalization.ColumnVariances | MotionMatchingDemo/database.h:222-231 | returns a fresh array holding the variance of each group column about its mean |
| Normalization.AddToVariances | MotionMatchingDemo/database.h:227-230 | one row moves every group column's running variance one row on |
| Normalization.AverageDeviation | MotionMatchingDemo/database.h:236-240 | the result is the average of `sqrt(variance)` over the group's columns |
| Normalization.FillScale | MotionMatchingDemo/database.h:247-250 | every group column gets the same scale, and no other column changes |
| Normalization.NormalizeRows | MotionMatchingDemo/database.h:254-260 | the table becomes the block normalized with the current offsets and the shared scale; nothing outside the block changes |
| Normalization.DenormalizeFeatures | MotionMatchingDemo/database.h:269-278 | the vector becomes its denormalized row, the map that `DenormalizeRow` proves to be the inverse of normalization |
| Kinematics.AncestorIsEarlier | MotionMatchingDemo/database.h:392-393 | with bones sorted from the root (`parent(i) < i`), every ancestor comes no later than its bone |
| Kinematics.GlobalDependsOnAncestorsOnly | MotionMatchingDemo/database.h:298-319 | a bone's global value depends only on the local values of its ancestors |
| Kinematics.ComposeTransform | MotionMatchingDemo/database.h:311-312 | the child's rotation is `quat_mul(parent_rotation, local_rotation)`, and its offset from the parent is the local position turned by the parent's rotation |
| Kinematics.ComposeMotion | MotionMatchingDemo/database.h:365-371 | its position and rotation are those of `ComposeTransform`; its velocity exceeds the parent's by the rotated local velocity plus `cross(parent_angular_velocity, rotated local position)` |
| Kinematics.ForwardKinematics | MotionMatchingDemo/database.h:290-319 | a root bone's global transform is its local one; any other bone's is its local transform composed onto its parent's global transform |
| Kinematics.ForwardKinematicsVelocity | MotionMatchingDemo/database.h:333-380 | a root bone's global motion is its local one; any other bone's is its local motion composed, with `ComposeMotion`, onto its parent's global motion |
| Kinematics.RootIsLocal | MotionMatchingDemo/database.h:314-318 | in both recursive traversals, a root bone's global value is its local value |
| Kinematics.VelocityTraversalAgrees | MotionMatchingDemo/database.h:333-380 | the velocity traversal computes the same positions and rotations as `forward_kinematics` |
| Kinematics.ForwardKinematicsFull | MotionMatchingDemo/database.h:383-408 | after the forward pass, every bone holds exactly the recursive traversal's global value |
| Kinematics.ForwardKinematicsPartial | MotionMatchingDemo/database.h:412-446 | the requested bone is computed and holds the recursive traversal's value; every bone marked computed stays correct; flags are never cleared; bones off the parent chain are untouched; closure of `computed` under parents is preserved |
| Bounds.BlockCount | MotionMatchingDemo/database.h:683-684 | `(n + size - 1) / size` blocks cover `n` frames, with none to spare (the ceiling of `n / size`) |
| Bounds.BlockBoundsContain | MotionMatchingDemo/database.h:696-707 | every frame of a block lies between the block's folded minimum and its running maximum |
| Bounds.BlockMinIsAttained | MotionMatchingDemo/database.h:703 | the folded minimum is a frame's value, or the `FLT_MAX` sentinel |
| Bounds.BlockMaxIsAttained | MotionMatchingDemo/database.h:692-706 | the running maximum is a frame's value, or the `FLT_MIN` sentinel |
| Bounds.AsWrittenBlockMax | MotionMatchingDemo/database.h:704 | as written, a block's "maximum" is the value of its latest frame seen so far |
| Bounds.MaxSentinelWidensNegativeBlocks | MotionMatchingDemo/database.h:692-694 | the `FLT_MIN` start of the maximum is positive, so a block of negative values gets `FLT_MIN`, above all its frames, as its maximum |
| Bounds.AsWrittenMaxMissesAFrame | MotionMatchingDemo/database.h:704 | a falling feature (1 then 0) gives a written maximum of 0, below the first frame; the running maximum covers it |
| Bounds.BlocksAreOrdered | MotionMatchingDemo/database.h:698-699 | later blocks start after earlier blocks end |
| Bounds.StartsAreOrdered | MotionMatchingDemo/database.h:698-699 | block starts are ordered like the block numbers |
| Bounds.FrameInItsBlock | MotionMatchingDemo/database.h:698-699 | frame `i` lies in block `i / size`, and that block is a row of the table |
| Bounds.BuildBounds | MotionMatchingDemo/database.h:681-709 | four fresh, distinct tables with `ceil(n/16)` and `ceil(n/64)` rows; they are the block-minimum tables and the corrected block-maximum tables of the feature table |
| Bounds.NewLevel | MotionMatchingDemo/database.h:686-694 | two fresh tables of the level's shape: all minima at `FLT_MAX`, all maxima at `FLT_MIN` |
| Bounds.WidenLevel | MotionMatchingDemo/database.h:696-707 | after frame `i`, every entry of the level holds its block's fold over the first `i + 1` frames |
| Bounds.AddFrame | MotionMatchingDemo/database.h:701-706 | frame `i` widens only its own block's box, column by column |
| Bounds.MinTable | MotionMatchingDemo/database.h:683-703 | the minimum table has one row per block and one column per feature |
| Bounds.MaxTable | MotionMatchingDemo/database.h:683-706 | the maximum table has one row per block and one column per feature |
| Bounds.LevelContains | MotionMatchingDemo/database.h:681-709 | with the corrected maxima, every frame lies inside the box of its block, at both block sizes |
| Bounds.FrameInBox | MotionMatchingDemo/database.h:698-706 | one frame and one feature: the value lies inside its block's box |
| Bounds.BuiltIsLevel | MotionMatchingDemo/database.h:696-708 | once all frames are folded, the builder's arrays equal the block-minimum and corrected block-maximum tables |
| Bounds.AsWrittenLevelMissesAFrame | MotionMatchingDemo/database.h:703-706 | with the maxima as written, the tables of a falling feature do not contain the clip's first frame |
| Search.ClampF | MotionMatchingDemo/database.h:830-831 | `clampf` stays in a non-empty box, and leaves values inside the box unchanged |
| Search.SqDistPrefix | MotionMatchingDemo/database.h:884-888 | a partial squared distance is never negative |
| Search.SqDistPrefixGrows | MotionMatchingDemo/database.h:885-892 | partial sums only grow, so the early-out `break` on a partial sum never hides a cheaper whole |
| Search.ClampIsNearest | MotionMatchingDemo/database.h:857-858 | in one dimension, clamping onto the box is no farther than any point of the box |
| Search.BoxDistIsLowerBound | MotionMatchingDemo/database.h:853-871 | the distance to a box bounds the distance to every point inside it from below |
| Search.ScanFramesSplits | MotionMatchingDemo/database.h:874-902 | scanning `lo .. mid` and then `mid .. hi` is scanning `lo .. hi` |
| Search.ScanSkipsCostlyFrames | MotionMatchingDemo/database.h:894-899 | frames that cannot beat the best so far leave the result as it is |
| Search.ScanFramesIsOptimal | MotionMatchingDemo/database.h:874-902 | the best cost never increases, and ends no higher than the cost of any eligible frame scanned |
| Search.ScanFramesIsSound | MotionMatchingDemo/database.h:874-902 | the result is the starting point, or an eligible scanned frame with its true cost (transition cost plus squared distance) |
| Search.ScanFramesKeepsFirst | MotionMatchingDemo/database.h:895-899 | the strict `<` keeps the earliest of equally cheap frames |
| Search.ExhaustiveIsOptimal | MotionMatchingDemo/database.h:814-905 | no eligible frame in `start_r .. stop_r - ignore_range_end` of any range is cheaper than the result; the result is never worse than the start |
| Search.ExhaustiveIsSound | MotionMatchingDemo/database.h:814-905 | the result is the starting point, or an eligible frame of some range's searchable part, with its true cost |
| Search.SearchContext | MotionMatchingDemo/database.h:779-795 | a context built from a table whose width matches the query is well formed |
| Search.AccumulateFrameCost | MotionMatchingDemo/database.h:884-892 | the early-out sum is below `best` exactly when the full cost is, and then equals it |
| Search.AccumulateBoxCost | MotionMatchingDemo/database.h:827-837 | the early-out box distance reaches `best` exactly when the full box distance does |
| Search.PruneBlock | MotionMatchingDemo/database.h:866-871 | skipping a box whose distance reaches the best cost never changes the scan |
| Search.SmallBlockOf | MotionMatchingDemo/database.h:850-851 | a small box starting at frame `i` lies inside `i`'s large box |
| Search.LargeBlockOf | MotionMatchingDemo/database.h:823-824 | the frames up to the next large box all belong to `i`'s large box |
| Search.ScanSmallBox | MotionMatchingDemo/database.h:874-902 | scanning the frames of one small box gives exactly the exhaustive scan of those frames |
| Search.SmallBoxStep | MotionMatchingDemo/database.h:849-902 | when the boxes contain their frames, one small-box turn, pruned or scanned, equals the scan up to the next small box (or the range end); whatever the boxes hold, the turn ends on its starting best or on an eligible frame of the range with its true cost, never costlier |
| Search.ScanLargeBox | MotionMatchingDemo/database.h:847-903 | when the boxes contain their frames, the small-box loop inside a large box equals the scan up to the next large box; whatever the boxes hold, the small-box loop ends on its starting best or on an eligible frame of the range with its true cost, never costlier |
| Search.LargeBoxStep | MotionMatchingDemo/database.h:822-903 | when the boxes contain their frames, one large-box turn, pruned or searched, equals the scan up to the next large box (or the range end); whatever the boxes hold, the turn ends on its starting best or on an eligible frame of the range with its true cost, never costlier |
| Search.SearchRange | MotionMatchingDemo/database.h:817-904 | when the boxes contain their frames, the search of one range equals the exhaustive scan of `start_r .. stop_r - ignore_range_end`; whatever the boxes hold, the result is the starting best or an eligible frame of `start_r .. stop_r - ignore_range_end` with its true cost, never costlier |
| Search.FoundInNextRange | MotionMatchingDemo/database.h:814-905 | one more range searched keeps the result the starting point or a frame of a searched range with its true cost |
| Search.SearchRanges | MotionMatchingDemo/database.h:814-905 | whatever the boxes hold, the result is the start or an eligible frame of some range's searchable part with its true cost, never costlier; when the boxes contain their frames, it is the exhaustive scan of the ranges |
| Search.CurrentCost | MotionMatchingDemo/database.h:802-809 | the current frame is costed as its plain squared distance, with no transition cost |
| Search.MotionMatchingSearch | MotionMatchingDemo/database.h:779-906 | whatever the boxes hold, the result is the starting point or an eligible frame of some range's searchable part with its true cost, never costlier than the start; when both levels of boxes contain their frames, the returned index and cost are exactly those of the exhaustive in-order scan; the current frame is first costed without the transition cost |
| FeatureDatabase.Weights | MotionMatchingDemo/database.h:737-743 | there is one weight for each of the seven groups |
| FeatureDatabase.GroupOf | MotionMatchingDemo/database.h:723-730 | every one of the 27 columns belongs to exactly one group's column interval |
| FeatureDatabase.GroupsTile | MotionMatchingDemo/database.h:723-745 | each group starts where the previous one ends, and the widths 3,3,3,3,3,6,6 add up to 27 |
| FeatureDatabase.NormalizeQuery | MotionMatchingDemo/database.h:929-933 | the normalized query has the feature width, and denormalizing each entry gives back the raw query |
| FeatureDatabase.DenormalizeNormalizedQuery | MotionMatchingDemo/database.h:932 | `denormalize_features` of the normalized query is the query |
| FeatureDatabase.PreparedDependsOnEarlierColumns | MotionMatchingDemo/database.h:736-743 | whether the groups before `k` are finished depends only on their own columns |
| FeatureDatabase.PreparedColumn | MotionMatchingDemo/database.h:736-743 | each column of a finished group has its mean as offset and its group's non-zero scale, and holds its raw values normalized |
| FeatureDatabase.Means | MotionMatchingDemo/database.h:211-218 | there is one offset per feature |
| FeatureDatabase.Scales | MotionMatchingDemo/database.h:247-250 | there is one scale per feature |
| FeatureDatabase.NormalizedTable | MotionMatchingDemo/database.h:254-260 | the normalized table has one row per frame and 27 columns |
| FeatureDatabase.PreparedIsNormalized | MotionMatchingDemo/database.h:736-745 | once all seven groups are finished, the offsets are the means and the scales are the group scales (all non-zero), and the table is every raw value normalized |
| FeatureDatabase.NormalizedTableRoundTrip | MotionMatchingDemo/database.h:269-278 | `denormalize_features` turns every frame of the built table back into its raw feature row |
| FeatureDatabase.NormalizedTableMeanIsZero | MotionMatchingDemo/database.h:254-260 | every column of the built table has mean exactly 0 |
| FeatureDatabase.FinishGroup | MotionMatchingDemo/database.h:513-539 | writing a group's raw values and normalizing them succeeds exactly when the group varies; on success, one more group is finished |
| FeatureDatabase.Database.constructor | MotionMatchingDemo/database.h:96-138 | an empty, consistent database over the given clip ranges |
| FeatureDatabase.Database.WriteGroup | MotionMatchingDemo/database.h:531-533 | every frame's group columns get their raw values, and every other cell is unchanged |
| FeatureDatabase.Database.ComputeFeature | MotionMatchingDemo/database.h:513-539 | the offset moves on by the group's width; the call succeeds exactly when the group varies, and then finishes the group without disturbing the earlier ones |
| FeatureDatabase.Database.ComputeFeatures | MotionMatchingDemo/database.h:736-745 | succeeds exactly when all seven groups vary; the offset then ends at 27, the offsets are the column means, the scales the group scales, and the table is every raw value normalized |
| FeatureDatabase.Database.ComputePositionFeatures | MotionMatchingDemo/database.h:737-738 | the two foot-position groups are finished exactly when both vary |
| FeatureDatabase.Database.ComputeVelocityFeatures | MotionMatchingDemo/database.h:739-741 | the three velocity groups are finished exactly when all three vary |
| FeatureDatabase.Database.ComputeTrajectoryFeatures | MotionMatchingDemo/database.h:742-743 | the two trajectory groups are finished exactly when both vary, and the offset is then 27 |
| FeatureDatabase.Database.BuildBounds | MotionMatchingDemo/database.h:681-709 | the database's boxes become the block tables of its feature table; nothing else changes |
| FeatureDatabase.Database.BuildMatchingFeatures | MotionMatchingDemo/database.h:715-748 | succeeds exactly when every group varies; the database is then consistent, its offsets are the column means, its scales the weighted group deviations, its table every raw value normalized, and its boxes those of that table; the clip ranges never change |
| FeatureDatabase.Database.NormalizedQuery | MotionMatchingDemo/database.h:929-933 | the loop produces exactly the normalized query |
| FeatureDatabase.Database.DatabaseSearch | MotionMatchingDemo/database.h:919-951 | on a consistent database, the result is exactly the exhaustive scan of every range with the normalized query |
| Spring.HalflifeToDamping | MotionMatchingDemo/spring.h:41-44 | the damping is positive exactly when `halflife + eps` is, and times `halflife + eps` it is `4 ln 2` |
| Spring.DecayScalar | MotionMatchingDemo/spring.h:115-127 | a scalar spring at rest stays at rest for any step and decay factor; a step with `dt = 0` and decay factor 1 changes nothing |
| Spring.SpringScalar | MotionMatchingDemo/spring.h:63-77 | the scalar spring towards `x_goal` is the decay of `(x - x_goal, v)`, with `x_goal` added back |
| Spring.SpringScalarAtRest | MotionMatchingDemo/spring.h:63-77 | a scalar resting on its goal stays there |
| Spring.Decay | MotionMatchingDemo/spring.h:129-141 | a zero offset stays zero for any step and decay factor; a step with `dt = 0` and decay factor 1 changes nothing |
| Spring.SpringTo | MotionMatchingDemo/spring.h:79-93 | the vec3 spring towards `x_goal` is the decay of `(x - x_goal, v)`, with `x_goal` added back |
| Spring.SpringAtRest | MotionMatchingDemo/spring.h:79-93 | a vec3 state resting on its goal stays there |
| Spring.InertializeTransition | MotionMatchingDemo/spring.h:171-181 | `off_x' + dst_x == off_x + src_x` and `off_v' + dst_v == off_v + src_v` |
| Spring.InertializeUpdate | MotionMatchingDemo/spring.h:192-205 | the offset is decayed first; the output is the input plus the decayed offset |
| Spring.TransitionIsContinuous | MotionMatchingDemo/spring.h:171-205 | a transition followed by an update with `dt = 0` shows exactly the pre-transition output: the visible state does not jump |
| Spring.NoOffsetPassesThrough | MotionMatchingDemo/spring.h:192-205 | with no active offset, the update passes the input through and the offset stays zero |

## Left out

- `database_load` reads the database from a file with `fopen`/`array2d_read`; this is I/O. The constructor takes the clip ranges instead.
- The feature-extraction geometry of `compute_*_feature` is not modelled, because it needs quaternion algebra. This covers:
  - the root-relative bone positions and velocities;
  - the trajectory positions and directions 20, 40 and 60 frames ahead.

  The 27-column raw table is an input. What is kept is the column bookkeeping, the normalization of each group, and the offset that must end at 27.
- The quaternion variants of `simple_spring_damper_implicit`, `decay_spring_damper_implicit`, `inertialize_transition`, `inertialize_update` and the `damp_adjustment` family are left out. They need `quat_to_scaled_angle_axis` and its inverse, from quat.h, which is not part of this model.
- `damper_implicit` and `damp_adjustment_implicit` are left out. They are exponential smoothing steps, a `lerp` weighted by `fast_negexpf`, and nothing in the modelled core calls them.
- `damping_to_halflife`, `frequency_to_stiffness` and `stiffness_to_frequency` are left out. They are unit conversions that nothing in the modelled core calls.
- quat.h, vec.h, common.h and character.h are not part of this model:
  - `quat_mul` and `quat_mul_vec3` are parameters;
  - `clamp`, `clampf`, `minf`, `maxf` and `squaref` are written out;
  - the bone enumeration is left out, and bones are group numbers.
- `fast_negexpf` and `sqrtf` are parameters (`eydt` and `sqrt`). Nothing is assumed about them; in particular the decay factor is not proved to lie in `(0, 1]`.
- Float rounding, infinities, NaN and 32-bit integer overflow are not modelled. Numbers are unbounded reals and integers.
- The convergence of the decaying offset towards zero over time is left out. It depends on the exponential behind `eydt`.
- Contact states and the `slice`/`array` wrapper types are left out. Dafny arrays and sequences replace the wrappers.
- The source's `assert(std > 0.0)` and `assert(offset == nfeatures)` stop the program. Here the build returns `ok == false` instead, and stops at the first group without variation.
- `assert(bone_parents(i) < i)` of `forward_kinematics_full` is a precondition (`ValidParents`).
- The source's single frame loop over both levels of boxes becomes one `WidenLevel` call per level in each turn of the loop.
- The seven `compute_*_feature` calls are grouped into three helper methods, of two, three and two calls, each call starting at the offset the previous one returned.
- Search.MotionMatchingSearch: whatever the boxes hold, the result is proved to be the start or a searchable frame with its true cost, never costlier. Equality with the exhaustive scan, that is optimality, is proved only when both levels of boxes contain their frames. The bounds as written do not guarantee this (see Findings). `DatabaseSearch` discharges the condition from the table equalities that `Valid()` requires, which hold for the corrected builder.
- Spring.HalflifeToDamping: requires `halflife + eps != 0`. The source divides regardless, and would produce an infinity.
- Normalization.NormalizeFeature: requires a non-zero weight. The source divides by it, and would give infinite scales.
- FeatureDatabase.Database.BuildMatchingFeatures: requires non-zero weights and a raw table of 27 columns.
- Search.MotionMatchingSearch: requires the current index to be -1 or a frame of the table, and every range's searchable part to lie inside the table. The source reads out of bounds otherwise.
- The transition cost is not charged to the current frame's starting cost. That cost is the plain squared distance (database.h:802-809). Every frame the scan reaches pays `transition_cost` plus its squared distance (database.h:877-899). The scan skips the frames within `ignore_surrounding` of the current frame, so with a positive `ignore_surrounding` the current frame is never scanned.
- The default arguments of the source are explicit parameters here. These are `transition_cost = 0`, `ignore_range_end = 20` and `ignore_surrounding = 20` of `database_search` (database.h:924-926), and `weight = 1` of `normalize_feature` (database.h:201).
- Bounds.BlockMax: the maximum fold starts, like the source, from `FLT_MIN` (database.h:692, 694). That is the smallest positive float, not the most negative one. So a block whose values are all negative gets `FLT_MIN` as its maximum (`MaxSentinelWidensNegativeBlocks`). The box still contains every frame, so the search stays exact; it only prunes less. The model keeps the source's constant.

## Findings

| source | as written | input that shows it | evidently intended | confidence | as-written member | corrected member |
|---|---|---|---|---|---|---|
| MotionMatchingDemo/database.h:704 | `bound_sm_max(i_sm, j) = maxf(bound_sm_min(i_sm, j), features(i, j))`, and likewise for `bound_lr_max` at line 706: the maximum is taken against the freshly updated minimum, so it ends as the block's last frame value | one feature, two frames in one block, values 1 then 0: max is 0, and the box `[0, 0]` misses the first frame; the search may then prune a block holding the best match | `maxf(bound_sm_max(i_sm, j), features(i, j))`, a running maximum, so that every frame lies in its block's box | not executed | Bounds.AsWrittenLevelMissesAFrame | Bounds.LevelContains |
