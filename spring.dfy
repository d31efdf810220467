/**
 * Closed-form critically damped springs and inertialization (MotionMatchingDemo/spring.h).
 *
 * The source computes the decay factor `eydt = fast_negexpf(y * dt)` with a float
 * approximation of an exponential; here it is the parameter `eydt` of every update, so that
 * everything that remains is exact real arithmetic.  The reference-parameter updates of the
 * source (`x`, `v`, `off_x`, ...) are returned as new states.
 */
module Spring {
  import opened Vectors

  /** Value of the source's `LN2f`; only its positivity matters below. */
  const Ln2: real := 0.69314718056

  /** The default `eps = 1e-5f` of `halflife_to_damping`. */
  const Eps: real := 0.00001

  /** Position and velocity of a scalar spring. */
  datatype Scalar = Scalar(x: real, v: real)

  /** Position and velocity of a 3-vector spring (also an inertialization offset). */
  datatype State = State(x: Vec3, v: Vec3)

  const Rest: State := State(Zero, Zero)

  /** `halflife_to_damping`: the damping is positive exactly when `halflife + eps` is. */
  function HalflifeToDamping(halflife: real, eps: real): (damping: real)
    requires halflife + eps != 0.0
    ensures damping > 0.0 <==> halflife + eps > 0.0
    ensures damping * (halflife + eps) == 4.0 * Ln2
  {
    (4.0 * Ln2) / (halflife + eps)
  }

  /** The `y` every spring update derives from its half-life. */
  function HalfDamping(halflife: real): real
    requires halflife + Eps != 0.0
  {
    HalflifeToDamping(halflife, Eps) / 2.0
  }

  // ---------------------------------------------------------------- scalar springs

  /**
   * Scalar `decay_spring_damper_implicit`: decays `(x, v)` towards zero.  A spring at rest
   * stays at rest, and a step of zero duration (decay factor `exp(0) = 1`) changes nothing.
   */
  function DecayScalar(s: Scalar, halflife: real, dt: real, eydt: real): (r: Scalar)
    requires halflife + Eps != 0.0
    ensures s == Scalar(0.0, 0.0) ==> r == s
    ensures dt == 0.0 && eydt == 1.0 ==> r == s
  {
    var y := HalfDamping(halflife);
    var j1 := s.v + s.x * y;
    Scalar(eydt * (s.x + j1 * dt), eydt * (s.v - j1 * y * dt))
  }

  /** Scalar `simple_spring_damper_implicit`: drives `(x, v)` towards `xGoal`. */
  function SpringScalar(s: Scalar, xGoal: real, halflife: real, dt: real, eydt: real): (r: Scalar)
    requires halflife + Eps != 0.0
    ensures var d := DecayScalar(Scalar(s.x - xGoal, s.v), halflife, dt, eydt);
      r == Scalar(d.x + xGoal, d.v)
  {
    var y := HalfDamping(halflife);
    var j0 := s.x - xGoal;
    var j1 := s.v + j0 * y;
    Scalar(eydt * (j0 + j1 * dt) + xGoal, eydt * (s.v - j1 * y * dt))
  }

  /** A scalar spring resting on its goal stays there. */
  lemma SpringScalarAtRest(xGoal: real, halflife: real, dt: real, eydt: real)
    requires halflife + Eps != 0.0
    ensures SpringScalar(Scalar(xGoal, 0.0), xGoal, halflife, dt, eydt) == Scalar(xGoal, 0.0)
  {
  }

  // ---------------------------------------------------------------- vector springs

  /**
   * `vec3` `decay_spring_damper_implicit`.  Zero stays zero: a zero offset decays to zero for
   * any step and decay factor; and a step of zero duration (decay factor `exp(0) = 1`) changes
   * nothing.
   */
  function Decay(s: State, halflife: real, dt: real, eydt: real): (r: State)
    requires halflife + Eps != 0.0
    ensures s == Rest ==> r == Rest
    ensures dt == 0.0 && eydt == 1.0 ==> r == s
  {
    var y := HalfDamping(halflife);
    var j1 := Add(s.v, Scale(s.x, y));
    var d := State(ScaleBy(eydt, Add(s.x, Scale(j1, dt))), ScaleBy(eydt, Sub(s.v, Scale(Scale(j1, y), dt))));
    // Every branch yields `d`; the first two carry the proofs of the two `ensures`.
    if s == Rest then
      ScaleOfZero(y);
      ScaleOfZero(dt);
      AddZero(Zero);
      SubZero(Zero);
      ScaleByOfZero(eydt);
      d
    else if dt == 0.0 && eydt == 1.0 then
      ScaleByZero(j1);
      ScaleByZero(Scale(j1, y));
      AddZero(s.x);
      SubZero(s.v);
      ScaleByOne(s.x);
      ScaleByOne(s.v);
      d
    else
      d
  }

  /** `vec3` `simple_spring_damper_implicit`: the decay of the displacement from the goal. */
  function SpringTo(s: State, xGoal: Vec3, halflife: real, dt: real, eydt: real): (r: State)
    requires halflife + Eps != 0.0
    ensures var d := Decay(State(Sub(s.x, xGoal), s.v), halflife, dt, eydt);
      r == State(Add(d.x, xGoal), d.v)
  {
    var y := HalfDamping(halflife);
    var j0 := Sub(s.x, xGoal);
    var j1 := Add(s.v, Scale(j0, y));
    State(Add(ScaleBy(eydt, Add(j0, Scale(j1, dt))), xGoal), ScaleBy(eydt, Sub(s.v, Scale(Scale(j1, y), dt))))
  }

  /** A vector spring resting on its goal stays there. */
  lemma SpringAtRest(xGoal: Vec3, halflife: real, dt: real, eydt: real)
    requires halflife + Eps != 0.0
    ensures SpringTo(State(xGoal, Zero), xGoal, halflife, dt, eydt) == State(xGoal, Zero)
  {
    SubZero(xGoal);
    AddZero(xGoal);
  }

  // ---------------------------------------------------------------- inertialization

  /**
   * `vec3` `inertialize_transition`: when the tracked source `src` jumps to `dst`, the offset
   * absorbs the jump, so offset plus target is the same before and after.
   */
  function InertializeTransition(offset: State, src: State, dst: State): (r: State)
    ensures Add(r.x, dst.x) == Add(offset.x, src.x)
    ensures Add(r.v, dst.v) == Add(offset.v, src.v)
  {
    State(Sub(Add(src.x, offset.x), dst.x), Sub(Add(src.v, offset.v), dst.v))
  }

  /** The result of `inertialize_update`: the visible output and the decayed offset. */
  datatype Update = Update(output: State, offset: State)

  /** `vec3` `inertialize_update`: decay the offset, then add it to the raw input. */
  function InertializeUpdate(offset: State, input: State, halflife: real, dt: real, eydt: real): (r: Update)
    requires halflife + Eps != 0.0
    ensures r.offset == Decay(offset, halflife, dt, eydt)
    ensures Sub(r.output.x, input.x) == r.offset.x && Sub(r.output.v, input.v) == r.offset.v
  {
    var off := Decay(offset, halflife, dt, eydt);
    Update(State(Add(input.x, off.x), Add(input.v, off.v)), off)
  }

  /**
   * A transition from `src` to `dst` followed by an update of zero duration shows exactly what
   * was visible before the jump: `src` plus the old offset.
   */
  lemma TransitionIsContinuous(offset: State, src: State, dst: State, halflife: real)
    requires halflife + Eps != 0.0
    ensures var u := InertializeUpdate(InertializeTransition(offset, src, dst), dst, halflife, 0.0, 1.0);
      u.output == State(Add(src.x, offset.x), Add(src.v, offset.v))
  {
  }

  /** With no active offset the update passes the input through and the offset stays zero. */
  lemma NoOffsetPassesThrough(input: State, halflife: real, dt: real, eydt: real)
    requires halflife + Eps != 0.0
    ensures InertializeUpdate(Rest, input, halflife, dt, eydt) == Update(input, Rest)
  {
    AddZero(input.x);
    AddZero(input.v);
  }
}
