/**
 * experiments/simulate_system.py: the `smooth_step` ramp helper and the older copy of the
 * pendulum-on-cart `system` / `output` functions defined inside the simulation experiment.
 */
module SimulateSystem {
  import opened Wrappers
  import opened Units
  import opened Parameters
  import opened Dynamics

  // ---------------------------------------------------------------- smooth_step

  /**
   * The linear interpolation between the two levels over [t_start, t_stop]: it starts at the
   * initial level, ends at the final level and stays between them.
   */
  function Ramp(t: real, initial: real, final: real, t_start: real, t_stop: real): (r: real)
    requires t_start < t_stop
    ensures t == t_start ==> r == initial
    ensures t == t_stop ==> r == final
    ensures t_start <= t <= t_stop && initial <= final ==> initial <= r <= final
    ensures t_start <= t <= t_stop && final <= initial ==> final <= r <= initial
    ensures t_start < t < t_stop && initial < final ==> initial < r < final
    ensures t_start < t < t_stop && final < initial ==> final < r < initial
  {
    var k := (t - t_start) / (t_stop - t_start);
    RatioBounds(t, t_start, t_stop);
    initial + (final - initial) * k
  }

  /** The elapsed fraction of the ramp interval lies in [0, 1], strictly inside it. */
  lemma RatioBounds(t: real, t_start: real, t_stop: real)
    requires t_start < t_stop
    ensures t == t_start ==> (t - t_start) / (t_stop - t_start) == 0.0
    ensures t == t_stop ==> (t - t_start) / (t_stop - t_start) == 1.0
    ensures t_start <= t <= t_stop ==> 0.0 <= (t - t_start) / (t_stop - t_start) <= 1.0
    ensures t_start < t < t_stop ==> 0.0 < (t - t_start) / (t_stop - t_start) < 1.0
  {
    var w := t_stop - t_start;
    if t == t_stop {
      assert (t - t_start) / w == w / w;
    }
    if t <= t_stop {
      QuotientAtMostOne(t - t_start, w);
    }
    if t < t_stop {
      QuotientBelowOne(t - t_start, w);
    }
  }

  lemma QuotientAtMostOne(a: real, b: real)
    requires b > 0.0 && a <= b
    ensures a / b <= 1.0
  {
    assert a / b <= b / b;
  }

  lemma QuotientBelowOne(a: real, b: real)
    requires b > 0.0 && a < b
    ensures a / b < 1.0
  {
    assert a / b < b / b;
  }

  /**
   * `smooth_step` as written: initial level before t_start, the ramp strictly between the two
   * breakpoints, final level after t_stop. At a breakpoint no branch fires and Python returns
   * None.
   */
  function SmoothStep(t: real, initial: real, final: real, t_start: real, t_stop: real): (r: Option<real>)
    ensures t < t_start ==> r == Some(initial)
    ensures t >= t_start && t > t_stop ==> r == Some(final)
    ensures t_start < t < t_stop && initial < final ==> r.Some? && initial < r.value < final
    ensures t_start < t < t_stop && final < initial ==> r.Some? && final < r.value < initial
    ensures t_start < t < t_stop && final == initial ==> r == Some(initial)
    ensures r.None? <==> t_start <= t_stop && (t == t_start || t == t_stop)
  {
    if t < t_start then Some(initial)
    else if t_start < t < t_stop then Some(Ramp(t, initial, final, t_start, t_stop))
    else if t > t_stop then Some(final)
    else None
  }

  /** The ramp is monotone in t, rising when final >= initial. */
  lemma SmoothStepMonotone(t1: real, t2: real, initial: real, final: real, t_start: real, t_stop: real)
    requires t_start < t1 <= t2 < t_stop
    requires initial <= final
    ensures SmoothStep(t1, initial, final, t_start, t_stop).value
         <= SmoothStep(t2, initial, final, t_start, t_stop).value
  {
    var w := t_stop - t_start;
    assert (t1 - t_start) / w <= (t2 - t_start) / w;
    assert (final - initial) * ((t1 - t_start) / w) <= (final - initial) * ((t2 - t_start) / w);
  }

  /** With the default arguments (0 to 1 over [0, 1]) both breakpoints give None. */
  lemma SmoothStepBreakpointsUndefined()
    ensures SmoothStep(0.0, 0.0, 1.0, 0.0, 1.0) == None
    ensures SmoothStep(1.0, 0.0, 1.0, 0.0, 1.0) == None
  {
  }

  /**
   * `smooth_step` with the breakpoints closed: the initial level before t_start, the final level
   * after t_stop, the ramp on the whole closed interval [t_start, t_stop] (the final level when
   * that interval is a single point).
   */
  function SmoothStepInclusive(t: real, initial: real, final: real, t_start: real, t_stop: real): (r: real)
    ensures t < t_start ==> r == initial
    ensures t >= t_start && t >= t_stop ==> r == final
    ensures t_start < t_stop && t_start <= t <= t_stop ==> r == Ramp(t, initial, final, t_start, t_stop)
    ensures initial <= final ==> initial <= r <= final
    ensures final <= initial ==> final <= r <= initial
  {
    if t < t_start then initial
    else if t > t_stop || t_start == t_stop then final
    else Ramp(t, initial, final, t_start, t_stop)
  }

  /** The corrected ramp is continuous at both breakpoints and agrees with the ramp there. */
  lemma SmoothStepInclusiveAtBreakpoints(initial: real, final: real, t_start: real, t_stop: real)
    requires t_start < t_stop
    ensures SmoothStepInclusive(t_start, initial, final, t_start, t_stop) == initial
    ensures SmoothStepInclusive(t_stop, initial, final, t_start, t_stop) == final
  {
  }

  /** Wherever `smooth_step` returns a value the inclusive version returns the same value. */
  lemma SmoothStepInclusiveAgrees(t: real, initial: real, final: real, t_start: real, t_stop: real)
    requires SmoothStep(t, initial, final, t_start, t_stop).Some?
    ensures SmoothStepInclusive(t, initial, final, t_start, t_stop)
         == SmoothStep(t, initial, final, t_start, t_stop).value
  {
  }

  // ---------------------------------------------------------------- the older system copy

  /** The defaults of the older `system` copy. */
  const VariantDefaults: Params := Params(
    m_x := 30.0, m_y := 3.0, y_max := 1.2, g := 9.81, c_varphi := 0.5, c_x := 0.5,
    k_x := 200.0, k_l := 200.0, l_0 := 0.1, k_vx := 4.0, k_vl := 2.0)

  /** Travel limits of the older copy: the cart on [0, 2.6], the cable on [0.1, 1.2]. */
  const VariantLimits: Limits := Limits(xMin := 0.0, xMax := 2.6, lMin := 0.1, lMax := 1.2)

  /** The parameters the older `system` works with for a given override dict. */
  function VariantParams(params: Overrides): (p: Params)
    ensures p.k_vx == (if "k_vx" in params then params["k_vx"] else 4.0)
    ensures p.k_vl == (if "k_vl" in params then params["k_vl"] else 2.0)
    ensures params == map[] ==> p == VariantDefaults
  {
    Resolve(params, VariantDefaults)
  }

  /** The velocity commands of the older copy after the gains and its own safety clamp. */
  function VariantCommands(states: seq<real>, inputs: seq<real>, params: Overrides): (cmd: Commands)
    requires |states| >= 6 && |inputs| >= 2
    ensures 0.0 <= states[5] <= 2.6 ==> cmd.v_x == VariantParams(params).k_vx * inputs[0]
    ensures states[5] < 0.0 || states[5] > 2.6 ==> cmd.v_x == 0.0
    ensures 0.1 <= states[2] <= 1.2 ==> cmd.v_l == VariantParams(params).k_vl * inputs[1]
    ensures states[2] < 0.1 || states[2] > 1.2 ==> cmd.v_l == 0.0
  {
    EffectiveCommands(Unpack(states), inputs[0], inputs[1], VariantParams(params), VariantLimits)
  }

  /** The older `system`: the same equations without the g * l_0 gravity terms. */
  function VariantSystem(t: real, states: seq<real>, inputs: seq<real>, params: Overrides, s: real, c: real)
    : (r: Option<seq<real>>)
    requires |states| >= 6 && |inputs| >= 2
    ensures r.Some? <==> Divisible(VariantParams(params), Unpack(states), s, c)
    ensures r.Some? ==> |r.value| == 6
    ensures r.Some? ==> r.value[2] == states[0] && r.value[4] == states[3] && r.value[5] == states[1]
  {
    VectorField(VariantParams(params), Unpack(states), VariantCommands(states, inputs, params), s, c, false)
  }

  /**
   * The accelerations of the older `system`: the same quotients with the g * l_0 terms left
   * out of the numerators.
   */
  lemma VariantAccelerations(t: real, states: seq<real>, inputs: seq<real>, params: Overrides, s: real, c: real)
    requires |states| >= 6 && |inputs| >= 2
    requires VariantSystem(t, states, inputs, params, s, c).Some?
    ensures var d, p, st, cmd := VariantSystem(t, states, inputs, params, s, c).value, VariantParams(params),
                                 Unpack(states), VariantCommands(states, inputs, params);
      && d[0] == NumL(p, st, cmd, s, c, false) / DenL(st.l, p.l_0, p.m_x, p.m_y, s, c)
      && d[1] == NumX(p, st, cmd, s, c, false) / DenX(st.l, p.l_0, p.m_x, p.m_y, s, c)
      && d[3] == NumPhi(p, st, cmd, s, c, false) / DenPhi(st.l, p.l_0, p.m_x, p.m_y, s, c)
  {
    Accelerations(VariantParams(params), Unpack(states), VariantCommands(states, inputs, params), s, c, false);
  }

  /** On the unit circle the older copy is defined under the same three conditions. */
  lemma VariantDefinedIff(t: real, states: seq<real>, inputs: seq<real>, params: Overrides, s: real, c: real)
    requires |states| >= 6 && |inputs| >= 2
    requires s * s + c * c == 1.0
    ensures var p := VariantParams(params);
      VariantSystem(t, states, inputs, params, s, c).Some? <==>
        states[2] + p.l_0 != 0.0 && p.m_y != 0.0 && p.m_x + p.m_y != 0.0
  {
    DivisibleIff(VariantParams(params), Unpack(states), s, c);
  }

  /** Equilibrium of the older copy: at rest, hanging straight, no effective command. */
  lemma VariantEquilibrium(t: real, states: seq<real>, inputs: seq<real>, params: Overrides, c: real)
    requires |states| >= 6 && |inputs| >= 2
    requires states[0] == 0.0 && states[1] == 0.0 && states[3] == 0.0
    requires VariantCommands(states, inputs, params) == Commands(0.0, 0.0)
    requires c * c == 1.0
    requires var p := VariantParams(params);
      states[2] + p.l_0 != 0.0 && p.m_y != 0.0 && p.m_x + p.m_y != 0.0
    ensures VariantSystem(t, states, inputs, params, 0.0, c) == Some([0.0, 0.0, 0.0, 0.0, 0.0, 0.0])
  {
    FieldZeroAtRest(VariantParams(params), Unpack(states), VariantCommands(states, inputs, params), c, false);
  }

  /** The older `output`: cart position, cable length and the angle in degrees, unscaled. */
  function VariantOutput(t: real, states: seq<real>, inputs: seq<real>, params: Overrides): (y: seq<real>)
    requires |states| >= 6
    ensures |y| == 3
    ensures y[0] == states[5] && y[1] == states[2]
    ensures Radians(y[2]) == states[4]
  {
    DegreesRadiansRoundTrip(states[4]);
    [states[5], states[2], Degrees(states[4])]
  }
}
