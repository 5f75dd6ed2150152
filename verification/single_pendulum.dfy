/**
 * systems/single_pendulum_nonlinear.py: the `system` state-derivative function and the `output`
 * readout of the pendulum-on-cart model used by the parameter fit.
 *
 * `s` and `c` stand for sin(varphi) and cos(varphi) of the angle state `states[4]`.
 */
module SinglePendulum {
  import opened Wrappers
  import opened Units
  import opened Parameters
  import opened Dynamics

  /** The defaults `system` falls back to. */
  const SystemDefaults: Params := Params(
    m_x := 40.0, m_y := 3.0, y_max := 1.2, g := 9.81, c_varphi := 0.12, c_x := 0.5,
    k_x := 250.0, k_l := 500.0, l_0 := 0.23, k_vx := 3.6, k_vl := -1.65)

  /** Travel limits: the cart moves on [0, 2.5], the cable on [0, 1.3]. */
  const TravelLimits: Limits := Limits(xMin := 0.0, xMax := 2.5, lMin := 0.0, lMax := 1.3)

  /** The default output scale of the angle channel. */
  const DefaultAngleScale: real := 0.5

  /** The parameters `system` works with for a given override dict. */
  function SystemParams(params: Overrides): (p: Params)
    ensures p.k_vx == (if "k_vx" in params then params["k_vx"] else 3.6)
    ensures p.k_vl == (if "k_vl" in params then params["k_vl"] else -1.65)
    ensures params == map[] ==> p == SystemDefaults
  {
    Resolve(params, SystemDefaults)
  }

  /** The velocity commands after the input gains and the safety clamp. */
  function ClampedCommands(states: seq<real>, inputs: seq<real>, params: Overrides): (cmd: Dynamics.Commands)
    requires |states| >= 6 && |inputs| >= 2
    ensures 0.0 <= states[5] <= 2.5 ==> cmd.v_x == SystemParams(params).k_vx * inputs[0]
    ensures states[5] < 0.0 || states[5] > 2.5 ==> cmd.v_x == 0.0
    ensures 0.0 <= states[2] <= 1.3 ==> cmd.v_l == SystemParams(params).k_vl * inputs[1]
    ensures states[2] < 0.0 || states[2] > 1.3 ==> cmd.v_l == 0.0
  {
    EffectiveCommands(Unpack(states), inputs[0], inputs[1], SystemParams(params), TravelLimits)
  }

  /**
   * `system(t, states, inputs, params)`: the derivative [d_L, d_X, d_l, d_phi, d_varphi, d_x],
   * or None where one of the three shared denominators is zero.
   */
  function System(t: real, states: seq<real>, inputs: seq<real>, params: Overrides, s: real, c: real)
    : (r: Option<seq<real>>)
    requires |states| >= 6 && |inputs| >= 2
    ensures r.Some? <==> Divisible(SystemParams(params), Unpack(states), s, c)
    ensures r.Some? ==> |r.value| == 6
    ensures r.Some? ==> r.value[2] == states[0] && r.value[4] == states[3] && r.value[5] == states[1]
  {
    VectorField(SystemParams(params), Unpack(states), ClampedCommands(states, inputs, params), s, c, true)
  }

  /**
   * The accelerations `system` returns: d_L, d_X and d_phi are the numerators of the source,
   * g * l_0 terms included, over their shared denominators.
   */
  lemma SystemAccelerations(t: real, states: seq<real>, inputs: seq<real>, params: Overrides, s: real, c: real)
    requires |states| >= 6 && |inputs| >= 2
    requires System(t, states, inputs, params, s, c).Some?
    ensures var d, p, st, cmd := System(t, states, inputs, params, s, c).value, SystemParams(params),
                                 Unpack(states), ClampedCommands(states, inputs, params);
      && d[0] == NumL(p, st, cmd, s, c, true) / DenL(st.l, p.l_0, p.m_x, p.m_y, s, c)
      && d[1] == NumX(p, st, cmd, s, c, true) / DenX(st.l, p.l_0, p.m_x, p.m_y, s, c)
      && d[3] == NumPhi(p, st, cmd, s, c, true) / DenPhi(st.l, p.l_0, p.m_x, p.m_y, s, c)
  {
    Accelerations(SystemParams(params), Unpack(states), ClampedCommands(states, inputs, params), s, c, true);
  }

  /**
   * On the unit circle `system` is defined exactly when l + l_0, m_y and m_x + m_y are nonzero,
   * with the parameters as resolved from the overrides.
   */
  lemma SystemDefinedIff(t: real, states: seq<real>, inputs: seq<real>, params: Overrides, s: real, c: real)
    requires |states| >= 6 && |inputs| >= 2
    requires s * s + c * c == 1.0
    ensures var p := SystemParams(params);
      System(t, states, inputs, params, s, c).Some? <==>
        states[2] + p.l_0 != 0.0 && p.m_y != 0.0 && p.m_x + p.m_y != 0.0
  {
    DivisibleIff(SystemParams(params), Unpack(states), s, c);
  }

  /** With the default parameters `system` is defined for every cable length l > -0.23. */
  lemma DefaultsDefined(t: real, states: seq<real>, inputs: seq<real>, s: real, c: real)
    requires |states| >= 6 && |inputs| >= 2
    requires s * s + c * c == 1.0
    requires states[2] > -0.23
    ensures System(t, states, inputs, map[], s, c).Some?
  {
    SystemDefinedIff(t, states, inputs, map[], s, c);
  }

  /**
   * Equilibrium: at rest (L = X = phi = 0), hanging straight (sin varphi = 0) and with both
   * effective commands zero, the derivative is the zero vector.
   */
  lemma SystemEquilibrium(t: real, states: seq<real>, inputs: seq<real>, params: Overrides, c: real)
    requires |states| >= 6 && |inputs| >= 2
    requires states[0] == 0.0 && states[1] == 0.0 && states[3] == 0.0
    requires ClampedCommands(states, inputs, params) == Dynamics.Commands(0.0, 0.0)
    requires c * c == 1.0
    requires var p := SystemParams(params);
      states[2] + p.l_0 != 0.0 && p.m_y != 0.0 && p.m_x + p.m_y != 0.0
    ensures System(t, states, inputs, params, 0.0, c) == Some([0.0, 0.0, 0.0, 0.0, 0.0, 0.0])
  {
    FieldZeroAtRest(SystemParams(params), Unpack(states), ClampedCommands(states, inputs, params), c, true);
  }

  /** Zero raw inputs give zero effective commands, wherever the axes are. */
  lemma ZeroInputsZeroCommands(states: seq<real>, params: Overrides)
    requires |states| >= 6
    ensures ClampedCommands(states, [0.0, 0.0], params) == Dynamics.Commands(0.0, 0.0)
  {
  }

  /** The derivative does not depend on the time argument. */
  lemma SystemTimeInvariant(t: real, t': real, states: seq<real>, inputs: seq<real>, params: Overrides, s: real, c: real)
    requires |states| >= 6 && |inputs| >= 2
    ensures System(t, states, inputs, params, s, c) == System(t', states, inputs, params, s, c)
  {
  }

  /** `output`: cart position, cable length and the scaled angle in degrees. */
  function Output(t: real, states: seq<real>, inputs: seq<real>, params: Overrides): (y: seq<real>)
    requires |states| >= 6
    ensures |y| == 3
    ensures y[0] == states[5] && y[1] == states[2]
    ensures y[2] * Pi == Lookup(params, "k_phi", DefaultAngleScale) * states[4] * 180.0
  {
    [states[5], states[2], Lookup(params, "k_phi", DefaultAngleScale) * Degrees(states[4])]
  }

  /** `output` reads x, l and varphi only: the rates and the inputs play no part. */
  lemma OutputReadsPositionsOnly(t: real, t': real, states: seq<real>, states': seq<real>,
                                 inputs: seq<real>, inputs': seq<real>, params: Overrides)
    requires |states| >= 6 && |states'| >= 6
    requires states[2] == states'[2] && states[4] == states'[4] && states[5] == states'[5]
    ensures Output(t, states, inputs, params) == Output(t', states', inputs', params)
  {
  }

  /** The angle channel is converted back to radians by undoing the scale and the unit change. */
  lemma OutputAngleRecoversState(t: real, states: seq<real>, inputs: seq<real>, params: Overrides)
    requires |states| >= 6
    requires Lookup(params, "k_phi", DefaultAngleScale) != 0.0
    ensures Radians(Output(t, states, inputs, params)[2] / Lookup(params, "k_phi", DefaultAngleScale))
            == states[4]
  {
    var k := Lookup(params, "k_phi", DefaultAngleScale);
    assert k * Degrees(states[4]) / k == Degrees(states[4]);
    DegreesRadiansRoundTrip(states[4]);
  }
}
