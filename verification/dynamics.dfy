/**
 * The algebra of the pendulum-on-cart vector field, shared by the two copies of the equations
 * (systems/single_pendulum_nonlinear.py and the older one inside experiments/simulate_system.py).
 *
 * The source writes each acceleration as a long sum `term_1/D + term_2/D + ...` over one shared
 * denominator D. Here every denominator is named once and every numerator is the sum of the
 * source's terms, in the source's order, with `sin(varphi)` and `cos(varphi)` given as the reals
 * `s` and `c` and `a ** 2` written `a * a`. In exact arithmetic the two forms are equal.
 * The older copy lacks exactly the terms that carry `g * l_0`; `restGravity` switches them.
 */
module Dynamics {
  import opened Wrappers
  import opened Parameters

  /** The six states, in the order of the state vector: L, X, l, phi, varphi, x. */
  datatype State = State(
    L: real,       // cable-length rate
    X: real,       // cart velocity
    l: real,       // cable length
    phi: real,     // angular rate
    varphi: real,  // pendulum angle
    x: real        // cart position
  )

  /** The state list as the solver passes it; entries past the sixth are never read. */
  function Unpack(states: seq<real>): (st: State)
    requires |states| >= 6
    ensures [st.L, st.X, st.l, st.phi, st.varphi, st.x] == states[..6]
  {
    State(states[0], states[1], states[2], states[3], states[4], states[5])
  }

  /** Travel limits of the safety clamp: the cart position range and the cable length range. */
  datatype Limits = Limits(xMin: real, xMax: real, lMin: real, lMax: real)

  /** A command survives only while its axis position lies inside [lo, hi]. */
  function Clamp(v: real, pos: real, lo: real, hi: real): (r: real)
    ensures lo <= pos <= hi ==> r == v
    ensures pos < lo || pos > hi ==> r == 0.0
  {
    if pos < lo || pos > hi then 0.0 else v
  }

  /** The effective velocity commands after scaling and clamping. */
  datatype Commands = Commands(v_x: real, v_l: real)

  /** Scale the two raw inputs by their gains, then zero a command whose axis is out of range. */
  function EffectiveCommands(st: State, u0: real, u1: real, p: Params, lim: Limits): (cmd: Commands)
    ensures lim.xMin <= st.x <= lim.xMax ==> cmd.v_x == p.k_vx * u0
    ensures st.x < lim.xMin || st.x > lim.xMax ==> cmd.v_x == 0.0
    ensures lim.lMin <= st.l <= lim.lMax ==> cmd.v_l == p.k_vl * u1
    ensures st.l < lim.lMin || st.l > lim.lMax ==> cmd.v_l == 0.0
  {
    Commands(Clamp(p.k_vx * u0, st.x, lim.xMin, lim.xMax), Clamp(p.k_vl * u1, st.l, lim.lMin, lim.lMax))
  }

  /** The clamp reads the two positions only: rates and angles play no part. */
  lemma CommandsDependOnPositionsOnly(st: State, st': State, u0: real, u1: real, p: Params, lim: Limits)
    requires st.x == st'.x && st.l == st'.l
    ensures EffectiveCommands(st, u0, u1, p, lim) == EffectiveCommands(st', u0, u1, p, lim)
  {
  }

  // ---------------------------------------------------------------- denominators

  /** Shared denominator of d_L. */
  function DenL(l: real, l_0: real, m_x: real, m_y: real, s: real, c: real): real
  {
    - l * m_x * m_y + l * m_y * m_y * s * s + l * m_y * m_y * c * c - 2.0 * l * m_y * m_y
    - l_0 * m_x * m_y + l_0 * m_y * m_y * s * s + l_0 * m_y * m_y * c * c - 2.0 * l_0 * m_y * m_y
  }

  /** Shared denominator of d_X. */
  function DenX(l: real, l_0: real, m_x: real, m_y: real, s: real, c: real): real
  {
    - l * m_x + l * m_y * s * s + l * m_y * c * c - 2.0 * l * m_y
    - l_0 * m_x + l_0 * m_y * s * s + l_0 * m_y * c * c - 2.0 * l_0 * m_y
  }

  /** Shared denominator of d_phi. */
  function DenPhi(l: real, l_0: real, m_x: real, m_y: real, s: real, c: real): real
  {
    - l * l * m_x * m_y + l * l * m_y * m_y * s * s + l * l * m_y * m_y * c * c - 2.0 * l * l * m_y * m_y
    - 2.0 * l * l_0 * m_x * m_y + 2.0 * l * l_0 * m_y * m_y * s * s + 2.0 * l * l_0 * m_y * m_y * c * c
    - 4.0 * l * l_0 * m_y * m_y
    - l_0 * l_0 * m_x * m_y + l_0 * l_0 * m_y * m_y * s * s + l_0 * l_0 * m_y * m_y * c * c
    - 2.0 * l_0 * l_0 * m_y * m_y
  }

  // ---------------------------------------------------------------- numerators

  /** Numerator of d_L: the source's 31 terms (30 without the g * l_0 term). */
  function NumL(p: Params, st: State, cmd: Commands, s: real, c: real, restGravity: bool): real
  {
    var m_x, m_y, g, c_varphi, k_x, k_l, l_0 := p.m_x, p.m_y, p.g, p.c_varphi, p.k_x, p.k_l, p.l_0;
    var L, X, l, phi := st.L, st.X, st.l, st.phi;
    var v_x, v_l := cmd.v_x, cmd.v_l;
    L * k_l * l * m_x
    - L * k_l * l * m_y * c * c
    + 2.0 * L * k_l * l * m_y
    + L * k_l * l_0 * m_x
    - L * k_l * l_0 * m_y * c * c
    + 2.0 * L * k_l * l_0 * m_y
    + X * k_x * l * m_y * s
    + X * k_x * l_0 * m_y * s
    + c_varphi * m_y * phi * s * c
    + g * l * m_y * m_y * s * s * c
    + (if restGravity then g * l_0 * m_y * m_y * s * s * c else 0.0)
    - k_l * l * m_x * v_l
    + k_l * l * m_y * v_l * c * c
    - 2.0 * k_l * l * m_y * v_l
    - k_l * l_0 * m_x * v_l
    + k_l * l_0 * m_y * v_l * c * c
    - 2.0 * k_l * l_0 * m_y * v_l
    - k_x * l * m_y * v_x * s
    - k_x * l_0 * m_y * v_x * s
    - l * l * m_x * m_y * phi * phi
    + l * l * m_y * m_y * phi * phi * s * s
    + l * l * m_y * m_y * phi * phi * c * c
    - 2.0 * l * l * m_y * m_y * phi * phi
    - 2.0 * l * l_0 * m_x * m_y * phi * phi
    + 2.0 * l * l_0 * m_y * m_y * phi * phi * s * s
    + 2.0 * l * l_0 * m_y * m_y * phi * phi * c * c
    - 4.0 * l * l_0 * m_y * m_y * phi * phi
    - l_0 * l_0 * m_x * m_y * phi * phi
    + l_0 * l_0 * m_y * m_y * phi * phi * s * s
    + l_0 * l_0 * m_y * m_y * phi * phi * c * c
    - 2.0 * l_0 * l_0 * m_y * m_y * phi * phi
  }


  /** Numerator of d_X: the source's 11 terms (10 without the g * l_0 term). */
  function NumX(p: Params, st: State, cmd: Commands, s: real, c: real, restGravity: bool): real
  {
    var m_y, g, c_varphi, k_x, k_l, l_0 := p.m_y, p.g, p.c_varphi, p.k_x, p.k_l, p.l_0;
    var L, X, l, phi := st.L, st.X, st.l, st.phi;
    var v_x, v_l := cmd.v_x, cmd.v_l;
    L * k_l * l * s
    + L * k_l * l_0 * s
    + X * k_x * l
    + X * k_x * l_0
    + c_varphi * phi * c
    + g * l * m_y * s * c
    + (if restGravity then g * l_0 * m_y * s * c else 0.0)
    - k_l * l * v_l * s
    - k_l * l_0 * v_l * s
    - k_x * l * v_x
    - k_x * l_0 * v_x
  }


  /** Numerator of d_phi: the source's 25 terms (22 without the g * l_0 terms). */
  function NumPhi(p: Params, st: State, cmd: Commands, s: real, c: real, restGravity: bool): real
  {
    var m_x, m_y, g, c_varphi, k_x, k_l, l_0 := p.m_x, p.m_y, p.g, p.c_varphi, p.k_x, p.k_l, p.l_0;
    var L, X, l, phi := st.L, st.X, st.l, st.phi;
    var v_x, v_l := cmd.v_x, cmd.v_l;
    L * k_l * l * m_y * s * c
    + L * k_l * l_0 * m_y * s * c
    + 2.0 * L * l * m_x * m_y * phi
    - 2.0 * L * l * m_y * m_y * phi * s * s
    - 2.0 * L * l * m_y * m_y * phi * c * c
    + 4.0 * L * l * m_y * m_y * phi
    + 2.0 * L * l_0 * m_x * m_y * phi
    - 2.0 * L * l_0 * m_y * m_y * phi * s * s
    - 2.0 * L * l_0 * m_y * m_y * phi * c * c
    + 4.0 * L * l_0 * m_y * m_y * phi
    + X * k_x * l * m_y * c
    + X * k_x * l_0 * m_y * c
    + c_varphi * m_x * phi
    - c_varphi * m_y * phi * s * s
    + 2.0 * c_varphi * m_y * phi
    + g * l * m_x * m_y * s
    - g * l * m_y * m_y * s * s * s
    + 2.0 * g * l * m_y * m_y * s
    + (if restGravity then g * l_0 * m_x * m_y * s else 0.0)
    + (if restGravity then -g * l_0 * m_y * m_y * s * s * s else 0.0)
    + (if restGravity then 2.0 * g * l_0 * m_y * m_y * s else 0.0)
    - k_l * l * m_y * v_l * s * c
    - k_l * l_0 * m_y * v_l * s * c
    - k_x * l * m_y * v_x * c
    - k_x * l_0 * m_y * v_x * c
  }


  // ---------------------------------------------------------------- the vector field

  /** All three shared denominators are nonzero, so every division is defined. */
  predicate Divisible(p: Params, st: State, s: real, c: real)
  {
    && DenL(st.l, p.l_0, p.m_x, p.m_y, s, c) != 0.0
    && DenX(st.l, p.l_0, p.m_x, p.m_y, s, c) != 0.0
    && DenPhi(st.l, p.l_0, p.m_x, p.m_y, s, c) != 0.0
  }

  /**
   * The state derivative from the three accelerations given as numerator over denominator, or
   * None when a denominator is 0.
   */
  function Assemble(st: State, nL: real, dL: real, nX: real, dX: real, nPhi: real, dPhi: real)
    : (r: Option<seq<real>>)
    ensures r.Some? <==> dL != 0.0 && dX != 0.0 && dPhi != 0.0
    ensures r.Some? ==> |r.value| == 6
    ensures r.Some? ==> r.value[2] == st.L && r.value[4] == st.phi && r.value[5] == st.X
    ensures r.Some? ==> r.value[0] * dL == nL && r.value[1] * dX == nX && r.value[3] * dPhi == nPhi
  {
    if dL == 0.0 || dX == 0.0 || dPhi == 0.0 then None
    else Some([nL / dL, nX / dX, st.L, nPhi / dPhi, st.phi, st.X])
  }

  /**
   * The derivative [d_L, d_X, d_l, d_phi, d_varphi, d_x] for given effective commands, or None
   * where a denominator vanishes (the source then divides by zero).
   */
  function VectorField(p: Params, st: State, cmd: Commands, s: real, c: real, restGravity: bool): (r: Option<seq<real>>)
    ensures r.Some? <==> Divisible(p, st, s, c)
    ensures r.Some? ==> |r.value| == 6
    ensures r.Some? ==> r.value[2] == st.L && r.value[4] == st.phi && r.value[5] == st.X
  {
    Assemble(st,
      NumL(p, st, cmd, s, c, restGravity), DenL(st.l, p.l_0, p.m_x, p.m_y, s, c),
      NumX(p, st, cmd, s, c, restGravity), DenX(st.l, p.l_0, p.m_x, p.m_y, s, c),
      NumPhi(p, st, cmd, s, c, restGravity), DenPhi(st.l, p.l_0, p.m_x, p.m_y, s, c))
  }

  /**
   * Each acceleration of a defined derivative is its numerator over its shared denominator:
   * d_L = NumL / DenL, d_X = NumX / DenX, d_phi = NumPhi / DenPhi.
   */
  lemma Accelerations(p: Params, st: State, cmd: Commands, s: real, c: real, restGravity: bool)
    requires VectorField(p, st, cmd, s, c, restGravity).Some?
    ensures var d := VectorField(p, st, cmd, s, c, restGravity).value;
      && d[0] == NumL(p, st, cmd, s, c, restGravity) / DenL(st.l, p.l_0, p.m_x, p.m_y, s, c)
      && d[1] == NumX(p, st, cmd, s, c, restGravity) / DenX(st.l, p.l_0, p.m_x, p.m_y, s, c)
      && d[3] == NumPhi(p, st, cmd, s, c, restGravity) / DenPhi(st.l, p.l_0, p.m_x, p.m_y, s, c)
  {
  }

  // ---------------------------------------------------------------- closed forms

  /** On the unit circle the d_L denominator is -(l + l_0) * m_y * (m_x + m_y). */
  lemma DenLClosedForm(l: real, l_0: real, m_x: real, m_y: real, s: real, c: real)
    requires s * s + c * c == 1.0
    ensures DenL(l, l_0, m_x, m_y, s, c) == -(l + l_0) * m_y * (m_x + m_y)
  {
  }

  /** On the unit circle the d_X denominator is -(l + l_0) * (m_x + m_y). */
  lemma DenXClosedForm(l: real, l_0: real, m_x: real, m_y: real, s: real, c: real)
    requires s * s + c * c == 1.0
    ensures DenX(l, l_0, m_x, m_y, s, c) == -(l + l_0) * (m_x + m_y)
  {
  }

  /** On the unit circle the d_phi denominator is -(l + l_0)^2 * m_y * (m_x + m_y). */
  lemma DenPhiClosedForm(l: real, l_0: real, m_x: real, m_y: real, s: real, c: real)
    requires s * s + c * c == 1.0
    ensures DenPhi(l, l_0, m_x, m_y, s, c) == -(l + l_0) * (l + l_0) * m_y * (m_x + m_y)
  {
  }

  /** A product of reals is zero exactly when one of its factors is. */
  lemma ProductNonzero(a: real, b: real)
    ensures a * b != 0.0 <==> a != 0.0 && b != 0.0
  {
  }

  /** The three closed forms are all nonzero exactly when their three factors are. */
  lemma ClosedFormsNonzero(a: real, b: real, m: real)
    ensures (-a * b * m != 0.0 && -a * m != 0.0 && -a * a * b * m != 0.0) <==> (a != 0.0 && b != 0.0 && m != 0.0)
  {
    ProductNonzero(-a, b);
    ProductNonzero(-a * b, m);
    ProductNonzero(-a, m);
    ProductNonzero(-a, a);
    ProductNonzero(-a * a, b);
    ProductNonzero(-a * a * b, m);
  }

  /**
   * On the unit circle the vector field is defined exactly when the effective cable length
   * l + l_0, the bob mass and the total mass are all nonzero.
   */
  lemma DivisibleIff(p: Params, st: State, s: real, c: real)
    requires s * s + c * c == 1.0
    ensures Divisible(p, st, s, c) <==> st.l + p.l_0 != 0.0 && p.m_y != 0.0 && p.m_x + p.m_y != 0.0
  {
    var a, b, m := st.l + p.l_0, p.m_y, p.m_x + p.m_y;
    DenLClosedForm(st.l, p.l_0, p.m_x, p.m_y, s, c);
    DenXClosedForm(st.l, p.l_0, p.m_x, p.m_y, s, c);
    DenPhiClosedForm(st.l, p.l_0, p.m_x, p.m_y, s, c);
    var dL, dX, dPhi := DenL(st.l, p.l_0, p.m_x, p.m_y, s, c), DenX(st.l, p.l_0, p.m_x, p.m_y, s, c), DenPhi(st.l, p.l_0, p.m_x, p.m_y, s, c);
    assert dL == -a * b * m && dX == -a * m && dPhi == -a * a * b * m;
    assert Divisible(p, st, s, c) <==> dL != 0.0 && dX != 0.0 && dPhi != 0.0;
    ClosedFormsNonzero(a, b, m);
  }


  /** At rest, hanging straight (s = 0), with no effective command, every numerator is zero. */
  lemma NumeratorsVanishAtRest(p: Params, st: State, cmd: Commands, c: real, restGravity: bool)
    requires st.L == 0.0 && st.X == 0.0 && st.phi == 0.0
    requires cmd == Commands(0.0, 0.0)
    ensures NumL(p, st, cmd, 0.0, c, restGravity) == 0.0
    ensures NumX(p, st, cmd, 0.0, c, restGravity) == 0.0
    ensures NumPhi(p, st, cmd, 0.0, c, restGravity) == 0.0
  {
  }

  /**
   * Equilibrium: at rest, hanging straight, with no effective command and a positive-definite
   * geometry, the derivative is the zero vector.
   */
  lemma FieldZeroAtRest(p: Params, st: State, cmd: Commands, c: real, restGravity: bool)
    requires st.L == 0.0 && st.X == 0.0 && st.phi == 0.0
    requires cmd == Commands(0.0, 0.0)
    requires c * c == 1.0
    requires st.l + p.l_0 != 0.0 && p.m_y != 0.0 && p.m_x + p.m_y != 0.0
    ensures VectorField(p, st, cmd, 0.0, c, restGravity) == Some([0.0, 0.0, 0.0, 0.0, 0.0, 0.0])
  {
    DivisibleIff(p, st, 0.0, c);
    NumeratorsVanishAtRest(p, st, cmd, c, restGravity);
  }

  /** Without a rest length the two copies of the equations coincide. */
  lemma RestGravityVanishesWithoutRestLength(p: Params, st: State, cmd: Commands, s: real, c: real)
    requires p.l_0 == 0.0
    ensures VectorField(p, st, cmd, s, c, true) == VectorField(p, st, cmd, s, c, false)
  {
  }
}
