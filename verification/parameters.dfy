/**
 * The physical parameter set read by the pendulum vector field. The source passes a dict of
 * overrides and reads every parameter with `params.get(key, default)`; here the defaults are a
 * `Params` record and `Resolve` performs the merge.
 */
module Parameters {
  import opened Wrappers

  /** Overrides as the caller passes them: parameter name to value. */
  type Overrides = map<string, real>

  datatype Params = Params(
    m_x: real,       // cart mass
    m_y: real,       // pendulum bob mass
    y_max: real,     // read but unused by the equations
    g: real,         // gravitational acceleration
    c_varphi: real,  // angular damping
    c_x: real,       // read but unused by the equations
    k_x: real,       // cart drive stiffness
    k_l: real,       // cable drive stiffness
    l_0: real,       // cable rest length
    k_vx: real,      // gain from the cart command to the cart velocity
    k_vl: real       // gain from the cable command to the cable velocity
  )

  /** The names the vector field reads, in the order the source reads them. */
  const ParamNames: seq<string> :=
    ["m_x", "m_y", "y_max", "g", "c_varphi", "c_x", "k_x", "k_l", "l_0", "k_vx", "k_vl"]

  /** `params.get(key, default)`: the caller's value when the dict has the key, the default otherwise. */
  function Lookup(overrides: Overrides, key: string, default: real): (r: real)
    ensures key in overrides ==> r == overrides[key]
    ensures key !in overrides ==> r == default
  {
    if key in overrides then overrides[key] else default
  }

  /** The value of the parameter called `name`, or None for a name the vector field never reads. */
  function Field(p: Params, name: string): (r: Option<real>)
    ensures r.Some? <==> name in ParamNames
  {
    match name
    case "m_x" => Some(p.m_x)
    case "m_y" => Some(p.m_y)
    case "y_max" => Some(p.y_max)
    case "g" => Some(p.g)
    case "c_varphi" => Some(p.c_varphi)
    case "c_x" => Some(p.c_x)
    case "k_x" => Some(p.k_x)
    case "k_l" => Some(p.k_l)
    case "l_0" => Some(p.l_0)
    case "k_vx" => Some(p.k_vx)
    case "k_vl" => Some(p.k_vl)
    case _ => None
  }

  /** Merge the caller's overrides over a default set, one `get` per parameter. */
  function Resolve(overrides: Overrides, defaults: Params): (r: Params)
    ensures forall name :: name in ParamNames ==>
      Field(r, name) == Some(if name in overrides then overrides[name] else Field(defaults, name).value)
  {
    Params(
      m_x := Lookup(overrides, "m_x", defaults.m_x),
      m_y := Lookup(overrides, "m_y", defaults.m_y),
      y_max := Lookup(overrides, "y_max", defaults.y_max),
      g := Lookup(overrides, "g", defaults.g),
      c_varphi := Lookup(overrides, "c_varphi", defaults.c_varphi),
      c_x := Lookup(overrides, "c_x", defaults.c_x),
      k_x := Lookup(overrides, "k_x", defaults.k_x),
      k_l := Lookup(overrides, "k_l", defaults.k_l),
      l_0 := Lookup(overrides, "l_0", defaults.l_0),
      k_vx := Lookup(overrides, "k_vx", defaults.k_vx),
      k_vl := Lookup(overrides, "k_vl", defaults.k_vl)
    )
  }

  /** The full dict that names every parameter of `p`. */
  function ToOverrides(p: Params): (m: Overrides)
    ensures m.Keys == set name | name in ParamNames
    ensures forall name :: name in m ==> Some(m[name]) == Field(p, name)
  {
    map["m_x" := p.m_x, "m_y" := p.m_y, "y_max" := p.y_max, "g" := p.g,
        "c_varphi" := p.c_varphi, "c_x" := p.c_x, "k_x" := p.k_x, "k_l" := p.k_l,
        "l_0" := p.l_0, "k_vx" := p.k_vx, "k_vl" := p.k_vl]
  }

  /** With no overrides every default applies. */
  lemma ResolveNoOverrides(defaults: Params)
    ensures Resolve(map[], defaults) == defaults
  {
  }

  /** A dict naming every parameter fixes the result whatever the defaults. */
  lemma ResolveFullOverrides(p: Params, defaults: Params)
    ensures Resolve(ToOverrides(p), defaults) == p
  {
  }

  /** Overriding one name changes that parameter only. */
  lemma ResolveOneOverride(overrides: Overrides, defaults: Params, key: string, v: real)
    requires key in ParamNames
    ensures Field(Resolve(overrides[key := v], defaults), key) == Some(v)
    ensures forall name :: name in ParamNames && name != key ==>
      Field(Resolve(overrides[key := v], defaults), name) == Field(Resolve(overrides, defaults), name)
  {
  }
}
