/**
 * experiments/parameter_optimization.py, `objective_function`: for a candidate parameter
 * vector, simulate every measurement episode under its recorded inputs and initial state and
 * score the simulated outputs against the measured ones.
 *
 * The numerical solver (`ct.input_output_response` on the pendulum system) is the function
 * parameter `simulate`: it returns the output rows, or says that it raised `RuntimeError` (the
 * one exception the source catches) or some other exception. Exceptions the source does not
 * catch (a missing dict key, a short list, a numpy shape mismatch, a solver exception other
 * than `RuntimeError`) are `Failure` results. Floats are reals.
 */
module Objective {
  import opened Wrappers
  import opened Units
  import opened Sums
  import Parameters
  import SinglePendulum

  /** One measurement episode: channel name to samples, with a "timestamps" channel. */
  type Episode = map<string, seq<real>>

  /** The arguments of one solver call: time grid `T`, input rows `U`, initial state `X0`, `params`. */
  datatype Problem = Problem(timestamps: seq<real>, inputs: seq<seq<real>>, x0: seq<real>, params: map<string, real>)

  /** What a solver call yields: the output rows, a `RuntimeError`, or any other exception. */
  datatype Solution = Solved(y: seq<seq<real>>) | RuntimeError | Raised

  /** The solver, `ct.input_output_response` on the pendulum system. */
  type Simulator = Problem -> Solution

  /** The score returned for the whole evaluation as soon as one simulation fails. */
  const Penalty: real := 1000.0

  /** The sample index the initial state is read from. */
  const StartIndex: nat := 3

  /** The state component holding the pendulum angle, measured in degrees. */
  const AngleIndex: nat := 4

  /** The uncaught exceptions of the source, with the episode index and channel concerned. */
  datatype Error =
    | MissingChannel(episode: nat, key: string)   // KeyError on the episode dict
    | TooFewSamples(episode: nat, key: string)    // IndexError reading sample 3
    | TooFewStateKeys                             // IndexError on initial_conditions[2] or [4]
    | TooFewParameters                            // IndexError on parameters[0..2]
    | ShapeMismatch(episode: nat, key: string)    // numpy cannot broadcast measured - simulated
    | EmptyChannel(episode: nat, key: string)     // mean of no samples (NaN in the source)
    | SolverException(episode: nat)               // the solver raised something other than RuntimeError

  /** The keyword arguments of `objective_function`. */
  datatype Config = Config(
    inputKeys: seq<string>,
    inputDelays: seq<real>,
    stateKeys: seq<Option<string>>,
    outputKeys: seq<string>,
    outputWeights: seq<real>,
    returnRecords: bool)

  /** The default arguments. */
  const Defaults: Config := Config(
    inputKeys := ["x_const_mess", "y_const_mess"],
    inputDelays := [0.3, 0.1],
    stateKeys := [None, None, Some("y_out_mess"), None, Some("phi_out_mess"), Some("x_out_mess")],
    outputKeys := ["x_out_mess", "y_out_mess", "phi_out_mess"],
    outputWeights := [0.2, 0.2, 1.0],
    returnRecords := false)

  function Min(a: nat, b: nat): nat
  {
    if a <= b then a else b
  }

  // ---------------------------------------------------------------- inputs

  /** Dead-time masking of one input channel: zero before `delay`, the sample from then on. */
  function Mask(ts: seq<real>, values: seq<real>, delay: real): (r: seq<real>)
    ensures |r| == Min(|ts|, |values|)
    ensures forall i :: 0 <= i < |r| ==> ts[i] < delay ==> r[i] == 0.0
    ensures forall i :: 0 <= i < |r| ==> ts[i] >= delay ==> r[i] == values[i]
  {
    if ts == [] || values == [] then []
    else [if ts[0] < delay then 0.0 else values[0]] + Mask(ts[1..], values[1..], delay)
  }

  /** A channel whose timestamps all lie at or after the delay passes through unchanged. */
  lemma MaskAfterDelayIsIdentity(ts: seq<real>, values: seq<real>, delay: real)
    requires |ts| == |values|
    requires forall i :: 0 <= i < |ts| ==> ts[i] >= delay
    ensures Mask(ts, values, delay) == values
  {
  }

  /** The masked input channels, one per (key, delay) pair; the shorter list bounds the pairs. */
  function BuildInputs(ep: Episode, index: nat, keys: seq<string>, delays: seq<real>, ts: seq<real>)
    : (r: Result<seq<seq<real>>, Error>)
    ensures r.Success? <==> forall k :: 0 <= k < Min(|keys|, |delays|) ==> keys[k] in ep
    ensures r.Success? ==> |r.value| == Min(|keys|, |delays|)
    ensures r.Success? ==>
      forall k :: 0 <= k < |r.value| ==> r.value[k] == Mask(ts, ep[keys[k]], delays[k])
    ensures r.Failure? ==> r.error.MissingChannel? && r.error.episode == index
  {
    if keys == [] || delays == [] then Success([])
    else if keys[0] !in ep then Failure(MissingChannel(index, keys[0]))
    else
      var rest :- BuildInputs(ep, index, keys[1..], delays[1..], ts);
      Success([Mask(ts, ep[keys[0]], delays[0])] + rest)
  }

  // ---------------------------------------------------------------- initial state

  /** A state key can be read: None, or a channel with at least four samples. */
  predicate Readable(ep: Episode, key: Option<string>)
  {
    key.None? || (key.value in ep && |ep[key.value]| > StartIndex)
  }

  /** The starting value for one state component: 0 for None, else the channel's sample 3. */
  function StartValue(ep: Episode, key: Option<string>): real
    requires Readable(ep, key)
  {
    if key.None? then 0.0 else ep[key.value][StartIndex]
  }

  /** The initial-condition list before the unit conversion, one entry per state key. */
  function RawInitialState(ep: Episode, index: nat, keys: seq<Option<string>>): (r: Result<seq<real>, Error>)
    ensures r.Success? <==> forall k :: 0 <= k < |keys| ==> Readable(ep, keys[k])
    ensures r.Success? ==> |r.value| == |keys|
    ensures r.Success? ==> forall k :: 0 <= k < |keys| ==> r.value[k] == StartValue(ep, keys[k])
  {
    if keys == [] then Success([])
    else
      var key := keys[0];
      if key.Some? && key.value !in ep then Failure(MissingChannel(index, key.value))
      else if key.Some? && |ep[key.value]| <= StartIndex then Failure(TooFewSamples(index, key.value))
      else
        var rest :- RawInitialState(ep, index, keys[1..]);
        Success([StartValue(ep, key)] + rest)
  }

  /**
   * The initial state: the raw list with component 4 (the angle) turned from degrees into
   * radians. Component 2 is assigned to itself, which only demands that it exist.
   */
  function InitialState(ep: Episode, index: nat, keys: seq<Option<string>>): (r: Result<seq<real>, Error>)
    ensures r.Success? <==> |keys| > AngleIndex && forall k :: 0 <= k < |keys| ==> Readable(ep, keys[k])
    ensures r.Success? ==> |r.value| == |keys|
    ensures r.Success? ==>
      forall k :: 0 <= k < |keys| && k != AngleIndex ==> r.value[k] == StartValue(ep, keys[k])
    ensures r.Success? ==> Degrees(r.value[AngleIndex]) == StartValue(ep, keys[AngleIndex])
  {
    var raw :- RawInitialState(ep, index, keys);
    if |raw| <= AngleIndex then Failure(TooFewStateKeys)
    else
      DegreesRadiansRoundTrip(raw[AngleIndex]);
      Success(raw[AngleIndex := Radians(raw[AngleIndex])])
  }

  // ---------------------------------------------------------------- parameters

  /** The positional parameter vector as the override dict the system reads. */
  function ParamMap(parameters: Option<seq<real>>): (r: Result<map<string, real>, Error>)
    ensures parameters.None? ==> r == Success(map[])
    ensures parameters.Some? ==> (r.Success? <==> |parameters.value| >= 3)
    ensures parameters.Some? && r.Success? ==> r.value.Keys == {"m_x", "m_y", "c_varphi"}
    ensures parameters.Some? && r.Success? ==>
      r.value["m_x"] == parameters.value[0] && r.value["m_y"] == parameters.value[1]
      && r.value["c_varphi"] == parameters.value[2]
  {
    match parameters
    case None => Success(map[])
    case Some(p) =>
      if |p| < 3 then Failure(TooFewParameters)
      else Success(map["m_x" := p[0], "m_y" := p[1], "c_varphi" := p[2]])
  }

  /**
   * What the pendulum system makes of the mapped vector: m_x, m_y and c_varphi come from the
   * vector and every other parameter keeps its default.
   */
  lemma ParamMapResolves(p: seq<real>)
    requires |p| >= 3
    ensures Parameters.Resolve(ParamMap(Some(p)).value, SinglePendulum.SystemDefaults)
         == SinglePendulum.SystemDefaults.(m_x := p[0], m_y := p[1], c_varphi := p[2])
  {
  }

  /** Without a vector every default applies. */
  lemma ParamMapNoneResolves()
    ensures Parameters.Resolve(ParamMap(None).value, SinglePendulum.SystemDefaults)
         == SinglePendulum.SystemDefaults
  {
  }

  // ---------------------------------------------------------------- comparison

  /**
   * `np.abs(measured - simulated)` with numpy broadcasting: equal lengths pair up, a length-one
   * side is repeated, any other mismatch raises.
   */
  function AbsDiff(a: seq<real>, b: seq<real>): (r: Option<seq<real>>)
    ensures r.Some? <==> |a| == |b| || |a| == 1 || |b| == 1
    ensures r.Some? ==> forall i :: 0 <= i < |r.value| ==> r.value[i] >= 0.0
    ensures r.Some? && a == b ==> forall i :: 0 <= i < |r.value| ==> r.value[i] == 0.0
    ensures r.Some? && |a| == |b| ==> |r.value| == |a|
    ensures r.Some? && |a| == |b| ==> forall i :: 0 <= i < |a| ==> r.value[i] == Abs(a[i] - b[i])
    ensures |a| != |b| && |a| == 1 ==> r.Some? && |r.value| == |b| && forall i :: 0 <= i < |b| ==> r.value[i] == Abs(a[0] - b[i])
    ensures |a| != |b| && |b| == 1 ==> r.Some? && |r.value| == |a| && forall i :: 0 <= i < |a| ==> r.value[i] == Abs(a[i] - b[0])
  {
    if |a| == |b| then
      var d := seq(|a|, i requires 0 <= i < |a| => Abs(a[i] - b[i]));
      assert forall i :: 0 <= i < |a| ==> d[i] == Abs(a[i] - b[i]);
      Some(d)
    else if |a| == 1 then Some(seq(|b|, i requires 0 <= i < |b| => Abs(a[0] - b[i])))
    else if |b| == 1 then Some(seq(|a|, i requires 0 <= i < |a| => Abs(a[i] - b[0])))
    else None
  }

  function Abs(x: real): (r: real)
    ensures r >= 0.0
    ensures r == 0.0 <==> x == 0.0
  {
    if x < 0.0 then -x else x
  }

  /** `np.mean` of a nonempty list. */
  function Mean(xs: seq<real>): (r: real)
    requires |xs| > 0
    ensures (forall i :: 0 <= i < |xs| ==> xs[i] >= 0.0) ==> r >= 0.0
    ensures (forall i :: 0 <= i < |xs| ==> xs[i] == 0.0) ==> r == 0.0
  {
    Sum(xs) / (|xs| as real)
  }

  /** A measured and a simulated list broadcast against each other to at least one difference. */
  predicate Broadcastable(measured: seq<real>, simulated: seq<real>)
  {
    AbsDiff(measured, simulated).Some? && |AbsDiff(measured, simulated).value| > 0
  }

  /** `weight * np.mean(np.abs(measured - simulated))`: one channel's share of the error. */
  function WeightedError(weight: real, measured: seq<real>, simulated: seq<real>): (r: real)
    requires Broadcastable(measured, simulated)
    ensures weight >= 0.0 ==> r >= 0.0
    ensures measured == simulated ==> r == 0.0
  {
    var m := Mean(AbsDiff(measured, simulated).value);
    assert weight >= 0.0 ==> weight * m >= 0.0 by {
      if weight >= 0.0 { assert m >= 0.0; }
    }
    weight * m
  }

  /** One output channel can be scored against its simulated row. */
  predicate Comparable(ep: Episode, key: string, simulated: seq<real>)
  {
    key in ep && Broadcastable(ep[key], simulated)
  }

  /** The timestamps and the parallel measured and simulated lists of one episode. */
  datatype Record = Record(timestamps: seq<real>, measured: seq<seq<real>>, simulated: seq<seq<real>>)

  /** The error can be recomputed from a record: one weight per channel pair, each pair broadcastable. */
  predicate Rescorable(weights: seq<real>, rec: Record)
  {
    && |rec.measured| == |rec.simulated| <= |weights|
    && forall k :: 0 <= k < |rec.measured| ==> Broadcastable(rec.measured[k], rec.simulated[k])
  }

  /** The per-channel shares of the error, recomputed from a record. */
  function Terms(weights: seq<real>, rec: Record): (r: seq<real>)
    requires Rescorable(weights, rec)
    ensures |r| == |rec.measured|
    ensures forall k :: 0 <= k < |r| ==> r[k] == WeightedError(weights[k], rec.measured[k], rec.simulated[k])
  {
    seq(|rec.measured|, k requires 0 <= k < |rec.measured| =>
      WeightedError(weights[k], rec.measured[k], rec.simulated[k]))
  }

  /** The error of one episode as recomputed from its record: the sum of the channel shares. */
  function RecordError(weights: seq<real>, rec: Record): real
    requires Rescorable(weights, rec)
  {
    Sum(Terms(weights, rec))
  }

  /** Recomputing the error of a record channel by channel: the first share plus the rest. */
  lemma RecordErrorCons(weights: seq<real>, ts: seq<real>, m: seq<real>, s: seq<real>,
                        ms: seq<seq<real>>, ss: seq<seq<real>>)
    requires |weights| > 0 && Broadcastable(m, s) && Rescorable(weights[1..], Record(ts, ms, ss))
    ensures Rescorable(weights, Record(ts, [m] + ms, [s] + ss))
    ensures RecordError(weights, Record(ts, [m] + ms, [s] + ss))
         == WeightedError(weights[0], m, s) + RecordError(weights[1..], Record(ts, ms, ss))
  {
    var rec := Record(ts, [m] + ms, [s] + ss);
    assert forall k :: 1 <= k < |rec.measured| ==> rec.measured[k] == ms[k - 1] && rec.simulated[k] == ss[k - 1];
    assert Terms(weights, rec)[1..] == Terms(weights[1..], Record(ts, ms, ss));
  }

  /** The weighted error of one episode and the channel lists kept for the records. */
  datatype Comparison = Comparison(error: real, measured: seq<seq<real>>, simulated: seq<seq<real>>)

  /** The number of (key, weight, row) triples `zip` produces. */
  function Zip3Length(keys: seq<string>, weights: seq<real>, y: seq<seq<real>>): nat
  {
    Min(Min(|keys|, |weights|), |y|)
  }

  /** One channel's term: its weight times the mean absolute error between the two lists. */
  function ScoreChannel(ep: Episode, index: nat, key: string, weight: real, simulated: seq<real>)
    : (r: Result<real, Error>)
    ensures r.Success? <==> Comparable(ep, key, simulated)
    ensures r.Success? ==> r.value == WeightedError(weight, ep[key], simulated)
    ensures r.Success? && weight >= 0.0 ==> r.value >= 0.0
    ensures r.Success? && ep[key] == simulated ==> r.value == 0.0
    ensures r.Failure? && key !in ep ==> r.error == MissingChannel(index, key)
    ensures r.Failure? && key in ep ==> r.error == ShapeMismatch(index, key) || r.error == EmptyChannel(index, key)
  {
    if key !in ep then Failure(MissingChannel(index, key))
    else
      var diff := AbsDiff(ep[key], simulated);
      if diff.None? then Failure(ShapeMismatch(index, key))
      else if |diff.value| == 0 then Failure(EmptyChannel(index, key))
      else Success(WeightedError(weight, ep[key], simulated))
  }

  /**
   * The output-channel loop of one episode: the measured and simulated lists in `zip` order and
   * the sum of the channel terms, which is the error the record itself gives back.
   */
  function Compare(ep: Episode, index: nat, keys: seq<string>, weights: seq<real>, y: seq<seq<real>>)
    : (r: Result<Comparison, Error>)
    ensures r.Success? <==>
      forall k :: 0 <= k < Zip3Length(keys, weights, y) ==> Comparable(ep, keys[k], y[k])
    ensures r.Success? ==> |r.value.measured| == |r.value.simulated| == Zip3Length(keys, weights, y)
    ensures r.Success? ==> forall k :: 0 <= k < |r.value.measured| ==>
      keys[k] in ep && r.value.measured[k] == ep[keys[k]] && r.value.simulated[k] == y[k]
    ensures r.Success? && (forall k :: 0 <= k < Zip3Length(keys, weights, y) ==> weights[k] >= 0.0)
      ==> r.value.error >= 0.0
    ensures r.Success? && r.value.measured == r.value.simulated ==> r.value.error == 0.0
  {
    if keys == [] || weights == [] || y == [] then Success(Comparison(0.0, [], []))
    else
      assert Zip3Length(keys[1..], weights[1..], y[1..]) + 1 == Zip3Length(keys, weights, y);
      var term :- ScoreChannel(ep, index, keys[0], weights[0], y[0]);
      var rest :- Compare(ep, index, keys[1..], weights[1..], y[1..]);
      var r := Comparison(term + rest.error, [ep[keys[0]]] + rest.measured, [y[0]] + rest.simulated);
      assert r.measured == r.simulated ==> rest.measured == rest.simulated && ep[keys[0]] == y[0] by {
        if r.measured == r.simulated {
          assert r.measured[0] == r.simulated[0];
          assert r.measured[1..] == rest.measured && r.simulated[1..] == rest.simulated;
        }
      }
      Success(r)
  }

  /**
   * The error `Compare` accumulates channel by channel is the error recomputed from the lists it
   * keeps: the sum of weight * mean |measured - simulated| over the zipped channels.
   */
  lemma {:induction false} CompareError(ep: Episode, index: nat, keys: seq<string>, weights: seq<real>,
                                        y: seq<seq<real>>, ts: seq<real>)
    requires Compare(ep, index, keys, weights, y).Success?
    ensures var cmp := Compare(ep, index, keys, weights, y).value;
      && Rescorable(weights, Record(ts, cmp.measured, cmp.simulated))
      && cmp.error == RecordError(weights, Record(ts, cmp.measured, cmp.simulated))
  {
    if keys != [] && weights != [] && y != [] {
      var term := ScoreChannel(ep, index, keys[0], weights[0], y[0]).value;
      var rest := Compare(ep, index, keys[1..], weights[1..], y[1..]).value;
      assert Compare(ep, index, keys, weights, y).value
          == Comparison(term + rest.error, [ep[keys[0]]] + rest.measured, [y[0]] + rest.simulated);
      CompareError(ep, index, keys[1..], weights[1..], y[1..], ts);
      RecordErrorCons(weights, ts, ep[keys[0]], y[0], rest.measured, rest.simulated);
    }
  }

  // ---------------------------------------------------------------- one episode

  /** What one completed episode adds: its weighted error and its record. */
  datatype EpisodeResult = EpisodeResult(error: real, record: Record)

  predicate NonNegativeWeights(cfg: Config)
  {
    forall k :: 0 <= k < |cfg.outputWeights| ==> cfg.outputWeights[k] >= 0.0
  }

  /**
   * The solver call one episode sets up: its timestamps, the masked inputs, the initial state
   * read at sample 3 and the parameter dict, built in that order; the first step that raises
   * decides the error.
   */
  function Prepare(ep: Episode, index: nat, parameters: Option<seq<real>>, cfg: Config): (r: Result<Problem, Error>)
    ensures r.Success? <==>
      && "timestamps" in ep
      && BuildInputs(ep, index, cfg.inputKeys, cfg.inputDelays, ep["timestamps"]).Success?
      && InitialState(ep, index, cfg.stateKeys).Success?
      && ParamMap(parameters).Success?
    ensures r.Success? ==>
      && r.value.timestamps == ep["timestamps"]
      && r.value.inputs == BuildInputs(ep, index, cfg.inputKeys, cfg.inputDelays, ep["timestamps"]).value
      && r.value.x0 == InitialState(ep, index, cfg.stateKeys).value
      && r.value.params == ParamMap(parameters).value
    ensures "timestamps" !in ep ==> r == Failure(MissingChannel(index, "timestamps"))
  {
    if "timestamps" !in ep then Failure(MissingChannel(index, "timestamps"))
    else
      var ts := ep["timestamps"];
      var inputs :- BuildInputs(ep, index, cfg.inputKeys, cfg.inputDelays, ts);
      var x0 :- InitialState(ep, index, cfg.stateKeys);
      var params :- ParamMap(parameters);
      Success(Problem(ts, inputs, x0, params))
  }

  /**
   * One pass of the episode loop: None when the simulation raises `RuntimeError`, the
   * episode's contribution otherwise.
   */
  function EvalEpisode(ep: Episode, index: nat, parameters: Option<seq<real>>, cfg: Config, simulate: Simulator)
    : (r: Result<Option<EpisodeResult>, Error>)
    ensures Prepare(ep, index, parameters, cfg).Failure? ==>
      r == Failure(Prepare(ep, index, parameters, cfg).error)
    ensures r == Success(None) <==>
      Prepare(ep, index, parameters, cfg).Success? && simulate(Prepare(ep, index, parameters, cfg).value).RuntimeError?
    ensures Prepare(ep, index, parameters, cfg).Success? && simulate(Prepare(ep, index, parameters, cfg).value).Raised?
      ==> r == Failure(SolverException(index))
    ensures r.Success? && r.value.Some? ==>
      "timestamps" in ep && r.value.value.record.timestamps == ep["timestamps"]
    ensures r.Success? && r.value.Some? ==>
      |r.value.value.record.measured| == |r.value.value.record.simulated| <= |cfg.outputKeys|
    ensures r.Success? && r.value.Some? && NonNegativeWeights(cfg) ==> r.value.value.error >= 0.0
    ensures r.Success? && r.value.Some? && r.value.value.record.measured == r.value.value.record.simulated
      ==> r.value.value.error == 0.0
  {
    var pb :- Prepare(ep, index, parameters, cfg);
    match simulate(pb)
    case RuntimeError => Success(None)
    case Raised => Failure(SolverException(index))
    case Solved(y) =>
      var cmp :- Compare(ep, index, cfg.outputKeys, cfg.outputWeights, y);
      Success(Some(EpisodeResult(cmp.error, Record(pb.timestamps, cmp.measured, cmp.simulated))))
  }

  /**
   * An episode whose simulation returns rows y completes exactly when every zipped output
   * channel can be compared with its row; its record then pairs each measured channel with
   * the row of the same position, and its error is the one the record gives back.
   */
  lemma EpisodeSolved(ep: Episode, index: nat, parameters: Option<seq<real>>, cfg: Config, simulate: Simulator)
    requires Prepare(ep, index, parameters, cfg).Success?
    requires simulate(Prepare(ep, index, parameters, cfg).value).Solved?
    ensures var y, r := simulate(Prepare(ep, index, parameters, cfg).value).y,
                        EvalEpisode(ep, index, parameters, cfg, simulate);
      && (r.Success? <==>
            forall k :: 0 <= k < Zip3Length(cfg.outputKeys, cfg.outputWeights, y) ==> Comparable(ep, cfg.outputKeys[k], y[k]))
      && (r.Success? ==> r.value.Some?)
    ensures var y, r := simulate(Prepare(ep, index, parameters, cfg).value).y,
                        EvalEpisode(ep, index, parameters, cfg, simulate);
      r.Success? ==>
        var rec := r.value.value.record;
        && |rec.measured| == |rec.simulated| == Zip3Length(cfg.outputKeys, cfg.outputWeights, y)
        && (forall k :: 0 <= k < |rec.measured| ==> rec.measured[k] == ep[cfg.outputKeys[k]] && rec.simulated[k] == y[k])
        && Rescorable(cfg.outputWeights, rec)
        && r.value.value.error == RecordError(cfg.outputWeights, rec)
  {
    var pb := Prepare(ep, index, parameters, cfg).value;
    var y := simulate(pb).y;
    if Compare(ep, index, cfg.outputKeys, cfg.outputWeights, y).Success? {
      CompareError(ep, index, cfg.outputKeys, cfg.outputWeights, y, pb.timestamps);
    }
  }

  // ---------------------------------------------------------------- the episode loop

  /** What one pass of the loop yields: an exception, a failed simulation, or a contribution. */
  type Outcome = Result<Option<EpisodeResult>, Error>

  /** The loop either stops at a failed simulation or completes with a total and the records. */
  datatype Run = Diverged | Completed(total: real, records: map<nat, Record>)

  predicate Completes(o: Outcome)
  {
    o.Success? && o.value.Some?
  }

  /**
   * The outcome of every episode, in order. The loop below consumes them in order and stops at
   * the first one that does not complete, so later outcomes never influence the result.
   */
  function Outcomes(eps: seq<Episode>, parameters: Option<seq<real>>, cfg: Config, simulate: Simulator)
    : (os: seq<Outcome>)
    ensures |os| == |eps|
    ensures forall j :: 0 <= j < |os| ==> os[j] == EvalEpisode(eps[j], j, parameters, cfg, simulate)
  {
    seq(|eps|, j requires 0 <= j < |eps| => EvalEpisode(eps[j], j, parameters, cfg, simulate))
  }

  /** The outcomes from `from` up to `upto` all complete. */
  predicate CompleteBetween(os: seq<Outcome>, from: nat, upto: nat)
    requires upto <= |os|
  {
    forall j :: from <= j < upto ==> Completes(os[j])
  }

  /** The errors of the completed outcomes from `from` on, in order. */
  function Errors(os: seq<Outcome>, from: nat): (es: seq<real>)
    requires from <= |os| && CompleteBetween(os, from, |os|)
    ensures |es| == |os| - from
    ensures forall i :: 0 <= i < |es| ==> es[i] == os[from + i].value.value.error
  {
    seq(|os| - from, i requires 0 <= i < |os| - from => os[from + i].value.value.error)
  }

  /** Outcome k is the first failed simulation from index `from` on. */
  predicate FailsAt(os: seq<Outcome>, from: nat, k: nat)
  {
    from <= k < |os| && CompleteBetween(os, from, k) && os[k] == Success(None)
  }

  /** A completed outcome's error is 0 when its simulated lists equal its measured lists. */
  predicate ExactWhenEqual(o: Outcome)
  {
    (Completes(o) && o.value.value.record.measured == o.value.value.record.simulated)
      ==> o.value.value.error == 0.0
  }

  /**
   * The loop body from index `from` on: the first exception propagates, the first failed
   * simulation stops it, and otherwise the errors add up in order.
   */
  function RunFrom(os: seq<Outcome>, from: nat): (r: Result<Run, Error>)
    requires from <= |os|
    decreases |os| - from
    ensures r.Success? && r.value.Completed? ==>
      forall j: nat :: j in r.value.records <==> from <= j < |os|
    ensures r.Success? && r.value.Completed? ==>
      forall j :: from <= j < |os| ==> Completes(os[j]) && r.value.records[j] == os[j].value.value.record
    ensures r.Success? && r.value.Completed?
      && (forall j :: from <= j < |os| && Completes(os[j]) ==> os[j].value.value.error >= 0.0)
      ==> r.value.total >= 0.0
    ensures r.Success? && r.value.Completed?
      && (forall j :: from <= j < |os| ==> ExactWhenEqual(os[j]))
      && (forall j :: j in r.value.records ==> r.value.records[j].measured == r.value.records[j].simulated)
      ==> r.value.total == 0.0
  {
    if from == |os| then Success(Completed(0.0, map[]))
    else
      var step :- os[from];
      match step
      case None => Success(Diverged)
      case Some(er) =>
        var rest :- RunFrom(os, from + 1);
        match rest
        case Diverged => Success(Diverged)
        case Completed(total, records) =>
          Success(Completed(er.error + total, records[from := er.record]))
  }

  /** The loop completes exactly when every outcome from `from` on completes. */
  lemma {:induction false} RunCompletesIff(os: seq<Outcome>, from: nat)
    requires from <= |os|
    decreases |os| - from
    ensures RunFrom(os, from).Success? && RunFrom(os, from).value.Completed? <==> CompleteBetween(os, from, |os|)
  {
    if from < |os| {
      RunCompletesIff(os, from + 1);
    }
  }

  /** A completed loop's total is the sum of the outcome errors, in order. */
  lemma {:induction false} RunTotal(os: seq<Outcome>, from: nat)
    requires from <= |os| && CompleteBetween(os, from, |os|)
    decreases |os| - from
    ensures RunFrom(os, from).Success? && RunFrom(os, from).value.Completed?
    ensures RunFrom(os, from).value.total == Sum(Errors(os, from))
  {
    if from < |os| {
      RunTotal(os, from + 1);
      assert Errors(os, from)[1..] == Errors(os, from + 1);
    }
  }

  /** The value `objective_function` returns: the error alone, or with the records. */
  datatype Score = Scalar(value: real) | WithRecords(value: real, records: map<nat, Record>)

  /** `objective_function(parameters, ...)` over the loaded episode list. */
  function ObjectiveFunction(parameters: Option<seq<real>>, eps: seq<Episode>, cfg: Config, simulate: Simulator)
    : (r: Result<Score, Error>)
    ensures r.Success? && r.value.WithRecords? ==> cfg.returnRecords
    ensures r.Success? && r.value.WithRecords? ==>
      forall j: nat :: j in r.value.records <==> j < |eps|
    ensures r.Success? && NonNegativeWeights(cfg) ==> r.value.value >= 0.0
  {
    var os := Outcomes(eps, parameters, cfg, simulate);
    var run :- RunFrom(os, 0);
    match run
    case Diverged => Success(Scalar(Penalty))
    case Completed(total, records) =>
      if cfg.returnRecords then Success(WithRecords(total, records)) else Success(Scalar(total))
  }

  // ---------------------------------------------------------------- properties

  /**
   * The loop stops with a failed simulation exactly when some episode's simulation fails after
   * every earlier episode completed.
   */
  lemma {:induction false} DivergedIff(os: seq<Outcome>, from: nat)
    requires from <= |os|
    decreases |os| - from
    ensures RunFrom(os, from) == Success(Diverged) <==> exists k: nat :: FailsAt(os, from, k)
  {
    if from < |os| {
      DivergedIff(os, from + 1);
      if os[from] == Success(None) {
        assert FailsAt(os, from, from);
      } else if os[from].Success? {
        assert Completes(os[from]);
        assert RunFrom(os, from) == Success(Diverged) <==> RunFrom(os, from + 1) == Success(Diverged);
        var next := from + 1;
        if k :| FailsAt(os, next, k) {
          assert FailsAt(os, from, k);
        }
        if k :| FailsAt(os, from, k) {
          assert k != from;
          assert FailsAt(os, next, k);
        }
      } else {
        forall k: nat ensures !FailsAt(os, from, k) {
          if from < k < |os| {
            assert !Completes(os[from]);
          }
        }
      }
    }
  }

  /**
   * The penalty: when the solver raises `RuntimeError` on episode k's call and every earlier
   * episode completed, the result is exactly 1000 as a bare number, whatever the earlier error
   * and even when the records were requested.
   */
  lemma PenaltyOnFailedSimulation(parameters: Option<seq<real>>, eps: seq<Episode>, cfg: Config,
                                  simulate: Simulator, k: nat)
    requires k < |eps|
    requires forall j :: 0 <= j < k ==> Completes(EvalEpisode(eps[j], j, parameters, cfg, simulate))
    requires Prepare(eps[k], k, parameters, cfg).Success?
    requires simulate(Prepare(eps[k], k, parameters, cfg).value) == RuntimeError
    ensures ObjectiveFunction(parameters, eps, cfg, simulate) == Success(Scalar(Penalty))
  {
    var os := Outcomes(eps, parameters, cfg, simulate);
    assert FailsAt(os, 0, k);
    DivergedIff(os, 0);
  }

  /**
   * When every episode completes, the result is the sum of the episode errors in episode
   * order, returned with the records exactly when they were requested.
   */
  lemma ScoreWhenAllComplete(parameters: Option<seq<real>>, eps: seq<Episode>, cfg: Config, simulate: Simulator)
    requires forall j :: 0 <= j < |eps| ==> Completes(EvalEpisode(eps[j], j, parameters, cfg, simulate))
    ensures var os, r := Outcomes(eps, parameters, cfg, simulate), ObjectiveFunction(parameters, eps, cfg, simulate);
      && CompleteBetween(os, 0, |os|)
      && r.Success?
      && (r.value.WithRecords? <==> cfg.returnRecords)
      && r.value.value == Sum(Errors(os, 0))
  {
    var os := Outcomes(eps, parameters, cfg, simulate);
    assert CompleteBetween(os, 0, |os|);
    RunTotal(os, 0);
  }

  /**
   * The records handed back: record j is the one episode j's evaluation produced, so it holds
   * that episode's timestamps, its measured output channels and the solver's rows.
   */
  lemma ReturnedRecords(parameters: Option<seq<real>>, eps: seq<Episode>, cfg: Config, simulate: Simulator)
    requires ObjectiveFunction(parameters, eps, cfg, simulate).Success?
    requires ObjectiveFunction(parameters, eps, cfg, simulate).value.WithRecords?
    ensures var records := ObjectiveFunction(parameters, eps, cfg, simulate).value.records;
      forall j :: 0 <= j < |eps| ==>
        && Completes(EvalEpisode(eps[j], j, parameters, cfg, simulate))
        && records[j] == EvalEpisode(eps[j], j, parameters, cfg, simulate).value.value.record
        && "timestamps" in eps[j] && records[j].timestamps == eps[j]["timestamps"]
        && |records[j].measured| == |records[j].simulated|
  {
  }

  /** The errors recomputed from records 0 .. n - 1 of a record dict, in order. */
  function RecordErrors(weights: seq<real>, records: map<nat, Record>, n: nat): (es: seq<real>)
    requires forall j :: 0 <= j < n ==> j in records && Rescorable(weights, records[j])
    ensures |es| == n
    ensures forall j :: 0 <= j < n ==> es[j] == RecordError(weights, records[j])
  {
    seq(n, j requires 0 <= j < n => RecordError(weights, records[j]))
  }

  /** A completed episode's error is the one its record gives back. */
  lemma CompletedEpisode(ep: Episode, index: nat, parameters: Option<seq<real>>, cfg: Config, simulate: Simulator)
    requires Completes(EvalEpisode(ep, index, parameters, cfg, simulate))
    ensures var er := EvalEpisode(ep, index, parameters, cfg, simulate).value.value;
      Rescorable(cfg.outputWeights, er.record) && er.error == RecordError(cfg.outputWeights, er.record)
  {
    EpisodeSolved(ep, index, parameters, cfg, simulate);
  }

  /**
   * Completed outcomes whose errors are the ones their records give back, and a dict holding
   * those records: summing the outcome errors and summing the errors recomputed from the dict
   * agree.
   */
  lemma ErrorsFromRecords(os: seq<Outcome>, weights: seq<real>, records: map<nat, Record>)
    requires CompleteBetween(os, 0, |os|)
    requires forall j :: 0 <= j < |os| ==> j in records && records[j] == os[j].value.value.record
    requires forall j :: 0 <= j < |os| ==>
      Rescorable(weights, os[j].value.value.record)
      && os[j].value.value.error == RecordError(weights, os[j].value.value.record)
    ensures forall j :: 0 <= j < |os| ==> Rescorable(weights, records[j])
    ensures Sum(Errors(os, 0)) == Sum(RecordErrors(weights, records, |os|))
  {
    SumPointwise(Errors(os, 0), RecordErrors(weights, records, |os|));
  }

  /**
   * The error returned with the records is the one the records give back: the sum, over the
   * episodes in order, of weight * mean |measured - simulated| over each record's channels.
   */
  lemma ScoreFromRecords(parameters: Option<seq<real>>, eps: seq<Episode>, cfg: Config, simulate: Simulator)
    requires ObjectiveFunction(parameters, eps, cfg, simulate).Success?
    requires ObjectiveFunction(parameters, eps, cfg, simulate).value.WithRecords?
    ensures var s := ObjectiveFunction(parameters, eps, cfg, simulate).value;
      && (forall j :: 0 <= j < |eps| ==> j in s.records && Rescorable(cfg.outputWeights, s.records[j]))
      && s.value == Sum(RecordErrors(cfg.outputWeights, s.records, |eps|))
  {
    var os := Outcomes(eps, parameters, cfg, simulate);
    var s := ObjectiveFunction(parameters, eps, cfg, simulate).value;
    ReturnedRecords(parameters, eps, cfg, simulate);
    ScoreWhenAllComplete(parameters, eps, cfg, simulate);
    forall j | 0 <= j < |os|
      ensures Rescorable(cfg.outputWeights, os[j].value.value.record)
      ensures os[j].value.value.error == RecordError(cfg.outputWeights, os[j].value.value.record)
    {
      CompletedEpisode(eps[j], j, parameters, cfg, simulate);
    }
    ErrorsFromRecords(os, cfg.outputWeights, s.records);
  }

  /** A perfect fit: when every record's simulated lists equal its measured lists, the error is 0. */
  lemma PerfectFitScoresZero(parameters: Option<seq<real>>, eps: seq<Episode>, cfg: Config, simulate: Simulator)
    requires var run := RunFrom(Outcomes(eps, parameters, cfg, simulate), 0);
      && run.Success? && run.value.Completed?
      && forall j :: j in run.value.records ==> run.value.records[j].measured == run.value.records[j].simulated
    ensures ObjectiveFunction(parameters, eps, cfg, simulate).Success?
    ensures ObjectiveFunction(parameters, eps, cfg, simulate).value.value == 0.0
  {
  }

  /** With no episodes the result is 0 whatever the parameter vector, even a too short one. */
  lemma NoEpisodesScoreZero(parameters: Option<seq<real>>, cfg: Config, simulate: Simulator)
    ensures ObjectiveFunction(parameters, [], cfg, simulate)
         == Success(if cfg.returnRecords then WithRecords(0.0, map[]) else Scalar(0.0))
  {
  }

  /** The default inputs: `x_const_mess` masked before 0.3 s, `y_const_mess` before 0.1 s. */
  lemma DefaultInputs(ep: Episode, index: nat, ts: seq<real>)
    requires "x_const_mess" in ep && "y_const_mess" in ep
    ensures BuildInputs(ep, index, Defaults.inputKeys, Defaults.inputDelays, ts)
         == Success([Mask(ts, ep["x_const_mess"], 0.3), Mask(ts, ep["y_const_mess"], 0.1)])
  {
    var keys, delays := Defaults.inputKeys, Defaults.inputDelays;
    var r := BuildInputs(ep, index, keys, delays, ts);
    assert keys[0] in ep && keys[1] in ep;
    assert r.Success?;
    assert r.value[0] == Mask(ts, ep["x_const_mess"], 0.3);
    assert r.value[1] == Mask(ts, ep["y_const_mess"], 0.1);
    assert |r.value| == Min(|keys|, |delays|) == 2;
    assert r.value == [Mask(ts, ep["x_const_mess"], 0.3), Mask(ts, ep["y_const_mess"], 0.1)];
  }

  /**
   * The default initial state: [0, 0, l, 0, varphi, x] read at sample 3 of the measured cable
   * length, angle (converted to radians) and cart position.
   */
  lemma DefaultInitialState(ep: Episode, index: nat)
    requires "y_out_mess" in ep && |ep["y_out_mess"]| > StartIndex
    requires "phi_out_mess" in ep && |ep["phi_out_mess"]| > StartIndex
    requires "x_out_mess" in ep && |ep["x_out_mess"]| > StartIndex
    ensures InitialState(ep, index, Defaults.stateKeys)
         == Success([0.0, 0.0, ep["y_out_mess"][3], 0.0, Radians(ep["phi_out_mess"][3]), ep["x_out_mess"][3]])
  {
    var r := InitialState(ep, index, Defaults.stateKeys);
    var expected := [0.0, 0.0, ep["y_out_mess"][3], 0.0, Radians(ep["phi_out_mess"][3]), ep["x_out_mess"][3]];
    assert forall k :: 0 <= k < |Defaults.stateKeys| ==> Readable(ep, Defaults.stateKeys[k]);
    assert r.Success?;
    DegreesRadiansRoundTrip(r.value[AngleIndex]);
    assert r.value == expected;
  }
}
