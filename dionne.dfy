/**
 * The Dionne model of the secondary-electron emission yield: the yield is
 * the product G * T * S of a generation term, a transport term and an escape
 * probability, all evaluated at the range of the primary electrons.
 */
module Dionne {
  import opened Wrappers
  import opened Floats
  import opened Tables
  import opened Constants
  import opened Config
  import opened Emission
  import opened Parameter
  import M = Model
  import DM = DataMatrix

  /** Only the SE emission yield is needed to fit the model. */
  const DionneConfig: ModelConfig := ModelConfig(["SE"], [], [])

  /** The only energy-loss model `range_func` implements. */
  const PowerLaw: string := "Power law"

  /** The absolute tolerance under which `generation` treats a range as zero. */
  const Atol: real := 0.000000000001

  /**
   * A keyword argument that may be a `Parameter`, a plain float or `None`.
   * Only its value is used, but the three differ in truthiness.
   */
  datatype Arg = ParamArg(value: real) | Number(value: real) | NoneArg

  /** Python truthiness: a `Parameter` object is always true, a float is true unless zero, `None` is false. */
  predicate Truthy(a: Arg)
  {
    match a
    case ParamArg(_) => true
    case Number(x) => x != 0.0
    case NoneArg => false
  }

  /**
   * `range_func`: the range of a primary electron of energy `ene` under the
   * power-law energy loss, `ene ** n / (A * n)`.
   */
  function RangeFunc(ops: FloatOps, ene: real, lossModel: string, a: Arg, n: Arg): (r: Result<Float>)
    ensures lossModel != PowerLaw ==> r == Err(NotImplementedError)
    ensures lossModel == PowerLaw && !Truthy(a) ==> r == Err(RuntimeError)
    ensures lossModel == PowerLaw && Truthy(a) && !Truthy(n) ==> r == Err(RuntimeError)
    ensures r.Ok? <==> lossModel == PowerLaw && Truthy(a) && Truthy(n)
    ensures r.Ok? ==> (r.value.Finite? <==> ops.pow(ene, n.value).Finite? && a.value * n.value != 0.0)
    ensures r.Ok? && r.value.Finite? ==> r.value.value * (a.value * n.value) == ops.pow(ene, n.value).value
  {
    if lossModel != PowerLaw then Err(NotImplementedError)
    else if !Truthy(a) then Err(RuntimeError)
    else if !Truthy(n) then Err(RuntimeError)
    else Ok(Div(ops.pow(ene, n.value), Finite(a.value * n.value)))
  }

  /** `np.isclose(range, 0, atol=1e-12)`: with a zero reference the relative tolerance drops out. */
  predicate CloseToZero(r: real)
  {
    -Atol <= r <= Atol
  }

  /**
   * `generation`: zero where the range is close to zero, `ene / (range * xi)`
   * elsewhere.
   */
  function Generation(ene: real, range: Float, xi: real): (g: Float)
    ensures range.Finite? && CloseToZero(range.value) ==> g == Finite(0.0)
    ensures range.Finite? && !CloseToZero(range.value) ==> (g.Finite? <==> xi != 0.0)
    ensures range.Finite? && !CloseToZero(range.value) && g.Finite? ==> g.value * (range.value * xi) == ene
    ensures !range.Finite? ==> !g.Finite?
  {
    match range
    case NonFinite => NonFinite
    case Finite(r) => if CloseToZero(r) then Finite(0.0) else Div(Finite(ene), Finite(r * xi))
  }

  /** `transport`: `d * (1 - exp(-range / d))`. */
  function Transport(ops: FloatOps, range: Float, d: real): (t: Float)
    ensures t.Finite? <==> range.Finite? && d != 0.0 && ops.exp(-range.value / d).Finite?
    ensures range == Finite(0.0) && d != 0.0 && ops.exp(0.0) == Finite(1.0) ==> t == Finite(0.0)
  {
    var exponent := Div(Mul(Finite(-1.0), range), Finite(d));
    assert range.Finite? ==> -1.0 * range.value == -range.value;
    assert range.Finite? && d != 0.0 ==> exponent == Finite(-range.value / d);
    Mul(Finite(d), Sub(Finite(1.0), Exp(ops, exponent)))
  }

  /**
   * `dionne_func`: the range is computed once, then generation, transport and
   * the escape probability are multiplied.
   */
  function DionneFunc(ops: FloatOps, ene: real, xi: real, d: real, s: real,
                      lossModel: string, a: Arg, n: Arg): (r: Result<Float>)
    ensures r.Err? <==> RangeFunc(ops, ene, lossModel, a, n).Err?
    ensures r.Err? ==> r.error == RangeFunc(ops, ene, lossModel, a, n).error
    ensures r.Ok? && r.value.Finite? ==>
      var range := RangeFunc(ops, ene, lossModel, a, n).value;
      && Generation(ene, range, xi).Finite?
      && Transport(ops, range, d).Finite?
      && r.value.value == Generation(ene, range, xi).value * Transport(ops, range, d).value * s
  {
    var range :- RangeFunc(ops, ene, lossModel, a, n);
    Ok(Mul(Mul(Generation(ene, range, xi), Transport(ops, range, d)), Finite(s)))
  }

  /** Where the range vanishes, so does the yield: no generation and no transport. */
  lemma ZeroRangeGivesZeroYield(ops: FloatOps, ene: real, xi: real, d: real, s: real, a: Arg, n: Arg)
    requires RangeFunc(ops, ene, PowerLaw, a, n) == Ok(Finite(0.0))
    requires d != 0.0 && ops.exp(0.0) == Finite(1.0)
    ensures DionneFunc(ops, ene, xi, d, s, PowerLaw, a, n) == Ok(Finite(0.0))
  {
    assert -0.0 / d == 0.0;
  }

  /**
   * A `Parameter` object is truthy even when its value is zero, so the
   * keyword arguments the model passes never make `range_func` raise, while a
   * plain zero does.
   */
  lemma ParameterArgumentsNeverRaise(ops: FloatOps, ene: real, xi: real, d: real, s: real, a: real, n: real)
    ensures DionneFunc(ops, ene, xi, d, s, PowerLaw, ParamArg(a), ParamArg(n)).Ok?
    ensures DionneFunc(ops, ene, xi, d, s, PowerLaw, ParamArg(0.0), ParamArg(0.0)).Ok?
    ensures DionneFunc(ops, ene, xi, d, s, PowerLaw, Number(0.0), ParamArg(n)) == Err(RuntimeError)
    ensures DionneFunc(ops, ene, xi, d, s, PowerLaw, ParamArg(a), NoneArg) == Err(RuntimeError)
  {
  }

  /** The values of the five parameters, as `dionne_func` unwraps them. */
  datatype DionneValues = DionneValues(xi: real, d: real, s: real, a: real, n: real)

  /**
   * `self._func(ene, **self.parameters)`: the parameters are passed as
   * `Parameter` objects and the energy-loss model keeps its default.
   */
  function YieldAt(ops: FloatOps, v: DionneValues, ene: real): (y: Float)
    ensures DionneFunc(ops, ene, v.xi, v.d, v.s, PowerLaw, ParamArg(v.a), ParamArg(v.n)) == Ok(y)
  {
    DionneFunc(ops, ene, v.xi, v.d, v.s, PowerLaw, ParamArg(v.a), ParamArg(v.n)).value
  }

  /** `out[i] = self._func(ene, **self.parameters)` as a function of the energy alone. */
  function Evaluator(ops: FloatOps, v: DionneValues): real -> Float
  {
    ene => YieldAt(ops, v, ene)
  }

  /** The table `get_data` returns for the SE emission yield. */
  function SeeyTable(ops: FloatOps, v: DionneValues, energy: seq<real>): (t: Table)
  {
    M.NormalTable(energy, M.EnergyColumn(Evaluator(ops, v), energy))
  }

  /** One row per energy; the normal-incidence column holds the yield at each energy, the other column the energies. */
  lemma SeeyTableSpec(ops: FloatOps, v: DionneValues, energy: seq<real>)
    ensures var t := SeeyTable(ops, v, energy);
      && HasRows(t, |energy|)
      && |t.columns| == 2
      && Lookup(t, ColEnergy) == Ok(M.AsFloats(energy))
      && Lookup(t, ColNormal).Ok?
      && forall i :: 0 <= i < |energy| ==>
           Ok(Lookup(t, ColNormal).value[i]) == DionneFunc(ops, energy[i], v.xi, v.d, v.s, PowerLaw, ParamArg(v.a), ParamArg(v.n))
  {
  }

  /** What `get_data` does: compute the table itself, or hand the request to a base-class `get_data`, which the shown `Model` does not define. */
  datatype Request = Delegated | Computed(table: Table)

  /** The keys of `self.parameters`. */
  datatype Key = ExcitationEnergy | DiffusionLength | EscapeProbability | PowerLawScale | PowerLawExponent

  /** The name each key has in `self.parameters` and in `dionne_func`'s keywords. */
  function KeyName(k: Key): string
  {
    match k
    case ExcitationEnergy => "excitation_energy"
    case DiffusionLength => "diffusion_length"
    case EscapeProbability => "escape_probability"
    case PowerLawScale => "power_law_scale"
    case PowerLawExponent => "power_law_exponent"
  }

  const AllKeys: set<Key> := {ExcitationEnergy, DiffusionLength, EscapeProbability, PowerLawScale, PowerLawExponent}

  /** The keys in the order the fit passes them to the solver. */
  const FitKeys: seq<Key> := [ExcitationEnergy, DiffusionLength, EscapeProbability, PowerLawScale, PowerLawExponent]

  /** Each of the five names belongs to exactly one key, and the fit's key tuple lists every key once. */
  lemma KeyNamesAreDistinct()
    ensures forall k1: Key, k2: Key :: KeyName(k1) == KeyName(k2) ==> k1 == k2
    ensures forall k: Key :: k in AllKeys && k in FitKeys
    ensures |FitKeys| == |AllKeys| == 5
    ensures forall i, j :: 0 <= i < j < |FitKeys| ==> FitKeys[i] != FitKeys[j]
    ensures seq(|FitKeys|, i requires 0 <= i < |FitKeys| => KeyName(FitKeys[i])) ==
      ["excitation_energy", "diffusion_length", "escape_probability", "power_law_scale", "power_law_exponent"]
  {
    forall k: Key ensures k in AllKeys && k in FitKeys {
      match k
      case ExcitationEnergy => assert FitKeys[0] == k;
      case DiffusionLength => assert FitKeys[1] == k;
      case EscapeProbability => assert FitKeys[2] == k;
      case PowerLawScale => assert FitKeys[3] == k;
      case PowerLawExponent => assert FitKeys[4] == k;
    }
  }

  /** The default parameters of `initial_parameters`. */
  const DefaultStates: map<Key, ParameterState> := map[
    ExcitationEnergy := ParameterState("\\xi", "eV", 4.6, Fin(0.0), PosInf,
      "Energy required to excite a secondary electron in the material.", true),
    DiffusionLength := ParameterState("d", "nm", 2.0, Fin(0.0), PosInf,
      "Typical length between two interactions of the SE with the material. Related to elastic and inelastic mean free paths.", false),
    EscapeProbability := ParameterState("S", "1", 0.5, Fin(0.0), Fin(1.0),
      "Probability for the SE to escape the material.", false),
    PowerLawScale := ParameterState("A", "1", 1.0, Fin(0.0), PosInf,
      "Scale factor in the power law energy loss model.", false),
    PowerLawExponent := ParameterState("n", "1", 1.2, Fin(1.0), PosInf,
      "Exponent in the power law energy loss model.", false)]

  /** `parameters_values` read by key: names the model does not know are dropped. */
  function ByKey(values: map<string, real>): (r: map<Key, real>)
    ensures forall k: Key :: k in r <==> KeyName(k) in values
    ensures forall k :: k in r ==> r[k] == values[KeyName(k)]
  {
    map k | k in AllKeys && KeyName(k) in values :: values[KeyName(k)]
  }

  /** A map holds every key. */
  predicate HasFitKeys<V>(states: map<Key, V>)
  {
    forall k: Key :: k in states
  }

  /** A map that holds the five keys holds every key. */
  lemma FiveKeys<V>(m: map<Key, V>)
    requires ExcitationEnergy in m && DiffusionLength in m && EscapeProbability in m
    requires PowerLawScale in m && PowerLawExponent in m
    ensures HasFitKeys(m)
  {
    forall k: Key ensures k in m {
      match k
      case ExcitationEnergy =>
      case DiffusionLength =>
      case EscapeProbability =>
      case PowerLawScale =>
      case PowerLawExponent =>
    }
  }

  /** Two total maps agree when they agree at each of the five keys. */
  lemma SameStates<V>(m1: map<Key, V>, m2: map<Key, V>)
    requires HasFitKeys(m1) && HasFitKeys(m2)
    requires m1[ExcitationEnergy] == m2[ExcitationEnergy] && m1[DiffusionLength] == m2[DiffusionLength]
    requires m1[EscapeProbability] == m2[EscapeProbability] && m1[PowerLawScale] == m2[PowerLawScale]
    requires m1[PowerLawExponent] == m2[PowerLawExponent]
    ensures m1 == m2
  {
    forall k: Key ensures m1[k] == m2[k] {
      match k
      case ExcitationEnergy =>
      case DiffusionLength =>
      case EscapeProbability =>
      case PowerLawScale =>
      case PowerLawExponent =>
    }
  }

  /** `x0`: the parameter values in key order. */
  function X0(states: map<Key, ParameterState>): (x: seq<real>)
    requires HasFitKeys(states)
    ensures |x| == |FitKeys|
    ensures forall i :: 0 <= i < |FitKeys| ==> x[i] == states[FitKeys[i]].value
  {
    seq(|FitKeys|, i requires 0 <= i < |FitKeys| => states[FitKeys[i]].value)
  }

  /** The lower bounds the solver gets: the bound getters, which honour locks. */
  function Lowers(states: map<Key, ParameterState>): (b: seq<Bound>)
    requires HasFitKeys(states)
    ensures |b| == |FitKeys|
    ensures forall i :: 0 <= i < |FitKeys| ==> b[i] == EffectiveLowerBound(states[FitKeys[i]])
  {
    seq(|FitKeys|, i requires 0 <= i < |FitKeys| => EffectiveLowerBound(states[FitKeys[i]]))
  }

  /** The upper bounds the solver gets. */
  function Uppers(states: map<Key, ParameterState>): (b: seq<Bound>)
    requires HasFitKeys(states)
    ensures |b| == |FitKeys|
    ensures forall i :: 0 <= i < |FitKeys| ==> b[i] == EffectiveUpperBound(states[FitKeys[i]])
  {
    seq(|FitKeys|, i requires 0 <= i < |FitKeys| => EffectiveUpperBound(states[FitKeys[i]]))
  }

  /**
   * `least_squares(fun, x0, bounds, args=(energies, measured yield)).x`: a
   * foreign solver, given as a function of its inputs.
   */
  type Solver = (seq<real>, seq<Bound>, seq<Bound>, seq<Float>, seq<Float>) -> seq<real>

  /** `lb < ub` on extended reals, as `least_squares` requires of every pair of bounds. */
  predicate StrictlyBelow(lo: Bound, hi: Bound)
  {
    match (lo, hi)
    case (NegInf, NegInf) => false
    case (NegInf, _) => true
    case (Fin(a), Fin(b)) => a < b
    case (Fin(_), PosInf) => true
    case (_, _) => false
  }

  /** `lb <= x <= ub` on extended reals. */
  predicate Within(x: real, lo: Bound, hi: Bound)
  {
    (lo.NegInf? || (lo.Fin? && lo.value <= x)) && (hi.PosInf? || (hi.Fin? && x <= hi.value))
  }

  /**
   * What `least_squares` checks of its inputs before solving: every lower
   * bound strictly below its upper bound, and `x0` within the bounds.
   */
  predicate Feasible(states: map<Key, ParameterState>)
    requires HasFitKeys(states)
  {
    forall i :: 0 <= i < |FitKeys| ==>
      StrictlyBelow(Lowers(states)[i], Uppers(states)[i]) && Within(X0(states)[i], Lowers(states)[i], Uppers(states)[i])
  }

  /**
   * The solution the fit writes back, or the exception it raises first: the
   * missing files, the wrong population, a missing column of the measured
   * table, bounds that are not strictly ordered or an `x0` outside them
   * (`least_squares` raises ValueError), or a solution whose length differs
   * from the number of keys (`zip(..., strict=True)`).
   */
  function FitSolution(present: bool, seey: EmissionData, states: map<Key, ParameterState>, solve: Solver): (r: Result<seq<real>>)
    requires HasFitKeys(states)
    ensures !present ==> r == Err(ValueError)
    ensures present && seey.population != SE ==> r == Err(AssertionError)
    ensures (present && seey.population == SE && ColEnergy in HeaderSet(seey.table.columns)
             && ColNormal in HeaderSet(seey.table.columns) && !Feasible(states)) ==> r == Err(ValueError)
    ensures r.Ok? ==> present && seey.population == SE && Feasible(states)
    ensures r.Ok? ==> |r.value| == |FitKeys|
    ensures r.Ok? ==> ColEnergy in HeaderSet(seey.table.columns) && ColNormal in HeaderSet(seey.table.columns)
    ensures r.Ok? ==> r.value == solve(X0(states), Lowers(states), Uppers(states),
                                       Lookup(seey.table, ColEnergy).value, Lookup(seey.table, ColNormal).value)
  {
    if !present then Err(ValueError)
    else if seey.population != SE then Err(AssertionError)
    else
      var energies :- Lookup(seey.table, ColEnergy);
      var measured :- Lookup(seey.table, ColNormal);
      if !Feasible(states) then Err(ValueError)
      else
        var x := solve(X0(states), Lowers(states), Uppers(states), energies, measured);
        if |x| != |FitKeys| then Err(ValueError) else Ok(x)
  }

  /** `{k: v for k, v in zip(keys, x)}`. */
  function Zip(x: seq<real>): (values: map<Key, real>)
    requires |x| == |FitKeys|
    ensures HasFitKeys(values)
    ensures forall i :: 0 <= i < |FitKeys| ==> values[FitKeys[i]] == x[i]
  {
    var m := map[ExcitationEnergy := x[0], DiffusionLength := x[1], EscapeProbability := x[2],
                 PowerLawScale := x[3], PowerLawExponent := x[4]];
    FiveKeys(m);
    m
  }

  /** Writing the solution back under the keys it was read from makes it the next starting point. */
  lemma WriteBackRoundTrip(states: map<Key, ParameterState>, x: seq<real>)
    requires HasFitKeys(states) && |x| == |FitKeys|
    ensures HasFitKeys(Override(states, Zip(x)))
    ensures X0(Override(states, Zip(x))) == x
    ensures forall k :: k in states ==>
      Override(states, Zip(x))[k].(value := states[k].value) == states[k]
  {
    var r := Override(states, Zip(x));
    forall i | 0 <= i < |FitKeys| ensures X0(r)[i] == x[i] {
    }
  }

  /**
   * With the default parameters the solver starts from the default values;
   * the locked excitation energy is confined to a 2e-10 wide interval and the
   * other parameters get their stored bounds.
   */
  lemma DefaultFitInputs()
    ensures HasFitKeys(DefaultStates)
    ensures X0(DefaultStates) == [4.6, 2.0, 0.5, 1.0, 1.2]
    ensures Lowers(DefaultStates) == [Fin(4.6 - Tol), Fin(0.0), Fin(0.0), Fin(0.0), Fin(1.0)]
    ensures Uppers(DefaultStates) == [Fin(4.6 + Tol), PosInf, Fin(1.0), PosInf, PosInf]
  {
    FiveKeys(DefaultStates);
  }

  /** The default parameters pass the solver's input checks. */
  lemma DefaultsAreFeasible()
    ensures HasFitKeys(DefaultStates) && Feasible(DefaultStates)
  {
    DefaultFitInputs();
  }

  /** `{"escape_probability": 2.0}` names one known parameter. */
  lemma ByKeyEscapeProbability()
    ensures ByKey(map["escape_probability" := 2.0]) == map[EscapeProbability := 2.0]
  {
    KeyNamesAreDistinct();
    assert KeyName(EscapeProbability) == "escape_probability";
  }

  /** An escape probability of 2.0 lies above its upper bound 1.0. */
  lemma EscapeProbabilityTwoIsInfeasible()
    ensures HasFitKeys(Override(DefaultStates, map[EscapeProbability := 2.0]))
    ensures !Feasible(Override(DefaultStates, map[EscapeProbability := 2.0]))
  {
    FiveKeys(DefaultStates);
    var states := Override(DefaultStates, map[EscapeProbability := 2.0]);
    FiveKeys(states);
    assert states[EscapeProbability] == DefaultStates[EscapeProbability].(value := 2.0);
    assert FitKeys[2] == EscapeProbability;
    assert !Within(X0(states)[2], Lowers(states)[2], Uppers(states)[2]);
  }

  /**
   * The value setter does not clamp, so a value given outside its bounds
   * reaches the solver: after `Dionne(parameters_values={"escape_probability": 2.0})`
   * the fit raises ValueError once the files and columns are there.
   */
  lemma OutOfBoundsValueRaises(seey: EmissionData, solve: Solver)
    requires seey.population == SE
    requires ColEnergy in HeaderSet(seey.table.columns) && ColNormal in HeaderSet(seey.table.columns)
    ensures HasFitKeys(Override(DefaultStates, ByKey(map["escape_probability" := 2.0])))
    ensures FitSolution(true, seey, Override(DefaultStates, ByKey(map["escape_probability" := 2.0])), solve) == Err(ValueError)
  {
    ByKeyEscapeProbability();
    EscapeProbabilityTwoIsInfeasible();
  }

  /** `Dionne`. */
  class Dionne {
    const xi: Parameter
    const d: Parameter
    const s: Parameter
    const a: Parameter
    const n: Parameter
    /** `self._energy_loss_model`: stored, but neither `get_data` nor the fit passes it on. */
    const energyLossModel: string

    /** `self.parameters`. */
    function Parameters(): (ps: map<Key, Parameter>)
      reads this
      ensures HasFitKeys(ps)
      ensures ps.Values == {xi, d, s, a, n}
    {
      var m := map[ExcitationEnergy := xi, DiffusionLength := d, EscapeProbability := s,
                   PowerLawScale := a, PowerLawExponent := n];
      FiveKeys(m);
      assert m.Values == {xi, d, s, a, n} by {
        assert m[ExcitationEnergy] == xi && m[DiffusionLength] == d && m[EscapeProbability] == s;
        assert m[PowerLawScale] == a && m[PowerLawExponent] == n;
      }
      m
    }

    /** The five parameters are distinct objects. */
    ghost predicate Valid()
      reads this
    {
      && xi != d && xi != s && xi != a && xi != n
      && d != s && d != a && d != n
      && s != a && s != n
      && a != n
    }

    lemma ParametersDistinct()
      requires Valid()
      ensures Distinct(Parameters())
    {
    }

    function States(): (m: map<Key, ParameterState>)
      reads this, xi, d, s, a, n
      ensures HasFitKeys(m)
    {
      var m := map[ExcitationEnergy := xi.State(), DiffusionLength := d.State(), EscapeProbability := s.State(),
                   PowerLawScale := a.State(), PowerLawExponent := n.State()];
      FiveKeys(m);
      m
    }

    /** `States()` is the state of every parameter in `self.parameters`. */
    lemma StatesOfParameters()
      ensures States() == StatesOf(Parameters())
    {
      var ps := Parameters();
      forall k: Key ensures States()[k] == StatesOf(ps)[k] {
        match k
        case ExcitationEnergy =>
        case DiffusionLength =>
        case EscapeProbability =>
        case PowerLawScale =>
        case PowerLawExponent =>
      }
    }

    /** The values `dionne_func` unwraps from the parameters. */
    function Values(): (v: DionneValues)
      reads this, xi, d, s, a, n
    {
      DionneValues(xi.value, d.value, s.value, a.value, n.value)
    }

    /**
     * `Dionne(parameters_values, energy_loss_model)`: the default parameters,
     * then the given values under the names the model knows. Each parameter is
     * built with the value `set_parameters_values` would give it.
     */
    constructor (parametersValues: Option<map<string, real>> := None, energyLossModel: string := PowerLaw)
      ensures Valid()
      ensures this.energyLossModel == energyLossModel
      ensures parametersValues.None? ==> States() == DefaultStates
      ensures parametersValues.Some? ==> States() == Override(DefaultStates, ByKey(parametersValues.value))
    {
      var values: map<Key, real> := if parametersValues.Some? then ByKey(parametersValues.value) else map[];
      FiveKeys(DefaultStates);
      var initial := Override(DefaultStates, values);
      xi := new Parameter("\\xi", "eV", initial[ExcitationEnergy].value, lowerBound := Fin(0.0),
        description := "Energy required to excite a secondary electron in the material.", isLocked := true);
      d := new Parameter("d", "nm", initial[DiffusionLength].value, lowerBound := Fin(0.0),
        description := "Typical length between two interactions of the SE with the material. Related to elastic and inelastic mean free paths.");
      s := new Parameter("S", "1", initial[EscapeProbability].value, lowerBound := Fin(0.0), upperBound := Fin(1.0),
        description := "Probability for the SE to escape the material.");
      a := new Parameter("A", "1", initial[PowerLawScale].value, lowerBound := Fin(0.0),
        description := "Scale factor in the power law energy loss model.");
      n := new Parameter("n", "1", initial[PowerLawExponent].value, lowerBound := Fin(1.0),
        description := "Exponent in the power law energy loss model.");
      this.energyLossModel := energyLossModel;
      new;
      assert xi.State() == initial[ExcitationEnergy];
      assert d.State() == initial[DiffusionLength];
      assert s.State() == initial[EscapeProbability];
      assert a.State() == initial[PowerLawScale];
      assert n.State() == initial[PowerLawExponent];
      SameStates(States(), initial);
    }

    /**
     * `get_data`: only the SE emission yield is computed here, one value per
     * energy at normal incidence; every other request goes to the base class.
     */
    method GetData(ops: FloatOps, population: string, kind: string, energy: seq<real>, theta: seq<real>) returns (r: Request)
      ensures population != PopulationName(SE) || kind != KindName(EmissionYield) ==> r == Delegated
      ensures population == PopulationName(SE) && kind == KindName(EmissionYield) ==>
        r == Computed(SeeyTable(ops, Values(), energy))
    {
      if population != PopulationName(SE) || kind != KindName(EmissionYield) {
        return Delegated;
      }
      var out := M.FillColumn(Evaluator(ops, Values()), energy);
      r := Computed(M.NormalTable(energy, out));
    }

    /**
     * `find_optimal_parameters`: checks the files, reads the SE yield, passes
     * the five values and their bounds to the solver in key order, and writes
     * the solution back under the same keys. Nothing changes when it raises.
     */
    method FindOptimalParameters(dm: DM.DataMatrix, seey: EmissionData, solve: Solver) returns (o: Outcome)
      requires Valid() && dm.Valid()
      modifies xi, d, s, a, n
      ensures var fit := FitSolution(DM.MandatoryPresent(DionneConfig, dm.files, dm.data), seey, old(States()), solve);
        && (fit.Err? ==> o == Fail(fit.error) && States() == old(States()))
        && (fit.Ok? ==> o == Pass && States() == Override(old(States()), Zip(fit.value)))
    {
      var present := dm.HasAllMandatoryFiles(DionneConfig);
      var fit := FitSolution(present, seey, States(), solve);
      if fit.Err? {
        return Fail(fit.error);
      }
      SetValues(Zip(fit.value));
      o := Pass;
    }

    /** `self.set_parameters_values(values)`. */
    method SetValues(values: map<Key, real>)
      requires Valid()
      modifies xi, d, s, a, n
      ensures States() == Override(old(States()), values)
    {
      ParametersDistinct();
      var ps := Parameters();
      StatesOfParameters();
      SetParametersValues(ps, values);
      StatesOfParameters();
    }
  }

  /**
   * A successful fit leaves the solver's solution as the parameter values,
   * in key order, and changes nothing but the values.
   */
  lemma FitWritesSolution(before: map<Key, ParameterState>, after: map<Key, ParameterState>,
                          present: bool, seey: EmissionData, solve: Solver)
    requires HasFitKeys(before)
    requires FitSolution(present, seey, before, solve).Ok?
    requires after == Override(before, Zip(FitSolution(present, seey, before, solve).value))
    ensures HasFitKeys(after)
    ensures X0(after) == solve(X0(before), Lowers(before), Uppers(before),
                               Lookup(seey.table, ColEnergy).value, Lookup(seey.table, ColNormal).value)
    ensures forall k :: k in before ==> after[k].(value := before[k].value) == before[k]
  {
    WriteBackRoundTrip(before, FitSolution(present, seey, before, solve).value);
  }
}
