/**
 * The Chung and Everhart model of the energy distribution of secondary
 * electrons, `f(E) = E / (E + W_f)^4`, with the work function `W_f` as its
 * only parameter.
 */
module ChungEverhart {
  import opened Wrappers
  import opened Floats
  import opened Tables
  import opened Constants
  import opened Config
  import opened Emission
  import opened Parameter
  import M = Model
  import DM = DataMatrix

  /** Only the energy distribution of all electrons is needed to fit the model. */
  const ChungEverhartConfig: ModelConfig := ModelConfig([], ["all"], [])

  /** The name of the only parameter. */
  const WorkFunction: string := "W_f"

  /** The work function as `initial_parameters` declares it. */
  const DefaultState: ParameterState := ParameterState("W_f", ":unit:`eV`", 8.0, Fin(0.0), PosInf, "Material work function.", false)

  /** The work function the fit sets, whatever was measured. */
  const FittedWorkFunction: real := 8.0

  /** A product, kept as a function so that facts about it are stated once. */
  function Times(a: real, b: real): real { a * b }

  lemma PositiveTimes(a: real, b: real)
    requires a > 0.0 && b > 0.0
    ensures Times(a, b) > 0.0
  {
  }

  lemma NegatedTimes(a: real, b: real)
    ensures Times(-a, -b) == Times(a, b)
  {
  }

  /** `x ** 4`, which is positive for any non-zero `x`. */
  function Pow4(x: real): (p: real)
    ensures x != 0.0 ==> p > 0.0
  {
    Pow4Positive(x);
    Times(Times(x, x), Times(x, x))
  }

  lemma Pow4Positive(x: real)
    ensures x != 0.0 ==> Times(Times(x, x), Times(x, x)) > 0.0
  {
    if x < 0.0 {
      PositiveTimes(-x, -x);
      NegatedTimes(x, x);
    } else if x > 0.0 {
      PositiveTimes(x, x);
    }
    if x != 0.0 {
      PositiveTimes(Times(x, x), Times(x, x));
    }
  }

  /**
   * `_chung_everhart_func`: `ene / (ene + W_f) ** 4`, where numpy gives inf or
   * NaN instead of raising when the energy is minus the work function.
   */
  function Distribution(ene: real, wf: real): (f: Float)
    ensures f.Finite? <==> Pow4(ene + wf) != 0.0
    ensures ene + wf != 0.0 ==> f.Finite?
    ensures f.Finite? ==> f.value * Pow4(ene + wf) == ene
  {
    Div(Finite(ene), Finite(Pow4(ene + wf)))
  }

  /** Electrons of zero energy have zero density, and a positive energy has a positive density. */
  lemma DistributionSign(ene: real, wf: real)
    requires ene >= 0.0 && wf > 0.0
    ensures Distribution(ene, wf).Finite?
    ensures ene == 0.0 ==> Distribution(ene, wf).value == 0.0
    ensures ene > 0.0 ==> Distribution(ene, wf).value > 0.0
  {
    var p := Pow4(ene + wf);
    var f := Distribution(ene, wf);
  }

  /** The table `se_energy_distribution` returns for a work function `wf`. */
  function DistributionTable(wf: real, energy: seq<real>): Table
  {
    M.NormalTable(energy, M.EnergyColumn(ene => Distribution(ene, wf), energy))
  }

  /** One row per energy; the normal-incidence column holds `f(E_i)` and the energy column the input. */
  lemma DistributionTableSpec(wf: real, energy: seq<real>)
    ensures var t := DistributionTable(wf, energy);
      && HasRows(t, |energy|)
      && |t.columns| == 2
      && Lookup(t, ColEnergy) == Ok(M.AsFloats(energy))
      && Lookup(t, ColNormal).Ok?
      && forall i :: 0 <= i < |energy| ==> Lookup(t, ColNormal).value[i] == Distribution(energy[i], wf)
  {
  }

  /** `ChungEverhart`. */
  class ChungEverhart {
    const wf: Parameter

    /** `self.parameters`. */
    function Parameters(): (ps: map<string, Parameter>)
      reads this
      ensures ps.Keys == {WorkFunction} && ps[WorkFunction] == wf
    {
      map[WorkFunction := wf]
    }

    /**
     * `ChungEverhart(parameters_values)`: the default work function, then the
     * given values under the names the model knows.
     */
    constructor (parametersValues: Option<map<string, real>> := None)
      ensures parametersValues.None? ==> wf.State() == DefaultState
      ensures parametersValues.Some? ==>
        StatesOf(Parameters()) == Override(map[WorkFunction := DefaultState], parametersValues.value)
    {
      wf := new Parameter("W_f", ":unit:`eV`", 8.0, lowerBound := Fin(0.0), description := "Material work function.");
      new;
      if parametersValues.Some? {
        SetParametersValues(Parameters(), parametersValues.value);
      }
    }

    /** `se_energy_distribution`: `out[i] = f(energy[i])` with the current work function. */
    method SeEnergyDistribution(energy: seq<real>) returns (t: Table)
      ensures t == DistributionTable(wf.value, energy)
    {
      var w := wf.value;
      var out := M.FillColumn(ene => Distribution(ene, w), energy);
      t := M.NormalTable(energy, out);
    }

    /**
     * `find_optimal_parameters`: raises when a mandatory file is missing or
     * the distribution is not that of all electrons; otherwise sets
     * `W_f := 8.0` without looking at the measurement.
     */
    method FindOptimalParameters(dm: DM.DataMatrix, distribution: EmissionData) returns (o: Outcome)
      requires dm.Valid()
      modifies wf
      ensures !DM.MandatoryPresent(ChungEverhartConfig, dm.files, dm.data) ==>
        o == Fail(ValueError) && wf.State() == old(wf.State())
      ensures DM.MandatoryPresent(ChungEverhartConfig, dm.files, dm.data) && distribution.population != All ==>
        o == Fail(AssertionError) && wf.State() == old(wf.State())
      ensures DM.MandatoryPresent(ChungEverhartConfig, dm.files, dm.data) && distribution.population == All ==>
        o == Pass && wf.State() == old(wf.State()).(value := FittedWorkFunction)
    {
      var present := dm.HasAllMandatoryFiles(ChungEverhartConfig);
      if !present {
        return Fail(ValueError);
      }
      if distribution.population != All {
        return Fail(AssertionError);
      }
      SetParametersValues(Parameters(), map[WorkFunction := FittedWorkFunction]);
      o := Pass;
    }
  }

  /** The only mandatory cell is the energy distribution of all electrons. */
  lemma MandatoryCellIsAllEnergy(cfg: ModelConfig)
    requires cfg == ChungEverhartConfig
    ensures forall k: DataKind :: MandatoryFor(cfg, k) == (if k == EmissionEnergy then [PopulationName(All)] else [])
  {
  }
}
