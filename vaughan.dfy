/**
 * The Vaughan TEEY model: the piecewise evaluator, the table of TEEY over
 * energies and angles, and the fit that copies the measured maximum into two
 * parameters.
 */
module Vaughan {
  import opened Wrappers
  import opened Floats
  import opened Tables
  import opened Constants
  import opened Grid
  import opened Config
  import opened Emission
  import opened Parameter
  import M = Model
  import L = LegacyDataMatrix

  /** `Vaughan.model_config`: only the emission yield of population "all" is needed. */
  const VaughanConfig: ModelConfig := ModelConfig(["all"], [], [])

  /** The parameter values `_vaughan_func` reads. */
  datatype VaughanValues = VaughanValues(e0: real, eMax: real, teeyMax: real, teeyLow: real, kSe: real, kS: real)

  /** `base * (1 + k * radians(theta)**2 / (2 pi))`: the angular modulation of E_max and of the maximum TEEY. */
  function Modulated(base: real, k: real, theta: real): real
  {
    base * (1.0 + k * (Radians(theta) * Radians(theta)) / (2.0 * Pi))
  }

  /**
   * `_vaughan_func`. Below E_0 the TEEY is `teey_low`. Above, with
   * xi = (E - E_0) / (mod_E_max - E_0), the exponent is 0.56 up to xi = 1 and
   * 0.25 up to xi = 3.6, and beyond that the tail `1.125 / xi**0.35` is used.
   * A zero denominator makes numpy's xi infinite (E > E_0, which falls to the
   * tail and gives 0) or NaN (E = E_0, which fails every comparison and gives NaN).
   */
  function VaughanFunc(ops: FloatOps, ene: real, the: real, v: VaughanValues): (r: Float)
    ensures ene < v.e0 ==> r == Finite(v.teeyLow)
  {
    var modEMax := Modulated(v.eMax, v.kSe, the);
    var modTeeyMax := Modulated(v.teeyMax, v.kS, the);
    if ene < v.e0 then Finite(v.teeyLow)
    else if modEMax == v.e0 then (if ene > v.e0 then Finite(0.0) else NonFinite)
    else
      var xi := (ene - v.e0) / (modEMax - v.e0);
      if xi <= 1.0 then Mul(Finite(modTeeyMax), Pow(ops, Mul(Finite(xi), ops.exp(1.0 - xi)), 0.56))
      else if xi <= 3.6 then Mul(Finite(modTeeyMax), Pow(ops, Mul(Finite(xi), ops.exp(1.0 - xi)), 0.25))
      else Div(Finite(modTeeyMax * 1.125), ops.pow(xi, 0.35))
  }

  /** The reduced energy `xi`, when its denominator is not zero. */
  function Xi(ene: real, the: real, v: VaughanValues): real
    requires Modulated(v.eMax, v.kSe, the) != v.e0
  {
    (ene - v.e0) / (Modulated(v.eMax, v.kSe, the) - v.e0)
  }

  /** `(xi * exp(1 - xi)) ** k`, the rising and falling shape of the curve. */
  function Shape(ops: FloatOps, xi: real, k: real): Float
  {
    Pow(ops, Mul(Finite(xi), ops.exp(1.0 - xi)), k)
  }

  /** Which branch applies, by xi: exponent 0.56 up to 1, 0.25 up to 3.6, then the power-law tail. */
  lemma Branches(ops: FloatOps, ene: real, the: real, v: VaughanValues)
    requires ene >= v.e0 && Modulated(v.eMax, v.kSe, the) != v.e0
    ensures Xi(ene, the, v) <= 1.0 ==>
      VaughanFunc(ops, ene, the, v) == Mul(Finite(Modulated(v.teeyMax, v.kS, the)), Shape(ops, Xi(ene, the, v), 0.56))
    ensures 1.0 < Xi(ene, the, v) <= 3.6 ==>
      VaughanFunc(ops, ene, the, v) == Mul(Finite(Modulated(v.teeyMax, v.kS, the)), Shape(ops, Xi(ene, the, v), 0.25))
    ensures 3.6 < Xi(ene, the, v) ==>
      VaughanFunc(ops, ene, the, v) == Div(Finite(Modulated(v.teeyMax, v.kS, the) * 1.125), ops.pow(Xi(ene, the, v), 0.35))
  {
  }

  /** Below the threshold the TEEY is `teey_low` whatever the angle and the other parameters. */
  lemma BelowThresholdIgnoresAngle(ops: FloatOps, ene: real, the1: real, the2: real, v: VaughanValues, w: VaughanValues)
    requires ene < v.e0 && w.e0 == v.e0 && w.teeyLow == v.teeyLow
    ensures VaughanFunc(ops, ene, the1, v) == VaughanFunc(ops, ene, the2, w) == Finite(v.teeyLow)
  {
  }

  /** At normal incidence the modulated E_max and maximum TEEY are the parameters themselves. */
  lemma NormalIncidence(v: VaughanValues)
    ensures Modulated(v.eMax, v.kSe, 0.0) == v.eMax
    ensures Modulated(v.teeyMax, v.kS, 0.0) == v.teeyMax
  {
  }

  /** With e^0 = 1 and 1^k = 1, the TEEY at normal incidence and E = E_max > E_0 is exactly `teey_max`. */
  lemma PeakAtEMax(ops: FloatOps, v: VaughanValues)
    requires ExpAndPowAtUnit(ops)
    requires v.eMax > v.e0
    ensures VaughanFunc(ops, v.eMax, 0.0, v) == Finite(v.teeyMax)
  {
    NormalIncidence(v);
    var d := v.eMax - v.e0;
    assert d != 0.0 && d / d == 1.0;
    assert Xi(v.eMax, 0.0, v) == 1.0;
    assert Shape(ops, 1.0, 0.56) == Finite(1.0);
  }

  /** A zero denominator: 0 above the threshold (infinite xi), NaN exactly at it. */
  lemma DegenerateEMax(ops: FloatOps, ene: real, the: real, v: VaughanValues)
    requires Modulated(v.eMax, v.kSe, the) == v.e0
    ensures ene > v.e0 ==> VaughanFunc(ops, ene, the, v) == Finite(0.0)
    ensures ene == v.e0 ==> VaughanFunc(ops, ene, the, v) == NonFinite
  {
  }

  /** `_vaughan_func` with the parameters fixed: the function the TEEY grid is filled from. */
  function Evaluator(ops: FloatOps, v: VaughanValues): (real, real) -> Float
  {
    (ene, the) => VaughanFunc(ops, ene, the, v)
  }

  /** Column `j` of `out`: the TEEY at every energy for angle `theta[j]`. */
  function TeeyColumns(ops: FloatOps, v: VaughanValues, energy: seq<real>, theta: seq<real>): (cols: seq<seq<Float>>)
    ensures |cols| == |theta|
    ensures forall j :: 0 <= j < |theta| ==> |cols[j]| == |energy|
    ensures forall i, j :: 0 <= i < |energy| && 0 <= j < |theta| ==> cols[j][i] == VaughanFunc(ops, energy[i], theta[j], v)
  {
    M.GridColumns(Evaluator(ops, v), energy, theta)
  }

  /** The table `Vaughan.teey` returns. */
  function TeeyTable(ops: FloatOps, v: VaughanValues, energy: seq<real>, theta: seq<real>): Table
  {
    M.EyTable(energy, M.AngleHeaders(ops, theta), TeeyColumns(ops, v, energy, theta))
  }

  /**
   * The TEEY table has one row per energy, the energies under "Energy [eV]",
   * and under each angle's header the TEEY at that angle (the last angle of a
   * repeated header wins, as in the dict it is built from).
   */
  lemma TeeyTableSpec(ops: FloatOps, v: VaughanValues, energy: seq<real>, theta: seq<real>)
    ensures HasRows(TeeyTable(ops, v, energy, theta), |energy|)
    ensures Lookup(TeeyTable(ops, v, energy, theta), ColEnergy) == Ok(M.AsFloats(energy))
    ensures forall j :: 0 <= j < |theta| && M.LastOccurrence(M.AngleHeaders(ops, theta), j) ==>
      Find(TeeyTable(ops, v, energy, theta).columns, M.DegHeader(ops.repr(theta[j]))) == Some(TeeyColumns(ops, v, energy, theta)[j])
  {
    var hs := M.AngleHeaders(ops, theta);
    forall j | 0 <= j < |theta| ensures hs[j] != ColEnergy {
      M.DegHeaderIsNotEnergy(ops.repr(theta[j]));
    }
  }

  /** Five energies and three angles with distinct labels give a 5 x 4 table. */
  lemma TeeyOutputShape(ops: FloatOps, v: VaughanValues, energy: seq<real>, theta: seq<real>)
    requires |energy| == 5 && |theta| == 3
    requires forall i, j :: 0 <= i < j < 3 ==> ops.repr(theta[i]) != ops.repr(theta[j])
    ensures HasRows(TeeyTable(ops, v, energy, theta), 5)
    ensures |TeeyTable(ops, v, energy, theta).columns| == 4
  {
    M.EyTableWidth(ops, energy, theta, TeeyColumns(ops, v, energy, theta));
  }

  /** Cell [3][0] holds one emission yield of population "all": what the fit asserts. */
  predicate IsAllYield(cell: Option<DataEntry>)
  {
    cell.Some? && cell.value.One? && cell.value.data.Yield? && cell.value.data.population == All
  }

  /**
   * The outcome of `find_optimal_parameters`: the mandatory-files assertion
   * first, then the assertions that cell [3][0] is an `EmissionYield` of
   * population "all".
   */
  function FitOutcome(check: Outcome, cell: Option<DataEntry>): (o: Outcome)
    ensures o == Pass <==> check == Pass && IsAllYield(cell)
    ensures o != Pass ==> o == check || o == Fail(AssertionError)
  {
    if check.Fail? then check
    else match cell
      case Some(One(Yield(p, _))) => if p != All then Fail(AssertionError) else Pass
      case _ => Fail(AssertionError)
  }

  /** The only population the mandatory check asks for is "all" under the emission yield, which is cell [3][0]. */
  lemma MandatoryCheckCoversCellThreeZero(files: seq<seq<Option<FileEntry>>>, data: seq<seq<Option<DataEntry>>>)
    requires Shaped(files) && Shaped(data)
    ensures L.CheckFrom(VaughanConfig, 0, files, data).Pass? <==> files[3][0].Some? && data[3][0].Some?
  {
    L.CheckFromAgreesWithCurrentRevision(VaughanConfig, 0, files, data);
    assert MandatoryFor(VaughanConfig, AllKinds[0]) == ["all"];
    assert MandatoryFor(VaughanConfig, AllKinds[1]) == [];
    assert MandatoryFor(VaughanConfig, AllKinds[2]) == [];
    assert "all" in MandatoryFor(VaughanConfig, AllKinds[0]);
  }

  const ParameterNames: set<string> := {"E_0", "E_0p", "E_max", "teey_low", "teey_max", "k_se", "k_s"}

  /** The parameters a new `Vaughan` holds. */
  const DefaultStates: map<string, ParameterState> := map[
    "E_0" := ParameterState("E_0", "eV", 12.5, NegInf, PosInf, "Threshold energy.", false),
    "E_0p" := ParameterState("E_0_p", "eV", 11.5, NegInf, PosInf, "To smoothen transition.", false),
    "E_max" := ParameterState("E_{max}", "eV", 0.0, Fin(0.0), PosInf, "", false),
    "teey_low" := ParameterState("\\sigma_{low}", "1", 0.5, Fin(0.0), PosInf, "TEEY below E_0.", true),
    "teey_max" := ParameterState("\\sigma_{max}", "1", 0.0, Fin(0.0), PosInf, "", false),
    "k_se" := ParameterState("k_{se}", "1", 1.0, Fin(0.0), Fin(2.0), "Roughness factor.", false),
    "k_s" := ParameterState("k_s", "1", 1.0, Fin(0.0), Fin(2.0), "Roughness factor.", false)]

  /** Only `teey_low` starts locked; E_max and the two maxima are bounded below by 0, the roughness factors lie in [0, 2]. */
  lemma DefaultParameters()
    ensures DefaultStates.Keys == ParameterNames
    ensures forall k :: k in DefaultStates ==> (DefaultStates[k].isLocked <==> k == "teey_low")
    ensures forall k :: k in {"E_max", "teey_low", "teey_max", "k_se", "k_s"} ==> DefaultStates[k].lowerBound == Fin(0.0)
    ensures DefaultStates["k_se"].upperBound == Fin(2.0) && DefaultStates["k_s"].upperBound == Fin(2.0)
    ensures EffectiveLowerBound(DefaultStates["teey_low"]) == Fin(0.5 - Tol)
  {
  }

  /** The model's parameters as values. */
  function ValuesOf(ps: map<string, ParameterState>): VaughanValues
    requires ParameterNames <= ps.Keys
  {
    VaughanValues(ps["E_0"].value, ps["E_max"].value, ps["teey_max"].value, ps["teey_low"].value, ps["k_se"].value, ps["k_s"].value)
  }

  class Vaughan {
    const e0: Parameter
    const e0p: Parameter
    const eMax: Parameter
    const teeyLow: Parameter
    const teeyMax: Parameter
    const kSe: Parameter
    const kS: Parameter

    /** `self.parameters`, keyed by the names the evaluator takes as keyword arguments. */
    function Parameters(): (ps: map<string, Parameter>)
      reads this
      ensures ps.Keys == ParameterNames
    {
      map["E_0" := e0, "E_0p" := e0p, "E_max" := eMax, "teey_low" := teeyLow,
          "teey_max" := teeyMax, "k_se" := kSe, "k_s" := kS]
    }

    /** The seven parameters are distinct objects. */
    ghost predicate Valid()
      reads this
    {
      && e0 != e0p && e0 != eMax && e0 != teeyLow && e0 != teeyMax && e0 != kSe && e0 != kS
      && e0p != eMax && e0p != teeyLow && e0p != teeyMax && e0p != kSe && e0p != kS
      && eMax != teeyLow && eMax != teeyMax && eMax != kSe && eMax != kS
      && teeyLow != teeyMax && teeyLow != kSe && teeyLow != kS
      && teeyMax != kSe && teeyMax != kS
      && kSe != kS
    }

    function States(): map<string, ParameterState>
      reads this, e0, e0p, eMax, teeyLow, teeyMax, kSe, kS
    {
      map["E_0" := e0.State(), "E_0p" := e0p.State(), "E_max" := eMax.State(), "teey_low" := teeyLow.State(),
          "teey_max" := teeyMax.State(), "k_se" := kSe.State(), "k_s" := kS.State()]
    }

    /** `Vaughan()`: the seven parameters with their default values, bounds and locks. */
    constructor ()
      ensures Valid()
      ensures States() == DefaultStates
    {
      e0 := new Parameter("E_0", "eV", 12.5, description := "Threshold energy.");
      e0p := new Parameter("E_0_p", "eV", 11.5, description := "To smoothen transition.");
      eMax := new Parameter("E_{max}", "eV", 0.0, lowerBound := Fin(0.0));
      teeyLow := new Parameter("\\sigma_{low}", "1", 0.5, lowerBound := Fin(0.0), description := "TEEY below E_0.", isLocked := true);
      teeyMax := new Parameter("\\sigma_{max}", "1", 0.0, lowerBound := Fin(0.0));
      kSe := new Parameter("k_{se}", "1", 1.0, lowerBound := Fin(0.0), upperBound := Fin(2.0), description := "Roughness factor.");
      kS := new Parameter("k_s", "1", 1.0, lowerBound := Fin(0.0), upperBound := Fin(2.0), description := "Roughness factor.");
    }

    /**
     * `teey`: fills `out[i, j]` with the TEEY at `energy[i]` and `theta[j]`,
     * then builds the table from the columns of `out`.
     */
    method Teey(ops: FloatOps, energy: seq<real>, theta: seq<real>) returns (t: Table)
      ensures t == TeeyTable(ops, ValuesOf(States()), energy, theta)
    {
      var v := VaughanValues(e0.value, eMax.value, teeyMax.value, teeyLow.value, kSe.value, kS.value);
      assert v == ValuesOf(States());
      var cols := M.FillGrid(Evaluator(ops, v), energy, theta);
      t := M.EyTable(energy, M.AngleHeaders(ops, theta), cols);
    }

    /**
     * `find_optimal_parameters`: asserts the mandatory files are there, reads
     * the "all" emission yield in cell [3][0], and copies its maximum's
     * position and height into `E_max` and `teey_max`.
     */
    method FindOptimalParameters(dm: L.DataMatrix, yieldMax: Table -> (real, real)) returns (o: Outcome)
      requires Valid() && dm.Valid()
      modifies eMax, teeyMax
      ensures o == FitOutcome(L.CheckFrom(VaughanConfig, 0, dm.files, dm.data), dm.data[3][0])
      ensures o == Pass ==>
        && eMax.State() == old(eMax.State()).(value := yieldMax(dm.data[3][0].value.data.table).0)
        && teeyMax.State() == old(teeyMax.State()).(value := yieldMax(dm.data[3][0].value.data.table).1)
      ensures o != Pass ==> unchanged(eMax, teeyMax)
      ensures unchanged(e0, e0p, teeyLow, kSe, kS)
    {
      o := dm.AssertHasAllMandatoryFiles(VaughanConfig);
      if o.Fail? {
        return;
      }
      var cell := dm.data[3][0];
      if !(cell.Some? && cell.value.One? && cell.value.data.Yield?) {
        o := Fail(AssertionError);
        return;
      }
      if cell.value.data.population != All {
        o := Fail(AssertionError);
        return;
      }
      var m := yieldMax(cell.value.data.table);
      eMax.SetValue(m.0);
      teeyMax.SetValue(m.1);
    }
  }
}
