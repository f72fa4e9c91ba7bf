/** The earlier Vaughan stub: the parameter table only; TEEY and fit delegate to the base model. */
module LegacyVaughan {
  import opened Wrappers
  import opened Floats
  import opened Tables
  import opened Constants
  import opened Parameter
  import V = Vaughan
  import LM = LegacyModel
  import M = Model

  /** The parameters the earlier `Vaughan()` holds. */
  const DefaultStates: map<string, ParameterState> := map[
    "E_0" := ParameterState("E_0", "eV", 12.5, NegInf, PosInf, "Threshold energy.", false),
    "E_0p" := ParameterState("E_0", "eV", 11.5, NegInf, PosInf, "To smoothen transition.", false),
    "E_max" := ParameterState("E_{max}", "eV", 0.0, Fin(0.0), PosInf, "", false),
    "teey_low" := ParameterState("\\sigma_{low}", "1", 0.5, Fin(0.0), PosInf, "TEEY below E_0.", true),
    "teey_max" := ParameterState("\\sigma_{max}", "1", 0.0, Fin(0.0), PosInf, "", false),
    "k_se" := ParameterState("k_{se}", "1", 1.0, Fin(0.0), Fin(2.0), "Roughness factor.", false),
    "k_s" := ParameterState("k_s", "1", 1.0, Fin(0.0), Fin(2.0), "Roughness factor.", false)]

  /**
   * The earlier defaults: E_0 12.5, E_0p 11.5, E_max 0, teey_low 0.5 (locked),
   * teey_max 0, k_se and k_s 1 within [0, 2]. They match the current revision's
   * except that E_0p is still printed as "E_0".
   */
  lemma DefaultParameters()
    ensures DefaultStates.Keys == V.ParameterNames
    ensures DefaultStates["E_0"].value == 12.5 && DefaultStates["E_0p"].value == 11.5
    ensures DefaultStates["E_max"].value == 0.0 && DefaultStates["teey_low"].value == 0.5 && DefaultStates["teey_max"].value == 0.0
    ensures DefaultStates["k_se"].value == 1.0 && DefaultStates["k_s"].value == 1.0
    ensures forall k :: k in DefaultStates ==> (DefaultStates[k].isLocked <==> k == "teey_low")
    ensures forall k :: k in DefaultStates && k != "E_0p" ==> DefaultStates[k] == V.DefaultStates[k]
    ensures DefaultStates["E_0p"] == V.DefaultStates["E_0p"].(markdown := "E_0")
    ensures Name(DefaultStates["E_0p"]) == Name(DefaultStates["E_0"])
  {
  }

  /**
   * The earlier `Vaughan.teey`: the base class's `_default_ey` as intended, a
   * null table, zero under every angle, with the energies alongside. As
   * written it raises IndexError for float angles.
   */
  function Teey(ops: FloatOps, energy: seq<real>, theta: seq<real>): (t: Table)
    ensures HasRows(t, |energy|)
    ensures Lookup(t, ColEnergy) == Ok(M.AsFloats(energy))
    ensures forall h :: h in HeaderSet(t.columns) && h != ColEnergy ==> Find(t.columns, h) == Some(M.Zeros(|energy|))
  {
    LM.Teey(ops, energy, theta)
  }

  /**
   * The earlier `find_optimal_parameters` calls the base method without its
   * required `data_matrix` argument: every call raises TypeError and no
   * parameter changes.
   */
  function FindOptimalParameters(ps: map<string, ParameterState>): (r: (Outcome, map<string, ParameterState>))
    ensures r.0 == Fail(TypeError)
    ensures r.1 == ps
  {
    (Fail(TypeError), ps)
  }
}
