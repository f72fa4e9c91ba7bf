/**
 * The two pieces of the GUI helpers that are not widget wiring: the table
 * that places each parameter attribute in a column, and the handler of the
 * lock check box.
 */
module GuiHelper {
  import opened Parameter

  /** The column of each parameter attribute in the parameter table. */
  const ParameterAttrToPos: map<string, int> := map[
    "name" := 0, "unit" := 1, "value" := 2, "lower_bound" := 3,
    "upper_bound" := 4, "description" := 5, "lock" := 6]

  /** The attribute shown in each column: `{val: key for key, val in PARAMETER_ATTR_TO_POS.items()}`. */
  function ParameterPosToAttr(): (m: map<int, string>)
    ensures m.Keys == ParameterAttrToPos.Values
    ensures forall attr :: attr in ParameterAttrToPos ==> m[ParameterAttrToPos[attr]] == attr
  {
    AttrToPosIsInjective();
    map attr | attr in ParameterAttrToPos :: ParameterAttrToPos[attr] := attr
  }

  /** No two attributes share a column. */
  lemma AttrToPosIsInjective()
    ensures forall a, b :: a in ParameterAttrToPos && b in ParameterAttrToPos && a != b ==>
      ParameterAttrToPos[a] != ParameterAttrToPos[b]
  {
  }

  /** Seven attributes fill the columns 0 to 6, one each. */
  lemma AttrToPosIsBijection()
    ensures |ParameterAttrToPos| == 7
    ensures ParameterAttrToPos.Values == {0, 1, 2, 3, 4, 5, 6}
  {
    assert ParameterAttrToPos.Keys == {"name", "unit", "value", "lower_bound", "upper_bound", "description", "lock"};
  }

  /** Attribute to column to attribute, and column to attribute to column, are both the identity. */
  lemma PositionsRoundTrip()
    ensures forall attr :: attr in ParameterAttrToPos ==>
      ParameterAttrToPos[attr] in ParameterPosToAttr() && ParameterPosToAttr()[ParameterAttrToPos[attr]] == attr
    ensures forall pos :: pos in ParameterPosToAttr() ==>
      ParameterPosToAttr()[pos] in ParameterAttrToPos && ParameterAttrToPos[ParameterPosToAttr()[pos]] == pos
  {
    var inverse := ParameterPosToAttr();
    forall pos | pos in inverse
      ensures inverse[pos] in ParameterAttrToPos && ParameterAttrToPos[inverse[pos]] == pos
    {
      var attr :| attr in ParameterAttrToPos && ParameterAttrToPos[attr] == pos;
      assert inverse[pos] == attr;
    }
  }

  /** `Qt.Checked`, the state a check box reports when it is ticked. */
  const QtChecked: int := 2

  /** What `_toggle_lock` does to a parameter: lock it when the box is ticked, then unlock it in any case. */
  function ToggledAsWritten(state: int, p: ParameterState): (r: ParameterState)
    ensures r == p.(isLocked := false)
  {
    var locked := if state == QtChecked then p.(isLocked := true) else p;
    locked.(isLocked := false)
  }

  /** What the handler evidently means: the lock follows the check box, and nothing else changes. */
  function Toggled(state: int, p: ParameterState): (r: ParameterState)
    ensures r.isLocked <==> state == QtChecked
    ensures r.(isLocked := p.isLocked) == p
  {
    p.(isLocked := state == QtChecked)
  }

  /** Ticking the box leaves the parameter unlocked, where the intended handler locks it. */
  lemma TickingDoesNotLock(p: ParameterState)
    ensures !ToggledAsWritten(QtChecked, p).isLocked
    ensures Toggled(QtChecked, p).isLocked
    ensures ToggledAsWritten(QtChecked, p) != Toggled(QtChecked, p)
  {
  }

  /** For every state but a ticked box, the written handler does what is intended. */
  lemma UntickedAgrees(state: int, p: ParameterState)
    requires state != QtChecked
    ensures ToggledAsWritten(state, p) == Toggled(state, p)
  {
  }

  /** `_toggle_lock(state, parameter)` as written. */
  method ToggleLockAsWritten(state: int, parameter: Parameter)
    modifies parameter
    ensures parameter.State() == ToggledAsWritten(state, old(parameter.State()))
  {
    if state == QtChecked {
      parameter.Lock();
    }
    parameter.Unlock();
  }

  /** `_toggle_lock` with the unlock in an `else` branch. */
  method ToggleLock(state: int, parameter: Parameter)
    modifies parameter
    ensures parameter.State() == Toggled(state, old(parameter.State()))
  {
    if state == QtChecked {
      parameter.Lock();
    } else {
      parameter.Unlock();
    }
  }
}
