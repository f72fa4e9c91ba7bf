/** An electron emission model parameter: a value with stored bounds and a lock. */
module Parameter {

  /** A bound: a finite float or one of the infinities used as defaults. */
  datatype Bound = NegInf | Fin(value: real) | PosInf

  /** `Parameter._tol`: the half-width of the range a locked parameter reports. */
  const Tol: real := 0.0000000001

  /** Every attribute of a parameter, as a value. */
  datatype ParameterState = ParameterState(
    markdown: string,
    unit: string,
    value: real,
    lowerBound: Bound,
    upperBound: Bound,
    description: string,
    isLocked: bool)

  function Min(a: real, b: real): real { if a <= b then a else b }
  function Max(a: real, b: real): real { if a >= b then a else b }

  /** The `lower_bound` property: collapses around the value while locked, the stored bound otherwise. */
  function EffectiveLowerBound(s: ParameterState): (b: Bound)
    ensures s.isLocked ==> b == Fin(s.value - Tol)
    ensures !s.isLocked ==> b == s.lowerBound
  {
    if s.isLocked then Fin(Min(s.value - Tol, s.value + Tol)) else s.lowerBound
  }

  /** The `upper_bound` property. */
  function EffectiveUpperBound(s: ParameterState): (b: Bound)
    ensures s.isLocked ==> b == Fin(s.value + Tol)
    ensures !s.isLocked ==> b == s.upperBound
  {
    if s.isLocked then Fin(Max(s.value - Tol, s.value + Tol)) else s.upperBound
  }

  /** The `name` property: the markdown name followed by the unit in brackets. */
  function Name(s: ParameterState): (n: string)
    ensures |n| == |s.markdown| + |s.unit| + 3
    ensures n[..|s.markdown|] == s.markdown
    ensures n[|s.markdown|..|s.markdown| + 2] == " ["
    ensures n[|s.markdown| + 2..|n| - 1] == s.unit
    ensures n[|n| - 1] == ']'
  {
    s.markdown + " [" + s.unit + "]"
  }

  /** While locked, the reported bounds are 2 * 1e-10 apart around the value, whatever is stored. */
  lemma LockedBoundsCollapse(s: ParameterState, lower: Bound, upper: Bound)
    requires s.isLocked
    ensures EffectiveLowerBound(s).Fin? && EffectiveUpperBound(s).Fin?
    ensures EffectiveUpperBound(s).value - EffectiveLowerBound(s).value == 2.0 * Tol
    ensures EffectiveLowerBound(s).value < s.value < EffectiveUpperBound(s).value
    ensures EffectiveLowerBound(s.(lowerBound := lower, upperBound := upper)) == EffectiveLowerBound(s)
    ensures EffectiveUpperBound(s.(lowerBound := lower, upperBound := upper)) == EffectiveUpperBound(s)
  {
  }

  /** Bounds set while locked are the ones reported once the parameter is unlocked. */
  lemma BoundsSetWhileLockedSurviveUnlock(s: ParameterState, lower: Bound, upper: Bound)
    requires s.isLocked
    ensures var t := s.(lowerBound := lower).(upperBound := upper).(isLocked := false);
            EffectiveLowerBound(t) == lower && EffectiveUpperBound(t) == upper
  {
  }

  class Parameter {
    var markdown: string
    var unit: string
    var value: real
    var storedLowerBound: Bound
    var storedUpperBound: Bound
    var description: string
    var isLocked: bool

    function State(): ParameterState
      reads this
    {
      ParameterState(markdown, unit, value, storedLowerBound, storedUpperBound, description, isLocked)
    }

    /** `Parameter(markdown, unit="1", value=0.0, *, lower_bound=-inf, upper_bound=inf, description="", is_locked=False)`. */
    constructor (markdown: string, unit: string := "1", value: real := 0.0,
                 lowerBound: Bound := NegInf, upperBound: Bound := PosInf,
                 description: string := "", isLocked: bool := false)
      ensures State() == ParameterState(markdown, unit, value, lowerBound, upperBound, description, isLocked)
    {
      this.markdown := markdown;
      this.unit := unit;
      this.value := value;
      this.storedLowerBound := lowerBound;
      this.storedUpperBound := upperBound;
      this.description := description;
      this.isLocked := isLocked;
    }

    function LowerBound(): (b: Bound)
      reads this
      ensures b == EffectiveLowerBound(State())
    {
      if isLocked then Fin(Min(value - Tol, value + Tol)) else storedLowerBound
    }

    function UpperBound(): (b: Bound)
      reads this
      ensures b == EffectiveUpperBound(State())
    {
      if isLocked then Fin(Max(value - Tol, value + Tol)) else storedUpperBound
    }

    /** The `value` setter: stores any value, never clamped to the bounds. */
    method SetValue(v: real)
      modifies this
      ensures State() == old(State()).(value := v)
    {
      value := v;
    }

    /** The `lower_bound` setter: writes the stored bound, locked or not. */
    method SetLowerBound(b: Bound)
      modifies this
      ensures State() == old(State()).(lowerBound := b)
    {
      storedLowerBound := b;
    }

    /** The `upper_bound` setter. */
    method SetUpperBound(b: Bound)
      modifies this
      ensures State() == old(State()).(upperBound := b)
    {
      storedUpperBound := b;
    }

    method Lock()
      modifies this
      ensures State() == old(State()).(isLocked := true)
    {
      isLocked := true;
    }

    method Unlock()
      modifies this
      ensures State() == old(State()).(isLocked := false)
    {
      isLocked := false;
    }
  }

  /** The parameters of a model are distinct objects, so writing one never changes another. */
  ghost predicate Distinct<K>(ps: map<K, Parameter>)
  {
    forall a, b :: a in ps && b in ps && a != b ==> ps[a] != ps[b]
  }

  /** The attributes of every parameter of a model, by name. */
  function StatesOf<K>(ps: map<K, Parameter>): (m: map<K, ParameterState>)
    reads ps.Values
    ensures m.Keys == ps.Keys
  {
    map k | k in ps :: ps[k].State()
  }

  /** The states after `set_parameters_values(values)`: a known name takes its new value, nothing else changes. */
  function Override<K>(states: map<K, ParameterState>, values: map<K, real>): (r: map<K, ParameterState>)
    ensures r.Keys == states.Keys
    ensures forall k :: k in states && k !in values ==> r[k] == states[k]
    ensures forall k :: k in states && k in values ==> r[k] == states[k].(value := values[k])
  {
    map k | k in states :: states[k].(value := if k in values then values[k] else states[k].value)
  }

  /**
   * `Model.set_parameters_values`: every name the model knows gets its new
   * value; an unknown name is ignored.
   */
  method SetParametersValues<K>(ps: map<K, Parameter>, values: map<K, real>)
    requires Distinct(ps)
    modifies ps.Values
    ensures StatesOf(ps) == Override(old(StatesOf(ps)), values)
  {
    ghost var before := StatesOf(ps);
    var todo := values.Keys;
    while todo != {}
      invariant todo <= values.Keys
      invariant forall k :: k in ps ==>
        ps[k].State() == before[k].(value := if k in values && k !in todo then values[k] else before[k].value)
      decreases todo
    {
      var name :| name in todo;
      if name in ps {
        ps[name].SetValue(values[name]);
      }
      todo := todo - {name};
    }
  }
}
