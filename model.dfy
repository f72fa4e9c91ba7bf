/**
 * The base electron emission model: the null TEEY/SEEY table that every model
 * inherits, and the plot dispatch over populations.
 */
module Model {
  import opened Wrappers
  import opened Floats
  import opened Tables
  import opened Constants
  import opened Grid
  import opened Emission

  /** A column of `n` zeros. */
  function Zeros(n: nat): (z: seq<Float>)
    ensures |z| == n && forall i :: 0 <= i < n ==> z[i] == Finite(0.0)
  {
    seq(n, _ => Finite(0.0))
  }

  function AsFloats(xs: seq<real>): (r: seq<Float>)
    ensures |r| == |xs| && forall i :: 0 <= i < |xs| ==> r[i] == Finite(xs[i])
  {
    seq(|xs|, i requires 0 <= i < |xs| => Finite(xs[i]))
  }

  /** The columns `out[:, j]` of the grid `out[i, j] = f(energy[i], theta[j])`. */
  function GridColumns(f: (real, real) -> Float, energy: seq<real>, theta: seq<real>): (cols: seq<seq<Float>>)
    ensures |cols| == |theta|
    ensures forall j :: 0 <= j < |theta| ==> |cols[j]| == |energy|
    ensures forall i, j :: 0 <= i < |energy| && 0 <= j < |theta| ==> cols[j][i] == f(energy[i], theta[j])
  {
    seq(|theta|, j requires 0 <= j < |theta| =>
      seq(|energy|, i requires 0 <= i < |energy| => f(energy[i], theta[j])))
  }

  /**
   * The loop the model evaluators share: `out = np.zeros((len(energy),
   * len(theta)))`, then `out[i, j] = f(energy[i], theta[j])` row by row; the
   * result is the columns `out[:, j]`.
   */
  method FillGrid(f: (real, real) -> Float, energy: seq<real>, theta: seq<real>) returns (cols: seq<seq<Float>>)
    ensures cols == GridColumns(f, energy, theta)
  {
    var out := new Float[|energy|, |theta|]((_, _) => Finite(0.0));
    var i := 0;
    while i < |energy|
      invariant 0 <= i <= |energy|
      invariant forall a, b :: 0 <= a < i && 0 <= b < |theta| ==> out[a, b] == f(energy[a], theta[b])
    {
      var j := 0;
      while j < |theta|
        invariant 0 <= j <= |theta|
        invariant forall a, b :: 0 <= a < i && 0 <= b < |theta| ==> out[a, b] == f(energy[a], theta[b])
        invariant forall b :: 0 <= b < j ==> out[i, b] == f(energy[i], theta[b])
      {
        out[i, j] := f(energy[i], theta[j]);
        j := j + 1;
      }
      i := i + 1;
    }
    cols := seq(|theta|, j requires 0 <= j < |theta| reads out =>
      seq(|energy|, i requires 0 <= i < |energy| reads out => out[i, j]));
    var expected := GridColumns(f, energy, theta);
    forall j | 0 <= j < |theta| ensures cols[j] == expected[j] {
      assert forall i :: 0 <= i < |energy| ==> cols[j][i] == expected[j][i];
    }
  }

  /** The values `f(energy[i])`, one per energy. */
  function EnergyColumn(f: real -> Float, energy: seq<real>): (col: seq<Float>)
    ensures |col| == |energy|
    ensures forall i :: 0 <= i < |energy| ==> col[i] == f(energy[i])
  {
    seq(|energy|, i requires 0 <= i < |energy| => f(energy[i]))
  }

  /**
   * The loop of the one-dimensional evaluators: `out = np.zeros(len(energy))`,
   * then `out[i] = f(energy[i])` for every energy.
   */
  method FillColumn(f: real -> Float, energy: seq<real>) returns (col: seq<Float>)
    ensures col == EnergyColumn(f, energy)
  {
    var out := new Float[|energy|](_ => Finite(0.0));
    var i := 0;
    while i < |energy|
      invariant 0 <= i <= |energy|
      invariant forall a :: 0 <= a < i ==> out[a] == f(energy[a])
    {
      out[i] := f(energy[i]);
      i := i + 1;
    }
    col := out[..];
  }

  /** `pd.DataFrame({col_normal: out, col_energy: energy})`: the normal-incidence column, then the energies. */
  function NormalTable(energy: seq<real>, out: seq<Float>): (t: Table)
    requires |out| == |energy|
    ensures t.columns == [Column(ColNormal, out), Column(ColEnergy, AsFloats(energy))]
    ensures HasRows(t, |energy|)
    ensures DistinctHeaders(t.columns)
    ensures Lookup(t, ColNormal) == Ok(out)
    ensures Lookup(t, ColEnergy) == Ok(AsFloats(energy))
  {
    ColumnLiterals();
    var e := [Column(ColNormal, out), Column(ColEnergy, AsFloats(energy))];
    assert DictBuild([], e) == DictBuild([e[0]], e[1..]);
    assert DictSet([e[0]], e[1]) == [e[0], e[1]];
    assert Find(e, ColEnergy) == Find(e[1..], ColEnergy);
    FromDict(e)
  }

  /** A header does not appear after position `j`: the dict keeps column `j` under it. */
  predicate LastOccurrence(hs: seq<string>, j: nat)
    requires j < |hs|
  {
    forall k :: j < k < |hs| ==> hs[k] != hs[j]
  }

  /** The dict items of a yield table: one column per header, in order, then the energy column. */
  function EyEntries(energy: seq<real>, headers: seq<string>, cols: seq<seq<Float>>): (e: seq<Column>)
    requires |cols| == |headers|
    ensures |e| == |headers| + 1
    ensures forall i :: 0 <= i < |headers| ==> e[i] == Column(headers[i], cols[i])
    ensures e[|headers|] == Column(ColEnergy, AsFloats(energy))
  {
    seq(|headers|, i requires 0 <= i < |headers| => Column(headers[i], cols[i]))
      + [Column(ColEnergy, AsFloats(energy))]
  }

  /** The last item named `h` is the one a dict keeps. */
  lemma {:induction false} FindLastAt(entries: seq<Column>, j: nat, h: string)
    requires j < |entries| && entries[j].header == h
    requires forall k :: j < k < |entries| ==> entries[k].header != h
    ensures FindLast(entries, h) == Some(entries[j].values)
    decreases |entries|
  {
    if j != |entries| - 1 {
      FindLastAt(entries[..|entries| - 1], j, h);
    }
  }

  /** In a list of dict items that all hold `vals`, any present key maps to `vals`. */
  lemma {:induction false} FindLastUniform(entries: seq<Column>, vals: seq<Float>, h: string)
    requires forall i :: 0 <= i < |entries| ==> entries[i].values == vals
    requires h in HeaderSet(entries)
    ensures FindLast(entries, h) == Some(vals)
    decreases |entries|
  {
    var k := |entries| - 1;
    if entries[k].header != h {
      var init := entries[..k];
      HeaderSetMember(entries, h);
      var i :| 0 <= i < |entries| && entries[i].header == h;
      assert i < k && init[i].header == h;
      HeaderSetMember(init, h);
      FindLastUniform(init, vals, h);
    }
  }

  /**
   * `pd.DataFrame(out_dict)` where `out_dict` maps each header to its column
   * and then "Energy [eV]" to the energies: the table every model's yield
   * evaluator returns.
   */
  function EyTable(energy: seq<real>, headers: seq<string>, cols: seq<seq<Float>>): (t: Table)
    requires |cols| == |headers|
    ensures DistinctHeaders(t.columns)
    ensures (forall j :: 0 <= j < |cols| ==> |cols[j]| == |energy|) ==> HasRows(t, |energy|)
    ensures forall h :: h in HeaderSet(t.columns) <==> h == ColEnergy || h in headers
    ensures Lookup(t, ColEnergy) == Ok(AsFloats(energy))
    ensures forall j :: 0 <= j < |headers| && headers[j] != ColEnergy && LastOccurrence(headers, j) ==>
      Find(t.columns, headers[j]) == Some(cols[j])
  {
    var e := EyEntries(energy, headers, cols);
    FromDictSpec(e);
    assert (forall j :: 0 <= j < |cols| ==> |cols[j]| == |energy|) ==> HasRows(Table(e), |energy|);
    assert e[|e| - 1].header == ColEnergy;
    forall h ensures h in HeaderSet(e) <==> h == ColEnergy || h in headers {
      HeaderSetMember(e, h);
      if h in headers {
        var i :| 0 <= i < |headers| && headers[i] == h;
        assert e[i].header == h;
      }
    }
    forall j | 0 <= j < |headers| && headers[j] != ColEnergy && LastOccurrence(headers, j)
      ensures FindLast(e, headers[j]) == Some(cols[j])
    {
      FindLastAt(e, j, headers[j]);
    }
    FromDict(e)
  }

  /** The null table of `_default_ey`: a zero column per header, and the energies. */
  function NullTable(energy: seq<real>, headers: seq<string>): (t: Table)
    ensures DistinctHeaders(t.columns)
    ensures HasRows(t, |energy|)
    ensures forall h :: h in HeaderSet(t.columns) <==> h == ColEnergy || h in headers
    ensures Lookup(t, ColEnergy) == Ok(AsFloats(energy))
    ensures forall h :: h in headers && h != ColEnergy ==> Find(t.columns, h) == Some(Zeros(|energy|))
  {
    var cols := seq(|headers|, _ => Zeros(|energy|));
    var e := EyEntries(energy, headers, cols);
    FromDictSpec(e);
    forall h | h in headers && h != ColEnergy ensures FindLast(e, h) == Some(Zeros(|energy|)) {
      var init := e[..|headers|];
      var i :| 0 <= i < |headers| && headers[i] == h;
      assert init[i].header == h;
      HeaderSetMember(init, h);
      FindLastUniform(init, Zeros(|energy|), h);
      assert e[..|e| - 1] == init;
    }
    EyTable(energy, headers, cols)
  }

  /** "Energy [eV]" never collides with an angle header, which ends in "deg]". */
  lemma DegHeaderIsNotEnergy(text: string)
    ensures DegHeader(text) != ColEnergy
  {
    var d := DegHeader(text);
    if |d| == |ColEnergy| {
      assert d[|d| - 2] == 'g' && ColEnergy[|ColEnergy| - 2] == 'V';
    }
  }

  /** Distinct strings in a sequence make a set of the same size. */
  lemma {:induction false} DistinctHeadersCount(hs: seq<string>)
    requires forall i, j :: 0 <= i < j < |hs| ==> hs[i] != hs[j]
    ensures |set h | h in hs| == |hs|
  {
    if hs != [] {
      var tail := hs[1..];
      DistinctHeadersCount(tail);
      assert (set h | h in hs) == {hs[0]} + (set h | h in tail);
      assert hs[0] !in (set h | h in tail);
    }
  }

  /** The headers `f"{the} [deg]"` for the angles in order, each angle printed by `str`. */
  function AngleHeaders(ops: FloatOps, theta: seq<real>): (hs: seq<string>)
    ensures |hs| == |theta| && forall j :: 0 <= j < |theta| ==> hs[j] == DegHeader(ops.repr(theta[j]))
  {
    seq(|theta|, j requires 0 <= j < |theta| => DegHeader(ops.repr(theta[j])))
  }

  /**
   * With pairwise distinct angle labels, a yield table has one column per
   * angle plus the energy column.
   */
  lemma EyTableWidth(ops: FloatOps, energy: seq<real>, theta: seq<real>, cols: seq<seq<Float>>)
    requires |cols| == |theta|
    requires forall i, j :: 0 <= i < j < |theta| ==> ops.repr(theta[i]) != ops.repr(theta[j])
    ensures |EyTable(energy, AngleHeaders(ops, theta), cols).columns| == |theta| + 1
  {
    var hs := AngleHeaders(ops, theta);
    var t := EyTable(energy, hs, cols);
    var names := set h | h in hs;
    assert ColEnergy !in names by {
      forall j | 0 <= j < |hs| ensures hs[j] != ColEnergy {
        DegHeaderIsNotEnergy(ops.repr(theta[j]));
      }
    }
    assert HeaderSet(t.columns) == names + {ColEnergy} by {
      forall h ensures h in HeaderSet(t.columns) <==> h in names + {ColEnergy} {
      }
    }
    DistinctHeaderCount(t.columns);
    forall i, j | 0 <= i < j < |hs| ensures hs[i] != hs[j] {
      DegHeaderInjective(ops.repr(theta[i]), ops.repr(theta[j]));
    }
    DistinctHeadersCount(hs);
  }

  /** Different angle texts give different headers. */
  lemma DegHeaderInjective(a: string, b: string)
    requires a != b
    ensures DegHeader(a) != DegHeader(b)
  {
    if |a| == |b| {
      assert DegHeader(a)[..|a|] == a && DegHeader(b)[..|b|] == b;
    }
  }

  /** The angle array passed to `_default_ey`: numpy holds either integers or floats. */
  datatype Angles = IntAngles(ints: seq<int>) | FloatAngles(reals: seq<real>)
  {
    function Count(): nat
    {
      match this
      case IntAngles(js) => |js|
      case FloatAngles(xs) => |xs|
    }
  }

  /** Python's `str` of a natural number. */
  function NatString(n: nat): (s: string)
    ensures |s| >= 1 && forall i :: 0 <= i < |s| ==> '0' <= s[i] <= '9'
    decreases n
  {
    var d := ['0' + (n % 10) as char];
    if n < 10 then d else NatString(n / 10) + d
  }

  /** The column header `f"{angle} [deg]"`. */
  function DegHeader(text: string): string
  {
    text + " [deg]"
  }

  /** The headers "0 [deg]", "1 [deg]", ... for `n` columns. */
  function IndexHeaders(n: nat): (hs: seq<string>)
    ensures |hs| == n && forall i :: 0 <= i < n ==> hs[i] == DegHeader(NatString(i))
  {
    seq(n, i requires 0 <= i < n => DegHeader(NatString(i)))
  }

  /**
   * `_default_ey` as written: `for the, j in enumerate(theta)` binds the index
   * to `the` and the angle to `j`, so the headers are the positions and each
   * angle is used to index a column of `out`. A float index raises IndexError,
   * and so does an integer outside `-n_theta .. n_theta - 1`.
   */
  function DefaultEyAsWritten(energy: seq<real>, theta: Angles): (r: Result<Table>)
    ensures r.Err? ==> r.error == IndexError
    ensures r.Ok? <==> (match theta
                        case FloatAngles(xs) => xs == []
                        case IntAngles(js) => forall i :: 0 <= i < |js| ==> -|js| <= js[i] < |js|)
    ensures r.Ok? ==> r.value == NullTable(energy, IndexHeaders(theta.Count()))
  {
    var headers := IndexHeaders(theta.Count());
    match theta
    case FloatAngles(xs) => if xs == [] then Ok(NullTable(energy, headers)) else Err(IndexError)
    case IntAngles(js) =>
      if forall i :: 0 <= i < |js| ==> PyIndex(js[i], |js|).Ok? then Ok(NullTable(energy, headers))
      else Err(IndexError)
  }

  /** The angles every model is evaluated at in the Vaughan test: 0, 45 and 60 degrees, as floats. */
  lemma FloatAnglesBreakDefaultEy(energy: seq<real>, xs: seq<real>)
    requires xs != []
    ensures DefaultEyAsWritten(energy, FloatAngles(xs)) == Err(IndexError)
  {
  }

  /** An integer angle in range is accepted, but its column is labelled by its position: -1 degrees comes out as "0 [deg]". */
  lemma IntAnglesAreRelabelled(energy: seq<real>)
    ensures DefaultEyAsWritten(energy, IntAngles([-1])).Ok?
    ensures DegHeader("0") in HeaderSet(DefaultEyAsWritten(energy, IntAngles([-1])).value.columns)
    ensures DegHeader("-1") !in HeaderSet(DefaultEyAsWritten(energy, IntAngles([-1])).value.columns)
    ensures DefaultEyAsWritten(energy, IntAngles([0, 45, 60])) == Err(IndexError)
  {
    assert NatString(0) == "0";
    assert IndexHeaders(1) == [DegHeader("0")];
    assert PyIndex([0, 45, 60][1], 3).Err?;
    assert DegHeader("-1") != ColEnergy && DegHeader("-1") != DegHeader("0");
  }

  /** `_default_ey` as intended: one zero column per angle, labelled `str(angle) + " [deg]"`, and the energies. */
  function DefaultEy(ops: FloatOps, energy: seq<real>, theta: seq<real>): (t: Table)
    ensures HasRows(t, |energy|)
    ensures Lookup(t, ColEnergy) == Ok(AsFloats(energy))
    ensures forall h :: h in HeaderSet(t.columns) <==> h == ColEnergy || h in AngleHeaders(ops, theta)
    ensures forall h :: h in HeaderSet(t.columns) && h != ColEnergy ==> Find(t.columns, h) == Some(Zeros(|energy|))
  {
    NullTable(energy, AngleHeaders(ops, theta))
  }

  /**
   * The base model's TEEY, `_default_ey` as intended: the null table. As
   * written, `_default_ey` raises IndexError for float angles
   * (`DefaultEyAsWritten`).
   */
  function Teey(ops: FloatOps, energy: seq<real>, theta: seq<real>): Table
  {
    DefaultEy(ops, energy, theta)
  }

  /** The base model's SEEY, `_default_ey` as intended: the null table. */
  function Seey(ops: FloatOps, energy: seq<real>, theta: seq<real>): Table
  {
    DefaultEy(ops, energy, theta)
  }

  /**
   * With `_default_ey` as intended, both base yields are the same null table:
   * zero at every energy and angle, with the energies alongside. The
   * `_default_ey` as written that they call fails on any float angles.
   */
  lemma BaseYieldsAreNull(ops: FloatOps, energy: seq<real>, theta: seq<real>)
    ensures theta != [] ==> DefaultEyAsWritten(energy, FloatAngles(theta)) == Err(IndexError)
    ensures Teey(ops, energy, theta) == Seey(ops, energy, theta)
    ensures HasRows(Teey(ops, energy, theta), |energy|)
    ensures Lookup(Teey(ops, energy, theta), ColEnergy) == Ok(AsFloats(energy))
    ensures forall h :: h in HeaderSet(Teey(ops, energy, theta).columns) && h != ColEnergy ==>
      Find(Teey(ops, energy, theta).columns, h) == Some(Zeros(|energy|))
  {
  }

  /**
   * A model's TEEY evaluator, `teey(energies, angles)`, which subclasses
   * override; for the base class it is `Teey`, with `_default_ey` as intended.
   */
  type TeeyFunc = (seq<real>, seq<real>) -> Table

  /** `Model.plot` for one population: only the TEEY of "all" is drawn. */
  function PlotOne<A>(plotter: Plotter<A>, teey: TeeyFunc, population: string, kind: string,
                      energies: seq<real>, angles: seq<real>, axes: Option<A>): (r: Result<Option<A>>)
    ensures r.Ok? <==> population == PopulationName(All) && kind == KindName(EmissionYield)
    ensures r.Err? ==> r.error == NotImplementedError
    ensures r.Ok? ==> r.value == Some(plotter.plotEmissionYield(teey(energies, angles), axes))
  {
    if population != PopulationName(All) then Err(NotImplementedError)
    else if kind != KindName(EmissionYield) then Err(NotImplementedError)
    else Ok(Some(plotter.plotEmissionYield(teey(energies, angles), axes)))
  }

  /** `Model.plot` over a collection: one call per population, in order, threading the axes. */
  function PlotEach<A>(plotter: Plotter<A>, teey: TeeyFunc, populations: seq<string>, kind: string,
                       energies: seq<real>, angles: seq<real>, axes: Option<A>): Result<Option<A>>
  {
    if populations == [] then Ok(axes)
    else
      var a :- PlotOne(plotter, teey, populations[0], kind, energies, angles, axes);
      PlotEach(plotter, teey, populations[1..], kind, energies, angles, a)
  }

  /** `Model.plot`. */
  function Plot<A>(plotter: Plotter<A>, teey: TeeyFunc, population: PopulationArg, kind: string,
                   energies: seq<real>, angles: seq<real>, axes: Option<A>): Result<Option<A>>
  {
    match population
    case Single(p) => PlotOne(plotter, teey, p, kind, energies, angles, axes)
    case Several(ps) => PlotEach(plotter, teey, ps, kind, energies, angles, axes)
  }

  /** The population argument: one name, or a collection of names. */
  datatype PopulationArg = Single(name: string) | Several(names: seq<string>)

  /** The fold draws the last population on the axes the earlier ones returned. */
  lemma {:induction false} PlotEachSnoc<A>(plotter: Plotter<A>, teey: TeeyFunc, ps: seq<string>, p: string, kind: string,
                                            energies: seq<real>, angles: seq<real>, axes: Option<A>)
    ensures PlotEach(plotter, teey, ps + [p], kind, energies, angles, axes) ==
      (match PlotEach(plotter, teey, ps, kind, energies, angles, axes)
       case Err(e) => Err(e)
       case Ok(a) => PlotOne(plotter, teey, p, kind, energies, angles, a))
    decreases |ps|
  {
    if ps == [] {
      assert [p][1..] == [];
    } else {
      assert (ps + [p])[1..] == ps[1..] + [p];
      match PlotOne(plotter, teey, ps[0], kind, energies, angles, axes)
      case Err(e) =>
      case Ok(a) => PlotEachSnoc(plotter, teey, ps[1..], p, kind, energies, angles, a);
    }
  }

  /**
   * A collection plot succeeds exactly when it is empty, or when it names only
   * "all" and asks for the emission yield; otherwise NotImplementedError.
   */
  lemma {:induction false} PlotEachSucceeds<A>(plotter: Plotter<A>, teey: TeeyFunc, ps: seq<string>, kind: string,
                                                energies: seq<real>, angles: seq<real>, axes: Option<A>)
    ensures PlotEach(plotter, teey, ps, kind, energies, angles, axes).Ok? <==>
      ps == [] || (kind == KindName(EmissionYield) && forall i :: 0 <= i < |ps| ==> ps[i] == PopulationName(All))
    ensures PlotEach(plotter, teey, ps, kind, energies, angles, axes).Err? ==>
      PlotEach(plotter, teey, ps, kind, energies, angles, axes).error == NotImplementedError
    ensures ps != [] && PlotEach(plotter, teey, ps, kind, energies, angles, axes).Ok? ==>
      PlotEach(plotter, teey, ps, kind, energies, angles, axes).value.Some?
    decreases |ps|
  {
    if ps != [] {
      var first := PlotOne(plotter, teey, ps[0], kind, energies, angles, axes);
      if first.Ok? {
        PlotEachSucceeds(plotter, teey, ps[1..], kind, energies, angles, first.value);
        assert forall i :: 1 <= i < |ps| ==> ps[i] == ps[1..][i - 1];
      }
    }
  }
}
