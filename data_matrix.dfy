/** `DataMatrix`: the 4 x 3 grids of input files and loaded data, one row per population, one column per kind. */
module DataMatrix {
  import opened Wrappers
  import opened Floats
  import opened Tables
  import opened Constants
  import opened Grid
  import opened Config
  import opened Emission
  import EnergyDistribution

  /** `pop_to_row`: each population literal to its position in IMPLEMENTED_POP. */
  const PopToRow: map<string, nat> := map["SE" := 0, "EBE" := 1, "IBE" := 2, "all" := 3]
  /** `row_to_pop`: the inverted dict. */
  const RowToPop: map<nat, string> := map[0 := "SE", 1 := "EBE", 2 := "IBE", 3 := "all"]
  /** `emission_data_type_to_col`. */
  const KindToCol: map<string, nat> := map["Emission Yield" := 0, "Emission Energy" := 1, "Emission Angle" := 2]
  /** `col_to_emission_data_type`. */
  const ColToKind: map<nat, string> := map[0 := "Emission Yield", 1 := "Emission Energy", 2 := "Emission Angle"]

  /** The populations with a row are exactly the implemented ones. */
  lemma PopToRowDomain()
    ensures forall p :: p in PopToRow <==> p in ImplementedPop
  {
  }

  /**
   * `pop_to_row` enumerates IMPLEMENTED_POP and is a bijection onto 0..3
   * whose inverse is `row_to_pop`.
   */
  lemma PopulationIndexIsBijection()
    ensures forall i :: 0 <= i < NRows ==> ImplementedPop[i] in PopToRow && PopToRow[ImplementedPop[i]] == i
    ensures forall p :: p in PopToRow <==> p in ImplementedPop
    ensures RowToPop.Keys == {0, 1, 2, 3}
    ensures forall p :: p in PopToRow ==> PopToRow[p] in RowToPop && RowToPop[PopToRow[p]] == p
    ensures forall r :: r in RowToPop ==> RowToPop[r] in PopToRow && PopToRow[RowToPop[r]] == r
  {
  }

  /**
   * `emission_data_type_to_col` enumerates IMPLEMENTED_EMISSION_DATA and is a
   * bijection onto 0..2 whose inverse is `col_to_emission_data_type`.
   */
  lemma KindIndexIsBijection()
    ensures forall i :: 0 <= i < NCols ==> ImplementedEmissionData[i] in KindToCol && KindToCol[ImplementedEmissionData[i]] == i
    ensures forall k :: k in KindToCol <==> k in ImplementedEmissionData
    ensures ColToKind.Keys == {0, 1, 2}
    ensures forall k :: k in KindToCol ==> KindToCol[k] in ColToKind && ColToKind[KindToCol[k]] == k
    ensures forall c :: c in ColToKind ==> ColToKind[c] in KindToCol && KindToCol[ColToKind[c]] == c
  {
  }

  /** Python truthiness of an optional string argument. */
  predicate Given(s: Option<string>)
  {
    s.Some? && s.value != ""
  }

  /** `_natures_to_indexes`: two dict lookups, each raising KeyError for an unknown name. */
  function NaturesToIndexes(population: string, kind: string): (r: Result<(nat, nat)>)
    ensures r.Ok? <==> population in PopToRow && kind in KindToCol
    ensures r.Ok? ==> r.value == (PopToRow[population], KindToCol[kind])
    ensures r.Err? ==> r.error == KeyError
  {
    if population !in PopToRow then Err(KeyError)
    else if kind !in KindToCol then Err(KeyError)
    else Ok((PopToRow[population], KindToCol[kind]))
  }

  /**
   * `_indexes_to_natures`: two dict lookups, each raising KeyError for a key
   * the dict does not hold (a negative index included); the membership
   * assertions that follow always hold.
   */
  function IndexesToNatures(row: int, col: int): (r: Result<(string, string)>)
    ensures r.Ok? <==> 0 <= row < NRows && 0 <= col < NCols
    ensures r.Ok? ==> r.value.0 in ImplementedPop && r.value.1 in ImplementedEmissionData
    ensures r.Ok? ==> NaturesToIndexes(r.value.0, r.value.1) == Ok((row as nat, col as nat))
    ensures r.Err? ==> r.error == KeyError
  {
    if row < 0 || row as nat !in RowToPop then Err(KeyError)
    else if col < 0 || col as nat !in ColToKind then Err(KeyError)
    else Ok((RowToPop[row as nat], ColToKind[col as nat]))
  }

  /** Names to indexes to names is the identity on the implemented names. */
  lemma NaturesRoundTrip(population: string, kind: string)
    requires population in PopToRow && kind in KindToCol
    ensures IndexesToNatures(PopToRow[population], KindToCol[kind]) == Ok((population, kind))
  {
  }

  /**
   * The cell a `set_*`/`get_*` call addresses: a truthy (population, kind)
   * pair replaces row and col; then a missing row or col raises ValueError and
   * the list indexing may raise IndexError.
   */
  function ResolveAddress(row: Option<int>, col: Option<int>, population: Option<string>, kind: Option<string>): (r: Result<(nat, nat)>)
    ensures r.Ok? ==> r.value.0 < NRows && r.value.1 < NCols
  {
    var rc: (Option<int>, Option<int>) :-
      if Given(population) && Given(kind) then
        var ij :- NaturesToIndexes(population.value, kind.value);
        Ok((Some(ij.0 as int), Some(ij.1 as int)))
      else Ok((row, col));
    if rc.0.None? || rc.1.None? then Err(ValueError)
    else
      var i :- PyIndex(rc.0.value, NRows);
      var j :- PyIndex(rc.1.value, NCols);
      Ok((i, j))
  }

  /** Names win: with a truthy, known (population, kind) pair, row and col are ignored. */
  lemma NamesWin(row: Option<int>, col: Option<int>, population: string, kind: string)
    requires population != "" && kind != ""
    ensures population in PopToRow && kind in KindToCol ==>
      ResolveAddress(row, col, Some(population), Some(kind)) == Ok((PopToRow[population], KindToCol[kind]))
    ensures population !in PopToRow || kind !in KindToCol ==>
      ResolveAddress(row, col, Some(population), Some(kind)) == Err(KeyError)
  {
  }

  /** Without a full (row, col) pair and without a full truthy (population, kind) pair, ValueError. */
  lemma IncompleteAddressIsValueError(row: Option<int>, col: Option<int>, population: Option<string>, kind: Option<string>)
    requires !(Given(population) && Given(kind))
    requires row.None? || col.None?
    ensures ResolveAddress(row, col, population, kind) == Err(ValueError)
  {
  }

  /** By index: Python list indexing, negative indices included. */
  lemma IndicesAddressTheirCell(row: int, col: int, population: Option<string>, kind: Option<string>)
    requires !(Given(population) && Given(kind))
    ensures ResolveAddress(Some(row), Some(col), population, kind).Ok? <==> -4 <= row < 4 && -3 <= col < 3
    ensures ResolveAddress(Some(row), Some(col), population, kind).Ok? ==>
      ResolveAddress(Some(row), Some(col), population, kind).value == ((if row >= 0 then row else row + 4) as nat, (if col >= 0 then col else col + 3) as nat)
  {
  }

  /** `get_files` / `get_data` on a grid: the addressed cell, or the addressing error. */
  function Get<T>(g: seq<seq<Option<T>>>, row: Option<int>, col: Option<int>, population: Option<string>, kind: Option<string>): (r: Result<Option<T>>)
    requires Shaped(g)
    ensures r.Err? <==> ResolveAddress(row, col, population, kind).Err?
    ensures r.Err? ==> r.error == ResolveAddress(row, col, population, kind).error
    ensures r.Ok? ==> var ij := ResolveAddress(row, col, population, kind).value; r.value == g[ij.0][ij.1]
  {
    var ij :- ResolveAddress(row, col, population, kind);
    Ok(g[ij.0][ij.1])
  }

  /** After writing the cell an address designates, reading through any address gives the new value there and the old value elsewhere. */
  lemma WriteThenRead<T>(g: seq<seq<Option<T>>>, i: nat, j: nat, v: T,
                         row: Option<int>, col: Option<int>, population: Option<string>, kind: Option<string>)
    requires Shaped(g) && i < NRows && j < NCols
    requires ResolveAddress(row, col, population, kind).Ok?
    ensures ResolveAddress(row, col, population, kind).value == (i, j) ==>
      Get(Set(g, i, j, Some(v)), row, col, population, kind) == Ok(Some(v))
    ensures ResolveAddress(row, col, population, kind).value != (i, j) ==>
      Get(Set(g, i, j, Some(v)), row, col, population, kind) == Get(g, row, col, population, kind)
  {
  }

  predicate TruthyCell(f: Option<FileEntry>)
  {
    f.Some? && Truthy(f.value)
  }

  /**
   * Which file cells a `load_data` walk skips: this revision skips every
   * falsy cell (`if not filepath`), the older one only the `None` cells.
   */
  datatype SkipRule = SkipFalsy | SkipNone

  /** The file cells the walk loads. */
  predicate Visited(rule: SkipRule, f: Option<FileEntry>)
  {
    if rule == SkipFalsy then TruthyCell(f) else f.Some?
  }

  /**
   * The `from_filepath` call for one cell: the splatted paths go to the
   * reader of the column's kind, and the result is tagged with the row's
   * population.
   */
  function LoadCell(ops: FloatOps, loader: Loader, population: Population, kind: DataKind, f: FileEntry): (r: Result<EmissionData>)
    ensures Splat(f).Err? ==> r == Err(Splat(f).error)
    ensures r.Ok? ==> r.value.population == population && r.value.Kind() == kind
  {
    var paths :- Splat(f);
    match kind
    case EmissionYield =>
      var t :- loader.loadEmissionYield(paths);
      Ok(Yield(population, t))
    case EmissionEnergy =>
      EnergyDistribution.FromFilepath(ops, population, loader, paths)
    case EmissionAngle =>
      var t :- loader.loadEmissionAngleDistribution(paths);
      Ok(AngleDistribution(population, t))
  }

  /** The `from_filepath` dispatch of a walk, as a value. */
  type CellLoader = (Population, DataKind, FileEntry) -> Result<EmissionData>

  function Loads(ops: FloatOps, loader: Loader): (load: CellLoader)
    ensures forall p, k, f :: load(p, k, f) == LoadCell(ops, loader, p, k, f)
  {
    (p, k, f) => LoadCell(ops, loader, p, k, f)
  }

  /** Cell (r, c) comes at or after cell (i, j) in the row-major walk. */
  predicate AtOrAfter(i: nat, j: nat, r: nat, c: nat)
  {
    r > i || (r == i && c >= j)
  }

  /**
   * What `load_data` does from cell (i, j) on, in row-major order: a skipped
   * file cell leaves its data cell alone, any other is loaded into it, and
   * the first exception ends the walk.
   */
  function LoadFrom(load: CellLoader, rule: SkipRule, files: seq<seq<Option<FileEntry>>>,
                    data: seq<seq<Option<DataEntry>>>, i: nat, j: nat): (res: (seq<seq<Option<DataEntry>>>, Outcome))
    requires Shaped(files) && Shaped(data) && i <= NRows && j <= NCols
    ensures Shaped(res.0)
    decreases NRows - i, NCols - j
  {
    if i == NRows then (data, Pass)
    else if j == NCols then LoadFrom(load, rule, files, data, i + 1, 0)
    else if !Visited(rule, files[i][j]) then LoadFrom(load, rule, files, data, i, j + 1)
    else
      match load(AllPopulations[i], AllKinds[j], files[i][j].value)
      case Err(e) => (data, Fail(e))
      case Ok(d) => LoadFrom(load, rule, files, Set(data, i, j, Some(One(d))), i, j + 1)
  }

  /** The walk steps from the end of a row to the start of the next. */
  lemma LoadFromRowEnd(load: CellLoader, rule: SkipRule, files: seq<seq<Option<FileEntry>>>,
                       data: seq<seq<Option<DataEntry>>>, i: nat)
    requires Shaped(files) && Shaped(data) && i < NRows
    ensures LoadFrom(load, rule, files, data, i, NCols) == LoadFrom(load, rule, files, data, i + 1, 0)
  {
  }

  /** The walk steps over a skipped cell. */
  lemma LoadFromSkip(load: CellLoader, rule: SkipRule, files: seq<seq<Option<FileEntry>>>,
                     data: seq<seq<Option<DataEntry>>>, i: nat, j: nat)
    requires Shaped(files) && Shaped(data) && i < NRows && j < NCols
    requires !Visited(rule, files[i][j])
    ensures LoadFrom(load, rule, files, data, i, j) == LoadFrom(load, rule, files, data, i, j + 1)
  {
  }

  /** The walk stores what a visited cell loads and goes on, or stops at its error. */
  lemma LoadFromVisit(load: CellLoader, rule: SkipRule, files: seq<seq<Option<FileEntry>>>,
                      data: seq<seq<Option<DataEntry>>>, i: nat, j: nat)
    requires Shaped(files) && Shaped(data) && i < NRows && j < NCols
    requires Visited(rule, files[i][j])
    ensures var loaded := load(AllPopulations[i], AllKinds[j], files[i][j].value);
      && (loaded.Err? ==> LoadFrom(load, rule, files, data, i, j) == (data, Fail(loaded.error)))
      && (loaded.Ok? ==> LoadFrom(load, rule, files, data, i, j) ==
                         LoadFrom(load, rule, files, Set(data, i, j, Some(One(loaded.value))), i, j + 1))
  {
  }

  /** The walk from (i, j) leaves every earlier cell and every skipped cell as it was, whatever its outcome. */
  lemma {:induction false} LoadFromKeeps(load: CellLoader, rule: SkipRule, files: seq<seq<Option<FileEntry>>>,
                                         data: seq<seq<Option<DataEntry>>>, i: nat, j: nat, r: nat, c: nat)
    requires Shaped(files) && Shaped(data) && i <= NRows && j <= NCols
    requires r < NRows && c < NCols && (!AtOrAfter(i, j, r, c) || !Visited(rule, files[r][c]))
    ensures LoadFrom(load, rule, files, data, i, j).0[r][c] == data[r][c]
    decreases NRows - i, NCols - j, 1
  {
    if i < NRows && j == NCols {
      LoadFromKeepsRowEnd(load, rule, files, data, i, r, c);
    } else if i < NRows && !Visited(rule, files[i][j]) {
      LoadFromKeepsSkip(load, rule, files, data, i, j, r, c);
    } else if i < NRows {
      LoadFromKeepsVisit(load, rule, files, data, i, j, r, c);
    }
  }

  /** `LoadFromKeeps` at the end of a row. */
  lemma {:induction false} LoadFromKeepsRowEnd(load: CellLoader, rule: SkipRule, files: seq<seq<Option<FileEntry>>>,
                                               data: seq<seq<Option<DataEntry>>>, i: nat, r: nat, c: nat)
    requires Shaped(files) && Shaped(data) && i < NRows
    requires r < NRows && c < NCols && (!AtOrAfter(i, NCols, r, c) || !Visited(rule, files[r][c]))
    ensures LoadFrom(load, rule, files, data, i, NCols).0[r][c] == data[r][c]
    decreases NRows - i, 0, 0
  {
    LoadFromRowEnd(load, rule, files, data, i);
    LoadFromKeeps(load, rule, files, data, i + 1, 0, r, c);
  }

  /** `LoadFromKeeps` at a skipped cell. */
  lemma {:induction false} LoadFromKeepsSkip(load: CellLoader, rule: SkipRule, files: seq<seq<Option<FileEntry>>>,
                                             data: seq<seq<Option<DataEntry>>>, i: nat, j: nat, r: nat, c: nat)
    requires Shaped(files) && Shaped(data) && i < NRows && j < NCols && !Visited(rule, files[i][j])
    requires r < NRows && c < NCols && (!AtOrAfter(i, j, r, c) || !Visited(rule, files[r][c]))
    ensures LoadFrom(load, rule, files, data, i, j).0[r][c] == data[r][c]
    decreases NRows - i, NCols - j, 0
  {
    LoadFromSkip(load, rule, files, data, i, j);
    LoadFromKeeps(load, rule, files, data, i, j + 1, r, c);
  }

  /** `LoadFromKeeps` at a visited cell: its store does not touch cell (r, c), nor does the rest of the walk. */
  lemma {:induction false} LoadFromKeepsVisit(load: CellLoader, rule: SkipRule, files: seq<seq<Option<FileEntry>>>,
                                              data: seq<seq<Option<DataEntry>>>, i: nat, j: nat, r: nat, c: nat)
    requires Shaped(files) && Shaped(data) && i < NRows && j < NCols && Visited(rule, files[i][j])
    requires r < NRows && c < NCols && (!AtOrAfter(i, j, r, c) || !Visited(rule, files[r][c]))
    ensures LoadFrom(load, rule, files, data, i, j).0[r][c] == data[r][c]
    decreases NRows - i, NCols - j, 0
  {
    LoadFromVisit(load, rule, files, data, i, j);
    var loaded := load(AllPopulations[i], AllKinds[j], files[i][j].value);
    if loaded.Ok? {
      var data' := Set(data, i, j, Some(One(loaded.value)));
      LoadFromKeeps(load, rule, files, data', i, j + 1, r, c);
    }
  }

  /** Every visited cell at or after (i, j) loads without an exception. */
  predicate LoadsFrom(load: CellLoader, rule: SkipRule, files: seq<seq<Option<FileEntry>>>, i: nat, j: nat)
    requires Shaped(files)
  {
    forall r, c :: 0 <= r < NRows && 0 <= c < NCols && AtOrAfter(i, j, r, c) && Visited(rule, files[r][c]) ==>
      load(AllPopulations[r], AllKinds[c], files[r][c].value).Ok?
  }

  /** When every later visited cell loads, the walk from (i, j) succeeds. */
  lemma {:induction false} LoadFromPasses(load: CellLoader, rule: SkipRule, files: seq<seq<Option<FileEntry>>>,
                                          data: seq<seq<Option<DataEntry>>>, i: nat, j: nat)
    requires Shaped(files) && Shaped(data) && i <= NRows && j <= NCols
    requires LoadsFrom(load, rule, files, i, j)
    ensures LoadFrom(load, rule, files, data, i, j).1.Pass?
    decreases NRows - i, NCols - j, 1
  {
    if i == NRows {
    } else if j == NCols {
      assert LoadsFrom(load, rule, files, i + 1, 0);
      LoadFromRowEnd(load, rule, files, data, i);
      LoadFromPasses(load, rule, files, data, i + 1, 0);
    } else if !Visited(rule, files[i][j]) {
      assert LoadsFrom(load, rule, files, i, j + 1);
      LoadFromSkip(load, rule, files, data, i, j);
      LoadFromPasses(load, rule, files, data, i, j + 1);
    } else {
      LoadFromPassesVisit(load, rule, files, data, i, j);
    }
  }

  /** `LoadFromPasses` at a visited cell: it loads, and the rest of the walk passes. */
  lemma {:induction false} LoadFromPassesVisit(load: CellLoader, rule: SkipRule, files: seq<seq<Option<FileEntry>>>,
                                               data: seq<seq<Option<DataEntry>>>, i: nat, j: nat)
    requires Shaped(files) && Shaped(data) && i < NRows && j < NCols && Visited(rule, files[i][j])
    requires LoadsFrom(load, rule, files, i, j)
    ensures LoadFrom(load, rule, files, data, i, j).1.Pass?
    decreases NRows - i, NCols - j, 0
  {
    assert LoadsFrom(load, rule, files, i, j + 1);
    LoadFromVisit(load, rule, files, data, i, j);
    var loaded := load(AllPopulations[i], AllKinds[j], files[i][j].value);
    assert loaded.Ok?;
    LoadFromPasses(load, rule, files, Set(data, i, j, Some(One(loaded.value))), i, j + 1);
  }

  /** After a successful walk from (i, j), each later visited cell holds the data loaded from it. */
  lemma {:induction false} LoadFromLoads(load: CellLoader, rule: SkipRule, files: seq<seq<Option<FileEntry>>>,
                                         data: seq<seq<Option<DataEntry>>>, i: nat, j: nat, r: nat, c: nat)
    requires Shaped(files) && Shaped(data) && i <= NRows && j <= NCols
    requires r < NRows && c < NCols && AtOrAfter(i, j, r, c) && Visited(rule, files[r][c])
    requires LoadFrom(load, rule, files, data, i, j).1.Pass?
    ensures load(AllPopulations[r], AllKinds[c], files[r][c].value).Ok?
    ensures LoadFrom(load, rule, files, data, i, j).0[r][c] ==
      Some(One(load(AllPopulations[r], AllKinds[c], files[r][c].value).value))
    decreases NRows - i, NCols - j, 1
  {
    if i == NRows {
    } else if j == NCols {
      LoadFromRowEnd(load, rule, files, data, i);
      LoadFromLoads(load, rule, files, data, i + 1, 0, r, c);
    } else if !Visited(rule, files[i][j]) {
      LoadFromSkip(load, rule, files, data, i, j);
      LoadFromLoads(load, rule, files, data, i, j + 1, r, c);
    } else {
      LoadFromLoadsVisit(load, rule, files, data, i, j, r, c);
    }
  }

  /** `LoadFromLoads` at a visited cell: it loaded, and the rest of the walk keeps or loads cell (r, c). */
  lemma {:induction false} LoadFromLoadsVisit(load: CellLoader, rule: SkipRule, files: seq<seq<Option<FileEntry>>>,
                                              data: seq<seq<Option<DataEntry>>>, i: nat, j: nat, r: nat, c: nat)
    requires Shaped(files) && Shaped(data) && i < NRows && j < NCols && Visited(rule, files[i][j])
    requires r < NRows && c < NCols && AtOrAfter(i, j, r, c) && Visited(rule, files[r][c])
    requires LoadFrom(load, rule, files, data, i, j).1.Pass?
    ensures load(AllPopulations[r], AllKinds[c], files[r][c].value).Ok?
    ensures LoadFrom(load, rule, files, data, i, j).0[r][c] ==
      Some(One(load(AllPopulations[r], AllKinds[c], files[r][c].value).value))
    decreases NRows - i, NCols - j, 0
  {
    LoadFromVisit(load, rule, files, data, i, j);
    var loaded := load(AllPopulations[i], AllKinds[j], files[i][j].value);
    var data' := Set(data, i, j, Some(One(loaded.value)));
    if r == i && c == j {
      LoadFromKeeps(load, rule, files, data', i, j + 1, r, c);
    } else {
      LoadFromLoads(load, rule, files, data', i, j + 1, r, c);
    }
  }

  /** A population argument of `plot`: one literal, or a (non-string) collection of them. */
  datatype PopulationArg = Single(name: string) | Several(names: seq<string>)

  /** Plots every item of a data collection in order, threading the axes. */
  function PlotItems<A>(plotter: Plotter<A>, items: seq<EmissionData>, axes: Option<A>): (r: Option<A>)
    ensures items != [] ==> r.Some?
    ensures items == [] ==> r == axes
  {
    if items == [] then axes else PlotItems(plotter, items[1..], Some(PlotData(plotter, items[0], axes)))
  }

  /** `plot` for one population: nothing for an empty cell, else the cell's data drawn on `axes`. */
  function PlotCell<A>(plotter: Plotter<A>, data: seq<seq<Option<DataEntry>>>, population: string, kind: string, axes: Option<A>): (r: Result<Option<A>>)
    requires Shaped(data)
    ensures Get(data, None, None, Some(population), Some(kind)).Err? ==> r.Err?
    ensures Get(data, None, None, Some(population), Some(kind)) == Ok(None) ==> r == Ok(None)
  {
    var cell: Option<DataEntry> :- Get(data, None, None, Some(population), Some(kind));
    match cell
    case None => Ok(None)
    case Some(One(d)) => Ok(Some(PlotData(plotter, d, axes)))
    case Some(Many(ds)) => Ok(PlotItems(plotter, ds, axes))
  }

  /** `plot` over a collection: one single-population call per element, in order, each receiving the previous axes. */
  function PlotEach<A>(plotter: Plotter<A>, data: seq<seq<Option<DataEntry>>>, populations: seq<string>, kind: string, axes: Option<A>): Result<Option<A>>
    requires Shaped(data)
  {
    if populations == [] then Ok(axes)
    else
      var a :- PlotCell(plotter, data, populations[0], kind, axes);
      PlotEach(plotter, data, populations[1..], kind, a)
  }

  /** `DataMatrix.plot`. */
  function Plot<A>(plotter: Plotter<A>, data: seq<seq<Option<DataEntry>>>, population: PopulationArg, kind: string, axes: Option<A>): Result<Option<A>>
    requires Shaped(data)
  {
    match population
    case Single(p) => PlotCell(plotter, data, p, kind, axes)
    case Several(ps) => PlotEach(plotter, data, ps, kind, axes)
  }

  /** The fold over a collection: the last population is plotted on whatever the ones before it returned. */
  lemma {:induction false} PlotEachSnoc<A>(plotter: Plotter<A>, data: seq<seq<Option<DataEntry>>>, ps: seq<string>, p: string, kind: string, axes: Option<A>)
    requires Shaped(data)
    ensures PlotEach(plotter, data, ps + [p], kind, axes) ==
      (match PlotEach(plotter, data, ps, kind, axes)
       case Err(e) => Err(e)
       case Ok(a) => PlotCell(plotter, data, p, kind, a))
    decreases |ps|
  {
    if ps == [] {
      assert [p][1..] == [];
    } else {
      assert (ps + [p])[1..] == ps[1..] + [p];
      match PlotCell(plotter, data, ps[0], kind, axes)
      case Err(e) =>
      case Ok(a) => PlotEachSnoc(plotter, data, ps[1..], p, kind, a);
    }
  }

  /** When the last population's cell is empty, the fold returns None, whatever the earlier populations drew. */
  lemma EmptyLastCellReturnsNone<A>(plotter: Plotter<A>, data: seq<seq<Option<DataEntry>>>, ps: seq<string>, p: string, kind: string, axes: Option<A>)
    requires Shaped(data)
    requires Get(data, None, None, Some(p), Some(kind)) == Ok(None)
    ensures PlotEach(plotter, data, ps + [p], kind, axes).Ok? ==> PlotEach(plotter, data, ps + [p], kind, axes) == Ok(None)
  {
    PlotEachSnoc(plotter, data, ps, p, kind, axes);
  }

  /** `has_all_mandatory_files`: every population the config lists for a kind is implemented and has both a file entry and data. */
  ghost predicate MandatoryPresent(cfg: ModelConfig, files: seq<seq<Option<FileEntry>>>, data: seq<seq<Option<DataEntry>>>)
    requires Shaped(files) && Shaped(data)
  {
    forall c, p :: 0 <= c < NCols && p in MandatoryFor(cfg, AllKinds[c]) ==>
      p in PopToRow && files[PopToRow[p]][c].Some? && data[PopToRow[p]][c].Some?
  }

  class DataMatrix {
    var files: seq<seq<Option<FileEntry>>>
    var data: seq<seq<Option<DataEntry>>>

    ghost predicate Valid()
      reads this
    {
      Shaped(files) && Shaped(data)
    }

    /** Both grids start with all twelve cells None. */
    constructor ()
      ensures Valid()
      ensures files == Filled(None) && data == Filled(None)
    {
      files := Filled(None);
      data := Filled(None);
    }

    /** `set_files`: writes exactly the addressed file cell, or raises and writes nothing. */
    method SetFiles(entry: FileEntry, row: Option<int> := None, col: Option<int> := None,
                    population: Option<string> := None, kind: Option<string> := None) returns (o: Outcome)
      requires Valid()
      modifies this
      ensures Valid() && data == old(data)
      ensures match ResolveAddress(row, col, population, kind)
        case Ok(ij) => o == Pass && files == Set(old(files), ij.0, ij.1, Some(entry))
        case Err(e) => o == Fail(e) && files == old(files)
    {
      match ResolveAddress(row, col, population, kind)
      case Err(e) =>
        o := Fail(e);
      case Ok(ij) =>
        files := files[ij.0 := files[ij.0][ij.1 := Some(entry)]];
        o := Pass;
    }

    /** `set_data`: writes exactly the addressed data cell, or raises and writes nothing. */
    method SetData(d: DataEntry, row: Option<int> := None, col: Option<int> := None,
                   population: Option<string> := None, kind: Option<string> := None) returns (o: Outcome)
      requires Valid()
      modifies this
      ensures Valid() && files == old(files)
      ensures match ResolveAddress(row, col, population, kind)
        case Ok(ij) => o == Pass && data == Set(old(data), ij.0, ij.1, Some(d))
        case Err(e) => o == Fail(e) && data == old(data)
    {
      match ResolveAddress(row, col, population, kind)
      case Err(e) =>
        o := Fail(e);
      case Ok(ij) =>
        data := data[ij.0 := data[ij.0][ij.1 := Some(d)]];
        o := Pass;
    }

    /** `get_files`. */
    function GetFiles(row: Option<int> := None, col: Option<int> := None,
                      population: Option<string> := None, kind: Option<string> := None): (r: Result<Option<FileEntry>>)
      reads this
      requires Valid()
      ensures r == Get(files, row, col, population, kind)
    {
      Get(files, row, col, population, kind)
    }

    /** `get_data`. */
    function GetData(row: Option<int> := None, col: Option<int> := None,
                     population: Option<string> := None, kind: Option<string> := None): (r: Result<Option<DataEntry>>)
      reads this
      requires Valid()
      ensures r == Get(data, row, col, population, kind)
    {
      Get(data, row, col, population, kind)
    }

    /**
     * `load_data`: walks populations then kinds, loads every truthy file
     * cell into the data cell beside it, and never touches the file grid.
     */
    method LoadData(ops: FloatOps, loader: Loader) returns (o: Outcome)
      requires Valid()
      modifies this
      ensures Valid() && files == old(files)
      ensures (data, o) == LoadFrom(Loads(ops, loader), SkipFalsy, files, old(data), 0, 0)
    {
      var i := 0;
      while i < NRows
        invariant 0 <= i <= NRows
        invariant Valid() && files == old(files)
        invariant LoadFrom(Loads(ops, loader), SkipFalsy, files, data, i, 0) == LoadFrom(Loads(ops, loader), SkipFalsy, files, old(data), 0, 0)
      {
        var j := 0;
        while j < NCols
          invariant 0 <= j <= NCols
          invariant Valid() && files == old(files)
          invariant LoadFrom(Loads(ops, loader), SkipFalsy, files, data, i, j) == LoadFrom(Loads(ops, loader), SkipFalsy, files, old(data), 0, 0)
        {
          var filepath := files[i][j];
          if TruthyCell(filepath) {
            var loaded := LoadCell(ops, loader, AllPopulations[i], AllKinds[j], filepath.value);
            if loaded.Err? {
              return Fail(loaded.error);
            }
            data := data[i := data[i][j := Some(One(loaded.value))]];
          }
          j := j + 1;
        }
        i := i + 1;
      }
      o := Pass;
    }

    /** `has_all_mandatory_files`: a read-only scan that stops at the first missing population, file or data. */
    method HasAllMandatoryFiles(cfg: ModelConfig) returns (ok: bool)
      requires Valid()
      ensures ok == MandatoryPresent(cfg, files, data)
    {
      PopToRowDomain();
      var c := 0;
      while c < NCols
        invariant 0 <= c <= NCols
        invariant forall c', p :: 0 <= c' < c && p in MandatoryFor(cfg, AllKinds[c']) ==>
          p in PopToRow && files[PopToRow[p]][c'].Some? && data[PopToRow[p]][c'].Some?
      {
        var mandatory := MandatoryFor(cfg, AllKinds[c]);
        var n := 0;
        while n < |mandatory|
          invariant 0 <= n <= |mandatory|
          invariant forall m :: 0 <= m < n ==>
            mandatory[m] in PopToRow && files[PopToRow[mandatory[m]]][c].Some? && data[PopToRow[mandatory[m]]][c].Some?
        {
          var population := mandatory[n];
          assert population in MandatoryFor(cfg, AllKinds[c]);
          if population !in ImplementedPop {
            return false;
          }
          var row := PopToRow[population];
          if files[row][c].None? {
            return false;
          }
          if data[row][c].None? {
            return false;
          }
          n := n + 1;
        }
        forall p | p in mandatory
          ensures p in PopToRow && files[PopToRow[p]][c].Some? && data[PopToRow[p]][c].Some?
        {
          var m :| 0 <= m < |mandatory| && mandatory[m] == p;
        }
        c := c + 1;
      }
      return true;
    }
  }

  /** `load_data` succeeds exactly when every visited file cell loads. */
  lemma LoadDataOutcome(load: CellLoader, rule: SkipRule, files: seq<seq<Option<FileEntry>>>, data: seq<seq<Option<DataEntry>>>)
    requires Shaped(files) && Shaped(data)
    ensures LoadFrom(load, rule, files, data, 0, 0).1.Pass? <==> LoadsFrom(load, rule, files, 0, 0)
  {
    if LoadsFrom(load, rule, files, 0, 0) {
      LoadFromPasses(load, rule, files, data, 0, 0);
    } else if LoadFrom(load, rule, files, data, 0, 0).1.Pass? {
      var r, c :| 0 <= r < NRows && 0 <= c < NCols && Visited(rule, files[r][c])
        && !load(AllPopulations[r], AllKinds[c], files[r][c].value).Ok?;
      LoadFromLoads(load, rule, files, data, 0, 0, r, c);
    }
  }

  /**
   * After `load_data`, a skipped file cell keeps its data on any outcome;
   * after a successful one, each visited cell holds what it loaded, tagged
   * with the row's population and the column's kind.
   */
  lemma LoadDataCell(ops: FloatOps, loader: Loader, rule: SkipRule, files: seq<seq<Option<FileEntry>>>,
                     data: seq<seq<Option<DataEntry>>>, r: nat, c: nat)
    requires Shaped(files) && Shaped(data) && r < NRows && c < NCols
    ensures !Visited(rule, files[r][c]) ==> LoadFrom(Loads(ops, loader), rule, files, data, 0, 0).0[r][c] == data[r][c]
    ensures LoadFrom(Loads(ops, loader), rule, files, data, 0, 0).1.Pass? && Visited(rule, files[r][c]) ==>
      var cell := LoadFrom(Loads(ops, loader), rule, files, data, 0, 0).0[r][c];
      && cell.Some? && cell.value.One?
      && LoadCell(ops, loader, AllPopulations[r], AllKinds[c], files[r][c].value).Ok?
      && cell.value.data == LoadCell(ops, loader, AllPopulations[r], AllKinds[c], files[r][c].value).value
      && cell.value.data.population == AllPopulations[r]
      && cell.value.data.Kind() == AllKinds[c]
  {
    var load := Loads(ops, loader);
    if !Visited(rule, files[r][c]) {
      LoadFromKeeps(load, rule, files, data, 0, 0, r, c);
    } else if LoadFrom(load, rule, files, data, 0, 0).1.Pass? {
      LoadFromLoads(load, rule, files, data, 0, 0, r, c);
    }
  }
}
