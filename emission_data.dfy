/**
 * Measured emission data as an abstract value tagged with its population and
 * kind, the file entries of the data matrix, and the Loader and Plotter
 * collaborators as records of functions.
 */
module Emission {
  import opened Wrappers
  import opened Floats
  import opened Tables
  import opened Constants

  /**
   * An `EmissionYield`, `EmissionEnergyDistribution` or
   * `EmissionAngleDistribution`. The energy distribution also keeps the energy
   * column and the incidence angles read from its headers.
   */
  datatype EmissionData =
    | Yield(population: Population, table: Table)
    | EnergyDistribution(population: Population, table: Table, energies: seq<Float>, angles: seq<Float>)
    | AngleDistribution(population: Population, table: Table)
  {
    function Kind(): DataKind
    {
      match this
      case Yield(_, _) => EmissionYield
      case EnergyDistribution(_, _, _, _) => EmissionEnergy
      case AngleDistribution(_, _) => EmissionAngle
    }
  }

  /** A data-matrix data cell: one data object or a collection of them. */
  datatype DataEntry = One(data: EmissionData) | Many(items: seq<EmissionData>)

  /** A data-matrix file cell: a `str`, a `Path`, or a collection of paths. */
  datatype FileEntry = Str(s: string) | PathObj(p: string) | Paths(paths: seq<string>)

  /** Python truthiness of a file cell: the empty string and the empty collection are false, a Path is always true. */
  predicate Truthy(f: FileEntry)
  {
    match f
    case Str(s) => s != ""
    case PathObj(_) => true
    case Paths(ps) => ps != []
  }

  /**
   * The arguments `*filepath` produces. A `str` is iterable, so it is split
   * into one-character paths; a `Path` is not iterable and the splat raises
   * TypeError.
   */
  function Splat(f: FileEntry): (r: Result<seq<string>>)
    ensures f.Paths? ==> r == Ok(f.paths)
    ensures f.PathObj? ==> r == Err(TypeError)
    ensures f.Str? ==> r.Ok? && |r.value| == |f.s| && forall i :: 0 <= i < |f.s| ==> r.value[i] == [f.s[i]]
  {
    match f
    case Str(s) => Ok(seq(|s|, i requires 0 <= i < |s| => [s[i]]))
    case PathObj(_) => Err(TypeError)
    case Paths(ps) => Ok(ps)
  }

  /** A bare path string longer than one character never reaches the loader as one path. */
  lemma BareStringIsSplitIntoCharacters(path: string)
    requires |path| > 1
    ensures Splat(Str(path)).Ok?
    ensures Splat(Str(path)).value != [path]
    ensures |Splat(Str(path)).value| == |path|
  {
    assert |Splat(Str(path)).value[0]| == 1;
  }

  /**
   * The paths a file cell evidently stands for: a `str` or a `Path` is one
   * path, a collection is its members in order.
   */
  function PathsOf(f: FileEntry): (r: seq<string>)
    ensures f.Str? ==> r == [f.s]
    ensures f.PathObj? ==> r == [f.p]
    ensures f.Paths? ==> r == f.paths
  {
    match f
    case Str(s) => [s]
    case PathObj(p) => [p]
    case Paths(ps) => ps
  }

  /**
   * The splat agrees with the intended paths exactly on collections and on
   * strings of one character; a longer string or a `Path` is where they part.
   */
  lemma SplatAgreesWithPathsOf(f: FileEntry)
    ensures Splat(f) == Ok(PathsOf(f)) <==> f.Paths? || (f.Str? && |f.s| == 1)
  {
    if f.Str? && |f.s| > 1 {
      BareStringIsSplitIntoCharacters(f.s);
    }
    if f.Str? && |f.s| == 1 {
      assert f.s == [f.s[0]];
      assert Splat(f).value == [[f.s[0]]];
    }
    if f.Str? && |f.s| == 0 {
      assert Splat(f).value == [];
    }
  }

  /** A `Loader`: one reader per data kind, from paths to a table (I/O errors surface as `Err`). */
  datatype Loader = Loader(
    loadEmissionYield: seq<string> -> Result<Table>,
    loadEmissionEnergyDistribution: seq<string> -> Result<Table>,
    loadEmissionAngleDistribution: seq<string> -> Result<Table>)

  /** A `Plotter`: one drawing call per data kind, threading an axes token of type `A`. */
  datatype Plotter<!A> = Plotter(
    plotEmissionYield: (Table, Option<A>) -> A,
    plotEmissionEnergyDistribution: (Table, Option<A>) -> A,
    plotEmissionAngleDistribution: (Table, Option<A>) -> A)

  /** `EmissionData.plot`: the plotter call matching the data's kind, on its table. */
  function PlotData<A>(plotter: Plotter<A>, d: EmissionData, axes: Option<A>): (r: A)
    ensures d.Kind() == EmissionYield ==> r == plotter.plotEmissionYield(d.table, axes)
    ensures d.Kind() == EmissionEnergy ==> r == plotter.plotEmissionEnergyDistribution(d.table, axes)
    ensures d.Kind() == EmissionAngle ==> r == plotter.plotEmissionAngleDistribution(d.table, axes)
  {
    match d
    case Yield(_, t) => plotter.plotEmissionYield(t, axes)
    case EnergyDistribution(_, t, _, _) => plotter.plotEmissionEnergyDistribution(t, axes)
    case AngleDistribution(_, t) => plotter.plotEmissionAngleDistribution(t, axes)
  }
}
