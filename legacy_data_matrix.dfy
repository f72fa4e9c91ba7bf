/**
 * The earlier `DataMatrix`: separate by-index and by-name setters, a
 * `load_data` that skips only `None` cells, and an assertion-based check of
 * the mandatory files. Its index dicts are the literals of the current
 * revision's `pop_to_row` and `emission_data_type_to_col`. The earlier
 * constants do not define the `IMPLEMENTED_EMISSION_DATA` tuple it imports;
 * the current revision's tuple, in the order yield, energy, angle, is used.
 */
module LegacyDataMatrix {
  import opened Wrappers
  import opened Floats
  import opened Constants
  import opened Grid
  import opened Config
  import opened Emission
  import DM = DataMatrix

  /**
   * `_indexes_to_natures` as written: a row the dict lacks raises KeyError;
   * any other row reaches `isinstance(population_type, ImplementedPop)`,
   * which raises TypeError because its second argument is a `typing.Literal`
   * alias, so no address is ever translated back to names.
   */
  function IndexesToNaturesAsWritten(row: int, col: int): (r: Result<(string, string)>)
    ensures r.Err?
    ensures r.error == KeyError <==> !(0 <= row < NRows)
    ensures DM.IndexesToNatures(row, col).Ok? ==> r == Err(TypeError)
  {
    if row < 0 || row >= NRows then Err(KeyError) else Err(TypeError)
  }

  /** The assertion scan over one kind's mandatory populations, in list order. */
  function CheckKind(mandatory: seq<string>, c: nat, files: seq<seq<Option<FileEntry>>>, data: seq<seq<Option<DataEntry>>>): (o: Outcome)
    requires Shaped(files) && Shaped(data) && c < NCols
    ensures o.Fail? ==> o.error == KeyError || o.error == AssertionError
  {
    if mandatory == [] then Pass
    else
      match DM.NaturesToIndexes(mandatory[0], KindName(AllKinds[c]))
      case Err(e) => Fail(e)
      case Ok(ij) =>
        if files[ij.0][ij.1].None? then Fail(AssertionError)
        else if data[ij.0][ij.1].None? then Fail(AssertionError)
        else CheckKind(mandatory[1..], c, files, data)
  }

  /** `assert_has_all_mandatory_files` from kind `c` on: kinds in order, stopping at the first failure. */
  function CheckFrom(cfg: ModelConfig, c: nat, files: seq<seq<Option<FileEntry>>>, data: seq<seq<Option<DataEntry>>>): Outcome
    requires Shaped(files) && Shaped(data) && c <= NCols
    decreases NCols - c
  {
    if c == NCols then Pass
    else
      match CheckKind(MandatoryFor(cfg, AllKinds[c]), c, files, data)
      case Fail(e) => Fail(e)
      case Pass => CheckFrom(cfg, c + 1, files, data)
  }

  /** One kind's scan passes exactly when each listed population is known and has a file and data. */
  lemma {:induction false} CheckKindPasses(mandatory: seq<string>, c: nat, files: seq<seq<Option<FileEntry>>>, data: seq<seq<Option<DataEntry>>>)
    requires Shaped(files) && Shaped(data) && c < NCols
    ensures CheckKind(mandatory, c, files, data).Pass? <==>
      forall p :: p in mandatory ==> p in DM.PopToRow && files[DM.PopToRow[p]][c].Some? && data[DM.PopToRow[p]][c].Some?
  {
    DM.KindIndexIsBijection();
    assert KindName(AllKinds[c]) == ImplementedEmissionData[c];
    if mandatory != [] {
      CheckKindPasses(mandatory[1..], c, files, data);
      assert forall p :: p in mandatory <==> p == mandatory[0] || p in mandatory[1..];
    }
  }

  /**
   * Both revisions agree on when the mandatory files are all there: the
   * assertion scan passes exactly when `has_all_mandatory_files` is true.
   */
  lemma {:induction false} CheckFromAgreesWithCurrentRevision(cfg: ModelConfig, c: nat, files: seq<seq<Option<FileEntry>>>, data: seq<seq<Option<DataEntry>>>)
    requires Shaped(files) && Shaped(data) && c <= NCols
    ensures CheckFrom(cfg, c, files, data).Pass? <==>
      forall c', p :: c <= c' < NCols && p in MandatoryFor(cfg, AllKinds[c']) ==>
        p in DM.PopToRow && files[DM.PopToRow[p]][c'].Some? && data[DM.PopToRow[p]][c'].Some?
    decreases NCols - c
  {
    if c < NCols {
      CheckKindPasses(MandatoryFor(cfg, AllKinds[c]), c, files, data);
      CheckFromAgreesWithCurrentRevision(cfg, c + 1, files, data);
    }
  }

  /**
   * An unknown population listed first raises KeyError here, where the
   * current revision's `has_all_mandatory_files` returns false.
   */
  lemma UnknownPopulationRaisesKeyError(cfg: ModelConfig, files: seq<seq<Option<FileEntry>>>, data: seq<seq<Option<DataEntry>>>)
    requires Shaped(files) && Shaped(data)
    requires cfg.emissionYieldFiles != [] && cfg.emissionYieldFiles[0] !in ImplementedPop
    ensures CheckFrom(cfg, 0, files, data) == Fail(KeyError)
    ensures !DM.MandatoryPresent(cfg, files, data)
  {
    DM.PopToRowDomain();
    assert cfg.emissionYieldFiles[0] in MandatoryFor(cfg, AllKinds[0]);
  }

  /**
   * On a fresh matrix (every file cell None) the walk without the `isinstance`
   * check reads nothing and succeeds, whereas `load_data` as written raises
   * TypeError.
   */
  lemma {:induction false} FreshMatrixLoadsNothing(load: DM.CellLoader, data: seq<seq<Option<DataEntry>>>, i: nat, j: nat)
    requires Shaped(data) && i <= NRows && j <= NCols
    ensures DM.LoadFrom(load, DM.SkipNone, Filled(None), data, i, j) == (data, Pass)
    decreases NRows - i, NCols - j
  {
    if i < NRows {
      if j == NCols {
        FreshMatrixLoadsNothing(load, data, i + 1, 0);
      } else {
        FreshMatrixLoadsNothing(load, data, i, j + 1);
      }
    }
  }

  class DataMatrix {
    var files: seq<seq<Option<FileEntry>>>
    var data: seq<seq<Option<DataEntry>>>

    ghost predicate Valid()
      reads this
    {
      Shaped(files) && Shaped(data)
    }

    /** Both 4 x 3 grids start with every cell None. */
    constructor ()
      ensures Valid()
      ensures files == Filled(None) && data == Filled(None)
    {
      files := Filled(None);
      data := Filled(None);
    }

    /** `set_files_by_index`: `files_matrix[row][col] = files`, with Python list indexing. */
    method SetFilesByIndex(entry: FileEntry, row: int, col: int) returns (o: Outcome)
      requires Valid()
      modifies this
      ensures Valid() && data == old(data)
      ensures match DM.ResolveAddress(Some(row), Some(col), None, None)
        case Ok(ij) => o == Pass && files == Set(old(files), ij.0, ij.1, Some(entry))
        case Err(e) => o == Fail(e) && e == IndexError && files == old(files)
    {
      match PyIndex(row, NRows)
      case Err(e) =>
        o := Fail(e);
      case Ok(i) =>
        match PyIndex(col, NCols)
        case Err(e) =>
          o := Fail(e);
        case Ok(j) =>
          files := files[i := files[i][j := Some(entry)]];
          o := Pass;
    }

    /** `set_data_by_index`. */
    method SetDataByIndex(d: DataEntry, row: int, col: int) returns (o: Outcome)
      requires Valid()
      modifies this
      ensures Valid() && files == old(files)
      ensures match DM.ResolveAddress(Some(row), Some(col), None, None)
        case Ok(ij) => o == Pass && data == Set(old(data), ij.0, ij.1, Some(d))
        case Err(e) => o == Fail(e) && e == IndexError && data == old(data)
    {
      match PyIndex(row, NRows)
      case Err(e) =>
        o := Fail(e);
      case Ok(i) =>
        match PyIndex(col, NCols)
        case Err(e) =>
          o := Fail(e);
        case Ok(j) =>
          data := data[i := data[i][j := Some(d)]];
          o := Pass;
    }

    /** `set_files_by_name`: KeyError for an unknown name, else `set_files_by_index` at the mapped row and column. */
    method SetFilesByName(entry: FileEntry, population: string, kind: string) returns (o: Outcome)
      requires Valid()
      modifies this
      ensures Valid() && data == old(data)
      ensures population !in DM.PopToRow || kind !in DM.KindToCol ==> o == Fail(KeyError) && files == old(files)
      ensures population in DM.PopToRow && kind in DM.KindToCol ==>
        o == Pass && files == Set(old(files), DM.PopToRow[population], DM.KindToCol[kind], Some(entry))
    {
      match DM.NaturesToIndexes(population, kind)
      case Err(e) =>
        o := Fail(e);
      case Ok(ij) =>
        o := SetFilesByIndex(entry, ij.0, ij.1);
    }

    /** `set_data_by_name`. */
    method SetDataByName(d: DataEntry, population: string, kind: string) returns (o: Outcome)
      requires Valid()
      modifies this
      ensures Valid() && files == old(files)
      ensures population !in DM.PopToRow || kind !in DM.KindToCol ==> o == Fail(KeyError) && data == old(data)
      ensures population in DM.PopToRow && kind in DM.KindToCol ==>
        o == Pass && data == Set(old(data), DM.PopToRow[population], DM.KindToCol[kind], Some(d))
    {
      match DM.NaturesToIndexes(population, kind)
      case Err(e) =>
        o := Fail(e);
      case Ok(ij) =>
        o := SetDataByIndex(d, ij.0, ij.1);
    }

    /**
     * `load_data` as written: the first statement of the loop,
     * `isinstance(pop, ImplementedPop)`, checks against a `typing.Literal`
     * alias, which raises TypeError before any file is read.
     */
    method LoadDataAsWritten(ops: FloatOps, loader: Loader) returns (o: Outcome)
      requires Valid()
      ensures o == Fail(TypeError)
    {
      o := Fail(TypeError);
    }

    /**
     * `load_data` with the `isinstance` check dropped: walks populations then
     * kinds, skips only the `None` file cells, and loads every other one into
     * its data cell.
     */
    method LoadData(ops: FloatOps, loader: Loader) returns (o: Outcome)
      requires Valid()
      modifies this
      ensures Valid() && files == old(files)
      ensures (data, o) == DM.LoadFrom(DM.Loads(ops, loader), DM.SkipNone, files, old(data), 0, 0)
    {
      var i := 0;
      while i < NRows
        invariant 0 <= i <= NRows
        invariant Valid() && files == old(files)
        invariant DM.LoadFrom(DM.Loads(ops, loader), DM.SkipNone, files, data, i, 0) == DM.LoadFrom(DM.Loads(ops, loader), DM.SkipNone, files, old(data), 0, 0)
      {
        var j := 0;
        while j < NCols
          invariant 0 <= j <= NCols
          invariant Valid() && files == old(files)
          invariant DM.LoadFrom(DM.Loads(ops, loader), DM.SkipNone, files, data, i, j) == DM.LoadFrom(DM.Loads(ops, loader), DM.SkipNone, files, old(data), 0, 0)
        {
          var filepath := files[i][j];
          if filepath.Some? {
            var loaded := DM.LoadCell(ops, loader, AllPopulations[i], AllKinds[j], filepath.value);
            if loaded.Err? {
              return Fail(loaded.error);
            }
            data := data[i := data[i][j := Some(One(loaded.value))]];
          }
          j := j + 1;
        }
        i := i + 1;
      }
      o := Pass;
    }

    /** `assert_has_all_mandatory_files`: returns normally, or fails at the first unknown population (KeyError) or missing file or data (AssertionError). */
    method AssertHasAllMandatoryFiles(cfg: ModelConfig) returns (o: Outcome)
      requires Valid()
      ensures o == CheckFrom(cfg, 0, files, data)
    {
      var c := 0;
      while c < NCols
        invariant 0 <= c <= NCols
        invariant CheckFrom(cfg, c, files, data) == CheckFrom(cfg, 0, files, data)
      {
        var mandatory := MandatoryFor(cfg, AllKinds[c]);
        var n := 0;
        while n < |mandatory|
          invariant 0 <= n <= |mandatory|
          invariant CheckKind(mandatory[n..], c, files, data) == CheckKind(mandatory, c, files, data)
        {
          var rc := DM.NaturesToIndexes(mandatory[n], KindName(AllKinds[c]));
          if rc.Err? {
            return Fail(rc.error);
          }
          var row, col := rc.value.0, rc.value.1;
          if files[row][col].None? {
            return Fail(AssertionError);
          }
          if data[row][col].None? {
            return Fail(AssertionError);
          }
          assert mandatory[n..][1..] == mandatory[n + 1..];
          n := n + 1;
        }
        c := c + 1;
      }
      o := Pass;
    }
  }
}
