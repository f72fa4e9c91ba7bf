/** `FilesMatrix`: the earliest store of the user's file selections, a 4 x 3 grid of file entries. */
module FilesMatrix {
  import opened Wrappers
  import opened Grid
  import opened Emission
  import DM = DataMatrix

  /** Distinct known (population, kind) pairs address distinct cells. */
  lemma NamesAddressDistinctCells(p1: string, k1: string, p2: string, k2: string)
    requires p1 in DM.PopToRow && k1 in DM.KindToCol && p2 in DM.PopToRow && k2 in DM.KindToCol
    requires (p1, k1) != (p2, k2)
    ensures (DM.PopToRow[p1], DM.KindToCol[k1]) != (DM.PopToRow[p2], DM.KindToCol[k2])
  {
    DM.PopulationIndexIsBijection();
    DM.KindIndexIsBijection();
    if p1 != p2 {
      assert DM.RowToPop[DM.PopToRow[p1]] != DM.RowToPop[DM.PopToRow[p2]];
    } else {
      assert DM.ColToKind[DM.KindToCol[k1]] != DM.ColToKind[DM.KindToCol[k2]];
    }
  }

  class FilesMatrix {
    var matrix: seq<seq<Option<FileEntry>>>

    ghost predicate Valid()
      reads this
    {
      Shaped(matrix)
    }

    /** A fresh 4 x 3 grid of None. */
    constructor ()
      ensures Valid() && matrix == Filled(None)
    {
      matrix := Filled(None);
    }

    /** `set_files_by_index`: `matrix[row][col] = files`, with Python list indexing. */
    method SetFilesByIndex(entry: FileEntry, row: int, col: int) returns (o: Outcome)
      requires Valid()
      modifies this
      ensures Valid()
      ensures PyIndex(row, NRows).Ok? && PyIndex(col, NCols).Ok? ==>
        o == Pass && matrix == Set(old(matrix), PyIndex(row, NRows).value, PyIndex(col, NCols).value, Some(entry))
      ensures PyIndex(row, NRows).Err? || PyIndex(col, NCols).Err? ==> o == Fail(IndexError) && matrix == old(matrix)
    {
      match PyIndex(row, NRows)
      case Err(e) =>
        o := Fail(e);
      case Ok(i) =>
        match PyIndex(col, NCols)
        case Err(e) =>
          o := Fail(e);
        case Ok(j) =>
          matrix := matrix[i := matrix[i][j := Some(entry)]];
          o := Pass;
    }

    /**
     * `set_files_by_name`: SE, EBE, IBE, all to rows 0..3 and yield, energy,
     * angle to columns 0..2 (KeyError otherwise), then `set_files_by_index`.
     * Every other pair's entry is left as it was.
     */
    method SetFilesByName(entry: FileEntry, population: string, kind: string) returns (o: Outcome)
      requires Valid()
      modifies this
      ensures Valid()
      ensures population !in DM.PopToRow || kind !in DM.KindToCol ==> o == Fail(KeyError) && matrix == old(matrix)
      ensures population in DM.PopToRow && kind in DM.KindToCol ==>
        && o == Pass
        && matrix[DM.PopToRow[population]][DM.KindToCol[kind]] == Some(entry)
        && forall p, k :: p in DM.PopToRow && k in DM.KindToCol && (p, k) != (population, kind) ==>
             matrix[DM.PopToRow[p]][DM.KindToCol[k]] == old(matrix[DM.PopToRow[p]][DM.KindToCol[k]])
    {
      if population !in DM.PopToRow {
        return Fail(KeyError);
      }
      var row := DM.PopToRow[population];
      if kind !in DM.KindToCol {
        return Fail(KeyError);
      }
      var col := DM.KindToCol[kind];
      o := SetFilesByIndex(entry, row, col);
      forall p, k | p in DM.PopToRow && k in DM.KindToCol && (p, k) != (population, kind)
        ensures matrix[DM.PopToRow[p]][DM.KindToCol[k]] == old(matrix[DM.PopToRow[p]][DM.KindToCol[k]])
      {
        NamesAddressDistinctCells(p, k, population, kind);
      }
    }
  }
}
