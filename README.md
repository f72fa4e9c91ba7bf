# EEmiLib core, modelled in Dafny

EEmiLib (Electron EMIssion Library) fits electron-emission models to measured
data. The user registers measurement files in a 4 x 3 *data matrix*: one row
per electron population and one column per kind of data. The populations are
secondary (SE), elastically backscattered (EBE), inelastically backscattered
(IBE) and all electrons. The kinds are emission yield, energy distribution and
angle distribution. A loader turns the files into tables. A *model* (Vaughan,
Dionne, Chung and Everhart) holds named *parameters* that can be locked and
bounded. It checks that the files it needs are present, fits its parameters to
the measurement, and evaluates the yield or the energy distribution on a grid
of energies and incidence angles.

This project models that core, and the parts of the earlier revision (the
`eemilib/` tree) that differ from it:

- `constants.dfy`: populations, kinds, column names and label tables.
- `parameter.dfy`: the `Parameter` class, locked bounds, and updates of a
  model's parameter set.
- `grid.dfy`, `model_config.dfy`, `emission_data.dfy`, `tables.dfy`,
  `floats.dfy`, `wrappers.dfy`: shared data.
  - A table is an ordered list of named float columns, built like a
    `pd.DataFrame` from a dict.
  - A float result is a finite real or `NonFinite`, which stands for numpy's
    inf and NaN.
  - `exp`, fractional powers and float printing and parsing are fields of a
    `FloatOps` record passed in.
- `data_matrix.dfy`, `legacy_data_matrix.dfy`, `files_matrix.dfy`: the current
  and earlier data matrices and the earlier files-only matrix. They are
  classes whose grids are `seq<seq<...>>` fields, written in place.
- `energy_distribution.dfy`: reading incidence angles from column headers.
- `emission_helper.dfy`: trimming a yield table to an energy window.
- `model.dfy`, `legacy_model.dfy`: the base model's null tables and plot fold.
- `vaughan.dfy`, `legacy_vaughan.dfy`, `dionne.dfy`, `chung_everhart.dfy`: the
  three models and the earlier Vaughan model.
- `gui_helper.dfy`: the parameter-table column map and the lock check box
  handler.

Loaders, plotters and the least-squares solver are parameters: records of
functions, or a function value.

## Model

| member | source | states |
|---|---|---|
| Constants.ParsePopulation | src/eemilib/util/constants.py:16-17 | A string names a population exactly when it is in `IMPLEMENTED_POP`, and the population parsed has that name |
| Constants.ParseKind | src/eemilib/util/constants.py:7-14 | A string names a data kind exactly when it is in `IMPLEMENTED_EMISSION_DATA`, and the kind parsed has that name |
| Constants.ImplementedPopEnumeratesPopulations | src/eemilib/util/constants.py:16-17 | `IMPLEMENTED_POP` lists the four populations once each, in the order SE, EBE, IBE, all |
| Constants.ImplementedEmissionDataEnumeratesKinds | src/eemilib/util/constants.py:10-14 | `IMPLEMENTED_EMISSION_DATA` lists the three kinds once each, in the order yield, energy, angle |
| Constants.NamesRoundTrip | src/eemilib/util/constants.py:7-17 | Parsing the name of a population or kind gives it back: no two share a literal |
| Constants.ColumnLiterals | src/eemilib/util/constants.py:19-20 | The energy and normal-incidence column names are the literals "Energy [eV]" and "0.0 [deg]", and they differ |
| Constants.LabelTablesAreTotal | src/eemilib/util/constants.py:22-38 | Every population has a yield label and an energy-distribution label, every kind has a y label, and no other keys exist |
| Parameter.EffectiveLowerBound | src/eemilib/model/parameter.py:74-79 | The `lower_bound` getter: value minus 1e-10 while locked, the stored bound otherwise |
| Parameter.EffectiveUpperBound | src/eemilib/model/parameter.py:87-92 | The `upper_bound` getter: value plus 1e-10 while locked, the stored bound otherwise |
| Parameter.Name | src/eemilib/model/parameter.py:59-62 | `name` is the markdown name, " [", the unit, then "]", character by character |
| Parameter.LockedBoundsCollapse | src/eemilib/model/parameter.py:74-92 | While locked, the reported bounds are finite, 2e-10 apart, strictly around the value, and ignore the stored bounds |
| Parameter.BoundsSetWhileLockedSurviveUnlock | src/eemilib/model/parameter.py:81-98 | Bounds written while locked are the ones reported after `unlock` |
| Parameter.Parameter.constructor | src/eemilib/model/parameter.py:11-49 | Every attribute takes its argument or its default: unit "1", value 0, bounds -inf and inf, unlocked |
| Parameter.Parameter.LowerBound | src/eemilib/model/parameter.py:74-79 | The getter on the object agrees with `EffectiveLowerBound` of its state |
| Parameter.Parameter.UpperBound | src/eemilib/model/parameter.py:87-92 | The getter on the object agrees with `EffectiveUpperBound` of its state |
| Parameter.Parameter.SetValue | src/eemilib/model/parameter.py:69-72 | The value setter changes the value only, and does not clamp it to the bounds |
| Parameter.Parameter.SetLowerBound | src/eemilib/model/parameter.py:81-85 | The setter writes the stored lower bound, locked or not, and nothing else |
| Parameter.Parameter.SetUpperBound | src/eemilib/model/parameter.py:94-98 | The setter writes the stored upper bound, locked or not, and nothing else |
| Parameter.Parameter.Lock | src/eemilib/model/parameter.py:100-102 | `lock` sets `is_locked` and changes nothing else |
| Parameter.Parameter.Unlock | src/eemilib/model/parameter.py:104-106 | `unlock` clears `is_locked` and changes nothing else |
| Parameter.StatesOf | src/eemilib/model/dionne.py:130-133 | The attribute snapshot of a model's parameter dict has the same names as the dict |
| Parameter.Override | src/eemilib/model/dionne.py:135-136 | After an update, a known name has its new value with every other attribute kept, an unknown name is ignored, and no name is added |
| Parameter.SetParametersValues | src/eemilib/model/dionne.py:207-208 | Updating the parameters of a model, which are distinct objects, leaves their states equal to `Override` of the old states |
| Config.MandatoryFor | eemilib/model/model_config.py:9-15 | The mandatory populations of each kind are the config field for that kind |
| Grid.Filled | src/eemilib/emission_data/data_matrix.py:53-62 | The nested list comprehension gives a 4 x 3 grid with the value in every cell |
| Grid.Set | src/eemilib/emission_data/data_matrix.py:127 | `g[r][c] = v` changes that one cell and no other |
| Grid.PyIndex | src/eemilib/emission_data/data_matrix.py:127 | Python list indexing: an index in `-n .. n-1` is accepted, and a negative one counts from the end; anything else is IndexError |
| DataMatrix.PopToRowDomain | src/eemilib/emission_data/data_matrix.py:31 | The populations that have a row are exactly the implemented ones |
| DataMatrix.PopulationIndexIsBijection | src/eemilib/emission_data/data_matrix.py:31-32 | `pop_to_row` enumerates `IMPLEMENTED_POP` onto rows 0..3, and `row_to_pop` is its inverse in both directions |
| DataMatrix.KindIndexIsBijection | src/eemilib/emission_data/data_matrix.py:34-39 | `emission_data_type_to_col` enumerates the kinds onto columns 0..2, and `col_to_emission_data_type` is its inverse in both directions |
| DataMatrix.NaturesToIndexes | src/eemilib/emission_data/data_matrix.py:64-73 | Succeeds exactly for a known population and a known kind, with their row and column; otherwise KeyError |
| DataMatrix.IndexesToNatures | src/eemilib/emission_data/data_matrix.py:75-84 | Succeeds exactly for row 0..3 and column 0..2, a negative index included as a failure; the names are implemented and map back to the same indexes; otherwise KeyError |
| DataMatrix.NaturesRoundTrip | src/eemilib/emission_data/data_matrix.py:64-84 | Names to indexes to names gives the names back |
| DataMatrix.ResolveAddress | src/eemilib/emission_data/data_matrix.py:114-125 | A resolved address always lies inside the 4 x 3 grid |
| DataMatrix.NamesWin | src/eemilib/emission_data/data_matrix.py:114-118 | With a truthy population and kind, row and col are ignored; unknown names raise KeyError |
| DataMatrix.IncompleteAddressIsValueError | src/eemilib/emission_data/data_matrix.py:120-125 | With neither a full pair of names nor a full pair of indexes, ValueError |
| DataMatrix.IndicesAddressTheirCell | src/eemilib/emission_data/data_matrix.py:127 | Without names, indexes are accepted exactly in -4..3 and -3..2, with Python's negative indexing |
| DataMatrix.Get | src/eemilib/emission_data/data_matrix.py:223-236 | A read fails exactly when the address fails, with the same error; otherwise it returns the addressed cell |
| DataMatrix.WriteThenRead | src/eemilib/emission_data/data_matrix.py:127-303 | After a cell is written, a read through any address gives the new value at that cell and the old value elsewhere |
| DataMatrix.LoadCell | src/eemilib/emission_data/data_matrix.py:321-335 | A cell loads through the reader of its column's kind; the splat error is passed on; the data carries the row's population and the column's kind |
| DataMatrix.Loads | src/eemilib/emission_data/data_matrix.py:312-335 | The walk's loader is `LoadCell` at every cell |
| DataMatrix.LoadFrom | src/eemilib/emission_data/data_matrix.py:312-342 | The row-major walk from (i, j) keeps the grid 4 x 3 |
| DataMatrix.LoadFromKeeps | src/eemilib/emission_data/data_matrix.py:318-319 | A walk leaves every earlier cell and every skipped cell unchanged, whatever its outcome |
| DataMatrix.LoadFromPasses | src/eemilib/emission_data/data_matrix.py:312-342 | The walk succeeds when every later visited cell loads |
| DataMatrix.LoadFromLoads | src/eemilib/emission_data/data_matrix.py:336-342 | After a successful walk, each later visited data cell holds what was loaded from its file cell |
| DataMatrix.LoadDataOutcome | src/eemilib/emission_data/data_matrix.py:305-342 | `load_data` succeeds exactly when every visited file cell loads |
| DataMatrix.LoadDataCell | src/eemilib/emission_data/data_matrix.py:318-342 | For one cell: a skipped cell keeps its data, and after success a visited cell holds its loaded data |
| DataMatrix.PlotItems | src/eemilib/emission_data/data_matrix.py:419-421 | Plotting a collection threads the axes and returns some axes unless the collection is empty |
| DataMatrix.PlotCell | src/eemilib/emission_data/data_matrix.py:409-421 | A bad address raises, and an empty cell returns None |
| DataMatrix.PlotEachSnoc | src/eemilib/emission_data/data_matrix.py:400-407 | Plotting over populations is a left fold: the last population is drawn on what the earlier ones returned |
| DataMatrix.EmptyLastCellReturnsNone | src/eemilib/emission_data/data_matrix.py:400-414 | If the last population's cell is empty, the fold returns None whatever was drawn before |
| DataMatrix.DataMatrix.constructor | src/eemilib/emission_data/data_matrix.py:48-62 | Both grids start with twelve `None` cells |
| DataMatrix.DataMatrix.SetFiles | src/eemilib/emission_data/data_matrix.py:105-127 | Either raises the addressing error and writes nothing, or writes exactly the addressed file cell; data is untouched |
| DataMatrix.DataMatrix.SetData | src/eemilib/emission_data/data_matrix.py:173-195 | Either raises the addressing error and writes nothing, or writes exactly the addressed data cell; files are untouched |
| DataMatrix.DataMatrix.GetFiles | src/eemilib/emission_data/data_matrix.py:215-236 | Reads the file grid through `Get` |
| DataMatrix.DataMatrix.GetData | src/eemilib/emission_data/data_matrix.py:282-303 | Reads the data grid through `Get` |
| DataMatrix.DataMatrix.LoadData | src/eemilib/emission_data/data_matrix.py:305-342 | The nested loops skip falsy file cells and leave data and outcome equal to the row-major walk `LoadFrom` from (0, 0); files are untouched |
| DataMatrix.DataMatrix.HasAllMandatoryFiles | src/eemilib/emission_data/data_matrix.py:344-387 | The early-return scan answers true exactly when every mandatory population is implemented and has both a file and data |
| LegacyDataMatrix.IndexesToNaturesAsWritten | eemilib/emission_data/data_matrix.py:64-72 | Always raises: KeyError for a row outside 0..3, TypeError from `isinstance` on a `Literal` wherever the current revision's `_indexes_to_natures` succeeds |
| LegacyDataMatrix.CheckKind | eemilib/emission_data/data_matrix.py:160-173 | The scan of one kind fails only with KeyError or AssertionError |
| LegacyDataMatrix.CheckKindPasses | eemilib/emission_data/data_matrix.py:160-173 | The scan of one kind passes exactly when each listed population is known and has a file and data |
| LegacyDataMatrix.CheckFromAgreesWithCurrentRevision | eemilib/emission_data/data_matrix.py:144-173 | The assertion check passes exactly when the current revision's `has_all_mandatory_files` answers true |
| LegacyDataMatrix.UnknownPopulationRaisesKeyError | eemilib/emission_data/data_matrix.py:161-163 | An unknown first mandatory population raises KeyError, where the current revision answers false |
| LegacyDataMatrix.FreshMatrixLoadsNothing | eemilib/emission_data/data_matrix.py:119-124 | With every file cell `None`, the walk changes nothing and succeeds |
| LegacyDataMatrix.DataMatrix.constructor | eemilib/emission_data/data_matrix.py:42-52 | Both grids start with every cell `None` |
| LegacyDataMatrix.DataMatrix.SetFilesByIndex | eemilib/emission_data/data_matrix.py:74-81 | Writes exactly the indexed file cell, with Python indexing, or raises IndexError and writes nothing |
| LegacyDataMatrix.DataMatrix.SetDataByIndex | eemilib/emission_data/data_matrix.py:83-90 | Writes exactly the indexed data cell, or raises IndexError and writes nothing |
| LegacyDataMatrix.DataMatrix.SetFilesByName | eemilib/emission_data/data_matrix.py:92-100 | KeyError for an unknown name with nothing written; otherwise the file cell of the mapped row and column |
| LegacyDataMatrix.DataMatrix.SetDataByName | eemilib/emission_data/data_matrix.py:102-110 | KeyError for an unknown name with nothing written; otherwise the data cell of the mapped row and column |
| LegacyDataMatrix.DataMatrix.LoadDataAsWritten | eemilib/emission_data/data_matrix.py:119-120 | `load_data` as written always raises TypeError before reading a file |
| LegacyDataMatrix.DataMatrix.LoadData | eemilib/emission_data/data_matrix.py:112-142 | Without the `isinstance` check: skips only `None` file cells, and data and outcome equal the walk `LoadFrom` |
| LegacyDataMatrix.DataMatrix.AssertHasAllMandatoryFiles | eemilib/emission_data/data_matrix.py:144-173 | The loop's outcome is the kind-by-kind scan `CheckFrom` |
| FilesMatrix.NamesAddressDistinctCells | eemilib/ui/files_matrix.py:7-38 | Distinct known (population, kind) pairs address distinct cells |
| FilesMatrix.FilesMatrix.constructor | eemilib/ui/files_matrix.py:18-21 | A fresh 4 x 3 grid of `None` |
| FilesMatrix.FilesMatrix.SetFilesByIndex | eemilib/ui/files_matrix.py:23-27 | Writes exactly the indexed cell, or raises IndexError and writes nothing |
| FilesMatrix.FilesMatrix.SetFilesByName | eemilib/ui/files_matrix.py:29-38 | KeyError for an unknown name with nothing written; otherwise exactly the mapped cell |
| Emission.Splat | src/eemilib/emission_data/data_matrix.py:323-335 | `*filepath`: a collection passes its paths, a `Path` raises TypeError, a `str` becomes one path per character |
| Emission.BareStringIsSplitIntoCharacters | src/eemilib/emission_data/data_matrix.py:323-335 | A path string longer than one character never reaches the loader as one path |
| Emission.PathsOf | src/eemilib/emission_data/data_matrix.py:107 | The paths a file cell stands for: a `str` or `Path` is one path, a collection its members |
| Emission.SplatAgreesWithPathsOf | src/eemilib/emission_data/data_matrix.py:323-335 | The splat gives the intended paths exactly for collections and one-character strings |
| Emission.PlotData | src/eemilib/emission_data/emission_energy_distribution.py:73-93 | An emission data object is drawn by the plotter call of its own kind, on its table |
| EnergyDistribution.TakeWord | src/eemilib/emission_data/emission_energy_distribution.py:43 | The leading word holds no separator and is a prefix of the header |
| EnergyDistribution.LeadingSpaces | src/eemilib/emission_data/emission_energy_distribution.py:43 | Counts the separators before the first word |
| EnergyDistribution.FirstWord | src/eemilib/emission_data/emission_energy_distribution.py:43 | `col.split()[0]`: the first word, or IndexError for a blank header; every character for which `str.isspace` holds separates words |
| EnergyDistribution.FirstWordStopsAtUnicodeSpace | src/eemilib/emission_data/emission_energy_distribution.py:43 | An em space ends the word ("45.0\u2003[deg]" reads "45.0"), and a header of Unicode spaces has no word |
| EnergyDistribution.AngleColumns | src/eemilib/emission_data/emission_energy_distribution.py:42-44 | Keeps, in order, exactly the columns not named "Energy [eV]" |
| EnergyDistribution.ReadAngle | src/eemilib/emission_data/emission_energy_distribution.py:43 | `float(col.split()[0])`, splitting at every `str.isspace` character: IndexError with no word, ValueError when the word does not parse, else the parsed word |
| EnergyDistribution.AnglesFailOnUnreadableHeader | src/eemilib/emission_data/emission_energy_distribution.py:42-44 | Reading the angles fails exactly when some non-energy header is unreadable |
| EnergyDistribution.AnglesCount | src/eemilib/emission_data/emission_energy_distribution.py:42-44 | One angle per column, less the columns named "Energy [eV]" |
| EnergyDistribution.AnglesInColumnOrder | src/eemilib/emission_data/emission_energy_distribution.py:42-44 | The i-th angle is read from the i-th non-energy header |
| EnergyDistribution.New | src/eemilib/emission_data/emission_energy_distribution.py:22-44 | Needs an energy column; keeps population, table, energies and angles, or the first header error |
| EnergyDistribution.AngleCountWithOneEnergyColumn | src/eemilib/emission_data/emission_energy_distribution.py:42-44 | With one energy column, the angles number the other columns |
| EnergyDistribution.FromFilepath | src/eemilib/emission_data/emission_energy_distribution.py:46-66 | Every path goes to the energy-distribution reader, and the table is wrapped with the population |
| EnergyDistribution.Label | src/eemilib/emission_data/emission_energy_distribution.py:68-71 | The label is one of the `md_energy_distrib` labels |
| EnergyDistribution.LabelsDistinguishPopulations | src/eemilib/emission_data/emission_energy_distribution.py:68-71 | Data of different populations get different labels |
| EmissionHelper.Select | eemilib/emission_data/helper.py:38-42 | A boolean mask keeps, in order, exactly the rows whose energy lies in the window |
| EmissionHelper.Trim | eemilib/emission_data/helper.py:9-46 | Both masks keep only rows inside the window given by the non-negative bounds |
| EmissionHelper.SelectIsSubsequence | eemilib/emission_data/helper.py:46 | The kept rows are a subsequence of the input rows |
| EmissionHelper.SelectOpenWindow | eemilib/emission_data/helper.py:37-44 | A window without bounds keeps every row |
| EmissionHelper.SelectTwice | eemilib/emission_data/helper.py:37-44 | The lower mask then the upper mask equals one mask on the combined window |
| EmissionHelper.TrimIsSelect | eemilib/emission_data/helper.py:37-46 | `trim` is one mask on the window its non-negative bounds define |
| EmissionHelper.SelectSameWindow | eemilib/emission_data/helper.py:37-44 | Two windows that accept the same energies select the same rows |
| EmissionHelper.TrimIsSubsequence | eemilib/emission_data/helper.py:46 | The trimmed rows are a subsequence of the input rows |
| EmissionHelper.TrimWithoutBoundsIsIdentity | eemilib/emission_data/helper.py:37-41 | Negative bounds leave the table unchanged |
| EmissionHelper.SelectAppend | eemilib/emission_data/helper.py:38-42 | Masking distributes over concatenation |
| EmissionHelper.SelectSlice | eemilib/emission_data/helper.py:38-42 | On rows sorted by energy, the mask keeps exactly the contiguous block inside the window |
| EmissionHelper.TrimTestLow | tests/test_emission_data_helpers.py:18-40 | The test table trimmed below keeps the rows from the lower bound on |
| EmissionHelper.TrimTestUpper | tests/test_emission_data_helpers.py:18-40 | The test table trimmed above keeps the rows up to the upper bound |
| EmissionHelper.TrimTestBoth | tests/test_emission_data_helpers.py:18-40 | The test table trimmed on both sides keeps the rows between the bounds |
| EmissionHelper.Resample | eemilib/emission_data/helper.py:49-52 | A negative `n_interp` returns the table unchanged |
| Tables.Find | src/eemilib/model/dionne.py:202-203 | `df[col]` finds a column exactly when the header is present |
| Tables.Lookup | src/eemilib/model/dionne.py:202-203 | A missing column is a KeyError, and a present one gives its values |
| Tables.DictSetSpec | src/eemilib/model/model.py:112-113 | Setting a dict key replaces the value in place for an existing key, or appends the key |
| Tables.DictBuildSpec | src/eemilib/model/model.py:112-114 | A dict built from items keeps distinct keys in first-insertion order, each with its last value |
| Tables.FromDictSpec | src/eemilib/model/model.py:112-114 | `pd.DataFrame(out_dict)` has distinct headers, the item keys, each column its last value |
| Model.Zeros | src/eemilib/model/model.py:111 | `np.zeros(n)`: n zero floats |
| Model.AsFloats | src/eemilib/model/model.py:113 | The energies, finite, in order |
| Model.GridColumns | src/eemilib/model/vaughan.py:85-88 | Column j of `out` holds `func(energy[i], theta[j])` at row i |
| Model.FillGrid | src/eemilib/model/vaughan.py:85-88 | The nested loops fill `out` with the columns `GridColumns` defines |
| Model.EnergyColumn | src/eemilib/model/dionne.py:163-166 | `out[i]` is `func(energy[i])` |
| Model.FillColumn | src/eemilib/model/chung_and_everhart.py:72-74 | The loop fills `out` with the values `EnergyColumn` defines |
| Model.NormalTable | src/eemilib/model/dionne.py:168-169 | `{col_normal: out, col_energy: energy}` is a two-column table with one row per energy |
| Model.EyEntries | src/eemilib/model/vaughan.py:90-92 | The dict items: one column per angle header, in order, then the energies |
| Model.EyTable | src/eemilib/model/vaughan.py:90-92 | The yield table has distinct headers: the angle headers and "Energy [eV]"; each angle column is the last one given under its header |
| Model.NullTable | src/eemilib/model/model.py:107-114 | The null table: a zero column per header, and the energies |
| Model.DegHeaderIsNotEnergy | src/eemilib/model/model.py:112 | No angle header equals "Energy [eV]" |
| Model.AngleHeaders | src/eemilib/model/vaughan.py:90 | One header `f"{theta[j]} [deg]"` per angle |
| Model.EyTableWidth | src/eemilib/model/vaughan.py:90-92 | Angles with distinct labels give one column per angle plus the energy column |
| Model.DegHeaderInjective | src/eemilib/model/vaughan.py:90 | Distinct labels give distinct headers |
| Model.NatString | src/eemilib/model/model.py:112 | `str` of a natural number is a non-empty string of digits |
| Model.IndexHeaders | src/eemilib/model/model.py:112 | Headers "0 [deg]", "1 [deg]", ... for the positions |
| Model.DefaultEyAsWritten | src/eemilib/model/model.py:107-114 | As written, a result exists exactly for no float angles or in-range integer angles, and is labelled by position; otherwise IndexError |
| Model.FloatAnglesBreakDefaultEy | src/eemilib/model/model.py:112 | Any non-empty array of float angles raises IndexError |
| Model.IntAnglesAreRelabelled | src/eemilib/model/model.py:112 | The angle -1 is relabelled "0 [deg]", and angles 0, 45, 60 raise IndexError |
| Model.DefaultEy | src/eemilib/model/model.py:107-114 | As intended: one zero column per angle header, the energies, one row per energy |
| Model.BaseYieldsAreNull | src/eemilib/model/model.py:47-57 | With `_default_ey` as intended (first Findings row, corrected), the base TEEY and SEEY are both the null table; `_default_ey` as written fails on any float angles |
| Model.PlotOne | src/eemilib/model/model.py:94-104 | NotImplementedError unless the population is "all" and the kind the yield; else the TEEY drawn on the axes |
| Model.PlotEachSnoc | src/eemilib/model/model.py:79-93 | Plotting over populations is a left fold threading the axes |
| Model.PlotEachSucceeds | src/eemilib/model/model.py:79-97 | The fold succeeds exactly when every population is "all" and the kind the yield |
| LegacyModel.SameNullModelAsCurrentRevision | eemilib/model/model.py:43-69 | With `_default_ey` as intended in both revisions, the earlier TEEY and SEEY equal the current null tables; its `_default_ey` as written also fails on float angles |
| Vaughan.VaughanFunc | src/eemilib/model/vaughan.py:109-139 | Below `E_0` the TEEY is `teey_low`; `Branches` states the other cases |
| Vaughan.Branches | src/eemilib/model/vaughan.py:130-139 | Exponent 0.56 for xi up to 1, 0.25 up to 3.6, then the power-law tail |
| Vaughan.BelowThresholdIgnoresAngle | src/eemilib/model/vaughan.py:127-128 | Below the threshold, the angle and the other parameters do not matter |
| Vaughan.NormalIncidence | src/eemilib/model/vaughan.py:121-126 | At normal incidence, E_max and the maximum TEEY are not modulated |
| Vaughan.PeakAtEMax | src/eemilib/model/vaughan.py:121-139 | At normal incidence and E = E_max > E_0, the TEEY is `teey_max` |
| Vaughan.DegenerateEMax | src/eemilib/model/vaughan.py:130 | With E_max equal to E_0: above the threshold 0, at it NaN |
| Vaughan.TeeyColumns | src/eemilib/model/vaughan.py:85-88 | Column j holds the TEEY at every energy for angle `theta[j]` |
| Vaughan.TeeyTableSpec | src/eemilib/model/vaughan.py:85-92 | The TEEY table has one row per energy, the energies, and under each angle header the TEEY at that angle |
| Vaughan.TeeyOutputShape | tests/model/test_vaughan.py:59-65 | Five energies and three distinct angles give a 5 x 4 table |
| Vaughan.FitOutcome | src/eemilib/model/vaughan.py:98-103 | The fit passes exactly when the check passes and cell [3][0] is an emission yield of "all" |
| Vaughan.MandatoryCheckCoversCellThreeZero | src/eemilib/model/vaughan.py:98-101 | The mandatory check asks only for cell [3][0] |
| Vaughan.DefaultParameters | src/eemilib/model/vaughan.py:43-76 | The seven names; only `teey_low` starts locked; the lower bounds of 0 and the upper bounds of 2 on the roughness factors |
| Vaughan.Vaughan.Parameters | src/eemilib/model/vaughan.py:43-76 | The seven parameters under their keyword names |
| Vaughan.Vaughan.constructor | src/eemilib/model/vaughan.py:35-76 | A new model holds the default parameter states |
| Vaughan.Vaughan.Teey | src/eemilib/model/vaughan.py:78-92 | The nested loops and the dict give the table `TeeyTable` of the current values |
| Vaughan.Vaughan.FindOptimalParameters | src/eemilib/model/vaughan.py:94-106 | The outcome is `FitOutcome`; on success only E_max and `teey_max` change, to the measured maximum's position and height |
| LegacyVaughan.DefaultParameters | eemilib/model/vaughan.py:24-57 | The earlier defaults: only `teey_low` locked; they equal the current ones except for the markdown of E_0p |
| LegacyVaughan.Teey | eemilib/model/vaughan.py:59-61 | With the base `_default_ey` as intended (first Findings row, corrected), the earlier TEEY is the null table: energies, and zero columns |
| LegacyVaughan.FindOptimalParameters | eemilib/model/vaughan.py:63-65 | The earlier fit raises TypeError and changes nothing |
| Dionne.RangeFunc | src/eemilib/model/dionne.py:305-323 | NotImplementedError for another loss model; RuntimeError for a falsy A or n; otherwise `E^n / (A n)`, non-finite where numpy divides by zero |
| Dionne.Generation | src/eemilib/model/dionne.py:356-371 | Zero where the range is within 1e-12 of zero; elsewhere `E / (R xi)`, finite iff `xi != 0` |
| Dionne.Transport | src/eemilib/model/dionne.py:400-405 | `d (1 - exp(-R/d))`: finite exactly when its parts are; zero for a zero range |
| Dionne.DionneFunc | src/eemilib/model/dionne.py:241-255 | Raises exactly what the range raises; a finite yield is generation times transport times S |
| Dionne.ZeroRangeGivesZeroYield | src/eemilib/model/dionne.py:241-255 | A zero range gives a zero yield |
| Dionne.ParameterArgumentsNeverRaise | src/eemilib/model/dionne.py:309-312 | `Parameter` arguments are truthy even at zero, so the model never raises; a plain zero or `None` does |
| Dionne.YieldAt | src/eemilib/model/dionne.py:166 | The yield the model evaluates never raises |
| Dionne.SeeyTableSpec | src/eemilib/model/dionne.py:163-169 | One row per energy: the yield under "0.0 [deg]" and the energies |
| Dionne.KeyNamesAreDistinct | src/eemilib/model/dionne.py:182-188 | The five keys are distinct and `keys` lists them in order |
| Dionne.ByKey | src/eemilib/model/dionne.py:135-136 | Names the model does not know are dropped |
| Dionne.X0 | src/eemilib/model/dionne.py:190 | `x0` holds the parameter values in key order |
| Dionne.Lowers | src/eemilib/model/dionne.py:191-194 | The solver's lower bounds are the lock-aware getters, in key order |
| Dionne.Uppers | src/eemilib/model/dionne.py:191-194 | The solver's upper bounds are the lock-aware getters, in key order |
| Dionne.FitSolution | src/eemilib/model/dionne.py:175-205 | ValueError without the files, AssertionError for a non-SE yield, KeyError for a missing column, ValueError when a lower bound is not strictly below its upper bound or x0 lies outside the bounds (the input checks of `least_squares`), ValueError for a solution of the wrong length; otherwise the solver's answer on x0, bounds and the measured columns |
| Dionne.Zip | src/eemilib/model/dionne.py:207 | The solution keyed by `keys`, in order |
| Dionne.WriteBackRoundTrip | src/eemilib/model/dionne.py:189-208 | Writing a solution back makes it the next `x0`, and only values change |
| Dionne.DefaultFitInputs | src/eemilib/model/dionne.py:64-108 | The default starting point and bounds, with the locked excitation energy confined to 4.6 ± 1e-10 |
| Dionne.DefaultsAreFeasible | src/eemilib/model/dionne.py:190-205 | The default parameters pass the solver's input checks |
| Dionne.ByKeyEscapeProbability | src/eemilib/model/dionne.py:110-136 | The given `{"escape_probability": 2.0}` overrides exactly the escape probability |
| Dionne.EscapeProbabilityTwoIsInfeasible | src/eemilib/model/dionne.py:190-205 | An escape probability of 2.0 lies outside its bounds [0, 1], so `least_squares` rejects x0 |
| Dionne.OutOfBoundsValueRaises | src/eemilib/model/dionne.py:190-205 | After `Dionne(parameters_values={"escape_probability": 2.0})`, which the unclamped setter accepts, the fit raises ValueError |
| Dionne.FitWritesSolution | src/eemilib/model/dionne.py:207-208 | After a successful fit, `x0` is the solver's answer and only values changed |
| Dionne.Dionne.Parameters | src/eemilib/model/dionne.py:130-133 | The parameter dict holds all five keys, with the five parameter objects |
| Dionne.Dionne.ParametersDistinct | src/eemilib/model/dionne.py:130-133 | The five parameters are distinct objects |
| Dionne.Dionne.StatesOfParameters | src/eemilib/model/dionne.py:130-133 | The model's state is the state of each parameter in its dict |
| Dionne.Dionne.constructor | src/eemilib/model/dionne.py:110-138 | The defaults, then the given values under the names the model knows |
| Dionne.Dionne.GetData | src/eemilib/model/dionne.py:140-169 | For the SE yield, the table `SeeyTable`; any other request goes to the base class |
| Dionne.Dionne.FindOptimalParameters | src/eemilib/model/dionne.py:171-208 | Raises `FitSolution`'s error and changes nothing, or writes the solution back under the keys |
| Dionne.Dionne.SetValues | src/eemilib/model/dionne.py:207-208 | The states become `Override` of the old states with the values |
| ChungEverhart.Pow4 | src/eemilib/model/chung_and_everhart.py:93-99 | `x ** 4` is positive for a non-zero x |
| ChungEverhart.Distribution | src/eemilib/model/chung_and_everhart.py:93-99 | `E / (E + W_f)^4`: finite exactly off `E = -W_f`, and then times `(E + W_f)^4` it gives E |
| ChungEverhart.DistributionSign | src/eemilib/model/chung_and_everhart.py:93-99 | For `W_f > 0`, zero at zero energy and positive above |
| ChungEverhart.DistributionTableSpec | src/eemilib/model/chung_and_everhart.py:68-77 | One row per energy: the distribution at each energy, and the energies |
| ChungEverhart.MandatoryCellIsAllEnergy | src/eemilib/model/chung_and_everhart.py:30-34 | The only mandatory cell is the energy distribution of all electrons |
| ChungEverhart.ChungEverhart.Parameters | src/eemilib/model/chung_and_everhart.py:58-61 | The only parameter is `W_f` |
| ChungEverhart.ChungEverhart.constructor | src/eemilib/model/chung_and_everhart.py:45-66 | The default work function, then the given values under known names |
| ChungEverhart.ChungEverhart.SeEnergyDistribution | src/eemilib/model/chung_and_everhart.py:68-77 | The loop fills the table `DistributionTable` of the current work function |
| ChungEverhart.ChungEverhart.FindOptimalParameters | src/eemilib/model/chung_and_everhart.py:79-90 | ValueError without the files, AssertionError for another population, otherwise `W_f := 8.0` and nothing else changes |
| GuiHelper.ParameterPosToAttr | src/eemilib/gui/helper.py:160-162 | The inverted dict: its keys are the columns, and each column gives back its attribute |
| GuiHelper.AttrToPosIsInjective | src/eemilib/gui/helper.py:150-158 | No two attributes share a column |
| GuiHelper.AttrToPosIsBijection | src/eemilib/gui/helper.py:150-158 | Seven attributes fill columns 0 to 6 |
| GuiHelper.PositionsRoundTrip | src/eemilib/gui/helper.py:150-162 | Attribute to column to attribute, and column to attribute to column, are both the identity |
| GuiHelper.ToggledAsWritten | src/eemilib/gui/helper.py:140-144 | As written, the handler always leaves the parameter unlocked, and changes nothing else |
| GuiHelper.Toggled | src/eemilib/gui/helper.py:140-144 | As intended, the lock follows the check box, and nothing else changes |
| GuiHelper.TickingDoesNotLock | src/eemilib/gui/helper.py:140-144 | Ticking the box leaves the parameter unlocked, where the intended handler locks it |
| GuiHelper.UntickedAgrees | src/eemilib/gui/helper.py:140-144 | For every state but a ticked box, the two handlers agree |
| GuiHelper.ToggleLockAsWritten | src/eemilib/gui/helper.py:140-144 | The handler as written leaves the state `ToggledAsWritten` of the old state |
| GuiHelper.ToggleLock | src/eemilib/gui/helper.py:140-144 | The corrected handler leaves the state `Toggled` of the old state |

## Left out

- Loaders (`pandas.read_csv`, the DEESSE format) are file I/O. A `Loader` is a record of functions from paths to a table or an error.
- Plotters are matplotlib calls. A `Plotter` is a record of functions that thread an opaque axes token. Keyword styling arguments (`ls`, `lw`, `marker`, `grid`, `label`) are not modelled. Since a plotter always returns an axes token, the `assert axes is not None` of `Model.plot` (src/eemilib/model/model.py:103) has no counterpart.
- `scipy.optimize.least_squares` is a foreign solver, passed to the Dionne fit as a function of its inputs. `_residue` (src/eemilib/model/dionne.py:408-423) and the unused `partial` at line 195 exist only to feed it.
- The Vaughan fit reads the measured maximum with `get_max`, which is float interpolation. It is a function parameter `yieldMax`.
- `exp`, fractional powers, float printing (`f"{theta} [deg]"`) and float parsing (`float(...)`) are fields of a `FloatOps` record passed in. Nothing is claimed about their values, so the numeric figures of the tests are not proved. `math.pi` is the double nearest to pi, written out exactly, and `math.radians` multiplies by it over 180 in real arithmetic.
- Floating-point rounding is not modelled: values are reals. A division by zero, and anything computed from the result, is `NonFinite`; inf and NaN are not told apart.
- Model.Teey, Model.Seey, LegacyVaughan.Teey: these return the null table of `_default_ey` as intended (Model.DefaultEy), not the IndexError that `_default_ey` as written raises for any non-empty float angles (Model.DefaultEyAsWritten). So `Model.plot` for Dionne and ChungEverhart, which do not override `teey`, does not raise that IndexError either.
- Dionne.FitSolution: the solver's own failures are not modelled. This covers `least_squares` raising ValueError when the residuals at `x0` are not finite, which depends on `_residue`.
- LegacyDataMatrix: the earlier constants (eemilib/util/constants.py) do not define the `IMPLEMENTED_EMISSION_DATA` tuple that the earlier `DataMatrix` imports (eemilib/emission_data/data_matrix.py:21-25). The model uses the current revision's tuple and its order: yield, energy, angle.
- Dionne.Generation: for a non-finite range it gives `NonFinite`, where numpy would give 0 for an infinite range and a non-zero numerator.
- Dionne.Transport: for `d = 0` or a non-finite range it gives `NonFinite`, where numpy may give a finite value.
- `get_ec1`, `get_max` and the interpolating branch of `resample` are float searches. Only the `n_interp < 0` case of `resample` is modelled.
- `Parameter.__repr__` and `__str__` are float formatting for display.
- The base class `Model` (src/eemilib/model/model.py:22-104) defines none of `evaluate` / `_evaluate_for_teey_models`, `get_data`, `_generate_parameter_docs`, or a constructor argument `url_doc_override`; its only constructor is `__init__(self)` (line 43). As written, the code that uses them raises:
  - `Dionne()` and `ChungEverhart()` raise TypeError at `super().__init__(url_doc_override=...)` (src/eemilib/model/dionne.py:127, src/eemilib/model/chung_and_everhart.py:56);
  - both modules raise AttributeError on import, at `_generate_parameter_docs()` (src/eemilib/model/dionne.py:429, src/eemilib/model/chung_and_everhart.py:105);
  - Dionne's `get_data` raises AttributeError at `super().get_data` for any request but the SE yield (src/eemilib/model/dionne.py:155).
  - The model assumes a later base class that provides them: the constructors ignore `url_doc_override`, the documentation hooks are left out, and the base `get_data` is `Delegated`.
- `Model.set_parameters_values` is called but no shown file defines it, so as written the call raises AttributeError; the callers' docstrings (src/eemilib/model/dionne.py:119-121, src/eemilib/model/chung_and_everhart.py:52-54) say only that the given values override the defaults.
  - Parameter.SetParametersValues rests on an assumption about it: each known name takes its value, and unknown names are ignored. Dionne.ByKey, and through it the constructors' ensures, rest on the same assumption.
- The current `DataMatrix` (src/eemilib/emission_data/data_matrix.py) defines neither `seey` nor `all_energy_distribution`. As written, the Dionne fit raises AttributeError at `data_matrix.seey` (src/eemilib/model/dionne.py:178), and the Chung and Everhart fit at `data_matrix.all_energy_distribution` (src/eemilib/model/chung_and_everhart.py:86), once the mandatory files are present.
  - The model assumes a later data matrix that provides them: the measured SE yield of the Dionne fit is passed in, and so is the energy distribution of the Chung and Everhart fit.
- The current Vaughan fit calls `assert_has_all_mandatory_files`, which only the earlier `DataMatrix` defines. The model runs it against that class.
- Dionne.Dionne.constructor builds each parameter with its final value. It does not first build it with the default and then apply the given values. The resulting states are the same; the constructor's ensures states them.
- The `energy_loss_model` given to `Dionne` is stored but passed on by neither `get_data` nor the fit. The model stores it and evaluates with "Power law".
- The Vaughan test's expectation of `delta_E_transition` and `initial_parameters` refers to attributes this revision does not have. It is not modelled.
- Logging, the PyQt widget builders of the GUI, package scanning (`pkgutil`, `inspect`), and the thin loader wrappers `EmissionYield` and `EmissionAngleDistribution` are left out. Emission data is a (population, kind, table) value.

## Findings

| source | as written | input that shows it | evidently intended | confidence | as-written member | corrected member |
|---|---|---|---|---|---|---|
| src/eemilib/model/model.py:112 | `for the, j in enumerate(theta)` binds the position to `the` and the angle to `j`, then indexes `out[:, j]` with the angle | `theta = [0.0, 45.0, 60.0]` raises IndexError; `theta = [-1]` is labelled "0 [deg]" | one zero column per angle, labelled by the angle | high, not executed | Model.DefaultEyAsWritten | Model.DefaultEy |
| src/eemilib/emission_data/data_matrix.py:323-335 | `*filepath` splats the file cell, and `set_files` accepts a bare `str` or `Path` (line 107) | `set_files("a.csv", ...)` then `load_data` passes "a", ".", "c", "s", "v" as five paths; a `Path` raises TypeError | a bare path is passed as one path | medium, not executed | Emission.BareStringIsSplitIntoCharacters | Emission.PathsOf |
| eemilib/emission_data/data_matrix.py:64-120 | `isinstance(x, ImplementedPop)` with a `typing.Literal` alias as second argument | any call of `load_data`, or `_indexes_to_natures(0, 0)`, raises TypeError | a membership test, or no check | high, not executed | LegacyDataMatrix.DataMatrix.LoadDataAsWritten | LegacyDataMatrix.DataMatrix.LoadData |
| src/eemilib/gui/helper.py:140-144 | `lock()` under `if`, then an unconditional `unlock()` | ticking the lock check box (`state == Qt.Checked`) leaves the parameter unlocked | `unlock()` in an `else` branch | high, not executed | GuiHelper.ToggleLockAsWritten | GuiHelper.ToggleLock |
