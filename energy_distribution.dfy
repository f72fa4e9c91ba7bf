/** `EmissionEnergyDistribution`: an energy column plus one column per incidence angle. */
module EnergyDistribution {
  import opened Wrappers
  import opened Floats
  import opened Tables
  import opened Constants
  import opened Emission

  /**
   * The characters Python's argument-less `str.split()` treats as separators:
   * those for which `str.isspace()` holds, that is the Unicode space separators
   * and the characters of bidirectional class WS, B or S.
   */
  predicate IsSpace(c: char)
  {
    || '\t' <= c <= '\r'
    || '\U{1C}' <= c <= ' '
    || c == '\U{85}' || c == '\U{A0}' || c == '\U{1680}'
    || '\U{2000}' <= c <= '\U{200A}'
    || c == '\U{2028}' || c == '\U{2029}' || c == '\U{202F}' || c == '\U{205F}' || c == '\U{3000}'
  }

  /** The leading run of non-separator characters. */
  function TakeWord(s: string): (w: string)
    ensures |w| <= |s| && w == s[..|w|]
    ensures |w| == |s| || IsSpace(s[|w|])
    ensures forall i :: 0 <= i < |w| ==> !IsSpace(w[i])
  {
    if s == [] || IsSpace(s[0]) then [] else [s[0]] + TakeWord(s[1..])
  }

  /** The number of separators before the first word. */
  function LeadingSpaces(s: string): (n: nat)
    ensures n <= |s|
    ensures forall k :: 0 <= k < n ==> IsSpace(s[k])
    ensures n == |s| || !IsSpace(s[n])
  {
    if s == [] || !IsSpace(s[0]) then 0 else 1 + LeadingSpaces(s[1..])
  }

  /**
   * `s.split()[0]`: the first whitespace-separated word, or IndexError when
   * the string holds only separators.
   */
  function FirstWord(s: string): (r: Result<string>)
    ensures r.Err? <==> forall i :: 0 <= i < |s| ==> IsSpace(s[i])
    ensures r.Err? ==> r.error == IndexError
    ensures r.Ok? ==> r.value != [] && r.value == TakeWord(s[LeadingSpaces(s)..])
  {
    var n := LeadingSpaces(s);
    if n == |s| then Err(IndexError) else Ok(TakeWord(s[n..]))
  }

  /** Any Unicode space ends a word: "45.0" followed by an em space reads as "45.0", and a header of spaces has no word. */
  lemma FirstWordStopsAtUnicodeSpace()
    ensures FirstWord("45.0\U{2003}[deg]") == Ok("45.0")
    ensures FirstWord("\U{2028}\U{A0}") == Err(IndexError)
  {
    var s := "45.0\U{2003}[deg]";
    assert TakeWord(s[4..]) == [];
    assert TakeWord(s[3..]) == "0";
    assert TakeWord(s[2..]) == ".0";
    assert TakeWord(s[1..]) == "5.0";
    assert TakeWord(s) == "45.0";
    assert LeadingSpaces(s) == 0;
    assert s[0..] == s;
    var blank := "\U{2028}\U{A0}";
    assert LeadingSpaces(blank[1..]) == 1;
    assert LeadingSpaces(blank) == 2;
  }

  /** The columns the angle comprehension visits: every column not named "Energy [eV]", in order. */
  function AngleColumns(cols: seq<Column>): (r: seq<Column>)
    ensures |r| <= |cols|
    ensures forall c :: c in r <==> c in cols && c.header != ColEnergy
  {
    if cols == [] then []
    else if cols[0].header == ColEnergy then AngleColumns(cols[1..])
    else [cols[0]] + AngleColumns(cols[1..])
  }

  /** The number of columns named `h`. */
  function CountHeader(cols: seq<Column>, h: string): nat
  {
    if cols == [] then 0 else (if cols[0].header == h then 1 else 0) + CountHeader(cols[1..], h)
  }

  /** Whether the header of an angle column reads as a float: a first word exists and parses. */
  predicate AngleReadable(ops: FloatOps, c: Column)
  {
    FirstWord(c.header).Ok? && ops.parse(FirstWord(c.header).value).Some?
  }

  /** The error reading a header raises: IndexError with no word, ValueError when the word is no float. */
  function ReadAngle(ops: FloatOps, c: Column): (r: Result<Float>)
    ensures r.Ok? <==> AngleReadable(ops, c)
    ensures r.Ok? ==> Some(r.value) == ops.parse(FirstWord(c.header).value)
    ensures r.Err? ==> r.error == (if FirstWord(c.header).Err? then IndexError else ValueError)
  {
    var word :- FirstWord(c.header);
    match ops.parse(word)
    case Some(a) => Ok(a)
    case None => Err(ValueError)
  }

  /** `[float(col.split()[0]) for col in data.columns if col != col_energy]`, raising at the first bad header. */
  function Angles(ops: FloatOps, cols: seq<Column>): Result<seq<Float>>
  {
    if cols == [] then Ok([])
    else if cols[0].header == ColEnergy then Angles(ops, cols[1..])
    else
      var a :- ReadAngle(ops, cols[0]);
      var rest :- Angles(ops, cols[1..]);
      Ok([a] + rest)
  }

  /** Reading the angles fails exactly when some non-energy header does not read as a float. */
  lemma {:induction false} AnglesFailOnUnreadableHeader(ops: FloatOps, cols: seq<Column>)
    ensures Angles(ops, cols).Ok? <==> forall c :: c in AngleColumns(cols) ==> AngleReadable(ops, c)
  {
    if cols != [] {
      AnglesFailOnUnreadableHeader(ops, cols[1..]);
      if cols[0].header != ColEnergy {
        assert AngleColumns(cols) == [cols[0]] + AngleColumns(cols[1..]);
      }
    }
  }

  /** One angle per non-energy column: as many as the columns, less those named "Energy [eV]". */
  lemma {:induction false} AnglesCount(ops: FloatOps, cols: seq<Column>)
    requires Angles(ops, cols).Ok?
    ensures |Angles(ops, cols).value| == |AngleColumns(cols)| == |cols| - CountHeader(cols, ColEnergy)
  {
    if cols != [] {
      AnglesCount(ops, cols[1..]);
    }
  }

  /** The i-th angle is the float read from the first word of the i-th non-energy header. */
  lemma {:induction false} AnglesInColumnOrder(ops: FloatOps, cols: seq<Column>, i: nat)
    requires Angles(ops, cols).Ok?
    requires i < |AngleColumns(cols)|
    ensures i < |Angles(ops, cols).value|
    ensures AngleReadable(ops, AngleColumns(cols)[i])
    ensures Some(Angles(ops, cols).value[i]) == ops.parse(FirstWord(AngleColumns(cols)[i].header).value)
  {
    AnglesCount(ops, cols);
    if cols[0].header == ColEnergy {
      AnglesInColumnOrder(ops, cols[1..], i);
    } else if i > 0 {
      var tail := Angles(ops, cols[1..]);
      assert Angles(ops, cols).value == [ReadAngle(ops, cols[0]).value] + tail.value;
      assert AngleColumns(cols) == [cols[0]] + AngleColumns(cols[1..]);
      AnglesCount(ops, cols[1..]);
      AnglesInColumnOrder(ops, cols[1..], i - 1);
    }
  }

  /**
   * `EmissionEnergyDistribution(population, data)`: the energy column is read
   * first (KeyError when absent), then the angles from the other headers.
   */
  function New(ops: FloatOps, population: Population, data: Table): (r: Result<EmissionData>)
    ensures ColEnergy !in HeaderSet(data.columns) ==> r == Err(KeyError)
    ensures r.Ok? <==> ColEnergy in HeaderSet(data.columns) && Angles(ops, data.columns).Ok?
    ensures r.Ok? ==>
      && r.value.EnergyDistribution?
      && r.value.population == population
      && r.value.table == data
      && Find(data.columns, ColEnergy) == Some(r.value.energies)
      && r.value.angles == Angles(ops, data.columns).value
  {
    var energies :- Lookup(data, ColEnergy);
    var angles :- Angles(ops, data.columns);
    Ok(EnergyDistribution(population, data, energies, angles))
  }

  /** With a single energy column, there is one angle per remaining column. */
  lemma AngleCountWithOneEnergyColumn(ops: FloatOps, population: Population, data: Table)
    requires CountHeader(data.columns, ColEnergy) == 1
    requires New(ops, population, data).Ok?
    ensures |New(ops, population, data).value.angles| == |data.columns| - 1
  {
    AnglesCount(ops, data.columns);
  }

  /** `from_filepath`: every path goes to the energy-distribution reader, whose table is wrapped with the population. */
  function FromFilepath(ops: FloatOps, population: Population, loader: Loader, paths: seq<string>): (r: Result<EmissionData>)
    ensures loader.loadEmissionEnergyDistribution(paths).Err? ==> r == Err(loader.loadEmissionEnergyDistribution(paths).error)
    ensures loader.loadEmissionEnergyDistribution(paths).Ok? ==> r == New(ops, population, loader.loadEmissionEnergyDistribution(paths).value)
  {
    var data :- loader.loadEmissionEnergyDistribution(paths);
    New(ops, population, data)
  }

  /** The `label` property: the energy-distribution label of the data's population. */
  function Label(d: EmissionData): (l: string)
    ensures l in MdEnergyDistrib.Values
  {
    MdEnergyDistrib[PopulationName(d.population)]
  }

  /** Each population gets its own label. */
  lemma LabelsDistinguishPopulations(d: EmissionData, e: EmissionData)
    requires d.population != e.population
    ensures Label(d) != Label(e)
  {
    var p, q := PopulationName(d.population), PopulationName(e.population);
    assert MdEnergyDistrib[p][11] == p[0];
    assert MdEnergyDistrib[q][11] == q[0];
  }
}
