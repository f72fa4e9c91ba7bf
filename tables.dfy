/**
 * pandas DataFrames as ordered sequences of named columns, and the Python
 * dict semantics used when a DataFrame is built from a dict.
 */
module Tables {
  import opened Wrappers
  import opened Floats

  datatype Column = Column(header: string, values: seq<Float>)

  /** A DataFrame: its columns, in order. */
  datatype Table = Table(columns: seq<Column>)

  function HeaderSet(cols: seq<Column>): set<string>
  {
    if cols == [] then {} else {cols[0].header} + HeaderSet(cols[1..])
  }

  ghost predicate DistinctHeaders(cols: seq<Column>)
  {
    forall i, j :: 0 <= i < j < |cols| ==> cols[i].header != cols[j].header
  }

  /** Every column holds exactly `n` values: the DataFrame has `n` rows. */
  ghost predicate HasRows(t: Table, n: nat)
  {
    forall i :: 0 <= i < |t.columns| ==> |t.columns[i].values| == n
  }

  /** `df[header]`: the first column so named. */
  function Find(cols: seq<Column>, header: string): (r: Option<seq<Float>>)
    ensures r.Some? <==> header in HeaderSet(cols)
  {
    if cols == [] then None
    else if cols[0].header == header then Some(cols[0].values)
    else Find(cols[1..], header)
  }

  /** Column selection `df[header]`, which raises KeyError for a missing header. */
  function Lookup(t: Table, header: string): (r: Result<seq<Float>>)
    ensures r.Err? <==> header !in HeaderSet(t.columns)
    ensures r.Err? ==> r.error == KeyError
  {
    match Find(t.columns, header)
    case Some(v) => Ok(v)
    case None => Err(KeyError)
  }

  /** `d[c.header] = c.values` on a dict whose items are `cols`: a present key keeps its place. */
  function DictSet(cols: seq<Column>, c: Column): seq<Column>
  {
    if cols == [] then [c]
    else if cols[0].header == c.header then [c] + cols[1..]
    else [cols[0]] + DictSet(cols[1..], c)
  }

  function DictBuild(acc: seq<Column>, entries: seq<Column>): seq<Column>
    decreases |entries|
  {
    if entries == [] then acc else DictBuild(DictSet(acc, entries[0]), entries[1..])
  }

  /** `pd.DataFrame(d)` where the dict `d` was filled by assigning `entries` in order. */
  function FromDict(entries: seq<Column>): Table
  {
    Table(DictBuild([], entries))
  }

  /** The values of the last entry named `header`: the one a dict keeps. */
  function FindLast(entries: seq<Column>, header: string): Option<seq<Float>>
  {
    if entries == [] then None
    else if entries[|entries| - 1].header == header then Some(entries[|entries| - 1].values)
    else FindLast(entries[..|entries| - 1], header)
  }

  lemma {:induction false} HeaderSetMember(cols: seq<Column>, h: string)
    ensures h in HeaderSet(cols) <==> exists i :: 0 <= i < |cols| && cols[i].header == h
  {
    if cols != [] {
      HeaderSetMember(cols[1..], h);
      if h in HeaderSet(cols[1..]) {
        var i :| 0 <= i < |cols[1..]| && cols[1..][i].header == h;
        assert cols[i + 1].header == h;
      }
      if exists i :: 0 <= i < |cols| && cols[i].header == h {
        var i :| 0 <= i < |cols| && cols[i].header == h;
        if i > 0 {
          assert cols[1..][i - 1].header == h;
        }
      }
    }
  }

  lemma {:induction false} DictSetSpec(cols: seq<Column>, c: Column)
    requires DistinctHeaders(cols)
    ensures DistinctHeaders(DictSet(cols, c))
    ensures HeaderSet(DictSet(cols, c)) == HeaderSet(cols) + {c.header}
    ensures Find(DictSet(cols, c), c.header) == Some(c.values)
    ensures forall h :: h != c.header ==> Find(DictSet(cols, c), h) == Find(cols, h)
    ensures |DictSet(cols, c)| == if c.header in HeaderSet(cols) then |cols| else |cols| + 1
    ensures forall n: nat :: HasRows(Table(cols), n) && |c.values| == n ==> HasRows(Table(DictSet(cols, c)), n)
  {
    if cols == [] {
    } else if cols[0].header == c.header {
      HeaderSetMember(cols[1..], c.header);
      var r := DictSet(cols, c);
      assert r[1..] == cols[1..];
      forall i, j | 0 <= i < j < |r| ensures r[i].header != r[j].header {
        if i > 0 {
          assert r[i] == cols[i] && r[j] == cols[j];
        } else {
          assert r[i].header == cols[0].header && r[j] == cols[j];
        }
      }
      assert HeaderSet(r) == {c.header} + HeaderSet(cols[1..]);
    } else {
      var tail := cols[1..];
      assert DistinctHeaders(tail) by {
        forall i, j | 0 <= i < j < |tail| ensures tail[i].header != tail[j].header {
          assert tail[i] == cols[i + 1] && tail[j] == cols[j + 1];
        }
      }
      DictSetSpec(tail, c);
      var r := DictSet(cols, c);
      assert r == [cols[0]] + DictSet(tail, c);
      assert r[1..] == DictSet(tail, c);
      HeadNotInTail(cols);
      HeaderSetMember(r[1..], cols[0].header);
      forall i, j | 0 <= i < j < |r| ensures r[i].header != r[j].header {
        if i > 0 {
          assert r[i] == r[1..][i - 1] && r[j] == r[1..][j - 1];
        } else {
          assert r[j] == r[1..][j - 1];
        }
      }
      forall n: nat | HasRows(Table(cols), n) && |c.values| == n ensures HasRows(Table(r), n) {
        assert HasRows(Table(tail), n) by {
          forall i | 0 <= i < |tail| ensures |tail[i].values| == n {
            assert tail[i] == cols[i + 1];
          }
        }
        forall i | 0 <= i < |r| ensures |r[i].values| == n {
          if i > 0 { assert r[i] == DictSet(tail, c)[i - 1]; }
        }
      }
    }
  }

  /** The dict a DataFrame is built from has one column per distinct key, and keeps the last value assigned to each key. */
  lemma {:induction false} DictBuildSpec(acc: seq<Column>, entries: seq<Column>)
    requires DistinctHeaders(acc)
    ensures DistinctHeaders(DictBuild(acc, entries))
    ensures HeaderSet(DictBuild(acc, entries)) == HeaderSet(acc) + HeaderSet(entries)
    ensures forall h :: Find(DictBuild(acc, entries), h) == (if h in HeaderSet(entries) then FindLast(entries, h) else Find(acc, h))
    ensures forall n: nat :: HasRows(Table(acc), n) && HasRows(Table(entries), n) ==> HasRows(Table(DictBuild(acc, entries)), n)
    decreases |entries|
  {
    if entries != [] {
      DictSetSpec(acc, entries[0]);
      var acc' := DictSet(acc, entries[0]);
      DictBuildSpec(acc', entries[1..]);
      forall h ensures Find(DictBuild(acc, entries), h) == (if h in HeaderSet(entries) then FindLast(entries, h) else Find(acc, h)) {
        FindLastSplit(entries, h);
      }
      forall n: nat | HasRows(Table(acc), n) && HasRows(Table(entries), n) ensures HasRows(Table(DictBuild(acc, entries)), n) {
        assert |entries[0].values| == n;
        assert HasRows(Table(entries[1..]), n) by {
          forall i | 0 <= i < |entries[1..]| ensures |entries[1..][i].values| == n {
            assert entries[1..][i] == entries[i + 1];
          }
        }
      }
    }
  }

  /** Looking up the last entry of a non-empty sequence: either its tail has one, or it is the head. */
  lemma {:induction false} FindLastSplit(entries: seq<Column>, h: string)
    requires entries != []
    ensures FindLast(entries, h) == if h in HeaderSet(entries[1..]) then FindLast(entries[1..], h)
                                    else if entries[0].header == h then Some(entries[0].values) else None
    ensures h in HeaderSet(entries) <==> h in HeaderSet(entries[1..]) || entries[0].header == h
    decreases |entries|
  {
    var n := |entries|;
    if n == 1 {
      assert entries[1..] == [];
    } else {
      var init := entries[..n - 1];
      assert init[1..] == entries[1..n - 1];
      assert entries[1..][..|entries[1..]| - 1] == entries[1..n - 1];
      FindLastSplit(init, h);
      HeaderSetMember(entries[1..], h);
      HeaderSetMember(entries[1..n - 1], h);
      assert entries[1..][|entries[1..]| - 1] == entries[n - 1];
      if entries[n - 1].header == h {
        assert h in HeaderSet(entries[1..]);
      } else {
        if h in HeaderSet(entries[1..n - 1]) {
          var i :| 0 <= i < |entries[1..n - 1]| && entries[1..n - 1][i].header == h;
          assert entries[1..][i].header == h;
        }
        if h in HeaderSet(entries[1..]) {
          var i :| 0 <= i < |entries[1..]| && entries[1..][i].header == h;
          assert i < n - 2;
          assert entries[1..n - 1][i].header == h;
        }
      }
    }
  }

  /** A DataFrame built from a dict: distinct headers, the headers of the entries, the last value per key. */
  lemma FromDictSpec(entries: seq<Column>)
    ensures DistinctHeaders(FromDict(entries).columns)
    ensures HeaderSet(FromDict(entries).columns) == HeaderSet(entries)
    ensures forall h :: Find(FromDict(entries).columns, h) == FindLast(entries, h)
    ensures forall n: nat :: HasRows(Table(entries), n) ==> HasRows(FromDict(entries), n)
  {
    DictBuildSpec([], entries);
    forall h ensures Find(FromDict(entries).columns, h) == FindLast(entries, h) {
      if h !in HeaderSet(entries) {
        FindLastAbsent(entries, h);
      }
    }
  }

  lemma {:induction false} FindLastAbsent(entries: seq<Column>, h: string)
    requires h !in HeaderSet(entries)
    ensures FindLast(entries, h) == None
    decreases |entries|
  {
    if entries != [] {
      FindLastSplit(entries, h);
      var n := |entries|;
      HeaderSetMember(entries, h);
      var init := entries[..n - 1];
      forall i | 0 <= i < |init| ensures init[i].header != h {
        assert init[i] == entries[i];
      }
      HeaderSetMember(init, h);
      FindLastAbsent(entries[..n - 1], h);
    }
  }

  /** Distinct headers make the column count the number of headers. */
  lemma {:induction false} DistinctHeaderCount(cols: seq<Column>)
    requires DistinctHeaders(cols)
    ensures |HeaderSet(cols)| == |cols|
  {
    if cols != [] {
      var tail := cols[1..];
      assert DistinctHeaders(tail) by {
        forall i, j | 0 <= i < j < |tail| ensures tail[i].header != tail[j].header {
          assert tail[i] == cols[i + 1] && tail[j] == cols[j + 1];
        }
      }
      HeadNotInTail(cols);
      DistinctHeaderCount(tail);
    }
  }

  /** With distinct headers, the first header does not reappear later. */
  lemma HeadNotInTail(cols: seq<Column>)
    requires cols != [] && DistinctHeaders(cols)
    ensures cols[0].header !in HeaderSet(cols[1..])
  {
    forall i | 0 <= i < |cols[1..]| ensures cols[1..][i].header != cols[0].header {
      assert cols[1..][i] == cols[i + 1];
    }
    HeaderSetMember(cols[1..], cols[0].header);
  }
}
