/** The emission-yield table helpers `trim` and `resample`, on a table seen as its rows. */
module EmissionHelper {
  import opened Tables

  /** One row of a normal emission yield table: the energy and the other columns' values. */
  datatype EyRow = EyRow(energy: real, values: seq<real>)

  /** An energy range; a negative bound means that side is open. */
  datatype Window = Window(minE: real, maxE: real)

  predicate InWindow(w: Window, e: real)
  {
    (w.minE < 0.0 || e >= w.minE) && (w.maxE < 0.0 || e <= w.maxE)
  }

  /** Boolean-mask selection `df[mask]`: the rows whose energy is in the window, in their original order. */
  function Select(rows: seq<EyRow>, w: Window): (r: seq<EyRow>)
    ensures |r| <= |rows|
    ensures forall x :: x in r <==> x in rows && InWindow(w, x.energy)
  {
    if rows == [] then []
    else if InWindow(w, rows[0].energy) then [rows[0]] + Select(rows[1..], w)
    else Select(rows[1..], w)
  }

  /**
   * `trim`: with a non-negative `min_e`, keep the rows at or above it; then,
   * with a non-negative `max_e`, keep those at or below it; negative bounds
   * (the default -1) switch a side off. The result is re-indexed from 0.
   */
  function Trim(rows: seq<EyRow>, minE: real := -1.0, maxE: real := -1.0): (r: seq<EyRow>)
    ensures forall x :: x in r <==> x in rows && (minE < 0.0 || x.energy >= minE) && (maxE < 0.0 || x.energy <= maxE)
  {
    var low := if minE >= 0.0 then Select(rows, Window(minE, -1.0)) else rows;
    if maxE >= 0.0 then Select(low, Window(-1.0, maxE)) else low
  }

  /** `a` is `b` with some rows removed, the others kept in order. */
  predicate IsSubsequence(a: seq<EyRow>, b: seq<EyRow>)
    decreases |b|
  {
    if b == [] then a == []
    else (a != [] && a[0] == b[0] && IsSubsequence(a[1..], b[1..])) || IsSubsequence(a, b[1..])
  }

  lemma {:induction false} SelectIsSubsequence(rows: seq<EyRow>, w: Window)
    ensures IsSubsequence(Select(rows, w), rows)
  {
    if rows != [] {
      SelectIsSubsequence(rows[1..], w);
      if InWindow(w, rows[0].energy) {
        assert Select(rows, w)[1..] == Select(rows[1..], w);
      }
    }
  }

  /** A selection with an open window keeps every row. */
  lemma {:induction false} SelectOpenWindow(rows: seq<EyRow>)
    ensures Select(rows, Window(-1.0, -1.0)) == rows
  {
    if rows != [] {
      SelectOpenWindow(rows[1..]);
    }
  }

  /** Filtering on the lower bound then on the upper bound is one filtering on the whole window. */
  lemma {:induction false} SelectTwice(rows: seq<EyRow>, minE: real, maxE: real)
    ensures Select(Select(rows, Window(minE, -1.0)), Window(-1.0, maxE)) == Select(rows, Window(minE, maxE))
  {
    if rows != [] {
      SelectTwice(rows[1..], minE, maxE);
    }
  }

  /** `trim` is one order-preserving filter on the window [min_e, max_e]. */
  lemma TrimIsSelect(rows: seq<EyRow>, minE: real, maxE: real)
    ensures Trim(rows, minE, maxE) == Select(rows, Window(minE, maxE))
  {
    if minE >= 0.0 && maxE >= 0.0 {
      SelectTwice(rows, minE, maxE);
    } else if minE >= 0.0 {
      SelectSameWindow(rows, Window(minE, -1.0), Window(minE, maxE));
    } else if maxE >= 0.0 {
      SelectSameWindow(rows, Window(-1.0, maxE), Window(minE, maxE));
    } else {
      SelectOpenWindow(rows);
      SelectSameWindow(rows, Window(-1.0, -1.0), Window(minE, maxE));
    }
  }

  /** Windows that accept the same energies select the same rows. */
  lemma {:induction false} SelectSameWindow(rows: seq<EyRow>, w1: Window, w2: Window)
    requires forall e :: InWindow(w1, e) == InWindow(w2, e)
    ensures Select(rows, w1) == Select(rows, w2)
  {
    if rows != [] {
      SelectSameWindow(rows[1..], w1, w2);
    }
  }

  /** The trimmed table is an order-preserving subsequence of the input. */
  lemma TrimIsSubsequence(rows: seq<EyRow>, minE: real, maxE: real)
    ensures IsSubsequence(Trim(rows, minE, maxE), rows)
  {
    TrimIsSelect(rows, minE, maxE);
    SelectIsSubsequence(rows, Window(minE, maxE));
  }

  /** Negative bounds leave the table unchanged. */
  lemma TrimWithoutBoundsIsIdentity(rows: seq<EyRow>, minE: real, maxE: real)
    requires minE < 0.0 && maxE < 0.0
    ensures Trim(rows, minE, maxE) == rows
  {
  }

  /** Selection distributes over concatenation. */
  lemma {:induction false} SelectAppend(a: seq<EyRow>, b: seq<EyRow>, w: Window)
    ensures Select(a + b, w) == Select(a, w) + Select(b, w)
  {
    if a != [] {
      assert (a + b)[1..] == a[1..] + b;
      SelectAppend(a[1..], b, w);
    } else {
      assert a + b == b;
    }
  }

  /** Rows that all pass are all kept. */
  lemma {:induction false} SelectAllPass(rows: seq<EyRow>, w: Window)
    requires forall i :: 0 <= i < |rows| ==> InWindow(w, rows[i].energy)
    ensures Select(rows, w) == rows
  {
    if rows != [] {
      var tail := rows[1..];
      forall i | 0 <= i < |tail| ensures InWindow(w, tail[i].energy) {
        assert tail[i] == rows[i + 1];
      }
      SelectAllPass(tail, w);
      assert InWindow(w, rows[0].energy);
      assert rows == [rows[0]] + tail;
    }
  }

  /** Rows that all fail are all dropped. */
  lemma {:induction false} SelectAllFail(rows: seq<EyRow>, w: Window)
    requires forall i :: 0 <= i < |rows| ==> !InWindow(w, rows[i].energy)
    ensures Select(rows, w) == []
  {
    if rows != [] {
      var tail := rows[1..];
      forall i | 0 <= i < |tail| ensures !InWindow(w, tail[i].energy) {
        assert tail[i] == rows[i + 1];
      }
      SelectAllFail(tail, w);
      assert !InWindow(w, rows[0].energy);
    }
  }

  /** On a table sorted by energy, the rows in a window form the slice `rows[lo..hi]`. */
  lemma {:induction false} SelectSlice(rows: seq<EyRow>, w: Window, lo: nat, hi: nat)
    requires lo <= hi <= |rows|
    requires forall i :: 0 <= i < |rows| ==> (InWindow(w, rows[i].energy) <==> lo <= i < hi)
    ensures Select(rows, w) == rows[lo..hi]
  {
    if hi == 0 {
      SelectAllFail(rows, w);
    } else {
      var tail := rows[1..];
      var lo', hi' := if lo == 0 then 0 else lo - 1, hi - 1;
      forall i | 0 <= i < |tail| ensures InWindow(w, tail[i].energy) <==> lo' <= i < hi' {
        assert tail[i] == rows[i + 1];
      }
      SelectSlice(tail, w, lo', hi');
      if lo == 0 {
        assert InWindow(w, rows[0].energy);
        assert rows[..hi] == [rows[0]] + tail[..hi'];
      } else {
        assert !InWindow(w, rows[0].energy);
        assert tail[lo'..hi'] == rows[lo..hi];
      }
    }
  }

  /** Eleven rows at energies 0, 10, ..., 100 eV with arbitrary yields. */
  function TestRows(ys: seq<real>): (rows: seq<EyRow>)
    requires |ys| == 11
    ensures |rows| == 11 && forall i :: 0 <= i < 11 ==> rows[i].energy == 10.0 * i as real
  {
    seq(11, i requires 0 <= i < 11 => EyRow(10.0 * i as real, [ys[i]]))
  }

  /** `test_no_trim` and `test_low_trim`: no bounds keep all rows; `min_e=20` drops the first two. */
  lemma TrimTestLow(ys: seq<real>)
    requires |ys| == 11
    ensures Trim(TestRows(ys)) == TestRows(ys)
    ensures Trim(TestRows(ys), minE := 20.0) == TestRows(ys)[2..]
  {
    TrimIsSelect(TestRows(ys), 20.0, -1.0);
    SelectSlice(TestRows(ys), Window(20.0, -1.0), 2, 11);
  }

  /** `test_upp_trim`: `max_e=80` drops the last two rows. */
  lemma TrimTestUpper(ys: seq<real>)
    requires |ys| == 11
    ensures Trim(TestRows(ys), maxE := 80.0) == TestRows(ys)[..9]
  {
    TrimIsSelect(TestRows(ys), -1.0, 80.0);
    SelectSlice(TestRows(ys), Window(-1.0, 80.0), 0, 9);
  }

  /** `test_both_trim`: `(30, 70)` keeps rows 3 to 7. */
  lemma TrimTestBoth(ys: seq<real>)
    requires |ys| == 11
    ensures Trim(TestRows(ys), minE := 30.0, maxE := 70.0) == TestRows(ys)[3..8]
  {
    TrimIsSelect(TestRows(ys), 30.0, 70.0);
    SelectSlice(TestRows(ys), Window(30.0, 70.0), 3, 8);
  }

  /** `resample`: a negative point count returns the table itself; otherwise the interpolation, passed in, is used. */
  function Resample(ey: Table, nInterp: int, interpolate: (Table, nat) -> Table): (r: Table)
    ensures nInterp < 0 ==> r == ey
    ensures nInterp >= 0 ==> r == interpolate(ey, nInterp)
  {
    if nInterp < 0 then ey else interpolate(ey, nInterp as nat)
  }
}
