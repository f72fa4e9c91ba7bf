/** The 4 x 3 nested lists (population rows, data-kind columns) of the data matrices, and Python list indexing. */
module Grid {
  import opened Wrappers

  const NRows: nat := 4
  const NCols: nat := 3

  ghost predicate Shaped<T>(g: seq<seq<T>>)
  {
    |g| == NRows && forall r :: 0 <= r < NRows ==> |g[r]| == NCols
  }

  /** `[[v for _ in range(3)] for _ in range(4)]`. */
  function Filled<T>(v: T): (g: seq<seq<T>>)
    ensures Shaped(g)
    ensures forall r, c :: 0 <= r < NRows && 0 <= c < NCols ==> g[r][c] == v
  {
    seq(NRows, _ => seq(NCols, _ => v))
  }

  /** `g[r][c] = v`: exactly one cell changes. */
  function Set<T>(g: seq<seq<T>>, r: nat, c: nat, v: T): (g': seq<seq<T>>)
    requires Shaped(g) && r < NRows && c < NCols
    ensures Shaped(g')
    ensures g'[r][c] == v
    ensures forall r', c' :: 0 <= r' < NRows && 0 <= c' < NCols && (r', c') != (r, c) ==> g'[r'][c'] == g[r'][c']
  {
    g[r := g[r][c := v]]
  }

  /**
   * The position `lst[i]` designates in a Python list of length `n`: a
   * negative index counts from the end, anything else out of range raises
   * IndexError.
   */
  function PyIndex(i: int, n: nat): (r: Result<nat>)
    ensures r.Ok? <==> -(n as int) <= i < n
    ensures r.Ok? ==> r.value < n && r.value as int == (if i >= 0 then i else i + n)
    ensures r.Err? ==> r.error == IndexError
  {
    if 0 <= i < n then Ok(i as nat)
    else if -(n as int) <= i < 0 then Ok((i + n) as nat)
    else Err(IndexError)
  }
}
