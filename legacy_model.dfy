/** The earlier base model: the same null TEEY and SEEY, and an abstract fit. */
module LegacyModel {
  import opened Floats
  import opened Tables
  import M = Model

  /** The earlier `Model.teey`: the null table of `_default_ey` as intended (it is written with the same swapped `enumerate`). */
  function Teey(ops: FloatOps, energy: seq<real>, theta: seq<real>): Table
  {
    M.DefaultEy(ops, energy, theta)
  }

  /** The earlier `Model.seey`, with `_default_ey` as intended. */
  function Seey(ops: FloatOps, energy: seq<real>, theta: seq<real>): Table
  {
    M.DefaultEy(ops, energy, theta)
  }

  /**
   * Both revisions of the base model compute the same yields, and the earlier
   * `_default_ey` has the same swapped `enumerate`, so it fails on float angles too.
   */
  lemma SameNullModelAsCurrentRevision(ops: FloatOps, energy: seq<real>, theta: seq<real>)
    ensures Teey(ops, energy, theta) == M.Teey(ops, energy, theta)
    ensures Seey(ops, energy, theta) == M.Seey(ops, energy, theta)
    ensures Teey(ops, energy, theta) == Seey(ops, energy, theta)
    ensures HasRows(Teey(ops, energy, theta), |energy|)
    ensures theta != [] ==> M.DefaultEyAsWritten(energy, M.FloatAngles(theta)).Err?
  {
  }
}
