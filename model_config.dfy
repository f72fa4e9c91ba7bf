/** `ModelConfig`: the populations a model needs measured data for, per data kind. */
module Config {
  import opened Constants

  datatype ModelConfig = ModelConfig(
    emissionYieldFiles: seq<string>,
    emissionEnergyFiles: seq<string>,
    emissionAngleFiles: seq<string>)

  /**
   * The attribute `has_all_mandatory_files` reads for a kind: it zips the
   * kinds, in their fixed order, with the three attribute names.
   */
  function MandatoryFor(cfg: ModelConfig, k: DataKind): (ps: seq<string>)
    ensures k == EmissionYield ==> ps == cfg.emissionYieldFiles
    ensures k == EmissionEnergy ==> ps == cfg.emissionEnergyFiles
    ensures k == EmissionAngle ==> ps == cfg.emissionAngleFiles
  {
    match k
    case EmissionYield => cfg.emissionYieldFiles
    case EmissionEnergy => cfg.emissionEnergyFiles
    case EmissionAngle => cfg.emissionAngleFiles
  }
}
