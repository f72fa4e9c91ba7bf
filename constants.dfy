/** The populations, data kinds, column names and labels that the rest of the code indexes by. */
module Constants {
  import opened Wrappers

  /** Secondary, elastically backscattered, inelastically backscattered and all emitted electrons. */
  datatype Population = SE | EBE | IBE | All

  datatype DataKind = EmissionYield | EmissionEnergy | EmissionAngle

  /** The Python string literal of each population. */
  function PopulationName(p: Population): string
  {
    match p
    case SE => "SE"
    case EBE => "EBE"
    case IBE => "IBE"
    case All => "all"
  }

  /** The Python string literal of each data kind. */
  function KindName(k: DataKind): string
  {
    match k
    case EmissionYield => "Emission Yield"
    case EmissionEnergy => "Emission Energy"
    case EmissionAngle => "Emission Angle"
  }

  const AllPopulations: seq<Population> := [SE, EBE, IBE, All]
  const AllKinds: seq<DataKind> := [EmissionYield, EmissionEnergy, EmissionAngle]

  /** `IMPLEMENTED_POP`. */
  const ImplementedPop: seq<string> := ["SE", "EBE", "IBE", "all"]
  /** `IMPLEMENTED_EMISSION_DATA`. */
  const ImplementedEmissionData: seq<string> := ["Emission Yield", "Emission Energy", "Emission Angle"]

  const ColEnergy: string := "Energy [eV]"
  const ColNormal: string := "0.0 [deg]"

  /** `md_ey`: the y-axis label of an emission yield, per population. */
  const MdEy: map<string, string> := map[
    "SE" := "SEEY $\\delta$",
    "EBE" := "EBEEY $\\eta_e$",
    "IBE" := "IBEEY $\\eta_i$",
    "all" := "TEEY $\\sigma$"]

  /** `md_energy_distrib`: the label of an energy distribution, per population. */
  const MdEnergyDistrib: map<string, string> := map[
    "SE" := "$f_\\mathrm{SE} [\\mathrm{eV}^{-1}]$",
    "EBE" := "$f_\\mathrm{EBE} [\\mathrm{eV}^{-1}]$",
    "IBE" := "$f_\\mathrm{IBE} [\\mathrm{eV}^{-1}]$",
    "all" := "$f_\\mathrm{all} [\\mathrm{eV}^{-1}]$"]

  /** `md_ylabel`: the y-axis label per data kind. */
  const MdYlabel: map<string, string> := map[
    "Emission Yield" := "Emission Yield",
    "Emission Energy" := "Emission Energy Distribution",
    "Emission Angle" := "Emission Angle Distribution"]

  /** Reads a population back from its string literal; any other string is not a population. */
  function ParsePopulation(s: string): (r: Option<Population>)
    ensures r.Some? <==> s in ImplementedPop
    ensures r.Some? ==> PopulationName(r.value) == s
  {
    if s == "SE" then Some(SE)
    else if s == "EBE" then Some(EBE)
    else if s == "IBE" then Some(IBE)
    else if s == "all" then Some(All)
    else None
  }

  /** Reads a data kind back from its string literal. */
  function ParseKind(s: string): (r: Option<DataKind>)
    ensures r.Some? <==> s in ImplementedEmissionData
    ensures r.Some? ==> KindName(r.value) == s
  {
    if s == "Emission Yield" then Some(EmissionYield)
    else if s == "Emission Energy" then Some(EmissionEnergy)
    else if s == "Emission Angle" then Some(EmissionAngle)
    else None
  }

  /** IMPLEMENTED_POP lists every population once, in the order SE, EBE, IBE, all. */
  lemma ImplementedPopEnumeratesPopulations()
    ensures |ImplementedPop| == 4
    ensures forall i :: 0 <= i < 4 ==> ImplementedPop[i] == PopulationName(AllPopulations[i])
    ensures forall i, j :: 0 <= i < j < 4 ==> ImplementedPop[i] != ImplementedPop[j]
    ensures forall p: Population :: p in AllPopulations
  {
    forall p: Population ensures p in AllPopulations {
      match p
      case SE => assert AllPopulations[0] == p;
      case EBE => assert AllPopulations[1] == p;
      case IBE => assert AllPopulations[2] == p;
      case All => assert AllPopulations[3] == p;
    }
  }

  /** IMPLEMENTED_EMISSION_DATA lists every data kind once, in the order yield, energy, angle. */
  lemma ImplementedEmissionDataEnumeratesKinds()
    ensures |ImplementedEmissionData| == 3
    ensures forall i :: 0 <= i < 3 ==> ImplementedEmissionData[i] == KindName(AllKinds[i])
    ensures forall i, j :: 0 <= i < j < 3 ==> ImplementedEmissionData[i] != ImplementedEmissionData[j]
    ensures forall k: DataKind :: k in AllKinds
  {
    forall k: DataKind ensures k in AllKinds {
      match k
      case EmissionYield => assert AllKinds[0] == k;
      case EmissionEnergy => assert AllKinds[1] == k;
      case EmissionAngle => assert AllKinds[2] == k;
    }
  }

  /** Names and parsing are inverse: no two populations (kinds) share a literal. */
  lemma NamesRoundTrip(p: Population, k: DataKind)
    ensures ParsePopulation(PopulationName(p)) == Some(p)
    ensures ParseKind(KindName(k)) == Some(k)
  {
  }

  /** The energy column is literally "Energy [eV]" and the normal-incidence column "0.0 [deg]". */
  lemma ColumnLiterals()
    ensures ColEnergy == ['E', 'n', 'e', 'r', 'g', 'y', ' ', '[', 'e', 'V', ']']
    ensures ColNormal == ['0', '.', '0', ' ', '[', 'd', 'e', 'g', ']']
    ensures ColEnergy != ColNormal
  {
  }

  /** Every population has a yield label and an energy-distribution label, and every kind a y label. */
  lemma LabelTablesAreTotal()
    ensures forall p: Population :: PopulationName(p) in MdEy && PopulationName(p) in MdEnergyDistrib
    ensures MdEy.Keys == MdEnergyDistrib.Keys == set p | p in ImplementedPop
    ensures forall k: DataKind :: KindName(k) in MdYlabel
    ensures MdYlabel.Keys == set k | k in ImplementedEmissionData
  {
  }
}
