/**
 * The design record: the dictionary a caller passes to the orchestrator, which the
 * load calculator completes in place and the member checkers read.
 *
 * Numeric sections (dimensions, loads, reinforcement) are maps from key to number,
 * as in the source, so a checker that reads a key the calculator did not write sees
 * the checker's own default. An absent section is `None`; reading it raises.
 */
module DesignData {
  import opened Numerics

  type Fields = map<string, real>

  datatype MemberType = Beam | Column | Slab | Footing

  function MemberName(t: MemberType): string {
    match t
    case Beam => "beam"
    case Column => "column"
    case Slab => "slab"
    case Footing => "footing"
  }

  /** The dispatch key comparison: only the four exact lower-case names are recognised. */
  function MemberTypeOf(name: string): (r: Option<MemberType>)
    ensures r.Some? ==> MemberName(r.value) == name
    ensures r.None? ==> forall t :: MemberName(t) != name
  {
    if name == "beam" then Some(Beam)
    else if name == "column" then Some(Column)
    else if name == "slab" then Some(Slab)
    else if name == "footing" then Some(Footing)
    else None
  }

  /** `building_parameters`: every key may be absent. */
  datatype BuildingParams = BuildingParams(
    use: Option<string>,
    numFloors: Option<real>,
    floorHeight: Option<real>,
    slabThickness: Option<real>,
    tributaryArea: Option<real>,
    tributaryWidth: Option<real>,
    wallLoad: Option<real>,
    windAreaPerColumn: Option<real>)

  /** `wind_parameters`: every key may be absent; all absent is the empty (falsy) dict. */
  datatype WindParams = WindParams(zone: Option<string>, terrain: Option<int>, importance: Option<real>) {
    predicate IsEmpty() {
      zone.None? && terrain.None? && importance.None?
    }
  }

  /** The dictionary `calculate_wind_load` returns (`unit` omitted). */
  datatype WindCalc = WindCalc(
    basicSpeed: real, k2: real, k3: real, designSpeed: real, pressure: real, height: real, zone: string)

  /** The dictionaries `calculate_self_weight` returns, one shape per member type. */
  datatype SelfWeightCalc =
    | BeamWeight(volume: real, total: real, udl: real)
    | ColumnWeight(volume: real, total: real)
    | SlabWeight(area: real, volume: real, total: real, perArea: real)
    | FootingWeight(volume: real, total: real)

  /**
   * `calculate_superimposed_dead_load`: for a beam or slab, the named entries in insertion
   * order and their sum `total_sidl`; for a column or footing the empty dictionary, which
   * has no `total_sidl` key at all.
   */
  datatype SidlCalc = Sidl(entries: seq<(string, real)>, total: real) | NoSidl
  {
    /** `sidl.get('total_sidl', default)`. */
    function TotalOr(default: real): (r: real)
      ensures Sidl? ==> r == total
      ensures NoSidl? ==> r == default
    {
      if Sidl? then total else default
    }
  }

  /** `calculate_live_load`: the value and the key it is stored under. */
  datatype LiveLoadCalc = LiveLoadCalc(key: string, value: real)

  /** `calculate_column_axial_load` (kN). */
  datatype ColumnLoadCalc = ColumnLoadCalc(
    columnSelfWeight: real, deadLoadFromFloors: real, totalDeadLoad: real, totalLiveLoad: real,
    totalWindLoad: real, combination1: real, combination2: real, combination3: real,
    criticalAxialLoad: real, windPressure: real, numFloors: real, tributaryArea: real)

  /** `calculate_beam_loads` (kN/m). */
  datatype BeamLoadCalc = BeamLoadCalc(
    beamSelfWeight: real, slabDeadLoad: real, slabLiveLoad: real, wallLoad: real,
    totalDeadLoad: real, totalLiveLoad: real, factoredLoad: real, tributaryWidth: real)

  /** `load_calculations`, the audit block `auto_calculate_loads` writes per member type. */
  datatype LoadAudit =
    | ColumnAudit(column: ColumnLoadCalc)
    | BeamAudit(beam: BeamLoadCalc)
    | SlabAudit(selfWeight: SelfWeightCalc, sidl: SidlCalc, liveLoad: LiveLoadCalc)
    | FootingAudit(
        deadLoadPerFloor: real, liveLoadPerFloor: real, totalDeadLoad: real, totalLiveLoad: real,
        footingSelfWeight: real, numFloors: real, tributaryArea: real)

  /** The four sections a member checker reads. */
  datatype MemberData = MemberData(
    dimensions: Option<Fields>,
    loads: Option<Fields>,
    materials: Option<map<string, string>>,
    reinforcement: Option<Fields>)
  {
    /** A checker raises KeyError unless all four sections are present. */
    predicate Complete() {
      dimensions.Some? && loads.Some? && materials.Some? && reinforcement.Some?
    }
  }

  /** `section.get(key, default)` on a section that may itself be absent. */
  function Read(section: Option<Fields>, key: string, default: real): real {
    if section.None? then default else Get(section.value, key, default)
  }

  function ReadGrade(materials: Option<map<string, string>>, key: string, default: string): string {
    if materials.None? then default else Get(materials.value, key, default)
  }

  /** A value snapshot of the whole design record. */
  datatype DesignInput = DesignInput(
    memberType: Option<string>,
    autoCalculate: Option<bool>,
    member: MemberData,
    building: BuildingParams,
    wind: WindParams,
    loadCalculations: Option<LoadAudit>,
    windCalculations: Option<WindCalc>)

  /** The design record as the mutable dictionary the source passes around. */
  class DesignRecord {
    var memberType: Option<string>
    var autoCalculate: Option<bool>
    var dimensions: Option<Fields>
    var loads: Option<Fields>
    var materials: Option<map<string, string>>
    var reinforcement: Option<Fields>
    var building: BuildingParams
    var wind: WindParams
    var loadCalculations: Option<LoadAudit>
    var windCalculations: Option<WindCalc>

    constructor (input: DesignInput)
      ensures Snapshot() == input
    {
      memberType := input.memberType;
      autoCalculate := input.autoCalculate;
      dimensions := input.member.dimensions;
      loads := input.member.loads;
      materials := input.member.materials;
      reinforcement := input.member.reinforcement;
      building := input.building;
      wind := input.wind;
      loadCalculations := input.loadCalculations;
      windCalculations := input.windCalculations;
    }

    function Member(): MemberData
      reads this
    {
      MemberData(dimensions, loads, materials, reinforcement)
    }

    function Snapshot(): DesignInput
      reads this
    {
      DesignInput(memberType, autoCalculate, Member(), building, wind, loadCalculations, windCalculations)
    }
  }
}
