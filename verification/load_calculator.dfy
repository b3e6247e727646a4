/**
 * The automatic load calculator of IS 875 Parts 1-3: material, live-load and wind-speed
 * tables, self-weight, superimposed dead load, live load, wind pressure, column and
 * beam load aggregation, and `auto_calculate_loads`, which completes a design record
 * in place.
 */
module LoadCalculator {
  import opened Numerics
  import opened DesignData

  /** `MATERIAL_DENSITIES` (kN/m³), IS 875 Part 1. */
  const MaterialDensities: map<string, real> := map[
    "concrete" := 25.0, "brick_masonry" := 19.0, "stone_masonry" := 24.0, "steel" := 78.5,
    "timber" := 6.0, "plaster" := 20.0, "flooring" := 23.0, "waterproofing" := 1.5]

  /** `LIVE_LOADS` (kN/m²), IS 875 Part 2. */
  const LiveLoads: map<string, real> := map[
    "residential" := 2.0, "office" := 3.0, "retail" := 4.0, "industrial" := 5.0,
    "warehouse" := 7.5, "parking" := 2.5, "corridor" := 3.0, "stairs" := 3.0,
    "terrace" := 1.5, "roof" := 0.75]

  /** `WIND_SPEEDS` (m/s), IS 875 Part 3. */
  const WindSpeeds: map<string, real> := map[
    "zone_1" := 39.0, "zone_2" := 44.0, "zone_3" := 47.0, "zone_4" := 50.0,
    "zone_5" := 55.0, "zone_6" := 60.0]

  /** Density of a material; an unknown material is taken as concrete. */
  function Density(material: string): (rho: real)
    ensures material !in MaterialDensities ==> rho == 25.0
    ensures 1.5 <= rho <= 78.5
  {
    Get(MaterialDensities, material, 25.0)
  }

  // ---------------------------------------------------------------------------
  // Self-weight

  /** Member dimensions converted from mm to m, missing ones read as 0. */
  function Metres(dims: Fields, key: string): real {
    Get(dims, key, 0.0) / 1000.0
  }

  /**
   * `calculate_self_weight`: the dictionary of one shape per member type. Only the
   * beam divides (by its length), so a beam of length 0 raises.
   */
  function SelfWeight(t: MemberType, dims: Fields, material: string): (r: Option<SelfWeightCalc>)
    ensures r.None? <==> t == Beam && Get(dims, "length", 0.0) == 0.0
    ensures r.Some? ==> match t
      case Beam => r.value.BeamWeight?
      case Column => r.value.ColumnWeight?
      case Slab => r.value.SlabWeight?
      case Footing => r.value.FootingWeight?
  {
    var length, breadth, depth := Metres(dims, "length"), Metres(dims, "breadth"), Metres(dims, "depth");
    var density := Density(material);
    match t
    case Beam =>
      var volume := breadth * depth * length;
      var selfWeight := volume * density;
      var udl :- Div(selfWeight, length);
      Some(BeamWeight(volume, selfWeight, udl))
    case Column =>
      var volume := breadth * depth * length;
      Some(ColumnWeight(volume, volume * density))
    case Slab =>
      var area := length * breadth;
      var volume := area * depth;
      Some(SlabWeight(area, volume, volume * density, density * depth))
    case Footing =>
      var volume := length * breadth * depth;
      Some(FootingWeight(volume, volume * density))
  }

  /** A concrete slab weighs 25 kN/m³ times its `depth` dimension (in metres) per m² of plan. */
  lemma ConcreteSlabPerArea(dims: Fields)
    ensures SelfWeight(Slab, dims, "concrete").Some?
    ensures SelfWeight(Slab, dims, "concrete").value.SlabWeight?
    ensures SelfWeight(Slab, dims, "concrete").value.perArea == Get(dims, "depth", 0.0) / 1000.0 * 25.0
  {
    assert Density("concrete") == 25.0;
  }

  /** A beam's self-weight per metre is its cross-section times the density, whatever its length. */
  lemma BeamSelfWeightPerMetre(dims: Fields, material: string)
    requires Get(dims, "length", 0.0) != 0.0
    ensures SelfWeight(Beam, dims, material).Some?
    ensures SelfWeight(Beam, dims, material).value.udl
         == Metres(dims, "breadth") * Metres(dims, "depth") * Density(material)
  {
    var length, breadth, depth := Metres(dims, "length"), Metres(dims, "breadth"), Metres(dims, "depth");
    var rho := Density(material);
    var udl := SelfWeight(Beam, dims, material).value.udl;
    assert udl * length == breadth * depth * length * rho;
    assert (udl - breadth * depth * rho) * length == 0.0;
    CancelNonZero(udl - breadth * depth * rho, length);
  }

  /** A slab's self-weight per square metre is density times thickness. */
  lemma SlabSelfWeightPerArea(dims: Fields, material: string)
    ensures SelfWeight(Slab, dims, material).value.perArea == Density(material) * Metres(dims, "depth")
    ensures SelfWeight(Slab, dims, material).value.total
         == SelfWeight(Slab, dims, material).value.area * SelfWeight(Slab, dims, material).value.perArea
  {
    var length, breadth, depth := Metres(dims, "length"), Metres(dims, "breadth"), Metres(dims, "depth");
    assert length * breadth * depth * Density(material) == length * breadth * (Density(material) * depth);
  }

  // ---------------------------------------------------------------------------
  // Superimposed dead load

  /** Partition allowance (kN/m²) by building use. */
  function PartitionLoad(use: string): (r: real)
    ensures r == 1.0 || r == 1.5
    ensures r == 1.5 <==> use == "retail" || use == "industrial"
  {
    if use == "residential" || use == "office" then 1.0
    else if use == "retail" || use == "industrial" then 1.5
    else 1.0
  }

  /** The named SIDL entries in the order the dictionary is filled. */
  function SidlEntries(use: string, includePartition: bool, includeFinishes: bool): seq<(string, real)> {
    (if includeFinishes then [("floor_finish", 1.0), ("ceiling_finish", 0.5), ("waterproofing", 0.3)] else [])
    + (if includePartition then [("partition_walls", PartitionLoad(use))] else [])
    + [("mep_services", 0.5)]
  }

  /** `sum(loads.values())` over the entries filled so far. */
  function SumOf(entries: seq<(string, real)>): real {
    if entries == [] then 0.0 else SumOf(entries[..|entries| - 1]) + entries[|entries| - 1].1
  }

  /** The SIDL total as the source's constants add up: finishes 1.0 + 0.5 + 0.3, partitions, services 0.5. */
  function SidlSum(use: string, includePartition: bool, includeFinishes: bool): real {
    (if includeFinishes then 1.0 + 0.5 + 0.3 else 0.0) + (if includePartition then PartitionLoad(use) else 0.0) + 0.5
  }

  /** `calculate_superimposed_dead_load`: the empty dictionary, without `total_sidl`, for columns and footings. */
  function SidlOf(t: MemberType, use: string, includePartition: bool, includeFinishes: bool): SidlCalc {
    if t == Beam || t == Slab then
      Sidl(SidlEntries(use, includePartition, includeFinishes), SidlSum(use, includePartition, includeFinishes))
    else NoSidl
  }

  method SuperimposedDeadLoad(t: MemberType, use: string, includePartition: bool, includeFinishes: bool)
    returns (r: SidlCalc)
    ensures r == SidlOf(t, use, includePartition, includeFinishes)
    ensures r.Sidl? <==> t == Beam || t == Slab
    ensures r.Sidl? ==> r.entries == SidlEntries(use, includePartition, includeFinishes) && r.total == SumOf(r.entries)
  {
    r := NoSidl;
    if t == Beam || t == Slab {
      var loads: seq<(string, real)> := [];
      if includeFinishes {
        loads := loads + [("floor_finish", 1.0), ("ceiling_finish", 0.5), ("waterproofing", 0.3)];
      }
      if includePartition {
        loads := loads + [("partition_walls", PartitionLoad(use))];
      }
      loads := loads + [("mep_services", 0.5)];
      assert loads == SidlEntries(use, includePartition, includeFinishes);
      var total := Total(loads);
      SidlTotal(t, use, includePartition, includeFinishes);
      r := Sidl(loads, total);
    }
  }

  /** `sum(loads.values())`, accumulated entry by entry. */
  method Total(loads: seq<(string, real)>) returns (total: real)
    ensures total == SumOf(loads)
  {
    total := 0.0;
    var i := 0;
    while i < |loads|
      invariant 0 <= i <= |loads|
      invariant total == SumOf(loads[..i])
    {
      assert loads[..i + 1][..i] == loads[..i];
      total := total + loads[i].1;
      i := i + 1;
    }
    assert loads[..i] == loads;
  }

  lemma {:induction false} SumOfConcat(xs: seq<(string, real)>, ys: seq<(string, real)>)
    ensures SumOf(xs + ys) == SumOf(xs) + SumOf(ys)
  {
    if ys == [] {
      assert xs + ys == xs;
    } else {
      assert (xs + ys)[..|xs + ys| - 1] == xs + ys[..|ys| - 1];
      SumOfConcat(xs, ys[..|ys| - 1]);
    }
  }

  /**
   * `total_sidl` is the sum of the entries filled before it: for a beam or slab 1.8 for
   * finishes (when included), plus the partition allowance (when included), plus 0.5 for
   * services, so it lies in [0.5, 3.8]. A column or footing gets no dictionary entries at
   * all, so `total_sidl` is absent and `.get('total_sidl', d)` yields the default `d`.
   */
  lemma SidlTotal(t: MemberType, use: string, includePartition: bool, includeFinishes: bool)
    ensures SidlOf(t, use, includePartition, includeFinishes).Sidl? <==> t == Beam || t == Slab
    ensures t == Beam || t == Slab ==>
      && SidlOf(t, use, includePartition, includeFinishes).total
         == SumOf(SidlOf(t, use, includePartition, includeFinishes).entries)
      && SidlOf(t, use, includePartition, includeFinishes).total
         == (if includeFinishes then 1.8 else 0.0) + (if includePartition then PartitionLoad(use) else 0.0) + 0.5
      && 0.5 <= SidlOf(t, use, includePartition, includeFinishes).total <= 3.8
    ensures t == Column || t == Footing ==>
      SidlOf(t, use, includePartition, includeFinishes).TotalOr(2.0) == 2.0
  {
    var finishes: seq<(string, real)> :=
      if includeFinishes then [("floor_finish", 1.0), ("ceiling_finish", 0.5), ("waterproofing", 0.3)] else [];
    var partition: seq<(string, real)> :=
      if includePartition then [("partition_walls", PartitionLoad(use))] else [];
    var mep := [("mep_services", 0.5)];
    assert SidlEntries(use, includePartition, includeFinishes) == finishes + partition + mep;
    SumOfConcat(finishes + partition, mep);
    SumOfConcat(finishes, partition);
    if includeFinishes {
      assert finishes[..2][..1] == [("floor_finish", 1.0)];
      assert finishes[..2] == [("floor_finish", 1.0), ("ceiling_finish", 0.5)];
      assert SumOf(finishes[..2]) == 1.5;
      assert SumOf(finishes) == 1.8;
    }
    if includePartition {
      assert SumOf(partition) == PartitionLoad(use);
    }
    assert SumOf(mep) == 0.5;
  }

  // ---------------------------------------------------------------------------
  // Live load

  /** `calculate_live_load`: the table value (default 2.0) under a key that depends on the member. */
  function LiveLoad(t: MemberType, use: string): (r: LiveLoadCalc)
    ensures r.key == (if t == Column then "live_load_per_floor" else "live_load")
    ensures use !in LiveLoads ==> r.value == 2.0
    ensures 0.75 <= r.value <= 7.5
  {
    LiveLoadCalc(if t == Column then "live_load_per_floor" else "live_load", Get(LiveLoads, use, 2.0))
  }

  /** The live load does not depend on the member type; only the key it is reported under does. */
  lemma LiveLoadSameForEveryMember(t1: MemberType, t2: MemberType, use: string)
    ensures LiveLoad(t1, use).value == LiveLoad(t2, use).value
    ensures t1 != Column && t2 != Column ==> LiveLoad(t1, use) == LiveLoad(t2, use)
  {
  }

  /** `live_load_data.get('live_load', default)`. */
  function LiveValueOr(c: LiveLoadCalc, default: real): real {
    if c.key == "live_load" then c.value else default
  }

  // ---------------------------------------------------------------------------
  // Wind

  /** The terrain factor k2 at heights up to 10 m. */
  function TerrainBaseFactor(terrain: int): (k: real)
    ensures 0.80 <= k <= 1.05
  {
    if terrain == 1 then 1.05
    else if terrain == 2 then 1.00
    else if terrain == 3 then 0.91
    else 0.80
  }

  /** `calculate_wind_load`: design wind pressure `0.6·(vb·k2·k3)²/1000 · importance` (kN/m²). */
  function WindLoad(m: MathLib, height: real, zone: string, terrain: int, importance: real): (r: WindCalc)
    ensures 39.0 <= r.basicSpeed <= 60.0
    ensures zone !in WindSpeeds ==> r.basicSpeed == 44.0
    ensures height <= 10.0 ==> r.k2 == TerrainBaseFactor(terrain)
    ensures r.k3 == 1.0 && r.height == height && r.zone == zone
    ensures importance >= 0.0 ==> r.pressure >= 0.0
  {
    var vb := Get(WindSpeeds, zone, 44.0);
    var base := TerrainBaseFactor(terrain);
    var k2 := if height <= 10.0 then base else base * m.pow015(height / 10.0);
    var k3 := 1.0;
    var vz := vb * k2 * k3;
    var pz := 0.6 * Square(vz) / 1000.0;
    assert importance >= 0.0 ==> pz * importance >= 0.0 by {
      SquareNonNegative(vz);
      if importance >= 0.0 {
        MulMonotone(0.0, pz, importance);
      }
    }
    WindCalc(vb, k2, k3, vz, pz * importance, height, zone)
  }

  /** Above 10 m the height factor never drops below its base value. */
  lemma WindHeightFactorAtLeastBase(m: MathLib, height: real, zone: string, terrain: int, importance: real)
    requires Lawful(m)
    ensures WindLoad(m, height, zone, terrain, importance).k2 >= TerrainBaseFactor(terrain)
  {
    if height > 10.0 {
      var r := height / 10.0;
      assert r >= 1.0;
      MulMonotone(1.0, m.pow015(r), TerrainBaseFactor(terrain));
    }
  }

  /** The design pressure is linear in the importance factor. */
  lemma WindPressureLinear(m: MathLib, height: real, zone: string, terrain: int, importance: real)
    ensures WindLoad(m, height, zone, terrain, importance).pressure
         == WindLoad(m, height, zone, terrain, 1.0).pressure * importance
  {
  }

  // ---------------------------------------------------------------------------
  // Column and beam load aggregation

  /** `MATERIAL_DENSITIES['concrete'] * (slab_thickness / 1000)`: slab self-weight per m². */
  function SlabSelfWeight(thicknessMm: real): real {
    25.0 * (thicknessMm / 1000.0)
  }

  /** Dead and live load one floor brings to a column or beam, per m² (slab self-weight plus SIDL, live). */
  function FloorDeadLoad(building: BuildingParams): real {
    var use := building.use.GetOr("residential");
    SlabSelfWeight(building.slabThickness.GetOr(150.0)) + SidlOf(Slab, use, true, true).TotalOr(2.0)
  }

  function FloorLiveLoad(building: BuildingParams): real {
    LiveValueOr(LiveLoad(Slab, building.use.GetOr("residential")), 2.0)
  }

  /** The wind part of `calculate_column_axial_load`: zero pressure and load without wind data. */
  function ColumnWind(m: MathLib, dims: Fields, building: BuildingParams, wind: WindParams): (r: (real, real))
    ensures wind.IsEmpty() ==> r == (0.0, 0.0)
  {
    if wind.IsEmpty() then (0.0, 0.0)
    else
      var height := Get(dims, "length", 3000.0) / 1000.0;
      var pressure := WindLoad(m, height, wind.zone.GetOr("zone_2"), wind.terrain.GetOr(2), 1.0).pressure;
      (pressure, pressure * building.windAreaPerColumn.GetOr(15.0))
  }

  /** `calculate_column_axial_load`, with the building and wind dictionaries it is given. */
  function ColumnAxialLoad(m: MathLib, dims: Fields, building: BuildingParams, wind: WindParams): ColumnLoadCalc {
    ColumnLoadsWith(SelfWeight(Column, dims, "concrete").value.total, building, ColumnWind(m, dims, building, wind))
  }

  /** The column totals and combinations, given the column's self-weight and its wind pressure and load. */
  function ColumnLoadsWith(selfWeight: real, building: BuildingParams, wind: (real, real)): ColumnLoadCalc {
    var numFloors := building.numFloors.GetOr(1.0);
    var area := building.tributaryArea.GetOr(20.0);
    var deadPerFloor := FloorDeadLoad(building) * area;
    var livePerFloorTotal := FloorLiveLoad(building) * area;
    var totalDead := selfWeight + deadPerFloor * numFloors;
    var totalLive := livePerFloorTotal * numFloors;
    var c1 := 1.5 * (totalDead + totalLive);
    var c2 := 1.2 * (totalDead + totalLive + wind.1);
    var c3 := 1.5 * (totalDead + 0.25 * totalLive + wind.1);
    ColumnLoadCalc(
      selfWeight, deadPerFloor * numFloors, totalDead, totalLive, wind.1,
      c1, c2, c3, Max(c1, Max(c2, c3)), wind.0, numFloors, area)
  }

  /**
   * The critical axial load is the largest of the three IS 1893 combinations, and one of
   * them; without wind data there is no wind pressure and no wind load.
   */
  lemma ColumnCombinations(selfWeight: real, building: BuildingParams, wind: (real, real))
    ensures var r := ColumnLoadsWith(selfWeight, building, wind);
            && r.combination1 == 1.5 * (r.totalDeadLoad + r.totalLiveLoad)
            && r.combination2 == 1.2 * (r.totalDeadLoad + r.totalLiveLoad + r.totalWindLoad)
            && r.combination3 == 1.5 * (r.totalDeadLoad + 0.25 * r.totalLiveLoad + r.totalWindLoad)
            && r.criticalAxialLoad >= r.combination1 && r.criticalAxialLoad >= r.combination2
            && r.criticalAxialLoad >= r.combination3
            && (r.criticalAxialLoad == r.combination1 || r.criticalAxialLoad == r.combination2
                || r.criticalAxialLoad == r.combination3)
            && r.totalDeadLoad == r.columnSelfWeight + r.deadLoadFromFloors
  {
  }

  /**
   * Column totals: floors times tributary area times the per-square-metre loads, where
   * the dead load per m² is the slab self-weight `25·t/1000` plus the SIDL total.
   */
  lemma ColumnTotals(selfWeight: real, building: BuildingParams, wind: (real, real))
    ensures var r := ColumnLoadsWith(selfWeight, building, wind);
            && r.deadLoadFromFloors == FloorDeadLoad(building) * r.tributaryArea * r.numFloors
            && r.totalLiveLoad == FloorLiveLoad(building) * r.tributaryArea * r.numFloors
            && r.columnSelfWeight == selfWeight
            && r.windPressure == wind.0 && r.totalWindLoad == wind.1
  {
  }

  /** Per m², a floor brings the slab self-weight `25·t/1000` plus the SIDL total, and the table live load. */
  lemma FloorLoads(building: BuildingParams)
    ensures FloorDeadLoad(building)
         == 25.0 * (building.slabThickness.GetOr(150.0) / 1000.0)
            + SidlOf(Slab, building.use.GetOr("residential"), true, true).TotalOr(2.0)
    ensures FloorLiveLoad(building) == LiveLoad(Slab, building.use.GetOr("residential")).value
  {
  }

  /**
   * Without wind, and with non-negative dead and live loads, the governing combination
   * is 1.5(DL + LL).
   */
  lemma ColumnNoWindGovernedByFirstCombination(m: MathLib, dims: Fields, building: BuildingParams, wind: WindParams)
    requires wind.IsEmpty()
    requires ColumnAxialLoad(m, dims, building, wind).totalDeadLoad >= 0.0
    requires ColumnAxialLoad(m, dims, building, wind).totalLiveLoad >= 0.0
    ensures ColumnAxialLoad(m, dims, building, wind).criticalAxialLoad
         == 1.5 * (ColumnAxialLoad(m, dims, building, wind).totalDeadLoad
                   + ColumnAxialLoad(m, dims, building, wind).totalLiveLoad)
  {
  }

  /** `calculate_beam_loads` (kN/m); a beam of length 0 raises in its self-weight. */
  function BeamLoads(dims: Fields, loading: BuildingParams): (r: Option<BeamLoadCalc>)
    ensures r.None? <==> Get(dims, "length", 0.0) == 0.0
    ensures r.Some? ==> r.value.totalDeadLoad == r.value.beamSelfWeight + r.value.slabDeadLoad + r.value.wallLoad
    ensures r.Some? ==> r.value.totalLiveLoad == r.value.slabLiveLoad
    ensures r.Some? ==> r.value.factoredLoad == 1.5 * (r.value.totalDeadLoad + r.value.totalLiveLoad)
  {
    var selfWeight :- SelfWeight(Beam, dims, "concrete");
    var tributaryWidth := loading.tributaryWidth.GetOr(3.0);
    var use := loading.use.GetOr("residential");
    var slabSw := SlabSelfWeight(loading.slabThickness.GetOr(150.0));
    var slabDead := (slabSw + SidlOf(Slab, use, true, true).TotalOr(2.0)) * tributaryWidth;
    var slabLive := LiveValueOr(LiveLoad(Slab, use), 2.0) * tributaryWidth;
    var wallLoad := loading.wallLoad.GetOr(0.0);
    var totalDead := selfWeight.udl + slabDead + wallLoad;
    Some(BeamLoadCalc(selfWeight.udl, slabDead, slabLive, wallLoad, totalDead, slabLive,
                      1.5 * (totalDead + slabLive), tributaryWidth))
  }

  // ---------------------------------------------------------------------------
  // auto_calculate_loads

  /** The `setdefault` calls on `building_parameters` (an absent or empty dict gets the same values). */
  function WithBuildingDefaults(b: BuildingParams): (r: BuildingParams)
    ensures r.use.Some? && r.numFloors.Some? && r.floorHeight.Some? && r.slabThickness.Some?
    ensures r.tributaryArea.Some? && r.tributaryWidth.Some? && r.wallLoad.Some?
    ensures b.use.Some? ==> r.use == b.use
    ensures b.numFloors.Some? ==> r.numFloors == b.numFloors
    ensures b.floorHeight.Some? ==> r.floorHeight == b.floorHeight
    ensures b.slabThickness.Some? ==> r.slabThickness == b.slabThickness
    ensures b.tributaryArea.Some? ==> r.tributaryArea == b.tributaryArea
    ensures b.tributaryWidth.Some? ==> r.tributaryWidth == b.tributaryWidth
    ensures b.wallLoad.Some? ==> r.wallLoad == b.wallLoad
    ensures r.windAreaPerColumn == b.windAreaPerColumn
  {
    BuildingParams(
      SetDefault(b.use, "residential"),
      SetDefault(b.numFloors, 1.0),
      SetDefault(b.floorHeight, 3.0),
      SetDefault(b.slabThickness, 150.0),
      SetDefault(b.tributaryArea, 20.0),
      SetDefault(b.tributaryWidth, 3.0),
      SetDefault(b.wallLoad, 0.0),
      b.windAreaPerColumn)
  }

  /** The `setdefault` calls on `wind_parameters`. */
  function WithWindDefaults(w: WindParams): (r: WindParams)
    ensures r.zone.Some? && r.terrain.Some? && r.importance.Some?
    ensures !r.IsEmpty()
    ensures w.zone.Some? ==> r.zone == w.zone
    ensures w.terrain.Some? ==> r.terrain == w.terrain
    ensures w.importance.Some? ==> r.importance == w.importance
    ensures w.IsEmpty() ==> r == WindParams(Some("zone_2"), Some(2), Some(1.0))
  {
    WindParams(SetDefault(w.zone, "zone_2"), SetDefault(w.terrain, 2), SetDefault(w.importance, 1.0))
  }

  lemma DefaultsIdempotent(b: BuildingParams, w: WindParams)
    ensures WithBuildingDefaults(WithBuildingDefaults(b)) == WithBuildingDefaults(b)
    ensures WithWindDefaults(WithWindDefaults(w)) == WithWindDefaults(w)
  {
  }

  /** What `auto_calculate_loads` writes for one member type. */
  datatype AutoResult =
    | Written(loads: Fields, audit: LoadAudit, windCalc: WindCalc)
    | NothingWritten
    | Raised

  /** Wind load at a given height with the record's (defaulted) zone and terrain; importance is never passed. */
  function AutoWind(m: MathLib, height: real, w: WindParams): WindCalc {
    WindLoad(m, height, w.zone.GetOr("zone_2"), w.terrain.GetOr(2), 1.0)
  }

  /** The column branch of `auto_calculate_loads`. */
  function AutoColumn(dims: Fields, b: BuildingParams, w: WindParams, m: MathLib): AutoResult {
    var height := Get(dims, "length", 3000.0) / 1000.0;
    ColumnResult(ColumnAxialLoad(m, dims, b, w), height, AutoWind(m, height, w))
  }

  /** The column loads written from the axial-load calculation and the wind at the column's height. */
  function ColumnResult(results: ColumnLoadCalc, height: real, windCalc: WindCalc): AutoResult {
    var windMoment := windCalc.pressure * Square(height) / 6.0;
    Written(map["axial_load" := results.criticalAxialLoad, "moment" := Max(50.0, windMoment)],
            ColumnAudit(results), windCalc)
  }

  /** The beam branch: it raises when the beam's self-weight does (length 0). */
  function AutoBeam(dims: Fields, b: BuildingParams, w: WindParams, m: MathLib): AutoResult {
    match BeamLoads(dims, b)
    case None => Raised
    case Some(results) =>
      var windCalc := AutoWind(m, Get(dims, "depth", 600.0) / 1000.0, w);
      var windOnBeam := windCalc.pressure * (Get(dims, "breadth", 300.0) / 1000.0);
      Written(map["dead_load" := results.totalDeadLoad, "live_load" := results.totalLiveLoad,
                  "wind_load" := windOnBeam, "factored_load" := results.factoredLoad],
              BeamAudit(results), windCalc)
  }

  /** The slab branch: dead load per m² is self-weight plus SIDL; wind acts as uplift. */
  function AutoSlab(dims: Fields, b: BuildingParams, w: WindParams, m: MathLib): AutoResult {
    var use := b.use.GetOr("residential");
    SlabResult(SelfWeight(Slab, dims, "concrete").value, SidlOf(Slab, use, true, true), LiveLoad(Slab, use),
               AutoWind(m, b.floorHeight.GetOr(3.0) * b.numFloors.GetOr(1.0), w))
  }

  /** The slab loads written from the calculated self-weight, SIDL, live load and wind. */
  function SlabResult(selfWeight: SelfWeightCalc, sidl: SidlCalc, live: LiveLoadCalc, windCalc: WindCalc): AutoResult
    requires selfWeight.SlabWeight?
  {
    var uplift := -0.8 * windCalc.pressure;
    var dead := selfWeight.perArea + sidl.TotalOr(2.0);
    var liveValue := LiveValueOr(live, 2.0);
    Written(map["dead_load" := dead, "live_load" := liveValue, "wind_load" := uplift,
                "total_load" := dead + liveValue],
            SlabAudit(selfWeight, sidl, live), windCalc)
  }

  /** The footing branch: the column reaction of all floors plus the footing's own weight. */
  function AutoFooting(dims: Fields, b: BuildingParams, w: WindParams, m: MathLib): AutoResult {
    var numFloors := b.numFloors.GetOr(1.0);
    var height := b.floorHeight.GetOr(3.0) * numFloors;
    FootingResult(FloorDeadLoad(b), FloorLiveLoad(b), numFloors, b.tributaryArea.GetOr(20.0),
                  SelfWeight(Footing, dims, "concrete").value.total, height, AutoWind(m, height, w))
  }

  /** The footing loads written from the per-floor loads, the footing's weight and the building wind. */
  function FootingResult(deadPerFloor: real, livePerFloor: real, numFloors: real, area: real,
                         footingWeight: real, height: real, windCalc: WindCalc): AutoResult {
    var totalDead := deadPerFloor * area * numFloors;
    var totalLive := livePerFloor * area * numFloors;
    var windMoment := windCalc.pressure * (height * 10.0) * height / 2.0;
    Written(map["vertical_load" := totalDead + totalLive + footingWeight, "dead_load" := totalDead,
                "live_load" := totalLive, "wind_moment" := windMoment],
            FootingAudit(deadPerFloor, livePerFloor, totalDead, totalLive, footingWeight, numFloors, area),
            windCalc)
  }

  /** The branch of `auto_calculate_loads` for one member type, given its dimensions. */
  function AutoBranch(t: MemberType, dims: Fields, b: BuildingParams, w: WindParams, m: MathLib): AutoResult {
    match t
    case Column => AutoColumn(dims, b, w, m)
    case Beam => AutoBeam(dims, b, w, m)
    case Slab => AutoSlab(dims, b, w, m)
    case Footing => AutoFooting(dims, b, w, m)
  }

  /**
   * The member-type branches of `auto_calculate_loads`, given the defaulted parameters:
   * a supported member without dimensions raises (KeyError), any other name writes nothing.
   */
  function AutoLoads(memberType: string, dims: Option<Fields>, b: BuildingParams, w: WindParams, m: MathLib)
    : (r: AutoResult)
    ensures MemberTypeOf(memberType).None? ==> r == NothingWritten
    ensures MemberTypeOf(memberType).Some? && dims.None? ==> r == Raised
  {
    match MemberTypeOf(memberType)
    case None => NothingWritten
    case Some(t) => if dims.None? then Raised else AutoBranch(t, dims.value, b, w, m)
  }

  /** The record after `auto_calculate_loads`, and whether it raised. */
  datatype AutoOutcome = AutoOutcome(record: DesignInput, raised: bool)

  /**
   * `auto_calculate_loads(member_type, design_data)`: defaults are filled into the record
   * first (so they stay even when a later step raises), then the branch for the member
   * type replaces `loads` and writes `load_calculations` and `wind_calculations`.
   */
  function AutoCalculated(memberType: string, d: DesignInput, m: MathLib): AutoOutcome {
    var b := WithBuildingDefaults(d.building);
    var w := WithWindDefaults(d.wind);
    var filled := d.(building := b, wind := w);
    match AutoLoads(memberType, d.member.dimensions, b, w, m)
    case Written(loads, audit, windCalc) =>
      AutoOutcome(filled.(member := filled.member.(loads := Some(loads)),
                          loadCalculations := Some(audit), windCalculations := Some(windCalc)), false)
    case NothingWritten => AutoOutcome(filled, false)
    case Raised => AutoOutcome(filled, true)
  }

  method AutoCalculateLoads(memberType: string, rec: DesignRecord, m: MathLib) returns (raised: bool)
    modifies rec
    ensures AutoOutcome(rec.Snapshot(), raised) == AutoCalculated(memberType, old(rec.Snapshot()), m)
  {
    ghost var d := rec.Snapshot();
    var b, w := WithBuildingDefaults(rec.building), WithWindDefaults(rec.wind);
    rec.building := b;
    rec.wind := w;
    ghost var filled := d.(building := b, wind := w);
    assert rec.Snapshot() == filled;
    var result := AutoLoads(memberType, rec.dimensions, b, w, m);
    match result
    case Written(loads, audit, windCalc) =>
      rec.loads := Some(loads);
      rec.loadCalculations := Some(audit);
      rec.windCalculations := Some(windCalc);
      raised := false;
      assert rec.Snapshot() == filled.(member := filled.member.(loads := Some(loads)),
                                       loadCalculations := Some(audit), windCalculations := Some(windCalc));
    case NothingWritten =>
      raised := false;
    case Raised =>
      raised := true;
  }

  /**
   * Supplied parameters are never overwritten, the member sections other than `loads`
   * are never touched, and an unknown member type writes nothing at all.
   */
  lemma AutoCalculatedKeepsSupplied(memberType: string, d: DesignInput, m: MathLib)
    ensures var r := AutoCalculated(memberType, d, m).record;
            && r.memberType == d.memberType && r.autoCalculate == d.autoCalculate
            && r.member.dimensions == d.member.dimensions && r.member.materials == d.member.materials
            && r.member.reinforcement == d.member.reinforcement
            && (d.building.use.Some? ==> r.building.use == d.building.use)
            && (d.building.numFloors.Some? ==> r.building.numFloors == d.building.numFloors)
            && (d.wind.zone.Some? ==> r.wind.zone == d.wind.zone)
            && (d.wind.terrain.Some? ==> r.wind.terrain == d.wind.terrain)
            && (d.wind.importance.Some? ==> r.wind.importance == d.wind.importance)
    ensures MemberTypeOf(memberType).None? ==>
              && !AutoCalculated(memberType, d, m).raised
              && AutoCalculated(memberType, d, m).record.member == d.member
              && AutoCalculated(memberType, d, m).record.loadCalculations == d.loadCalculations
              && AutoCalculated(memberType, d, m).record.windCalculations == d.windCalculations
  {
  }

  /** It raises exactly when a supported member has no dimensions, or a beam has length 0. */
  lemma AutoCalculatedRaises(memberType: string, d: DesignInput, m: MathLib)
    ensures AutoCalculated(memberType, d, m).raised <==>
      && MemberTypeOf(memberType).Some?
      && (d.member.dimensions.None?
          || (memberType == "beam" && Get(d.member.dimensions.value, "length", 0.0) == 0.0))
  {
  }

  /** The auto column moment is at least 50 kNm; the axial load is the governing combination. */
  lemma AutoColumnLoads(d: DesignInput, m: MathLib)
    requires d.member.dimensions.Some?
    ensures var r := AutoCalculated("column", d, m).record;
            && r.member.loads.Some?
            && r.member.loads.value.Keys == {"axial_load", "moment"}
            && r.member.loads.value["moment"] >= 50.0
            && r.loadCalculations.Some? && r.loadCalculations.value.ColumnAudit?
            && r.member.loads.value["axial_load"] == r.loadCalculations.value.column.criticalAxialLoad
  {
    var b, w := WithBuildingDefaults(d.building), WithWindDefaults(d.wind);
    assert AutoLoads("column", d.member.dimensions, b, w, m) == AutoColumn(d.member.dimensions.value, b, w, m);
    ColumnAxialAndMoment(d.member.dimensions.value, b, w, m);
  }

  lemma ColumnAxialAndMoment(dims: Fields, b: BuildingParams, w: WindParams, m: MathLib)
    ensures AutoColumn(dims, b, w, m).Written?
    ensures var r := AutoColumn(dims, b, w, m);
            && r.loads.Keys == {"axial_load", "moment"} && r.loads["moment"] >= 50.0
            && r.audit.ColumnAudit? && r.loads["axial_load"] == r.audit.column.criticalAxialLoad
  {
    var height := Get(dims, "length", 3000.0) / 1000.0;
    ColumnResultLoads(ColumnAxialLoad(m, dims, b, w), height, AutoWind(m, height, w));
  }

  lemma ColumnResultLoads(results: ColumnLoadCalc, height: real, windCalc: WindCalc)
    ensures ColumnResult(results, height, windCalc).Written?
    ensures var r := ColumnResult(results, height, windCalc);
            && r.loads.Keys == {"axial_load", "moment"} && r.loads["moment"] >= 50.0
            && r.audit.ColumnAudit? && r.loads["axial_load"] == r.audit.column.criticalAxialLoad
  {
  }

  /**
   * The auto slab dead load is the slab's self-weight per m² plus its SIDL, and the
   * audit records both parts.
   */
  lemma AutoSlabDeadLoad(d: DesignInput, m: MathLib)
    requires d.member.dimensions.Some?
    ensures var r := AutoCalculated("slab", d, m).record;
            && r.member.loads.Some? && "dead_load" in r.member.loads.value
            && r.loadCalculations.Some? && r.loadCalculations.value.SlabAudit?
            && var audit := r.loadCalculations.value;
               && audit.selfWeight == SelfWeight(Slab, d.member.dimensions.value, "concrete").value
               && audit.selfWeight.SlabWeight?
               && r.member.loads.value["dead_load"] == audit.selfWeight.perArea + audit.sidl.TotalOr(2.0)
  {
    var b, w := WithBuildingDefaults(d.building), WithWindDefaults(d.wind);
    var dims := d.member.dimensions.value;
    assert AutoLoads("slab", d.member.dimensions, b, w, m) == AutoSlab(dims, b, w, m);
    var use := b.use.GetOr("residential");
    SlabResultAudit(SelfWeight(Slab, dims, "concrete").value, SidlOf(Slab, use, true, true), LiveLoad(Slab, use),
                    AutoWind(m, b.floorHeight.GetOr(3.0) * b.numFloors.GetOr(1.0), w));
  }

  lemma SlabResultAudit(selfWeight: SelfWeightCalc, sidl: SidlCalc, live: LiveLoadCalc, windCalc: WindCalc)
    requires selfWeight.SlabWeight?
    ensures SlabResult(selfWeight, sidl, live, windCalc).Written?
    ensures var r := SlabResult(selfWeight, sidl, live, windCalc);
            && "dead_load" in r.loads && r.audit == SlabAudit(selfWeight, sidl, live)
            && r.loads["dead_load"] == selfWeight.perArea + sidl.TotalOr(2.0)
  {
  }

  /** The auto slab wind load is an uplift (never positive) and its total is dead plus live. */
  lemma AutoSlabLoads(d: DesignInput, m: MathLib)
    requires d.member.dimensions.Some?
    ensures var r := AutoCalculated("slab", d, m).record;
            && r.member.loads.Some?
            && r.member.loads.value["wind_load"] <= 0.0
            && r.member.loads.value["total_load"]
               == r.member.loads.value["dead_load"] + r.member.loads.value["live_load"]
  {
    var b, w := WithBuildingDefaults(d.building), WithWindDefaults(d.wind);
    assert AutoLoads("slab", d.member.dimensions, b, w, m) == AutoSlab(d.member.dimensions.value, b, w, m);
    SlabUpliftAndTotal(d.member.dimensions.value, b, w, m);
  }

  lemma SlabUpliftAndTotal(dims: Fields, b: BuildingParams, w: WindParams, m: MathLib)
    ensures AutoSlab(dims, b, w, m).Written?
    ensures var loads := AutoSlab(dims, b, w, m).loads;
            && "wind_load" in loads && "total_load" in loads && "dead_load" in loads && "live_load" in loads
            && loads["wind_load"] <= 0.0
            && loads["total_load"] == loads["dead_load"] + loads["live_load"]
  {
    var height := b.floorHeight.GetOr(3.0) * b.numFloors.GetOr(1.0);
    var use := b.use.GetOr("residential");
    SlabResultLoads(SelfWeight(Slab, dims, "concrete").value, SidlOf(Slab, use, true, true), LiveLoad(Slab, use),
                    AutoWind(m, height, w));
  }

  lemma SlabResultLoads(selfWeight: SelfWeightCalc, sidl: SidlCalc, live: LiveLoadCalc, windCalc: WindCalc)
    requires selfWeight.SlabWeight? && windCalc.pressure >= 0.0
    ensures SlabResult(selfWeight, sidl, live, windCalc).Written?
    ensures var loads := SlabResult(selfWeight, sidl, live, windCalc).loads;
            && "wind_load" in loads && "total_load" in loads && "dead_load" in loads && "live_load" in loads
            && loads["wind_load"] <= 0.0
            && loads["total_load"] == loads["dead_load"] + loads["live_load"]
  {
  }

  /**
   * The auto footing loads carry the column reaction as `vertical_load` (dead + live +
   * footing self-weight), and no `axial_load` key.
   */
  lemma AutoFootingLoads(d: DesignInput, m: MathLib)
    requires d.member.dimensions.Some?
    ensures var r := AutoCalculated("footing", d, m).record;
            && r.member.loads.Some?
            && "axial_load" !in r.member.loads.value
            && r.member.loads.value["vertical_load"]
               == r.member.loads.value["dead_load"] + r.member.loads.value["live_load"]
                  + SelfWeight(Footing, d.member.dimensions.value, "concrete").value.total
  {
    var b, w := WithBuildingDefaults(d.building), WithWindDefaults(d.wind);
    assert AutoLoads("footing", d.member.dimensions, b, w, m) == AutoFooting(d.member.dimensions.value, b, w, m);
    FootingVerticalLoad(d.member.dimensions.value, b, w, m);
  }

  lemma FootingVerticalLoad(dims: Fields, b: BuildingParams, w: WindParams, m: MathLib)
    ensures AutoFooting(dims, b, w, m).Written?
    ensures var loads := AutoFooting(dims, b, w, m).loads;
            && "axial_load" !in loads && "vertical_load" in loads && "dead_load" in loads && "live_load" in loads
            && loads["vertical_load"] == loads["dead_load"] + loads["live_load"] + SelfWeight(Footing, dims, "concrete").value.total
  {
    var numFloors := b.numFloors.GetOr(1.0);
    var height := b.floorHeight.GetOr(3.0) * numFloors;
    FootingResultLoads(FloorDeadLoad(b), FloorLiveLoad(b), numFloors, b.tributaryArea.GetOr(20.0),
                       SelfWeight(Footing, dims, "concrete").value.total, height, AutoWind(m, height, w));
  }

  lemma FootingResultLoads(deadPerFloor: real, livePerFloor: real, numFloors: real, area: real,
                           footingWeight: real, height: real, windCalc: WindCalc)
    ensures FootingResult(deadPerFloor, livePerFloor, numFloors, area, footingWeight, height, windCalc).Written?
    ensures var loads := FootingResult(deadPerFloor, livePerFloor, numFloors, area, footingWeight, height, windCalc).loads;
            && "axial_load" !in loads && "vertical_load" in loads && "dead_load" in loads && "live_load" in loads
            && loads["vertical_load"] == loads["dead_load"] + loads["live_load"] + footingWeight
  {
  }

  /** The column wind part reads the wind dictionary only for its zone and terrain, and whether it is empty. */
  lemma ColumnWindKeys(m: MathLib, dims: Fields, building: BuildingParams, w1: WindParams, w2: WindParams)
    requires w1.zone == w2.zone && w1.terrain == w2.terrain && w1.IsEmpty() == w2.IsEmpty()
    ensures ColumnWind(m, dims, building, w1) == ColumnWind(m, dims, building, w2)
  {
  }

  /**
   * The wind calculation `auto_calculate_loads` makes reads only the zone and terrain:
   * the importance factor it fills into the record never reaches it.
   */
  lemma AutoWindIgnoresImportance(m: MathLib, height: real, w: WindParams, i: real)
    ensures AutoWind(m, height, w.(importance := Some(i))) == AutoWind(m, height, w)
    ensures WindLoad(m, height, w.zone.GetOr("zone_2"), w.terrain.GetOr(2), i).pressure
         == AutoWind(m, height, w).pressure * i
  {
    WindPressureLinear(m, height, w.zone.GetOr("zone_2"), w.terrain.GetOr(2), i);
  }
}
