# Structural compliance checker — a Dafny model

This project models the calculation core of a structural design checker for reinforced
concrete members to the Indian Standards IS 456:2000 (plain and reinforced concrete)
and IS 875 Parts 1–3 (dead, imposed and wind loads). A caller hands the entry point
`check_compliance` a design record. The record names a member type (beam, column, slab
or footing) and holds its dimensions, materials, reinforcement and, optionally, loads,
building parameters and wind parameters. The entry point:

1. lower-cases the member type;
2. fills in the loads with `auto_calculate_loads` when asked to, or when no loads are
   given. This writes defaults into the record, computes self-weight, superimposed dead
   load, live load, wind pressure and load combinations, and overwrites `loads` while
   keeping an audit of the calculation;
3. runs the member's checker, which returns an ordered set of pass/fail checks with
   their figures, an overall verdict and a design summary, or an error record when a
   step raises;
4. adds two fixed recommendations when a completed check did not pass, and attaches
   the load audit and calculated loads when the record has them.

`backend/api/check_code_new.py` is byte-for-byte the same file as
`backend/api/check_code.py`, so one module, `Orchestrator`, models both.

## Layout

| file | module | models |
|---|---|---|
| `numerics.dfy` | `Numerics` | Python arithmetic the checkers rely on: `/` that raises on a zero divisor (`Div` returns `None`), `int()` truncation, `dict.get`, `setdefault`, ASCII `str.lower`, bar areas. Transcendentals (`math.sqrt`, `math.pi`, `x**0.15`) are fields of a `MathLib` record; `Lawful` states the facts the proofs use. |
| `design_data.dfy` | `DesignData` | The design record: value types for every section and for each calculation's dictionary, and the mutable `DesignRecord` class that `auto_calculate_loads` and `check_compliance` update in place. |
| `compliance.dfy` | `Compliance` | A check (kind, limit, actual, pass), how each kind compares its figures, and the tail every checker shares: the overall verdict, the status string and the error record. |
| `formulas.dfy` | `Formulas` | `backend/utils/formulas.py`: grade tables, design moment and shear (both loops as methods), required steel, the τc table and shear capacity, the deflection ratio, the minimum and maximum steel checks. |
| `strip_design.dfy` | `StripDesign` | The required-steel formula the slab and footing checkers write inline, which branches on `k ≤ 0.138`. |
| `load_calculator.dfy` | `LoadCalculator` | `backend/utils/load_calculator.py`: the IS 875 tables, every calculation, and `auto_calculate_loads` as a method on the record, specified by the function `AutoCalculated`. |
| `beam_checker.dfy`, `column_checker.dfy`, `slab_checker.dfy`, `footing_checker.dfy` | `BeamChecker` … `FootingChecker` | The four member checkers. |
| `check_code.dfy` | `Orchestrator` | `check_compliance` as a method on the record, specified by the function `Respond`. |

A checker takes the four sections it reads (`MemberData`) and returns a `CheckResult`.
Each Python `try`/`except` becomes an `Option`: any division by zero, or a missing
section, gives `None`, and `Compliance.Finish` turns that into the error record. Every
checker's result is `WellFormed`. Its checks come in the order the Python dictionary is
filled. Each compared check's `pass` flag is exactly the comparison of its two reported
figures. `overall` is true iff every check passes, and `status` is `"PASS"` iff
`overall` is true.

Three properties of the code as written are proved and kept in the model (none is
changed):

- **Column loads are factored twice.** After auto-calculation the column is checked
  with the critical axial load, which is already a factored combination. The column
  checker then multiplies it by 1.5 again (`Orchestrator.AutoColumnFactoredTwice`,
  `ColumnChecker.CheckColumnDesignLoad`).
- **Slab self-weight is counted twice.** The auto slab dead load already contains the
  slab's self-weight, and the slab checker adds it again
  (`Orchestrator.AutoSlabSelfWeightTwice`).
- **Footings are checked with no axial load.** The auto footing loads carry the column
  reaction as `vertical_load`, but the footing checker reads `axial_load`, finds it
  absent and uses 0 (`Orchestrator.AutoFootingCarriesNoLoad`,
  `FootingChecker.UnloadedFootingReport`).

Three further facts the model exhibits:

- **The point-load accumulator compounds.** In `calculate_design_moment`, each point
  load adds `max(accumulator, its moment)`, so the total is never below plain
  superposition and can exceed it (`Formulas.PointMomentExceedsSuperposition`,
  `Formulas.PointMomentCompounds`).
- **The two steel formulas disagree near the limit.** The inline slab/footing rule
  and the library formula take different branches for `0.13796352 < k ≤ 0.138`
  (`StripDesign.InlineBranchDiffersFromLibrary`).
- **Shear capacity can fall as steel is added.** Above M20, going from no steel to a
  little steel lowers the capacity, because `pt` defaults to 0.15 only when there is no
  steel (`Formulas.ShearCapacityDropsAboveM20`).

## Model

| member | source | states |
|---|---|---|
| `Numerics.Div` | backend/utils/load_calculator.py:77 | A quotient exists iff the divisor is non-zero (Python raises ZeroDivisionError otherwise), and it multiplies back to the dividend. |
| `Numerics.Trunc` | backend/utils/beam_checker.py:65 | `int()` truncates toward zero: for x ≥ 0 the result n satisfies n ≤ x < n + 1, and for x < 0 it satisfies n − 1 < x ≤ n. |
| `Numerics.TruncMonotone` | backend/utils/column_checker.py:50 | A larger bar count read never truncates to fewer bars. |
| `Numerics.SetDefault` | backend/utils/load_calculator.py:438-444 | `setdefault` keeps a supplied value and fills only an absent one. |
| `Numerics.LowerChar` | backend/api/check_code.py:32 | A lower-cased character is not an upper-case ASCII letter; any other character is unchanged. |
| `Numerics.Lower` | backend/api/check_code.py:32 | `lower()` keeps the length, leaves no upper-case ASCII letter and changes no other character. |
| `Numerics.LowerIdempotent` | backend/api/check_code.py:32 | Lower-casing twice is lower-casing once. |
| `Numerics.BarAreaPositive` | backend/utils/beam_checker.py:66 | `π·(d/2)²` is positive for a non-zero bar diameter. |
| `Numerics.BarAreaNonNegative` | backend/utils/slab_checker.py:81 | `π·(d/2)²` is never negative. |
| `DesignData.MemberTypeOf` | backend/api/check_code.py:41-53 | Only the four exact lower-case names dispatch; the type found is the one whose name was given, and no type has a name that is not recognised. |
| `DesignData.DesignRecord.constructor` | backend/api/check_code.py:14 | A fresh record holds exactly the dictionary it was built from. |
| `Compliance.Assemble` | backend/utils/beam_checker.py:133-153 | `overall_compliance` is true iff every check passes; `status` is `"PASS"` iff it is true and `"FAIL"` otherwise; the summary and checks are reported as given. |
| `Compliance.Finish` | backend/utils/beam_checker.py:155-159 | A checker returns its error record exactly when a step raised, with its own member type; otherwise it returns the assembled result. |
| `Formulas.ConcreteFck` | backend/utils/formulas.py:12-15 | An unknown grade reads as M20 (fck = 20); every fck lies in [15, 60]. |
| `Formulas.SteelFy` | backend/utils/formulas.py:18-20 | An unknown grade reads as Fe500; every fy lies in [415, 600]. |
| `Formulas.DesignMoment` | backend/utils/formulas.py:53-75 | The loop computes `wu·L²/8` plus the point-load accumulator; with no point loads it is `wu·L²/8`; it raises iff there are point loads on a zero span. |
| `Formulas.PointMomentExceedsSuperposition` | backend/utils/formulas.py:69-73 | The accumulator is never below the plain sum of the point-load moments `P·a·b/L`. |
| `Formulas.PointMomentCompounds` | backend/utils/formulas.py:69-73 | Three loads of moment 10 each give 40, not the superposed 30. |
| `Formulas.DesignShear` | backend/utils/formulas.py:77-98 | The loop computes `wu·L/2` plus half of every point load; with none it is `wu·L/2`. |
| `Formulas.PointShearConcat` | backend/utils/formulas.py:93-96 | The point-load shear of two lists of loads is the sum of their shears. |
| `Formulas.DesignShearAddsHalfLoad` | backend/utils/formulas.py:93-98 | Inserting a point load anywhere adds exactly half its magnitude, wherever on the span it stands. |
| `Formulas.MomentInNmm` | backend/utils/formulas.py:115-116 | A moment below 1000 is scaled by 10⁶ (taken as kNm); any other moment is left as given. |
| `Formulas.LimitingMomentClosedForm` | backend/utils/formulas.py:119-120 | With `xu_max = 0.48·d`, `Mu_lim = 0.13796352·fck·b·d²`. |
| `Formulas.RequiredSteel` | backend/utils/formulas.py:100-131 | Raises whenever d = 0; never raises on a section with positive fck, fy, b and d. |
| `Formulas.RequiredSteelUnderReinforced` | backend/utils/formulas.py:122-126 | Below the limiting moment, `k ≤ 0.13796352`, `j = 1 − k/3 ∈ [0.954, 1]`, and the steel carries the moment back (`Ast·0.87·fy·j·d = M`); it is positive iff the moment is. |
| `Formulas.RequiredSteelOverReinforced` | backend/utils/formulas.py:127-129 | Past the limiting moment the steel uses j = 0.9 and carries the moment back. |
| `Formulas.TauCTable` | backend/utils/formulas.py:151-177 | The stepped table value lies in [0.28, 0.58]. |
| `Formulas.TauCTableMonotone` | backend/utils/formulas.py:151-177 | The table never decreases with the steel percentage. |
| `Formulas.TauCMonotone` | backend/utils/formulas.py:150-181 | τc never decreases with the steel percentage, for every grade. |
| `Formulas.ShearSteelPercentage` | backend/utils/formulas.py:147-148 | It raises iff there is steel on a zero section; it is capped at 3; with no steel it is 0.15. |
| `Formulas.ShearCapacity` | backend/utils/formulas.py:133-183 | It raises iff there is steel on a zero section. |
| `Formulas.SteelPercentageMonotone` | backend/utils/formulas.py:147-148 | On a real section, more positive steel never gives a lower percentage. |
| `Formulas.ShearCapacityMonotone` | backend/utils/formulas.py:133-183 | On a real section, more steel never lowers the capacity, up to M20 or once some steel is present. |
| `Formulas.ShearCapacityStep` | backend/utils/formulas.py:147-183 | The same over a positive area, given only that √(fck/20) is positive above M20. |
| `Formulas.CapacityAtMonotone` | backend/utils/formulas.py:183 | Over a positive area, `τc·b·d` keeps the order of τc. |
| `Formulas.TauCBelowM20Step` | backend/utils/formulas.py:147-181 | τc at the two steel areas keeps their order, up to M20 or once some steel is present. |
| `Formulas.ShearCapacityDropsAboveM20` | backend/utils/formulas.py:147-181 | For M25 on a 300 × 500 section, 50 mm² of steel gives less capacity than none. |
| `Formulas.DeflectionRatio` | backend/utils/formulas.py:185-203 | The IS 456 table: 7 for a cantilever, 26 for a continuous span, and 20 for a simply supported span or any other loading type; always in [7, 26]. |
| `Formulas.CheckMinimumSteel` | backend/utils/formulas.py:205-219 | It raises iff fy = 0; the bound satisfies `Ast_min·fy = 0.85·b·d`; the verdict is `Ast ≥ Ast_min`. |
| `Formulas.CheckMaximumSteel` | backend/utils/formulas.py:221-234 | The limit is `0.04·b·d`, and the verdict is `Ast ≤` that limit. |
| `Formulas.MinimumSteelMonotone` | backend/utils/formulas.py:218-219 | The bound does not depend on the steel provided; more steel keeps a pass. |
| `Formulas.MaximumSteelAntitone` | backend/utils/formulas.py:233-234 | The bound does not depend on the steel provided; less steel keeps a pass. |
| `StripDesign.LeverFactor` | backend/utils/slab_checker.py:73-77 | For a non-negative k the lever-arm factor lies in [0.9, 1]. |
| `StripDesign.InlineRequiredSteel` | backend/utils/footing_checker.py:80-86 | It raises when d, b or fck is zero. |
| `StripDesign.InlineSteelDefined` | backend/utils/footing_checker.py:82-86 | With positive grades and non-zero width and depth nothing raises. |
| `StripDesign.InlineSteelLeverArm` | backend/utils/slab_checker.py:72-77 | The steel brackets the moment: `0.9·Ast·0.87·fy·d ≤ Mu ≤ Ast·0.87·fy·d`; it is positive iff the moment is. |
| `StripDesign.SteelLeverArm` | backend/utils/slab_checker.py:75-77 | Any `Ast` with `Ast·0.87·fy·j·d = Mu` and `j ∈ [0.9, 1]` brackets the moment that way. |
| `StripDesign.InlineBranchDiffersFromLibrary` | backend/utils/slab_checker.py:72-77 | At k = 0.138 (M20/Fe500, b = 1000, d = 100, Mu = 27.6 kNm) the inline rule uses j = 0.954 and the library j = 0.9, so the two steel areas differ. |
| `LoadCalculator.Density` | backend/utils/load_calculator.py:71 | An unknown material reads as concrete (25 kN/m³); every density lies in [1.5, 78.5]. |
| `LoadCalculator.SelfWeight` | backend/utils/load_calculator.py:53-121 | Only a beam of length 0 raises; each member type gets its own dictionary shape. |
| `LoadCalculator.ConcreteSlabPerArea` | backend/utils/load_calculator.py:97-110 | A concrete slab weighs `25·depth/1000` kN per m² of plan. |
| `LoadCalculator.BeamSelfWeightPerMetre` | backend/utils/load_calculator.py:73-84 | A beam's self-weight per metre is breadth × depth × density, whatever its length. |
| `LoadCalculator.SlabSelfWeightPerArea` | backend/utils/load_calculator.py:97-110 | Per area it is density × thickness, and the total is area × per-area weight. |
| `LoadCalculator.PartitionLoad` | backend/utils/load_calculator.py:147-154 | The partition allowance is 1.5 for retail and industrial use and 1.0 otherwise. |
| `LoadCalculator.SuperimposedDeadLoad` | backend/utils/load_calculator.py:123-163 | For a beam or slab the entries are filled in source order and `total_sidl` is their sum; a column or footing gets the empty dictionary, with no `total_sidl` key. The result equals `SidlOf`. |
| `LoadCalculator.Total` | backend/utils/load_calculator.py:159 | The loop sums the entries' values. |
| `LoadCalculator.SumOfConcat` | backend/utils/load_calculator.py:159 | The sum of two concatenated lists of entries is the sum of their sums. |
| `LoadCalculator.SidlTotal` | backend/utils/load_calculator.py:138-163 | `total_sidl` is present iff the member is a beam or slab. There it is the sum of the entries, 1.8 (finishes) + partitions + 0.5 (services), within [0.5, 3.8]. For a column or footing it is absent, so `.get('total_sidl', 2.0)` gives 2.0. |
| `LoadCalculator.LiveLoad` | backend/utils/load_calculator.py:165-208 | The key is `live_load_per_floor` for a column and `live_load` otherwise; an unknown use gives 2.0; every value lies in [0.75, 7.5]. |
| `LoadCalculator.LiveLoadSameForEveryMember` | backend/utils/load_calculator.py:178-208 | The value does not depend on the member type; only the key it is reported under does. |
| `LoadCalculator.TerrainBaseFactor` | backend/utils/load_calculator.py:227-235 | k2 up to 10 m lies in [0.80, 1.05]. |
| `LoadCalculator.WindLoad` | backend/utils/load_calculator.py:210-258 | vb lies in [39, 60], and an unknown zone gives 44. Up to 10 m k2 is the terrain base. k3 = 1, and height and zone are reported back. The pressure is non-negative for a non-negative importance factor. |
| `LoadCalculator.WindHeightFactorAtLeastBase` | backend/utils/load_calculator.py:227-235 | Above 10 m k2 is never below its base value. |
| `LoadCalculator.WindPressureLinear` | backend/utils/load_calculator.py:243-247 | The design pressure is the unit-importance pressure times the importance factor. |
| `LoadCalculator.ColumnWind` | backend/utils/load_calculator.py:312-325 | Without wind data the wind pressure and wind load are zero. |
| `LoadCalculator.ColumnCombinations` | backend/utils/load_calculator.py:328-332 | The three IS 1893 combinations as written. The critical load is the largest and one of them; total dead load is self-weight plus floors. |
| `LoadCalculator.ColumnTotals` | backend/utils/load_calculator.py:282-309 | Floor dead and live loads are per-m² load × tributary area × floors, and the wind figures are passed through. |
| `LoadCalculator.FloorLoads` | backend/utils/load_calculator.py:291-300 | A floor brings `25·t/1000` plus the SIDL total of dead load per m², and the table live load. |
| `LoadCalculator.ColumnNoWindGovernedByFirstCombination` | backend/utils/load_calculator.py:324-332 | Without wind and with non-negative loads, 1.5(DL + LL) governs. |
| `LoadCalculator.BeamLoads` | backend/utils/load_calculator.py:350-405 | It raises iff the beam length is 0. Total dead load is self-weight + slab dead load + wall load, total live load is the slab live load, and the factored load is 1.5(DL + LL). |
| `LoadCalculator.WithBuildingDefaults` | backend/utils/load_calculator.py:423-444 | After the defaults every building key is present and every supplied value is kept; an empty dictionary gets the same defaults. |
| `LoadCalculator.WithWindDefaults` | backend/utils/load_calculator.py:446-458 | After the defaults zone, terrain and importance are present and supplied values are kept; an empty dictionary becomes zone_2, terrain 2, importance 1.0. |
| `LoadCalculator.DefaultsIdempotent` | backend/utils/load_calculator.py:438-458 | Filling the defaults twice is filling them once. |
| `LoadCalculator.AutoLoads` | backend/utils/load_calculator.py:460-607 | An unknown member type writes nothing; a known one without dimensions raises. |
| `LoadCalculator.AutoCalculateLoads` | backend/utils/load_calculator.py:408-609 | The record is updated in place to exactly what `AutoCalculated` describes, and the method reports whether the source would have raised. |
| `LoadCalculator.AutoCalculatedKeepsSupplied` | backend/utils/load_calculator.py:423-458 | Supplied parameters are never overwritten, and member sections other than `loads` are untouched. An unknown member type changes nothing but the defaults. |
| `LoadCalculator.AutoCalculatedRaises` | backend/utils/load_calculator.py:460-607 | It raises exactly when a known member has no dimensions, or a beam has length 0. |
| `LoadCalculator.AutoColumnLoads` | backend/utils/load_calculator.py:460-487 | A column gets exactly `axial_load` and `moment`, the moment is at least 50, and the axial load is the audited critical load. |
| `LoadCalculator.ColumnAxialAndMoment` | backend/utils/load_calculator.py:468-486 | The same for the column branch, over any dimensions and parameters. |
| `LoadCalculator.ColumnResultLoads` | backend/utils/load_calculator.py:479-486 | The same, for any axial-load calculation and wind. |
| `LoadCalculator.AutoSlabDeadLoad` | backend/utils/load_calculator.py:520-551 | A slab's dead load is its self-weight per m² plus its SIDL total, and the audit records the self-weight calculation and the SIDL. |
| `LoadCalculator.SlabResultAudit` | backend/utils/load_calculator.py:537-550 | The slab branch writes dead load = per-area self-weight + SIDL total and audits self-weight, SIDL and live load. |
| `LoadCalculator.AutoSlabLoads` | backend/utils/load_calculator.py:534-545 | The slab's wind load is an uplift (never positive), and its total is dead plus live. |
| `LoadCalculator.SlabUpliftAndTotal` | backend/utils/load_calculator.py:527-545 | The same for the slab branch, over any dimensions and parameters. |
| `LoadCalculator.SlabResultLoads` | backend/utils/load_calculator.py:535-545 | The same, for any non-negative wind pressure. |
| `LoadCalculator.AutoFootingLoads` | backend/utils/load_calculator.py:553-607 | A footing's loads have no `axial_load`. The `vertical_load` is dead + live + the footing's self-weight. |
| `LoadCalculator.FootingVerticalLoad` | backend/utils/load_calculator.py:589-597 | The same for the footing branch, over any dimensions and parameters. |
| `LoadCalculator.FootingResultLoads` | backend/utils/load_calculator.py:572-597 | The same, for any per-floor loads and footing weight. |
| `LoadCalculator.ColumnWindKeys` | backend/utils/load_calculator.py:312-325 | The column's wind part reads only the zone, the terrain and whether the wind dictionary is empty. |
| `LoadCalculator.AutoWindIgnoresImportance` | backend/utils/load_calculator.py:472-476 | The wind calculation never sees the importance factor. Passing it would scale the pressure by it. |
| `BeamChecker.FactoredLoad` | backend/utils/beam_checker.py:50-51 | `wu = 1.5·DL + 1.5·LL`. |
| `BeamChecker.FlexuralCheck` | backend/utils/beam_checker.py:72-78 | Passes iff provided ≥ required steel. |
| `BeamChecker.MinimumSteelCheck` | backend/utils/beam_checker.py:80-87 | Passes iff provided steel ≥ its minimum. |
| `BeamChecker.MaximumSteelCheck` | backend/utils/beam_checker.py:89-96 | Passes iff provided steel ≤ its maximum. |
| `BeamChecker.ShearCheck` | backend/utils/beam_checker.py:98-105 | Passes iff the design shear in N is within the capacity. |
| `BeamChecker.DeflectionCheck` | backend/utils/beam_checker.py:107-120 | Passes iff the actual span/depth ratio is within the allowable one. |
| `BeamChecker.DevelopmentLengthCheck` | backend/utils/beam_checker.py:122-130 | Passes iff the required length is within the available length. |
| `BeamChecker.BeamReport` | backend/utils/beam_checker.py:23-153 | The beam raises iff one of its four raising checks does; otherwise its six checks come in order and are judged. |
| `BeamChecker.BeamChecks` | backend/utils/beam_checker.py:69-133 | The six checks in the source's order, each judged by its figures. |
| `BeamChecker.CheckBeam` | backend/utils/beam_checker.py:13-159 | The result is well formed, and a missing section gives the error record. |
| `BeamChecker.BeamForces` | backend/utils/beam_checker.py:53-55 | The moment is `wu·L²/8` and the shear `wu·L/2`, with L the length read. |
| `BeamChecker.FlexuralCheckPasses` | backend/utils/beam_checker.py:62-78 | The required steel does not depend on the provided steel, and the check passes iff the provided steel covers it. |
| `BeamChecker.RequiredBeamSteelIgnoresBars` | backend/utils/beam_checker.py:62 | The required steel does not depend on the bar count. |
| `BeamChecker.DeflectionCheckPasses` | backend/utils/beam_checker.py:107-120 | It raises iff d = 0, and passes iff span/d ≤ 20. |
| `BeamChecker.DevelopmentLengthCheckPasses` | backend/utils/beam_checker.py:122-130 | It never raises; the required length satisfies `ld·4√fck = φ·fy`; it passes iff `ld ≤ span/2`. |
| `BeamChecker.BeamRealSectionSucceeds` | backend/utils/beam_checker.py:23-153 | A beam with positive breadth and effective depth never raises. |
| `BeamChecker.BeamZeroDepthRaises` | backend/utils/beam_checker.py:36-62 | A zero effective depth raises. |
| `BeamChecker.ProvidedSteelMonotone` | backend/utils/beam_checker.py:64-67 | More bars never mean less steel. |
| `BeamChecker.BeamMoreSteelKeepsPasses` | backend/utils/beam_checker.py:72-105 | On every real section, more steel keeps the flexural and minimum-steel passes, and a maximum-steel pass holds with less steel. More steel also keeps a shear pass up to M20, or when the smaller area is positive. |
| `BeamChecker.BeamChecksIgnoreBars` | backend/utils/beam_checker.py:72-96 | The steel checks read the bar count only through the provided steel. |
| `BeamChecker.ShearCheckIgnoresBars` | backend/utils/beam_checker.py:98-105 | So does the shear check. |
| `BeamChecker.BeamMoreBarsKeepsPasses` | backend/utils/beam_checker.py:64-96 | On every real section, more bars keep the flexural and minimum-steel passes, and a maximum-steel pass holds with fewer bars. |
| `BeamChecker.BeamMoreBarsKeepsShear` | backend/utils/beam_checker.py:64-105 | More bars keep a shear pass up to M20, or when the bars already give some steel. |
| `ColumnChecker.MinimumBarsRequired` | backend/utils/column_checker.py:109 | 4 bars for a least dimension up to 200 mm, otherwise 6. |
| `ColumnChecker.TieDiameter` | backend/utils/column_checker.py:118 | The tie diameter is `max(6, bar/4)`: at least each term and equal to one of them. |
| `ColumnChecker.TieSpacing` | backend/utils/column_checker.py:119-123 | The tie spacing is the least of the least dimension, 16 bar diameters and 300. |
| `ColumnChecker.MinimumDimensionCheck` | backend/utils/column_checker.py:57-64 | The limit is 200 and the figure the least side; passes iff both sides are at least 200 mm. |
| `ColumnChecker.SlendernessCheck` | backend/utils/column_checker.py:66-76 | Passes iff the slenderness is at most 60. |
| `ColumnChecker.ColumnMinimumSteelCheck` | backend/utils/column_checker.py:78-85 | The limit is `0.008·Ag` and the figure the steel provided; passes iff the steel is at least 0.8 % of the gross area. |
| `ColumnChecker.ColumnMaximumSteelCheck` | backend/utils/column_checker.py:87-94 | The limit is `0.04·Ag` and the figure the steel provided; passes iff the steel is at most 4 % of the gross area. |
| `ColumnChecker.AxialCapacityCheck` | backend/utils/column_checker.py:96-106 | Passes iff the design load is within the squash load. |
| `ColumnChecker.MinimumBarsCheck` | backend/utils/column_checker.py:108-115 | Passes iff the bars provided are at least those required. |
| `ColumnChecker.TieCheck` | backend/utils/column_checker.py:117-130 | Always passes; it reports the tie limits without comparing them. |
| `ColumnChecker.ColumnReport` | backend/utils/column_checker.py:19-153 | The column raises iff the slenderness does or the gross area is zero; otherwise seven judged checks in order. |
| `ColumnChecker.ColumnChecks` | backend/utils/column_checker.py:54-133 | The seven checks in the source's order, each judged by its figures. |
| `ColumnChecker.CheckColumn` | backend/utils/column_checker.py:8-159 | The result is well formed, and a missing section gives the error record. |
| `ColumnChecker.ColumnRaisesIffDegenerate` | backend/utils/column_checker.py:66-144 | A column raises exactly when its breadth or depth is zero. |
| `ColumnChecker.CheckColumnDesignLoad` | backend/utils/column_checker.py:41-42 | A completed check designs for 1.5 × the axial load read. |
| `ColumnChecker.ColumnDesignLoad` | backend/utils/column_checker.py:41-106 | The summary's design load and the capacity check's demand are both 1.5 × the axial load. |
| `ColumnChecker.SlendernessPasses` | backend/utils/column_checker.py:66-76 | The ratio is `height·2√3/least`; it passes iff `2√3·height ≤ 60·least`. |
| `ColumnChecker.SquashLoadGrowsWithSteel` | backend/utils/column_checker.py:98-99 | The capacity grows strictly with the steel whenever `0.67·fy > 0.4·fck`. |
| `ColumnChecker.SquashLoadMonotone` | backend/utils/column_checker.py:98-99 | The same, non-strictly. |
| `ColumnChecker.GradesFavourSteel` | backend/utils/column_checker.py:34-35 | Every pair of grades (and the fallbacks) has `0.67·fy > 0.4·fck`. |
| `ColumnChecker.MoreSteelKeepsPasses` | backend/utils/column_checker.py:78-106 | More steel raises the capacity and keeps the capacity and minimum-steel passes; a maximum-steel pass holds with less steel. |
| `ColumnChecker.ColumnMoreBarsKeepsPasses` | backend/utils/column_checker.py:49-115 | More bars mean no less steel and keep a minimum-bars pass. |
| `ColumnChecker.ColumnCompliantMeans` | backend/utils/column_checker.py:54-133 | Every check passes iff both sides are ≥ 200, the steel is between 0.8 % and 4 %, 1.5 P is within the capacity, slenderness is ≤ 60, and there are at least 4 bars (6 if both sides exceed 200). |
| `ColumnChecker.NarrowColumnFails` | backend/utils/column_checker.py:57-64 | A column with a side under 200 mm is never compliant. |
| `SlabChecker.TypeOf` | backend/utils/slab_checker.py:53-54 | One-way iff the aspect ratio is at least 2. |
| `SlabChecker.MinimumThicknessCheck` | backend/utils/slab_checker.py:87-94 | The limit is `L/20` of the shorter span and the figure the thickness; passes iff `20·t ≥ L`. |
| `SlabChecker.SlabFlexuralCheck` | backend/utils/slab_checker.py:96-102 | Passes iff provided ≥ required steel. |
| `SlabChecker.SlabMinimumSteelCheck` | backend/utils/slab_checker.py:104-111 | The limit is `1.2·t` mm²/m (0.12 % of a 1000 mm strip) and the figure the steel provided; passes iff the steel reaches it. |
| `SlabChecker.MaximumSpacingCheck` | backend/utils/slab_checker.py:113-120 | The limit is `min(3t, 300)` and the figure the spacing; passes iff the spacing is at most both 3t and 300. |
| `SlabChecker.SlabShearCheck` | backend/utils/slab_checker.py:122-133 | Passes iff τv ≤ 0.25√fck. |
| `SlabChecker.DistributionSteelCheck` | backend/utils/slab_checker.py:135-146 | Raises iff the distribution spacing is 0. Otherwise the limit is `1.2·t`, the figure is the bar area per metre at the distribution spacing, and it passes iff that reaches `1.2·t`. |
| `SlabChecker.SlabMainChecks` | backend/utils/slab_checker.py:84-133 | The five checks every slab has, in order, each judged by its figures. |
| `SlabChecker.WithDistribution` | backend/utils/slab_checker.py:135-146 | Distribution steel is appended for a one-way slab only; the first five checks are kept. |
| `SlabChecker.SlabReport` | backend/utils/slab_checker.py:19-171 | The type is one-way iff the aspect ratio is ≥ 2. The checks fit that type and are judged. The reported factored load is the slab's own. |
| `SlabChecker.CheckSlab` | backend/utils/slab_checker.py:8-177 | The result is well formed for its slab type, and a missing section gives the error record. |
| `SlabChecker.SlabRaises` | backend/utils/slab_checker.py:53-146 | A zero span, effective depth or spacing raises, and so does a one-way slab with zero distribution spacing. |
| `SlabChecker.SlabSucceeds` | backend/utils/slab_checker.py:53-146 | Nothing else raises. |
| `SlabChecker.SlabCheckCount` | backend/utils/slab_checker.py:135-146 | A one-way slab reports six checks, a two-way slab five. |
| `SlabChecker.AspectRatioAtLeastOne` | backend/utils/slab_checker.py:52-54 | The aspect ratio of a real slab is at least 1, and a square slab is two-way. |
| `SlabChecker.SlabLoadAddsOwnWeight` | backend/utils/slab_checker.py:45-50 | `wu = 1.5·DL + 1.5·LL + 0.0375·t`: the slab's own weight is added to the dead load read. |
| `SlabChecker.TwoWayMomentBelowOneWay` | backend/utils/slab_checker.py:56-63 | Under a non-negative load, `0 ≤ 0.087·wu·L² ≤ wu·L²/8`. |
| `SlabChecker.SlabRequiredSteelBounds` | backend/utils/slab_checker.py:65-77 | The required steel brackets the moment between its 0.9·d and d lever arms; it is positive iff the moment is. |
| `SlabChecker.SlabShearPasses` | backend/utils/slab_checker.py:122-133 | Passes iff `wu·L/2 ≤ 0.25·√fck·d`. |
| `SlabChecker.DistributionMirrorsMinimumSteel` | backend/utils/slab_checker.py:135-146 | At the main spacing the distribution check agrees with the minimum-steel check, and its limit is 1.2·t. |
| `SlabChecker.CloserBarsKeepPasses` | backend/utils/slab_checker.py:79-120 | Closer bars give more steel per metre and keep the flexural, minimum-steel and spacing passes. |
| `FootingChecker.BearingCheck` | backend/utils/footing_checker.py:97-103 | Passes iff the bearing pressure is within the safe bearing capacity. |
| `FootingChecker.FootingThicknessCheck` | backend/utils/footing_checker.py:105-112 | The limit is `max(150, cantilever/4)` and the figure the thickness; passes iff the thickness is at least both. |
| `FootingChecker.FootingFlexuralCheck` | backend/utils/footing_checker.py:114-120 | Passes iff provided ≥ required steel. |
| `FootingChecker.FootingMinimumSteelCheck` | backend/utils/footing_checker.py:122-129 | The limit is `0.0012·t·b` (0.12 % of the strip section) and the figure the steel provided; passes iff the steel reaches it. |
| `FootingChecker.FootingSpacingCheck` | backend/utils/footing_checker.py:131-138 | The limit is `min(3t, 450)` and the figure the spacing; passes iff the spacing is at most both 3t and 450. |
| `FootingChecker.OneWayShearCheck` | backend/utils/footing_checker.py:140-163 | Passes iff τv is within the allowable stress. |
| `FootingChecker.PunchingShearCheck` | backend/utils/footing_checker.py:165-179 | Raises iff `(c + d)·d = 0`. Otherwise the limit is `0.25·√fck`, the stress times the perimeter area `4(c + d)·d` is the punching force, and it passes iff the stress is within the limit. |
| `FootingChecker.FootingChecks` | backend/utils/footing_checker.py:94-182 | The seven checks in the source's order, each judged by its figures. |
| `FootingChecker.FootingReport` | backend/utils/footing_checker.py:19-203 | When nothing raises, the seven checks come in order and are judged. |
| `FootingChecker.CheckFooting` | backend/utils/footing_checker.py:8-209 | The result is well formed, and a missing section gives the error record. |
| `FootingChecker.NetPressureIsAxialOverArea` | backend/utils/footing_checker.py:51-59 | The footing's own weight cancels, leaving net pressure × area = axial load. |
| `FootingChecker.FootingWithoutAxialLoad` | backend/utils/footing_checker.py:51-73 | With no axial load the net pressure and the critical moment are zero, and the bearing pressure is the footing's own weight over its area. |
| `FootingChecker.FootingSummaryValues` | backend/utils/footing_checker.py:185-201 | The summary reports the gross pressure and the critical moment under the net pressure. |
| `FootingChecker.NoMomentWithoutPressure` | backend/utils/footing_checker.py:65-73 | Zero net pressure gives zero critical moment. |
| `FootingChecker.UnloadedFootingReport` | backend/utils/footing_checker.py:51-195 | A footing checked with no axial load reports a zero critical moment and a bearing pressure equal to its own weight over its area. |
| `FootingChecker.BearingPasses` | backend/utils/footing_checker.py:51-103 | With a positive area the check passes iff axial load + self-weight ≤ sbc × area. |
| `FootingChecker.CriticalMomentOnLongerSide` | backend/utils/footing_checker.py:61-73 | The critical moment is the larger of the two strip moments, whichever side is the length; under non-negative pressure it is the strip over the longer side. |
| `FootingChecker.StripMomentMonotone` | backend/utils/footing_checker.py:66-73 | Under non-negative pressure a wider strip has no smaller moment. |
| `FootingChecker.OneWayShearForcedPass` | backend/utils/footing_checker.py:157-163 | When the section at d lies beyond the edge, the check is a pass with both stresses zero. |
| `FootingChecker.OneWayShearPasses` | backend/utils/footing_checker.py:142-156 | Otherwise the limit is 0.36√fck, τv·b·d is the shear force, and the check passes iff τv is within the limit. |
| `FootingChecker.PunchingForceShare` | backend/utils/footing_checker.py:165-169 | The punching force is the axial load less the share inside the punching square: `P·1000·(1 − (c + d)²/(L·B))`. |
| `FootingChecker.FootingBarCountBounds` | backend/utils/footing_checker.py:88-92 | At least one bar is provided, and closer bars never mean fewer. |
| `FootingChecker.FootingRaises` | backend/utils/footing_checker.py:51-179 | A zero area, effective depth, spacing or `column + d` raises. |
| `FootingChecker.FootingSucceeds` | backend/utils/footing_checker.py:51-179 | Nothing else raises. |
| `Orchestrator.Recommendations` | backend/api/check_code.py:55-72 | Every member type gets two recommendations. |
| `Orchestrator.RunChecker` | backend/api/check_code.py:41-48 | The dispatched checker reports the member type it was called for. |
| `Orchestrator.CheckCompliance` | backend/api/check_code.py:14-85 | The response returned and the record left behind are those `Respond` gives for the record as passed in. |
| `Orchestrator.DispatchIgnoresCase` | backend/api/check_code.py:32-53 | The member type is matched regardless of the case of its ASCII letters. |
| `Orchestrator.UnsupportedIffUnknown` | backend/api/check_code_new.py:49-53 | The unsupported-type answer comes back exactly for a name other than the four, carrying the name and the four supported types. |
| `Orchestrator.RecommendationsOnlyOnFailure` | backend/api/check_code.py:55-72 | A checked response is that member's checker on the prepared record. Recommendations are attached exactly when a completed check did not pass. |
| `Orchestrator.ManualLoadsUntouched` | backend/api/check_code.py:34-38 | With the flag false and loads supplied, the record is left as it was and checked as given. |
| `Orchestrator.AutoLoadsReported` | backend/api/check_code.py:74-77 | After auto-calculation the response is the checker's result on the completed record, with the audit and the loads written. |
| `Orchestrator.AutoFootingCarriesNoLoad` | backend/api/check_code.py:35-48 | After auto-calculation a footing is checked with an axial load of 0, while the reaction sits under `vertical_load`. |
| `Orchestrator.AutoColumnFactoredTwice` | backend/api/check_code.py:35-44 | After auto-calculation a column is checked with the critical load, already at least 1.5(DL + LL). |
| `Orchestrator.AutoSlabSelfWeightTwice` | backend/api/check_code.py:35-46 | After auto-calculation a slab's self-weight enters its factored load twice. |
| `Orchestrator.AutoBeamLoadsAgree` | backend/api/check_code.py:35-42 | After auto-calculation the beam checker's factored load equals the calculator's. |

## Left out

- Rounding: the checkers round reported figures to 2 or 3 places; the model reports them unrounded. The pass flags compare unrounded values in the source too.
- `str()` of calculated loads: `auto_calculate_loads` stores every load as a string, and the checkers parse it back with `float()`. The model stores the number, taking that round trip to be exact.
- Error messages: the text built from `str(e)` is not modelled. An error record carries only its member type, and the kind of exception is not distinguished.
- Non-string values: a `member_type` that is not a string makes `.lower()` raise. The model takes it as a string (absent means `""`). The `NameError` the outer `except` would then meet is not modelled.
- Non-numeric values: a field that `float()` or `int()` cannot parse is not modelled. Every field is a number or absent.
- Flag truthiness: `auto_calculate_loads` values other than booleans are not modelled.
- Integer and float arithmetic are not distinguished. All quantities are reals.
- `str.lower` is modelled on ASCII letters only; other Unicode case mappings are not.
- Transcendentals: `math.sqrt`, `math.pi` and `(h/10)**0.15` are parameters (`MathLib`), not computed. Proofs assume only the facts in `Lawful`: √x is positive and squares back to x for x > 0, 3.14 < π < 3.15, and the power is at least 1 for arguments ≥ 1.
- Values computed but never used (`moment` and `Mu` in the column checker, `fs`/`kt` in the beam checker, `pt` in the slab and footing checkers, the `unit` and `note` strings) are not modelled.
- The `print` in `check_compliance` and all I/O are not modelled.
- Not part of this model: `backend/utils/pdf_generator.py` and `app.py`.
- `Formulas.ShearCapacityMonotone`: stated only up to M20 or when the smaller steel area is positive. Above M20 the capacity drops from zero steel to a little steel (`Formulas.ShearCapacityDropsAboveM20`).
- `BeamChecker.BeamMoreSteelKeepsPasses`: only its shear part carries the same restriction, for the same reason; its flexural, minimum-steel and maximum-steel parts hold for all steel areas.
- `BeamChecker.BeamMoreBarsKeepsShear`: it carries the same restriction, for the same reason.
