/**
 * `check_compliance(design_data)`: the entry point that lower-cases the member type,
 * completes the loads with `auto_calculate_loads` when asked to (or when none are given),
 * dispatches to the member's checker, adds two fixed recommendations when a check fails,
 * and attaches the load audit when one is in the record.
 */
module Orchestrator {
  import opened Numerics
  import opened DesignData
  import opened Compliance
  import opened LoadCalculator
  import opened BeamChecker
  import opened ColumnChecker
  import opened SlabChecker
  import opened FootingChecker

  /** The list returned with an unsupported member type. */
  const SupportedTypes: seq<string> := ["beam", "column", "slab", "footing"]

  /** The start of the unsupported-type message; the lower-cased name follows it. */
  const UnsupportedPrefix: string := "Unsupported member type: "

  /** The dictionary `check_compliance` returns. */
  datatype Response =
      /** `{"error": "Unsupported member type: …", "supported_types": […]}` */
    | Unsupported(error: string, supportedTypes: seq<string>)
      /** `{"error": "Compliance check failed: …", "member_type": …}`, the outer `except`. */
    | Failed(memberType: string)
      /** The checker's dictionary with the optional keys the orchestrator adds to it. */
    | Checked(result: CheckResult, recommendations: Option<seq<string>>,
              loadCalculations: Option<LoadAudit>, calculatedLoads: Option<Fields>)

  const BeamAdvice: seq<string> :=
    ["Consider increasing beam depth if moment capacity is insufficient",
     "Check reinforcement spacing for shear requirements"]
  const ColumnAdvice: seq<string> :=
    ["Increase column dimensions if axial capacity is exceeded",
     "Check minimum reinforcement percentage"]
  const SlabAdvice: seq<string> :=
    ["Consider increasing slab thickness if deflection is excessive",
     "Check reinforcement requirements for flexure"]
  const FootingAdvice: seq<string> :=
    ["Increase footing dimensions if bearing pressure is excessive",
     "Check reinforcement for punching shear"]

  /** The two advice strings for a member type whose checks did not all pass. */
  function Recommendations(t: MemberType): (r: seq<string>)
    ensures |r| == 2
  {
    match t
    case Beam => BeamAdvice
    case Column => ColumnAdvice
    case Slab => SlabAdvice
    case Footing => FootingAdvice
  }

  /** The member checker for a recognised type. */
  function RunChecker(t: MemberType, data: MemberData, m: MathLib): (r: CheckResult)
    ensures r.memberType == t
  {
    match t
    case Beam => CheckBeam(data, m)
    case Column => CheckColumn(data, m)
    case Slab => CheckSlab(data, m)
    case Footing => CheckFooting(data, m)
  }

  /** The lower-cased `member_type`, empty when the key is absent. */
  function NameOf(d: DesignInput): string {
    Lower(d.memberType.GetOr(""))
  }

  /** Loads are calculated unless the flag is explicitly false and loads are supplied. */
  predicate AutoTriggered(d: DesignInput) {
    d.autoCalculate.GetOr(true) || d.member.loads.None?
  }

  /** The record the checker reads: after `auto_calculate_loads` when that runs. */
  function Prepared(d: DesignInput, m: MathLib): AutoOutcome {
    if AutoTriggered(d) then AutoCalculated(NameOf(d), d, m) else AutoOutcome(d, false)
  }

  /** The response, and the record as the caller's dictionary is left. */
  datatype Outcome = Outcome(response: Response, record: DesignInput)

  /** What `check_compliance` returns and leaves in the record. */
  function Respond(d: DesignInput, m: MathLib): Outcome {
    var name := NameOf(d);
    var prepared := Prepared(d, m);
    var rec := prepared.record;
    if prepared.raised then Outcome(Failed(name), rec)
    else
      match MemberTypeOf(name)
      case None => Outcome(Unsupported(UnsupportedPrefix + name, SupportedTypes), rec)
      case Some(t) =>
        var result := RunChecker(t, rec.member, m);
        var advice := if result.Ok? && !result.overall then Some(Recommendations(t)) else None;
        if rec.loadCalculations.None? then Outcome(Checked(result, advice, None, None), rec)
        else if rec.member.loads.None? then Outcome(Failed(name), rec)
        else Outcome(Checked(result, advice, rec.loadCalculations, rec.member.loads), rec)
  }

  /** `check_compliance` on the caller's mutable record. */
  method CheckCompliance(rec: DesignRecord, m: MathLib) returns (response: Response)
    modifies rec
    ensures Outcome(response, rec.Snapshot()) == Respond(old(rec.Snapshot()), m)
  {
    var name := Lower(rec.memberType.GetOr(""));
    var raised := false;
    if rec.autoCalculate.GetOr(true) || rec.loads.None? {
      raised := AutoCalculateLoads(name, rec, m);
    }
    if raised {
      return Failed(name);
    }
    var t := MemberTypeOf(name);
    if t.None? {
      return Unsupported(UnsupportedPrefix + name, SupportedTypes);
    }
    var result := RunChecker(t.value, rec.Member(), m);
    var advice := None;
    if result.Ok? && !result.overall {
      advice := Some(Recommendations(t.value));
    }
    if rec.loadCalculations.None? {
      response := Checked(result, advice, None, None);
    } else if rec.loads.None? {
      response := Failed(name);
    } else {
      response := Checked(result, advice, rec.loadCalculations, rec.loads);
    }
  }

  /** The member type is matched without regard to the case of its ASCII letters. */
  lemma DispatchIgnoresCase(d: DesignInput, m: MathLib, s: string)
    ensures Respond(d.(memberType := Some(s)), m).response
         == Respond(d.(memberType := Some(Lower(s))), m).response
  {
    LowerIdempotent(s);
    var d1, d2 := d.(memberType := Some(s)), d.(memberType := Some(Lower(s)));
    assert NameOf(d1) == NameOf(d2);
    assert Prepared(d1, m).raised == Prepared(d2, m).raised;
    assert Prepared(d1, m).record == Prepared(d2, m).record.(memberType := Some(s));
    assert Prepared(d1, m).record.member == Prepared(d2, m).record.member;
  }

  /**
   * The unsupported-type answer comes back exactly for a name other than the four, with
   * the name in its message and the four names listed; it is never an exception, since
   * the load calculator writes nothing for such a name.
   */
  lemma UnsupportedIffUnknown(d: DesignInput, m: MathLib)
    ensures Respond(d, m).response.Unsupported? <==> MemberTypeOf(NameOf(d)).None?
    ensures Respond(d, m).response.Unsupported? ==>
              Respond(d, m).response == Unsupported(UnsupportedPrefix + NameOf(d), SupportedTypes)
  {
    if MemberTypeOf(NameOf(d)).None? && AutoTriggered(d) {
      AutoCalculatedRaises(NameOf(d), d, m);
    }
  }

  /**
   * A checker's result comes back for a supported name, and it is that member's checker
   * on the prepared record; the two recommendations are attached exactly when that result
   * is a completed check that did not pass (an error record carries none).
   */
  lemma RecommendationsOnlyOnFailure(d: DesignInput, m: MathLib)
    ensures Respond(d, m).response.Checked? ==> MemberTypeOf(NameOf(d)).Some?
    ensures Respond(d, m).response.Checked? ==>
              var r := Respond(d, m).response;
              && r.result == RunChecker(MemberTypeOf(NameOf(d)).value, Prepared(d, m).record.member, m)
              && (r.recommendations.Some? <==> r.result.Ok? && !r.result.overall)
              && (r.recommendations.Some? ==> r.recommendations.value == Recommendations(r.result.memberType))
  {
  }

  /** With the flag false and loads supplied, the record is left as it was and checked as given. */
  lemma ManualLoadsUntouched(d: DesignInput, m: MathLib)
    requires d.autoCalculate == Some(false) && d.member.loads.Some?
    ensures Respond(d, m).record == d
    ensures MemberTypeOf(NameOf(d)).Some? ==>
              && Respond(d, m).response.Checked?
              && Respond(d, m).response.result == RunChecker(MemberTypeOf(NameOf(d)).value, d.member, m)
  {
  }

  /**
   * When loads are calculated for a supported member that has dimensions (and, for a
   * beam, a non-zero length), the response is that member's checker on the completed
   * record, with the audit and the loads just written.
   */
  lemma AutoLoadsReported(d: DesignInput, m: MathLib)
    requires AutoTriggered(d) && MemberTypeOf(NameOf(d)).Some? && d.member.dimensions.Some?
    requires NameOf(d) == "beam" ==> Get(d.member.dimensions.value, "length", 0.0) != 0.0
    ensures var after := AutoCalculated(NameOf(d), d, m).record;
            && Respond(d, m).response.Checked?
            && after.loadCalculations.Some? && after.member.loads.Some?
            && Respond(d, m).response.result == RunChecker(MemberTypeOf(NameOf(d)).value, after.member, m)
            && Respond(d, m).response.loadCalculations == after.loadCalculations
            && Respond(d, m).response.calculatedLoads == after.member.loads
  {
    AutoCalculatedRaises(NameOf(d), d, m);
  }

  /**
   * After auto-calculation a footing is checked with no axial load: the calculator writes
   * the column reaction as `vertical_load`, and the footing checker reads `axial_load`,
   * which is then absent and read as 0 (see `FootingChecker.UnloadedFootingReport` for
   * what the check then reports).
   */
  lemma AutoFootingCarriesNoLoad(d: DesignInput, m: MathLib)
    requires AutoTriggered(d) && NameOf(d) == "footing" && d.member.dimensions.Some?
    ensures var after := Prepared(d, m).record;
            && after.member.loads.Some? && "vertical_load" in after.member.loads.value
            && FootingInputOf(after.member).axialLoad == 0.0
  {
    AutoFootingLoads(d, m);
    AutoCalculatedRaises(NameOf(d), d, m);
  }

  /**
   * After auto-calculation a column is checked with the critical axial load, which is
   * already a factored combination of at least `1.5·(DL + LL)`; the column checker then
   * multiplies it by 1.5 again (`ColumnChecker.CheckColumnDesignLoad`).
   */
  lemma AutoColumnFactoredTwice(d: DesignInput, m: MathLib)
    requires AutoTriggered(d) && NameOf(d) == "column" && d.member.dimensions.Some?
    ensures var after := Prepared(d, m).record;
            && after.loadCalculations.Some? && after.loadCalculations.value.ColumnAudit?
            && var audit := after.loadCalculations.value.column;
               && audit.criticalAxialLoad >= 1.5 * (audit.totalDeadLoad + audit.totalLiveLoad)
               && ColumnInputOf(after.member).axialLoad == audit.criticalAxialLoad
  {
    AutoColumnLoads(d, m);
    var b := WithBuildingDefaults(d.building);
    var w := WithWindDefaults(d.wind);
    ColumnCombinations(SelfWeight(Column, d.member.dimensions.value, "concrete").value.total, b,
                       ColumnWind(m, d.member.dimensions.value, b, w));
    AutoCalculatedRaises(NameOf(d), d, m);
  }

  /**
   * After auto-calculation a slab's dead load already holds its self-weight, and the slab
   * checker adds the same self-weight again, so its factored load counts it twice.
   */
  lemma AutoSlabSelfWeightTwice(d: DesignInput, m: MathLib)
    requires AutoTriggered(d) && NameOf(d) == "slab" && d.member.dimensions.Some?
    ensures var after := Prepared(d, m).record;
            var s := SlabInputOf(after.member);
            && after.loadCalculations.Some? && after.loadCalculations.value.SlabAudit?
            && var audit := after.loadCalculations.value;
               && audit.selfWeight.SlabWeight?
               && audit.selfWeight.perArea == OwnWeight(s)
               && s.deadLoad == OwnWeight(s) + audit.sidl.TotalOr(2.0)
               && SlabFactoredLoad(s) == 1.5 * (2.0 * OwnWeight(s) + audit.sidl.TotalOr(2.0)) + 1.5 * s.liveLoad
  {
    AutoSlabDeadLoad(d, m);
    ConcreteSlabPerArea(d.member.dimensions.value);
  }

  /** After auto-calculation the beam checker's factored load is the calculator's factored load. */
  lemma AutoBeamLoadsAgree(d: DesignInput, m: MathLib)
    requires AutoTriggered(d) && NameOf(d) == "beam" && d.member.dimensions.Some?
    requires Get(d.member.dimensions.value, "length", 0.0) != 0.0
    ensures var after := Prepared(d, m).record;
            && after.loadCalculations.Some? && after.loadCalculations.value.BeamAudit?
            && FactoredLoad(BeamInputOf(after.member)) == after.loadCalculations.value.beam.factoredLoad
  {
  }
}
