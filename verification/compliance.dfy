/**
 * The compliance result every member checker returns: a closed set of check kinds,
 * each check carrying its limit, its actual value and its pass flag, and an overall
 * verdict that is the conjunction of the flags.
 */
module Compliance {
  import opened Numerics
  import opened DesignData

  datatype CheckKind =
    // beam
    | FlexuralStrength | MinimumSteel | MaximumSteel | ShearStrength | Deflection | DevelopmentLength
    // column
    | MinimumDimension | SlendernessRatio | AxialCapacity | MinimumBars | TieReinforcement
    // slab and footing
    | MinimumThickness | MaximumSpacing | DistributionSteel
    | BearingPressure | OneWayShear | PunchingShear

  /** How a check's actual value is compared with its limit. */
  datatype Direction = AtLeast | AtMost | NotCompared

  function DirectionOf(k: CheckKind): Direction {
    match k
    case FlexuralStrength | MinimumSteel | DevelopmentLength | MinimumDimension
      | MinimumBars | MinimumThickness | DistributionSteel => AtLeast
    case TieReinforcement => NotCompared
    case _ => AtMost
  }

  /**
   * One named check. `limit` is the required / allowed figure (required steel,
   * capacity, allowable stress, maximum ratio ...) and `actual` the provided /
   * demanded figure. For the tie check, which compares nothing, `limit` is the
   * maximum tie spacing and `actual` the minimum tie diameter.
   */
  datatype Check = Check(kind: CheckKind, limit: real, actual: real, pass: bool)

  /** Whether the actual value satisfies the limit in the check's direction. */
  predicate Meets(c: Check) {
    match DirectionOf(c.kind)
    case AtLeast => c.actual >= c.limit
    case AtMost => c.actual <= c.limit
    case NotCompared => true
  }

  /** Every compared check's flag is exactly the comparison of its two reported figures. */
  predicate Judged(checks: seq<Check>) {
    forall i :: 0 <= i < |checks| && DirectionOf(checks[i].kind) != NotCompared ==>
      checks[i].pass == Meets(checks[i])
  }

  function Kinds(checks: seq<Check>): seq<CheckKind> {
    seq(|checks|, i requires 0 <= i < |checks| => checks[i].kind)
  }

  /** Python's `all(check['pass'] for check in checks.values())`. */
  predicate AllPass(checks: seq<Check>) {
    forall i :: 0 <= i < |checks| ==> checks[i].pass
  }

  datatype SlabType = OneWay | TwoWay

  /** `design_summary`, one shape per member type (reported values unrounded). */
  datatype Summary =
    | BeamSummary(
        span: real, width: real, depth: real, effectiveDepth: real, designMoment: real,
        designShear: real, concreteGrade: string, steelGrade: string)
    | ColumnSummary(
        width: real, depth: real, height: real, grossArea: real, steelPercentage: real,
        designAxialLoad: real, concreteGrade: string, steelGrade: string)
    | SlabSummary(
        length: real, breadth: real, thickness: real, effectiveDepth: real, slabType: SlabType,
        aspectRatio: real, designMoment: real, factoredLoad: real, concreteGrade: string, steelGrade: string)
    | FootingSummary(
        length: real, breadth: real, thickness: real, effectiveDepth: real, footingArea: real,
        bearingPressure: real, criticalMoment: real, concreteGrade: string, steelGrade: string)

  /**
   * A checker's result: either the error record `{error, member_type}` that any raised
   * fault collapses to, or the full record with the ordered checks.
   */
  datatype CheckResult =
    | Error(memberType: MemberType)
    | Ok(memberType: MemberType, overall: bool, summary: Summary, checks: seq<Check>, status: string)

  /** The tail shared by the four checkers: overall verdict and status from the checks. */
  function Assemble(t: MemberType, summary: Summary, checks: seq<Check>): (r: CheckResult)
    ensures r.Ok? && r.memberType == t && r.checks == checks && r.summary == summary
    ensures r.overall <==> forall i :: 0 <= i < |checks| ==> checks[i].pass
    ensures r.status == "PASS" <==> r.overall
    ensures r.status == "FAIL" <==> !r.overall
  {
    var overall := AllPass(checks);
    Ok(t, overall, summary, checks, if overall then "PASS" else "FAIL")
  }

  /** What a checker computes when nothing raises: its summary and its ordered checks. */
  datatype Report = Report(summary: Summary, checks: seq<Check>)

  /** The checker's `try`/`except`: a fault becomes the error record, a report is assembled. */
  function Finish(t: MemberType, report: Option<Report>): (r: CheckResult)
    ensures r.memberType == t
    ensures r.Error? <==> report.None?
    ensures report.Some? ==> r == Assemble(t, report.value.summary, report.value.checks)
  {
    match report
    case None => Error(t)
    case Some(rep) => Assemble(t, rep.summary, rep.checks)
  }

  /** A well-formed checker output for member type `t` whose checks come in the order `kinds`. */
  predicate WellFormed(r: CheckResult, t: MemberType, kinds: seq<CheckKind>) {
    && r.memberType == t
    && (r.Ok? ==>
          && Kinds(r.checks) == kinds
          && (r.overall <==> AllPass(r.checks))
          && (r.status == "PASS" <==> r.overall)
          && Judged(r.checks))
  }
}
