/**
 * `check_footing_compliance`: an isolated rectangular footing under a square column,
 * checked for bearing pressure, minimum thickness, flexure, minimum steel, bar spacing,
 * one-way shear and punching shear, in that order.
 */
module FootingChecker {
  import opened Numerics
  import opened DesignData
  import opened Formulas
  import opened Compliance
  import opened StripDesign

  /** The seven footing checks, in the order the checker fills its dictionary. */
  const FootingKinds: seq<CheckKind> :=
    [BearingPressure, MinimumThickness, FlexuralStrength, MinimumSteel, MaximumSpacing, OneWayShear, PunchingShear]

  /** The values the footing checker uses, after its defaults (plan in m, the rest in mm, kN, kN/m²). */
  datatype FootingInput = FootingInput(
    length: real, breadth: real, thickness: real, cover: real, columnSize: real, barDiameter: real,
    concreteGrade: string, steelGrade: string, axialLoad: real, bearingCapacity: real, spacing: real)

  function FootingInputOf(d: MemberData): FootingInput {
    FootingInput(
      Read(d.dimensions, "length", 0.0), Read(d.dimensions, "breadth", 0.0), Read(d.dimensions, "depth", 0.0),
      Read(d.reinforcement, "cover", 50.0), Read(d.dimensions, "column_size", 300.0),
      Read(d.reinforcement, "bar_diameter", 16.0),
      ReadGrade(d.materials, "concrete_grade", "M20"), ReadGrade(d.materials, "steel_grade", "Fe500"),
      Read(d.loads, "axial_load", 0.0), Read(d.loads, "safe_bearing_capacity", 200.0),
      Read(d.reinforcement, "spacing", 150.0))
  }

  function LengthMm(f: FootingInput): real {
    f.length * 1000.0
  }

  function BreadthMm(f: FootingInput): real {
    f.breadth * 1000.0
  }

  function FootingEffectiveDepth(f: FootingInput): real {
    f.thickness - f.cover - f.barDiameter / 2.0
  }

  /** Plan area (m²). */
  function FootingArea(f: FootingInput): real {
    LengthMm(f) * BreadthMm(f) / 1000000.0
  }

  /** Weight of the footing itself (kN). */
  function FootingOwnWeight(f: FootingInput): real {
    FootingArea(f) * f.thickness / 1000.0 * ConcreteDensity
  }

  /** Gross soil pressure (kN/m²) under the axial load plus the footing's weight. */
  function GrossPressure(f: FootingInput): Option<real> {
    Div(f.axialLoad + FootingOwnWeight(f), FootingArea(f))
  }

  /** Net upward pressure (kN/m²): the gross pressure less the footing's own weight per area. */
  function NetPressure(f: FootingInput): Option<real> {
    var gross :- GrossPressure(f);
    var relief :- Div(FootingOwnWeight(f), FootingArea(f));
    Some(gross - relief)
  }

  /** Cantilever (m) from the column face to the edge along the longer side. */
  function Cantilever(f: FootingInput): real {
    (Max(LengthMm(f), BreadthMm(f)) - f.columnSize) / 2.0 / 1000.0
  }

  /** Moment (kNm) of the net pressure on a strip `width` mm wide over the cantilever. */
  function StripMoment(net: real, width: real, cantilever: real): real {
    net * width / 1000.0 * Square(cantilever) / 2.0
  }

  /** `max(moment_x, moment_y)`, with the two moments assigned by the plan orientation. */
  function CriticalMoment(f: FootingInput, net: real): real {
    var cl := Cantilever(f);
    if LengthMm(f) >= BreadthMm(f) then
      Max(StripMoment(net, BreadthMm(f), cl), StripMoment(net, LengthMm(f), cl))
    else
      Max(StripMoment(net, LengthMm(f), cl), StripMoment(net, BreadthMm(f), cl))
  }

  /** Width (mm) of the critical strip, the shorter side. */
  function StripWidth(f: FootingInput): real {
    Min(LengthMm(f), BreadthMm(f))
  }

  /** Required steel (mm²) for the critical moment spread over the strip width. */
  function FootingRequiredSteel(f: FootingInput, net: real): Option<real> {
    var mu :- Div(CriticalMoment(f, net) * 1000000.0, StripWidth(f));
    InlineRequiredSteel(mu, ConcreteFck(f.concreteGrade), SteelFy(f.steelGrade), StripWidth(f),
                        FootingEffectiveDepth(f))
  }

  /** `int(b/spacing) + 1` bars across the strip. */
  function FootingBarCount(f: FootingInput): Option<int> {
    var bays :- Div(StripWidth(f), f.spacing);
    Some(Trunc(bays) + 1)
  }

  function FootingProvidedSteel(m: MathLib, f: FootingInput): Option<real> {
    var count :- FootingBarCount(f);
    Some(count as real * BarArea(m, f.barDiameter))
  }

  function BearingCheck(f: FootingInput, gross: real): (r: Check)
    ensures r.kind == BearingPressure && r.pass == Meets(r)
  {
    Check(BearingPressure, f.bearingCapacity, gross, gross <= f.bearingCapacity)
  }

  /** Thickness against `max(150, cantilever/4)` (mm). */
  function FootingThicknessCheck(f: FootingInput): (r: Check)
    ensures r.kind == MinimumThickness && r.pass == Meets(r)
    ensures r.limit >= 150.0 && r.limit >= Cantilever(f) * 1000.0 / 4.0
    ensures r.limit == 150.0 || r.limit == Cantilever(f) * 1000.0 / 4.0
    ensures r.actual == f.thickness
    ensures r.pass <==> f.thickness >= 150.0 && f.thickness >= Cantilever(f) * 1000.0 / 4.0
  {
    var required := Max(150.0, Cantilever(f) * 1000.0 / 4.0);
    Check(MinimumThickness, required, f.thickness, f.thickness >= required)
  }

  function FootingFlexuralCheck(required: real, provided: real): (r: Check)
    ensures r.kind == FlexuralStrength && r.pass == Meets(r)
  {
    Check(FlexuralStrength, required, provided, provided >= required)
  }

  /** `0.12 %` of the strip's gross section. */
  function FootingMinimumSteelCheck(f: FootingInput, provided: real): (r: Check)
    ensures r.kind == MinimumSteel && r.pass == Meets(r)
    ensures r.limit == 0.0012 * (f.thickness * StripWidth(f)) && r.actual == provided
    ensures r.pass <==> provided >= 0.0012 * (f.thickness * StripWidth(f))
  {
    var required := 0.12 * f.thickness * StripWidth(f) / 100.0;
    Check(MinimumSteel, required, provided, provided >= required)
  }

  function FootingSpacingCheck(f: FootingInput): (r: Check)
    ensures r.kind == MaximumSpacing && r.pass == Meets(r)
    ensures r.limit <= 3.0 * f.thickness && r.limit <= 450.0
    ensures r.limit == 3.0 * f.thickness || r.limit == 450.0
    ensures r.actual == f.spacing
    ensures r.pass <==> f.spacing <= 3.0 * f.thickness && f.spacing <= 450.0
  {
    var allowed := Min(3.0 * f.thickness, 450.0);
    Check(MaximumSpacing, allowed, f.spacing, f.spacing <= allowed)
  }

  /** Distance (m) from the section at d from the column face to the edge. */
  function ShearSpan(f: FootingInput): real {
    Cantilever(f) - FootingEffectiveDepth(f) / 1000.0
  }

  /**
   * One-way shear at d from the column face against `0.36·√fck`; when that section lies
   * beyond the edge the check is a pass with both stresses reported as zero.
   */
  function OneWayShearCheck(m: MathLib, f: FootingInput, net: real): (r: Option<Check>)
    ensures r.Some? ==> r.value.kind == OneWayShear && r.value.pass == Meets(r.value)
  {
    if ShearSpan(f) > 0.0 then
      var force := net * StripWidth(f) / 1000.0 * ShearSpan(f) * 1000.0;
      var tau :- Div(force, StripWidth(f) * FootingEffectiveDepth(f));
      var allowed := 0.36 * m.sqrt(ConcreteFck(f.concreteGrade));
      Some(Check(OneWayShear, allowed, tau, tau <= allowed))
    else
      Some(Check(OneWayShear, 0.0, 0.0, true))
  }

  /** Upward force (N) outside the punching perimeter at d/2 from the column face. */
  function PunchingForce(f: FootingInput, net: real): real {
    f.axialLoad * 1000.0 - net * Square(f.columnSize + FootingEffectiveDepth(f)) / 1000000.0 * 1000.0
  }

  /** Punching stress on the perimeter `4·(column + d)` against `0.25·√fck`. */
  function PunchingShearCheck(m: MathLib, f: FootingInput, net: real): (r: Option<Check>)
    ensures r.Some? <==> (f.columnSize + FootingEffectiveDepth(f)) * FootingEffectiveDepth(f) != 0.0
    ensures r.Some? ==> r.value.kind == PunchingShear && r.value.pass == Meets(r.value)
    ensures r.Some? ==> r.value.limit == 0.25 * m.sqrt(ConcreteFck(f.concreteGrade))
    ensures r.Some? ==> r.value.actual * (4.0 * (f.columnSize + FootingEffectiveDepth(f)) * FootingEffectiveDepth(f))
                        == PunchingForce(f, net)
    ensures r.Some? ==> (r.value.pass <==> r.value.actual <= 0.25 * m.sqrt(ConcreteFck(f.concreteGrade)))
  {
    var perimeter := 4.0 * (f.columnSize + FootingEffectiveDepth(f));
    var tau :- Div(PunchingForce(f, net), perimeter * FootingEffectiveDepth(f));
    var allowed := 0.25 * m.sqrt(ConcreteFck(f.concreteGrade));
    Some(Check(PunchingShear, allowed, tau, tau <= allowed))
  }

  /** The seven checks in order, given the values and the checks that can raise. */
  function FootingChecks(f: FootingInput, gross: real, required: real, provided: real, oneWay: Check, punching: Check)
    : (checks: seq<Check>)
    requires oneWay.kind == OneWayShear && oneWay.pass == Meets(oneWay)
    requires punching.kind == PunchingShear && punching.pass == Meets(punching)
    ensures Kinds(checks) == FootingKinds && Judged(checks)
  {
    [BearingCheck(f, gross), FootingThicknessCheck(f), FootingFlexuralCheck(required, provided),
     FootingMinimumSteelCheck(f, provided), FootingSpacingCheck(f), oneWay, punching]
  }

  /** The checks and summary of a footing, or `None` where the source raises. */
  function FootingReport(m: MathLib, f: FootingInput): (r: Option<Report>)
    ensures r.Some? ==> Kinds(r.value.checks) == FootingKinds && Judged(r.value.checks)
  {
    var gross :- GrossPressure(f);
    var net := NetPressure(f).value;
    var required :- FootingRequiredSteel(f, net);
    var provided :- FootingProvidedSteel(m, f);
    var oneWay :- OneWayShearCheck(m, f, net);
    var punching :- PunchingShearCheck(m, f, net);
    Some(Report(
      FootingSummary(LengthMm(f), BreadthMm(f), f.thickness, FootingEffectiveDepth(f), FootingArea(f), gross,
                     CriticalMoment(f, net), f.concreteGrade, f.steelGrade),
      FootingChecks(f, gross, required, provided, oneWay, punching)))
  }

  /** `check_footing_compliance(design_data)`. */
  function CheckFooting(data: MemberData, m: MathLib): (r: CheckResult)
    ensures WellFormed(r, Footing, FootingKinds)
    ensures !data.Complete() ==> r == Error(Footing)
  {
    if !data.Complete() then Error(Footing) else Finish(Footing, FootingReport(m, FootingInputOf(data)))
  }

  /** The footing's own weight cancels: the net pressure is the axial load over the area. */
  lemma NetPressureIsAxialOverArea(f: FootingInput)
    requires FootingArea(f) != 0.0
    ensures NetPressure(f).Some?
    ensures NetPressure(f).value * FootingArea(f) == f.axialLoad
  {
    var a := FootingArea(f);
    var g := (f.axialLoad + FootingOwnWeight(f)) / a;
    var w := FootingOwnWeight(f) / a;
    assert g * a == f.axialLoad + FootingOwnWeight(f);
    assert w * a == FootingOwnWeight(f);
    assert (g - w) * a == g * a - w * a;
  }

  /**
   * Without an axial load there is nothing for the footing to carry: the net pressure and
   * the critical moment are zero, and the reported bearing pressure is the footing's own
   * weight over its area.
   */
  lemma FootingWithoutAxialLoad(f: FootingInput, gross: real)
    requires f.axialLoad == 0.0 && GrossPressure(f) == Some(gross)
    ensures NetPressure(f) == Some(0.0)
    ensures CriticalMoment(f, 0.0) == 0.0
    ensures gross * FootingArea(f) == FootingOwnWeight(f)
  {
    NetPressureIsAxialOverArea(f);
    CancelNonZero(NetPressure(f).value, FootingArea(f));
    NoMomentWithoutPressure(f);
  }

  /** The summary reports the gross pressure and the critical moment under the net pressure. */
  lemma FootingSummaryValues(m: MathLib, f: FootingInput, net: real)
    requires FootingReport(m, f).Some? && NetPressure(f) == Some(net)
    ensures GrossPressure(f) == Some(FootingReport(m, f).value.summary.bearingPressure)
    ensures FootingReport(m, f).value.summary.criticalMoment == CriticalMoment(f, net)
  {
  }

  lemma NoMomentWithoutPressure(f: FootingInput)
    ensures CriticalMoment(f, 0.0) == 0.0
  {
    var cl := Cantilever(f);
    assert StripMoment(0.0, LengthMm(f), cl) == 0.0 && StripMoment(0.0, BreadthMm(f), cl) == 0.0;
  }

  /**
   * A footing checked with no axial load reports a zero critical moment and a bearing
   * pressure that is only its own weight over its area.
   */
  lemma UnloadedFootingReport(m: MathLib, f: FootingInput)
    requires f.axialLoad == 0.0 && FootingReport(m, f).Some?
    ensures FootingReport(m, f).value.summary.criticalMoment == 0.0
    ensures FootingReport(m, f).value.summary.bearingPressure == FootingOwnWeight(f) / FootingArea(f)
  {
    assert GrossPressure(f).Some?;
    FootingWithoutAxialLoad(f, GrossPressure(f).value);
    FootingSummaryValues(m, f, 0.0);
  }

  /** With a positive area the bearing check passes iff the total load fits `sbc·area`. */
  lemma BearingPasses(f: FootingInput)
    requires FootingArea(f) > 0.0
    ensures GrossPressure(f).Some?
    ensures BearingCheck(f, GrossPressure(f).value).pass
        <==> f.axialLoad + FootingOwnWeight(f) <= f.bearingCapacity * FootingArea(f)
  {
    var g := GrossPressure(f).value;
    assert g * FootingArea(f) == f.axialLoad + FootingOwnWeight(f);
    if g <= f.bearingCapacity {
      MulMonotone(g, f.bearingCapacity, FootingArea(f));
    } else {
      MulPositive(g - f.bearingCapacity, FootingArea(f));
    }
  }

  /**
   * The critical moment does not depend on which side is called the length: it is the
   * larger of the strip moments over the two sides, and under a non-negative net
   * pressure it is the strip moment over the longer side.
   */
  lemma CriticalMomentOnLongerSide(f: FootingInput, net: real)
    ensures CriticalMoment(f, net)
         == Max(StripMoment(net, LengthMm(f), Cantilever(f)), StripMoment(net, BreadthMm(f), Cantilever(f)))
    ensures net >= 0.0 ==>
              CriticalMoment(f, net) == StripMoment(net, Max(LengthMm(f), BreadthMm(f)), Cantilever(f))
  {
    var cl := Cantilever(f);
    if net >= 0.0 {
      var lo, hi := Min(LengthMm(f), BreadthMm(f)), Max(LengthMm(f), BreadthMm(f));
      StripMomentMonotone(net, lo, hi, cl);
    }
  }

  /** The strip moment grows with the strip width under a non-negative pressure. */
  lemma StripMomentMonotone(net: real, w1: real, w2: real, cl: real)
    requires net >= 0.0 && w1 <= w2
    ensures StripMoment(net, w1, cl) <= StripMoment(net, w2, cl)
  {
    SquareNonNegative(cl);
    MulMonotone(w1, w2, net);
    assert net * w1 <= net * w2;
    MulMonotone(net * w1 / 1000.0, net * w2 / 1000.0, Square(cl));
  }

  /** One-way shear is a forced pass, with zero stresses, when the section at d lies beyond the edge. */
  lemma OneWayShearForcedPass(m: MathLib, f: FootingInput, net: real)
    requires ShearSpan(f) <= 0.0
    ensures OneWayShearCheck(m, f, net) == Some(Check(OneWayShear, 0.0, 0.0, true))
  {
  }

  /** Otherwise it passes iff the shear stress is within `0.36·√fck`. */
  lemma OneWayShearPasses(m: MathLib, f: FootingInput, net: real)
    requires ShearSpan(f) > 0.0 && StripWidth(f) * FootingEffectiveDepth(f) != 0.0
    ensures OneWayShearCheck(m, f, net).Some?
    ensures OneWayShearCheck(m, f, net).value.limit == 0.36 * m.sqrt(ConcreteFck(f.concreteGrade))
    ensures OneWayShearCheck(m, f, net).value.pass
        <==> OneWayShearCheck(m, f, net).value.actual <= 0.36 * m.sqrt(ConcreteFck(f.concreteGrade))
    ensures OneWayShearCheck(m, f, net).value.actual * (StripWidth(f) * FootingEffectiveDepth(f))
         == net * StripWidth(f) / 1000.0 * ShearSpan(f) * 1000.0
  {
  }

  /**
   * With the net pressure the checker computes, the punching force is the axial load
   * less the share of it that falls inside the punching square:
   * `P·1000·(1 − (column + d)²/(L·B))`.
   */
  lemma PunchingForceShare(f: FootingInput)
    requires FootingArea(f) != 0.0
    ensures NetPressure(f).Some?
    ensures PunchingForce(f, NetPressure(f).value) * (LengthMm(f) * BreadthMm(f))
         == f.axialLoad * 1000.0 * (LengthMm(f) * BreadthMm(f) - Square(f.columnSize + FootingEffectiveDepth(f)))
  {
    NetPressureIsAxialOverArea(f);
    var net := NetPressure(f).value;
    var lb := LengthMm(f) * BreadthMm(f);
    var sq := Square(f.columnSize + FootingEffectiveDepth(f));
    assert net * lb == f.axialLoad * 1000000.0;
    assert PunchingForce(f, net) == f.axialLoad * 1000.0 - net * sq / 1000.0;
    assert PunchingForce(f, net) * lb == f.axialLoad * 1000.0 * lb - (net * lb) * sq / 1000.0;
  }

  /** On a real strip with a positive spacing at least one bar is provided; closer bars mean no fewer. */
  lemma FootingBarCountBounds(f: FootingInput, spacing: real)
    requires StripWidth(f) >= 0.0 && 0.0 < spacing <= f.spacing
    ensures FootingBarCount(f).Some? && FootingBarCount(f.(spacing := spacing)).Some?
    ensures FootingBarCount(f).value >= 1
    ensures FootingBarCount(f).value <= FootingBarCount(f.(spacing := spacing)).value
  {
    var w := StripWidth(f);
    assert StripWidth(f.(spacing := spacing)) == w;
    QuotientBounds(w, f.spacing, w / f.spacing) by {
      assert (w / f.spacing) * f.spacing == w;
    }
    DivideAntitone(w, spacing, f.spacing);
    TruncMonotone(w / f.spacing, w / spacing);
  }

  /**
   * A footing raises exactly when its area, its effective depth, its bar spacing or
   * `column + d` is zero.
   */
  lemma FootingRaises(m: MathLib, f: FootingInput)
    requires || FootingArea(f) == 0.0 || FootingEffectiveDepth(f) == 0.0 || f.spacing == 0.0
             || f.columnSize + FootingEffectiveDepth(f) == 0.0
    ensures FootingReport(m, f).None?
  {
    if FootingArea(f) != 0.0 {
      var net := NetPressure(f).value;
      if FootingEffectiveDepth(f) == 0.0 {
        assert FootingRequiredSteel(f, net).None?;
      } else if f.spacing == 0.0 {
        assert FootingProvidedSteel(m, f).None?;
      } else {
        assert PunchingShearCheck(m, f, net).None?;
      }
    }
  }

  lemma FootingSucceeds(m: MathLib, f: FootingInput)
    requires FootingArea(f) != 0.0 && FootingEffectiveDepth(f) != 0.0 && f.spacing != 0.0
    requires f.columnSize + FootingEffectiveDepth(f) != 0.0
    ensures FootingReport(m, f).Some?
  {
    var d := FootingEffectiveDepth(f);
    var w := StripWidth(f);
    assert LengthMm(f) != 0.0 && BreadthMm(f) != 0.0;
    assert w != 0.0;
    var net := NetPressure(f).value;
    var mu := CriticalMoment(f, net) * 1000000.0 / w;
    InlineSteelDefined(mu, ConcreteFck(f.concreteGrade), SteelFy(f.steelGrade), w, d);
    NonZeroProduct(w, d);
    NonZeroProduct(4.0 * (f.columnSize + d), d);
  }
}
