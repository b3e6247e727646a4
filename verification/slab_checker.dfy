/**
 * `check_slab_compliance`: a slab classified as one-way or two-way by its aspect ratio,
 * designed as a 1000 mm strip of its shorter span, and checked for minimum thickness,
 * flexure, minimum steel, bar spacing and shear, plus distribution steel when one-way.
 */
module SlabChecker {
  import opened Numerics
  import opened DesignData
  import opened Formulas
  import opened Compliance
  import opened StripDesign

  /** The checks of a one-way slab, in order; a two-way slab has the first five. */
  const OneWayKinds: seq<CheckKind> :=
    [MinimumThickness, FlexuralStrength, MinimumSteel, MaximumSpacing, ShearStrength, DistributionSteel]

  const TwoWayKinds: seq<CheckKind> :=
    [MinimumThickness, FlexuralStrength, MinimumSteel, MaximumSpacing, ShearStrength]

  function SlabKinds(t: SlabType): seq<CheckKind> {
    if t == OneWay then OneWayKinds else TwoWayKinds
  }

  /** The values the slab checker reads, after its defaults (spans in m, the rest in mm and kN/m²). */
  datatype SlabInput = SlabInput(
    length: real, breadth: real, thickness: real, cover: real, barDiameter: real,
    concreteGrade: string, steelGrade: string, deadLoad: real, liveLoad: real,
    spacing: real, distributionSpacing: real)

  function SlabInputOf(d: MemberData): SlabInput {
    SlabInput(
      Read(d.dimensions, "length", 0.0), Read(d.dimensions, "breadth", 0.0), Read(d.dimensions, "depth", 0.0),
      Read(d.reinforcement, "cover", 20.0), Read(d.reinforcement, "bar_diameter", 10.0),
      ReadGrade(d.materials, "concrete_grade", "M20"), ReadGrade(d.materials, "steel_grade", "Fe500"),
      Read(d.loads, "dead_load", 0.0), Read(d.loads, "live_load", 0.0),
      Read(d.reinforcement, "spacing", 150.0), Read(d.reinforcement, "distribution_spacing", 200.0))
  }

  function LengthMm(s: SlabInput): real {
    s.length * 1000.0
  }

  function BreadthMm(s: SlabInput): real {
    s.breadth * 1000.0
  }

  function SlabEffectiveDepth(s: SlabInput): real {
    s.thickness - s.cover - s.barDiameter / 2.0
  }

  /** Self-weight the checker adds to the dead load read (kN/m²). */
  function OwnWeight(s: SlabInput): real {
    s.thickness / 1000.0 * ConcreteDensity
  }

  /** Factored load (kN/m²) on the dead load read plus the slab's own weight. */
  function SlabFactoredLoad(s: SlabInput): real {
    LoadFactorDead * (s.deadLoad + OwnWeight(s)) + LoadFactorLive * s.liveLoad
  }

  /** Longer over shorter side; raises when a side is zero. */
  function AspectRatio(s: SlabInput): Option<real> {
    Div(Max(LengthMm(s), BreadthMm(s)), Min(LengthMm(s), BreadthMm(s)))
  }

  function TypeOf(aspect: real): (t: SlabType)
    ensures t == OneWay <==> aspect >= 2.0
  {
    if aspect >= 2.0 then OneWay else TwoWay
  }

  /** Shorter span (m). */
  function ShorterSpan(s: SlabInput): real {
    Min(LengthMm(s), BreadthMm(s)) / 1000.0
  }

  /** Design moment (kNm per m): `wu·L²/8` one-way, `0.087·wu·L²` two-way. */
  function SlabMoment(s: SlabInput, t: SlabType): real {
    if t == OneWay then SlabFactoredLoad(s) * Square(ShorterSpan(s)) / 8.0
    else 0.087 * SlabFactoredLoad(s) * Square(ShorterSpan(s))
  }

  /** The design moment in Nmm per mm width: `Mu·1e6/1000`. */
  function MomentPerMm(s: SlabInput, t: SlabType): real {
    SlabMoment(s, t) * 1000000.0 / 1000.0
  }

  /** Required steel (mm² per m) of a 1000 mm strip. */
  function SlabRequiredSteel(s: SlabInput, t: SlabType): Option<real> {
    InlineRequiredSteel(MomentPerMm(s, t), ConcreteFck(s.concreteGrade), SteelFy(s.steelGrade),
                        1000.0, SlabEffectiveDepth(s))
  }

  /** Steel provided per metre by bars of the main diameter at a given spacing. */
  function SteelPerMetre(m: MathLib, s: SlabInput, spacing: real): Option<real> {
    Div(1000.0 * BarArea(m, s.barDiameter), spacing)
  }

  /** `0.12 %` of a 1000 mm strip of the slab's thickness (mm² per m). */
  function SlabMinimumSteel(s: SlabInput): real {
    0.12 * s.thickness * 1000.0 / 100.0
  }

  /** Thickness against `L/20` of the shorter span (mm). */
  function MinimumThicknessCheck(s: SlabInput): (r: Check)
    ensures r.kind == MinimumThickness && r.pass == Meets(r)
    ensures 20.0 * r.limit == Min(LengthMm(s), BreadthMm(s)) && r.actual == s.thickness
    ensures r.pass <==> 20.0 * s.thickness >= Min(LengthMm(s), BreadthMm(s))
  {
    var required := ShorterSpan(s) * 1000.0 / 20.0;
    Check(MinimumThickness, required, s.thickness, s.thickness >= required)
  }

  function SlabFlexuralCheck(required: real, provided: real): (r: Check)
    ensures r.kind == FlexuralStrength && r.pass == Meets(r)
  {
    Check(FlexuralStrength, required, provided, provided >= required)
  }

  /** At least 0.12 % of a 1000 mm strip, that is `1.2·t` mm² per metre. */
  function SlabMinimumSteelCheck(s: SlabInput, provided: real): (r: Check)
    ensures r.kind == MinimumSteel && r.pass == Meets(r)
    ensures r.limit == 1.2 * s.thickness && r.actual == provided
    ensures r.pass <==> provided >= 1.2 * s.thickness
  {
    Check(MinimumSteel, SlabMinimumSteel(s), provided, provided >= SlabMinimumSteel(s))
  }

  /** Spacing against `min(3t, 300)` (mm). */
  function MaximumSpacingCheck(s: SlabInput): (r: Check)
    ensures r.kind == MaximumSpacing && r.pass == Meets(r)
    ensures r.limit <= 3.0 * s.thickness && r.limit <= 300.0
    ensures r.limit == 3.0 * s.thickness || r.limit == 300.0
    ensures r.actual == s.spacing
    ensures r.pass <==> s.spacing <= 3.0 * s.thickness && s.spacing <= 300.0
  {
    var allowed := Min(3.0 * s.thickness, 300.0);
    Check(MaximumSpacing, allowed, s.spacing, s.spacing <= allowed)
  }

  /** Nominal shear stress `(wu·L/2·1000)/(1000·d)` against `0.25·√fck`. */
  function SlabShearCheck(m: MathLib, s: SlabInput): (r: Option<Check>)
    ensures r.Some? ==> r.value.kind == ShearStrength && r.value.pass == Meets(r.value)
  {
    var tau :- Div(SlabFactoredLoad(s) * ShorterSpan(s) / 2.0 * 1000.0, 1000.0 * SlabEffectiveDepth(s));
    var allowed := 0.25 * m.sqrt(ConcreteFck(s.concreteGrade));
    Some(Check(ShearStrength, allowed, tau, tau <= allowed))
  }

  /** Distribution bars of the main diameter at `distribution_spacing`, against the same 0.12 %. */
  function DistributionSteelCheck(m: MathLib, s: SlabInput): (r: Option<Check>)
    ensures r.Some? <==> s.distributionSpacing != 0.0
    ensures r.Some? ==> r.value.kind == DistributionSteel && r.value.pass == Meets(r.value)
    ensures r.Some? ==> r.value.limit == 1.2 * s.thickness
    ensures r.Some? ==> r.value.actual * s.distributionSpacing == 1000.0 * BarArea(m, s.barDiameter)
    ensures r.Some? ==> (r.value.pass <==> r.value.actual >= 1.2 * s.thickness)
  {
    var provided :- SteelPerMetre(m, s, s.distributionSpacing);
    Some(Check(DistributionSteel, SlabMinimumSteel(s), provided, provided >= SlabMinimumSteel(s)))
  }

  /** The five checks every slab has, in order. */
  function SlabMainChecks(s: SlabInput, required: real, provided: real, shear: Check): (checks: seq<Check>)
    requires shear.kind == ShearStrength && shear.pass == Meets(shear)
    ensures Kinds(checks) == TwoWayKinds && Judged(checks)
  {
    [MinimumThicknessCheck(s), SlabFlexuralCheck(required, provided), SlabMinimumSteelCheck(s, provided),
     MaximumSpacingCheck(s), shear]
  }

  /** The distribution-steel check, appended for a one-way slab only. */
  function WithDistribution(m: MathLib, s: SlabInput, t: SlabType, main: seq<Check>): (r: Option<seq<Check>>)
    requires Kinds(main) == TwoWayKinds && Judged(main)
    ensures r.Some? <==> t == TwoWay || DistributionSteelCheck(m, s).Some?
    ensures r.Some? ==> Kinds(r.value) == SlabKinds(t) && Judged(r.value)
    ensures r.Some? ==> r.value[..5] == main
  {
    match t
    case OneWay =>
      var distribution :- DistributionSteelCheck(m, s);
      var checks := main + [distribution];
      assert checks[..5] == main;
      assert Kinds(checks) == OneWayKinds by {
        assert forall i :: 0 <= i < 5 ==> Kinds(checks)[i] == Kinds(main)[i];
      }
      Some(checks)
    case TwoWay =>
      assert |main| == |Kinds(main)| == 5;
      assert main[..5] == main;
      Some(main)
  }

  /** The checks and summary of a slab, or `None` where the source raises. */
  function SlabReport(m: MathLib, s: SlabInput): (r: Option<Report>)
    ensures r.Some? ==> r.value.summary.SlabSummary?
    ensures r.Some? ==> Kinds(r.value.checks) == SlabKinds(r.value.summary.slabType) && Judged(r.value.checks)
    ensures r.Some? ==> (r.value.summary.slabType == OneWay <==> r.value.summary.aspectRatio >= 2.0)
    ensures r.Some? ==> r.value.summary.factoredLoad == SlabFactoredLoad(s)
  {
    var aspect :- AspectRatio(s);
    var t := TypeOf(aspect);
    var required :- SlabRequiredSteel(s, t);
    var provided :- SteelPerMetre(m, s, s.spacing);
    var shear := SlabShearCheck(m, s).value;
    var checks :- WithDistribution(m, s, t, SlabMainChecks(s, required, provided, shear));
    Some(Report(
      SlabSummary(LengthMm(s), BreadthMm(s), s.thickness, SlabEffectiveDepth(s), t, aspect,
                  SlabMoment(s, t), SlabFactoredLoad(s), s.concreteGrade, s.steelGrade),
      checks))
  }

  /** `check_slab_compliance(design_data)`. */
  function CheckSlab(data: MemberData, m: MathLib): (r: CheckResult)
    ensures r.memberType == Slab
    ensures r.Ok? ==> r.summary.SlabSummary? && WellFormed(r, Slab, SlabKinds(r.summary.slabType))
    ensures r.Ok? ==> r.summary.factoredLoad == SlabFactoredLoad(SlabInputOf(data))
    ensures !data.Complete() ==> r == Error(Slab)
  {
    if !data.Complete() then Error(Slab) else Finish(Slab, SlabReport(m, SlabInputOf(data)))
  }

  /**
   * A slab raises when its shorter side (the smaller of the two, so a negative side
   * counts) or its effective depth is zero, when the bar spacing is zero, or when it is
   * one-way with a zero distribution spacing ...
   */
  lemma SlabRaises(m: MathLib, s: SlabInput)
    requires || ShorterSpan(s) == 0.0 || SlabEffectiveDepth(s) == 0.0 || s.spacing == 0.0
             || (AspectRatio(s).Some? && AspectRatio(s).value >= 2.0 && s.distributionSpacing == 0.0)
    ensures SlabReport(m, s).None?
  {
    if AspectRatio(s).Some? {
      var t := TypeOf(AspectRatio(s).value);
      if SlabEffectiveDepth(s) == 0.0 {
        assert SlabRequiredSteel(s, t).None?;
      } else if s.spacing == 0.0 {
        assert SteelPerMetre(m, s, s.spacing).None?;
      } else {
        assert t == OneWay && DistributionSteelCheck(m, s).None?;
      }
    }
  }

  /** ... and in no other case. */
  lemma SlabSucceeds(m: MathLib, s: SlabInput)
    requires ShorterSpan(s) != 0.0 && SlabEffectiveDepth(s) != 0.0 && s.spacing != 0.0
    requires AspectRatio(s).Some? && AspectRatio(s).value >= 2.0 ==> s.distributionSpacing != 0.0
    ensures SlabReport(m, s).Some?
  {
    var d := SlabEffectiveDepth(s);
    var t := TypeOf(AspectRatio(s).value);
    InlineSteelDefined(MomentPerMm(s, t), ConcreteFck(s.concreteGrade), SteelFy(s.steelGrade), 1000.0, d);
    NonZeroProduct(1000.0, d);
  }

  /** A one-way slab reports six checks, a two-way slab five. */
  lemma SlabCheckCount(m: MathLib, s: SlabInput)
    requires SlabReport(m, s).Some?
    ensures |SlabReport(m, s).value.checks| == 6 <==> SlabReport(m, s).value.summary.slabType == OneWay
    ensures |SlabReport(m, s).value.checks| == 5 <==> SlabReport(m, s).value.summary.slabType == TwoWay
  {
    var r := SlabReport(m, s).value;
    assert |Kinds(r.checks)| == |r.checks|;
  }

  /** The aspect ratio of a real slab is at least 1, so a square slab is two-way. */
  lemma AspectRatioAtLeastOne(s: SlabInput)
    requires s.length > 0.0 && s.breadth > 0.0
    ensures AspectRatio(s).Some? && AspectRatio(s).value >= 1.0
    ensures s.length == s.breadth ==> TypeOf(AspectRatio(s).value) == TwoWay
  {
    var lo := Min(LengthMm(s), BreadthMm(s));
    var hi := Max(LengthMm(s), BreadthMm(s));
    assert lo > 0.0 && hi >= lo;
    assert lo / lo == 1.0;
    DivideMonotone(lo, hi, lo);
  }

  /** The checker adds the slab's own weight to the dead load read: `0.0375·t` kN/m² more. */
  lemma SlabLoadAddsOwnWeight(s: SlabInput)
    ensures SlabFactoredLoad(s) == 1.5 * s.deadLoad + 1.5 * s.liveLoad + 0.0375 * s.thickness
  {
  }

  /** Under a non-negative load the two-way coefficient 0.087 gives less moment than 1/8. */
  lemma TwoWayMomentBelowOneWay(s: SlabInput)
    requires SlabFactoredLoad(s) >= 0.0
    ensures 0.0 <= SlabMoment(s, TwoWay) <= SlabMoment(s, OneWay)
  {
    SquareNonNegative(ShorterSpan(s));
    var w := SlabFactoredLoad(s) * Square(ShorterSpan(s));
    MulMonotone(0.0, SlabFactoredLoad(s), Square(ShorterSpan(s)));
    assert SlabMoment(s, TwoWay) == 0.087 * w;
    assert SlabMoment(s, OneWay) == w / 8.0;
  }

  /**
   * On a real slab with a non-negative load, the required steel carries the moment on a
   * lever arm between `0.9·d` and `d`, and is positive iff the moment is.
   */
  lemma SlabRequiredSteelBounds(s: SlabInput, t: SlabType)
    requires SlabEffectiveDepth(s) > 0.0 && MomentPerMm(s, t) >= 0.0
    ensures SlabRequiredSteel(s, t).Some?
    ensures 0.9 * (SlabRequiredSteel(s, t).value * (0.87 * SteelFy(s.steelGrade) * SlabEffectiveDepth(s)))
         <= MomentPerMm(s, t)
         <= SlabRequiredSteel(s, t).value * (0.87 * SteelFy(s.steelGrade) * SlabEffectiveDepth(s))
    ensures SlabRequiredSteel(s, t).value > 0.0 <==> MomentPerMm(s, t) > 0.0
  {
    InlineSteelLeverArm(MomentPerMm(s, t), ConcreteFck(s.concreteGrade), SteelFy(s.steelGrade),
                        1000.0, SlabEffectiveDepth(s));
  }

  /** The shear check passes iff `wu·L/2 ≤ 0.25·√fck·d` (kN per m against N/mm² · mm). */
  lemma SlabShearPasses(m: MathLib, s: SlabInput)
    requires SlabEffectiveDepth(s) > 0.0
    ensures SlabShearCheck(m, s).Some?
    ensures SlabShearCheck(m, s).value.pass
        <==> SlabFactoredLoad(s) * ShorterSpan(s) / 2.0 <= 0.25 * m.sqrt(ConcreteFck(s.concreteGrade)) * SlabEffectiveDepth(s)
  {
    var d := SlabEffectiveDepth(s);
    var v := SlabFactoredLoad(s) * ShorterSpan(s) / 2.0;
    var allowed := 0.25 * m.sqrt(ConcreteFck(s.concreteGrade));
    var tau := v * 1000.0 / (1000.0 * d);
    assert tau * d == v;
    ScaleIff(tau, allowed, d);
  }

  /**
   * With the distribution spacing equal to the main spacing, the distribution check
   * compares the same steel with the same 0.12 % bound as the minimum-steel check.
   */
  lemma DistributionMirrorsMinimumSteel(m: MathLib, s: SlabInput)
    requires s.distributionSpacing == s.spacing && s.spacing != 0.0
    ensures DistributionSteelCheck(m, s).Some? && SteelPerMetre(m, s, s.spacing).Some?
    ensures DistributionSteelCheck(m, s).value.pass
        == SlabMinimumSteelCheck(s, SteelPerMetre(m, s, s.spacing).value).pass
    ensures DistributionSteelCheck(m, s).value.limit == 1.2 * s.thickness
  {
  }

  /**
   * Closer bars, all else equal, mean at least as much steel per metre, so they never turn
   * the flexural, minimum-steel or spacing check from pass to fail.
   */
  lemma CloserBarsKeepPasses(m: MathLib, s: SlabInput, spacing: real, required: real)
    requires Lawful(m) && 0.0 < spacing <= s.spacing
    ensures SteelPerMetre(m, s, spacing).Some? && SteelPerMetre(m, s, s.spacing).Some?
    ensures SteelPerMetre(m, s, s.spacing).value <= SteelPerMetre(m, s, spacing).value
    ensures SlabFlexuralCheck(required, SteelPerMetre(m, s, s.spacing).value).pass
        ==> SlabFlexuralCheck(required, SteelPerMetre(m, s, spacing).value).pass
    ensures SlabMinimumSteelCheck(s, SteelPerMetre(m, s, s.spacing).value).pass
        ==> SlabMinimumSteelCheck(s, SteelPerMetre(m, s, spacing).value).pass
    ensures MaximumSpacingCheck(s).pass ==> MaximumSpacingCheck(s.(spacing := spacing)).pass
  {
    BarAreaNonNegative(m, s.barDiameter);
    DivideAntitone(1000.0 * BarArea(m, s.barDiameter), spacing, s.spacing);
  }
}
