/**
 * `check_beam_compliance`: a simply supported rectangular beam under a factored
 * uniform load, checked for flexure, minimum and maximum steel, shear without
 * stirrups, span/depth ratio and development length, in that order.
 *
 * Each check is its own function of the values read; the report lists them in the
 * source's order and raises (is `None`) exactly when one of them raises.
 */
module BeamChecker {
  import opened Numerics
  import opened DesignData
  import opened Formulas
  import opened Compliance

  /** The six beam checks, in the order the checker fills its dictionary. */
  const BeamKinds: seq<CheckKind> :=
    [FlexuralStrength, MinimumSteel, MaximumSteel, ShearStrength, Deflection, DevelopmentLength]

  /** The values the beam checker reads, after its defaults (length in m, sections in mm, loads in kN/m). */
  datatype BeamInput = BeamInput(
    length: real, breadth: real, depth: real, cover: real, barDiameter: real, numBars: real,
    concreteGrade: string, steelGrade: string, deadLoad: real, liveLoad: real)

  function BeamInputOf(d: MemberData): BeamInput {
    BeamInput(
      Read(d.dimensions, "length", 0.0), Read(d.dimensions, "breadth", 0.0), Read(d.dimensions, "depth", 0.0),
      Read(d.reinforcement, "cover", 25.0), Read(d.reinforcement, "bar_diameter", 16.0),
      Read(d.reinforcement, "num_bars", 2.0),
      ReadGrade(d.materials, "concrete_grade", "M20"), ReadGrade(d.materials, "steel_grade", "Fe500"),
      Read(d.loads, "dead_load", 0.0), Read(d.loads, "live_load", 0.0))
  }

  /** Span in mm. */
  function Span(b: BeamInput): real {
    b.length * 1000.0
  }

  /** Effective depth (mm): overall depth less cover and half a bar. */
  function EffectiveDepth(b: BeamInput): real {
    b.depth - b.cover - b.barDiameter / 2.0
  }

  /** Factored uniform load (kN/m). */
  function FactoredLoad(b: BeamInput): (wu: real)
    ensures wu == 1.5 * b.deadLoad + 1.5 * b.liveLoad
  {
    LoadFactorDead * b.deadLoad + LoadFactorLive * b.liveLoad
  }

  /** Design moment (kNm) of the span `span / 1000`, which is the length read. */
  function BeamMoment(b: BeamInput): real {
    DesignMomentOf(b.length, FactoredLoad(b), []).value
  }

  /** Design shear (kN). */
  function BeamShear(b: BeamInput): real {
    DesignShearOf(b.length, FactoredLoad(b), [])
  }

  /** Required tension steel (mm²) for the design moment in Nmm. */
  function RequiredBeamSteel(b: BeamInput): Option<real> {
    RequiredSteel(BeamMoment(b) * 1000000.0, ConcreteFck(b.concreteGrade), SteelFy(b.steelGrade),
                  b.breadth, EffectiveDepth(b))
  }

  /** Provided tension steel (mm²): `int(num_bars)` bars of the given diameter. */
  function ProvidedSteel(m: MathLib, b: BeamInput): real {
    Trunc(b.numBars) as real * BarArea(m, b.barDiameter)
  }

  // The steel checks take the provided area `ast` (`Ast_provided`), computed once per beam.

  function FlexuralCheck(b: BeamInput, ast: real): (r: Option<Check>)
    ensures r.Some? ==> r.value.kind == FlexuralStrength && r.value.pass == Meets(r.value)
  {
    var required :- RequiredBeamSteel(b);
    Some(Check(FlexuralStrength, required, ast, ast >= required))
  }

  function MinimumSteelCheck(b: BeamInput, ast: real): (c: Check)
    ensures c.kind == MinimumSteel && c.pass == Meets(c)
  {
    var bound := CheckMinimumSteel(ast, b.breadth, EffectiveDepth(b), SteelFy(b.steelGrade)).value;
    Check(MinimumSteel, bound.limit, ast, bound.adequate)
  }

  function MaximumSteelCheck(b: BeamInput, ast: real): (c: Check)
    ensures c.kind == MaximumSteel && c.pass == Meets(c)
  {
    var bound := CheckMaximumSteel(ast, b.breadth, EffectiveDepth(b));
    Check(MaximumSteel, bound.limit, ast, bound.adequate)
  }

  /** Shear capacity without stirrups against the design shear in N. */
  function ShearCheck(m: MathLib, b: BeamInput, ast: real): (r: Option<Check>)
    ensures r.Some? ==> r.value.kind == ShearStrength && r.value.pass == Meets(r.value)
  {
    var capacity :- ShearCapacity(m, b.breadth, EffectiveDepth(b), ConcreteFck(b.concreteGrade), ast);
    var demand := BeamShear(b) * 1000.0;
    Some(Check(ShearStrength, capacity, demand, capacity >= demand))
  }

  /** Span/effective-depth ratio against the simply supported basic ratio; kt is fixed at 1. */
  function DeflectionCheck(b: BeamInput): (r: Option<Check>)
    ensures r.Some? ==> r.value.kind == Deflection && r.value.pass == Meets(r.value)
  {
    var actual :- Div(Span(b), EffectiveDepth(b));
    var allowable := DeflectionRatio("simply_supported") * 1.0;
    Some(Check(Deflection, allowable, actual, actual <= allowable))
  }

  /** Development length `bar_dia·fy/(4·√fck)` against half the span. */
  function DevelopmentLengthCheck(m: MathLib, b: BeamInput): (r: Option<Check>)
    ensures r.Some? ==> r.value.kind == DevelopmentLength && r.value.pass == Meets(r.value)
  {
    var fck := ConcreteFck(b.concreteGrade);
    var required :- Div(b.barDiameter * SteelFy(b.steelGrade), 4.0 * m.sqrt(fck));
    var available := Span(b) / 2.0;
    Some(Check(DevelopmentLength, required, available, available >= required))
  }

  /** The checks and summary of a beam, or `None` where the source raises. */
  function BeamReport(m: MathLib, b: BeamInput): (r: Option<Report>)
    ensures r.Some? <==>
      && FlexuralCheck(b, ProvidedSteel(m, b)).Some? && ShearCheck(m, b, ProvidedSteel(m, b)).Some?
      && DeflectionCheck(b).Some? && DevelopmentLengthCheck(m, b).Some?
    ensures r.Some? ==> Kinds(r.value.checks) == BeamKinds && Judged(r.value.checks)
  {
    var ast := ProvidedSteel(m, b);
    var flexural :- FlexuralCheck(b, ast);
    var shear :- ShearCheck(m, b, ast);
    var deflection :- DeflectionCheck(b);
    var development :- DevelopmentLengthCheck(m, b);
    Some(Report(
      BeamSummary(Span(b), b.breadth, b.depth, EffectiveDepth(b), BeamMoment(b), BeamShear(b),
                  b.concreteGrade, b.steelGrade),
      BeamChecks(b, ast, flexural, shear, deflection, development)))
  }

  /** The six checks in order, given the provided steel and the four checks that can raise. */
  function BeamChecks(b: BeamInput, ast: real, flexural: Check, shear: Check, deflection: Check, development: Check)
    : (checks: seq<Check>)
    requires flexural.kind == FlexuralStrength && flexural.pass == Meets(flexural)
    requires shear.kind == ShearStrength && shear.pass == Meets(shear)
    requires deflection.kind == Deflection && deflection.pass == Meets(deflection)
    requires development.kind == DevelopmentLength && development.pass == Meets(development)
    ensures Kinds(checks) == BeamKinds && Judged(checks)
  {
    [flexural, MinimumSteelCheck(b, ast), MaximumSteelCheck(b, ast), shear, deflection, development]
  }

  /** `check_beam_compliance(design_data)`. */
  function CheckBeam(data: MemberData, m: MathLib): (r: CheckResult)
    ensures WellFormed(r, Beam, BeamKinds)
    ensures !data.Complete() ==> r == Error(Beam)
  {
    if !data.Complete() then Error(Beam) else Finish(Beam, BeamReport(m, BeamInputOf(data)))
  }

  /**
   * The reported forces are those of a simply supported span of L = length (m) under
   * `wu = 1.5·DL + 1.5·LL`: moment `wu·L²/8` and shear `wu·L/2`.
   */
  lemma BeamForces(b: BeamInput)
    ensures BeamMoment(b) == FactoredLoad(b) * Square(b.length) / 8.0
    ensures BeamShear(b) == FactoredLoad(b) * b.length / 2.0
  {
  }

  /**
   * The flexural limit (the required steel) does not depend on the steel provided, so the
   * check passes for a provided area iff that area covers it.
   */
  lemma FlexuralCheckPasses(b: BeamInput, ast1: real, ast2: real)
    requires FlexuralCheck(b, ast1).Some?
    ensures FlexuralCheck(b, ast2).Some?
    ensures FlexuralCheck(b, ast2).value.limit == FlexuralCheck(b, ast1).value.limit
    ensures FlexuralCheck(b, ast2).value.pass <==> ast2 >= FlexuralCheck(b, ast1).value.limit
  {
  }

  /** The required steel depends on the section, grades and loads, not on the bars provided. */
  lemma RequiredBeamSteelIgnoresBars(b: BeamInput, n: real)
    ensures RequiredBeamSteel(b.(numBars := n)) == RequiredBeamSteel(b)
  {
    assert BeamMoment(b.(numBars := n)) == BeamMoment(b) by {
      assert FactoredLoad(b.(numBars := n)) == FactoredLoad(b);
    }
    assert EffectiveDepth(b.(numBars := n)) == EffectiveDepth(b);
  }

  /** The deflection check passes iff span/d ≤ 20, and raises iff d = 0. */
  lemma DeflectionCheckPasses(b: BeamInput)
    ensures DeflectionCheck(b).None? <==> EffectiveDepth(b) == 0.0
    ensures DeflectionCheck(b).Some? ==>
              (DeflectionCheck(b).value.pass <==> Span(b) / EffectiveDepth(b) <= 20.0)
  {
  }

  /** The development-length check passes iff `bar_dia·fy/(4·√fck) ≤ span/2`. */
  lemma DevelopmentLengthCheckPasses(m: MathLib, b: BeamInput)
    requires Lawful(m)
    ensures DevelopmentLengthCheck(m, b).Some?
    ensures DevelopmentLengthCheck(m, b).value.limit * (4.0 * m.sqrt(ConcreteFck(b.concreteGrade)))
         == b.barDiameter * SteelFy(b.steelGrade)
    ensures DevelopmentLengthCheck(m, b).value.pass
        <==> DevelopmentLengthCheck(m, b).value.limit <= b.length * 1000.0 / 2.0
  {
    assert m.sqrt(ConcreteFck(b.concreteGrade)) > 0.0;
  }

  /** A beam of positive breadth and effective depth never raises. */
  lemma BeamRealSectionSucceeds(m: MathLib, b: BeamInput, ast: real)
    requires Lawful(m) && b.breadth > 0.0 && EffectiveDepth(b) > 0.0
    ensures FlexuralCheck(b, ast).Some? && ShearCheck(m, b, ast).Some?
    ensures DeflectionCheck(b).Some? && DevelopmentLengthCheck(m, b).Some?
  {
    MulPositive(b.breadth, EffectiveDepth(b));
    DevelopmentLengthCheckPasses(m, b);
  }

  /** A zero effective depth raises, in the required-steel division. */
  lemma BeamZeroDepthRaises(m: MathLib, b: BeamInput)
    requires EffectiveDepth(b) == 0.0
    ensures BeamReport(m, b).None?
  {
  }

  /** More bars, all else equal, never mean less provided steel. */
  lemma ProvidedSteelMonotone(m: MathLib, b: BeamInput, n: real)
    requires Lawful(m) && b.numBars <= n
    ensures ProvidedSteel(m, b) <= ProvidedSteel(m, b.(numBars := n))
  {
    TruncMonotone(b.numBars, n);
    BarAreaNonNegative(m, b.barDiameter);
    MulMonotone(Trunc(b.numBars) as real, Trunc(n) as real, BarArea(m, b.barDiameter));
  }

  /**
   * More provided steel, all else equal, never turns the flexural, minimum-steel or shear
   * check from pass to fail; the maximum-steel check can only go from pass to fail.
   * Above M20 the shear part holds only from `ast1 > 0` on: see `ShearCapacityDropsAboveM20`.
   */
  lemma BeamMoreSteelKeepsPasses(m: MathLib, b: BeamInput, ast1: real, ast2: real)
    requires Lawful(m) && b.breadth > 0.0 && EffectiveDepth(b) > 0.0 && ast1 <= ast2
    ensures FlexuralCheck(b, ast1).Some? && ShearCheck(m, b, ast1).Some?
    ensures FlexuralCheck(b, ast2).Some? && ShearCheck(m, b, ast2).Some?
    ensures FlexuralCheck(b, ast1).value.pass ==> FlexuralCheck(b, ast2).value.pass
    ensures MinimumSteelCheck(b, ast1).pass ==> MinimumSteelCheck(b, ast2).pass
    ensures MaximumSteelCheck(b, ast2).pass ==> MaximumSteelCheck(b, ast1).pass
    ensures (ConcreteFck(b.concreteGrade) <= 20.0 || ast1 > 0.0) && ShearCheck(m, b, ast1).value.pass
        ==> ShearCheck(m, b, ast2).value.pass
  {
    BeamRealSectionSucceeds(m, b, ast1);
    BeamRealSectionSucceeds(m, b, ast2);
    var d := EffectiveDepth(b);
    MinimumSteelMonotone(ast1, ast2, b.breadth, d, SteelFy(b.steelGrade));
    MaximumSteelAntitone(ast1, ast2, b.breadth, d);
    if ConcreteFck(b.concreteGrade) <= 20.0 || ast1 > 0.0 {
      ShearCapacityMonotone(m, b.breadth, d, ConcreteFck(b.concreteGrade), ast1, ast2);
    }
  }

  /** The steel checks read the bar count only through the provided steel they are given. */
  lemma BeamChecksIgnoreBars(b: BeamInput, n: real, ast: real)
    ensures FlexuralCheck(b.(numBars := n), ast) == FlexuralCheck(b, ast)
    ensures MinimumSteelCheck(b.(numBars := n), ast) == MinimumSteelCheck(b, ast)
    ensures MaximumSteelCheck(b.(numBars := n), ast) == MaximumSteelCheck(b, ast)
  {
    RequiredBeamSteelIgnoresBars(b, n);
    assert EffectiveDepth(b.(numBars := n)) == EffectiveDepth(b);
  }

  /** So does the shear check. */
  lemma ShearCheckIgnoresBars(m: MathLib, b: BeamInput, n: real, ast: real)
    ensures ShearCheck(m, b.(numBars := n), ast) == ShearCheck(m, b, ast)
  {
    assert EffectiveDepth(b.(numBars := n)) == EffectiveDepth(b);
    assert BeamShear(b.(numBars := n)) == BeamShear(b) by {
      assert FactoredLoad(b.(numBars := n)) == FactoredLoad(b);
    }
  }

  /**
   * Raising `num_bars` alone never turns the flexural, minimum-steel or shear check from
   * pass to fail; only the maximum-steel check can go from pass to fail.
   */
  lemma BeamMoreBarsKeepsPasses(m: MathLib, b: BeamInput, n: real)
    requires Lawful(m) && b.breadth > 0.0 && EffectiveDepth(b) > 0.0 && b.numBars <= n
    ensures FlexuralCheck(b, ProvidedSteel(m, b)).Some?
    ensures FlexuralCheck(b.(numBars := n), ProvidedSteel(m, b.(numBars := n))).Some?
    ensures FlexuralCheck(b, ProvidedSteel(m, b)).value.pass
        ==> FlexuralCheck(b.(numBars := n), ProvidedSteel(m, b.(numBars := n))).value.pass
    ensures MinimumSteelCheck(b, ProvidedSteel(m, b)).pass
        ==> MinimumSteelCheck(b.(numBars := n), ProvidedSteel(m, b.(numBars := n))).pass
    ensures MaximumSteelCheck(b.(numBars := n), ProvidedSteel(m, b.(numBars := n))).pass
        ==> MaximumSteelCheck(b, ProvidedSteel(m, b)).pass
  {
    var ast1, ast2 := ProvidedSteel(m, b), ProvidedSteel(m, b.(numBars := n));
    ProvidedSteelMonotone(m, b, n);
    BeamChecksIgnoreBars(b, n, ast2);
    BeamMoreSteelKeepsPasses(m, b, ast1, ast2);
  }

  /** The same for the shear check, whose capacity reads the provided steel. */
  lemma BeamMoreBarsKeepsShear(m: MathLib, b: BeamInput, n: real)
    requires Lawful(m) && b.breadth > 0.0 && EffectiveDepth(b) > 0.0 && b.numBars <= n
    requires ConcreteFck(b.concreteGrade) <= 20.0 || ProvidedSteel(m, b) > 0.0
    ensures ShearCheck(m, b, ProvidedSteel(m, b)).Some?
    ensures ShearCheck(m, b.(numBars := n), ProvidedSteel(m, b.(numBars := n))).Some?
    ensures ShearCheck(m, b, ProvidedSteel(m, b)).value.pass
        ==> ShearCheck(m, b.(numBars := n), ProvidedSteel(m, b.(numBars := n))).value.pass
  {
    var ast1, ast2 := ProvidedSteel(m, b), ProvidedSteel(m, b.(numBars := n));
    ProvidedSteelMonotone(m, b, n);
    ShearCheckIgnoresBars(m, b, n, ast2);
    BeamMoreSteelKeepsPasses(m, b, ast1, ast2);
  }
}
