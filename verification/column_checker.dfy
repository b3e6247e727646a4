/**
 * `check_column_compliance`: a short rectangular column under a factored axial load,
 * checked for minimum dimension, slenderness, minimum and maximum longitudinal steel,
 * axial capacity, minimum bar count and ties, in that order.
 */
module ColumnChecker {
  import opened Numerics
  import opened DesignData
  import opened Formulas
  import opened Compliance

  /** The seven column checks, in the order the checker fills its dictionary. */
  const ColumnKinds: seq<CheckKind> :=
    [MinimumDimension, SlendernessRatio, MinimumSteel, MaximumSteel, AxialCapacity, MinimumBars, TieReinforcement]

  /** The values the column checker uses, after its defaults (sections in mm, height in m, load in kN). */
  datatype ColumnInput = ColumnInput(
    width: real, depth: real, length: real, concreteGrade: string, steelGrade: string,
    axialLoad: real, barDiameter: real, numBars: real)

  function ColumnInputOf(d: MemberData): ColumnInput {
    ColumnInput(
      Read(d.dimensions, "breadth", 0.0), Read(d.dimensions, "depth", 0.0), Read(d.dimensions, "length", 0.0),
      ReadGrade(d.materials, "concrete_grade", "M20"), ReadGrade(d.materials, "steel_grade", "Fe500"),
      Read(d.loads, "axial_load", 0.0), Read(d.reinforcement, "bar_diameter", 16.0),
      Read(d.reinforcement, "num_bars", 8.0))
  }

  /** Unsupported height (mm), taken as the effective length. */
  function Height(c: ColumnInput): real {
    c.length * 1000.0
  }

  function GrossArea(c: ColumnInput): real {
    c.width * c.depth
  }

  function LeastDimension(c: ColumnInput): real {
    Min(c.width, c.depth)
  }

  /** `Pu`: the axial load read, multiplied by the dead-load factor (kN). */
  function DesignAxialLoad(c: ColumnInput): real {
    LoadFactorDead * c.axialLoad
  }

  /** `int(num_bars)`. */
  function BarCount(c: ColumnInput): int {
    Trunc(c.numBars)
  }

  /** Longitudinal steel provided (mm²). */
  function ColumnSteel(m: MathLib, c: ColumnInput): real {
    BarCount(c) as real * BarArea(m, c.barDiameter)
  }

  /** Short-column capacity `(0.4·fck·(Ag − Ast) + 0.67·fy·Ast)/1000` (kN). */
  function SquashLoad(fck: real, fy: real, ag: real, ast: real): real {
    (0.4 * fck * (ag - ast) + 0.67 * fy * ast) / 1000.0
  }

  /** Capacity of the column read with `ast` mm² of longitudinal steel. */
  function ColumnCapacity(c: ColumnInput, ast: real): real {
    SquashLoad(ConcreteFck(c.concreteGrade), SteelFy(c.steelGrade), GrossArea(c), ast)
  }

  /** Bars required: 4 for a least dimension up to 200 mm, else 6. */
  function MinimumBarsRequired(c: ColumnInput): (n: int)
    ensures n == 4 || n == 6
    ensures n == 4 <==> LeastDimension(c) <= 200.0
  {
    if LeastDimension(c) <= 200.0 then 4 else 6
  }

  /** Tie diameter `max(6, bar_dia/4)` (mm). */
  function TieDiameter(c: ColumnInput): (t: real)
    ensures t >= 6.0 && t >= c.barDiameter / 4.0
    ensures t == 6.0 || t == c.barDiameter / 4.0
  {
    Max(6.0, c.barDiameter / 4.0)
  }

  /** Tie spacing `min(least dimension, 16·bar_dia, 300)` (mm). */
  function TieSpacing(c: ColumnInput): (s: real)
    ensures s <= 300.0 && s <= LeastDimension(c) && s <= 16.0 * c.barDiameter
    ensures s == 300.0 || s == LeastDimension(c) || s == 16.0 * c.barDiameter
  {
    Min(LeastDimension(c), Min(16.0 * c.barDiameter, 300.0))
  }

  /** The least side against 200 mm: passes iff both sides are at least 200 mm. */
  function MinimumDimensionCheck(c: ColumnInput): (r: Check)
    ensures r.kind == MinimumDimension && r.pass == Meets(r)
    ensures r.limit == 200.0 && r.actual == LeastDimension(c)
    ensures r.pass <==> c.width >= 200.0 && c.depth >= 200.0
  {
    Check(MinimumDimension, 200.0, LeastDimension(c), LeastDimension(c) >= 200.0)
  }

  /** Slenderness `height / (least/(2√3))` against 60; a zero least dimension raises. */
  function SlendernessCheck(m: MathLib, c: ColumnInput): (r: Option<Check>)
    ensures r.Some? ==> r.value.kind == SlendernessRatio && r.value.pass == Meets(r.value)
  {
    var leastRadius :- Div(LeastDimension(c), 2.0 * m.sqrt(3.0));
    var ratio :- Div(Height(c), leastRadius);
    Some(Check(SlendernessRatio, 60.0, ratio, ratio <= 60.0))
  }

  // The steel checks take the provided area `ast` (`Ast`), computed once per column.

  /** At least 0.8 % of the gross area. */
  function ColumnMinimumSteelCheck(c: ColumnInput, ast: real): (r: Check)
    ensures r.kind == MinimumSteel && r.pass == Meets(r)
    ensures r.limit == 0.008 * GrossArea(c) && r.actual == ast
    ensures r.pass <==> 100.0 * ast >= 0.8 * GrossArea(c)
  {
    var limit := 0.008 * GrossArea(c);
    Check(MinimumSteel, limit, ast, ast >= limit)
  }

  /** At most 4 % of the gross area. */
  function ColumnMaximumSteelCheck(c: ColumnInput, ast: real): (r: Check)
    ensures r.kind == MaximumSteel && r.pass == Meets(r)
    ensures r.limit == 0.04 * GrossArea(c) && r.actual == ast
    ensures r.pass <==> 100.0 * ast <= 4.0 * GrossArea(c)
  {
    var limit := 0.04 * GrossArea(c);
    Check(MaximumSteel, limit, ast, ast <= limit)
  }

  function AxialCapacityCheck(c: ColumnInput, ast: real): (r: Check)
    ensures r.kind == AxialCapacity && r.pass == Meets(r)
  {
    Check(AxialCapacity, ColumnCapacity(c, ast), DesignAxialLoad(c), DesignAxialLoad(c) <= ColumnCapacity(c, ast))
  }

  function MinimumBarsCheck(c: ColumnInput): (r: Check)
    ensures r.kind == MinimumBars && r.pass == Meets(r)
  {
    Check(MinimumBars, MinimumBarsRequired(c) as real, BarCount(c) as real, BarCount(c) >= MinimumBarsRequired(c))
  }

  /** The tie requirements are reported but not compared: the check always passes. */
  function TieCheck(c: ColumnInput): (r: Check)
    ensures r.kind == TieReinforcement && r.pass
  {
    Check(TieReinforcement, TieSpacing(c), TieDiameter(c), true)
  }

  /** The checks and summary of a column, or `None` where the source raises. */
  function ColumnReport(m: MathLib, c: ColumnInput): (r: Option<Report>)
    ensures r.Some? <==> SlendernessCheck(m, c).Some? && GrossArea(c) != 0.0
    ensures r.Some? ==> Kinds(r.value.checks) == ColumnKinds && Judged(r.value.checks)
  {
    var ast := ColumnSteel(m, c);
    var slenderness :- SlendernessCheck(m, c);
    var percentage :- Div(100.0 * ast, GrossArea(c));
    Some(Report(
      ColumnSummary(c.width, c.depth, Height(c), GrossArea(c), percentage, DesignAxialLoad(c),
                    c.concreteGrade, c.steelGrade),
      ColumnChecks(c, ast, slenderness)))
  }

  /** The seven checks in order, given the provided steel and the computed slenderness check. */
  function ColumnChecks(c: ColumnInput, ast: real, slenderness: Check): (checks: seq<Check>)
    requires slenderness.kind == SlendernessRatio && slenderness.pass == Meets(slenderness)
    ensures Kinds(checks) == ColumnKinds && Judged(checks)
  {
    [MinimumDimensionCheck(c), slenderness, ColumnMinimumSteelCheck(c, ast),
     ColumnMaximumSteelCheck(c, ast), AxialCapacityCheck(c, ast), MinimumBarsCheck(c), TieCheck(c)]
  }

  /** `check_column_compliance(design_data)`. */
  function CheckColumn(data: MemberData, m: MathLib): (r: CheckResult)
    ensures WellFormed(r, Column, ColumnKinds)
    ensures !data.Complete() ==> r == Error(Column)
  {
    if !data.Complete() then Error(Column) else Finish(Column, ColumnReport(m, ColumnInputOf(data)))
  }

  /** A column raises exactly when one of its sides is zero (slenderness or steel percentage). */
  lemma ColumnRaisesIffDegenerate(m: MathLib, c: ColumnInput)
    requires Lawful(m)
    ensures ColumnReport(m, c).None? <==> c.width == 0.0 || c.depth == 0.0
  {
    assert m.sqrt(3.0) > 0.0;
    if c.width != 0.0 && c.depth != 0.0 {
      assert LeastDimension(c) != 0.0;
      QuotientNonZero(LeastDimension(c), 2.0 * m.sqrt(3.0));
      NonZeroProduct(c.width, c.depth);
    }
  }

  /** A completed column check designs for 1.5 times the axial load it reads. */
  lemma CheckColumnDesignLoad(data: MemberData, m: MathLib)
    requires CheckColumn(data, m).Ok?
    ensures CheckColumn(data, m).summary.designAxialLoad == 1.5 * ColumnInputOf(data).axialLoad
  {
    ColumnDesignLoad(m, ColumnInputOf(data));
  }

  /** The reported design load and the summary load are the axial load read, times 1.5. */
  lemma ColumnDesignLoad(m: MathLib, c: ColumnInput)
    requires ColumnReport(m, c).Some?
    ensures ColumnReport(m, c).value.summary.designAxialLoad == 1.5 * c.axialLoad
    ensures ColumnReport(m, c).value.checks[4].actual == 1.5 * c.axialLoad
  {
    var ast := ColumnSteel(m, c);
    var checks := ColumnChecks(c, ast, SlendernessCheck(m, c).value);
    var summary := ColumnSummary(c.width, c.depth, Height(c), GrossArea(c), (100.0 * ast) / GrossArea(c),
                                 DesignAxialLoad(c), c.concreteGrade, c.steelGrade);
    assert ColumnReport(m, c).value == Report(summary, checks);
    assert checks[4] == AxialCapacityCheck(c, ast);
  }

  /**
   * The slenderness ratio is `2√3·height / least dimension`, so the check passes iff
   * `2√3·height ≤ 60·least dimension`.
   */
  lemma SlendernessPasses(m: MathLib, c: ColumnInput)
    requires Lawful(m) && LeastDimension(c) > 0.0
    ensures SlendernessCheck(m, c).Some?
    ensures SlendernessCheck(m, c).value.actual * LeastDimension(c) == 2.0 * m.sqrt(3.0) * Height(c)
    ensures SlendernessCheck(m, c).value.pass <==> 2.0 * m.sqrt(3.0) * Height(c) <= 60.0 * LeastDimension(c)
  {
    var s := 2.0 * m.sqrt(3.0);
    assert m.sqrt(3.0) > 0.0;
    var least := LeastDimension(c);
    var radius := least / s;
    QuotientPositive(least, s);
    var ratio := Height(c) / radius;
    assert ratio * radius == Height(c);
    assert radius * s == least;
    Associate(ratio, radius, s);
    ScaleIff(ratio, 60.0, least);
  }

  /** The capacity grows strictly with the steel area whenever `0.67·fy > 0.4·fck`. */
  lemma SquashLoadGrowsWithSteel(fck: real, fy: real, ag: real, ast1: real, ast2: real)
    requires 0.4 * fck < 0.67 * fy && ast1 < ast2
    ensures SquashLoad(fck, fy, ag, ast1) < SquashLoad(fck, fy, ag, ast2)
  {
    MulPositive(0.67 * fy - 0.4 * fck, ast2 - ast1);
  }

  lemma SquashLoadMonotone(fck: real, fy: real, ag: real, ast1: real, ast2: real)
    requires 0.4 * fck < 0.67 * fy && ast1 <= ast2
    ensures SquashLoad(fck, fy, ag, ast1) <= SquashLoad(fck, fy, ag, ast2)
  {
    if ast1 < ast2 {
      SquashLoadGrowsWithSteel(fck, fy, ag, ast1, ast2);
    }
  }

  /** Every pair of table grades (and the fallbacks) has `0.67·fy > 0.4·fck`. */
  lemma GradesFavourSteel(concreteGrade: string, steelGrade: string)
    ensures 0.4 * ConcreteFck(concreteGrade) < 0.67 * SteelFy(steelGrade)
  {
  }

  /**
   * More steel, all else equal, never lowers the axial capacity, so it never turns the
   * axial-capacity or minimum-steel check from pass to fail; the maximum-steel check can
   * only go from pass to fail.
   */
  lemma MoreSteelKeepsPasses(c: ColumnInput, ast1: real, ast2: real)
    requires ast1 <= ast2
    ensures ColumnCapacity(c, ast1) <= ColumnCapacity(c, ast2)
    ensures AxialCapacityCheck(c, ast1).pass ==> AxialCapacityCheck(c, ast2).pass
    ensures ColumnMinimumSteelCheck(c, ast1).pass ==> ColumnMinimumSteelCheck(c, ast2).pass
    ensures ColumnMaximumSteelCheck(c, ast2).pass ==> ColumnMaximumSteelCheck(c, ast1).pass
  {
    GradesFavourSteel(c.concreteGrade, c.steelGrade);
    SquashLoadMonotone(ConcreteFck(c.concreteGrade), SteelFy(c.steelGrade), GrossArea(c), ast1, ast2);
  }

  /**
   * More bars, all else equal, mean at least as much steel and never turn the bar-count
   * check from pass to fail.
   */
  lemma ColumnMoreBarsKeepsPasses(m: MathLib, c: ColumnInput, n: real)
    requires Lawful(m) && c.numBars <= n
    ensures ColumnSteel(m, c) <= ColumnSteel(m, c.(numBars := n))
    ensures MinimumBarsCheck(c).pass ==> MinimumBarsCheck(c.(numBars := n)).pass
  {
    TruncMonotone(c.numBars, n);
    BarAreaNonNegative(m, c.barDiameter);
    MulMonotone(BarCount(c) as real, BarCount(c.(numBars := n)) as real, BarArea(m, c.barDiameter));
  }

  /**
   * Every check of a column passes exactly when both sides are at least 200 mm, the steel
   * lies between 0.8 % and 4 % of the gross area, the design load is within capacity, the
   * slenderness ratio is at most 60, and there are at least four bars (six when both
   * sides exceed 200 mm).
   */
  lemma ColumnCompliantMeans(m: MathLib, c: ColumnInput)
    requires ColumnReport(m, c).Some?
    ensures AllPass(ColumnReport(m, c).value.checks) <==>
      && c.width >= 200.0 && c.depth >= 200.0
      && 0.008 * GrossArea(c) <= ColumnSteel(m, c) <= 0.04 * GrossArea(c)
      && 1.5 * c.axialLoad <= ColumnCapacity(c, ColumnSteel(m, c))
      && SlendernessCheck(m, c).value.actual <= 60.0
      && BarCount(c) >= 4 && (c.width > 200.0 && c.depth > 200.0 ==> BarCount(c) >= 6)
  {
    var ast := ColumnSteel(m, c);
    var slenderness := SlendernessCheck(m, c).value;
    var checks := ColumnChecks(c, ast, slenderness);
    assert ColumnReport(m, c).value.checks == checks;
    assert checks[0] == MinimumDimensionCheck(c);
    assert checks[2] == ColumnMinimumSteelCheck(c, ast);
    assert checks[3] == ColumnMaximumSteelCheck(c, ast);
    assert checks[4] == AxialCapacityCheck(c, ast);
    assert checks[5] == MinimumBarsCheck(c);
    assert checks[6].pass;
    assert slenderness.pass <==> slenderness.actual <= 60.0;
    assert checks[5].pass <==> BarCount(c) >= 4 && (c.width > 200.0 && c.depth > 200.0 ==> BarCount(c) >= 6);
    if checks[0].pass && checks[1].pass && checks[2].pass && checks[3].pass && checks[4].pass && checks[5].pass {
      assert forall i | 0 <= i < |checks| :: checks[i].pass by {
        assert |checks| == 7;
      }
    }
  }

  /** A column with a side under 200 mm (150 × 150, say) is never compliant overall. */
  lemma NarrowColumnFails(data: MemberData, m: MathLib)
    requires CheckColumn(data, m).Ok?
    requires Read(data.dimensions, "breadth", 0.0) < 200.0 || Read(data.dimensions, "depth", 0.0) < 200.0
    ensures !CheckColumn(data, m).overall
  {
    var c := ColumnInputOf(data);
    if CheckColumn(data, m).overall {
      ColumnCompliantMeans(m, c);
    }
  }

  // Small arithmetic facts used above.

  lemma QuotientNonZero(n: real, den: real)
    requires den != 0.0 && n != 0.0
    ensures n / den != 0.0
  {
    assert (n / den) * den == n;
  }

  lemma Associate(x: real, y: real, z: real)
    ensures x * (y * z) == (x * y) * z
  {
  }
}
