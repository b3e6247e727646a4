/**
 * The shared formula library of IS 456:2000: grade tables, design moment and shear
 * of a simply supported span, required tension steel, the shear-strength table,
 * basic span/depth ratios and the minimum/maximum steel bounds.
 */
module Formulas {
  import opened Numerics

  /** `MaterialConstants.CONCRETE_GRADES`: fck in N/mm². */
  const ConcreteGrades: map<string, real> := map[
    "M15" := 15.0, "M20" := 20.0, "M25" := 25.0, "M30" := 30.0, "M35" := 35.0,
    "M40" := 40.0, "M45" := 45.0, "M50" := 50.0, "M55" := 55.0, "M60" := 60.0]

  /** `MaterialConstants.STEEL_GRADES`: fy in N/mm². */
  const SteelGrades: map<string, real> := map[
    "Fe415" := 415.0, "Fe500" := 500.0, "Fe550" := 550.0, "Fe600" := 600.0]

  const ConcreteDensity: real := 25.0
  const LoadFactorDead: real := 1.5
  const LoadFactorLive: real := 1.5

  /** Concrete strength of a grade name; an unknown name silently becomes M20. */
  function ConcreteFck(grade: string): (fck: real)
    ensures grade !in ConcreteGrades ==> fck == 20.0
    ensures 15.0 <= fck <= 60.0
  {
    Get(ConcreteGrades, grade, 20.0)
  }

  /** Steel strength of a grade name; an unknown name silently becomes Fe500. */
  function SteelFy(grade: string): (fy: real)
    ensures grade !in SteelGrades ==> fy == 500.0
    ensures 415.0 <= fy <= 600.0
  {
    Get(SteelGrades, grade, 500.0)
  }

  // ---------------------------------------------------------------------------
  // Design moment and shear of a simply supported span

  /** A point load `(P, a)`: magnitude and distance from the left support. */
  type PointLoad = (real, real)

  /** Moment `P·a·b/span` of one point load, with `b = span − a`. */
  function PointLoadMoment(p: PointLoad, span: real): real
    requires span != 0.0
  {
    p.0 * p.1 * (span - p.1) / span
  }

  /**
   * The point-load accumulator of `calculate_design_moment` after the given loads:
   * each load adds `max(accumulator, its moment)` to the accumulator.
   */
  function PointMomentAfter(loads: seq<PointLoad>, span: real): real
    requires span != 0.0
  {
    if loads == [] then 0.0
    else
      var acc := PointMomentAfter(loads[..|loads| - 1], span);
      acc + Max(acc, PointLoadMoment(loads[|loads| - 1], span))
  }

  /** Plain superposition: the sum of the point-load moments. */
  function SumPointMoments(loads: seq<PointLoad>, span: real): real
    requires span != 0.0
  {
    if loads == [] then 0.0
    else SumPointMoments(loads[..|loads| - 1], span) + PointLoadMoment(loads[|loads| - 1], span)
  }

  /** Design moment (kNm): UDL moment plus the point-load accumulator; a point load on a zero span raises. */
  function DesignMomentOf(span: real, udl: real, loads: seq<PointLoad>): Option<real> {
    if loads == [] then Some(udl * Square(span) / 8.0)
    else if span == 0.0 then None
    else Some(udl * Square(span) / 8.0 + PointMomentAfter(loads, span))
  }

  method DesignMoment(span: real, udl: real, pointLoads: seq<PointLoad>) returns (r: Option<real>)
    ensures r == DesignMomentOf(span, udl, pointLoads)
    ensures pointLoads == [] ==> r == Some(udl * Square(span) / 8.0)
    ensures r.None? <==> pointLoads != [] && span == 0.0
  {
    var momentUdl := udl * Square(span) / 8.0;
    var momentPoint := 0.0;
    if pointLoads != [] {
      if span == 0.0 {
        return None;
      }
      var i := 0;
      while i < |pointLoads|
        invariant 0 <= i <= |pointLoads|
        invariant momentPoint == PointMomentAfter(pointLoads[..i], span)
      {
        assert pointLoads[..i + 1][..i] == pointLoads[..i];
        momentPoint := momentPoint + Max(momentPoint, PointLoadMoment(pointLoads[i], span));
        i := i + 1;
      }
      assert pointLoads[..i] == pointLoads;
    }
    r := Some(momentUdl + momentPoint);
  }

  /** The accumulator never under-estimates plain superposition of the point-load moments. */
  lemma {:induction false} PointMomentExceedsSuperposition(loads: seq<PointLoad>, span: real)
    requires span != 0.0
    ensures PointMomentAfter(loads, span) >= SumPointMoments(loads, span)
  {
    if loads != [] {
      PointMomentExceedsSuperposition(loads[..|loads| - 1], span);
    }
  }

  /** Three equal loads of moment 10 each: superposition gives 30, the accumulator 40. */
  lemma PointMomentCompounds()
    ensures var loads := [(10.0, 2.0), (10.0, 2.0), (10.0, 2.0)];
            SumPointMoments(loads, 4.0) == 30.0 && PointMomentAfter(loads, 4.0) == 40.0
  {
    var loads := [(10.0, 2.0), (10.0, 2.0), (10.0, 2.0)];
    assert PointLoadMoment((10.0, 2.0), 4.0) == 10.0;
    assert loads[..2][..1] == [(10.0, 2.0)];
    assert loads[..2] == [(10.0, 2.0), (10.0, 2.0)];
    assert [(10.0, 2.0)][..0] == [];
    assert PointMomentAfter([(10.0, 2.0)], 4.0) == 10.0;
    assert PointMomentAfter(loads[..2], 4.0) == 20.0;
    assert SumPointMoments([(10.0, 2.0)], 4.0) == 10.0;
    assert SumPointMoments(loads[..2], 4.0) == 20.0;
  }

  /** The point-load part of `calculate_design_shear`: half of every load, wherever it stands. */
  function PointShearAfter(loads: seq<PointLoad>): real {
    if loads == [] then 0.0
    else PointShearAfter(loads[..|loads| - 1]) + loads[|loads| - 1].0 / 2.0
  }

  /** Design shear (kN) of a simply supported span. */
  function DesignShearOf(span: real, udl: real, loads: seq<PointLoad>): real {
    udl * span / 2.0 + PointShearAfter(loads)
  }

  method DesignShear(span: real, udl: real, pointLoads: seq<PointLoad>) returns (r: real)
    ensures r == DesignShearOf(span, udl, pointLoads)
    ensures pointLoads == [] ==> r == udl * span / 2.0
  {
    var shearUdl := udl * span / 2.0;
    var shearPoint := 0.0;
    var i := 0;
    while i < |pointLoads|
      invariant 0 <= i <= |pointLoads|
      invariant shearPoint == PointShearAfter(pointLoads[..i])
    {
      assert pointLoads[..i + 1][..i] == pointLoads[..i];
      shearPoint := shearPoint + pointLoads[i].0 / 2.0;
      i := i + 1;
    }
    assert pointLoads[..i] == pointLoads;
    r := shearUdl + shearPoint;
  }

  lemma {:induction false} PointShearConcat(xs: seq<PointLoad>, ys: seq<PointLoad>)
    ensures PointShearAfter(xs + ys) == PointShearAfter(xs) + PointShearAfter(ys)
  {
    if ys != [] {
      var ys' := ys[..|ys| - 1];
      assert (xs + ys)[..|xs + ys| - 1] == xs + ys';
      PointShearConcat(xs, ys');
    } else {
      assert xs + ys == xs;
    }
  }

  /** Inserting a point load anywhere adds exactly half its magnitude, whatever its position. */
  lemma DesignShearAddsHalfLoad(span: real, udl: real, before: seq<PointLoad>, p: PointLoad, after: seq<PointLoad>)
    ensures DesignShearOf(span, udl, before + [p] + after) == DesignShearOf(span, udl, before + after) + p.0 / 2.0
  {
    PointShearConcat(before + [p], after);
    PointShearConcat(before, after);
    assert (before + [p])[..|before|] == before;
  }

  // ---------------------------------------------------------------------------
  // Required tension steel

  /** A moment below 1000 is taken to be in kNm and scaled to Nmm. */
  function MomentInNmm(moment: real): (r: real)
    ensures moment < 1000.0 ==> r == moment * 1000000.0
    ensures moment >= 1000.0 ==> r == moment
  {
    if moment < 1000.0 then moment * 1000000.0 else moment
  }

  /** Limiting moment `0.36·fck·b·xu_max·(d − 0.42·xu_max)` with `xu_max = 0.48·d`. */
  function LimitingMoment(fck: real, b: real, d: real): real {
    var xuMax := 0.48 * d;
    0.36 * fck * b * xuMax * (d - 0.42 * xuMax)
  }

  lemma LimitingMomentClosedForm(fck: real, b: real, d: real)
    ensures LimitingMoment(fck, b, d) == 0.13796352 * (fck * b * Square(d))
  {
    var xu := 0.48 * d;
    assert d - 0.42 * xu == 0.7984 * d;
    assert 0.36 * fck * b * xu * (0.7984 * d) == 0.36 * 0.48 * 0.7984 * (fck * b * Square(d));
  }

  /** Required tension steel (mm²) for a moment, by the under- or over-reinforced branch. */
  function RequiredSteel(moment: real, fck: real, fy: real, b: real, d: real): (r: Option<real>)
    ensures d == 0.0 ==> r.None?
    ensures fck > 0.0 && fy > 0.0 && b > 0.0 && d > 0.0 ==> r.Some?
  {
    var mNmm := MomentInNmm(moment);
    if mNmm <= LimitingMoment(fck, b, d) then
      var k :- Div(mNmm, fck * b * Square(d));
      Div(mNmm, 0.87 * fy * (1.0 - k / 3.0) * d)
    else
      Div(mNmm, 0.87 * fy * 0.9 * d)
  }

  /** `RequiredSteel` takes the under-reinforced branch: the moment in Nmm is within the limiting moment. */
  predicate UnderReinforced(moment: real, fck: real, b: real, d: real) {
    MomentInNmm(moment) <= LimitingMoment(fck, b, d)
  }

  /**
   * On a real section with a non-negative moment, the under-reinforced branch has
   * `k ≤ 0.13796352`, so `j = 1 − k/3` lies in [0.954, 1], and the steel found
   * carries the moment back: `Ast · 0.87·fy·j·d = M`; it is positive iff the moment is.
   */
  lemma RequiredSteelUnderReinforced(moment: real, fck: real, fy: real, b: real, d: real)
    requires fck > 0.0 && fy > 0.0 && b > 0.0 && d > 0.0 && moment >= 0.0
    requires UnderReinforced(moment, fck, b, d)
    ensures var mNmm := MomentInNmm(moment);
            var k := mNmm / (fck * b * Square(d));
            var j := 1.0 - k / 3.0;
            && 0.0 <= k <= 0.13796352
            && 0.954 <= j <= 1.0
            && RequiredSteel(moment, fck, fy, b, d).Some?
            && RequiredSteel(moment, fck, fy, b, d).value * (0.87 * fy * j * d) == mNmm
            && (RequiredSteel(moment, fck, fy, b, d).value > 0.0 <==> moment > 0.0)
  {
    var mNmm := MomentInNmm(moment);
    MulPositive(fck, b);
    SquarePositive(d);
    MulPositive(fck * b, Square(d));
    LimitingMomentClosedForm(fck, b, d);
    QuotientBounds(mNmm, fck * b * Square(d), 0.13796352);
    var k := mNmm / (fck * b * Square(d));
    var j := 1.0 - k / 3.0;
    MulPositive(0.87 * fy, j);
    MulPositive(0.87 * fy * j, d);
    QuotientPositive(mNmm, 0.87 * fy * j * d);
  }

  /** Past the limiting moment the steel uses `j = 0.9` and again carries the moment back. */
  lemma RequiredSteelOverReinforced(moment: real, fck: real, fy: real, b: real, d: real)
    requires fy > 0.0 && d != 0.0
    requires !UnderReinforced(moment, fck, b, d)
    ensures RequiredSteel(moment, fck, fy, b, d).Some?
    ensures RequiredSteel(moment, fck, fy, b, d).value * (0.87 * fy * 0.9 * d) == MomentInNmm(moment)
  {
  }

  // ---------------------------------------------------------------------------
  // Shear strength of concrete, IS 456 Table 19

  /** The stepped table used for fck ≤ 20 (N/mm²). */
  function TauCTable(pt: real): (t: real)
    ensures 0.28 <= t <= 0.58
  {
    if pt <= 0.15 then 0.28
    else if pt <= 0.25 then 0.30
    else if pt <= 0.50 then 0.35
    else if pt <= 0.75 then 0.39
    else if pt <= 1.00 then 0.42
    else if pt <= 1.25 then 0.45
    else if pt <= 1.50 then 0.48
    else if pt <= 1.75 then 0.50
    else if pt <= 2.00 then 0.52
    else if pt <= 2.25 then 0.54
    else if pt <= 2.50 then 0.56
    else if pt <= 2.75 then 0.57
    else 0.58
  }

  lemma TauCTableMonotone(pt1: real, pt2: real)
    requires pt1 <= pt2
    ensures TauCTable(pt1) <= TauCTable(pt2)
  {
  }

  /** Design shear strength tau_c for a steel percentage and a concrete grade. */
  function TauC(m: MathLib, pt: real, fck: real): real {
    if fck <= 20.0 then TauCTable(pt)
    else (0.28 + (pt - 0.15) * 0.02) * m.sqrt(fck / 20.0)
  }

  lemma TauCMonotone(m: MathLib, pt1: real, pt2: real, fck: real)
    requires fck > 20.0 ==> m.sqrt(fck / 20.0) > 0.0
    requires pt1 <= pt2
    ensures TauC(m, pt1, fck) <= TauC(m, pt2, fck)
  {
    if fck <= 20.0 {
      TauCTableMonotone(pt1, pt2);
    } else {
      var s := m.sqrt(fck / 20.0);
      assert s > 0.0;
      MulMonotone(0.28 + (pt1 - 0.15) * 0.02, 0.28 + (pt2 - 0.15) * 0.02, s);
    }
  }

  /** Steel percentage used by the table: `100·Ast/(b·d)` when Ast > 0, else 0.15; capped at 3. */
  function ShearSteelPercentage(b: real, d: real, ast: real): (r: Option<real>)
    ensures r.None? <==> ast > 0.0 && b * d == 0.0
    ensures r.Some? ==> r.value <= 3.0
    ensures ast <= 0.0 ==> r == Some(0.15)
  {
    var pt :- if ast > 0.0 then Div(100.0 * ast, b * d) else Some(0.15);
    Some(Min(pt, 3.0))
  }

  /** Shear capacity `tau_c·b·d` (N) of a section without stirrups. */
  function ShearCapacity(m: MathLib, b: real, d: real, fck: real, ast: real): (r: Option<real>)
    ensures r.None? <==> ast > 0.0 && b * d == 0.0
  {
    match ShearSteelPercentage(b, d, ast)
    case None => None
    case Some(pt) => Some(CapacityAt(m, pt, fck, b * d))
  }

  /** The capacity `tau_c·area` of a section of the given area at steel percentage `pt`. */
  function CapacityAt(m: MathLib, pt: real, fck: real, area: real): real {
    TauC(m, pt, fck) * area
  }

  lemma SteelPercentageMonotone(b: real, d: real, ast1: real, ast2: real)
    requires b * d > 0.0 && 0.0 < ast1 <= ast2
    ensures ShearSteelPercentage(b, d, ast1).value <= ShearSteelPercentage(b, d, ast2).value
  {
    var bd := b * d;
    var p1, p2 := 100.0 * ast1 / bd, 100.0 * ast2 / bd;
    assert p1 * bd == 100.0 * ast1 && p2 * bd == 100.0 * ast2;
    assert p1 <= p2;
  }

  /**
   * More tension steel never lowers the shear capacity of a real section, provided
   * the grade is at most M20 or the smaller steel area is already positive.
   */
  lemma ShearCapacityMonotone(m: MathLib, b: real, d: real, fck: real, ast1: real, ast2: real)
    requires Lawful(m) && b > 0.0 && d > 0.0 && ast1 <= ast2
    requires fck <= 20.0 || ast1 > 0.0
    ensures ShearCapacity(m, b, d, fck, ast1).Some? && ShearCapacity(m, b, d, fck, ast2).Some?
    ensures ShearCapacity(m, b, d, fck, ast1).value <= ShearCapacity(m, b, d, fck, ast2).value
  {
    assert fck > 20.0 ==> m.sqrt(fck / 20.0) > 0.0;
    MulPositive(b, d);
    ShearCapacityStep(m, b, d, fck, ast1, ast2);
  }

  lemma ShearCapacityStep(m: MathLib, b: real, d: real, fck: real, ast1: real, ast2: real)
    requires fck > 20.0 ==> m.sqrt(fck / 20.0) > 0.0
    requires b * d > 0.0 && ast1 <= ast2
    requires fck <= 20.0 || ast1 > 0.0
    ensures ShearCapacity(m, b, d, fck, ast1).Some? && ShearCapacity(m, b, d, fck, ast2).Some?
    ensures ShearCapacity(m, b, d, fck, ast1).value <= ShearCapacity(m, b, d, fck, ast2).value
  {
    var p1, p2 := ShearSteelPercentage(b, d, ast1).value, ShearSteelPercentage(b, d, ast2).value;
    TauCBelowM20Step(m, b, d, fck, ast1, ast2);
    CapacityAtMonotone(m, p1, p2, fck, b * d);
  }

  /** Over the same positive area, the capacity keeps the order of `tau_c`. */
  lemma CapacityAtMonotone(m: MathLib, p1: real, p2: real, fck: real, area: real)
    requires area > 0.0 && TauC(m, p1, fck) <= TauC(m, p2, fck)
    ensures CapacityAt(m, p1, fck, area) <= CapacityAt(m, p2, fck, area)
  {
    MulMonotone(TauC(m, p1, fck), TauC(m, p2, fck), area);
  }

  lemma TauCBelowM20Step(m: MathLib, b: real, d: real, fck: real, ast1: real, ast2: real)
    requires fck > 20.0 ==> m.sqrt(fck / 20.0) > 0.0
    requires b * d > 0.0 && ast1 <= ast2
    requires fck <= 20.0 || ast1 > 0.0
    ensures TauC(m, ShearSteelPercentage(b, d, ast1).value, fck)
         <= TauC(m, ShearSteelPercentage(b, d, ast2).value, fck)
  {
    var pt1 := ShearSteelPercentage(b, d, ast1).value;
    var pt2 := ShearSteelPercentage(b, d, ast2).value;
    if ast1 > 0.0 {
      SteelPercentageMonotone(b, d, ast1, ast2);
      TauCMonotone(m, pt1, pt2, fck);
    } else {
      assert pt1 == 0.15;
      assert TauC(m, pt1, fck) == 0.28;
    }
  }

  /**
   * Above M20 the monotonicity fails at the first bar: with no steel pt defaults to
   * 0.15, but a small positive area gives pt < 0.15 and a lower tau_c.
   */
  lemma ShearCapacityDropsAboveM20(m: MathLib)
    requires Lawful(m)
    ensures ShearCapacity(m, 300.0, 500.0, 25.0, 50.0).value < ShearCapacity(m, 300.0, 500.0, 25.0, 0.0).value
  {
    var s := m.sqrt(25.0 / 20.0);
    assert s > 0.0;
    assert ShearSteelPercentage(300.0, 500.0, 50.0).value == 5000.0 / 150000.0;
    var pt := 5000.0 / 150000.0;
    assert 0.28 + (pt - 0.15) * 0.02 < 0.28;
    assert (0.28 + (pt - 0.15) * 0.02) * s < 0.28 * s;
  }

  // ---------------------------------------------------------------------------
  // Serviceability and steel bounds

  /** Basic span/effective-depth ratio, IS 456 clause 23.2.1. */
  function DeflectionRatio(loadingType: string): (r: real)
    ensures 7.0 <= r <= 26.0
    ensures loadingType == "cantilever" ==> r == 7.0
    ensures loadingType == "continuous" ==> r == 26.0
    ensures loadingType != "cantilever" && loadingType != "continuous" ==> r == 20.0
  {
    if loadingType == "cantilever" then 7.0
    else if loadingType == "simply_supported" then 20.0
    else if loadingType == "continuous" then 26.0
    else 20.0
  }

  /** The `(is_adequate, bound)` pair the steel checks return. */
  datatype SteelBound = SteelBound(adequate: bool, limit: real)

  /** Minimum tension steel `(0.85/fy)·b·d`; `fy = 0` raises. */
  function CheckMinimumSteel(ast: real, b: real, d: real, fy: real): (r: Option<SteelBound>)
    ensures r.Some? <==> fy != 0.0
    ensures r.Some? ==> r.value.limit * fy == 0.85 * b * d
    ensures r.Some? ==> (r.value.adequate <==> ast >= r.value.limit)
  {
    var ratio :- Div(0.85, fy);
    var astMin := ratio * b * d;
    Some(SteelBound(ast >= astMin, astMin))
  }

  /** Maximum tension steel `0.04·b·d`. */
  function CheckMaximumSteel(ast: real, b: real, d: real): (r: SteelBound)
    ensures r.limit == 0.04 * b * d
    ensures r.adequate <==> ast <= r.limit
  {
    var astMax := 0.04 * b * d;
    SteelBound(ast <= astMax, astMax)
  }

  /** The minimum-steel verdict is monotone in the provided area, its bound independent of it. */
  lemma MinimumSteelMonotone(ast1: real, ast2: real, b: real, d: real, fy: real)
    requires fy != 0.0 && ast1 <= ast2
    ensures CheckMinimumSteel(ast1, b, d, fy).value.limit == CheckMinimumSteel(ast2, b, d, fy).value.limit
    ensures CheckMinimumSteel(ast1, b, d, fy).value.adequate ==> CheckMinimumSteel(ast2, b, d, fy).value.adequate
  {
  }

  /** The maximum-steel verdict is anti-monotone in the provided area. */
  lemma MaximumSteelAntitone(ast1: real, ast2: real, b: real, d: real)
    requires ast1 <= ast2
    ensures CheckMaximumSteel(ast1, b, d).limit == CheckMaximumSteel(ast2, b, d).limit
    ensures CheckMaximumSteel(ast2, b, d).adequate ==> CheckMaximumSteel(ast1, b, d).adequate
  {
  }
}
