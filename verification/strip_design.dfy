/**
 * The required-steel computation the slab and footing checkers each write inline
 * (backend/utils/slab_checker.py lines 72-77, backend/utils/footing_checker.py lines
 * 80-86). Unlike `Formulas.RequiredSteel` it takes the moment already in Nmm and
 * branches on `k ≤ 0.138` instead of on the limiting moment `0.13796352·fck·b·d²`.
 */
module StripDesign {
  import opened Numerics
  import opened Formulas

  /** The lever-arm factor: `j = 1 − k/3` for `k ≤ 0.138` (singly reinforced), else 0.9. */
  function LeverFactor(k: real): (j: real)
    ensures 0.0 <= k ==> 0.9 <= j <= 1.0
  {
    if k <= 0.138 then 1.0 - k / 3.0 else 0.9
  }

  /** `k = Mu/(fck·b·d²)`, then `Ast = Mu/(0.87·fy·j·d)`. */
  function InlineRequiredSteel(mu: real, fck: real, fy: real, b: real, d: real): (r: Option<real>)
    ensures d == 0.0 || b == 0.0 || fck == 0.0 ==> r.None?
  {
    var k :- Div(mu, fck * b * Square(d));
    Div(mu, 0.87 * fy * LeverFactor(k) * d)
  }

  /** With a positive grade strength and non-zero width and depth nothing raises. */
  lemma InlineSteelDefined(mu: real, fck: real, fy: real, b: real, d: real)
    requires fck > 0.0 && fy > 0.0 && b != 0.0 && d != 0.0
    ensures InlineRequiredSteel(mu, fck, fy, b, d).Some?
  {
    SquarePositive(d);
    NonZeroProduct(fck * b, Square(d)) by {
      NonZeroProduct(fck, b);
    }
    var k := mu / (fck * b * Square(d));
    var j := LeverFactor(k);
    assert j > 0.0;
    NonZeroProduct(0.87 * fy * j, d) by {
      MulPositive(0.87 * fy, j);
    }
  }

  /**
   * On a real section with a non-negative moment the computation never raises, the
   * lever arm `j·d` lies between `0.9·d` and `d`, and the steel is positive iff the
   * moment is: `0.9·Ast·0.87·fy·d ≤ Mu ≤ Ast·0.87·fy·d`.
   */
  lemma InlineSteelLeverArm(mu: real, fck: real, fy: real, b: real, d: real)
    requires fck > 0.0 && fy > 0.0 && b > 0.0 && d > 0.0 && mu >= 0.0
    ensures InlineRequiredSteel(mu, fck, fy, b, d).Some?
    ensures 0.9 * (InlineRequiredSteel(mu, fck, fy, b, d).value * (0.87 * fy * d)) <= mu
    ensures mu <= InlineRequiredSteel(mu, fck, fy, b, d).value * (0.87 * fy * d)
    ensures InlineRequiredSteel(mu, fck, fy, b, d).value > 0.0 <==> mu > 0.0
  {
    MulPositive(fck, b);
    SquarePositive(d);
    MulPositive(fck * b, Square(d));
    var k := mu / (fck * b * Square(d));
    QuotientPositive(mu, fck * b * Square(d));
    var j := LeverFactor(k);
    InlineSteelDefined(mu, fck, fy, b, d);
    SteelLeverArm(InlineRequiredSteel(mu, fck, fy, b, d).value, fy, d, j, mu);
  }

  /** The steel `Ast` with `Ast·(0.87·fy·j·d) = Mu` and `j ∈ [0.9, 1]` brackets the moment. */
  lemma SteelLeverArm(ast: real, fy: real, d: real, j: real, mu: real)
    requires fy > 0.0 && d > 0.0 && mu >= 0.0 && 0.9 <= j <= 1.0
    requires ast * (0.87 * fy * j * d) == mu
    ensures 0.9 * (ast * (0.87 * fy * d)) <= mu <= ast * (0.87 * fy * d)
    ensures ast > 0.0 <==> mu > 0.0
  {
    var lever := 0.87 * fy * d;
    MulPositive(0.87 * fy, d);
    MulPositive(lever, j);
    assert 0.87 * fy * j * d == lever * j;
    assert ast == mu / (lever * j);
    QuotientPositive(mu, lever * j);
    assert (ast * lever) * j == mu;
    LeverBounds(ast * lever, j, mu);
  }

  /** `x·j = mu` with `x ≥ 0` and `j ∈ [0.9, 1]` puts `mu` between `0.9·x` and `x`. */
  lemma LeverBounds(x: real, j: real, mu: real)
    requires x >= 0.0 && 0.9 <= j <= 1.0 && x * j == mu
    ensures 0.9 * x <= mu <= x
  {
    MulMonotone(j, 1.0, x);
    assert j * x <= x;
    MulMonotone(0.9, j, x);
    assert j * x == mu;
  }

  /**
   * The inline branch and the library's branch disagree for `0.13796352 < k ≤ 0.138`: for an
   * M20/Fe500 strip 1000 mm wide with d = 100 mm and Mu = 27.6 kNm (k = 0.138), the
   * library is past its limiting moment and uses j = 0.9, while the inline rule uses
   * j = 0.954.
   */
  lemma InlineBranchDiffersFromLibrary()
    ensures InlineRequiredSteel(27600000.0, 20.0, 500.0, 1000.0, 100.0)
         == Some(27600000.0 / (0.87 * 500.0 * 0.954 * 100.0))
    ensures RequiredSteel(27600000.0, 20.0, 500.0, 1000.0, 100.0)
         == Some(27600000.0 / (0.87 * 500.0 * 0.9 * 100.0))
    ensures InlineRequiredSteel(27600000.0, 20.0, 500.0, 1000.0, 100.0)
         != RequiredSteel(27600000.0, 20.0, 500.0, 1000.0, 100.0)
  {
    assert Square(100.0) == 10000.0;
    LimitingMomentClosedForm(20.0, 1000.0, 100.0);
    assert 27600000.0 / (20.0 * 1000.0 * Square(100.0)) == 0.138;
  }
}
