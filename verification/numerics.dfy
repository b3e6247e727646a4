/**
 * Numeric and lookup helpers shared by the formula library, the load calculator,
 * the four member checkers and the orchestrator.
 *
 * Python floats are modelled as exact `real`s. Every division goes through `Div`,
 * which fails on a zero divisor exactly where Python raises ZeroDivisionError.
 */
module Numerics {

  /** A computation that either yields a value or raises (ZeroDivisionError, KeyError). */
  datatype Option<+T> = None | Some(value: T) {
    predicate IsFailure() { None? }

    function PropagateFailure<U>(): Option<U>
      requires None?
    {
      None
    }

    function Extract(): T
      requires Some?
    {
      value
    }

    function GetOr(default: T): T {
      if Some? then value else default
    }
  }

  /** Python's `a / b` on floats: raises when `b` is zero. */
  function Div(a: real, b: real): (r: Option<real>)
    ensures r.Some? <==> b != 0.0
    ensures r.Some? ==> r.value * b == a
  {
    if b == 0.0 then None else Some(a / b)
  }

  function Max(a: real, b: real): (r: real)
    ensures r >= a && r >= b
    ensures r == a || r == b
  {
    if a >= b then a else b
  }

  function Min(a: real, b: real): (r: real)
    ensures r <= a && r <= b
    ensures r == a || r == b
  {
    if a <= b then a else b
  }

  /** Python's `int(x)` on a float: truncation toward zero. */
  function Trunc(x: real): (n: int)
    ensures x >= 0.0 ==> n >= 0 && n as real <= x < n as real + 1.0
    ensures x < 0.0 ==> n <= 0 && n as real - 1.0 < x <= n as real
  {
    if x >= 0.0 then x.Floor else -((-x).Floor)
  }

  /** Python's `dict.get(key, default)`. */
  function Get<V>(fields: map<string, V>, key: string, default: V): V {
    if key in fields then fields[key] else default
  }

  /** Python's `dict.setdefault(key, default)` on one optional field: keep a supplied value, else use the default. */
  function SetDefault<V>(supplied: Option<V>, default: V): (r: Option<V>)
    ensures r.Some?
    ensures supplied.Some? ==> r == supplied
    ensures supplied.None? ==> r.value == default
  {
    if supplied.Some? then supplied else Some(default)
  }

  predicate IsUpper(c: char) {
    'A' <= c <= 'Z'
  }

  function LowerChar(c: char): (r: char)
    ensures !IsUpper(r)
    ensures !IsUpper(c) ==> r == c
  {
    if IsUpper(c) then (c as int + 32) as char else c
  }

  /** `str.lower()` on the ASCII letters. */
  function Lower(s: string): (r: string)
    ensures |r| == |s|
    ensures forall i :: 0 <= i < |r| ==> !IsUpper(r[i])
    ensures forall i :: 0 <= i < |s| && !IsUpper(s[i]) ==> r[i] == s[i]
  {
    seq(|s|, i requires 0 <= i < |s| => LowerChar(s[i]))
  }

  lemma LowerIdempotent(s: string)
    ensures Lower(Lower(s)) == Lower(s)
  {
  }

  /**
   * Python's `x ** 2`. The second factor goes through `Identity` so that the solver
   * treats the square like any other product of two terms.
   */
  function Square(x: real): real {
    x * Identity(x)
  }

  function Identity(x: real): real {
    x
  }

  /**
   * The transcendental operations the source takes from Python's `math` module and
   * the `**` operator: `math.sqrt`, `math.pi` and `x ** 0.15`. They are left
   * uninterpreted; `Lawful` states the only facts the model relies on.
   */
  datatype MathLib = MathLib(sqrt: real -> real, pi: real, pow015: real -> real)

  ghost predicate Lawful(m: MathLib) {
    && (forall x :: x > 0.0 ==> m.sqrt(x) > 0.0 && Square(m.sqrt(x)) == x)
    && 3.14 < m.pi < 3.15
    && (forall r :: r >= 1.0 ==> m.pow015(r) >= 1.0)
  }

  /** Cross-sectional area of one bar of the given diameter: `math.pi * (dia/2)**2`. */
  function BarArea(m: MathLib, diameter: real): real {
    m.pi * Square(diameter / 2.0)
  }

  lemma BarAreaPositive(m: MathLib, diameter: real)
    requires Lawful(m) && diameter != 0.0
    ensures BarArea(m, diameter) > 0.0
  {
    SquarePositive(diameter / 2.0);
    MulPositive(m.pi, Square(diameter / 2.0));
  }

  lemma BarAreaNonNegative(m: MathLib, diameter: real)
    requires Lawful(m)
    ensures BarArea(m, diameter) >= 0.0
  {
    if diameter != 0.0 {
      BarAreaPositive(m, diameter);
    } else {
      assert Square(diameter / 2.0) == 0.0;
    }
  }

  lemma TruncMonotone(x: real, y: real)
    requires x <= y
    ensures Trunc(x) <= Trunc(y)
  {
  }

  // Small facts of non-linear real arithmetic the solver does not find unaided.

  lemma MulPositive(a: real, b: real)
    requires a > 0.0 && b > 0.0
    ensures a * b > 0.0
  {
  }

  lemma SquarePositive(x: real)
    requires x != 0.0
    ensures Square(x) > 0.0
  {
    if x > 0.0 {
      MulPositive(x, x);
    } else {
      MulPositive(-x, -x);
    }
  }

  lemma SquareNonNegative(x: real)
    ensures Square(x) >= 0.0
  {
    if x != 0.0 {
      SquarePositive(x);
    }
  }

  lemma CancelNonZero(x: real, c: real)
    requires c != 0.0 && x * c == 0.0
    ensures x == 0.0
  {
    if x > 0.0 && c > 0.0 {
      MulPositive(x, c);
    } else if x > 0.0 {
      MulPositive(x, -c);
    } else if x < 0.0 && c > 0.0 {
      MulPositive(-x, c);
    } else if x < 0.0 {
      MulPositive(-x, -c);
    }
  }

  lemma QuotientBounds(n: real, den: real, c: real)
    requires den > 0.0 && 0.0 <= n <= c * den
    ensures 0.0 <= n / den <= c
  {
    var q := n / den;
    assert q * den == n;
    if q < 0.0 {
      MulPositive(-q, den);
    }
    if q > c {
      MulPositive(q - c, den);
    }
  }

  lemma QuotientPositive(n: real, den: real)
    requires den > 0.0
    ensures n / den > 0.0 <==> n > 0.0
  {
    var q := n / den;
    assert q * den == n;
    if q > 0.0 {
      MulPositive(q, den);
    }
    if n > 0.0 && q < 0.0 {
      MulPositive(-q, den);
    }
  }

  lemma MulMonotone(a: real, b: real, c: real)
    requires a <= b && c >= 0.0
    ensures a * c <= b * c
  {
  }

  /** A product of two non-zero reals is non-zero. */
  lemma NonZeroProduct(a: real, b: real)
    requires a != 0.0 && b != 0.0
    ensures a * b != 0.0
  {
    if a * b == 0.0 {
      CancelNonZero(a, b);
    }
  }

  /** Multiplying by a positive factor keeps an order and reflects it. */
  lemma ScaleIff(x: real, bound: real, k: real)
    requires k > 0.0
    ensures x <= bound <==> x * k <= bound * k
  {
    if x <= bound {
      MulMonotone(x, bound, k);
    } else {
      MulPositive(x - bound, k);
    }
  }

  /** Dividing by a positive denominator keeps order. */
  lemma DivideMonotone(x: real, y: real, den: real)
    requires den > 0.0 && x <= y
    ensures x / den <= y / den
  {
    assert (x / den) * den == x && (y / den) * den == y;
  }

  /** A non-negative numerator divided by a larger positive denominator is no larger. */
  lemma DivideAntitone(n: real, small: real, large: real)
    requires n >= 0.0 && 0.0 < small <= large
    ensures n / large <= n / small
  {
    var b := n / small;
    assert b * small == n;
    MulMonotone(small, large, b) by {
      QuotientBounds(n, small, b);
    }
    QuotientBounds(n, large, b);
  }
}
