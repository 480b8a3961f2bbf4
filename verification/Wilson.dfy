/** The Wilson score interval, over the reals. The square root is an argument: the
    non-negative number whose square is the radicand. */
module WilsonIntervals {

  const Z95: real := 1.959963984540054

  /** Ninety-five in a hundred: its square is that quantile of the chi-squared distribution
      with one degree of freedom, to nine places. */
  lemma Z95Squared()
    ensures 3.841458820 < Z95 * Z95 < 3.841458821 && Z95 > 0.0
  {
  }

  function Clamp01(x: real): real {
    if x < 0.0 then 0.0 else if x > 1.0 then 1.0 else x
  }

  function Radicand(successes: int, trials: int, z: real): real
    requires trials > 0
  {
    var n := trials as real;
    var p := successes as real / n;
    p * (1.0 - p) / n + z * z / (4.0 * n * n)
  }

  predicate IsRootOf(root: real, radicand: real) {
    root >= 0.0 && root * root == radicand
  }

  function Center(successes: int, trials: int, z: real): real
    requires trials > 0
  {
    var n := trials as real;
    var z2 := z * z;
    Positive(z, n);
    (successes as real / n + z2 / (2.0 * n)) / (1.0 + z2 / n)
  }

  function Margin(trials: int, z: real, root: real): real
    requires trials > 0
  {
    var n := trials as real;
    Positive(z, n);
    z / (1.0 + z * z / n) * root
  }

  lemma Positive(z: real, n: real)
    requires n > 0.0
    ensures z * z / n >= 0.0
  {
    assert z * z >= 0.0;
  }

  function Wilson(successes: int, trials: int, z: real, root: real): (real, real) {
    if trials <= 0 then (0.0, 1.0)
    else
      var center, margin := Center(successes, trials, z), Margin(trials, z, root);
      var low, high := Clamp01(center - margin), Clamp01(center + margin);
      (if successes == 0 then 0.0 else low, if successes == trials then 1.0 else high)
  }

  // ---------- the score equation ----------

  /** How far (x - p)^2 exceeds q*x*(1 - x), the squared spread allowed at x. */
  function Excess(p: real, q: real, x: real): real {
    (x - p) * (x - p) - q * x * (1.0 - x)
  }

  /** Completing the square: c and m are the center and half-width where the excess
      vanishes. */
  lemma ExcessIsSquare(p: real, q: real, c: real, m: real, x: real)
    requires q > 0.0 && c * (1.0 + q) == p + q / 2.0
    requires (1.0 + q) * (1.0 + q) * (m * m) == q * p * (1.0 - p) + q * q / 4.0
    ensures Excess(p, q, x) == (1.0 + q) * ((x - c) * (x - c) - m * m)
  {
    var d := 1.0 + q;
    var a := p + q / 2.0;
    assert d * (d * c * c) == a * a by { assert d * c == a; }
    assert d * (d * m * m) == q * p * (1.0 - p) + q * q / 4.0;
    assert a * a - d * p * p == q * p * (1.0 - p) + q * q / 4.0;
    assert d * (d * c * c - d * m * m) == d * (p * p);
    Cancel(d, d * c * c - d * m * m, p * p);
    assert d * ((x - c) * (x - c) - m * m) == d * x * x - 2.0 * (d * c) * x + (d * c * c - d * m * m);
  }

  lemma Cancel(d: real, x: real, y: real)
    requires d > 0.0 && d * x == d * y
    ensures x == y
  {
    assert d * (x - y) == 0.0;
    DivTimes(d * (x - y), d);
    assert x - y == (d * (x - y)) / d;
  }

  lemma WithinSquare(x: real, c: real, m: real)
    requires m >= 0.0
    ensures (x - c) * (x - c) <= m * m <==> c - m <= x <= c + m
  {
    var d := x - c;
    if d >= 0.0 {
      SquareOrder(d, m);
    } else {
      SquareOrder(-d, m);
      assert (-d) * (-d) == d * d;
    }
  }

  lemma SquareOrder(a: real, b: real)
    requires a >= 0.0 && b >= 0.0
    ensures a * a <= b * b <==> a <= b
  {
    if a <= b {
      assert a * a <= a * b <= b * b;
    } else {
      MulPositive(a - b, a + b);
      assert a * a - b * b == (a - b) * (a + b);
    }
  }

  lemma MulPositive(a: real, b: real)
    requires a > 0.0 && b > 0.0
    ensures a * b > 0.0
  {
  }

  lemma SignOfProduct(d: real, y: real)
    requires d > 0.0
    ensures d * y <= 0.0 <==> y <= 0.0
    ensures d * y >= 0.0 <==> y >= 0.0
  {
  }

  /** Center and margin, written over q = z*z/n. */
  lemma InTermsOfQ(successes: int, trials: int, z: real, root: real) returns (p: real, q: real)
    requires trials > 0 && z > 0.0 && IsRootOf(root, Radicand(successes, trials, z))
    ensures p == successes as real / trials as real && q == z * z / trials as real && q > 0.0
    ensures Center(successes, trials, z) * (1.0 + q) == p + q / 2.0
    ensures var m := Margin(trials, z, root);
            m >= 0.0 && (1.0 + q) * (1.0 + q) * (m * m) == q * p * (1.0 - p) + q * q / 4.0
  {
    hide Center, Margin, Radicand, IsRootOf;
    var n := trials as real;
    p, q := successes as real / n, z * z / n;
    QIsPositive(z, n);
    CenterOverQ(successes, trials, z);
    MarginOverQ(successes, trials, z, root);
  }

  lemma QIsPositive(z: real, n: real)
    requires z > 0.0 && n > 0.0
    ensures z * z / n > 0.0
  {
    ProductOverPositive(z, z, n);
  }

  lemma ProductOverPositive(a: real, b: real, n: real)
    requires a > 0.0 && b > 0.0 && n > 0.0
    ensures a * b / n > 0.0
  {
    MulPositive(a, b);
    DivPositive(a * b, n);
  }

  lemma CenterOverQ(successes: int, trials: int, z: real)
    requires trials > 0 && z > 0.0
    ensures var p, q := successes as real / trials as real, z * z / trials as real;
            Center(successes, trials, z) * (1.0 + q) == p + q / 2.0
  {
    var n := trials as real;
    var p, q := successes as real / n, z * z / n;
    QIsPositive(z, n);
    HalfOver(z * z, n);
    DivTimes(p + q / 2.0, 1.0 + q);
  }

  lemma MarginOverQ(successes: int, trials: int, z: real, root: real)
    requires trials > 0 && z > 0.0 && IsRootOf(root, Radicand(successes, trials, z))
    ensures var p, q, m := successes as real / trials as real, z * z / trials as real, Margin(trials, z, root);
            m >= 0.0 && (1.0 + q) * (1.0 + q) * (m * m) == q * p * (1.0 - p) + q * q / 4.0
  {
    var n := trials as real;
    var p, q := successes as real / n, z * z / n;
    QIsPositive(z, n);
    Spread(z, n, p);
    SquaredMargin(z, 1.0 + q, root, Radicand(successes, trials, z));
  }

  lemma SquaredMargin(z: real, d: real, root: real, radicand: real)
    requires z > 0.0 && d > 0.0 && root >= 0.0 && root * root == radicand
    ensures var m := z / d * root; m >= 0.0 && d * d * (m * m) == z * z * radicand
  {
    MarginSign(z, d, root);
    var r := z / d;
    DivTimes(z, d);
    assert d * d * ((r * root) * (r * root)) == (r * d) * (r * d) * (root * root);
  }

  lemma DivPositive(a: real, n: real)
    requires a > 0.0 && n > 0.0
    ensures a / n > 0.0
  {
  }

  lemma DivTimes(a: real, d: real)
    requires d != 0.0
    ensures (a / d) * d == a
  {
  }

  lemma MarginSign(z: real, d: real, root: real)
    requires z > 0.0 && d > 0.0 && root >= 0.0
    ensures z / d * root >= 0.0
  {
    DivPositive(z, d);
  }

  lemma HalfOver(a: real, n: real)
    requires n > 0.0
    ensures a / (2.0 * n) == (a / n) / 2.0
  {
    assert (a / (2.0 * n)) * (2.0 * n) == a;
    assert ((a / n) / 2.0) * (2.0 * n) == (a / n) * n == a;
  }

  lemma Spread(z: real, n: real, p: real)
    requires n > 0.0
    ensures var q := z * z / n; (z * z) * (p * (1.0 - p) / n + z * z / (4.0 * n * n)) == q * p * (1.0 - p) + q * q / 4.0
  {
    var a, q := z * z, z * z / n;
    MulDiv(a, p * (1.0 - p), n);
    MulDiv(a, a / n, n);
    DivTimes(a, n);
    DivTimes(a / n, n);
    Quarter(a, n, a / n, (a / n) / n);
  }

  lemma Quarter(a: real, n: real, b: real, e: real)
    requires n > 0.0 && b * n == a && e * n == b
    ensures a / (4.0 * n * n) == e / 4.0
  {
    FourSquares(n, 4.0 * n * n);
    QuarterOf(a, n, b, e, 4.0 * n * n);
  }

  lemma QuarterOf(a: real, n: real, b: real, e: real, d: real)
    requires n > 0.0 && b * n == a && e * n == b && d == 4.0 * n * n && d > 0.0
    ensures a / d == e / 4.0
  {
    assert (e / 4.0) * d == a;
    assert (e / 4.0) * d / d == e / 4.0;
  }

  lemma FourSquares(n: real, d: real)
    requires n > 0.0 && d == 4.0 * n * n
    ensures d > 0.0
  {
    ProductIs(4.0 * n, n, d);
  }

  lemma ProductIs(a: real, b: real, y: real)
    requires a > 0.0 && b > 0.0 && y == a * b
    ensures y > 0.0
  {
  }

  lemma MulDiv(a: real, b: real, n: real)
    requires n > 0.0
    ensures a * (b / n) == (a / n) * b
  {
    DivTimes(a, n);
    DivTimes(b, n);
    assert (a * (b / n)) * n == a * b;
    assert ((a / n) * b) * n == a * b;
    Cancel(n, a * (b / n), (a / n) * b);
  }

  lemma SameQuotient(a: real, d: real, x: real)
    requires d > 0.0 && x * d == a
    ensures a / d == x
  {
    DivTimes(a, d);
    Cancel(d, a / d, x);
  }

  // ---------- what the interval is ----------

  /** The unclamped bounds lie on either side of the observed rate, inside [0, 1], and
      between them lie exactly the rates x that the score test accepts: those whose
      distance from the observed rate is at most z standard errors at x. */
  lemma ScoreTest(successes: int, trials: int, z: real, root: real, x: real)
    requires 0 <= successes <= trials && trials > 0 && z > 0.0 && IsRootOf(root, Radicand(successes, trials, z))
    ensures var c, m, p := Center(successes, trials, z), Margin(trials, z, root), successes as real / trials as real;
            c - m <= x <= c + m <==> (x - p) * (x - p) <= z * z / trials as real * x * (1.0 - x)
  {
    var p, q := InTermsOfQ(successes, trials, z, root);
    hide Center, Margin, Radicand, IsRootOf;
    InsideMeansSmallExcess(p, q, Center(successes, trials, z), Margin(trials, z, root), x);
  }

  lemma InsideMeansSmallExcess(p: real, q: real, c: real, m: real, x: real)
    requires q > 0.0 && m >= 0.0 && c * (1.0 + q) == p + q / 2.0
    requires (1.0 + q) * (1.0 + q) * (m * m) == q * p * (1.0 - p) + q * q / 4.0
    ensures c - m <= x <= c + m <==> (x - p) * (x - p) <= q * x * (1.0 - x)
  {
    ExcessIsSquare(p, q, c, m, x);
    hide Excess;
    SignOfProduct(1.0 + q, (x - c) * (x - c) - m * m);
    WithinSquare(x, c, m);
    ExcessSign(p, q, x);
  }

  lemma ExcessSign(p: real, q: real, x: real)
    ensures Excess(p, q, x) <= 0.0 <==> (x - p) * (x - p) <= q * x * (1.0 - x)
  {
  }

  lemma RateInRange(successes: int, trials: int)
    requires 0 <= successes <= trials && trials > 0
    ensures var p := successes as real / trials as real;
            0.0 <= p <= 1.0 && (p == 0.0 <==> successes == 0) && (p == 1.0 <==> successes == trials)
  {
    DivTimes(successes as real, trials as real);
  }

  /** A bound where the excess is not negative is outside the open interval. */
  lemma OutsideMeansExcess(p: real, q: real, c: real, m: real, x: real)
    requires q > 0.0 && m >= 0.0 && c * (1.0 + q) == p + q / 2.0
    requires (1.0 + q) * (1.0 + q) * (m * m) == q * p * (1.0 - p) + q * q / 4.0
    requires Excess(p, q, x) >= 0.0
    ensures x <= c - m || c + m <= x
    ensures Excess(p, q, x) == 0.0 ==> x == c - m || x == c + m
  {
    ExcessIsSquare(p, q, c, m, x);
    hide Excess;
    SignOfProduct(1.0 + q, (x - c) * (x - c) - m * m);
    if x >= c {
      SquareOrder(m, x - c);
      SquareOrder(x - c, m);
    } else {
      assert (c - x) * (c - x) == (x - c) * (x - c);
      SquareOrder(m, c - x);
      SquareOrder(c - x, m);
    }
  }

  /** Everything the interval promises, from the two equations its center and margin
      satisfy. */
  lemma IntervalFromEquations(p: real, q: real, c: real, m: real)
    requires 0.0 <= p <= 1.0 && q > 0.0 && m >= 0.0 && c * (1.0 + q) == p + q / 2.0
    requires (1.0 + q) * (1.0 + q) * (m * m) == q * p * (1.0 - p) + q * q / 4.0
    ensures 0.0 <= c - m <= p <= c + m <= 1.0 && m > 0.0
    ensures p == 0.0 ==> c - m == 0.0
    ensures p == 1.0 ==> c + m == 1.0
  {
    ExcessAtEnds(p, q);
    OutsideMeansExcess(p, q, c, m, 0.0);
    OutsideMeansExcess(p, q, c, m, 1.0);
    InsideMeansSmallExcess(p, q, c, m, p);
    CenterInRange(p, q, c);
    MarginIsPositive(p, q, m);
    ProductInRange(p, q);
  }

  lemma ExcessAtEnds(p: real, q: real)
    ensures Excess(p, q, 0.0) == p * p >= 0.0 && Excess(p, q, 1.0) == (1.0 - p) * (1.0 - p) >= 0.0
  {
  }

  lemma ProductInRange(p: real, q: real)
    requires 0.0 <= p <= 1.0 && q > 0.0
    ensures q * p * (1.0 - p) >= 0.0
  {
    MulNonNegative(q, p);
    MulNonNegative(q * p, 1.0 - p);
  }

  lemma MulNonNegative(a: real, b: real)
    requires a >= 0.0 && b >= 0.0
    ensures a * b >= 0.0
  {
  }

  lemma CenterInRange(p: real, q: real, c: real)
    requires 0.0 <= p <= 1.0 && q > 0.0 && c * (1.0 + q) == p + q / 2.0
    ensures 0.0 < c < 1.0
  {
    SameQuotient(p + q / 2.0, 1.0 + q, c);
  }

  lemma MarginIsPositive(p: real, q: real, m: real)
    requires 0.0 <= p <= 1.0 && q > 0.0 && m >= 0.0
    requires (1.0 + q) * (1.0 + q) * (m * m) == q * p * (1.0 - p) + q * q / 4.0
    ensures m > 0.0
  {
    ProductInRange(p, q);
    MulPositive(q, q);
    assert q * q / 4.0 > 0.0;
  }

  /** Over the reals the clamps and the boundary overrides change nothing: the interval
      is center minus and plus margin. It holds the observed rate, has positive width,
      and stays in [0, 1]. */
  lemma WilsonIsExact(successes: int, trials: int, z: real, root: real)
    requires 0 <= successes <= trials && trials > 0 && z > 0.0 && IsRootOf(root, Radicand(successes, trials, z))
    ensures var (low, high) := Wilson(successes, trials, z, root);
            var c, m := Center(successes, trials, z), Margin(trials, z, root);
            && low == c - m && high == c + m && low < high
            && 0.0 <= low <= successes as real / trials as real <= high <= 1.0
  {
    var p, q := InTermsOfQ(successes, trials, z, root);
    RateInRange(successes, trials);
    hide Center, Margin, Radicand, IsRootOf;
    IntervalFromEquations(p, q, Center(successes, trials, z), Margin(trials, z, root));
  }

  /** The interval is exactly the rates the score test does not reject. */
  lemma WilsonInvertsScoreTest(successes: int, trials: int, z: real, root: real, x: real)
    requires 0 <= successes <= trials && trials > 0 && z > 0.0 && IsRootOf(root, Radicand(successes, trials, z))
    ensures var (low, high) := Wilson(successes, trials, z, root);
            var p := successes as real / trials as real;
            low <= x <= high <==> (x - p) * (x - p) <= z * z / trials as real * x * (1.0 - x)
  {
    hide Center, Margin, Radicand, IsRootOf, Wilson;
    WilsonIsExact(successes, trials, z, root);
    ScoreTest(successes, trials, z, root, x);
  }

  /** Counting failures instead of successes mirrors the interval. */
  lemma WilsonMirrors(successes: int, trials: int, z: real, root: real)
    requires 0 <= successes <= trials && trials > 0 && z > 0.0 && IsRootOf(root, Radicand(successes, trials, z))
    ensures IsRootOf(root, Radicand(trials - successes, trials, z))
    ensures var (low, high) := Wilson(successes, trials, z, root);
            Wilson(trials - successes, trials, z, root) == (1.0 - high, 1.0 - low)
  {
    MirrorRate(successes, trials);
    MirrorRadicand(successes, trials, z);
    WilsonIsExact(successes, trials, z, root);
    WilsonIsExact(trials - successes, trials, z, root);
    MirrorCenter(successes, trials, z);
  }

  lemma MirrorRate(successes: int, trials: int)
    requires trials > 0
    ensures (trials - successes) as real / trials as real == 1.0 - successes as real / trials as real
  {
    DivTimes(successes as real, trials as real);
    SameQuotient((trials - successes) as real, trials as real, 1.0 - successes as real / trials as real);
  }

  lemma MirrorRadicand(successes: int, trials: int, z: real)
    requires trials > 0
    ensures Radicand(trials - successes, trials, z) == Radicand(successes, trials, z)
  {
    MirrorRate(successes, trials);
    var p := successes as real / trials as real;
    assert (1.0 - p) * (1.0 - (1.0 - p)) == p * (1.0 - p);
  }

  lemma MirrorCenter(successes: int, trials: int, z: real)
    requires trials > 0 && z > 0.0
    ensures Center(trials - successes, trials, z) == 1.0 - Center(successes, trials, z)
  {
    MirrorRate(successes, trials);
    CenterOverQ(successes, trials, z);
    CenterOverQ(trials - successes, trials, z);
    QIsPositive(z, trials as real);
    hide Center;
    var q := z * z / trials as real;
    Cancel(1.0 + q, Center(trials - successes, trials, z), 1.0 - Center(successes, trials, z));
  }
}
