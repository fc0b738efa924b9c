/** The Wilson score interval in exact arithmetic. `s` is the square root the code takes: any
    nonnegative number whose square is the variance term. */
module Wilson {
  import opened Reals

  datatype Interval = Interval(lower: real, upper: real)
  datatype Outcome = NoTrials | BadArguments | Score(interval: Interval)

  function Proportion(k: int, n: int): real requires n > 0 { k as real / n as real }

  function Denominator(n: int, z: real): (d: real) requires n > 0 ensures d >= 1.0 {
    assert z * z >= 0.0;
    Nonnegative(z * z, n as real);
    1.0 + (z * z) / n as real
  }

  function Variance(k: int, n: int, z: real): real requires n > 0 {
    var p := Proportion(k, n);
    p * (1.0 - p) / n as real + (z * z) / (4.0 * n as real * n as real)
  }

  function Center(k: int, n: int, z: real): real requires n > 0 {
    (Proportion(k, n) + (z * z) / (2.0 * n as real)) / Denominator(n, z)
  }

  function Margin(n: int, z: real, s: real): real requires n > 0 { z / Denominator(n, z) * s }

  function Lower(k: int, n: int, z: real, s: real): real requires n > 0 { Center(k, n, z) - Margin(n, z, s) }
  function Upper(k: int, n: int, z: real, s: real): real requires n > 0 { Center(k, n, z) + Margin(n, z, s) }

  function Max(a: real, b: real): real { if a < b then b else a }
  function Min(a: real, b: real): real { if a < b then a else b }

  /** `compute_ordinary_wilson_score` */
  function WilsonScore(k: int, n: int, z: real, s: real): Outcome {
    if n == 0 then NoTrials
    else if n < 0 || k < 0 || k > n then BadArguments
    else Score(Interval(Max(0.0, Lower(k, n, z, s)), Min(1.0, Upper(k, n, z, s))))
  }

  ghost predicate Root(k: int, n: int, z: real, s: real) {
    0 <= k <= n && n > 0 && z > 0.0 && s >= 0.0 && s * s == Variance(k, n, z)
  }

  // Scaled by n + z*z, the ends are B - w and B + w.

  function A(n: int, z: real): real { n as real + z * z }
  function B(k: int, z: real): real { k as real + z * z / 2.0 }
  function W(n: int, z: real, s: real): real { n as real * z * s }

  lemma ScaledEnds(k: int, n: int, z: real, s: real)
    requires n > 0
    ensures A(n, z) > 0.0
    ensures A(n, z) * Lower(k, n, z, s) == B(k, z) - W(n, z, s)
    ensures A(n, z) * Upper(k, n, z, s) == B(k, z) + W(n, z, s)
  {
    ScaledCenter(k, n, z);
    ScaledLower(k, n, z, s);
    ScaledUpper(k, n, z, s);
    hide A, B, W, Lower, Upper;
  }

  lemma ScaledLower(k: int, n: int, z: real, s: real)
    requires n > 0
    ensures A(n, z) * Lower(k, n, z, s) == B(k, z) - W(n, z, s)
  {
    Ends(k, n, z, s);
    ScaledCenter(k, n, z);
    ScaledMargin(n, z, s);
    hide Center, Margin, A, B, W, Lower, Denominator, Proportion;
    Distribute(A(n, z), Center(k, n, z), Margin(n, z, s));
  }

  lemma ScaledUpper(k: int, n: int, z: real, s: real)
    requires n > 0
    ensures A(n, z) * Upper(k, n, z, s) == B(k, z) + W(n, z, s)
  {
    Ends(k, n, z, s);
    ScaledCenter(k, n, z);
    ScaledMargin(n, z, s);
    hide Center, Margin, A, B, W, Upper, Denominator, Proportion;
    Distribute(A(n, z), Center(k, n, z), Margin(n, z, s));
  }

  lemma Ends(k: int, n: int, z: real, s: real)
    requires n > 0
    ensures Lower(k, n, z, s) == Center(k, n, z) - Margin(n, z, s)
    ensures Upper(k, n, z, s) == Center(k, n, z) + Margin(n, z, s)
  {
    hide Center, Margin;
  }

  lemma ScaledDenominator(n: int, z: real)
    requires n > 0
    ensures n as real * Denominator(n, z) == A(n, z) > 0.0
  {
    assert z * z >= 0.0;
    DivideBack(z * z, n as real);
    Distribute(n as real, 1.0, (z * z) / n as real);
  }

  lemma ScaledCenter(k: int, n: int, z: real)
    requires n > 0
    ensures A(n, z) > 0.0 && A(n, z) * Center(k, n, z) == B(k, z)
  {
    var N, d, z2 := n as real, Denominator(n, z), z * z;
    ScaledDenominator(n, z);
    var top := Proportion(k, n) + z2 / (2.0 * N);
    DivideBack(top, d);
    DivideBack(k as real, N);
    HalfQuotient(z2, N);
    Distribute(N, Proportion(k, n), z2 / (2.0 * N));
    hide A, Denominator;
    ScaledBy(N, d, Center(k, n, z), top);
  }

  lemma ScaledMargin(n: int, z: real, s: real)
    requires n > 0
    ensures A(n, z) * Margin(n, z, s) == W(n, z, s)
  {
    ScaledDenominator(n, z);
    MarginScaled(z, Denominator(n, z), s);
    ScaledBy(n as real, Denominator(n, z), Margin(n, z, s), z * s);
    Assoc(n as real, z, s);
  }

  lemma HalfQuotient(a: real, b: real)
    requires b > 0.0
    ensures b * (a / (2.0 * b)) == a / 2.0
  {
    var q := a / (2.0 * b);
    assert q * (2.0 * b) == a;
  }

  lemma ScaledBy(n: real, d: real, x: real, y: real)
    requires d * x == y
    ensures (n * d) * x == n * y
  {
    Assoc(n, d, x);
  }

  lemma MarginScaled(z: real, d: real, s: real)
    requires d > 0.0
    ensures d * (z / d * s) == z * s
  {
    Assoc(d, z / d, s);
  }

  lemma ScaledVariance(k: int, n: int, z: real)
    requires n > 0
    ensures var N, K := n as real, k as real;
      N * N * N * Variance(k, n, z) == K * (N - K) + N * (z * z) / 4.0
  {
    var N, K, z2, p := n as real, k as real, z * z, Proportion(k, n);
    assert N * p == K;
    assert N * (1.0 - p) == N - K by { Distribute(N, 1.0, p); }
    var a, b := p * (1.0 - p) / N, z2 / (4.0 * N * N);
    assert N * N * N * a == K * (N - K) by {
      assert N * a == p * (1.0 - p);
      ProductOfScaled(N, p, 1.0 - p, K, N - K, a);
    }
    FourSquares(N);
    QuarterQuotient(z2, N, 4.0 * N * N);
    Distribute(N * N * N, a, 0.0 - b);
  }

  /** n*w*w == z*z * (k*(n-k) + n*z*z/4) */
  lemma SquareOfW(k: int, n: int, z: real, s: real)
    requires Root(k, n, z, s)
    ensures W(n, z, s) >= 0.0
    ensures n as real * (W(n, z, s) * W(n, z, s))
         == (z * z) * (k as real * (n as real - k as real) + n as real * (z * z) / 4.0)
  {
    ScaledVariance(k, n, z);
    hide Variance;
    SquareOfProduct(n as real, z, s);
    Rearrange(n as real, z * z, s * s);
    NonnegativeProduct(n as real, z, s);
  }

  lemma ProductOfScaled(n: real, x: real, y: real, sx: real, sy: real, a: real)
    requires n * x == sx && n * y == sy && n * a == x * y
    ensures n * n * n * a == sx * sy
  {
    assert n * n * n * a == n * n * (n * a);
    assert n * n * (x * y) == (n * x) * (n * y);
  }

  lemma FourSquares(n: real)
    requires n > 0.0
    ensures 4.0 * n * n > 0.0
  {
    var q := 4.0 * n;
    Positive(q, n);
  }

  lemma QuarterQuotient(a: real, n: real, m: real)
    requires m == 4.0 * n * n && m > 0.0
    ensures n * n * n * (a / m) == n * a / 4.0
  {
    DivideBack(a, m);
    QuarterAlgebra(a, n, a / m);
  }

  lemma QuarterAlgebra(a: real, n: real, q: real)
    requires q * (4.0 * n * n) == a
    ensures n * n * n * q == n * a / 4.0
  {
    assert n * (q * (4.0 * n * n)) == 4.0 * (n * n * n * q);
  }

  lemma SquareOfProduct(n: real, z: real, s: real)
    ensures (n * z * s) * (n * z * s) == n * n * (z * z) * (s * s)
  {
    assert (n * z * s) * (n * z * s) == (n * z) * (n * z) * (s * s);
    assert (n * z) * (n * z) == n * n * (z * z);
  }

  lemma Rearrange(n: real, z2: real, v: real)
    ensures n * (n * n * z2 * v) == z2 * (n * n * n * v)
  {
    assert n * n * z2 * v == z2 * (n * n * v);
  }

  // ---------- Laws ----------

  /** Swapping successes and failures swaps the interval around one half. */
  lemma Symmetry(k: int, n: int, z: real, s: real)
    requires Root(k, n, z, s)
    ensures Root(n - k, n, z, s)
    ensures Lower(k, n, z, s) == 1.0 - Upper(n - k, n, z, s)
    ensures Upper(k, n, z, s) == 1.0 - Lower(n - k, n, z, s)
  {
    hide Lower, Upper, Variance, W;
    var a := A(n, z);
    SameVariance(k, n, z);
    ScaledEnds(k, n, z, s);
    ScaledEnds(n - k, n, z, s);
    assert B(k, z) + B(n - k, z) == a;
    Distribute(a, 1.0, Upper(n - k, n, z, s));
    Distribute(a, 1.0, Lower(n - k, n, z, s));
    Cancel(a, Lower(k, n, z, s), 1.0 - Upper(n - k, n, z, s));
    Cancel(a, Upper(k, n, z, s), 1.0 - Lower(n - k, n, z, s));
  }

  lemma Complement(k: int, n: int)
    requires n > 0
    ensures Proportion(n - k, n) == 1.0 - Proportion(k, n)
  {
    var N, p, q := n as real, Proportion(k, n), Proportion(n - k, n);
    assert N * p == k as real && N * q == (n - k) as real;
    hide Proportion;
    Distribute(N, 1.0, p);
    Cancel(N, q, 1.0 - p);
  }

  lemma SameVariance(k: int, n: int, z: real)
    requires n > 0
    ensures Variance(n - k, n, z) == Variance(k, n, z)
  {
    Complement(k, n);
    var p := Proportion(k, n);
    assert (1.0 - p) * (1.0 - (1.0 - p)) == p * (1.0 - p);
  }

  /** The lower end is not negative and not above the observed proportion. */
  lemma LowerBounds(k: int, n: int, z: real, s: real)
    requires Root(k, n, z, s)
    ensures 0.0 <= Lower(k, n, z, s) <= Proportion(k, n)
  {
    hide Lower, Upper, Proportion, W, Variance, A, B;
    ScaledEnds(k, n, z, s);
    HalfExcess(k, n, z, s);
    ProportionGap(k, n, z, s);
    Cancel(A(n, z), 0.0, Lower(k, n, z, s));
    Cancel(A(n, z), Lower(k, n, z, s), Proportion(k, n));
  }

  /** w <= b */
  lemma HalfExcess(k: int, n: int, z: real, s: real)
    requires Root(k, n, z, s)
    ensures W(n, z, s) <= B(k, z)
  {
    SquareOfW(k, n, z, s);
    hide W, Variance;
    assert z * z >= 0.0;
    HalfExcessAlgebra(n as real, k as real, z * z, W(n, z, s));
  }

  lemma HalfExcessAlgebra(n: real, k: real, z2: real, w: real)
    requires n > 0.0 && k >= 0.0 && z2 >= 0.0 && n * (w * w) == z2 * (k * (n - k) + n * z2 / 4.0)
    ensures w <= k + z2 / 2.0
  {
    var b := k + z2 / 2.0;
    BottomGap(n, k, z2);
    NonnegativeProduct(k, k, n + z2);
    Cancel(n, w * w, b * b);
    SquareOrder(w, b);
  }

  lemma BottomGap(n: real, k: real, z2: real)
    ensures n * ((k + z2 / 2.0) * (k + z2 / 2.0)) - z2 * (k * (n - k) + n * z2 / 4.0) == k * k * (n + z2)
  {
    assert (k + z2 / 2.0) * (k + z2 / 2.0) == k * k + k * z2 + z2 * z2 / 4.0;
    assert n * (k * k + k * z2 + z2 * z2 / 4.0) == n * (k * k) + n * (k * z2) + n * (z2 * z2) / 4.0;
    assert z2 * (k * (n - k) + n * z2 / 4.0) == n * (k * z2) - (k * k) * z2 + n * (z2 * z2) / 4.0;
  }

  /** w >= (z*z/2) * (1 - 2p) */
  lemma ProportionGap(k: int, n: int, z: real, s: real)
    requires Root(k, n, z, s)
    ensures B(k, z) - W(n, z, s) <= A(n, z) * Proportion(k, n)
  {
    SquareOfW(k, n, z, s);
    DivideBack(k as real, n as real);
    SquareSign(z);
    hide W, Variance;
    ProportionGapAlgebra(n as real, k as real, z * z, W(n, z, s), Proportion(k, n));
    SumTimes(n as real, z * z, Proportion(k, n));
  }

  lemma SquareSign(z: real) ensures z * z >= 0.0 {}

  lemma SumTimes(a: real, b: real, x: real)
    ensures (a + b) * x == a * x + b * x
  {}

  lemma ProportionGapAlgebra(n: real, k: real, z2: real, w: real, p: real)
    requires n > 0.0 && 0.0 <= k <= n && z2 >= 0.0 && w >= 0.0 && n * p == k
    requires n * (w * w) == z2 * (k * (n - k) + n * z2 / 4.0)
    ensures z2 / 2.0 - z2 * p <= w
  {
    var square := WSplit(z2, k, n);
    var gap := GapSquare(n, z2, p, k, square);
    NonnegativeProduct(z2, k, n - k);
    OrderFromSquares(n, z2 / 2.0 - z2 * p, w, gap, z2 * k * (n - k) + square);
  }

  lemma OrderFromSquares(n: real, g: real, w: real, gap: real, square: real)
    requires n > 0.0 && w >= 0.0 && n * (g * g) == gap && n * (w * w) == square && gap <= square
    ensures g <= w
  {
    Cancel(n, g * g, w * w);
    SquareOrder(g, w);
  }

  lemma WSplit(z2: real, k: real, n: real) returns (quarter: real)
    ensures quarter == n * (z2 * z2) / 4.0
    ensures z2 * (k * (n - k) + n * z2 / 4.0) == z2 * k * (n - k) + quarter
  {
    quarter := n * (z2 * z2) / 4.0;
    Distribute(z2, k * (n - k), n * z2 / 4.0);
    Assoc(z2, k, n - k);
    QuarterOut(z2, n);
  }

  lemma QuarterOut(a: real, b: real)
    ensures a * (b * a / 4.0) == b * (a * a) / 4.0
  {
    Assoc(a, b * a, 0.25);
    Assoc(b, a, a);
  }

  /** The square of z2 * (1/2 - p), times n, when n * p is k: at most n * z2 * z2 / 4. */
  lemma GapSquare(n: real, z2: real, p: real, k: real, quarter: real) returns (gap: real)
    requires n > 0.0 && 0.0 <= k <= n && n * p == k && quarter == n * (z2 * z2) / 4.0
    ensures gap == n * ((z2 / 2.0 - z2 * p) * (z2 / 2.0 - z2 * p)) <= quarter
  {
    var g := z2 / 2.0 - z2 * p;
    gap := n * (g * g);
    HalfGapSquare(n, p, k);
    FactorOut(z2, p);
    Assoc(n, z2 * z2, (0.5 - p) * (0.5 - p));
    Swap(n, z2 * z2, (0.5 - p) * (0.5 - p));
    assert z2 * z2 >= 0.0;
    Monotone(z2 * z2, n * ((0.5 - p) * (0.5 - p)), n / 4.0);
  }

  lemma FactorOut(a: real, p: real)
    ensures (a / 2.0 - a * p) * (a / 2.0 - a * p) == (a * a) * ((0.5 - p) * (0.5 - p))
  {
    Distribute(a, 0.5, p);
    SquareOfPair(a, 0.5 - p);
  }

  lemma SquareOfPair(a: real, b: real)
    ensures (a * b) * (a * b) == (a * a) * (b * b)
  {}

  lemma Swap(a: real, b: real, c: real)
    ensures a * (b * c) == b * (a * c)
  {}

  lemma HalfGapSquare(n: real, p: real, k: real)
    requires n > 0.0 && 0.0 <= k <= n && n * p == k
    ensures n * ((0.5 - p) * (0.5 - p)) <= n / 4.0
  {
    Cancel(n, p, 1.0);
    Cancel(n, 0.0, p);
    UnitProduct(p);
    Monotone(n, (0.5 - p) * (0.5 - p), 0.25);
  }

  lemma UnitProduct(p: real)
    requires 0.0 <= p <= 1.0
    ensures (0.5 - p) * (0.5 - p) <= 0.25
  {
    SquareAtMost(p);
    GapAtMost(p);
  }

  lemma SquareAtMost(p: real)
    requires 0.0 <= p <= 1.0
    ensures p * p <= p
  {
    Monotone(p, p, 1.0);
  }

  lemma GapAtMost(p: real)
    requires p * p <= p
    ensures (0.5 - p) * (0.5 - p) <= 0.25
  {
    SquareOfGap(p);
  }

  lemma SquareOfGap(p: real)
    ensures (0.5 - p) * (0.5 - p) == 0.25 - p + p * p
  {}

  /** The unclipped interval lies in [0, 1] and encloses the observed proportion: the clipping in
      the code only absorbs floating-point error. */
  lemma Encloses(k: int, n: int, z: real, s: real)
    requires Root(k, n, z, s)
    ensures 0.0 <= Lower(k, n, z, s) <= Proportion(k, n) <= Upper(k, n, z, s) <= 1.0
    ensures WilsonScore(k, n, z, s) == Score(Interval(Lower(k, n, z, s), Upper(k, n, z, s)))
  {
    hide Lower, Upper, Proportion, Variance;
    LowerBounds(k, n, z, s);
    Symmetry(k, n, z, s);
    LowerBounds(n - k, n, z, s);
    Complement(k, n);
  }

  /** The score equation: how far a proportion `t` is from the observed one, against its own
      standard error. */
  ghost predicate OnScoreCurve(k: int, n: int, z: real, t: real) requires n > 0 {
    n as real * ((Proportion(k, n) - t) * (Proportion(k, n) - t)) == z * z * (t * (1.0 - t))
  }

  /** n*(p-t)^2 - z*z*t*(1-t), the left side minus the right. */
  function Gap(k: int, n: int, z: real, t: real): real requires n > 0 {
    n as real * ((Proportion(k, n) - t) * (Proportion(k, n) - t)) - z * z * (t * (1.0 - t))
  }

  lemma GapAsQuadratic(k: int, n: int, z: real, t: real)
    requires n > 0
    ensures Gap(k, n, z, t) == A(n, z) * (t * t) - 2.0 * B(k, z) * t + k as real * Proportion(k, n)
  {
    var N, p, z2, K := n as real, Proportion(k, n), z * z, k as real;
    assert N * p == K;
    assert (p - t) * (p - t) == p * p - 2.0 * (p * t) + t * t;
    assert N * (p * p - 2.0 * (p * t) + t * t) == (N * p) * p - 2.0 * ((N * p) * t) + N * (t * t);
    assert z2 * (t * (1.0 - t)) == z2 * t - z2 * (t * t);
    assert (N + z2) * (t * t) == N * (t * t) + z2 * (t * t);
    assert 2.0 * (K + z2 / 2.0) * t == 2.0 * (K * t) + z2 * t;
  }

  /** The gap factors over the two ends of the interval. */
  lemma GapFactors(k: int, n: int, z: real, s: real, t: real)
    requires Root(k, n, z, s)
    ensures Gap(k, n, z, t) == A(n, z) * ((t - Lower(k, n, z, s)) * (t - Upper(k, n, z, s)))
  {
    hide Lower, Upper, Gap, W, B, A, Variance, Proportion;
    ScaledEnds(k, n, z, s);
    GapAsQuadratic(k, n, z, t);
    ProductOfEnds(k, n, z, s);
    Factor(A(n, z), B(k, z), W(n, z, s), k as real * Proportion(k, n), Lower(k, n, z, s), Upper(k, n, z, s), t);
  }

  lemma Factor(a: real, b: real, w: real, c: real, l: real, u: real, t: real)
    requires a > 0.0 && a * l == b - w && a * u == b + w && (b - w) * (b + w) == a * c
    ensures a * (t * t) - 2.0 * b * t + c == a * ((t - l) * (t - u))
  {
    assert a * (l * u) == c by {
      assert a * (a * (l * u)) == (a * l) * (a * u);
      Cancel(a, a * (l * u), c);
    }
    assert a * (l + u) == 2.0 * b by { assert a * (l + u) == a * l + a * u; }
    assert (t - l) * (t - u) == t * t - (l + u) * t + l * u;
    assert a * (t * t - (l + u) * t + l * u) == a * (t * t) - (a * (l + u)) * t + a * (l * u);
  }

  lemma ProductOfEnds(k: int, n: int, z: real, s: real)
    requires Root(k, n, z, s)
    ensures (B(k, z) - W(n, z, s)) * (B(k, z) + W(n, z, s)) == A(n, z) * (k as real * Proportion(k, n))
  {
    DivideBack(k as real, n as real);
    SquareOfW(k, n, z, s);
    hide W, Variance;
    ProductAlgebra(n as real, k as real, z * z, W(n, z, s), Proportion(k, n));
  }

  lemma ProductAlgebra(n: real, k: real, z2: real, w: real, p: real)
    requires n > 0.0 && n * p == k && n * (w * w) == z2 * (k * (n - k) + n * z2 / 4.0)
    ensures (k + z2 / 2.0 - w) * (k + z2 / 2.0 + w) == (n + z2) * (k * p)
  {
    var b, a := k + z2 / 2.0, n + z2;
    BottomGap(n, k, z2);
    assert (b - w) * (b + w) == b * b - w * w;
    Distribute(n, b * b, w * w);
    assert n * (a * (k * p)) == a * (k * (n * p));
    assert a * (k * k) == k * k * a;
    Cancel(n, b * b - w * w, a * (k * p));
  }

  /** Both ends satisfy the score equation. */
  lemma EndsAreRoots(k: int, n: int, z: real, s: real)
    requires Root(k, n, z, s)
    ensures OnScoreCurve(k, n, z, Lower(k, n, z, s)) && OnScoreCurve(k, n, z, Upper(k, n, z, s))
  {
    hide Lower, Upper, A, Variance, Proportion;
    GapFactors(k, n, z, s, Lower(k, n, z, s));
    GapFactors(k, n, z, s, Upper(k, n, z, s));
  }

  lemma ProductSign(x: real, y: real)
    ensures x > 0.0 && y > 0.0 ==> x * y > 0.0
    ensures x < 0.0 && y < 0.0 ==> x * y > 0.0
    ensures x >= 0.0 && y <= 0.0 ==> x * y <= 0.0
  {
    if x < 0.0 && y < 0.0 { Positive(-x, -y); }
    if x >= 0.0 && y <= 0.0 { NonnegativeProduct(1.0, x, -y); }
  }

  lemma SignOfProduct(a: real, l: real, u: real, t: real)
    requires a > 0.0 && l <= u
    ensures a * ((t - l) * (t - u)) <= 0.0 <==> l <= t <= u
    ensures a * ((t - l) * (t - u)) < 0.0 ==> l < t < u
  {
    var x, y := t - l, t - u;
    ProductSign(x, y);
    Sign(a, x * y);
  }

  /** ... and the interval is exactly where the score test accepts. */
  lemma InsideExactlyWhenAccepted(k: int, n: int, z: real, s: real, t: real)
    requires Root(k, n, z, s)
    ensures Gap(k, n, z, t) <= 0.0 <==> Lower(k, n, z, s) <= t <= Upper(k, n, z, s)
  {
    hide Lower, Upper, Gap, A, Variance, Proportion;
    ScaledEnds(k, n, z, s);
    Encloses(k, n, z, s);
    GapFactors(k, n, z, s, t);
    SignOfProduct(A(n, z), Lower(k, n, z, s), Upper(k, n, z, s), t);
  }

  lemma ProportionIncreases(k: int, k': int, n: int)
    requires n > 0 && k < k'
    ensures Proportion(k, n) < Proportion(k', n)
  {
    var N, p, q := n as real, Proportion(k, n), Proportion(k', n);
    assert N * p == k as real && N * q == k' as real;
    hide Proportion;
    Cancel(N, p, q);
  }

  /** At the upper end for fewer successes, the gap for more successes is negative. */
  lemma GapBelow(n: real, p: real, q: real, u: real, y: real)
    requires n > 0.0 && p < q <= u && n * ((p - u) * (p - u)) == y
    ensures n * ((q - u) * (q - u)) - y < 0.0
  {
    Positive(q - p, 2.0 * u - q - p);
    assert (p - u) * (p - u) - (q - u) * (q - u) == (q - p) * (2.0 * u - q - p);
    Positive(n, (p - u) * (p - u) - (q - u) * (q - u));
    Distribute(n, (p - u) * (p - u), (q - u) * (q - u));
  }

  lemma UpperIncreases(k: int, k': int, n: int, z: real, s: real, s': real)
    requires Root(k, n, z, s) && Root(k', n, z, s') && k < k'
    ensures Upper(k, n, z, s) < Upper(k', n, z, s')
  {
    hide Lower, Upper, A, Variance, Proportion, Gap, OnScoreCurve, WilsonScore;
    var u := Upper(k, n, z, s);
    ProportionIncreases(k, k', n);
    Encloses(k, n, z, s);
    Encloses(k', n, z, s');
    if u >= Proportion(k', n) {
      GapNegative(k, k', n, z, s);
      GapFactors(k', n, z, s', u);
      ScaledEnds(k', n, z, s');
      SignOfProduct(A(n, z), Lower(k', n, z, s'), Upper(k', n, z, s'), u);
    }
  }

  lemma GapNegative(k: int, k': int, n: int, z: real, s: real)
    requires Root(k, n, z, s) && Proportion(k, n) < Proportion(k', n) <= Upper(k, n, z, s)
    ensures Gap(k', n, z, Upper(k, n, z, s)) < 0.0
  {
    hide Lower, Upper, Variance, Proportion;
    EndsAreRoots(k, n, z, s);
    var u := Upper(k, n, z, s);
    GapBelow(n as real, Proportion(k, n), Proportion(k', n), u, z * z * (u * (1.0 - u)));
  }

  /** More successes move both ends strictly up. */
  lemma EndsIncrease(k: int, k': int, n: int, z: real, s: real, s': real)
    requires Root(k, n, z, s) && Root(k', n, z, s') && k < k'
    ensures Lower(k, n, z, s) < Lower(k', n, z, s') && Upper(k, n, z, s) < Upper(k', n, z, s')
  {
    hide Lower, Upper, Variance;
    Symmetry(k, n, z, s);
    Symmetry(k', n, z, s');
    UpperIncreases(k, k', n, z, s, s');
    UpperIncreases(n - k', n - k, n, z, s', s);
  }
}
