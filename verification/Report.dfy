/** The rates of an evaluation report: each is rounded to four places, and F1 is computed from
    rounded precision and recall. */
module Report {
  import opened Wrappers
  import opened Reals
  import Statistics
  import Wilson

  const SCALE := 10000

  function Round4(x: real): real { Statistics.Round(x, SCALE) }

  /** `fp` and `tn` are absent when there was no benign run. */
  datatype Counts = Counts(tp: nat, fn: nat, fp: Option<nat>, tn: Option<nat>)

  datatype Report = Report(tpr: Option<real>, interval: Option<Wilson.Interval>, fpr: Option<real>,
    precision: Option<real>, f1: Option<real>, fpPerHour: Option<real>)

  function Rate(part: nat, whole: nat): Option<real> {
    if whole > 0 then Some(Round4(part as real / whole as real)) else None
  }

  /** 2pr / (p + r) */
  function Harmonic(p: real, r: real): real requires p + r > 0.0 { 2.0 * p * r / (p + r) }

  function F1(precision: Option<real>, recall: Option<real>): Option<real> {
    if precision.Some? && recall.Some? && precision.value + recall.value > 0.0 then
      Some(Round4(Harmonic(precision.value, recall.value)))
    else None
  }

  function Precision(c: Counts): Option<real> {
    if c.fp.Some? then Rate(c.tp, c.tp + c.fp.value) else None
  }

  function RoundInterval(outcome: Wilson.Outcome): Option<Wilson.Interval> {
    if outcome.Score? then
      Some(Wilson.Interval(Round4(outcome.interval.lower), Round4(outcome.interval.upper)))
    else None
  }

  /** `_build_report`; `z` and `s` are the normal quantile and the square root of the Wilson score. */
  function BuildReport(c: Counts, benignSeconds: real, z: real, s: real): Report {
    var tpr := Rate(c.tp, c.tp + c.fn);
    var precision := Precision(c);
    Report(
      tpr,
      if c.tp + c.fn > 0 then RoundInterval(Wilson.WilsonScore(c.tp, c.tp + c.fn, z, s)) else None,
      if c.fp.Some? && c.tn.Some? then Rate(c.fp.value, c.fp.value + c.tn.value) else None,
      precision,
      F1(precision, tpr),
      if c.fp.Some? && benignSeconds > 0.0 then Some(Round4(c.fp.value as real / (benignSeconds / 3600.0))) else None)
  }

  // ---------- Rates ----------

  lemma RoundError(x: real)
    ensures -0.00005 <= Round4(x) - x <= 0.00005
  {
    hide Statistics.Round;
    Statistics.RoundNear(x, SCALE);
  }

  lemma RoundEnds()
    ensures Round4(0.0) == 0.0 && Round4(1.0) == 1.0
  {}

  lemma Share(part: nat, whole: nat)
    requires 0 < whole && part <= whole
    ensures 0.0 <= part as real / whole as real <= 1.0
    ensures (part as real / whole as real) * whole as real == part as real
  {
    DivideBack(part as real, whole as real);
    Cancel(whole as real, 0.0, part as real / whole as real);
    Cancel(whole as real, part as real / whole as real, 1.0);
  }

  lemma RateBounds(part: nat, whole: nat)
    requires 0 < whole && part <= whole
    ensures 0.0 <= Rate(part, whole).value <= 1.0
    ensures -0.00005 <= Rate(part, whole).value - part as real / whole as real <= 0.00005
  {
    hide Round4;
    Share(part, whole);
    RoundEnds();
    var x := part as real / whole as real;
    RoundError(x);
    RoundInOrder(0.0, x);
    RoundInOrder(x, 1.0);
  }

  lemma RoundInOrder(x: real, y: real)
    requires x <= y
    ensures Round4(x) <= Round4(y)
  {
    Statistics.RoundMonotone(x, y, SCALE);
  }

  /** The reported detection rate lies within its reported interval, and that within [0, 1]. */
  lemma RateWithinInterval(c: Counts, benignSeconds: real, z: real, s: real)
    requires c.tp + c.fn > 0 && Wilson.Root(c.tp, c.tp + c.fn, z, s)
    ensures
      var report := BuildReport(c, benignSeconds, z, s);
      && report.tpr.Some? && report.interval.Some?
      && 0.0 <= report.interval.value.lower <= report.tpr.value <= report.interval.value.upper <= 1.0
  {
    hide Round4, Wilson.Lower, Wilson.Upper, Wilson.WilsonScore, Wilson.Root;
    var n := c.tp + c.fn;
    Wilson.Encloses(c.tp, n, z, s);
    var lower, p, upper := Wilson.Lower(c.tp, n, z, s), c.tp as real / n as real, Wilson.Upper(c.tp, n, z, s);
    RoundEnds();
    RoundInOrder(0.0, lower);
    RoundInOrder(lower, p);
    RoundInOrder(p, upper);
    RoundInOrder(upper, 1.0);
  }

  // ---------- F1 ----------

  function Times(a: real, b: real): real { a * b }

  lemma CrossTerms(p: real, r: real, p': real, r': real)
    requires p >= 0.0 && r >= 0.0 && p' >= 0.0 && r' >= 0.0
    ensures Times(p, p') >= 0.0 && Times(r, r') >= 0.0 && Times(p, p') + Times(r, r') <= Times(p + r, p' + r')
  {
    assert p * r' >= 0.0 && r * p' >= 0.0;
  }

  lemma Within(a: real, x: real, e: real)
    requires a >= 0.0 && -e <= x <= e
    ensures -Times(e, a) <= Times(a, x) <= Times(e, a)
  {
    Monotone(a, x, e);
    Monotone(a, -e, x);
  }

  lemma SumOfParts(e: real, u: real, v: real, m: real)
    requires e >= 0.0 && u + v <= m
    ensures Times(e, u) + Times(e, v) <= Times(e, m)
  {
    Distribute(e, u, v);
    Monotone(e, u + v, m);
  }

  lemma WeightedError(u: real, v: real, m: real, x: real, y: real, e: real)
    requires u >= 0.0 && v >= 0.0 && u + v <= m && -e <= x <= e && -e <= y <= e
    ensures -Times(e, m) <= Times(u, x) + Times(v, y) <= Times(e, m)
  {
    hide Times;
    Within(u, x, e);
    Within(v, y, e);
    SumOfParts(e, u, v, m);
  }

  lemma ScaleBack(m: real, d: real, e: real, g: real)
    requires m > 0.0 && Times(m, d) == 2.0 * g && -Times(e, m) <= g <= Times(e, m)
    ensures -2.0 * e <= d <= 2.0 * e
  {
    Cancel(m, d, 2.0 * e);
    Cancel(m, -2.0 * e, d);
  }

  lemma CrossMultiply(a: real, b: real, h: real, h': real, y: real, y': real)
    requires Times(h, a) == y && Times(h', b) == y'
    ensures Times(Times(a, b), h' - h) == Times(y', a) - Times(y, b)
  {
    assert (h' * b) * a == y' * a && (h * a) * b == y * b;
  }

  lemma Expand(p: real, r: real, p': real, r': real)
    ensures Times(2.0 * Times(p', r'), p + r) - Times(2.0 * Times(p, r), p' + r')
      == 2.0 * (Times(Times(p, p'), r' - r) + Times(Times(r, r'), p' - p))
  {}

  /** How far the harmonic mean moves when both arguments move by at most e. */
  lemma HarmonicError(p: real, r: real, p': real, r': real, e: real)
    requires p >= 0.0 && r >= 0.0 && p' >= 0.0 && r' >= 0.0 && p + r > 0.0 && p' + r' > 0.0
    requires -e <= p' - p <= e && -e <= r' - r <= e
    ensures -2.0 * e <= Harmonic(p', r') - Harmonic(p, r) <= 2.0 * e
  {
    hide Times;
    var h, h' := Harmonic(p, r), Harmonic(p', r');
    HarmonicBack(p, r);
    HarmonicBack(p', r');
    hide Harmonic;
    var m := Times(p + r, p' + r');
    Product(p + r, p' + r');
    CrossMultiply(p + r, p' + r', h, h', 2.0 * Times(p, r), 2.0 * Times(p', r'));
    Expand(p, r, p', r');
    CrossTerms(p, r, p', r');
    var u, v := Times(p, p'), Times(r, r');
    WeightedError(u, v, m, r' - r, p' - p, e);
    ScaleBack(m, h' - h, e, Times(u, r' - r) + Times(v, p' - p));
  }

  lemma HarmonicBack(p: real, r: real)
    requires p + r > 0.0
    ensures Times(Harmonic(p, r), p + r) == 2.0 * Times(p, r)
  {
    DivideBack(2.0 * p * r, p + r);
  }

  lemma Product(a: real, b: real)
    requires a > 0.0 && b > 0.0
    ensures Times(a, b) > 0.0
  {
    Positive(a, b);
  }

  /** The exact F1 in terms of the counts. */
  function ExactF1(tp: nat, fp: nat, fn: nat): real requires tp > 0 {
    2.0 * tp as real / (2 * tp + fp + fn) as real
  }

  lemma HarmonicOfCounts(tp: nat, fp: nat, fn: nat)
    requires tp > 0
    ensures
      var p, r := tp as real / (tp + fp) as real, tp as real / (tp + fn) as real;
      p > 0.0 && r > 0.0 && Harmonic(p, r) == ExactF1(tp, fp, fn)
  {
  }

  /** Whenever F1 is reported, it is within 1.5e-4 of 2 TP / (2 TP + FP + FN). */
  lemma F1Error(c: Counts, benignSeconds: real, z: real, s: real)
    requires BuildReport(c, benignSeconds, z, s).f1.Some?
    ensures c.tp > 0 && c.fp.Some?
    ensures -0.00015 <= BuildReport(c, benignSeconds, z, s).f1.value - ExactF1(c.tp, c.fp.value, c.fn) <= 0.00015
  {
    hide Harmonic, Round4, ExactF1;
    var fp := c.fp.value;
    if c.tp == 0 {
      NothingFound(fp);
      NothingFound(c.fn);
    }
    var p, r := Rate(c.tp, c.tp + fp).value, Rate(c.tp, c.tp + c.fn).value;
    RateBounds(c.tp, c.tp + fp);
    RateBounds(c.tp, c.tp + c.fn);
    HarmonicOfCounts(c.tp, fp, c.fn);
    HarmonicError(c.tp as real / (c.tp + fp) as real, c.tp as real / (c.tp + c.fn) as real, p, r, 0.00005);
    RoundError(Harmonic(p, r));
  }

  lemma NothingFound(others: nat)
    ensures others > 0 ==> Rate(0, others) == Some(0.0)
  {
    if others > 0 { assert 0 as real / others as real == 0.0; }
  }

  lemma RoundsUp(x: real)
    requires x >= 0.0
    ensures Round4(x) >= 0.0
    ensures Round4(x) > 0.0 <==> x * 10000.0 > 0.5
  {
    var n := Statistics.Nearest(x * 10000.0);
    assert n >= 0 && (n > 0 <==> x * 10000.0 > 0.5);
  }

  /** A share `x` of `m`, which is `p`, and when it is above half a unit of the fourth place. */
  lemma Visible(x: real, m: real, p: real)
    requires m > 0.0 && x * m == p
    ensures x * 10000.0 > 0.5 <==> 20000.0 * p > m
  {
    Assoc(m, x, 10000.0);
    Cancel(m, 0.5, x * 10000.0);
  }

  lemma RateVisible(part: nat, whole: nat)
    requires whole > 0 && part <= whole
    ensures Rate(part, whole).value >= 0.0
    ensures Rate(part, whole).value > 0.0 <==> 20000 * part > whole
  {
    hide Round4;
    Share(part, whole);
    var x := part as real / whole as real;
    RoundsUp(x);
    Visible(x, whole as real, part as real);
  }

  /** F1 is reported exactly when a true positive exists and precision or recall does not round to zero. */
  lemma F1ReportedExactlyWhen(c: Counts, benignSeconds: real, z: real, s: real)
    ensures BuildReport(c, benignSeconds, z, s).f1.Some? <==>
      c.fp.Some? && c.tp > 0 && (20000 * c.tp > c.tp + c.fp.value || 20000 * c.tp > c.tp + c.fn)
  {
    hide Round4, Harmonic;
    if c.fp.Some? && c.tp + c.fp.value > 0 { RateVisible(c.tp, c.tp + c.fp.value); }
    if c.tp + c.fn > 0 { RateVisible(c.tp, c.tp + c.fn); }
  }
}
