// The test harness's trial tally and its Wilson score interval, over the reals.
module Wilson {
  import opened Wrappers

  // ---------- The interval ----------

  // The value under the square root in the margin.
  function Radicand(v: int, n: int, z: real): real
    requires n > 0
  {
    var N, p := n as real, v as real / n as real;
    p * (1.0 - p) / N + z * z / (4.0 * N * N)
  }

  function Center(v: int, n: int, z: real): real
    requires n > 0
  {
    var N, p := n as real, v as real / n as real;
    (p + z * z / (2.0 * N)) / (1.0 + z * z / N)
  }

  function Margin(n: int, z: real, root: real): real
    requires n > 0
  {
    z * root / (1.0 + z * z / n as real)
  }

  function Min(a: real, b: real): real { if a <= b then a else b }

  function Max(a: real, b: real): real { if a >= b then a else b }

  // `root` is the square root of the radicand.
  function WilsonCi(v: int, n: int, z: real, root: real): (real, real) {
    if n <= 0 then (0.0, 0.0)
    else (Max(0.0, Center(v, n, z) - Margin(n, z, root)), Min(1.0, Center(v, n, z) + Margin(n, z, root)))
  }

  lemma {:induction false} Positive(x: real, y: real)
    ensures x > 0.0 && y > 0.0 ==> x * y > 0.0
    ensures x >= 0.0 && y >= 0.0 ==> x * y >= 0.0
  {
  }

  lemma {:induction false} SquareOrder(a: real, b: real)
    requires a * a <= b * b && b >= 0.0
    ensures a <= b
  {
    var x, y := a - b, a + b;
    assert x * y == a * a - b * b;
    Positive(x, y);
  }

  lemma {:induction false} ScaleOrder(a: real, b: real, d: real)
    requires d > 0.0 && a * d <= b * d
    ensures a <= b
  {
    var x := a - b;
    assert x * d == a * d - b * d;
    Positive(x, d);
  }

  lemma {:induction false} SameScaled(a: real, b: real, d: real)
    requires d > 0.0 && a * d == b * d
    ensures a == b
  {
    ScaleOrder(a, b, d);
    ScaleOrder(b, a, d);
  }

  // In terms of p = v/n, w = z*z/n and s = z*root: s*s == w*p*(1-p) + w*w/4.
  lemma {:induction false} UpperMargin(p: real, w: real, s: real)
    requires 0.0 <= p <= 1.0 && w >= 0.0 && s >= 0.0 && s * s == w * (p * (1.0 - p)) + w * w / 4.0
    ensures s <= p + w / 2.0
  {
    var b := p + w / 2.0;
    assert b * b - s * s == (p * p) * (1.0 + w);
    Positive(p, p);
    Positive(p * p, 1.0 + w);
    SquareOrder(s, b);
  }

  lemma {:induction false} SkewWithinMargin(p: real, w: real, s: real)
    requires 0.0 <= p <= 1.0 && w >= 0.0 && s >= 0.0 && s * s == w * (p * (1.0 - p)) + w * w / 4.0
    ensures w * (0.5 - p) <= s
  {
    var d := w * (0.5 - p);
    var k := w * (1.0 + w);
    assert d * d == (w * w) * ((0.5 - p) * (0.5 - p));
    assert (0.5 - p) * (0.5 - p) == 0.25 - p * (1.0 - p);
    assert s * s - d * d == k * (p * (1.0 - p));
    Positive(w, 1.0 + w);
    Positive(p, 1.0 - p);
    Positive(k, p * (1.0 - p));
    SquareOrder(d, s);
  }

  lemma {:induction false} MirrorCenter(p: real, w: real)
    requires w >= 0.0
    ensures ((1.0 - p) + w / 2.0) / (1.0 + w) == 1.0 - (p + w / 2.0) / (1.0 + w)
  {
    var a, b := ((1.0 - p) + w / 2.0) / (1.0 + w), (p + w / 2.0) / (1.0 + w);
    assert a * (1.0 + w) == (1.0 - p) + w / 2.0 && b * (1.0 + w) == p + w / 2.0;
    assert (1.0 - b) * (1.0 + w) == (1.0 + w) - b * (1.0 + w);
    SameScaled(a, 1.0 - b, 1.0 + w);
  }

  lemma {:induction false} LowerEnd(p: real, w: real, s: real)
    requires 0.0 <= p <= 1.0 && w >= 0.0 && s >= 0.0 && s * s == w * (p * (1.0 - p)) + w * w / 4.0
    ensures 0.0 <= (p + w / 2.0) / (1.0 + w) - s / (1.0 + w) <= p
  {
    var d := 1.0 + w;
    var c, m := (p + w / 2.0) / d, s / d;
    UpperMargin(p, w, s);
    SkewWithinMargin(p, w, s);
    var low := c - m;
    assert c * d == p + w / 2.0 && m * d == s;
    assert low * d == c * d - m * d;
    assert p * d == p + w * p && w * (0.5 - p) == w / 2.0 - w * p;
    ScaleOrder(0.0, low, d);
    ScaleOrder(low, p, d);
  }

  lemma {:induction false} ScaledInterval(p: real, w: real, s: real)
    requires 0.0 <= p <= 1.0 && w >= 0.0 && s >= 0.0 && s * s == w * (p * (1.0 - p)) + w * w / 4.0
    ensures 0.0 <= (p + w / 2.0) / (1.0 + w) - s / (1.0 + w) <= p
    ensures p <= (p + w / 2.0) / (1.0 + w) + s / (1.0 + w) <= 1.0
  {
    LowerEnd(p, w, s);
    assert (1.0 - p) * (1.0 - (1.0 - p)) == p * (1.0 - p);
    LowerEnd(1.0 - p, w, s);
    MirrorCenter(p, w);
  }

  lemma {:induction false} Undivide(a: real, d: real)
    requires d > 0.0
    ensures (a / d) * d == a
  {
  }

  lemma {:induction false} RateInRange(v: int, n: int)
    requires 0 <= v <= n && n > 0
    ensures 0.0 <= v as real / n as real <= 1.0
    ensures (n - v) as real / n as real == 1.0 - v as real / n as real
  {
    var N, V := n as real, v as real;
    var p, q := V / N, (n - v) as real / N;
    Undivide(V, N);
    Undivide((n - v) as real, N);
    assert q * N == N - V;
    ScaleOrder(0.0, p, N);
    ScaleOrder(p, 1.0, N);
    assert (1.0 - p) * N == N - p * N;
    SameScaled(q, 1.0 - p, N);
  }

  lemma {:induction false} ScaledMargin(v: int, n: int, z: real, root: real)
    requires 0 <= v <= n && n > 0 && root * root == Radicand(v, n, z)
    ensures var p, w, s := v as real / n as real, z * z / n as real, z * root;
      s * s == w * (p * (1.0 - p)) + w * w / 4.0 && z * z / (2.0 * n as real) == w / 2.0
  {
    var N, p := n as real, v as real / n as real;
    var w, a := z * z / N, p * (1.0 - p);
    var t, u := a / N, z * z / (4.0 * N * N);
    assert w * N == z * z && t * N == a;
    assert u * (4.0 * N * N) == z * z;
    assert (4.0 * (u * N)) * N == u * (4.0 * N * N);
    SameScaled(4.0 * (u * N), w, N);
    assert root * root == t + u;
    assert (z * root) * (z * root) == (z * z) * (root * root);
    assert (w * N) * (t + u) == w * (t * N) + w * (u * N);
    var h := z * z / (2.0 * N);
    assert h * (2.0 * N) == z * z;
    assert (2.0 * h) * N == h * (2.0 * N);
    SameScaled(2.0 * h, w, N);
  }

  lemma {:induction false} Interval(v: int, n: int, z: real, root: real)
    requires 0 <= v <= n && n > 0 && z >= 0.0 && root >= 0.0 && root * root == Radicand(v, n, z)
    ensures 0.0 <= Center(v, n, z) - Margin(n, z, root) <= v as real / n as real <= Center(v, n, z) + Margin(n, z, root) <= 1.0
  {
    RateInRange(v, n);
    ScaledMargin(v, n, z, root);
    Positive(z, root);
    Positive(z, z);
    var w := z * z / n as real;
    assert w * n as real == z * z;
    ScaleOrder(0.0, w, n as real);
    ScaledInterval(v as real / n as real, w, z * root);
  }

  lemma {:induction false} MirrorRadicand(v: int, n: int, z: real)
    requires 0 <= v <= n && n > 0
    ensures Radicand(n - v, n, z) == Radicand(v, n, z)
  {
    RateInRange(v, n);
    var N := n as real;
    var p, q := v as real / N, (n - v) as real / N;
    var a, b := p * (1.0 - p), q * (1.0 - q);
    assert a == b;
    var u := z * z / (4.0 * N * N);
    assert Radicand(v, n, z) == a / N + u;
    assert Radicand(n - v, n, z) == b / N + u;
  }

  // The interval lies in [0, 1] and contains the observed rate, neither clamp changes a value, and
  // exchanging violations with non-violations mirrors it about one half.
  lemma {:induction false} WilsonBounds(v: int, n: int, z: real, root: real)
    requires 0 <= v <= n && n > 0 && z >= 0.0 && root >= 0.0 && root * root == Radicand(v, n, z)
    ensures var ci := WilsonCi(v, n, z, root);
      && 0.0 <= ci.0 <= v as real / n as real <= ci.1 <= 1.0
      && ci == (Center(v, n, z) - Margin(n, z, root), Center(v, n, z) + Margin(n, z, root))
      && root * root == Radicand(n - v, n, z)
      && WilsonCi(n - v, n, z, root) == (1.0 - ci.1, 1.0 - ci.0)
  {
    Interval(v, n, z, root);
    RateInRange(v, n);
    var p, w := v as real / n as real, z * z / n as real;
    MirrorRadicand(v, n, z);
    Interval(n - v, n, z, root);
    ScaledMargin(v, n, z, root);
    Positive(z, z);
    assert w * n as real == z * z;
    ScaleOrder(0.0, w, n as real);
    MirrorCenter(p, w);
  }

  // ---------- The tally ----------

  const HARNESS_ERROR := "harness_error"

  // A trial with no outcome counts as a harness error.
  function OutcomeKey(outcome: Option<string>): string {
    if outcome.None? || outcome.value == "" then HARNESS_ERROR else outcome.value
  }

  function Occurrences(trials: seq<Option<string>>, key: string): nat {
    if trials == [] then 0
    else Occurrences(trials[..|trials| - 1], key) + if OutcomeKey(trials[|trials| - 1]) == key then 1 else 0
  }

  function TallyOf(tally: map<string, nat>, key: string): nat {
    if key in tally then tally[key] else 0
  }

  lemma {:induction false} OutcomesDisjoint(trials: seq<Option<string>>)
    ensures Occurrences(trials, HARNESS_ERROR) + Occurrences(trials, "new_finding") + Occurrences(trials, "regression") <= |trials|
  {
    if trials != [] {
      OutcomesDisjoint(trials[..|trials| - 1]);
      assert HARNESS_ERROR[0] == 'h' && "new_finding"[0] == 'n' && "regression"[0] == 'r';
    }
  }

  // Violations never exceed the trials that ran, so the interval is always asked for with v <= n.
  method TallyTrials(trials: seq<Option<string>>) returns (violations: nat, countable: nat)
    ensures violations == Occurrences(trials, "new_finding") + Occurrences(trials, "regression")
    ensures countable == |trials| - Occurrences(trials, HARNESS_ERROR)
    ensures violations <= countable
  {
    var tally: map<string, nat> := map[];
    for i := 0 to |trials|
      invariant forall key :: TallyOf(tally, key) == Occurrences(trials[..i], key)
    {
      var key := OutcomeKey(trials[i]);
      tally := tally[key := TallyOf(tally, key) + 1];
      assert trials[..i + 1][..i] == trials[..i];
    }
    assert trials[..|trials|] == trials;
    OutcomesDisjoint(trials);
    var harnessErrors := TallyOf(tally, HARNESS_ERROR);
    countable := |trials| - harnessErrors;
    violations := TallyOf(tally, "new_finding") + TallyOf(tally, "regression");
  }
}
