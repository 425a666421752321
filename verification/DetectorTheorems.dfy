/** What the detectors can and cannot report, over every stream. */
module DetectorTheorems {
  import opened Baseline
  import opened Detectors

  // ---- z-score ---------------------------------------------------------------------------

  lemma NewestShare(n: real, m: real, m1: real, v: real, before: real)
    requires n > 0.0 && m1 == m + (v - m) / (n + 1.0) && before >= 0.0
    ensures (v - m1) * (v - m1) <= n * ((before + (v - m) * (v - m1)) / (n + 1.0))
    ensures before == 0.0 ==> (v - m1) * (v - m1) == n * ((before + (v - m) * (v - m1)) / (n + 1.0))
  {
    var e := m1 - m;
    assert v - m == (n + 1.0) * e && v - m1 == n * e;
    assert (v - m) * (v - m1) == (n + 1.0) * (n * (e * e));
    assert (before + (n + 1.0) * (n * (e * e))) / (n + 1.0) == before / (n + 1.0) + n * (e * e);
    assert n * (before / (n + 1.0)) >= 0.0;
  }

  /** The newest point is part of its own baseline, so its squared score is at most n - 1; and
      exactly that when all the others agree. */
  lemma ScoreBound(xs: seq<real>, v: real)
    requires xs != []
    ensures var d := v - Mean(xs + [v]);
            && d * d <= |xs| as real * Variance(xs + [v])
            && (Dispersion(xs) == 0.0 ==> d * d == |xs| as real * Variance(xs + [v]))
  {
    WelfordStep(xs, v);
    TwoPass(xs + [v]);
    DispersionNonNegative(xs);
    NewestShare(|xs| as real, Mean(xs), Mean(xs + [v]), v, Dispersion(xs));
  }

  function Zeros(n: nat): seq<real> { seq(n, _ => 0.0) }

  lemma {:induction false} ZerosSum(n: nat)
    ensures Sum(Zeros(n)) == 0.0 && SumSq(Zeros(n)) == 0.0
  {
    if n > 0 {
      assert Zeros(n)[..n - 1] == Zeros(n - 1);
      ZerosSum(n - 1);
    }
  }

  /** After n - 1 zeros, the value n has variance n - 1. */
  lemma SpikeBaseline(n: nat)
    requires n >= 2
    ensures var xs := Zeros(n - 1) + [n as real];
            Mean(xs) == 1.0 && Variance(xs) == n as real - 1.0
  {
    var zs, v := Zeros(n - 1), n as real;
    ZerosSum(n - 1);
    SumAppend(zs, v);
    TwoPass(zs + [v]);
    DivideOut(Sum(zs + [v]), v, 1.0);
    assert |zs + [v]| as real == v;
    assert Variance(zs + [v]) == Dispersion(zs + [v]) / v;
    assert Dispersion(zs + [v]) == v * v - 1.0 * v == v * (v - 1.0);
    DivideOut(Dispersion(zs + [v]), v, v - 1.0);
  }

  lemma DivideOut(product: real, a: real, b: real)
    requires a != 0.0 && product == a * b
    ensures product / a == b
  {}

  lemma EpsilonIsSmall()
    ensures 0.0 < EPSILON * EPSILON < 1.0
  {
    assert EPSILON * 4503599627370496.0 == 1.0;
    assert 0.0 < EPSILON < 1.0;
  }

  /** When a z-score can exceed the threshold at all: the n-th observation is then beyond the
      bound of ScoreBound. A negative threshold, which the registry admits, is always exceeded. */
  predicate CanExceed(sigma: real, n: nat) {
    n >= 2 && (sigma < 0.0 || n as real - 1.0 > sigma * sigma)
  }

  /** Some stream of `n` observations makes the detector report the last of them. */
  ghost predicate CanReport(kind: Kind, coolOff: int, n: nat)
    requires n > 0
  {
    exists obs: seq<Obs> :: |obs| == n && Fires(kind, coolOff, obs)
  }

  /** Whatever the cool-off, a z-score detector can report its n-th observation if and only if it
      is armed by then and n - 1 > sigma^2: with the usual three sigmas, not before the
      eleventh, whatever minCount says. */
  lemma ZScoreCanFireIff(sigma: real, minCount: nat, coolOff: int, n: nat)
    requires n > 0
    ensures CanReport(ZScore(sigma, minCount), coolOff, n) <==> n >= minCount && CanExceed(sigma, n)
    ensures sigma == 3.0 && n <= 10 ==> !CanReport(ZScore(sigma, minCount), coolOff, n)
  {
    if CanReport(ZScore(sigma, minCount), coolOff, n) {
      ZScoreFiresLate(sigma, minCount, coolOff, n);
    }
    if n >= minCount && CanExceed(sigma, n) {
      SpikeFires(sigma, minCount, coolOff, n);
    }
    hide CanReport;
  }

  lemma ZScoreFiresLate(sigma: real, minCount: nat, coolOff: int, n: nat)
    requires n > 0 && CanReport(ZScore(sigma, minCount), coolOff, n)
    ensures n >= minCount && CanExceed(sigma, n)
  {
    var obs :| |obs| == n && Fires(ZScore(sigma, minCount), coolOff, obs);
    ZScoreTooEarly(ZScore(sigma, minCount), Values(obs));
  }

  lemma SpikeFires(sigma: real, minCount: nat, coolOff: int, n: nat)
    requires n >= minCount && CanExceed(sigma, n)
    ensures CanReport(ZScore(sigma, minCount), coolOff, n)
  {
    var kind, xs := ZScore(sigma, minCount), Zeros(n - 1) + [n as real];
    SpikeCrosses(sigma, minCount, n);
    StreamValues(xs);
    assert Stream(xs)[..n - 1] == Stream(Zeros(n - 1));
    ZerosAreQuiet(kind, coolOff, n - 1);
    hide Crosses;
    assert Fires(kind, coolOff, Stream(xs));
  }

  /** Observations with the values `xs`, all at time 0. */
  function Stream(xs: seq<real>): seq<Obs> {
    seq(|xs|, i requires 0 <= i < |xs| => Obs(0, xs[i]))
  }

  lemma StreamValues(xs: seq<real>)
    ensures Values(Stream(xs)) == xs
  {}

  lemma ZerosDoNotCross(kind: Kind, n: nat)
    requires n > 0
    ensures !Crosses(kind, Zeros(n))
  {
    EpsilonIsSmall();
    assert Zeros(n)[..n - 1] == Zeros(n - 1);
    match kind
    case ZScore(_, _) =>
      ZerosSum(n);
      TwoPass(Zeros(n));
    case Ewma(alpha, _, _) => if n > 1 { EwmaZeros(alpha, n - 1); }
  }

  /** A stream of zeros is never reported. */
  lemma {:induction false} ZerosAreQuiet(kind: Kind, coolOff: int, n: nat)
    ensures Alerts(kind, coolOff, Stream(Zeros(n))) == []
  {
    if n > 0 {
      assert Stream(Zeros(n))[..n - 1] == Stream(Zeros(n - 1));
      StreamValues(Zeros(n));
      ZerosAreQuiet(kind, coolOff, n - 1);
      ZerosDoNotCross(kind, n);
    }
  }

  lemma ZScoreTooEarly(kind: Kind, xs: seq<real>)
    requires kind.ZScore? && xs != [] && Crosses(kind, xs)
    ensures |xs| >= kind.minCount && CanExceed(kind.sigma, |xs|)
  {
    EpsilonIsSmall();
    var n, v := |xs| - 1, xs[|xs| - 1];
    assert xs[..n] + [v] == xs;
    assert n > 0;
    if kind.sigma >= 0.0 {
      ScoreBound(xs[..n], v);
      BeyondButBounded(v - Mean(xs), Variance(xs), kind.sigma, n as real);
    }
  }

  lemma BeyondButBounded(d: real, variance: real, sigma: real, n: real)
    requires sigma >= 0.0 && variance > 0.0 && Beyond(d, variance, sigma) && d * d <= n * variance
    ensures n > sigma * sigma
  {
    Cancel(sigma * sigma, n, variance);
  }

  lemma Cancel(a: real, b: real, c: real)
    requires c > 0.0 && a * c < b * c
    ensures a < b
  {}

  lemma SpikeCrosses(sigma: real, minCount: nat, n: nat)
    requires n >= minCount && CanExceed(sigma, n)
    ensures |Zeros(n - 1) + [n as real]| == n && Crosses(ZScore(sigma, minCount), Zeros(n - 1) + [n as real])
  {
    SquareNonNegative(sigma);
    SpikeBaseline(n);
    EpsilonIsSmall();
    if sigma >= 0.0 { SpikeIsBeyond(n as real - 1.0, sigma); }
  }

  lemma SpikeIsBeyond(m: real, sigma: real)
    requires m > 0.0 && m > sigma * sigma
    ensures Beyond(m, m, sigma)
  {
    var rest := m - sigma * sigma;
    assert rest * m > 0.0;
    assert m * m == sigma * sigma * m + rest * m;
  }

  /** So a stream of at most sigma^2 + 1 observations is reported as clean, spike or not. */
  lemma {:induction false} ZScoreSilence(kind: Kind, coolOff: int, obs: seq<Obs>)
    requires kind.ZScore? && !CanExceed(kind.sigma, |obs|)
    ensures Alerts(kind, coolOff, obs) == []
  {
    if obs != [] {
      ZScoreSilence(kind, coolOff, obs[..|obs| - 1]);
      if Crosses(kind, Values(obs)) { ZScoreTooEarly(kind, Values(obs)); }
    }
  }

  // ---- cooldown --------------------------------------------------------------------------

  /** The j-th and the i-th alert are at least (j - i) cool-off periods apart, however the
      timestamps are ordered. */
  lemma {:induction false} AlertsAreSpaced(kind: Kind, coolOff: int, obs: seq<Obs>, i: nat, j: nat)
    requires i <= j < |Alerts(kind, coolOff, obs)|
    ensures Alerts(kind, coolOff, obs)[j].ts - Alerts(kind, coolOff, obs)[i].ts >= (j - i) * coolOff
    decreases |obs|
  {
    var before := Alerts(kind, coolOff, obs[..|obs| - 1]);
    if j < |before| {
      AlertsAreSpaced(kind, coolOff, obs[..|obs| - 1], i, j);
    } else if i < j {
      AlertsAreSpaced(kind, coolOff, obs[..|obs| - 1], i, j - 1);
      assert (j - i) * coolOff == (j - 1 - i) * coolOff + coolOff;
    }
  }

  // ---- exactly when an observation is reported -------------------------------------------

  function Abs(x: real): real { if x >= 0.0 then x else -x }

  /** What the newest observation is scored against: the stream with it for a z-score, the smoothed
      state before it for EWMA. */
  function ScoredAgainst(kind: Kind, obs: seq<Obs>): (real, real)
    requires obs != []
  {
    if kind.ZScore? then (Mean(Values(obs)), Variance(Values(obs)))
    else EwmaState(kind.alpha, Values(obs[..|obs| - 1]))
  }

  /** The newest observation is reported, with its time, its value and that baseline, if and only if
      the detector is armed, the deviation is not negligible, the score is beyond the threshold,
      and there was no report before or the latest is at least the cool-off ago. */
  lemma ReportedIff(kind: Kind, coolOff: int, obs: seq<Obs>, std: real)
    requires obs != [] && std >= 0.0 && std * std == ScoredAgainst(kind, obs).1
    ensures var newest, before := obs[|obs| - 1], Alerts(kind, coolOff, obs[..|obs| - 1]);
            var (mean, variance) := ScoredAgainst(kind, obs);
            var report := && |obs| >= kind.minCount && std >= EPSILON
                          && Abs((newest.value - mean) / std) > kind.sigma
                          && (before == [] || newest.ts - before[|before| - 1].ts >= coolOff);
            && Alerts(kind, coolOff, obs)
               == before + (if report then [Anomaly(newest.ts, newest.value, mean, variance)] else [])
            && (Reported(kind, coolOff, obs).Some? <==> report)
  {
    var n := |obs| - 1;
    var (mean, variance) := ScoredAgainst(kind, obs);
    assert Values(obs)[..n] == Values(obs[..n]) && Values(obs)[n] == obs[n].value;
    BeyondIsScore(obs[n].value - mean, variance, kind.sigma, std);
    AlertsStep(kind, coolOff, obs[..n], obs[n]);
    assert obs[..n] + [obs[n]] == obs;
  }

  /** So the cool-off is all that can silence a crossing: the latest report exists and is nearer. */
  lemma OnlyCoolOffSilences(kind: Kind, coolOff: int, obs: seq<Obs>)
    requires obs != [] && Crosses(kind, Values(obs)) && Reported(kind, coolOff, obs).None?
    ensures var before := Alerts(kind, coolOff, obs[..|obs| - 1]);
            before != [] && obs[|obs| - 1].ts - before[|before| - 1].ts < coolOff
  {}

  // ---- EWMA ------------------------------------------------------------------------------

  function Pow(b: real, n: nat): real { if n == 0 then 1.0 else b * Pow(b, n - 1) }

  /** The weight of observation `i` after `n` of them. */
  function Weight(alpha: real, i: nat, n: nat): real
    requires i < n
  {
    (if i == 0 then 1.0 else alpha) * Pow(1.0 - alpha, n - 1 - i)
  }

  function Weights(alpha: real, n: nat): seq<real> {
    seq(n, i requires 0 <= i < n => Weight(alpha, i, n))
  }

  function Dot(ws: seq<real>, ys: seq<real>): real
    requires |ws| == |ys|
  {
    if ws == [] then 0.0
    else Dot(ws[..|ws| - 1], ys[..|ys| - 1]) + Times(ws[|ws| - 1], ys[|ys| - 1])
  }

  /** The exponentially weighted sum. */
  function Weighted(alpha: real, ys: seq<real>): real { Dot(Weights(alpha, |ys|), ys) }

  function Times(a: real, b: real): real { a * b }

  function Square(x: real): real { x * x }

  function Squares(xs: seq<real>, c: real): seq<real> {
    seq(|xs|, i requires 0 <= i < |xs| => Square(xs[i] - c))
  }

  function Scaled(b: real, ws: seq<real>): seq<real> {
    seq(|ws|, i requires 0 <= i < |ws| => Times(b, ws[i]))
  }

  lemma DotAppend(ws: seq<real>, ys: seq<real>, w: real, y: real)
    requires |ws| == |ys|
    ensures Dot(ws + [w], ys + [y]) == Dot(ws, ys) + w * y
  {
    var n, ws1, ys1 := |ws|, ws + [w], ys + [y];
    assert ws1[..n] == ws && ys1[..n] == ys && ws1[n] == w && ys1[n] == y;
    assert Dot(ws1, ys1) == Dot(ws1[..n], ys1[..n]) + Times(ws1[n], ys1[n]);
  }

  lemma {:induction false} DotScaled(b: real, ws: seq<real>, ys: seq<real>)
    requires |ws| == |ys|
    ensures Dot(Scaled(b, ws), ys) == b * Dot(ws, ys)
  {
    if ws != [] {
      var n := |ws| - 1;
      DotScaled(b, ws[..n], ys[..n]);
      assert Scaled(b, ws)[..n] == Scaled(b, ws[..n]);
      Distribute(b, Dot(ws[..n], ys[..n]), ws[n], ys[n], b * ws[n]);
    }
  }

  lemma Distribute(b: real, sum: real, w: real, y: real, scaled: real)
    requires scaled == b * w
    ensures b * sum + scaled * y == b * (sum + w * y)
  {
    assert scaled * y == b * (w * y);
  }

  /** One more observation ages every weight by 1 - alpha. */
  lemma WeightsAge(alpha: real, n: nat)
    requires n > 0
    ensures Weights(alpha, n + 1) == Scaled(1.0 - alpha, Weights(alpha, n)) + [alpha]
  {
    forall i: nat | i < n ensures Weight(alpha, i, n + 1) == Times(1.0 - alpha, Weight(alpha, i, n)) {
      var first, p := if i == 0 then 1.0 else alpha, Pow(1.0 - alpha, n - 1 - i);
      Commute(first, 1.0 - alpha, p);
    }
    assert Weight(alpha, n, n + 1) == alpha * 1.0;
    var aged := Scaled(1.0 - alpha, Weights(alpha, n)) + [alpha];
    assert forall i: nat :: i < n ==> aged[i] == Times(1.0 - alpha, Weight(alpha, i, n));
  }

  lemma Commute(a: real, b: real, c: real)
    ensures a * (b * c) == b * (a * c)
  {}

  lemma DotAged(b: real, ws: seq<real>, ys: seq<real>, w: real, v: real)
    requires |ws| == |ys|
    ensures Dot(Scaled(b, ws) + [w], ys + [v]) == b * Dot(ws, ys) + w * v
  {
    DotAppend(Scaled(b, ws), ys, w, v);
    DotScaled(b, ws, ys);
  }

  lemma WeightedStep(alpha: real, ys: seq<real>, v: real)
    requires ys != []
    ensures Weighted(alpha, ys + [v]) == (1.0 - alpha) * Weighted(alpha, ys) + alpha * v
  {
    WeightsAge(alpha, |ys|);
    DotAged(1.0 - alpha, Weights(alpha, |ys|), ys, alpha, v);
    assert |ys + [v]| == |ys| + 1;
  }

  lemma WeightedOne(alpha: real, v: real)
    ensures Weighted(alpha, [v]) == v
  {
    assert Weight(alpha, 0, 1) == 1.0;
    DotAppend([], [], 1.0, v);
    assert Weights(alpha, 1) == [] + [1.0] && [v] == [] + [v];
  }

  /** The recurrence by which one more value is blended in. */
  function Blend(alpha: real, ys: seq<real>): real
    requires ys != []
  {
    if |ys| == 1 then ys[0]
    else (1.0 - alpha) * Blend(alpha, ys[..|ys| - 1]) + alpha * ys[|ys| - 1]
  }

  lemma BlendStep(alpha: real, ys: seq<real>, v: real)
    requires ys != []
    ensures Blend(alpha, ys + [v]) == (1.0 - alpha) * Blend(alpha, ys) + alpha * v
  {
    assert (ys + [v])[..|ys|] == ys;
  }

  lemma {:induction false} WeightedIsBlend(alpha: real, ys: seq<real>)
    requires ys != []
    ensures Weighted(alpha, ys) == Blend(alpha, ys)
  {
    var init, v := ys[..|ys| - 1], ys[|ys| - 1];
    assert ys == init + [v];
    if init == [] {
      WeightedOne(alpha, v);
    } else {
      WeightedIsBlend(alpha, init);
      WeightedStep(alpha, init, v);
      BlendStep(alpha, init, v);
    }
  }

  lemma {:induction false} EwmaMeanIs(alpha: real, xs: seq<real>)
    requires xs != []
    ensures EwmaState(alpha, xs).0 == Blend(alpha, xs)
  {
    if |xs| > 1 {
      var init := xs[..|xs| - 1];
      EwmaMeanIs(alpha, init);
      assert EwmaState(alpha, xs) == Smoothed(alpha, EwmaState(alpha, init), xs[|xs| - 1]);
    }
  }

  lemma SpreadIdentity(alpha: real, b: real, a: real, d: real, variance: real)
    requires b == 1.0 - alpha
    ensures b * (variance + a * a) + alpha * ((a + d) * (a + d))
            == b * (variance + alpha * (d * d)) + (a + alpha * d) * (a + alpha * d)
  {
    assert (a + d) * (a + d) == a * a + 2.0 * (a * d) + d * d;
    assert (a + alpha * d) * (a + alpha * d) == a * a + 2.0 * (alpha * (a * d)) + alpha * (alpha * (d * d));
    assert b * (variance + alpha * (d * d)) == b * variance + alpha * (d * d) - alpha * (alpha * (d * d));
    assert b * (variance + a * a) == b * variance + a * a - alpha * (a * a);
    assert alpha * (a * a + 2.0 * (a * d) + d * d) == alpha * (a * a) + 2.0 * (alpha * (a * d)) + alpha * (d * d);
  }

  function Fold<S>(start: real -> S, step: (S, real) -> S, xs: seq<real>): S
    requires xs != []
  {
    if |xs| == 1 then start(xs[0]) else step(Fold(start, step, xs[..|xs| - 1]), xs[|xs| - 1])
  }

  type State = (real, real)

  predicate FusesAtStart(start: real -> State, start1: real -> real, f: State -> real, x: real) {
    f(start(x)) == start1(x)
  }

  predicate Fuses(step: (State, real) -> State, step1: (real, real) -> real, f: State -> real, s: State, x: real) {
    f(step(s, x)) == step1(f(s), x)
  }

  lemma {:induction false} FoldFusion(start: real -> State, step: (State, real) -> State,
                                      start1: real -> real, step1: (real, real) -> real,
                                      f: State -> real, xs: seq<real>)
    requires xs != []
    requires forall x: real :: FusesAtStart(start, start1, f, x)
    requires forall s: State, x: real :: Fuses(step, step1, f, s, x)
    ensures f(Fold(start, step, xs)) == Fold(start1, step1, xs)
  {
    if |xs| == 1 {
      assert FusesAtStart(start, start1, f, xs[0]);
    } else {
      var init, v := xs[..|xs| - 1], xs[|xs| - 1];
      FoldFusion(start, step, start1, step1, f, init);
      assert Fuses(step, step1, f, Fold(start, step, init), v);
    }
  }

  function FirstState(): real -> (real, real) { x => (x, 0.0) }

  function NextState(alpha: real): ((real, real), real) -> (real, real) { (s, x) => Smoothed(alpha, s, x) }

  function FirstSquare(c: real): real -> real { x => Square(x - c) }

  function NextTotal(alpha: real, c: real): (real, real) -> real { (t, x) => Mixed(alpha, t, Square(x - c)) }

  function Mixed(alpha: real, total: real, y: real): real { (1.0 - alpha) * total + alpha * y }

  lemma {:induction false} StateIsFold(alpha: real, xs: seq<real>)
    requires xs != []
    ensures EwmaState(alpha, xs) == Fold(FirstState(), NextState(alpha), xs)
  {
    var init, v := xs[..|xs| - 1], xs[|xs| - 1];
    if init == [] {
      assert FirstState()(v) == (v, 0.0);
    } else {
      StateIsFold(alpha, init);
      assert EwmaState(alpha, xs) == Smoothed(alpha, EwmaState(alpha, init), v);
      assert NextState(alpha)(EwmaState(alpha, init), v) == Smoothed(alpha, EwmaState(alpha, init), v);
    }
  }

  lemma {:induction false} BlendIsFold(alpha: real, xs: seq<real>, c: real)
    requires xs != []
    ensures Blend(alpha, Squares(xs, c)) == Fold(FirstSquare(c), NextTotal(alpha, c), xs)
  {
    var ys, n := Squares(xs, c), |xs| - 1;
    if n > 0 {
      BlendIsFold(alpha, xs[..n], c);
      assert ys[..n] == Squares(xs[..n], c) && ys[n] == Square(xs[n] - c);
      assert Blend(alpha, ys) == Mixed(alpha, Blend(alpha, ys[..n]), ys[n]);
      assert NextTotal(alpha, c)(Blend(alpha, ys[..n]), xs[n])
             == Mixed(alpha, Blend(alpha, ys[..n]), Square(xs[n] - c));
    }
  }

  /** The spread of a state around `c`. */
  function Around(state: (real, real), c: real): real { state.1 + Square(state.0 - c) }

  lemma AroundStart(x: real, c: real)
    ensures Around((x, 0.0), c) == Square(x - c)
  {}

  lemma AroundStep(alpha: real, state: (real, real), v: real, c: real)
    ensures Around(Smoothed(alpha, state, v), c) == Mixed(alpha, Around(state, c), Square(v - c))
  {
    var (mean, variance) := state;
    var (mean1, variance1) := Smoothed(alpha, state, v);
    AroundScalars(alpha, 1.0 - alpha, mean, variance, v, c, mean1, variance1);
  }

  lemma MeanShift(alpha: real, b: real, mean: real, v: real, c: real, mean1: real)
    requires b == 1.0 - alpha && mean1 == alpha * v + b * mean
    ensures mean1 - c == (mean - c) + alpha * (v - mean)
  {}

  lemma EqualSquares(x: real, y: real)
    requires x == y
    ensures x * x == y * y
  {}

  lemma AroundScalars(alpha: real, b: real, mean: real, variance: real, v: real, c: real, mean1: real, variance1: real)
    requires b == 1.0 - alpha && mean1 == alpha * v + b * mean
    requires variance1 == b * (variance + alpha * ((v - mean) * (v - mean)))
    ensures variance1 + (mean1 - c) * (mean1 - c)
            == b * (variance + (mean - c) * (mean - c)) + alpha * ((v - c) * (v - c))
  {
    var a, d := mean - c, v - mean;
    SpreadIdentity(alpha, b, a, d, variance);
    MeanShift(alpha, b, mean, v, c, mean1);
    EqualSquares(mean1 - c, a + alpha * d);
    EqualSquares(v - c, a + d);
  }

  /** The weighted squared distances from any `c`. */
  lemma EwmaSpread(alpha: real, xs: seq<real>, c: real)
    requires xs != []
    ensures Blend(alpha, Squares(xs, c)) == Around(EwmaState(alpha, xs), c)
  {
    StateIsFold(alpha, xs);
    BlendIsFold(alpha, xs, c);
    var f := (s: (real, real)) => Around(s, c);
    forall x: real ensures FusesAtStart(FirstState(), FirstSquare(c), f, x) { AroundStart(x, c); }
    forall s: State, x: real ensures Fuses(NextState(alpha), NextTotal(alpha, c), f, s, x) {
      AroundStep(alpha, s, x, c);
    }
    FoldFusion(FirstState(), NextState(alpha), FirstSquare(c), NextTotal(alpha, c), f, xs);
  }

  lemma {:induction false} WeightsSumToOne(alpha: real, n: nat)
    requires n > 0
    ensures Weighted(alpha, seq(n, _ => 1.0)) == 1.0
  {
    if n == 1 {
      assert seq(1, _ => 1.0) == [1.0];
      WeightedOne(alpha, 1.0);
    } else {
      assert seq(n, _ => 1.0) == seq(n - 1, _ => 1.0) + [1.0];
      WeightsSumToOne(alpha, n - 1);
      WeightedStep(alpha, seq(n - 1, _ => 1.0), 1.0);
    }
  }

  lemma ProductNonNegative(a: real, b: real)
    requires a >= 0.0 && b >= 0.0
    ensures a * b >= 0.0
  {}

  lemma {:induction false} PowNonNegative(b: real, n: nat)
    requires b >= 0.0
    ensures Pow(b, n) >= 0.0
  {
    if n > 0 {
      PowNonNegative(b, n - 1);
      ProductNonNegative(b, Pow(b, n - 1));
    }
  }

  lemma WeightNonNegative(alpha: real, i: nat, n: nat)
    requires 0.0 <= alpha <= 1.0 && i < n
    ensures Weight(alpha, i, n) >= 0.0
  {
    PowNonNegative(1.0 - alpha, n - 1 - i);
    ProductNonNegative(if i == 0 then 1.0 else alpha, Pow(1.0 - alpha, n - 1 - i));
  }

  /** The online state is the exponentially weighted mean and variance of the whole stream: the
      weights are non-negative and sum to one, the newest counts alpha, the first (1-alpha)^(n-1). */
  lemma EwmaIsWeighted(alpha: real, xs: seq<real>)
    requires xs != []
    ensures var (mean, variance) := EwmaState(alpha, xs);
            && mean == Weighted(alpha, xs)
            && variance == Weighted(alpha, Squares(xs, mean))
            && Weighted(alpha, seq(|xs|, _ => 1.0)) == 1.0
            && (0.0 <= alpha <= 1.0 ==> forall i: nat :: i < |xs| ==> Weight(alpha, i, |xs|) >= 0.0)
  {
    var mean := EwmaState(alpha, xs).0;
    EwmaMeanIs(alpha, xs);
    WeightedIsBlend(alpha, xs);
    EwmaSpread(alpha, xs, mean);
    WeightedIsBlend(alpha, Squares(xs, mean));
    WeightsSumToOne(alpha, |xs|);
    if 0.0 <= alpha <= 1.0 {
      forall i: nat | i < |xs| ensures Weight(alpha, i, |xs|) >= 0.0 {
        WeightNonNegative(alpha, i, |xs|);
      }
    }
  }

  lemma Between(alpha: real, a: real, b: real, lo: real, hi: real)
    requires 0.0 <= alpha <= 1.0 && lo <= a <= hi && lo <= b <= hi
    ensures lo <= alpha * a + (1.0 - alpha) * b <= hi
  {
    ProductNonNegative(alpha, a - lo);
    ProductNonNegative(1.0 - alpha, b - lo);
    ProductNonNegative(alpha, hi - a);
    ProductNonNegative(1.0 - alpha, hi - b);
  }

  /** For any admitted alpha: the mean stays within the values seen, and the variance never goes
      negative. */
  lemma {:induction false} EwmaBounds(alpha: real, xs: seq<real>, lo: real, hi: real)
    requires 0.0 <= alpha <= 1.0 && xs != []
    requires forall i :: 0 <= i < |xs| ==> lo <= xs[i] <= hi
    ensures lo <= EwmaState(alpha, xs).0 <= hi && EwmaState(alpha, xs).1 >= 0.0
  {
    var init, v := xs[..|xs| - 1], xs[|xs| - 1];
    if init != [] {
      EwmaBounds(alpha, init, lo, hi);
      var (mean, variance) := EwmaState(alpha, init);
      SmoothedBounds(alpha, mean, variance, v, lo, hi);
      assert EwmaState(alpha, xs) == Smoothed(alpha, (mean, variance), v);
    }
  }

  lemma SmoothedBounds(alpha: real, mean: real, variance: real, v: real, lo: real, hi: real)
    requires 0.0 <= alpha <= 1.0 && lo <= mean <= hi && lo <= v <= hi && variance >= 0.0
    ensures lo <= Smoothed(alpha, (mean, variance), v).0 <= hi
    ensures Smoothed(alpha, (mean, variance), v).1 >= 0.0
  {
    Between(alpha, v, mean, lo, hi);
    SquareNonNegative(v - mean);
    NonNegativeStep(alpha, variance, (v - mean) * (v - mean));
  }

  lemma NonNegativeStep(alpha: real, variance: real, sq: real)
    requires 0.0 <= alpha <= 1.0 && variance >= 0.0 && sq >= 0.0
    ensures (1.0 - alpha) * (variance + alpha * sq) >= 0.0
  {
    ProductNonNegative(alpha, sq);
    ProductNonNegative(1.0 - alpha, variance + alpha * sq);
  }

  lemma {:induction false} EwmaNeverSpreads(alpha: real, xs: seq<real>)
    requires alpha == 0.0 || alpha == 1.0
    ensures EwmaState(alpha, xs).1 == 0.0
  {
    if |xs| > 1 {
      var init, v := xs[..|xs| - 1], xs[|xs| - 1];
      EwmaNeverSpreads(alpha, init);
      assert EwmaState(alpha, xs) == Smoothed(alpha, EwmaState(alpha, init), v);
      EndsFlat(alpha, EwmaState(alpha, init).0, v);
    }
  }

  lemma EndsFlat(alpha: real, mean: real, v: real)
    requires alpha == 0.0 || alpha == 1.0
    ensures Smoothed(alpha, (mean, 0.0), v).1 == 0.0
  {}

  lemma {:induction false} EwmaZeros(alpha: real, n: nat)
    requires n > 0
    ensures EwmaState(alpha, Zeros(n)) == (0.0, 0.0)
  {
    if n > 1 {
      EwmaZeros(alpha, n - 1);
      assert Zeros(n)[..n - 1] == Zeros(n - 1);
      assert EwmaState(alpha, Zeros(n)) == Smoothed(alpha, (0.0, 0.0), 0.0);
    }
  }

  /** A second value that leaves the baseline with mean alpha * b and variance b > 1. */
  lemma EwmaAfterSpike(alpha: real, n: nat) returns (b: real)
    requires 0.0 < alpha < 1.0 && n > 0
    ensures b > 1.0 && EwmaState(alpha, Zeros(n) + [b]) == (alpha * b, b)
  {
    var q := alpha * (1.0 - alpha);
    b := Reciprocal(alpha, q);
    EwmaZeros(alpha, n);
    EwmaStep(alpha, Zeros(n), b);
    SmoothedFromZero(alpha, q, b);
  }

  lemma Reassociate(a: real, b: real, c: real)
    ensures a * (b * c) == a * b * c
  {}

  lemma SmoothedFromZero(alpha: real, q: real, b: real)
    requires q == alpha * (1.0 - alpha) && q * b == 1.0
    ensures Smoothed(alpha, (0.0, 0.0), b) == (alpha * b, b)
  {
    var r := Smoothed(alpha, (0.0, 0.0), b);
    assert r.0 == alpha * b;
    assert r.1 == b by {
      Reassociate(alpha, 1.0 - alpha, b * b);
      Reassociate(q, b, b);
    }
  }

  lemma Reciprocal(alpha: real, q: real) returns (b: real)
    requires 0.0 < alpha < 1.0 && q == alpha * (1.0 - alpha)
    ensures q * b == 1.0 && b > 1.0
  {
    assert 0.0 < q by { ProductPositive(alpha, 1.0 - alpha); }
    assert q < 1.0 by { ProductPositive(alpha, alpha); }
    b := 1.0 / q;
    assert q * b == 1.0;
    if b <= 1.0 { ProductNonNegative(q, 1.0 - b); }
  }

  lemma ProductPositive(a: real, b: real)
    requires a > 0.0 && b > 0.0
    ensures a * b > 0.0
  {}

  lemma FarEnough(sigma: real, b: real)
    requires b > 1.0 && sigma >= 0.0
    ensures (sigma + 1.0) * b * ((sigma + 1.0) * b) > sigma * sigma * b
  {
    var s := sigma + 1.0;
    assert s * s == sigma * sigma + 2.0 * sigma + 1.0;
    ProductPositive(s * s, b);
    ProductPositive(s * s * b, b - 1.0);
    assert s * b * (s * b) == s * s * b + s * s * b * (b - 1.0);
    ProductPositive(s * s - sigma * sigma, b);
    assert (s * s - sigma * sigma) * b == s * s * b - sigma * sigma * b;
  }

  /** A value far enough from a baseline that varies by b > 1. */
  lemma FarValue(mean: real, b: real, sigma: real) returns (v: real)
    requires b > 1.0
    ensures !Flat(b) && Beyond(v - mean, b, sigma)
  {
    var a := if sigma >= 0.0 then sigma else 0.0;
    v := mean + (a + 1.0) * b;
    FarEnough(a, b);
    assert v - mean == (a + 1.0) * b;
    EpsilonIsSmall();
  }

  lemma EwmaSpikeCrosses(alpha: real, sigma: real, minCount: nat, n: nat) returns (xs: seq<real>)
    requires 0.0 < alpha < 1.0 && n >= 3 && n >= minCount
    ensures |xs| == n && xs[..n - 2] == Zeros(n - 2) && Crosses(Ewma(alpha, sigma, minCount), xs)
  {
    hide Beyond, Flat, EwmaState;
    var b := EwmaAfterSpike(alpha, n - 2);
    var v := FarValue(alpha * b, b, sigma);
    var init := Zeros(n - 2) + [b];
    xs := init + [v];
    assert xs[..n - 1] == init;
  }

  /** Whatever the cool-off, an EWMA detector can report its n-th observation if and only if alpha
      lies strictly between 0 and 1, two values came before, and it is armed. The end points,
      which the constructor admits, make a detector that stays silent forever. */
  lemma EwmaCanFireIff(alpha: real, sigma: real, minCount: nat, coolOff: int, n: nat)
    requires 0.0 <= alpha <= 1.0 && n > 0
    ensures CanReport(Ewma(alpha, sigma, minCount), coolOff, n) <==> 0.0 < alpha < 1.0 && n >= 3 && n >= minCount
  {
    var kind := Ewma(alpha, sigma, minCount);
    if CanReport(kind, coolOff, n) {
      var obs :| |obs| == n && Fires(kind, coolOff, obs);
      EpsilonIsSmall();
      if alpha == 0.0 || alpha == 1.0 { EwmaNeverSpreads(alpha, Values(obs)[..n - 1]); }
    }
    if 0.0 < alpha < 1.0 && n >= 3 && n >= minCount {
      var obs := EwmaSpikeFires(kind, coolOff, n);
    }
  }

  lemma EwmaSpikeFires(kind: Kind, coolOff: int, n: nat) returns (obs: seq<Obs>)
    requires kind.Ewma? && 0.0 < kind.alpha < 1.0 && n >= 3 && n >= kind.minCount
    ensures |obs| == n && Fires(kind, coolOff, obs)
  {
    var xs := EwmaSpikeCrosses(kind.alpha, kind.sigma, kind.minCount, n);
    obs := Stream(xs);
    StreamValues(xs);
    // The zeros say nothing, and neither does the first spike: zeros are a flat baseline.
    var k := n - 2;
    ZerosAreQuiet(kind, coolOff, k);
    assert obs[..n - 1] == Stream(xs[..n - 1]) && Stream(xs[..n - 1])[..k] == Stream(Zeros(k));
    StreamValues(xs[..n - 1]);
    EwmaZeros(kind.alpha, k);
    EpsilonIsSmall();
    assert xs[..n - 1][..k] == Zeros(k);
    assert !Crosses(kind, xs[..n - 1]);
    assert Alerts(kind, coolOff, obs[..n - 1]) == [];
  }
}
