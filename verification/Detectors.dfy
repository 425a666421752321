/** The anomaly detectors: online state on one side, what they report about a whole stream of
    observations on the other. Standard deviations are compared by their squares. */
module Detectors {
  import opened Wrappers
  import opened Baseline

  /** The smallest deviation a score may be divided by. */
  const EPSILON: real := 1.0 / 4503599627370496.0

  datatype Obs = Obs(ts: int, value: real)

  /** The baseline is kept as a variance; the score is the deviation over its root. */
  datatype Anomaly = Anomaly(ts: int, value: real, mean: real, variance: real)

  datatype Kind =
    | ZScore(sigma: real, minCount: nat)
    | Ewma(alpha: real, sigma: real, minCount: nat)

  function Values(obs: seq<Obs>): seq<real> {
    seq(|obs|, i requires 0 <= i < |obs| => obs[i].value)
  }

  /** |deviation| / sqrt(variance) > sigma, without the root. */
  predicate Beyond(deviation: real, variance: real, sigma: real) {
    sigma < 0.0 || deviation * deviation > sigma * sigma * variance
  }

  predicate Flat(variance: real) { variance < EPSILON * EPSILON }

  lemma QuotientAbove(a: real, s: real, sigma: real)
    requires s > 0.0
    ensures a / s > sigma <==> a > sigma * s
  {}

  lemma SquaresGrow(a: real, b: real)
    requires a > b >= 0.0
    ensures a * a > b * b
  {
    var d := a - b;
    assert d * d > 0.0 && b * d >= 0.0;
    assert (b + d) * (b + d) == b * b + 2.0 * (b * d) + d * d;
  }

  lemma SquaresOrder(a: real, b: real)
    requires a >= 0.0 && b >= 0.0
    ensures a > b <==> a * a > b * b
  {
    if a > b { SquaresGrow(a, b); }
    if b > a { SquaresGrow(b, a); }
  }

  /** The squared comparison is the program's own, for any root of the variance. */
  lemma BeyondIsScore(deviation: real, variance: real, sigma: real, std: real)
    requires std >= 0.0 && std * std == variance
    ensures std < EPSILON <==> Flat(variance)
    ensures std >= EPSILON ==>
              var score := deviation / std;
              ((if score >= 0.0 then score else -score) > sigma <==> Beyond(deviation, variance, sigma))
  {
    SquaresOrder(EPSILON, std);
    if std >= EPSILON {
      var a := if deviation >= 0.0 then deviation else -deviation;
      QuotientAbove(a, std, sigma);
      assert a * a == deviation * deviation;
      if sigma >= 0.0 {
        SquaresOrder(a, sigma * std);
        assert sigma * std * (sigma * std) == sigma * sigma * (std * std);
      } else {
        assert sigma * std < 0.0;
      }
    }
  }

  // ---- what a detector says about a stream -----------------------------------------------

  function Smoothed(alpha: real, state: (real, real), v: real): (real, real) {
    var (mean, variance) := state;
    (alpha * v + (1.0 - alpha) * mean, (1.0 - alpha) * (variance + alpha * ((v - mean) * (v - mean))))
  }

  /** The EWMA recurrences: mean and variance after `xs`. */
  function EwmaState(alpha: real, xs: seq<real>): (real, real) {
    if xs == [] then (0.0, 0.0)
    else if |xs| == 1 then (xs[0], 0.0)
    else Smoothed(alpha, EwmaState(alpha, xs[..|xs| - 1]), xs[|xs| - 1])
  }

  /** Mean and variance the newest of `xs` is scored against: with itself included for a
      z-score, the previous ones for EWMA. */
  function BaselineOf(kind: Kind, xs: seq<real>): (real, real)
    requires xs != []
  {
    match kind
    case ZScore(_, _) => (Mean(xs), Variance(xs))
    case Ewma(alpha, _, _) => EwmaState(alpha, xs[..|xs| - 1])
  }

  /** The newest observation crosses the threshold, cooldown aside. */
  predicate Crosses(kind: Kind, xs: seq<real>)
    requires xs != []
  {
    var (mean, variance) := BaselineOf(kind, xs);
    && |xs| >= kind.minCount && !Flat(variance)
    && Beyond(xs[|xs| - 1] - mean, variance, kind.sigma)
  }

  /** `Cooldown::ready`. */
  predicate Ready(coolOff: int, last: Option<int>, now: int) {
    last.None? || now - last.value >= coolOff
  }

  function LastFired(alerts: seq<Anomaly>): Option<int> {
    if alerts == [] then None else Some(alerts[|alerts| - 1].ts)
  }

  function AnomalyOf(kind: Kind, obs: seq<Obs>): Anomaly
    requires obs != []
  {
    var newest, (mean, variance) := obs[|obs| - 1], BaselineOf(kind, Values(obs));
    Anomaly(newest.ts, newest.value, mean, variance)
  }

  /** Whether the newest observation is reported. */
  predicate Fires(kind: Kind, coolOff: int, obs: seq<Obs>)
    requires obs != []
    decreases |obs|, 0
  {
    var before := obs[..|obs| - 1];
    Crosses(kind, Values(obs)) && Ready(coolOff, LastFired(Alerts(kind, coolOff, before)), obs[|obs| - 1].ts)
  }

  /** Everything a fresh detector reports on the stream `obs`. */
  function Alerts(kind: Kind, coolOff: int, obs: seq<Obs>): seq<Anomaly>
    decreases |obs|, 1
  {
    if obs == [] then []
    else Alerts(kind, coolOff, obs[..|obs| - 1])
         + if Fires(kind, coolOff, obs) then [AnomalyOf(kind, obs)] else []
  }

  /** What feeding `obs[|obs| - 1]` returns. */
  function Reported(kind: Kind, coolOff: int, obs: seq<Obs>): Option<Anomaly>
    requires obs != []
  {
    if Fires(kind, coolOff, obs) then Some(AnomalyOf(kind, obs)) else None
  }

  lemma AlertsStep(kind: Kind, coolOff: int, obs: seq<Obs>, o: Obs)
    ensures var r := Reported(kind, coolOff, obs + [o]);
            Alerts(kind, coolOff, obs + [o]) == Alerts(kind, coolOff, obs) + if r.Some? then [r.value] else []
  {
    assert (obs + [o])[..|obs|] == obs;
  }

  lemma ValuesAppend(obs: seq<Obs>, o: Obs)
    ensures Values(obs + [o]) == Values(obs) + [o.value]
    ensures (Values(obs) + [o.value])[..|obs|] == Values(obs)
  {}

  lemma EwmaReports(kind: Kind, coolOff: int, obs: seq<Obs>, o: Obs)
    requires kind.Ewma? && obs != []
    ensures var (mean, variance) := EwmaState(kind.alpha, Values(obs));
            Reported(kind, coolOff, obs + [o]) ==
            if |obs| + 1 >= kind.minCount && !Flat(variance) && Beyond(o.value - mean, variance, kind.sigma)
               && Ready(coolOff, LastFired(Alerts(kind, coolOff, obs)), o.ts)
            then Some(Anomaly(o.ts, o.value, mean, variance)) else None
  {
    ValuesAppend(obs, o);
    assert (obs + [o])[..|obs|] == obs;
  }

  lemma EwmaStep(alpha: real, xs: seq<real>, v: real)
    requires xs != []
    ensures EwmaState(alpha, xs + [v]) == Smoothed(alpha, EwmaState(alpha, xs), v)
  {
    var ys := xs + [v];
    assert ys[..|ys| - 1] == xs;
    assert EwmaState(alpha, ys) == Smoothed(alpha, EwmaState(alpha, ys[..|ys| - 1]), ys[|ys| - 1]);
  }

  // ---- the detectors ---------------------------------------------------------------------

  class Cooldown {
    const period: int
    var lastFired: Option<int>

    constructor (period: int)
      ensures this.period == period && lastFired == None
    {
      this.period, lastFired := period, None;
    }

    predicate IsReady(now: int) reads this {
      match lastFired
      case None => true
      case Some(t) => now - t >= period
    }

    method Record(now: int)
      modifies this
      ensures lastFired == Some(now)
    {
      lastFired := Some(now);
    }
  }

  class ZScoreDetector {
    const sigma: real
    const minCount: nat
    const coolOff: int
    const stats: WelfordStats
    const cooldown: Cooldown
    ghost var seen: seq<Obs>

    ghost function Repr(): set<object> { {this, stats, cooldown} }

    ghost predicate Valid() reads Repr() {
      && stats.Valid() && stats.seen == Values(seen) && cooldown.period == coolOff
      && cooldown.lastFired == LastFired(Alerts(ZScore(sigma, minCount), coolOff, seen))
    }

    constructor (sigma: real, minCount: nat, coolOff: int)
      ensures Valid() && fresh(Repr()) && seen == []
      ensures this.sigma == sigma && this.minCount == minCount && this.coolOff == coolOff
    {
      this.sigma, this.minCount, this.coolOff := sigma, minCount, coolOff;
      stats := new WelfordStats();
      cooldown := new Cooldown(coolOff);
      seen := [];
    }

    method Observe(ts: int, value: real) returns (r: Option<Anomaly>)
      requires Valid()
      modifies Repr()
      ensures Valid() && seen == old(seen) + [Obs(ts, value)]
      ensures r == Reported(ZScore(sigma, minCount), coolOff, seen)
    {
      ValuesAppend(seen, Obs(ts, value));
      AlertsStep(ZScore(sigma, minCount), coolOff, seen, Obs(ts, value));
      ghost var before := seen;
      assert (before + [Obs(ts, value)])[..|before|] == before;
      seen := seen + [Obs(ts, value)];
      stats.Update(value);
      if stats.count < minCount { return None; }
      var mean, variance := stats.mean, stats.GetVariance();
      if Flat(variance) { return None; }
      if Beyond(value - mean, variance, sigma) && cooldown.IsReady(ts) {
        cooldown.Record(ts);
        return Some(Anomaly(ts, value, mean, variance));
      }
      return None;
    }
  }

  class EwmaDetector {
    const alpha: real
    const sigma: real
    const minCount: nat
    const coolOff: int
    var mean: Option<real>
    var variance: Option<real>
    var count: nat
    const cooldown: Cooldown
    ghost var seen: seq<Obs>

    ghost function Repr(): set<object> { {this, cooldown} }

    ghost predicate Valid() reads Repr() {
      && count == |seen| && cooldown.period == coolOff
      && mean == (if seen == [] then None else Some(EwmaState(alpha, Values(seen)).0))
      && variance == (if seen == [] then None else Some(EwmaState(alpha, Values(seen)).1))
      && cooldown.lastFired == LastFired(Alerts(Ewma(alpha, sigma, minCount), coolOff, seen))
    }

    /** The program panics on any other smoothing factor. */
    constructor (alpha: real, sigma: real, minCount: nat, coolOff: int)
      requires 0.0 <= alpha <= 1.0
      ensures Valid() && fresh(Repr()) && seen == []
      ensures this.alpha == alpha && this.sigma == sigma && this.minCount == minCount && this.coolOff == coolOff
    {
      this.alpha, this.sigma, this.minCount, this.coolOff := alpha, sigma, minCount, coolOff;
      mean, variance, count := None, None, 0;
      cooldown := new Cooldown(coolOff);
      seen := [];
    }

    method Observe(ts: int, value: real) returns (r: Option<Anomaly>)
      requires Valid()
      modifies Repr()
      ensures Valid() && seen == old(seen) + [Obs(ts, value)]
      ensures r == Reported(Ewma(alpha, sigma, minCount), coolOff, seen)
    {
      ghost var before, kind := seen, Ewma(alpha, sigma, minCount);
      ValuesAppend(before, Obs(ts, value));
      AlertsStep(kind, coolOff, before, Obs(ts, value));
      if before != [] { EwmaStep(alpha, Values(before), value); }
      seen := seen + [Obs(ts, value)];
      count := count + 1;
      if mean.None? {
        mean, variance := Some(value), Some(0.0);
        return None;
      }
      EwmaReports(kind, coolOff, before, Obs(ts, value));
      var prevMean, prevVar := mean.value, variance.value;
      var next := Smoothed(alpha, (prevMean, prevVar), value);
      mean, variance := Some(next.0), Some(next.1);
      if count < minCount { return None; }
      if Flat(prevVar) { return None; }
      if Beyond(value - prevMean, prevVar, sigma) && cooldown.IsReady(ts) {
        cooldown.Record(ts);
        return Some(Anomaly(ts, value, prevMean, prevVar));
      }
      return None;
    }
  }
}
