/** The delay between two ticks of a /loop: exponential backoff after a failure,
    otherwise the fixed interval or the agent's clamped request. All counters are u32
    in the program, so its saturating arithmetic is written out. */
module LoopTiming {
  import opened Wrappers

  const U32_MAX: nat := 0xFFFF_FFFF
  const MAX_CONSECUTIVE_FAILURES: nat := 5

  datatype PacingKind = Fixed | Dynamic

  /** The pacing fields of a loop row; `create` checks 1 <= minSecs <= maxSecs. */
  datatype Pacing = Pacing(kind: PacingKind, interval: nat, minSecs: nat, maxSecs: nat) {
    predicate Valid() {
      1 <= interval <= U32_MAX && 1 <= minSecs <= maxSecs <= U32_MAX
    }
  }

  /** An f64 delay asked for by the agent. */
  datatype Request = Seconds(value: real) | NonFinite

  function Min(a: int, b: int): int { if a <= b then a else b }

  function Pow2(n: nat): nat { if n == 0 then 1 else 2 * Pow2(n - 1) }

  function SaturatingMul(a: nat, b: nat): nat { Min(a * b, U32_MAX) }

  function BackoffDelay(interval: nat, failures: nat): nat {
    SaturatingMul(interval, Pow2(Min(failures, MAX_CONSECUTIVE_FAILURES)))
  }

  /** `secs as u32`: truncates toward zero and saturates. */
  function ToU32(secs: real): nat
    requires secs >= 0.0
  {
    Min(secs.Floor, U32_MAX)
  }

  function Clamp(x: nat, lo: nat, hi: nat): nat {
    if x < lo then lo else if x > hi then hi else x
  }

  function NextTickDelay(p: Pacing, failures: nat, requested: Option<Request>): nat {
    if failures > 0 then BackoffDelay(p.interval, failures)
    else match (p.kind, requested)
      case (Dynamic, Some(Seconds(v))) =>
        Clamp(if v >= 0.0 then ToU32(v) else p.minSecs, p.minSecs, p.maxSecs)
      case (Dynamic, Some(NonFinite)) => Clamp(p.minSecs, p.minSecs, p.maxSecs)
      case _ => p.interval
  }

  /** Each further failure doubles the wait, up to the u32 ceiling and the breaker. */
  lemma BackoffDoubles(interval: nat, failures: nat)
    requires interval <= U32_MAX
    ensures BackoffDelay(interval, 0) == interval
    ensures failures < MAX_CONSECUTIVE_FAILURES
            ==> BackoffDelay(interval, failures + 1) == Min(2 * BackoffDelay(interval, failures), U32_MAX)
    ensures failures >= MAX_CONSECUTIVE_FAILURES
            ==> BackoffDelay(interval, failures) == BackoffDelay(interval, MAX_CONSECUTIVE_FAILURES)
  {
    if failures < MAX_CONSECUTIVE_FAILURES {
      assert interval * Pow2(failures + 1) == 2 * (interval * Pow2(failures));
    }
  }

  /** The least wait a pacing allows between two ticks. */
  function Gap(p: Pacing): nat { if p.kind.Fixed? then p.interval else Min(p.interval, p.minSecs) }

  /** Whatever the agent asks for, the loop never spins and never exceeds its window:
      the wait is at least one second, a failing tick never waits less than the interval,
      and an unfailed dynamic request lands inside the clamp window. */
  lemma DelayBounds(p: Pacing, failures: nat, requested: Option<Request>)
    requires p.Valid()
    ensures 1 <= Gap(p) <= NextTickDelay(p, failures, requested) <= U32_MAX
    ensures failures > 0 ==> p.interval <= NextTickDelay(p, failures, requested)
    ensures failures == 0 && p.kind.Dynamic? && requested.Some?
            ==> p.minSecs <= NextTickDelay(p, failures, requested) <= p.maxSecs
    ensures failures == 0 && (p.kind.Fixed? || requested.None?)
            ==> NextTickDelay(p, failures, requested) == p.interval
  {
    if failures > 0 {
      Pow2Positive(Min(failures, MAX_CONSECUTIVE_FAILURES));
      var f := Pow2(Min(failures, MAX_CONSECUTIVE_FAILURES));
      assert p.interval * f >= p.interval;
    }
  }

  /** And exactly: a request inside the window is taken at its whole seconds, one beyond it at the
      nearer bound, one that is no number at the lower; each failure doubles the wait, up to the
      breaker and the ceiling, whatever is asked for. */
  lemma DelayIs(p: Pacing, failures: nat, requested: Option<Request>)
    requires p.Valid()
    ensures var wait := NextTickDelay(p, failures, requested);
            && (failures == 0 && p.kind.Dynamic? && requested.Some? ==>
                  match requested.value
                  case NonFinite => wait == p.minSecs
                  case Seconds(v) =>
                    && (v < p.minSecs as real ==> wait == p.minSecs)
                    && (v >= p.maxSecs as real ==> wait == p.maxSecs)
                    && (p.minSecs as real <= v < p.maxSecs as real ==> wait as real <= v < wait as real + 1.0))
            && (failures == 1 ==> wait == Min(2 * p.interval, U32_MAX))
            && (1 <= failures < MAX_CONSECUTIVE_FAILURES ==>
                  NextTickDelay(p, failures + 1, requested) == Min(2 * wait, U32_MAX))
            && (failures > MAX_CONSECUTIVE_FAILURES ==>
                  wait == NextTickDelay(p, MAX_CONSECUTIVE_FAILURES, requested))
  {
    BackoffDoubles(p.interval, 0);
    BackoffDoubles(p.interval, failures);
  }

  lemma Pow2Positive(n: nat)
    ensures Pow2(n) >= 1
  {}
}
