/** Multiplication of reals under a name that proofs can hide, and the few laws they use. */
module Products {
  function Times(a: real, b: real): real { a * b }

  lemma Commute(a: real, b: real)
    ensures Times(a, b) == Times(b, a)
  {}

  lemma Associate(a: real, b: real, c: real)
    ensures Times(Times(a, b), c) == Times(a, Times(b, c))
  {}

  lemma Distribute(a: real, b: real, c: real)
    ensures Times(a, b + c) == Times(a, b) + Times(a, c)
    ensures Times(a, b - c) == Times(a, b) - Times(a, c)
  {}

  lemma Units(a: real)
    ensures Times(a, 1.0) == a && Times(1.0, a) == a
    ensures Times(a, 0.0) == 0.0 && Times(0.0, a) == 0.0
  {}

  lemma NonNegative(a: real, b: real)
    requires 0.0 <= a && 0.0 <= b
    ensures 0.0 <= Times(a, b)
  {}

  lemma Monotone(a: real, b: real, c: real)
    requires a <= b && 0.0 <= c
    ensures Times(a, c) <= Times(b, c) && Times(c, a) <= Times(c, b)
  {
    hide Times;
    NonNegative(c, b - a);
    Distribute(c, b, a);
    Commute(a, c);
    Commute(b, c);
  }
}

/** Retry policies (retry.py) as a tree: any number of jitter decorators over one base
    policy. Delays are reals; each jitter level takes its random draw as an input. */
module RetryPolicies {
  import opened Products

  datatype Policy =
    | NoRetry
    | FixedDelay(delaySeconds: real)
    | ExponentialBackoff(baseSeconds: real, factor: real, maxDelaySeconds: real)
    | JitteredBackoff(inner: Policy, jitterFraction: real)
  {
    /** The arguments every constructor accepts; any other argument raises ValueError. */
    predicate Valid() {
      match this
      case NoRetry => true
      case FixedDelay(d) => 0.0 <= d
      case ExponentialBackoff(b, f, m) => 0.0 <= b && 1.0 <= f && b <= m
      case JitteredBackoff(p, j) => 0.0 <= j <= 1.0 && p.Valid()
    }

    /** The number of jitter decorators, which is the number of draws one call makes. */
    function Depth(): nat {
      if JitteredBackoff? then 1 + inner.Depth() else 0
    }

    function Innermost(): (p: Policy)
      ensures !p.JitteredBackoff?
      ensures Valid() ==> p.Valid()
    {
      if JitteredBackoff? then inner.Innermost() else this
    }

    /** The smallest and the largest factor the jitter levels can apply together. */
    function LowFactor(): real {
      if JitteredBackoff? then Times(inner.LowFactor(), 1.0 - jitterFraction) else 1.0
    }

    function HighFactor(): real {
      if JitteredBackoff? then Times(inner.HighFactor(), 1.0 + jitterFraction) else 1.0
    }
  }

  /** What next_delay does: return None, return a delay, or raise ValueError. */
  datatype Delay = Declined | After(seconds: real) | ValueError

  function Pow(b: real, n: nat): real {
    if n == 0 then 1.0 else Times(b, Pow(b, n - 1))
  }

  function Min(a: real, b: real): real { if a <= b then a else b }

  function Max(a: real, b: real): real { if a >= b then a else b }

  /** random.uniform(a, b) for a draw u of random.random(). */
  function Uniform(a: real, b: real, u: real): real { a + Times(b - a, u) }

  /** One jitter level over a delay, before the clamp. */
  function Jitter(base: real, j: real, u: real): real {
    var spread := Times(base, j);
    base + Uniform(-spread, spread, u)
  }

  predicate Draws(p: Policy, us: seq<real>) {
    |us| == p.Depth() && forall i :: 0 <= i < |us| ==> 0.0 <= us[i] <= 1.0
  }

  /** next_delay; draws[0] belongs to the outermost jitter level. */
  function NextDelay(p: Policy, attempt: int, draws: seq<real>): Delay
    requires |draws| == p.Depth()
  {
    match p
    case NoRetry => Declined
    case FixedDelay(d) => if attempt < 1 then ValueError else After(d)
    case ExponentialBackoff(b, f, m) =>
      if attempt < 1 then ValueError else After(Min(Times(b, Pow(f, attempt - 1)), m))
    case JitteredBackoff(inner, j) =>
      match NextDelay(inner, attempt, draws[1..])
      case After(base) => After(Max(0.0, Jitter(base, j, draws[0])))
      case other => other
  }

  /** The delay of the base policy below all jitter. */
  function BaseDelay(p: Policy, attempt: int): Delay {
    NextDelay(p.Innermost(), attempt, [])
  }

  /** next_delay without the clamp at zero. */
  function UnclampedDelay(p: Policy, attempt: int, draws: seq<real>): Delay
    requires |draws| == p.Depth()
  {
    if !p.JitteredBackoff? then NextDelay(p, attempt, draws)
    else
      match UnclampedDelay(p.inner, attempt, draws[1..])
      case After(base) => After(Jitter(base, p.jitterFraction, draws[0]))
      case other => other
  }

  // ---------------------------------------------------------------- powers

  lemma {:induction false} PowAtLeastOne(f: real, n: nat)
    requires 1.0 <= f
    ensures 1.0 <= Pow(f, n)
  {
    hide Times;
    if n > 0 {
      PowAtLeastOne(f, n - 1);
      Monotone(1.0, f, Pow(f, n - 1));
      Units(Pow(f, n - 1));
    }
  }

  lemma {:induction false} PowMono(f: real, m: nat, n: nat)
    requires 1.0 <= f && m <= n
    ensures Pow(f, m) <= Pow(f, n)
    decreases n
  {
    hide Times;
    if m < n {
      PowMono(f, m, n - 1);
      PowAtLeastOne(f, n - 1);
      Monotone(1.0, f, Pow(f, n - 1));
      Units(Pow(f, n - 1));
    }
  }

  // ------------------------------------------------------ jitter composition

  /** The base policies themselves: they decline, raise, or return a nonnegative delay. */
  lemma BaseDelayIsNonNegative(p: Policy, attempt: int)
    requires p.Valid() && !p.JitteredBackoff?
    ensures NextDelay(p, attempt, []) == Declined <==> p.NoRetry?
    ensures NextDelay(p, attempt, []) == ValueError <==> !p.NoRetry? && attempt < 1
    ensures NextDelay(p, attempt, []).After? ==> 0.0 <= NextDelay(p, attempt, []).seconds
    ensures p.FixedDelay? && attempt >= 1 ==> NextDelay(p, attempt, []) == After(p.delaySeconds)
  {
    hide Times;
    if p.ExponentialBackoff? && attempt >= 1 {
      PowAtLeastOne(p.factor, attempt - 1);
      NonNegative(p.baseSeconds, Pow(p.factor, attempt - 1));
    }
  }

  /** One jitter level over a nonnegative delay stays within the spread around it, and
      reaches both ends of it. */
  lemma JitterWithinSpread(base: real, j: real, u: real)
    requires 0.0 <= base && 0.0 <= j <= 1.0 && 0.0 <= u <= 1.0
    ensures 0.0 <= Times(base, 1.0 - j) <= Jitter(base, j, u) <= Times(base, 1.0 + j)
    ensures u == 0.0 ==> Jitter(base, j, u) == Times(base, 1.0 - j)
    ensures u == 1.0 ==> Jitter(base, j, u) == Times(base, 1.0 + j)
    ensures Jitter(base, j, u) == Times(base, 1.0 - j) + Times(Times(base, j), u) + Times(Times(base, j), u)
  {
    hide Times;
    var spread := Times(base, j);
    NonNegative(base, j);
    NonNegative(base, 1.0 - j);
    Monotone(0.0, u, spread - -spread);
    Monotone(u, 1.0, spread - -spread);
    Units(spread - -spread);
    Distribute(base, 1.0, j);
    Units(base);
    Commute(u, spread - -spread);
    Distribute(u, spread, spread);
    Commute(u, spread);
  }

  /** x lies between the delay base times a low and a high factor. */
  predicate Between(base: real, low: real, high: real, x: real) {
    0.0 <= Times(base, low) <= x <= Times(base, high)
  }

  /** Jitter over a delay between two multiples of base scales both bounds. */
  lemma JitterScales(base: real, low: real, high: real, x: real, j: real, u: real)
    requires Between(base, low, high, x) && 0.0 <= j <= 1.0 && 0.0 <= u <= 1.0
    ensures Between(base, Times(low, 1.0 - j), Times(high, 1.0 + j), Jitter(x, j, u))
  {
    hide Times;
    JitterWithinSpread(x, j, u);
    Monotone(Times(base, low), x, 1.0 - j);
    Monotone(x, Times(base, high), 1.0 + j);
    NonNegative(Times(base, low), 1.0 - j);
    Associate(base, low, 1.0 - j);
    Associate(base, high, 1.0 + j);
  }

  /** Any nesting of jitter declines exactly when the innermost policy declines, raises
      exactly when it raises, and otherwise stays between the products of the spreads. */
  lemma {:induction false} JitterComposition(p: Policy, attempt: int, draws: seq<real>)
    requires p.Valid() && Draws(p, draws)
    ensures NextDelay(p, attempt, draws) == Declined <==> p.Innermost().NoRetry?
    ensures NextDelay(p, attempt, draws) == ValueError <==> !p.Innermost().NoRetry? && attempt < 1
    ensures NextDelay(p, attempt, draws).After? ==>
              && BaseDelay(p, attempt).After?
              && Between(BaseDelay(p, attempt).seconds, p.LowFactor(), p.HighFactor(),
                         NextDelay(p, attempt, draws).seconds)
  {
    hide Times;
    if !p.JitteredBackoff? {
      assert draws == [];
      BaseDelayIsNonNegative(p, attempt);
      if !p.NoRetry? && attempt >= 1 { Units(BaseDelay(p, attempt).seconds); }
    } else {
      JitterComposition(p.inner, attempt, draws[1..]);
      var d := NextDelay(p.inner, attempt, draws[1..]);
      if d.After? {
        JitterScales(BaseDelay(p, attempt).seconds, p.inner.LowFactor(), p.inner.HighFactor(),
                     d.seconds, p.jitterFraction, draws[0]);
      }
    }
  }

  /** The clamp max(0.0, ...) never changes a value. */
  lemma {:induction false} ClampNeverActs(p: Policy, attempt: int, draws: seq<real>)
    requires p.Valid() && Draws(p, draws)
    ensures NextDelay(p, attempt, draws) == UnclampedDelay(p, attempt, draws)
  {
    hide Times;
    if p.JitteredBackoff? {
      ClampNeverActs(p.inner, attempt, draws[1..]);
      JitterComposition(p.inner, attempt, draws[1..]);
      var d := NextDelay(p.inner, attempt, draws[1..]);
      if d.After? {
        JitterWithinSpread(d.seconds, p.jitterFraction, draws[0]);
      }
    }
  }

  function EndFactor(p: Policy, u: real): real {
    if u == 0.0 then p.LowFactor() else p.HighFactor()
  }

  /** Both bounds of JitterComposition are reached: the lower one when all draws are 0 and
      the upper one when all draws are 1. */
  lemma {:induction false} JitterBoundsAreTight(p: Policy, attempt: int, draws: seq<real>, u: real)
    requires p.Valid() && |draws| == p.Depth() && BaseDelay(p, attempt).After?
    requires u == 0.0 || u == 1.0
    requires forall i :: 0 <= i < |draws| ==> draws[i] == u
    ensures NextDelay(p, attempt, draws) == After(Times(BaseDelay(p, attempt).seconds, EndFactor(p, u)))
  {
    hide Times;
    var base := BaseDelay(p, attempt).seconds;
    if !p.JitteredBackoff? {
      assert draws == [];
      Units(base);
    } else {
      JitterBoundsAreTight(p.inner, attempt, draws[1..], u);
      JitterComposition(p.inner, attempt, draws[1..]);
      var j, factor := p.jitterFraction, EndFactor(p.inner, u);
      JitterWithinSpread(Times(base, factor), j, u);
      Associate(base, factor, if u == 0.0 then 1.0 - j else 1.0 + j);
    }
  }

  // ---------------------------------------------------- exponential backoff

  function ExpDelay(b: real, f: real, m: real, attempt: int): real
    requires attempt >= 1
  {
    NextDelay(ExponentialBackoff(b, f, m), attempt, []).seconds
  }

  /** Delays never shrink, stay within [base, max], and stay at the cap once they reach it. */
  lemma ExponentialShape(b: real, f: real, m: real, k: int, n: int)
    requires ExponentialBackoff(b, f, m).Valid() && 1 <= k <= n
    ensures ExpDelay(b, f, m, 1) == b <= ExpDelay(b, f, m, k) <= ExpDelay(b, f, m, n) <= m
    ensures ExpDelay(b, f, m, k) == m ==> ExpDelay(b, f, m, n) == m
  {
    hide Times;
    PowAtLeastOne(f, k - 1);
    PowMono(f, k - 1, n - 1);
    Monotone(1.0, Pow(f, k - 1), b);
    Monotone(Pow(f, k - 1), Pow(f, n - 1), b);
    Units(b);
    assert Pow(f, 0) == 1.0;
  }

  /** The delay is base * factor^(attempt - 1) until that passes the cap, and the cap from then
      on; so each delay is factor times the one before, or the cap. */
  lemma ExponentialValues(b: real, f: real, m: real, k: int)
    requires ExponentialBackoff(b, f, m).Valid() && 1 <= k
    ensures Times(b, Pow(f, k - 1)) <= m ==> ExpDelay(b, f, m, k) == Times(b, Pow(f, k - 1))
    ensures Times(b, Pow(f, k - 1)) >= m ==> ExpDelay(b, f, m, k) == m
    ensures ExpDelay(b, f, m, 1) == b
    ensures var next := Times(f, ExpDelay(b, f, m, k));
            ExpDelay(b, f, m, k + 1) == if next <= m then next else m
  {
    hide Times;
    var q := Pow(f, k - 1);
    // b * (f * q) == f * (b * q)
    Associate(b, f, q);
    Commute(b, f);
    Associate(f, b, q);
    Monotone(1.0, f, m);
    Units(m);
    if Times(b, q) > m { Monotone(m, Times(b, q), f); }
    assert Pow(f, k) == Times(f, q);
    Units(b);
    assert Pow(f, 0) == 1.0;
  }

  /** The default policy: 1, 2, 4 and so on, 256 at attempt 9 and 300 from attempt 10. */
  lemma DefaultDelays()
    ensures ExpDelay(1.0, 2.0, 300.0, 1) == 1.0 && ExpDelay(1.0, 2.0, 300.0, 2) == 2.0
    ensures ExpDelay(1.0, 2.0, 300.0, 9) == 256.0
    ensures forall k :: 10 <= k ==> ExpDelay(1.0, 2.0, 300.0, k) == 300.0
  {
    assert Pow(2.0, 1) == 2.0 && Pow(2.0, 2) == 4.0 && Pow(2.0, 4) == 16.0 && Pow(2.0, 6) == 64.0;
    assert Pow(2.0, 8) == 256.0 && Pow(2.0, 9) == 512.0;
    forall k | 10 <= k ensures ExpDelay(1.0, 2.0, 300.0, k) == 300.0 {
      ExponentialShape(1.0, 2.0, 300.0, 10, k);
    }
  }

  /** With factor 1 the exponential policy is the fixed one, for valid and invalid attempts. */
  lemma FactorOneIsFixed(b: real, m: real, attempt: int)
    requires ExponentialBackoff(b, 1.0, m).Valid()
    ensures NextDelay(ExponentialBackoff(b, 1.0, m), attempt, []) == NextDelay(FixedDelay(b), attempt, [])
  {
    hide Times;
    if attempt >= 1 {
      PowOfOne(attempt - 1);
      Units(b);
    }
  }

  lemma {:induction false} PowOfOne(n: nat)
    ensures Pow(1.0, n) == 1.0
  {
    if n > 0 { PowOfOne(n - 1); }
  }

  /** The total of the first n delays. */
  function TotalDelay(b: real, f: real, m: real, n: nat): real {
    if n == 0 then 0.0 else TotalDelay(b, f, m, n - 1) + ExpDelay(b, f, m, n)
  }

  /** While the cap is not reached, n delays sum to
      base * (factor^n - 1) / (factor - 1), stated without the division. */
  lemma {:induction false} GeometricTotal(b: real, f: real, m: real, n: nat)
    requires ExponentialBackoff(b, f, m).Valid() && 1.0 < f
    requires n > 0 ==> Times(b, Pow(f, n - 1)) <= m
    ensures Times(f - 1.0, TotalDelay(b, f, m, n)) == Times(b, Pow(f, n) - 1.0)
  {
    hide Times;
    if n == 0 {
      Units(f - 1.0);
      Units(b);
    } else {
      var q := Pow(f, n - 1);
      if n > 1 {
        PowMono(f, n - 2, n - 1);
        Monotone(Pow(f, n - 2), q, b);
      }
      GeometricTotal(b, f, m, n - 1);
      GeometricStep(b, f, q, TotalDelay(b, f, m, n - 1));
    }
  }

  lemma GeometricStep(b: real, f: real, q: real, t: real)
    requires Times(f - 1.0, t) == Times(b, q - 1.0)
    ensures Times(f - 1.0, t + Times(b, q)) == Times(b, Times(f, q) - 1.0)
  {
    hide Times;
    var g := f - 1.0;
    Distribute(g, t, Times(b, q));
    Distribute(b, q, 1.0);
    Distribute(b, Times(f, q), 1.0);
    // g * (b * q) == b * (f * q) - b * q
    Commute(g, Times(b, q));
    Associate(b, q, g);
    Distribute(q, f, 1.0);
    Units(q);
    Commute(q, f);
    Distribute(b, Times(f, q), q);
  }

  /** Capped or not, n delays take at least n times the base and at most n times the cap. */
  lemma {:induction false} TotalIsBounded(b: real, f: real, m: real, n: nat)
    requires ExponentialBackoff(b, f, m).Valid()
    ensures Times(b, n as real) <= TotalDelay(b, f, m, n) <= Times(m, n as real)
  {
    hide Times;
    if n == 0 {
      Units(b);
      Units(m);
    } else {
      TotalIsBounded(b, f, m, n - 1);
      ExponentialShape(b, f, m, n, n);
      var k := (n - 1) as real;
      assert n as real == k + 1.0;
      Distribute(b, k, 1.0);
      Distribute(m, k, 1.0);
      Units(b);
      Units(m);
    }
  }

  // ------------------------------------------------ bounds for the protocol

  /** The least delay the policy can return before retry number k. */
  function LeastDelay(p: Policy, k: int): real {
    match BaseDelay(p, k)
    case After(base) => Times(base, p.LowFactor())
    case _ => 0.0
  }

  /** The least total delay before retry number r. */
  function LeastTotal(p: Policy, r: int): real
    decreases if r > 0 then r else 0
  {
    if r <= 0 then 0.0 else LeastTotal(p, r - 1) + LeastDelay(p, r)
  }

  lemma DelayAtLeastLeast(p: Policy, k: int, draws: seq<real>)
    requires p.Valid() && Draws(p, draws) && NextDelay(p, k, draws).After?
    ensures 0.0 <= LeastDelay(p, k) <= NextDelay(p, k, draws).seconds
  {
    hide Times;
    JitterComposition(p, k, draws);
  }

  /** The bound is reached, when all draws are 0. */
  lemma LeastIsReached(p: Policy, k: int, draws: seq<real>)
    requires p.Valid() && |draws| == p.Depth() && BaseDelay(p, k).After?
    requires forall i :: 0 <= i < |draws| ==> draws[i] == 0.0
    ensures NextDelay(p, k, draws) == After(LeastDelay(p, k))
  {
    hide Times;
    JitterBoundsAreTight(p, k, draws, 0.0);
  }

  /** Without jitter the least total is the total: r fixed delays, or the sum of the delays of
      the exponential policy. */
  lemma {:induction false} LeastTotalIsTotal(d: real, b: real, f: real, m: real, r: nat)
    ensures LeastTotal(FixedDelay(d), r) == Times(d, r as real)
    ensures LeastTotal(ExponentialBackoff(b, f, m), r) == TotalDelay(b, f, m, r)
  {
    hide Times;
    if r == 0 {
      Units(d);
    } else {
      LeastTotalIsTotal(d, b, f, m, r - 1);
      Units(d);
      Units(ExpDelay(b, f, m, r));
      assert r as real == (r - 1) as real + 1.0;
      Distribute(d, (r - 1) as real, 1.0);
    }
  }
}
