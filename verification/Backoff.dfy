/**
 Reconnection backoff (impl/connection/core.ipp, impl/connection/reconnect.ipp), over the reals: the
 rounding of doubles is left aside and the jitter sample is any number.
 */
module Backoff {

  datatype Double = Finite(value: real) | NotANumber | Infinite(positive: bool)

  /** Delays are in milliseconds. */
  datatype Policy = Policy(immediateAttempts: int, initialDelay: int, maxDelay: int, backoffFactor: Double, jitterRatio: Double)

  predicate Sane(p: Policy) {
    0 <= p.immediateAttempts && 0 <= p.initialDelay <= p.maxDelay &&
    p.backoffFactor.Finite? && p.backoffFactor.value > 1.0 &&
    p.jitterRatio.Finite? && 0.0 <= p.jitterRatio.value <= 1.0
  }

  function AtLeastZero(x: int): int {
    if x < 0 then 0 else x
  }

  /** Repairs any policy, field by field, by as little as is needed; leaves a sane one alone. */
  function Sanitize(p: Policy): (r: Policy)
    ensures Sane(r) && (Sane(p) ==> r == p)
    ensures r.immediateAttempts in {p.immediateAttempts, 0} && r.immediateAttempts >= p.immediateAttempts
    ensures r.initialDelay in {p.initialDelay, 0} && r.initialDelay >= p.initialDelay
    ensures r.maxDelay in {p.maxDelay, r.initialDelay} && r.maxDelay >= p.maxDelay
    ensures r.backoffFactor == if p.backoffFactor.Finite? && p.backoffFactor.value > 1.0 then p.backoffFactor else Finite(2.0)
    ensures p.jitterRatio.Finite? && 0.0 <= p.jitterRatio.value <= 1.0 ==> r.jitterRatio == p.jitterRatio
    ensures r.jitterRatio == p.jitterRatio || r.jitterRatio == Finite(if p.jitterRatio.Finite? && p.jitterRatio.value > 0.0 then 1.0 else 0.0)
  {
    var initial := AtLeastZero(p.initialDelay);
    var max := AtLeastZero(p.maxDelay);
    Policy(
      AtLeastZero(p.immediateAttempts),
      initial,
      if max < initial then initial else max,
      if !p.backoffFactor.Finite? || p.backoffFactor.value <= 1.0 then Finite(2.0) else p.backoffFactor,
      if !p.jitterRatio.Finite? || p.jitterRatio.value < 0.0 then Finite(0.0)
      else if p.jitterRatio.value > 1.0 then Finite(1.0)
      else p.jitterRatio)
  }

  function Pow(b: real, n: nat): real {
    if n == 0 then 1.0 else b * Pow(b, n - 1)
  }

  function Clamp(x: real, lo: real, hi: real): real {
    if x < lo then lo else if hi < x then hi else x
  }

  /** `llround`, for numbers that are not negative. */
  function Round(x: real): int {
    (x + 0.5).Floor
  }

  function Exponential(p: Policy, index: nat): real
    requires Sane(p)
  {
    p.initialDelay as real * Pow(p.backoffFactor.value, index)
  }

  /** The delay before jitter. */
  function Base(p: Policy, index: nat): real
    requires Sane(p)
  {
    Clamp(Exponential(p, index), p.initialDelay as real, p.maxDelay as real)
  }

  function Jittered(p: Policy, base: real, unit: real): real
    requires Sane(p)
  {
    var ratio := p.jitterRatio.value;
    if base > 0.0 && ratio > 0.0 then
      Clamp(base * ((1.0 - ratio) + 2.0 * ratio * unit), p.initialDelay as real, p.maxDelay as real)
    else base
  }

  /** The wait before attempt `count`, with `unit` the jitter sample. */
  function Delay(p: Policy, count: nat, unit: real): int
    requires Sane(p)
  {
    if count < p.immediateAttempts then 0
    else AtLeastZero(Round(Jittered(p, Base(p, count - p.immediateAttempts), unit)))
  }

  // ----- bounds -----

  lemma RoundBetween(x: real, lo: int, hi: int)
    requires lo as real <= x <= hi as real
    ensures lo <= Round(x) <= hi
  {
  }

  /** Whatever the jitter, a delayed attempt waits between the initial and the maximal delay. */
  lemma DelayInBounds(raw: Policy, count: nat, unit: real)
    ensures
      var p := Sanitize(raw);
      if count < p.immediateAttempts then Delay(p, count, unit) == 0
      else p.initialDelay <= Delay(p, count, unit) <= p.maxDelay
  {
    var p := Sanitize(raw);
    hide Pow, Round, Sanitize;
    if count >= p.immediateAttempts {
      var x := Jittered(p, Base(p, count - p.immediateAttempts), unit);
      RoundBetween(x, p.initialDelay, p.maxDelay);
    }
  }

  /** `factor` times `delay`, up to `max`. */
  function Longer(factor: real, delay: real, max: real): real {
    if factor * delay < max then factor * delay else max
  }

  /** One step of the backoff: the first delay is the initial one, each next is longer by the factor, up to the maximum. */
  lemma BaseStep(p: Policy, index: nat)
    requires Sane(p)
    ensures Base(p, 0) == p.initialDelay as real
    ensures Base(p, index + 1) == Longer(p.backoffFactor.value, Base(p, index), p.maxDelay as real)
  {
    hide Exponential, Longer;
    ExponentialFacts(p, index);
    ClampStep(Exponential(p, index), p.backoffFactor.value, p.initialDelay as real, p.maxDelay as real);
  }

  lemma ExponentialFacts(p: Policy, index: nat)
    requires Sane(p)
    ensures Exponential(p, 0) == p.initialDelay as real <= Exponential(p, index)
    ensures Exponential(p, index + 1) == p.backoffFactor.value * Exponential(p, index)
  {
    ExponentialStep(p.initialDelay as real, p.backoffFactor.value, index);
    assert Pow(p.backoffFactor.value, 0) == 1.0;
    hide Pow;
  }

  lemma ExponentialStep(a: real, b: real, n: nat)
    requires a >= 0.0 && b > 1.0
    ensures a * Pow(b, n) >= a && a * Pow(b, n + 1) == b * (a * Pow(b, n))
  {
    var q := Pow(b, n);
    PowGrows(b, n);
    assert Pow(b, n + 1) == b * q;
    hide Pow;
    MulMono(a, 1.0, q);
    Reorder(a, b, q);
  }

  lemma Reorder(a: real, b: real, q: real)
    ensures a * (b * q) == b * (a * q)
  {
  }

  /** Clamping before or after the next step makes no difference at the top. */
  lemma ClampStep(e: real, b: real, lo: real, hi: real)
    requires 0.0 <= lo <= hi && lo <= e && b > 1.0
    ensures Clamp(b * e, lo, hi) == Longer(b, Clamp(e, lo, hi), hi)
  {
    MulMono(e, 1.0, b);
    MulMono(hi, 1.0, b);
  }

  /** Rounding moves the wait by at most half a millisecond; without jitter it is the rounded delay above. */
  lemma UnjitteredWait(p: Policy, index: nat, unit: real)
    requires Sane(p) && p.jitterRatio == Finite(0.0)
    ensures Base(p, index) - 0.5 <= Delay(p, p.immediateAttempts + index, unit) as real <= Base(p, index) + 0.5
  {
    hide Exponential;
  }

  // ----- jitter -----

  /** The delay before it is clamped: within the ratio of the base on either side. */
  predicate WithinRatio(p: Policy, base: real, x: real)
    requires Sane(p)
  {
    base - base * p.jitterRatio.value <= x < base + base * p.jitterRatio.value
  }

  function Bounded(p: Policy, x: real): real
    requires Sane(p)
  {
    Clamp(x, p.initialDelay as real, p.maxDelay as real)
  }

  lemma JitterSplit(base: real, ratio: real, unit: real)
    ensures base * ((1.0 - ratio) + 2.0 * ratio * unit) == base - base * ratio + (2.0 * (base * ratio)) * unit
  {
    assert base * (2.0 * ratio * unit) == (2.0 * (base * ratio)) * unit;
  }

  lemma PartOfWidth(width: real, unit: real) returns (part: real)
    requires width > 0.0 && 0.0 <= unit < 1.0
    ensures part == width * unit && 0.0 <= part && part < width
  {
    part := width * unit;
    assert width * (1.0 - unit) > 0.0;
  }

  lemma JitterPoint(base: real, width: real, unit: real, x: real)
    requires width > 0.0 && 0.0 <= unit < 1.0 && x == base - width + (2.0 * width) * unit
    ensures base - width <= x && x < base + width && (unit == 0.5 ==> x == base)
  {
    var part := PartOfWidth(2.0 * width, unit);
    assert x == base - width + part;
    assert x < base + width;
  }

  lemma Wide(base: real, ratio: real)
    requires base > 0.0 && ratio > 0.0
    ensures base * ratio > 0.0
  {
  }

  /** The wait before the attempt after `index` delayed ones is `x`, kept within the bounds and rounded. */
  predicate Waits(p: Policy, index: nat, unit: real, x: real)
    requires Sane(p)
  {
    var wait := Delay(p, p.immediateAttempts + index, unit) as real;
    Bounded(p, x) - 0.5 <= wait <= Bounded(p, x) + 0.5
  }

  lemma JitteredWait(p: Policy, index: nat, unit: real, x: real)
    requires Sane(p) && Jittered(p, Base(p, index), unit) == Bounded(p, x)
    ensures Waits(p, index, unit, x)
  {
    hide Base, Jittered;
  }

  /** With jitter on, every sample gives a wait in that range, then kept within the bounds; the middle sample changes nothing. */
  lemma JitterRange(p: Policy, index: nat, unit: real) returns (x: real)
    requires Sane(p) && p.jitterRatio.value > 0.0 && p.initialDelay > 0 && 0.0 <= unit < 1.0
    ensures WithinRatio(p, Base(p, index), x) && Waits(p, index, unit, x)
    ensures unit == 0.5 ==> x == Base(p, index)
  {
    hide Exponential, Waits;
    var base, ratio := Base(p, index), p.jitterRatio.value;
    x := base * ((1.0 - ratio) + 2.0 * ratio * unit);
    JitterSplit(base, ratio, unit);
    Wide(base, ratio);
    JitterPoint(base, base * ratio, unit, x);
    JitteredWait(p, index, unit, x);
  }

  lemma JitterSample(base: real, ratio: real, x: real) returns (unit: real)
    requires ratio > 0.0 && base > 0.0 && base - base * ratio <= x < base + base * ratio
    ensures 0.0 <= unit < 1.0 && base * ((1.0 - ratio) + 2.0 * ratio * unit) == x
  {
    var width := base * ratio;
    Wide(base, ratio);
    UnitInRange(x - base + width, 2.0 * width);
    unit := (x - base + width) / (2.0 * width);
    JitterSplit(base, ratio, unit);
  }

  /** Every wait in that range is the one some sample gives, so both ends are approached. */
  lemma JitterReaches(p: Policy, index: nat, x: real) returns (unit: real)
    requires Sane(p) && p.jitterRatio.value > 0.0 && p.initialDelay > 0 && WithinRatio(p, Base(p, index), x)
    ensures 0.0 <= unit < 1.0 && Waits(p, index, unit, x)
  {
    hide Exponential, Waits;
    unit := JitterSample(Base(p, index), p.jitterRatio.value, x);
    JitteredWait(p, index, unit, x);
  }

  lemma UnitInRange(y: real, width: real)
    requires 0.0 <= y < width
    ensures 0.0 <= y / width < 1.0 && width * (y / width) == y
  {
  }

  // ----- growth -----

  lemma MulMono(a: real, x: real, y: real)
    requires 0.0 <= a && x <= y
    ensures a * x <= a * y
  {
  }

  lemma {:induction false} PowGrows(b: real, n: nat)
    requires b > 1.0
    ensures 1.0 <= Pow(b, n) <= Pow(b, n + 1)
    decreases n
  {
    if n > 0 {
      PowGrows(b, n - 1);
    }
    assert Pow(b, n + 1) == b * Pow(b, n);
    MulMono(Pow(b, n), 1.0, b);
  }

  lemma RoundMono(x: real, y: real)
    requires x <= y
    ensures Round(x) <= Round(y)
  {
  }

  lemma BaseGrows(p: Policy, index: nat)
    requires Sane(p)
    ensures Base(p, index) <= Base(p, index + 1)
  {
    hide Exponential;
    ExponentialGrows(p, index);
  }

  lemma ExponentialGrows(p: Policy, index: nat)
    requires Sane(p)
    ensures Exponential(p, index) <= Exponential(p, index + 1)
  {
    ScaledGrows(p.initialDelay as real, p.backoffFactor.value, index);
  }

  lemma ScaledGrows(a: real, b: real, n: nat)
    requires a >= 0.0 && b > 1.0
    ensures a * Pow(b, n) <= a * Pow(b, n + 1)
  {
    hide Pow;
    PowGrows(b, n);
    MulMono(a, Pow(b, n), Pow(b, n + 1));
  }

  lemma {:induction false} UnjitteredGrows(p: Policy, count: nat, later: nat, unit: real)
    requires Sane(p) && p.jitterRatio == Finite(0.0) && count <= later
    ensures Delay(p, count, unit) <= Delay(p, later, unit)
    decreases later - count
  {
    if count < later {
      UnjitteredGrows(p, count, later - 1, unit);
      DelayStep(p, later - 1, unit);
      hide Delay;
    }
  }

  lemma DelayStep(p: Policy, count: nat, unit: real)
    requires Sane(p) && p.jitterRatio == Finite(0.0)
    ensures Delay(p, count, unit) <= Delay(p, count + 1, unit)
  {
    if count >= p.immediateAttempts {
      BaseGrows(p, count - p.immediateAttempts);
      RoundMono(Base(p, count - p.immediateAttempts), Base(p, count + 1 - p.immediateAttempts));
      hide Base, Round;
    }
  }

  // ----- reaching the maximum -----

  /** Powers outgrow any line. */
  lemma {:induction false} Bernoulli(b: real, n: nat)
    requires b > 1.0
    ensures Pow(b, n) >= 1.0 + n as real * (b - 1.0)
    decreases n
  {
    if n > 0 {
      Bernoulli(b, n - 1);
      PowGrows(b, n - 1);
      BernoulliStep(b, Pow(b, n - 1), (n - 1) as real * (b - 1.0));
      NextMultiple(n, b - 1.0);
    }
  }

  lemma NextMultiple(n: nat, d: real)
    requires n > 0
    ensures (n - 1) as real * d + d == n as real * d
  {
  }

  lemma BernoulliStep(b: real, q: real, line: real)
    requires b > 1.0 && q >= 1.0 && q >= 1.0 + line
    ensures b * q >= 1.0 + line + (b - 1.0)
  {
    var d := b - 1.0;
    MulMono(d, 1.0, q);
    assert d * 1.0 == d;
    assert b * q == q + d * q;
  }

  /** From attempt `from` on, the unjittered delay is the maximum. */
  ghost predicate SettlesAtMax(p: Policy, from: nat)
    requires Sane(p)
  {
    forall count: nat, unit: real :: count >= from ==> Delay(p, count, unit) == p.maxDelay
  }

  lemma EnoughAttempts(a: real, d: real, m: real) returns (n: nat)
    requires a > 0.0 && d > 0.0
    ensures a * (1.0 + n as real * d) >= m
  {
    var need := m / a / d;
    n := if need < 0.0 then 0 else need.Floor + 1;
    assert n as real >= need;
    MulMono(d, need, n as real);
    assert d * need == m / a;
    MulMono(a, m / a, 1.0 + n as real * d);
    assert a * (m / a) == m;
  }

  lemma BaseReachesMax(p: Policy) returns (n: nat)
    requires Sane(p) && p.initialDelay > 0
    ensures Base(p, n) == p.maxDelay as real
  {
    var a, b := p.initialDelay as real, p.backoffFactor.value;
    n := EnoughAttempts(a, b - 1.0, p.maxDelay as real);
    ExponentialBound(p, n);
    hide Exponential;
  }

  lemma ExponentialBound(p: Policy, n: nat)
    requires Sane(p) && p.initialDelay > 0
    requires p.initialDelay as real * (1.0 + n as real * (p.backoffFactor.value - 1.0)) >= p.maxDelay as real
    ensures Exponential(p, n) >= p.maxDelay as real
  {
    PowerBound(p.initialDelay as real, p.backoffFactor.value, n, p.maxDelay as real);
  }

  lemma PowerBound(a: real, b: real, n: nat, m: real)
    requires a > 0.0 && b > 1.0 && a * (1.0 + n as real * (b - 1.0)) >= m
    ensures a * Pow(b, n) >= m
  {
    Bernoulli(b, n);
    Scaled(a, 1.0 + n as real * (b - 1.0), Pow(b, n), m);
  }

  lemma Scaled(a: real, x: real, y: real, m: real)
    requires a > 0.0 && x <= y && a * x >= m
    ensures a * y >= m
  {
    MulMono(a, x, y);
  }

  lemma MaxStays(p: Policy, n: nat, later: nat)
    requires Sane(p) && Base(p, n) == p.maxDelay as real && n <= later
    ensures Base(p, later) == p.maxDelay as real
    decreases later - n
  {
    if n < later {
      MaxStays(p, n, later - 1);
      BaseGrows(p, later - 1);
      hide Pow;
    }
  }

  /**
   Without jitter the delay reaches its maximum after finitely many attempts and stays there, exactly
   if the initial delay is positive or there is nothing to reach.
   */
  lemma ReachesMaxIff(p: Policy)
    requires Sane(p) && p.jitterRatio == Finite(0.0)
    ensures (exists from: nat :: SettlesAtMax(p, from)) <==> p.initialDelay > 0 || p.maxDelay == 0
  {
    if p.initialDelay > 0 {
      var n := BaseReachesMax(p);
      assert SettlesAtMax(p, p.immediateAttempts + n) by {
        forall count: nat, unit: real | count >= p.immediateAttempts + n
          ensures Delay(p, count, unit) == p.maxDelay
        {
          MaxStays(p, n, count - p.immediateAttempts);
          hide Base;
        }
      }
    } else {
      forall count: nat, unit: real
        ensures Delay(p, count, unit) == 0
      {
        ZeroStaysZero(p, count, unit);
      }
      if p.maxDelay == 0 {
        assert SettlesAtMax(p, 0);
      } else {
        forall from: nat
          ensures !SettlesAtMax(p, from)
        {
          assert Delay(p, from, 0.0) == 0;
        }
      }
    }
  }

  lemma ZeroStaysZero(p: Policy, count: nat, unit: real)
    requires Sane(p) && p.initialDelay == 0
    ensures Delay(p, count, unit) == 0
  {
    if count >= p.immediateAttempts {
      var q := Pow(p.backoffFactor.value, count - p.immediateAttempts);
      assert 0.0 * q == 0.0;
    }
  }
}
