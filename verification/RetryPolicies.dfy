/**
 Bounded exponential backoff with proportional jitter, quantized to whole milliseconds.
 Durations are nanoseconds; float64 arithmetic is taken as exact.
 */
module RetryPolicies {
  import opened Base

  const MILLI: int := 1_000_000

  /** The largest sample below one that the generator's type can hold: 1 - 2^-53. */
  const LAST_SAMPLE: real := 1.0 - 1.0 / 9007199254740992.0

  /** math.MaxInt64 nanoseconds in whole milliseconds. */
  const MAX_DELAY_MILLIS: int := 9223372036854

  datatype Policy = Policy(base: int, max: int, multiplier: real, jitter: real)
  {
    predicate Valid() {
      && 0 < base && MILLI <= max && max % MILLI == 0 && base <= max && max / MILLI <= MAX_DELAY_MILLIS
      && 1.0 <= multiplier && 0.0 <= jitter <= 1.0
    }
  }

  function Power(x: real, n: nat): real {
    if n == 0 then 1.0 else x * Power(x, n - 1)
  }

  function Ceiling(x: real): (c: int)
    ensures x <= c as real < x + 1.0
  {
    -((-x).Floor)
  }

  // ------------------------------------------------------------ specification

  function Times(a: real, b: real): real {
    a * b
  }

  /** Base * Multiplier^(n-1), with n counted from one. */
  function Grown(p: Policy, n: nat): real
    requires 1 <= n
  {
    Times(p.base as real, Power(p.multiplier, n - 1))
  }

  /** min(Max, Base * Multiplier^(n-1)). */
  function Nominal(p: Policy, n: int): real
    requires p.Valid()
  {
    var grown := Grown(p, if n < 1 then 1 else n);
    if grown > p.max as real then p.max as real else grown
  }

  function Sampled(sample: real): real {
    if sample < 0.0 then 0.0 else if sample >= 1.0 then LAST_SAMPLE else sample
  }

  function Factor(p: Policy, sample: Option<real>): real {
    if sample.None? || p.jitter <= 0.0 then 1.0 else 1.0 + Times(p.jitter, 2.0 * Sampled(sample.value) - 1.0)
  }

  /** The unquantized delay: clamp(nominal * factor, 0, Max). */
  function Exact(p: Policy, n: int, sample: Option<real>): real
    requires p.Valid()
  {
    var scaled := Times(Nominal(p, n), Factor(p, sample));
    if scaled < 0.0 then 0.0 else if scaled > p.max as real then p.max as real else scaled
  }

  /** The smallest whole number of milliseconds that is not less. */
  function WholeMillis(nanos: real): int {
    if nanos <= 0.0 then 0 else Ceiling(nanos / MILLI as real) * MILLI
  }

  // ----------------------------------------------------------- implementation

  method CapMillis(max: int) returns (ms: int)
    ensures 1 <= ms <= MAX_DELAY_MILLIS
    ensures MILLI <= max && max / MILLI <= MAX_DELAY_MILLIS ==> ms == max / MILLI
  {
    if max <= 0 {
      return 1;
    }
    ms := max / MILLI;
    if ms < 1 {
      return 1;
    }
    if ms > MAX_DELAY_MILLIS {
      return MAX_DELAY_MILLIS;
    }
  }

  /** Rounds a positive delay up to a whole millisecond within the cap; zero stays zero. */
  method QuantizeNanos(nanos: real, max: int) returns (delay: int)
    requires MILLI <= max && max % MILLI == 0 && max / MILLI <= MAX_DELAY_MILLIS
    ensures delay % MILLI == 0 && 0 <= delay <= max
    ensures delay == 0 <==> nanos <= 0.0
    ensures 0.0 < nanos <= max as real ==> nanos <= delay as real < nanos + MILLI as real
    ensures delay == if max as real <= nanos then max else WholeMillis(nanos)
  {
    var cap := CapMillis(max);
    assert cap * MILLI == max;
    if nanos <= 0.0 {
      return 0;
    }
    var ms := Ceiling(nanos / MILLI as real);
    assert 0.0 < nanos / MILLI as real;
    if ms < 1 {
      ms := 1;
    }
    CeilingOfMillis(nanos, ms, cap);
    if ms >= cap {
      return cap * MILLI;
    }
    return ms * MILLI;
  }

  lemma CeilingOfMillis(nanos: real, ms: int, cap: int)
    requires 0.0 < nanos && ms == Ceiling(nanos / MILLI as real) && 1 <= cap
    ensures 1 <= ms
    ensures nanos <= (ms * MILLI) as real < nanos + MILLI as real
    ensures nanos <= (cap * MILLI) as real ==> ms <= cap
    ensures (cap * MILLI) as real <= nanos ==> cap <= ms
  {
    var x := nanos / MILLI as real;
    assert x * MILLI as real == nanos;
    assert (ms * MILLI) as real == ms as real * MILLI as real;
  }

  lemma MaxIsWhole(p: Policy)
    requires p.Valid()
    ensures WholeMillis(p.max as real) == p.max
  {
    CeilingOfMillis(p.max as real, Ceiling(p.max as real / MILLI as real), p.max / MILLI);
    assert p.max / MILLI * MILLI == p.max;
  }

  /** Scales a nominal delay by the jitter factor of a clamped sample. */
  method Jittered(p: Policy, nominal: real, sample: Option<real>) returns (scaled: real)
    ensures scaled == Times(nominal, Factor(p, sample))
  {
    var factor := 1.0;
    if sample.Some? && p.jitter > 0.0 {
      var s := sample.value;
      if s < 0.0 {
        s := 0.0;
      }
      if s >= 1.0 {
        s := LAST_SAMPLE;
      }
      factor := 1.0 + Times(p.jitter, 2.0 * s - 1.0);
    }
    scaled := Times(nominal, factor);
  }

  /** Computes the delay the way the code does: each local clamped before it is used. */
  method Delay(p: Policy, attemptNumber: int, sample: Option<real>) returns (delay: int)
    requires p.Valid()
    ensures delay % MILLI == 0 && 0 <= delay <= p.max
    ensures delay == WholeMillis(Exact(p, attemptNumber, sample))
    ensures delay == 0 <==> Exact(p, attemptNumber, sample) == 0.0
    ensures Exact(p, attemptNumber, sample) <= delay as real < Exact(p, attemptNumber, sample) + MILLI as real
  {
    var n := attemptNumber;
    if n < 1 {
      n := 1;
    }
    var nanos := Grown(p, n);
    if nanos > p.max as real {
      nanos := p.max as real;
    }
    nanos := Jittered(p, nanos, sample);
    if nanos < 0.0 {
      nanos := 0.0;
    }
    MaxIsWhole(p);
    delay := QuantizeNanos(nanos, p.max);
  }

  // -------------------------------------------------------- when it is zero

  lemma TimesMonotone(a: real, x: real, y: real)
    requires 0.0 <= a && x <= y
    ensures Times(a, x) <= Times(a, y)
    ensures 0.0 < a && x < y ==> Times(a, x) < Times(a, y)
  {
  }

  lemma {:induction false} PowerAtLeastOne(x: real, n: nat)
    requires 1.0 <= x
    ensures 1.0 <= Power(x, n)
  {
    if n > 0 {
      PowerAtLeastOne(x, n - 1);
      TimesMonotone(x, 1.0, Power(x, n - 1));
    }
  }

  lemma NominalIsPositive(p: Policy, n: int)
    requires p.Valid()
    ensures p.base as real <= Nominal(p, n) <= p.max as real
  {
    var k := if n < 1 then 1 else n;
    PowerAtLeastOne(p.multiplier, k - 1);
    TimesMonotone(p.base as real, 1.0, Power(p.multiplier, k - 1));
    assert Times(p.base as real, 1.0) == p.base as real;
  }

  lemma FactorBounds(p: Policy, sample: Option<real>)
    requires p.Valid()
    ensures 1.0 - p.jitter <= Factor(p, sample) <= 1.0 + p.jitter
    ensures Factor(p, sample) == 0.0 <==> p.jitter == 1.0 && sample.Some? && sample.value <= 0.0
  {
    if sample.Some? && p.jitter > 0.0 {
      SwingBounds(p.jitter, 2.0 * Sampled(sample.value) - 1.0);
    }
  }

  lemma SwingBounds(j: real, u: real)
    requires 0.0 < j <= 1.0 && -1.0 <= u < 1.0
    ensures -j <= Times(j, u) <= j
    ensures Times(j, u) == -1.0 <==> j == 1.0 && u == -1.0
  {
    TimesMonotone(j, -1.0, u);
    TimesMonotone(j, u, 1.0);
    assert Times(j, -1.0) == -j && Times(j, 1.0) == j;
    assert j == 1.0 ==> Times(j, u) == u;
  }

  /** A retry is immediate exactly when full jitter meets a sample at the bottom of its range. */
  lemma ZeroExactlyAtFullJitter(p: Policy, n: int, sample: Option<real>)
    requires p.Valid()
    ensures Exact(p, n, sample) == 0.0 <==> p.jitter == 1.0 && sample.Some? && sample.value <= 0.0
  {
    NominalIsPositive(p, n);
    FactorBounds(p, sample);
    TimesMonotone(Nominal(p, n), 0.0, Factor(p, sample));
    assert Times(Nominal(p, n), 0.0) == 0.0;
  }

  // ------------------------------------------------------- growth without jitter

  lemma {:induction false} PowerMonotone(x: real, m: nat, n: nat)
    requires 1.0 <= x && m <= n
    ensures Power(x, m) <= Power(x, n)
    decreases n
  {
    if m < n {
      PowerMonotone(x, m, n - 1);
      PowerAtLeastOne(x, n - 1);
      TimesMonotone(Power(x, n - 1), 1.0, x);
    }
  }

  lemma WholeMillisMonotone(x: real, y: real)
    requires x <= y
    ensures WholeMillis(x) <= WholeMillis(y)
  {
    if 0.0 < x {
      var i, k := Ceiling(x / MILLI as real), Ceiling(y / MILLI as real);
      assert x / MILLI as real <= y / MILLI as real;
      assert i <= k;
    } else if 0.0 < y {
      CeilingOfMillis(y, Ceiling(y / MILLI as real), 1);
    }
  }

  /** Without jitter a later attempt never waits less. */
  lemma BackoffIsMonotone(p: Policy, m: int, n: int)
    requires p.Valid() && m <= n
    ensures WholeMillis(Exact(p, m, None)) <= WholeMillis(Exact(p, n, None))
  {
    ExactIsMonotone(p, m, n);
    WholeMillisMonotone(Exact(p, m, None), Exact(p, n, None));
  }

  lemma ExactIsMonotone(p: Policy, m: int, n: int)
    requires p.Valid() && m <= n
    ensures Exact(p, m, None) <= Exact(p, n, None)
  {
    var i, k := if m < 1 then 1 else m, if n < 1 then 1 else n;
    PowerMonotone(p.multiplier, i - 1, k - 1);
    TimesMonotone(p.base as real, Power(p.multiplier, i - 1), Power(p.multiplier, k - 1));
    NominalIsPositive(p, m);
    NominalIsPositive(p, n);
    assert Times(Nominal(p, m), 1.0) == Nominal(p, m) && Times(Nominal(p, n), 1.0) == Nominal(p, n);
  }

  /** Bernoulli's inequality. */
  lemma {:induction false} PowerOutgrowsLine(x: real, n: nat)
    requires 0.0 <= x
    ensures 1.0 + Times(n as real, x) <= Power(1.0 + x, n)
  {
    if n > 0 {
      PowerOutgrowsLine(x, n - 1);
      var k := (n - 1) as real;
      TimesMonotone(1.0 + x, 1.0 + Times(k, x), Power(1.0 + x, n - 1));
      NextOnLine(k, x);
    }
  }

  lemma NextOnLine(k: real, x: real)
    requires 0.0 <= k && 0.0 <= x
    ensures 1.0 + Times(k + 1.0, x) <= Times(1.0 + x, 1.0 + Times(k, x))
  {
    var y := Times(k, x);
    TimesMonotone(k, 0.0, x);
    TimesMonotone(x, 0.0, y);
    assert Times(k + 1.0, x) == y + x;
    assert Times(1.0 + x, 1.0 + y) == 1.0 + x + y + Times(x, y);
  }

  lemma LineReaches(max: real, x: real, k: nat)
    requires 0.0 < x && max / x <= k as real
    ensures max <= Times(k as real, x)
  {
    TimesMonotone(x, max / x, k as real);
    assert Times(x, max / x) == max;
    assert Times(x, k as real) == Times(k as real, x);
  }

  lemma GrownReaches(p: Policy, n: nat)
    requires p.Valid() && 1.0 < p.multiplier && 1 <= n && p.max as real / (p.multiplier - 1.0) <= (n - 1) as real
    ensures p.max as real <= Grown(p, n)
  {
    var x := p.multiplier - 1.0;
    LineReaches(p.max as real, x, n - 1);
    PowerOutgrowsLine(x, n - 1);
    TimesMonotone(Power(p.multiplier, n - 1), 1.0, p.base as real);
    assert Times(Power(p.multiplier, n - 1), p.base as real) == Grown(p, n);
  }

  /** With a multiplier above one, every attempt from some number on waits exactly the maximum. */
  lemma BackoffReachesMax(p: Policy) returns (from: nat)
    requires p.Valid() && 1.0 < p.multiplier
    ensures forall n: nat :: from <= n ==> WholeMillis(Exact(p, n, None)) == p.max
  {
    var bound := p.max as real / (p.multiplier - 1.0);
    from := Ceiling(bound) + 1;
    forall n: nat | from <= n ensures WholeMillis(Exact(p, n, None)) == p.max {
      MaxIsWhole(p);
      GrownReaches(p, n);
      assert Times(Nominal(p, n), 1.0) == Nominal(p, n);
    }
  }

  // ------------------------------------------------------------ what it grows by

  function Least(a: real, b: real): real {
    if a <= b then a else b
  }

  /** The first attempt backs off by the base; each later one by the multiplier times the one before, up to the maximum. */
  lemma BackoffRecurs(p: Policy, n: int)
    requires p.Valid()
    ensures n <= 1 ==> Nominal(p, n) == p.base as real
    ensures 1 <= n ==> Nominal(p, n + 1) == Least(p.max as real, Times(Nominal(p, n), p.multiplier))
  {
    if n <= 1 {
      assert Power(p.multiplier, 0) == 1.0 && Times(p.base as real, 1.0) == p.base as real;
    }
    if 1 <= n {
      GrownRecurs(p, n);
      TimesMonotone(p.max as real, 1.0, p.multiplier);
      assert Times(p.max as real, 1.0) == p.max as real;
      if p.max as real < Grown(p, n) {
        TimesMonotone(p.multiplier, p.max as real, Grown(p, n));
        assert Times(p.multiplier, p.max as real) == Times(p.max as real, p.multiplier);
        assert Times(p.multiplier, Grown(p, n)) == Times(Grown(p, n), p.multiplier);
      }
    }
  }

  lemma GrownRecurs(p: Policy, n: nat)
    requires 1 <= n
    ensures Grown(p, n + 1) == Times(Grown(p, n), p.multiplier)
  {
    var b, q, m := p.base as real, Power(p.multiplier, n - 1), p.multiplier;
    assert Power(m, n) == m * q;
    assert b * (m * q) == (b * q) * m;
  }

  /** Jitter spreads the delay over nominal * (1 +- jitter) within the maximum, centred at the middle sample. */
  lemma JitterSpreads(p: Policy, n: int, sample: real)
    requires p.Valid() && 0.0 <= sample < 1.0
    ensures Times(Nominal(p, n), 1.0 - p.jitter) <= Exact(p, n, Some(sample))
    ensures Exact(p, n, Some(sample)) <= Least(p.max as real, Times(Nominal(p, n), 1.0 + p.jitter))
    ensures sample == 0.5 || p.jitter == 0.0 ==> Exact(p, n, Some(sample)) == Nominal(p, n) == Exact(p, n, None)
  {
    var nominal, factor := Nominal(p, n), Factor(p, Some(sample));
    NominalIsPositive(p, n);
    FactorBounds(p, Some(sample));
    TimesMonotone(nominal, 1.0 - p.jitter, factor);
    TimesMonotone(nominal, factor, 1.0 + p.jitter);
    TimesMonotone(nominal, 0.0, 1.0 - p.jitter);
    TimesMonotone(nominal, 1.0 - p.jitter, 1.0);
    assert Times(nominal, 0.0) == 0.0 && Times(nominal, 1.0) == nominal;
    if sample == 0.5 {
      assert Times(p.jitter, 0.0) == 0.0;
    }
  }

  /** A larger sample never shortens the delay. */
  lemma JitterIsMonotone(p: Policy, n: int, a: real, b: real)
    requires p.Valid() && 0.0 <= a <= b < 1.0
    ensures Exact(p, n, Some(a)) <= Exact(p, n, Some(b))
  {
    NominalIsPositive(p, n);
    TimesMonotone(p.jitter, 2.0 * a - 1.0, 2.0 * b - 1.0);
    TimesMonotone(Nominal(p, n), Factor(p, Some(a)), Factor(p, Some(b)));
  }
}
