/**
 Normalisation of a check policy (harness/runtime.go).  The program computes on
 int64 durations, uint32 counts and uint64 products, so every such operation is
 written here with its wrap-around.
 */
module Policies {

  const MAX_INT64: int := 0x7FFF_FFFF_FFFF_FFFF
  const MAX_UINT64: int := 0xFFFF_FFFF_FFFF_FFFF
  const MAX_RETAINED_ATTEMPTS: int := 200000
  const ONE_SECOND: int := 1000000000

  type int64 = x: int | -MAX_INT64 - 1 <= x <= MAX_INT64
  type uint64 = x: int | 0 <= x <= MAX_UINT64
  type uint32 = x: int | 0 <= x <= 0xFFFF_FFFF

  datatype Result<+T> = Ok(value: T) | Err

  function WrapInt64(x: int): (r: int64)
    ensures -MAX_INT64 - 1 <= x <= MAX_INT64 ==> r == x
  {
    (x + MAX_INT64 + 1) % (MAX_UINT64 + 1) - MAX_INT64 - 1
  }

  function WrapUint64(x: int): (r: uint64)
    ensures 0 <= x <= MAX_UINT64 ==> r == x
  {
    x % (MAX_UINT64 + 1)
  }

  datatype Policy = Policy(
    attempts: uint32, repeat: uint32,
    delay: int64, eventually: int64, stableFor: int64, interval: int64, timeout: int64)

  /** The policy with its omitted counts and interval filled in, before any budget is checked. */
  function Defaulted(p: Policy): Policy {
    p.(attempts := if p.attempts == 0 then 1 else p.attempts,
       repeat := if p.repeat == 0 then 1 else p.repeat,
       interval := if p.interval == 0 then ONE_SECOND else p.interval)
  }

  function Window(p: Policy): int {
    p.eventually + p.stableFor
  }

  /** How many samples one repeat may take, in unbounded arithmetic. */
  function SamplesPerRepeat(p: Policy): int
    requires p.interval > 0
  {
    if Window(p) > 0 then Window(p) / p.interval + 2 else 1
  }

  /** The largest number of attempts the policy can record. */
  function AttemptBudget(p: Policy): int
    requires p.interval > 0
  {
    p.attempts * p.repeat * SamplesPerRepeat(p)
  }

  /** The deadline given to a policy that sets none. */
  function DefaultTimeout(p: Policy, operationTimeout: int): int
    requires p.interval > 0
  {
    AttemptBudget(p) * (operationTimeout + p.delay) + p.repeat * Window(p)
  }

  predicate NonNegative(p: Policy) {
    p.delay >= 0 && p.eventually >= 0 && p.stableFor >= 0 && p.interval >= 0 && p.timeout >= 0
  }

  /** What a policy must meet to be accepted, stated over unbounded integers. */
  predicate Acceptable(p: Policy, operationTimeout: int64) {
    && NonNegative(p)
    && var q := Defaulted(p);
    && Window(q) <= MAX_INT64
    && AttemptBudget(q) <= MAX_RETAINED_ATTEMPTS
    && (q.timeout == 0 ==>
          && 0 < operationTimeout + q.delay <= MAX_INT64
          && DefaultTimeout(q, operationTimeout) <= MAX_INT64)
  }

  /** The part of a normalised policy that the loops themselves rely on. */
  predicate Runnable(p: Policy) {
    NonNegative(p) && p.attempts >= 1 && p.repeat >= 1 && p.interval >= 1 && p.timeout >= 1
  }

  /** What every policy of a compiled step satisfies. */
  predicate Normalized(p: Policy) {
    && Runnable(p)
    && Window(p) <= MAX_INT64
    && AttemptBudget(p) <= MAX_RETAINED_ATTEMPTS
  }

  lemma QuotientBound(a: int, b: int, m: int)
    requires b > 0
    ensures a > m / b <==> a * b > m
  {
    assert m == (m / b) * b + m % b;
    if a > m / b {
      assert a * b >= (m / b + 1) * b;
    } else {
      assert a * b <= (m / b) * b;
    }
  }

  lemma ProductMonotone(a: int, b: int, c: int)
    requires 0 <= a && 1 <= b <= c
    ensures a <= a * b <= a * c
  {
  }

  /**
   The deadline of a policy that sets none (runtime.go:270-295).  The two count
   checks that follow the window check can no longer fail: the attempt budget has
   already bounded both products.
   */
  method ComputeTimeout(p: Policy, operationTimeout: int64, window: int64, samples: uint64) returns (r: Result<int64>)
    requires p.attempts >= 1 && p.repeat >= 1 && p.interval >= 1 && p.delay >= 0
    requires window == Window(p) && window >= 0 && samples == SamplesPerRepeat(p) && samples >= 1
    requires AttemptBudget(p) <= MAX_RETAINED_ATTEMPTS
    ensures r.Ok? <==>
      && 0 < operationTimeout + p.delay <= MAX_INT64
      && DefaultTimeout(p, operationTimeout) <= MAX_INT64
    ensures r.Ok? ==> r.value == DefaultTimeout(p, operationTimeout) && r.value >= 1
  {
    var perAttempt: int64 := WrapInt64(operationTimeout + p.delay);
    if perAttempt <= 0 || perAttempt < operationTimeout {
      return Err;
    }
    var max: uint64 := MAX_INT64;
    ghost var count := p.attempts * p.repeat;
    ProductMonotone(p.attempts, 1, p.repeat);
    ProductMonotone(count, 1, samples);
    ghost var total := count * samples;
    ghost var work := total * perAttempt;
    ProductMonotone(perAttempt, 1, total);
    assert work >= perAttempt >= 1;
    ghost var sleeping := p.repeat * window;
    QuotientBound(window, p.repeat, max);
    if window > max / p.repeat {
      return Err;
    }
    var windows: uint64 := WrapUint64(window * p.repeat);
    assert windows == sleeping;
    var n: uint64 := p.attempts;
    QuotientBound(n, p.repeat, max);
    if n > max / p.repeat {
      assert false;
    }
    n := WrapUint64(n * p.repeat);
    QuotientBound(n, samples, max);
    if n > max / samples {
      assert false;
    }
    n := WrapUint64(n * samples);
    assert n == total;
    QuotientBound(n, perAttempt, max - windows);
    if n > (max - windows) / perAttempt {
      return Err;
    }
    r := Ok(WrapUint64(WrapUint64(n * perAttempt) + windows));
  }

  method CountSamples(p: Policy, window: int64) returns (samples: uint64)
    requires window == Window(p) && window >= 0 && p.interval >= 1
    ensures samples == SamplesPerRepeat(p) && samples >= 1
    ensures if window == 0 then samples == 1 else (samples - 2) * p.interval <= window < (samples - 1) * p.interval
  {
    samples := 1;
    if window > 0 {
      QuotientSmall(window, p.interval);
      QuotientFits(window, p.interval);
      samples := WrapUint64(samples + WrapUint64(window / p.interval) + 1);
    }
  }

  method WithinBudget(p: Policy, samples: uint64) returns (ok: bool)
    requires p.attempts >= 1 && p.repeat >= 1 && p.interval >= 1 && samples >= 1
    requires samples == SamplesPerRepeat(p)
    ensures ok <==> AttemptBudget(p) <= MAX_RETAINED_ATTEMPTS
  {
    ProductFits(p.attempts, p.repeat);
    BudgetCheck(p.attempts, p.repeat, samples);
    ok := !(p.attempts > MAX_RETAINED_ATTEMPTS / p.repeat
            || WrapUint64(p.attempts * p.repeat) > MAX_RETAINED_ATTEMPTS / samples);
  }

  method AllNonNegative(p: Policy) returns (ok: bool)
    ensures ok <==> NonNegative(p)
  {
    var durations := [p.delay, p.eventually, p.stableFor, p.interval, p.timeout];
    ok := true;
    for i := 0 to |durations|
      invariant ok <==> forall j :: 0 <= j < i ==> durations[j] >= 0
    {
      if durations[i] < 0 {
        ok := false;
      }
    }
    assert durations[0] == p.delay && durations[1] == p.eventually && durations[2] == p.stableFor
        && durations[3] == p.interval && durations[4] == p.timeout;
  }

  method NormalizePolicy(policy: Policy, operationTimeout: int64) returns (r: Result<Policy>)
    ensures r.Ok? <==> Acceptable(policy, operationTimeout)
    ensures r.Ok? ==>
      var q := Defaulted(policy);
      && r.value == q.(timeout := r.value.timeout)
      && r.value.timeout == (if q.timeout == 0 then DefaultTimeout(q, operationTimeout) else q.timeout)
      && Normalized(r.value)
  {
    var p := policy;
    if p.attempts == 0 {
      p := p.(attempts := 1);
    }
    if p.repeat == 0 {
      p := p.(repeat := 1);
    }
    var nonNegative := AllNonNegative(p);
    if !nonNegative {
      return Err;
    }
    if p.interval == 0 {
      p := p.(interval := ONE_SECOND);
    }
    assert p == Defaulted(policy);
    var window: int64 := WrapInt64(p.eventually + p.stableFor);
    if window < p.eventually {
      return Err;
    }
    var samples := CountSamples(p, window);
    var within := WithinBudget(p, samples);
    if !within {
      return Err;
    }
    if p.timeout == 0 {
      var timeout := ComputeTimeout(p, operationTimeout, window, samples);
      if timeout.Err? {
        return Err;
      }
      p := p.(timeout := timeout.value);
    }
    r := Ok(p);
  }

  /** The two divisions accept exactly the products within the budget. */
  lemma BudgetCheck(attempts: uint32, repeat: uint32, samples: uint64)
    requires attempts >= 1 && repeat >= 1 && samples >= 1
    ensures (attempts > MAX_RETAINED_ATTEMPTS / repeat || attempts * repeat > MAX_RETAINED_ATTEMPTS / samples)
            <==> attempts * repeat * samples > MAX_RETAINED_ATTEMPTS
  {
    QuotientBound(attempts, repeat, MAX_RETAINED_ATTEMPTS);
    QuotientBound(attempts * repeat, samples, MAX_RETAINED_ATTEMPTS);
    ProductMonotone(attempts * repeat, 1, samples);
  }

  lemma QuotientSmall(x: int, y: int)
    requires 0 <= x && y >= 1
    ensures 0 <= x / y <= x
  {
    ProductMonotone(x / y, 1, y);
    assert x == (x / y) * y + x % y;
  }

  lemma QuotientFits(x: int, y: int)
    requires 0 <= x && y >= 1
    ensures (x / y) * y <= x < (x / y + 1) * y
  {
    assert x == (x / y) * y + x % y;
    assert (x / y + 1) * y == (x / y) * y + y;
  }

  lemma ProductFits(a: uint32, b: uint32)
    ensures 0 <= a * b <= MAX_UINT64
  {
    if a > 0 && b > 0 {
      ProductMonotone(a, b, 0xFFFF_FFFF);
    }
  }
}
