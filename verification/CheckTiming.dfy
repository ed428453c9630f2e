/**
 The deadline computed for a policy that sets none is never what ends its check.
 */
module CheckTiming {
  import opened Outcomes
  import opened Policies
  import opened CheckLoop
  import opened CheckBudget

  /**
   A world in which nothing but the operations takes time: nobody cancels or pauses,
   deliveries are immediate, sleeps are exact, and every operation ends strictly
   within its own timeout, with any reply at all.
   */
  ghost predicate Calm(o: Oracle, operationTimeout: int) {
    && (forall k, n :: o(k, n).cancel.None? && !o(k, n).fault)
    && (forall n :: o(Waiting, n).advance == 0)
    && (forall n :: o(Delivering, n).advance == 0)
    && (forall n :: o(Sleeping, n).advance == 0)
    && (forall n :: o(Acquiring, n).advance < operationTimeout)
  }

  /** The longest one attempt and the delay after it can take. */
  function Unit(p: Policy, operationTimeout: int): int {
    operationTimeout - 1 + p.delay
  }

  lemma CalmInteractions(o: Oracle, c: Ctx, operationTimeout: int, d: nat)
    requires Calm(o, operationTimeout) && Coherent(c) && c.done.None?
    ensures Wait(o, c).1.None? && Wait(o, c).0.now == c.now && Wait(o, c).0.done.None? && Coherent(Wait(o, c).0)
    ensures Deliver(o, c).now == c.now && Deliver(o, c).done.None? && Coherent(Deliver(o, c))
    ensures c.now + d < c.limit ==>
      var (c', slept) := Sleep(o, c, d);
      slept && c'.now == c.now + d && c'.done.None? && Coherent(c')
  {
  }

  lemma CalmAcquisition(e: Env, s: State, repeat: nat, sample: nat, number: nat, eventual: Option<int>, operationTimeout: int)
    requires Calm(e.oracle, operationTimeout) && Coherent(s.c) && s.c.done.None?
    requires s.c.now + operationTimeout - 1 < s.c.limit
    ensures var r := Attempted(e, s, repeat, sample, number, eventual);
      && r.0.c.done.None? && Coherent(r.0.c)
      && r.0.c.now <= s.c.now + operationTimeout - 1
  {
    var r := e.oracle(Acquiring, s.c.next);
    var c := Elapse(s.c, r, r.advance);
    CalmInteractions(e.oracle, c, operationTimeout, 0);
    hide Evaluate, AttemptError, Acquire;
  }

  lemma {:induction false} TriesTime(e: Env, s: State, repeat: nat, sample: nat, number: nat, eventual: Option<int>, last: Outcome, operationTimeout: int)
    requires Runnable(e.policy) && Calm(e.oracle, operationTimeout) && Coherent(s.c) && s.c.done.None?
    requires operationTimeout >= 1 && 1 <= number <= e.policy.attempts
    requires s.c.now + (e.policy.attempts - number + 1) * Unit(e.policy, operationTimeout) < s.c.limit
    ensures var r := Tries(e, s, repeat, sample, number, eventual, last);
      && r.0.c.done.None? && Coherent(r.0.c)
      && r.0.c.now <= s.c.now + (e.policy.attempts - number + 1) * Unit(e.policy, operationTimeout)
      && (|r.0.log| == |s.log| ==> r.0.c.now == s.c.now)
    decreases e.policy.attempts - number
  {
    hide Wait, Sleep, Deliver, Elapse, Evaluate, AttemptError, Acquire, ContextOutcome;
    var u, left := Unit(e.policy, operationTimeout), e.policy.attempts - number;
    assert (left + 1) * u == left * u + u by { Distribute(u, left); }
    ProductNonNegative(left, u);
    CalmInteractions(e.oracle, s.c, operationTimeout, 0);
    var (c, refused) := Wait(e.oracle, s.c);
    if !(eventual.Some? && c.now >= eventual.value) {
      CalmAcquisition(e, s.(c := c), repeat, sample, number, eventual, operationTimeout);
      var (s1, outcome) := Attempted(e, s.(c := c), repeat, sample, number, eventual);
      if !Stops(outcome) && number < e.policy.attempts {
        CalmInteractions(e.oracle, s1.c, operationTimeout, e.policy.delay);
        var (c1, slept) := Sleep(e.oracle, s1.c, e.policy.delay);
        TriesTime(e, s1.(c := c1), repeat, sample, number + 1, eventual, outcome, operationTimeout);
      }
    }
  }

  /** The sleeping that can still follow from a point of the sampling loop. */
  function SleepLeft(p: Policy, deadline: int, stable: Option<int>, now: nat): int {
    TimeLeft(deadline, stable, now) + (if stable.Some? then 0 else p.stableFor)
  }

  lemma SleepStep(p: Policy, last: Outcome, live: bool, begin: nat, now: nat, deadline: int, stable: Option<int>)
    requires Runnable(p) && begin <= now
    ensures var d := Decide(p, last, live, now, deadline, stable);
      d.Again? ==> SleepLeft(p, deadline, d.stable, now + d.pause) + d.pause <= SleepLeft(p, deadline, stable, begin)
  {
  }

  lemma {:induction false} SamplesTime(e: Env, s: State, repeat: nat, sample: nat, deadline: int, stable: Option<int>, done: seq<Sample>, operationTimeout: int, perSample: int)
    requires Runnable(e.policy) && Calm(e.oracle, operationTimeout) && Coherent(s.c) && s.c.done.None?
    requires operationTimeout >= 1 && perSample == e.policy.attempts * Unit(e.policy, operationTimeout)
    requires perSample >= 0
    requires s.c.now + Allowance(e.policy, deadline, stable, s.c.now) * perSample
             + SleepLeft(e.policy, deadline, stable, s.c.now) < s.c.limit
    ensures var r := Samples(e, s, repeat, sample, deadline, stable, done);
      && r.s.c.done.None? && Coherent(r.s.c)
      && r.s.c.now <= s.c.now + Allowance(e.policy, deadline, stable, s.c.now) * perSample
                      + SleepLeft(e.policy, deadline, stable, s.c.now)
    decreases if stable.None? then 1 else 0, TimeLeft(deadline, stable, s.c.now)
  {
    hide Tries, Decide, Allowance, Sleep, ContextOutcome, SleepLeft, Unit;
    var p := e.policy;
    SleepLeftNonNegative(p, deadline, stable, s.c.now);
    var (s1, last) := Tries(e, s, repeat, sample, 1, EventualGuard(p, deadline, stable), Missing);
    var live := s1.c.done.None?;
    TurnCount(e, s, repeat, sample, deadline, stable);
    var now := s1.c.now;
    TurnTime(e, s, repeat, sample, deadline, stable, operationTimeout, perSample);
    var d := Decide(p, last, live, now, deadline, stable);
    if d.Again? {
      SleepStep(p, last, live, s.c.now, now, deadline, stable);
      var later := now + d.pause;
      AllowanceStep(p, last, live, s.c.now, now, deadline, stable, later);
      Spend(Allowance(p, deadline, stable, s.c.now), Allowance(p, deadline, d.stable, later), perSample);
      SleepLeftNonNegative(p, deadline, d.stable, later);
      CalmInteractions(e.oracle, s1.c, operationTimeout, d.pause);
      var (c, slept) := Sleep(e.oracle, s1.c, d.pause);
      var here := Sample(s.c.now, s1.log[|s.log|..], s1.c.now, last, live, 0);
      SamplesTime(e, s1.(c := c), repeat, sample + 1, deadline, d.stable, done + [here.(pause := d.pause)], operationTimeout, perSample);
    }
  }

  lemma SleepLeftNonNegative(p: Policy, deadline: int, stable: Option<int>, now: nat)
    requires Runnable(p)
    ensures SleepLeft(p, deadline, stable, now) >= 0
  {
  }

  lemma Spend(a: int, b: int, x: int)
    requires a >= b + 1 && b >= 0 && x >= 0
    ensures a * x >= b * x + x && b * x >= 0
  {
    ProductNonNegative(b, x);
    ProductNonNegative(a - b - 1, x);
    assert (a - b - 1) * x == a * x - b * x - x;
  }

  lemma TurnTime(e: Env, s: State, repeat: nat, sample: nat, deadline: int, stable: Option<int>, operationTimeout: int, perSample: int)
    requires Runnable(e.policy) && Calm(e.oracle, operationTimeout) && Coherent(s.c) && s.c.done.None?
    requires operationTimeout >= 1 && perSample == e.policy.attempts * Unit(e.policy, operationTimeout)
    requires perSample >= 0
    requires s.c.now + Allowance(e.policy, deadline, stable, s.c.now) * perSample
             + SleepLeft(e.policy, deadline, stable, s.c.now) < s.c.limit
    ensures
      var (s1, last) := Tries(e, s, repeat, sample, 1, EventualGuard(e.policy, deadline, stable), Missing);
      && s1.c.done.None? && Coherent(s1.c)
      && s1.c.now <= s.c.now + (if |s1.log| > |s.log| then perSample else 0)
      && s1.c.now <= s.c.now + Allowance(e.policy, deadline, stable, s.c.now) * perSample
  {
    hide Tries, Allowance, SleepLeft, Unit;
    SleepLeftNonNegative(e.policy, deadline, stable, s.c.now);
    TurnCount(e, s, repeat, sample, deadline, stable);
    var a := Allowance(e.policy, deadline, stable, s.c.now);
    if a >= 1 {
      Spend(a, a - 1, perSample);
      TriesTime(e, s, repeat, sample, 1, EventualGuard(e.policy, deadline, stable), Missing, operationTimeout);
    } else {
      NothingLeft(e, s, repeat, sample, deadline, stable, operationTimeout);
    }
  }

  /** With no allowance left the eventual deadline has passed, so nothing is acquired. */
  lemma NothingLeft(e: Env, s: State, repeat: nat, sample: nat, deadline: int, stable: Option<int>, operationTimeout: int)
    requires Runnable(e.policy) && Calm(e.oracle, operationTimeout) && Coherent(s.c) && s.c.done.None?
    requires Allowance(e.policy, deadline, stable, s.c.now) <= 0
    ensures
      var (s1, last) := Tries(e, s, repeat, sample, 1, EventualGuard(e.policy, deadline, stable), Missing);
      && s1.c.done.None? && Coherent(s1.c) && s1.c.now == s.c.now
      && Allowance(e.policy, deadline, stable, s.c.now) == 0
  {
    var left := TimeLeft(deadline, stable, s.c.now);
    CeilDivMonotone(left, 0, e.policy.interval);
    CeilDivMonotone(e.policy.stableFor, 0, e.policy.interval);
    if left > 0 {
      CeilDivStep(left, 0, e.policy.interval);
    }
    CalmInteractions(e.oracle, s.c, operationTimeout, 0);
    hide CeilDiv, Wait, Sleep, Attempted;
  }

  lemma {:induction false} RepeatsTime(e: Env, s: State, repeat: nat, outcome: Outcome, problem: bool, done: seq<Repeat>, operationTimeout: int, perSample: int, perRepeat: int)
    requires Runnable(e.policy) && Calm(e.oracle, operationTimeout) && Coherent(s.c) && s.c.done.None?
    requires operationTimeout >= 1 && perSample == e.policy.attempts * Unit(e.policy, operationTimeout)
    requires perSample >= 0
    requires perRepeat == SamplesPerRepeat(e.policy) * perSample + Window(e.policy)
    requires 1 <= repeat <= e.policy.repeat + 1
    requires s.c.now + (e.policy.repeat - repeat + 1) * perRepeat < s.c.limit
    ensures var r := Repeats(e, s, repeat, outcome, problem, done);
      && r.c.done.None? && r.c.now < s.c.limit
    decreases e.policy.repeat - repeat
  {
    hide Samples, Allowance, SamplesPerRepeat, Unit;
    if repeat <= e.policy.repeat {
      var s0 := s.(lastError := NoError);
      var deadline := s0.c.now + e.policy.eventually;
      AllowanceIsBudgeted(e.policy, s0.c.now);
      var a := Allowance(e.policy, deadline, None, s0.c.now);
      Distribute(perRepeat, e.policy.repeat - repeat);
      SamplesNonNegative(e.policy);
      ProductNonNegative(SamplesPerRepeat(e.policy), perSample);
      ProductNonNegative(perRepeat, e.policy.repeat - repeat);
      SamplesTime(e, s0, repeat, 1, deadline, None, [], operationTimeout, perSample);
      var end := Samples(e, s0, repeat, 1, deadline, None, []);
      var outcome' := Worsened(outcome, end.ending);
      if outcome' != Canceled && outcome' != Skip {
        var problem' := problem || (outcome' != Pass && end.s.lastError == Failure);
        RepeatsTime(e, end.s, repeat + 1, outcome', problem',
                    done + [Repeat(s.c.now, end.samples, end.ending)], operationTimeout, perSample, perRepeat);
      }
    }
  }

  lemma SamplesNonNegative(p: Policy)
    requires Runnable(p)
    ensures SamplesPerRepeat(p) >= 1
  {
    DivAtLeast(Window(p), p.interval, 0);
  }

  lemma DefaultIsEnough(a: int, r: int, n: int, unit: int, window: int)
    requires a >= 1 && r >= 1 && n >= 1 && unit >= 0
    ensures r * (n * (a * unit) + window) < a * r * n * (unit + 1) + r * window
  {
    assert r * (n * (a * unit) + window) == r * (n * (a * unit)) + r * window;
    assert r * (n * (a * unit)) == a * r * n * unit by {
      assert n * (a * unit) == (n * a) * unit;
      assert r * ((n * a) * unit) == (r * (n * a)) * unit;
      assert r * (n * a) == a * r * n by { Reassociate(r, n, a); Reassociate(r, a, n); }
    }
    assert a * r >= 1;
    assert a * r * n >= 1;
    Distribute(a * r * n, unit);
  }

  /**
   The default deadline is never the cause of a failure: when it was computed because the
   policy omits one, and the world is calm, the whole check ends before it and the policy
   context is never done.
   */
  lemma DefaultTimeoutSuffices(e: Env, now: nat, next: nat, operationTimeout: int)
    requires Normalized(e.policy) && operationTimeout >= 1
    requires e.policy.timeout == DefaultTimeout(e.policy, operationTimeout)
    requires Calm(e.oracle, operationTimeout)
    ensures var r := Check(e, now, next);
      r.c.done.None? && r.c.now < now + e.policy.timeout
  {
    hide Repeats, SamplesPerRepeat, Deliver;
    var p := e.policy;
    var r := e.oracle(Starting, next);
    var c := Ctx(now, next + 1, r.cancel, r.cancel, now + p.timeout, 0);
    CalmInteractions(e.oracle, c, operationTimeout, 0);
    assert Begin(e, now, next) == Deliver(e.oracle, c);
    var perSample := p.attempts * Unit(p, operationTimeout);
    var perRepeat := SamplesPerRepeat(p) * perSample + Window(p);
    SamplesNonNegative(p);
    ProductNonNegative(p.attempts, Unit(p, operationTimeout));
    DefaultIsEnough(p.attempts, p.repeat, SamplesPerRepeat(p), Unit(p, operationTimeout), Window(p));
    RepeatsTime(e, State(Begin(e, now, next), [], NoError), 1, Pass, false, [], operationTimeout, perSample, perRepeat);
  }
}
