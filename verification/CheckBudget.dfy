/**
 The sampling loop stays within the budget that the policy was accepted with, and
 the default deadline is never what ends it.
 */
module CheckBudget {
  import opened Outcomes
  import opened Policies
  import opened CheckLoop

  /** How many samples recorded at least one attempt. */
  function Recorded(samples: seq<Sample>): nat {
    if samples == [] then 0
    else Recorded(samples[..|samples| - 1]) + (if samples[|samples| - 1].attempts != [] then 1 else 0)
  }

  lemma {:induction false} RecordedAppend(samples: seq<Sample>, s: Sample)
    ensures Recorded(samples + [s]) == Recorded(samples) + (if s.attempts != [] then 1 else 0)
  {
    assert (samples + [s])[..|samples|] == samples;
  }

  function CeilDiv(x: int, d: int): int
    requires d >= 1
  {
    (x + d - 1) / d
  }

  lemma CeilDivStep(x: int, y: int, d: int)
    requires d >= 1 && x > 0 && 0 <= y && (y == 0 || y <= x - d)
    ensures CeilDiv(x, d) >= CeilDiv(y, d) + 1
    ensures CeilDiv(y, d) >= 0
  {
    if y == 0 {
      DivAtLeast(x + d - 1, d, 1);
      assert CeilDiv(0, d) == 0 by { DivBelow(d - 1, d); }
    } else {
      DivAtLeast(y + d - 1, d, 0);
      DivAtLeast(x + d - 1, d, (y + d - 1) / d + 1);
    }
  }

  lemma DivAtLeast(x: int, d: int, q: int)
    requires d >= 1
    ensures x >= q * d <==> x / d >= q
  {
    QuotientBound(x / d + 1, d, x);
    assert x == (x / d) * d + x % d;
    if x / d >= q {
      assert (x / d) * d >= q * d;
    } else {
      assert q * d >= (x / d + 1) * d;
    }
  }

  lemma DivBelow(x: int, d: int)
    requires 0 <= x < d
    ensures x / d == 0
  {
  }

  lemma CeilDivMonotone(x: int, y: int, d: int)
    requires d >= 1 && 0 <= y <= x
    ensures 0 <= CeilDiv(y, d) <= CeilDiv(x, d)
  {
    DivAtLeast(y + d - 1, d, 0);
    DivAtLeast(y + d - 1, d, CeilDiv(y, d));
    DivAtLeast(x + d - 1, d, CeilDiv(y, d));
  }

  /** The most recorded samples that can still follow from a point of the sampling loop. */
  function Allowance(p: Policy, deadline: int, stable: Option<int>, now: nat): int
    requires Runnable(p)
  {
    var left := CeilDiv(TimeLeft(deadline, stable, now), p.interval);
    if stable.Some? then 1 + left
    else if p.eventually > 0 then left + CeilDiv(p.stableFor, p.interval)
    else 1 + CeilDiv(p.stableFor, p.interval)
  }

  /** What an attempt loop that starts at its first attempt can record. */
  lemma {:induction false} TriesCount(e: Env, s: State, repeat: nat, sample: nat, number: nat, eventual: Option<int>, last: Outcome)
    requires Runnable(e.policy)
    requires 1 <= number <= e.policy.attempts
    ensures var r := Tries(e, s, repeat, sample, number, eventual, last);
      && |r.0.log| <= |s.log| + e.policy.attempts - number + 1
      && (eventual.Some? && |r.0.log| > |s.log| ==> s.c.now < eventual.value)
      && (number == 1 && |r.0.log| == |s.log| ==>
            r.0.c.done.Some? || (eventual.Some? && r.0.c.now >= eventual.value && r.1 == Fail))
    decreases e.policy.attempts - number
  {
    hide Elapse, Evaluate, AttemptError, Acquire, Deliver;
    var (c, refused) := Wait(e.oracle, s.c);
    if refused.Some? {
      WaitRefusal(e.oracle, s.c);
    } else if !(eventual.Some? && c.now >= eventual.value) {
      var (s1, outcome) := Attempted(e, s.(c := c), repeat, sample, number, eventual);
      if !Stops(outcome) && number < e.policy.attempts {
        var (c1, slept) := Sleep(e.oracle, s1.c, e.policy.delay);
        if slept {
          TriesCount(e, s1.(c := c1), repeat, sample, number + 1, eventual, outcome);
        }
      }
    }
  }

  lemma WaitRefusal(o: Oracle, c: Ctx)
    ensures Wait(o, c).1.Some? ==> Wait(o, c).0.done.Some?
  {
  }

  /** Every sample after which the loop goes on used up one unit of the allowance. */
  lemma AllowanceStep(p: Policy, last: Outcome, live: bool, begin: nat, now: nat, deadline: int, stable: Option<int>, later: nat)
    requires Runnable(p) && begin <= now
    requires stable.None? && p.eventually > 0 ==> begin < deadline
    requires var d := Decide(p, last, live, now, deadline, stable);
      d.Again? && later >= now + d.pause
    ensures var d := Decide(p, last, live, now, deadline, stable);
      && Allowance(p, deadline, stable, begin) >= Allowance(p, deadline, d.stable, later) + 1
    ensures Allowance(p, deadline, Decide(p, last, live, now, deadline, stable).stable, later) >= 0
  {
    var d := Decide(p, last, live, now, deadline, stable);
    CeilDivMonotone(p.stableFor, 0, p.interval);
    assert CeilDiv(0, p.interval) == 0 by { DivBelow(p.interval - 1, p.interval); }
    if stable.None? && d.stable.Some? {
      CeilDivStep(p.stableFor, TimeLeft(deadline, d.stable, later), p.interval);
      if p.eventually > 0 {
        CeilDivStep(TimeLeft(deadline, stable, begin), 0, p.interval);
      }
    } else {
      var x, y := TimeLeft(deadline, stable, begin), TimeLeft(deadline, d.stable, later);
      CeilDivStep(x, y, p.interval);
    }
  }

  /** One turn of the sampling loop, as the lemmas below see it. */
  lemma TurnCount(e: Env, s: State, repeat: nat, sample: nat, deadline: int, stable: Option<int>)
    requires Runnable(e.policy)
    ensures
      var (s1, last) := Tries(e, s, repeat, sample, 1, EventualGuard(e.policy, deadline, stable), Missing);
      var tried := s1.log[|s.log|..];
      var d := Decide(e.policy, last, s1.c.done.None?, s1.c.now, deadline, stable);
      && |tried| <= e.policy.attempts
      && s1.log == s.log + tried
      && (d.Again? ==> tried != [])
      && (tried != [] && stable.None? && e.policy.eventually > 0 ==> s.c.now < deadline)
      && Allowance(e.policy, deadline, stable, s.c.now) >= (if tried != [] then 1 else 0)
  {
    hide Tries, Decide, CeilDiv;
    TriesCount(e, s, repeat, sample, 1, EventualGuard(e.policy, deadline, stable), Missing);
    var (s1, last) := Tries(e, s, repeat, sample, 1, EventualGuard(e.policy, deadline, stable), Missing);
    var left := TimeLeft(deadline, stable, s.c.now);
    CeilDivMonotone(left, 0, e.policy.interval);
    CeilDivMonotone(e.policy.stableFor, 0, e.policy.interval);
    if left > 0 {
      CeilDivStep(left, 0, e.policy.interval);
    }
    CeilDivMonotone(0, 0, e.policy.interval);
  }

  lemma {:induction false} SamplesCount(e: Env, s: State, repeat: nat, sample: nat, deadline: int, stable: Option<int>, done: seq<Sample>)
    requires Runnable(e.policy)
    ensures
      var r := Samples(e, s, repeat, sample, deadline, stable, done);
      && Recorded(r.samples) - Recorded(done) <= Allowance(e.policy, deadline, stable, s.c.now)
      && Recorded(r.samples) >= Recorded(done)
      && |r.s.log| - |s.log| <= e.policy.attempts * (Recorded(r.samples) - Recorded(done))
    decreases if stable.None? then 1 else 0, TimeLeft(deadline, stable, s.c.now)
  {
    hide Tries, Decide, Allowance, Sleep, ContextOutcome, Recorded;
    var (s1, last) := Tries(e, s, repeat, sample, 1, EventualGuard(e.policy, deadline, stable), Missing);
    var live := s1.c.done.None?;
    var here := Sample(s.c.now, s1.log[|s.log|..], s1.c.now, last, live, 0);
    TurnCount(e, s, repeat, sample, deadline, stable);
    var d := Decide(e.policy, last, live, s1.c.now, deadline, stable);
    RecordedAppend(done, here);
    if d.Again? {
      var (c, slept) := Sleep(e.oracle, s1.c, d.pause);
      var done' := done + [here.(pause := d.pause)];
      RecordedAppend(done, here.(pause := d.pause));
      if slept {
        SamplesCount(e, s1.(c := c), repeat, sample + 1, deadline, d.stable, done');
        AllowanceStep(e.policy, last, live, s.c.now, s1.c.now, deadline, stable, c.now);
        var r := Samples(e, s1.(c := c), repeat, sample + 1, deadline, d.stable, done');
        Distribute(e.policy.attempts, Recorded(r.samples) - Recorded(done'));
      }
    }
  }

  lemma Distribute(a: int, n: int)
    ensures a * (n + 1) == a * n + a
  {
  }

  /** Rounding two windows up separately costs less than two further intervals. */
  lemma CeilSum(a: int, b: int, d: int)
    requires d >= 1 && a >= 0 && b >= 0
    ensures CeilDiv(a, d) + CeilDiv(b, d) <= (a + b) / d + 2
  {
    var m, n := CeilDiv(a, d), CeilDiv(b, d);
    assert (m + n - 2) * d == m * d + n * d - 2 * d;
    DivAtLeast(a + b, d, m + n - 2);
  }

  lemma CeilOver(b: int, d: int)
    requires d >= 1 && b >= 0
    ensures CeilDiv(b, d) <= b / d + 1
  {
    var n := CeilDiv(b, d);
    assert (n - 1) * d == n * d - d;
    DivAtLeast(b, d, n - 1);
  }

  lemma AllowanceIsBudgeted(p: Policy, now: nat)
    requires Runnable(p)
    ensures Allowance(p, now + p.eventually, None, now) <= SamplesPerRepeat(p)
  {
    CeilSum(p.eventually, p.stableFor, p.interval);
    CeilOver(p.stableFor, p.interval);
    if p.eventually == 0 && p.stableFor == 0 {
      DivBelow(p.interval - 1, p.interval);
    }
    hide CeilDiv;
  }

  /** All the samples and attempts of a repeat fit the budget its policy was accepted with. */
  ghost predicate WithinBudgets(p: Policy, repeats: seq<Repeat>)
    requires Runnable(p)
  {
    forall i :: 0 <= i < |repeats| ==> Recorded(repeats[i].samples) <= SamplesPerRepeat(p)
  }

  lemma {:induction false} RepeatsCount(e: Env, s: State, repeat: nat, outcome: Outcome, problem: bool, done: seq<Repeat>, perRepeat: int)
    requires Runnable(e.policy)
    requires 1 <= repeat <= e.policy.repeat + 1
    requires perRepeat == e.policy.attempts * SamplesPerRepeat(e.policy)
    requires WithinBudgets(e.policy, done) && |done| == repeat - 1
    ensures
      var r := Repeats(e, s, repeat, outcome, problem, done);
      && |r.log| <= |s.log| + perRepeat * (e.policy.repeat - repeat + 1)
      && WithinBudgets(e.policy, r.repeats)
      && |r.repeats| <= e.policy.repeat
    decreases e.policy.repeat - repeat
  {
    hide Samples, Recorded, SamplesPerRepeat;
    if repeat <= e.policy.repeat {
      var s0 := s.(lastError := NoError);
      var deadline := s0.c.now + e.policy.eventually;
      var end := Samples(e, s0, repeat, 1, deadline, None, []);
      SamplesCount(e, s0, repeat, 1, deadline, None, []);
      AllowanceIsBudgeted(e.policy, s0.c.now);
      assert Recorded([]) == 0 by { RecordedNone(); }
      RepeatAttempts(e.policy.attempts, Recorded(end.samples), SamplesPerRepeat(e.policy));
      Distribute(perRepeat, e.policy.repeat - repeat);
      var outcome' := Worsened(outcome, end.ending);
      var problem' := problem || (outcome' != Pass && end.s.lastError == Failure);
      var done' := done + [Repeat(s.c.now, end.samples, end.ending)];
      if outcome' == Canceled || outcome' == Skip {
        ProductNonNegative(perRepeat, e.policy.repeat - repeat);
      } else {
        RepeatsCount(e, end.s, repeat + 1, outcome', problem', done', perRepeat);
      }
    }
  }

  lemma RecordedNone()
    ensures Recorded([]) == 0
  {
  }

  lemma RepeatAttempts(a: int, n: int, m: int)
    requires a >= 0 && 0 <= n <= m
    ensures 0 <= a * n <= a * m
  {
  }

  lemma ProductNonNegative(a: int, b: int)
    requires a >= 0 && b >= 0
    ensures a * b >= 0
  {
  }

  /**
   The sampling loop respects its budget: whatever the world replies and however time
   passes, no repeat records more samples, and no check more attempts, than its policy
   was accepted for; so no check ever retains more than 200000 attempts.
   */
  lemma BudgetRespected(e: Env, now: nat, next: nat)
    requires Normalized(e.policy)
    ensures
      var r := Check(e, now, next);
      && |r.repeats| <= e.policy.repeat
      && WithinBudgets(e.policy, r.repeats)
      && |r.log| <= AttemptBudget(e.policy) <= 200_000
  {
    hide Repeats, Begin;
    var perRepeat := e.policy.attempts * SamplesPerRepeat(e.policy);
    RepeatsCount(e, State(Begin(e, now, next), [], NoError), 1, Pass, false, [], perRepeat);
    Reassociate(e.policy.attempts, SamplesPerRepeat(e.policy), e.policy.repeat);
  }

  lemma Reassociate(a: int, b: int, c: int)
    ensures a * b * c == a * c * b
  {
    assert a * b * c == a * (b * c) == a * (c * b) == a * c * b;
  }
}
