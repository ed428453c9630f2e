/**
 A check whose context ends while it is under way: it makes no further attempt but the one in
 flight, and does not pass.
 */
module Interruption {
  import opened Outcomes
  import opened Policies
  import opened CheckLoop

  /** The context has ended by the time of every interaction behind the m-th. */
  predicate Told(c: Ctx, m: nat) {
    c.next > m ==> c.done.Some?
  }

  /** All attempts but the last began before the m-th interaction, and that one right behind it at the latest. */
  predicate LastInFlight(log: seq<Attempt>, m: nat) {
    && (forall i :: 0 <= i < |log| - 1 ==> log[i].turn < m)
    && (log != [] ==> log[|log| - 1].turn <= m + 1)
  }

  predicate Interrupted(s: State, m: nat) {
    && Told(s.c, m) && LastInFlight(s.log, m)
    && forall i :: 0 <= i < |s.log| ==> s.log[i].turn + 2 <= s.c.next
  }

  /** Whatever interaction is the m-th, the context is canceled meanwhile. */
  ghost predicate CanceledAt(o: Oracle, m: nat) {
    forall x :: o(x, m).cancel.Some?
  }

  lemma ElapseTold(o: Oracle, x: Interaction, c: Ctx, d: nat, m: nat)
    requires CanceledAt(o, m) && Told(c, m)
    ensures Told(Elapse(c, o(x, c.next), d), m)
  {
    assert o(x, m).cancel.Some?;
  }

  lemma WaitTold(o: Oracle, c: Ctx, m: nat)
    requires CanceledAt(o, m) && Told(c, m)
    ensures Told(Wait(o, c).0, m)
    ensures Wait(o, c).1.None? ==> c.done.None? && Wait(o, c).0.next == c.next + 1
  {
    hide Elapse;
    if c.done.None? {
      ElapseTold(o, Waiting, c, o(Waiting, c.next).advance, m);
    }
  }

  lemma SleepTold(o: Oracle, c: Ctx, d: nat, m: nat)
    requires CanceledAt(o, m) && Told(c, m)
    ensures Told(Sleep(o, c, d).0, m)
  {
    hide Elapse;
    if c.done.None? && d != 0 {
      var r := o(Sleeping, c.next);
      ElapseTold(o, Sleeping, c, r.advance, m);
      ElapseTold(o, Sleeping, c, if r.advance > d then r.advance else d, m);
    }
  }

  /** An attempt that is made found its context alive before it waited on the controls. */
  lemma AttemptedOnce(e: Env, s: State, c: Ctx, repeat: nat, sample: nat, number: nat, eventual: Option<int>, m: nat)
    requires CanceledAt(e.oracle, m) && Interrupted(s, m) && s.c.done.None? && c.next == s.c.next + 1 && Told(c, m)
    ensures Interrupted(Attempted(e, s.(c := c), repeat, sample, number, eventual).0, m)
  {
    hide Elapse, Evaluate, AttemptError, Acquire;
    var r := e.oracle(Acquiring, c.next);
    var c1 := Elapse(c, r, r.advance);
    ElapseTold(e.oracle, Acquiring, c, r.advance, m);
    ElapseTold(e.oracle, Delivering, c1, e.oracle(Delivering, c1.next).advance, m);
    assert s.c.next <= m;
  }

  lemma {:induction false} TriesInterrupted(e: Env, s: State, repeat: nat, sample: nat, number: nat, eventual: Option<int>, last: Outcome, m: nat)
    requires e.policy.delay >= 0 && CanceledAt(e.oracle, m) && Interrupted(s, m)
    ensures Interrupted(Tries(e, s, repeat, sample, number, eventual, last).0, m)
    ensures s.c.done.Some? && number <= e.policy.attempts ==> Tries(e, s, repeat, sample, number, eventual, last).1 != Pass
    decreases e.policy.attempts - number
  {
    hide Wait, Sleep, Attempted;
    if number <= e.policy.attempts {
      WaitTold(e.oracle, s.c, m);
      var (c, refused) := Wait(e.oracle, s.c);
      if refused.None? && !(eventual.Some? && c.now >= eventual.value) {
        AttemptedOnce(e, s, c, repeat, sample, number, eventual, m);
        var (s1, outcome) := Attempted(e, s.(c := c), repeat, sample, number, eventual);
        if !Stops(outcome) && number < e.policy.attempts {
          SleepTold(e.oracle, s1.c, e.policy.delay, m);
          var (c1, slept) := Sleep(e.oracle, s1.c, e.policy.delay);
          if slept {
            TriesInterrupted(e, s1.(c := c1), repeat, sample, number + 1, eventual, outcome, m);
          }
        }
      }
    }
  }

  lemma {:induction false} SamplesInterrupted(e: Env, s: State, repeat: nat, sample: nat, deadline: int, stable: Option<int>, done: seq<Sample>, m: nat)
    requires Runnable(e.policy) && CanceledAt(e.oracle, m) && Interrupted(s, m)
    ensures var r := Samples(e, s, repeat, sample, deadline, stable, done);
      Interrupted(r.s, m) && (r.s.c.done.Some? ==> r.ending != Pass)
    decreases if stable.None? then 1 else 0, TimeLeft(deadline, stable, s.c.now)
  {
    hide Tries, Sleep, Interrupted;
    var eventual := EventualGuard(e.policy, deadline, stable);
    TriesInterrupted(e, s, repeat, sample, 1, eventual, Missing, m);
    var (s1, last) := Tries(e, s, repeat, sample, 1, eventual, Missing);
    var live := s1.c.done.None?;
    var here := Sample(s.c.now, s1.log[|s.log|..], s1.c.now, last, live, 0);
    match Decide(e.policy, last, live, s1.c.now, deadline, stable)
    case Stop(ending) =>
    case Again(pause, stable') =>
      SleepInterrupted(e, s1, pause, m);
      var (c, slept) := Sleep(e.oracle, s1.c, pause);
      if slept {
        SamplesInterrupted(e, s1.(c := c), repeat, sample + 1, deadline, stable', done + [here.(pause := pause)], m);
      }
  }

  lemma SleepInterrupted(e: Env, s: State, d: nat, m: nat)
    requires CanceledAt(e.oracle, m) && Interrupted(s, m)
    ensures Interrupted(s.(c := Sleep(e.oracle, s.c, d).0), m)
  {
    hide Sleep;
    SleepTold(e.oracle, s.c, d, m);
  }

  lemma {:induction false} RepeatsInterrupted(e: Env, s: State, repeat: nat, outcome: Outcome, problem: bool, done: seq<Repeat>, m: nat)
    requires Runnable(e.policy) && CanceledAt(e.oracle, m) && Interrupted(s, m)
    requires s.c.done.Some? && repeat > e.policy.repeat ==> outcome != Pass
    ensures var r := Repeats(e, s, repeat, outcome, problem, done);
      LastInFlight(r.log, m) && Told(r.c, m) && (r.c.done.Some? ==> r.outcome != Pass)
    decreases e.policy.repeat - repeat
  {
    hide Samples;
    if repeat <= e.policy.repeat {
      var s0 := s.(lastError := NoError);
      var deadline := s.c.now + e.policy.eventually;
      SamplesInterrupted(e, s0, repeat, 1, deadline, None, [], m);
      var end := Samples(e, s0, repeat, 1, deadline, None, []);
      var outcome' := Worsened(outcome, end.ending);
      if outcome' != Canceled && outcome' != Skip {
        RepeatsInterrupted(
          e, end.s, repeat + 1, outcome', problem || (outcome' != Pass && end.s.lastError == Failure),
          done + [Repeat(s.c.now, end.samples, end.ending)], m);
      }
    }
  }

  /**
   A check whose context is canceled during its m-th interaction, whichever that is, does not
   pass; and all its attempts but the last began before.
   */
  lemma InterruptedCheck(e: Env, now: nat, next: nat, m: nat)
    requires Runnable(e.policy) && CanceledAt(e.oracle, m) && next <= m
    ensures var r := Check(e, now, next);
      LastInFlight(r.log, m) && (m < r.c.next ==> r.outcome != Pass)
  {
    hide Repeats, Elapse;
    var r := e.oracle(Starting, next);
    var c := Ctx(now, next + 1, r.cancel, r.cancel, now + e.policy.timeout, 0);
    assert Told(c, m);
    ElapseTold(e.oracle, Delivering, c, e.oracle(Delivering, c.next).advance, m);
    var s := State(Begin(e, now, next), [], NoError);
    RepeatsInterrupted(e, s, 1, Pass, false, [], m);
  }
}
