/**
 What the numbers of a policy mean: how many samples its window has room for, what its budget
 counts and its timeout adds up, and that there are worlds in which checks use the budget up.
 */
module PolicyLaws {
  import opened Outcomes
  import opened Policies
  import opened CheckLoop
  import opened Realization

  // ---------------------------------------------------------------- numbers

  /**
   With a window a repeat has room for n samples, one at the start of each full interval, one for
   what is left of the window, and a final one; without a window for one.
   */
  lemma SamplesFitWindow(p: Policy)
    requires p.interval > 0 && Window(p) >= 0
    ensures var n := SamplesPerRepeat(p);
      if Window(p) == 0 then n == 1 else n >= 2 && (n - 2) * p.interval <= Window(p) < (n - 1) * p.interval
  {
    var q := Window(p) / p.interval;
    if Window(p) > 0 {
      QuotientSmall(Window(p), p.interval);
      assert Window(p) == q * p.interval + Window(p) % p.interval;
      assert (q + 1) * p.interval == q * p.interval + p.interval;
    }
  }

  /** n copies of x, added up one by one. */
  function Copies(n: nat, x: int): (sum: int)
    ensures x >= 0 ==> sum >= 0
  {
    if n == 0 then 0 else Copies(n - 1, x) + x
  }

  lemma {:induction false} CopiesMultiply(n: nat, x: int)
    ensures Copies(n, x) == n * x
  {
    if n > 0 {
      CopiesMultiply(n - 1, x);
      assert (n - 1) * x + x == n * x;
    }
  }

  /** The budget counts an attempt for each sample of each repeat; the timeout adds up an operation and a delay for each attempt, and a window for each repeat. */
  lemma NumbersAddUp(p: Policy, operationTimeout: int)
    requires p.interval > 0 && Window(p) >= 0
    ensures var n := SamplesPerRepeat(p);
      && n >= 1
      && AttemptBudget(p) == Copies(p.repeat, Copies(n, p.attempts))
      && DefaultTimeout(p, operationTimeout) ==
           Copies(p.repeat, Window(p) + Copies(n, Copies(p.attempts, operationTimeout + p.delay)))
  {
    SamplesFitWindow(p);
    var n, x := SamplesPerRepeat(p), operationTimeout + p.delay;
    CopiesMultiply(p.attempts, x);
    CopiesMultiply(n, p.attempts);
    CopiesMultiply(n, p.attempts * x);
    CopiesMultiply(p.repeat, n * p.attempts);
    CopiesMultiply(p.repeat, Window(p) + n * (p.attempts * x));
    Reordered(p.repeat, n, p.attempts, x, Window(p));
  }

  lemma Reordered(r: int, n: int, a: int, x: int, w: int)
    ensures r * (n * a) == a * r * n
    ensures r * (w + n * (a * x)) == a * r * n * x + r * w
  {
    assert r * (n * a) == a * r * n;
    assert n * (a * x) == (n * a) * x;
    assert r * (w + n * (a * x)) == r * w + r * ((n * a) * x);
    assert r * ((n * a) * x) == (r * (n * a)) * x;
  }

  /** What is left out of a policy: one attempt, one repeat, and samples one second apart; the rest is as it was given. */
  lemma OmittedFields(p: Policy)
    ensures Defaulted(Policy(0, 0, 0, 0, 0, 0, 0)) == Policy(1, 1, 0, 0, 0, 1_000_000_000, 0)
    ensures var d, e := Defaulted(p), Defaulted(Policy(0, 0, 0, 0, 0, 0, 0));
      d == p.(attempts := if p.attempts == 0 then e.attempts else p.attempts,
              repeat := if p.repeat == 0 then e.repeat else p.repeat,
              interval := if p.interval == 0 then e.interval else p.interval)
  {
  }

  // ---------------------------------------------------------------- a check that uses its budget up

  /** A policy whose window leaves a nanosecond over behind a intervals of waiting and behind b of stability. */
  predicate Uneven(p: Policy, a: nat, b: nat) {
    && Normalized(p) && p.attempts == 1 && p.interval >= 3
    && p.eventually == a * p.interval + 1 && p.stableFor == b * p.interval + 1
    && p.timeout > p.repeat * Window(p)
  }

  /** The interactions of one repeat: a wait, an acquisition and a delivery for each of a + b + 2 samples, and a sleep between them. */
  function TurnsOf(a: nat, b: nat): nat {
    4 * (a + b + 2) - 1
  }

  /** From interaction `from` on the first a samples fail and those behind pass, all at once. */
  ghost predicate Recovers(o: Oracle, from: nat, a: nat, b: nat) {
    forall x, n :: from <= n < from + TurnsOf(a, b) ==> o(x, n) == ReplyFor(if n < from + 4 * a then Fail else Pass, {})
  }

  predicate Calm(c: Ctx) {
    c.cause.None? && c.done.None?
  }

  lemma QuickAttempt(e: Env, s: State, repeat: nat, sample: nat, eventual: Option<int>, o: Outcome)
    requires Once1(e.policy) && Calm(s.c) && s.c.now < s.c.limit && (o == Pass || o == Fail)
    requires eventual.Some? ==> s.c.now < eventual.value
    requires forall x, n :: s.c.next <= n < s.c.next + 3 ==> e.oracle(x, n) == ReplyFor(o, {})
    ensures var r := Tries(e, s, repeat, sample, 1, eventual, Missing);
      r.1 == o && |r.0.log| == |s.log| + 1 && r.0.c == s.c.(next := s.c.next + 3)
  {
    hide Evaluate, Acquire;
    AnswerEvaluates(o, {});
    var c := s.c.(next := s.c.next + 1);
    assert Wait(e.oracle, s.c) == (c, None);
  }

  predicate Once1(p: Policy) {
    Runnable(p) && p.attempts == 1
  }

  lemma QuickSleep(o: Oracle, c: Ctx, d: nat)
    requires Calm(c) && d > 0 && c.now + d < c.limit
    requires forall x :: o(x, c.next) == ReplyFor(Pass, {}) || o(x, c.next) == ReplyFor(Fail, {})
    ensures Sleep(o, c, d) == (c.(now := c.now + d, next := c.next + 1), true)
  {
    assert o(Sleeping, c.next) == ReplyFor(Pass, {}) || o(Sleeping, c.next) == ReplyFor(Fail, {});
  }

  /** When sample i is taken: at every interval, and the last one a nanosecond behind the one before. */
  function Instant(p: Policy, a: nat, b: nat, begin: nat, i: nat): nat
    requires p.interval >= 0
  {
    if i <= a + b then begin + i * p.interval else begin + (a + b) * p.interval + 1
  }

  function StableAt(p: Policy, a: nat, b: nat, begin: nat, i: nat): Option<int> {
    if i <= a then None else Some(begin + (a + b) * p.interval + 1)
  }

  lemma Multiples(x: nat, i: nat, n: nat)
    requires i < n
    ensures i * x + x == (i + 1) * x <= n * x && n * x - i * x >= x
  {
    assert (n - i - 1) * x >= 0;
    assert n * x == (n - i - 1) * x + (i + 1) * x;
  }

  lemma Distributes(a: nat, b: nat, x: nat)
    ensures a * x + b * x == (a + b) * x
  {
  }

  /** What the loop decides after sample i of the repeat. */
  lemma TurnDecision(p: Policy, a: nat, b: nat, begin: nat, i: nat)
    requires Uneven(p, a, b) && i <= a + b + 1
    ensures var d := Decide(p, if i < a then Fail else Pass, true, Instant(p, a, b, begin, i), begin + p.eventually, StableAt(p, a, b, begin, i));
      if i == a + b + 1 then d == Stop(Pass)
      else d == Again(Instant(p, a, b, begin, i + 1) - Instant(p, a, b, begin, i), StableAt(p, a, b, begin, i + 1))
    ensures i <= a ==> Instant(p, a, b, begin, i) < begin + p.eventually
  {
    var x := p.interval;
    Distributes(a, b, x);
    if i < a {
      Multiples(x, i, a);
    } else if i < a + b {
      Multiples(x, i, a + b);
      if i > a {
        Multiples(x, a, i);
      }
    }
  }

  lemma {:induction false} SamplesRecover(
      e: Env, s: State, repeat: nat, a: nat, b: nat, begin: nat, from: nat, i: nat, done: seq<Sample>)
    requires Uneven(e.policy, a, b) && Recovers(e.oracle, from, a, b) && i <= a + b + 1 && |done| == i
    requires Calm(s.c) && s.c.now == Instant(e.policy, a, b, begin, i) && s.c.next == from + 4 * i
    requires s.c.limit > Instant(e.policy, a, b, begin, a + b + 1)
    ensures var r := Samples(e, s, repeat, i + 1, begin + e.policy.eventually, StableAt(e.policy, a, b, begin, i), done);
      && r.ending == Pass && |r.samples| == a + b + 2
      && |r.s.log| == |s.log| + (a + b + 2 - i)
      && r.s.c == s.c.(now := Instant(e.policy, a, b, begin, a + b + 1), next := from + TurnsOf(a, b))
    decreases a + b + 2 - i
  {
    hide Tries, Decide, Sleep, Instant, Recovers;
    var p := e.policy;
    var deadline, stable := begin + p.eventually, StableAt(p, a, b, begin, i);
    var o := if i < a then Fail else Pass;
    TurnDecision(p, a, b, begin, i);
    InstantsGrow(p, a, b, begin, i);
    RepliesOf(e.oracle, from, a, b, i);
    QuickAttempt(e, s, repeat, i + 1, EventualGuard(p, deadline, stable), o);
    var s1 := Tries(e, s, repeat, i + 1, 1, EventualGuard(p, deadline, stable), Missing).0;
    var here := Sample(s.c.now, s1.log[|s.log|..], s1.c.now, o, true, 0);
    if i <= a + b {
      var pause := Instant(p, a, b, begin, i + 1) - Instant(p, a, b, begin, i);
      QuickSleep(e.oracle, s1.c, pause);
      SamplesRecover(e, s1.(c := Sleep(e.oracle, s1.c, pause).0), repeat, a, b, begin, from, i + 1, done + [here.(pause := pause)]);
    }
  }

  lemma InstantsGrow(p: Policy, a: nat, b: nat, begin: nat, i: nat)
    requires Uneven(p, a, b) && i <= a + b + 1
    ensures Instant(p, a, b, begin, i) <= Instant(p, a, b, begin, a + b + 1)
    ensures i <= a + b ==> Instant(p, a, b, begin, i) < Instant(p, a, b, begin, i + 1) <= Instant(p, a, b, begin, a + b + 1)
  {
    if i < a + b {
      Multiples(p.interval, i, a + b);
    }
  }

  lemma RepliesOf(o: Oracle, from: nat, a: nat, b: nat, i: nat)
    requires Recovers(o, from, a, b) && i <= a + b + 1
    ensures forall x, n :: from + 4 * i <= n < from + 4 * i + 3 ==> o(x, n) == ReplyFor(if i < a then Fail else Pass, {})
    ensures i <= a + b ==> forall x, n :: n == from + 4 * i + 3 ==> o(x, n) == ReplyFor(if i < a then Fail else Pass, {})
  {
  }

  ghost predicate AllRecover(o: Oracle, from: nat, a: nat, b: nat, repeats: nat) {
    forall r :: 0 <= r < repeats ==> Recovers(o, from + Copies(r, TurnsOf(a, b)), a, b)
  }

  lemma {:induction false} RepeatsRecover(
      e: Env, s: State, repeat: nat, a: nat, b: nat, now: nat, from: nat, problem: bool, done: seq<Repeat>)
    requires Uneven(e.policy, a, b) && Runnable(e.policy) && 1 <= repeat <= e.policy.repeat + 1 && |done| == repeat - 1
    requires AllRecover(e.oracle, from, a, b, e.policy.repeat)
    requires Calm(s.c) && s.c.now == now + Copies(repeat - 1, Window(e.policy) - 1) && s.c.next == from + Copies(repeat - 1, TurnsOf(a, b))
    requires s.c.limit > now + Copies(e.policy.repeat, Window(e.policy))
    requires forall i :: 0 <= i < |done| ==> |done[i].samples| == a + b + 2
    ensures var r := Repeats(e, s, repeat, Pass, problem, done);
      && r.outcome == Pass && |r.repeats| == e.policy.repeat && r.problem == problem
      && |r.log| == |s.log| + Copies(e.policy.repeat + 1 - repeat, a + b + 2)
      && forall i :: 0 <= i < |r.repeats| ==> |r.repeats[i].samples| == a + b + 2
    decreases e.policy.repeat + 1 - repeat
  {
    hide Samples, Uneven, Recovers, Window, Copies, TurnsOf;
    if repeat > e.policy.repeat {
      assert Copies(0, a + b + 2) == 0 by { CopiesMultiply(0, a + b + 2); }
    } else {
      var s0 := s.(lastError := NoError);
      var end := Samples(e, s0, repeat, 1, s.c.now + e.policy.eventually, None, []);
      OneRepeat(e, s0, repeat, a, b, now, from);
      NextCopy(repeat - 1, Window(e.policy) - 1);
      NextCopy(repeat - 1, TurnsOf(a, b));
      NextCopy(e.policy.repeat - repeat, a + b + 2);
      RepeatsRecover(e, end.s, repeat + 1, a, b, now, from, problem, done + [Repeat(s.c.now, end.samples, end.ending)]);
    }
  }

  lemma NextCopy(n: nat, x: int)
    ensures Copies(n + 1, x) == Copies(n, x) + x
  {
  }

  lemma OneRepeat(e: Env, s: State, repeat: nat, a: nat, b: nat, now: nat, from: nat)
    requires Uneven(e.policy, a, b) && 1 <= repeat <= e.policy.repeat
    requires AllRecover(e.oracle, from, a, b, e.policy.repeat)
    requires Calm(s.c) && s.c.now == now + Copies(repeat - 1, Window(e.policy) - 1) && s.c.next == from + Copies(repeat - 1, TurnsOf(a, b))
    requires s.c.limit > now + Copies(e.policy.repeat, Window(e.policy))
    ensures var r := Samples(e, s, repeat, 1, s.c.now + e.policy.eventually, None, []);
      && r.ending == Pass && |r.samples| == a + b + 2 && |r.s.log| == |s.log| + (a + b + 2)
      && r.s.c == s.c.(now := s.c.now + Window(e.policy) - 1, next := s.c.next + TurnsOf(a, b))
  {
    hide Samples, Recovers;
    var p := e.policy;
    Distributes(a, b, p.interval);
    TimeEnough(repeat, p.repeat, Window(p));
    assert Recovers(e.oracle, from + Copies(repeat - 1, TurnsOf(a, b)), a, b);
    assert Instant(p, a, b, s.c.now, a + b + 1) == s.c.now + Window(p) - 1;
    assert Instant(p, a, b, s.c.now, 0) == s.c.now;
    SamplesRecover(e, s, repeat, a, b, s.c.now, s.c.next, 0, []);
  }

  lemma TimeEnough(repeat: nat, repeats: nat, window: int)
    requires 1 <= repeat <= repeats && window >= 1
    ensures Copies(repeat - 1, window - 1) + window - 1 <= Copies(repeats, window)
  {
    CopiesMultiply(repeat - 1, window - 1);
    CopiesMultiply(repeats, window);
    assert (repeat - 1) * (window - 1) + (window - 1) == repeat * (window - 1);
    assert repeat * (window - 1) == repeat * window - repeat;
    assert (repeats - repeat) * window >= 0;
    assert repeats * window == repeat * window + (repeats - repeat) * window;
  }

  lemma Remainder(r: nat, t: nat, j: nat)
    requires j < t
    ensures (r * t + j) % t == j
  {
    var n := r * t + j;
    var q, m := n / t, n % t;
    assert n == q * t + m;
    assert (q - r) * t == j - m && (r - q) * t == m - j;
    if q > r {
      Spread(1, q - r, t);
    } else if q < r {
      Spread(1, r - q, t);
    }
  }

  /** The agent of such a check: in every repeat it fails at first. */
  function Recovering(a: nat, b: nat): Oracle {
    (_, n: nat) => ReplyFor(if n >= 2 && (n - 2) % TurnsOf(a, b) < 4 * a then Fail else Pass, {})
  }

  lemma RecoveringRecovers(a: nat, b: nat, repeats: nat)
    ensures AllRecover(Recovering(a, b), 2, a, b, repeats)
  {
    hide Copies;
    var t := TurnsOf(a, b);
    forall r: nat | r < repeats
      ensures Recovers(Recovering(a, b), 2 + Copies(r, t), a, b)
    {
      CopiesMultiply(r, t);
      forall x, n: nat | 2 + r * t <= n < 2 + r * t + t
        ensures Recovering(a, b)(x, n) == ReplyFor(if n < 2 + r * t + 4 * a then Fail else Pass, {})
      {
        Remainder(r, t, n - 2 - r * t);
      }
    }
  }

  lemma SamplesOfUneven(p: Policy, a: nat, b: nat)
    requires Uneven(p, a, b)
    ensures SamplesPerRepeat(p) == a + b + 2 && AttemptBudget(p) == p.repeat * (a + b + 2)
  {
    Distributes(a, b, p.interval);
    SamplesFitWindow(p);
    Multiples(p.interval, a + b, a + b + 1);
    OneFits(SamplesPerRepeat(p), a + b + 2, Window(p), p.interval);
  }

  lemma OneFits(m: int, n: int, window: int, x: int)
    requires x > 0 && (m - 2) * x <= window < (m - 1) * x && (n - 2) * x <= window < (n - 1) * x
    ensures m == n
  {
    if m < n {
      Spread(m - 1, n - 2, x);
    } else if m > n {
      Spread(n - 1, m - 2, x);
    }
  }

  lemma Spread(m: int, n: int, x: int)
    requires m <= n && x >= 0
    ensures m * x <= n * x
  {
  }

  /**
   The budget is attained: for all a and b and every interval of three nanoseconds or more, a policy
   with Eventually a * Interval + 1 and StableFor b * Interval + 1 has a world in which every repeat
   records all its samples, and so the check all the attempts that it was accepted for.
   */
  lemma BudgetIsAttained(p: Policy, op: Operation, a: nat, b: nat) returns (o: Oracle)
    requires Uneven(p, a, b)
    ensures var r := Check(Env(o, op, p), 0, 0);
      && r.outcome == Pass && |r.repeats| == p.repeat
      && (forall i :: 0 <= i < |r.repeats| ==> |r.repeats[i].samples| == SamplesPerRepeat(p))
      && |r.log| == AttemptBudget(p)
  {
    o := Recovering(a, b);
    hide Repeats, AttemptBudget, SamplesPerRepeat, AllRecover, Copies;
    CopiesMultiply(0, Window(p) - 1);
    CopiesMultiply(0, TurnsOf(a, b));
    CopiesMultiply(p.repeat, Window(p));
    CopiesMultiply(p.repeat, a + b + 2);
    assert o(Starting, 0) == ReplyFor(Pass, {}) && o(Delivering, 1) == ReplyFor(Pass, {});
    RecoveringRecovers(a, b, p.repeat);
    SamplesOfUneven(p, a, b);
    var e := Env(o, op, p);
    var s := State(Begin(e, 0, 0), [], NoError);
    assert s.c == Ctx(0, 2, None, None, p.timeout, 0);
    RepeatsRecover(e, s, 1, a, b, 0, 2, false, []);
  }
}
