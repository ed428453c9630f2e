/**
 How a check keeps to its policy, read off the history that it reports: when it tries again, how
 long it waits before, when it takes another sample, and what makes it stop.
 */
module CheckSchedule {
  import opened Outcomes
  import opened Policies
  import opened CheckLoop
  import opened CheckMeaning

  // ---------------------------------------------------------------- between attempts

  /** An attempt of the same sample follows only after one that settled nothing, and after the delay. */
  predicate Retried(p: Policy, a: Attempt, b: Attempt) {
    a.repeat == b.repeat && a.sample == b.sample ==>
      !Stops(a.outcome) && b.number == a.number + 1 && b.started >= a.ended + p.delay
  }

  predicate Spaced(p: Policy, log: seq<Attempt>) {
    forall j {:trigger log[j]} :: 0 <= j < |log| - 1 ==> Retried(p, log[j], log[j + 1])
  }

  /** What the log must not hold before the given attempt is made at the given instant. */
  predicate MayTry(p: Policy, log: seq<Attempt>, repeat: nat, sample: nat, number: nat, now: nat) {
    log != [] && log[|log| - 1].repeat == repeat && log[|log| - 1].sample == sample ==>
      var a := log[|log| - 1];
      !Stops(a.outcome) && number == a.number + 1 && now >= a.ended + p.delay
  }

  lemma AttemptSpaced(e: Env, s: State, repeat: nat, sample: nat, number: nat, eventual: Option<int>)
    requires Spaced(e.policy, s.log) && MayTry(e.policy, s.log, repeat, sample, number, s.c.now)
    ensures var r := Attempted(e, s, repeat, sample, number, eventual);
      && Spaced(e.policy, r.0.log) && |r.0.log| == |s.log| + 1
      && var a := r.0.log[|s.log|];
      && a.repeat == repeat && a.sample == sample && a.number == number && a.outcome == r.1 && a.ended <= r.0.c.now
      && a.error == r.0.lastError
  {
    hide Elapse, Evaluate, AttemptError, Acquire, Deliver;
    var r := Attempted(e, s, repeat, sample, number, eventual);
    forall j | 0 <= j < |r.0.log| - 1
      ensures Retried(e.policy, r.0.log[j], r.0.log[j + 1])
    {
      if j < |s.log| - 1 {
        assert Retried(e.policy, s.log[j], s.log[j + 1]);
      }
    }
  }

  /** Every attempt of the log belongs to an earlier sample. */
  predicate Before(log: seq<Attempt>, repeat: nat, sample: nat) {
    log != [] ==>
      var a := log[|log| - 1];
      a.repeat < repeat || (a.repeat == repeat && a.sample < sample)
  }

  lemma {:induction false} TriesSpaced(e: Env, s: State, repeat: nat, sample: nat, number: nat, eventual: Option<int>, last: Outcome)
    requires Runnable(e.policy) && Spaced(e.policy, s.log) && MayTry(e.policy, s.log, repeat, sample, number, s.c.now)
    requires Before(s.log, repeat, sample + 1)
    ensures var r := Tries(e, s, repeat, sample, number, eventual, last);
      Spaced(e.policy, r.0.log) && Before(r.0.log, repeat, sample + 1)
    decreases e.policy.attempts - number
  {
    hide Attempted, Sleep, Wait, Spaced;
    if number <= e.policy.attempts {
      var (c, refused) := Wait(e.oracle, s.c);
      if refused.None? && !(eventual.Some? && c.now >= eventual.value) {
        var s0 := s.(c := c);
        AttemptSpaced(e, s0, repeat, sample, number, eventual);
        var (s1, outcome) := Attempted(e, s0, repeat, sample, number, eventual);
        if !Stops(outcome) && number < e.policy.attempts {
          var (c1, slept) := Sleep(e.oracle, s1.c, e.policy.delay);
          if slept {
            TriesSpaced(e, s1.(c := c1), repeat, sample, number + 1, eventual, outcome);
          }
        }
      }
    }
  }

  lemma {:induction false} SamplesSpaced(e: Env, s: State, repeat: nat, sample: nat, deadline: int, stable: Option<int>, done: seq<Sample>)
    requires Runnable(e.policy) && Spaced(e.policy, s.log) && Before(s.log, repeat, sample)
    ensures var r := Samples(e, s, repeat, sample, deadline, stable, done);
      Spaced(e.policy, r.s.log) && Before(r.s.log, repeat + 1, 0)
    decreases if stable.None? then 1 else 0, TimeLeft(deadline, stable, s.c.now)
  {
    hide Tries, Decide, Sleep, Spaced;
    var eventual := EventualGuard(e.policy, deadline, stable);
    TriesSpaced(e, s, repeat, sample, 1, eventual, Missing);
    var (s1, last) := Tries(e, s, repeat, sample, 1, eventual, Missing);
    var live := s1.c.done.None?;
    var here := Sample(s.c.now, s1.log[|s.log|..], s1.c.now, last, live, 0);
    var d := Decide(e.policy, last, live, s1.c.now, deadline, stable);
    if d.Again? {
      var (c, slept) := Sleep(e.oracle, s1.c, d.pause);
      if slept {
        SamplesSpaced(e, s1.(c := c), repeat, sample + 1, deadline, d.stable, done + [here.(pause := d.pause)]);
      }
    }
  }

  lemma {:induction false} RepeatsSpaced(e: Env, s: State, repeat: nat, outcome: Outcome, problem: bool, done: seq<Repeat>)
    requires Runnable(e.policy) && Spaced(e.policy, s.log) && Before(s.log, repeat, 0)
    ensures Spaced(e.policy, Repeats(e, s, repeat, outcome, problem, done).log)
    decreases e.policy.repeat - repeat
  {
    hide Samples, Spaced;
    if repeat <= e.policy.repeat {
      var s0 := s.(lastError := NoError);
      SamplesSpaced(e, s0, repeat, 1, s.c.now + e.policy.eventually, None, []);
      var end := Samples(e, s0, repeat, 1, s.c.now + e.policy.eventually, None, []);
      var outcome' := Worsened(outcome, end.ending);
      if outcome' != Canceled && outcome' != Skip {
        RepeatsSpaced(
          e, end.s, repeat + 1, outcome', problem || (outcome' != Pass && end.s.lastError == Failure),
          done + [Repeat(s.c.now, end.samples, end.ending)]);
      }
    }
  }

  /**
   In every world and for every policy: an attempt that follows another one of the same repeat and
   sample begins no sooner than the policy's delay after that ended, and only if that neither
   passed nor was canceled or skipped.
   */
  lemma RetriesWaitTheDelay(e: Env, now: nat, next: nat, j: nat)
    requires Runnable(e.policy) && j + 1 < |Check(e, now, next).log|
    ensures var a, b := Check(e, now, next).log[j], Check(e, now, next).log[j + 1];
      a.repeat == b.repeat && a.sample == b.sample ==>
        && b.started >= a.ended + e.policy.delay && b.number == a.number + 1
        && a.outcome != Pass && a.outcome != Canceled && a.outcome != Skip
  {
    hide Repeats, Begin;
    RepeatsSpaced(e, State(Begin(e, now, next), [], NoError), 1, Pass, false, []);
  }

  // ---------------------------------------------------------------- within a sample

  /** The last of n attempts settles a sample when none is left or when it passed, was canceled or was skipped. */
  predicate Settled(p: Policy, attempts: seq<Attempt>, n: nat) {
    attempts != [] && (n == p.attempts || Stops(attempts[|attempts| - 1].outcome))
  }

  /** How a sample ends: as the attempt that settled it; else its context ended, or the eventual deadline passed. */
  predicate SampleEnds(p: Policy, attempts: seq<Attempt>, n: nat, last: Outcome, live: bool, end: nat, eventual: Option<int>) {
    if Settled(p, attempts, n) then last == attempts[|attempts| - 1].outcome
    else n < p.attempts && last != Pass && (!live || (last == Fail && eventual.Some? && end >= eventual.value))
  }

  lemma WaitRefuses(o: Oracle, c: Ctx)
    ensures Wait(o, c).1.Some? ==> Wait(o, c).0.done.Some?
  {
  }

  lemma EndsMore(p: Policy, a: Attempt, rest: seq<Attempt>, n: nat, last: Outcome, live: bool, end: nat, eventual: Option<int>)
    requires !Stops(a.outcome) && n - |rest| < p.attempts && SampleEnds(p, rest, n, last, live, end, eventual)
    ensures SampleEnds(p, [a] + rest, n, last, live, end, eventual)
  {
    hide Stops;
  }

  lemma LogMore(a: seq<Attempt>, b: seq<Attempt>, c: seq<Attempt>)
    requires |b| == |a| + 1 && b <= c
    ensures c[|a|..] == [b[|a|]] + c[|b|..]
  {
  }

  lemma EndsAtOnce(p: Policy, n: nat, last: Outcome, live: bool, end: nat, eventual: Option<int>)
    requires n < p.attempts && last != Pass && (!live || (last == Fail && eventual.Some? && end >= eventual.value))
    ensures SampleEnds(p, [], n, last, live, end, eventual)
  {
  }

  lemma EndsWith(p: Policy, a: Attempt, n: nat, last: Outcome, live: bool, end: nat, eventual: Option<int>)
    requires if n == p.attempts || Stops(a.outcome) then last == a.outcome else n < p.attempts && last != Pass && !live
    ensures SampleEnds(p, [a], n, last, live, end, eventual)
  {
    hide Stops;
  }

  lemma {:induction false} TriesEnd(e: Env, s: State, repeat: nat, sample: nat, number: nat, eventual: Option<int>, last: Outcome)
    requires Runnable(e.policy) && 1 <= number <= e.policy.attempts
    ensures var (s', outcome) := Tries(e, s, repeat, sample, number, eventual, last);
      var more := s'.log[|s.log|..];
      SampleEnds(e.policy, more, number - 1 + |more|, outcome, s'.c.done.None?, s'.c.now, eventual)
    decreases e.policy.attempts - number
  {
    hide Attempted, Sleep, Wait, Stops, SampleEnds, ContextOutcome;
    var p := e.policy;
    WaitRefuses(e.oracle, s.c);
    var (c, refused) := Wait(e.oracle, s.c);
    if refused.Some? || (eventual.Some? && c.now >= eventual.value) {
      assert s.log[|s.log|..] == [];
      EndsAtOnce(p, number - 1, if refused.Some? then ContextOutcome(refused) else Fail, c.done.None?, c.now, eventual);
    } else {
      var (s1, outcome) := Attempted(e, s.(c := c), repeat, sample, number, eventual);
      PassingAttempt(e, s.(c := c), repeat, sample, number, eventual);
      var a := s1.log[|s.log|];
      LogMore(s.log, s1.log, s1.log);
      assert s1.log[|s1.log|..] == [] && [a] + [] == [a];
      if Stops(outcome) || number == p.attempts {
        EndsWith(p, a, number, outcome, s1.c.done.None?, s1.c.now, eventual);
      } else {
        var (c1, slept) := Sleep(e.oracle, s1.c, p.delay);
        if slept {
          TriesEnd(e, s1.(c := c1), repeat, sample, number + 1, eventual, outcome);
          var (s', last') := Tries(e, s1.(c := c1), repeat, sample, number + 1, eventual, outcome);
          var rest := s'.log[|s1.log|..];
          LogMore(s.log, s1.log, s'.log);
          EndsMore(p, a, rest, number + |rest|, last', s'.c.done.None?, s'.c.now, eventual);
        } else {
          EndsWith(p, a, number, ContextOutcome(c1.cause), false, c1.now, eventual);
        }
      }
    }
  }

  // ---------------------------------------------------------------- between samples

  /** The first sample that passed, or the number of samples. */
  function FirstPass(samples: seq<Sample>): (k: nat)
    ensures k <= |samples|
  {
    if samples == [] then 0
    else
      var k := FirstPass(samples[..|samples| - 1]);
      if k < |samples| - 1 || samples[|samples| - 1].last == Pass then k else |samples|
  }

  lemma {:induction false} FirstPassIs(samples: seq<Sample>)
    ensures var k := FirstPass(samples);
      (k < |samples| ==> samples[k].last == Pass) && forall i :: 0 <= i < k ==> samples[i].last != Pass
  {
    if samples != [] {
      FirstPassIs(samples[..|samples| - 1]);
    }
  }

  /** The instant until which the policy has another sample taken after these: the eventual deadline or, from the first pass on, the end of stability. */
  function Until(p: Policy, begin: nat, taken: seq<Sample>): int {
    var k := FirstPass(taken);
    if k < |taken| then taken[k].end + p.stableFor else begin + p.eventually
  }

  /** Another sample is due: the context is alive, nobody canceled or skipped, nothing failed since the first pass, and there is time left. */
  predicate Due(p: Policy, begin: nat, taken: seq<Sample>)
    requires taken != []
  {
    var x := taken[|taken| - 1];
    && x.live && x.last != Canceled && x.last != Skip
    && (FirstPass(taken) < |taken| ==> x.last == Pass)
    && x.end < Until(p, begin, taken)
  }

  /** The pause before it: an interval, or what time is left. */
  function PauseAfter(p: Policy, begin: nat, taken: seq<Sample>): int
    requires taken != []
  {
    var left := Until(p, begin, taken) - taken[|taken| - 1].end;
    if p.interval < left then p.interval else left
  }

  /** A sample ends as it should, guarded by the eventual deadline until something has passed. */
  predicate SampleKept(p: Policy, begin: nat, before: seq<Sample>, x: Sample) {
    var eventual := if FirstPass(before) == |before| && p.eventually > 0 then Some(begin + p.eventually) else None;
    SampleEnds(p, x.attempts, |x.attempts|, x.last, x.live, x.end, eventual)
  }

  /** A repeat that keeps to its policy: samples are taken as long as they are due, at the pace asked for, and no longer. */
  predicate KeepsPace(p: Policy, begin: nat, samples: seq<Sample>) {
    && (forall i {:trigger samples[i]} :: 0 <= i < |samples| ==> SampleKept(p, begin, samples[..i], samples[i]))
    && forall i {:trigger samples[i]} :: 0 <= i < |samples| - 1 ==> Followed(p, begin, samples, i)
  }

  /** Another sample was due after the i-th, and was taken after the pause. */
  predicate Followed(p: Policy, begin: nat, samples: seq<Sample>, i: nat)
    requires i + 1 < |samples|
  {
    && Due(p, begin, samples[..i + 1]) && samples[i].pause == PauseAfter(p, begin, samples[..i + 1])
    && samples[i + 1].begin >= samples[i].end + samples[i].pause
  }

  /** Why the last sample is the last: none is due, and it ends the repeat; or one is, but the context ended during the pause. */
  predicate StopsRightly(p: Policy, begin: nat, samples: seq<Sample>, ending: Outcome) {
    && samples != []
    && var x := samples[|samples| - 1];
       if Due(p, begin, samples) then x.pause == PauseAfter(p, begin, samples) && ending != Pass
       else x.pause == 0 && ending == (if !x.live && x.last == Pass then Fail else x.last)
  }

  /** Where the sampling loop stands before another sample. */
  predicate OnPace(p: Policy, begin: nat, done: seq<Sample>, stable: Option<int>, now: nat) {
    && KeepsPace(p, begin, done) && begin <= now
    && (done != [] ==>
          var x := done[|done| - 1];
          Due(p, begin, done) && x.pause == PauseAfter(p, begin, done) && now >= x.end + x.pause)
    && (stable.None? <==> FirstPass(done) == |done|)
    && (stable.Some? ==> stable.value == Until(p, begin, done))
  }

  lemma FirstPassSnoc(done: seq<Sample>, x: Sample)
    ensures FirstPass(done + [x]) ==
      if FirstPass(done) < |done| then FirstPass(done) else if x.last == Pass then |done| else |done| + 1
  {
    assert (done + [x])[..|done|] == done;
  }

  lemma UntilSnoc(p: Policy, begin: nat, done: seq<Sample>, x: Sample)
    ensures Until(p, begin, done + [x]) ==
      if FirstPass(done) < |done| then Until(p, begin, done) else if x.last == Pass then x.end + p.stableFor else begin + p.eventually
  {
    hide FirstPass;
    FirstPassSnoc(done, x);
  }

  /** What is said of a sample and those before does not change when one more is taken. */
  lemma SameFront(done: seq<Sample>, x: Sample, i: nat)
    requires i < |done|
    ensures var samples := done + [x]; samples[i] == done[i] && samples[..i] == done[..i] && samples[..i + 1] == done[..i + 1]
  {
  }

  lemma KeptSnoc(p: Policy, begin: nat, done: seq<Sample>, x: Sample, i: nat)
    requires KeepsPace(p, begin, done) && SampleKept(p, begin, done, x) && i <= |done|
    ensures SampleKept(p, begin, (done + [x])[..i], (done + [x])[i])
  {
    hide SampleKept;
    if i < |done| {
      SameFront(done, x, i);
    } else {
      assert (done + [x])[..i] == done;
    }
  }

  lemma DueAgain(p: Policy, begin: nat, done: seq<Sample>, stable: Option<int>, x: Sample, i: nat)
    requires OnPace(p, begin, done, stable, x.begin) && i < |done|
    ensures Followed(p, begin, done + [x], i)
  {
    hide Due, PauseAfter, FirstPass, Until, SampleKept;
    SameFront(done, x, i);
    if i + 1 < |done| {
      SameFront(done, x, i + 1);
      assert Followed(p, begin, done, i);
    } else {
      assert done[..i + 1] == done;
    }
  }

  lemma PaceSnoc(p: Policy, begin: nat, done: seq<Sample>, stable: Option<int>, x: Sample)
    requires OnPace(p, begin, done, stable, x.begin)
    requires SampleEnds(p, x.attempts, |x.attempts|, x.last, x.live, x.end, EventualGuard(p, begin + p.eventually, stable))
    ensures KeepsPace(p, begin, done + [x])
  {
    NewKept(p, begin, done, stable, x);
    forall i | 0 <= i < |done|
      ensures Followed(p, begin, done + [x], i)
    {
      DueAgain(p, begin, done, stable, x, i);
    }
    FrontKept(p, begin, done, x);
    hide Due, PauseAfter, SampleKept, FirstPass, Until, OnPace, Followed;
  }

  lemma NewKept(p: Policy, begin: nat, done: seq<Sample>, stable: Option<int>, x: Sample)
    requires OnPace(p, begin, done, stable, x.begin)
    requires SampleEnds(p, x.attempts, |x.attempts|, x.last, x.live, x.end, EventualGuard(p, begin + p.eventually, stable))
    ensures KeepsPace(p, begin, done) && SampleKept(p, begin, done, x)
  {
    hide KeepsPace, Due, PauseAfter, SampleEnds, FirstPass, Until;
  }

  lemma FrontKept(p: Policy, begin: nat, done: seq<Sample>, x: Sample)
    requires KeepsPace(p, begin, done) && SampleKept(p, begin, done, x)
    ensures forall i {:trigger (done + [x])[i]} :: 0 <= i < |done + [x]| ==> SampleKept(p, begin, (done + [x])[..i], (done + [x])[i])
  {
    hide SampleKept, Followed;
    forall i | 0 <= i < |done + [x]|
      ensures SampleKept(p, begin, (done + [x])[..i], (done + [x])[i])
    {
      KeptSnoc(p, begin, done, x, i);
    }
  }

  /** The instant until which the loop samples, by its own variables. */
  function Limit(p: Policy, deadline: int, stable: Option<int>, last: Outcome, end: nat): int {
    if stable.Some? then stable.value else if last == Pass then end + p.stableFor else deadline
  }

  lemma DueSnoc(p: Policy, begin: nat, done: seq<Sample>, stable: Option<int>, x: Sample)
    requires stable.None? <==> FirstPass(done) == |done|
    requires stable.Some? ==> stable.value == Until(p, begin, done)
    ensures var until := Limit(p, begin + p.eventually, stable, x.last, x.end);
      && Until(p, begin, done + [x]) == until
      && (FirstPass(done + [x]) < |done| + 1 <==> stable.Some? || x.last == Pass)
      && (Due(p, begin, done + [x]) <==>
            x.live && x.last != Canceled && x.last != Skip && (stable.Some? ==> x.last == Pass) && x.end < until)
      && PauseAfter(p, begin, done + [x]) == if p.interval < until - x.end then p.interval else until - x.end
  {
    UntilSnoc(p, begin, done, x);
    FirstPassSnoc(done, x);
    hide FirstPass, Until;
    assert (done + [x])[|done + [x]| - 1] == x;
  }

  lemma DecisionLimit(p: Policy, last: Outcome, live: bool, now: nat, deadline: int, stable: Option<int>)
    requires Runnable(p) && (p.eventually == 0 ==> deadline <= now)
    ensures var d := Decide(p, last, live, now, deadline, stable); var until := Limit(p, deadline, stable, last, now);
      && (d.Again? <==> live && last != Canceled && last != Skip && (stable.Some? ==> last == Pass) && now < until)
      && (d.Stop? ==> d.ending == if !live && last == Pass then Fail else last)
      && (d.Again? ==> d.pause == Earlier(p.interval, until - now) && d.stable == if last == Pass then Some(until) else None)
  {
  }

  lemma PaceOver(p: Policy, begin: nat, done: seq<Sample>, stable: Option<int>, x: Sample)
    requires Runnable(p) && OnPace(p, begin, done, stable, x.begin) && x.begin <= x.end && x.pause == 0
    requires SampleEnds(p, x.attempts, |x.attempts|, x.last, x.live, x.end, EventualGuard(p, begin + p.eventually, stable))
    requires Decide(p, x.last, x.live, x.end, begin + p.eventually, stable).Stop?
    ensures var ending := Decide(p, x.last, x.live, x.end, begin + p.eventually, stable).ending;
      KeepsPace(p, begin, done + [x]) && StopsRightly(p, begin, done + [x], ending)
  {
    PaceSnoc(p, begin, done, stable, x);
    DueSnoc(p, begin, done, stable, x);
    DecisionLimit(p, x.last, x.live, x.end, begin + p.eventually, stable);
    hide KeepsPace, SampleEnds, Due, PauseAfter, Decide, FirstPass, Until, Limit;
    assert (done + [x])[|done + [x]| - 1] == x;
  }

  lemma AgainIsDue(p: Policy, begin: nat, done: seq<Sample>, stable: Option<int>, x: Sample, d: Decision)
    requires Runnable(p) && OnPace(p, begin, done, stable, x.begin) && x.begin <= x.end
    requires d == Decide(p, x.last, x.live, x.end, begin + p.eventually, stable) && d.Again?
    ensures var taken := done + [x];
      && Due(p, begin, taken) && d.pause == PauseAfter(p, begin, taken)
      && (d.stable.None? <==> FirstPass(taken) == |taken|) && (d.stable.Some? ==> d.stable.value == Until(p, begin, taken))
  {
    assert begin <= x.end && (stable.None? <==> FirstPass(done) == |done|) && (stable.Some? ==> stable.value == Until(p, begin, done));
    DueSnoc(p, begin, done, stable, x);
    DecisionLimit(p, x.last, x.live, x.end, begin + p.eventually, stable);
    hide OnPace, Due, PauseAfter, Decide, FirstPass, Until;
    assert stable.Some? ==> x.last == Pass;
  }

  lemma PaceOn(p: Policy, begin: nat, done: seq<Sample>, stable: Option<int>, x: Sample, d: Decision, now: nat)
    requires Runnable(p) && OnPace(p, begin, done, stable, x.begin) && x.begin <= x.end
    requires SampleEnds(p, x.attempts, |x.attempts|, x.last, x.live, x.end, EventualGuard(p, begin + p.eventually, stable))
    requires d == Decide(p, x.last, x.live, x.end, begin + p.eventually, stable) && d.Again? && x.pause == d.pause
    ensures KeepsPace(p, begin, done + [x])
    ensures forall ending :: ending != Pass ==> StopsRightly(p, begin, done + [x], ending)
    ensures now >= x.end + d.pause ==> OnPace(p, begin, done + [x], d.stable, now)
  {
    assert begin <= x.begin;
    PaceSnoc(p, begin, done, stable, x);
    AgainIsDue(p, begin, done, stable, x, d);
    hide KeepsPace, SampleEnds, Due, PauseAfter, Decide, FirstPass, Until;
    LastOf(done, x);
  }

  lemma LastOf(done: seq<Sample>, x: Sample)
    ensures (done + [x])[|done + [x]| - 1] == x
  {
  }

  lemma {:induction false} SamplesPace(e: Env, s: State, repeat: nat, sample: nat, begin: nat, stable: Option<int>, done: seq<Sample>)
    requires Runnable(e.policy) && OnPace(e.policy, begin, done, stable, s.c.now)
    ensures var r := Samples(e, s, repeat, sample, begin + e.policy.eventually, stable, done);
      KeepsPace(e.policy, begin, r.samples) && StopsRightly(e.policy, begin, r.samples, r.ending)
    decreases if stable.None? then 1 else 0, TimeLeft(begin + e.policy.eventually, stable, s.c.now)
  {
    hide Tries, Decide, Sleep, OnPace, KeepsPace, StopsRightly, SampleEnds;
    var p := e.policy;
    var deadline := begin + p.eventually;
    var eventual := EventualGuard(p, deadline, stable);
    TriesEnd(e, s, repeat, sample, 1, eventual, Missing);
    var (s1, last) := Tries(e, s, repeat, sample, 1, eventual, Missing);
    var live := s1.c.done.None?;
    var here := Sample(s.c.now, s1.log[|s.log|..], s1.c.now, last, live, 0);
    var d := Decide(p, last, live, s1.c.now, deadline, stable);
    if d.Stop? {
      PaceOver(p, begin, done, stable, here);
    } else {
      var (c, slept) := Sleep(e.oracle, s1.c, d.pause);
      PaceOn(p, begin, done, stable, here.(pause := d.pause), d, c.now);
      if slept {
        SamplesPace(e, s1.(c := c), repeat, sample + 1, begin, d.stable, done + [here.(pause := d.pause)]);
      }
    }
  }

  predicate RepeatsPaced(p: Policy, repeats: seq<Repeat>) {
    forall i {:trigger repeats[i]} :: 0 <= i < |repeats| ==>
      KeepsPace(p, repeats[i].begin, repeats[i].samples) && StopsRightly(p, repeats[i].begin, repeats[i].samples, repeats[i].ending)
  }

  lemma NothingTaken(p: Policy, begin: nat)
    ensures OnPace(p, begin, [], None, begin)
  {
  }

  lemma {:induction false} RepeatsPace(e: Env, s: State, repeat: nat, outcome: Outcome, problem: bool, done: seq<Repeat>)
    requires Runnable(e.policy) && RepeatsPaced(e.policy, done)
    ensures RepeatsPaced(e.policy, Repeats(e, s, repeat, outcome, problem, done).repeats)
    decreases e.policy.repeat - repeat
  {
    hide Samples, KeepsPace, StopsRightly, OnPace;
    if repeat <= e.policy.repeat {
      var s0 := s.(lastError := NoError);
      NothingTaken(e.policy, s.c.now);
      SamplesPace(e, s0, repeat, 1, s.c.now, None, []);
      var end := Samples(e, s0, repeat, 1, s.c.now + e.policy.eventually, None, []);
      var outcome' := Worsened(outcome, end.ending);
      if outcome' != Canceled && outcome' != Skip {
        RepeatsPace(
          e, end.s, repeat + 1, outcome', problem || (outcome' != Pass && end.s.lastError == Failure),
          done + [Repeat(s.c.now, end.samples, end.ending)]);
      }
    }
  }

  /**
   In every world every repeat of a check keeps to its policy: each sample tries until an attempt
   settles it or none is left, another sample is taken exactly as long as one is due, after an
   interval or what time is left, and the repeat ends as its last sample says, unless its context
   ended during a pause.
   */
  lemma CheckKeepsPace(e: Env, now: nat, next: nat)
    requires Runnable(e.policy)
    ensures RepeatsPaced(e.policy, Check(e, now, next).repeats)
  {
    hide Repeats, Begin;
    RepeatsPace(e, State(Begin(e, now, next), [], NoError), 1, Pass, false, []);
  }

  // ---------------------------------------------------------------- the problem of a check

  /** The error of the last attempt of a repeat. */
  function LastError(samples: seq<Sample>): ErrorKind {
    if samples == [] then NoError
    else
      var attempts := samples[|samples| - 1].attempts;
      if attempts != [] then attempts[|attempts| - 1].error else LastError(samples[..|samples| - 1])
  }

  lemma {:induction false} TriesError(e: Env, s: State, repeat: nat, sample: nat, number: nat, eventual: Option<int>, last: Outcome)
    requires Runnable(e.policy)
    ensures var s' := Tries(e, s, repeat, sample, number, eventual, last).0;
      s'.lastError == if |s'.log| > |s.log| then s'.log[|s'.log| - 1].error else s.lastError
    decreases e.policy.attempts - number
  {
    hide Attempted, Sleep, Wait;
    if number <= e.policy.attempts {
      var (c, refused) := Wait(e.oracle, s.c);
      if refused.None? && !(eventual.Some? && c.now >= eventual.value) {
        var (s1, outcome) := Attempted(e, s.(c := c), repeat, sample, number, eventual);
        ErrorRecorded(e, s.(c := c), repeat, sample, number, eventual);
        if !Stops(outcome) && number < e.policy.attempts {
          var (c1, slept) := Sleep(e.oracle, s1.c, e.policy.delay);
          if slept {
            TriesError(e, s1.(c := c1), repeat, sample, number + 1, eventual, outcome);
          }
        }
      }
    }
  }

  lemma ErrorRecorded(e: Env, s: State, repeat: nat, sample: nat, number: nat, eventual: Option<int>)
    ensures var s' := Attempted(e, s, repeat, sample, number, eventual).0;
      |s'.log| == |s.log| + 1 && s'.lastError == s'.log[|s.log|].error
  {
    hide Elapse, Evaluate, AttemptError, Acquire, Deliver;
  }

  lemma ErrorSnoc(done: seq<Sample>, x: Sample)
    ensures LastError(done + [x]) == if x.attempts != [] then x.attempts[|x.attempts| - 1].error else LastError(done)
  {
    assert (done + [x])[..|done|] == done;
  }

  lemma {:induction false} SamplesError(e: Env, s: State, repeat: nat, sample: nat, deadline: int, stable: Option<int>, done: seq<Sample>)
    requires Runnable(e.policy) && s.lastError == LastError(done)
    ensures var r := Samples(e, s, repeat, sample, deadline, stable, done);
      r.s.lastError == LastError(r.samples)
    decreases if stable.None? then 1 else 0, TimeLeft(deadline, stable, s.c.now)
  {
    hide Tries, Decide, Sleep, LastError;
    var eventual := EventualGuard(e.policy, deadline, stable);
    TriesError(e, s, repeat, sample, 1, eventual, Missing);
    var (s1, last) := Tries(e, s, repeat, sample, 1, eventual, Missing);
    var here := Sample(s.c.now, s1.log[|s.log|..], s1.c.now, last, s1.c.done.None?, 0);
    var d := Decide(e.policy, last, here.live, s1.c.now, deadline, stable);
    var here' := if d.Again? then here.(pause := d.pause) else here;
    ErrorSnoc(done, here');
    if d.Again? {
      var (c, slept) := Sleep(e.oracle, s1.c, d.pause);
      if slept {
        SamplesError(e, s1.(c := c), repeat, sample + 1, deadline, d.stable, done + [here']);
      }
    }
  }

  /** After some repeats the check has not passed, and the last attempt of the last of them met a failure. */
  predicate Terminal(repeats: seq<Repeat>, i: nat)
    requires i < |repeats|
  {
    LastEnding(repeats[..i + 1]) != Pass && LastError(repeats[i].samples) == Failure
  }

  predicate SomeTerminal(repeats: seq<Repeat>) {
    exists i :: 0 <= i < |repeats| && Terminal(repeats, i)
  }

  lemma TerminalSnoc(done: seq<Repeat>, x: Repeat)
    ensures SomeTerminal(done + [x]) <==>
      SomeTerminal(done) || (Worsened(LastEnding(done), x.ending) != Pass && LastError(x.samples) == Failure)
    ensures LastEnding(done + [x]) == Worsened(LastEnding(done), x.ending)
  {
    hide LastError;
    var all := done + [x];
    assert all[..|done|] == done && all[..|done| + 1] == all;
    forall i | 0 <= i < |done|
      ensures Terminal(all, i) <==> Terminal(done, i)
    {
      assert all[..i + 1] == done[..i + 1];
    }
    assert Terminal(all, |done|) <==> Worsened(LastEnding(done), x.ending) != Pass && LastError(x.samples) == Failure;
    if SomeTerminal(done) {
      var i :| 0 <= i < |done| && Terminal(done, i);
      assert Terminal(all, i);
    }
  }

  lemma {:induction false} RepeatsProblem(e: Env, s: State, repeat: nat, outcome: Outcome, problem: bool, done: seq<Repeat>)
    requires Runnable(e.policy) && outcome == LastEnding(done) && (problem <==> SomeTerminal(done))
    ensures var r := Repeats(e, s, repeat, outcome, problem, done); r.problem <==> SomeTerminal(r.repeats)
    decreases e.policy.repeat - repeat
  {
    hide Samples, SomeTerminal, LastError, LastEnding;
    if repeat <= e.policy.repeat {
      var s0 := s.(lastError := NoError);
      assert LastError([]) == NoError by { NoErrorYet(); }
      SamplesError(e, s0, repeat, 1, s.c.now + e.policy.eventually, None, []);
      var end := Samples(e, s0, repeat, 1, s.c.now + e.policy.eventually, None, []);
      var outcome' := Worsened(outcome, end.ending);
      var x := Repeat(s.c.now, end.samples, end.ending);
      TerminalSnoc(done, x);
      if outcome' != Canceled && outcome' != Skip {
        RepeatsProblem(e, end.s, repeat + 1, outcome', problem || (outcome' != Pass && end.s.lastError == Failure), done + [x]);
      }
    }
  }

  lemma NoErrorYet()
    ensures LastError([]) == NoError
  {
  }

  /** A check raises a problem exactly when, after some repeat, it had not passed and the last attempt of that repeat had met a failure. */
  lemma ProblemMeans(e: Env, now: nat, next: nat)
    requires Runnable(e.policy)
    ensures var r := Check(e, now, next); r.problem <==> SomeTerminal(r.repeats)
  {
    hide Repeats, Begin;
    RepeatsProblem(e, State(Begin(e, now, next), [], NoError), 1, Pass, false, []);
  }
}
