/**
 What a Pass verdict of a check means, stated over the samples it took and without
 reference to how the loop runs.
 */
module CheckMeaning {
  import opened Outcomes
  import opened Policies
  import opened CheckLoop

  /** The sample got a passing answer, and while eventual success was awaited it came before that deadline. */
  predicate PassedInTime(p: Policy, begin: nat, s: Sample) {
    && s.attempts != []
    && var final := s.attempts[|s.attempts| - 1];
    && final.outcome == Pass
    && (p.eventually > 0 ==> final.ended < begin + p.eventually)
  }

  /** Consecutive samples are separated by one sleep, of at most an interval. */
  predicate Paced(p: Policy, samples: seq<Sample>) {
    forall i {:trigger samples[i]} :: 0 <= i < |samples| - 1 ==>
      0 < samples[i].pause <= p.interval && samples[i].end + samples[i].pause <= samples[i + 1].begin
  }

  /** Up to sample `first` nothing passed, which only an Eventually policy tolerates; from there on everything did. */
  predicate TurnsAt(p: Policy, begin: nat, samples: seq<Sample>, first: nat) {
    && first <= |samples|
    && (first > 0 ==> p.eventually > 0)
    && (forall i {:trigger samples[i]} :: 0 <= i < |samples| ==>
          samples[i].live && (samples[i].last == Pass <==> i >= first))
    && (first < |samples| ==> PassedInTime(p, begin, samples[first]))
  }

  /** A repeat as the policy promises it. */
  predicate EndedWellAt(p: Policy, begin: nat, samples: seq<Sample>, first: nat) {
    && first < |samples|
    && TurnsAt(p, begin, samples, first)
    && Paced(p, samples)
    && samples[|samples| - 1].end >= samples[first].end + p.stableFor
  }

  ghost predicate EndedWell(p: Policy, begin: nat, samples: seq<Sample>) {
    exists first: nat :: EndedWellAt(p, begin, samples, first)
  }

  /** Where the loop stands between two samples of a repeat that may still end well. */
  predicate OnTrack(p: Policy, begin: nat, done: seq<Sample>, stable: Option<int>, now: nat, first: nat) {
    && TurnsAt(p, begin, done, first)
    && Paced(p, done)
    && (stable.None? <==> first == |done|)
    && (stable.Some? ==> p.stableFor > 0 && stable.value == done[first].end + p.stableFor)
    && (done != [] ==>
          var s := done[|done| - 1];
          0 < s.pause <= p.interval && s.end + s.pause <= now)
  }

  lemma {:induction false} PassingTries(e: Env, s: State, repeat: nat, sample: nat, number: nat, eventual: Option<int>, last: Outcome)
    requires Runnable(e.policy) && 1 <= number <= e.policy.attempts
    ensures var r := Tries(e, s, repeat, sample, number, eventual, last);
      r.1 == Pass ==>
        && |r.0.log| > |s.log|
        && var final := r.0.log[|r.0.log| - 1];
        && final.outcome == Pass
        && (eventual.Some? ==> final.ended < eventual.value)
    decreases e.policy.attempts - number
  {
    hide Attempted, Sleep, Wait;
    var (c, refused) := Wait(e.oracle, s.c);
    if refused.None? && !(eventual.Some? && c.now >= eventual.value) {
      var (s1, outcome) := Attempted(e, s.(c := c), repeat, sample, number, eventual);
      PassingAttempt(e, s.(c := c), repeat, sample, number, eventual);
      if !Stops(outcome) && number < e.policy.attempts {
        var (c1, slept) := Sleep(e.oracle, s1.c, e.policy.delay);
        if slept {
          PassingTries(e, s1.(c := c1), repeat, sample, number + 1, eventual, outcome);
        }
      }
    }
  }

  lemma PassingAttempt(e: Env, s: State, repeat: nat, sample: nat, number: nat, eventual: Option<int>)
    ensures var r := Attempted(e, s, repeat, sample, number, eventual);
      && |r.0.log| == |s.log| + 1
      && var final := r.0.log[|s.log|];
      && final.outcome == r.1
      && (r.1 == Pass && eventual.Some? ==> final.ended < eventual.value)
  {
    hide FindingsOutcome, Acquire, Deliver;
  }

  lemma ExtendTrack(p: Policy, begin: nat, done: seq<Sample>, stable: Option<int>, now: nat, first: nat, here: Sample)
    requires OnTrack(p, begin, done, stable, now, first)
    requires here.begin == now && here.live
    requires stable.Some? ==> here.last == Pass
    requires here.last == Pass && stable.None? ==> PassedInTime(p, begin, here)
    requires here.last != Pass ==> p.eventually > 0
    ensures Paced(p, done + [here])
    ensures TurnsAt(p, begin, done + [here], if stable.None? && here.last != Pass then first + 1 else first)
  {
    var samples := done + [here];
    forall i | 0 <= i < |samples| - 1
      ensures 0 < samples[i].pause <= p.interval && samples[i].end + samples[i].pause <= samples[i + 1].begin
    {
      if i < |done| - 1 {
        assert samples[i] == done[i] && samples[i + 1] == done[i + 1];
      }
    }
  }

  /** A repeat whose final sample failed, was not live, or came too early has not ended well. */
  lemma NotWell(p: Policy, begin: nat, done: seq<Sample>, here: Sample, first: nat)
    requires
      || here.last != Pass
      || !here.live
      || (&& TurnsAt(p, begin, done + [here], first) && first <= |done|
          && here.end < (done + [here])[first].end + p.stableFor)
    ensures !EndedWell(p, begin, done + [here])
  {
    var samples := done + [here];
    assert samples[|done|] == here;
    forall k: nat
      ensures !EndedWellAt(p, begin, samples, k)
    {
    }
  }

  /** One turn of the loop: it stops exactly when the repeat has ended well or can no longer do so. */
  lemma TurnMeaning(e: Env, s: State, repeat: nat, sample: nat, begin: nat, stable: Option<int>, done: seq<Sample>, first: nat, later: nat)
    requires Runnable(e.policy) && OnTrack(e.policy, begin, done, stable, s.c.now, first)
    ensures
      var p := e.policy;
      var deadline := begin + p.eventually;
      var (s1, last) := Tries(e, s, repeat, sample, 1, EventualGuard(p, deadline, stable), Missing);
      var live := s1.c.done.None?;
      var here := Sample(s.c.now, s1.log[|s.log|..], s1.c.now, last, live, 0);
      match Decide(p, last, live, s1.c.now, deadline, stable)
      case Stop(ending) => (ending == Pass <==> EndedWell(p, begin, done + [here]))
      case Again(pause, stable') =>
        var here' := here.(pause := pause);
        && !EndedWell(p, begin, done + [here'])
        && (later >= s1.c.now + pause ==>
              OnTrack(p, begin, done + [here'], stable', later, if stable'.None? then first + 1 else first))
  {
    hide Tries, EndedWell, OnTrack, Decide;
    var p := e.policy;
    var deadline := begin + p.eventually;
    PassingTries(e, s, repeat, sample, 1, EventualGuard(p, deadline, stable), Missing);
    var (s1, last) := Tries(e, s, repeat, sample, 1, EventualGuard(p, deadline, stable), Missing);
    var live := s1.c.done.None?;
    var here := Sample(s.c.now, s1.log[|s.log|..], s1.c.now, last, live, 0);
    var d := Decide(p, last, live, s1.c.now, deadline, stable);
    if d.Stop? {
      StopMeaning(p, begin, done, stable, s.c.now, first, here);
    } else {
      AgainMeaning(p, begin, done, stable, s.c.now, first, here, later);
    }
  }

  lemma StopMeaning(p: Policy, begin: nat, done: seq<Sample>, stable: Option<int>, now: nat, first: nat, here: Sample)
    requires Runnable(p) && OnTrack(p, begin, done, stable, now, first) && here.begin == now
    requires here.last == Pass && stable.None? ==> PassedInTime(p, begin, here)
    requires Decide(p, here.last, here.live, here.end, begin + p.eventually, stable).Stop?
    ensures
      var ending := Decide(p, here.last, here.live, here.end, begin + p.eventually, stable).ending;
      ending == Pass <==> EndedWell(p, begin, done + [here])
  {
    var ending := Decide(p, here.last, here.live, here.end, begin + p.eventually, stable).ending;
    if here.last != Pass || !here.live {
      NotWell(p, begin, done, here, first);
    } else {
      ExtendTrack(p, begin, done, stable, now, first, here);
      assert EndedWellAt(p, begin, done + [here], first);
    }
  }

  lemma AgainMeaning(p: Policy, begin: nat, done: seq<Sample>, stable: Option<int>, now: nat, first: nat, here: Sample, later: nat)
    requires Runnable(p) && OnTrack(p, begin, done, stable, now, first) && here.begin == now
    requires here.last == Pass && stable.None? ==> PassedInTime(p, begin, here)
    requires Decide(p, here.last, here.live, here.end, begin + p.eventually, stable).Again?
    ensures
      var d := Decide(p, here.last, here.live, here.end, begin + p.eventually, stable);
      var here' := here.(pause := d.pause);
      && !EndedWell(p, begin, done + [here'])
      && (later >= here.end + d.pause ==>
            OnTrack(p, begin, done + [here'], d.stable, later, if d.stable.None? then first + 1 else first))
  {
    var d := Decide(p, here.last, here.live, here.end, begin + p.eventually, stable);
    var here' := here.(pause := d.pause);
    ExtendTrack(p, begin, done, stable, now, first, here');
    NotWell(p, begin, done, here', first);
  }

  lemma {:induction false} SamplesMeaning(e: Env, s: State, repeat: nat, sample: nat, begin: nat, stable: Option<int>, done: seq<Sample>, first: nat)
    requires Runnable(e.policy) && OnTrack(e.policy, begin, done, stable, s.c.now, first)
    ensures
      var r := Samples(e, s, repeat, sample, begin + e.policy.eventually, stable, done);
      r.ending == Pass <==> EndedWell(e.policy, begin, r.samples)
    decreases if stable.None? then 1 else 0, TimeLeft(begin + e.policy.eventually, stable, s.c.now)
  {
    hide Tries, Decide, Sleep, OnTrack, EndedWell;
    var p := e.policy;
    var deadline := begin + p.eventually;
    var (s1, last) := Tries(e, s, repeat, sample, 1, EventualGuard(p, deadline, stable), Missing);
    var live := s1.c.done.None?;
    var d := Decide(p, last, live, s1.c.now, deadline, stable);
    if d.Stop? {
      TurnMeaning(e, s, repeat, sample, begin, stable, done, first, 0);
    } else {
      var here := Sample(s.c.now, s1.log[|s.log|..], s1.c.now, last, live, d.pause);
      var (c, slept) := Sleep(e.oracle, s1.c, d.pause);
      TurnMeaning(e, s, repeat, sample, begin, stable, done, first, c.now);
      if slept {
        SamplesMeaning(e, s1.(c := c), repeat, sample + 1, begin, d.stable, done + [here],
                       if d.stable.None? then first + 1 else first);
      }
    }
  }

  /** The outcome that counts: that of the last repeat that did not end well. */
  function LastEnding(repeats: seq<Repeat>): Outcome {
    if repeats == [] then Pass
    else if repeats[|repeats| - 1].ending != Pass then repeats[|repeats| - 1].ending
    else LastEnding(repeats[..|repeats| - 1])
  }

  lemma {:induction false} LastEndingPass(repeats: seq<Repeat>)
    ensures LastEnding(repeats) == Pass <==> forall i :: 0 <= i < |repeats| ==> repeats[i].ending == Pass
  {
    if repeats != [] {
      var front := repeats[..|repeats| - 1];
      LastEndingPass(front);
      if LastEnding(repeats) == Pass {
        forall i | 0 <= i < |repeats|
          ensures repeats[i].ending == Pass
        {
          if i < |front| {
            assert front[i] == repeats[i];
          }
        }
      } else if repeats[|repeats| - 1].ending == Pass {
        var i :| 0 <= i < |front| && front[i].ending != Pass;
        assert repeats[i] == front[i];
      }
    }
  }

  ghost predicate Truthful(p: Policy, repeats: seq<Repeat>) {
    forall i :: 0 <= i < |repeats| ==> (repeats[i].ending == Pass <==> EndedWell(p, repeats[i].begin, repeats[i].samples))
  }

  lemma {:induction false} RepeatsMeaning(e: Env, s: State, repeat: nat, outcome: Outcome, problem: bool, done: seq<Repeat>)
    requires Runnable(e.policy) && 1 <= repeat <= e.policy.repeat + 1
    requires |done| == repeat - 1 && Truthful(e.policy, done) && outcome == LastEnding(done)
    requires outcome != Canceled && outcome != Skip
    ensures
      var r := Repeats(e, s, repeat, outcome, problem, done);
      && Truthful(e.policy, r.repeats)
      && r.outcome == LastEnding(r.repeats)
      && |r.repeats| <= e.policy.repeat
      && (|r.repeats| == e.policy.repeat || r.outcome == Canceled || r.outcome == Skip)
    decreases e.policy.repeat - repeat
  {
    hide Samples, EndedWell;
    if repeat <= e.policy.repeat {
      var s0 := s.(lastError := NoError);
      assert OnTrack(e.policy, s0.c.now, [], None, s0.c.now, 0);
      SamplesMeaning(e, s0, repeat, 1, s0.c.now, None, [], 0);
      var end := Samples(e, s0, repeat, 1, s0.c.now + e.policy.eventually, None, []);
      var outcome' := Worsened(outcome, end.ending);
      var done' := done + [Repeat(s.c.now, end.samples, end.ending)];
      assert done'[..|done|] == done;
      if outcome' != Canceled && outcome' != Skip {
        RepeatsMeaning(e, end.s, repeat + 1, outcome', problem || (outcome' != Pass && end.s.lastError == Failure), done');
      }
    }
  }

  /**
   A check reports Pass exactly when it took all its repeats and every one of them ended
   well; otherwise it reports how the last repeat that did not end well ended.
   */
  lemma PassMeans(e: Env, now: nat, next: nat)
    requires Runnable(e.policy)
    ensures var r := Check(e, now, next);
      && (r.outcome == Pass <==>
            |r.repeats| == e.policy.repeat && forall i :: 0 <= i < |r.repeats| ==> EndedWell(e.policy, r.repeats[i].begin, r.repeats[i].samples))
      && r.outcome == LastEnding(r.repeats)
  {
    hide Repeats, Begin, EndedWell;
    RepeatsMeaning(e, State(Begin(e, now, next), [], NoError), 1, Pass, false, []);
    LastEndingPass(Check(e, now, next).repeats);
  }

  // ---------------------------------------------------------------- the attempts of the report

  function AttemptsOf(samples: seq<Sample>): seq<Attempt> {
    if samples == [] then [] else AttemptsOf(samples[..|samples| - 1]) + samples[|samples| - 1].attempts
  }

  function AllAttempts(repeats: seq<Repeat>): seq<Attempt> {
    if repeats == [] then []
    else AllAttempts(repeats[..|repeats| - 1]) + AttemptsOf(repeats[|repeats| - 1].samples)
  }

  /** Attempts are numbered from one within each sample, and samples within each repeat. */
  predicate NumberedFrom(attempts: seq<Attempt>, repeat: nat, sample: nat, number: nat) {
    forall j :: 0 <= j < |attempts| ==>
      attempts[j].repeat == repeat && attempts[j].sample == sample && attempts[j].number == number + j
  }

  predicate Numbered(repeat: nat, samples: seq<Sample>) {
    forall i :: 0 <= i < |samples| ==> NumberedFrom(samples[i].attempts, repeat, i + 1, 1)
  }

  lemma AttemptedNumber(e: Env, s: State, repeat: nat, sample: nat, number: nat, eventual: Option<int>)
    ensures var r := Attempted(e, s, repeat, sample, number, eventual);
      && r.0.log[..|s.log|] == s.log
      && NumberedFrom(r.0.log[|s.log|..], repeat, sample, number)
  {
    hide Elapse, Evaluate, AttemptError, Acquire, Deliver;
  }

  lemma NumberedPrepend(a: seq<Attempt>, b: seq<Attempt>, c: seq<Attempt>, repeat: nat, sample: nat, number: nat)
    requires a <= b <= c && |b| == |a| + 1
    requires NumberedFrom(b[|a|..], repeat, sample, number)
    requires NumberedFrom(c[|b|..], repeat, sample, number + 1)
    ensures NumberedFrom(c[|a|..], repeat, sample, number)
  {
    assert c[|a|..] == b[|a|..] + c[|b|..];
  }

  lemma {:induction false} TriesNumbered(e: Env, s: State, repeat: nat, sample: nat, number: nat, eventual: Option<int>, last: Outcome)
    requires Runnable(e.policy)
    ensures NumberedFrom(Tries(e, s, repeat, sample, number, eventual, last).0.log[|s.log|..], repeat, sample, number)
    decreases e.policy.attempts - number
  {
    hide Attempted, Sleep, Wait;
    if number <= e.policy.attempts {
      var (c, refused) := Wait(e.oracle, s.c);
      if refused.None? && !(eventual.Some? && c.now >= eventual.value) {
        var (s1, outcome) := Attempted(e, s.(c := c), repeat, sample, number, eventual);
        AttemptedNumber(e, s.(c := c), repeat, sample, number, eventual);
        if !Stops(outcome) && number < e.policy.attempts {
          var (c1, slept) := Sleep(e.oracle, s1.c, e.policy.delay);
          if slept {
            TriesNumbered(e, s1.(c := c1), repeat, sample, number + 1, eventual, outcome);
            var r := Tries(e, s1.(c := c1), repeat, sample, number + 1, eventual, outcome);
            NumberedPrepend(s.log, s1.log, r.0.log, repeat, sample, number);
          }
        }
      }
    }
  }

  /** What a sample adds to the log are its own attempts. */
  lemma SampleAdded(log: seq<Attempt>, longer: seq<Attempt>, repeat: nat, x: Sample, done: seq<Sample>, before: seq<Attempt>)
    requires log == before + AttemptsOf(done) && Numbered(repeat, done)
    requires log <= longer && x.attempts == longer[|log|..] && NumberedFrom(x.attempts, repeat, |done| + 1, 1)
    ensures longer == before + AttemptsOf(done + [x]) && Numbered(repeat, done + [x])
  {
    assert (done + [x])[..|done|] == done;
  }

  lemma {:induction false} SamplesAttempts(e: Env, s: State, repeat: nat, sample: nat, deadline: int, stable: Option<int>, done: seq<Sample>, before: seq<Attempt>)
    requires Runnable(e.policy)
    requires s.log == before + AttemptsOf(done) && Numbered(repeat, done) && sample == |done| + 1
    ensures var r := Samples(e, s, repeat, sample, deadline, stable, done);
      r.s.log == before + AttemptsOf(r.samples) && Numbered(repeat, r.samples)
    decreases if stable.None? then 1 else 0, TimeLeft(deadline, stable, s.c.now)
  {
    hide Tries, Decide, Sleep, ContextOutcome, NumberedFrom, Numbered, AttemptsOf;
    var p := e.policy;
    TriesNumbered(e, s, repeat, sample, 1, EventualGuard(p, deadline, stable), Missing);
    var (s1, last) := Tries(e, s, repeat, sample, 1, EventualGuard(p, deadline, stable), Missing);
    var here := Sample(s.c.now, s1.log[|s.log|..], s1.c.now, last, s1.c.done.None?, 0);
    var d := Decide(p, last, here.live, s1.c.now, deadline, stable);
    var done' := done + [if d.Again? then here.(pause := d.pause) else here];
    SampleAdded(s.log, s1.log, repeat, done'[|done|], done, before);
    if d.Again? {
      var (c, slept) := Sleep(e.oracle, s1.c, d.pause);
      if slept {
        SamplesAttempts(e, s1.(c := c), repeat, sample + 1, deadline, d.stable, done', before);
      }
    }
  }

  predicate AllNumbered(repeats: seq<Repeat>) {
    forall i :: 0 <= i < |repeats| ==> Numbered(i + 1, repeats[i].samples)
  }

  lemma AllNumberedAppend(done: seq<Repeat>, r: Repeat)
    requires AllNumbered(done) && Numbered(|done| + 1, r.samples)
    ensures AllNumbered(done + [r])
    ensures AllAttempts(done + [r]) == AllAttempts(done) + AttemptsOf(r.samples)
  {
    hide Numbered;
    assert (done + [r])[..|done|] == done;
  }

  lemma {:induction false} RepeatsAttempts(e: Env, s: State, repeat: nat, outcome: Outcome, problem: bool, done: seq<Repeat>)
    requires Runnable(e.policy) && repeat == |done| + 1
    requires s.log == AllAttempts(done)
    requires AllNumbered(done)
    ensures var r := Repeats(e, s, repeat, outcome, problem, done);
      r.log == AllAttempts(r.repeats) && AllNumbered(r.repeats)
    decreases e.policy.repeat - repeat
  {
    hide Samples, Numbered, AllNumbered, AllAttempts, AttemptsOf;
    if repeat <= e.policy.repeat {
      var s0 := s.(lastError := NoError);
      NumberedNone(repeat);
      SamplesAttempts(e, s0, repeat, 1, s0.c.now + e.policy.eventually, None, [], s.log);
      var end := Samples(e, s0, repeat, 1, s0.c.now + e.policy.eventually, None, []);
      var outcome' := Worsened(outcome, end.ending);
      var here := Repeat(s.c.now, end.samples, end.ending);
      AllNumberedAppend(done, here);
      var done' := done + [here];
      if outcome' != Canceled && outcome' != Skip {
        RepeatsAttempts(e, end.s, repeat + 1, outcome', problem || (outcome' != Pass && end.s.lastError == Failure), done');
      }
    }
  }

  lemma NumberedNone(repeat: nat)
    ensures Numbered(repeat, []) && AttemptsOf([]) == []
  {
  }

  /** The report keeps every attempt of every sample of every repeat, in order and numbered, and nothing else. */
  lemma ReportKeepsEveryAttempt(e: Env, now: nat, next: nat)
    requires Runnable(e.policy)
    ensures var r := Check(e, now, next);
      r.log == AllAttempts(r.repeats) && AllNumbered(r.repeats)
  {
    hide Repeats, Begin;
    RepeatsAttempts(e, State(Begin(e, now, next), [], NoError), 1, Pass, false, []);
  }

  // ---------------------------------------------------------------- one attempt

  lemma {:induction false} FindingsPass(outcome: Outcome, findings: seq<Finding>)
    ensures FindingsOutcome(outcome, findings) == Pass <==>
      outcome == Pass && forall f :: f in findings ==> f.passed && !f.missing
  {
    if findings != [] {
      var front, f := findings[..|findings| - 1], findings[|findings| - 1];
      FindingsPass(outcome, front);
      assert findings == front + [f];
    }
  }

  /**
   An attempt passes exactly when it raised no error, was not being skipped or canceled,
   and returned a successful reply with the expected payload and only passing findings.
   */
  lemma AttemptPasses(error: ErrorKind, cause: Option<Cause>, raw: Raw)
    ensures Evaluate(error, cause, raw) == Pass <==>
      && error == NoError
      && cause != Some(OperatorSkip) && cause != Some(OperatorCancel)
      && raw.Typed? && raw.status == StatusOk && raw.payload
      && forall f :: f in raw.findings ==> f.passed && !f.missing
  {
    if raw.Typed? {
      FindingsPass(if raw.status == StatusOk then Pass else Fail, raw.findings);
    }
  }
}
