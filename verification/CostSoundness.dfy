/**
 The static price of a plan bounds what its execution does: one round never records more
 attempts, nor dispatches more operations, than Cost says, for every outcome of every
 operation and every passage of time.
 */
module CostSoundness {
  import opened Outcomes
  import opened Policies
  import opened CheckLoop
  import opened CheckBudget
  import opened Plans
  import opened Rounds
  import opened Costs

  // ---------------------------------------------------------------- what actions amount to

  function PartsCount(attempts: seq<Attempt>): nat {
    if attempts == [] then 0 else PartsCount(attempts[..|attempts| - 1]) + |attempts[|attempts| - 1].parts|
  }

  /** The attempts an action records or, with `ops`, the operations it dispatched. */
  function Weight(a: Action, ops: bool): nat {
    match a
    case Record(r) => if ops then PartsCount(r.attempts) else |r.attempts|
    case Cleaned(_, _, _, _) => if ops then 1 else 0
    case _ => 0
  }

  function Load(actions: seq<Action>, ops: bool): nat {
    if actions == [] then 0 else Load(actions[..|actions| - 1], ops) + Weight(actions[|actions| - 1], ops)
  }

  lemma {:induction false} LoadConcat(a: seq<Action>, b: seq<Action>, ops: bool)
    ensures Load(a + b, ops) == Load(a, ops) + Load(b, ops)
  {
    hide Weight;
    if b == [] {
      assert a + b == a;
    } else {
      var front := b[..|b| - 1];
      LoadConcat(a, front, ops);
      assert (a + b)[..|a + b| - 1] == a + front;
    }
  }

  lemma LoadOne(a: Action, ops: bool)
    ensures Load([a], ops) == Weight(a, ops) && Load([], ops) == 0
  {
    assert [a][..0] == [];
  }

  // ---------------------------------------------------------------- one check

  /** Every attempt of a check dispatches an initial part of what its operation consists of. */
  predicate Priced(log: seq<Attempt>, op: Operation) {
    forall i :: 0 <= i < |log| ==> log[i].parts <= Constituents(op)
  }

  lemma {:induction false} TriesPriced(e: Env, s: State, repeat: nat, sample: nat, number: nat, eventual: Option<int>, last: Outcome)
    requires Runnable(e.policy) && Priced(s.log, e.op)
    ensures Priced(Tries(e, s, repeat, sample, number, eventual, last).0.log, e.op)
    decreases e.policy.attempts - number
  {
    hide Attempted, Sleep, Wait, Constituents;
    if number <= e.policy.attempts {
      var (c, refused) := Wait(e.oracle, s.c);
      if refused.None? && !(eventual.Some? && c.now >= eventual.value) {
        var (s1, outcome) := Attempted(e, s.(c := c), repeat, sample, number, eventual);
        AttemptPriced(e, s.(c := c), repeat, sample, number, eventual);
        if !Stops(outcome) && number < e.policy.attempts {
          var (c1, slept) := Sleep(e.oracle, s1.c, e.policy.delay);
          if slept {
            TriesPriced(e, s1.(c := c1), repeat, sample, number + 1, eventual, outcome);
          }
        }
      }
    }
  }

  lemma AttemptPriced(e: Env, s: State, repeat: nat, sample: nat, number: nat, eventual: Option<int>)
    requires Priced(s.log, e.op)
    ensures Priced(Attempted(e, s, repeat, sample, number, eventual).0.log, e.op)
  {
    hide Elapse, Evaluate, AttemptError, Deliver, Acquire;
  }

  lemma {:induction false} SamplesPriced(e: Env, s: State, repeat: nat, sample: nat, deadline: int, stable: Option<int>, done: seq<Sample>)
    requires Runnable(e.policy) && Priced(s.log, e.op)
    ensures Priced(Samples(e, s, repeat, sample, deadline, stable, done).s.log, e.op)
    decreases if stable.None? then 1 else 0, TimeLeft(deadline, stable, s.c.now)
  {
    hide Tries, Decide, Sleep, ContextOutcome, Priced;
    TriesPriced(e, s, repeat, sample, 1, EventualGuard(e.policy, deadline, stable), Missing);
    var (s1, last) := Tries(e, s, repeat, sample, 1, EventualGuard(e.policy, deadline, stable), Missing);
    var d := Decide(e.policy, last, s1.c.done.None?, s1.c.now, deadline, stable);
    if d.Again? {
      var (c, slept) := Sleep(e.oracle, s1.c, d.pause);
      if slept {
        var here := Sample(s.c.now, s1.log[|s.log|..], s1.c.now, last, s1.c.done.None?, d.pause);
        SamplesPriced(e, s1.(c := c), repeat, sample + 1, deadline, d.stable, done + [here]);
      }
    }
  }

  lemma {:induction false} RepeatsPriced(e: Env, s: State, repeat: nat, outcome: Outcome, problem: bool, done: seq<Repeat>)
    requires Runnable(e.policy) && Priced(s.log, e.op)
    ensures Priced(Repeats(e, s, repeat, outcome, problem, done).log, e.op)
    decreases e.policy.repeat - repeat
  {
    hide Samples, Priced;
    if repeat <= e.policy.repeat {
      var s0 := s.(lastError := NoError);
      SamplesPriced(e, s0, repeat, 1, s0.c.now + e.policy.eventually, None, []);
      var end := Samples(e, s0, repeat, 1, s0.c.now + e.policy.eventually, None, []);
      var outcome' := Worsened(outcome, end.ending);
      if outcome' != Canceled && outcome' != Skip {
        RepeatsPriced(e, end.s, repeat + 1, outcome', problem || (outcome' != Pass && end.s.lastError == Failure),
                      done + [Repeat(s.c.now, end.samples, end.ending)]);
      }
    }
  }

  lemma {:induction false} PartsBound(log: seq<Attempt>, op: Operation)
    requires Priced(log, op)
    ensures PartsCount(log) <= |log| * |Constituents(op)|
  {
    if log != [] {
      var n := |log| - 1;
      hide Constituents;
      PartsBound(log[..n], op);
      assert log[n].parts <= Constituents(op);
      Distribute(|Constituents(op)|, n);
    }
  }

  function StepLoad(s: Step, ops: bool): nat
    requires Normalized(s.policy)
  {
    if ops then StepOperations(s) else StepAttempts(s)
  }

  lemma CheckLoad(w: Worker, target: string, s: Step, k: Clock, ops: bool)
    requires Normalized(s.policy)
    ensures var r := RunCheck(w, target, s, k).0.report;
      && Weight(Record(r), ops) <= StepLoad(s, ops)
      && Priced(r.attempts, s.operation)
  {
    hide Repeats, Begin, PartsCount, Constituents, Priced, WithinBudgets, AttemptBudget;
    var e := Env(w.oracle, s.operation, s.policy);
    BudgetRespected(e, k.now, k.next);
    assert Priced([], s.operation) by { NothingPriced(s.operation); }
    RepeatsPriced(e, State(Begin(e, k.now, k.next), [], NoError), 1, Pass, false, []);
    var log := Check(e, k.now, k.next).log;
    PartsBound(log, s.operation);
    ScaleUp(|log|, StepAttempts(s), |Constituents(s.operation)|);
  }

  lemma NothingPriced(op: Operation)
    ensures Priced([], op)
  {
  }

  lemma ScaleUp(a: nat, b: nat, n: nat)
    requires a <= b
    ensures a * n <= b * n
  {
  }

  // ---------------------------------------------------------------- one target

  lemma CheckedLoad(w: Worker, c: Checked, ops: bool)
    ensures Load(CheckedActions(w, c), ops) == Weight(Record(c.report), ops)
  {
    var problem: seq<Action> := if c.problem then [Problem(w.agent, w.round, Primary)] else [];
    LoadConcat(problem, [Record(c.report)], ops);
    LoadOne(Record(c.report), ops);
    LoadOne(Problem(w.agent, w.round, Primary), ops);
  }

  function OptionLoad(s: Option<Step>, ops: bool): nat
    requires s.Some? ==> Normalized(s.value.policy)
  {
    if s.Some? then StepLoad(s.value, ops) else 0
  }

  lemma OptionalLoad(w: Worker, t: Target, s: Option<Step>, ready: bool, k: Clock, ops: bool)
    requires s.Some? ==> Normalized(s.value.policy)
    ensures Load(OptionalActions(w, RunOptional(w, t, s, ready, k).0), ops) <= OptionLoad(s, ops)
  {
    hide RunCheck, Weight, CheckedActions, StepLoad;
    var c := RunOptional(w, t, s, ready, k).0;
    if c.Some? {
      CheckedLoad(w, c.value, ops);
      CheckLoad(w, t.id, s.value, k, ops);
    }
  }

  /** The MAC rotation of a step compiled by the engine is one attempt of one operation. */
  lemma OnceLoad(s: Step, ops: bool)
    requires s.policy.attempts == 1 && s.policy.repeat == 1 && s.policy.eventually == 0 && s.policy.stableFor == 0
    requires Normalized(s.policy) && s.operation.compound == Atomic
    ensures StepLoad(s, ops) == 1
  {
  }

  lemma RotateLoad(w: Worker, t: Target, phase: string, k: Clock, ops: bool)
    ensures Load(RotationActions(w, Rotate(w, t, phase, k).0), ops) <= 1
  {
    hide RunCheck, Weight, CheckedActions, StepLoad;
    var r := Rotate(w, t, phase, k).0;
    if r.Tried? {
      CheckedLoad(w, r.result, ops);
      OnceLoad(RotationStep(phase), ops);
      CheckLoad(w, t.id, RotationStep(phase), k, ops);
    } else {
      LoadOne(Problem(w.agent, w.round, Primary), ops);
      assert Weight(Problem(w.agent, w.round, Primary), ops) == 0 by { ProblemWeight(w.agent, w.round, Primary, ops); }
    }
  }

  lemma ProblemWeight(agent: string, round: nat, kind: ProblemKind, ops: bool)
    ensures Weight(Problem(agent, round, kind), ops) == 0
  {
  }

  function StepsLoad(steps: seq<Step>, ops: bool): nat
    requires NormalizedSteps(steps)
  {
    if ops then StepsOperations(steps) else StepsAttempts(steps)
  }

  lemma {:induction false} StepsLoadSnoc(steps: seq<Step>, s: Step, ops: bool)
    requires NormalizedSteps(steps) && Normalized(s.policy)
    ensures StepsLoad(steps + [s], ops) == StepsLoad(steps, ops) + StepLoad(s, ops)
  {
    assert (steps + [s])[..|steps|] == steps;
  }

  lemma {:induction false} StepsLoadConcat(a: seq<Step>, b: seq<Step>, ops: bool)
    requires NormalizedSteps(a) && NormalizedSteps(b)
    ensures NormalizedSteps(a + b)
    ensures StepsLoad(a + b, ops) == StepsLoad(a, ops) + StepsLoad(b, ops)
  {
    hide StepsLoad, StepLoad;
    if b == [] {
      assert a + b == a;
      StepsLoadNone(ops);
    } else {
      var front, s := b[..|b| - 1], b[|b| - 1];
      StepsLoadConcat(a, front, ops);
      assert a + b == (a + front) + [s] && b == front + [s];
      StepsLoadSnoc(a + front, s, ops);
      StepsLoadSnoc(front, s, ops);
    }
  }

  lemma StepsLoadNone(ops: bool)
    ensures StepsLoad([], ops) == 0
  {
  }

  lemma CheckedSnoc(w: Worker, before: seq<Checked>, c: Checked, ops: bool)
    ensures Load(CheckedAllActions(w, before + [c]), ops) == Load(CheckedAllActions(w, before), ops) + Weight(Record(c.report), ops)
  {
    hide Load, Weight, CheckedActions;
    assert (before + [c])[..|before|] == before;
    LoadConcat(CheckedAllActions(w, before), CheckedActions(w, c), ops);
    CheckedLoad(w, c, ops);
  }

  lemma CheckStepLoad(w: Worker, t: Target, i: nat, ready: bool, k: Clock, ops: bool)
    requires ValidTarget(t) && i < |t.checks|
    ensures
      var c := if ready then RunCheck(w, t.id, t.checks[i], k).0 else Checked(Skipped(w, t, t.checks[i], Prerequisite), false, 0);
      Weight(Record(c.report), ops) <= StepLoad(t.checks[i], ops)
  {
    hide RunCheck, Weight, StepLoad;
    if ready {
      CheckLoad(w, t.id, t.checks[i], k, ops);
    } else {
      SkipWeight(Skipped(w, t, t.checks[i], Prerequisite), ops);
    }
  }

  lemma {:induction false} ChecksLoad(w: Worker, t: Target, i: nat, ready: bool, k: Clock, before: seq<Checked>, ops: bool)
    requires ValidTarget(t) && i == |before| <= |t.checks|
    requires NormalizedSteps(t.checks[..i])
    requires Load(CheckedAllActions(w, before), ops) <= StepsLoad(t.checks[..i], ops)
    ensures NormalizedSteps(t.checks)
    ensures Load(CheckedAllActions(w, before + RunChecks(w, t, i, ready, k).0), ops) <= StepsLoad(t.checks, ops)
    decreases |t.checks| - i
  {
    hide RunCheck, Weight, CheckedAllActions, Load, StepsLoad, StepLoad, Continues;
    if i == |t.checks| {
      assert t.checks[..i] == t.checks;
      assert before + RunChecks(w, t, i, ready, k).0 == before;
    } else {
      var check := t.checks[i];
      var (c, k1) := if ready then RunCheck(w, t.id, check, k) else (Checked(Skipped(w, t, check, Prerequisite), false, 0), k);
      CheckStepLoad(w, t, i, ready, k, ops);
      CheckedSnoc(w, before, c, ops);
      assert t.checks[..i + 1] == t.checks[..i] + [check];
      StepsLoadSnoc(t.checks[..i], check, ops);
      var ready' := ready && Continues(check, c.report);
      ChecksLoad(w, t, i + 1, ready', k1, before + [c], ops);
      assert before + RunChecks(w, t, i, ready, k).0 == before + [c] + RunChecks(w, t, i + 1, ready', k1).0;
    }
  }

  lemma SkipWeight(r: StepReport, ops: bool)
    requires r.attempts == []
    ensures Weight(Record(r), ops) == 0
  {
  }

  lemma {:induction false} PartsLoad(w: Worker, t: Target, parts: seq<Command>, ops: bool)
    ensures Load(PartActions(w, t, parts), ops) == if ops then |parts| else 0
  {
    if parts != [] {
      var n := |parts| - 1;
      PartsLoad(w, t, parts[..n], ops);
      LoadConcat(PartActions(w, t, parts[..n]), [Cleaned(w.agent, w.round, t.id, parts[n])], ops);
      LoadOne(Cleaned(w.agent, w.round, t.id, parts[n]), ops);
    }
  }

  lemma CleanedLoad(w: Worker, t: Target, op: CleanedOp, ops: bool)
    requires |op.parts| <= 1
    ensures Load(CleanedActions(w, t, op), ops) <= One(ops)
  {
    var problem: seq<Action> := if op.outcome != Pass then [Problem(w.agent, w.round, Cleanup)] else [];
    LoadConcat(problem, PartActions(w, t, op.parts), ops);
    LoadOne(Problem(w.agent, w.round, Cleanup), ops);
    PartsLoad(w, t, op.parts, ops);
  }

  lemma {:induction false} CleanupActionsLoad(w: Worker, t: Target, done: seq<CleanedOp>, ops: bool)
    requires forall i :: 0 <= i < |done| ==> |done[i].parts| <= 1
    ensures Load(CleanupActions(w, t, done), ops) <= if ops then |done| else 0
  {
    hide Load, CleanedActions;
    if done == [] {
      LoadOne(Progress(w.agent, w.round, Pass), ops);
    } else {
      var n := |done| - 1;
      CleanupActionsLoad(w, t, done[..n], ops);
      CleanedLoad(w, t, done[n], ops);
      LoadConcat(CleanupActions(w, t, done[..n]), CleanedActions(w, t, done[n]), ops);
    }
  }

  lemma {:induction false} CleanupParts(w: Worker, n: Network, commands: seq<Command>, k: Clock)
    ensures forall i :: 0 <= i < |commands| ==> |RunCleanup(w, n, commands, k).0[i].parts| <= 1
  {
    hide Evaluate;
    if commands != [] {
      CleanupParts(w, n, commands[1..], Clock(k.now + w.oracle(Acquiring, k.next).advance, k.next + 1));
    }
  }

  lemma OwnedLoad(w: Worker, t: Target, k: Clock, ops: bool)
    ensures Load(CleanupActions(w, t, RunCleanup(w, t.network, CleanupCommands(t.network), k).0), ops)
      <= if ops then One(t.network.disconnectAfter) + One(t.network.forgetAfter) else 0
  {
    hide Load, CleanupActions, RunCleanup;
    CleanupParts(w, t.network, CleanupCommands(t.network), k);
    CleanupActionsLoad(w, t, RunCleanup(w, t.network, CleanupCommands(t.network), k).0, ops);
  }

  lemma {:induction false} SkipLoad(skips: seq<StepReport>, ops: bool)
    requires forall i :: 0 <= i < |skips| ==> skips[i].attempts == []
    ensures Load(SkipActions(skips), ops) == 0
  {
    if skips != [] {
      var n := |skips| - 1;
      SkipLoad(skips[..n], ops);
      LoadConcat(SkipActions(skips[..n]), [Record(skips[n])], ops);
      LoadOne(Record(skips[n]), ops);
    }
  }

  /** A target's price per agent. */
  function AgentLoad(t: Target, ops: bool): nat
    requires ValidTarget(t)
  {
    if ops then AgentOperations(t) else AgentAttempts(t)
  }

  lemma AgentLoadParts(t: Target, ops: bool)
    requires ValidTarget(t)
    ensures NormalizedSteps(t.checks)
    ensures AgentLoad(t, ops) ==
      OptionLoad(t.connect, ops) + OptionLoad(t.wait, ops) + StepsLoad(t.checks, ops) + One(t.network.rotation == PerTarget)
      + (if ops && t.connect.Some? then One(t.network.disconnectAfter) + One(t.network.forgetAfter) else 0)
  {
    StepsNormalized(t);
    assert NormalizedSteps(AsStep(t.connect)) && NormalizedSteps(AsStep(t.wait)) && NormalizedSteps(t.checks);
    StepsLoadConcat(AsStep(t.connect) + AsStep(t.wait), t.checks, ops);
    StepsLoadConcat(AsStep(t.connect), AsStep(t.wait), ops);
    OptionSteps(t.connect, ops);
    OptionSteps(t.wait, ops);
    hide StepsAttempts, StepsOperations, StepLoad;
  }

  lemma OptionSteps(s: Option<Step>, ops: bool)
    requires s.Some? ==> Normalized(s.value.policy)
    ensures NormalizedSteps(AsStep(s)) && StepsLoad(AsStep(s), ops) == OptionLoad(s, ops)
  {
    StepsLoadNone(ops);
    if s.Some? {
      StepsLoadSnoc([], s.value, ops);
      assert [] + [s.value] == AsStep(s);
    }
  }

  lemma BodyLoad(w: Worker, t: Target, rotation: Option<RotationTry>, k: Clock, ops: bool)
    requires ValidTarget(t)
    ensures Load(BodyActions(w, t, RunBody(w, t, rotation, k).0), ops) + One(t.network.rotation == PerTarget) <= AgentLoad(t, ops)
  {
    hide RunOptional, RunChecks, RunCleanup, CleanupCommands, CheckedAllActions, CleanupActions, OptionalActions, Load, Weight,
         StepsLoad, StepLoad, AgentLoad, OptionLoad, VisitOutcome, Passed;
    AgentLoadParts(t, ops);
    var (connect, k1) := RunOptional(w, t, t.connect, true, k);
    var (wait, k2) := RunOptional(w, t, t.wait, Passed(connect), k1);
    var (checks, k3) := RunChecks(w, t, 0, Passed(connect) && Passed(wait), k2);
    OptionalLoad(w, t, t.connect, true, k, ops);
    OptionalLoad(w, t, t.wait, Passed(connect), k1, ops);
    AllChecksLoad(w, t, Passed(connect) && Passed(wait), k2, ops);
    OwnedLoad(w, t, k3, ops);
    NoCleanup(w, t, ops);
    var v := RunBody(w, t, rotation, k).0;
    var a, b, c, d := OptionalActions(w, v.connect), OptionalActions(w, v.wait), CheckedAllActions(w, v.checks), CleanupActions(w, t, v.cleanup);
    var p := Progress(w.agent, w.round, VisitOutcome(v));
    LoadOne(p, ops);
    ProgressWeight(p, ops);
    LoadConcat(a, b, ops);
    LoadConcat(a + b, c, ops);
    LoadConcat(a + b + c, d, ops);
    LoadConcat(a + b + c + d, [p], ops);
  }

  lemma ProgressWeight(p: Action, ops: bool)
    requires p.Progress?
    ensures Weight(p, ops) == 0
  {
  }

  lemma NoCleanup(w: Worker, t: Target, ops: bool)
    ensures Load(CleanupActions(w, t, []), ops) == 0
  {
  }

  lemma AllChecksLoad(w: Worker, t: Target, ready: bool, k: Clock, ops: bool)
    requires ValidTarget(t)
    ensures NormalizedSteps(t.checks)
    ensures Load(CheckedAllActions(w, RunChecks(w, t, 0, ready, k).0), ops) <= StepsLoad(t.checks, ops)
  {
    hide RunChecks, StepLoad, Weight;
    assert t.checks[..0] == [];
    StepsLoadNone(ops);
    LoadOne(Progress(w.agent, w.round, Pass), ops);
    ChecksLoad(w, t, 0, ready, k, [], ops);
    assert [] + RunChecks(w, t, 0, ready, k).0 == RunChecks(w, t, 0, ready, k).0;
  }

  lemma VisitLoad(w: Worker, t: Target, unsupported: set<string>, rotated: set<string>, k: Clock, ops: bool)
    requires ValidTarget(t)
    ensures Load(VisitActions(w, t, VisitTarget(w, t, unsupported, rotated, k).0), ops) <= AgentLoad(t, ops)
  {
    hide RunBody, Rotate, BodyActions, SkipActions, RotationActions, Load, AgentLoad, Steps, NormalizeBand, Rotated;
    var v := VisitTarget(w, t, unsupported, rotated, k).0;
    LoadOne(Progress(w.agent, w.round, Pass), ops);
    var head := if v.rotation.Some? then RotationActions(w, v.rotation.value) else [];
    var k' := k;
    if v.rotation.Some? {
      RotateLoad(w, t, "before_target", k, ops);
      k' := Rotate(w, t, "before_target", k).1;
    }
    if v.Barred? {
      SkipLoad(v.skips, ops);
      LoadConcat(head, SkipActions(v.skips), ops);
      PerTargetPaid(t, ops);
    } else {
      BodyLoad(w, t, v.rotation, k', ops);
      LoadConcat(head, BodyActions(w, t, v), ops);
    }
  }

  lemma PerTargetPaid(t: Target, ops: bool)
    requires ValidTarget(t)
    ensures One(t.network.rotation == PerTarget) <= AgentLoad(t, ops)
  {
    hide StepsAttempts, StepsOperations;
  }

  // ---------------------------------------------------------------- one agent

  function TargetsLoad(targets: seq<Target>, ops: bool): nat
    requires ValidTargets(targets)
  {
    if targets == [] then 0 else AgentLoad(targets[0], ops) + TargetsLoad(targets[1..], ops)
  }

  lemma {:induction false} TargetsLoadSnoc(targets: seq<Target>, n: nat, ops: bool)
    requires ValidTargets(targets) && n < |targets|
    ensures ValidTargets(targets[..n]) && ValidTargets(targets[..n + 1])
    ensures TargetsLoad(targets[..n + 1], ops) == TargetsLoad(targets[..n], ops) + AgentLoad(targets[n], ops)
  {
    hide AgentLoad, ValidTarget;
    if n > 0 {
      TargetsLoadSnoc(targets[1..], n - 1, ops);
      assert targets[..n][1..] == targets[1..][..n - 1];
      assert targets[..n + 1][1..] == targets[1..][..n];
    }
  }

  lemma {:induction false} VisitsLoad(w: Worker, targets: seq<Target>, n: nat, unsupported: set<string>, rotated: set<string>, k: Clock, done: seq<Visit>, ops: bool)
    requires ValidTargets(targets) && |done| == n <= |targets|
    requires Load(VisitsActions(w, targets[..n], done), ops) <= TargetsLoad(targets[..n], ops)
    ensures Load(VisitsActions(w, targets, done + VisitAll(w, targets[n..], unsupported, rotated, k).0), ops) <= TargetsLoad(targets, ops)
    decreases |targets| - n
  {
    hide VisitTarget, VisitActions, AgentLoad, Load, TargetsLoad, ValidTarget;
    if n == |targets| {
      assert targets[..n] == targets;
      assert done + VisitAll(w, targets[n..], unsupported, rotated, k).0 == done;
    } else {
      var (v, k1) := VisitTarget(w, targets[n], unsupported, rotated, k);
      VisitLoad(w, targets[n], unsupported, rotated, k, ops);
      TargetsLoadSnoc(targets, n, ops);
      VisitsLoadStep(w, targets, n, done, v, ops);
      var done' := done + [v];
      VisitsLoad(w, targets, n + 1, unsupported, rotated, k1, done', ops);
      assert targets[n..][1..] == targets[n + 1..];
      assert done + VisitAll(w, targets[n..], unsupported, rotated, k).0
          == done' + VisitAll(w, targets[n + 1..], unsupported, rotated, k1).0;
    }
  }

  lemma VisitsLoadStep(w: Worker, targets: seq<Target>, n: nat, done: seq<Visit>, v: Visit, ops: bool)
    requires |done| == n < |targets|
    ensures Load(VisitsActions(w, targets[..n + 1], done + [v]), ops) ==
      Load(VisitsActions(w, targets[..n], done), ops) + Load(VisitActions(w, targets[n], v), ops)
  {
    hide Load, VisitActions;
    var p := Progress(w.agent, w.round, Pass);
    assert (done + [v])[..n] == done && targets[..n + 1][..n] == targets[..n];
    LoadOne(p, ops);
    ProgressWeight(p, ops);
    var before := VisitsActions(w, targets[..n], done);
    LoadConcat(before, [p], ops);
    LoadConcat(before + [p], VisitActions(w, targets[n], v), ops);
  }

  lemma {:induction false} RotateAllLoad(w: Worker, targets: seq<Target>, n: nat, phase: string, k: Clock, done: seq<RotationTry>, ops: bool)
    requires |done| == n <= |targets|
    requires Load(RotationsActions(w, done), ops) <= n
    ensures Load(RotationsActions(w, done + RotateAll(w, targets[n..], phase, k).0), ops) <= |targets|
    decreases |targets| - n
  {
    hide Rotate, RotationActions, Load;
    if n == |targets| {
      assert done + RotateAll(w, targets[n..], phase, k).0 == done;
    } else {
      var (r, k1) := Rotate(w, targets[n], phase, k);
      RotateLoad(w, targets[n], phase, k, ops);
      var done' := done + [r];
      assert done'[..n] == done;
      LoadConcat(RotationsActions(w, done), RotationActions(w, r), ops);
      RotateAllLoad(w, targets, n + 1, phase, k1, done', ops);
      assert targets[n..][1..] == targets[n + 1..];
      assert done + RotateAll(w, targets[n..], phase, k).0 == done' + RotateAll(w, targets[n + 1..], phase, k1).0;
    }
  }

  lemma RotationsLoad(w: Worker, targets: seq<Target>, phase: string, k: Clock, ops: bool)
    ensures Load(RotationsActions(w, RotateAll(w, targets, phase, k).0), ops) <= |targets|
  {
    hide RotateAll;
    LoadOne(Progress(w.agent, w.round, Pass), ops);
    assert targets[0..] == targets;
    RotateAllLoad(w, targets, 0, phase, k, [], ops);
    assert [] + RotateAll(w, targets, phase, k).0 == RotateAll(w, targets, phase, k).0;
  }

  function RotatingSsids(targets: seq<Target>): set<string> {
    set t | t in targets && t.network.rotation == PerRound :: t.network.ssid
  }

  lemma RotatingSsidsCons(t: Target, rest: seq<Target>)
    ensures RotatingSsids([t] + rest) == RotatingSsids(rest) + (if t.network.rotation == PerRound then {t.network.ssid} else {})
  {
    var targets := [t] + rest;
    forall u | u in targets
      ensures u == t || u in rest
    {
    }
    forall u | u == t || u in rest
      ensures u in targets
    {
      if u in rest {
        var i :| 0 <= i < |rest| && rest[i] == u;
        assert targets[i + 1] == u;
      } else {
        assert targets[0] == u;
      }
    }
  }

  /** There is one rotating target per SSID. */
  lemma {:induction false} RotationTargetsCount(targets: seq<Target>, seen: set<string>)
    ensures |RotationTargets(targets, seen)| == |RotatingSsids(targets) - seen|
  {
    hide RotatingSsids, Banded;
    if targets == [] {
      NoSsids();
    } else {
      var t, rest := targets[0], targets[1..];
      assert targets == [t] + rest;
      RotatingSsidsCons(t, rest);
      if t.network.rotation == PerRound && t.network.ssid !in seen {
        RotationTargetsCount(rest, seen + {t.network.ssid});
        RemoveOne(RotatingSsids(rest), seen, t.network.ssid);
      } else {
        RotationTargetsCount(rest, seen);
        assert RotatingSsids(targets) - seen == RotatingSsids(rest) - seen;
      }
    }
  }

  lemma RemoveOne(s: set<string>, seen: set<string>, x: string)
    requires x !in seen
    ensures |(s + {x}) - seen| == |s - (seen + {x})| + 1
  {
    assert (s + {x}) - seen == (s - (seen + {x})) + {x};
  }

  lemma NoSsids()
    ensures RotatingSsids([]) == {}
  {
  }

  predicate AnyBanded(targets: seq<Target>) {
    exists t :: t in targets && Banded(t)
  }

  lemma {:induction false} FirstBandedFound(targets: seq<Target>)
    ensures FirstBanded(targets) < |targets| <==> AnyBanded(targets)
  {
    if targets != [] {
      FirstBandedFound(targets[1..]);
      assert targets == [targets[0]] + targets[1..];
    }
  }

  /** One agent's share of the price of a round. */
  function AgentRoundLoad(targets: seq<Target>, ops: bool): nat
    requires ValidTargets(targets)
  {
    TargetsLoad(targets, ops) + One(AnyBanded(targets)) + 2 * |RotatingSsids(targets)|
  }

  lemma PreflightLoad(w: Worker, targets: seq<Target>, k: Clock, ops: bool)
    ensures Load(OptionalActions(w, Preflight(w, targets, k).0), ops) <= One(AnyBanded(targets))
  {
    hide RunCheck, Weight, CheckedActions, StepLoad, FirstBanded;
    FirstBandedFound(targets);
    var c := Preflight(w, targets, k).0;
    if c.Some? {
      CheckedLoad(w, c.value, ops);
      OnceLoad(CapabilityStep(), ops);
      CheckLoad(w, "preflight", CapabilityStep(), k, ops);
    }
  }

  lemma AgentSound(w: Worker, targets: seq<Target>, k: Clock, ops: bool)
    requires ValidTargets(targets)
    ensures Load(RoundActions(w, targets, RunRound(w, targets, k).0), ops) <= AgentRoundLoad(targets, ops)
  {
    hide Preflight, RotateAll, RotationTargets, RotatedSsids, VisitAll, VisitsActions, OptionalActions, RotationsActions,
         UnsupportedBands, Load, TargetsLoad, AnyBanded, RotatingSsids, ValidTarget;
    var rotating := RotationTargets(targets, {});
    RotationTargetsCount(targets, {});
    assert RotatingSsids(targets) - {} == RotatingSsids(targets);
    var (preflight, k1) := Preflight(w, targets, k);
    var (before, k2) := RotateAll(w, rotating, "before_round", k1);
    var unsupported, rotated := UnsupportedBands(preflight), RotatedSsids(rotating, before);
    var (visits, k3) := VisitAll(w, targets, unsupported, rotated, k2);
    PreflightLoad(w, targets, k, ops);
    RotationsLoad(w, rotating, "before_round", k1, ops);
    RotationsLoad(w, rotating, "after_round", k3, ops);
    AllVisitsLoad(w, targets, unsupported, rotated, k2, ops);
    var r := RunRound(w, targets, k).0;
    var p := Progress(w.agent, w.round, Pass);
    LoadOne(p, ops);
    ProgressWeight(p, ops);
    var a, b, c, d := OptionalActions(w, r.preflight), RotationsActions(w, r.before), VisitsActions(w, targets, r.visits), RotationsActions(w, r.after);
    LoadConcat([p], a, ops);
    LoadConcat([p] + a, b, ops);
    LoadConcat([p] + a + b, c, ops);
    LoadConcat([p] + a + b + c, d, ops);
    LoadConcat([p] + a + b + c + d, [p], ops);
  }

  lemma AllVisitsLoad(w: Worker, targets: seq<Target>, unsupported: set<string>, rotated: set<string>, k: Clock, ops: bool)
    requires ValidTargets(targets)
    ensures Load(VisitsActions(w, targets, VisitAll(w, targets, unsupported, rotated, k).0), ops) <= TargetsLoad(targets, ops)
  {
    hide VisitAll, AgentLoad, ValidTarget;
    LoadOne(Progress(w.agent, w.round, Pass), ops);
    assert targets[..0] == [] && targets[0..] == targets;
    VisitsLoad(w, targets, 0, unsupported, rotated, k, [], ops);
    assert [] + VisitAll(w, targets, unsupported, rotated, k).0 == VisitAll(w, targets, unsupported, rotated, k).0;
  }

  // ---------------------------------------------------------------- all agents of a round

  function AgentsLoad(targets: seq<Target>, agents: seq<string>, ops: bool): nat
    requires ValidTargets(targets)
  {
    if agents == [] then 0
    else
      var n := |agents| - 1;
      TargetsOfValid(targets, agents[n]);
      AgentsLoad(targets, agents[..n], ops) + AgentRoundLoad(TargetsOf(targets, agents[n]), ops)
  }

  function PlanLoad(targets: seq<Target>, ops: bool): nat
    requires ValidTargets(targets)
  {
    if ops then PlanOperations(targets) else PlanAttempts(targets)
  }

  /** The sum over all agents of what their targets cost them. */
  function VisitsPrice(targets: seq<Target>, agents: seq<string>, ops: bool): nat
    requires ValidTargets(targets)
  {
    if agents == [] then 0
    else
      var n := |agents| - 1;
      TargetsOfValid(targets, agents[n]);
      VisitsPrice(targets, agents[..n], ops) + TargetsLoad(TargetsOf(targets, agents[n]), ops)
  }

  function Members(agents: seq<string>, bound: seq<string>): nat {
    if agents == [] then 0
    else Members(agents[..|agents| - 1], bound) + One(agents[|agents| - 1] in bound)
  }

  lemma {:induction false} AsSetSize<T>(s: seq<T>)
    ensures |AsSet(s)| <= |s|
  {
    if s != [] {
      var n := |s| - 1;
      AsSetSize(s[..n]);
      assert AsSet(s) == AsSet(s[..n]) + {s[n]} by {
        assert s == s[..n] + [s[n]];
      }
    }
  }

  lemma AsSetFront(front: seq<string>, a: string)
    requires Distinct(front + [a])
    ensures AsSet(front + [a]) == AsSet(front) + {a} && a !in AsSet(front)
  {
    var all := front + [a];
    forall i | 0 <= i < |front|
      ensures front[i] != a
    {
      assert all[i] != all[|front|];
    }
  }

  lemma MeetOne(s: set<string>, bound: set<string>, a: string)
    requires a !in s
    ensures |(s + {a}) * bound| == |s * bound| + One(a in bound)
  {
    if a in bound {
      assert (s + {a}) * bound == s * bound + {a};
    } else {
      assert (s + {a}) * bound == s * bound;
    }
  }

  lemma {:induction false} MembersMeet(agents: seq<string>, bound: set<string>, listed: seq<string>)
    requires Distinct(agents) && bound == AsSet(listed)
    ensures Members(agents, listed) == |AsSet(agents) * bound|
  {
    if agents == [] {
      assert AsSet(agents) * bound == {};
    } else {
      hide Distinct;
      var n := |agents| - 1;
      var front, a := agents[..n], agents[n];
      assert agents == front + [a];
      FrontDistinct(front, a);
      MembersMeet(front, bound, listed);
      AsSetFront(front, a);
      MeetOne(AsSet(front), bound, a);
    }
  }

  lemma FrontDistinct(front: seq<string>, a: string)
    requires Distinct(front + [a])
    ensures Distinct(front)
  {
    var all := front + [a];
    forall i, j | 0 <= i < j < |front|
      ensures front[i] != front[j]
    {
      assert all[i] != all[j];
    }
  }

  /** Distinct agents are bound to a target at most as often as it lists agents. */
  lemma MembersBound(agents: seq<string>, bound: seq<string>)
    requires Distinct(agents)
    ensures Members(agents, bound) <= |bound|
  {
    hide Distinct, AsSet, Members;
    MembersMeet(agents, AsSet(bound), bound);
    AsSetSize(bound);
    SubsetSize(AsSet(agents) * AsSet(bound), AsSet(bound));
  }

  lemma {:induction false} VisitsPriceCons(t: Target, rest: seq<Target>, agents: seq<string>, ops: bool)
    requires ValidTarget(t) && ValidTargets(rest)
    ensures ValidTargets([t] + rest)
    ensures VisitsPrice([t] + rest, agents, ops) == Members(agents, t.agents) * AgentLoad(t, ops) + VisitsPrice(rest, agents, ops)
  {
    hide AgentLoad, ValidTarget;
    assert ([t] + rest)[1..] == rest;
    if agents != [] {
      var n := |agents| - 1;
      var a := agents[n];
      VisitsPriceCons(t, rest, agents[..n], ops);
      TargetsOfValid(rest, a);
      TargetsOfValid([t] + rest, a);
      AddTimes(Members(agents[..n], t.agents), One(a in t.agents), AgentLoad(t, ops));
    }
  }

  lemma AddTimes(a: nat, b: nat, x: nat)
    requires b <= 1
    ensures (a + b) * x == a * x + (if b == 1 then x else 0)
  {
  }

  function ListedPrice(targets: seq<Target>, ops: bool): nat
    requires ValidTargets(targets)
  {
    if ops then TargetsOperations(targets) else TargetsAttempts(targets)
  }

  lemma ListedPriceSnoc(targets: seq<Target>, n: nat, ops: bool)
    requires n < |targets| && ValidTargets(targets)
    ensures ValidTargets(targets[..n]) && ValidTargets(targets[..n + 1]) && ValidTarget(targets[n])
    ensures ListedPrice(targets[..n + 1], ops) == ListedPrice(targets[..n], ops) + |targets[n].agents| * AgentLoad(targets[n], ops)
  {
    hide AgentAttempts, AgentOperations, TargetsAttempts, TargetsOperations, ValidTarget;
    TargetsFront(targets, n);
  }

  lemma {:induction false} ListedPriceCons(t: Target, rest: seq<Target>, n: nat, ops: bool)
    requires ValidTarget(t) && ValidTargets(rest) && n <= |rest|
    ensures ValidTargets([t] + rest[..n]) && ValidTargets(rest[..n])
    ensures ListedPrice([t] + rest[..n], ops) == |t.agents| * AgentLoad(t, ops) + ListedPrice(rest[..n], ops)
  {
    hide AgentLoad, ListedPrice, ValidTarget;
    var all := [t] + rest;
    assert [t] + rest[..n] == all[..n + 1];
    if n == 0 {
      ListedPriceSnoc(all, 0, ops);
      assert all[..0] == [] && rest[..0] == [];
      NothingListed(ops);
    } else {
      ListedPriceCons(t, rest, n - 1, ops);
      assert [t] + rest[..n - 1] == all[..n];
      ListedPriceSnoc(all, n, ops);
      ListedPriceSnoc(rest, n - 1, ops);
    }
  }

  lemma NothingListed(ops: bool)
    ensures ListedPrice([], ops) == 0
  {
  }

  lemma {:induction false} VisitsPriceBound(targets: seq<Target>, agents: seq<string>, ops: bool)
    requires ValidTargets(targets) && Distinct(agents)
    ensures VisitsPrice(targets, agents, ops) <= ListedPrice(targets, ops)
  {
    if targets == [] {
      NoTargets(agents, ops);
    } else {
      hide AgentLoad, ListedPrice, ValidTarget;
      var t, rest := targets[0], targets[1..];
      assert ValidTarget(t);
      VisitsPriceBound(rest, agents, ops);
      VisitsPriceCons(t, rest, agents, ops);
      MembersBound(agents, t.agents);
      ScaleUp(Members(agents, t.agents), |t.agents|, AgentLoad(t, ops));
      assert [t] + rest == targets && rest[..|rest|] == rest;
      ListedPriceCons(t, rest, |rest|, ops);
    }
  }

  lemma {:induction false} NoTargets(agents: seq<string>, ops: bool)
    ensures VisitsPrice([], agents, ops) == 0
  {
    if agents != [] {
      NoTargets(agents[..|agents| - 1], ops);
    }
  }

  /** How many agents of a list check their capabilities, and how many (agent, SSID) pairs rotate. */
  function PreflightAgents(targets: seq<Target>, agents: seq<string>): set<string> {
    set a | a in agents && AnyBanded(TargetsOf(targets, a))
  }

  function RotationPairs(targets: seq<Target>, agents: seq<string>): set<(string, string)> {
    set a, s | a in agents && s in RotatingSsids(TargetsOf(targets, a)) :: (a, s)
  }

  lemma {:induction false} PairsWith(a: string, ssids: set<string>)
    ensures |(set s | s in ssids :: (a, s))| == |ssids|
  {
    var pairs := set s | s in ssids :: (a, s);
    if ssids != {} {
      var x :| x in ssids;
      PairsWith(a, ssids - {x});
      var fewer := set s | s in ssids - {x} :: (a, s);
      assert pairs == fewer + {(a, x)};
    }
  }

  lemma {:induction false} AgentsLoadParts(targets: seq<Target>, agents: seq<string>, ops: bool)
    requires ValidTargets(targets) && Distinct(agents)
    ensures AgentsLoad(targets, agents, ops) ==
      VisitsPrice(targets, agents, ops) + |PreflightAgents(targets, agents)| + 2 * |RotationPairs(targets, agents)|
  {
    hide TargetsOf, TargetsLoad, AnyBanded, RotatingSsids, ValidTarget;
    if agents == [] {
      assert PreflightAgents(targets, agents) == {} && RotationPairs(targets, agents) == {};
    } else {
      var n := |agents| - 1;
      var a := agents[n];
      AgentsLoadParts(targets, agents[..n], ops);
      TargetsOfValid(targets, a);
      OneMoreAgent(targets, agents[..n], a);
      assert agents == agents[..n] + [a];
    }
  }

  lemma OneMoreAgent(targets: seq<Target>, agents: seq<string>, a: string)
    requires a !in agents
    ensures |PreflightAgents(targets, agents + [a])| == |PreflightAgents(targets, agents)| + One(AnyBanded(TargetsOf(targets, a)))
    ensures |RotationPairs(targets, agents + [a])| == |RotationPairs(targets, agents)| + |RotatingSsids(TargetsOf(targets, a))|
  {
    hide TargetsOf, AnyBanded, RotatingSsids;
    var mine := RotatingSsids(TargetsOf(targets, a));
    var pairs := set s | s in mine :: (a, s);
    PairsWith(a, mine);
    assert PreflightAgents(targets, agents + [a]) ==
      PreflightAgents(targets, agents) + (if AnyBanded(TargetsOf(targets, a)) then {a} else {});
    assert RotationPairs(targets, agents + [a]) == RotationPairs(targets, agents) + pairs;
    assert RotationPairs(targets, agents) !! pairs;
  }

  lemma KeysCovered(targets: seq<Target>, agents: seq<string>)
    requires ValidTargets(targets)
    ensures PreflightAgents(targets, agents) <= PreflightKeys(targets)
    ensures RotationPairs(targets, agents) <= RotationKeys(targets)
  {
    hide TargetsOf, ValidTarget;
    forall a | a in agents
      ensures forall t :: t in TargetsOf(targets, a) ==> t in targets && a in t.agents
    {
      TargetsOfValid(targets, a);
    }
  }

  lemma AgentsBounded(targets: seq<Target>, agents: seq<string>, ops: bool)
    requires ValidTargets(targets) && Distinct(agents)
    ensures AgentsLoad(targets, agents, ops) <= PlanLoad(targets, ops)
  {
    hide AgentsLoad, VisitsPrice, PreflightAgents, RotationPairs, PreflightKeys, RotationKeys, TargetsAttempts, TargetsOperations, ValidTarget;
    AgentsLoadParts(targets, agents, ops);
    VisitsPriceBound(targets, agents, ops);
    KeysCovered(targets, agents);
    SubsetSize(PreflightAgents(targets, agents), PreflightKeys(targets));
    SubsetSize(RotationPairs(targets, agents), RotationKeys(targets));
  }

  function WorkersLoad(plan: Plan, workers: seq<Worker>, clocks: seq<Clock>, ops: bool): nat
    requires ValidPlan(plan) && |clocks| == |workers|
  {
    if workers == [] then 0
    else
      var n := |workers| - 1;
      WorkersLoad(plan, workers[..n], clocks[..n], ops) + Load(WorkerActions(plan, workers[n], clocks[n]), ops)
  }

  lemma {:induction false} WorkersBounded(plan: Plan, agents: seq<string>, workers: seq<Worker>, clocks: seq<Clock>, ops: bool)
    requires ValidPlan(plan) && WorkersOf(agents, workers) && |clocks| == |workers|
    ensures WorkersLoad(plan, workers, clocks, ops) <= AgentsLoad(plan.targets, agents, ops)
  {
    hide WorkerActions, AgentRoundLoad, TargetsOf, Load, ValidTarget;
    if workers != [] {
      var n := |workers| - 1;
      WorkersBounded(plan, agents[..n], workers[..n], clocks[..n], ops);
      TargetsOfValid(plan.targets, agents[n]);
      WorkerSound(plan, workers[n], clocks[n], ops);
    }
  }

  lemma WorkerSound(plan: Plan, w: Worker, k: Clock, ops: bool)
    requires ValidPlan(plan)
    ensures ValidTargets(TargetsOf(plan.targets, w.agent))
    ensures Load(WorkerActions(plan, w, k), ops) <= AgentRoundLoad(TargetsOf(plan.targets, w.agent), ops)
  {
    hide AgentRoundLoad, RoundActions, RunRound, TargetsOf, Load, ValidTarget;
    TargetsOfValid(plan.targets, w.agent);
    AgentSound(w, TargetsOf(plan.targets, w.agent), k, ops);
  }

  /**
   Cost is sound: however the operations of a round turn out and however long they take, all
   agents together record at most AttemptsPerRound attempts and dispatch at most
   OperationsPerRound operations.
   */
  lemma CostIsSound(plan: Plan, workers: seq<Worker>, clocks: seq<Clock>)
    requires ValidPlan(plan) && Distinct(plan.agents)
    requires WorkersOf(plan.agents, workers) && |clocks| == |workers|
    ensures WorkersLoad(plan, workers, clocks, false) <= PlanAttempts(plan.targets)
    ensures WorkersLoad(plan, workers, clocks, true) <= PlanOperations(plan.targets)
  {
    hide WorkersLoad, AgentsLoad, PlanAttempts, PlanOperations, ValidTarget;
    WorkersBounded(plan, plan.agents, workers, clocks, false);
    WorkersBounded(plan, plan.agents, workers, clocks, true);
    AgentsBounded(plan.targets, plan.agents, false);
    AgentsBounded(plan.targets, plan.agents, true);
  }
}
