/**
 The price of a plan is what a round comes to when everything passes at once: Cost charges no more
 than that for policies that neither retry nor sample.
 */
module PriceAttained {
  import opened Outcomes
  import opened Policies
  import opened CheckLoop
  import opened Plans
  import opened Rounds
  import opened Costs
  import opened CostSoundness

  // ---------------------------------------------------------------- one check

  const GOOD := Reply(
    0, None, false, false, false, NoError, true, FirstPart(false, true, StatusOk, true, true), Typed(StatusOk, true, []), {})

  /** A world in which everything passes at once. */
  ghost predicate Obliging(o: Oracle) {
    forall x, n :: o(x, n) == GOOD
  }

  predicate Untroubled(c: Ctx) {
    c.cause.None? && c.done.None? && c.now < c.limit
  }

  /** A policy that neither retries nor samples; it may repeat. */
  predicate Plain(p: Policy) {
    Runnable(p) && p.attempts == 1 && p.eventually == 0 && p.stableFor == 0
  }

  /** An attempt that dispatched all that its operation consists of. */
  predicate Full(a: Attempt, op: Operation) {
    a.parts == Constituents(op) && a.bands == {}
  }

  predicate AllFull(log: seq<Attempt>, op: Operation) {
    forall i :: 0 <= i < |log| ==> Full(log[i], op)
  }

  lemma GoodPasses()
    ensures Evaluate(NoError, None, GOOD.raw) == Pass
  {
  }

  lemma FullAttempt(e: Env, s: State, repeat: nat)
    requires Obliging(e.oracle) && Untroubled(s.c)
    ensures var (s', o) := Attempted(e, s, repeat, 1, 1, None);
      && o == Pass && s'.c == s.c.(next := s.c.next + 2) && |s'.log| == |s.log| + 1 && Full(s'.log[|s.log|], e.op)
  {
    hide Evaluate;
    GoodPasses();
    assert e.oracle(Acquiring, s.c.next) == GOOD && e.oracle(Delivering, s.c.next + 1) == GOOD;
  }

  lemma FullRepeat(e: Env, s: State, repeat: nat)
    requires Obliging(e.oracle) && Untroubled(s.c) && Plain(e.policy)
    ensures var r := Samples(e, s, repeat, 1, s.c.now + e.policy.eventually, None, []);
      && r.ending == Pass && r.s.c == s.c.(next := s.c.next + 3) && |r.s.log| == |s.log| + 1 && Full(r.s.log[|s.log|], e.op)
  {
    hide Attempted, Full;
    var c := s.c.(next := s.c.next + 1);
    assert e.oracle(Waiting, s.c.next) == GOOD;
    assert Wait(e.oracle, s.c) == (c, None);
    FullAttempt(e, s.(c := c), repeat);
  }

  lemma {:induction false} FullRepeats(e: Env, s: State, repeat: nat, problem: bool, done: seq<Repeat>)
    requires Obliging(e.oracle) && Untroubled(s.c) && Plain(e.policy) && 1 <= repeat <= e.policy.repeat + 1 && AllFull(s.log, e.op)
    ensures var r := Repeats(e, s, repeat, Pass, problem, done);
      && r.outcome == Pass && AllFull(r.log, e.op) && |r.log| == |s.log| + (e.policy.repeat + 1 - repeat)
    decreases e.policy.repeat + 1 - repeat
  {
    hide Samples, Full;
    if repeat <= e.policy.repeat {
      var s0 := s.(lastError := NoError);
      FullRepeat(e, s0, repeat);
      var end := Samples(e, s0, repeat, 1, s0.c.now + e.policy.eventually, None, []);
      assert s0.log <= end.s.log;
      forall i | 0 <= i < |end.s.log|
        ensures Full(end.s.log[i], e.op)
      {
        assert i < |s.log| ==> end.s.log[i] == s.log[i];
      }
      FullRepeats(e, end.s, repeat + 1, problem, done + [Repeat(s.c.now, end.samples, end.ending)]);
    }
  }

  lemma {:induction false} FullParts(log: seq<Attempt>, op: Operation)
    requires AllFull(log, op)
    ensures PartsCount(log) == |log| * |Constituents(op)|
  {
    hide Constituents;
    if log != [] {
      var n := |log| - 1;
      FullParts(log[..n], op);
      assert Full(log[n], op);
      assert (n + 1) * |Constituents(op)| == n * |Constituents(op)| + |Constituents(op)|;
    }
  }

  lemma PlainBudget(s: Step)
    requires Normalized(s.policy) && Plain(s.policy)
    ensures StepAttempts(s) == s.policy.repeat
  {
  }

  lemma CheckAttains(w: Worker, target: string, s: Step, k: Clock, ops: bool)
    requires Obliging(w.oracle) && Normalized(s.policy) && Plain(s.policy)
    ensures var r := RunCheck(w, target, s, k).0.report;
      && r.outcome == Pass && r.reason == NotSkipped && r.attempts != [] && AllFull(r.attempts, s.operation)
      && Weight(Record(r), ops) == StepLoad(s, ops)
  {
    hide Repeats, PartsCount, Constituents, AttemptBudget, Full;
    var e := Env(w.oracle, s.operation, s.policy);
    assert e.oracle(Starting, k.next) == GOOD && e.oracle(Delivering, k.next + 1) == GOOD;
    FullRepeats(e, State(Begin(e, k.now, k.next), [], NoError), 1, false, []);
    FullParts(Check(e, k.now, k.next).log, s.operation);
    PlainBudget(s);
  }

  // ---------------------------------------------------------------- one target

  lemma CheckedAttains(w: Worker, target: string, s: Step, k: Clock, ops: bool)
    requires Obliging(w.oracle) && Normalized(s.policy) && Plain(s.policy)
    ensures Load(CheckedActions(w, RunCheck(w, target, s, k).0), ops) == StepLoad(s, ops)
  {
    hide RunCheck, Weight, CheckedActions, StepLoad, AllFull;
    CheckedLoad(w, RunCheck(w, target, s, k).0, ops);
    CheckAttains(w, target, s, k, ops);
  }

  lemma OptionalAttains(w: Worker, t: Target, s: Option<Step>, k: Clock, ops: bool)
    requires Obliging(w.oracle) && (s.Some? ==> Normalized(s.value.policy) && Plain(s.value.policy))
    ensures var c := RunOptional(w, t, s, true, k).0;
      && Load(OptionalActions(w, c), ops) == OptionLoad(s, ops)
      && Passed(c) && (c.Some? <==> s.Some?) && (c.Some? ==> c.value.report.attempts != [])
  {
    hide RunCheck, Weight, CheckedActions, StepLoad, AllFull, Load;
    LoadOne(Progress(w.agent, w.round, Pass), ops);
    if s.Some? {
      CheckedAttains(w, t.id, s.value, k, ops);
      CheckAttains(w, t.id, s.value, k, ops);
    }
  }

  lemma RotateAttains(w: Worker, t: Target, phase: string, k: Clock, ops: bool)
    requires Obliging(w.oracle) && t.network.forgettable
    ensures var r := Rotate(w, t, phase, k).0;
      Rotated(r) && Load(RotationActions(w, r), ops) == 1
  {
    hide RunCheck, Weight, CheckedActions, StepLoad, AllFull, Load;
    CheckedAttains(w, t.id, RotationStep(phase), k, ops);
    CheckAttains(w, t.id, RotationStep(phase), k, ops);
    OnceLoad(RotationStep(phase), ops);
  }

  predicate PlainTarget(t: Target) {
    && (forall s :: s in Steps(t) ==> Plain(s.policy))
    && (t.network.rotation != NoRotation || t.network.forgetAfter ==> t.network.forgettable)
  }

  lemma {:induction false} ChecksAttain(w: Worker, t: Target, i: nat, k: Clock, before: seq<Checked>, ops: bool)
    requires Obliging(w.oracle) && ValidTarget(t) && i == |before| <= |t.checks|
    requires forall j :: i <= j < |t.checks| ==> Plain(t.checks[j].policy)
    requires NormalizedSteps(t.checks[..i])
    requires Load(CheckedAllActions(w, before), ops) == StepsLoad(t.checks[..i], ops)
    ensures NormalizedSteps(t.checks)
    ensures Load(CheckedAllActions(w, before + RunChecks(w, t, i, true, k).0), ops) == StepsLoad(t.checks, ops)
    decreases |t.checks| - i
  {
    hide RunCheck, Weight, CheckedAllActions, Load, StepsLoad, StepLoad, AllFull, Plain, Obliging;
    if i == |t.checks| {
      assert t.checks[..i] == t.checks;
      assert before + RunChecks(w, t, i, true, k).0 == before;
    } else {
      var check := t.checks[i];
      var (c, k1) := RunCheck(w, t.id, check, k);
      CheckAttains(w, t.id, check, k, ops);
      CheckedSnoc(w, before, c, ops);
      assert t.checks[..i + 1] == t.checks[..i] + [check];
      StepsLoadSnoc(t.checks[..i], check, ops);
      ChecksAttain(w, t, i + 1, k1, before + [c], ops);
      assert before + RunChecks(w, t, i, true, k).0 == before + [c] + RunChecks(w, t, i + 1, true, k1).0;
    }
  }

  lemma AllChecksAttain(w: Worker, t: Target, k: Clock, ops: bool)
    requires Obliging(w.oracle) && ValidTarget(t) && forall j :: 0 <= j < |t.checks| ==> Plain(t.checks[j].policy)
    ensures NormalizedSteps(t.checks)
    ensures Load(CheckedAllActions(w, RunChecks(w, t, 0, true, k).0), ops) == StepsLoad(t.checks, ops)
  {
    hide RunChecks, StepLoad, Weight, Plain, Obliging;
    assert t.checks[..0] == [];
    StepsLoadNone(ops);
    LoadOne(Progress(w.agent, w.round, Pass), ops);
    ChecksAttain(w, t, 0, k, [], ops);
    assert [] + RunChecks(w, t, 0, true, k).0 == RunChecks(w, t, 0, true, k).0;
  }

  lemma {:induction false} CleanupAttains(w: Worker, t: Target, commands: seq<Command>, k: Clock, before: seq<CleanedOp>, ops: bool)
    requires forall c :: c in commands ==> Dispatchable(t.network, c)
    ensures Load(CleanupActions(w, t, before + RunCleanup(w, t.network, commands, k).0), ops)
      == Load(CleanupActions(w, t, before), ops) + if ops then |commands| else 0
  {
    hide Load, Evaluate, CleanedActions, Dispatchable;
    if commands == [] {
      assert before + RunCleanup(w, t.network, commands, k).0 == before;
    } else {
      var reply := w.oracle(Acquiring, k.next);
      var op := CleanedOp([commands[0]], Evaluate(reply.error, None, reply.raw));
      var k1 := Clock(k.now + reply.advance, k.next + 1);
      CleanupAttains(w, t, commands[1..], k1, before + [op], ops);
      assert before + RunCleanup(w, t.network, commands, k).0 == before + [op] + RunCleanup(w, t.network, commands[1..], k1).0;
      assert (before + [op])[..|before|] == before;
      CleanedFull(w, t, op, ops);
      LoadConcat(CleanupActions(w, t, before), CleanedActions(w, t, op), ops);
    }
  }

  lemma CleanedFull(w: Worker, t: Target, op: CleanedOp, ops: bool)
    requires |op.parts| == 1
    ensures Load(CleanedActions(w, t, op), ops) == One(ops)
  {
    hide Load;
    var problem: seq<Action> := if op.outcome != Pass then [Problem(w.agent, w.round, Cleanup)] else [];
    LoadConcat(problem, PartActions(w, t, op.parts), ops);
    LoadOne(Problem(w.agent, w.round, Cleanup), ops);
    PartsLoad(w, t, op.parts, ops);
  }

  lemma OwnedAttains(w: Worker, t: Target, k: Clock, ops: bool)
    requires t.network.forgetAfter ==> t.network.forgettable
    ensures Load(CleanupActions(w, t, RunCleanup(w, t.network, CleanupCommands(t.network), k).0), ops)
      == if ops then One(t.network.disconnectAfter) + One(t.network.forgetAfter) else 0
  {
    hide Load, CleanupActions, RunCleanup;
    CleanupAttains(w, t, CleanupCommands(t.network), k, [], ops);
    NoCleanup(w, t, ops);
    var done := RunCleanup(w, t.network, CleanupCommands(t.network), k).0;
    assert [] + done == done;
  }

  lemma BodyAttains(w: Worker, t: Target, rotation: Option<RotationTry>, k: Clock, ops: bool)
    requires Obliging(w.oracle) && ValidTarget(t) && PlainTarget(t)
    ensures Load(BodyActions(w, t, RunBody(w, t, rotation, k).0), ops) + One(t.network.rotation == PerTarget) == AgentLoad(t, ops)
  {
    hide RunOptional, RunChecks, RunCleanup, CleanupCommands, CheckedAllActions, CleanupActions, OptionalActions, Load, Weight,
         StepsLoad, StepLoad, AgentLoad, OptionLoad, VisitOutcome, Passed, Plain, Obliging;
    AgentLoadParts(t, ops);
    StepsPlain(t);
    var (connect, k1) := RunOptional(w, t, t.connect, true, k);
    OptionalAttains(w, t, t.connect, k, ops);
    var (wait, k2) := RunOptional(w, t, t.wait, true, k1);
    OptionalAttains(w, t, t.wait, k1, ops);
    var (checks, k3) := RunChecks(w, t, 0, true, k2);
    AllChecksAttain(w, t, k2, ops);
    OwnedAttains(w, t, k3, ops);
    NoCleanup(w, t, ops);
    var v := RunBody(w, t, rotation, k).0;
    var a, b, c, d := OptionalActions(w, v.connect), OptionalActions(w, v.wait), CheckedAllActions(w, v.checks), CleanupActions(w, t, v.cleanup);
    var p := Progress(w.agent, w.round, VisitOutcome(v));
    LoadOne(p, ops);
    ProgressWeight(p, ops);
    LoadConcat(a, b, ops);
    LoadConcat(a + b, c, ops);
    LoadConcat(a + b + c, d, ops);
    LoadConcat(a + b + c + d, [p], ops);
  }

  lemma StepsPlain(t: Target)
    requires PlainTarget(t)
    ensures t.connect.Some? ==> Plain(t.connect.value.policy)
    ensures t.wait.Some? ==> Plain(t.wait.value.policy)
    ensures forall j :: 0 <= j < |t.checks| ==> Plain(t.checks[j].policy)
  {
    hide Plain;
    var steps := Steps(t);
    forall s | s in AsStep(t.connect) || s in AsStep(t.wait) || s in t.checks
      ensures Plain(s.policy)
    {
      assert s in steps;
    }
  }

  lemma VisitAttains(w: Worker, t: Target, rotated: set<string>, k: Clock, ops: bool)
    requires Obliging(w.oracle) && ValidTarget(t) && PlainTarget(t)
    requires t.network.rotation == PerRound ==> t.network.ssid in rotated
    ensures Load(VisitActions(w, t, VisitTarget(w, t, {}, rotated, k).0), ops) == AgentLoad(t, ops)
  {
    hide RunBody, Rotate, BodyActions, SkipActions, RotationActions, Load, AgentLoad, Steps, NormalizeBand, Rotated, Plain, Obliging;
    var v := VisitTarget(w, t, {}, rotated, k).0;
    LoadOne(Progress(w.agent, w.round, Pass), ops);
    var head := if v.rotation.Some? then RotationActions(w, v.rotation.value) else [];
    var k' := k;
    if t.network.rotation == PerTarget {
      RotateAttains(w, t, "before_target", k, ops);
      k' := Rotate(w, t, "before_target", k).1;
    }
    BodyAttains(w, t, v.rotation, k', ops);
    LoadConcat(head, BodyActions(w, t, v), ops);
  }

  // ---------------------------------------------------------------- one agent

  predicate PlainTargets(targets: seq<Target>) {
    forall i :: 0 <= i < |targets| ==> PlainTarget(targets[i])
  }

  lemma {:induction false} VisitsAttain(
      w: Worker, targets: seq<Target>, n: nat, rotated: set<string>, k: Clock, done: seq<Visit>, ops: bool)
    requires Obliging(w.oracle) && ValidTargets(targets) && PlainTargets(targets) && |done| == n <= |targets|
    requires forall t :: t in targets && t.network.rotation == PerRound ==> t.network.ssid in rotated
    requires Load(VisitsActions(w, targets[..n], done), ops) == TargetsLoad(targets[..n], ops)
    ensures Load(VisitsActions(w, targets, done + VisitAll(w, targets[n..], {}, rotated, k).0), ops) == TargetsLoad(targets, ops)
    decreases |targets| - n
  {
    hide VisitTarget, VisitActions, AgentLoad, Load, TargetsLoad, ValidTarget, PlainTarget, Obliging;
    if n == |targets| {
      assert targets[..n] == targets;
      assert done + VisitAll(w, targets[n..], {}, rotated, k).0 == done;
    } else {
      var (v, k1) := VisitTarget(w, targets[n], {}, rotated, k);
      VisitAttains(w, targets[n], rotated, k, ops);
      TargetsLoadSnoc(targets, n, ops);
      VisitsLoadStep(w, targets, n, done, v, ops);
      var done' := done + [v];
      VisitsAttain(w, targets, n + 1, rotated, k1, done', ops);
      assert targets[n..][1..] == targets[n + 1..];
      assert done + VisitAll(w, targets[n..], {}, rotated, k).0 == done' + VisitAll(w, targets[n + 1..], {}, rotated, k1).0;
    }
  }

  lemma {:induction false} RotationsAttain(
      w: Worker, targets: seq<Target>, n: nat, phase: string, k: Clock, done: seq<RotationTry>, ops: bool)
    requires Obliging(w.oracle) && |done| == n <= |targets|
    requires forall t :: t in targets ==> t.network.forgettable
    requires Load(RotationsActions(w, done), ops) == n && forall i :: 0 <= i < n ==> Rotated(done[i])
    ensures var all := done + RotateAll(w, targets[n..], phase, k).0;
      && Load(RotationsActions(w, all), ops) == |targets| == |all|
      && forall i :: 0 <= i < |all| ==> Rotated(all[i])
    decreases |targets| - n
  {
    hide Rotate, RotationActions, Load, Rotated, Obliging;
    if n == |targets| {
      assert done + RotateAll(w, targets[n..], phase, k).0 == done;
    } else {
      var (r, k1) := Rotate(w, targets[n], phase, k);
      RotateAttains(w, targets[n], phase, k, ops);
      var done' := done + [r];
      assert done'[..n] == done;
      LoadConcat(RotationsActions(w, done), RotationActions(w, r), ops);
      RotationsAttain(w, targets, n + 1, phase, k1, done', ops);
      assert targets[n..][1..] == targets[n + 1..];
      assert done + RotateAll(w, targets[n..], phase, k).0 == done' + RotateAll(w, targets[n + 1..], phase, k1).0;
    }
  }

  lemma AllRotationsAttain(w: Worker, targets: seq<Target>, phase: string, k: Clock, ops: bool)
    requires Obliging(w.oracle) && forall t :: t in targets ==> t.network.forgettable
    ensures var all := RotateAll(w, targets, phase, k).0;
      && Load(RotationsActions(w, all), ops) == |targets| == |all|
      && forall i :: 0 <= i < |all| ==> Rotated(all[i])
  {
    hide RotateAll, Rotated, Obliging;
    LoadOne(Progress(w.agent, w.round, Pass), ops);
    assert targets[0..] == targets;
    RotationsAttain(w, targets, 0, phase, k, [], ops);
    assert [] + RotateAll(w, targets, phase, k).0 == RotateAll(w, targets, phase, k).0;
  }

  /** A target that rotates per round has one of its SSID under which the round rotates. */
  lemma {:induction false} RotatingCovered(targets: seq<Target>, seen: set<string>, t: Target) returns (i: nat)
    requires t in targets && t.network.rotation == PerRound && t.network.ssid !in seen
    ensures i < |RotationTargets(targets, seen)| && RotationTargets(targets, seen)[i].network.ssid == t.network.ssid
  {
    var first, rest := targets[0], targets[1..];
    assert targets == [first] + rest;
    if first.network.rotation == PerRound && first.network.ssid !in seen {
      if first.network.ssid == t.network.ssid {
        i := 0;
      } else {
        i := RotatingCovered(rest, seen + {first.network.ssid}, t);
        i := i + 1;
      }
    } else {
      i := RotatingCovered(rest, seen, t);
    }
  }

  lemma {:induction false} RotatingRotate(targets: seq<Target>, seen: set<string>)
    ensures forall t :: t in RotationTargets(targets, seen) ==> t in targets && t.network.rotation == PerRound
  {
    if targets != [] {
      RotatingRotate(targets[1..], seen);
      RotatingRotate(targets[1..], seen + {targets[0].network.ssid});
    }
  }

  lemma PreflightAttains(w: Worker, targets: seq<Target>, k: Clock, ops: bool)
    requires Obliging(w.oracle)
    ensures Load(OptionalActions(w, Preflight(w, targets, k).0), ops) == One(AnyBanded(targets))
    ensures UnsupportedBands(Preflight(w, targets, k).0) == {}
  {
    hide RunCheck, Weight, CheckedActions, StepLoad, FirstBanded, Load, AnyBanded, Obliging;
    FirstBandedFound(targets);
    LoadOne(Progress(w.agent, w.round, Pass), ops);
    var c := Preflight(w, targets, k).0;
    if c.Some? {
      CheckedAttains(w, "preflight", CapabilityStep(), k, ops);
      CheckAttains(w, "preflight", CapabilityStep(), k, ops);
      OnceLoad(CapabilityStep(), ops);
      assert Full(c.value.report.attempts[|c.value.report.attempts| - 1], CapabilityStep().operation);
    }
  }

  lemma AgentAttains(w: Worker, targets: seq<Target>, k: Clock, ops: bool)
    requires Obliging(w.oracle) && ValidTargets(targets) && PlainTargets(targets)
    ensures Load(RoundActions(w, targets, RunRound(w, targets, k).0), ops) == AgentRoundLoad(targets, ops)
  {
    hide Preflight, RotateAll, RotationTargets, VisitAll, VisitsActions, OptionalActions, RotationsActions,
         UnsupportedBands, Load, TargetsLoad, AnyBanded, RotatingSsids, ValidTarget, Obliging, Rotated;
    var rotating := RotationTargets(targets, {});
    RotationTargetsCount(targets, {});
    RotatingRotate(targets, {});
    assert RotatingSsids(targets) - {} == RotatingSsids(targets);
    forall t | t in rotating
      ensures t.network.forgettable
    {
      var i :| 0 <= i < |targets| && targets[i] == t;
      assert PlainTarget(targets[i]);
    }
    var (preflight, k1) := Preflight(w, targets, k);
    var (before, k2) := RotateAll(w, rotating, "before_round", k1);
    var rotated := RotatedSsids(rotating, before);
    var (visits, k3) := VisitAll(w, targets, {}, rotated, k2);
    PreflightAttains(w, targets, k, ops);
    AllRotationsAttain(w, rotating, "before_round", k1, ops);
    forall t | t in targets && t.network.rotation == PerRound
      ensures t.network.ssid in rotated
    {
      var i := RotatingCovered(targets, {}, t);
      assert Rotated(before[i]);
    }
    AllRotationsAttain(w, rotating, "after_round", k3, ops);
    AllVisitsAttain(w, targets, rotated, k2, ops);
    var r := RunRound(w, targets, k).0;
    var p := Progress(w.agent, w.round, Pass);
    LoadOne(p, ops);
    ProgressWeight(p, ops);
    var a, b, c, d := OptionalActions(w, r.preflight), RotationsActions(w, r.before), VisitsActions(w, targets, r.visits), RotationsActions(w, r.after);
    LoadConcat([p], a, ops);
    LoadConcat([p] + a, b, ops);
    LoadConcat([p] + a + b, c, ops);
    LoadConcat([p] + a + b + c, d, ops);
    LoadConcat([p] + a + b + c + d, [p], ops);
  }

  lemma AllVisitsAttain(w: Worker, targets: seq<Target>, rotated: set<string>, k: Clock, ops: bool)
    requires Obliging(w.oracle) && ValidTargets(targets) && PlainTargets(targets)
    requires forall t :: t in targets && t.network.rotation == PerRound ==> t.network.ssid in rotated
    ensures Load(VisitsActions(w, targets, VisitAll(w, targets, {}, rotated, k).0), ops) == TargetsLoad(targets, ops)
  {
    hide VisitAll, AgentLoad, ValidTarget, PlainTarget, Obliging;
    LoadOne(Progress(w.agent, w.round, Pass), ops);
    assert targets[..0] == [] && targets[0..] == targets;
    VisitsAttain(w, targets, 0, rotated, k, [], ops);
    assert [] + VisitAll(w, targets, {}, rotated, k).0 == VisitAll(w, targets, {}, rotated, k).0;
  }

  // ---------------------------------------------------------------- all agents

  /** Every target is bound to agents of the plan, and to none twice. */
  predicate WellBound(p: Plan) {
    && Distinct(p.agents)
    && forall i :: 0 <= i < |p.targets| ==> Distinct(p.targets[i].agents) && AsSet(p.targets[i].agents) <= AsSet(p.agents)
  }

  lemma {:induction false} DistinctSize(s: seq<string>)
    requires Distinct(s)
    ensures |AsSet(s)| == |s|
  {
    if s != [] {
      hide Distinct;
      var front, a := s[..|s| - 1], s[|s| - 1];
      assert s == front + [a];
      FrontDistinct(front, a);
      AsSetFront(front, a);
      DistinctSize(front);
    }
  }

  lemma AllMembers(agents: seq<string>, bound: seq<string>)
    requires Distinct(agents) && Distinct(bound) && AsSet(bound) <= AsSet(agents)
    ensures Members(agents, bound) == |bound|
  {
    hide Distinct, Members;
    MembersMeet(agents, AsSet(bound), bound);
    DistinctSize(bound);
    assert AsSet(agents) * AsSet(bound) == AsSet(bound);
  }

  lemma {:induction false} VisitsPriceAttained(targets: seq<Target>, agents: seq<string>, ops: bool)
    requires ValidTargets(targets) && WellBound(Plan(targets, agents))
    ensures VisitsPrice(targets, agents, ops) == ListedPrice(targets, ops)
  {
    if targets == [] {
      NoTargets(agents, ops);
      NothingListed(ops);
    } else {
      hide AgentLoad, ListedPrice, ValidTarget, Distinct, AsSet;
      var t, rest := targets[0], targets[1..];
      assert ValidTarget(t) && Distinct(targets[0].agents);
      assert WellBound(Plan(rest, agents)) by {
        forall i | 0 <= i < |rest|
          ensures Distinct(rest[i].agents) && AsSet(rest[i].agents) <= AsSet(agents)
        {
          assert rest[i] == targets[i + 1];
        }
      }
      VisitsPriceAttained(rest, agents, ops);
      VisitsPriceCons(t, rest, agents, ops);
      AllMembers(agents, t.agents);
      assert [t] + rest == targets && rest[..|rest|] == rest;
      ListedPriceCons(t, rest, |rest|, ops);
    }
  }

  lemma {:induction false} BoundHas(targets: seq<Target>, agent: string, t: Target)
    requires t in targets && agent in t.agents
    ensures t in TargetsOf(targets, agent)
  {
    if targets[0] != t {
      assert targets == [targets[0]] + targets[1..];
      BoundHas(targets[1..], agent, t);
    }
  }

  lemma KeysAttained(p: Plan)
    requires ValidPlan(p) && WellBound(p)
    ensures PreflightAgents(p.targets, p.agents) == PreflightKeys(p.targets)
    ensures RotationPairs(p.targets, p.agents) == RotationKeys(p.targets)
  {
    hide TargetsOf, ValidTarget, Distinct;
    KeysCovered(p.targets, p.agents);
    forall t, a | t in p.targets && a in t.agents
      ensures a in p.agents && t in TargetsOf(p.targets, a)
    {
      var i :| 0 <= i < |p.targets| && p.targets[i] == t;
      assert a in AsSet(p.targets[i].agents);
      BoundHas(p.targets, a, t);
    }
    forall key | key in RotationKeys(p.targets)
      ensures key in RotationPairs(p.targets, p.agents)
    {
      var t, a :| t in p.targets && t.network.rotation == PerRound && a in t.agents && key == (a, t.network.ssid);
      assert t.network.ssid in RotatingSsids(TargetsOf(p.targets, a));
    }
  }

  lemma AgentsAttain(p: Plan, ops: bool)
    requires ValidPlan(p) && WellBound(p)
    ensures AgentsLoad(p.targets, p.agents, ops) == PlanLoad(p.targets, ops)
  {
    hide AgentsLoad, VisitsPrice, PreflightAgents, RotationPairs, PreflightKeys, RotationKeys, TargetsAttempts, TargetsOperations, ValidTarget;
    AgentsLoadParts(p.targets, p.agents, ops);
    VisitsPriceAttained(p.targets, p.agents, ops);
    KeysAttained(p);
  }

  lemma {:induction false} WorkersAttain(plan: Plan, agents: seq<string>, workers: seq<Worker>, clocks: seq<Clock>, ops: bool)
    requires ValidPlan(plan) && PlainTargets(plan.targets) && WorkersOf(agents, workers) && |clocks| == |workers|
    requires forall i :: 0 <= i < |workers| ==> Obliging(workers[i].oracle)
    ensures WorkersLoad(plan, workers, clocks, ops) == AgentsLoad(plan.targets, agents, ops)
  {
    hide WorkerActions, AgentRoundLoad, TargetsOf, Load, ValidTarget, Obliging, PlainTarget;
    if workers != [] {
      var n := |workers| - 1;
      WorkersAttain(plan, agents[..n], workers[..n], clocks[..n], ops);
      TargetsOfValid(plan.targets, agents[n]);
      WorkerAttains(plan, workers[n], clocks[n], ops);
    }
  }

  lemma WorkerAttains(plan: Plan, w: Worker, k: Clock, ops: bool)
    requires ValidPlan(plan) && PlainTargets(plan.targets) && Obliging(w.oracle)
    ensures ValidTargets(TargetsOf(plan.targets, w.agent))
    ensures Load(WorkerActions(plan, w, k), ops) == AgentRoundLoad(TargetsOf(plan.targets, w.agent), ops)
  {
    hide AgentRoundLoad, RoundActions, RunRound, TargetsOf, Load, ValidTarget, Obliging, PlainTarget;
    TargetsOfValid(plan.targets, w.agent);
    var mine := TargetsOf(plan.targets, w.agent);
    forall i | 0 <= i < |mine|
      ensures PlainTarget(mine[i])
    {
      assert mine[i] in mine;
    }
    AgentAttains(w, mine, k, ops);
  }

  /**
   Cost is exact where nothing is left to chance: when policies neither retry nor sample and every SSID
   to forget can be forgotten, a round in which everything passes at once records exactly
   AttemptsPerRound attempts and dispatches exactly OperationsPerRound operations.
   */
  lemma PriceIsAttained(plan: Plan, workers: seq<Worker>, clocks: seq<Clock>)
    requires ValidPlan(plan) && WellBound(plan) && PlainTargets(plan.targets)
    requires WorkersOf(plan.agents, workers) && |clocks| == |workers|
    requires forall i :: 0 <= i < |workers| ==> Obliging(workers[i].oracle)
    ensures WorkersLoad(plan, workers, clocks, false) == PlanAttempts(plan.targets)
    ensures WorkersLoad(plan, workers, clocks, true) == PlanOperations(plan.targets)
  {
    hide WorkersLoad, AgentsLoad, PlanAttempts, PlanOperations, ValidTarget, Obliging;
    WorkersAttain(plan, plan.agents, workers, clocks, false);
    WorkersAttain(plan, plan.agents, workers, clocks, true);
    AgentsAttain(plan, false);
    AgentsAttain(plan, true);
  }
}
