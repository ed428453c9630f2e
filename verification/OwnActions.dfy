/**
 Whose actions a worker performs: every report, problem, progress mark and cleanup record of a
 worker bears its own agent and round, and the first action of a round is a progress mark.
 */
module OwnActions {
  import opened Outcomes
  import opened CheckLoop
  import opened Plans
  import opened Rounds

  predicate Own(w: Worker, a: Action) {
    match a
    case Record(r) => r.agent == w.agent && r.round == w.round
    case Progress(agent, round, _) => agent == w.agent && round == w.round
    case Problem(agent, round, kind) => agent == w.agent && round == w.round && kind != Delivery
    case Cleaned(agent, round, _, _) => agent == w.agent && round == w.round
  }

  predicate AllOwn(w: Worker, actions: seq<Action>) {
    forall a :: a in actions ==> Own(w, a)
  }

  predicate Tagged(w: Worker, r: StepReport) {
    r.agent == w.agent && r.round == w.round
  }

  predicate TaggedChecks(w: Worker, checks: seq<Checked>) {
    forall c :: c in checks ==> Tagged(w, c.report)
  }

  predicate TaggedOptional(w: Worker, c: Option<Checked>) {
    c.Some? ==> Tagged(w, c.value.report)
  }

  predicate TaggedTry(w: Worker, r: RotationTry) {
    r.Tried? ==> Tagged(w, r.result.report)
  }

  predicate TaggedTries(w: Worker, tries: seq<RotationTry>) {
    forall r :: r in tries ==> TaggedTry(w, r)
  }

  predicate TaggedVisit(w: Worker, v: Visit) {
    && (v.rotation.Some? ==> TaggedTry(w, v.rotation.value))
    && (v.Barred? ==> forall r :: r in v.skips ==> Tagged(w, r))
    && (v.Visited? ==> TaggedOptional(w, v.connect) && TaggedOptional(w, v.wait) && TaggedChecks(w, v.checks))
  }

  predicate TaggedVisits(w: Worker, visits: seq<Visit>) {
    forall v :: v in visits ==> TaggedVisit(w, v)
  }

  // ---------------------------------------------------------------- what a worker produces

  lemma {:induction false} ChecksTagged(w: Worker, t: Target, i: nat, ready: bool, k: Clock)
    requires ValidTarget(t) && i <= |t.checks|
    ensures TaggedChecks(w, RunChecks(w, t, i, ready, k).0)
    decreases |t.checks| - i
  {
    hide Check, Continues;
    if i < |t.checks| {
      var (c, k1) := if ready then RunCheck(w, t.id, t.checks[i], k) else (Checked(Skipped(w, t, t.checks[i], Prerequisite), false, 0), k);
      ChecksTagged(w, t, i + 1, ready && Continues(t.checks[i], c.report), k1);
    }
  }

  lemma VisitTagged(w: Worker, t: Target, unsupported: set<string>, rotated: set<string>, k: Clock)
    requires ValidTarget(t)
    ensures TaggedVisit(w, VisitTarget(w, t, unsupported, rotated, k).0)
  {
    hide Check, RunChecks, RunCleanup, NormalizeBand, TaggedChecks;
    var body := if t.network.rotation == PerTarget then Rotate(w, t, "before_target", k).1 else k;
    var (connect, k1) := RunOptional(w, t, t.connect, true, body);
    var (wait, k2) := RunOptional(w, t, t.wait, Passed(connect), k1);
    ChecksTagged(w, t, 0, Passed(connect) && Passed(wait), k2);
  }

  lemma {:induction false} VisitsTagged(w: Worker, targets: seq<Target>, unsupported: set<string>, rotated: set<string>, k: Clock)
    requires ValidTargets(targets)
    ensures TaggedVisits(w, VisitAll(w, targets, unsupported, rotated, k).0)
  {
    hide VisitTarget, TaggedVisit, ValidTarget;
    if targets != [] {
      assert ValidTarget(targets[0]);
      VisitTagged(w, targets[0], unsupported, rotated, k);
      VisitsTagged(w, targets[1..], unsupported, rotated, VisitTarget(w, targets[0], unsupported, rotated, k).1);
    }
  }

  lemma {:induction false} RotationsTagged(w: Worker, targets: seq<Target>, phase: string, k: Clock)
    ensures TaggedTries(w, RotateAll(w, targets, phase, k).0)
  {
    hide Check;
    if targets != [] {
      RotationsTagged(w, targets[1..], phase, Rotate(w, targets[0], phase, k).1);
    }
  }

  // ---------------------------------------------------------------- and what that comes to as actions

  lemma {:induction false} ChecksOwn(w: Worker, checks: seq<Checked>)
    requires TaggedChecks(w, checks)
    ensures AllOwn(w, CheckedAllActions(w, checks))
  {
    if checks != [] {
      ChecksOwn(w, checks[..|checks| - 1]);
    }
  }

  lemma {:induction false} SkipsOwn(w: Worker, skips: seq<StepReport>)
    requires forall r :: r in skips ==> Tagged(w, r)
    ensures AllOwn(w, SkipActions(skips))
  {
    if skips != [] {
      SkipsOwn(w, skips[..|skips| - 1]);
      assert skips[|skips| - 1] in skips;
    }
  }

  lemma {:induction false} TriesOwn(w: Worker, tries: seq<RotationTry>)
    requires TaggedTries(w, tries)
    ensures AllOwn(w, RotationsActions(w, tries))
  {
    if tries != [] {
      TriesOwn(w, tries[..|tries| - 1]);
      assert TaggedTry(w, tries[|tries| - 1]);
    }
  }

  lemma {:induction false} PartsOwn(w: Worker, t: Target, parts: seq<Command>)
    ensures AllOwn(w, PartActions(w, t, parts))
  {
    if parts != [] {
      PartsOwn(w, t, parts[..|parts| - 1]);
    }
  }

  lemma {:induction false} CleanupOwn(w: Worker, t: Target, ops: seq<CleanedOp>)
    ensures AllOwn(w, CleanupActions(w, t, ops))
  {
    hide PartActions;
    if ops != [] {
      CleanupOwn(w, t, ops[..|ops| - 1]);
      PartsOwn(w, t, ops[|ops| - 1].parts);
    }
  }

  lemma OptionalOwn(w: Worker, c: Option<Checked>)
    requires TaggedOptional(w, c)
    ensures AllOwn(w, OptionalActions(w, c))
  {
  }

  lemma VisitOwn(w: Worker, t: Target, v: Visit)
    requires TaggedVisit(w, v)
    ensures AllOwn(w, VisitActions(w, t, v))
  {
    hide CheckedAllActions, SkipActions, CleanupActions, OptionalActions, VisitOutcome;
    if v.Barred? {
      SkipsOwn(w, v.skips);
    } else {
      OptionalOwn(w, v.connect);
      OptionalOwn(w, v.wait);
      ChecksOwn(w, v.checks);
      CleanupOwn(w, t, v.cleanup);
    }
  }

  lemma {:induction false} VisitsOwn(w: Worker, targets: seq<Target>, visits: seq<Visit>)
    requires |visits| == |targets| && TaggedVisits(w, visits)
    ensures AllOwn(w, VisitsActions(w, targets, visits))
  {
    hide VisitActions, TaggedVisit;
    if visits != [] {
      var n := |visits| - 1;
      VisitsOwn(w, targets[..n], visits[..n]);
      VisitOwn(w, targets[n], visits[n]);
    }
  }

  /** A worker speaks for its own agent and round only, and begins each round by showing progress. */
  lemma WorkerOwns(plan: Plan, w: Worker, k: Clock)
    requires ValidPlan(plan)
    ensures AllOwn(w, WorkerActions(plan, w, k))
    ensures WorkerActions(plan, w, k) != [] && WorkerActions(plan, w, k)[0] == Progress(w.agent, w.round, Pass)
  {
    hide VisitAll, RotateAll, VisitsActions, RotationsActions, Check, TaggedVisits, TaggedTries, RotationTargets, FirstBanded, OptionalActions, ValidTarget;
    TargetsOfValid(plan.targets, w.agent);
    var targets := TargetsOf(plan.targets, w.agent);
    var rotating := RotationTargets(targets, {});
    var (preflight, k1) := Preflight(w, targets, k);
    var (before, k2) := RotateAll(w, rotating, "before_round", k1);
    var unsupported, rotated := UnsupportedBands(preflight), RotatedSsids(rotating, before);
    var (visits, k3) := VisitAll(w, targets, unsupported, rotated, k2);
    OptionalOwn(w, preflight);
    RotationsTagged(w, rotating, "before_round", k1);
    VisitsTagged(w, targets, unsupported, rotated, k2);
    RotationsTagged(w, rotating, "after_round", k3);
    var r := RunRound(w, targets, k).0;
    TriesOwn(w, r.before);
    TriesOwn(w, r.after);
    VisitsOwn(w, targets, r.visits);
  }
}
