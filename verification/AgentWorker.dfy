/**
 The loops of an agent worker as the program runs them: each appends report actions one
 by one, and is proved to append exactly those of the structured account in Rounds.
 */
module AgentWorker {
  import opened Outcomes
  import opened Policies
  import opened CheckLoop
  import opened Plans
  import opened Rounds

  method CheckNow(w: Worker, target: string, s: Step, k: Clock)
    returns (report: StepReport, actions: seq<Action>, k': Clock, attempted: bool)
    requires Runnable(s.policy)
    ensures var (c, k1) := RunCheck(w, target, s, k);
      && report == c.report && actions == CheckedActions(w, c) && k' == k1
      && (attempted <==> c.report.attempts != [])
  {
    hide Check;
    var end;
    end, attempted := CheckAttempted(Env(w.oracle, s.operation, s.policy), k.now, k.next);
    actions := [];
    if end.problem {
      actions := actions + [Problem(w.agent, w.round, Primary)];
    }
    var reason := if end.outcome == Skip then Operator else NotSkipped;
    report := StepReport(w.agent, w.round, target, s.id, end.outcome, reason, end.log);
    actions := actions + [Record(report)];
    k' := Clock(end.c.now, end.c.next);
  }

  method RotateNow(w: Worker, t: Target, phase: string, k: Clock) returns (ok: bool, actions: seq<Action>, k': Clock)
    ensures var (r, k1) := Rotate(w, t, phase, k);
      ok == Rotated(r) && actions == RotationActions(w, r) && k' == k1
  {
    hide RunCheck;
    if !t.network.forgettable {
      return false, [Problem(w.agent, w.round, Primary)], k;
    }
    var report, attempted;
    report, actions, k', attempted := CheckNow(w, t.id, RotationStep(phase), k);
    ok := report.outcome == Pass;
  }

  method SkipTarget(w: Worker, t: Target, reason: SkipReason) returns (actions: seq<Action>)
    ensures actions == SkipActions(SkipSteps(w, t, Steps(t), reason))
  {
    actions := [];
    var steps := AsStep(t.connect) + AsStep(t.wait) + t.checks;
    ghost var skips := SkipSteps(w, t, steps, reason);
    for i := 0 to |steps|
      invariant actions == SkipActions(skips[..i])
    {
      actions := actions + [Record(Skipped(w, t, steps[i], reason))];
      assert skips[..i + 1][..i] == skips[..i];
    }
    assert skips[..|steps|] == skips;
  }

  method CleanOne(w: Worker, t: Target, command: Command, ghost ops: seq<Command>, k: Clock)
    returns (op: CleanedOp, actions: seq<Action>, k': Clock)
    requires ops != [] && ops[0] == command
    ensures RunCleanup(w, t.network, ops, k) == (var (rest, k1) := RunCleanup(w, t.network, ops[1..], k'); ([op] + rest, k1))
    ensures actions == CleanedActions(w, t, op)
  {
    hide Evaluate;
    var reply := w.oracle(Acquiring, k.next);
    var parts, state := [], Fail;
    if command != ForgetWifi || t.network.forgettable {
      parts := [command];
      state := EvaluateAttempt(reply.error, None, reply.raw);
    }
    actions := [];
    if state != Pass {
      actions := actions + [Problem(w.agent, w.round, Cleanup)];
    }
    var tail := PartsNow(w, t, parts);
    actions := actions + tail;
    k' := Clock(k.now + reply.advance, k.next + 1);
    op := CleanedOp(parts, state);
  }

  lemma CleanupSnoc(w: Worker, t: Target, done: seq<CleanedOp>, op: CleanedOp)
    ensures CleanupActions(w, t, done + [op]) == CleanupActions(w, t, done) + CleanedActions(w, t, op)
    ensures CleanupOutcome(done + [op]) == Combine(CleanupOutcome(done), op.outcome)
  {
    assert (done + [op])[..|done|] == done;
  }

  method CleanUp(w: Worker, t: Target, k: Clock) returns (outcome: Outcome, actions: seq<Action>, k': Clock)
    ensures var (ops, k1) := RunCleanup(w, t.network, CleanupCommands(t.network), k);
      outcome == CleanupOutcome(ops) && actions == CleanupActions(w, t, ops) && k' == k1
  {
    hide RunCleanup, CleanupActions, CleanupOutcome, CleanedActions;
    var ops := [];
    if t.network.disconnectAfter {
      ops := ops + [DisconnectWifi];
    }
    if t.network.forgetAfter {
      ops := ops + [ForgetWifi];
    }
    assert ops == CleanupCommands(t.network);
    outcome, actions, k' := Pass, [], k;
    ghost var done: seq<CleanedOp> := [];
    ghost var (total, end) := RunCleanup(w, t.network, ops, k);
    CleanupNone(w, t, k);
    assert ops[0..] == ops;
    for i := 0 to |ops|
      invariant outcome == CleanupOutcome(done) && actions == CleanupActions(w, t, done)
      invariant total == done + RunCleanup(w, t.network, ops[i..], k').0
      invariant end == RunCleanup(w, t.network, ops[i..], k').1
    {
      ghost var rest := ops[i..];
      var op, acts;
      op, acts, k' := CleanOne(w, t, ops[i], rest, k');
      assert rest[1..] == ops[i + 1..];
      CleanupSnoc(w, t, done, op);
      actions := actions + acts;
      outcome := Combine(outcome, op.outcome);
      done := done + [op];
    }
    CleanupNone(w, t, k');
    assert total == done;
  }

  method PartsNow(w: Worker, t: Target, parts: seq<Command>) returns (actions: seq<Action>)
    ensures actions == PartActions(w, t, parts)
  {
    actions := [];
    for j := 0 to |parts|
      invariant actions == PartActions(w, t, parts[..j])
    {
      assert parts[..j + 1][..j] == parts[..j];
      actions := actions + [Cleaned(w.agent, w.round, t.id, parts[j])];
    }
    assert parts[..|parts|] == parts;
  }

  lemma ChecksSnoc(w: Worker, done: seq<Checked>, c: Checked)
    ensures CheckedAllActions(w, done + [c]) == CheckedAllActions(w, done) + CheckedActions(w, c)
    ensures ChecksOutcome(done + [c]) ==
      if c.report.reason == Prerequisite then ChecksOutcome(done) else Combine(ChecksOutcome(done), c.report.outcome)
  {
    assert (done + [c])[..|done|] == done;
  }

  lemma ChecksStep(w: Worker, t: Target, i: nat, ready: bool, k: Clock)
    requires ValidTarget(t) && i < |t.checks|
    ensures
      var check := t.checks[i];
      var (c, k1) := if ready then RunCheck(w, t.id, check, k) else (Checked(Skipped(w, t, check, Prerequisite), false, 0), k);
      var (rest, k') := RunChecks(w, t, i + 1, ready && Continues(check, c.report), k1);
      RunChecks(w, t, i, ready, k) == ([c] + rest, k')
  {
  }

  /** The check loop of runTarget. */
  method ChecksNow(w: Worker, t: Target, ready0: bool, k: Clock) returns (outcome: Outcome, actions: seq<Action>, k': Clock)
    requires ValidTarget(t)
    ensures var (checks, k1) := RunChecks(w, t, 0, ready0, k);
      outcome == ChecksOutcome(checks) && actions == CheckedAllActions(w, checks) && k' == k1
  {
    hide RunCheck, RunChecks, CheckedAllActions, ChecksOutcome;
    outcome, actions, k' := Pass, [], k;
    var ready := ready0;
    ghost var done: seq<Checked> := [];
    ghost var (total, end) := RunChecks(w, t, 0, ready0, k);
    ChecksNone(w);
    for i := 0 to |t.checks|
      invariant outcome == ChecksOutcome(done) && actions == CheckedAllActions(w, done)
      invariant total == done + RunChecks(w, t, i, ready, k').0
      invariant end == RunChecks(w, t, i, ready, k').1
    {
      var check := t.checks[i];
      ChecksStep(w, t, i, ready, k');
      if !ready {
        var skip := Skipped(w, t, check, Prerequisite);
        ChecksSnoc(w, done, Checked(skip, false, 0));
        actions := actions + [Record(skip)];
        done := done + [Checked(skip, false, 0)];
        continue;
      }
      ghost var c := RunCheck(w, t.id, check, k').0;
      ChecksSnoc(w, done, c);
      var report, acts, attempted;
      report, acts, k', attempted := CheckNow(w, t.id, check, k');
      actions := actions + acts;
      outcome := Combine(outcome, report.outcome);
      if report.outcome != Pass && check.required {
        ready := false;
      }
      if report.outcome == Canceled || report.reason == Operator {
        ready := false;
      }
      done := done + [c];
    }
    ChecksEnd(w, t, ready, k');
    assert total == done;
  }

  lemma ChecksEnd(w: Worker, t: Target, ready: bool, k: Clock)
    requires ValidTarget(t)
    ensures RunChecks(w, t, |t.checks|, ready, k) == ([], k)
  {
  }

  lemma ChecksNone(w: Worker)
    ensures CheckedAllActions(w, []) == [] && ChecksOutcome([]) == Pass
  {
  }

  /** The part of runTarget that follows the rotation. */
  method BodyNow(w: Worker, t: Target, ghost rotation: Option<RotationTry>, k: Clock) returns (actions: seq<Action>, k': Clock)
    requires ValidTarget(t)
    ensures var (v, k1) := RunBody(w, t, rotation, k);
      actions == BodyActions(w, t, v) && k' == k1
  {
    hide RunCheck, RunChecks, RunCleanup, CheckedActions, CleanupCommands, CleanupActions,
         ChecksOutcome, CleanupOutcome, CheckedAllActions;
    CleanupNone(w, t, k);
    actions, k' := [], k;
    var attempted, outcome, ready := false, Pass, true;
    ghost var (connect, k1) := RunOptional(w, t, t.connect, true, k);
    ghost var (wait, k2) := RunOptional(w, t, t.wait, Passed(connect), k1);
    if t.connect.Some? {
      var report, acts;
      report, acts, k', attempted := CheckNow(w, t.id, t.connect.value, k');
      actions := actions + acts;
      outcome := Combine(outcome, report.outcome);
      ready := report.outcome == Pass;
    }
    assert actions == OptionalActions(w, connect) && k' == k1 && outcome == OutcomeOf(connect);
    if ready && t.wait.Some? {
      var report, acts, tried;
      report, acts, k', tried := CheckNow(w, t.id, t.wait.value, k');
      actions := actions + acts;
      outcome := Combine(outcome, report.outcome);
      ready := report.outcome == Pass;
    }
    assert actions == OptionalActions(w, connect) + OptionalActions(w, wait) && k' == k2;
    var checked, acts;
    checked, acts, k' := ChecksNow(w, t, ready, k');
    actions := actions + acts;
    outcome := Combine(outcome, checked);
    if attempted {
      var cleaned;
      cleaned, acts, k' := CleanUp(w, t, k');
      actions := actions + acts;
      outcome := Combine(outcome, cleaned);
    }
    actions := actions + [Progress(w.agent, w.round, outcome)];
  }

  lemma CleanupNone(w: Worker, t: Target, k: Clock)
    ensures CleanupActions(w, t, []) == [] && CleanupOutcome([]) == Pass
    ensures RunCleanup(w, t.network, [], k) == ([], k)
  {
  }

  /** runTarget: rotation, connection, wait, checks, cleanup. */
  method TargetNow(w: Worker, t: Target, k: Clock) returns (actions: seq<Action>, k': Clock)
    requires ValidTarget(t)
    ensures var (v, k1) := RunTarget(w, t, k);
      actions == VisitActions(w, t, v) && k' == k1
  {
    hide RunBody, BodyActions, SkipActions, Rotate, RotationActions;
    actions, k' := [], k;
    ghost var rotation: Option<RotationTry> := None;
    if t.network.rotation == PerTarget {
      rotation := Some(Rotate(w, t, "before_target", k).0);
      var ok, acts;
      ok, acts, k' := RotateNow(w, t, "before_target", k');
      actions := actions + acts;
      if !ok {
        var skips := SkipTarget(w, t, Prerequisite);
        actions := actions + skips;
        return;
      }
    }
    var acts;
    acts, k' := BodyNow(w, t, rotation, k');
    actions := actions + acts;
  }

  // ---------------------------------------------------------------- the round of one agent

  lemma FirstBandedAt(targets: seq<Target>, i: nat)
    requires i <= |targets| && forall j :: 0 <= j < i ==> !Banded(targets[j])
    ensures FirstBanded(targets) == i + FirstBanded(targets[i..])
  {
    hide Banded;
    if i > 0 {
      FirstBandedAt(targets[1..], i - 1);
      assert targets[1..][i - 1..] == targets[i..];
    } else {
      assert targets[0..] == targets;
    }
  }

  method PreflightNow(w: Worker, targets: seq<Target>, k: Clock)
    returns (unsupported: set<string>, actions: seq<Action>, k': Clock)
    ensures var (c, k1) := Preflight(w, targets, k);
      unsupported == UnsupportedBands(c) && actions == OptionalActions(w, c) && k' == k1
  {
    hide RunCheck, CheckedActions;
    unsupported, actions, k' := {}, [], k;
    for i := 0 to |targets|
      invariant forall j :: 0 <= j < i ==> !Banded(targets[j])
      invariant unsupported == {} && actions == [] && k' == k
    {
      if targets[i].network.band == "" || targets[i].network.band == "all" {
        continue;
      }
      FirstBandedAt(targets, i);
      var report, attempted;
      report, actions, k', attempted := CheckNow(w, "preflight", CapabilityStep(), k');
      if report.outcome == Pass && report.attempts != [] {
        var bands := report.attempts[|report.attempts| - 1].bands;
        unsupported := set b | b in bands :: NormalizeBand(b);
      }
      return;
    }
    FirstBandedAt(targets, |targets|);
  }

  lemma RotationsSnoc(w: Worker, done: seq<RotationTry>, r: RotationTry)
    ensures RotationsActions(w, done + [r]) == RotationsActions(w, done) + RotationActions(w, r)
  {
    assert (done + [r])[..|done|] == done;
  }

  lemma RotationNone(w: Worker, phase: string, k: Clock)
    ensures RotationsActions(w, []) == [] && RotateAll(w, [], phase, k) == ([], k)
  {
  }

  lemma RotateAllStep(w: Worker, targets: seq<Target>, phase: string, k: Clock)
    requires targets != []
    ensures
      var (r, k1) := Rotate(w, targets[0], phase, k);
      var (rest, k') := RotateAll(w, targets[1..], phase, k1);
      RotateAll(w, targets, phase, k) == ([r] + rest, k')
  {
  }

  lemma RotationTargetsStep(targets: seq<Target>, i: nat, seen: set<string>)
    requires i < |targets|
    ensures
      var t := targets[i];
      var rest := targets[i + 1..];
      RotationTargets(targets[i..], seen) ==
        if t.network.rotation == PerRound && t.network.ssid !in seen
        then [t] + RotationTargets(rest, seen + {t.network.ssid})
        else RotationTargets(rest, seen)
    ensures RotationTargets(targets[|targets|..], seen) == []
    ensures RotationTargets(targets[0..], seen) == RotationTargets(targets, seen)
  {
    assert targets[i..][1..] == targets[i + 1..];
    assert targets[0..] == targets;
  }

  function SucceededSsids(ok: map<string, bool>): set<string> {
    set s | s in ok && ok[s]
  }

  lemma RotatedSsidsSnoc(targets: seq<Target>, tries: seq<RotationTry>, t: Target, r: RotationTry)
    requires |tries| == |targets|
    ensures RotatedSsids(targets + [t], tries + [r]) ==
      RotatedSsids(targets, tries) + (if Rotated(r) then {t.network.ssid} else {})
  {
    var ts, rs := targets + [t], tries + [r];
    var a, b := RotatedSsids(ts, rs), RotatedSsids(targets, tries) + (if Rotated(r) then {t.network.ssid} else {});
    forall s | s in b
      ensures s in a
    {
      if s in RotatedSsids(targets, tries) {
        var i :| 0 <= i < |targets| && Rotated(tries[i]) && targets[i].network.ssid == s;
        assert ts[i] == targets[i] && rs[i] == tries[i];
      } else {
        assert ts[|targets|] == t && rs[|targets|] == r;
      }
    }
    forall s | s in a
      ensures s in b
    {
      var i :| 0 <= i < |ts| && Rotated(rs[i]) && ts[i].network.ssid == s;
      if i < |targets| {
        assert ts[i] == targets[i] && rs[i] == tries[i];
      }
    }
  }

  /** The rotations before the round: one per SSID, remembered in a map. */
  method RotateBefore(w: Worker, targets: seq<Target>, k: Clock)
    returns (rotationOK: map<string, bool>, actions: seq<Action>, k': Clock)
    ensures
      var rotating := RotationTargets(targets, {});
      var (tries, k1) := RotateAll(w, rotating, "before_round", k);
      && SucceededSsids(rotationOK) == RotatedSsids(rotating, tries)
      && actions == RotationsActions(w, tries) && k' == k1
    ensures forall t :: t in targets && t.network.rotation == PerRound ==> t.network.ssid in rotationOK
  {
    hide Rotate, RotateAll, RotationTargets, RotationsActions, RotationActions, RotatedSsids, Rotated;
    rotationOK, actions, k' := map[], [], k;
    ghost var rotating := RotationTargets(targets, {});
    ghost var (total, end) := RotateAll(w, rotating, "before_round", k);
    ghost var doneTargets: seq<Target>, done: seq<RotationTry> := [], [];
    RotationNone(w, "before_round", k);
    RotationTargetsAll(targets);
    assert rotationOK.Keys == {};
    for i := 0 to |targets|
      invariant |done| == |doneTargets| && |rotating| == |total|
      invariant rotating == doneTargets + RotationTargets(targets[i..], rotationOK.Keys)
      invariant total == done + RotateAll(w, RotationTargets(targets[i..], rotationOK.Keys), "before_round", k').0
      invariant end == RotateAll(w, RotationTargets(targets[i..], rotationOK.Keys), "before_round", k').1
      invariant actions == RotationsActions(w, done)
      invariant SucceededSsids(rotationOK) == RotatedSsids(doneTargets, done)
      invariant forall j :: 0 <= j < i && targets[j].network.rotation == PerRound ==> targets[j].network.ssid in rotationOK
    {
      var target := targets[i];
      RotationTargetsStep(targets, i, rotationOK.Keys);
      if target.network.rotation != PerRound || target.network.ssid in rotationOK {
        continue;
      }
      ghost var left := RotationTargets(targets[i..], rotationOK.Keys);
      RotateAllStep(w, left, "before_round", k');
      assert left[1..] == RotationTargets(targets[i + 1..], rotationOK.Keys + {target.network.ssid});
      ghost var r := Rotate(w, target, "before_round", k').0;
      RotatedSsidsSnoc(doneTargets, done, target, r);
      RotationsSnoc(w, done, r);
      var ok, acts;
      ok, acts, k' := RotateNow(w, target, "before_round", k');
      ghost var keys := rotationOK.Keys;
      rotationOK := rotationOK[target.network.ssid := ok];
      assert rotationOK.Keys == keys + {target.network.ssid};
      actions := actions + acts;
      doneTargets, done := doneTargets + [target], done + [r];
    }
    RotationTargetsEnd(targets, rotationOK.Keys);
    RotationNone(w, "before_round", k');
    assert rotating == doneTargets && total == done;
  }

  lemma RotationTargetsAll(targets: seq<Target>)
    ensures targets[0..] == targets && RotatedSsids([], []) == {}
  {
  }

  lemma RotationTargetsEnd(targets: seq<Target>, seen: set<string>)
    ensures RotationTargets(targets[|targets|..], seen) == []
  {
  }

  /** The rotations after the round, whatever became of those before it. */
  method RotateAfter(w: Worker, targets: seq<Target>, k: Clock) returns (actions: seq<Action>, k': Clock)
    ensures
      var (tries, k1) := RotateAll(w, RotationTargets(targets, {}), "after_round", k);
      actions == RotationsActions(w, tries) && k' == k1
  {
    hide Rotate, RotateAll, RotationTargets, RotationsActions, RotationActions;
    actions, k' := [], k;
    var seen: set<string> := {};
    ghost var (total, end) := RotateAll(w, RotationTargets(targets, {}), "after_round", k);
    ghost var done: seq<RotationTry> := [];
    RotationNone(w, "after_round", k);
    RotationTargetsAll(targets);
    for i := 0 to |targets|
      invariant total == done + RotateAll(w, RotationTargets(targets[i..], seen), "after_round", k').0
      invariant end == RotateAll(w, RotationTargets(targets[i..], seen), "after_round", k').1
      invariant actions == RotationsActions(w, done)
    {
      var target := targets[i];
      RotationTargetsStep(targets, i, seen);
      if target.network.rotation == PerRound && target.network.ssid !in seen {
        ghost var left := RotationTargets(targets[i..], seen);
        RotateAllStep(w, left, "after_round", k');
        seen := seen + {target.network.ssid};
        assert left[1..] == RotationTargets(targets[i + 1..], seen);
        ghost var r := Rotate(w, target, "after_round", k').0;
        RotationsSnoc(w, done, r);
        var ok, acts;
        ok, acts, k' := RotateNow(w, target, "after_round", k');
        actions := actions + acts;
        done := done + [r];
      }
    }
    RotationTargetsEnd(targets, seen);
    RotationNone(w, "after_round", k');
    assert total == done;
  }

  lemma VisitAllStep(w: Worker, targets: seq<Target>, i: nat, unsupported: set<string>, rotated: set<string>, k: Clock)
    requires ValidTargets(targets) && i < |targets|
    ensures
      var (v, k1) := VisitTarget(w, targets[i], unsupported, rotated, k);
      var (rest, k') := VisitAll(w, targets[i + 1..], unsupported, rotated, k1);
      VisitAll(w, targets[i..], unsupported, rotated, k) == ([v] + rest, k')
  {
    assert targets[i..][1..] == targets[i + 1..];
  }

  lemma VisitsSnoc(w: Worker, targets: seq<Target>, i: nat, done: seq<Visit>, v: Visit)
    requires i == |done| < |targets|
    ensures VisitsActions(w, targets[..i + 1], done + [v]) ==
      VisitsActions(w, targets[..i], done) + [Progress(w.agent, w.round, Pass)] + VisitActions(w, targets[i], v)
  {
    assert (done + [v])[..i] == done && targets[..i + 1][..i] == targets[..i];
  }

  /** One turn of the target loop: barred by band, barred by rotation, or visited. */
  method VisitNow(w: Worker, t: Target, unsupported: set<string>, rotationOK: map<string, bool>, k: Clock)
    returns (actions: seq<Action>, k': Clock)
    requires ValidTarget(t)
    requires t.network.rotation == PerRound ==> t.network.ssid in rotationOK
    ensures
      var (v, k1) := VisitTarget(w, t, unsupported, SucceededSsids(rotationOK), k);
      actions == VisitActions(w, t, v) && k' == k1
  {
    hide RunTarget, BodyActions, SkipActions;
    if NormalizeBand(t.network.band) in unsupported {
      actions := SkipTarget(w, t, Unsupported);
      return actions, k;
    }
    if t.network.rotation == PerRound && !rotationOK[t.network.ssid] {
      actions := SkipTarget(w, t, Prerequisite);
      return actions, k;
    }
    actions, k' := TargetNow(w, t, k);
  }

  method VisitsNow(w: Worker, targets: seq<Target>, unsupported: set<string>, rotationOK: map<string, bool>, k: Clock)
    returns (actions: seq<Action>, k': Clock)
    requires ValidTargets(targets)
    requires forall t :: t in targets && t.network.rotation == PerRound ==> t.network.ssid in rotationOK
    ensures
      var (visits, k1) := VisitAll(w, targets, unsupported, SucceededSsids(rotationOK), k);
      actions == VisitsActions(w, targets, visits) && k' == k1
  {
    hide VisitTarget, VisitAll, VisitActions, VisitsActions, NormalizeBand;
    actions, k' := [], k;
    ghost var rotated := SucceededSsids(rotationOK);
    ghost var (total, end) := VisitAll(w, targets, unsupported, rotated, k);
    ghost var done: seq<Visit> := [];
    assert targets[0..] == targets;
    VisitsNone(w, unsupported, rotated, k);
    for i := 0 to |targets|
      invariant |done| == i && total == done + VisitAll(w, targets[i..], unsupported, rotated, k').0
      invariant end == VisitAll(w, targets[i..], unsupported, rotated, k').1
      invariant actions == VisitsActions(w, targets[..i], done)
    {
      VisitAllStep(w, targets, i, unsupported, rotated, k');
      ghost var v := VisitTarget(w, targets[i], unsupported, rotated, k').0;
      VisitsSnoc(w, targets, i, done, v);
      actions := actions + [Progress(w.agent, w.round, Pass)];
      var acts;
      acts, k' := VisitNow(w, targets[i], unsupported, rotationOK, k');
      actions := actions + acts;
      done := done + [v];
    }
    VisitsNone(w, unsupported, rotated, k');
    assert targets[..|targets|] == targets && total == done;
  }

  lemma VisitsNone(w: Worker, unsupported: set<string>, rotated: set<string>, k: Clock)
    ensures VisitsActions(w, [], []) == [] && VisitAll(w, [], unsupported, rotated, k) == ([], k)
  {
  }

  method TargetsNow(targets: seq<Target>, agent: string) returns (mine: seq<Target>)
    ensures mine == TargetsOf(targets, agent)
  {
    mine := [];
    assert targets[0..] == targets;
    for i := 0 to |targets|
      invariant mine + TargetsOf(targets[i..], agent) == TargetsOf(targets, agent)
    {
      assert targets[i..][1..] == targets[i + 1..];
      for j := 0 to |targets[i].agents|
        invariant forall l :: 0 <= l < j ==> targets[i].agents[l] != agent
        invariant mine + TargetsOf(targets[i..], agent) == TargetsOf(targets, agent)
      {
        if targets[i].agents[j] == agent {
          mine := mine + [targets[i]];
          break;
        }
      }
    }
  }

  /** runAgentRound: capability check, rotations, targets, rotations. */
  method RoundNow(w: Worker, plan: Plan, k: Clock) returns (actions: seq<Action>, k': Clock)
    requires ValidPlan(plan)
    ensures
      var targets := TargetsOf(plan.targets, w.agent);
      && ValidTargets(targets)
      && var (r, k1) := RunRound(w, targets, k);
      actions == RoundActions(w, targets, r) && k' == k1
  {
    hide Preflight, RotateAll, VisitAll, RotationTargets, RotationsActions, VisitsActions, RotatedSsids,
         OptionalActions, UnsupportedBands, TargetsOf, ValidTarget;
    var targets := TargetsNow(plan.targets, w.agent);
    TargetsOfValid(plan.targets, w.agent);
    actions := [Progress(w.agent, w.round, Pass)];
    var unsupported, acts;
    unsupported, acts, k' := PreflightNow(w, targets, k);
    actions := actions + acts;
    var rotationOK;
    rotationOK, acts, k' := RotateBefore(w, targets, k');
    actions := actions + acts;
    acts, k' := VisitsNow(w, targets, unsupported, rotationOK, k');
    actions := actions + acts;
    acts, k' := RotateAfter(w, targets, k');
    actions := actions + acts;
    actions := actions + [Progress(w.agent, w.round, Pass)];
  }
}
