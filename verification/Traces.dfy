/**
 The shape of what one agent reports and dispatches in a round, read off the flat list of
 actions it produces.
 */
module Traces {
  import opened Outcomes
  import opened Policies
  import opened CheckLoop
  import opened Plans
  import opened Rounds

  datatype Entry = Reported(report: StepReport) | CleanedUp(command: Command)

  /** The reports and owned cleanup dispatches among some actions, in order. */
  function TraceOf(actions: seq<Action>): seq<Entry> {
    if actions == [] then []
    else
      TraceOf(actions[..|actions| - 1]) +
      match actions[|actions| - 1]
      case Record(r) => [Reported(r)]
      case Cleaned(_, _, _, c) => [CleanedUp(c)]
      case _ => []
  }

  lemma {:induction false} TraceConcat(a: seq<Action>, b: seq<Action>)
    ensures TraceOf(a + b) == TraceOf(a) + TraceOf(b)
  {
    if b == [] {
      assert a + b == a;
    } else {
      var front := b[..|b| - 1];
      TraceConcat(a, front);
      assert (a + b)[..|a + b| - 1] == a + front;
    }
  }

  function Reports(rs: seq<StepReport>): seq<Entry> {
    seq(|rs|, i requires 0 <= i < |rs| => Reported(rs[i]))
  }

  function Cleanups(cs: seq<Command>): seq<Entry> {
    seq(|cs|, i requires 0 <= i < |cs| => CleanedUp(cs[i]))
  }

  /** One target's part of a trace. */
  datatype Shape = Shape(
    rotation: seq<StepReport>, connect: seq<StepReport>, wait: seq<StepReport>,
    checks: seq<StepReport>, cleanup: seq<Command>)

  function Lay(s: Shape): seq<Entry> {
    Reports(s.rotation) + Reports(s.connect) + Reports(s.wait) + Reports(s.checks) + Cleanups(s.cleanup)
  }

  predicate AllPassed(rs: seq<StepReport>) {
    forall r :: r in rs ==> r.outcome == Pass
  }

  predicate Dispatched(r: StepReport) {
    r.attempts != []
  }

  predicate Began(rs: seq<StepReport>) {
    exists r :: r in rs && Dispatched(r)
  }

  /** Every earlier check passed, or was optional and neither canceled nor skipped by the operator. */
  predicate Clear(t: Target, earlier: seq<StepReport>)
    requires |earlier| <= |t.checks|
  {
    forall j :: 0 <= j < |earlier| ==>
      earlier[j].outcome == Pass
      || (!t.checks[j].required && earlier[j].outcome != Canceled && earlier[j].reason != Operator)
  }

  predicate Gate(t: Target, s: Shape, i: nat)
    requires i <= |s.checks| == |t.checks|
  {
    AllPassed(s.rotation) && AllPassed(s.connect) && AllPassed(s.wait) && Clear(t, s.checks[..i])
  }

  /** The reports name the given steps, one each and in order. */
  predicate Names(rs: seq<StepReport>, target: string, steps: seq<Step>) {
    && |rs| == |steps|
    && forall i :: 0 <= i < |rs| ==> rs[i].target == target && rs[i].check == steps[i].id
  }

  predicate NothingDone(rs: seq<StepReport>) {
    forall r :: r in rs ==> r.outcome == Skip && r.attempts == []
  }

  function OwnedCleanup(n: Network): seq<Command> {
    (if n.disconnectAfter then [DisconnectWifi] else []) + (if n.forgetAfter && n.forgettable then [ForgetWifi] else [])
  }

  /** One optional rotation, then every step once and in order; a wait is left out exactly where a connection was tried and failed. */
  predicate Ordered(t: Target, s: Shape, barred: bool) {
    && |s.rotation| <= 1
    && Names(s.connect, t.id, AsStep(t.connect))
    && (if !barred && !AllPassed(s.connect) then s.wait == [] else Names(s.wait, t.id, AsStep(t.wait)))
    && Names(s.checks, t.id, t.checks)
  }

  /** Nothing is dispatched past a prerequisite that did not pass, and no check is skipped without one. */
  predicate Gated(t: Target, s: Shape, barred: bool)
    requires |s.checks| == |t.checks|
  {
    && (Began(s.connect) ==> AllPassed(s.rotation))
    && (Began(s.wait) ==> AllPassed(s.rotation) && AllPassed(s.connect))
    && (forall i {:trigger s.checks[i]} :: 0 <= i < |s.checks| && Dispatched(s.checks[i]) ==> Gate(t, s, i))
    && (barred ==> NothingDone(s.connect) && NothingDone(s.wait) && NothingDone(s.checks))
    && (!barred ==> forall i {:trigger s.checks[i]} :: 0 <= i < |s.checks| ==>
                      (s.checks[i].reason == Prerequisite <==> !Gate(t, s, i)))
  }

  /** The owned cleanup runs exactly when a connection attempt began, disconnect before forget. */
  predicate Owned(t: Target, s: Shape) {
    s.cleanup == (if Began(s.connect) then OwnedCleanup(t.network) else [])
  }

  /**
   What every visit of a target satisfies.  A barred target is one whose band is known to be
   unsupported or whose MAC rotation failed.
   */
  predicate WellShaped(t: Target, s: Shape, barred: bool) {
    Ordered(t, s, barred) && Gated(t, s, barred) && Owned(t, s)
  }

  // ---------------------------------------------------------------- from the account of a visit to its trace

  function ReportsOf(checks: seq<Checked>): seq<StepReport> {
    seq(|checks|, i requires 0 <= i < |checks| => checks[i].report)
  }

  function OptionalReports(c: Option<Checked>): seq<StepReport> {
    if c.Some? then [c.value.report] else []
  }

  function TryReports(r: RotationTry): seq<StepReport> {
    if r.Tried? then [r.result.report] else []
  }

  function RotationReports(r: Option<RotationTry>): seq<StepReport> {
    if r.Some? then TryReports(r.value) else []
  }

  function TriesReports(tries: seq<RotationTry>): seq<StepReport> {
    if tries == [] then [] else TriesReports(tries[..|tries| - 1]) + TryReports(tries[|tries| - 1])
  }

  function PartsOf(ops: seq<CleanedOp>): seq<Command> {
    if ops == [] then [] else PartsOf(ops[..|ops| - 1]) + ops[|ops| - 1].parts
  }

  lemma ReportsConcat(a: seq<StepReport>, b: seq<StepReport>)
    ensures Reports(a + b) == Reports(a) + Reports(b)
  {
  }

  lemma CheckedTrace(w: Worker, c: Checked)
    ensures TraceOf(CheckedActions(w, c)) == [Reported(c.report)]
  {
    var problem: seq<Action> := if c.problem then [Problem(w.agent, w.round, Primary)] else [];
    TraceConcat(problem, [Record(c.report)]);
    SingleTrace(Record(c.report));
    SingleTrace(Problem(w.agent, w.round, Primary));
  }

  lemma SingleTrace(a: Action)
    ensures TraceOf([a]) ==
      match a
      case Record(r) => [Reported(r)]
      case Cleaned(_, _, _, c) => [CleanedUp(c)]
      case _ => []
  {
    assert [a][..0] == [];
  }

  lemma OptionalTrace(w: Worker, c: Option<Checked>)
    ensures TraceOf(OptionalActions(w, c)) == Reports(OptionalReports(c))
  {
    if c.Some? {
      CheckedTrace(w, c.value);
    }
  }

  lemma TryTrace(w: Worker, r: RotationTry)
    ensures TraceOf(RotationActions(w, r)) == Reports(TryReports(r))
  {
    if r.Tried? {
      CheckedTrace(w, r.result);
    } else {
      SingleTrace(Problem(w.agent, w.round, Primary));
    }
  }

  lemma {:induction false} TriesTrace(w: Worker, tries: seq<RotationTry>)
    ensures TraceOf(RotationsActions(w, tries)) == Reports(TriesReports(tries))
  {
    if tries != [] {
      var front, r := tries[..|tries| - 1], tries[|tries| - 1];
      TriesTrace(w, front);
      TryTrace(w, r);
      TraceConcat(RotationsActions(w, front), RotationActions(w, r));
      ReportsConcat(TriesReports(front), TryReports(r));
    }
  }

  lemma {:induction false} ChecksTrace(w: Worker, checks: seq<Checked>)
    ensures TraceOf(CheckedAllActions(w, checks)) == Reports(ReportsOf(checks))
  {
    hide TraceOf, CheckedActions, Reports;
    if checks == [] {
      NoTrace();
      assert ReportsOf(checks) == [];
    } else {
      var front, c := checks[..|checks| - 1], checks[|checks| - 1];
      ChecksTrace(w, front);
      CheckedTrace(w, c);
      TraceConcat(CheckedAllActions(w, front), CheckedActions(w, c));
      assert ReportsOf(checks) == ReportsOf(front) + [c.report];
      ReportsConcat(ReportsOf(front), [c.report]);
      OneReport(c.report);
    }
  }

  lemma OneReport(r: StepReport)
    ensures Reports([r]) == [Reported(r)]
  {
  }

  lemma {:induction false} SkipTrace(skips: seq<StepReport>)
    ensures TraceOf(SkipActions(skips)) == Reports(skips)
  {
    hide TraceOf, Reports;
    if skips == [] {
      NoTrace();
    } else {
      var front, r := skips[..|skips| - 1], skips[|skips| - 1];
      SkipTrace(front);
      SingleTrace(Record(r));
      TraceConcat(SkipActions(front), [Record(r)]);
      ReportsConcat(front, [r]);
      OneReport(r);
      assert skips == front + [r];
    }
  }

  lemma {:induction false} PartsTrace(w: Worker, t: Target, parts: seq<Command>)
    ensures TraceOf(PartActions(w, t, parts)) == Cleanups(parts)
  {
    hide TraceOf;
    NoTrace();
    if parts != [] {
      var front, c := parts[..|parts| - 1], parts[|parts| - 1];
      PartsTrace(w, t, front);
      SingleTrace(Cleaned(w.agent, w.round, t.id, c));
      TraceConcat(PartActions(w, t, front), [Cleaned(w.agent, w.round, t.id, c)]);
      assert parts == front + [c];
    }
  }

  lemma CleanedTrace(w: Worker, t: Target, op: CleanedOp)
    ensures TraceOf(CleanedActions(w, t, op)) == Cleanups(op.parts)
  {
    hide TraceOf, PartActions;
    var problem: seq<Action> := if op.outcome != Pass then [Problem(w.agent, w.round, Cleanup)] else [];
    SingleTrace(Problem(w.agent, w.round, Cleanup));
    NoTrace();
    PartsTrace(w, t, op.parts);
    TraceConcat(problem, PartActions(w, t, op.parts));
  }

  lemma {:induction false} CleanupTrace(w: Worker, t: Target, ops: seq<CleanedOp>)
    ensures TraceOf(CleanupActions(w, t, ops)) == Cleanups(PartsOf(ops))
  {
    hide TraceOf, CleanedActions;
    if ops == [] {
      NoTrace();
    } else {
      var front, op := ops[..|ops| - 1], ops[|ops| - 1];
      CleanupTrace(w, t, front);
      CleanedTrace(w, t, op);
      TraceConcat(CleanupActions(w, t, front), CleanedActions(w, t, op));
      assert Cleanups(PartsOf(front) + op.parts) == Cleanups(PartsOf(front)) + Cleanups(op.parts);
    }
  }

  // ---------------------------------------------------------------- the check loop

  lemma ClearSnoc(t: Target, before: seq<StepReport>, r: StepReport)
    requires |before| < |t.checks| && (r.reason == Operator ==> r.outcome == Skip)
    ensures Clear(t, before + [r]) <==> Clear(t, before) && Continues(t.checks[|before|], r)
  {
    var next := before + [r];
    if Clear(t, next) {
      forall j | 0 <= j < |before|
        ensures before[j] == next[j]
      {
      }
      assert next[|before|] == r;
    }
  }

  /** Report `j` of the check loop: it is skipped behind a closed gate, and nothing else is. */
  predicate GatedAt(t: Target, rs: seq<StepReport>, j: nat, base: bool)
    requires j < |rs| == |t.checks|
  {
    && rs[j].target == t.id && rs[j].check == t.checks[j].id
    && (rs[j].reason == Prerequisite <==> !(base && Clear(t, rs[..j])))
    && (Dispatched(rs[j]) ==> base && Clear(t, rs[..j]))
  }

  /** The step of the check loop, run or skipped. */
  function OneCheck(w: Worker, t: Target, i: nat, ready: bool, k: Clock): (Checked, Clock)
    requires ValidTarget(t) && i < |t.checks|
  {
    if ready then RunCheck(w, t.id, t.checks[i], k)
    else (Checked(Skipped(w, t, t.checks[i], Prerequisite), false, 0), k)
  }

  lemma GatedHere(w: Worker, t: Target, i: nat, base: bool, ready: bool, k: Clock, rs: seq<StepReport>)
    requires ValidTarget(t) && i < |rs| == |t.checks|
    requires ready <==> base && Clear(t, rs[..i])
    requires rs[i] == OneCheck(w, t, i, ready, k).0.report
    ensures GatedAt(t, rs, i, base)
  {
    hide RunCheck, Clear;
  }

  lemma OneCheckStep(w: Worker, t: Target, i: nat, ready: bool, k: Clock)
    requires ValidTarget(t) && i < |t.checks|
    ensures
      var (c, k1) := OneCheck(w, t, i, ready, k);
      var ready' := ready && Continues(t.checks[i], c.report);
      && (c.report.reason == Operator ==> c.report.outcome == Skip)
      && RunChecks(w, t, i, ready, k).0 == [c] + RunChecks(w, t, i + 1, ready', k1).0
  {
    hide RunCheck, Continues;
  }

  /** The check loop reports every check once, and skips exactly those behind a closed gate. */
  lemma {:induction false} ChecksGated(w: Worker, t: Target, i: nat, base: bool, ready: bool, k: Clock, before: seq<StepReport>)
    requires ValidTarget(t) && i == |before| <= |t.checks|
    requires ready <==> base && Clear(t, before)
    ensures
      var rs := before + ReportsOf(RunChecks(w, t, i, ready, k).0);
      |rs| == |t.checks| && forall j :: i <= j < |rs| ==> GatedAt(t, rs, j, base)
    decreases |t.checks| - i
  {
    hide OneCheck, RunChecks, Clear, Continues, GatedAt;
    if i < |t.checks| {
      var (c, k1) := OneCheck(w, t, i, ready, k);
      var next := before + [c.report];
      var ready' := ready && Continues(t.checks[i], c.report);
      OneCheckStep(w, t, i, ready, k);
      ClearSnoc(t, before, c.report);
      ChecksGated(w, t, i + 1, base, ready', k1, next);
      var rest := RunChecks(w, t, i + 1, ready', k1).0;
      var rs := next + ReportsOf(rest);
      assert before + ReportsOf([c] + rest) == rs;
      assert rs[..i] == before;
      GatedHere(w, t, i, base, ready, k, rs);
    }
  }

  lemma {:induction false} CleanupParts(w: Worker, n: Network, ops: seq<Command>, k: Clock)
    ensures |ops| <= 1 ==> PartsOf(RunCleanup(w, n, ops, k).0) == (if ops != [] && Dispatchable(n, ops[0]) then ops else [])
    ensures |ops| == 2 ==>
      PartsOf(RunCleanup(w, n, ops, k).0)
      == (if Dispatchable(n, ops[0]) then [ops[0]] else []) + (if Dispatchable(n, ops[1]) then [ops[1]] else [])
  {
    hide Evaluate;
    if |ops| == 1 {
      var done := RunCleanup(w, n, ops, k).0;
      assert done[..0] == [];
      assert ops == [ops[0]];
    } else if |ops| == 2 {
      var done := RunCleanup(w, n, ops, k).0;
      CleanupParts(w, n, ops[1..], Clock(k.now + w.oracle(Acquiring, k.next).advance, k.next + 1));
      assert done[..1] == [done[0]];
      assert [done[0]][..0] == [];
      assert PartsOf([done[0]]) == done[0].parts;
      assert PartsOf(done) == done[0].parts + done[1].parts;
    }
  }

  lemma OwnedCleanupRuns(w: Worker, t: Target, k: Clock)
    ensures PartsOf(RunCleanup(w, t.network, CleanupCommands(t.network), k).0) == OwnedCleanup(t.network)
  {
    CleanupParts(w, t.network, CleanupCommands(t.network), k);
  }

  // ---------------------------------------------------------------- a visit, and the round

  function ShapeOf(t: Target, v: Visit): Shape
    requires v.Barred? ==> |v.skips| == |Steps(t)|
  {
    var rotation := RotationReports(v.rotation);
    match v
    case Barred(_, skips) =>
      var c := |AsStep(t.connect)|;
      var n := c + |AsStep(t.wait)|;
      Shape(rotation, skips[..c], skips[c..n], skips[n..], [])
    case Visited(_, connect, wait, checks, cleanup) =>
      Shape(rotation, OptionalReports(connect), OptionalReports(wait), ReportsOf(checks), PartsOf(cleanup))
  }

  lemma BodyTrace(w: Worker, t: Target, v: Visit)
    requires v.Visited?
    ensures TraceOf(BodyActions(w, t, v)) ==
      Reports(OptionalReports(v.connect)) + Reports(OptionalReports(v.wait)) + Reports(ReportsOf(v.checks))
      + Cleanups(PartsOf(v.cleanup))
  {
    hide TraceOf, OptionalActions, CheckedAllActions, CleanupActions, VisitOutcome;
    var a, b, c, d := OptionalActions(w, v.connect), OptionalActions(w, v.wait), CheckedAllActions(w, v.checks), CleanupActions(w, t, v.cleanup);
    OptionalTrace(w, v.connect);
    OptionalTrace(w, v.wait);
    ChecksTrace(w, v.checks);
    CleanupTrace(w, t, v.cleanup);
    var p := Progress(w.agent, w.round, VisitOutcome(v));
    SingleTrace(p);
    TraceConcat(a, b);
    TraceConcat(a + b, c);
    TraceConcat(a + b + c, d);
    TraceConcat(a + b + c + d, [p]);
  }

  lemma Regroup(r: seq<Entry>, a: seq<Entry>, b: seq<Entry>, c: seq<Entry>, d: seq<Entry>)
    ensures r + (a + b + c + d) == r + a + b + c + d
  {
  }

  lemma BarredLaid(w: Worker, t: Target, v: Visit)
    requires v.Barred? && |v.skips| == |Steps(t)|
    ensures TraceOf(SkipActions(v.skips)) ==
      (var s := ShapeOf(t, v); Reports(s.connect) + Reports(s.wait) + Reports(s.checks) + Cleanups(s.cleanup))
  {
    SkipTrace(v.skips);
    hide TraceOf, SkipActions, Steps;
    var s := ShapeOf(t, v);
    assert v.skips == s.connect + s.wait + s.checks;
    ReportsConcat(s.connect + s.wait, s.checks);
    ReportsConcat(s.connect, s.wait);
    assert Cleanups([]) == [];
  }

  lemma VisitLaid(w: Worker, t: Target, v: Visit)
    requires v.Barred? ==> |v.skips| == |Steps(t)|
    ensures TraceOf(VisitActions(w, t, v)) == Lay(ShapeOf(t, v))
  {
    hide TraceOf, BodyActions, SkipActions, RotationActions, TryReports, ReportsOf, OptionalReports, PartsOf, Steps,
         Reports, Cleanups;
    var head := if v.rotation.Some? then RotationActions(w, v.rotation.value) else [];
    var s := ShapeOf(t, v);
    assert TraceOf(head) == Reports(s.rotation) by {
      NoTrace();
      if v.rotation.Some? {
        TryTrace(w, v.rotation.value);
      }
    }
    if v.Barred? {
      BarredLaid(w, t, v);
      TraceConcat(head, SkipActions(v.skips));
    } else {
      BodyTrace(w, t, v);
      TraceConcat(head, BodyActions(w, t, v));
    }
    Regroup(Reports(s.rotation), Reports(s.connect), Reports(s.wait), Reports(s.checks), Cleanups(s.cleanup));
  }

  lemma NoTrace()
    ensures TraceOf([]) == [] && Reports([]) == []
  {
  }

  lemma BarredShape(w: Worker, t: Target, rotation: Option<RotationTry>, reason: SkipReason)
    ensures WellShaped(t, ShapeOf(t, Barred(rotation, SkipSteps(w, t, Steps(t), reason))), true)
  {
    var skips := SkipSteps(w, t, Steps(t), reason);
    var s := ShapeOf(t, Barred(rotation, skips));
    var c := |AsStep(t.connect)|;
    var n := c + |AsStep(t.wait)|;
    SkipsNamed(w, t, skips[..c], AsStep(t.connect), reason);
    SkipsNamed(w, t, skips[c..n], AsStep(t.wait), reason);
    SkipsNamed(w, t, skips[n..], t.checks, reason);
    hide Names, NothingDone, SkipSteps, Clear;
    forall i | 0 <= i < |s.checks|
      ensures !Dispatched(s.checks[i])
    {
      assert s.checks[i] in s.checks;
    }
  }

  lemma SkipsNamed(w: Worker, t: Target, part: seq<StepReport>, steps: seq<Step>, reason: SkipReason)
    requires |part| == |steps| && forall i :: 0 <= i < |steps| ==> part[i] == Skipped(w, t, steps[i], reason)
    ensures Names(part, t.id, steps) && NothingDone(part) && !Began(part)
  {
  }

  lemma OptionalNamed(w: Worker, t: Target, s: Option<Step>, ready: bool, k: Clock)
    requires s.Some? ==> Runnable(s.value.policy)
    ensures var rs := OptionalReports(RunOptional(w, t, s, ready, k).0);
      if ready then Names(rs, t.id, AsStep(s)) else rs == []
  {
    hide Check;
  }

  lemma BodyOrdered(w: Worker, t: Target, rotation: Option<RotationTry>, k: Clock)
    requires ValidTarget(t)
    ensures Ordered(t, ShapeOf(t, RunBody(w, t, rotation, k).0), false)
  {
    hide RunCheck, RunChecks, RunCleanup, RunOptional, PartsOf, Clear, ReportsOf, OptionalReports, AllPassed, Passed;
    var (connect, k1) := RunOptional(w, t, t.connect, true, k);
    var (wait, k2) := RunOptional(w, t, t.wait, Passed(connect), k1);
    var base := Passed(connect) && Passed(wait);
    OptionalNamed(w, t, t.connect, true, k);
    OptionalNamed(w, t, t.wait, Passed(connect), k1);
    OptionalFacts(connect);
    ChecksFromStart(w, t, base, k2);
  }

  lemma ChecksFromStart(w: Worker, t: Target, base: bool, k: Clock)
    requires ValidTarget(t)
    ensures
      var rs := ReportsOf(RunChecks(w, t, 0, base, k).0);
      && Names(rs, t.id, t.checks)
      && forall j {:trigger rs[j]} :: 0 <= j < |rs| ==>
        && (rs[j].reason == Prerequisite <==> !(base && Clear(t, rs[..j])))
        && (Dispatched(rs[j]) ==> base && Clear(t, rs[..j]))
  {
    hide RunChecks, ReportsOf, Clear;
    ClearNone(t);
    ChecksGated(w, t, 0, base, base, k, []);
    var rs := ReportsOf(RunChecks(w, t, 0, base, k).0);
    assert [] + rs == rs;
    forall j | 0 <= j < |rs|
      ensures rs[j].target == t.id && rs[j].check == t.checks[j].id
      ensures rs[j].reason == Prerequisite <==> !(base && Clear(t, rs[..j]))
      ensures Dispatched(rs[j]) ==> base && Clear(t, rs[..j])
    {
      assert GatedAt(t, rs, j, base);
    }
  }

  lemma OptionalFacts(c: Option<Checked>)
    ensures AllPassed(OptionalReports(c)) <==> Passed(c)
    ensures Began(OptionalReports(c)) <==> ConnectBegan(c)
  {
    if c.Some? {
      assert c.value.report in OptionalReports(c);
    }
  }

  lemma BodyGated(w: Worker, t: Target, rotation: Option<RotationTry>, k: Clock)
    requires ValidTarget(t) && (rotation.Some? ==> Rotated(rotation.value))
    requires |ShapeOf(t, RunBody(w, t, rotation, k).0).checks| == |t.checks|
    ensures Gated(t, ShapeOf(t, RunBody(w, t, rotation, k).0), false)
  {
    hide RunCheck, RunChecks, RunCleanup, PartsOf, Clear, OptionalReports, Began, ReportsOf, AllPassed, Passed;
    var (connect, k1) := RunOptional(w, t, t.connect, true, k);
    var (wait, k2) := RunOptional(w, t, t.wait, Passed(connect), k1);
    var base := Passed(connect) && Passed(wait);
    ChecksFromStart(w, t, base, k2);
    OptionalFacts(connect);
    OptionalFacts(wait);
    RotationFacts(rotation);
  }

  lemma RotationFacts(rotation: Option<RotationTry>)
    requires rotation.Some? ==> Rotated(rotation.value)
    ensures AllPassed(RotationReports(rotation)) && |RotationReports(rotation)| <= 1
  {
  }

  lemma BodyOwned(w: Worker, t: Target, rotation: Option<RotationTry>, k: Clock)
    requires ValidTarget(t)
    ensures Owned(t, ShapeOf(t, RunBody(w, t, rotation, k).0))
  {
    hide RunCheck, RunChecks, RunCleanup, PartsOf, Began, OptionalReports, OwnedCleanup, CleanupCommands;
    var (connect, k1) := RunOptional(w, t, t.connect, true, k);
    var (wait, k2) := RunOptional(w, t, t.wait, Passed(connect), k1);
    var (checks, k3) := RunChecks(w, t, 0, Passed(connect) && Passed(wait), k2);
    OwnedCleanupRuns(w, t, k3);
    NoParts();
    OptionalFacts(connect);
  }

  lemma BodyShape(w: Worker, t: Target, rotation: Option<RotationTry>, k: Clock)
    requires ValidTarget(t) && (rotation.Some? ==> Rotated(rotation.value))
    ensures WellShaped(t, ShapeOf(t, RunBody(w, t, rotation, k).0), false)
  {
    hide RunBody;
    BodyOrdered(w, t, rotation, k);
    BodyGated(w, t, rotation, k);
    BodyOwned(w, t, rotation, k);
  }

  lemma ClearNone(t: Target)
    ensures Clear(t, [])
  {
  }

  lemma NoParts()
    ensures PartsOf([]) == []
  {
  }

  lemma VisitedShape(w: Worker, t: Target, k: Clock)
    requires ValidTarget(t)
    ensures RunTarget(w, t, k).0.Visited? ==> WellShaped(t, ShapeOf(t, RunTarget(w, t, k).0), false)
  {
    hide RunBody, WellShaped, Rotate, Rotated, ShapeOf;
    if t.network.rotation == PerTarget {
      var (r, k') := Rotate(w, t, "before_target", k);
      if Rotated(r) {
        BodyShape(w, t, Some(r), k');
      }
    } else {
      BodyShape(w, t, None, k);
    }
  }

  function LayAll(shapes: seq<Shape>): seq<Entry> {
    if shapes == [] then [] else LayAll(shapes[..|shapes| - 1]) + Lay(shapes[|shapes| - 1])
  }

  predicate Complete(targets: seq<Target>, visits: seq<Visit>) {
    && |visits| == |targets|
    && forall i :: 0 <= i < |visits| && visits[i].Barred? ==> |visits[i].skips| == |Steps(targets[i])|
  }

  function ShapesOf(targets: seq<Target>, visits: seq<Visit>): seq<Shape>
    requires Complete(targets, visits)
  {
    seq(|targets|, i requires 0 <= i < |targets| => ShapeOf(targets[i], visits[i]))
  }

  lemma {:induction false} VisitsLaid(w: Worker, targets: seq<Target>, visits: seq<Visit>)
    requires Complete(targets, visits)
    ensures TraceOf(VisitsActions(w, targets, visits)) == LayAll(ShapesOf(targets, visits))
  {
    if visits == [] {
    } else {
      hide TraceOf, VisitActions, Lay, ShapeOf, ShapesOf, Steps, Complete;
      var n := |visits| - 1;
      ShapesFront(targets, visits);
      VisitsLaid(w, targets[..n], visits[..n]);
      VisitLaid(w, targets[n], visits[n]);
      var before, v := VisitsActions(w, targets[..n], visits[..n]), VisitActions(w, targets[n], visits[n]);
      ThreeParts(before, Progress(w.agent, w.round, Pass), v);
    }
  }

  lemma ShapesFront(targets: seq<Target>, visits: seq<Visit>)
    requires Complete(targets, visits) && visits != []
    ensures
      var n := |visits| - 1;
      && (visits[n].Barred? ==> |visits[n].skips| == |Steps(targets[n])|)
      && Complete(targets[..n], visits[..n])
      && |ShapesOf(targets, visits)| == n + 1
      && ShapesOf(targets, visits)[..n] == ShapesOf(targets[..n], visits[..n])
      && ShapesOf(targets, visits)[n] == ShapeOf(targets[n], visits[n])
  {
    hide ShapeOf, Steps;
  }

  lemma ThreeParts(a: seq<Action>, p: Action, b: seq<Action>)
    requires p.Progress?
    ensures TraceOf(a + [p] + b) == TraceOf(a) + TraceOf(b)
  {
    hide TraceOf;
    SingleTrace(p);
    TraceConcat(a, [p]);
    TraceConcat(a + [p], b);
  }

  ghost predicate AllWellShaped(targets: seq<Target>, visits: seq<Visit>)
    requires Complete(targets, visits)
  {
    forall i :: 0 <= i < |targets| ==> WellShaped(targets[i], ShapeOf(targets[i], visits[i]), visits[i].Barred?)
  }

  lemma VisitShaped(w: Worker, t: Target, unsupported: set<string>, rotated: set<string>, k: Clock)
    requires ValidTarget(t)
    ensures var v := VisitTarget(w, t, unsupported, rotated, k).0;
      && (v.Barred? ==> |v.skips| == |Steps(t)|)
      && WellShaped(t, ShapeOf(t, v), v.Barred?)
  {
    hide RunBody, WellShaped, NormalizeBand, Steps;
    var v := VisitTarget(w, t, unsupported, rotated, k).0;
    if v.Barred? {
      var reason := if NormalizeBand(t.network.band) in unsupported then Unsupported else Prerequisite;
      assert v == Barred(v.rotation, SkipSteps(w, t, Steps(t), reason));
      BarredShape(w, t, v.rotation, reason);
    } else {
      VisitedShape(w, t, k);
    }
  }

  /**
   Every target visit has one trace shape, whatever the world replies and even when the run
   is canceled: rotation, connection, wait, checks, disconnect, forget; see WellShaped.
   */
  lemma VisitTrace(w: Worker, t: Target, unsupported: set<string>, rotated: set<string>, k: Clock)
    requires ValidTarget(t)
    ensures
      var v := VisitTarget(w, t, unsupported, rotated, k).0;
      && (v.Barred? ==> |v.skips| == |Steps(t)|)
      && TraceOf(VisitActions(w, t, v)) == Lay(ShapeOf(t, v))
      && WellShaped(t, ShapeOf(t, v), v.Barred?)
  {
    hide VisitTarget, WellShaped, VisitActions, Lay, ShapeOf, Steps;
    VisitShaped(w, t, unsupported, rotated, k);
    VisitLaid(w, t, VisitTarget(w, t, unsupported, rotated, k).0);
  }

  lemma {:induction false} VisitsShaped(w: Worker, targets: seq<Target>, unsupported: set<string>, rotated: set<string>, k: Clock)
    requires ValidTargets(targets)
    ensures var visits := VisitAll(w, targets, unsupported, rotated, k).0;
      Complete(targets, visits) && AllWellShaped(targets, visits)
  {
    hide VisitTarget, WellShaped, ShapeOf, Steps, ValidTarget;
    if targets != [] {
      var (v, k1) := VisitTarget(w, targets[0], unsupported, rotated, k);
      VisitShaped(w, targets[0], unsupported, rotated, k);
      VisitsShaped(w, targets[1..], unsupported, rotated, k1);
    }
  }

  /**
   The trace of an agent's round: one capability report at most, the rotations before, one
   well-shaped part for every target of the agent in plan order, the rotations after.
   */
  lemma RoundTrace(w: Worker, targets: seq<Target>, k: Clock)
    requires ValidTargets(targets)
    ensures
      var r := RunRound(w, targets, k).0;
      && Complete(targets, r.visits)
      && AllWellShaped(targets, r.visits)
      && TraceOf(RoundActions(w, targets, r)) ==
        Reports(OptionalReports(r.preflight)) + Reports(TriesReports(r.before))
        + LayAll(ShapesOf(targets, r.visits)) + Reports(TriesReports(r.after))
  {
    hide TraceOf, Preflight, RotateAll, RotationTargets, RotatedSsids, VisitAll, VisitsActions, OptionalActions,
         RotationsActions, AllWellShaped, UnsupportedBands, OptionalReports, TriesReports, Complete, ShapesOf, Reports, LayAll;
    var (preflight, k1) := Preflight(w, targets, k);
    var rotating := RotationTargets(targets, {});
    var (before, k2) := RotateAll(w, rotating, "before_round", k1);
    var r := RunRound(w, targets, k).0;
    VisitsShaped(w, targets, UnsupportedBands(preflight), RotatedSsids(rotating, before), k2);
    VisitsLaid(w, targets, r.visits);
    OptionalTrace(w, r.preflight);
    TriesTrace(w, r.before);
    TriesTrace(w, r.after);
    var p := Progress(w.agent, w.round, Pass);
    SingleTrace(p);
    var a, b, c, d := OptionalActions(w, r.preflight), RotationsActions(w, r.before), VisitsActions(w, targets, r.visits), RotationsActions(w, r.after);
    TraceConcat([p], a);
    TraceConcat([p] + a, b);
    TraceConcat([p] + a + b, c);
    TraceConcat([p] + a + b + c, d);
    TraceConcat([p] + a + b + c + d, [p]);
  }
}
