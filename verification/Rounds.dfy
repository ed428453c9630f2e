/**
 What one agent does in one round (harness/execute.go: runAgentRound, runTarget,
 rotate, cleanup): a structured account as a function of the world's replies, and the
 loops of the program, which append report actions one by one.
 */
module Rounds {
  import opened Outcomes
  import opened Policies
  import opened CheckLoop
  import opened Plans

  datatype Worker = Worker(oracle: Oracle, agent: string, round: nat)

  datatype Clock = Clock(now: nat, next: nat)

  /** A report, whether a problem goes with it, and how many deliveries failed meanwhile. */
  datatype Checked = Checked(report: StepReport, problem: bool, faults: nat)

  datatype RotationTry = Unbuilt | Tried(result: Checked)

  datatype CleanedOp = CleanedOp(parts: seq<Command>, outcome: Outcome)

  /** A target is either barred before its connection, or visited. */
  datatype Visit =
    | Barred(rotation: Option<RotationTry>, skips: seq<StepReport>)
    | Visited(rotation: Option<RotationTry>, connect: Option<Checked>, wait: Option<Checked>,
              checks: seq<Checked>, cleanup: seq<CleanedOp>)

  datatype AgentRound = AgentRound(
    preflight: Option<Checked>, before: seq<RotationTry>, visits: seq<Visit>, after: seq<RotationTry>)

  // ---------------------------------------------------------------- single steps

  /** The policy of a step that the engine compiles for itself: one attempt, within the operation's timeout. */
  function OncePolicy(timeout: int64): (p: Policy)
    requires timeout >= 1
    ensures Normalized(p)
  {
    Policy(1, 1, 0, 0, 0, ONE_SECOND, timeout)
  }

  function CapabilityStep(): Step {
    Step("capabilities", Operation(GetWifiCapabilities, Atomic), OncePolicy(20 * ONE_SECOND), false)
  }

  function RotationStep(phase: string): Step {
    Step("rotation/" + phase, Operation(ForgetWifi, Atomic), OncePolicy(15 * ONE_SECOND), true)
  }

  /** One check of one target, with the report and the problem it leads to. */
  function RunCheck(w: Worker, target: string, s: Step, k: Clock): (r: (Checked, Clock))
    requires Runnable(s.policy)
    ensures r.0.report.agent == w.agent && r.0.report.round == w.round
    ensures r.0.report.target == target && r.0.report.check == s.id
    ensures r.0.report.reason == (if r.0.report.outcome == Skip then Operator else NotSkipped)
  {
    var end := Check(Env(w.oracle, s.operation, s.policy), k.now, k.next);
    var reason := if end.outcome == Skip then Operator else NotSkipped;
    (Checked(StepReport(w.agent, w.round, target, s.id, end.outcome, reason, end.log), end.problem, end.c.faults),
     Clock(end.c.now, end.c.next))
  }

  function Skipped(w: Worker, t: Target, s: Step, reason: SkipReason): StepReport {
    StepReport(w.agent, w.round, t.id, s.id, Skip, reason, [])
  }

  function SkipSteps(w: Worker, t: Target, steps: seq<Step>, reason: SkipReason): (r: seq<StepReport>)
    ensures |r| == |steps|
    ensures forall i :: 0 <= i < |steps| ==> r[i] == Skipped(w, t, steps[i], reason)
  {
    seq(|steps|, i requires 0 <= i < |steps| => Skipped(w, t, steps[i], reason))
  }

  function Rotate(w: Worker, t: Target, phase: string, k: Clock): (RotationTry, Clock) {
    if !t.network.forgettable then (Unbuilt, k)
    else
      var (c, k') := RunCheck(w, t.id, RotationStep(phase), k);
      (Tried(c), k')
  }

  predicate Rotated(r: RotationTry) {
    r.Tried? && r.result.report.outcome == Pass
  }

  // ---------------------------------------------------------------- one target

  /** Whether the checks that follow this one may still run. */
  predicate Continues(s: Step, r: StepReport) {
    && (r.outcome != Pass ==> !s.required)
    && r.outcome != Canceled
    && r.reason != Operator
  }

  function RunChecks(w: Worker, t: Target, i: nat, ready: bool, k: Clock): (r: (seq<Checked>, Clock))
    requires ValidTarget(t) && i <= |t.checks|
    ensures |r.0| == |t.checks| - i
    decreases |t.checks| - i
  {
    if i == |t.checks| then ([], k)
    else if !ready then
      var (rest, k') := RunChecks(w, t, i + 1, false, k);
      ([Checked(Skipped(w, t, t.checks[i], Prerequisite), false, 0)] + rest, k')
    else
      var (c, k1) := RunCheck(w, t.id, t.checks[i], k);
      var (rest, k') := RunChecks(w, t, i + 1, Continues(t.checks[i], c.report), k1);
      ([c] + rest, k')
  }

  function CleanupCommands(n: Network): seq<Command> {
    (if n.disconnectAfter then [DisconnectWifi] else []) + (if n.forgetAfter then [ForgetWifi] else [])
  }

  predicate Dispatchable(n: Network, command: Command) {
    command == ForgetWifi ==> n.forgettable
  }

  /** The owned cleanup: its own context, so that neither cancellation nor a failure before keeps it from running. */
  function RunCleanup(w: Worker, n: Network, ops: seq<Command>, k: Clock): (r: (seq<CleanedOp>, Clock))
    ensures |r.0| == |ops|
  {
    if ops == [] then ([], k)
    else
      var reply := w.oracle(Acquiring, k.next);
      var op :=
        if Dispatchable(n, ops[0])
        then CleanedOp([ops[0]], Evaluate(reply.error, None, reply.raw))
        else CleanedOp([], Fail);
      var (rest, k') := RunCleanup(w, n, ops[1..], Clock(k.now + reply.advance, k.next + 1));
      ([op] + rest, k')
  }

  function RunOptional(w: Worker, t: Target, s: Option<Step>, ready: bool, k: Clock): (r: (Option<Checked>, Clock))
    requires s.Some? ==> Runnable(s.value.policy)
    ensures r.0.Some? <==> ready && s.Some?
  {
    if ready && s.Some? then
      var (c, k') := RunCheck(w, t.id, s.value, k);
      (Some(c), k')
    else (None, k)
  }

  predicate Passed(c: Option<Checked>) {
    c.Some? ==> c.value.report.outcome == Pass
  }

  /** A connection attempt was begun. */
  predicate ConnectBegan(connect: Option<Checked>) {
    connect.Some? && connect.value.report.attempts != []
  }

  /** The connection, the wait, the checks and the cleanup of a target whose rotation did not fail. */
  function RunBody(w: Worker, t: Target, rotation: Option<RotationTry>, k: Clock): (r: (Visit, Clock))
    requires ValidTarget(t)
    ensures r.0.Visited? && r.0.rotation == rotation
  {
    var (connect, k1) := RunOptional(w, t, t.connect, true, k);
    var (wait, k2) := RunOptional(w, t, t.wait, Passed(connect), k1);
    var (checks, k3) := RunChecks(w, t, 0, Passed(connect) && Passed(wait), k2);
    var (cleanup, k4) := if ConnectBegan(connect) then RunCleanup(w, t.network, CleanupCommands(t.network), k3) else ([], k3);
    (Visited(rotation, connect, wait, checks, cleanup), k4)
  }

  function RunTarget(w: Worker, t: Target, k: Clock): (Visit, Clock)
    requires ValidTarget(t)
  {
    if t.network.rotation == PerTarget then
      var (r, k') := Rotate(w, t, "before_target", k);
      if Rotated(r) then RunBody(w, t, Some(r), k')
      else (Barred(Some(r), SkipSteps(w, t, Steps(t), Prerequisite)), k')
    else RunBody(w, t, None, k)
  }

  // ---------------------------------------------------------------- one agent, one round

  function LowerCase(c: char): char {
    if 'A' <= c <= 'Z' then (c as int + 32) as char else c
  }

  /** Lower case, without spaces. */
  function NormalizeBand(band: string): string {
    if band == "" then ""
    else (if band[0] == ' ' then "" else [LowerCase(band[0])]) + NormalizeBand(band[1..])
  }

  function FirstBanded(targets: seq<Target>): nat {
    if targets == [] || Banded(targets[0]) then 0 else 1 + FirstBanded(targets[1..])
  }

  /** The bands that a capability check reported as unsupported. */
  function UnsupportedBands(preflight: Option<Checked>): set<string> {
    if preflight.Some? && preflight.value.report.outcome == Pass && preflight.value.report.attempts != [] then
      var attempts := preflight.value.report.attempts;
      set b | b in attempts[|attempts| - 1].bands :: NormalizeBand(b)
    else {}
  }

  function Preflight(w: Worker, targets: seq<Target>, k: Clock): (Option<Checked>, Clock) {
    if FirstBanded(targets) < |targets| then
      var (c, k') := RunCheck(w, "preflight", CapabilityStep(), k);
      (Some(c), k')
    else (None, k)
  }

  /** The first target of every SSID that rotates per round, among those not seen yet. */
  function RotationTargets(targets: seq<Target>, seen: set<string>): seq<Target> {
    if targets == [] then []
    else
      var t := targets[0];
      if t.network.rotation == PerRound && t.network.ssid !in seen
      then [t] + RotationTargets(targets[1..], seen + {t.network.ssid})
      else RotationTargets(targets[1..], seen)
  }

  function RotateAll(w: Worker, targets: seq<Target>, phase: string, k: Clock): (r: (seq<RotationTry>, Clock))
    ensures |r.0| == |targets|
  {
    if targets == [] then ([], k)
    else
      var (r, k1) := Rotate(w, targets[0], phase, k);
      var (rest, k') := RotateAll(w, targets[1..], phase, k1);
      ([r] + rest, k')
  }

  /** The SSIDs whose rotation before the round succeeded. */
  function RotatedSsids(targets: seq<Target>, tries: seq<RotationTry>): set<string>
    requires |tries| == |targets|
  {
    set i | 0 <= i < |targets| && Rotated(tries[i]) :: targets[i].network.ssid
  }

  function VisitTarget(w: Worker, t: Target, unsupported: set<string>, rotated: set<string>, k: Clock): (Visit, Clock)
    requires ValidTarget(t)
  {
    if NormalizeBand(t.network.band) in unsupported then
      (Barred(None, SkipSteps(w, t, Steps(t), Unsupported)), k)
    else if t.network.rotation == PerRound && t.network.ssid !in rotated then
      (Barred(None, SkipSteps(w, t, Steps(t), Prerequisite)), k)
    else RunTarget(w, t, k)
  }

  function VisitAll(w: Worker, targets: seq<Target>, unsupported: set<string>, rotated: set<string>, k: Clock): (r: (seq<Visit>, Clock))
    requires ValidTargets(targets)
    ensures |r.0| == |targets|
  {
    if targets == [] then ([], k)
    else
      var (v, k1) := VisitTarget(w, targets[0], unsupported, rotated, k);
      var (rest, k') := VisitAll(w, targets[1..], unsupported, rotated, k1);
      ([v] + rest, k')
  }

  function RunRound(w: Worker, targets: seq<Target>, k: Clock): (r: (AgentRound, Clock))
    requires ValidTargets(targets)
    ensures |r.0.visits| == |targets|
    ensures |r.0.before| == |RotationTargets(targets, {})| == |r.0.after|
  {
    var (preflight, k1) := Preflight(w, targets, k);
    var rotating := RotationTargets(targets, {});
    var (before, k2) := RotateAll(w, rotating, "before_round", k1);
    var (visits, k3) := VisitAll(w, targets, UnsupportedBands(preflight), RotatedSsids(rotating, before), k2);
    var (after, k4) := RotateAll(w, rotating, "after_round", k3);
    (AgentRound(preflight, before, visits, after), k4)
  }

  // ---------------------------------------------------------------- as report actions

  function CheckedActions(w: Worker, c: Checked): seq<Action> {
    (if c.problem then [Problem(w.agent, w.round, Primary)] else []) + [Record(c.report)]
  }

  function OptionalActions(w: Worker, c: Option<Checked>): seq<Action> {
    if c.Some? then CheckedActions(w, c.value) else []
  }

  function RotationActions(w: Worker, r: RotationTry): seq<Action> {
    match r
    case Unbuilt => [Problem(w.agent, w.round, Primary)]
    case Tried(c) => CheckedActions(w, c)
  }

  function CheckedAllActions(w: Worker, checks: seq<Checked>): seq<Action> {
    if checks == [] then [] else CheckedAllActions(w, checks[..|checks| - 1]) + CheckedActions(w, checks[|checks| - 1])
  }

  function SkipActions(skips: seq<StepReport>): seq<Action> {
    if skips == [] then [] else SkipActions(skips[..|skips| - 1]) + [Record(skips[|skips| - 1])]
  }

  function PartActions(w: Worker, t: Target, parts: seq<Command>): seq<Action> {
    if parts == [] then [] else PartActions(w, t, parts[..|parts| - 1]) + [Cleaned(w.agent, w.round, t.id, parts[|parts| - 1])]
  }

  function CleanedActions(w: Worker, t: Target, c: CleanedOp): seq<Action> {
    (if c.outcome != Pass then [Problem(w.agent, w.round, Cleanup)] else []) + PartActions(w, t, c.parts)
  }

  function CleanupActions(w: Worker, t: Target, ops: seq<CleanedOp>): seq<Action> {
    if ops == [] then [] else CleanupActions(w, t, ops[..|ops| - 1]) + CleanedActions(w, t, ops[|ops| - 1])
  }

  function RotationsActions(w: Worker, tries: seq<RotationTry>): seq<Action> {
    if tries == [] then [] else RotationsActions(w, tries[..|tries| - 1]) + RotationActions(w, tries[|tries| - 1])
  }

  function OutcomeOf(c: Option<Checked>): Outcome {
    if c.Some? then c.value.report.outcome else Pass
  }

  /** The join of the outcomes of the checks that ran, and of nothing that a prerequisite skipped. */
  function ChecksOutcome(checks: seq<Checked>): Outcome {
    if checks == [] then Pass
    else
      var r := checks[|checks| - 1].report;
      var before := ChecksOutcome(checks[..|checks| - 1]);
      if r.reason == Prerequisite then before else Combine(before, r.outcome)
  }

  function CleanupOutcome(ops: seq<CleanedOp>): Outcome {
    if ops == [] then Pass else Combine(CleanupOutcome(ops[..|ops| - 1]), ops[|ops| - 1].outcome)
  }

  function VisitOutcome(v: Visit): Outcome
    requires v.Visited?
  {
    Combine(Combine(Combine(OutcomeOf(v.connect), OutcomeOf(v.wait)), ChecksOutcome(v.checks)), CleanupOutcome(v.cleanup))
  }

  function BodyActions(w: Worker, t: Target, v: Visit): seq<Action>
    requires v.Visited?
  {
    OptionalActions(w, v.connect) + OptionalActions(w, v.wait) + CheckedAllActions(w, v.checks)
    + CleanupActions(w, t, v.cleanup) + [Progress(w.agent, w.round, VisitOutcome(v))]
  }

  function VisitActions(w: Worker, t: Target, v: Visit): seq<Action> {
    (if v.rotation.Some? then RotationActions(w, v.rotation.value) else [])
    + (if v.Barred? then SkipActions(v.skips) else BodyActions(w, t, v))
  }

  function VisitsActions(w: Worker, targets: seq<Target>, visits: seq<Visit>): seq<Action>
    requires |visits| == |targets|
  {
    if visits == [] then []
    else
      var n := |visits| - 1;
      VisitsActions(w, targets[..n], visits[..n]) + [Progress(w.agent, w.round, Pass)] + VisitActions(w, targets[n], visits[n])
  }

  function RoundActions(w: Worker, targets: seq<Target>, r: AgentRound): seq<Action>
    requires |r.visits| == |targets|
  {
    [Progress(w.agent, w.round, Pass)] + OptionalActions(w, r.preflight) + RotationsActions(w, r.before)
    + VisitsActions(w, targets, r.visits) + RotationsActions(w, r.after) + [Progress(w.agent, w.round, Pass)]
  }

  /** Everything the worker of one agent does in one round. */
  function WorkerActions(plan: Plan, w: Worker, k: Clock): seq<Action>
    requires ValidPlan(plan)
  {
    TargetsOfValid(plan.targets, w.agent);
    var targets := TargetsOf(plan.targets, w.agent);
    RoundActions(w, targets, RunRound(w, targets, k).0)
  }

  // ---------------------------------------------------------------- deliveries that failed under its steps

  function ChecksFaults(checks: seq<Checked>): nat {
    if checks == [] then 0 else ChecksFaults(checks[..|checks| - 1]) + checks[|checks| - 1].faults
  }

  function OptionalFaults(c: Option<Checked>): nat {
    if c.Some? then c.value.faults else 0
  }

  function RotationFaults(r: RotationTry): nat {
    if r.Tried? then r.result.faults else 0
  }

  function RotationsFaults(tries: seq<RotationTry>): nat {
    if tries == [] then 0 else RotationsFaults(tries[..|tries| - 1]) + RotationFaults(tries[|tries| - 1])
  }

  function VisitFaults(v: Visit): nat {
    (if v.rotation.Some? then RotationFaults(v.rotation.value) else 0)
    + if v.Visited? then OptionalFaults(v.connect) + OptionalFaults(v.wait) + ChecksFaults(v.checks) else 0
  }

  function VisitsFaults(visits: seq<Visit>): nat {
    if visits == [] then 0 else VisitsFaults(visits[..|visits| - 1]) + VisitFaults(visits[|visits| - 1])
  }

  /** How many deliveries failed under the steps of one agent in one round. */
  function WorkerFaults(plan: Plan, w: Worker, k: Clock): nat
    requires ValidPlan(plan)
  {
    TargetsOfValid(plan.targets, w.agent);
    var r := RunRound(w, TargetsOf(plan.targets, w.agent), k).0;
    OptionalFaults(r.preflight) + RotationsFaults(r.before) + VisitsFaults(r.visits) + RotationsFaults(r.after)
  }

  /** The workers of one round: one for each agent of the plan, each with its own view of the world. */
  predicate WorkersOf(agents: seq<string>, workers: seq<Worker>) {
    |workers| == |agents| && forall i :: 0 <= i < |agents| ==> workers[i].agent == agents[i]
  }
}
