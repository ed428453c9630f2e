/**
 Compiled plans (harness/runtime.go, compile.go) and the actions by which agent
 workers build the report.  An agent is named by its key.
 */
module Plans {
  import opened Outcomes
  import opened Policies
  import opened CheckLoop

  datatype Rotation = NoRotation | PerTarget | PerRound

  /** `forgettable`: the operation that forgets this SSID is a valid one. */
  datatype Network = Network(
    ssid: string, band: string, rotation: Rotation,
    disconnectAfter: bool, forgetAfter: bool, forgettable: bool)

  datatype Step = Step(id: string, operation: Operation, policy: Policy, required: bool)

  datatype Target = Target(
    id: string, network: Network,
    connect: Option<Step>, wait: Option<Step>, checks: seq<Step>, agents: seq<string>)

  datatype Plan = Plan(targets: seq<Target>, agents: seq<string>)

  predicate ValidTarget(t: Target) {
    && (t.connect.Some? ==> Normalized(t.connect.value.policy))
    && (t.wait.Some? ==> Normalized(t.wait.value.policy))
    && (forall i :: 0 <= i < |t.checks| ==> Normalized(t.checks[i].policy))
  }

  predicate ValidTargets(targets: seq<Target>) {
    forall i :: 0 <= i < |targets| ==> ValidTarget(targets[i])
  }

  predicate ValidPlan(p: Plan) {
    ValidTargets(p.targets)
  }

  predicate DistinctChecks(steps: seq<Step>) {
    forall i, j :: 0 <= i < j < |steps| ==> steps[i].id != steps[j].id
  }

  /** Targets, and the checks of one target, are told apart by their ids. */
  predicate WellNamed(p: Plan) {
    && (forall i, j :: 0 <= i < j < |p.targets| ==> p.targets[i].id != p.targets[j].id)
    && (forall t :: t in p.targets ==> DistinctChecks(t.checks))
  }

  predicate Distinct<T(==)>(s: seq<T>) {
    forall i, j :: 0 <= i < j < |s| ==> s[i] != s[j]
  }

  function AsSet<T>(s: seq<T>): set<T> {
    set x | x in s
  }

  /** A target whose network names a band gets a capability check before the round. */
  predicate Banded(t: Target) {
    t.network.band != "" && t.network.band != "all"
  }

  function AsStep(s: Option<Step>): seq<Step> {
    if s.Some? then [s.value] else []
  }

  /** Every step of a target, in execution order. */
  function Steps(t: Target): seq<Step> {
    AsStep(t.connect) + AsStep(t.wait) + t.checks
  }

  function TargetsOf(targets: seq<Target>, agent: string): seq<Target> {
    if targets == [] then []
    else
      var rest := TargetsOf(targets[1..], agent);
      if agent in targets[0].agents then [targets[0]] + rest else rest
  }

  lemma {:induction false} TargetsOfValid(targets: seq<Target>, agent: string)
    requires ValidTargets(targets)
    ensures ValidTargets(TargetsOf(targets, agent))
    ensures forall t :: t in TargetsOf(targets, agent) ==> t in targets && agent in t.agents
  {
    if targets != [] {
      TargetsOfValid(targets[1..], agent);
      assert ValidTarget(targets[0]);
    }
  }

  // ---------------------------------------------------------------- report actions

  datatype SkipReason = NotSkipped | Unsupported | Prerequisite | Operator

  datatype StepReport = StepReport(
    agent: string, round: nat, target: string, check: string,
    outcome: Outcome, reason: SkipReason, attempts: seq<Attempt>)

  datatype ProblemKind = Primary | Cleanup | Delivery

  datatype Action =
    | Record(report: StepReport)
    | Progress(agent: string, round: nat, outcome: Outcome)
    | Problem(agent: string, round: nat, kind: ProblemKind)
    | Cleaned(agent: string, round: nat, target: string, command: Command)
}
