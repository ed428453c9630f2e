/**
 The static price of a plan (harness/cost.go), over unbounded numbers, and the loops that
 compute it on 64-bit ones.
 */
module Costs {
  import opened Policies
  import opened CheckLoop
  import opened Plans

  datatype Cost = Cost(attemptsPerRound: nat, operationsPerRound: nat, operationsTotal: nat, unboundedDownload: bool)

  predicate NormalizedSteps(steps: seq<Step>) {
    forall i :: 0 <= i < |steps| ==> Normalized(steps[i].policy)
  }

  lemma StepsNormalized(t: Target)
    requires ValidTarget(t)
    ensures NormalizedSteps(Steps(t))
  {
  }

  function StepAttempts(s: Step): nat
    requires Normalized(s.policy)
  {
    AttemptBudget(s.policy)
  }

  function StepOperations(s: Step): nat
    requires Normalized(s.policy)
  {
    StepAttempts(s) * |Constituents(s.operation)|
  }

  function StepsAttempts(steps: seq<Step>): nat
    requires NormalizedSteps(steps)
  {
    if steps == [] then 0 else StepsAttempts(steps[..|steps| - 1]) + StepAttempts(steps[|steps| - 1])
  }

  function StepsOperations(steps: seq<Step>): nat
    requires NormalizedSteps(steps)
  {
    if steps == [] then 0 else StepsOperations(steps[..|steps| - 1]) + StepOperations(steps[|steps| - 1])
  }

  function One(b: bool): nat {
    if b then 1 else 0
  }

  /** What one agent may record on a target in one round, rotation included. */
  function AgentAttempts(t: Target): nat
    requires ValidTarget(t)
  {
    StepsNormalized(t);
    StepsAttempts(Steps(t)) + One(t.network.rotation == PerTarget)
  }

  /** The owned operations of one visit besides its steps. */
  function OwnedOperations(t: Target): nat {
    One(t.network.rotation == PerTarget)
    + (if t.connect.Some? then One(t.network.disconnectAfter) + One(t.network.forgetAfter) else 0)
  }

  function AgentOperations(t: Target): nat
    requires ValidTarget(t)
  {
    StepsNormalized(t);
    StepsOperations(Steps(t)) + OwnedOperations(t)
  }

  function ForAll(agents: nat, each: nat): nat {
    agents * each
  }

  function TargetsAttempts(targets: seq<Target>): nat
    requires ValidTargets(targets)
  {
    if targets == [] then 0
    else
      var n := |targets| - 1;
      TargetsAttempts(targets[..n]) + ForAll(|targets[n].agents|, AgentAttempts(targets[n]))
  }

  function TargetsOperations(targets: seq<Target>): nat
    requires ValidTargets(targets)
  {
    if targets == [] then 0
    else
      var n := |targets| - 1;
      TargetsOperations(targets[..n]) + ForAll(|targets[n].agents|, AgentOperations(targets[n]))
  }

  /** The agents that check their capabilities once in a round. */
  function PreflightKeys(targets: seq<Target>): set<string> {
    set t, a | t in targets && Banded(t) && a in t.agents :: a
  }

  /** The agents and SSIDs that rotate before and after a round. */
  function RotationKeys(targets: seq<Target>): set<(string, string)> {
    set t, a | t in targets && t.network.rotation == PerRound && a in t.agents :: (a, t.network.ssid)
  }

  function PlanAttempts(targets: seq<Target>): nat
    requires ValidTargets(targets)
  {
    TargetsAttempts(targets) + |PreflightKeys(targets)| + 2 * |RotationKeys(targets)|
  }

  function PlanOperations(targets: seq<Target>): nat
    requires ValidTargets(targets)
  {
    TargetsOperations(targets) + |PreflightKeys(targets)| + 2 * |RotationKeys(targets)|
  }

  ghost predicate Downloads(targets: seq<Target>) {
    exists t, s :: t in targets && s in Steps(t) && s.operation == Operation(Wget, Atomic)
  }

  predicate ValidOptions(p: Plan, rounds: uint64, loop: bool) {
    p.targets != [] && p.agents != [] && (loop <==> rounds == 0)
  }

  /** What is accepted: the attempts that could be retained fit the report, per round and over a finite run. */
  predicate Affordable(p: Plan, rounds: uint64, loop: bool)
    requires ValidPlan(p)
  {
    && ValidOptions(p, rounds, loop)
    && PlanAttempts(p.targets) <= MAX_RETAINED_ATTEMPTS
    && (!loop ==> rounds * (if PlanAttempts(p.targets) >= 1 then PlanAttempts(p.targets) else 1) <= MAX_RETAINED_ATTEMPTS)
  }

  // ---------------------------------------------------------------- sets of keys, one target at a time

  lemma KeysSnoc(targets: seq<Target>, t: Target)
    ensures PreflightKeys(targets + [t]) == PreflightKeys(targets) + (if Banded(t) then set a | a in t.agents else {})
    ensures RotationKeys(targets + [t]) ==
      RotationKeys(targets) + (if t.network.rotation == PerRound then set a | a in t.agents :: (a, t.network.ssid) else {})
  {
    var all := targets + [t];
    forall u | u in all
      ensures u in targets || u == t
    {
    }
    assert t in all;
    assert targets <= all;
  }

  lemma TargetsFront(targets: seq<Target>, n: nat)
    requires n < |targets| && ValidTargets(targets)
    ensures ValidTargets(targets[..n]) && ValidTargets(targets[..n + 1]) && ValidTarget(targets[n])
    ensures targets[..n + 1] == targets[..n] + [targets[n]]
    ensures TargetsAttempts(targets[..n + 1]) == TargetsAttempts(targets[..n]) + |targets[n].agents| * AgentAttempts(targets[n])
    ensures TargetsOperations(targets[..n + 1]) == TargetsOperations(targets[..n]) + |targets[n].agents| * AgentOperations(targets[n])
  {
    hide AgentAttempts, AgentOperations, ValidTarget;
    assert targets[..n + 1][..n] == targets[..n];
  }

  lemma {:induction false} PrefixCheaper(targets: seq<Target>, n: nat)
    requires n <= |targets| && ValidTargets(targets)
    ensures ValidTargets(targets[..n])
    ensures PlanAttempts(targets[..n]) <= PlanAttempts(targets)
    ensures PlanOperations(targets[..n]) <= PlanOperations(targets)
    decreases |targets| - n
  {
    hide TargetsAttempts, TargetsOperations, AgentAttempts, AgentOperations, PreflightKeys, RotationKeys, ValidTarget;
    if n == |targets| {
      assert targets[..n] == targets;
    } else {
      TargetsFront(targets, n);
      KeysSnoc(targets[..n], targets[n]);
      SubsetSize(PreflightKeys(targets[..n]), PreflightKeys(targets[..n + 1]));
      SubsetSize(RotationKeys(targets[..n]), RotationKeys(targets[..n + 1]));
      ProductNat(|targets[n].agents|, AgentAttempts(targets[n]));
      ProductNat(|targets[n].agents|, AgentOperations(targets[n]));
      PrefixCheaper(targets, n + 1);
    }
  }

  lemma ProductNat(a: nat, b: nat)
    ensures a * b >= 0
  {
  }

  lemma {:induction false} SubsetSize<T>(a: set<T>, b: set<T>)
    requires a <= b
    ensures |a| <= |b|
  {
    if a != {} {
      var x :| x in a;
      SubsetSize(a - {x}, b - {x});
    }
  }

  // ---------------------------------------------------------------- operations are bounded by attempts

  lemma {:induction false} StepsOperationsBound(steps: seq<Step>)
    requires NormalizedSteps(steps)
    ensures StepsOperations(steps) <= 2 * StepsAttempts(steps)
    ensures StepsAttempts(steps) >= |steps|
  {
    hide StepAttempts;
    if steps != [] {
      StepsOperationsBound(steps[..|steps| - 1]);
      var s := steps[|steps| - 1];
      AttemptsPositive(s);
      ProductMonotone(StepAttempts(s), |Constituents(s.operation)|, 2);
    }
  }

  lemma AttemptsPositive(s: Step)
    requires Normalized(s.policy)
    ensures StepAttempts(s) >= 1
  {
  }

  lemma AgentOperationsBound(t: Target)
    requires ValidTarget(t)
    ensures AgentOperations(t) <= 4 * AgentAttempts(t)
  {
    StepsNormalized(t);
    StepsOperationsBound(Steps(t));
    hide StepsAttempts, StepsOperations;
  }

  lemma {:induction false} OperationsBound(targets: seq<Target>)
    requires ValidTargets(targets)
    ensures TargetsOperations(targets) <= 4 * TargetsAttempts(targets)
  {
    hide AgentAttempts, AgentOperations, ValidTarget;
    if targets != [] {
      var n := |targets| - 1;
      OperationsBound(targets[..n]);
      AgentOperationsBound(targets[n]);
      ScaleNat(|targets[n].agents|, AgentOperations(targets[n]), AgentAttempts(targets[n]));
    }
  }

  lemma ScaleNat(n: nat, a: nat, b: nat)
    requires a <= 4 * b
    ensures n * a <= 4 * (n * b)
  {
    var d := 4 * b - a;
    assert n * d >= 0;
    assert n * a + n * d == n * (4 * b) == 4 * (n * b);
  }
}
