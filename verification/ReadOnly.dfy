/**
 A plan whose networks are all read-only never changes the Wi-Fi state of any agent.
 */
module ReadOnly {
  import opened Outcomes
  import opened Policies
  import opened CheckLoop
  import opened Plans
  import opened Rounds
  import opened CostSoundness
  import opened PriceAttained
  import opened Runs
  import opened Selection
  import opened SelectionCost
  import opened Verdicts
  import opened Compile

  /** The commands that change an agent's Wi-Fi configuration or connection, or wait for a state of it. */
  const MUTATIONS: set<Command> := {
    ConnectWifi, WaitWifiConnected, AssertWifi, MonitorWifi, DisconnectWifi, ForgetWifi, ReconnectWifi, CycleWifi}

  /** All others. */
  const OBSERVATIONS: set<Command> := {
    GetWifiStatus, GetIpStatus, GetWifiDiagnostics, GetWifiScan, GetWifiCapabilities, GetFreshWifiScan,
    GetWifiScanDetail, Ping, ResolveDns, HttpCheck, Traceroute, PathMtu, GlobalIp, Wget}

  /** What a plan of read-only networks may dispatch: without active probes only requests for status, and the scan that a check asks for in front of one. */
  function Allowed(p: PlanSpec): set<Command> {
    if exists n :: n in p.networks && n.activeProbes then OBSERVATIONS
    else if exists n, c :: n in p.networks && c in p.checks + n.checks && c.operation.compound == FreshScan
    then {GetWifiStatus, GetIpStatus, GetFreshWifiScan}
    else {GetWifiStatus, GetIpStatus}
  }

  predicate OnlyObserves(commands: seq<Command>, allowed: set<Command>) {
    forall c :: c in commands ==> c in allowed
  }

  predicate ReadOnlyTarget(t: Target, allowed: set<Command>) {
    && t.connect.None? && t.wait.None?
    && t.network.rotation == NoRotation && t.network.band == ""
    && !t.network.disconnectAfter && !t.network.forgetAfter
    && forall s :: s in t.checks ==> OnlyObserves(Constituents(s.operation), allowed)
  }

  lemma CompiledReadOnly(p: PlanSpec, i: nat, agents: seq<AgentInfo>, bind: bool)
    requires i < |p.networks| && TargetOk(p, i, agents, bind) && p.networks[i].readOnly
    ensures ReadOnlyTarget(CompiledTarget(p, i, agents, bind), Allowed(p))
  {
    hide CompiledPolicy, Acceptable, Bindable, BoundTo, CheckId, TargetId, Allowed, OnlyObserves;
    var n := p.networks[i];
    assert Underscored("") == "";
    var t := CompiledTarget(p, i, agents, bind);
    forall s | s in t.checks
      ensures OnlyObserves(Constituents(s.operation), Allowed(p))
    {
      var j :| 0 <= j < |t.checks| && t.checks[j] == s;
      assert CheckOk(n, ChecksOf(p, n)[j]);
      CheckAllowed(p, i, j);
    }
  }

  lemma CheckAllowed(p: PlanSpec, i: nat, j: nat)
    requires i < |p.networks| && j < |ChecksOf(p, p.networks[i])| && p.networks[i].readOnly
    requires Admitted(p.networks[i], ChecksOf(p, p.networks[i])[j])
    ensures OnlyObserves(Constituents(ChecksOf(p, p.networks[i])[j].operation), Allowed(p))
  {
    var n, c := p.networks[i], ChecksOf(p, p.networks[i])[j];
    assert n in p.networks && c in p.checks + n.checks;
  }

  lemma CutReadOnly(t': Target, t: Target, ids: set<string>, all: bool, allowed: set<Command>)
    requires CutFrom(t', t, ids, all) && ReadOnlyTarget(t, allowed)
    ensures ReadOnlyTarget(t', allowed)
  {
    hide KeptChecks, Kept, OnlyObserves;
    KeptMembers(t.checks, ids, |t.checks|);
  }

  // ---------------------------------------------------------------- dispatches

  predicate Observes(a: Action, allowed: set<Command>) {
    match a
    case Record(r) => forall i :: 0 <= i < |r.attempts| ==> OnlyObserves(r.attempts[i].parts, allowed)
    case Cleaned(_, _, _, c) => c in allowed
    case _ => true
  }

  predicate AllObserve(actions: seq<Action>, allowed: set<Command>) {
    forall a :: a in actions ==> Observes(a, allowed)
  }

  lemma CheckObserves(w: Worker, target: string, s: Step, k: Clock, allowed: set<Command>)
    requires Normalized(s.policy) && OnlyObserves(Constituents(s.operation), allowed)
    ensures AllObserve(CheckedActions(w, RunCheck(w, target, s, k).0), allowed)
  {
    hide RunCheck, Constituents, ActiveObservation;
    CheckLoad(w, target, s, k, false);
    var r := RunCheck(w, target, s, k).0.report;
    forall i | 0 <= i < |r.attempts|
      ensures OnlyObserves(r.attempts[i].parts, allowed)
    {
      assert r.attempts[i].parts <= Constituents(s.operation);
    }
  }

  lemma {:induction false} ChecksObserve(w: Worker, t: Target, i: nat, ready: bool, k: Clock, before: seq<Checked>, allowed: set<Command>)
    requires ValidTarget(t) && ReadOnlyTarget(t, allowed) && i <= |t.checks|
    requires AllObserve(CheckedAllActions(w, before), allowed)
    ensures AllObserve(CheckedAllActions(w, before + RunChecks(w, t, i, ready, k).0), allowed)
    decreases |t.checks| - i
  {
    hide Observes, CheckedActions, RunCheck, Continues, OnlyObserves, Constituents;
    if i == |t.checks| {
      assert before + RunChecks(w, t, i, ready, k).0 == before;
    } else {
      var check := t.checks[i];
      var (c, k1) := if ready then RunCheck(w, t.id, check, k) else (Checked(Skipped(w, t, check, Prerequisite), false, 0), k);
      if ready {
        CheckObserves(w, t.id, check, k, allowed);
      } else {
        SkipObserves(w, c, allowed);
      }
      assert (before + [c])[..|before|] == before;
      var ready' := ready && Continues(check, c.report);
      ChecksObserve(w, t, i + 1, ready', k1, before + [c], allowed);
      assert before + RunChecks(w, t, i, ready, k).0 == before + [c] + RunChecks(w, t, i + 1, ready', k1).0;
    }
  }

  lemma SkipObserves(w: Worker, c: Checked, allowed: set<Command>)
    requires c.report.attempts == []
    ensures AllObserve(CheckedActions(w, c), allowed)
  {
  }

  lemma {:induction false} SkipsObserve(skips: seq<StepReport>, allowed: set<Command>)
    requires forall i :: 0 <= i < |skips| ==> skips[i].attempts == []
    ensures AllObserve(SkipActions(skips), allowed)
  {
    if skips != [] {
      SkipsObserve(skips[..|skips| - 1], allowed);
    }
  }

  lemma BodyObserves(w: Worker, t: Target, rotation: Option<RotationTry>, k: Clock, allowed: set<Command>)
    requires ValidTarget(t) && ReadOnlyTarget(t, allowed)
    ensures AllObserve(BodyActions(w, t, RunBody(w, t, rotation, k).0), allowed)
  {
    hide RunChecks, CheckedActions, VisitOutcome, OnlyObserves;
    var checks := RunChecks(w, t, 0, true, k).0;
    ChecksObserve(w, t, 0, true, k, [], allowed);
    assert [] + checks == checks;
    var v := RunBody(w, t, rotation, k).0;
    assert v.checks == checks && v.connect.None? && v.wait.None? && v.cleanup == [];
  }

  lemma VisitObserves(w: Worker, t: Target, unsupported: set<string>, rotated: set<string>, k: Clock, allowed: set<Command>)
    requires ValidTarget(t) && ReadOnlyTarget(t, allowed)
    ensures AllObserve(VisitActions(w, t, VisitTarget(w, t, unsupported, rotated, k).0), allowed)
  {
    hide RunBody, BodyActions, SkipActions, Observes, NormalizeBand, OnlyObserves;
    var v := VisitTarget(w, t, unsupported, rotated, k).0;
    assert v.rotation.None?;
    if v.Barred? {
      SkipsObserve(v.skips, allowed);
    } else {
      BodyObserves(w, t, None, k, allowed);
    }
  }

  lemma {:induction false} VisitsObserve(
      w: Worker, targets: seq<Target>, n: nat, unsupported: set<string>, rotated: set<string>, k: Clock, before: seq<Visit>, allowed: set<Command>)
    requires ValidTargets(targets) && n == |before| <= |targets| && forall t :: t in targets ==> ReadOnlyTarget(t, allowed)
    requires AllObserve(VisitsActions(w, targets[..n], before), allowed)
    ensures AllObserve(VisitsActions(w, targets, before + VisitAll(w, targets[n..], unsupported, rotated, k).0), allowed)
    decreases |targets| - n
  {
    hide VisitTarget, VisitActions, Observes, ReadOnlyTarget, ValidTarget;
    if n == |targets| {
      assert before + VisitAll(w, targets[n..], unsupported, rotated, k).0 == before;
      assert targets[..n] == targets;
    } else {
      var t := targets[n];
      assert ValidTarget(t) && t in targets;
      var (v, k1) := VisitTarget(w, t, unsupported, rotated, k);
      VisitObserves(w, t, unsupported, rotated, k, allowed);
      assert targets[n..][1..] == targets[n + 1..];
      assert targets[..n + 1][..n] == targets[..n];
      assert (before + [v])[..n] == before;
      ProgressObserves(w, allowed);
      assert AllObserve(VisitsActions(w, targets[..n + 1], before + [v]), allowed);
      VisitsObserve(w, targets, n + 1, unsupported, rotated, k1, before + [v], allowed);
      assert before + VisitAll(w, targets[n..], unsupported, rotated, k).0 == before + [v] + VisitAll(w, targets[n + 1..], unsupported, rotated, k1).0;
    }
  }

  lemma ProgressObserves(w: Worker, allowed: set<Command>)
    ensures Observes(Progress(w.agent, w.round, Pass), allowed)
  {
  }

  lemma {:induction false} NothingRotates(targets: seq<Target>, allowed: set<Command>)
    requires forall t :: t in targets ==> ReadOnlyTarget(t, allowed)
    ensures RotationTargets(targets, {}) == [] && FirstBanded(targets) == |targets|
  {
    hide OnlyObserves;
    if targets != [] {
      assert targets[0] in targets && forall t :: t in targets[1..] ==> t in targets;
      NothingRotates(targets[1..], allowed);
    }
  }

  lemma AgentObserves(w: Worker, targets: seq<Target>, k: Clock, allowed: set<Command>)
    requires ValidTargets(targets) && forall t :: t in targets ==> ReadOnlyTarget(t, allowed)
    ensures AllObserve(RoundActions(w, targets, RunRound(w, targets, k).0), allowed)
  {
    hide VisitAll, VisitsActions, Observes, ReadOnlyTarget, RunCheck, RotationTargets, UnsupportedBands, FirstBanded, ValidTarget;
    NothingRotates(targets, allowed);
    ProgressObserves(w, allowed);
    var unsupported, rotated := UnsupportedBands(None), RotatedSsids([], []);
    assert targets[..0] == [] && targets[0..] == targets;
    NoVisitsObserve(w, allowed);
    VisitsObserve(w, targets, 0, unsupported, rotated, k, [], allowed);
    var visits := VisitAll(w, targets, unsupported, rotated, k).0;
    assert [] + visits == visits;
    var r := RunRound(w, targets, k).0;
    assert r.preflight.None? && r.before == [] && r.after == [] && r.visits == visits;
  }

  lemma NoVisitsObserve(w: Worker, allowed: set<Command>)
    ensures AllObserve(VisitsActions(w, [], []), allowed)
  {
  }

  predicate AllReadOnly(p: PlanSpec) {
    forall n :: n in p.networks ==> n.readOnly
  }

  lemma CompiledTargetsReadOnly(p: PlanSpec, agents: seq<AgentInfo>, bind: bool)
    requires Compilable(p, agents, bind) && AllReadOnly(p)
    ensures forall t :: t in CompiledPlan(p, agents, bind).targets ==> ReadOnlyTarget(t, Allowed(p))
  {
    hide Allowed, TargetOk, CompiledTarget, ReadOnlyTarget;
    var c := CompiledPlan(p, agents, bind);
    forall t | t in c.targets
      ensures ReadOnlyTarget(t, Allowed(p))
    {
      var i :| 0 <= i < |c.targets| && c.targets[i] == t;
      assert p.networks[i] in p.networks;
      CompiledReadOnly(p, i, agents, bind);
    }
  }

  predicate Dispatches(actions: seq<Action>, c: Command) {
    exists a :: a in actions &&
      match a
      case Record(r) => exists i :: 0 <= i < |r.attempts| && c in r.attempts[i].parts
      case Cleaned(_, _, _, d) => c == d
      case _ => false
  }

  lemma ObservingDispatches(actions: seq<Action>, c: Command, allowed: set<Command>)
    requires AllObserve(actions, allowed) && Dispatches(actions, c)
    ensures c in allowed
  {
  }

  lemma AllowedObserve(p: PlanSpec, c: Command)
    requires c in Allowed(p)
    ensures ActiveObservation(c) && c !in MUTATIONS
  {
    hide ActiveObservation;
    AllAreObservations(c);
    assert c in OBSERVATIONS;
    ObservationsObserve(c);
    MutationsDoNotObserve(c);
  }

  lemma AllAreObservations(c: Command)
    ensures c == GetWifiStatus || c == GetIpStatus || c == GetFreshWifiScan ==> c in OBSERVATIONS
  {
  }

  lemma ObservationsObserve(c: Command)
    requires c in OBSERVATIONS
    ensures ActiveObservation(c)
  {
  }

  lemma MutationsDoNotObserve(c: Command)
    ensures c in MUTATIONS ==> !ActiveObservation(c)
  {
  }

  /** The compiled plan, or the plan that a selection cuts from it. */
  function Chosen(p: PlanSpec, agents: seq<AgentInfo>, bind: bool, sel: Option<Selection>): Plan
    requires Compilable(p, agents, bind)
  {
    var full := CompiledPlan(p, agents, bind);
    if sel.Some? then Selected(full, sel.value) else full
  }

  lemma ChosenReadOnly(p: PlanSpec, agents: seq<AgentInfo>, bind: bool, sel: Option<Selection>)
    requires Compilable(p, agents, bind) && AllReadOnly(p)
    ensures ValidPlan(Chosen(p, agents, bind, sel))
    ensures forall t :: t in Chosen(p, agents, bind, sel).targets ==> ReadOnlyTarget(t, Allowed(p))
  {
    hide Allowed, Compilable, CompiledPlan, ReadOnlyTarget, Selected, ValidTargets, PlanLoad, PieceOf, WellNamed;
    var full := CompiledPlan(p, agents, bind);
    CompiledPlanValid(p, agents, bind);
    CompiledTargetsReadOnly(p, agents, bind);
    if sel.Some? {
      SelectionCheaper(full, sel.value, false);
      forall t | t in Selected(full, sel.value).targets
        ensures ReadOnlyTarget(t, Allowed(p))
      {
        var u, ids, all := SelectedOrigin(full, sel.value, t);
        CutReadOnly(t, u, ids, all, Allowed(p));
      }
    }
  }

  lemma WorkerObserves(plan: Plan, w: Worker, k: Clock, allowed: set<Command>)
    requires ValidPlan(plan) && forall t :: t in plan.targets ==> ReadOnlyTarget(t, allowed)
    ensures AllObserve(WorkerActions(plan, w, k), allowed)
  {
    hide ReadOnlyTarget, RunRound, RoundActions, AllObserve, ValidTarget;
    TargetsOfValid(plan.targets, w.agent);
    AgentObserves(w, TargetsOf(plan.targets, w.agent), k, allowed);
  }

  lemma {:induction false} RunObserves(plan: Plan, rounds: seq<RoundLog>, allowed: set<Command>)
    requires ValidPlan(plan) && Run(plan, rounds) && forall t :: t in plan.targets ==> ReadOnlyTarget(t, allowed)
    ensures AllObserve(History(rounds), allowed)
  {
    hide ReadOnlyTarget, WorkerActions, ValidPlan, Run, Interleaved, Observes;
    if rounds != [] {
      var n := |rounds| - 1;
      var r := rounds[n];
      RunBefore(plan, rounds);
      RunObserves(plan, rounds[..n], allowed);
      forall a | a in r.log
        ensures Observes(a, allowed)
      {
        if SourceOf(a).Some? {
          var i := PerformedBy(plan, |rounds|, r, false, a);
          WorkerObserves(plan, r.workers[i], r.clocks[i], allowed);
        } else {
          DeliveryObserves(a, allowed);
        }
      }
    }
  }

  lemma DeliveryObserves(a: Action, allowed: set<Command>)
    requires SourceOf(a).None?
    ensures Observes(a, allowed)
  {
  }

  /**
   Read-only plans never mutate Wi-Fi.  For every plan that compiles with read-only networks
   only, with active probes or without, and for every selection of it: no run, of any length
   and in any interleaving, dispatches anything but observations, and without active probes
   nothing but requests for status and the scans that checks ask for.
   */
  lemma ReadOnlyPlansOnlyObserve(p: PlanSpec, agents: seq<AgentInfo>, bind: bool, sel: Option<Selection>, rounds: seq<RoundLog>)
    requires Compilable(p, agents, bind) && AllReadOnly(p)
    ensures ValidPlan(Chosen(p, agents, bind, sel))
    ensures Run(Chosen(p, agents, bind, sel), rounds) ==>
      forall c :: Dispatches(History(rounds), c) ==> c in Allowed(p) && ActiveObservation(c) && c !in MUTATIONS
  {
    hide Compilable, Chosen, ReadOnlyTarget, AllObserve, Dispatches, ActiveObservation, ValidPlan, Run, History, Allowed;
    ChosenReadOnly(p, agents, bind, sel);
    if Run(Chosen(p, agents, bind, sel), rounds) {
      RunObserves(Chosen(p, agents, bind, sel), rounds, Allowed(p));
      forall c | Dispatches(History(rounds), c)
        ensures c in Allowed(p) && ActiveObservation(c) && c !in MUTATIONS
      {
        ObservingDispatches(History(rounds), c, Allowed(p));
        AllowedObserve(p, c);
      }
    }
  }

  /**
   Status is not all that networks without active probes admit: every such network admits a check
   whose operation asks for a fresh scan in front of its status, and where everything passes every
   attempt of it dispatches the scan.
   */
  lemma ScansAreAdmitted(n: NetworkSpec, c: CheckSpec, w: Worker, target: string, id: string, k: Clock)
    requires n.readOnly && !n.activeProbes && c.valid && c.binds && c.operation == Operation(GetWifiStatus, FreshScan)
    requires Acceptable(c.policy, c.timeout) && Plain(CompiledPolicy(c.policy, c.timeout)) && Obliging(w.oracle)
    ensures CheckOk(n, c)
    ensures var r := RunCheck(w, target, CompiledStep(id, c), k).0.report;
      && r.outcome == Pass && r.attempts != []
      && forall i :: 0 <= i < |r.attempts| ==> r.attempts[i].parts == [GetFreshWifiScan, GetWifiStatus]
  {
    hide Acceptable, CompiledPolicy, RunCheck, Plain, Obliging, StepLoad, Weight;
    CheckAttains(w, target, CompiledStep(id, c), k, false);
    var r := RunCheck(w, target, CompiledStep(id, c), k).0.report;
    forall i | 0 <= i < |r.attempts|
      ensures r.attempts[i].parts == [GetFreshWifiScan, GetWifiStatus]
    {
      assert Full(r.attempts[i], c.operation);
    }
  }
}
