/**
 Transparency is needed: for every world that is not transparent there is a plan that compiles, a
 selection of it, and two rounds that answer as the world does, in which a check that the
 selection keeps ends with different verdicts.
 */
module DivergingRuns {
  import opened Outcomes
  import opened Policies
  import opened CheckLoop
  import opened Plans
  import opened Rounds
  import opened Selection
  import opened Verdicts
  import opened Compile
  import opened Transparency
  import opened Realization

  // ---------------------------------------------------------------- plans that compile

  const ONCE := Policy(1, 1, 0, 0, 0, ONE_SECOND, ONE_SECOND)

  const CONNECT := Step("connect", Operation(ConnectWifi, Atomic), ONCE, true)

  const AGENTS: seq<AgentInfo> := [AgentInfo("a", "")]

  /** One network of a plan: whether it is connected to, its band, whether it rotates per round, and the ids of its checks, required or not. */
  datatype Shape = Shape(owned: bool, band: string, rotates: bool, checks: seq<(string, bool)>)

  predicate Fine(s: Shape) {
    && (!s.owned ==> s.band == "" && !s.rotates && s.checks != [])
    && (forall j :: 0 <= j < |s.checks| ==> s.checks[j].0 != "")
    && forall j, k :: 0 <= j < k < |s.checks| ==> s.checks[j].0 != s.checks[k].0
  }

  function CheckOf(c: (string, bool)): CheckSpec {
    CheckSpec(c.0, true, Operation(GetWifiStatus, Atomic), ONE_SECOND, ONCE, c.1, true)
  }

  function StepOf(c: (string, bool)): Step {
    Step(c.0, Operation(GetWifiStatus, Atomic), ONCE, c.1)
  }

  function ChecksFor(s: Shape): (checks: seq<CheckSpec>)
    ensures |checks| == |s.checks| && forall j :: 0 <= j < |s.checks| ==> checks[j] == CheckOf(s.checks[j])
  {
    seq(|s.checks|, j requires 0 <= j < |s.checks| => CheckOf(s.checks[j]))
  }

  function StepsFor(s: Shape): (steps: seq<Step>)
    ensures |steps| == |s.checks| && forall j :: 0 <= j < |s.checks| ==> steps[j] == StepOf(s.checks[j])
  {
    seq(|s.checks|, j requires 0 <= j < |s.checks| => StepOf(s.checks[j]))
  }

  function NetworkFor(s: Shape): NetworkSpec {
    NetworkSpec(
      "net", "", Secret("", ""), true, "", s.band, "", if s.rotates then "per_round" else "", 0, 0,
      false, false, false, false, false, if s.owned then ONCE else OMITTED, OMITTED, !s.owned, false,
      "", ChecksFor(s), Built(s.owned, ONE_SECOND), Built(false, 0))
  }

  function SpecOf(shapes: seq<Shape>): (p: PlanSpec)
    ensures |p.networks| == |shapes| && forall i :: 0 <= i < |shapes| ==> p.networks[i] == NetworkFor(shapes[i])
    ensures p.checks == [] && p.forgettable == {"net"} && p.roundInterval == 0
  {
    PlanSpec(seq(|shapes|, i requires 0 <= i < |shapes| => NetworkFor(shapes[i])), [], 0, {"net"})
  }

  function NetworkOf(s: Shape): Network {
    Network("net", s.band, if s.rotates then PerRound else NoRotation, s.rotates, false, true)
  }

  function TargetOf(i: nat, s: Shape): Target {
    Target(TargetId(i), NetworkOf(s), if s.owned then Some(CONNECT) else None, None, StepsFor(s), ["a"])
  }

  lemma OnceAccepted()
    ensures Acceptable(ONCE, ONE_SECOND) && Once(ONCE) && Normalized(ONCE)
  {
    assert Defaulted(ONCE) == ONCE && Window(ONCE) == 0;
    assert SamplesPerRepeat(ONCE) == 1;
    assert AttemptBudget(ONCE) == 1;
  }

  lemma OnceCompiled()
    ensures Acceptable(ONCE, ONE_SECOND) && CompiledPolicy(ONCE, ONE_SECOND) == ONCE
  {
    OnceAccepted();
    hide Acceptable, Once, Normalized, AttemptBudget, SamplesPerRepeat, DefaultTimeout, Window;
    assert Defaulted(ONCE) == ONCE;
  }

  lemma ShapeNetwork(s: Shape)
    requires Fine(s)
    ensures NetworkOk(NetworkFor(s)) && CompiledNetwork(NetworkFor(s), {"net"}) == NetworkOf(s)
  {
    hide ChecksFor;
    assert "net"[0] == 'n' && !Space('n');
    assert Underscored("") == "";
    assert Underscored("per_round") == "per_round";
    assert "per_round"[4] == 'r' && "per_target"[4] == 't';
  }

  lemma ShapeConnects(s: Shape)
    requires Fine(s)
    ensures var n := NetworkFor(s);
      && !n.waitConnected && n.readOnly == !s.owned
      && (s.owned ==> n.connect.ok && Acceptable(n.connectPolicy, n.connect.timeout) && ConnectStep(n) == CONNECT)
  {
    hide Acceptable, CompiledPolicy, Normalized, AttemptBudget, SamplesPerRepeat, DefaultTimeout, Window, ChecksFor;
    OnceCompiled();
  }

  lemma CheckCompiles(n: NetworkSpec, c: (string, bool))
    requires !n.activeProbes
    ensures CheckOk(n, CheckOf(c)) && Acceptable(CheckOf(c).policy, CheckOf(c).timeout) && CompiledStep(c.0, CheckOf(c)) == StepOf(c)
  {
    hide Acceptable, CompiledPolicy, Normalized, AttemptBudget, SamplesPerRepeat, DefaultTimeout, Window;
    OnceCompiled();
  }

  lemma ShapeChecks(shapes: seq<Shape>, i: nat)
    requires i < |shapes| && Fine(shapes[i])
    ensures var p, s := SpecOf(shapes), shapes[i];
      && ChecksOf(p, p.networks[i]) == ChecksFor(s)
      && ChecksOk(p, i, |s.checks|) && CompiledChecks(p, i, |s.checks|) == StepsFor(s)
  {
    hide CheckOk, CompiledStep, CheckOf, StepOf, Acceptable, CompiledPolicy, Normalized, AttemptBudget, SamplesPerRepeat, DefaultTimeout, Window, NetworkFor;
    NetworkChecks(shapes[i]);
    var p, s := SpecOf(shapes), shapes[i];
    var n := p.networks[i];
    assert ChecksOf(p, n) == [] + ChecksFor(s) == ChecksFor(s);
    forall j | 0 <= j < |s.checks|
      ensures CheckOk(n, ChecksOf(p, n)[j]) && IdAt(p, i, j) == s.checks[j].0
      ensures Acceptable(ChecksOf(p, n)[j].policy, ChecksOf(p, n)[j].timeout)
      ensures CompiledStep(s.checks[j].0, ChecksOf(p, n)[j]) == StepOf(s.checks[j])
    {
      CheckCompiles(n, s.checks[j]);
      CheckNamed(s.checks[j]);
    }
    assert CompiledChecks(p, i, |s.checks|) == StepsFor(s);
  }

  lemma NetworkChecks(s: Shape)
    ensures NetworkFor(s).checks == ChecksFor(s) && !NetworkFor(s).activeProbes
  {
  }

  lemma CheckNamed(c: (string, bool))
    ensures CheckOf(c).source == c.0
  {
  }

  lemma EveryoneBound()
    ensures Bindable("", AGENTS) && Keys(BoundTo("", AGENTS)) == ["a"] == Keys(AGENTS)
  {
    assert Keys(AGENTS) == [AgentKey(AGENTS[0])];
  }

  lemma ShapeCompiles(shapes: seq<Shape>, i: nat)
    requires i < |shapes| && Fine(shapes[i])
    ensures TargetOk(SpecOf(shapes), i, AGENTS, true)
    ensures CompiledTarget(SpecOf(shapes), i, AGENTS, true) == TargetOf(i, shapes[i])
  {
    hide TargetId, Acceptable, CompiledPolicy, Bindable, BoundTo, ChecksOk, CompiledChecks;
    hide NetworkOk, CompiledNetwork, Keys, ConnectStep, ChecksFor, StepsFor, NetworkOf, ChecksOf;
    EveryoneBound();
    ShapeNetwork(shapes[i]);
    ShapeConnects(shapes[i]);
    ShapeChecks(shapes, i);
  }

  lemma ShapesCompile(shapes: seq<Shape>)
    requires shapes != [] && forall i :: 0 <= i < |shapes| ==> Fine(shapes[i])
    ensures Compilable(SpecOf(shapes), AGENTS, true)
  {
    hide TargetOk, Fine;
    var p := SpecOf(shapes);
    forall i | 0 <= i < |p.networks|
      ensures TargetOk(p, i, AGENTS, true)
    {
      ShapeCompiles(shapes, i);
    }
  }

  lemma ShapesCompiled(shapes: seq<Shape>)
    requires Compilable(SpecOf(shapes), AGENTS, true) && forall i :: 0 <= i < |shapes| ==> Fine(shapes[i])
    ensures var p := CompiledPlan(SpecOf(shapes), AGENTS, true);
      && |p.targets| == |shapes| && p.agents == ["a"]
      && forall i :: 0 <= i < |shapes| ==> p.targets[i] == TargetOf(i, shapes[i])
  {
    hide TargetOk, CompiledTarget, TargetOf, Fine;
    EveryoneBound();
    var p := CompiledPlan(SpecOf(shapes), AGENTS, true);
    forall i | 0 <= i < |shapes|
      ensures p.targets[i] == TargetOf(i, shapes[i])
    {
      ShapeCompiles(shapes, i);
    }
  }

  function PlanOf(shapes: seq<Shape>): (p: Plan)
    requires shapes != [] && forall i :: 0 <= i < |shapes| ==> Fine(shapes[i])
    ensures Compilable(SpecOf(shapes), AGENTS, true) && p == CompiledPlan(SpecOf(shapes), AGENTS, true)
    ensures |p.targets| == |shapes| && p.agents == ["a"]
    ensures forall i :: 0 <= i < |shapes| ==> p.targets[i] == TargetOf(i, shapes[i])
  {
    hide Compilable, CompiledPlan, TargetOf, Fine;
    ShapesCompile(shapes);
    ShapesCompiled(shapes);
    CompiledPlan(SpecOf(shapes), AGENTS, true)
  }

  // ---------------------------------------------------------------- selections of them

  lemma {:induction false} AllOfAgent(targets: seq<Target>)
    requires forall t :: t in targets ==> t.agents == ["a"]
    ensures TargetsOf(targets, "a") == targets
  {
    if targets != [] {
      AllOfAgent(targets[1..]);
      assert targets[0] in targets && targets == [targets[0]] + targets[1..];
    }
  }

  lemma AmongOne()
    ensures Among(["a"], ["a"]) == ["a"]
  {
    assert ["a"][..0] == [];
    assert Among([], ["a"]) == [];
  }

  lemma {:induction false} SelectedMembers(targets: seq<Target>, sel: Selection)
    ensures forall t' :: t' in SelectTargets(targets, sel) <==> exists t :: t in targets && t.id in sel.targets && t' == SelectTarget(t, sel)
  {
    hide SelectTarget;
    if targets != [] {
      var n := |targets| - 1;
      SelectedMembers(targets[..n], sel);
      assert targets == targets[..n] + [targets[n]];
    }
  }

  predicate OfAgent(p: Plan) {
    p.agents == ["a"] && forall t :: t in p.targets ==> t.agents == ["a"]
  }

  /** A selection of some targets, and of no check by name, keeps those targets as they are. */
  lemma WholeTargets(p: Plan, ids: seq<string>)
    requires OfAgent(p) && ids != [] && forall id :: id in ids ==> KnownTarget(p.targets, id)
    ensures var sel := Selection(["a"], ids, [], []);
      && SelectOk(p, sel)
      && (forall t :: t in Selected(p, sel).targets <==> t in p.targets && t.id in ids)
      && TargetsOf(Selected(p, sel).targets, "a") == Selected(p, sel).targets
  {
    var sel := Selection(["a"], ids, [], []);
    AmongOne();
    SelectedMembers(p.targets, sel);
    assert forall t :: t in p.targets ==> SelectTarget(t, sel) == t;
    AllOfAgent(Selected(p, sel).targets);
  }

  // ---------------------------------------------------------------- from a disturbance to two rounds

  lemma OnceEach(i: nat, s: Shape)
    ensures OnceTarget(TargetOf(i, s)) && ValidTarget(TargetOf(i, s))
  {
    hide TargetId, Normalized, Once, Acceptable, AttemptBudget, SamplesPerRepeat, Window, DefaultTimeout;
    OnceAccepted();
  }

  lemma CutOnce(t': Target, t: Target, ids: set<string>, all: bool)
    requires CutFrom(t', t, ids, all) && OnceTarget(t) && ValidTarget(t)
    ensures OnceTarget(t') && ValidTarget(t')
  {
    hide KeptChecks, Kept, Once, Normalized;
    KeptMembers(t.checks, ids, |t.checks|);
    forall i | 0 <= i < |t'.checks|
      ensures t'.checks[i] in t.checks
    {
      assert t'.checks[i] in t'.checks;
    }
  }

  lemma OnceTargetsOf(shapes: seq<Shape>, sel: Selection)
    requires shapes != [] && forall i :: 0 <= i < |shapes| ==> Fine(shapes[i])
    ensures var p := PlanOf(shapes); var full, cut := TargetsOf(p.targets, "a"), TargetsOf(Selected(p, sel).targets, "a");
      ValidTargets(full) && OnceTargets(full) && ValidTargets(cut) && OnceTargets(cut)
  {
    hide TargetOf, OnceTarget, ValidTarget, Selected, TargetsOf, WithChecks;
    var p := PlanOf(shapes);
    forall t | t in p.targets
      ensures OnceTarget(t) && ValidTarget(t)
    {
      var i :| 0 <= i < |shapes| && p.targets[i] == t;
      OnceEach(i, shapes[i]);
    }
    TargetsOfMembers(p.targets, "a");
    TargetsOfMembers(Selected(p, sel).targets, "a");
    forall t' | t' in Selected(p, sel).targets
      ensures OnceTarget(t') && ValidTarget(t')
    {
      var t, ids, all := SelectedOrigin(p, sel, t');
      CutOnce(t', t, ids, all);
    }
  }

  /** Wherever a disturbance can happen in such a plan, two rounds answer as the world does and their reports differ. */
  lemma DisturbanceShows(v: World, shapes: seq<Shape>, sel: Selection, t: Target, i: nat, t': Target, j: nat)
    requires shapes != [] && forall i :: 0 <= i < |shapes| ==> Fine(shapes[i])
    requires var p := PlanOf(shapes); var full, cut := TargetsOf(p.targets, "a"), TargetsOf(Selected(p, sel).targets, "a");
      SelectOk(p, sel) && Corresponds(p, sel, "a", t, i, t', j) && !Undisturbed(v, full, cut, t, i, t', j)
    ensures Chosen(SpecOf(shapes), AGENTS, sel) && !KeepsVerdicts(v, PlanOf(shapes), sel)
  {
    hide WellNamed, RunRound, Faithful, Selected, Undisturbed, ValidTargets, OnceTargets, Accounts, CheckReport, TargetsOf, SelectOk, Compilable, ValidPlan, Fine;
    var p := PlanOf(shapes);
    var full, cut := TargetsOf(p.targets, "a"), TargetsOf(Selected(p, sel).targets, "a");
    CompiledPlanValid(SpecOf(shapes), AGENTS, true);
    EveryoneBound();
    OnceTargetsOf(shapes, sel);
    var w := EveryWorldHasItsRun(v, full, "a");
    var w' := EveryWorldHasItsRun(v, cut, "a");
    var x :| 0 <= x < |full| && full[x] == t;
    var x' :| 0 <= x' < |cut| && cut[x'] == t';
    SelectionPreservesVerdicts(v, p, sel, w, START, w', START, x, i, x', j);
    assert BothRun(v, p, sel, w, START, w', START, x, i, x', j);
    assert !SameVerdict(p, sel, w, START, w', START, x, i, x', j);
  }

  // ---------------------------------------------------------------- an operator ends an optional check

  function InterruptedShapes(n: nat, id: string): (shapes: seq<Shape>)
    requires id != ""
    ensures |shapes| == n + 1 && forall i :: 0 <= i <= n ==> Fine(shapes[i]) && shapes[i].checks == [(id, false), (id + "+", true)]
    ensures forall i :: 0 <= i <= n ==> !shapes[i].owned && shapes[i].band == "" && !shapes[i].rotates
  {
    assert |id + "+"| == |id| + 1;
    seq(n + 1, _ => Shape(false, "", false, [(id, false), (id + "+", true)]))
  }

  function LastCheck(n: nat, id: string): Selection {
    Selection(["a"], [TargetId(n)], [id + "+"], [])
  }

  lemma PlanMember(shapes: seq<Shape>, i: nat)
    requires i < |shapes| && forall i :: 0 <= i < |shapes| ==> Fine(shapes[i])
    ensures var p := PlanOf(shapes);
      && OfAgent(p) && TargetOf(i, shapes[i]) in p.targets && TargetsOf(p.targets, "a") == p.targets
      && forall t :: t in p.targets && t.id == TargetId(i) ==> t == TargetOf(i, shapes[i])
  {
    hide TargetId, NetworkOf, StepsFor, Fine;
    var p := PlanOf(shapes);
    forall t | t in p.targets && t.id == TargetId(i)
      ensures t == TargetOf(i, shapes[i])
    {
      var k :| 0 <= k < |shapes| && p.targets[k] == t;
      TargetIdInjective(k, i);
    }
    assert p.targets[i] in p.targets;
    AllOfAgent(p.targets);
  }

  /** The second check alone is kept. */
  lemma KeptLast(t: Target, id: string)
    requires |t.checks| == 2 && t.checks[0].id == id && !t.checks[0].required && t.checks[1].id == id + "+"
    ensures KeptChecks(t.checks, AsSet([id + "+"]), 2) == [t.checks[1]]
  {
    var ids := AsSet([id + "+"]);
    assert |id + "+"| == |id| + 1;
    assert [id + "+"][0] in ids;
    assert ids == {id + "+"};
    assert LastNamed(t.checks, ids) == 2;
    assert !Kept(t.checks, ids, 0) && Kept(t.checks, ids, 1);
    assert KeptChecks(t.checks, ids, 1) == [];
  }

  /** A selection of one target and one of its checks. */
  lemma OneCheckSelected(p: Plan, t: Target, sel: Selection)
    requires OfAgent(p) && t in p.targets && sel.agents == ["a"] && sel.targets == [t.id] && sel.scopes == []
    ensures SelectTarget(t, sel) in Selected(p, sel).targets && SelectTarget(t, sel) in TargetsOf(Selected(p, sel).targets, "a")
  {
    hide SelectTarget, SelectTargets, TargetsOf;
    SelectedMembers(p.targets, sel);
    SelectedAgents(t, sel);
    TargetsOfMembers(Selected(p, sel).targets, "a");
  }

  lemma OneCheckAccepted(p: Plan, t: Target, j: nat, sel: Selection)
    requires OfAgent(p) && t in p.targets && j < |t.checks| && sel == Selection(["a"], [t.id], [t.checks[j].id], [])
    requires SelectTarget(t, sel).checks != []
    ensures SelectOk(p, sel)
  {
    hide SelectTarget;
    AmongOne();
    assert KnownTarget(p.targets, t.id);
    assert t.checks[j] in t.checks;
    assert KnownCheck(p.targets, t.checks[j].id);
  }

  lemma SelectedAgents(t: Target, sel: Selection)
    requires t.agents == ["a"] && sel.agents == ["a"]
    ensures SelectTarget(t, sel).agents == ["a"]
  {
    hide KeptChecks;
    AmongOne();
  }

  lemma InterruptedSelected(n: nat, id: string)
    requires id != ""
    ensures var p, sel := PlanOf(InterruptedShapes(n, id)), LastCheck(n, id);
      var t := TargetOf(n, InterruptedShapes(n, id)[n]);
      && SelectOk(p, sel)
      && t.(checks := [t.checks[1]]) in TargetsOf(Selected(p, sel).targets, "a")
  {
    hide TargetId, NetworkOf, Fine, KeptChecks, SelectOk, Selected, TargetsOf, AsSet;
    var shapes := InterruptedShapes(n, id);
    PlanMember(shapes, n);
    var t := TargetOf(n, shapes[n]);
    KeptLast(t, id);
    AmongOne();
    var sel := LastCheck(n, id);
    assert SelectTarget(t, sel) == t.(checks := [t.checks[1]]);
    OneCheckSelected(PlanOf(shapes), t, sel);
    OneCheckAccepted(PlanOf(shapes), t, 1, sel);
  }

  /** In a world where an operator ends a check, the plan with that check and one behind it shows it. */
  lemma InterruptionShows(v: World, n: nat, id: string)
    requires id != "" && EndedByOperator(v.step(TargetId(n), CheckSlot(id)))
    ensures var shapes := InterruptedShapes(n, id);
      Chosen(SpecOf(shapes), AGENTS, LastCheck(n, id)) && !KeepsVerdicts(v, PlanOf(shapes), LastCheck(n, id))
  {
    hide TargetId, Selected, SelectOk, Fine, Rotator, TargetsOf, KeepsVerdicts, Chosen;
    var shapes := InterruptedShapes(n, id);
    var p, sel := PlanOf(shapes), LastCheck(n, id);
    var full, cut := TargetsOf(p.targets, "a"), TargetsOf(Selected(p, sel).targets, "a");
    PlanMember(shapes, n);
    InterruptedSelected(n, id);
    var t := TargetOf(n, shapes[n]);
    var t' := t.(checks := [t.checks[1]]);
    NoBands(p.targets, shapes);
    InterruptedCutsOff(v, n, id, full, cut);
    assert CutOff(v, full, cut, t, 1, t', 0);
    DisturbanceShows(v, shapes, sel, t, 1, t', 0);
  }

  lemma NoBands(targets: seq<Target>, shapes: seq<Shape>)
    requires |targets| == |shapes| && forall i :: 0 <= i < |shapes| ==> targets[i] == TargetOf(i, shapes[i]) && shapes[i].band == ""
    ensures !Preflighted(targets)
  {
    hide TargetId, StepsFor;
  }

  lemma InterruptedCutsOff(v: World, n: nat, id: string, full: seq<Target>, cut: seq<Target>)
    requires id != "" && EndedByOperator(v.step(TargetId(n), CheckSlot(id))) && !Preflighted(full)
    ensures var t := TargetOf(n, InterruptedShapes(n, id)[n]);
      CutsOff(v, full, cut, t, 1, t.(checks := [t.checks[1]]), 0, 0)
  {
    hide TargetId, NormalizeBand, Fine, Preflighted;
    assert |id + "+"| == |id| + 1;
  }

  // ---------------------------------------------------------------- a capability check bars a target without a band

  /** The first target has a band, so that a round of the plan asks for the capabilities; a round of the second alone does not. */
  function BarredShapes(band: string): (shapes: seq<Shape>)
    ensures |shapes| == 2 && Fine(shapes[0]) && Fine(shapes[1])
    ensures shapes[0].band == "5GHz" && shapes[1] == Shape(true, band, false, [("c", true)])
  {
    [Shape(true, "5GHz", false, []), Shape(true, band, false, [("c", true)])]
  }

  function WholeSelection(ids: seq<string>): Selection {
    Selection(["a"], ids, [], [])
  }

  /** In a world that bars a band by the name of having none, the plan with a banded target in front shows it. */
  lemma BarringShows(v: World, band: string)
    requires (band == "" || band == "all") && band in Barring(v)
    ensures var shapes, sel := BarredShapes(band), WholeSelection([TargetId(1)]);
      Chosen(SpecOf(shapes), AGENTS, sel) && !KeepsVerdicts(v, PlanOf(shapes), sel)
  {
    hide TargetId, Selected, SelectOk, Fine, Rotator, TargetsOf, KeepsVerdicts, Chosen, NormalizeBand, Barring, CutOff, RotatedElsewhere, Preflighted, StepsFor;
    var shapes, sel := BarredShapes(band), WholeSelection([TargetId(1)]);
    var p := PlanOf(shapes);
    PlanMember(shapes, 0);
    PlanMember(shapes, 1);
    var t := TargetOf(1, shapes[1]);
    assert KnownTarget(p.targets, TargetId(1));
    WholeTargets(p, [TargetId(1)]);
    var full, cut := TargetsOf(p.targets, "a"), TargetsOf(Selected(p, sel).targets, "a");
    PlainNames();
    OnlyPlanAsks(full, cut, TargetOf(0, shapes[0]), t);
    assert |t.checks| == 1;
    DisturbanceShows(v, shapes, sel, t, 0, t, 0);
  }

  lemma OnlyPlanAsks(full: seq<Target>, cut: seq<Target>, x: Target, y: Target)
    requires x in full && x.network.band == "5GHz"
    requires (y.network.band == "" || y.network.band == "all") && forall t :: t in cut ==> t == y
    ensures Preflighted(full) && !Preflighted(cut)
  {
    assert "5GHz"[0] == '5' && "all"[0] == 'a' && Banded(x);
  }

  // ---------------------------------------------------------------- the rotation of an SSID moves to another target

  /** From target m on all rotate per round, and connect. */
  function RotatingShapes(m: nat, k: nat): (shapes: seq<Shape>)
    ensures |shapes| == k + 1
    ensures forall i :: 0 <= i <= k ==> Fine(shapes[i]) && shapes[i] == Shape(true, "", m <= i, [("c", true)])
  {
    seq(k + 1, i => Shape(true, "", m <= i, [("c", true)]))
  }

  lemma FirstRotating(m: nat, n: nat, k: nat)
    requires m < n <= k
    ensures var shapes := RotatingShapes(m, k); var p := PlanOf(shapes);
      Rotator(TargetsOf(p.targets, "a"), "net") == Some(TargetOf(m, shapes[m]))
  {
    hide TargetId, StepsFor, Fine, TargetsOf, Rotator, Ascends;
    var shapes := RotatingShapes(m, k);
    var p := PlanOf(shapes);
    PlanMember(shapes, m);
    PlanAscends(SpecOf(shapes), AGENTS);
    RotatorMember(p.targets, "net");
    RotatorFirst(p.targets, TargetOf(m, shapes[m]));
    var u := Rotator(p.targets, "net").value;
    var i :| 0 <= i <= k && p.targets[i] == u;
    assert i <= m;
    assert u == TargetOf(i, shapes[i]);
  }

  lemma SecondRotating(m: nat, n: nat, k: nat)
    requires m < n <= k
    ensures var shapes, sel := RotatingShapes(m, k), WholeSelection([TargetId(n), TargetId(k)]); var p := PlanOf(shapes);
      var cut := TargetsOf(Selected(p, sel).targets, "a");
      && SelectOk(p, sel) && TargetOf(k, shapes[k]) in cut && Rotator(cut, "net") == Some(TargetOf(n, shapes[n]))
  {
    hide TargetId, StepsFor, Fine, TargetsOf, Rotator, Ascends, Selected, SelectOk;
    var shapes, sel := RotatingShapes(m, k), WholeSelection([TargetId(n), TargetId(k)]);
    var p := PlanOf(shapes);
    PlanMember(shapes, n);
    PlanMember(shapes, k);
    assert KnownTarget(p.targets, TargetId(n)) && KnownTarget(p.targets, TargetId(k));
    WholeTargets(p, [TargetId(n), TargetId(k)]);
    PlanAscends(SpecOf(shapes), AGENTS);
    SelectedAscends(p, sel, "a");
    var cut := TargetsOf(Selected(p, sel).targets, "a");
    var t := TargetOf(n, shapes[n]);
    assert t.id in [TargetId(n), TargetId(k)] && t in cut;
    RotatorMember(cut, "net");
    RotatorFirst(cut, t);
    var u := Rotator(cut, "net").value;
    if u.id == TargetId(k) {
      assert k <= n;
    }
  }

  /** In a world where the rotations under two targets end differently, a plan of targets of one SSID, with one behind them that connects, shows it. */
  lemma RotationShows(v: World, m: nat, n: nat, k: nat)
    requires m < n <= k && "" !in Barring(v)
    requires Succeeds(v, k, ConnectSlot) && Succeeds(v, m, RoundRotationSlot) != Succeeds(v, n, RoundRotationSlot)
    ensures var shapes, sel := RotatingShapes(m, k), WholeSelection([TargetId(n), TargetId(k)]);
      Chosen(SpecOf(shapes), AGENTS, sel) && !KeepsVerdicts(v, PlanOf(shapes), sel)
  {
    hide TargetId, Selected, SelectOk, Fine, Rotator, TargetsOf, KeepsVerdicts, Chosen, Barring, CutOff, BarredByPlan, StepsFor;
    var shapes, sel := RotatingShapes(m, k), WholeSelection([TargetId(n), TargetId(k)]);
    var p := PlanOf(shapes);
    var full, cut := TargetsOf(p.targets, "a"), TargetsOf(Selected(p, sel).targets, "a");
    PlanMember(shapes, k);
    FirstRotating(m, n, k);
    SecondRotating(m, n, k);
    if TargetId(m) == TargetId(n) {
      TargetIdInjective(m, n);
    }
    var t := TargetOf(k, shapes[k]);
    assert |t.checks| == 1 && t.checks[..0] == [];
    assert NormalizeBand("") == "";
    assert RotatedElsewhere(v, full, cut, t, 0, t, 0);
    DisturbanceShows(v, shapes, sel, t, 0, t, 0);
  }

  // ---------------------------------------------------------------- exactly

  /**
   The worlds in which every selection of every compiled plan keeps the verdict of every check it
   keeps, in all rounds that answer as the world does, are exactly the transparent ones.
   */
  lemma PreservationIsTransparency(v: World)
    ensures AlwaysPreserves(v) <==> Transparent(v)
  {
    hide KeepsVerdicts, Compilable, SelectOk, Barring, TargetId, Succeeds, Fine;
    if Transparent(v) {
      forall spec, agents, sel | Chosen(spec, agents, sel)
        ensures KeepsVerdicts(v, CompiledPlan(spec, agents, true), sel)
      {
        TransparencySuffices(v, spec, agents, sel);
      }
    } else if "" in Barring(v) {
      BarringShows(v, "");
    } else if "all" in Barring(v) {
      BarringShows(v, "all");
    } else if n: nat, id: string :| id != "" && EndedByOperator(v.step(TargetId(n), CheckSlot(id))) {
      InterruptionShows(v, n, id);
    } else {
      var m: nat, n: nat, k: nat :| m < n <= k && Succeeds(v, k, ConnectSlot)
        && Succeeds(v, m, RoundRotationSlot) != Succeeds(v, n, RoundRotationSlot);
      RotationShows(v, m, n, k);
    }
  }
}
