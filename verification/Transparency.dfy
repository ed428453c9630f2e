/**
 Which worlds let every selection of every compiled plan keep its verdicts: the answer is exact,
 and what fails is shown by runs of compiled plans in which both rounds answer as the world does.
 */
module Transparency {
  import opened Policies
  import opened Plans
  import opened Rounds
  import opened Scopes
  import opened Outcomes
  import opened Selection
  import opened Verdicts
  import opened Compile

  /**
   No check that a plan can name is ended by an operator; no band is barred under the name of
   having none; and before the round MAC rotations succeed or fail alike under all targets in
   front of one that connects, and under it.
   */
  ghost predicate Transparent(v: World) {
    && (forall n: nat, id: string :: id != "" ==> !EndedByOperator(v.step(TargetId(n), CheckSlot(id))))
    && "" !in Barring(v) && "all" !in Barring(v)
    && forall m: nat, n: nat, k: nat :: m < n <= k && Succeeds(v, k, ConnectSlot) ==>
         (Succeeds(v, m, RoundRotationSlot) <==> Succeeds(v, n, RoundRotationSlot))
  }

  predicate Succeeds(v: World, n: nat, slot: Slot) {
    v.step(TargetId(n), slot) == Pass
  }

  /** A round of the plan and one of its selection by the same agent, in the world `v`, and a check in both. */
  ghost predicate BothRun(v: World, p: Plan, sel: Selection, w: Worker, k: Clock, w': Worker, k': Clock, x: nat, i: nat, x': nat, j: nat) {
    var full, cut := TargetsOf(p.targets, w.agent), TargetsOf(Selected(p, sel).targets, w.agent);
    && w'.agent == w.agent && ValidTargets(full) && ValidTargets(cut) && x < |full| && x' < |cut|
    && Corresponds(p, sel, w.agent, full[x], i, cut[x'], j)
    && Faithful(v, full, RunRound(w, full, k).0) && Faithful(v, cut, RunRound(w', cut, k').0)
  }

  ghost predicate SameVerdict(p: Plan, sel: Selection, w: Worker, k: Clock, w': Worker, k': Clock, x: nat, i: nat, x': nat, j: nat) {
    var full, cut := TargetsOf(p.targets, w.agent), TargetsOf(Selected(p, sel).targets, w.agent);
    && ValidTargets(full) && ValidTargets(cut) && x < |full| && x' < |cut| && i < |full[x].checks| && j < |cut[x'].checks|
    && var here, there := RunRound(w, full, k).0.visits[x], RunRound(w', cut, k').0.visits[x'];
    && Accounts(full[x], here) && Accounts(cut[x'], there)
    && VerdictOf(CheckReport(full[x], here, i)) == VerdictOf(CheckReport(cut[x'], there, j))
  }

  ghost predicate KeepsVerdicts(v: World, p: Plan, sel: Selection) {
    forall w, k, w', k', x: nat, i: nat, x': nat, j: nat ::
      BothRun(v, p, sel, w, k, w', k', x, i, x', j) ==> SameVerdict(p, sel, w, k, w', k', x, i, x', j)
  }

  /** A plan that compiles for some agents, with a selection of it. */
  predicate Chosen(spec: PlanSpec, agents: seq<AgentInfo>, sel: Selection) {
    Compilable(spec, agents, true) && Distinct(Keys(agents)) && SelectOk(CompiledPlan(spec, agents, true), sel)
  }

  ghost predicate AlwaysPreserves(v: World) {
    forall spec, agents, sel :: Chosen(spec, agents, sel) ==> KeepsVerdicts(v, CompiledPlan(spec, agents, true), sel)
  }

  // ---------------------------------------------------------------- transparency suffices

  lemma CompiledNames(spec: PlanSpec, agents: seq<AgentInfo>, t: Target) returns (n: nat)
    requires Compilable(spec, agents, true) && t in CompiledPlan(spec, agents, true).targets
    ensures t.id == TargetId(n) && forall m :: 0 <= m < |t.checks| ==> t.checks[m].id != ""
  {
    hide TargetId, CompiledPolicy, NetworkOk, CompiledNetwork, Acceptable, CheckOk, BoundTo, Bindable;
    var p := CompiledPlan(spec, agents, true);
    var i :| 0 <= i < |p.targets| && p.targets[i] == t;
    n := i;
    assert t == CompiledTarget(spec, i, agents, true);
    forall m | 0 <= m < |t.checks|
      ensures t.checks[m].id != ""
    {
      assert t.checks[m].id == IdAt(spec, i, m);
    }
  }

  /** Rotating takes owning the network, so connecting to it; and whether it can be forgotten is a matter of its SSID. */
  lemma CompiledRotation(spec: PlanSpec, agents: seq<AgentInfo>, t: Target)
    requires Compilable(spec, agents, true) && t in CompiledPlan(spec, agents, true).targets
    ensures t.network.rotation != NoRotation ==> t.connect.Some?
    ensures t.network.forgettable <==> t.network.ssid in spec.forgettable
  {
    hide TargetId, CompiledPolicy, Acceptable, ChecksOk, CompiledChecks, BoundTo, Bindable;
    var p := CompiledPlan(spec, agents, true);
    var i :| 0 <= i < |p.targets| && p.targets[i] == t;
    assert t == CompiledTarget(spec, i, agents, true);
    assert Underscored("") == "";
  }

  // ---------------------------------------------------------------- the order of the targets

  ghost predicate NotBehind(x: string, y: string) {
    forall a: nat, b: nat :: x == TargetId(a) && y == TargetId(b) ==> a <= b
  }

  ghost predicate Ascends(targets: seq<Target>) {
    forall i, j :: 0 <= i < j < |targets| ==> NotBehind(targets[i].id, targets[j].id)
  }

  lemma SameNotBehind(x: string)
    ensures NotBehind(x, x)
  {
    forall a: nat, b: nat | x == TargetId(a) && x == TargetId(b)
      ensures a <= b
    {
      TargetIdInjective(a, b);
    }
  }

  lemma AscendsBoth(front: seq<Target>, back: seq<Target>)
    requires Ascends(front) && Ascends(back) && forall x, y :: x in front && y in back ==> NotBehind(x.id, y.id)
    ensures Ascends(front + back)
  {
    hide NotBehind;
    var all := front + back;
    forall i, j | 0 <= i < j < |all|
      ensures NotBehind(all[i].id, all[j].id)
    {
      if j < |front| {
        assert all[i] == front[i] && all[j] == front[j];
      } else if i < |front| {
        assert all[i] in front && all[j] in back;
      } else {
        assert all[i] == back[i - |front|] && all[j] == back[j - |front|];
      }
    }
  }

  /** Every target of `some` bears the id of one of `targets`. */
  predicate NamedIn(some: seq<Target>, targets: seq<Target>) {
    forall t :: t in some ==> exists u :: u in targets && u.id == t.id
  }

  lemma {:induction false} FlatAscends(targets: seq<Target>, sel: Selection)
    requires Ascends(targets)
    ensures Ascends(SelectTargets(targets, sel)) && NamedIn(SelectTargets(targets, sel), targets)
  {
    hide NotBehind;
    if targets != [] {
      var n := |targets| - 1;
      FlatAscends(targets[..n], sel);
      var front := SelectTargets(targets[..n], sel);
      var back := if targets[n].id in sel.targets then [SelectTarget(targets[n], sel)] else [];
      forall x, y | x in front && y in back
        ensures NotBehind(x.id, y.id)
      {
        var u :| u in targets[..n] && u.id == x.id;
      }
      AscendsBoth(front, back);
      forall t | t in front + back
        ensures exists u :: u in targets && u.id == t.id
      {
        if t in front {
          var u :| u in targets[..n] && u.id == t.id;
          assert u in targets;
        } else {
          assert targets[n] in targets;
        }
      }
    }
  }

  lemma {:induction false} CopiesNamed(t: Target, scopes: seq<Scope>, n: nat)
    requires n <= |t.agents|
    ensures forall u :: u in Copies(t, scopes, n) ==> u.id == t.id
  {
    if n > 0 {
      CopiesNamed(t, scopes, n - 1);
    }
  }

  lemma {:induction false} SplitAscends(targets: seq<Target>, scopes: seq<Scope>)
    requires Ascends(targets)
    ensures Ascends(SplitTargets(targets, scopes)) && NamedIn(SplitTargets(targets, scopes), targets)
  {
    hide NotBehind, Copies;
    if targets != [] {
      var n := |targets| - 1;
      SplitAscends(targets[..n], scopes);
      var front, back := SplitTargets(targets[..n], scopes), Copies(targets[n], scopes, |targets[n].agents|);
      CopiesNamed(targets[n], scopes, |targets[n].agents|);
      SameNotBehind(targets[n].id);
      forall x, y | x in front && y in back
        ensures NotBehind(x.id, y.id)
      {
        var u :| u in targets[..n] && u.id == x.id;
      }
      AscendsBoth(front, back);
      forall t | t in front + back
        ensures exists u :: u in targets && u.id == t.id
      {
        if t in front {
          var u :| u in targets[..n] && u.id == t.id;
          assert u in targets;
        } else {
          assert targets[n] in targets;
        }
      }
    }
  }

  lemma {:induction false} AgentAscends(targets: seq<Target>, agent: string)
    requires Ascends(targets)
    ensures Ascends(TargetsOf(targets, agent))
  {
    hide NotBehind;
    if targets != [] {
      AgentAscends(targets[1..], agent);
      var rest := TargetsOf(targets[1..], agent);
      TargetsOfMembers(targets[1..], agent);
      forall x, y | x in [targets[0]] && y in rest
        ensures NotBehind(x.id, y.id)
      {
        var j :| 0 <= j < |targets| - 1 && targets[1..][j] == y;
        assert targets[j + 1] == y;
      }
      AscendsBoth([targets[0]], rest);
    }
  }

  /** The first target of an SSID is not behind any other. */
  lemma {:induction false} RotatorFirst(targets: seq<Target>, t: Target)
    requires Ascends(targets) && t in targets && t.network.rotation == PerRound
    ensures var u := Rotator(targets, t.network.ssid); u.Some? && NotBehind(u.value.id, t.id)
  {
    hide NotBehind;
    SameNotBehind(t.id);
    var i :| 0 <= i < |targets| && targets[i] == t;
    if targets[0].network.rotation != PerRound || targets[0].network.ssid != t.network.ssid {
      assert t in targets[1..];
      RotatorFirst(targets[1..], t);
    }
  }

  lemma PlanAscends(spec: PlanSpec, agents: seq<AgentInfo>)
    requires Compilable(spec, agents, true)
    ensures Ascends(CompiledPlan(spec, agents, true).targets)
  {
    hide TargetId, TargetOk, CompiledNetwork, CompiledChecks;
    var p := CompiledPlan(spec, agents, true);
    forall i, j | 0 <= i < j < |p.targets|
      ensures NotBehind(p.targets[i].id, p.targets[j].id)
    {
      forall a: nat, b: nat | p.targets[i].id == TargetId(a) && p.targets[j].id == TargetId(b)
        ensures a <= b
      {
        TargetIdInjective(i, a);
        TargetIdInjective(j, b);
      }
    }
  }

  lemma SelectedAscends(p: Plan, sel: Selection, agent: string)
    requires Ascends(p.targets)
    ensures Ascends(TargetsOf(p.targets, agent)) && Ascends(TargetsOf(Selected(p, sel).targets, agent))
  {
    hide Ascends, SelectTargets, SplitTargets;
    if sel.scopes != [] {
      SplitAscends(p.targets, sel.scopes);
    } else {
      FlatAscends(p.targets, sel);
    }
    AgentAscends(p.targets, agent);
    AgentAscends(Selected(p, sel).targets, agent);
  }

  // ---------------------------------------------------------------- no disturbance in a transparent world

  lemma NotRotatedElsewhere(v: World, spec: PlanSpec, agents: seq<AgentInfo>, sel: Selection, agent: string, t: Target, i: nat, t': Target, j: nat)
    requires Transparent(v) && Compilable(spec, agents, true)
    requires Corresponds(CompiledPlan(spec, agents, true), sel, agent, t, i, t', j)
    requires t.network == t'.network && t in CompiledPlan(spec, agents, true).targets
    ensures var p := CompiledPlan(spec, agents, true);
      !RotatedElsewhere(v, TargetsOf(p.targets, agent), TargetsOf(Selected(p, sel).targets, agent), t, i, t', j)
  {
    hide Compilable, Selected, TargetId, Rotator, TargetsOf, AllProceed, BandBarred, Ascends, Transparent;
    var p := CompiledPlan(spec, agents, true);
    var full, cut := TargetsOf(p.targets, agent), TargetsOf(Selected(p, sel).targets, agent);
    if RotatedElsewhere(v, full, cut, t, i, t', j) {
      var u, u' := Rotator(full, t.network.ssid).value, Rotator(cut, t.network.ssid).value;
      var o := RotatorsKnown(spec, agents, sel, agent, t, t', u, u');
      CompiledRotation(spec, agents, t);
      CompiledRotation(spec, agents, u);
      CompiledRotation(spec, agents, o);
      var m := CompiledNames(spec, agents, u);
      var n := CompiledNames(spec, agents, o);
      var k := CompiledNames(spec, agents, t);
      RotationsAlike(v, m, n, k);
    }
  }

  lemma RotationsAlike(v: World, m: nat, n: nat, k: nat)
    requires Transparent(v) && m < n <= k && v.step(TargetId(k), ConnectSlot) == Pass
    ensures v.step(TargetId(m), RoundRotationSlot) == Pass <==> v.step(TargetId(n), RoundRotationSlot) == Pass
  {
    hide TargetId, Barring;
    assert Succeeds(v, k, ConnectSlot);
    assert Succeeds(v, m, RoundRotationSlot) <==> Succeeds(v, n, RoundRotationSlot);
  }

  /** The target of the plan that the first target in the selection comes from, and where the three stand. */
  lemma RotatorsKnown(
      spec: PlanSpec, agents: seq<AgentInfo>, sel: Selection, agent: string, t: Target, t': Target, u: Target, u': Target)
    returns (o: Target)
    requires Compilable(spec, agents, true) && t.network == t'.network && t.id == t'.id && t.network.rotation == PerRound
    requires var p := CompiledPlan(spec, agents, true);
      var full, cut := TargetsOf(p.targets, agent), TargetsOf(Selected(p, sel).targets, agent);
      && t' in cut && Rotator(full, t.network.ssid) == Some(u) && Rotator(cut, t.network.ssid) == Some(u')
    ensures u in CompiledPlan(spec, agents, true).targets && o in CompiledPlan(spec, agents, true).targets
    ensures o.id == u'.id && o.network == u'.network && u.network.ssid == o.network.ssid
    ensures NotBehind(u.id, o.id) && NotBehind(o.id, t.id)
  {
    hide Compilable, Selected, TargetId, Rotator, TargetsOf, NotBehind, Ascends, WithChecks;
    PlanAscends(spec, agents);
    var p := CompiledPlan(spec, agents, true);
    var full, cut := TargetsOf(p.targets, agent), TargetsOf(Selected(p, sel).targets, agent);
    SelectedAscends(p, sel, agent);
    TargetsOfMembers(p.targets, agent);
    TargetsOfMembers(Selected(p, sel).targets, agent);
    RotatorMember(full, t.network.ssid);
    RotatorMember(cut, t.network.ssid);
    var ids: set<string>, all: bool;
    o, ids, all := SelectedOrigin(p, sel, u');
    CutNetwork(u', o, ids, all);
    CutAgents(u', o, ids, all, agent);
    RotatorFirst(full, o);
    RotatorFirst(cut, t');
  }

  lemma TransparentKeeps(v: World, spec: PlanSpec, agents: seq<AgentInfo>, sel: Selection, agent: string, t: Target, i: nat, t': Target, j: nat)
    requires Transparent(v) && Compilable(spec, agents, true)
    requires Corresponds(CompiledPlan(spec, agents, true), sel, agent, t, i, t', j)
    ensures var p := CompiledPlan(spec, agents, true);
      Undisturbed(v, TargetsOf(p.targets, agent), TargetsOf(Selected(p, sel).targets, agent), t, i, t', j)
  {
    hide Compilable, Selected, WithChecks, NormalizeBand, Barring, TargetId, AllProceed, Prepared, Dropped, RotatedElsewhere, RoundReady, TargetsOf;
    CompiledPlanValid(spec, agents, true);
    var p := CompiledPlan(spec, agents, true);
    TargetsOfMembers(p.targets, agent);
    TargetsOfMembers(Selected(p, sel).targets, agent);
    var u, ids, all := SelectedOrigin(p, sel, t');
    CutNetwork(t', u, ids, all);
    SameTarget(p, t, u);
    SameBand(t, t');
    if !Banded(t) {
      UnbandedName(t);
    }
    NotRotatedElsewhere(v, spec, agents, sel, agent, t, i, t', j);
    var n := CompiledNames(spec, agents, t);
  }

  lemma TransparencySuffices(v: World, spec: PlanSpec, agents: seq<AgentInfo>, sel: Selection)
    requires Transparent(v) && Chosen(spec, agents, sel)
    ensures KeepsVerdicts(v, CompiledPlan(spec, agents, true), sel)
  {
    hide Transparent, Compilable, SelectOk, Selected, RunRound, Faithful, Undisturbed, WellNamed, Accounts, CheckReport, Corresponds, ValidPlan, TargetsOf;
    CompiledPlanValid(spec, agents, true);
    var p := CompiledPlan(spec, agents, true);
    forall w, k, w', k', x: nat, i: nat, x': nat, j: nat | BothRun(v, p, sel, w, k, w', k', x, i, x', j)
      ensures SameVerdict(p, sel, w, k, w', k', x, i, x', j)
    {
      var full, cut := TargetsOf(p.targets, w.agent), TargetsOf(Selected(p, sel).targets, w.agent);
      TransparentKeeps(v, spec, agents, sel, w.agent, full[x], i, cut[x'], j);
      SelectionPreservesVerdicts(v, p, sel, w, k, w', k', x, i, x', j);
      assert i < |full[x].checks| && j < |cut[x'].checks| by { InBoth(p, sel, w.agent, full[x], i, cut[x'], j); }
    }
  }

  lemma InBoth(p: Plan, sel: Selection, agent: string, t: Target, i: nat, t': Target, j: nat)
    requires Corresponds(p, sel, agent, t, i, t', j)
    ensures i < |t.checks| && j < |t'.checks|
  {
  }
}
