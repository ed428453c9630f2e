/**
 Cutting a compiled plan down to a selection (harness/compile.go: Select, selectScopes,
 selectedChecks).
 */
module Selection {
  import opened Policies
  import opened Plans
  import opened Scopes

  datatype Selection = Selection(agents: seq<string>, targets: seq<string>, checks: seq<string>, scopes: seq<Scope>)

  // ---------------------------------------------------------------- checks

  /** One past the last check that is asked for by name. */
  function LastNamed(checks: seq<Step>, ids: set<string>): nat {
    if checks == [] then 0
    else if checks[|checks| - 1].id in ids then |checks|
    else LastNamed(checks[..|checks| - 1], ids)
  }

  predicate Kept(checks: seq<Step>, ids: set<string>, i: nat)
    requires i < |checks|
  {
    checks[i].id in ids || (i + 1 < LastNamed(checks, ids) && checks[i].required)
  }

  /** Those of the first n checks that a selection keeps. */
  function KeptChecks(checks: seq<Step>, ids: set<string>, n: nat): seq<Step>
    requires n <= |checks|
  {
    if n == 0 then []
    else KeptChecks(checks, ids, n - 1) + (if Kept(checks, ids, n - 1) then [checks[n - 1]] else [])
  }

  function WithChecks(t: Target, ids: set<string>, all: bool): Target {
    if all then t else t.(checks := KeptChecks(t.checks, ids, |t.checks|))
  }

  method SelectedChecks(t: Target, ids: seq<string>, all: bool) returns (r: Target)
    ensures r == WithChecks(t, AsSet(ids), all)
  {
    if all {
      return t;
    }
    ghost var wanted := AsSet(ids);
    var last := -1;
    assert t.checks[..0] == [];
    for i := 0 to |t.checks|
      invariant last + 1 == LastNamed(t.checks[..i], wanted)
    {
      assert t.checks[..i + 1][..i] == t.checks[..i];
      if t.checks[i].id in ids {
        last := i;
      }
    }
    assert t.checks[..|t.checks|] == t.checks;
    var checks := [];
    for i := 0 to |t.checks|
      invariant checks == KeptChecks(t.checks, wanted, i)
    {
      if t.checks[i].id in ids || (i < last && t.checks[i].required) {
        checks := checks + [t.checks[i]];
      }
    }
    r := t.(checks := checks);
  }

  // ---------------------------------------------------------------- flat selection

  function Among(agents: seq<string>, ids: seq<string>): seq<string> {
    if agents == [] then []
    else Among(agents[..|agents| - 1], ids) + (if agents[|agents| - 1] in ids then [agents[|agents| - 1]] else [])
  }

  function SelectTarget(t: Target, sel: Selection): Target {
    WithChecks(t.(agents := Among(t.agents, sel.agents)), AsSet(sel.checks), sel.checks == [])
  }

  function SelectTargets(targets: seq<Target>, sel: Selection): seq<Target> {
    if targets == [] then []
    else
      var n := |targets| - 1;
      SelectTargets(targets[..n], sel) + (if targets[n].id in sel.targets then [SelectTarget(targets[n], sel)] else [])
  }

  predicate KnownTarget(targets: seq<Target>, id: string) {
    exists t :: t in targets && t.id == id
  }

  predicate KnownCheck(targets: seq<Target>, id: string) {
    exists t, c :: t in targets && c in t.checks && c.id == id
  }

  /** When a flat selection is accepted. */
  predicate FlatOk(p: Plan, sel: Selection) {
    && sel.agents != [] && sel.targets != []
    && (forall id :: id in sel.agents ==> id in p.agents)
    && (forall id :: id in sel.targets ==> KnownTarget(p.targets, id))
    && (forall id :: id in sel.checks ==> KnownCheck(p.targets, id))
    && (forall t :: t in p.targets && t.id in sel.targets ==> Among(t.agents, sel.agents) != [])
    && (sel.checks != [] ==> exists t :: t in p.targets && t.id in sel.targets && SelectTarget(t, sel).checks != [])
  }

  function FlatPlan(p: Plan, sel: Selection): Plan {
    Plan(SelectTargets(p.targets, sel), Among(p.agents, sel.agents))
  }

  // ---------------------------------------------------------------- exact scopes

  /** What exact scopes ask of one agent at one target. */
  datatype Request = Request(checks: set<string>, all: bool)

  predicate WellFormed(s: Scope) {
    && s.agent != "" && s.target != ""
    && ((s.kind == CheckScope && s.check != "") || (s.kind == TargetScope && s.check == ""))
  }

  predicate Bound(targets: seq<Target>, s: Scope) {
    exists t :: t in targets && t.id == s.target && s.agent in t.agents
      && (s.kind == TargetScope || exists c :: c in t.checks && c.id == s.check)
  }

  predicate Requested(scopes: seq<Scope>, agent: string, target: string) {
    exists s :: s in scopes && s.agent == agent && s.target == target
  }

  function RequestFor(scopes: seq<Scope>, agent: string, target: string): Request {
    Request(
      set s | s in scopes && s.agent == agent && s.target == target && s.kind != TargetScope :: s.check,
      exists s :: s in scopes && s.agent == agent && s.target == target && s.kind == TargetScope)
  }

  function CopyFor(t: Target, scopes: seq<Scope>, agent: string): Target {
    var r := RequestFor(scopes, agent, t.id);
    WithChecks(t, r.checks, r.all).(agents := [agent])
  }

  /** One copy of a target for each of its first n agents that a scope asks for. */
  function Copies(t: Target, scopes: seq<Scope>, n: nat): seq<Target>
    requires n <= |t.agents|
  {
    if n == 0 then []
    else Copies(t, scopes, n - 1)
         + (if Requested(scopes, t.agents[n - 1], t.id) then [CopyFor(t, scopes, t.agents[n - 1])] else [])
  }

  function SplitTargets(targets: seq<Target>, scopes: seq<Scope>): seq<Target> {
    if targets == [] then []
    else
      var n := |targets| - 1;
      SplitTargets(targets[..n], scopes) + Copies(targets[n], scopes, |targets[n].agents|)
  }

  function ActiveAgents(targets: seq<Target>): set<string> {
    set t, a | t in targets && a in t.agents :: a
  }

  function AmongSet(agents: seq<string>, ids: set<string>): seq<string> {
    if agents == [] then []
    else AmongSet(agents[..|agents| - 1], ids) + (if agents[|agents| - 1] in ids then [agents[|agents| - 1]] else [])
  }

  function ScopedPlan(p: Plan, scopes: seq<Scope>): Plan {
    var targets := SplitTargets(p.targets, scopes);
    Plan(targets, AmongSet(p.agents, ActiveAgents(targets)))
  }

  predicate ScopesOk(p: Plan, scopes: seq<Scope>) {
    && (forall s :: s in scopes ==> WellFormed(s) && Bound(p.targets, s))
    && ScopedPlan(p, scopes).targets != [] && ScopedPlan(p, scopes).agents != []
  }

  // ---------------------------------------------------------------- both

  predicate SelectOk(p: Plan, sel: Selection) {
    if sel.scopes != []
    then sel.agents == [] && sel.targets == [] && sel.checks == [] && ScopesOk(p, sel.scopes)
    else FlatOk(p, sel)
  }

  function Selected(p: Plan, sel: Selection): Plan {
    if sel.scopes != [] then ScopedPlan(p, sel.scopes) else FlatPlan(p, sel)
  }

  // ---------------------------------------------------------------- the program's loops

  method FilterAgents(agents: seq<string>, ids: seq<string>) returns (kept: seq<string>)
    ensures kept == Among(agents, ids)
  {
    kept := [];
    for i := 0 to |agents|
      invariant kept == Among(agents[..i], ids)
    {
      assert agents[..i + 1][..i] == agents[..i];
      if agents[i] in ids {
        kept := kept + [agents[i]];
      }
    }
    assert agents[..|agents|] == agents;
  }

  /** The set of ids a loop has met contains every asked one, or the selection names an unknown one. */
  method AllKnown(ids: seq<string>, known: set<string>) returns (ok: bool)
    ensures ok <==> forall id :: id in ids ==> id in known
  {
    for i := 0 to |ids|
      invariant forall j :: 0 <= j < i ==> ids[j] in known
    {
      if ids[i] !in known {
        return false;
      }
    }
    ok := true;
  }

  /** What the target loop of Select has established about the targets before the n-th. */
  predicate FlatSoFar(targets: seq<Target>, sel: Selection, n: nat, knownTargets: set<string>, knownChecks: set<string>, matched: bool)
    requires n <= |targets|
  {
    && knownTargets == (set i | 0 <= i < n :: targets[i].id)
    && (forall i, j :: 0 <= i < n && 0 <= j < |targets[i].checks| ==> targets[i].checks[j].id in knownChecks)
    && (forall id :: id in knownChecks ==> KnownCheck(targets, id))
    && (forall i :: 0 <= i < n && targets[i].id in sel.targets ==> Among(targets[i].agents, sel.agents) != [])
    && (matched <==> sel.checks != [] && exists i :: 0 <= i < n && targets[i].id in sel.targets && SelectTarget(targets[i], sel).checks != [])
  }

  method CheckIds(t: Target) returns (ids: set<string>)
    ensures ids == set c | c in t.checks :: c.id
  {
    ids := {};
    for i := 0 to |t.checks|
      invariant ids == set j | 0 <= j < i :: t.checks[j].id
    {
      ids := ids + {t.checks[i].id};
    }
    forall id | id in ids
      ensures exists c :: c in t.checks && c.id == id
    {
      var j :| 0 <= j < |t.checks| && t.checks[j].id == id;
      assert t.checks[j] in t.checks;
    }
    forall c | c in t.checks
      ensures c.id in ids
    {
      var j :| 0 <= j < |t.checks| && t.checks[j] == c;
    }
  }

  lemma FlatStep(targets: seq<Target>, sel: Selection, n: nat, knownTargets: set<string>, knownChecks: set<string>, matched: bool, ids: set<string>)
    requires n < |targets|
    requires FlatSoFar(targets, sel, n, knownTargets, knownChecks, matched)
    requires ids == set c | c in targets[n].checks :: c.id
    requires targets[n].id in sel.targets ==> Among(targets[n].agents, sel.agents) != []
    ensures FlatSoFar(targets, sel, n + 1, knownTargets + {targets[n].id}, knownChecks + ids,
      matched || (sel.checks != [] && targets[n].id in sel.targets && SelectTarget(targets[n], sel).checks != []))
  {
    hide SelectTarget, Among;
    var t := targets[n];
    forall id | id in ids
      ensures KnownCheck(targets, id)
    {
      var c :| c in t.checks && c.id == id;
      assert t in targets;
    }
    forall j | 0 <= j < |t.checks|
      ensures t.checks[j].id in ids
    {
      assert t.checks[j] in t.checks;
    }
  }

  /** Select with flat sets. */
  method SelectFlat(p: Plan, sel: Selection) returns (r: Result<Plan>)
    requires sel.scopes == []
    ensures r.Ok? <==> FlatOk(p, sel)
    ensures r.Ok? ==> r.value == FlatPlan(p, sel)
  {
    hide SelectTarget, Among, FlatSoFar, KnownTarget, KnownCheck, AsSet;
    if |sel.agents| == 0 || |sel.targets| == 0 {
      return Err;
    }
    var agents := FilterAgents(p.agents, sel.agents);
    var knownAgents := AllKnown(sel.agents, set a | a in p.agents);
    if !knownAgents {
      return Err;
    }
    var targets: seq<Target> := [];
    var knownTargets: set<string>, knownChecks: set<string>, matched := {}, {}, false;
    FlatNone(p.targets, sel);
    assert p.targets[..0] == [];
    for n := 0 to |p.targets|
      invariant FlatSoFar(p.targets, sel, n, knownTargets, knownChecks, matched)
      invariant targets == SelectTargets(p.targets[..n], sel)
    {
      var t := p.targets[n];
      var ids := CheckIds(t);
      assert p.targets[..n + 1][..n] == p.targets[..n];
      if t.id !in sel.targets {
        FlatStep(p.targets, sel, n, knownTargets, knownChecks, matched, ids);
        knownTargets, knownChecks := knownTargets + {t.id}, knownChecks + ids;
        continue;
      }
      var bindings := FilterAgents(t.agents, sel.agents);
      if |bindings| == 0 {
        return Err;
      }
      FlatStep(p.targets, sel, n, knownTargets, knownChecks, matched, ids);
      knownTargets, knownChecks := knownTargets + {t.id}, knownChecks + ids;
      var cut := SelectedChecks(t.(agents := bindings), sel.checks, |sel.checks| == 0);
      assert cut == SelectTarget(t, sel) by { SelectTargetIs(t, sel); }
      if |sel.checks| > 0 {
        matched := matched || |cut.checks| > 0;
      }
      targets := targets + [cut];
    }
    assert p.targets[..|p.targets|] == p.targets;
    FlatDone(p.targets, sel, knownTargets, knownChecks, matched);
    var targetsOk := AllKnown(sel.targets, knownTargets);
    var checksOk := AllKnown(sel.checks, knownChecks);
    if !targetsOk || !checksOk || (|sel.checks| > 0 && !matched) {
      return Err;
    }
    r := Ok(Plan(targets, agents));
  }

  lemma SelectTargetIs(t: Target, sel: Selection)
    ensures SelectTarget(t, sel) == WithChecks(t.(agents := Among(t.agents, sel.agents)), AsSet(sel.checks), sel.checks == [])
  {
  }

  lemma FlatNone(targets: seq<Target>, sel: Selection)
    ensures FlatSoFar(targets, sel, 0, {}, {}, false)
  {
  }

  lemma FlatDone(targets: seq<Target>, sel: Selection, knownTargets: set<string>, knownChecks: set<string>, matched: bool)
    requires FlatSoFar(targets, sel, |targets|, knownTargets, knownChecks, matched)
    ensures forall id :: id in knownTargets <==> KnownTarget(targets, id)
    ensures forall id :: id in knownChecks <==> KnownCheck(targets, id)
    ensures forall t :: t in targets && t.id in sel.targets ==> Among(t.agents, sel.agents) != []
    ensures matched <==> sel.checks != [] && exists t :: t in targets && t.id in sel.targets && SelectTarget(t, sel).checks != []
  {
    hide SelectTarget, Among;
    forall id | KnownTarget(targets, id)
      ensures id in knownTargets
    {
      var t :| t in targets && t.id == id;
      var i :| 0 <= i < |targets| && targets[i] == t;
    }
    forall id | KnownCheck(targets, id)
      ensures id in knownChecks
    {
      var t, c :| t in targets && c in t.checks && c.id == id;
      var i :| 0 <= i < |targets| && targets[i] == t;
      var j :| 0 <= j < |t.checks| && t.checks[j] == c;
    }
    if sel.checks != [] && exists t :: t in targets && t.id in sel.targets && SelectTarget(t, sel).checks != [] {
      var t :| t in targets && t.id in sel.targets && SelectTarget(t, sel).checks != [];
      var i :| 0 <= i < |targets| && targets[i] == t;
    }
  }

  /** A request as the program collects it: check ids in the order they were first asked for. */
  datatype Collected = Collected(checks: seq<string>, all: bool)

  predicate Grouped(scopes: seq<Scope>, groups: map<(string, string), Collected>) {
    && (forall k :: k in groups ==> Requested(scopes, k.0, k.1))
    && (forall s :: s in scopes ==> (s.agent, s.target) in groups)
    && (forall k :: k in groups ==> RequestFor(scopes, k.0, k.1) == Request(AsSet(groups[k].checks), groups[k].all))
  }

  lemma NoRequest(scopes: seq<Scope>, agent: string, target: string)
    requires !Requested(scopes, agent, target)
    ensures RequestFor(scopes, agent, target) == Request({}, false)
  {
  }

  lemma RequestSnoc(scopes: seq<Scope>, s: Scope, agent: string, target: string)
    ensures Requested(scopes + [s], agent, target) <==> Requested(scopes, agent, target) || (s.agent == agent && s.target == target)
    ensures
      var before := RequestFor(scopes, agent, target);
      RequestFor(scopes + [s], agent, target) ==
        if s.agent != agent || s.target != target then before
        else if s.kind == TargetScope then before.(all := true)
        else before.(checks := before.checks + {s.check})
  {
    var all := scopes + [s];
    forall x | x in all
      ensures x in scopes || x == s
    {
    }
    assert s in all && scopes <= all;
    assert forall x :: x in scopes ==> x in all;
    var before, after := RequestFor(scopes, agent, target), RequestFor(all, agent, target);
    if s.agent == agent && s.target == target && s.kind != TargetScope {
      assert after.checks == before.checks + {s.check};
    } else {
      assert after.checks == before.checks;
    }
  }

  lemma GroupStep(scopes: seq<Scope>, s: Scope, groups: map<(string, string), Collected>, request: Collected)
    requires Grouped(scopes, groups)
    requires
      var key := (s.agent, s.target);
      var before := if key in groups then groups[key] else Collected([], false);
      && request.all == (before.all || s.kind == TargetScope)
      && AsSet(request.checks) == AsSet(before.checks) + (if s.kind == TargetScope then {} else {s.check})
    ensures Grouped(scopes + [s], groups[(s.agent, s.target) := request])
  {
    hide Requested, RequestFor;
    var key := (s.agent, s.target);
    var after := groups[key := request];
    if key !in groups {
      assert !Requested(scopes, s.agent, s.target) by { NotRequested(scopes, groups, key); }
      NoRequest(scopes, s.agent, s.target);
      assert AsSet<string>([]) == {};
    }
    forall k | k in after
      ensures Requested(scopes + [s], k.0, k.1)
      ensures RequestFor(scopes + [s], k.0, k.1) == Request(AsSet(after[k].checks), after[k].all)
    {
      RequestSnoc(scopes, s, k.0, k.1);
    }
  }

  lemma NotRequested(scopes: seq<Scope>, groups: map<(string, string), Collected>, key: (string, string))
    requires Grouped(scopes, groups) && key !in groups
    ensures !Requested(scopes, key.0, key.1)
  {
  }

  method FindBound(targets: seq<Target>, s: Scope) returns (found: bool)
    requires WellFormed(s)
    ensures found <==> Bound(targets, s)
  {
    found := false;
    for i := 0 to |targets|
      invariant found <==> Bound(targets[..i], s)
    {
      var t := targets[i];
      assert targets[..i + 1] == targets[..i] + [t];
      if t.id != s.target || s.agent !in t.agents {
        continue;
      }
      if s.kind == TargetScope {
        found := true;
      } else {
        var ids := CheckIds(t);
        if s.check in ids {
          found := true;
        }
      }
    }
    assert targets[..|targets|] == targets;
  }

  method Group(p: Plan, scopes: seq<Scope>) returns (ok: bool, groups: map<(string, string), Collected>)
    ensures ok <==> forall s :: s in scopes ==> WellFormed(s) && Bound(p.targets, s)
    ensures ok ==> Grouped(scopes, groups)
  {
    hide Bound, Grouped;
    groups := map[];
    GroupedNone();
    assert scopes[..0] == [];
    for i := 0 to |scopes|
      invariant forall s :: s in scopes[..i] ==> WellFormed(s) && Bound(p.targets, s)
      invariant Grouped(scopes[..i], groups)
    {
      var s := scopes[i];
      assert scopes[..i + 1] == scopes[..i] + [s];
      if s.agent == "" || s.target == "" || (s.kind != CheckScope && s.kind != TargetScope)
         || (s.kind == CheckScope && s.check == "") || (s.kind == TargetScope && s.check != "") {
        assert !WellFormed(s);
        return false, groups;
      }
      var found := FindBound(p.targets, s);
      if !found {
        return false, groups;
      }
      var key := (s.agent, s.target);
      var request := if key in groups then groups[key] else Collected([], false);
      ghost var before := request;
      if s.kind == TargetScope {
        request := request.(all := true);
      } else if s.check !in request.checks {
        request := request.(checks := request.checks + [s.check]);
      }
      assert AsSet(request.checks) == AsSet(before.checks) + (if s.kind == TargetScope then {} else {s.check});
      GroupStep(scopes[..i], s, groups, request);
      groups := groups[key := request];
    }
    assert scopes[..|scopes|] == scopes;
    ok := true;
  }

  lemma GroupedNone()
    ensures Grouped([], map[])
  {
  }

  lemma GroupLookup(scopes: seq<Scope>, groups: map<(string, string), Collected>, t: Target, agent: string)
    requires Grouped(scopes, groups)
    ensures (agent, t.id) in groups <==> Requested(scopes, agent, t.id)
    ensures (agent, t.id) in groups ==>
      CopyFor(t, scopes, agent) == WithChecks(t, AsSet(groups[(agent, t.id)].checks), groups[(agent, t.id)].all).(agents := [agent])
  {
    if Requested(scopes, agent, t.id) {
      var s :| s in scopes && s.agent == agent && s.target == t.id;
    }
    if (agent, t.id) in groups {
      assert RequestFor(scopes, agent, t.id) == Request(AsSet(groups[(agent, t.id)].checks), groups[(agent, t.id)].all);
    }
  }

  method CopyTarget(t: Target, scopes: seq<Scope>, groups: map<(string, string), Collected>) returns (copies: seq<Target>)
    requires Grouped(scopes, groups)
    ensures copies == Copies(t, scopes, |t.agents|)
  {
    hide Grouped, Requested, CopyFor, WithChecks, AsSet;
    copies := [];
    for j := 0 to |t.agents|
      invariant copies == Copies(t, scopes, j)
    {
      var agent := t.agents[j];
      GroupLookup(scopes, groups, t, agent);
      if (agent, t.id) !in groups {
        continue;
      }
      var request := groups[(agent, t.id)];
      var cut := SelectedChecks(t, request.checks, request.all);
      copies := copies + [cut.(agents := [agent])];
    }
  }

  method SelectScopes(p: Plan, scopes: seq<Scope>) returns (r: Result<Plan>)
    ensures r.Ok? <==> ScopesOk(p, scopes)
    ensures r.Ok? ==> r.value == ScopedPlan(p, scopes)
  {
    hide Grouped, Copies, Bound;
    var ok, groups := Group(p, scopes);
    if !ok {
      return Err;
    }
    var targets: seq<Target> := [];
    var active: set<string> := {};
    assert p.targets[..0] == [];
    for n := 0 to |p.targets|
      invariant targets == SplitTargets(p.targets[..n], scopes)
      invariant active == ActiveAgents(targets)
    {
      assert p.targets[..n + 1][..n] == p.targets[..n];
      var copies := CopyTarget(p.targets[n], scopes, groups);
      targets := targets + copies;
      active := active + ActiveAgents(copies);
    }
    assert p.targets[..|p.targets|] == p.targets;
    var agents: seq<string> := [];
    for i := 0 to |p.agents|
      invariant agents == AmongSet(p.agents[..i], active)
    {
      assert p.agents[..i + 1][..i] == p.agents[..i];
      if p.agents[i] in active {
        agents := agents + [p.agents[i]];
      }
    }
    assert p.agents[..|p.agents|] == p.agents;
    if |targets| == 0 || |agents| == 0 {
      return Err;
    }
    r := Ok(Plan(targets, agents));
  }

  /** Select: exact scopes, or flat sets, but not both. */
  method Select(p: Plan, sel: Selection) returns (r: Result<Plan>)
    ensures r.Ok? <==> SelectOk(p, sel)
    ensures r.Ok? ==> r.value == Selected(p, sel)
  {
    if |sel.scopes| > 0 {
      if |sel.agents| + |sel.targets| + |sel.checks| != 0 {
        return Err;
      }
      r := SelectScopes(p, sel.scopes);
      return;
    }
    r := SelectFlat(p, sel);
  }
}
