/**
 What a selection contains, position by position: which targets, whose copies, and which checks of
 them, in the order of the plan.
 */
module SelectionLaws {
  import opened Plans
  import opened Scopes
  import opened Selection

  /** The positions below n that are kept, in order. */
  ghost predicate Picks(at: seq<nat>, n: nat, keep: nat -> bool) {
    && (forall j :: 0 <= j < |at| ==> at[j] < n)
    && (forall j, k :: 0 <= j < k < |at| ==> at[j] < at[k])
    && forall i: nat :: i < n ==> (keep(i) <==> i in at)
  }

  ghost predicate Taken<T(!new)>(kept: seq<T>, all: seq<T>, at: seq<nat>) {
    |kept| == |at| && forall j :: 0 <= j < |at| ==> at[j] < |all| && kept[j] == all[at[j]]
  }

  /** `kept` is what stands at the kept positions of `all`, in the same order, and nothing else. */
  ghost predicate Sublist<T(!new)>(kept: seq<T>, all: seq<T>, keep: nat -> bool) {
    exists at: seq<nat> :: Picks(at, |all|, keep) && Taken(kept, all, at)
  }

  lemma PicksSnoc(at: seq<nat>, n: nat, keep: nat -> bool)
    requires Picks(at, n, keep)
    ensures Picks(if keep(n) then at + [n] else at, n + 1, keep)
  {
    var more := if keep(n) then at + [n] else at;
    forall i: nat | i < n + 1
      ensures keep(i) <==> i in more
    {
      if i < n {
        assert i in more <==> i in at;
      }
    }
  }

  lemma TakenSnoc<T(!new)>(kept: seq<T>, all: seq<T>, at: seq<nat>, n: nat)
    requires n < |all| && Taken(kept, all[..n], at)
    ensures Taken(kept, all[..n + 1], at) && Taken(kept + [all[n]], all[..n + 1], at + [n])
  {
    assert all[..n + 1] == all[..n] + [all[n]];
  }

  lemma SublistNone<T(!new)>(all: seq<T>, keep: nat -> bool)
    ensures Sublist([], all[..0], keep)
  {
    var at: seq<nat> := [];
    var kept: seq<T> := [];
    assert Picks(at, 0, keep) && Taken(kept, all[..0], at);
  }

  /** One more position. */
  lemma SublistSnoc<T(!new)>(kept: seq<T>, all: seq<T>, n: nat, keep: nat -> bool)
    requires n < |all| && Sublist(kept, all[..n], keep)
    ensures Sublist(if keep(n) then kept + [all[n]] else kept, all[..n + 1], keep)
    ensures Sublist(kept + (if keep(n) then [all[n]] else []), all[..n + 1], keep)
  {
    assert kept + [] == kept;
    hide Picks, Taken;
    var at: seq<nat> :| Picks(at, |all[..n]|, keep) && Taken(kept, all[..n], at);
    PicksSnoc(at, n, keep);
    TakenSnoc(kept, all, at, n);
  }

  // ---------------------------------------------------------------- the checks of a copy

  /** A check is wanted that is named, and one that is required in front of a named one. */
  predicate Wanted(checks: seq<Step>, ids: set<string>, i: nat) {
    && i < |checks|
    && (checks[i].id in ids || (checks[i].required && exists k :: i < k < |checks| && checks[k].id in ids))
  }

  lemma {:induction false} LastNamedIs(checks: seq<Step>, ids: set<string>)
    ensures var n := LastNamed(checks, ids);
      n <= |checks| && (n > 0 ==> checks[n - 1].id in ids) && forall k :: n <= k < |checks| ==> checks[k].id !in ids
  {
    if checks != [] && checks[|checks| - 1].id !in ids {
      LastNamedIs(checks[..|checks| - 1], ids);
    }
  }

  lemma KeptIsWanted(checks: seq<Step>, ids: set<string>, i: nat)
    requires i < |checks|
    ensures Kept(checks, ids, i) <==> Wanted(checks, ids, i)
  {
    LastNamedIs(checks, ids);
    var n := LastNamed(checks, ids);
    if i + 1 < n {
      assert checks[n - 1].id in ids;
    }
  }

  function Wants(checks: seq<Step>, ids: set<string>): nat -> bool {
    (i: nat) => Wanted(checks, ids, i)
  }

  lemma {:induction false} KeptSublist(checks: seq<Step>, ids: set<string>, n: nat)
    requires n <= |checks|
    ensures Sublist(KeptChecks(checks, ids, n), checks[..n], Wants(checks, ids))
  {
    hide Kept, Wanted, Sublist;
    if n == 0 {
      SublistNone(checks, Wants(checks, ids));
    } else {
      KeptSublist(checks, ids, n - 1);
      KeptIsWanted(checks, ids, n - 1);
      SublistSnoc(KeptChecks(checks, ids, n - 1), checks, n - 1, Wants(checks, ids));
    }
  }

  /** The checks of a copy: all, or the wanted ones in order. */
  ghost predicate ChecksFor(t: Target, ids: set<string>, all: bool, t': Target) {
    if all then t'.checks == t.checks else Sublist(t'.checks, t.checks, Wants(t.checks, ids))
  }

  lemma CopyChecks(t: Target, ids: set<string>, all: bool)
    ensures ChecksFor(t, ids, all, WithChecks(t, ids, all))
  {
    hide KeptChecks, Sublist;
    KeptSublist(t.checks, ids, |t.checks|);
    assert t.checks[..|t.checks|] == t.checks;
  }

  // ---------------------------------------------------------------- flat sets

  function In(items: seq<string>, ids: seq<string>): nat -> bool {
    (i: nat) => i < |items| && items[i] in ids
  }

  lemma {:induction false} AmongSublist(agents: seq<string>, ids: seq<string>, n: nat)
    requires n <= |agents|
    ensures Sublist(Among(agents[..n], ids), agents[..n], In(agents, ids))
  {
    hide Sublist;
    if n == 0 {
      SublistNone(agents, In(agents, ids));
    } else {
      AmongSublist(agents, ids, n - 1);
      assert agents[..n][..n - 1] == agents[..n - 1];
      SublistSnoc(Among(agents[..n - 1], ids), agents, n - 1, In(agents, ids));
    }
  }

  /** The copy of a target: its network and steps, the agents asked for, and the checks asked for. */
  ghost predicate FlatCopy(t: Target, sel: Selection, t': Target) {
    && t' == t.(agents := t'.agents, checks := t'.checks)
    && Sublist(t'.agents, t.agents, In(t.agents, sel.agents))
    && ChecksFor(t, AsSet(sel.checks), sel.checks == [], t')
  }

  lemma TargetCopied(t: Target, sel: Selection)
    ensures FlatCopy(t, sel, SelectTarget(t, sel))
  {
    hide Sublist, WithChecks, Wants, In, KeptChecks;
    AmongSublist(t.agents, sel.agents, |t.agents|);
    assert t.agents[..|t.agents|] == t.agents;
    CopyChecks(t.(agents := Among(t.agents, sel.agents)), AsSet(sel.checks), sel.checks == []);
    OnlyChecks(t.(agents := Among(t.agents, sel.agents)), AsSet(sel.checks), sel.checks == []);
  }

  lemma OnlyChecks(t: Target, ids: set<string>, all: bool)
    ensures WithChecks(t, ids, all) == t.(checks := WithChecks(t, ids, all).checks)
  {
    hide KeptChecks;
  }

  function Chosen(targets: seq<Target>, ids: seq<string>): nat -> bool {
    (i: nat) => i < |targets| && targets[i].id in ids
  }

  lemma {:induction false} FlatTargets(targets: seq<Target>, sel: Selection, n: nat) returns (origins: seq<Target>)
    requires n <= |targets|
    ensures Sublist(origins, targets[..n], Chosen(targets, sel.targets))
    ensures var copies := SelectTargets(targets[..n], sel);
      |copies| == |origins| && forall j :: 0 <= j < |origins| ==> FlatCopy(origins[j], sel, copies[j])
  {
    hide Sublist, SelectTarget, FlatCopy;
    if n == 0 {
      SublistNone(targets, Chosen(targets, sel.targets));
      origins := [];
    } else {
      var before := FlatTargets(targets, sel, n - 1);
      assert targets[..n][..n - 1] == targets[..n - 1];
      SublistSnoc(before, targets, n - 1, Chosen(targets, sel.targets));
      origins := if targets[n - 1].id in sel.targets then before + [targets[n - 1]] else before;
      TargetCopied(targets[n - 1], sel);
    }
  }

  /**
   A flat selection holds a copy of every target that is asked for, and of no other, in the order of
   the plan; each copy has the network and the steps of its target, those of its agents that are
   asked for and, where checks are named, exactly those named and those required in front of a
   named one, each in its order.
   */
  lemma FlatSelectionIsExact(p: Plan, sel: Selection) returns (origins: seq<Target>)
    requires SelectOk(p, sel) && sel.scopes == []
    ensures var q := Selected(p, sel);
      && Sublist(origins, p.targets, Chosen(p.targets, sel.targets))
      && |q.targets| == |origins| && (forall j :: 0 <= j < |origins| ==> FlatCopy(origins[j], sel, q.targets[j]))
      && Sublist(q.agents, p.agents, In(p.agents, sel.agents))
  {
    hide SelectOk, Sublist, FlatCopy;
    origins := FlatTargets(p.targets, sel, |p.targets|);
    AmongSublist(p.agents, sel.agents, |p.agents|);
    assert p.targets[..|p.targets|] == p.targets && p.agents[..|p.agents|] == p.agents;
  }

  lemma SublistHolds<T(!new)>(kept: seq<T>, all: seq<T>, keep: nat -> bool, i: nat) returns (j: nat)
    requires Sublist(kept, all, keep) && i < |all| && keep(i)
    ensures j < |kept| && kept[j] == all[i]
  {
    var at: seq<nat> :| Picks(at, |all|, keep) && Taken(kept, all, at);
    assert i in at;
    j :| 0 <= j < |at| && at[j] == i;
  }

  /** So a check that is asked for by name is there, in the copy of every target that is asked for and has it. */
  lemma NamedCheckIsSelected(p: Plan, sel: Selection, i: nat, m: nat) returns (t': Target)
    requires SelectOk(p, sel) && sel.scopes == [] && i < |p.targets| && p.targets[i].id in sel.targets
    requires m < |p.targets[i].checks| && p.targets[i].checks[m].id in sel.checks
    ensures t' in Selected(p, sel).targets && t'.id == p.targets[i].id && p.targets[i].checks[m] in t'.checks
  {
    hide SelectOk, Sublist, Selected;
    var t := p.targets[i];
    var origins := FlatSelectionIsExact(p, sel);
    var j := SublistHolds(origins, p.targets, Chosen(p.targets, sel.targets), i);
    t' := Selected(p, sel).targets[j];
    var k := SublistHolds(t'.checks, t.checks, Wants(t.checks, AsSet(sel.checks)), m);
    assert t'.checks[k] in t'.checks;
  }

  // ---------------------------------------------------------------- exact scopes

  /** A target at one of its agents. */
  type Place = (Target, string)

  function PlacesOf(t: Target): seq<Place> {
    seq(|t.agents|, i requires 0 <= i < |t.agents| => (t, t.agents[i]))
  }

  /** All of them, in the order of the plan. */
  function Places(targets: seq<Target>): seq<Place> {
    if targets == [] then [] else Places(targets[..|targets| - 1]) + PlacesOf(targets[|targets| - 1])
  }

  predicate ScopeAt(s: Scope, place: Place) {
    s.agent == place.1 && s.target == place.0.id
  }

  function AskedFor(places: seq<Place>, scopes: seq<Scope>): nat -> bool {
    (i: nat) => i < |places| && exists s :: s in scopes && ScopeAt(s, places[i])
  }

  /** The copy for a place: its agent alone, and all checks where the target is asked for, else those named. */
  ghost predicate ScopedCopy(place: Place, scopes: seq<Scope>, t': Target) {
    && t' == place.0.(agents := [place.1], checks := t'.checks)
    && ChecksFor(place.0, set s | s in scopes && ScopeAt(s, place) && s.kind == CheckScope :: s.check,
                 exists s :: s in scopes && ScopeAt(s, place) && s.kind == TargetScope, t')
  }

  predicate KindsOk(scopes: seq<Scope>) {
    forall s :: s in scopes ==> s.kind == CheckScope || s.kind == TargetScope
  }

  lemma PlaceCopied(place: Place, scopes: seq<Scope>)
    requires KindsOk(scopes)
    ensures ScopedCopy(place, scopes, CopyFor(place.0, scopes, place.1))
  {
    hide Sublist, WithChecks, KeptChecks;
    var r := RequestFor(scopes, place.1, place.0.id);
    assert r.checks == set s | s in scopes && ScopeAt(s, place) && s.kind == CheckScope :: s.check;
    assert r.all <==> exists s :: s in scopes && ScopeAt(s, place) && s.kind == TargetScope;
    CopyChecks(place.0, r.checks, r.all);
    OnlyChecks(place.0, r.checks, r.all);
  }

  function CopiesOf(places: seq<Place>, scopes: seq<Scope>): seq<Target> {
    if places == [] then []
    else
      var last := places[|places| - 1];
      CopiesOf(places[..|places| - 1], scopes)
      + if Requested(scopes, last.1, last.0.id) then [CopyFor(last.0, scopes, last.1)] else []
  }

  lemma {:induction false} CopiesConcat(a: seq<Place>, b: seq<Place>, scopes: seq<Scope>)
    ensures CopiesOf(a + b, scopes) == CopiesOf(a, scopes) + CopiesOf(b, scopes)
  {
    hide CopyFor, Requested;
    if b == [] {
      assert a + b == a;
    } else {
      CopiesConcat(a, b[..|b| - 1], scopes);
      assert (a + b)[..|a + b| - 1] == a + b[..|b| - 1];
    }
  }

  lemma {:induction false} CopiesAt(t: Target, scopes: seq<Scope>, n: nat)
    requires n <= |t.agents|
    ensures CopiesOf(PlacesOf(t)[..n], scopes) == Copies(t, scopes, n)
  {
    hide CopyFor, Requested;
    if n > 0 {
      CopiesAt(t, scopes, n - 1);
      assert PlacesOf(t)[..n][..n - 1] == PlacesOf(t)[..n - 1];
    }
  }

  lemma {:induction false} SplitIsCopies(targets: seq<Target>, scopes: seq<Scope>)
    ensures SplitTargets(targets, scopes) == CopiesOf(Places(targets), scopes)
  {
    hide CopyFor, Requested, CopiesOf, Copies;
    if targets == [] {
      assert CopiesOf([], scopes) == [] by { NoCopies(scopes); }
    } else {
      var n := |targets| - 1;
      SplitIsCopies(targets[..n], scopes);
      CopiesAt(targets[n], scopes, |targets[n].agents|);
      assert PlacesOf(targets[n])[..|targets[n].agents|] == PlacesOf(targets[n]);
      CopiesConcat(Places(targets[..n]), PlacesOf(targets[n]), scopes);
    }
  }

  lemma NoCopies(scopes: seq<Scope>)
    ensures CopiesOf([], scopes) == []
  {
  }

  lemma {:induction false} ScopedTargets(places: seq<Place>, scopes: seq<Scope>, n: nat) returns (origins: seq<Place>)
    requires n <= |places| && KindsOk(scopes)
    ensures Sublist(origins, places[..n], AskedFor(places, scopes))
    ensures var copies := CopiesOf(places[..n], scopes);
      |copies| == |origins| && forall j :: 0 <= j < |origins| ==> ScopedCopy(origins[j], scopes, copies[j])
  {
    hide Sublist, CopyFor, ScopedCopy, KindsOk;
    if n == 0 {
      SublistNone(places, AskedFor(places, scopes));
      origins := [];
    } else {
      var before := ScopedTargets(places, scopes, n - 1);
      var last := places[n - 1];
      assert places[..n][..n - 1] == places[..n - 1];
      SublistSnoc(before, places, n - 1, AskedFor(places, scopes));
      assert AskedFor(places, scopes)(n - 1) <==> Requested(scopes, last.1, last.0.id);
      origins := if Requested(scopes, last.1, last.0.id) then before + [last] else before;
      PlaceCopied(last, scopes);
    }
  }

  function Active(agents: seq<string>, targets: seq<Target>): nat -> bool {
    (i: nat) => i < |agents| && exists t :: t in targets && agents[i] in t.agents
  }

  lemma {:induction false} ActiveSublist(agents: seq<string>, targets: seq<Target>, n: nat)
    requires n <= |agents|
    ensures Sublist(AmongSet(agents[..n], ActiveAgents(targets)), agents[..n], Active(agents, targets))
  {
    hide Sublist;
    if n == 0 {
      SublistNone(agents, Active(agents, targets));
    } else {
      ActiveSublist(agents, targets, n - 1);
      assert agents[..n][..n - 1] == agents[..n - 1];
      assert agents[n - 1] in ActiveAgents(targets) <==> Active(agents, targets)(n - 1);
      SublistSnoc(AmongSet(agents[..n - 1], ActiveAgents(targets)), agents, n - 1, Active(agents, targets));
    }
  }

  /**
   A selection by exact scopes holds one copy for every target at every agent that a scope asks for,
   and no other, in the order of the plan; each copy has that agent alone and all checks where a
   scope asks for the target, else exactly those named and those required in front of a named one.
   */
  lemma ScopedSelectionIsExact(p: Plan, sel: Selection) returns (origins: seq<Place>)
    requires SelectOk(p, sel) && sel.scopes != []
    ensures var q, places := Selected(p, sel), Places(p.targets);
      && Sublist(origins, places, AskedFor(places, sel.scopes))
      && |q.targets| == |origins| && (forall j :: 0 <= j < |origins| ==> ScopedCopy(origins[j], sel.scopes, q.targets[j]))
      && Sublist(q.agents, p.agents, Active(p.agents, q.targets))
  {
    hide Sublist, ScopedCopy, Places, CopiesOf, SplitTargets;
    var places := Places(p.targets);
    origins := ScopedTargets(places, sel.scopes, |places|);
    SplitIsCopies(p.targets, sel.scopes);
    ActiveSublist(p.agents, Selected(p, sel).targets, |p.agents|);
    assert places[..|places|] == places && p.agents[..|p.agents|] == p.agents;
  }
}
