/**
 A selection never costs more than the plan it was cut from.
 */
module SelectionCost {
  import opened Policies
  import opened Plans
  import opened Scopes
  import opened Selection
  import opened Costs
  import opened CostSoundness

  /** A target of a selection and the target it was cut from. */
  predicate PieceOf(t': Target, t: Target) {
    && t'.id == t.id && t'.network == t.network && t'.connect == t.connect && t'.wait == t.wait
    && forall a :: a in t'.agents ==> a in t.agents
  }

  lemma {:induction false} KeptLoad(checks: seq<Step>, ids: set<string>, n: nat, ops: bool)
    requires NormalizedSteps(checks) && n <= |checks|
    ensures NormalizedSteps(checks[..n]) && NormalizedSteps(KeptChecks(checks, ids, n))
    ensures StepsLoad(KeptChecks(checks, ids, n), ops) <= StepsLoad(checks[..n], ops)
  {
    hide Kept, StepsLoad, StepLoad;
    if n > 0 {
      KeptLoad(checks, ids, n - 1, ops);
      assert checks[..n] == checks[..n - 1] + [checks[n - 1]];
      StepsLoadSnoc(checks[..n - 1], checks[n - 1], ops);
      if Kept(checks, ids, n - 1) {
        StepsLoadSnoc(KeptChecks(checks, ids, n - 1), checks[n - 1], ops);
      } else {
        assert KeptChecks(checks, ids, n) == KeptChecks(checks, ids, n - 1);
      }
    }
  }

  lemma CutLoad(t: Target, ids: set<string>, all: bool, agents: seq<string>, ops: bool)
    requires ValidTarget(t)
    ensures
      var t' := WithChecks(t, ids, all).(agents := agents);
      ValidTarget(t') && AgentLoad(t', ops) <= AgentLoad(t, ops)
  {
    hide AgentLoad, StepsLoad, OptionLoad, KeptChecks;
    var t' := WithChecks(t, ids, all).(agents := agents);
    KeptLoad(t.checks, ids, |t.checks|, ops);
    assert t.checks[..|t.checks|] == t.checks;
    AgentLoadParts(t, ops);
    AgentLoadParts(t', ops);
  }

  lemma {:induction false} AmongShorter(agents: seq<string>, ids: seq<string>)
    ensures |Among(agents, ids)| <= |agents|
    ensures forall a :: a in Among(agents, ids) <==> a in agents && a in ids
  {
    if agents != [] {
      var n := |agents| - 1;
      AmongShorter(agents[..n], ids);
      assert agents == agents[..n] + [agents[n]];
    }
  }

  lemma ListedSnoc(targets: seq<Target>, t: Target, ops: bool)
    requires ValidTargets(targets) && ValidTarget(t)
    ensures ValidTargets(targets + [t])
    ensures ListedPrice(targets + [t], ops) == ListedPrice(targets, ops) + |t.agents| * AgentLoad(t, ops)
  {
    hide ListedPrice, AgentLoad, ValidTarget;
    var all := targets + [t];
    ListedPriceSnoc(all, |targets|, ops);
    assert all[..|targets|] == targets && all[..|targets| + 1] == all;
  }

  lemma {:induction false} ListedConcat(a: seq<Target>, b: seq<Target>, ops: bool)
    requires ValidTargets(a) && ValidTargets(b)
    ensures ValidTargets(a + b)
    ensures ListedPrice(a + b, ops) == ListedPrice(a, ops) + ListedPrice(b, ops)
  {
    hide ListedPrice, AgentLoad, ValidTarget;
    if b == [] {
      NothingListed(ops);
      assert a + b == a;
    } else {
      var front, t := b[..|b| - 1], b[|b| - 1];
      ListedConcat(a, front, ops);
      ListedSnoc(a + front, t, ops);
      ListedSnoc(front, t, ops);
      assert a + b == (a + front) + [t] && b == front + [t];
    }
  }

  lemma ProductBound(m: nat, n: nat, a: nat, b: nat)
    requires m <= n && a <= b
    ensures m * a <= n * b
  {
    ScaleUp(m, n, a);
    assert n * a <= n * b by {
      ScaleUp(a, b, n);
      assert n * a == a * n && n * b == b * n;
    }
  }

  lemma {:induction false} FlatCheaper(targets: seq<Target>, sel: Selection, ops: bool)
    requires ValidTargets(targets)
    ensures ValidTargets(SelectTargets(targets, sel))
    ensures ListedPrice(SelectTargets(targets, sel), ops) <= ListedPrice(targets, ops)
    ensures forall t' :: t' in SelectTargets(targets, sel) ==> exists t :: t in targets && PieceOf(t', t)
  {
    if targets == [] {
      NothingListed(ops);
    } else {
      hide ListedPrice, AgentLoad, SelectTarget, PieceOf, ValidTarget;
      var n := |targets| - 1;
      var t := targets[n];
      FlatCheaper(targets[..n], sel, ops);
      assert ValidTarget(t);
      assert targets == targets[..n] + [t];
      ListedSnoc(targets[..n], t, ops);
      var piece := if t.id in sel.targets then [SelectTarget(t, sel)] else [];
      FlatHead(t, sel, ops);
      ListedConcat(SelectTargets(targets[..n], sel), piece, ops);
      forall t' | t' in SelectTargets(targets, sel)
        ensures exists u :: u in targets && PieceOf(t', u)
      {
        if t' in SelectTargets(targets[..n], sel) {
          var u :| u in targets[..n] && PieceOf(t', u);
          assert u in targets;
        } else {
          assert t in targets;
        }
      }
    }
  }

  lemma FlatHead(t: Target, sel: Selection, ops: bool)
    requires ValidTarget(t)
    ensures
      var piece := if t.id in sel.targets then [SelectTarget(t, sel)] else [];
      && ValidTargets(piece)
      && ListedPrice(piece, ops) <= |t.agents| * AgentLoad(t, ops)
      && forall t' :: t' in piece ==> PieceOf(t', t)
  {
    hide ListedPrice, AgentLoad, SelectTarget, PieceOf, ValidTarget;
    NothingListed(ops);
    assert |t.agents| * AgentLoad(t, ops) >= 0;
    FlatPiece(t, sel, ops);
    ListedSnoc([], SelectTarget(t, sel), ops);
    assert [] + [SelectTarget(t, sel)] == [SelectTarget(t, sel)];
  }

  lemma FlatPiece(t: Target, sel: Selection, ops: bool)
    requires ValidTarget(t)
    ensures var t' := SelectTarget(t, sel);
      && ValidTarget(t') && PieceOf(t', t)
      && |t'.agents| * AgentLoad(t', ops) <= |t.agents| * AgentLoad(t, ops)
  {
    hide AgentLoad, KeptChecks;
    var agents := Among(t.agents, sel.agents);
    AmongShorter(t.agents, sel.agents);
    var t' := SelectTarget(t, sel);
    assert t' == WithChecks(t, AsSet(sel.checks), sel.checks == []).(agents := agents);
    CutLoad(t, AsSet(sel.checks), sel.checks == [], agents, ops);
    ProductBound(|agents|, |t.agents|, AgentLoad(t', ops), AgentLoad(t, ops));
  }

  lemma CopyPiece(t: Target, scopes: seq<Scope>, agent: string, ops: bool)
    requires ValidTarget(t) && agent in t.agents
    ensures var t' := CopyFor(t, scopes, agent);
      ValidTarget(t') && PieceOf(t', t) && t'.agents == [agent] && AgentLoad(t', ops) <= AgentLoad(t, ops)
  {
    hide AgentLoad, KeptChecks, RequestFor;
    var r := RequestFor(scopes, agent, t.id);
    CutLoad(t, r.checks, r.all, [agent], ops);
  }

  lemma {:induction false} CopiesCheaper(t: Target, scopes: seq<Scope>, n: nat, ops: bool)
    requires ValidTarget(t) && n <= |t.agents|
    ensures ValidTargets(Copies(t, scopes, n))
    ensures ListedPrice(Copies(t, scopes, n), ops) <= n * AgentLoad(t, ops)
    ensures forall t' :: t' in Copies(t, scopes, n) ==> PieceOf(t', t)
  {
    hide ListedPrice, AgentLoad, CopyFor, Requested, PieceOf, ValidTarget;
    if n == 0 {
      NothingListed(ops);
    } else {
      var agent := t.agents[n - 1];
      CopiesCheaper(t, scopes, n - 1, ops);
      if Requested(scopes, agent, t.id) {
        CopyPiece(t, scopes, agent, ops);
        ListedSnoc(Copies(t, scopes, n - 1), CopyFor(t, scopes, agent), ops);
      } else {
        assert Copies(t, scopes, n) == Copies(t, scopes, n - 1);
      }
    }
  }

  lemma {:induction false} SplitCheaper(targets: seq<Target>, scopes: seq<Scope>, ops: bool)
    requires ValidTargets(targets)
    ensures ValidTargets(SplitTargets(targets, scopes))
    ensures ListedPrice(SplitTargets(targets, scopes), ops) <= ListedPrice(targets, ops)
    ensures forall t' :: t' in SplitTargets(targets, scopes) ==> exists t :: t in targets && PieceOf(t', t)
  {
    if targets == [] {
      NothingListed(ops);
    } else {
      hide ListedPrice, AgentLoad, Copies, PieceOf, ValidTarget;
      var n := |targets| - 1;
      var t := targets[n];
      SplitCheaper(targets[..n], scopes, ops);
      assert ValidTarget(t);
      assert targets == targets[..n] + [t];
      ListedSnoc(targets[..n], t, ops);
      CopiesCheaper(t, scopes, |t.agents|, ops);
      ListedConcat(SplitTargets(targets[..n], scopes), Copies(t, scopes, |t.agents|), ops);
      forall t' | t' in SplitTargets(targets, scopes)
        ensures exists u :: u in targets && PieceOf(t', u)
      {
        if t' in SplitTargets(targets[..n], scopes) {
          var u :| u in targets[..n] && PieceOf(t', u);
          assert u in targets;
        } else {
          assert t in targets;
        }
      }
    }
  }

  lemma PiecesKeys(targets': seq<Target>, targets: seq<Target>)
    requires forall t' :: t' in targets' ==> exists t :: t in targets && PieceOf(t', t)
    ensures PreflightKeys(targets') <= PreflightKeys(targets)
    ensures RotationKeys(targets') <= RotationKeys(targets)
  {
  }

  /** Every target of a selection is a piece of a target of the plan, and together they cost no more. */
  lemma SelectionCheaper(p: Plan, sel: Selection, ops: bool)
    requires ValidPlan(p)
    ensures ValidPlan(Selected(p, sel))
    ensures PlanLoad(Selected(p, sel).targets, ops) <= PlanLoad(p.targets, ops)
    ensures forall t' :: t' in Selected(p, sel).targets ==> exists t :: t in p.targets && PieceOf(t', t)
  {
    hide TargetsAttempts, TargetsOperations, PreflightKeys, RotationKeys, SelectTargets, SplitTargets, PieceOf, ValidTarget;
    var targets := Selected(p, sel).targets;
    if sel.scopes != [] {
      SplitCheaper(p.targets, sel.scopes, ops);
    } else {
      FlatCheaper(p.targets, sel, ops);
    }
    PiecesKeys(targets, p.targets);
    SubsetSize(PreflightKeys(targets), PreflightKeys(p.targets));
    SubsetSize(RotationKeys(targets), RotationKeys(p.targets));
  }

  lemma {:induction false} SelectedSome(targets: seq<Target>, sel: Selection)
    requires exists t :: t in targets && t.id in sel.targets
    ensures SelectTargets(targets, sel) != []
  {
    hide SelectTarget;
    var n := |targets| - 1;
    if targets[n].id !in sel.targets {
      var t :| t in targets && t.id in sel.targets;
      assert t in targets[..n];
      SelectedSome(targets[..n], sel);
    }
  }

  lemma SelectionNotEmpty(p: Plan, sel: Selection)
    requires SelectOk(p, sel)
    ensures Selected(p, sel).targets != [] && Selected(p, sel).agents != []
  {
    if sel.scopes == [] {
      assert KnownTarget(p.targets, sel.targets[0]);
      SelectedSome(p.targets, sel);
      AmongShorter(p.agents, sel.agents);
      assert sel.agents[0] in Among(p.agents, sel.agents);
    }
  }

  /**
   A selection never costs more: when a plan is accepted for some rounds, so is every accepted
   selection of it, and no figure of its price is larger, even where exact scopes split one
   target into a copy per agent.
   */
  lemma SelectionNeverCostsMore(p: Plan, sel: Selection, rounds: uint64, loop: bool)
    requires ValidPlan(p) && SelectOk(p, sel) && Affordable(p, rounds, loop)
    ensures ValidPlan(Selected(p, sel)) && Affordable(Selected(p, sel), rounds, loop)
    ensures PlanAttempts(Selected(p, sel).targets) <= PlanAttempts(p.targets)
    ensures PlanOperations(Selected(p, sel).targets) <= PlanOperations(p.targets)
    ensures PlanOperations(Selected(p, sel).targets) * rounds <= PlanOperations(p.targets) * rounds
  {
    hide PlanAttempts, PlanOperations, Selected, SelectOk, ValidTarget;
    SelectionCheaper(p, sel, false);
    SelectionCheaper(p, sel, true);
    SelectionNotEmpty(p, sel);
    var a', a := PlanAttempts(Selected(p, sel).targets), PlanAttempts(p.targets);
    ScaleUp(if a' >= 1 then a' else 1, if a >= 1 then a else 1, rounds);
    ScaleUp(PlanOperations(Selected(p, sel).targets), PlanOperations(p.targets), rounds);
  }
}
