/**
 Whole runs.  In every round the workers' actions reach the report in an arbitrary order that
 keeps each worker's own; a round begins only when the one before is complete.  What the report
 says is the same for every such order, and what it retains is bounded and accounted for.
 */
module Runs {
  import opened Outcomes
  import opened Policies
  import opened Plans
  import opened Rounds
  import opened OwnActions
  import opened Costs
  import opened CostSoundness
  import opened Reports

  // ---------------------------------------------------------------- interleavings

  /** The agent whose worker performs an action; delivery problems may come from anywhere. */
  function SourceOf(a: Action): Option<string> {
    match a
    case Record(r) => Some(r.agent)
    case Progress(agent, _, _) => Some(agent)
    case Problem(agent, _, kind) => if kind == Delivery then None else Some(agent)
    case Cleaned(agent, _, _, _) => Some(agent)
  }

  function Project(log: seq<Action>, source: Option<string>): seq<Action> {
    if log == [] then []
    else Project(log[..|log| - 1], source) + if SourceOf(log[|log| - 1]) == source then [log[|log| - 1]] else []
  }

  datatype RoundLog = RoundLog(workers: seq<Worker>, clocks: seq<Clock>, log: seq<Action>)

  predicate Started(plan: Plan, round: nat, r: RoundLog) {
    && WorkersOf(plan.agents, r.workers) && |r.clocks| == |r.workers|
    && forall i :: 0 <= i < |r.workers| ==> r.workers[i].round == round
  }

  /** One round: every worker has performed some of its actions, or all of them, in its own order. */
  predicate Interleaved(plan: Plan, round: nat, r: RoundLog, complete: bool)
    requires ValidPlan(plan)
  {
    && Started(plan, round, r)
    && (forall a :: a in r.log && SourceOf(a).Some? ==> SourceOf(a).value in plan.agents)
    && forall i :: 0 <= i < |plan.agents| ==>
         var own := Project(r.log, Some(plan.agents[i]));
         var all := WorkerActions(plan, r.workers[i], r.clocks[i]);
         if complete then own == all else own <= all
  }

  /** Rounds are numbered from 1; only the last one may still be under way. */
  predicate Run(plan: Plan, rounds: seq<RoundLog>)
    requires ValidPlan(plan)
  {
    forall i :: 0 <= i < |rounds| ==> Interleaved(plan, i + 1, rounds[i], i < |rounds| - 1)
  }

  function Logs(rounds: seq<RoundLog>): (logs: seq<seq<Action>>)
    ensures |logs| == |rounds|
    ensures forall i :: 0 <= i < |rounds| ==> logs[i] == rounds[i].log
  {
    seq(|rounds|, i requires 0 <= i < |rounds| => rounds[i].log)
  }

  function ReportAt(plan: Plan, rounds: seq<RoundLog>, loop: bool): ReportView {
    AfterRounds(Opening(plan.agents), Logs(rounds), loop)
  }

  /** Every action of a run so far. */
  function History(rounds: seq<RoundLog>): seq<Action> {
    if rounds == [] then [] else History(rounds[..|rounds| - 1]) + rounds[|rounds| - 1].log
  }

  // ---------------------------------------------------------------- tallies

  function Tally(log: seq<Action>, o: Outcome): nat {
    if log == [] then 0
    else
      var a := log[|log| - 1];
      Tally(log[..|log| - 1], o) + if a.Record? && a.report.outcome == o then 1 else 0
  }

  function Tallies(log: seq<Action>): Counts {
    Counts(Tally(log, Pass), Tally(log, Fail), Tally(log, Missing), Tally(log, Skip), Tally(log, Canceled))
  }

  function Sum(a: Counts, b: Counts): Counts {
    Counts(a.passed + b.passed, a.failed + b.failed, a.missing + b.missing, a.skipped + b.skipped, a.canceled + b.canceled)
  }

  /** The outcomes that bear on the run's verdict: those of steps, and Fail for every problem. */
  function Bearing(log: seq<Action>): seq<Outcome> {
    if log == [] then []
    else
      Bearing(log[..|log| - 1]) +
      match log[|log| - 1]
      case Record(r) => [r.outcome]
      case Problem(_, _, _) => [Fail]
      case _ => []
  }

  /** The outcomes that bear on one agent's progress, among its own actions. */
  function Shown(log: seq<Action>): seq<Outcome> {
    if log == [] then []
    else
      Shown(log[..|log| - 1]) +
      match log[|log| - 1]
      case Record(r) => [r.outcome]
      case Progress(_, _, o) => [o]
      case _ => []
  }

  function StepsOf(log: seq<Action>): seq<StepReport> {
    if log == [] then [] else StepsOf(log[..|log| - 1]) + if log[|log| - 1].Record? then [log[|log| - 1].report] else []
  }

  function ProblemsOf(log: seq<Action>): seq<ProblemRecord> {
    if log == [] then []
    else
      var a := log[|log| - 1];
      ProblemsOf(log[..|log| - 1]) + if a.Problem? then [ProblemRecord(a.kind, a.agent, a.round)] else []
  }

  function CleanupOf(log: seq<Action>): seq<CleanupPart> {
    if log == [] then []
    else
      var a := log[|log| - 1];
      CleanupOf(log[..|log| - 1]) + if a.Cleaned? then [CleanupPart(a.agent, a.round, a.target, a.command)] else []
  }

  lemma {:induction false} CombineAssociates(a: Outcome, b: Outcome, c: Outcome)
    ensures Combine(Combine(a, b), c) == Combine(a, Combine(b, c))
    ensures Combine(a, Pass) == a && Combine(Pass, a) == a && Combine(a, Fail) == Fail
  {
  }

  lemma {:induction false} JoinConcat(a: seq<Outcome>, b: seq<Outcome>)
    ensures Join(a + b) == Combine(Join(a), Join(b))
  {
    if b == [] {
      assert a + b == a;
    } else {
      var front, o := b[..|b| - 1], b[|b| - 1];
      JoinConcat(a, front);
      assert a + b == (a + front) + [o] && b == front + [o];
      JoinAppend(a + front, o);
      JoinAppend(front, o);
      CombineAssociates(Join(a), Join(front), o);
    }
  }

  lemma CountedSum(base: Counts, c: Counts, o: Outcome)
    ensures Counted(Sum(base, c), o) == Sum(base, Counted(c, o))
  {
  }

  lemma TalliesSnoc(log: seq<Action>, a: Action)
    ensures Tallies(log + [a]) == if a.Record? then Counted(Tallies(log), a.report.outcome) else Tallies(log)
  {
    assert (log + [a])[..|log|] == log;
  }

  /** The lists of a report have grown by what some actions list. */
  predicate Lists(v: ReportView, u: ReportView, log: seq<Action>) {
    && u.steps == v.steps + StepsOf(log) && u.problems == v.problems + ProblemsOf(log) && u.cleanup == v.cleanup + CleanupOf(log)
    && u.evictedRounds == v.evictedRounds && u.evictedProblems == v.evictedProblems && u.state == v.state
    && |u.agents| == |v.agents|
  }

  predicate Totals(v: ReportView, u: ReportView, log: seq<Action>) {
    u.counts == Sum(v.counts, Tallies(log)) && u.outcome == Combine(v.outcome, Join(Bearing(log)))
  }

  lemma ListsSnoc(v: ReportView, u: ReportView, log: seq<Action>, a: Action)
    requires Lists(v, u, log)
    ensures Lists(v, Apply(u, a), log + [a])
  {
    hide Counted, Combine, AgentStep;
    assert (log + [a])[..|log|] == log;
  }

  lemma TotalsSnoc(v: ReportView, u: ReportView, log: seq<Action>, a: Action)
    requires Totals(v, u, log)
    ensures Totals(v, Apply(u, a), log + [a])
  {
    hide Counted, Combine, AgentStep, Tallies, Sum, Join;
    assert (log + [a])[..|log|] == log;
    TalliesSnoc(log, a);
    if a.Record? {
      CountedSum(v.counts, Tallies(log), a.report.outcome);
      JoinAppend(Bearing(log), a.report.outcome);
      CombineAssociates(v.outcome, Join(Bearing(log)), a.report.outcome);
    } else if a.Problem? {
      JoinAppend(Bearing(log), Fail);
      CombineAssociates(v.outcome, Join(Bearing(log)), Fail);
      CombineAssociates(u.outcome, Fail, Fail);
    } else {
      assert Bearing(log + [a]) == Bearing(log);
    }
  }

  /** What a stretch of actions does to everything in the report but the agents' progress. */
  lemma {:induction false} ApplyAllIs(v: ReportView, log: seq<Action>)
    ensures Lists(v, ApplyAll(v, log), log) && Totals(v, ApplyAll(v, log), log)
  {
    if log == [] {
      ApplyNone(v);
    } else {
      hide Lists, Totals, Apply;
      var n := |log| - 1;
      ApplyAllIs(v, log[..n]);
      assert log == log[..n] + [log[n]];
      ListsSnoc(v, ApplyAll(v, log[..n]), log[..n], log[n]);
      TotalsSnoc(v, ApplyAll(v, log[..n]), log[..n], log[n]);
    }
  }

  lemma ApplyNone(v: ReportView)
    ensures Sum(v.counts, Tallies([])) == v.counts && Combine(v.outcome, Join(Bearing([]))) == v.outcome
  {
  }

  // ---------------------------------------------------------------- one agent's progress

  function AgentAfter(p: AgentProgress, log: seq<Action>): (q: AgentProgress)
    ensures q.agent == p.agent
  {
    if log == [] then p else AgentStep(AgentAfter(p, log[..|log| - 1]), log[|log| - 1])
  }

  lemma {:induction false} AgentsApart(v: ReportView, log: seq<Action>, i: nat)
    requires i < |v.agents|
    ensures |ApplyAll(v, log).agents| == |v.agents|
    ensures ApplyAll(v, log).agents[i] == AgentAfter(v.agents[i], log)
  {
    hide AgentStep;
    if log != [] {
      AgentsApart(v, log[..|log| - 1], i);
    }
  }

  lemma StrangerIgnored(p: AgentProgress, a: Action)
    requires SourceOf(a) != Some(p.agent)
    ensures AgentStep(p, a) == p
  {
  }

  /** Only an agent's own worker changes its progress. */
  lemma {:induction false} AgentSeesOwn(p: AgentProgress, log: seq<Action>)
    ensures AgentAfter(p, log) == AgentAfter(p, Project(log, Some(p.agent)))
  {
    hide AgentStep;
    if log != [] {
      var front, a := log[..|log| - 1], log[|log| - 1];
      AgentSeesOwn(p, front);
      var own := Project(front, Some(p.agent));
      if SourceOf(a) == Some(p.agent) {
        assert (own + [a])[..|own|] == own;
      } else {
        StrangerIgnored(AgentAfter(p, front), a);
        assert Project(log, Some(p.agent)) == own;
      }
    }
  }

  /** A round's first mark of progress forgets the round before; from there on everything is counted. */
  lemma {:induction false} ProgressTally(p: AgentProgress, w: Worker, own: seq<Action>)
    requires own != [] && own[0] == Progress(w.agent, w.round, Pass) && AllOwn(w, own)
    requires p.agent == w.agent && p.round != w.round
    ensures AgentAfter(p, own) == AgentProgress(w.agent, w.round, Join(Shown(own)), Tallies(own))
  {
    var n := |own| - 1;
    var front, a := own[..n], own[n];
    assert own == front + [a];
    TalliesSnoc(front, a);
    assert Own(w, a);
    hide Tallies, Counted;
    if n == 0 {
      assert Tallies([]) == NONE by { NothingTallied(); }
      assert Shown(front) == [];
      JoinAppend([], Pass);
      assert AgentAfter(p, front) == p;
    } else {
      assert front[0] == own[0];
      ProgressTally(p, w, front);
      if a.Record? {
        JoinAppend(Shown(front), a.report.outcome);
      } else if a.Progress? {
        JoinAppend(Shown(front), a.outcome);
      } else {
        assert Shown(own) == Shown(front);
      }
    }
  }

  lemma NothingTallied()
    ensures Tallies([]) == NONE
  {
  }

  // ---------------------------------------------------------------- rounds

  lemma {:induction false} ProjectMembers(log: seq<Action>, source: Option<string>)
    ensures forall a :: a in Project(log, source) <==> a in log && SourceOf(a) == source
  {
    if log != [] {
      ProjectMembers(log[..|log| - 1], source);
      assert log == log[..|log| - 1] + [log[|log| - 1]];
    }
  }

  /** Every action of a round, delivery problems apart, is one that a worker of the round performs. */
  lemma PerformedBy(plan: Plan, round: nat, r: RoundLog, complete: bool, a: Action) returns (i: nat)
    requires ValidPlan(plan) && Interleaved(plan, round, r, complete) && a in r.log && SourceOf(a).Some?
    ensures i < |plan.agents| == |r.workers| == |r.clocks| && SourceOf(a) == Some(plan.agents[i])
    ensures a in WorkerActions(plan, r.workers[i], r.clocks[i])
  {
    hide WorkerActions, ValidPlan;
    ProjectMembers(r.log, SourceOf(a));
    var j :| 0 <= j < |plan.agents| && plan.agents[j] == SourceOf(a).value;
    assert a in Project(r.log, Some(plan.agents[j]));
    i := j;
  }

  lemma RoundOwn(plan: Plan, round: nat, r: RoundLog, complete: bool, a: Action)
    requires ValidPlan(plan) && Interleaved(plan, round, r, complete) && a in r.log && SourceOf(a).Some?
    ensures exists i :: 0 <= i < |plan.agents| && SourceOf(a) == Some(plan.agents[i]) && Own(r.workers[i], a)
  {
    hide WorkerActions, ValidPlan, Own, Interleaved;
    var i := PerformedBy(plan, round, r, complete, a);
    WorkerOwns(plan, r.workers[i], r.clocks[i]);
  }

  lemma {:induction false} StepsMembers(log: seq<Action>)
    ensures forall s :: s in StepsOf(log) <==> Record(s) in log
  {
    if log != [] {
      StepsMembers(log[..|log| - 1]);
      assert log == log[..|log| - 1] + [log[|log| - 1]];
    }
  }

  lemma RoundSteps(plan: Plan, round: nat, r: RoundLog, complete: bool)
    requires ValidPlan(plan) && Interleaved(plan, round, r, complete)
    ensures forall s :: s in StepsOf(r.log) ==> s.round == round && s.agent in plan.agents
  {
    hide Interleaved, ValidPlan;
    StepsMembers(r.log);
    forall s | s in StepsOf(r.log)
      ensures s.round == round && s.agent in plan.agents
    {
      RoundOwn(plan, round, r, complete, Record(s));
      assert Started(plan, round, r) by { IsStarted(plan, round, r, complete); }
    }
  }

  lemma IsStarted(plan: Plan, round: nat, r: RoundLog, complete: bool)
    requires ValidPlan(plan) && Interleaved(plan, round, r, complete)
    ensures Started(plan, round, r)
  {
  }

  lemma RunBefore(plan: Plan, rounds: seq<RoundLog>)
    requires ValidPlan(plan) && Run(plan, rounds) && rounds != []
    ensures Run(plan, rounds[..|rounds| - 1])
    ensures Interleaved(plan, |rounds|, rounds[|rounds| - 1], false)
    ensures Logs(rounds)[..|rounds| - 1] == Logs(rounds[..|rounds| - 1])
  {
    hide WorkerActions, ValidPlan, Started;
    var before := rounds[..|rounds| - 1];
    forall i | 0 <= i < |before|
      ensures Interleaved(plan, i + 1, before[i], i < |before| - 1)
    {
      assert Interleaved(plan, i + 1, rounds[i], true);
    }
    assert Interleaved(plan, |rounds|, rounds[|rounds| - 1], false);
  }

  lemma ReportStep(plan: Plan, rounds: seq<RoundLog>, loop: bool)
    requires ValidPlan(plan) && Run(plan, rounds) && rounds != []
    ensures ReportAt(plan, rounds, loop) ==
      ApplyAll(RoundStart(ReportAt(plan, rounds[..|rounds| - 1], loop), |rounds|, loop), rounds[|rounds| - 1].log)
  {
    hide Run, ValidPlan, ApplyAll, RoundStart;
    RunBefore(plan, rounds);
  }

  // ---------------------------------------------------------------- steps, in the order of their rounds

  predicate Ordered(steps: seq<StepReport>) {
    forall i, j :: 0 <= i < j < |steps| ==> steps[i].round <= steps[j].round
  }

  lemma {:induction false} KeptSteps(steps: seq<StepReport>, round: nat)
    ensures forall s :: s in KeepSteps(steps, round) <==> s in steps && s.round >= round
  {
    if steps != [] {
      KeptSteps(steps[..|steps| - 1], round);
      assert steps == steps[..|steps| - 1] + [steps[|steps| - 1]];
    }
  }

  lemma {:induction false} KeptInOrder(steps: seq<StepReport>, round: nat)
    requires Ordered(steps)
    ensures Ordered(KeepSteps(steps, round))
  {
    hide Ordered;
    if steps != [] {
      var front, last := steps[..|steps| - 1], steps[|steps| - 1];
      assert steps == front + [last];
      FrontInOrder(front, last);
      KeptInOrder(front, round);
      KeptSteps(front, round);
      KeptOrdered(front, last, round);
      if last.round < round {
        assert KeepSteps(steps, round) == KeepSteps(front, round);
      }
    } else {
      NothingOrdered();
    }
  }

  lemma FrontInOrder(front: seq<StepReport>, last: StepReport)
    requires Ordered(front + [last])
    ensures Ordered(front)
  {
    var steps := front + [last];
    forall i, j | 0 <= i < j < |front|
      ensures front[i].round <= front[j].round
    {
      assert steps[i].round <= steps[j].round;
    }
  }

  lemma KeptOrdered(front: seq<StepReport>, last: StepReport, round: nat)
    requires Ordered(front + [last]) && Ordered(KeepSteps(front, round))
    requires forall s :: s in KeepSteps(front, round) ==> s in front
    ensures Ordered(KeepSteps(front, round) + [last])
  {
    hide KeepSteps;
    var steps := front + [last];
    forall s | s in front
      ensures s.round <= last.round
    {
      var i :| 0 <= i < |front| && front[i] == s;
      assert steps[i].round <= steps[|front|].round;
    }
    var kept := KeepSteps(front, round);
    forall i | 0 <= i < |kept|
      ensures kept[i].round <= last.round
    {
      assert kept[i] in kept;
    }
  }

  lemma {:induction false} FrontOrdered(steps: seq<StepReport>, more: seq<StepReport>, n: nat)
    requires Ordered(steps) && (forall s :: s in steps ==> s.round <= n) && (forall s :: s in more ==> s.round == n)
    ensures Ordered(steps + more) && forall s :: s in steps + more ==> s.round <= n
  {
    var all := steps + more;
    forall i, j | 0 <= i < j < |all|
      ensures all[i].round <= all[j].round
    {
      if j < |steps| {
      } else {
        assert all[j] in more;
        assert i < |steps| ==> all[i] in steps;
        assert i >= |steps| ==> all[i] in more;
      }
    }
  }

  /** At every moment of a run its steps stand in the order of their rounds: the barrier holds. */
  lemma {:induction false} StepsInRoundOrder(plan: Plan, rounds: seq<RoundLog>, loop: bool)
    requires ValidPlan(plan) && Run(plan, rounds)
    ensures Ordered(ReportAt(plan, rounds, loop).steps)
    ensures forall s :: s in ReportAt(plan, rounds, loop).steps ==> 1 <= s.round <= |rounds| && s.agent in plan.agents
  {
    hide Run, ValidPlan, ApplyAll, KeepSteps, Ordered, StepsOf, Interleaved;
    if rounds == [] {
      NothingOrdered();
    } else {
      var n := |rounds|;
      var before := ReportAt(plan, rounds[..n - 1], loop);
      RunBefore(plan, rounds);
      StepsInRoundOrder(plan, rounds[..n - 1], loop);
      ReportStep(plan, rounds, loop);
      KeptSteps(before.steps, n - 1);
      KeptInOrder(before.steps, n - 1);
      var v := RoundStart(before, n, loop);
      ApplyAllIs(v, rounds[n - 1].log);
      RoundSteps(plan, n, rounds[n - 1], false);
      FrontOrdered(v.steps, StepsOf(rounds[n - 1].log), n);
    }
  }

  lemma NothingOrdered()
    ensures Ordered([])
  {
  }

  // ---------------------------------------------------------------- totals

  lemma {:induction false} TalliesConcat(a: seq<Action>, b: seq<Action>)
    ensures Tallies(a + b) == Sum(Tallies(a), Tallies(b))
  {
    if b == [] {
      assert a + b == a;
      NothingTallied();
    } else {
      hide Tallies, Sum, Counted;
      var front, x := b[..|b| - 1], b[|b| - 1];
      TalliesConcat(a, front);
      assert a + b == (a + front) + [x] && b == front + [x];
      TalliesSnoc(a + front, x);
      TalliesSnoc(front, x);
      if x.Record? {
        CountedSum(Tallies(a), Tallies(front), x.report.outcome);
      }
    }
  }

  lemma {:induction false} BearingConcat(a: seq<Action>, b: seq<Action>)
    ensures Bearing(a + b) == Bearing(a) + Bearing(b)
  {
    if b == [] {
      assert a + b == a;
    } else {
      var front := b[..|b| - 1];
      BearingConcat(a, front);
      assert (a + b)[..|a + b| - 1] == a + front;
    }
  }

  lemma {:induction false} ProblemsConcat(a: seq<Action>, b: seq<Action>)
    ensures ProblemsOf(a + b) == ProblemsOf(a) + ProblemsOf(b)
  {
    if b == [] {
      assert a + b == a;
    } else {
      var front := b[..|b| - 1];
      ProblemsConcat(a, front);
      assert (a + b)[..|a + b| - 1] == a + front;
    }
  }

  /**
   Totals.  At every moment of a run the counts are the tallies of every step ever reported,
   evicted or not; the outcome is the join of all their outcomes, and Fail once a problem was
   raised; and every problem raised is either still listed or counted as evicted.
   */
  lemma {:induction false} TotalsAreTallies(plan: Plan, rounds: seq<RoundLog>, loop: bool)
    requires ValidPlan(plan) && Run(plan, rounds)
    ensures var v := ReportAt(plan, rounds, loop);
      && v.counts == Tallies(History(rounds))
      && v.outcome == Join(Bearing(History(rounds)))
      && |v.problems| + v.evictedProblems == |ProblemsOf(History(rounds))|
      && v.state == Running
  {
    hide Run, ValidPlan, ApplyAll, Tallies, Sum, Join, Combine, Interleaved;
    if rounds == [] {
      NothingTallied();
      assert Join([]) == Pass by { NothingJoined(); }
    } else {
      var n := |rounds|;
      var past, log := History(rounds[..n - 1]), rounds[n - 1].log;
      RunBefore(plan, rounds);
      TotalsAreTallies(plan, rounds[..n - 1], loop);
      ReportStep(plan, rounds, loop);
      ApplyAllIs(RoundStart(ReportAt(plan, rounds[..n - 1], loop), n, loop), log);
      TalliesConcat(past, log);
      BearingConcat(past, log);
      ProblemsConcat(past, log);
      JoinConcat(Bearing(past), Bearing(log));
    }
  }

  lemma NothingJoined()
    ensures Join([]) == Pass
  {
  }

  lemma {:induction false} ProblemsBear(log: seq<Action>)
    ensures ProblemsOf(log) != [] ==> Fail in Bearing(log)
    ensures forall a :: a in log && a.Record? ==> a.report.outcome in Bearing(log)
  {
    if log != [] {
      ProblemsBear(log[..|log| - 1]);
      assert log == log[..|log| - 1] + [log[|log| - 1]];
    }
  }

  predicate OnlyDelivery(log: seq<Action>) {
    forall a :: a in log ==> a.Problem? && a.kind == Delivery
  }

  lemma {:induction false} DeliveryBears(log: seq<Action>)
    requires OnlyDelivery(log)
    ensures Join(Bearing(log)) == if log == [] then Pass else Fail
    ensures |ProblemsOf(log)| == |log|
  {
    hide Join, Combine;
    if log == [] {
      NothingJoined();
    } else {
      var front, a := log[..|log| - 1], log[|log| - 1];
      assert a in log;
      DeliveryBears(front);
      JoinAppend(Bearing(front), Fail);
      CombineAssociates(Join(Bearing(front)), Fail, Fail);
    }
  }

  lemma {:induction false} DeliveryTallies(log: seq<Action>)
    requires OnlyDelivery(log)
    ensures Tallies(log) == NONE
  {
    hide Tallies;
    NothingTallied();
    if log != [] {
      var front, a := log[..|log| - 1], log[|log| - 1];
      assert a in log && log == front + [a];
      DeliveryTallies(front);
      TalliesSnoc(front, a);
    }
  }

  /**
   The final outcome is the join of every step outcome of the run, with Canceled if it was
   stopped and Fail if a problem was ever raised, whether or not it was evicted since.  The
   final state speaks of the problems still listed.
   */
  lemma FinalOutcome(plan: Plan, rounds: seq<RoundLog>, loop: bool, stopped: bool, late: seq<Action>)
    requires ValidPlan(plan) && Run(plan, rounds) && OnlyDelivery(late)
    ensures var end := Conclude(ReportAt(plan, rounds, loop), stopped, late);
      var all := Bearing(History(rounds)) + (if stopped then [Canceled] else []) + Bearing(late);
      && end.outcome == Join(all)
      && (ProblemsOf(History(rounds)) != [] || late != [] ==> end.outcome == Fail)
      && end.counts == Tallies(History(rounds))
      && |end.problems| + end.evictedProblems == |ProblemsOf(History(rounds))| + |late|
      && (end.state == Failed <==> end.problems != [])
      && (end.state == Stopped <==> stopped && end.problems == [])
  {
    hide Run, ValidPlan, ApplyAll, Tallies, Sum, Join, Bearing, ReportAt;
    TotalsAreTallies(plan, rounds, loop);
    var v := ReportAt(plan, rounds, loop);
    var past := Bearing(History(rounds));
    var ended := v.(state := if stopped then Stopped else Completed, outcome := if stopped then Combine(v.outcome, Canceled) else v.outcome);
    ApplyAllIs(ended, late);
    DeliveryBears(late);
    DeliveryTallies(late);
    ProblemsBear(History(rounds));
    JoinIsWorst(past);
    if stopped {
      JoinAppend(past, Canceled);
    } else {
      assert past + [] == past;
    }
    JoinConcat(past + (if stopped then [Canceled] else []), Bearing(late));
    assert ApplyAll(ended, late).outcome == Join(past + (if stopped then [Canceled] else []) + Bearing(late));
    assert Sum(v.counts, NONE) == v.counts by { SumNone(v.counts); }
    if ApplyAll(ended, late).problems != [] {
      assert late != [] || ProblemsOf(History(rounds)) != [];
    }
  }

  lemma SumNone(c: Counts)
    ensures Sum(c, NONE) == c
  {
  }

  // ---------------------------------------------------------------- agents

  /** What an agent's progress says: of the round it last showed progress in, everything and nothing else. */
  predicate TellsRound(p: AgentProgress, round: nat, own: seq<Action>) {
    p.round == round && p.outcome == Join(Shown(own)) && p.counts == Tallies(own)
  }

  predicate AgentTells(plan: Plan, v: ReportView, rounds: seq<RoundLog>, i: nat)
    requires i < |plan.agents| == |v.agents|
  {
    var n := |rounds|;
    && v.agents[i].agent == plan.agents[i] && v.agents[i].round <= n
    && (n > 0 ==>
          var own := Project(rounds[n - 1].log, Some(plan.agents[i]));
          if own != [] then TellsRound(v.agents[i], n, own) else v.agents[i].round < n)
  }

  /**
   At every moment of a run an agent's counts and outcome are those of its own actions in the
   current round, from its first one on.
   */
  lemma {:induction false} AgentsAreTallies(plan: Plan, rounds: seq<RoundLog>, loop: bool, i: nat)
    requires ValidPlan(plan) && Run(plan, rounds) && i < |plan.agents|
    ensures |ReportAt(plan, rounds, loop).agents| == |plan.agents|
    ensures AgentTells(plan, ReportAt(plan, rounds, loop), rounds, i)
  {
    hide Run, ValidPlan, ApplyAll, Join, Tallies, Shown, Interleaved, AgentAfter, Project;
    if rounds != [] {
      var n := |rounds|;
      var r := rounds[n - 1];
      var agent := plan.agents[i];
      RunBefore(plan, rounds);
      AgentsAreTallies(plan, rounds[..n - 1], loop, i);
      ReportStep(plan, rounds, loop);
      var v := RoundStart(ReportAt(plan, rounds[..n - 1], loop), n, loop);
      var p := v.agents[i];
      AgentsApart(v, r.log, i);
      AgentSeesOwn(p, r.log);
      var own := Project(r.log, Some(agent));
      AgentInRound(plan, n, r, i, p);
    }
  }

  lemma AgentInRound(plan: Plan, n: nat, r: RoundLog, i: nat, p: AgentProgress)
    requires ValidPlan(plan) && Interleaved(plan, n, r, false) && i < |plan.agents|
    requires p.agent == plan.agents[i] && p.round < n
    ensures var own := Project(r.log, Some(plan.agents[i]));
      if own == [] then AgentAfter(p, own) == p else TellsRound(AgentAfter(p, own), n, own)
  {
    hide WorkerActions, ValidPlan, Join, Tallies, Own, Shown;
    var own := Project(r.log, Some(plan.agents[i]));
    var w := r.workers[i];
    WorkerOwns(plan, w, r.clocks[i]);
    var all := WorkerActions(plan, w, r.clocks[i]);
    assert own <= all;
    if own != [] {
      assert own[0] == all[0];
      forall a | a in own
        ensures Own(w, a)
      {
        assert a in all;
      }
      ProgressTally(p, w, own);
    }
  }

  // ---------------------------------------------------------------- retention

  /** The attempts in the reports of some steps. */
  function AttemptsIn(steps: seq<StepReport>): nat {
    if steps == [] then 0 else AttemptsIn(steps[..|steps| - 1]) + |steps[|steps| - 1].attempts|
  }

  lemma {:induction false} AttemptsConcat(a: seq<StepReport>, b: seq<StepReport>)
    ensures AttemptsIn(a + b) == AttemptsIn(a) + AttemptsIn(b)
  {
    if b == [] {
      assert a + b == a;
    } else {
      AttemptsConcat(a, b[..|b| - 1]);
      assert (a + b)[..|a + b| - 1] == a + b[..|b| - 1];
    }
  }

  lemma {:induction false} AttemptsAreLoad(log: seq<Action>)
    ensures AttemptsIn(StepsOf(log)) == Load(log, false)
  {
    if log != [] {
      var front, a := log[..|log| - 1], log[|log| - 1];
      AttemptsAreLoad(front);
      if a.Record? {
        assert (StepsOf(front) + [a.report])[..|StepsOf(front)|] == StepsOf(front);
      } else {
        assert StepsOf(log) == StepsOf(front);
      }
    }
  }

  /** The load of a log, added up agent by agent. */
  function LoadBy(log: seq<Action>, agents: seq<string>, ops: bool): nat {
    if agents == [] then 0
    else LoadBy(log, agents[..|agents| - 1], ops) + Load(Project(log, Some(agents[|agents| - 1])), ops)
  }

  lemma ProjectLoadSnoc(log: seq<Action>, a: Action, agent: string, ops: bool)
    ensures Load(Project(log + [a], Some(agent)), ops) ==
      Load(Project(log, Some(agent)), ops) + if SourceOf(a) == Some(agent) then Weight(a, ops) else 0
  {
    hide Weight, SourceOf;
    assert (log + [a])[..|log|] == log;
    var own := Project(log, Some(agent));
    assert (own + [a])[..|own|] == own;
    assert own + [] == own;
  }

  lemma {:induction false} LoadBySnoc(log: seq<Action>, a: Action, agents: seq<string>, ops: bool)
    requires Distinct(agents)
    ensures LoadBy(log + [a], agents, ops) ==
      LoadBy(log, agents, ops) + if SourceOf(a).Some? && SourceOf(a).value in agents then Weight(a, ops) else 0
  {
    hide Weight, SourceOf, Load, Project;
    if agents != [] {
      var n := |agents| - 1;
      LoadBySnoc(log, a, agents[..n], ops);
      ProjectLoadSnoc(log, a, agents[n], ops);
      assert agents == agents[..n] + [agents[n]];
      assert agents[n] !in agents[..n];
    }
  }

  lemma {:induction false} LoadByNone(agents: seq<string>, ops: bool)
    ensures LoadBy([], agents, ops) == 0
  {
    if agents != [] {
      LoadByNone(agents[..|agents| - 1], ops);
    }
  }

  lemma {:induction false} LoadIsByAgent(log: seq<Action>, agents: seq<string>, ops: bool)
    requires Distinct(agents) && forall a :: a in log && SourceOf(a).Some? ==> SourceOf(a).value in agents
    ensures Load(log, ops) == LoadBy(log, agents, ops)
  {
    hide LoadBy, Distinct;
    if log == [] {
      LoadByNone(agents, ops);
    } else {
      var front, a := log[..|log| - 1], log[|log| - 1];
      LoadIsByAgent(front, agents, ops);
      assert log == front + [a];
      LoadBySnoc(front, a, agents, ops);
    }
  }

  lemma PrefixLoad(part: seq<Action>, whole: seq<Action>, ops: bool)
    requires part <= whole
    ensures Load(part, ops) <= Load(whole, ops)
  {
    LoadConcat(part, whole[|part|..], ops);
    assert part + whole[|part|..] == whole;
  }

  lemma {:induction false} AgentsWithin(plan: Plan, r: RoundLog, n: nat, ops: bool)
    requires ValidPlan(plan) && |r.workers| == |plan.agents| == |r.clocks| && n <= |plan.agents|
    requires forall i :: 0 <= i < |plan.agents| ==>
      Project(r.log, Some(plan.agents[i])) <= WorkerActions(plan, r.workers[i], r.clocks[i])
    ensures LoadBy(r.log, plan.agents[..n], ops) <= WorkersLoad(plan, r.workers[..n], r.clocks[..n], ops)
  {
    hide WorkerActions, Load, ValidPlan, Project;
    if n > 0 {
      AgentsWithin(plan, r, n - 1, ops);
      PrefixLoad(Project(r.log, Some(plan.agents[n - 1])), WorkerActions(plan, r.workers[n - 1], r.clocks[n - 1]), ops);
      assert plan.agents[..n][..n - 1] == plan.agents[..n - 1];
      assert r.workers[..n][..n - 1] == r.workers[..n - 1] && r.clocks[..n][..n - 1] == r.clocks[..n - 1];
    }
  }

  /** In whatever order the workers of a round act, and however far they have come, the round stays within its price. */
  lemma RoundWithinPrice(plan: Plan, round: nat, r: RoundLog, complete: bool, ops: bool)
    requires ValidPlan(plan) && Distinct(plan.agents) && Interleaved(plan, round, r, complete)
    ensures Load(r.log, ops) <= PlanLoad(plan.targets, ops)
  {
    hide WorkerActions, Load, ValidTargets, PlanAttempts, PlanOperations, LoadBy, WorkersLoad, Distinct;
    LoadIsByAgent(r.log, plan.agents, ops);
    AgentsWithin(plan, r, |plan.agents|, ops);
    var n := |plan.agents|;
    assert plan.agents[..n] == plan.agents && r.workers[..n] == r.workers && r.clocks[..n] == r.clocks;
    CostIsSound(plan, r.workers, r.clocks);
  }

  lemma {:induction false} KeepConcat(a: seq<StepReport>, b: seq<StepReport>, round: nat)
    ensures KeepSteps(a + b, round) == KeepSteps(a, round) + KeepSteps(b, round)
  {
    if b == [] {
      assert a + b == a;
    } else {
      KeepConcat(a, b[..|b| - 1], round);
      assert (a + b)[..|a + b| - 1] == a + b[..|b| - 1];
    }
  }

  lemma {:induction false} KeepUniform(steps: seq<StepReport>, of: nat, round: nat)
    requires forall s :: s in steps ==> s.round == of
    ensures KeepSteps(steps, round) == if of < round then [] else steps
  {
    if steps != [] {
      var front, last := steps[..|steps| - 1], steps[|steps| - 1];
      assert last in steps && forall s :: s in front ==> s in steps;
      KeepUniform(front, of, round);
      assert steps == front + [last];
    }
  }

  function StepsOfRound(rounds: seq<RoundLog>, n: int): seq<StepReport> {
    if 1 <= n <= |rounds| then StepsOf(rounds[n - 1].log) else []
  }

  /** A loop retains the steps of its last two rounds, all of them and nothing else. */
  lemma {:induction false} LoopRetains(plan: Plan, rounds: seq<RoundLog>)
    requires ValidPlan(plan) && Run(plan, rounds)
    ensures var v := ReportAt(plan, rounds, true);
      && v.steps == StepsOfRound(rounds, |rounds| - 1) + StepsOfRound(rounds, |rounds|)
      && v.evictedRounds == if |rounds| >= 3 then |rounds| - 2 else 0
  {
    hide Run, ValidPlan, ApplyAll, KeepSteps, StepsOf, Interleaved, Totals;
    if rounds != [] {
      var n := |rounds|;
      var before := rounds[..n - 1];
      RunBefore(plan, rounds);
      LoopRetains(plan, before);
      ReportStep(plan, rounds, true);
      ApplyAllIs(RoundStart(ReportAt(plan, before, true), n, true), rounds[n - 1].log);
      if n >= 2 {
        RunBefore(plan, before);
        RoundSteps(plan, n - 1, before[n - 2], false);
      }
      if n >= 3 {
        var older := StepsOfRound(rounds, n - 2);
        assert Run(plan, before[..n - 2]);
        if n >= 3 {
          RunBefore(plan, before[..n - 2]);
          RoundSteps(plan, n - 2, before[..n - 2][n - 3], false);
        }
        var last := StepsOfRound(rounds, n - 1);
        KeepConcat(older, last, n - 1);
        KeepUniform(older, n - 2, n - 1);
        KeepUniform(last, n - 1, n - 1);
      }
    }
  }

  lemma {:induction false} FiniteRetains(plan: Plan, rounds: seq<RoundLog>)
    requires ValidPlan(plan) && Run(plan, rounds)
    ensures var v := ReportAt(plan, rounds, false);
      && v.steps == StepsOf(History(rounds)) && v.evictedRounds == 0 && v.evictedProblems == 0
  {
    hide Run, ValidPlan, ApplyAll, Interleaved, Totals;
    if rounds != [] {
      var n := |rounds|;
      RunBefore(plan, rounds);
      FiniteRetains(plan, rounds[..n - 1]);
      ReportStep(plan, rounds, false);
      ApplyAllIs(ReportAt(plan, rounds[..n - 1], false), rounds[n - 1].log);
      StepsConcat(History(rounds[..n - 1]), rounds[n - 1].log);
    }
  }

  lemma {:induction false} StepsConcat(a: seq<Action>, b: seq<Action>)
    ensures StepsOf(a + b) == StepsOf(a) + StepsOf(b)
  {
    if b == [] {
      assert a + b == a;
    } else {
      StepsConcat(a, b[..|b| - 1]);
      assert (a + b)[..|a + b| - 1] == a + b[..|b| - 1];
    }
  }

  /** A whole run stays within as many times the price of a round as it has rounds. */
  lemma {:induction false} HistoryWithinPrice(plan: Plan, rounds: seq<RoundLog>, ops: bool)
    requires ValidPlan(plan) && Distinct(plan.agents) && Run(plan, rounds)
    ensures Load(History(rounds), ops) <= |rounds| * PlanLoad(plan.targets, ops)
  {
    hide Run, ValidTargets, Load, Interleaved, PlanLoad, Distinct;
    if rounds == [] {
      LoadOne(Progress("", 0, Pass), ops);
    } else {
      var n := |rounds|;
      RunBefore(plan, rounds);
      HistoryWithinPrice(plan, rounds[..n - 1], ops);
      RoundWithinPrice(plan, n, rounds[n - 1], false, ops);
      LoadConcat(History(rounds[..n - 1]), rounds[n - 1].log, ops);
      OneMoreRound(n - 1, PlanLoad(plan.targets, ops));
    }
  }

  lemma OneMoreRound(n: nat, x: nat)
    ensures (n + 1) * x == n * x + x
  {
  }

  /** A finite run that its price admits never retains more attempts than the report is made for. */
  lemma FiniteRetentionBounded(plan: Plan, rounds: seq<RoundLog>, limit: uint64)
    requires ValidPlan(plan) && Distinct(plan.agents) && Run(plan, rounds)
    requires Affordable(plan, limit, false) && |rounds| <= limit
    ensures AttemptsIn(ReportAt(plan, rounds, false).steps) <= 200_000
  {
    hide Run, ValidTargets, Load, PlanAttempts, Distinct, ReportAt, AttemptsIn;
    FiniteRetains(plan, rounds);
    AttemptsAreLoad(History(rounds));
    HistoryWithinPrice(plan, rounds, false);
    assert PlanLoad(plan.targets, false) == PlanAttempts(plan.targets);
    var a := PlanAttempts(plan.targets);
    var most := if a >= 1 then a else 1;
    ScaleUp(|rounds|, limit, a);
    assert limit * a <= limit * most by {
      ScaleUp(a, most, limit);
      assert limit * a == a * limit && limit * most == most * limit;
    }
  }

  lemma StepsOfRoundBounded(plan: Plan, rounds: seq<RoundLog>, n: int)
    requires ValidPlan(plan) && Distinct(plan.agents) && Run(plan, rounds)
    ensures AttemptsIn(StepsOfRound(rounds, n)) <= PlanAttempts(plan.targets)
  {
    hide ValidTargets, Load, PlanAttempts, Distinct, AttemptsIn, StepsOf, Interleaved;
    assert AttemptsIn([]) == 0 by { NoAttempts(); }
    if 1 <= n <= |rounds| {
      RoundWithinPrice(plan, n, rounds[n - 1], n - 1 < |rounds| - 1, false);
      AttemptsAreLoad(rounds[n - 1].log);
    }
  }

  lemma NoAttempts()
    ensures AttemptsIn([]) == 0
  {
  }

  lemma {:induction false} KeptProblems(problems: seq<ProblemRecord>, round: nat)
    ensures forall p :: p in KeepProblems(problems, round) <==> p in problems && !Evictable(p, round)
  {
    if problems != [] {
      KeptProblems(problems[..|problems| - 1], round);
      assert problems == problems[..|problems| - 1] + [problems[|problems| - 1]];
    }
  }

  lemma {:induction false} WorkerProblems(log: seq<Action>, p: ProblemRecord)
    requires p in ProblemsOf(log)
    ensures Problem(p.agent, p.round, p.kind) in log
  {
    var front := log[..|log| - 1];
    if p in ProblemsOf(front) {
      WorkerProblems(front, p);
    }
  }

  lemma StepsOfRoundRounds(plan: Plan, rounds: seq<RoundLog>, n: int)
    requires ValidPlan(plan) && Run(plan, rounds)
    ensures forall s :: s in StepsOfRound(rounds, n) ==> s.round == n
  {
    hide ValidPlan, StepsOf, Interleaved;
    if 1 <= n <= |rounds| {
      RoundSteps(plan, n, rounds[n - 1], n - 1 < |rounds| - 1);
    }
  }

  lemma RecentProblems(plan: Plan, rounds: seq<RoundLog>)
    requires ValidPlan(plan) && Run(plan, rounds)
    ensures forall p :: p in ReportAt(plan, rounds, true).problems && p.kind != Delivery ==> p.round == 0 || p.round >= |rounds| - 1
  {
    hide Run, ValidPlan, ApplyAll, Interleaved, Totals, ReportAt, ProblemsOf, WorkerActions;
    var n := |rounds|;
    if n >= 3 {
      var before := ReportAt(plan, rounds[..n - 1], true);
      var log := rounds[n - 1].log;
      RunBefore(plan, rounds);
      ReportStep(plan, rounds, true);
      ApplyAllIs(RoundStart(before, n, true), log);
      KeptProblems(before.problems, n - 1);
      forall p | p in ProblemsOf(log) && p.kind != Delivery
        ensures p.round == n
      {
        WorkerProblems(log, p);
        RoundOwn(plan, n, rounds[n - 1], false, Problem(p.agent, p.round, p.kind));
        IsStarted(plan, n, rounds[n - 1], false);
      }
    }
  }

  /**
   The report of a loop stays bounded however long it runs: at most two rounds' worth of
   attempts, of the last two rounds only; rounds and problems let go are counted exactly, and
   no listed problem is older unless it belongs to no round or to no worker.
   */
  lemma LoopRetentionBounded(plan: Plan, rounds: seq<RoundLog>)
    requires ValidPlan(plan) && Distinct(plan.agents) && Run(plan, rounds)
    ensures var v := ReportAt(plan, rounds, true);
      var n := |rounds|;
      && AttemptsIn(v.steps) <= 2 * PlanAttempts(plan.targets)
      && (forall s :: s in v.steps ==> n - 1 <= s.round <= n)
      && v.evictedRounds == (if n >= 3 then n - 2 else 0)
      && |v.problems| + v.evictedProblems == |ProblemsOf(History(rounds))|
      && (forall p :: p in v.problems && p.kind != Delivery ==> p.round == 0 || p.round >= n - 1)
  {
    hide Run, ValidTargets, PlanAttempts, Distinct, ReportAt, AttemptsIn, StepsOfRound, History;
    LoopRetains(plan, rounds);
    var n := |rounds|;
    AttemptsConcat(StepsOfRound(rounds, n - 1), StepsOfRound(rounds, n));
    StepsOfRoundBounded(plan, rounds, n - 1);
    StepsOfRoundBounded(plan, rounds, n);
    TotalsAreTallies(plan, rounds, true);
    StepsOfRoundRounds(plan, rounds, n - 1);
    StepsOfRoundRounds(plan, rounds, n);
    RecentProblems(plan, rounds);
  }
}
