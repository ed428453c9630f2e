/**
 The report does not depend on the schedule: two runs in which every worker does the same, in
 whatever orders their actions meet, end in reports that differ at most in the order of lists.
 */
module Schedules {
  import opened Outcomes
  import opened Plans
  import opened Rounds
  import opened Reports
  import opened Runs

  /** Two reports that agree but for the order of their lists. */
  predicate Alike(u: ReportView, v: ReportView) {
    && multiset(u.steps) == multiset(v.steps) && multiset(u.problems) == multiset(v.problems) && multiset(u.cleanup) == multiset(v.cleanup)
    && u.outcome == v.outcome && u.counts == v.counts && u.agents == v.agents
    && u.evictedRounds == v.evictedRounds && u.evictedProblems == v.evictedProblems && u.state == v.state
  }

  /** The same workers in the same worlds, complete, and the same delivery problems. */
  ghost predicate SameWork(plan: Plan, round: nat, r: RoundLog, s: RoundLog)
    requires ValidPlan(plan)
  {
    && Interleaved(plan, round, r, true) && Interleaved(plan, round, s, true)
    && r.workers == s.workers && r.clocks == s.clocks
    && multiset(Project(r.log, None)) == multiset(Project(s.log, None))
  }

  // ---------------------------------------------------------------- logs as multisets

  lemma {:induction false} MultiplicityInProjection(log: seq<Action>, a: Action)
    ensures multiset(log)[a] == multiset(Project(log, SourceOf(a)))[a]
  {
    hide SourceOf;
    if log != [] {
      var front, x := log[..|log| - 1], log[|log| - 1];
      MultiplicityInProjection(front, a);
      assert log == front + [x];
      var own := Project(front, SourceOf(a));
      if SourceOf(x) != SourceOf(a) {
        assert Project(log, SourceOf(a)) == own;
      }
    }
  }

  lemma SameActions(plan: Plan, round: nat, r: RoundLog, s: RoundLog)
    requires ValidPlan(plan) && SameWork(plan, round, r, s)
    ensures multiset(r.log) == multiset(s.log)
  {
    hide WorkerActions, Project, SourceOf, ValidPlan;
    forall a
      ensures multiset(r.log)[a] == multiset(s.log)[a]
    {
      MultiplicityInProjection(r.log, a);
      MultiplicityInProjection(s.log, a);
      if SourceOf(a).Some? {
        if SourceOf(a).value in plan.agents {
          var i :| 0 <= i < |plan.agents| && plan.agents[i] == SourceOf(a).value;
          assert Project(r.log, Some(plan.agents[i])) == Project(s.log, Some(plan.agents[i]));
        } else {
          assert a !in r.log && a !in s.log;
        }
      } else {
        assert SourceOf(a) == None;
      }
    }
  }

  lemma {:induction false} StepMultiplicity(log: seq<Action>, s: StepReport)
    ensures multiset(StepsOf(log))[s] == multiset(log)[Record(s)]
  {
    if log != [] {
      var front, a := log[..|log| - 1], log[|log| - 1];
      StepMultiplicity(front, s);
      assert log == front + [a];
      if a.Record? {
      } else {
        assert StepsOf(log) == StepsOf(front);
      }
    }
  }

  lemma {:induction false} ProblemMultiplicity(log: seq<Action>, p: ProblemRecord)
    ensures multiset(ProblemsOf(log))[p] == multiset(log)[Problem(p.agent, p.round, p.kind)]
  {
    if log != [] {
      var front, a := log[..|log| - 1], log[|log| - 1];
      ProblemMultiplicity(front, p);
      assert log == front + [a];
      if a.Problem? {
      } else {
        assert ProblemsOf(log) == ProblemsOf(front);
      }
    }
  }

  lemma {:induction false} CleanupMultiplicity(log: seq<Action>, c: CleanupPart)
    ensures multiset(CleanupOf(log))[c] == multiset(log)[Cleaned(c.agent, c.round, c.target, c.command)]
  {
    if log != [] {
      var front, a := log[..|log| - 1], log[|log| - 1];
      CleanupMultiplicity(front, c);
      assert log == front + [a];
      if a.Cleaned? {
      } else {
        assert CleanupOf(log) == CleanupOf(front);
      }
    }
  }

  lemma SameLists(a: seq<Action>, b: seq<Action>)
    requires multiset(a) == multiset(b)
    ensures multiset(StepsOf(a)) == multiset(StepsOf(b))
    ensures multiset(ProblemsOf(a)) == multiset(ProblemsOf(b))
    ensures multiset(CleanupOf(a)) == multiset(CleanupOf(b))
  {
    hide StepsOf, ProblemsOf, CleanupOf;
    forall s
      ensures multiset(StepsOf(a))[s] == multiset(StepsOf(b))[s]
    {
      StepMultiplicity(a, s);
      StepMultiplicity(b, s);
    }
    forall p
      ensures multiset(ProblemsOf(a))[p] == multiset(ProblemsOf(b))[p]
    {
      ProblemMultiplicity(a, p);
      ProblemMultiplicity(b, p);
    }
    forall c
      ensures multiset(CleanupOf(a))[c] == multiset(CleanupOf(b))[c]
    {
      CleanupMultiplicity(a, c);
      CleanupMultiplicity(b, c);
    }
  }

  lemma TakeOut(front: seq<Action>, x: Action, b: seq<Action>, i: nat)
    requires i < |b| && b[i] == x && multiset(front + [x]) == multiset(b)
    ensures multiset(front) == multiset(b[..i] + b[i + 1..])
  {
    assert b == b[..i] + [x] + b[i + 1..];
    assert multiset(b) == multiset(b[..i]) + multiset{x} + multiset(b[i + 1..]);
    assert multiset(front + [x]) == multiset(front) + multiset{x};
    assert multiset(b[..i] + b[i + 1..]) == multiset(b[..i]) + multiset(b[i + 1..]);
    var rest := multiset(b[..i]) + multiset(b[i + 1..]);
    forall a
      ensures multiset(front)[a] == rest[a]
    {
      assert (multiset(front) + multiset{x})[a] == (rest + multiset{x})[a];
    }
  }

  lemma {:induction false} SameTallies(a: seq<Action>, b: seq<Action>)
    requires multiset(a) == multiset(b)
    ensures Tallies(a) == Tallies(b)
  {
    hide Tallies, Counted, Sum;
    assert |a| == |multiset(a)| == |multiset(b)| == |b|;
    if a != [] {
      var front, x := a[..|a| - 1], a[|a| - 1];
      assert a == front + [x];
      assert x in multiset(b);
      var i :| 0 <= i < |b| && b[i] == x;
      TakeOut(front, x, b, i);
      SameTallies(front, b[..i] + b[i + 1..]);
      TalliesSnoc(front, x);
      TalliesMiddle(b, i);
    }
  }

  lemma TalliesMiddle(b: seq<Action>, i: nat)
    requires i < |b|
    ensures Tallies(b) == if b[i].Record? then Counted(Tallies(b[..i] + b[i + 1..]), b[i].report.outcome) else Tallies(b[..i] + b[i + 1..])
  {
    hide Tallies;
    assert b == (b[..i] + [b[i]]) + b[i + 1..];
    TalliesConcat(b[..i] + [b[i]], b[i + 1..]);
    TalliesConcat(b[..i], b[i + 1..]);
    TalliesSnoc(b[..i], b[i]);
  }

  lemma {:induction false} BearingMembers(log: seq<Action>)
    ensures forall o :: o in Bearing(log) <==>
      (exists a :: a in log && a.Record? && a.report.outcome == o) || (o == Fail && exists a :: a in log && a.Problem?)
  {
    if log != [] {
      BearingMembers(log[..|log| - 1]);
      assert log == log[..|log| - 1] + [log[|log| - 1]];
    }
  }

  lemma SameVerdict(a: seq<Action>, b: seq<Action>)
    requires multiset(a) == multiset(b)
    ensures Join(Bearing(a)) == Join(Bearing(b))
  {
    hide Bearing, Join;
    BearingMembers(a);
    BearingMembers(b);
    forall x
      ensures x in a <==> x in b
    {
      assert x in a <==> x in multiset(a);
      assert x in b <==> x in multiset(b);
    }
    JoinIgnoresOrder(Bearing(a), Bearing(b));
  }

  // ---------------------------------------------------------------- eviction

  lemma {:induction false} KeptStepMultiplicity(steps: seq<StepReport>, round: nat, s: StepReport)
    ensures multiset(KeepSteps(steps, round))[s] == if s.round < round then 0 else multiset(steps)[s]
  {
    if steps != [] {
      var front, last := steps[..|steps| - 1], steps[|steps| - 1];
      KeptStepMultiplicity(front, round, s);
      assert steps == front + [last];
      if last.round < round {
        assert KeepSteps(steps, round) == KeepSteps(front, round);
      }
    }
  }

  lemma {:induction false} KeptProblemMultiplicity(problems: seq<ProblemRecord>, round: nat, p: ProblemRecord)
    ensures multiset(KeepProblems(problems, round))[p] == if Evictable(p, round) then 0 else multiset(problems)[p]
  {
    if problems != [] {
      var front, last := problems[..|problems| - 1], problems[|problems| - 1];
      KeptProblemMultiplicity(front, round, p);
      assert problems == front + [last];
      if Evictable(last, round) {
        assert KeepProblems(problems, round) == KeepProblems(front, round);
      }
    }
  }

  lemma {:induction false} KeptCleanupMultiplicity(parts: seq<CleanupPart>, round: nat, c: CleanupPart)
    ensures multiset(KeepCleanup(parts, round))[c] == if c.round < round then 0 else multiset(parts)[c]
  {
    if parts != [] {
      var front, last := parts[..|parts| - 1], parts[|parts| - 1];
      KeptCleanupMultiplicity(front, round, c);
      assert parts == front + [last];
      if last.round < round {
        assert KeepCleanup(parts, round) == KeepCleanup(front, round);
      }
    }
  }

  lemma EvictAlike(u: ReportView, v: ReportView, round: nat)
    requires Alike(u, v) && round >= 1
    ensures Alike(Evict(u, round), Evict(v, round))
  {
    hide KeepSteps, KeepCleanup, KeepProblems;
    forall s
      ensures multiset(KeepSteps(u.steps, round))[s] == multiset(KeepSteps(v.steps, round))[s]
    {
      KeptStepMultiplicity(u.steps, round, s);
      KeptStepMultiplicity(v.steps, round, s);
    }
    forall p
      ensures multiset(KeepProblems(u.problems, round))[p] == multiset(KeepProblems(v.problems, round))[p]
    {
      KeptProblemMultiplicity(u.problems, round, p);
      KeptProblemMultiplicity(v.problems, round, p);
    }
    forall c
      ensures multiset(KeepCleanup(u.cleanup, round))[c] == multiset(KeepCleanup(v.cleanup, round))[c]
    {
      KeptCleanupMultiplicity(u.cleanup, round, c);
      KeptCleanupMultiplicity(v.cleanup, round, c);
    }
    SameLength(u.problems, v.problems);
    SameLength(KeepProblems(u.problems, round), KeepProblems(v.problems, round));
  }

  lemma SameLength<T>(a: seq<T>, b: seq<T>)
    requires multiset(a) == multiset(b)
    ensures |a| == |b|
  {
    assert |a| == |multiset(a)| && |b| == |multiset(b)|;
  }

  // ---------------------------------------------------------------- rounds

  lemma AgentsAlike(plan: Plan, round: nat, r: RoundLog, s: RoundLog, u: ReportView, v: ReportView)
    requires ValidPlan(plan) && SameWork(plan, round, r, s) && u.agents == v.agents
    requires |u.agents| == |plan.agents| && forall i :: 0 <= i < |plan.agents| ==> u.agents[i].agent == plan.agents[i]
    ensures ApplyAll(u, r.log).agents == ApplyAll(v, s.log).agents
    ensures |ApplyAll(u, r.log).agents| == |plan.agents|
    ensures forall i :: 0 <= i < |plan.agents| ==> ApplyAll(u, r.log).agents[i].agent == plan.agents[i]
  {
    hide WorkerActions, ApplyAll, Project, AgentAfter, ValidPlan;
    AgentCount(u, r.log);
    AgentCount(v, s.log);
    forall i | 0 <= i < |plan.agents|
      ensures ApplyAll(u, r.log).agents[i] == ApplyAll(v, s.log).agents[i]
      ensures ApplyAll(u, r.log).agents[i].agent == plan.agents[i]
    {
      AgentsApart(u, r.log, i);
      AgentsApart(v, s.log, i);
      AgentSeesOwn(u.agents[i], r.log);
      AgentSeesOwn(v.agents[i], s.log);
      assert Project(r.log, Some(plan.agents[i])) == Project(s.log, Some(plan.agents[i]));
    }
  }

  lemma AgentCount(v: ReportView, log: seq<Action>)
    ensures |ApplyAll(v, log).agents| == |v.agents|
  {
    ApplyAllIs(v, log);
  }

  lemma RoundAlike(plan: Plan, round: nat, r: RoundLog, s: RoundLog, u: ReportView, v: ReportView)
    requires ValidPlan(plan) && SameWork(plan, round, r, s) && Alike(u, v)
    requires |u.agents| == |plan.agents| && forall i :: 0 <= i < |plan.agents| ==> u.agents[i].agent == plan.agents[i]
    ensures Alike(ApplyAll(u, r.log), ApplyAll(v, s.log))
    ensures |ApplyAll(u, r.log).agents| == |plan.agents|
    ensures forall i :: 0 <= i < |plan.agents| ==> ApplyAll(u, r.log).agents[i].agent == plan.agents[i]
  {
    hide SameWork, ApplyAll, StepsOf, ProblemsOf, CleanupOf, Tallies, Sum, Bearing, Join, Combine, ValidPlan;
    SameActions(plan, round, r, s);
    AgentsAlike(plan, round, r, s, u, v);
    SameLists(r.log, s.log);
    SameTallies(r.log, s.log);
    SameVerdict(r.log, s.log);
    ApplyAllIs(u, r.log);
    ApplyAllIs(v, s.log);
  }

  ghost predicate SameRuns(plan: Plan, a: seq<RoundLog>, b: seq<RoundLog>)
    requires ValidPlan(plan)
  {
    |a| == |b| && forall i :: 0 <= i < |a| ==> SameWork(plan, i + 1, a[i], b[i])
  }

  lemma {:induction false} RunsAlike(plan: Plan, a: seq<RoundLog>, b: seq<RoundLog>, loop: bool)
    requires ValidPlan(plan) && SameRuns(plan, a, b)
    ensures Alike(ReportAt(plan, a, loop), ReportAt(plan, b, loop))
    ensures var u := ReportAt(plan, a, loop);
      |u.agents| == |plan.agents| && forall i :: 0 <= i < |plan.agents| ==> u.agents[i].agent == plan.agents[i]
  {
    hide SameWork, ApplyAll, Alike, Evict, ValidPlan;
    if a == [] {
      SelfAlike(Opening(plan.agents));
    } else {
      var n := |a|;
      RunsAlike(plan, a[..n - 1], b[..n - 1], loop);
      var u, v := ReportAt(plan, a[..n - 1], loop), ReportAt(plan, b[..n - 1], loop);
      if loop && n > 2 {
        EvictAlike(u, v, n - 1);
        EvictKeepsAgents(u, n - 1);
      }
      assert SameWork(plan, n, a[n - 1], b[n - 1]);
      RoundAlike(plan, n, a[n - 1], b[n - 1], RoundStart(u, n, loop), RoundStart(v, n, loop));
      assert Logs(a)[..n - 1] == Logs(a[..n - 1]) && Logs(b)[..n - 1] == Logs(b[..n - 1]);
    }
  }

  lemma SelfAlike(v: ReportView)
    ensures Alike(v, v)
  {
  }

  lemma EvictKeepsAgents(v: ReportView, round: nat)
    requires round >= 1
    ensures Evict(v, round).agents == v.agents
  {
  }

  lemma LateAlike(u: ReportView, v: ReportView, a: seq<Action>, b: seq<Action>)
    requires Alike(u, v) && multiset(a) == multiset(b) && OnlyDelivery(a) && OnlyDelivery(b)
    ensures Alike(ApplyAll(u, a), ApplyAll(v, b))
  {
    hide ApplyAll, StepsOf, ProblemsOf, CleanupOf, Tallies, Sum, Bearing, Join, Combine, OnlyDelivery;
    SameLists(a, b);
    SameTallies(a, b);
    SameVerdict(a, b);
    ApplyAllIs(u, a);
    ApplyAllIs(v, b);
    LateKeepsAgents(u, a);
    LateKeepsAgents(v, b);
  }

  lemma {:induction false} LateKeepsAgents(v: ReportView, log: seq<Action>)
    requires OnlyDelivery(log)
    ensures ApplyAll(v, log).agents == v.agents
  {
    if log != [] {
      var front, a := log[..|log| - 1], log[|log| - 1];
      assert a in log;
      LateKeepsAgents(v, front);
      assert ApplyAll(v, log).agents == AgentSteps(v.agents, a);
    }
  }

  /**
   Schedule independence: with the same workers in the same worlds and the same delivery
   problems, two runs conclude with the same outcome, state, counts, agents and eviction
   figures, and with the same steps, problems and cleanup records up to their order.
   */
  lemma ReportIgnoresSchedule(
      plan: Plan, a: seq<RoundLog>, b: seq<RoundLog>, loop: bool, stopped: bool, late: seq<Action>, late': seq<Action>)
    requires ValidPlan(plan) && SameRuns(plan, a, b)
    requires OnlyDelivery(late) && OnlyDelivery(late') && multiset(late) == multiset(late')
    ensures Alike(Conclude(ReportAt(plan, a, loop), stopped, late), Conclude(ReportAt(plan, b, loop), stopped, late'))
  {
    hide SameRuns, ReportAt, ApplyAll, OnlyDelivery, ValidPlan;
    RunsAlike(plan, a, b, loop);
    var u, v := ReportAt(plan, a, loop), ReportAt(plan, b, loop);
    var state := if stopped then Stopped else Completed;
    var u' := u.(state := state, outcome := if stopped then Combine(u.outcome, Canceled) else u.outcome);
    var v' := v.(state := state, outcome := if stopped then Combine(v.outcome, Canceled) else v.outcome);
    LateAlike(u', v', late, late');
    SameLength(ApplyAll(u', late).problems, ApplyAll(v', late').problems);
  }
}
