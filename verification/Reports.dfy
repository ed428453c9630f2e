/**
 The report that a run builds (harness/execute.go: execute, record, problem, progress, cleanup,
 evictBefore).  Every action below is one section under the report's mutex.
 */
module Reports {
  import opened Outcomes
  import opened CheckLoop
  import opened Plans

  datatype Counts = Counts(passed: nat, failed: nat, missing: nat, skipped: nat, canceled: nat)

  const NONE := Counts(0, 0, 0, 0, 0)

  function Counted(c: Counts, o: Outcome): Counts {
    match o
    case Pass => c.(passed := c.passed + 1)
    case Fail => c.(failed := c.failed + 1)
    case Missing => c.(missing := c.missing + 1)
    case Skip => c.(skipped := c.skipped + 1)
    case Canceled => c.(canceled := c.canceled + 1)
  }

  datatype AgentProgress = AgentProgress(agent: string, round: nat, outcome: Outcome, counts: Counts)

  datatype ProblemRecord = ProblemRecord(kind: ProblemKind, agent: string, round: nat)

  datatype CleanupPart = CleanupPart(agent: string, round: nat, target: string, command: Command)

  datatype RunState = Running | Completed | Stopped | Failed

  datatype ReportView = ReportView(
    steps: seq<StepReport>, cleanup: seq<CleanupPart>, problems: seq<ProblemRecord>,
    outcome: Outcome, counts: Counts, agents: seq<AgentProgress>,
    evictedRounds: nat, evictedProblems: nat, state: RunState)

  // ---------------------------------------------------------------- actions on the report, as values

  /** What one action does to the progress of one agent. */
  function AgentStep(p: AgentProgress, a: Action): (q: AgentProgress)
    ensures q.agent == p.agent
  {
    match a
    case Record(r) =>
      if r.agent == p.agent then p.(counts := Counted(p.counts, r.outcome), outcome := Combine(p.outcome, r.outcome)) else p
    case Progress(agent, round, outcome) =>
      if agent != p.agent then p
      else if p.round != round then AgentProgress(agent, round, Combine(Pass, outcome), NONE)
      else p.(outcome := Combine(p.outcome, outcome))
    case _ => p
  }

  function AgentSteps(agents: seq<AgentProgress>, a: Action): (r: seq<AgentProgress>)
    ensures |r| == |agents|
    ensures forall i :: 0 <= i < |agents| ==> r[i] == AgentStep(agents[i], a)
  {
    seq(|agents|, i requires 0 <= i < |agents| => AgentStep(agents[i], a))
  }

  function Apply(v: ReportView, a: Action): ReportView {
    var v := v.(agents := AgentSteps(v.agents, a));
    match a
    case Record(r) => v.(steps := v.steps + [r], outcome := Combine(v.outcome, r.outcome), counts := Counted(v.counts, r.outcome))
    case Progress(_, _, _) => v
    case Problem(agent, round, kind) => v.(problems := v.problems + [ProblemRecord(kind, agent, round)], outcome := Fail)
    case Cleaned(agent, round, target, command) => v.(cleanup := v.cleanup + [CleanupPart(agent, round, target, command)])
  }

  function ApplyAll(v: ReportView, log: seq<Action>): ReportView {
    if log == [] then v else Apply(ApplyAll(v, log[..|log| - 1]), log[|log| - 1])
  }

  function KeepSteps(steps: seq<StepReport>, round: nat): seq<StepReport> {
    if steps == [] then []
    else KeepSteps(steps[..|steps| - 1], round) + if steps[|steps| - 1].round < round then [] else [steps[|steps| - 1]]
  }

  function KeepCleanup(parts: seq<CleanupPart>, round: nat): seq<CleanupPart> {
    if parts == [] then []
    else KeepCleanup(parts[..|parts| - 1], round) + if parts[|parts| - 1].round < round then [] else [parts[|parts| - 1]]
  }

  /** A problem of round 0 belongs to the run as a whole, and is never evicted. */
  predicate Evictable(p: ProblemRecord, round: nat) {
    p.round != 0 && p.round < round
  }

  function KeepProblems(problems: seq<ProblemRecord>, round: nat): (kept: seq<ProblemRecord>)
    ensures |kept| <= |problems|
  {
    if problems == [] then []
    else
      KeepProblems(problems[..|problems| - 1], round)
      + if Evictable(problems[|problems| - 1], round) then [] else [problems[|problems| - 1]]
  }

  function Evict(v: ReportView, round: nat): ReportView
    requires round >= 1
  {
    var kept := KeepProblems(v.problems, round);
    v.(steps := KeepSteps(v.steps, round), cleanup := KeepCleanup(v.cleanup, round), problems := kept,
       evictedProblems := v.evictedProblems + |v.problems| - |kept|, evictedRounds := round - 1)
  }

  /** The last verdict, once every worker has returned; `late` are the problems of finishing delivery. */
  function Conclude(v: ReportView, stopped: bool, late: seq<Action>): ReportView {
    var ended := v.(state := if stopped then Stopped else Completed,
                    outcome := if stopped then Combine(v.outcome, Canceled) else v.outcome);
    var ended := ApplyAll(ended, late);
    if ended.problems != [] then ended.(state := Failed, outcome := Fail) else ended
  }

  function Opening(agents: seq<string>): ReportView {
    ReportView([], [], [], Pass, NONE, seq(|agents|, i requires 0 <= i < |agents| => AgentProgress(agents[i], 0, Pass, NONE)), 0, 0, Running)
  }

  /** What a round starts from: a loop lets go of all but the round before. */
  function RoundStart(v: ReportView, round: nat, loop: bool): ReportView
    requires round >= 1
  {
    if loop && round > 2 then Evict(v, round - 1) else v
  }

  /** The report after some rounds, each given by the actions of its workers as the mutex ordered them. */
  function AfterRounds(v: ReportView, rounds: seq<seq<Action>>, loop: bool): ReportView {
    if rounds == [] then v
    else
      var n := |rounds|;
      ApplyAll(RoundStart(AfterRounds(v, rounds[..n - 1], loop), n, loop), rounds[n - 1])
  }

  // ---------------------------------------------------------------- why the loop over rounds ends

  /** One round as the loop sees it: what its workers did, and whether an operator stopped the run during it or while the loop slept. */
  datatype Turn = Turn(log: seq<Action>, stops: bool, stopsAsleep: bool)

  /** A delivery that failed stops the run. */
  predicate Undelivered(log: seq<Action>) {
    exists a :: a in log && a.Problem? && a.kind == Delivery
  }

  /** The i-th round, from zero, is the last because the run was stopped; a run does not sleep after its last round. */
  predicate StopsAfter(turn: nat -> Turn, loop: bool, limit: nat, i: nat) {
    turn(i).stops || Undelivered(turn(i).log) || (turn(i).stopsAsleep && (loop || i + 1 < limit))
  }

  function LogsOf(turn: nat -> Turn, n: nat): (logs: seq<seq<Action>>)
    ensures |logs| == n && forall i :: 0 <= i < n ==> logs[i] == turn(i).log
  {
    seq(n, i requires 0 <= i < n => turn(i).log)
  }

  /** What the loop over rounds comes to: which rounds it runs and whether it was stopped. */
  ghost predicate Ran(turn: nat -> Turn, stoppedBefore: bool, loop: bool, limit: nat, rounds: nat, stopped: bool) {
    && (stopped <==> stoppedBefore || exists i: nat :: i < rounds && StopsAfter(turn, loop, limit, i))
    && (forall i: nat :: i + 1 < rounds ==> !StopsAfter(turn, loop, limit, i))
    && (stoppedBefore ==> rounds == 0)
    && (!stopped ==> !loop && rounds == limit)
    && (!loop ==> rounds <= limit)
  }

  /**
   Why the loop ends where it does: a round in which an operator stopped the run or a delivery failed
   is the last and leaves it stopped; so is one behind which an operator stopped it asleep, unless it
   was the last anyway; and a run that was stopped was stopped in one of these ways.
   */
  lemma WhyItEnds(turn: nat -> Turn, stoppedBefore: bool, loop: bool, limit: nat, rounds: nat, stopped: bool, i: nat)
    requires Ran(turn, stoppedBefore, loop, limit, rounds, stopped)
    ensures i < rounds && (turn(i).stops || exists a :: a in turn(i).log && a.Problem? && a.kind == Delivery) ==> rounds == i + 1 && stopped
    ensures i < rounds && turn(i).stopsAsleep && (loop || i + 1 < limit) ==> rounds == i + 1 && stopped
    ensures stopped && !stoppedBefore ==>
      && rounds > 0
      && var last := turn(rounds - 1);
         last.stops || (exists a :: a in last.log && a.Problem? && a.kind == Delivery) || (last.stopsAsleep && (loop || rounds < limit))
  {
    if i < rounds && StopsAfter(turn, loop, limit, i) {
      assert i + 1 == rounds;
    }
  }

  // ---------------------------------------------------------------- the report in place

  method StepsFrom(steps: seq<StepReport>, round: nat) returns (kept: seq<StepReport>)
    ensures kept == KeepSteps(steps, round)
  {
    kept := [];
    for i := 0 to |steps|
      invariant kept == KeepSteps(steps[..i], round)
    {
      assert steps[..i + 1][..i] == steps[..i];
      if steps[i].round >= round {
        kept := kept + [steps[i]];
      }
    }
    assert steps[..|steps|] == steps;
  }

  method CleanupFrom(parts: seq<CleanupPart>, round: nat) returns (kept: seq<CleanupPart>)
    ensures kept == KeepCleanup(parts, round)
  {
    kept := [];
    for i := 0 to |parts|
      invariant kept == KeepCleanup(parts[..i], round)
    {
      assert parts[..i + 1][..i] == parts[..i];
      if parts[i].round >= round {
        kept := kept + [parts[i]];
      }
    }
    assert parts[..|parts|] == parts;
  }

  method ProblemsFrom(problems: seq<ProblemRecord>, round: nat) returns (kept: seq<ProblemRecord>)
    ensures kept == KeepProblems(problems, round)
  {
    kept := [];
    for i := 0 to |problems|
      invariant kept == KeepProblems(problems[..i], round)
    {
      assert problems[..i + 1][..i] == problems[..i];
      if problems[i].round == 0 || problems[i].round >= round {
        kept := kept + [problems[i]];
      }
    }
    assert problems[..|problems|] == problems;
  }

  class Execution {
    var steps: seq<StepReport>
    var cleanup: seq<CleanupPart>
    var problems: seq<ProblemRecord>
    var outcome: Outcome
    var counts: Counts
    var evictedRounds: nat
    var evictedProblems: nat
    var state: RunState
    const agents: array<AgentProgress>

    ghost predicate Valid()
      reads this, agents
    {
      forall i, j :: 0 <= i < j < agents.Length ==> agents[i].agent != agents[j].agent
    }

    ghost function View(): ReportView
      reads this, agents
    {
      ReportView(steps, cleanup, problems, outcome, counts, agents[..], evictedRounds, evictedProblems, state)
    }

    constructor (names: seq<string>)
      requires Distinct(names)
      ensures Valid() && fresh(agents)
      ensures View() == Opening(names)
    {
      steps, cleanup, problems, outcome, counts := [], [], [], Pass, NONE;
      evictedRounds, evictedProblems, state := 0, 0, Running;
      agents := new AgentProgress[|names|](i requires 0 <= i < |names| => AgentProgress(names[i], 0, Pass, NONE));
      new;
      assert agents[..] == Opening(names).agents;
    }

    method Record(report: StepReport)
      requires Valid()
      modifies this, agents
      ensures Valid() && View() == Apply(old(View()), Action.Record(report))
    {
      ghost var before := agents[..];
      steps := steps + [report];
      outcome := Combine(outcome, report.outcome);
      counts := Counted(counts, report.outcome);
      for i := 0 to agents.Length
        modifies agents
        invariant forall j :: 0 <= j < agents.Length ==>
          agents[j] == if j < i then AgentStep(before[j], Action.Record(report)) else before[j]
      {
        if report.agent == agents[i].agent {
          agents[i] := agents[i].(counts := Counted(agents[i].counts, report.outcome), outcome := Combine(agents[i].outcome, report.outcome));
        }
      }
      assert agents[..] == AgentSteps(before, Action.Record(report));
    }

    method RaiseProblem(agent: string, round: nat, kind: ProblemKind)
      requires Valid()
      modifies `problems, `outcome
      ensures Valid() && View() == Apply(old(View()), Problem(agent, round, kind))
    {
      problems := problems + [ProblemRecord(kind, agent, round)];
      outcome := Fail;
      assert agents[..] == AgentSteps(agents[..], Problem(agent, round, kind));
    }

    method AddCleanup(agent: string, round: nat, target: string, command: Command)
      requires Valid()
      modifies `cleanup
      ensures Valid() && View() == Apply(old(View()), Cleaned(agent, round, target, command))
    {
      cleanup := cleanup + [CleanupPart(agent, round, target, command)];
      assert agents[..] == AgentSteps(agents[..], Cleaned(agent, round, target, command));
    }

    /** The first entry of the agent is the only one. */
    method ShowProgress(agent: string, round: nat, reached: Outcome)
      requires Valid()
      modifies agents
      ensures Valid() && View() == Apply(old(View()), Progress(agent, round, reached))
    {
      ghost var before := agents[..];
      var i := 0;
      while i < agents.Length && agents[i].agent != agent
        invariant 0 <= i <= agents.Length
        invariant forall j :: 0 <= j < i ==> agents[j].agent != agent
        invariant agents[..] == before
      {
        i := i + 1;
      }
      if i < agents.Length {
        var p := agents[i];
        if p.round != round {
          p := p.(outcome := Pass, counts := NONE);
        }
        agents[i] := p.(round := round, outcome := Combine(p.outcome, reached));
      }
      assert agents[..] == AgentSteps(before, Progress(agent, round, reached));
    }

    method EvictBefore(round: nat)
      requires Valid() && round >= 1
      modifies `steps, `cleanup, `problems, `evictedProblems, `evictedRounds
      ensures Valid() && View() == Evict(old(View()), round)
    {
      hide KeepSteps, KeepCleanup, KeepProblems;
      var keptSteps := StepsFrom(steps, round);
      var keptCleanup := CleanupFrom(cleanup, round);
      var keptProblems := ProblemsFrom(problems, round);
      evictedProblems := evictedProblems + (|problems| - |keptProblems|);
      steps, cleanup, problems, evictedRounds := keptSteps, keptCleanup, keptProblems, round - 1;
    }

    method Perform(a: Action)
      requires Valid()
      modifies this, agents
      ensures Valid() && View() == Apply(old(View()), a)
    {
      hide Apply;
      match a
      case Record(r) => Record(r);
      case Progress(agent, round, reached) => ShowProgress(agent, round, reached);
      case Problem(agent, round, kind) => RaiseProblem(agent, round, kind);
      case Cleaned(agent, round, target, command) => AddCleanup(agent, round, target, command);
    }

    method PerformAll(log: seq<Action>)
      requires Valid()
      modifies this, agents
      ensures Valid() && View() == ApplyAll(old(View()), log)
    {
      hide Apply;
      assert log[..0] == [];
      for i := 0 to |log|
        invariant Valid() && View() == ApplyAll(old(View()), log[..i])
      {
        assert log[..i + 1][..i] == log[..i];
        Perform(log[i]);
      }
      assert log[..|log|] == log;
    }

    /**
     The loop over rounds, and the conclusion.  A round is run unless the run was stopped before
     it or the limit is reached; a loop that is never stopped does not return.
     */
    method Run(turn: nat -> Turn, stoppedBefore: bool, loop: bool, limit: nat, late: seq<Action>) returns (rounds: nat, stopped: bool)
      requires Valid()
      requires loop && !stoppedBefore ==> exists i: nat :: StopsAfter(turn, loop, limit, i)
      modifies this, agents
      ensures Valid()
      ensures Ran(turn, stoppedBefore, loop, limit, rounds, stopped)
      ensures View() == Conclude(AfterRounds(old(View()), LogsOf(turn, rounds), loop), stopped, late)
    {
      hide ApplyAll, Evict, StopsAfter, Undelivered;
      ghost var horizon: nat := 0;
      if loop && !stoppedBefore {
        horizon :| StopsAfter(turn, loop, limit, horizon);
      }
      rounds, stopped := 0, stoppedBefore;
      while !stopped && (loop || rounds < limit)
        invariant Valid() && View() == AfterRounds(old(View()), LogsOf(turn, rounds), loop)
        invariant stoppedBefore ==> rounds == 0 && stopped
        invariant !loop ==> rounds <= limit
        invariant forall i: nat :: i < rounds && StopsAfter(turn, loop, limit, i) ==> i + 1 == rounds && stopped
        invariant stopped && rounds > 0 ==> StopsAfter(turn, loop, limit, rounds - 1)
        invariant stopped && rounds == 0 ==> stoppedBefore
        invariant loop && !stopped ==> rounds <= horizon
        decreases if loop then horizon + 1 - rounds else limit - rounds
      {
        var t := turn(rounds);
        assert LogsOf(turn, rounds + 1)[..rounds] == LogsOf(turn, rounds);
        if loop && rounds >= 2 {
          EvictBefore(rounds);
        }
        PerformAll(t.log);
        var undelivered := SomeUndelivered(t.log);
        stopped := t.stops || undelivered;
        if !stopped && (loop || rounds + 1 < limit) {
          stopped := t.stopsAsleep;
        }
        assert stopped <==> StopsAfter(turn, loop, limit, rounds) by { StopDecided(turn, loop, limit, rounds); }
        rounds := rounds + 1;
      }
      state := Completed;
      if stopped {
        state := Stopped;
        outcome := Combine(outcome, Canceled);
      }
      PerformAll(late);
      if |problems| > 0 {
        state, outcome := Failed, Fail;
      }
    }
  }

  lemma StopDecided(turn: nat -> Turn, loop: bool, limit: nat, i: nat)
    ensures StopsAfter(turn, loop, limit, i) <==>
      turn(i).stops || Undelivered(turn(i).log) || ((loop || i + 1 < limit) && turn(i).stopsAsleep)
  {
  }

  method SomeUndelivered(log: seq<Action>) returns (some: bool)
    ensures some <==> Undelivered(log)
  {
    some := false;
    for i := 0 to |log|
      invariant some <==> Undelivered(log[..i])
    {
      assert log[..i + 1] == log[..i] + [log[i]];
      if log[i].Problem? && log[i].kind == Delivery {
        some := true;
      }
    }
    assert log[..|log|] == log;
  }
}
