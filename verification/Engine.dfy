/**
 The engine of a run (harness/execute.go: execute), one step at a time: rounds begin, workers are
 spawned into a wait group, perform their actions in any interleaving and leave it; deliveries
 fail and operators stop the run at any moment; the report is concluded and its delivery ends.
 */
module Engine {
  import opened Outcomes
  import opened Policies
  import CheckLoop
  import opened Plans
  import opened Rounds
  import opened OwnActions
  import opened Costs
  import opened Reports
  import opened Runs

  /** The options of a run: a loop has no limit, any other run has one. */
  datatype Options = Options(plan: Plan, loop: bool, limit: uint64)

  predicate Accepted(o: Options) {
    && ValidPlan(o.plan) && Distinct(o.plan.agents) && o.plan.agents != [] && o.plan.targets != []
    && (o.loop <==> o.limit == 0) && Affordable(o.plan, o.limit, o.loop)
  }

  /** Where the loop stands; `stopped` is what the conclusion saw, and `settled` tells whether the sinks have closed since. */
  datatype Stage = Between | Working | Finishing | Resting | Leaving | Ended(stopped: bool, settled: bool) | Over(stopped: bool)

  /**
   `waiting` is the counter of the wait group; `running` are the workers that it counts; `left`
   is what each has yet to do in the round, and `owed` how many of the deliveries that failed
   under its steps it has yet to report.  `early` and `late` are the delivery problems before
   the first round and after the conclusion.
   */
  datatype State = State(
    stage: Stage, stopped: bool, view: ReportView, rounds: seq<RoundLog>, early: seq<Action>, late: seq<Action>,
    left: seq<seq<Action>>, owed: seq<nat>, spawned: nat, running: set<nat>, waiting: nat)

  datatype Move =
    | RoundBegins(workers: seq<Worker>, clocks: seq<Clock>)
    | Spawns
    | Performs(worker: nat)
    | Undelivered(worker: nat)
    | WorkerEnds(worker: nat)
    | AllDone
    | Decides
    | Rests
    | RestFails
    | LoopEnds
    | DeliveryFails(agent: string, round: nat)
    | CloseFails
    | Stops
    | Concludes
    | Settles
    | Finishes

  /** Whether the condition of the loop holds before a round. */
  predicate GoesOn(o: Options, s: State) {
    !s.stopped && (o.loop || |s.rounds| < o.limit)
  }

  predicate Enabled(o: Options, s: State, m: Move) {
    match m
    case RoundBegins(workers, clocks) =>
      s.stage == Between && GoesOn(o, s) && Started(o.plan, |s.rounds| + 1, RoundLog(workers, clocks, []))
    case LoopEnds => s.stage == Between && !GoesOn(o, s)
    case Spawns => s.stage == Working && s.spawned < |o.plan.agents|
    case Performs(i) => s.stage == Working && i in s.running && i < |s.left| && s.left[i] != []
    case Undelivered(i) => s.stage == Working && i in s.running && i < |s.owed| && s.owed[i] > 0 && i < |o.plan.agents|
    case WorkerEnds(i) =>
      s.stage == Working && i in s.running && i < |s.left| && s.left[i] == [] && i < |s.owed| && s.owed[i] == 0 && s.waiting > 0
    case AllDone => s.stage == Working && s.spawned == |o.plan.agents| && s.waiting == 0
    case Decides => s.stage == Finishing
    case Rests => s.stage == Resting
    case RestFails => s.stage == Resting && s.stopped
    case DeliveryFails(_, _) => !s.stage.Over?
    case Stops => !s.stage.Over?
    case Concludes => s.stage == Leaving
    case CloseFails => s.stage.Ended? && !s.stage.settled
    case Settles => s.stage.Ended? && !s.stage.settled
    case Finishes => s.stage.Ended? && s.stage.settled
  }

  /** A run with problems has failed. */
  function Checked(v: ReportView): ReportView {
    if v.problems != [] then v.(state := Failed, outcome := Fail) else v
  }

  function Halted(v: ReportView, stopped: bool): ReportView {
    v.(state := if stopped then Stopped else Completed, outcome := if stopped then Combine(v.outcome, Canceled) else v.outcome)
  }

  /** An action of the current round, or one before the first or after the conclusion. */
  function Logged(s: State, a: Action): State {
    var s := s.(view := Apply(s.view, a));
    if s.stage.Ended? then s.(late := s.late + [a])
    else if s.rounds == [] then s.(early := s.early + [a])
    else
      var n := |s.rounds| - 1;
      s.(rounds := s.rounds[n := s.rounds[n].(log := s.rounds[n].log + [a])])
  }

  function AllActions(plan: Plan, workers: seq<Worker>, clocks: seq<Clock>): (all: seq<seq<Action>>)
    requires ValidPlan(plan) && |workers| == |clocks|
    ensures |all| == |workers| && forall i :: 0 <= i < |workers| ==> all[i] == WorkerActions(plan, workers[i], clocks[i])
  {
    seq(|workers|, i requires 0 <= i < |workers| => WorkerActions(plan, workers[i], clocks[i]))
  }

  function AllFaults(plan: Plan, workers: seq<Worker>, clocks: seq<Clock>): (all: seq<nat>)
    requires ValidPlan(plan) && |workers| == |clocks|
    ensures |all| == |workers| && forall i :: 0 <= i < |workers| ==> all[i] == WorkerFaults(plan, workers[i], clocks[i])
  {
    seq(|workers|, i requires 0 <= i < |workers| => WorkerFaults(plan, workers[i], clocks[i]))
  }

  function Do(o: Options, s: State, m: Move): State
    requires ValidPlan(o.plan) && Enabled(o, s, m)
  {
    match m
    case RoundBegins(workers, clocks) =>
      s.(stage := Working, view := RoundStart(s.view, |s.rounds| + 1, o.loop), rounds := s.rounds + [RoundLog(workers, clocks, [])],
         left := AllActions(o.plan, workers, clocks), owed := AllFaults(o.plan, workers, clocks), spawned := 0, running := {}, waiting := 0)
    case LoopEnds => s.(stage := Leaving)
    case Spawns => s.(spawned := s.spawned + 1, running := s.running + {s.spawned}, waiting := s.waiting + 1)
    case Performs(i) => Logged(s, s.left[i][0]).(left := s.left[i := s.left[i][1..]])
    case Undelivered(i) =>
      Logged(s, Problem(o.plan.agents[i], |s.rounds|, Delivery)).(stopped := true, owed := s.owed[i := s.owed[i] - 1])
    case WorkerEnds(i) => s.(running := s.running - {i}, waiting := s.waiting - 1)
    case AllDone => s.(stage := Finishing)
    case Decides => s.(stage := if s.stopped || (!o.loop && |s.rounds| == o.limit) then Leaving else Resting)
    case Rests => s.(stage := Between)
    case RestFails => s.(stage := Leaving)
    case DeliveryFails(agent, round) => Logged(s, Problem(agent, round, Delivery)).(stopped := true)
    case Stops => s.(stopped := true)
    case Concludes => s.(stage := Ended(s.stopped, false), view := Checked(Halted(s.view, s.stopped)))
    case CloseFails => Logged(s, Problem("", 0, Delivery))
    case Settles => s.(stage := Ended(s.stage.stopped, true), view := Checked(s.view))
    case Finishes => s.(stage := Over(s.stage.stopped), view := Checked(s.view))
  }

  function Initial(o: Options): State {
    State(Between, false, Opening(o.plan.agents), [], [], [], [], [], 0, {}, 0)
  }

  ghost predicate Behavior(o: Options, states: seq<State>, moves: seq<Move>)
    requires ValidPlan(o.plan)
  {
    && |states| == |moves| + 1 && states[0] == Initial(o)
    && forall i :: 0 <= i < |moves| ==> Enabled(o, states[i], moves[i]) && states[i + 1] == Do(o, states[i], moves[i])
  }

  // ---------------------------------------------------------------- the invariant

  /** What the workers of a round have done and what they have left make up their work. */
  predicate WorkSplit(plan: Plan, r: RoundLog, left: seq<seq<Action>>)
    requires ValidPlan(plan)
  {
    && |left| == |plan.agents| == |r.workers| == |r.clocks|
    && forall i :: 0 <= i < |left| ==>
         Project(r.log, Some(plan.agents[i])) + left[i] == WorkerActions(plan, r.workers[i], r.clocks[i])
  }

  predicate FromPlan(plan: Plan, log: seq<Action>) {
    forall a :: a in log && SourceOf(a).Some? ==> SourceOf(a).value in plan.agents
  }

  /** The wait group counts the workers that were spawned and have not ended; those that ended had nothing left and owed nothing. */
  predicate GroupCounts(s: State) {
    && s.waiting == |s.running| && s.spawned <= |s.left| == |s.owed|
    && (forall i :: i in s.running ==> i < s.spawned)
    && forall i :: 0 <= i < s.spawned && i !in s.running ==> s.left[i] == [] && s.owed[i] == 0
  }

  predicate AllComplete(plan: Plan, rounds: seq<RoundLog>, n: nat)
    requires ValidPlan(plan) && n <= |rounds|
  {
    forall k :: 0 <= k < n ==> Interleaved(plan, k + 1, rounds[k], true)
  }

  predicate RoundsOk(o: Options, s: State)
    requires ValidPlan(o.plan)
  {
    if s.stage != Working then AllComplete(o.plan, s.rounds, |s.rounds|)
    else
      && s.rounds != [] && AllComplete(o.plan, s.rounds, |s.rounds| - 1)
      && var r := s.rounds[|s.rounds| - 1];
        Started(o.plan, |s.rounds|, r) && FromPlan(o.plan, r.log) && WorkSplit(o.plan, r, s.left) && GroupCounts(s)
  }

  /** The report as it stands before its conclusion. */
  function Underway(o: Options, s: State): ReportView {
    if s.rounds == [] then ApplyAll(Opening(o.plan.agents), s.early) else ReportAt(o.plan, s.rounds, o.loop)
  }

  predicate ViewOk(o: Options, s: State) {
    match s.stage
    case Ended(stopped, _) => Checked(s.view) == Conclude(ReportAt(o.plan, s.rounds, o.loop), stopped, s.early + s.late)
    case Over(stopped) => s.view == Conclude(ReportAt(o.plan, s.rounds, o.loop), stopped, s.early + s.late)
    case Between => s.view == Underway(o, s)
    case Working => s.view == Underway(o, s)
    case Finishing => s.view == Underway(o, s)
    case Resting => s.view == Underway(o, s)
    case Leaving => s.view == Underway(o, s)
  }

  /** How far the loop has come and why it is left. */
  predicate LoopOk(o: Options, s: State) {
    && (!o.loop ==> |s.rounds| <= o.limit)
    && OnlyDelivery(s.early) && OnlyDelivery(s.late)
    && (s.early != [] ==> s.rounds == [] && s.stopped)
    && (s.late != [] ==> s.stage.Ended? || s.stage.Over?)
    && match s.stage
       case Leaving => !s.stopped ==> !o.loop && |s.rounds| == o.limit
       case Ended(stopped, _) => (!stopped ==> !o.loop && |s.rounds| == o.limit) && (stopped ==> s.stopped) && (s.early != [] ==> stopped)
       case Over(stopped) => (!stopped ==> !o.loop && |s.rounds| == o.limit) && (s.early != [] ==> stopped)
       case Resting => true
       case Between => true
       case Working => true
       case Finishing => true
  }

  predicate Inv(o: Options, s: State)
    requires ValidPlan(o.plan)
  {
    RoundsOk(o, s) && ViewOk(o, s) && LoopOk(o, s)
  }

  // ---------------------------------------------------------------- the log of a round grows

  function WithLog(rounds: seq<RoundLog>, a: Action): seq<RoundLog>
    requires rounds != []
  {
    var n := |rounds| - 1;
    rounds[n := rounds[n].(log := rounds[n].log + [a])]
  }

  lemma ProjectSnoc(log: seq<Action>, a: Action, source: Option<string>)
    ensures Project(log + [a], source) == Project(log, source) + if SourceOf(a) == source then [a] else []
  {
    assert (log + [a])[..|log|] == log;
  }

  lemma ApplySnoc(v: ReportView, log: seq<Action>, a: Action)
    ensures ApplyAll(v, log + [a]) == Apply(ApplyAll(v, log), a)
  {
    hide Apply;
    assert (log + [a])[..|log|] == log;
  }

  lemma ReportGrows(plan: Plan, rounds: seq<RoundLog>, loop: bool, a: Action)
    requires rounds != []
    ensures ReportAt(plan, WithLog(rounds, a), loop) == Apply(ReportAt(plan, rounds, loop), a)
  {
    hide Apply, RoundStart, ApplyAll;
    var n := |rounds| - 1;
    var longer := WithLog(rounds, a);
    assert Logs(longer)[..n] == Logs(rounds)[..n];
    ApplySnoc(RoundStart(AfterRounds(Opening(plan.agents), Logs(rounds)[..n], loop), n + 1, loop), rounds[n].log, a);
  }

  lemma ReportBegins(plan: Plan, rounds: seq<RoundLog>, loop: bool, r: RoundLog)
    requires r.log == []
    ensures ReportAt(plan, rounds + [r], loop) == RoundStart(ReportAt(plan, rounds, loop), |rounds| + 1, loop)
  {
    hide RoundStart;
    assert Logs(rounds + [r])[..|rounds|] == Logs(rounds);
  }

  lemma CompleteBefore(plan: Plan, rounds: seq<RoundLog>, r: RoundLog, n: nat)
    requires ValidPlan(plan) && n <= |rounds| && AllComplete(plan, rounds, n)
    ensures AllComplete(plan, rounds + [r], n)
    ensures n < |rounds| ==> AllComplete(plan, rounds[|rounds| - 1 := r], n)
  {
    hide Interleaved;
  }

  lemma FailureKeepsRound(plan: Plan, round: nat, r: RoundLog, a: Action)
    requires ValidPlan(plan) && SourceOf(a).None?
    ensures Interleaved(plan, round, r, true) ==> Interleaved(plan, round, r.(log := r.log + [a]), true)
    ensures FromPlan(plan, r.log) ==> FromPlan(plan, r.log + [a])
    ensures forall left: seq<seq<Action>> :: WorkSplit(plan, r, left) ==> WorkSplit(plan, r.(log := r.log + [a]), left)
  {
    hide WorkerActions, ValidPlan;
    forall source: Option<string> | source.Some?
      ensures Project(r.log + [a], source) == Project(r.log, source)
    {
      ProjectSnoc(r.log, a, source);
    }
  }

  lemma FailureRounds(o: Options, s: State, a: Action)
    requires ValidPlan(o.plan) && RoundsOk(o, s) && SourceOf(a).None? && !s.stage.Over?
    ensures RoundsOk(o, Logged(s, a))
  {
    hide ValidPlan, Interleaved, WorkSplit, Started, Apply, GroupCounts, FromPlan;
    if !s.stage.Ended? && s.rounds != [] {
      var n := |s.rounds| - 1;
      var r := s.rounds[n];
      FailureKeepsRound(o.plan, n + 1, r, a);
      CompleteBefore(o.plan, s.rounds, r.(log := r.log + [a]), n);
      assert Started(o.plan, n + 1, r) ==> Started(o.plan, n + 1, r.(log := r.log + [a])) by { SameStart(o.plan, n + 1, r, a); }
      assert GroupCounts(s) ==> GroupCounts(Logged(s, a)) by { SameGroup(s, a); }
      assert s.stage == Working || Interleaved(o.plan, n + 1, r, true);
    }
  }

  lemma SameStart(plan: Plan, round: nat, r: RoundLog, a: Action)
    ensures Started(plan, round, r) ==> Started(plan, round, r.(log := r.log + [a]))
  {
  }

  lemma SameGroup(s: State, a: Action)
    ensures GroupCounts(s) ==> GroupCounts(Logged(s, a))
  {
  }

  lemma BeginRounds(o: Options, s: State, m: Move)
    requires ValidPlan(o.plan) && RoundsOk(o, s) && m.RoundBegins? && Enabled(o, s, m)
    ensures RoundsOk(o, Do(o, s, m))
  {
    hide ValidPlan, Interleaved, WorkerActions, RoundStart;
    CompleteBefore(o.plan, s.rounds, RoundLog(m.workers, m.clocks, []), |s.rounds|);
  }

  lemma WorkerSteps(o: Options, s: State, i: nat)
    requires ValidPlan(o.plan) && Distinct(o.plan.agents) && RoundsOk(o, s) && Enabled(o, s, Performs(i))
    ensures RoundsOk(o, Do(o, s, Performs(i)))
  {
    hide ValidPlan, Interleaved, WorkerActions, Apply, Project;
    var n := |s.rounds| - 1;
    var r, a := s.rounds[n], s.left[i][0];
    var all := WorkerActions(o.plan, r.workers[i], r.clocks[i]);
    assert a in all;
    WorkerOwns(o.plan, r.workers[i], r.clocks[i]);
    assert SourceOf(a) == Some(o.plan.agents[i]);
    var longer := r.(log := r.log + [a]);
    CompleteBefore(o.plan, s.rounds, longer, n);
    forall j | 0 <= j < |s.left|
      ensures Project(longer.log, Some(o.plan.agents[j])) + s.left[i := s.left[i][1..]][j]
              == WorkerActions(o.plan, r.workers[j], r.clocks[j])
    {
      ProjectSnoc(r.log, a, Some(o.plan.agents[j]));
      if j == i {
        assert s.left[i] == [a] + s.left[i][1..];
        AppendMoves(Project(r.log, Some(o.plan.agents[i])), a, s.left[i][1..]);
      } else {
        assert o.plan.agents[j] != o.plan.agents[i];
      }
    }
  }

  lemma AppendMoves(x: seq<Action>, a: Action, y: seq<Action>)
    ensures x + [a] + y == x + ([a] + y)
  {
  }

  lemma WorkerFails(o: Options, s: State, i: nat)
    requires ValidPlan(o.plan) && RoundsOk(o, s) && Enabled(o, s, Undelivered(i))
    ensures RoundsOk(o, Do(o, s, Undelivered(i)))
  {
    hide ValidPlan, Interleaved, WorkSplit, Started, Apply, FromPlan;
    FailureRounds(o, s, Problem(o.plan.agents[i], |s.rounds|, Delivery));
  }

  lemma GroupSteps(o: Options, s: State, m: Move)
    requires ValidPlan(o.plan) && RoundsOk(o, s) && Enabled(o, s, m) && (m.Spawns? || m.WorkerEnds?)
    ensures RoundsOk(o, Do(o, s, m))
  {
    hide ValidPlan, Interleaved, WorkerActions;
  }

  /** The barrier: the wait group is empty only when every worker of the round has done all its work. */
  lemma BarrierOpens(o: Options, s: State)
    requires ValidPlan(o.plan) && RoundsOk(o, s) && Enabled(o, s, AllDone)
    ensures RoundsOk(o, Do(o, s, AllDone))
  {
    hide ValidPlan, WorkerActions, Project;
    var n := |s.rounds| - 1;
    assert s.running == {};
    assert forall i :: 0 <= i < |s.left| ==> s.left[i] == [];
    assert Interleaved(o.plan, n + 1, s.rounds[n], true);
  }

  // ---------------------------------------------------------------- the report

  lemma LoggedView(o: Options, s: State, a: Action)
    requires s.view == Underway(o, s) && (s.early != [] ==> s.rounds == []) && !s.stage.Ended?
    ensures Logged(s, a).view == Underway(o, Logged(s, a))
  {
    hide Apply, ReportAt;
    if s.rounds == [] {
      ApplySnoc(Opening(o.plan.agents), s.early, a);
    } else {
      ReportGrows(o.plan, s.rounds, o.loop, a);
    }
  }

  /** Two reports that differ at most in state and outcome. */
  predicate SameLists(v: ReportView, u: ReportView) {
    v.(state := u.state, outcome := u.outcome) == u
  }

  lemma SameApplied(v: ReportView, u: ReportView, a: Action)
    requires SameLists(v, u)
    ensures SameLists(Apply(v, a), Apply(u, a))
  {
    hide Counted, AgentStep, Combine;
  }

  lemma {:induction false} SameAppliedAll(v: ReportView, u: ReportView, log: seq<Action>)
    requires SameLists(v, u)
    ensures SameLists(ApplyAll(v, log), ApplyAll(u, log))
  {
    hide Apply, SameLists;
    if log != [] {
      SameAppliedAll(v, u, log[..|log| - 1]);
      SameApplied(ApplyAll(v, log[..|log| - 1]), ApplyAll(u, log[..|log| - 1]), log[|log| - 1]);
    }
  }

  lemma ConcludeSnoc(v: ReportView, stopped: bool, late: seq<Action>, w: ReportView, a: Action)
    requires Checked(w) == Conclude(v, stopped, late) && a.Problem?
    ensures Checked(Apply(w, a)) == Conclude(v, stopped, late + [a])
  {
    hide Combine, AgentSteps;
    var ended := Halted(v, stopped);
    ApplySnoc(ended, late, a);
    assert Conclude(v, stopped, late) == Checked(ApplyAll(ended, late));
    assert SameLists(w, ApplyAll(ended, late));
    SameApplied(w, ApplyAll(ended, late), a);
  }

  /** The conclusion is the same whether the problems before the first round are listed before or after it. */
  lemma ConcludeEarly(v: ReportView, stopped: bool, early: seq<Action>)
    requires OnlyDelivery(early)
    ensures Checked(Checked(Halted(ApplyAll(v, early), stopped))) == Conclude(v, stopped, early)
  {
    hide Combine, Apply;
    if early != [] {
      SameAppliedAll(v, Halted(v, stopped), early);
      ApplyAllIs(v, early);
      DeliveryBears(early);
    }
  }

  lemma FailureView(o: Options, s: State, a: Action)
    requires ViewOk(o, s) && LoopOk(o, s) && !s.stage.Over? && a.Problem?
    ensures ViewOk(o, Logged(s, a))
  {
    hide Apply, ReportAt, Conclude, Checked, OnlyDelivery;
    if s.stage.Ended? {
      ConcludeSnoc(ReportAt(o.plan, s.rounds, o.loop), s.stage.stopped, s.early + s.late, s.view, a);
      assert s.early + s.late + [a] == s.early + (s.late + [a]);
    } else {
      LoggedView(o, s, a);
    }
  }

  lemma StepView(o: Options, s: State, m: Move)
    requires ValidPlan(o.plan) && Inv(o, s) && Enabled(o, s, m)
    ensures ViewOk(o, Do(o, s, m))
  {
    hide Apply, ApplyAll, Halted, AllActions, AllFaults, ReportAt, RoundStart, RoundsOk, ValidPlan, WorkerActions, WorkerFaults;
    match m
    case DeliveryFails(agent, round) => FailureView(o, s, Problem(agent, round, Delivery));
    case Undelivered(i) => FailureView(o, s, Problem(o.plan.agents[i], |s.rounds|, Delivery));
    case CloseFails => FailureView(o, s, Problem("", 0, Delivery));
    case Performs(i) => LoggedView(o, s, s.left[i][0]);
    case RoundBegins(workers, clocks) =>
      BeginView(o, s, m);
    case Concludes => ConcludeView(o, s);
    case _ =>
  }

  lemma BeginView(o: Options, s: State, m: Move)
    requires ValidPlan(o.plan) && ViewOk(o, s) && LoopOk(o, s) && m.RoundBegins? && Enabled(o, s, m)
    ensures ViewOk(o, Do(o, s, m))
  {
    hide Apply, ReportAt, ValidPlan, WorkerActions, RoundStart;
    ReportBegins(o.plan, s.rounds, o.loop, RoundLog(m.workers, m.clocks, []));
    if s.rounds == [] {
      NothingYet(o, s);
    }
  }

  lemma NothingYet(o: Options, s: State)
    requires s.rounds == []
    ensures ReportAt(o.plan, s.rounds, o.loop) == Opening(o.plan.agents)
    ensures s.early == [] ==> Underway(o, s) == Opening(o.plan.agents)
  {
  }

  lemma ConcludeView(o: Options, s: State)
    requires ValidPlan(o.plan) && ViewOk(o, s) && LoopOk(o, s) && Enabled(o, s, Concludes)
    ensures ViewOk(o, Do(o, s, Concludes))
  {
    hide Apply, ReportAt, ApplyAll, Checked, Conclude, Halted;
    assert s.late == [] && s.early + s.late == s.early;
    ConcludeEarly(ReportAt(o.plan, s.rounds, o.loop), s.stopped, s.early);
    if s.rounds == [] {
      NothingYet(o, s);
    } else {
      assert s.early == [];
      assert ApplyAll(ReportAt(o.plan, s.rounds, o.loop), []) == ReportAt(o.plan, s.rounds, o.loop) by { NoneApplied(ReportAt(o.plan, s.rounds, o.loop)); }
    }
  }

  lemma NoneApplied(v: ReportView)
    ensures ApplyAll(v, []) == v
  {
  }

  // ---------------------------------------------------------------- the loop

  lemma StepLoop(o: Options, s: State, m: Move)
    requires ValidPlan(o.plan) && RoundsOk(o, s) && LoopOk(o, s) && Enabled(o, s, m)
    ensures LoopOk(o, Do(o, s, m))
  {
    hide Apply, ValidPlan, WorkerActions, WorkerFaults, RoundStart, Checked, Halted, Interleaved, WorkSplit, GroupCounts, Started;
  }

  lemma StepRounds(o: Options, s: State, m: Move)
    requires ValidPlan(o.plan) && Distinct(o.plan.agents) && RoundsOk(o, s) && Enabled(o, s, m)
    ensures RoundsOk(o, Do(o, s, m))
  {
    hide ValidPlan, WorkerActions, WorkerFaults, Apply, RoundStart, Checked, Halted, Interleaved, Project;
    match m
    case RoundBegins(_, _) => BeginRounds(o, s, m);
    case Spawns => GroupSteps(o, s, m);
    case WorkerEnds(_) => GroupSteps(o, s, m);
    case Performs(i) => WorkerSteps(o, s, i);
    case AllDone => BarrierOpens(o, s);
    case DeliveryFails(agent, round) => FailureRounds(o, s, Problem(agent, round, Delivery));
    case Undelivered(i) => WorkerFails(o, s, i);
    case CloseFails => FailureRounds(o, s, Problem("", 0, Delivery));
    case _ =>
  }

  lemma {:induction false} Reachable(o: Options, states: seq<State>, moves: seq<Move>, k: nat)
    requires ValidPlan(o.plan) && Distinct(o.plan.agents) && Behavior(o, states, moves) && k < |states|
    ensures Inv(o, states[k])
  {
    hide Do, Enabled, ValidPlan, RoundsOk, ViewOk, LoopOk;
    if k == 0 {
      InitialInv(o);
    } else {
      Reachable(o, states, moves, k - 1);
      StepRounds(o, states[k - 1], moves[k - 1]);
      StepView(o, states[k - 1], moves[k - 1]);
      StepLoop(o, states[k - 1], moves[k - 1]);
    }
  }

  lemma InitialInv(o: Options)
    requires ValidPlan(o.plan)
    ensures Inv(o, Initial(o))
  {
    hide ValidPlan;
  }

  // ---------------------------------------------------------------- every run of the engine

  lemma PartlyDone(plan: Plan, round: nat, r: RoundLog, left: seq<seq<Action>>)
    requires ValidPlan(plan) && Started(plan, round, r) && FromPlan(plan, r.log) && WorkSplit(plan, r, left)
    ensures Interleaved(plan, round, r, false)
  {
    hide ValidPlan, WorkerActions, Project;
    forall i | 0 <= i < |plan.agents|
      ensures Project(r.log, Some(plan.agents[i])) <= WorkerActions(plan, r.workers[i], r.clocks[i])
    {
      assert Project(r.log, Some(plan.agents[i])) + left[i] == WorkerActions(plan, r.workers[i], r.clocks[i]);
    }
  }

  lemma RunOfRounds(o: Options, s: State)
    requires ValidPlan(o.plan) && RoundsOk(o, s)
    ensures Run(o.plan, s.rounds)
  {
    hide ValidPlan, WorkerActions, Project, Interleaved, GroupCounts, Started, WorkSplit, FromPlan;
    var n := |s.rounds|;
    forall i | 0 <= i < n
      ensures Interleaved(o.plan, i + 1, s.rounds[i], i < n - 1)
    {
      if s.stage == Working && i == n - 1 {
        PartlyDone(o.plan, n, s.rounds[i], s.left);
      } else {
        assert Interleaved(o.plan, i + 1, s.rounds[i], true);
        CompleteIsPart(o.plan, i + 1, s.rounds[i]);
      }
    }
  }

  lemma CompleteIsPart(plan: Plan, round: nat, r: RoundLog)
    requires ValidPlan(plan) && Interleaved(plan, round, r, true)
    ensures Interleaved(plan, round, r, false)
  {
    hide ValidPlan, WorkerActions, Project, Started;
  }

  /**
   The barrier, derived from the wait group: at every state of every run of the engine what was
   logged is a run, each round complete before the next begins and, outside a round, the last
   one too; and until the conclusion the report is that of the run.
   */
  lemma HistoryIsARun(o: Options, states: seq<State>, moves: seq<Move>, k: nat)
    requires ValidPlan(o.plan) && Distinct(o.plan.agents) && Behavior(o, states, moves) && k < |states|
    ensures var s := states[k];
      && Run(o.plan, s.rounds)
      && (s.stage != Working ==> AllComplete(o.plan, s.rounds, |s.rounds|))
      && (!s.stage.Ended? && !s.stage.Over? && s.rounds != [] ==> s.view == ReportAt(o.plan, s.rounds, o.loop))
      && (!o.loop ==> |s.rounds| <= o.limit)
  {
    hide Behavior, ValidPlan, AllComplete, Run, ReportAt;
    Reachable(o, states, moves, k);
    RunOfRounds(o, states[k]);
  }

  /** A step of a later round is performed only when every worker of every earlier round has done all its work. */
  lemma BarrierHolds(o: Options, states: seq<State>, moves: seq<Move>, k: nat, i: nat, earlier: nat, j: nat)
    requires ValidPlan(o.plan) && Distinct(o.plan.agents) && Behavior(o, states, moves) && k < |moves|
    requires moves[k] == Performs(i) && earlier < |states[k].rounds| - 1 && j < |o.plan.agents|
    ensures var r := states[k].rounds[earlier];
      && |r.workers| == |r.clocks| == |o.plan.agents|
      && Project(r.log, Some(o.plan.agents[j])) == WorkerActions(o.plan, r.workers[j], r.clocks[j])
  {
    hide ValidPlan, WorkerActions, Project, Do, Enabled;
    HistoryIsARun(o, states, moves, k);
    assert Interleaved(o.plan, earlier + 1, states[k].rounds[earlier], true);
  }

  lemma {:induction false} NoSteps(log: seq<Action>)
    requires OnlyDelivery(log)
    ensures StepsOf(log) == []
  {
    if log != [] {
      NoSteps(log[..|log| - 1]);
      assert log[|log| - 1] in log;
    }
  }

  lemma StepsUnlogged(v: ReportView, log: seq<Action>)
    requires OnlyDelivery(log)
    ensures ApplyAll(v, log).steps == v.steps
  {
    hide ApplyAll, StepsOf;
    NoSteps(log);
    ApplyAllIs(v, log);
  }

  lemma ConcludedSteps(v: ReportView, stopped: bool, late: seq<Action>)
    requires OnlyDelivery(late)
    ensures Conclude(v, stopped, late).steps == v.steps
  {
    hide ApplyAll, Combine;
    StepsUnlogged(Halted(v, stopped), late);
  }

  lemma SameSteps(o: Options, s: State)
    requires ViewOk(o, s) && LoopOk(o, s)
    ensures s.view.steps == ReportAt(o.plan, s.rounds, o.loop).steps
  {
    hide ApplyAll, ReportAt, Conclude;
    if s.stage.Ended? || s.stage.Over? {
      assert OnlyDelivery(s.early + s.late);
      ConcludedSteps(ReportAt(o.plan, s.rounds, o.loop), s.stage.stopped, s.early + s.late);
    } else if s.rounds == [] {
      NothingYet(o, s);
      StepsUnlogged(Opening(o.plan.agents), s.early);
    }
  }

  /** At every moment, and in the final report, the steps stand in the order of their rounds, and are those of agents of the plan. */
  lemma StepsBehindBarrier(o: Options, states: seq<State>, moves: seq<Move>, k: nat)
    requires ValidPlan(o.plan) && Distinct(o.plan.agents) && Behavior(o, states, moves) && k < |states|
    ensures Ordered(states[k].view.steps)
    ensures forall step :: step in states[k].view.steps ==> 1 <= step.round <= |states[k].rounds| && step.agent in o.plan.agents
  {
    hide Behavior, ValidPlan, RoundsOk, ViewOk, LoopOk, ReportAt, Ordered, Run;
    Reachable(o, states, moves, k);
    SameSteps(o, states[k]);
    HistoryIsARun(o, states, moves, k);
    StepsInRoundOrder(o.plan, states[k].rounds, o.loop);
  }

  /** However a run that is accepted goes, its report never holds more than it is made for: two rounds' worth of attempts for a loop. */
  lemma ReportStaysBounded(o: Options, states: seq<State>, moves: seq<Move>, k: nat)
    requires ValidPlan(o.plan) && Accepted(o) && Behavior(o, states, moves) && k < |states|
    ensures AttemptsIn(states[k].view.steps) <= if o.loop then 2 * PlanAttempts(o.plan.targets) else 200_000
  {
    hide Behavior, ValidPlan, Distinct, RoundsOk, ViewOk, LoopOk, ReportAt, Affordable, AttemptsIn, PlanAttempts, Run;
    Reachable(o, states, moves, k);
    SameSteps(o, states[k]);
    HistoryIsARun(o, states, moves, k);
    if o.loop {
      LoopRetentionBounded(o.plan, states[k].rounds);
    } else {
      FiniteRetentionBounded(o.plan, states[k].rounds, o.limit);
    }
  }

  // ---------------------------------------------------------------- why and how a run ends

  lemma EndStays(o: Options, s: State, m: Move)
    requires ValidPlan(o.plan) && Enabled(o, s, m)
    ensures s.stopped ==> |Do(o, s, m).rounds| == |s.rounds| && Do(o, s, m).stopped
  {
    hide ValidPlan, WorkerActions, Apply, RoundStart;
  }

  /** Once a run was stopped no further round begins. */
  lemma {:induction false} NoRoundAfterStop(o: Options, states: seq<State>, moves: seq<Move>, j: nat, k: nat)
    requires ValidPlan(o.plan) && Behavior(o, states, moves) && j <= k < |states| && states[j].stopped
    ensures states[k].stopped && |states[k].rounds| == |states[j].rounds|
    decreases k
  {
    hide ValidPlan, Do, Enabled;
    if j < k {
      NoRoundAfterStop(o, states, moves, j, k - 1);
      EndStays(o, states[k - 1], moves[k - 1]);
    }
  }

  /** A delivery that fails before the conclusion. */
  predicate FailsUnderway(s: State, m: Move) {
    (m.DeliveryFails? || m.Undelivered?) && !s.stage.Ended? && !s.stage.Over?
  }

  predicate StopsUnderway(s: State, m: Move) {
    (m.Stops? || m.DeliveryFails? || m.Undelivered?) && !s.stage.Ended? && !s.stage.Over?
  }

  /** Whether the run was stopped before its conclusion, as far as it is known. */
  predicate SeenStopped(s: State) {
    match s.stage
    case Ended(stopped, _) => stopped
    case Over(stopped) => stopped
    case Between => s.stopped
    case Working => s.stopped
    case Finishing => s.stopped
    case Resting => s.stopped
    case Leaving => s.stopped
  }

  lemma StopSeen(o: Options, s: State, m: Move)
    requires ValidPlan(o.plan) && Enabled(o, s, m)
    ensures SeenStopped(Do(o, s, m)) <==> SeenStopped(s) || StopsUnderway(s, m)
  {
    hide ValidPlan, WorkerActions, Apply, RoundStart;
  }

  /** A run is concluded as stopped exactly when an operator or a failed delivery stopped it before. */
  lemma {:induction false} StoppedExactly(o: Options, states: seq<State>, moves: seq<Move>, k: nat)
    requires ValidPlan(o.plan) && Behavior(o, states, moves) && k < |states|
    ensures SeenStopped(states[k]) <==> exists j :: 0 <= j < k && StopsUnderway(states[j], moves[j])
  {
    hide ValidPlan, Do, Enabled, SeenStopped, StopsUnderway;
    if k == 0 {
      assert !SeenStopped(Initial(o)) by { NotStopped(o); }
    } else {
      StoppedExactly(o, states, moves, k - 1);
      StopSeen(o, states[k - 1], moves[k - 1]);
    }
  }

  lemma NotStopped(o: Options)
    ensures !SeenStopped(Initial(o))
  {
  }

  /** Stopped, with the problem listed. */
  predicate Broken(s: State) {
    SeenStopped(s) && s.view.problems != [] && (s.stopped || s.stage.Over?)
  }

  lemma BrokenStays(o: Options, s: State, m: Move)
    requires ValidPlan(o.plan) && Enabled(o, s, m)
    ensures Broken(s) || FailsUnderway(s, m) ==> Broken(Do(o, s, m))
  {
    hide ValidPlan, WorkerActions, WorkerFaults, RoundStart, Combine, Counted, AgentStep;
  }

  lemma {:induction false} BrokenSince(o: Options, states: seq<State>, moves: seq<Move>, j: nat, k: nat)
    requires ValidPlan(o.plan) && Behavior(o, states, moves) && j < k < |states| && FailsUnderway(states[j], moves[j])
    ensures Broken(states[k])
    decreases k
  {
    hide ValidPlan, Do, Enabled, FailsUnderway, Broken;
    if j < k - 1 {
      BrokenSince(o, states, moves, j, k - 1);
    }
    BrokenStays(o, states[k - 1], moves[k - 1]);
  }

  /** A delivery that fails during the run ends it: the run is concluded as stopped, with the problem listed, as a failure. */
  lemma DeliveryFailureFails(o: Options, states: seq<State>, moves: seq<Move>, j: nat, k: nat)
    requires ValidPlan(o.plan) && Distinct(o.plan.agents) && Behavior(o, states, moves) && j < k < |states|
    requires FailsUnderway(states[j], moves[j]) && states[k].stage.Over?
    ensures states[k].stage.stopped && states[k].view.state == Failed && states[k].view.outcome == Fail
  {
    hide Behavior, ValidPlan, RoundsOk, LoopOk, ReportAt, ApplyAll, FailsUnderway;
    BrokenSince(o, states, moves, j, k);
    Reachable(o, states, moves, k);
  }

  // ---------------------------------------------------------------- deliveries that fail under a step

  /** A delivery failed under some step of a worker. */
  predicate Faulted(o: Options, s: State, n: nat, i: nat)
    requires ValidPlan(o.plan)
  {
    && n < |s.rounds| && i < |s.rounds[n].workers| && i < |s.rounds[n].clocks|
    && WorkerFaults(o.plan, s.rounds[n].workers[i], s.rounds[n].clocks[i]) > 0
  }

  /** Every such failure has broken the run, unless its worker has yet to report it. */
  predicate FaultsOk(o: Options, s: State)
    requires ValidPlan(o.plan)
  {
    forall n, i :: 0 <= n < |s.rounds| && 0 <= i < |s.rounds[n].workers| && Faulted(o, s, n, i) ==>
      Broken(s) || (s.stage == Working && n == |s.rounds| - 1 && i < |s.owed| && s.owed[i] > 0)
  }

  lemma SameFaults(o: Options, s: State, m: Move, n: nat, i: nat)
    requires ValidPlan(o.plan) && Enabled(o, s, m) && Faulted(o, Do(o, s, m), n, i)
    ensures n < |s.rounds| ==> Faulted(o, s, n, i)
    ensures n >= |s.rounds| ==>
      && m.RoundBegins? && n == |s.rounds| && i < |Do(o, s, m).owed| && Do(o, s, m).owed[i] > 0
  {
    hide ValidPlan, WorkerActions, WorkerFaults, Apply, RoundStart;
  }

  lemma OwedStep(o: Options, s: State, m: Move, i: nat)
    requires ValidPlan(o.plan) && RoundsOk(o, s) && Enabled(o, s, m)
    requires s.stage == Working && i < |s.owed| && s.owed[i] > 0
    ensures FailsUnderway(s, m) || (Do(o, s, m).stage == Working && |Do(o, s, m).rounds| == |s.rounds| && Do(o, s, m).owed == s.owed)
  {
    hide ValidPlan, WorkerActions, WorkerFaults, Apply, RoundStart, Interleaved, Started, Project;
    assert |s.running| == 0 ==> s.running == {};
  }

  lemma StepFaults(o: Options, s: State, m: Move)
    requires ValidPlan(o.plan) && RoundsOk(o, s) && FaultsOk(o, s) && Enabled(o, s, m)
    ensures FaultsOk(o, Do(o, s, m))
  {
    hide ValidPlan, RoundsOk, Enabled, Do, Faulted, Broken, FailsUnderway;
    BrokenStays(o, s, m);
    var t := Do(o, s, m);
    forall n, i | 0 <= n < |t.rounds| && 0 <= i < |t.rounds[n].workers| && Faulted(o, t, n, i)
      ensures Broken(t) || (t.stage == Working && n == |t.rounds| - 1 && i < |t.owed| && t.owed[i] > 0)
    {
      SameFaults(o, s, m, n, i);
      if n < |s.rounds| {
        assert i < |s.rounds[n].workers| by { FaultedWorker(o, s, n, i); }
        if !Broken(s) {
          OwedStep(o, s, m, i);
        }
      } else {
        RoundStarts(o, s, m);
      }
    }
  }

  lemma FaultedWorker(o: Options, s: State, n: nat, i: nat)
    requires ValidPlan(o.plan) && Faulted(o, s, n, i)
    ensures n < |s.rounds| && i < |s.rounds[n].workers|
  {
    hide ValidPlan;
  }

  lemma RoundStarts(o: Options, s: State, m: Move)
    requires ValidPlan(o.plan) && Enabled(o, s, m) && m.RoundBegins?
    ensures Do(o, s, m).stage == Working && |Do(o, s, m).rounds| == |s.rounds| + 1
  {
    hide ValidPlan, WorkerActions, WorkerFaults, RoundStart;
  }

  lemma {:induction false} FaultsReported(o: Options, states: seq<State>, moves: seq<Move>, k: nat)
    requires ValidPlan(o.plan) && Distinct(o.plan.agents) && Behavior(o, states, moves) && k < |states|
    ensures FaultsOk(o, states[k])
  {
    hide ValidPlan, Do, Enabled, FaultsOk, RoundsOk, ViewOk, LoopOk;
    if k == 0 {
      NoFaults(o);
    } else {
      FaultsReported(o, states, moves, k - 1);
      Reachable(o, states, moves, k - 1);
      StepFaults(o, states[k - 1], moves[k - 1]);
    }
  }

  lemma NoFaults(o: Options)
    requires ValidPlan(o.plan)
    ensures FaultsOk(o, Initial(o))
  {
    hide ValidPlan;
  }

  /**
   A delivery that fails under a step of any worker in any round makes the run end as stopped,
   with a problem listed, as a failure; and no round begins behind that one.
   */
  lemma StepFaultFails(o: Options, states: seq<State>, moves: seq<Move>, k: nat, n: nat, i: nat)
    requires ValidPlan(o.plan) && Distinct(o.plan.agents) && Behavior(o, states, moves) && k < |states|
    requires Faulted(o, states[k], n, i)
    ensures n == |states[k].rounds| - 1
    ensures states[k].stage.Over? ==> states[k].stage.stopped && states[k].view.state == Failed && states[k].view.outcome == Fail
  {
    hide Behavior, ValidPlan, RoundsOk, LoopOk, ReportAt, ApplyAll, Faulted;
    FaultsReported(o, states, moves, k);
    Reachable(o, states, moves, k);
    FaultedWorker(o, states[k], n, i);
    LastFaulted(o, states, moves, k, n, i);
  }

  lemma {:induction false} LastFaulted(o: Options, states: seq<State>, moves: seq<Move>, k: nat, n: nat, i: nat)
    requires ValidPlan(o.plan) && Distinct(o.plan.agents) && Behavior(o, states, moves) && k < |states|
    requires Faulted(o, states[k], n, i)
    ensures n == |states[k].rounds| - 1
  {
    hide ValidPlan, Do, Enabled, FaultsOk, Faulted;
    FaultedWorker(o, states[k], n, i);
    if k > 0 {
      var s, m := states[k - 1], moves[k - 1];
      SameFaults(o, s, m, n, i);
      if n < |s.rounds| {
        LastFaulted(o, states, moves, k - 1, n, i);
        FaultsReported(o, states, moves, k - 1);
        NoRoundBehind(o, s, m, n, i);
      } else {
        RoundStarts(o, s, m);
      }
    }
  }

  lemma NoRoundBehind(o: Options, s: State, m: Move, n: nat, i: nat)
    requires ValidPlan(o.plan) && FaultsOk(o, s) && Enabled(o, s, m) && Faulted(o, s, n, i)
    ensures |Do(o, s, m).rounds| == |s.rounds|
  {
    hide ValidPlan, WorkerActions, WorkerFaults, Apply, RoundStart, Faulted;
    FaultedWorker(o, s, n, i);
  }

  /**
   How a run ends.  A loop ends only when it was stopped; any other run that was not stopped has
   done exactly the rounds that it was asked for, each one completely; and the report is that of
   its rounds, concluded.
   */
  lemma RunsAsAsked(o: Options, states: seq<State>, moves: seq<Move>, k: nat)
    requires ValidPlan(o.plan) && Distinct(o.plan.agents) && Behavior(o, states, moves) && k < |states| && states[k].stage.Over?
    ensures var s, stopped := states[k], states[k].stage.stopped;
      && (o.loop ==> stopped)
      && (!stopped ==> |s.rounds| == o.limit)
      && (!o.loop ==> |s.rounds| <= o.limit)
      && AllComplete(o.plan, s.rounds, |s.rounds|)
      && OnlyDelivery(s.early + s.late)
      && s.view == Conclude(ReportAt(o.plan, s.rounds, o.loop), stopped, s.early + s.late)
  {
    hide Behavior, ValidPlan, AllComplete, Conclude, ReportAt;
    Reachable(o, states, moves, k);
  }

  /**
   The verdict of a whole run: the worst step outcome of all its rounds, Canceled if it was
   stopped, and Fail for any problem.  Only a run that did all its rounds unstopped can pass.
   */
  lemma VerdictOfRun(o: Options, states: seq<State>, moves: seq<Move>, k: nat)
    requires ValidPlan(o.plan) && Distinct(o.plan.agents) && Behavior(o, states, moves) && k < |states| && states[k].stage.Over?
    ensures var s, stopped := states[k], states[k].stage.stopped;
      && s.view.outcome == Join(Bearing(History(s.rounds)) + (if stopped then [Canceled] else []) + Bearing(s.early + s.late))
      && s.view.counts == Tallies(History(s.rounds))
      && |s.view.problems| + s.view.evictedProblems == |ProblemsOf(History(s.rounds))| + |s.early + s.late|
      && (s.view.state == Failed <==> s.view.problems != [])
      && (s.view.state == Stopped <==> stopped && s.view.problems == [])
      && (s.view.outcome == Pass ==> !stopped && !o.loop && |s.rounds| == o.limit)
  {
    hide Behavior, ValidPlan, AllComplete, Conclude, ReportAt, Tallies, History, Run;
    RunsAsAsked(o, states, moves, k);
    HistoryIsARun(o, states, moves, k);
    var s := states[k];
    FinalOutcome(o.plan, s.rounds, o.loop, s.stage.stopped, s.early + s.late);
    if s.stage.stopped {
      var past := Bearing(History(s.rounds));
      JoinConcat(past + [Canceled], Bearing(s.early + s.late));
      JoinAppend(past, Canceled);
      NeverPass(Join(past), Canceled, Join(Bearing(s.early + s.late)));
    }
  }

  lemma NeverPass(a: Outcome, b: Outcome, c: Outcome)
    requires b == Canceled
    ensures Combine(Combine(a, b), c) != Pass
  {
  }

  /** The moves of the engine itself, as opposed to what may befall it. */
  predicate OwnMove(m: Move) {
    !m.DeliveryFails? && !m.CloseFails? && !m.Stops?
  }

  /** The engine is never stuck: until it is over, some move of its own is enabled, whatever befell it. */
  lemma NeverStuck(o: Options, states: seq<State>, moves: seq<Move>, k: nat) returns (m: Move)
    requires ValidPlan(o.plan) && Distinct(o.plan.agents) && Behavior(o, states, moves) && k < |states| && !states[k].stage.Over?
    ensures OwnMove(m) && Enabled(o, states[k], m)
  {
    hide Behavior, ValidPlan, ViewOk, WorkerActions, Interleaved;
    Reachable(o, states, moves, k);
    var s := states[k];
    match s.stage
    case Between =>
      if GoesOn(o, s) {
        var workers, clocks := SomeWorkers(o.plan, |s.rounds| + 1);
        m := RoundBegins(workers, clocks);
      } else {
        m := LoopEnds;
      }
    case Working =>
      if s.spawned < |o.plan.agents| {
        m := Spawns;
      } else if s.running == {} {
        m := AllDone;
      } else {
        var i :| i in s.running;
        m := if s.left[i] != [] then Performs(i) else if s.owed[i] > 0 then Undelivered(i) else WorkerEnds(i);
      }
    case Finishing => m := Decides;
    case Resting => m := Rests;
    case Leaving => m := Concludes;
    case Ended(_, settled) => m := if settled then Finishes else Settles;
  }

  lemma SomeWorkers(plan: Plan, round: nat) returns (workers: seq<Worker>, clocks: seq<Clock>)
    ensures Started(plan, round, RoundLog(workers, clocks, []))
  {
    var part := CheckLoop.FirstPart(false, false, CheckLoop.StatusOk, false, false);
    var quiet := CheckLoop.Reply(0, None, false, false, false, CheckLoop.NoError, true, part, CheckLoop.NoResult, {});
    var oracle: CheckLoop.Oracle := (_, _) => quiet;
    workers := seq(|plan.agents|, i requires 0 <= i < |plan.agents| => Worker(oracle, plan.agents[i], round));
    clocks := seq(|plan.agents|, _ => Clock(0, 0));
  }

  // ---------------------------------------------------------------- every run that may end does

  function Lengths(left: seq<seq<Action>>): nat {
    if left == [] then 0 else Lengths(left[..|left| - 1]) + |left[|left| - 1]|
  }

  function Total(owed: seq<nat>): nat {
    if owed == [] then 0 else Total(owed[..|owed| - 1]) + owed[|owed| - 1]
  }

  lemma {:induction false} LengthsAt(left: seq<seq<Action>>, i: nat)
    requires i < |left| && left[i] != []
    ensures Lengths(left[i := left[i][1..]]) == Lengths(left) - 1
  {
    var n := |left| - 1;
    var after := left[i := left[i][1..]];
    if i == n {
      assert after[..n] == left[..n];
    } else {
      LengthsAt(left[..n], i);
      assert after[..n] == left[..n][i := left[i][1..]];
    }
  }

  lemma {:induction false} TotalAt(owed: seq<nat>, i: nat)
    requires i < |owed| && owed[i] > 0
    ensures Total(owed[i := owed[i] - 1]) == Total(owed) - 1
  {
    var n := |owed| - 1;
    var after := owed[i := owed[i] - 1];
    if i == n {
      assert after[..n] == owed[..n];
    } else {
      TotalAt(owed[..n], i);
      assert after[..n] == owed[..n][i := owed[i] - 1];
    }
  }

  /** What is left to do: rounds, stages, workers to spawn, their actions and failures, and workers to end. */
  datatype Effort = Effort(rounds: nat, stage: nat, unspawned: nat, due: nat, running: nat)

  predicate Less(a: Effort, b: Effort) {
    || a.rounds < b.rounds
    || (a.rounds == b.rounds && a.stage < b.stage)
    || (a.rounds == b.rounds && a.stage == b.stage && a.unspawned < b.unspawned)
    || (a.rounds == b.rounds && a.stage == b.stage && a.unspawned == b.unspawned && a.due < b.due)
    || (a.rounds == b.rounds && a.stage == b.stage && a.unspawned == b.unspawned && a.due == b.due && a.running < b.running)
  }

  function StagesLeft(stage: Stage): nat {
    match stage
    case Working => 7
    case Finishing => 6
    case Resting => 5
    case Between => 4
    case Leaving => 3
    case Ended(_, settled) => if settled then 1 else 2
    case Over(_) => 0
  }

  function RoundsLeft(o: Options, s: State): nat {
    if s.stopped || o.loop || |s.rounds| >= o.limit then 0 else o.limit - |s.rounds|
  }

  function EffortOf(o: Options, s: State): Effort {
    Effort(RoundsLeft(o, s), StagesLeft(s.stage), if s.spawned < |o.plan.agents| then |o.plan.agents| - s.spawned else 0,
           Lengths(s.left) + Total(s.owed), |s.running|)
  }

  /** Every move of the engine brings it nearer to its end, once a loop was stopped. */
  lemma OwnMovesDecrease(o: Options, s: State, m: Move)
    requires ValidPlan(o.plan) && Enabled(o, s, m) && OwnMove(m) && (o.loop ==> s.stopped)
    requires s.stage == Working ==> s.rounds != []
    ensures Less(EffortOf(o, Do(o, s, m)), EffortOf(o, s))
  {
    hide ValidPlan, WorkerActions, WorkerFaults, Apply, RoundStart, Lengths, Total, Checked, Halted;
    match m
    case Performs(i) => LengthsAt(s.left, i);
    case Undelivered(i) => TotalAt(s.owed, i);
    case WorkerEnds(i) => assert |s.running - {i}| == |s.running| - 1;
    case _ =>
  }

  /** What befalls it leaves it no farther from there. */
  lemma OtherMovesKeep(o: Options, s: State, m: Move)
    requires ValidPlan(o.plan) && Enabled(o, s, m) && !OwnMove(m)
    ensures EffortOf(o, Do(o, s, m)) == EffortOf(o, s) || Less(EffortOf(o, Do(o, s, m)), EffortOf(o, s))
    ensures s.stopped ==> Do(o, s, m).stopped
  {
    hide ValidPlan, WorkerActions, WorkerFaults, Apply, RoundStart, Lengths, Total, Checked, Halted;
  }

  /** A run without end. */
  ghost predicate Endless(o: Options, states: nat -> State, moves: nat -> Move)
    requires ValidPlan(o.plan)
  {
    && states(0) == Initial(o)
    && forall i: nat :: Enabled(o, states(i), moves(i)) && states(i + 1) == Do(o, states(i), moves(i))
  }

  lemma {:induction false} EndlessInv(o: Options, states: nat -> State, moves: nat -> Move, k: nat)
    requires ValidPlan(o.plan) && Distinct(o.plan.agents) && Endless(o, states, moves)
    ensures Inv(o, states(k))
  {
    hide Do, Enabled, ValidPlan, RoundsOk, ViewOk, LoopOk;
    if k == 0 {
      InitialInv(o);
    } else {
      EndlessInv(o, states, moves, k - 1);
      StepRounds(o, states(k - 1), moves(k - 1));
      StepView(o, states(k - 1), moves(k - 1));
      StepLoop(o, states(k - 1), moves(k - 1));
    }
  }

  lemma EffortStep(o: Options, states: nat -> State, moves: nat -> Move, i: nat)
    requires ValidPlan(o.plan) && Distinct(o.plan.agents) && Endless(o, states, moves) && (o.loop ==> states(i).stopped)
    ensures if OwnMove(moves(i)) then Less(EffortOf(o, states(i + 1)), EffortOf(o, states(i)))
            else EffortOf(o, states(i + 1)) == EffortOf(o, states(i)) || Less(EffortOf(o, states(i + 1)), EffortOf(o, states(i)))
    ensures o.loop ==> states(i + 1).stopped
  {
    hide Do, Enabled, ValidPlan, ViewOk, LoopOk, EffortOf, Less;
    EndlessInv(o, states, moves, i);
    EndStays(o, states(i), moves(i));
    if OwnMove(moves(i)) {
      OwnMovesDecrease(o, states(i), moves(i));
    } else {
      OtherMovesKeep(o, states(i), moves(i));
    }
  }

  lemma {:induction false} EffortFalls(o: Options, states: nat -> State, moves: nat -> Move, i: nat, j: nat)
    requires ValidPlan(o.plan) && Distinct(o.plan.agents) && Endless(o, states, moves) && (o.loop ==> states(i).stopped) && i <= j
    ensures EffortOf(o, states(j)) == EffortOf(o, states(i)) || Less(EffortOf(o, states(j)), EffortOf(o, states(i)))
    ensures o.loop ==> states(j).stopped
    decreases j
  {
    hide Endless, EffortOf, ValidPlan, OwnMove;
    if i < j {
      EffortFalls(o, states, moves, i, j - 1);
      EffortStep(o, states, moves, j - 1);
    }
  }

  /**
   Every run ends that may: whatever befalls it, a run with a limit, or a loop from the moment it
   was stopped on, makes only so many moves of its own; and while it is not over one is enabled.
   */
  lemma {:induction false} OwnMovesRunOut(o: Options, states: nat -> State, moves: nat -> Move, from: nat) returns (last: nat)
    requires ValidPlan(o.plan) && Distinct(o.plan.agents) && Endless(o, states, moves) && (o.loop ==> states(from).stopped)
    ensures from <= last && forall j :: last <= j ==> !OwnMove(moves(j))
    decreases
      EffortOf(o, states(from)).rounds, EffortOf(o, states(from)).stage, EffortOf(o, states(from)).unspawned,
      EffortOf(o, states(from)).due, EffortOf(o, states(from)).running
  {
    hide Endless, EffortOf, ValidPlan, OwnMove;
    if j: nat :| from <= j && OwnMove(moves(j)) {
      EffortFalls(o, states, moves, from, j);
      EffortStep(o, states, moves, j);
      last := OwnMovesRunOut(o, states, moves, j + 1);
    } else {
      last := from;
    }
  }
}
