# Dropcheck controller: a verified model

Dropcheck drives Android agents through Wi-Fi plans.  This project models the part of its
controller that decides what such a run means, and proves what its comments and documentation
promise of it.  `dafny verify dfyconfig.toml` verifies everything; one module per file.

## What is modelled

**The run engine** (`controller/internal/harness`).  A world outside answers every interaction
of a kind (starting a step, waiting on the controls, acquiring, delivering an event, sleeping)
with an arbitrary reply and an arbitrary passage of time.

- `Outcomes`, `Policies`, `PolicyLaws`: severity of outcomes; normalisation of policies on
  wrapping machine integers, what its numbers count, and worlds that use them up.
- `CheckLoop`: the repeat, sample and attempt loops of one check as a recursive account and as
  the loops of the program, proved equal.  `CheckBudget`, `CheckTiming`, `CheckMeaning`,
  `CheckSchedule` and `AttemptLaws` prove how many attempts it can record, that an omitted timeout
  never ends it, what Pass means, when it tries and samples again and why it stops, and how every
  attempt ends.
- `Plans`, `Rounds`, `AgentWorker`, `Traces`, `OwnActions`, `WorkerLaws`, `RotationLaws`: what one
  agent does in one round, again as an account and as the program's loops, the shape of the trace
  it leaves, the outcomes and problems it shows, and the steps it adds of its own.
- `Costs`, `CostMethod`, `CostSoundness`, `PriceAttained`: the static price of a plan, the checked
  arithmetic that computes it, and the proofs that no round exceeds it and that rounds attain it.
- `Scopes`, `Selection`, `SelectionLaws`, `SelectionCost`, `Verdicts`, `Transparency`,
  `Realization`, `DivergingRuns`: cutting a plan down by flat sets or exact scopes; what exactly it
  keeps, that it never costs more, and exactly when it leaves verdicts as they were.
- `Compile`, `CompiledVisits`, `ReadOnly`: compilation of a plan, what visits do for the networks
  it names, and that read-only plans only observe.
- `Reports`, `Runs`, `Retention`, `Schedules`: the report under its mutex, histories as arbitrary
  interleavings of the agents' workers, what the report says of them, what it retains, and that
  no schedule shows in it.
- `Engine`: the loop over rounds as a state machine of spawned workers, their wait group, stops,
  failing deliveries and the conclusion; every run of it has such a history, with the barrier,
  ends, and ends as it should.
- `ControlSteps`, `ControlRuns`, `Interruption`, `ControlledSteps`: operator requests, step
  contexts and paused steps, and what an accepted request makes a step report, begun or not.
- `Jsonl`, `JsonlRuns`: the JSON Lines sink with its token, bounded queue, worker and device.

**The command protocol** (`controller/internal/control`).  `CommandServer` holds the server with
its sections under the mutex; `CommandRuns` is the state machine of callers, streams, cleanups and
deliveries over every interleaving; `CommandAnswers` says when answers reach their own calls.

**One parser** (`controller/internal/render`).  `MultiLink`, `MultiLinkLaws` and `MultiLinkFields`:
framing, fragment reassembly, Common Info and Per-STA profiles of the EHT Multi-Link element, section
9.4.2.312 of IEEE P802.11be/D4.0.

## How to read it

Imperative code stays imperative: loops carry their invariants, objects are classes, and each
method states its result or new state by a function of its inputs or of the old state.  The main
lemmas are about these functions: they hold for every reply of the world, every interleaving and
every reachable state.  Records of history (what was offered to a call, which requests were
accepted, how many lines were written) are state that no step reads.

Three natural claims are false of the code as it stands, and the project says exactly when they hold:

- A selection changes the verdict of a check it keeps in exactly three cases
  (`Verdicts.SelectionPreservesVerdicts`).  An optional check that it leaves out runs in front of
  it in the plan and is skipped or canceled by an operator.  Or a capability check that only the
  plan makes bars its target.  Or its target rotates per round, the selection leaves out the
  first target of the SSID, under which the plan rotates, and the rotation succeeds under one of
  the two first targets only.  Over all compiled plans and selections verdicts are kept exactly
  in the worlds where no check is ended so, no unsupported band is reported as "" or "all", and
  rotations before the round succeed or fail alike under all targets up to one that connects
  (`DivergingRuns.PreservationIsTransparency`).
- That command ids are unique among those in flight, which is all that `command.go:13` asks for,
  does not keep a late answer from reaching another call.  Every run that makes some calls gives
  each its own answer if and only if no agent is called twice with the same id, whatever calls
  they are (`CommandAnswers.OwnAnswersExactly`).
- That a read-only network without active probes dispatches requests for status only, as
  `compile.go:169` says, fails for an operation that asks for a fresh scan in front of its status
  (`ReadOnly.ScansAreAdmitted`).  Plans without such a check dispatch nothing but status, and those
  with one nothing but status and scans (`ReadOnly.ReadOnlyPlansOnlyObserve`).

The final state is "failed" exactly when a problem is still listed, so a loop that has evicted its
problems may end in another state; its outcome is Fail all the same (`Engine.VerdictOfRun`).

## Model

| member | source | states |
|---|---|---|
| Outcomes.JoinIsWorst | controller/internal/harness/execute.go:673-679 | the fold of outcomes is their worst, and one of them occurs |
| Outcomes.JoinIs | controller/internal/harness/execute.go:673-679 | one Fail makes the whole fail, else one Missing makes it missing, else one Canceled, else one Skip; Pass if and only if all pass |
| Outcomes.JoinIgnoresOrder | controller/internal/harness/execute.go:673-679 | the fold depends only on which outcomes occur, so no schedule can change it |
| Policies.NormalizePolicy | controller/internal/harness/runtime.go:244-297 | on wrapping int64/uint64 arithmetic, a policy is accepted exactly when durations are non-negative, the window fits, the attempt budget is at most 200000 and, with the timeout omitted, the unbounded-integer timeout fits; the result is then the exact unbounded value |
| Policies.ComputeTimeout | controller/internal/harness/runtime.go:270-295 | the omitted timeout: accepted exactly when attempts times (operation + delay) plus all windows fits int64, with the exact value; the count-overflow branches can no longer be taken |
| Policies.WithinBudget | controller/internal/harness/runtime.go:267-269 | the two divisions accept exactly the products of attempts, repeats and samples up to 200000 |
| Policies.CountSamples | controller/internal/harness/runtime.go:263-266 | one sample without a window, floor(window/interval) + 2 with one |
| PolicyLaws.SamplesFitWindow | controller/internal/harness/runtime.go:263-266 | with a window the n samples of a repeat are those with (n-2) intervals in the window and not (n-1); without one, n is 1 |
| PolicyLaws.NumbersAddUp | controller/internal/harness/runtime.go:267-295 | the budget is an attempt for each sample of each repeat; the omitted timeout is an operation and a delay for each of them and a window for each repeat, added one by one |
| PolicyLaws.OmittedFields | controller/internal/harness/runtime.go:245-257 | omitted counts are 1 and an omitted interval is a second; what is given stays |
| PolicyLaws.BudgetIsAttained | controller/internal/harness/runtime.go:259-269 | for all a and b and every interval of 3ns or more, Eventually a intervals and 1ns and StableFor b intervals and 1ns: there is a world in which every repeat records all its samples and the check all its budget |
| CheckLoop.CheckAttempted | controller/internal/harness/execute.go:339-467 | the repeat loop: log, outcome and problem flag are those of the recursive account, for every reply of the world and every passage of time |
| CheckLoop.RunRepeat | controller/internal/harness/execute.go:350-448 | the sampling loop of one repeat, with its eventual and stable deadlines; it ends |
| CheckLoop.TrySample | controller/internal/harness/execute.go:353-412 | the attempt loop of one sample; `attempted` is set exactly when an attempt was recorded |
| CheckLoop.EvaluateAttempt | controller/internal/harness/execute.go:469-515 | one attempt's outcome, its findings folded in order |
| CheckLoop.ExecuteOperation | controller/internal/harness/operation.go:17-118 | the dispatches of one atomic or fresh-scan attempt: a failed, missing, canceled or payload-less fresh scan ends it after one |
| CheckLoop.ExecuteGateway | controller/internal/harness/gateway.go:46-88 | the ping is dispatched only after a successful IP status that names a gateway |
| CheckLoop.Acquire | controller/internal/harness/operation.go:17-118 | an attempt dispatches an initial part of what its operation is priced at |
| CheckLoop.Wait | controller/internal/harness/controls.go:182-216 | a context that is done refuses; time and interactions only move forward |
| CheckLoop.Sleep | controller/internal/harness/execute.go:703-715 | a completed sleep of d advances the clock by at least d; a refused one has a done context |
| CheckBudget.BudgetRespected | controller/internal/harness/runtime.go:259-269 | every check records at most Repeat repeats, floor((Eventually+StableFor)/Interval)+2 (or 1) recording samples each, and Attempts*Repeat*samples <= 200000 attempts in all |
| CheckTiming.DefaultTimeoutSuffices | controller/internal/harness/runtime.go:270-295 | with an omitted timeout and a calm world (operations within their timeout, exact sleeps, nothing paused) the whole check ends strictly before the computed deadline and its context is never done |
| CheckMeaning.PassMeans | controller/internal/harness/execute.go:347-455 | Pass if and only if all Repeat repeats ended well: failing samples, a passing one in time, then only passing ones, at most an interval apart, for at least StableFor; otherwise the outcome of the last repeat that did not |
| CheckMeaning.ReportKeepsEveryAttempt | controller/internal/harness/execute.go:400-401 | the report's attempts are those of all samples of all repeats, in order and numbered |
| CheckMeaning.AttemptPasses | controller/internal/harness/execute.go:469-515 | an attempt passes if and only if nothing failed, nobody skipped or canceled it, and status, payload and every finding are good |
| AttemptLaws.AttemptEnds | controller/internal/harness/execute.go:469-515 | exactly when an attempt ends as Skip, Canceled, Fail and Missing |
| AttemptLaws.ErrorOfAttempt | controller/internal/harness/execute.go:357-388 | an attempt meets a failure if and only if it raises one or comes back without error behind its policy's or the eventual deadline, and no error at all if and only if its context is also alive |
| AttemptLaws.DispatchedExactly | controller/internal/harness/operation.go:17-118 | an attempt dispatches both acquisitions if and only if it builds and the first one is of use, else the first alone, or nothing if it does not build |
| CheckSchedule.RetriesWaitTheDelay | controller/internal/harness/execute.go:353-412 | in every world an attempt that follows another of its sample begins no sooner than the delay after that ended, and only if that settled nothing |
| CheckSchedule.CheckKeepsPace | controller/internal/harness/execute.go:350-448 | in every world each sample tries until an attempt settles it, none is left, its context ends or the eventual deadline passes; another sample is taken if and only if one is due, after exactly an interval or what time is left; and the repeat ends as its last sample says unless its context ended in a pause |
| CheckSchedule.ProblemMeans | controller/internal/harness/execute.go:449-462 | a check raises a problem if and only if, behind some repeat, it had not passed and the last attempt of that repeat met a failure |
| AgentWorker.RoundNow | controller/internal/harness/execute.go:233-290 | one agent's round: the actions it performs are those of the structured account, in order |
| AgentWorker.TargetNow | controller/internal/harness/execute.go:292-333 | one target: rotation, connect, wait, checks, and the deferred cleanup exactly when a connection attempt began |
| AgentWorker.BodyNow | controller/internal/harness/execute.go:299-333 | connect, wait, checks and cleanup, with the join of their outcomes |
| AgentWorker.ChecksNow | controller/internal/harness/execute.go:319-332 | the loop over checks with its `ready` flag |
| AgentWorker.CheckNow | controller/internal/harness/execute.go:456-466 | a check raises its problem before it records its report |
| AgentWorker.CleanUp | controller/internal/harness/execute.go:584-624 | disconnect before forget, each at most once, problems for those that do not pass |
| AgentWorker.CleanOne | controller/internal/harness/execute.go:597-615 | one owned cleanup operation |
| AgentWorker.RotateNow | controller/internal/harness/execute.go:626-635 | one MAC rotation: a problem when it cannot be built, a report otherwise |
| AgentWorker.PreflightNow | controller/internal/harness/execute.go:244-258 | one capability check for the first banded target, and the bands it reports as unsupported |
| AgentWorker.RotateBefore | controller/internal/harness/execute.go:259-269 | one rotation per SSID before the round; the map holds exactly the SSIDs that rotate, with their success |
| AgentWorker.RotateAfter | controller/internal/harness/execute.go:282-288 | one rotation per SSID after the round |
| AgentWorker.VisitNow | controller/internal/harness/execute.go:270-281 | a target is skipped for an unsupported band or a failed rotation, and visited otherwise |
| AgentWorker.VisitsNow | controller/internal/harness/execute.go:270-281 | all targets in plan order |
| AgentWorker.SkipTarget | controller/internal/harness/execute.go:575-583 | every step of a skipped target gets a skip report |
| AgentWorker.TargetsNow | controller/internal/harness/execute.go:235-243 | the targets bound to an agent, in plan order |
| WorkerLaws.VisitShowsWorst | controller/internal/harness/execute.go:299-333 | a visit shows the worst outcome of its connection, its wait, the checks that were run and its cleanup |
| WorkerLaws.CleanupPasses | controller/internal/harness/execute.go:584-624 | what each cleanup operation dispatches, and exactly when it passes |
| WorkerLaws.ProblemsCounted | controller/internal/harness/execute.go:233-290 | the problems of a round are those of its steps, one for each rotation that cannot be built and one for each cleanup operation that did not pass |
| RotationLaws.RoundOwnSteps | controller/internal/harness/execute.go:233-290 | a round checks capabilities exactly when a target is bound to a band, and rotates before and after its targets once for the first target of every SSID that rotates per round; each of these steps has its name, one attempt at most and one command |
| RotationLaws.RotationTargetsAreFirst | controller/internal/harness/execute.go:259-269 | the targets under which a round rotates are the first of every SSID that rotates per round, in plan order |
| RotationLaws.VisitRotates | controller/internal/harness/execute.go:292-298 | a visit rotates exactly when its target rotates per target and no band bars it, and is barred when that rotation does not pass |
| RotationLaws.BarredExactly | controller/internal/harness/execute.go:245-279 | a visit is barred exactly when a passing capability check reported its band, when it rotates per round and no rotation of its SSID before the round passed, or when its own rotation did not pass; its steps are then skipped for that reason |
| RotationLaws.OwnPolicyCompiled | controller/internal/harness/execute.go:626-627 | the policy of the engine's own steps is what an empty policy is compiled to |
| WorkerLaws.BandNormalForm | controller/internal/harness/execute.go:694-694 | bands are compared without spaces and capitals |
| Traces.VisitTrace | controller/internal/harness/execute.go:292-333 | every visit has one shape: rotation, connect, wait, checks, disconnect, forget; nothing is dispatched past a prerequisite that did not pass, every check is reported exactly once, a wait is left out exactly where a connection was tried and failed, cleanup if and only if a connect attempt began |
| Traces.RoundTrace | controller/internal/harness/execute.go:233-290 | an agent's round is one capability report at most, the rotations before, a well-shaped part per target in order, the rotations after |
| OwnActions.WorkerOwns | controller/internal/harness/execute.go:233-290 | a worker acts for its own agent and round only and begins each round by showing progress |
| CostMethod.PlanCost | controller/internal/harness/cost.go:19-124 | accepted exactly when the unbounded price fits every limit, with the exact price; every checked sum and product included |
| CostMethod.CheckedProduct | controller/internal/harness/runtime.go:23-32 | the product, or an error exactly when it overflows uint64 |
| CostMethod.CheckedSum | controller/internal/harness/runtime.go:34-39 | the sum, or an error exactly when it overflows uint64 |
| CostMethod.PriceStep | controller/internal/harness/cost.go:41-69 | one step for all bound agents: attempts times constituents |
| CostMethod.PriceAgent | controller/internal/harness/cost.go:70-111 | one agent's share: preflight and per-round rotation once per key, per-target rotation, owned cleanup |
| CostSoundness.CostIsSound | controller/internal/harness/cost.go:8-124 | all agents of a round together record at most AttemptsPerRound attempts and dispatch at most OperationsPerRound operations, whatever happens |
| PriceAttained.PriceIsAttained | controller/internal/harness/cost.go:8-124 | where policies neither retry nor sample and every SSID to forget can be forgotten, a round in which everything passes comes to exactly the price, in attempts and in operations |
| CostSoundness.CheckLoad | controller/internal/harness/cost.go:45-65 | one check never exceeds its share, and each attempt dispatches an initial part of its constituents |
| CostSoundness.AgentSound | controller/internal/harness/cost.go:70-111 | one agent's round stays within what its targets cost it, plus its preflight and its rotations |
| Selection.Select | controller/internal/harness/compile.go:469-536 | flat sets or exact scopes: accepted exactly under the stated conditions, with the exact selected plan |
| Selection.SelectFlat | controller/internal/harness/compile.go:476-536 | selection by agents, targets and checks |
| Selection.SelectScopes | controller/internal/harness/compile.go:561-633 | selection by exact scopes, one copy of a target per selected agent |
| Selection.SelectedChecks | controller/internal/harness/compile.go:538-559 | the named checks and every required check before the last of them |
| SelectionLaws.FlatSelectionIsExact | controller/internal/harness/compile.go:476-559 | for every accepted flat selection: the targets asked for and no others, in order, each with its own steps, its agents that are asked for, and exactly the named checks and the required ones in front of a named one, in order |
| SelectionLaws.NamedCheckIsSelected | controller/internal/harness/compile.go:538-559 | a check asked for by name is in the copy of every target asked for that has it |
| SelectionLaws.ScopedSelectionIsExact | controller/internal/harness/compile.go:561-633 | for every accepted selection by exact scopes: one copy for every target at every agent a scope asks for and no other, in order, with all checks, or exactly the named ones and the required ones in front of a named one |
| SelectionCost.SelectionNeverCostsMore | controller/internal/harness/compile.go:469-633 | if a plan is accepted for some rounds so is every selection of it, and no figure of its price is larger |
| Verdicts.VerdictsDetermined | controller/internal/harness/execute.go:233-333 | when every step, rotations included, is answered by its target and step alone, each check's outcome and skip reason are a function of the plan |
| Verdicts.SelectionPreservesVerdicts | controller/internal/harness/compile.go:469-633 | in any two rounds that answer by target and step, of a plan and of a selection of it, a check the selection keeps ends with the same outcome and reason in both if and only if no capability check that only the plan makes bars its target, no check that the selection drops runs in front of it and is ended by an operator, and the rotation of its SSID does not succeed under the first target of only one of the two |
| Verdicts.VerdictKeptExactly | controller/internal/harness/compile.go:538-559 | the same exact condition for every plan, flat or scoped selection, world and kept check, of what the plan and the world determine |
| DivergingRuns.PreservationIsTransparency | controller/internal/harness/compile.go:538-559 | over all plans that compile, all selections that are accepted and all pairs of rounds: verdicts are always kept if and only if no check a plan can name is skipped or canceled by an operator, no band is reported unsupported under the name "" or "all", and rotations before the round succeed or fail alike under any two targets in front of one that connects, or under that one |
| DivergingRuns.InterruptionShows | controller/internal/harness/execute.go:319-332 | counterexample for every such check: a plan that compiles, an accepted selection and two rounds in which the check behind the interrupted one is skipped in the plan and runs in the selection |
| DivergingRuns.BarringShows | controller/internal/harness/execute.go:244-275 | counterexample for every such report: a compiled plan whose capability check, made for another target, bars one without a band, and a round of the selection that makes none |
| DivergingRuns.RotationShows | controller/internal/harness/execute.go:259-280 | counterexample for all targets m < n <= k where the rotations under m and n end differently and k connects: a compiled plan of one SSID from m on, the selection of n and k, and two rounds in which the check at k runs in one only |
| Realization.EveryWorldHasItsRun | controller/internal/harness/execute.go:233-333 | for every world and all targets whose steps are tried once there is an agent whose whole round answers as the world does, so that what is said of such rounds is said of something |
| Transparency.TransparencySuffices | controller/internal/harness/compile.go:469-633 | in a transparent world every accepted selection, flat or scoped, of every compiled plan keeps the verdict of every check it keeps |
| Verdicts.SelectedCheckHasOrigin | controller/internal/harness/compile.go:538-633 | every check of a selection is a check of the plan at the same target for the same agent |
| Compile.CompilePlan | controller/internal/harness/compile.go:61-200 | accepted exactly when every network, step, check and binding is, with the exact compiled plan |
| Compile.CompileTarget | controller/internal/harness/compile.go:69-198 | connect only for owned networks, wait only where asked for, a read-only target must have a check |
| Compile.CompileChecks | controller/internal/harness/compile.go:138-186 | checks admitted one by one; a repeated id is refused |
| Compile.CompileStep | controller/internal/harness/compile.go:219-265 | a step is compiled exactly when it is valid and its policy acceptable, with the normalised policy |
| Compile.NormalizeNetwork | controller/internal/harness/compile.go:69-115 | what a network may ask for; rotation forces disconnecting, per target also forgetting |
| Compile.BindAgents | controller/internal/harness/compile.go:279-305 | all agents without a selector; otherwise one exact or one unique prefix match |
| Compile.SelectorBindsOne | controller/internal/harness/compile.go:279-305 | a selector binds the only agent that bears it or, if none does, the only one whose serial number it begins |
| Compile.CompiledPlanValid | controller/internal/harness/compile.go:61-200 | compiled plans have normalised policies, distinct target and check ids, and only the agents given |
| CompiledVisits.CleanupAsAsked | controller/internal/harness/compile.go:95-116 | a visit of a compiled target whose connection attempt began disconnects if and only if its network asks for it or names a rotation, and forgets if and only if it asks for that or rotates per target and the SSID can be forgotten; no other visit does |
| CompiledVisits.VisitServesNetwork | controller/internal/harness/compile.go:118-198 | every visit reports one connection unless the network is read-only, a wait only if asked for, the plan's checks and then the network's under their names; each dispatches nothing but its own operation |
| CompiledVisits.StepsAsAsked | controller/internal/harness/compile.go:117-183 | every step of a compiled target has the policy asked for it with its gaps filled, timeout included, and every check is required as asked |
| CompiledVisits.PrerequisitesAsAsked | controller/internal/harness/execute.go:308-332 | in a visit that is not barred a check is left out for a prerequisite exactly when the connection or the wait did not pass, or an earlier check was required and did not pass, or was canceled or skipped by an operator |
| CompiledVisits.ObserversOnly | controller/internal/harness/compile.go:74-80 | a read-only network is accepted if and only if it says nothing but its SSID, Network ID, agent, probes and checks |
| CompiledVisits.OwnersOnly | controller/internal/harness/compile.go:74-114 | exactly which owned networks are accepted |
| ReadOnly.ReadOnlyPlansOnlyObserve | controller/internal/harness/compile.go:78-175 | no run of a compiled plan of read-only networks, or of a selection of it, of any length and in any interleaving, dispatches anything but observations: no connect, wait, assertion, monitoring, disconnect, forget, reconnect or cycle; and where no network has active probes nothing but requests for status, and a scan where a check asks for one in front |
| ReadOnly.ScansAreAdmitted | controller/internal/harness/compile.go:168-170 | every network without active probes admits a check that asks for a fresh scan in front of its status, and where everything passes each of its attempts dispatches the scan |
| ReadOnly.CompiledReadOnly | controller/internal/harness/compile.go:168-175 | a read-only network compiles to a target without connection, wait, rotation, band or cleanup whose checks only observe |
| Reports.Execution.Record | controller/internal/harness/execute.go:517-530 | one report: appended, joined, and counted in total and for its agent |
| Reports.Execution.RaiseProblem | controller/internal/harness/execute.go:204-213 | a problem is listed and the outcome is Fail |
| Reports.Execution.ShowProgress | controller/internal/harness/execute.go:215-231 | progress of a new round forgets the counts of the old one |
| Reports.Execution.AddCleanup | controller/internal/harness/execute.go:610-616 | a cleanup record is appended |
| Reports.Execution.EvictBefore | controller/internal/harness/execute.go:637-647 | older steps, cleanup records and problems go, problems of no round stay, evicted ones are counted |
| Reports.Execution.Run | controller/internal/harness/execute.go:90-163 | the loop over rounds with its exit conditions: which rounds are run, that it ends early exactly when stopped by an operator or a failed delivery, with eviction and the conclusion |
| Reports.WhyItEnds | controller/internal/harness/execute.go:90-127 | a round in which an operator stopped the run or a delivery failed is the last and leaves it stopped; a stopped run was stopped so, before it began, or asleep |
| Engine.HistoryIsARun | controller/internal/harness/execute.go:90-120 | at every state of every run of the engine the log is an interleaving of the workers of each round, every round complete before the next begins, and the report is that of the log |
| Engine.BarrierHolds | controller/internal/harness/execute.go:98-105 | when a worker acts every worker of every earlier round has done all its work, derived from the counter of the wait group |
| Engine.StepsBehindBarrier | controller/internal/harness/execute.go:98-105 | at every moment and in the final report steps stand in the order of their rounds |
| Engine.NeverStuck | controller/internal/harness/execute.go:90-120 | until it is over the engine has an enabled move of its own at every reachable state |
| Engine.OwnMovesDecrease | controller/internal/harness/execute.go:90-160 | every move of the engine decreases what is left of a run with a limit or of a stopped loop: rounds, stages, workers to spawn, actions and failures to report, workers to end |
| Engine.OwnMovesRunOut | controller/internal/harness/execute.go:90-160 | whatever befalls it, a run with a limit, or a loop once stopped, makes finitely many moves of its own; with NeverStuck, it ends |
| Engine.NoRoundAfterStop | controller/internal/harness/execute.go:90-120 | once the run was stopped no round begins |
| Engine.StoppedExactly | controller/internal/harness/execute.go:124-127 | the conclusion sees the run stopped exactly when an operator or a failed delivery stopped it before |
| Engine.DeliveryFailureFails | controller/internal/harness/execute.go:196-213 | a delivery that fails before the conclusion ends the run as stopped, in state failed, with outcome Fail |
| Engine.StepFaultFails | controller/internal/harness/execute.go:196-213 | a delivery that fails under a step of any worker makes its round the last and the run end as stopped, in state failed, with outcome Fail |
| Engine.RunsAsAsked | controller/internal/harness/execute.go:90-163 | a loop ends only when stopped; any other run that was not stopped has done exactly the rounds asked for, each completely; the report is their report, concluded |
| Engine.ReportStaysBounded | controller/internal/harness/cost.go:113-122 | at every moment of an accepted run the report holds at most 200000 attempts, of a loop at most two rounds' worth |
| Runs.TotalsAreTallies | controller/internal/harness/execute.go:517-530 | at every moment the counts are the tallies of all steps ever reported, the outcome is their join with Fail for every problem, and listed plus evicted problems are those ever raised |
| Runs.AgentsAreTallies | controller/internal/harness/execute.go:215-231 | an agent's counts and outcome are those of its own actions in the current round |
| Engine.VerdictOfRun | controller/internal/harness/execute.go:121-163 | the final outcome is the join of all step outcomes of the run, Canceled if it was stopped, Fail if a problem was ever raised even if evicted; counts and problems are accounted for; the state is failed exactly when a problem is still listed; only an unstopped run of all its rounds can pass |
| Runs.PerformedBy | controller/internal/harness/execute.go:97-105 | every action of a round, delivery problems apart, is one that a worker of the round performs |
| Runs.RoundWithinPrice | controller/internal/harness/cost.go:8-17 | in whatever order workers act and however far they have come, a round stays within its price |
| Runs.HistoryWithinPrice | controller/internal/harness/cost.go:113-122 | a run of n rounds stays within n times the price of a round, in attempts and in operations |
| Runs.FiniteRetentionBounded | controller/internal/harness/cost.go:113-122 | an accepted finite run never retains more than 200000 attempts |
| Runs.LoopRetains | controller/internal/harness/execute.go:94-96 | a loop retains exactly the steps of its last two rounds; EvictedRounds is n-2 from round 3 on |
| Runs.LoopRetentionBounded | controller/internal/harness/execute.go:637-647 | a loop retains at most twice AttemptsPerRound, only of the last two rounds, and accounts for every problem |
| Retention.LoopRetainsCleanup | controller/internal/harness/execute.go:637-647 | a loop retains the cleanup records of its last two rounds, all of them and nothing else |
| Retention.LoopListsRecentProblems | controller/internal/harness/execute.go:637-647 | a loop lists every problem of the run as a whole, of the current round and of the one before, in order |
| Retention.FiniteKeepsAll | controller/internal/harness/execute.go:90-96 | a finite run retains every cleanup record and lists every problem |
| Schedules.ReportIgnoresSchedule | controller/internal/harness/execute.go:97-105 | two runs with the same workers conclude with the same outcome, state, counts, agents and eviction figures, and the same lists up to order, for every pair of schedules |
| ControlSteps.Controls.BindTo | controller/internal/harness/controls.go:63-86 | controls serve one run; the valid scopes are exactly those of the plan |
| ControlSteps.Controls.Ask | controller/internal/harness/controls.go:104-146 | accepted exactly for a bound run and a known scope; ends exactly the active contexts it contains, and replaces the wake channel |
| ControlSteps.Controls.Open | controller/internal/harness/controls.go:162-180 | a new context is ended at once when an earlier request covers it, cancel before skip |
| ControlSteps.Controls.Release | controller/internal/harness/controls.go:179-179 | a finished step leaves the active contexts |
| ControlSteps.Controls.Look | controller/internal/harness/controls.go:188-198 | a waiter learns whether it is paused and captures the current channel in one section |
| ControlSteps.Controls.BeginRound | controller/internal/harness/controls.go:218-218 | skips are forgotten |
| ControlSteps.CollectScopes | controller/internal/harness/controls.go:70-84 | the scopes of the run, of every bound agent, target and step |
| ControlRuns.CancelLeavesNoGap | controller/internal/harness/controls.go:104-180 | after an accepted cancel every context within its scope has ended, active then or created at any time since |
| ControlRuns.SkipLeavesNoGap | controller/internal/harness/controls.go:104-180 | the same for skip until the next round |
| ControlRuns.RequestIsPrecise | controller/internal/harness/controls.go:127-179 | at every step of every run exactly those contexts end that had not ended and lie within the scope of the skip or cancel accepted then, or are released or lose their parent then, each for that reason |
| ControlRuns.OpeningIsExact | controller/internal/harness/controls.go:162-180 | a step begins canceled if and only if a cancel around it was ever accepted, else skipped if and only if a skip was in this round |
| ControlledSteps.RequestsReachReports | controller/internal/harness/controls.go:162-216 | a step opened under an accepted cancel, or a skip of this round, reports Canceled or Skip and makes no attempt |
| ControlledSteps.RequestsReachRunningSteps | controller/internal/harness/controls.go:104-216 | a step under way when a skip or cancel around it is accepted does not pass, if it has an interaction left, and at most the last attempt it reports began behind the first interaction to end after the request, and right behind it |
| Interruption.InterruptedCheck | controller/internal/harness/execute.go:350-448 | whenever the context of a check is canceled during one of its interactions, it does not pass, and all its attempts but the last began before |
| ControlRuns.EndingsWereAskedFor | controller/internal/harness/controls.go:127-179 | every context ended by cancel or skip lies within a scope that was asked for before |
| ControlRuns.NoLostWakeup | controller/internal/harness/controls.go:182-216 | at every moment a blocked step is paused, or its channel is closed and it may wake |
| ControlRuns.ResumedWhenClear | controller/internal/harness/controls.go:188-205 | a step resumes only at an instant at which no paused scope contained it |
| ControlRuns.PausedExactly | controller/internal/harness/controls.go:104-126 | a scope is paused if and only if a pause of it was accepted and no resume of it since |
| ControlRuns.GoesOnWhenResumed | controller/internal/harness/controls.go:182-205 | a step goes on only when every scope around it that was ever paused has been resumed since |
| ControlRuns.RunCanceledExactly | controller/internal/harness/controls.go:127-146 | the run is stopped if and only if a cancel of the whole run was accepted |
| ControlRuns.ActiveExactly | controller/internal/harness/controls.go:162-180 | a step context is within reach of requests exactly from its opening to its release |
| ControlRuns.KnownScopes | controller/internal/harness/controls.go:63-86 | controls know the run and every bound agent, target and step by name, and nothing else |
| ControlRuns.ReachedByFour | controller/internal/harness/controls.go:49-61 | of the scopes a request may name exactly four reach a step: the run, its agent, its target at that agent, and itself |
| ControlRuns.AcceptedExactly | controller/internal/harness/controls.go:63-126 | a request is accepted if and only if its scope is one of the first run that was bound, and that run is not finished |
| CommandServer.Server.Connect | controller/internal/control/session.go:53-62 | a new stream supersedes and closes the current one of its agent |
| CommandServer.Server.Begin | controller/internal/control/command.go:35-64 | a call is registered exactly when its agent is connected by the expected session and its id is free |
| CommandServer.Server.Return | controller/internal/control/command.go:66-72 | a caller removes its own waiter only |
| CommandServer.Server.Deliver | controller/internal/control/command.go:132-146 | a response is put to the waiter of its id on its own, current connection; a second one is dropped |
| CommandServer.Server.Sweep | controller/internal/control/session.go:114-126 | every waiter of a connection leaves with its disconnect error |
| CommandServer.Server.CleanUp | controller/internal/control/session.go:105-129 | the deferred section of a session |
| CommandServer.Server.Pending | controller/internal/control/server.go:89-104 | the number of waiters of a connection |
| CommandRuns.RegistryAgrees | controller/internal/control/session.go:53-129 | at every moment conns and infos have equal keys and matching sessions, no waiter is on a cleaned-up connection, and pinned calls and their frames are on their own session |
| CommandRuns.NobodyStranded | controller/internal/control/command.go:74-98 | once its connection was superseded or cleaned up, every call in flight has an enabled exit |
| CommandRuns.InFlightIsRegistered | controller/internal/control/command.go:53-72 | at every state of every run a call in flight on a connection that was not cleaned up holds the waiter of its id |
| CommandRuns.ReturnSparesOthers | controller/internal/control/command.go:66-72 | a returning caller never takes the waiter of another call in flight, even if that registered the same id again |
| CommandRuns.SupersededDeliversNothing | controller/internal/control/command.go:132-137 | a stream that is not current never delivers again |
| CommandRuns.NeverCurrentAgain | controller/internal/control/session.go:53-61 | a superseded or cleaned-up stream is never current again |
| CommandRuns.OneStreamPerAgent | controller/internal/control/session.go:53-118 | a stream that is neither closed nor cleaned up is the current one of its agent |
| CommandRuns.QueuesStayBounded | controller/internal/control/session.go:44-49 | no stream ever has more than 16 frames queued |
| CommandRuns.ResponsesRouted | controller/internal/control/command.go:82-98 | a call gets the first response offered to it, from its own connection: delivered while that was current by the agent that had been sent a command with its id, or its disconnect error |
| CommandRuns.AnswerReachesCall | controller/internal/control/command.go:132-146 | an answer that the current stream delivers for a call in flight on it is put to that call, which can take it if it is the first |
| CommandRuns.TakesOnce | controller/internal/control/command.go:82-90 | a call consumes at most one response |
| CommandAnswers.OwnAnswersExactly | controller/internal/control/command.go:11-20 | for every list of calls: every run that makes them gives each its own answer if and only if no agent is called twice with the same id |
| CommandAnswers.RepeatMisleads | controller/internal/control/command.go:132-146 | counterexample for any two calls of an agent with the same id among any others: a run in which the late answer to the first reaches the second |
| CommandAnswers.AnswersAreOwn | controller/internal/control/command.go:132-146 | while no agent was called twice with the same id, every answer that reached a call is about that call |
| Jsonl.Sink.constructor | controller/internal/harness/jsonl.go:50-70 | a sink without an output is born closed, failed and done |
| Jsonl.Sink.CheckError | controller/internal/harness/jsonl.go:90-93 | a failed or finished sink refuses and returns the token |
| Jsonl.Sink.TryAdmit | controller/internal/harness/jsonl.go:94-109 | queued when open and there is room, refused when closed; the token goes back |
| Jsonl.Sink.WriteLine | controller/internal/harness/jsonl.go:156-174 | nothing is written after a failure; a short write is one |
| Jsonl.Sink.SyncLine | controller/internal/harness/jsonl.go:163-171 | a failed sync is a failure |
| Jsonl.Sink.HandleNext | controller/internal/harness/jsonl.go:151-175 | one request from the queue to its answer |
| Jsonl.Sink.Drain | controller/internal/harness/jsonl.go:180-193 | everything queued is handled, then the output is closed |
| JsonlRuns.LogIsFaithful | controller/internal/harness/jsonl.go:149-196 | at every moment the output is the lines of an initial part of the accepted events in order, followed by at most a part of the next, and that only while it is synced or after a failure |
| JsonlRuns.NothingAfterFailure | controller/internal/harness/jsonl.go:156-174 | nothing is written after the first Write or Sync failure |
| JsonlRuns.DeliveredMeansSynced | controller/internal/harness/jsonl.go:74-107 | an Emit that returns nil has its line written and synced |
| JsonlRuns.DoneMeansAnswered | controller/internal/harness/jsonl.go:149-196 | once done is closed the queue is empty and every accepted request was acknowledged exactly once |
| JsonlRuns.AcceptedIsConserved | controller/internal/harness/jsonl.go:96-175 | accepted is handled, in hand and queued, in order; the queue holds at most 16 |
| JsonlRuns.ClosedAdmitsNothing | controller/internal/harness/jsonl.go:94-97 | nothing is admitted once closed |
| JsonlRuns.OverMeansRefused | controller/internal/harness/jsonl.go:87-93 | an event that meets a failed or finished sink is refused at once and never accepted; no other is refused there |
| JsonlRuns.CloseTellsFailures | controller/internal/harness/jsonl.go:120-147 | a Close that has returned reports an error if and only if a write, a sync or the closing of the output failed, or it was not waited for |
| MultiLink.ParseElement | controller/internal/render/eht_multi_link.go:282-348 | control, Common Info, subelements and the truncation flag, exactly |
| MultiLink.ParseSubelements | controller/internal/render/eht_multi_link.go:309-332 | the framing loop |
| MultiLink.HandOutFragments | controller/internal/render/eht_multi_link.go:358-372 | the first pass: every fragment goes to the last subelement before it |
| MultiLink.Reassemble | controller/internal/render/eht_multi_link.go:374-423 | the second pass: reassembled data, profiles, fragment targets and counts |
| MultiLink.ParseCommonInfo | controller/internal/render/eht_multi_link.go:426-482 | the announced fields in order, and whether one cannot be read |
| MultiLink.ParseProfile | controller/internal/render/eht_multi_link.go:484-556 | a Per-STA profile: STA Info fields, elements, truncation |
| MultiLink.ParseProfileElements | controller/internal/render/eht_multi_link.go:578-617 | the framing loop of profile elements, with extension ids |
| MultiLink.FramesOfEncoded | controller/internal/render/eht_multi_link.go:309-332 | parsing an encoded list returns the list |
| MultiLink.EncodedFrames | controller/internal/render/eht_multi_link.go:309-332 | for every input the frames encode to all of it but a lone last byte, and only the last may be cut short |
| MultiLink.TruncatedExactly | controller/internal/render/eht_multi_link.go:309-332 | an input is called truncated if and only if it encodes no list of whole frames |
| MultiLink.LacksExactly | controller/internal/render/eht_multi_link.go:426-482 | fields cannot all be read if and only if together they pass the declared end or the data |
| MultiLink.FieldsRoundTrip | controller/internal/render/eht_multi_link.go:426-482 | reading written fields gives them back |
| MultiLinkFields.CommonInfoRoundTrip | controller/internal/render/eht_multi_link.go:426-482 | a basic element written with any of the eight named fields of Common Info, each under its own control bit and in order, parses back to exactly these fields and its subelements, untruncated |
| MultiLinkFields.StaInfoRoundTrip | controller/internal/render/eht_multi_link.go:484-556 | a profile written with any of the named fields of STA Info, its link id and its complete bit, each under its own control bits and in order, parses back to exactly these and its elements, untruncated |
| MultiLinkFields.ElementWholeExactly | controller/internal/render/eht_multi_link.go:282-348 | an element is untruncated exactly when it is only a control word, or when the length octet of Common Info covers itself and all announced fields, reaches no further than the data, and whole subelements follow |
| MultiLinkFields.ProfileWholeExactly | controller/internal/render/eht_multi_link.go:484-556 | a profile is untruncated exactly when its length octet covers itself and all announced fields of STA Info and reaches no further than the data |
| MultiLinkFields.ElementNames | controller/internal/render/eht_multi_link.go:578-617 | a profile element with id 255 names itself by the first octet of its data; no other does, nor an empty one |
| MultiLinkLaws.SubelementsRoundTrip | controller/internal/render/eht_multi_link.go:282-348 | behind Common Info of its declared length, parsing encoded subelements returns them |
| MultiLinkLaws.UntruncatedReencodes | controller/internal/render/eht_multi_link.go:282-348 | an untruncated parse encodes to exactly the bytes behind Common Info |
| MultiLinkLaws.ReassembledIsRun | controller/internal/render/eht_multi_link.go:357-384 | reassembled data is a subelement's own and that of the unbroken run of fragments behind it |
| MultiLinkLaws.ReassemblyLosesNothing | controller/internal/render/eht_multi_link.go:357-423 | orphaned fragments and reassembled data together are all the data, in order |
| MultiLinkLaws.SplitProfileParsesBack | controller/internal/render/eht_multi_link.go:357-423 | a profile of any length split into a subelement and fragments with the id 254 or 1 parses back to itself, with its fragments counted |
| MultiLinkLaws.ProfileRoundTrip | controller/internal/render/eht_multi_link.go:484-617 | a profile built of STA Info fields and whole elements has exactly those, and is not called truncated |

## Left out

- Time moves only while a step waits on its controls, acquires, delivers an event or sleeps; between these the program's own steps take no time.
- A step's contexts are its own: whether the run or an operator ends them is drawn anew for every step by the world's replies, so the engine's proofs hold for every pattern of requests; ControlledSteps composes them with the controls for one step, begun before or after the request, not for a whole round.
- The engine draws the answers that a round's workers will get when the round begins and spends no time resting; a worker reports the deliveries that failed under its steps at some moment before it ends, and those that fail under no step, or during cleanup, are moves of their own.
- Messages, reasons, redaction, sanitising, snapshots and every event but its delivery failures: presentation and copying.
- Terminal findings of a report (execute.go:547-569): they only select among findings already recorded, and findings are folded into outcomes here.
- The choice of a default gateway among routes and the binding of selectors to probes: given as facts about replies and plans.
- Building and validating operations, the forget operation of an SSID among them, resolving secrets, and the timeouts of operations: given as facts about a plan; a compiled step's operation is its command, how many acquisitions it takes, and its timeout.
- Compile errors are all one error, and preview, traffic and destination texts are absent.
- Bands are lower-cased as ASCII text.
- Counters of the report are unbounded; the program's are 64 bits wide.
- A scope stands for its own key; identifiers that contain NUL are not considered.
- Release and cancellation of contexts by their parents are single steps, in the order in which they take effect.
- The loop of a waiter (controls.go:182-216) is modelled by its steps in ControlRuns, since other parties act between them.
- Emit, Close and the worker of the JSON Lines sink are modelled by their steps in JsonlRuns for the same reason; JSON encoding is absent, and that every blocked Emit is woken is not claimed.
- Calls (command.go:29-100) are modelled by their steps in CommandRuns; heartbeats, logs, tokens, hello frames and the readiness channel are absent, and so are WaitAgents and the resolution of agent names, which only read the registry.
- CommandRuns.NobodyStranded: for a call that is still enqueueing on a connection that was cleaned up but not yet closed, the exit is the closing that the cleanup is about to do.
- Names of types, subelements and elements, flags, vendor data and hexadecimal rendering of the Multi-Link element: presentation; field values are kept as bytes.
- gRPC, ADB, ports, files, timers, the terminal interface and the command grammar are not part of this model.
