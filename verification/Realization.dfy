/**
 Every world has its runs: for every world, and all targets whose steps are tried once, an agent
 follows a script of replies under which its whole round answers as the world does.
 */
module Realization {
  import opened Outcomes
  import opened Policies
  import opened CheckLoop
  import opened Plans
  import opened Rounds
  import opened Verdicts

  // ---------------------------------------------------------------- one step

  const NO_PART := FirstPart(false, false, StatusOk, false, false)

  /** An agent that answers at once, so that a step ends as it is told to. */
  function ReplyFor(o: Outcome, bands: set<string>): Reply {
    var raw :=
      match o
      case Pass => Typed(StatusOk, true, [])
      case Fail => Typed(StatusOther, true, [])
      case Missing => NoResult
      case Canceled => Typed(StatusCanceled, true, [])
      case Skip => NoResult;
    Reply(0, if o == Skip then Some(OperatorSkip) else None, false, false, false, NoError, true, NO_PART, raw, bands)
  }

  /** A step that is tried once. */
  predicate Once(p: Policy) {
    Runnable(p) && p.attempts == 1 && p.repeat == 1 && p.eventually == 0 && p.stableFor == 0
  }

  /** What an agent replies during a step that is tried once, for the step to end as it is told to. */
  function StepReplies(o: Outcome, bands: set<string>): (script: seq<Reply>)
    ensures |script| == (if o == Skip then 2 else 5) && forall i :: 0 <= i < |script| ==> script[i] == ReplyFor(o, bands)
  {
    seq(if o == Skip then 2 else 5, _ => ReplyFor(o, bands))
  }

  /** The agent follows a script from some interaction on. */
  ghost predicate Follows(oracle: Oracle, from: nat, script: seq<Reply>) {
    forall x, n :: from <= n < from + |script| ==> oracle(x, n) == script[n - from]
  }

  lemma FollowsBoth(oracle: Oracle, from: nat, first: seq<Reply>, rest: seq<Reply>)
    requires Follows(oracle, from, first + rest)
    ensures Follows(oracle, from, first) && Follows(oracle, from + |first|, rest)
  {
    forall x, n | from <= n < from + |first|
      ensures oracle(x, n) == first[n - from]
    {
      assert oracle(x, n) == (first + rest)[n - from];
    }
    forall x, n | from + |first| <= n < from + |first| + |rest|
      ensures oracle(x, n) == rest[n - from - |first|]
    {
      assert oracle(x, n) == (first + rest)[n - from];
    }
  }

  lemma AnswerEvaluates(o: Outcome, bands: set<string>)
    requires o != Skip
    ensures Evaluate(NoError, None, ReplyFor(o, bands).raw) == o
  {
  }

  lemma SkippedTries(e: Env, s: State)
    requires Once(e.policy) && s.c.done == Some(OperatorSkip)
    ensures Tries(e, s, 1, 1, 1, None, Missing) == (s, Skip)
  {
  }

  lemma AnsweredTries(e: Env, s: State, o: Outcome, bands: set<string>)
    requires Once(e.policy) && o != Skip && s.c.done.None? && s.c.cause.None? && s.c.now < s.c.limit
    requires forall x, n :: s.c.next <= n < s.c.next + 3 ==> e.oracle(x, n) == ReplyFor(o, bands)
    ensures var r := Tries(e, s, 1, 1, 1, None, Missing);
      && r.1 == o && |r.0.log| == |s.log| + 1 && r.0.log[|s.log|].bands == bands
      && r.0.c == s.c.(next := s.c.next + 3)
  {
    hide Evaluate, Acquire;
    AnswerEvaluates(o, bands);
    var c := s.c.(next := s.c.next + 1);
    assert Wait(e.oracle, s.c) == (c, None);
  }

  lemma OnceBegins(e: Env, k: Clock, o: Outcome, bands: set<string>)
    requires Once(e.policy) && forall x, n :: k.next <= n < k.next + 2 ==> e.oracle(x, n) == ReplyFor(o, bands)
    ensures var cause := if o == Skip then Some(OperatorSkip) else None;
      Begin(e, k.now, k.next) == Ctx(k.now, k.next + 2, cause, cause, k.now + e.policy.timeout, 0)
  {
  }

  lemma OnceSamples(e: Env, s: State, o: Outcome, bands: set<string>)
    requires Once(e.policy) && s.log == [] && s.c.now < s.c.limit
    requires s.c.cause == s.c.done == if o == Skip then Some(OperatorSkip) else None
    requires o != Skip ==> forall x, n :: s.c.next <= n < s.c.next + 3 ==> e.oracle(x, n) == ReplyFor(o, bands)
    ensures var r := Samples(e, s, 1, 1, s.c.now + e.policy.eventually, None, []);
      && r.ending == o
      && (o == Skip ==> r.s == s)
      && (o != Skip ==> r.s.c == s.c.(next := s.c.next + 3) && |r.s.log| == 1 && r.s.log[0].bands == bands)
  {
    hide Tries;
    assert EventualGuard(e.policy, s.c.now + e.policy.eventually, None) == None;
    if o == Skip {
      SkippedTries(e, s);
    } else {
      AnsweredTries(e, s, o, bands);
    }
  }

  lemma NoSecondRepeat(e: Env, s: State, outcome: Outcome, problem: bool, done: seq<Repeat>)
    requires Once(e.policy)
    ensures Repeats(e, s, 2, outcome, problem, done) == StepEnd(s.c, outcome, s.log, done, problem)
  {
  }

  lemma OnceRepeats(e: Env, s: State, end: RepeatEnd)
    requires Once(e.policy) && s.lastError == NoError
    requires end == Samples(e, s, 1, 1, s.c.now + e.policy.eventually, None, [])
    ensures var r := Repeats(e, s, 1, Pass, false, []);
      r.outcome == end.ending && r.c == end.s.c && r.log == end.s.log
  {
    hide Samples;
    var problem := end.ending != Pass && end.s.lastError == Failure;
    NoSecondRepeat(e, end.s, end.ending, problem, [Repeat(s.c.now, end.samples, end.ending)]);
    assert s.(lastError := NoError) == s;
    assert Worsened(Pass, end.ending) == end.ending;
    assert [] + [Repeat(s.c.now, end.samples, end.ending)] == [Repeat(s.c.now, end.samples, end.ending)];
  }

  /** A step that is tried once ends as the script makes it, and takes exactly the script. */
  lemma OnceCheck(w: Worker, target: string, s: Step, k: Clock, o: Outcome, bands: set<string>)
    requires Once(s.policy) && Follows(w.oracle, k.next, StepReplies(o, bands))
    ensures var (c, k') := RunCheck(w, target, s, k);
      && c.report.outcome == o && k'.next == k.next + |StepReplies(o, bands)|
      && (if o == Skip then c.report.attempts == [] else |c.report.attempts| == 1 && c.report.attempts[0].bands == bands)
  {
    hide Samples, Begin, Tries, Repeats;
    var e := Env(w.oracle, s.operation, s.policy);
    assert forall x, n :: k.next <= n < k.next + |StepReplies(o, bands)| ==> e.oracle(x, n) == ReplyFor(o, bands);
    OnceBegins(e, k, o, bands);
    var s0 := State(Begin(e, k.now, k.next), [], NoError);
    OnceSamples(e, s0, o, bands);
    var end := Samples(e, s0, 1, 1, s0.c.now + e.policy.eventually, None, []);
    OnceRepeats(e, s0, end);
  }

  // ---------------------------------------------------------------- scripts

  predicate OnceTarget(t: Target) {
    && (t.connect.Some? ==> Once(t.connect.value.policy) && Normalized(t.connect.value.policy))
    && (t.wait.Some? ==> Once(t.wait.value.policy) && Normalized(t.wait.value.policy))
    && forall i :: 0 <= i < |t.checks| ==> Once(t.checks[i].policy) && Normalized(t.checks[i].policy)
  }

  function RotationScript(v: World, t: Target, slot: Slot): seq<Reply> {
    if t.network.forgettable then StepReplies(v.step(t.id, slot), {}) else []
  }

  function RotationsScript(v: World, targets: seq<Target>): seq<Reply> {
    if targets == [] then [] else RotationScript(v, targets[0], RoundRotationSlot) + RotationsScript(v, targets[1..])
  }

  function OptionalScript(v: World, t: Target, s: Option<Step>, slot: Slot, ready: bool): seq<Reply> {
    if ready && s.Some? then StepReplies(v.step(t.id, slot), {}) else []
  }

  function ChecksScript(v: World, t: Target, i: nat, ready: bool): seq<Reply>
    requires i <= |t.checks|
    decreases |t.checks| - i
  {
    if i == |t.checks| then []
    else if !ready then ChecksScript(v, t, i + 1, false)
    else StepReplies(Answer(v, t.id, t.checks[i]), {}) + ChecksScript(v, t, i + 1, Proceeds(v, t.id, t.checks[i]))
  }

  function CleanupScript(v: World, t: Target): seq<Reply> {
    if t.connect.Some? && v.step(t.id, ConnectSlot) != Skip
    then seq(|CleanupCommands(t.network)|, _ => ReplyFor(Pass, {})) else []
  }

  predicate AnswersWell(v: World, t: Target, s: Option<Step>, slot: Slot) {
    s.Some? ==> v.step(t.id, slot) == Pass
  }

  function BodyScript(v: World, t: Target): seq<Reply> {
    var connected := AnswersWell(v, t, t.connect, ConnectSlot);
    var waited := connected && AnswersWell(v, t, t.wait, WaitSlot);
    OptionalScript(v, t, t.connect, ConnectSlot, true)
    + (OptionalScript(v, t, t.wait, WaitSlot, connected) + (ChecksScript(v, t, 0, waited) + CleanupScript(v, t)))
  }

  function VisitScript(v: World, t: Target, unsupported: set<string>, rotated: set<string>): seq<Reply> {
    if NormalizeBand(t.network.band) in unsupported || (t.network.rotation == PerRound && t.network.ssid !in rotated) then []
    else if t.network.rotation == PerTarget then
      RotationScript(v, t, TargetRotationSlot) + if Rotates(v, t, TargetRotationSlot) then BodyScript(v, t) else []
    else BodyScript(v, t)
  }

  function VisitsScript(v: World, targets: seq<Target>, unsupported: set<string>, rotated: set<string>): seq<Reply> {
    if targets == [] then [] else VisitScript(v, targets[0], unsupported, rotated) + VisitsScript(v, targets[1..], unsupported, rotated)
  }

  function PreflightScript(v: World, targets: seq<Target>): seq<Reply> {
    if FirstBanded(targets) < |targets| then StepReplies(Pass, v.reported) else []
  }

  /** The SSIDs that rotate before the round. */
  function RotatedIn(v: World, rotating: seq<Target>): set<string> {
    set i | 0 <= i < |rotating| && Rotates(v, rotating[i], RoundRotationSlot) :: rotating[i].network.ssid
  }

  function RoundScript(v: World, targets: seq<Target>): seq<Reply> {
    var rotating := RotationTargets(targets, {});
    var unsupported := if FirstBanded(targets) < |targets| then Barring(v) else {};
    PreflightScript(v, targets) + (RotationsScript(v, rotating) + VisitsScript(v, targets, unsupported, RotatedIn(v, rotating)))
  }

  // ---------------------------------------------------------------- what an agent that follows them does

  lemma RotationRuns(v: World, w: Worker, t: Target, phase: string, slot: Slot, k: Clock)
    requires Follows(w.oracle, k.next, RotationScript(v, t, slot))
    ensures var (r, k') := Rotate(w, t, phase, k);
      && FaithfulRotation(v, t, slot, r) && (Rotated(r) <==> Rotates(v, t, slot))
      && k'.next == k.next + |RotationScript(v, t, slot)|
  {
    hide RunCheck, Follows;
    if t.network.forgettable {
      OnceCheck(w, t.id, RotationStep(phase), k, v.step(t.id, slot), {});
    }
  }

  lemma {:induction false} RotationsRun(v: World, w: Worker, targets: seq<Target>, phase: string, k: Clock)
    requires Follows(w.oracle, k.next, RotationsScript(v, targets))
    ensures var (tries, k') := RotateAll(w, targets, phase, k);
      && (forall i :: 0 <= i < |targets| ==>
            FaithfulRotation(v, targets[i], RoundRotationSlot, tries[i]) && (Rotated(tries[i]) <==> Rotates(v, targets[i], RoundRotationSlot)))
      && k'.next == k.next + |RotationsScript(v, targets)|
  {
    hide Rotate, Follows, FaithfulRotation, Rotates, Rotated;
    if targets != [] {
      FollowsBoth(w.oracle, k.next, RotationScript(v, targets[0], RoundRotationSlot), RotationsScript(v, targets[1..]));
      RotationRuns(v, w, targets[0], phase, RoundRotationSlot, k);
      RotationsRun(v, w, targets[1..], phase, Rotate(w, targets[0], phase, k).1);
    }
  }

  lemma OptionalRuns(v: World, w: Worker, t: Target, s: Option<Step>, slot: Slot, ready: bool, k: Clock)
    requires s.Some? ==> Once(s.value.policy)
    requires Follows(w.oracle, k.next, OptionalScript(v, t, s, slot, ready))
    ensures var (c, k') := RunOptional(w, t, s, ready, k);
      && (c.Some? ==> c.value.report.outcome == v.step(t.id, slot) && (c.value.report.attempts == [] <==> v.step(t.id, slot) == Skip))
      && (ready ==> (Passed(c) <==> AnswersWell(v, t, s, slot)))
      && k'.next == k.next + |OptionalScript(v, t, s, slot, ready)|
  {
    hide RunCheck, Follows;
    if ready && s.Some? {
      OnceCheck(w, t.id, s.value, k, v.step(t.id, slot), {});
    }
  }

  lemma FaithfulMore(v: World, t: Target, i: nat, c: Checked, rest: seq<Checked>)
    requires i + 1 + |rest| == |t.checks| && FaithfulChecks(v, t, i + 1, rest)
    requires c.report.reason != Prerequisite ==> c.report.outcome == Answer(v, t.id, t.checks[i])
    ensures FaithfulChecks(v, t, i, [c] + rest)
  {
    hide Answer;
  }

  lemma {:induction false} ChecksRun(v: World, w: Worker, t: Target, i: nat, ready: bool, k: Clock)
    requires ValidTarget(t) && OnceTarget(t) && i <= |t.checks|
    requires Follows(w.oracle, k.next, ChecksScript(v, t, i, ready))
    ensures var (checks, k') := RunChecks(w, t, i, ready, k);
      FaithfulChecks(v, t, i, checks) && k'.next == k.next + |ChecksScript(v, t, i, ready)|
    decreases |t.checks| - i
  {
    hide RunCheck, Follows, FaithfulChecks, Answer, ValidTarget;
    if i == |t.checks| {
      NothingUnfaithful(v, t);
    } else if !ready {
      ChecksRun(v, w, t, i + 1, false, k);
      FaithfulMore(v, t, i, Checked(Skipped(w, t, t.checks[i], Prerequisite), false, 0), RunChecks(w, t, i + 1, false, k).0);
    } else {
      var o := Answer(v, t.id, t.checks[i]);
      var go := Proceeds(v, t.id, t.checks[i]);
      FollowsBoth(w.oracle, k.next, StepReplies(o, {}), ChecksScript(v, t, i + 1, go));
      OnceCheck(w, t.id, t.checks[i], k, o, {});
      var (c, k1) := RunCheck(w, t.id, t.checks[i], k);
      assert Continues(t.checks[i], c.report) <==> go;
      ChecksRun(v, w, t, i + 1, go, k1);
      FaithfulMore(v, t, i, c, RunChecks(w, t, i + 1, go, k1).0);
    }
  }

  lemma NothingUnfaithful(v: World, t: Target)
    ensures FaithfulChecks(v, t, |t.checks|, [])
  {
  }

  lemma {:induction false} CleanupRuns(w: Worker, n: Network, ops: seq<Command>, k: Clock)
    ensures RunCleanup(w, n, ops, k).1.next == k.next + |ops|
  {
    if ops != [] {
      CleanupRuns(w, n, ops[1..], Clock(k.now + w.oracle(Acquiring, k.next).advance, k.next + 1));
    }
  }

  lemma BodyRuns(v: World, w: Worker, t: Target, rotation: Option<RotationTry>, k: Clock)
    requires ValidTarget(t) && OnceTarget(t) && Follows(w.oracle, k.next, BodyScript(v, t))
    requires rotation.Some? ==> FaithfulRotation(v, t, TargetRotationSlot, rotation.value)
    ensures var (visit, k') := RunBody(w, t, rotation, k);
      FaithfulVisit(v, t, visit) && k'.next == k.next + |BodyScript(v, t)|
  {
    hide RunCheck, Follows, FaithfulChecks, FaithfulRotation, ValidTarget, RunChecks, RunCleanup, RunOptional, OptionalScript, ChecksScript;
    var connected := AnswersWell(v, t, t.connect, ConnectSlot);
    var waited := connected && AnswersWell(v, t, t.wait, WaitSlot);
    var first, second := OptionalScript(v, t, t.connect, ConnectSlot, true), OptionalScript(v, t, t.wait, WaitSlot, connected);
    var third, fourth := ChecksScript(v, t, 0, waited), CleanupScript(v, t);
    assert ValidSteps(t) by { StepsValid(t); }
    FollowsBoth(w.oracle, k.next, first, second + (third + fourth));
    OptionalRuns(v, w, t, t.connect, ConnectSlot, true, k);
    var (connect, k1) := RunOptional(w, t, t.connect, true, k);
    FollowsBoth(w.oracle, k1.next, second, third + fourth);
    OptionalRuns(v, w, t, t.wait, WaitSlot, connected, k1);
    var (wait, k2) := RunOptional(w, t, t.wait, connected, k1);
    FollowsBoth(w.oracle, k2.next, third, fourth);
    ChecksRun(v, w, t, 0, waited, k2);
    var (checks, k3) := RunChecks(w, t, 0, waited, k2);
    CleanupRuns(w, t.network, CleanupCommands(t.network), k3);
  }

  predicate ValidSteps(t: Target) {
    && (t.connect.Some? ==> Runnable(t.connect.value.policy))
    && (t.wait.Some? ==> Runnable(t.wait.value.policy))
  }

  lemma StepsValid(t: Target)
    requires ValidTarget(t)
    ensures ValidSteps(t)
  {
  }

  lemma VisitRuns(v: World, w: Worker, t: Target, unsupported: set<string>, rotated: set<string>, k: Clock)
    requires ValidTarget(t) && OnceTarget(t) && Follows(w.oracle, k.next, VisitScript(v, t, unsupported, rotated))
    ensures var (visit, k') := VisitTarget(w, t, unsupported, rotated, k);
      FaithfulVisit(v, t, visit) && k'.next == k.next + |VisitScript(v, t, unsupported, rotated)|
  {
    hide Rotate, Rotated, Follows, FaithfulChecks, FaithfulRotation, ValidTarget, OnceTarget, RunBody, BodyScript, RotationScript, NormalizeBand, Rotates;
    if NormalizeBand(t.network.band) in unsupported || (t.network.rotation == PerRound && t.network.ssid !in rotated) {
    } else if t.network.rotation == PerTarget {
      var rest := if Rotates(v, t, TargetRotationSlot) then BodyScript(v, t) else [];
      FollowsBoth(w.oracle, k.next, RotationScript(v, t, TargetRotationSlot), rest);
      RotationRuns(v, w, t, "before_target", TargetRotationSlot, k);
      var (r, k1) := Rotate(w, t, "before_target", k);
      if Rotated(r) {
        BodyRuns(v, w, t, Some(r), k1);
      }
    } else {
      BodyRuns(v, w, t, None, k);
    }
  }

  predicate OnceTargets(targets: seq<Target>) {
    forall i :: 0 <= i < |targets| ==> OnceTarget(targets[i])
  }

  lemma {:induction false} VisitsRun(v: World, w: Worker, targets: seq<Target>, unsupported: set<string>, rotated: set<string>, k: Clock)
    requires ValidTargets(targets) && OnceTargets(targets)
    requires Follows(w.oracle, k.next, VisitsScript(v, targets, unsupported, rotated))
    ensures forall i :: 0 <= i < |targets| ==> FaithfulVisit(v, targets[i], VisitAll(w, targets, unsupported, rotated, k).0[i])
  {
    hide VisitTarget, ValidTarget, OnceTarget, FaithfulVisit, VisitScript, Follows;
    if targets != [] {
      FollowsBoth(w.oracle, k.next, VisitScript(v, targets[0], unsupported, rotated), VisitsScript(v, targets[1..], unsupported, rotated));
      VisitRuns(v, w, targets[0], unsupported, rotated, k);
      VisitsRun(v, w, targets[1..], unsupported, rotated, VisitTarget(w, targets[0], unsupported, rotated, k).1);
    }
  }

  lemma PreflightRuns(v: World, w: Worker, targets: seq<Target>, k: Clock)
    requires Follows(w.oracle, k.next, PreflightScript(v, targets))
    ensures var (preflight, k') := Preflight(w, targets, k);
      && k'.next == k.next + |PreflightScript(v, targets)|
      && (preflight.Some? <==> FirstBanded(targets) < |targets|)
      && (preflight.Some? ==> UnsupportedBands(preflight) == Barring(v))
  {
    hide RunCheck, Follows, NormalizeBand;
    if FirstBanded(targets) < |targets| {
      OnceCheck(w, "preflight", CapabilityStep(), k, Pass, v.reported);
    }
  }

  lemma RoundRuns(v: World, w: Worker, targets: seq<Target>, k: Clock)
    requires ValidTargets(targets) && OnceTargets(targets) && Follows(w.oracle, k.next, RoundScript(v, targets))
    ensures Faithful(v, targets, RunRound(w, targets, k).0)
  {
    hide Preflight, RotateAll, VisitAll, RotationTargets, ValidTarget, OnceTarget, FaithfulVisit, FaithfulRotation;
    hide VisitsScript, RotationsScript, PreflightScript, Follows, Rotates, Rotated;
    var rotating := RotationTargets(targets, {});
    var unsupported := if FirstBanded(targets) < |targets| then Barring(v) else {};
    var second, third := RotationsScript(v, rotating), VisitsScript(v, targets, unsupported, RotatedIn(v, rotating));
    FollowsBoth(w.oracle, k.next, PreflightScript(v, targets), second + third);
    PreflightRuns(v, w, targets, k);
    var (preflight, k1) := Preflight(w, targets, k);
    FollowsBoth(w.oracle, k1.next, second, third);
    RotationsRun(v, w, rotating, "before_round", k1);
    var (before, k2) := RotateAll(w, rotating, "before_round", k1);
    assert RotatedSsids(rotating, before) == RotatedIn(v, rotating);
    VisitsRun(v, w, targets, unsupported, RotatedIn(v, rotating), k2);
  }

  const START := Clock(0, 0)

  /** For every world and all targets whose steps are tried once there is an agent whose round answers as the world does. */
  lemma EveryWorldHasItsRun(v: World, targets: seq<Target>, agent: string) returns (w: Worker)
    requires ValidTargets(targets) && OnceTargets(targets)
    ensures w.agent == agent && Faithful(v, targets, RunRound(w, targets, START).0)
  {
    hide RoundScript, RunRound, Faithful, ValidTargets, OnceTargets;
    var script := RoundScript(v, targets);
    w := Worker((_: Interaction, n: nat) => if n < |script| then script[n] else ReplyFor(Pass, {}), agent, 1);
    RoundRuns(v, w, targets, START);
  }
}
