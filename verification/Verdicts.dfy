/**
 Selection and verdicts.  When an agent's world answers every step by target and check alone,
 a round's verdicts are a function of the plan, and cutting the plan down to a selection leaves
 the verdict of a check it keeps as it was, under an exact condition on what the cut leaves out.
 */
module Verdicts {
  import opened Outcomes
  import opened CheckLoop
  import opened Plans
  import opened Rounds
  import opened Scopes
  import opened Selection

  /**
   The steps of a target: those of its plan, and the MAC rotations before the round, which is run
   under the first target of an SSID for all of them, and before the target.
   */
  datatype Slot = ConnectSlot | WaitSlot | CheckSlot(id: string) | RoundRotationSlot | TargetRotationSlot

  /**
   How an agent's steps end, by target and step, and which bands a capability check reports as
   unsupported, whenever they are run.
   */
  datatype World = World(step: (string, Slot) -> Outcome, reported: set<string>)

  /** The bands that bar a target, by the names they are compared under. */
  function Barring(v: World): set<string> {
    set b | b in v.reported :: NormalizeBand(b)
  }

  datatype Verdict = Verdict(outcome: Outcome, reason: SkipReason)

  function VerdictOf(r: StepReport): Verdict {
    Verdict(r.outcome, r.reason)
  }

  function Executed(o: Outcome): Verdict {
    Verdict(o, if o == Skip then Operator else NotSkipped)
  }

  function Answer(v: World, target: string, s: Step): Outcome {
    v.step(target, CheckSlot(s.id))
  }

  predicate Proceeds(v: World, target: string, s: Step) {
    var o := Answer(v, target, s);
    o == Pass || (!s.required && o != Canceled && o != Skip)
  }

  predicate AllProceed(v: World, target: string, steps: seq<Step>) {
    forall s :: s in steps ==> Proceeds(v, target, s)
  }

  /** A rotation under the target succeeds. */
  predicate Rotates(v: World, t: Target, slot: Slot) {
    t.network.forgettable && v.step(t.id, slot) == Pass
  }

  /** The target under which the rotation of an SSID before the round is run: the first of it that rotates per round. */
  function Rotator(targets: seq<Target>, ssid: string): Option<Target> {
    if targets == [] then None
    else if targets[0].network.rotation == PerRound && targets[0].network.ssid == ssid then Some(targets[0])
    else Rotator(targets[1..], ssid)
  }

  /** What a target that rotates per round needs of the round. */
  predicate RoundReady(v: World, targets: seq<Target>, t: Target) {
    t.network.rotation == PerRound ==>
      var u := Rotator(targets, t.network.ssid);
      u.Some? && Rotates(v, u.value, RoundRotationSlot)
  }

  /** What the checks of a target need of the steps under the target itself. */
  predicate Prepared(v: World, t: Target) {
    && (t.network.rotation == PerTarget ==> Rotates(v, t, TargetRotationSlot))
    && (t.connect.Some? ==> v.step(t.id, ConnectSlot) == Pass)
    && (t.wait.Some? ==> v.step(t.id, WaitSlot) == Pass)
  }

  predicate Preflighted(targets: seq<Target>) {
    exists t :: t in targets && Banded(t)
  }

  predicate BandBarred(v: World, preflighted: bool, t: Target) {
    preflighted && NormalizeBand(t.network.band) in Barring(v)
  }

  /** The verdict of one check, as the plan and the world determine it. */
  function Predicted(v: World, targets: seq<Target>, t: Target, j: nat): Verdict
    requires j < |t.checks|
  {
    if BandBarred(v, Preflighted(targets), t) then Verdict(Skip, Unsupported)
    else if !RoundReady(v, targets, t) || !Prepared(v, t) || !AllProceed(v, t.id, t.checks[..j]) then Verdict(Skip, Prerequisite)
    else Executed(Answer(v, t.id, t.checks[j]))
  }

  // ---------------------------------------------------------------- a round run in such a world

  predicate FaithfulChecks(v: World, t: Target, from: nat, checks: seq<Checked>)
    requires from + |checks| == |t.checks|
  {
    forall j :: 0 <= j < |checks| && checks[j].report.reason != Prerequisite ==>
      checks[j].report.outcome == Answer(v, t.id, t.checks[from + j])
  }

  predicate FaithfulRotation(v: World, t: Target, slot: Slot, r: RotationTry) {
    r.Tried? ==> r.result.report.outcome == v.step(t.id, slot)
  }

  predicate FaithfulVisit(v: World, t: Target, visit: Visit) {
    && (visit.rotation.Some? ==> FaithfulRotation(v, t, TargetRotationSlot, visit.rotation.value))
    && (visit.Visited? ==>
        && (visit.connect.Some? ==> visit.connect.value.report.outcome == v.step(t.id, ConnectSlot))
        && (visit.wait.Some? ==> visit.wait.value.report.outcome == v.step(t.id, WaitSlot))
        && (|visit.checks| == |t.checks| ==> FaithfulChecks(v, t, 0, visit.checks)))
  }

  /** Everything the round ran, it ran with the world's answer. */
  predicate Faithful(v: World, targets: seq<Target>, r: AgentRound)
    requires |r.visits| == |targets| && |r.before| == |RotationTargets(targets, {})|
  {
    && (r.preflight.Some? ==> UnsupportedBands(r.preflight) == Barring(v))
    && (forall i :: 0 <= i < |r.before| ==> FaithfulRotation(v, RotationTargets(targets, {})[i], RoundRotationSlot, r.before[i]))
    && (forall i :: 0 <= i < |targets| ==> FaithfulVisit(v, targets[i], r.visits[i]))
  }

  predicate Accounts(t: Target, visit: Visit) {
    if visit.Visited? then |visit.checks| == |t.checks| else |visit.skips| == |Steps(t)|
  }

  /** The report of check `j` in the visit of its target. */
  function CheckReport(t: Target, visit: Visit, j: nat): StepReport
    requires Accounts(t, visit) && j < |t.checks|
  {
    if visit.Visited? then visit.checks[j].report
    else visit.skips[|visit.skips| - |t.checks| + j]
  }

  lemma ProceedSnoc(v: World, t: Target, i: nat)
    requires i < |t.checks|
    ensures AllProceed(v, t.id, t.checks[..i + 1]) <==> AllProceed(v, t.id, t.checks[..i]) && Proceeds(v, t.id, t.checks[i])
  {
    hide Proceeds;
    assert t.checks[..i + 1] == t.checks[..i] + [t.checks[i]];
  }

  /** The first step of the check loop, and whether the loop stays ready behind it. */
  function FirstCheck(w: Worker, t: Target, i: nat, ready: bool, k: Clock): (r: (Checked, bool, Clock))
    requires ValidTarget(t) && i < |t.checks|
    ensures RunChecks(w, t, i, ready, k).0 == [r.0] + RunChecks(w, t, i + 1, r.1, r.2).0
  {
    hide RunCheck, Continues;
    if ready then
      var (c, k1) := RunCheck(w, t.id, t.checks[i], k);
      (c, Continues(t.checks[i], c.report), k1)
    else (Checked(Skipped(w, t, t.checks[i], Prerequisite), false, 0), false, k)
  }

  lemma FirstVerdict(v: World, w: Worker, t: Target, i: nat, ready: bool, k: Clock)
    requires ValidTarget(t) && i < |t.checks|
    requires FaithfulChecks(v, t, i, RunChecks(w, t, i, ready, k).0)
    ensures
      var (c, ready', k1) := FirstCheck(w, t, i, ready, k);
      && VerdictOf(c.report) == (if ready then Executed(Answer(v, t.id, t.checks[i])) else Verdict(Skip, Prerequisite))
      && (ready' <==> ready && Proceeds(v, t.id, t.checks[i]))
  {
    hide RunChecks, Check, Answer;
    var c := FirstCheck(w, t, i, ready, k).0;
    assert RunChecks(w, t, i, ready, k).0[0] == c;
    assert ready ==> c.report.outcome == Answer(v, t.id, t.checks[i]);
  }

  lemma FaithfulRest(v: World, t: Target, i: nat, c: Checked, rest: seq<Checked>)
    requires i + 1 + |rest| == |t.checks| && FaithfulChecks(v, t, i, [c] + rest)
    ensures FaithfulChecks(v, t, i + 1, rest)
  {
    hide Answer;
    var all := [c] + rest;
    forall j | 0 <= j < |rest| && rest[j].report.reason != Prerequisite
      ensures rest[j].report.outcome == Answer(v, t.id, t.checks[i + 1 + j])
    {
      assert all[j + 1] == rest[j];
    }
  }

  lemma {:induction false} ChecksPredicted(v: World, w: Worker, t: Target, i: nat, base: bool, ready: bool, k: Clock, m: nat)
    requires ValidTarget(t) && i + m < |t.checks|
    requires ready <==> base && AllProceed(v, t.id, t.checks[..i])
    requires FaithfulChecks(v, t, i, RunChecks(w, t, i, ready, k).0)
    ensures VerdictOf(RunChecks(w, t, i, ready, k).0[m].report) ==
      if base && AllProceed(v, t.id, t.checks[..i + m]) then Executed(Answer(v, t.id, t.checks[i + m]))
      else Verdict(Skip, Prerequisite)
    decreases |t.checks| - i
  {
    hide RunChecks, FirstCheck, AllProceed, Answer, Proceeds, FaithfulChecks, ValidTarget, Executed;
    var (c, ready', k1) := FirstCheck(w, t, i, ready, k);
    FirstVerdict(v, w, t, i, ready, k);
    if m > 0 {
      ProceedSnoc(v, t, i);
      FaithfulRest(v, t, i, c, RunChecks(w, t, i + 1, ready', k1).0);
      ChecksPredicted(v, w, t, i + 1, base, ready', k1, m - 1);
    }
  }

  /** The rotations before the round are those under the rotators. */
  lemma {:induction false} RotationCovers(targets: seq<Target>, seen: set<string>, ssid: string)
    requires ssid !in seen
    ensures var u := Rotator(targets, ssid);
      && (u.Some? ==> u.value in RotationTargets(targets, seen) && u.value.network.ssid == ssid)
      && forall t :: t in RotationTargets(targets, seen) && t.network.ssid == ssid ==> u == Some(t)
  {
    if targets != [] {
      var first := targets[0];
      if first.network.rotation == PerRound && first.network.ssid !in seen {
        if first.network.ssid == ssid {
          NotSeenAgain(targets[1..], seen + {ssid}, ssid);
        } else {
          RotationCovers(targets[1..], seen + {first.network.ssid}, ssid);
        }
      } else {
        RotationCovers(targets[1..], seen, ssid);
      }
    }
  }

  lemma {:induction false} NotSeenAgain(targets: seq<Target>, seen: set<string>, ssid: string)
    requires ssid in seen
    ensures forall t :: t in RotationTargets(targets, seen) ==> t.network.ssid != ssid
  {
    if targets != [] {
      NotSeenAgain(targets[1..], seen, ssid);
      NotSeenAgain(targets[1..], seen + {targets[0].network.ssid}, ssid);
    }
  }

  lemma {:induction false} RotatorExists(targets: seq<Target>, t: Target)
    requires t in targets && t.network.rotation == PerRound
    ensures Rotator(targets, t.network.ssid).Some?
  {
    if targets[0].network.rotation != PerRound || targets[0].network.ssid != t.network.ssid {
      assert t in targets[1..];
      RotatorExists(targets[1..], t);
    }
  }

  lemma {:induction false} FirstBandedExists(targets: seq<Target>)
    ensures FirstBanded(targets) < |targets| <==> Preflighted(targets)
  {
    if targets != [] && !Banded(targets[0]) {
      FirstBandedExists(targets[1..]);
      assert targets == [targets[0]] + targets[1..];
      assert FirstBanded(targets) == 1 + FirstBanded(targets[1..]);
      if Preflighted(targets) {
        var t :| t in targets && Banded(t);
        assert t in targets[1..];
      }
    }
  }

  lemma {:induction false} VisitAt(w: Worker, targets: seq<Target>, unsupported: set<string>, rotated: set<string>, k: Clock, i: nat)
    returns (at: Clock)
    requires ValidTargets(targets) && i < |targets|
    ensures ValidTarget(targets[i])
    ensures VisitAll(w, targets, unsupported, rotated, k).0[i] == VisitTarget(w, targets[i], unsupported, rotated, at).0
  {
    hide VisitTarget, ValidTarget;
    var (v, k1) := VisitTarget(w, targets[0], unsupported, rotated, k);
    if i == 0 {
      at := k;
    } else {
      at := VisitAt(w, targets[1..], unsupported, rotated, k1, i - 1);
    }
  }

  lemma BodyPredicted(v: World, w: Worker, t: Target, rotation: Option<RotationTry>, k: Clock, j: nat)
    requires ValidTarget(t) && j < |t.checks|
    requires FaithfulVisit(v, t, RunBody(w, t, rotation, k).0)
    requires t.network.rotation == PerTarget ==> Rotates(v, t, TargetRotationSlot)
    ensures Accounts(t, RunBody(w, t, rotation, k).0)
    ensures VerdictOf(CheckReport(t, RunBody(w, t, rotation, k).0, j)) ==
      if Prepared(v, t) && AllProceed(v, t.id, t.checks[..j]) then Executed(Answer(v, t.id, t.checks[j]))
      else Verdict(Skip, Prerequisite)
  {
    hide RunChecks, RunCleanup, AllProceed, Answer, FaithfulChecks;
    var (connect, k1) := RunOptional(w, t, t.connect, true, k);
    var (wait, k2) := RunOptional(w, t, t.wait, Passed(connect), k1);
    var base := Passed(connect) && Passed(wait);
    assert base <==> Prepared(v, t);
    assert AllProceed(v, t.id, t.checks[..0]) by { NoneStops(v, t); }
    ChecksPredicted(v, w, t, 0, base, base, k2, j);
  }

  lemma NoneStops(v: World, t: Target)
    ensures AllProceed(v, t.id, t.checks[..0])
  {
  }

  lemma VisitPredicted(v: World, w: Worker, t: Target, unsupported: set<string>, rotated: set<string>, k: Clock, ready: bool, j: nat)
    requires ValidTarget(t) && j < |t.checks|
    requires FaithfulVisit(v, t, VisitTarget(w, t, unsupported, rotated, k).0)
    requires ready <==> (t.network.rotation == PerRound ==> t.network.ssid in rotated)
    ensures Accounts(t, VisitTarget(w, t, unsupported, rotated, k).0)
    ensures VerdictOf(CheckReport(t, VisitTarget(w, t, unsupported, rotated, k).0, j)) ==
      if NormalizeBand(t.network.band) in unsupported then Verdict(Skip, Unsupported)
      else if ready && Prepared(v, t) && AllProceed(v, t.id, t.checks[..j]) then Executed(Answer(v, t.id, t.checks[j]))
      else Verdict(Skip, Prerequisite)
  {
    hide RunBody, AllProceed, Answer, FaithfulVisit, NormalizeBand, RunCheck;
    var visit := VisitTarget(w, t, unsupported, rotated, k).0;
    if NormalizeBand(t.network.band) in unsupported || (t.network.rotation == PerRound && t.network.ssid !in rotated) {
    } else if t.network.rotation == PerTarget {
      var (r, k') := Rotate(w, t, "before_target", k);
      RotationAnswered(v, w, t, visit, k);
      if Rotated(r) {
        BodyPredicted(v, w, t, Some(r), k', j);
      }
    } else {
      BodyPredicted(v, w, t, None, k, j);
    }
  }

  lemma RotationAnswered(v: World, w: Worker, t: Target, visit: Visit, k: Clock)
    requires FaithfulVisit(v, t, visit) && visit.rotation == Some(Rotate(w, t, "before_target", k).0)
    ensures Rotated(visit.rotation.value) <==> Rotates(v, t, TargetRotationSlot)
  {
    hide RunCheck;
  }

  /** A rotation is tried whenever its operation can be built. */
  lemma {:induction false} RotationsTried(w: Worker, targets: seq<Target>, phase: string, k: Clock)
    ensures forall i :: 0 <= i < |targets| ==> (RotateAll(w, targets, phase, k).0[i].Tried? <==> targets[i].network.forgettable)
  {
    hide RunCheck;
    if targets != [] {
      RotationsTried(w, targets[1..], phase, Rotate(w, targets[0], phase, k).1);
    }
  }

  lemma RotatedAnswers(v: World, targets: seq<Target>, tries: seq<RotationTry>, t: Target)
    requires t in targets && |tries| == |RotationTargets(targets, {})|
    requires forall i :: 0 <= i < |tries| ==> (tries[i].Tried? <==> RotationTargets(targets, {})[i].network.forgettable)
    requires forall i :: 0 <= i < |tries| ==> FaithfulRotation(v, RotationTargets(targets, {})[i], RoundRotationSlot, tries[i])
    ensures RoundReady(v, targets, t) <==>
      (t.network.rotation == PerRound ==> t.network.ssid in RotatedSsids(RotationTargets(targets, {}), tries))
  {
    if t.network.rotation == PerRound {
      hide RotationTargets, Rotator;
      RotationCovers(targets, {}, t.network.ssid);
      RotatorExists(targets, t);
      var rotating := RotationTargets(targets, {});
      var u := Rotator(targets, t.network.ssid).value;
      var i :| 0 <= i < |rotating| && rotating[i] == u;
      assert Rotated(tries[i]) <==> Rotates(v, u, RoundRotationSlot);
      if j :| 0 <= j < |rotating| && Rotated(tries[j]) && rotating[j].network.ssid == t.network.ssid {
        assert rotating[j] in rotating;
        assert rotating[j] == u;
      }
    }
  }

  /** In a world that answers by target and check, every check's verdict is the predicted one. */
  lemma VerdictsDetermined(v: World, w: Worker, targets: seq<Target>, k: Clock, i: nat, j: nat)
    requires ValidTargets(targets) && i < |targets| && j < |targets[i].checks|
    requires Faithful(v, targets, RunRound(w, targets, k).0)
    ensures Accounts(targets[i], RunRound(w, targets, k).0.visits[i])
    ensures VerdictOf(CheckReport(targets[i], RunRound(w, targets, k).0.visits[i], j)) == Predicted(v, targets, targets[i], j)
  {
    hide RunCheck, RotateAll, VisitAll, VisitTarget, RotationTargets, FaithfulVisit, FaithfulRotation;
    hide Prepared, AllProceed, CheckReport, Accounts, NormalizeBand, RotatedSsids, ValidTarget, RoundReady;
    var (preflight, k1) := Preflight(w, targets, k);
    var rotating := RotationTargets(targets, {});
    var (before, k2) := RotateAll(w, rotating, "before_round", k1);
    var unsupported, rotated := UnsupportedBands(preflight), RotatedSsids(rotating, before);
    var t := targets[i];
    var at := VisitAt(w, targets, unsupported, rotated, k2, i);
    RotationsTried(w, rotating, "before_round", k1);
    RotatedAnswers(v, targets, before, t);
    FirstBandedExists(targets);
    VisitPredicted(v, w, t, unsupported, rotated, at, RoundReady(v, targets, t), j);
  }

  // ---------------------------------------------------------------- what a selection keeps

  lemma {:induction false} KeptMembers(checks: seq<Step>, ids: set<string>, n: nat)
    requires n <= |checks|
    ensures forall c :: c in KeptChecks(checks, ids, n) <==> exists m :: 0 <= m < n && Kept(checks, ids, m) && checks[m] == c
  {
    hide Kept;
    if n > 0 {
      KeptMembers(checks, ids, n - 1);
    }
  }

  lemma {:induction false} KeptDistinct(checks: seq<Step>, ids: set<string>, n: nat)
    requires n <= |checks| && DistinctChecks(checks)
    ensures DistinctChecks(KeptChecks(checks, ids, n))
  {
    hide Kept;
    if n > 0 {
      KeptDistinct(checks, ids, n - 1);
      KeptMembers(checks, ids, n - 1);
      var before := KeptChecks(checks, ids, n - 1);
      forall i | 0 <= i < |before|
        ensures before[i].id != checks[n - 1].id
      {
        assert before[i] in before;
      }
    }
  }

  lemma {:induction false} KeptGrows(checks: seq<Step>, ids: set<string>, m: nat, n: nat)
    requires m <= n <= |checks|
    ensures KeptChecks(checks, ids, m) <= KeptChecks(checks, ids, n)
    decreases n
  {
    hide Kept;
    if m < n {
      KeptGrows(checks, ids, m, n - 1);
    }
  }

  /** A kept check stands right behind those kept before it. */
  lemma KeptPlace(checks: seq<Step>, ids: set<string>, i: nat)
    requires i < |checks| && Kept(checks, ids, i)
    ensures
      var all, before := KeptChecks(checks, ids, |checks|), KeptChecks(checks, ids, i);
      |before| < |all| && all[..|before|] == before && all[|before|] == checks[i]
  {
    hide Kept;
    KeptGrows(checks, ids, i + 1, |checks|);
    KeptGrows(checks, ids, i, |checks|);
    assert KeptChecks(checks, ids, i + 1) == KeptChecks(checks, ids, i) + [checks[i]];
  }

  lemma {:induction false} NamedBeforeLast(checks: seq<Step>, ids: set<string>, i: nat)
    requires i < |checks| && checks[i].id in ids
    ensures i < LastNamed(checks, ids) <= |checks|
  {
    if checks[|checks| - 1].id !in ids {
      NamedBeforeLast(checks[..|checks| - 1], ids, i);
    }
  }

  /** What a selection drops in front of a check it keeps is optional. */
  lemma DroppedOptional(checks: seq<Step>, ids: set<string>, m: nat, i: nat)
    requires m < i < |checks| && Kept(checks, ids, i) && !Kept(checks, ids, m)
    ensures !checks[m].required
  {
    hide LastNamed;
    if checks[i].id in ids {
      NamedBeforeLast(checks, ids, i);
    }
  }

  // ---------------------------------------------------------------- what a cut changes

  predicate EndedByOperator(o: Outcome) {
    o == Canceled || o == Skip
  }

  /** Check `m` of a target is not among those of its cut. */
  predicate Dropped(t: Target, t': Target, m: nat)
    requires m < |t.checks|
  {
    forall j :: 0 <= j < |t'.checks| ==> t'.checks[j].id != t.checks[m].id
  }

  /** A capability check that only the plan makes bars the target.  `full` and `cut` are an agent's targets in the plan and in the selection. */
  predicate BarredByPlan(v: World, full: seq<Target>, cut: seq<Target>, t: Target) {
    BandBarred(v, Preflighted(full), t) && !Preflighted(cut)
  }

  /**
   In the plan check `m` of the target runs and an operator ends it, in front of check `i`; the
   cut drops it, and there what is left in front of check `i`, now the j-th, lets it run.
   */
  predicate CutsOff(v: World, full: seq<Target>, cut: seq<Target>, t: Target, i: nat, t': Target, j: nat, m: nat)
    requires i < |t.checks| && j < |t'.checks|
  {
    && m < i && Dropped(t, t', m)
    && !BandBarred(v, Preflighted(full), t) && Prepared(v, t) && RoundReady(v, full, t) && RoundReady(v, cut, t')
    && AllProceed(v, t.id, t.checks[..m]) && EndedByOperator(Answer(v, t.id, t.checks[m]))
    && AllProceed(v, t.id, t'.checks[..j])
  }

  predicate CutOff(v: World, full: seq<Target>, cut: seq<Target>, t: Target, i: nat, t': Target, j: nat)
    requires i < |t.checks| && j < |t'.checks|
  {
    exists m :: 0 <= m < i && CutsOff(v, full, cut, t, i, t', j, m)
  }

  /**
   The target rotates per round, the selection leaves out the first target of its SSID, under
   which the plan rotates, and exactly one of the two rotations succeeds; on that side nothing
   else keeps the check from running.
   */
  predicate RotatedElsewhere(v: World, full: seq<Target>, cut: seq<Target>, t: Target, i: nat, t': Target, j: nat)
    requires i < |t.checks| && j < |t'.checks|
  {
    && t.network.rotation == PerRound
    && var u, u' := Rotator(full, t.network.ssid), Rotator(cut, t.network.ssid);
    && u.Some? && u'.Some? && u.value.id != u'.value.id
    && Rotates(v, u.value, RoundRotationSlot) != Rotates(v, u'.value, RoundRotationSlot)
    && !BandBarred(v, Preflighted(full), t) && Prepared(v, t)
    && AllProceed(v, t.id, if Rotates(v, u.value, RoundRotationSlot) then t.checks[..i] else t'.checks[..j])
  }

  /** None of the three happens. */
  predicate Undisturbed(v: World, full: seq<Target>, cut: seq<Target>, t: Target, i: nat, t': Target, j: nat)
    requires i < |t.checks| && j < |t'.checks|
  {
    !BarredByPlan(v, full, cut, t) && !CutOff(v, full, cut, t, i, t', j) && !RotatedElsewhere(v, full, cut, t, i, t', j)
  }

  /** The first check that keeps those behind it from running. */
  lemma {:induction false} FirstStop(v: World, t: Target, i: nat) returns (m: nat)
    requires i <= |t.checks| && !AllProceed(v, t.id, t.checks[..i])
    ensures m < i && AllProceed(v, t.id, t.checks[..m]) && !Proceeds(v, t.id, t.checks[m])
  {
    hide Proceeds;
    if i > 0 {
      ProceedSnoc(v, t, i - 1);
      if AllProceed(v, t.id, t.checks[..i - 1]) {
        m := i - 1;
      } else {
        m := FirstStop(v, t, i - 1);
      }
    }
  }

  lemma KeptIndex(checks: seq<Step>, ids: set<string>, i: nat, j: nat)
    requires DistinctChecks(checks) && i < |checks| && j < |KeptChecks(checks, ids, |checks|)|
    requires checks[i].id == KeptChecks(checks, ids, |checks|)[j].id
    ensures Kept(checks, ids, i) && j == |KeptChecks(checks, ids, i)|
    ensures KeptChecks(checks, ids, |checks|)[j] == checks[i]
    ensures KeptChecks(checks, ids, |checks|)[..j] == KeptChecks(checks, ids, i)
  {
    hide Kept, KeptChecks;
    var all := KeptChecks(checks, ids, |checks|);
    KeptMembers(checks, ids, |checks|);
    assert all[j] in all;
    var m :| 0 <= m < |checks| && Kept(checks, ids, m) && checks[m] == all[j];
    assert m == i;
    KeptDistinct(checks, ids, |checks|);
    KeptPlace(checks, ids, i);
    var place := |KeptChecks(checks, ids, i)|;
    assert all[place].id == all[j].id;
  }

  predicate CutFrom(t': Target, t: Target, ids: set<string>, all: bool) {
    t' == WithChecks(t, ids, all).(agents := t'.agents) && (forall a :: a in t'.agents ==> a in t.agents)
  }

  lemma UnbandedName(t: Target)
    requires !Banded(t)
    ensures NormalizeBand(t.network.band) == "" || NormalizeBand(t.network.band) == "all"
  {
    if t.network.band == "all" {
      PlainNames();
    }
  }

  lemma PlainNames()
    ensures NormalizeBand("") == "" && NormalizeBand("all") == "all"
  {
    assert "all"[1..] == "ll" && "ll"[1..] == "l" && "l"[1..] == "";
    assert NormalizeBand("l") == "l";
    assert NormalizeBand("ll") == "ll";
  }

  /** A dropped check keeps check `i` from running exactly where the plan does not proceed to it and the cut does. */
  lemma KeptProceed(v: World, t: Target, t': Target, ids: set<string>, i: nat, j: nat)
    requires DistinctChecks(t.checks) && t'.checks == KeptChecks(t.checks, ids, |t.checks|)
    requires i < |t.checks| && j < |t'.checks| && t.checks[i].id == t'.checks[j].id
    ensures AllProceed(v, t.id, t.checks[..i]) ==> AllProceed(v, t.id, t'.checks[..j])
    ensures !AllProceed(v, t.id, t.checks[..i]) && AllProceed(v, t.id, t'.checks[..j]) ==>
      exists m :: 0 <= m < i && Dropped(t, t', m) && AllProceed(v, t.id, t.checks[..m]) && EndedByOperator(Answer(v, t.id, t.checks[m]))
  {
    hide Kept, KeptChecks, Proceeds, DistinctChecks, Answer;
    KeptIndex(t.checks, ids, i, j);
    KeptMembers(t.checks, ids, i);
    if AllProceed(v, t.id, t.checks[..i]) {
      forall c | c in t'.checks[..j]
        ensures Proceeds(v, t.id, c)
      {
        assert c in t.checks[..i];
      }
    } else if AllProceed(v, t.id, t'.checks[..j]) {
      var m := FirstStop(v, t, i);
      KeptProceeds(v, t, ids, i, m);
      DroppedOptional(t.checks, ids, m, i);
      OptionalStop(v, t.id, t.checks[m]);
      NotKeptDropped(t, t', ids, m);
    }
  }

  lemma KeptProceeds(v: World, t: Target, ids: set<string>, i: nat, m: nat)
    requires m < i <= |t.checks| && AllProceed(v, t.id, KeptChecks(t.checks, ids, i))
    ensures Kept(t.checks, ids, m) ==> Proceeds(v, t.id, t.checks[m])
  {
    hide Kept, KeptChecks, Proceeds;
    KeptMembers(t.checks, ids, i);
    if Kept(t.checks, ids, m) {
      assert t.checks[m] in KeptChecks(t.checks, ids, i);
    }
  }

  lemma OptionalStop(v: World, target: string, s: Step)
    requires !s.required && !Proceeds(v, target, s)
    ensures EndedByOperator(Answer(v, target, s))
  {
  }

  lemma NotKeptDropped(t: Target, t': Target, ids: set<string>, m: nat)
    requires DistinctChecks(t.checks) && t'.checks == KeptChecks(t.checks, ids, |t.checks|)
    requires m < |t.checks| && !Kept(t.checks, ids, m)
    ensures Dropped(t, t', m)
  {
    hide Kept, KeptChecks;
    KeptMembers(t.checks, ids, |t.checks|);
    forall j | 0 <= j < |t'.checks|
      ensures t'.checks[j].id != t.checks[m].id
    {
      assert t'.checks[j] in t'.checks;
      var n :| 0 <= n < |t.checks| && Kept(t.checks, ids, n) && t.checks[n] == t'.checks[j];
      assert n != m;
    }
  }

  lemma StopsBehind(v: World, t: Target, i: nat, m: nat)
    requires m < i <= |t.checks| && EndedByOperator(Answer(v, t.id, t.checks[m]))
    ensures !AllProceed(v, t.id, t.checks[..i])
  {
    assert t.checks[..i][m] == t.checks[m];
    assert t.checks[m] in t.checks[..i];
  }

  /** The rotation that the target needs succeeds in one of the two only, where nothing else keeps the check from running. */
  predicate ReadyOnce(v: World, full: seq<Target>, cut: seq<Target>, t: Target, i: nat, t': Target, j: nat)
    requires i < |t.checks| && j < |t'.checks|
  {
    && RoundReady(v, full, t) != RoundReady(v, cut, t')
    && !BandBarred(v, Preflighted(full), t) && Prepared(v, t)
    && AllProceed(v, t.id, if RoundReady(v, full, t) then t.checks[..i] else t'.checks[..j])
  }

  /** When the cut leaves a verdict as it was. */
  lemma CutVerdict(v: World, full: seq<Target>, cut: seq<Target>, t: Target, t': Target, ids: set<string>, all: bool, i: nat, j: nat)
    requires DistinctChecks(t.checks) && CutFrom(t', t, ids, all) && (Preflighted(cut) ==> Preflighted(full))
    requires i < |t.checks| && j < |t'.checks| && t.checks[i].id == t'.checks[j].id
    ensures Predicted(v, full, t, i) == Predicted(v, cut, t', j) <==>
      !BarredByPlan(v, full, cut, t) && !CutOff(v, full, cut, t, i, t', j) && !ReadyOnce(v, full, cut, t, i, t', j)
  {
    hide KeptChecks, Kept, AllProceed, NormalizeBand, Dropped, DistinctChecks, RoundReady, Preflighted, Barring;
    var stays := AllProceed(v, t.id, t'.checks[..j]);
    if all {
      SameIndex(t, i, j);
    } else {
      KeptProceed(v, t, t', ids, i, j);
    }
    if !AllProceed(v, t.id, t.checks[..i]) && stays && Prepared(v, t) && !BandBarred(v, Preflighted(full), t)
       && RoundReady(v, full, t) && RoundReady(v, cut, t') {
      var m: nat :| m < i && Dropped(t, t', m) && AllProceed(v, t.id, t.checks[..m]) && EndedByOperator(Answer(v, t.id, t.checks[m]));
      assert CutsOff(v, full, cut, t, i, t', j, m);
    }
    if m: nat :| m < i && CutsOff(v, full, cut, t, i, t', j, m) {
      StopsBehind(v, t, i, m);
    }
  }

  lemma SameIndex(t: Target, i: nat, j: nat)
    requires DistinctChecks(t.checks) && i < |t.checks| && j < |t.checks| && t.checks[i].id == t.checks[j].id
    ensures i == j
  {
  }

  // ---------------------------------------------------------------- where the targets of a selection come from

  lemma {:induction false} AmongSubset(agents: seq<string>, ids: seq<string>)
    ensures forall a :: a in Among(agents, ids) ==> a in agents
  {
    if agents != [] {
      AmongSubset(agents[..|agents| - 1], ids);
    }
  }

  lemma {:induction false} FlatOrigin(targets: seq<Target>, sel: Selection, t': Target)
    returns (t: Target)
    requires t' in SelectTargets(targets, sel)
    ensures t in targets && CutFrom(t', t, AsSet(sel.checks), sel.checks == [])
  {
    hide KeptChecks, AsSet;
    var n := |targets| - 1;
    if t' in SelectTargets(targets[..n], sel) {
      t := FlatOrigin(targets[..n], sel, t');
    } else {
      t := targets[n];
      AmongSubset(t.agents, sel.agents);
    }
  }

  lemma {:induction false} CopyOrigin(t: Target, scopes: seq<Scope>, n: nat, t': Target)
    returns (agent: string)
    requires n <= |t.agents| && t' in Copies(t, scopes, n)
    ensures agent in t.agents && t' == CopyFor(t, scopes, agent)
  {
    hide CopyFor;
    if t' in Copies(t, scopes, n - 1) {
      agent := CopyOrigin(t, scopes, n - 1, t');
    } else {
      agent := t.agents[n - 1];
    }
  }

  lemma {:induction false} SplitOrigin(targets: seq<Target>, scopes: seq<Scope>, t': Target)
    returns (t: Target, agent: string)
    requires t' in SplitTargets(targets, scopes)
    ensures t in targets && agent in t.agents && t' == CopyFor(t, scopes, agent)
  {
    hide CopyFor, Copies;
    var n := |targets| - 1;
    if t' in SplitTargets(targets[..n], scopes) {
      t, agent := SplitOrigin(targets[..n], scopes, t');
    } else {
      t := targets[n];
      agent := CopyOrigin(t, scopes, |t.agents|, t');
    }
  }

  /** Every target of a selection is a target of the plan, with some of its checks and agents. */
  lemma SelectedOrigin(p: Plan, sel: Selection, t': Target)
    returns (t: Target, ids: set<string>, all: bool)
    requires t' in Selected(p, sel).targets
    ensures t in p.targets && CutFrom(t', t, ids, all)
  {
    hide KeptChecks, SplitTargets, SelectTargets, RequestFor, AsSet;
    if sel.scopes != [] {
      var agent: string;
      t, agent := SplitOrigin(p.targets, sel.scopes, t');
      var r := RequestFor(sel.scopes, agent, t.id);
      ids, all := r.checks, r.all;
    } else {
      t := FlatOrigin(p.targets, sel, t');
      ids, all := AsSet(sel.checks), sel.checks == [];
    }
  }

  lemma {:induction false} TargetsOfMembers(targets: seq<Target>, agent: string)
    ensures forall t :: t in TargetsOf(targets, agent) <==> t in targets && agent in t.agents
  {
    if targets != [] {
      TargetsOfMembers(targets[1..], agent);
      assert targets == [targets[0]] + targets[1..];
    }
  }

  lemma SameTarget(p: Plan, t: Target, u: Target)
    requires WellNamed(p) && t in p.targets && u in p.targets && t.id == u.id
    ensures t == u
  {
    var i :| 0 <= i < |p.targets| && p.targets[i] == t;
    var j :| 0 <= j < |p.targets| && p.targets[j] == u;
    if i < j || j < i {
      assert false;
    }
  }

  /** A check of the selection and the check of the plan that bears its name at the same target. */
  predicate Corresponds(p: Plan, sel: Selection, agent: string, t: Target, i: nat, t': Target, j: nat) {
    && t in TargetsOf(p.targets, agent) && t' in TargetsOf(Selected(p, sel).targets, agent)
    && t.id == t'.id && i < |t.checks| && j < |t'.checks| && t.checks[i].id == t'.checks[j].id
  }

  function InPlan(v: World, targets: seq<Target>, agent: string, t: Target, i: nat): Verdict
    requires i < |t.checks|
  {
    Predicted(v, TargetsOf(targets, agent), t, i)
  }

  /** Where the selection rotates for an SSID the plan does too, and under the same network if under the same target. */
  lemma RotatorsOf(p: Plan, sel: Selection, agent: string, ssid: string)
    requires WellNamed(p)
    ensures var u, u' := Rotator(TargetsOf(p.targets, agent), ssid), Rotator(TargetsOf(Selected(p, sel).targets, agent), ssid);
      u'.Some? ==> u.Some? && (u.value.id == u'.value.id ==> u.value.network == u'.value.network)
  {
    hide Selected, WithChecks, Rotator, TargetsOf, WellNamed;
    var full, cut := TargetsOf(p.targets, agent), TargetsOf(Selected(p, sel).targets, agent);
    RotatorMember(full, ssid);
    RotatorMember(cut, ssid);
    if Rotator(cut, ssid).Some? {
      TargetsOfMembers(p.targets, agent);
      TargetsOfMembers(Selected(p, sel).targets, agent);
      var u' := Rotator(cut, ssid).value;
      var t, ids, all := SelectedOrigin(p, sel, u');
      CutNetwork(u', t, ids, all);
      CutAgents(u', t, ids, all, agent);
      RotatorExists(full, t);
      if Rotator(full, ssid).value.id == t.id {
        SameTarget(p, t, Rotator(full, ssid).value);
      }
    }
  }

  lemma CutAgents(t': Target, t: Target, ids: set<string>, all: bool, agent: string)
    requires CutFrom(t', t, ids, all) && agent in t'.agents
    ensures agent in t.agents
  {
  }

  lemma {:induction false} RotatorMember(targets: seq<Target>, ssid: string)
    ensures var u := Rotator(targets, ssid);
      u.Some? ==> u.value in targets && u.value.network.rotation == PerRound && u.value.network.ssid == ssid
  {
    if targets != [] {
      RotatorMember(targets[1..], ssid);
    }
  }

  lemma ReadyElsewhere(v: World, full: seq<Target>, cut: seq<Target>, t: Target, i: nat, t': Target, j: nat)
    requires t in full && t' in cut && t.network == t'.network && i < |t.checks| && j < |t'.checks|
    requires var u, u' := Rotator(full, t.network.ssid), Rotator(cut, t.network.ssid);
      u'.Some? ==> u.Some? && (u.value.id == u'.value.id ==> u.value.network == u'.value.network)
    ensures ReadyOnce(v, full, cut, t, i, t', j) <==> RotatedElsewhere(v, full, cut, t, i, t', j)
  {
    hide Rotator, AllProceed, BandBarred, Prepared;
    if t.network.rotation == PerRound {
      RotatorExists(full, t);
      RotatorExists(cut, t');
    }
  }

  /**
   For every plan, selection and world, and every check that the selection keeps: its verdict is
   kept if and only if none of the three disturbances happens.
   */
  lemma VerdictKeptExactly(v: World, p: Plan, sel: Selection, agent: string, t: Target, i: nat, t': Target, j: nat)
    requires WellNamed(p) && Corresponds(p, sel, agent, t, i, t', j)
    ensures InPlan(v, p.targets, agent, t, i) == InPlan(v, Selected(p, sel).targets, agent, t', j) <==>
      Undisturbed(v, TargetsOf(p.targets, agent), TargetsOf(Selected(p, sel).targets, agent), t, i, t', j)
  {
    hide WellNamed, Predicted, Selected, Banded, WithChecks, BarredByPlan, CutOff, ReadyOnce, RotatedElsewhere, TargetsOf, Rotator;
    TargetsOfMembers(p.targets, agent);
    TargetsOfMembers(Selected(p, sel).targets, agent);
    var full, cut := TargetsOf(p.targets, agent), TargetsOf(Selected(p, sel).targets, agent);
    var u, ids, all := SelectedOrigin(p, sel, t');
    CutNetwork(t', u, ids, all);
    SameTarget(p, t, u);
    assert DistinctChecks(t.checks) by { ChecksDistinct(p, t); }
    if Preflighted(cut) {
      SelectionPreflights(p, sel, agent);
    }
    CutVerdict(v, full, cut, t, t', ids, all, i, j);
    RotatorsOf(p, sel, agent, t.network.ssid);
    ReadyElsewhere(v, full, cut, t, i, t', j);
  }

  lemma SelectionPreflights(p: Plan, sel: Selection, agent: string)
    requires Preflighted(TargetsOf(Selected(p, sel).targets, agent))
    ensures Preflighted(TargetsOf(p.targets, agent))
  {
    hide Selected, WithChecks, Banded;
    TargetsOfMembers(p.targets, agent);
    TargetsOfMembers(Selected(p, sel).targets, agent);
    var t' :| t' in TargetsOf(Selected(p, sel).targets, agent) && Banded(t');
    var t, ids, all := SelectedOrigin(p, sel, t');
    CutNetwork(t', t, ids, all);
    SameBand(t, t');
    assert agent in t.agents;
  }

  lemma CutNetwork(t': Target, t: Target, ids: set<string>, all: bool)
    requires CutFrom(t', t, ids, all)
    ensures t'.id == t.id && t'.network == t.network
  {
  }

  lemma SameBand(t: Target, t': Target)
    requires t.network == t'.network
    ensures Banded(t) <==> Banded(t')
  {
  }

  lemma ChecksDistinct(p: Plan, t: Target)
    requires WellNamed(p) && t in p.targets
    ensures DistinctChecks(t.checks)
  {
  }

  /** Every check of a selection is a check of the plan, at the same target and for the same agent. */
  lemma SelectedCheckHasOrigin(p: Plan, sel: Selection, agent: string, t': Target, j: nat)
    returns (t: Target, i: nat)
    requires t' in TargetsOf(Selected(p, sel).targets, agent) && j < |t'.checks|
    ensures Corresponds(p, sel, agent, t, i, t', j) && t.checks[i] == t'.checks[j]
  {
    hide Selected, KeptChecks, Kept;
    TargetsOfMembers(p.targets, agent);
    TargetsOfMembers(Selected(p, sel).targets, agent);
    var ids: set<string>, all: bool;
    t, ids, all := SelectedOrigin(p, sel, t');
    if all {
      i := j;
    } else {
      KeptMembers(t.checks, ids, |t.checks|);
      assert t'.checks[j] in t'.checks;
      var m :| 0 <= m < |t.checks| && Kept(t.checks, ids, m) && t.checks[m] == t'.checks[j];
      i := m;
    }
  }

  /**
   What a selection preserves: whatever the two runs' clocks and oracles, as long as both answer
   every step by target and check, a check that the selection keeps ends with the same outcome
   and the same reason in both, unless a capability check that only the plan makes bars its
   target, an operator ends a check in front of it that the selection drops, or the rotation of
   its SSID succeeds under one of the first targets of plan and selection only; and then not.
   */
  lemma SelectionPreservesVerdicts(
      v: World, p: Plan, sel: Selection, w: Worker, k: Clock, w': Worker, k': Clock, x: nat, i: nat, x': nat, j: nat)
    requires WellNamed(p)
    requires var full, cut := TargetsOf(p.targets, w.agent), TargetsOf(Selected(p, sel).targets, w.agent);
      && ValidTargets(full) && ValidTargets(cut) && x < |full| && x' < |cut|
      && Corresponds(p, sel, w.agent, full[x], i, cut[x'], j)
      && Faithful(v, full, RunRound(w, full, k).0) && Faithful(v, cut, RunRound(w', cut, k').0)
    ensures var full, cut := TargetsOf(p.targets, w.agent), TargetsOf(Selected(p, sel).targets, w.agent);
      var here, there := RunRound(w, full, k).0.visits[x], RunRound(w', cut, k').0.visits[x'];
      && Accounts(full[x], here) && Accounts(cut[x'], there)
      && (VerdictOf(CheckReport(full[x], here, i)) == VerdictOf(CheckReport(cut[x'], there, j)) <==>
            Undisturbed(v, full, cut, full[x], i, cut[x'], j))
  {
    hide RunRound, Faithful, Predicted, Selected, WellNamed, Accounts, CheckReport, TargetsOf, ValidTargets, Undisturbed;
    var full, cut := TargetsOf(p.targets, w.agent), TargetsOf(Selected(p, sel).targets, w.agent);
    VerdictKeptExactly(v, p, sel, w.agent, full[x], i, cut[x'], j);
    VerdictsDetermined(v, w, full, k, x, i);
    VerdictsDetermined(v, w', cut, k', x', j);
  }
}
