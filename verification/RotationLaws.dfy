/**
 The steps that a round adds to those of its targets, the capability check and the rotations: which
 there are, what they are called, and what they dispatch.
 */
module RotationLaws {
  import opened Policies
  import opened Outcomes
  import opened CheckLoop
  import opened Plans
  import opened Rounds
  import opened CostSoundness
  import opened Compile

  /** A report of an own step: its target, its name, and one attempt at most, of nothing but its command. */
  predicate Reported(c: Checked, target: string, name: string, command: Command) {
    && c.report.target == target && c.report.check == name
    && |c.report.attempts| <= 1
    && forall i :: 0 <= i < |c.report.attempts| ==> c.report.attempts[i].parts <= [command]
  }

  /** A rotation forgets the SSID of its target, and is not to be had for an SSID that cannot be forgotten. */
  predicate Rotates(t: Target, r: RotationTry, name: string) {
    && (r.Tried? <==> t.network.forgettable)
    && (r.Tried? ==> Reported(r.result, t.id, name, ForgetWifi))
  }

  predicate AllRotate(targets: seq<Target>, tries: seq<RotationTry>, name: string)
    requires |tries| == |targets|
  {
    forall i :: 0 <= i < |targets| ==> Rotates(targets[i], tries[i], name)
  }

  lemma OnceReported(w: Worker, target: string, s: Step, command: Command, timeout: int64, k: Clock)
    requires timeout >= 1 && s.policy == OncePolicy(timeout) && Constituents(s.operation) == [command]
    ensures Reported(RunCheck(w, target, s, k).0, target, s.id, command)
  {
    hide Check;
    CheckLoad(w, target, s, k, false);
    OnceLoad(s, false);
  }

  lemma RotateReported(w: Worker, t: Target, phase: string, k: Clock)
    ensures Rotates(t, Rotate(w, t, phase, k).0, "rotation/" + phase)
  {
    hide RunCheck, Reported;
    OnceReported(w, t.id, RotationStep(phase), ForgetWifi, 15 * ONE_SECOND, k);
  }

  lemma {:induction false} AllReported(w: Worker, targets: seq<Target>, phase: string, k: Clock)
    ensures AllRotate(targets, RotateAll(w, targets, phase, k).0, "rotation/" + phase)
  {
    if targets != [] {
      hide Rotate, Rotates;
      RotateReported(w, targets[0], phase, k);
      AllReported(w, targets[1..], phase, Rotate(w, targets[0], phase, k).1);
    }
  }

  // ---------------------------------------------------------------- which targets rotate

  /** The first target with its SSID among those that rotate per round. */
  predicate FirstOfSsid(targets: seq<Target>, i: nat)
    requires i < |targets|
  {
    && targets[i].network.rotation == PerRound
    && forall j :: 0 <= j < i && targets[j].network.rotation == PerRound ==> targets[j].network.ssid != targets[i].network.ssid
  }

  function FirstOnes(targets: seq<Target>, n: nat): seq<Target>
    requires n <= |targets|
  {
    if n == 0 then [] else FirstOnes(targets, n - 1) + if FirstOfSsid(targets, n - 1) then [targets[n - 1]] else []
  }

  lemma {:induction false} RotationTargetsSnoc(targets: seq<Target>, t: Target, seen: set<string>)
    ensures RotationTargets(targets + [t], seen) ==
      RotationTargets(targets, seen)
      + if t.network.rotation == PerRound && t.network.ssid !in seen
           && forall u :: u in targets && u.network.rotation == PerRound ==> u.network.ssid != t.network.ssid
        then [t] else []
  {
    if targets == [] {
      assert [] + [t] == [t] && [t][1..] == [];
    } else {
      var first, rest := targets[0], targets[1..];
      var all := targets + [t];
      assert all[0] == first && all[1..] == rest + [t] && targets == [first] + rest;
      if first.network.rotation == PerRound && first.network.ssid !in seen {
        RotationTargetsSnoc(rest, t, seen + {first.network.ssid});
      } else {
        RotationTargetsSnoc(rest, t, seen);
      }
    }
  }

  /** The rotations of a round, before it and after it, are those of the first target of every SSID that rotates per round, in plan order. */
  lemma {:induction false} RotationTargetsAreFirst(targets: seq<Target>, n: nat)
    requires n <= |targets|
    ensures RotationTargets(targets[..n], {}) == FirstOnes(targets, n)
  {
    if n > 0 {
      hide RotationTargets;
      var front, t := targets[..n - 1], targets[n - 1];
      RotationTargetsAreFirst(targets, n - 1);
      RotationTargetsSnoc(front, t, {});
      assert targets[..n] == front + [t];
      assert (t.network.rotation == PerRound
          && forall u :: u in front && u.network.rotation == PerRound ==> u.network.ssid != t.network.ssid)
        <==> FirstOfSsid(targets, n - 1) by {
        forall j | 0 <= j < n - 1
          ensures targets[j] in front
        {
          assert front[j] == targets[j];
        }
      }
    }
  }

  // ---------------------------------------------------------------- a round

  /**
   The own steps of a round: a capability check exactly when a target is bound to a band; and for the
   first target of every SSID that rotates per round a rotation before the targets and one after
   them, under their names, of one attempt that dispatches one command.
   */
  lemma RoundOwnSteps(w: Worker, targets: seq<Target>, k: Clock)
    requires ValidTargets(targets)
    ensures var r, firsts := RunRound(w, targets, k).0, FirstOnes(targets, |targets|);
      && (r.preflight.Some? <==> exists t :: t in targets && t.network.band != "" && t.network.band != "all")
      && (r.preflight.Some? ==> Reported(r.preflight.value, "preflight", "capabilities", GetWifiCapabilities))
      && |r.before| == |firsts| == |r.after|
      && AllRotate(firsts, r.before, "rotation/before_round")
      && AllRotate(firsts, r.after, "rotation/after_round")
  {
    hide Preflight, RotateAll, VisitAll, RotationTargets, RotatedSsids, UnsupportedBands, ValidTargets, AllRotate, Reported, FirstBanded, FirstOnes;
    assert targets[..|targets|] == targets;
    RotationTargetsAreFirst(targets, |targets|);
    var firsts := RotationTargets(targets, {});
    var (preflight, k1) := Preflight(w, targets, k);
    PreflightReported(w, targets, k);
    AllReported(w, firsts, "before_round", k1);
    var (before, k2) := RotateAll(w, firsts, "before_round", k1);
    var k3 := VisitAll(w, targets, UnsupportedBands(preflight), RotatedSsids(firsts, before), k2).1;
    AllReported(w, firsts, "after_round", k3);
    assert "rotation/" + "before_round" == "rotation/before_round" && "rotation/" + "after_round" == "rotation/after_round";
  }

  lemma PreflightReported(w: Worker, targets: seq<Target>, k: Clock)
    ensures var c := Preflight(w, targets, k).0;
      && (c.Some? <==> exists t :: t in targets && Banded(t))
      && (c.Some? ==> Reported(c.value, "preflight", "capabilities", GetWifiCapabilities))
  {
    hide RunCheck, Reported, FirstBanded;
    FirstBandedFound(targets);
    OnceReported(w, "preflight", CapabilityStep(), GetWifiCapabilities, 20 * ONE_SECOND, k);
  }

  /** A visit rotates exactly when its target rotates per target and nothing bars it before that. */
  lemma VisitRotates(w: Worker, t: Target, unsupported: set<string>, rotated: set<string>, k: Clock)
    requires ValidTarget(t)
    ensures var v := VisitTarget(w, t, unsupported, rotated, k).0;
      && (v.rotation.Some? <==> t.network.rotation == PerTarget && NormalizeBand(t.network.band) !in unsupported)
      && (v.rotation.Some? ==> Rotates(t, v.rotation.value, "rotation/before_target"))
      && (v.rotation.Some? ==> (v.Barred? <==> v.rotation.value.Unbuilt? || v.rotation.value.result.report.outcome != Pass))
  {
    hide RunBody, Rotate, Rotates, ValidTarget, NormalizeBand;
    RotateReported(w, t, "before_target", k);
    assert "rotation/" + "before_target" == "rotation/before_target";
  }

  // ---------------------------------------------------------------- what bars a visit

  /** A capability check that passed reported the band of the target as unsupported, up to case and spaces. */
  predicate BandBars(preflight: Option<Checked>, t: Target) {
    && preflight.Some? && preflight.value.report.outcome == Pass && preflight.value.report.attempts != []
    && var attempts := preflight.value.report.attempts;
       exists b :: b in attempts[|attempts| - 1].bands && NormalizeBand(b) == NormalizeBand(t.network.band)
  }

  predicate TryFailed(r: RotationTry) {
    r.Unbuilt? || r.result.report.outcome != Pass
  }

  /** No rotation of its SSID before the round passed. */
  predicate RoundBars(firsts: seq<Target>, before: seq<RotationTry>, t: Target)
    requires |before| == |firsts|
  {
    && t.network.rotation == PerRound
    && forall m :: 0 <= m < |firsts| && firsts[m].network.ssid == t.network.ssid ==> TryFailed(before[m])
  }

  predicate BarredBy(t: Target, v: Visit, band: bool, round: bool) {
    && (v.Barred? <==> band || round || (t.network.rotation == PerTarget && v.rotation.Some? && TryFailed(v.rotation.value)))
    && (v.rotation.Some? <==> t.network.rotation == PerTarget && !band)
    && (v.Barred? ==> forall i :: 0 <= i < |v.skips| ==>
          v.skips[i].outcome == Skip && v.skips[i].attempts == [] && v.skips[i].reason == if band then Unsupported else Prerequisite)
  }

  lemma VisitBarred(w: Worker, t: Target, unsupported: set<string>, rotated: set<string>, k: Clock)
    requires ValidTarget(t)
    ensures BarredBy(t, VisitTarget(w, t, unsupported, rotated, k).0,
                     NormalizeBand(t.network.band) in unsupported, t.network.rotation == PerRound && t.network.ssid !in rotated)
  {
    hide RunBody, Rotate, ValidTarget, NormalizeBand, Steps;
  }

  lemma {:induction false} VisitsBarred(w: Worker, targets: seq<Target>, unsupported: set<string>, rotated: set<string>, k: Clock, i: nat)
    requires ValidTargets(targets) && i < |targets|
    ensures var t := targets[i];
      BarredBy(t, VisitAll(w, targets, unsupported, rotated, k).0[i],
               NormalizeBand(t.network.band) in unsupported, t.network.rotation == PerRound && t.network.ssid !in rotated)
  {
    hide VisitTarget, ValidTarget, NormalizeBand, BarredBy;
    if i == 0 {
      VisitBarred(w, targets[0], unsupported, rotated, k);
    } else {
      VisitsBarred(w, targets[1..], unsupported, rotated, VisitTarget(w, targets[0], unsupported, rotated, k).1, i - 1);
    }
  }

  lemma RoundBarsExactly(firsts: seq<Target>, before: seq<RotationTry>, t: Target)
    requires |before| == |firsts|
    ensures t.network.rotation == PerRound && t.network.ssid !in RotatedSsids(firsts, before) <==> RoundBars(firsts, before, t)
  {
  }

  lemma BandBarsExactly(preflight: Option<Checked>, t: Target)
    ensures NormalizeBand(t.network.band) in UnsupportedBands(preflight) <==> BandBars(preflight, t)
  {
    hide NormalizeBand;
  }

  /**
   A visit of a round is barred in exactly three cases: a capability check that passed reported its band
   as unsupported; its target rotates per round, and no rotation of the SSID before the round passed;
   or its own rotation did not pass.  All its steps are then skipped, as unsupported in the first case
   and for a prerequisite in the others.
   */
  lemma BarredExactly(w: Worker, targets: seq<Target>, k: Clock, i: nat)
    requires ValidTargets(targets) && i < |targets|
    ensures var r, firsts := RunRound(w, targets, k).0, FirstOnes(targets, |targets|);
      && |r.before| == |firsts|
      && BarredBy(targets[i], r.visits[i], BandBars(r.preflight, targets[i]), RoundBars(firsts, r.before, targets[i]))
  {
    hide Preflight, RotateAll, VisitAll, RotationTargets, RotatedSsids, UnsupportedBands, ValidTargets, BarredBy, BandBars, RoundBars, FirstOnes, NormalizeBand;
    assert targets[..|targets|] == targets;
    RotationTargetsAreFirst(targets, |targets|);
    var firsts := RotationTargets(targets, {});
    var (preflight, k1) := Preflight(w, targets, k);
    var (before, k2) := RotateAll(w, firsts, "before_round", k1);
    VisitsBarred(w, targets, UnsupportedBands(preflight), RotatedSsids(firsts, before), k2, i);
    RoundBarsExactly(firsts, before, targets[i]);
    BandBarsExactly(preflight, targets[i]);
  }

  /** The policy of an own step is what an empty policy is compiled to. */
  lemma OwnPolicyCompiled(timeout: int64)
    requires timeout >= 1
    ensures var none := Policy(0, 0, 0, 0, 0, 0, 0);
      Acceptable(none, timeout) && CompiledPolicy(none, timeout) == OncePolicy(timeout)
  {
    var d := Policy(1, 1, 0, 0, 0, ONE_SECOND, 0);
    assert SamplesPerRepeat(d) == 1 && Window(d) == 0;
    assert AttemptBudget(d) == 1 && DefaultTimeout(d, timeout) == timeout by { OneAttempt(d, timeout); }
    hide AttemptBudget, DefaultTimeout, SamplesPerRepeat;
    assert Defaulted(Policy(0, 0, 0, 0, 0, 0, 0)) == d;
  }

  lemma OneAttempt(d: Policy, timeout: int64)
    requires d == Policy(1, 1, 0, 0, 0, ONE_SECOND, 0)
    ensures AttemptBudget(d) == 1 && DefaultTimeout(d, timeout) == timeout
  {
    hide AttemptBudget, DefaultTimeout, SamplesPerRepeat;
    OneSample(d);
    OneOfOne(d);
    OneDefault(d, timeout);
  }

  lemma OneDefault(d: Policy, timeout: int)
    requires d.interval > 0 && AttemptBudget(d) == 1 && d.repeat == 1 && d.delay == 0 && Window(d) == 0
    ensures DefaultTimeout(d, timeout) == timeout
  {
    hide AttemptBudget, Window;
    OneRepeat(AttemptBudget(d), timeout + d.delay, d.repeat, Window(d));
  }

  lemma OneRepeat(n: int, each: int, repeats: int, window: int)
    requires n == 1 && repeats == 1 && window == 0
    ensures n * each + repeats * window == each
  {
  }

  lemma Once(n: int, x: int)
    requires n == 1
    ensures n * x == x
  {
  }

  lemma OneSample(d: Policy)
    requires d == Policy(1, 1, 0, 0, 0, ONE_SECOND, 0)
    ensures SamplesPerRepeat(d) == 1
  {
  }

  lemma OneOfOne(d: Policy)
    requires d == Policy(1, 1, 0, 0, 0, ONE_SECOND, 0) && SamplesPerRepeat(d) == 1
    ensures AttemptBudget(d) == 1
  {
    hide SamplesPerRepeat;
    Once(d.attempts, d.repeat);
    Once(d.attempts * d.repeat, SamplesPerRepeat(d));
  }
}
