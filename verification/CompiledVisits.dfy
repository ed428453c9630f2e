/**
 What a network of a plan asks for and what a run does for it: the reports, dispatches and cleanup
 of every visit of its compiled target.
 */
module CompiledVisits {
  import opened Outcomes
  import opened Policies
  import opened PolicyLaws
  import opened CheckLoop
  import opened Plans
  import opened Rounds
  import opened Traces
  import opened CostSoundness
  import opened RotationLaws
  import opened Compile

  /** A network names its rotation with dashes or underscores. */
  predicate RotatesPerRound(n: NetworkSpec) {
    n.rotation == "per_round" || n.rotation == "per-round"
  }

  predicate RotatesPerTarget(n: NetworkSpec) {
    n.rotation == "per_target" || n.rotation == "per-target"
  }

  lemma RotationsNamed(n: NetworkSpec)
    ensures RotatesPerRound(n) <==> RotationMode(n) == PerRound
    ensures RotatesPerTarget(n) <==> RotationMode(n) == PerTarget
  {
    hide Underscored;
    PerRoundNamed(n.rotation);
    PerTargetNamed(n.rotation);
    assert "per_round"[4] == 'r' && "per_target"[4] == 't';
  }

  lemma PerRoundNamed(r: string)
    ensures Underscored(r) == "per_round" <==> r == "per_round" || r == "per-round"
  {
    if Underscored(r) == "per_round" {
      Dashes(r, "per_round");
      assert r == "per" + [r[3]] + "round";
      assert "per" + ['_'] + "round" == "per_round" && "per" + ['-'] + "round" == "per-round";
    }
    assert Underscored("per-round") == "per_round" && Underscored("per_round") == "per_round";
  }

  lemma PerTargetNamed(r: string)
    ensures Underscored(r) == "per_target" <==> r == "per_target" || r == "per-target"
  {
    if Underscored(r) == "per_target" {
      Dashes(r, "per_target");
      assert r == "per" + [r[3]] + "target";
      assert "per" + ['_'] + "target" == "per_target" && "per" + ['-'] + "target" == "per-target";
    }
    assert Underscored("per-target") == "per_target" && Underscored("per_target") == "per_target";
  }

  lemma Dashes(r: string, s: string)
    requires Underscored(r) == s
    ensures |r| == |s| && forall i :: 0 <= i < |r| ==> if s[i] == '_' then r[i] == '_' || r[i] == '-' else r[i] == s[i]
  {
    forall i | 0 <= i < |r|
      ensures if s[i] == '_' then r[i] == '_' || r[i] == '-' else r[i] == s[i]
    {
      assert Underscored(r)[i] == if r[i] == '-' then '_' else r[i];
    }
  }

  // ---------------------------------------------------------------- cleanup

  /**
   Cleanup is as asked: a visit of a compiled target whose connection attempt began disconnects if
   and only if the network asks for it or rotates, and forgets if and only if it asks for that or
   rotates per target and the SSID can be forgotten; no other visit does either.
   */
  lemma CleanupAsAsked(
      p: PlanSpec, i: nat, agents: seq<AgentInfo>, bind: bool, w: Worker, unsupported: set<string>, rotated: set<string>, k: Clock)
    requires i < |p.networks| && TargetOk(p, i, agents, bind)
    ensures
      var n, t := p.networks[i], CompiledTarget(p, i, agents, bind);
      var v := VisitTarget(w, t, unsupported, rotated, k).0;
      && (v.Barred? ==> |v.skips| == |Steps(t)|)
      && var s := ShapeOf(t, v);
      && TraceOf(VisitActions(w, t, v)) == Lay(s)
      && (DisconnectWifi in s.cleanup <==> Began(s.connect) && (n.disconnectAfter || RotatesPerRound(n) || RotatesPerTarget(n)))
      && (ForgetWifi in s.cleanup <==>
            Began(s.connect) && (n.forgetAfter || RotatesPerTarget(n)) && n.ssid in p.forgettable)
      && (s.cleanup == [] || s.cleanup == [DisconnectWifi] || s.cleanup == [ForgetWifi] || s.cleanup == [DisconnectWifi, ForgetWifi])
  {
    hide VisitTarget, Ordered, Gated, VisitActions, Lay, ShapeOf, Steps, ValidTarget, TargetOk, NetworkOk;
    var n, t := p.networks[i], CompiledTarget(p, i, agents, bind);
    CompiledTargetValid(p, i, agents, bind);
    VisitTrace(w, t, unsupported, rotated, k);
    RotationsNamed(n);
    NetworkCompiled(p, i, agents, bind);
  }

  lemma NetworkCompiled(p: PlanSpec, i: nat, agents: seq<AgentInfo>, bind: bool)
    requires i < |p.networks| && TargetOk(p, i, agents, bind)
    ensures var n, m := p.networks[i], CompiledTarget(p, i, agents, bind).network;
      && m.rotation == RotationMode(n) && m.ssid == n.ssid && m.band == n.band
      && (m.disconnectAfter <==> n.disconnectAfter || RotationMode(n) != NoRotation)
      && (m.forgetAfter <==> n.forgetAfter || RotationMode(n) == PerTarget)
      && (m.forgettable <==> n.ssid in p.forgettable)
  {
    hide TargetOk, RotationMode;
  }

  // ---------------------------------------------------------------- steps

  predicate PricedFrom(t: Target, from: nat, checks: seq<Checked>)
    requires from + |checks| == |t.checks|
  {
    forall j :: 0 <= j < |checks| ==> Priced(checks[j].report.attempts, t.checks[from + j].operation)
  }

  lemma PricedMore(t: Target, from: nat, c: Checked, rest: seq<Checked>)
    requires from + 1 + |rest| == |t.checks| && PricedFrom(t, from + 1, rest) && Priced(c.report.attempts, t.checks[from].operation)
    ensures PricedFrom(t, from, [c] + rest)
  {
    hide Priced;
    var all := [c] + rest;
    forall j | 0 <= j < |all|
      ensures Priced(all[j].report.attempts, t.checks[from + j].operation)
    {
      if j > 0 {
        assert all[j] == rest[j - 1] && from + j == from + 1 + (j - 1);
      }
    }
  }

  lemma {:induction false} ChecksPriced(w: Worker, t: Target, from: nat, ready: bool, k: Clock)
    requires ValidTarget(t) && from <= |t.checks|
    ensures PricedFrom(t, from, RunChecks(w, t, from, ready, k).0)
    decreases |t.checks| - from
  {
    if from < |t.checks| {
      hide RunCheck, Continues, Priced, PricedFrom, Normalized;
      if ready {
        var (c, k1) := RunCheck(w, t.id, t.checks[from], k);
        CheckLoad(w, t.id, t.checks[from], k, false);
        ChecksPriced(w, t, from + 1, Continues(t.checks[from], c.report), k1);
        PricedMore(t, from, c, RunChecks(w, t, from + 1, Continues(t.checks[from], c.report), k1).0);
      } else {
        NothingPriced(t.checks[from].operation);
        ChecksPriced(w, t, from + 1, false, k);
        PricedMore(t, from, Checked(Skipped(w, t, t.checks[from], Prerequisite), false, 0), RunChecks(w, t, from + 1, false, k).0);
      }
    }
  }

  lemma OptionalPriced(w: Worker, t: Target, s: Option<Step>, ready: bool, k: Clock)
    requires s.Some? ==> Normalized(s.value.policy)
    ensures var c := RunOptional(w, t, s, ready, k).0;
      c.Some? ==> s.Some? && Priced(c.value.report.attempts, s.value.operation)
  {
    hide RunCheck, Priced;
    if ready && s.Some? {
      CheckLoad(w, t.id, s.value, k, false);
    }
  }

  /** Every step of a visit dispatches what its own operation consists of. */
  predicate Serves(t: Target, v: Visit) {
    v.Visited? ==>
      && (v.connect.Some? ==> t.connect.Some? && Priced(v.connect.value.report.attempts, t.connect.value.operation))
      && (v.wait.Some? ==> t.wait.Some? && Priced(v.wait.value.report.attempts, t.wait.value.operation))
      && |v.checks| == |t.checks| && PricedFrom(t, 0, v.checks)
  }

  lemma BodyServes(w: Worker, t: Target, rotation: Option<RotationTry>, k: Clock)
    requires ValidTarget(t)
    ensures Serves(t, RunBody(w, t, rotation, k).0)
  {
    hide RunChecks, RunCleanup, RunOptional, Priced, PricedFrom;
    var (connect, k1) := RunOptional(w, t, t.connect, true, k);
    var (wait, k2) := RunOptional(w, t, t.wait, Passed(connect), k1);
    OptionalPriced(w, t, t.connect, true, k);
    OptionalPriced(w, t, t.wait, Passed(connect), k1);
    ChecksPriced(w, t, 0, Passed(connect) && Passed(wait), k2);
  }

  lemma VisitServes(w: Worker, t: Target, unsupported: set<string>, rotated: set<string>, k: Clock)
    requires ValidTarget(t)
    ensures Serves(t, VisitTarget(w, t, unsupported, rotated, k).0)
  {
    hide RunBody, Rotate, ValidTarget, NormalizeBand;
    if t.network.rotation == PerTarget {
      var (r, k1) := Rotate(w, t, "before_target", k);
      BodyServes(w, t, Some(r), k1);
    }
    BodyServes(w, t, None, k);
  }

  /** The number that a string of digits spells. */
  function ValueOf(digits: string): int {
    if digits == "" then 0 else 10 * ValueOf(digits[..|digits| - 1]) + (digits[|digits| - 1] as int - '0' as int)
  }

  lemma {:induction false} DecimalSpells(n: nat)
    ensures (forall c :: c in Decimal(n) ==> '0' <= c <= '9') && ValueOf(Decimal(n)) == n
  {
    if n >= 10 {
      DecimalSpells(n / 10);
      assert Decimal(n)[..|Decimal(n)| - 1] == Decimal(n / 10);
    } else {
      assert Decimal(n)[..0] == "";
    }
  }

  /** The name of a check: its own, or its place among the plan's checks or among those of its network. */
  function NameOf(p: PlanSpec, i: nat, j: nat): string
    requires i < |p.networks| && j < |p.checks + p.networks[i].checks|
  {
    var c := (p.checks + p.networks[i].checks)[j];
    if c.source != "" then c.source
    else if j < |p.checks| then "check/" + Decimal(j)
    else "target/" + Decimal(i) + "/check/" + Decimal(j - |p.checks|)
  }

  /** A report of an own step: its name, and nothing dispatched but its command. */
  predicate OwnStep(reports: seq<StepReport>, name: string, command: Command) {
    forall r :: r in reports ==> r.check == name && forall i :: 0 <= i < |r.attempts| ==> r.attempts[i].parts <= [command]
  }

  /** What a shape shows of the network: a connection unless it is read-only, a wait if it asks for one, and the plan's checks before its own. */
  predicate ServesNetwork(p: PlanSpec, i: nat, s: Shape)
    requires i < |p.networks|
  {
    var n := p.networks[i];
    var checks := p.checks + n.checks;
    && (if n.readOnly then s.connect == [] else |s.connect| == 1 && OwnStep(s.connect, "connect", ConnectWifi))
    && (if n.waitConnected then |s.wait| <= 1 && OwnStep(s.wait, "wait_connected", WaitWifiConnected) else s.wait == [])
    && |s.checks| == |checks|
    && forall j :: 0 <= j < |checks| ==>
         && s.checks[j].check == NameOf(p, i, j) && s.checks[j].target == "target/" + Decimal(i)
         && Priced(s.checks[j].attempts, checks[j].operation)
  }

  lemma IdIsName(p: PlanSpec, i: nat, j: nat)
    requires i < |p.networks| && j < |ChecksOf(p, p.networks[i])|
    ensures IdAt(p, i, j) == NameOf(p, i, j)
  {
  }

  lemma BarredServes(p: PlanSpec, i: nat, agents: seq<AgentInfo>, bind: bool, s: Shape)
    requires i < |p.networks| && TargetOk(p, i, agents, bind)
    requires var t := CompiledTarget(p, i, agents, bind);
      Ordered(t, s, true) && NothingDone(s.connect) && NothingDone(s.wait) && NothingDone(s.checks)
    ensures ServesNetwork(p, i, s)
  {
    hide CompiledPolicy, NetworkOk, Acceptable, CheckOk, BoundTo, Bindable, CompiledNetwork, Decimal, NameOf, CheckId, Constituents;
    var n, t := p.networks[i], CompiledTarget(p, i, agents, bind);
    forall j | 0 <= j < |s.checks|
      ensures s.checks[j].attempts == [] && s.checks[j].check == NameOf(p, i, j) && s.checks[j].target == t.id
    {
      assert s.checks[j] in s.checks && t.checks[j].id == IdAt(p, i, j);
      IdIsName(p, i, j);
    }
  }

  lemma ChecksCompiled(p: PlanSpec, i: nat, agents: seq<AgentInfo>, bind: bool)
    requires i < |p.networks| && TargetOk(p, i, agents, bind)
    ensures var n, t := p.networks[i], CompiledTarget(p, i, agents, bind);
      && |t.checks| == |ChecksOf(p, n)|
      && forall j :: 0 <= j < |t.checks| ==> t.checks[j].id == IdAt(p, i, j) && t.checks[j].operation == ChecksOf(p, n)[j].operation
  {
    hide CompiledPolicy, NetworkOk, Acceptable, BoundTo, Bindable, CompiledNetwork, TargetId, Admitted;
    var n, t := p.networks[i], CompiledTarget(p, i, agents, bind);
    forall j | 0 <= j < |t.checks|
      ensures t.checks[j].id == IdAt(p, i, j) && t.checks[j].operation == ChecksOf(p, n)[j].operation
    {
      assert CheckOk(n, ChecksOf(p, n)[j]);
    }
  }

  lemma VisitedServes(p: PlanSpec, i: nat, agents: seq<AgentInfo>, bind: bool, v: Visit)
    requires i < |p.networks| && TargetOk(p, i, agents, bind) && v.Visited?
    requires var t := CompiledTarget(p, i, agents, bind);
      Ordered(t, ShapeOf(t, v), false) && Serves(t, v)
    ensures ServesNetwork(p, i, ShapeOf(CompiledTarget(p, i, agents, bind), v))
  {
    hide CompiledPolicy, NetworkOk, Acceptable, CheckOk, BoundTo, Bindable, CompiledNetwork, Decimal, NameOf, CheckId, AllPassed;
    var n, t := p.networks[i], CompiledTarget(p, i, agents, bind);
    var s := ShapeOf(t, v);
    ChecksCompiled(p, i, agents, bind);
    forall j | 0 <= j < |s.checks|
      ensures s.checks[j].check == NameOf(p, i, j) && s.checks[j].target == t.id && Priced(s.checks[j].attempts, ChecksOf(p, n)[j].operation)
    {
      IdIsName(p, i, j);
      assert s.checks[j] == v.checks[j].report;
    }
    hide Priced;
  }

  /**
   Every visit of a compiled target serves its network: it reports one connection unless the network
   is read-only, a wait only if it is asked for, and the plan's checks and then the network's own
   under the ids they were given; and each of these dispatches nothing but what its own operation
   consists of.
   */
  lemma VisitServesNetwork(
      p: PlanSpec, i: nat, agents: seq<AgentInfo>, bind: bool, w: Worker, unsupported: set<string>, rotated: set<string>, k: Clock)
    requires i < |p.networks| && TargetOk(p, i, agents, bind)
    ensures
      var t := CompiledTarget(p, i, agents, bind);
      var v := VisitTarget(w, t, unsupported, rotated, k).0;
      && (v.Barred? ==> |v.skips| == |Steps(t)|)
      && ServesNetwork(p, i, ShapeOf(t, v))
  {
    hide VisitTarget, Ordered, Lay, ShapeOf, Steps, ValidTarget, TargetOk, Serves, ServesNetwork, CompiledTarget, VisitActions, TraceOf, Owned;
    var t := CompiledTarget(p, i, agents, bind);
    CompiledTargetValid(p, i, agents, bind);
    VisitTrace(w, t, unsupported, rotated, k);
    VisitServes(w, t, unsupported, rotated, k);
    var v := VisitTarget(w, t, unsupported, rotated, k).0;
    if v.Barred? {
      BarredServes(p, i, agents, bind, ShapeOf(t, v));
    } else {
      VisitedServes(p, i, agents, bind, v);
    }
  }

  // ---------------------------------------------------------------- policies and prerequisites

  /** Room for n samples in a window: one at the start of each full interval, one for what is left over, and a final one. */
  predicate Room(n: int, window: int, interval: int) {
    if window == 0 then n == 1 else n >= 2 && (n - 2) * interval <= window < (n - 1) * interval
  }

  /** A policy with its gaps filled: one attempt, one repeat, samples a second apart, and time for every operation, delay and window. */
  ghost predicate FilledIn(asked: Policy, operationTimeout: int, p: Policy) {
    && p.attempts == (if asked.attempts == 0 then 1 else asked.attempts)
    && p.repeat == (if asked.repeat == 0 then 1 else asked.repeat)
    && p.interval == (if asked.interval == 0 then 1_000_000_000 else asked.interval)
    && p.delay == asked.delay && p.eventually == asked.eventually && p.stableFor == asked.stableFor
    && (asked.timeout != 0 ==> p.timeout == asked.timeout)
    && (asked.timeout == 0 ==>
          exists n: int :: Room(n, p.eventually + p.stableFor, p.interval)
            && p.timeout == p.attempts * p.repeat * n * (operationTimeout + p.delay) + p.repeat * (p.eventually + p.stableFor))
  }

  lemma PolicyFilledIn(p: Policy, timeout: int64)
    requires Acceptable(p, timeout)
    ensures FilledIn(p, timeout, CompiledPolicy(p, timeout))
  {
    hide AttemptBudget, SamplesPerRepeat, Normalized;
    var d := Defaulted(p);
    if p.timeout == 0 {
      SamplesFitWindow(d);
      TimeoutIs(d, timeout);
      assert Room(SamplesPerRepeat(d), d.eventually + d.stableFor, d.interval);
    }
  }

  lemma TimeoutIs(d: Policy, timeout: int)
    requires d.interval > 0
    ensures DefaultTimeout(d, timeout) ==
      d.attempts * d.repeat * SamplesPerRepeat(d) * (timeout + d.delay) + d.repeat * (d.eventually + d.stableFor)
  {
    hide SamplesPerRepeat;
  }

  /** A compiled target connects, waits and checks under the policies that the network and the plan ask for, each step under its own, and its checks are required as asked. */
  lemma StepsAsAsked(p: PlanSpec, i: nat, agents: seq<AgentInfo>, bind: bool)
    requires i < |p.networks| && TargetOk(p, i, agents, bind)
    ensures var n, t := p.networks[i], CompiledTarget(p, i, agents, bind);
      var checks := p.checks + n.checks;
      && (t.connect.Some? <==> !n.readOnly) && (t.wait.Some? <==> n.waitConnected)
      && (t.connect.Some? ==> FilledIn(n.connectPolicy, n.connect.timeout, t.connect.value.policy))
      && (t.wait.Some? ==> FilledIn(n.waitPolicy, n.wait.timeout, t.wait.value.policy))
      && |t.checks| == |checks|
      && forall j :: 0 <= j < |checks| ==>
           (t.checks[j].required <==> checks[j].required) && FilledIn(checks[j].policy, checks[j].timeout, t.checks[j].policy)
  {
    hide CompiledPolicy, NetworkOk, Acceptable, BoundTo, Bindable, CompiledNetwork, TargetId, Admitted, FilledIn;
    var n, t := p.networks[i], CompiledTarget(p, i, agents, bind);
    if !n.readOnly {
      PolicyFilledIn(n.connectPolicy, n.connect.timeout);
    }
    if n.waitConnected {
      PolicyFilledIn(n.waitPolicy, n.wait.timeout);
    }
    var checks := ChecksOf(p, n);
    forall j | 0 <= j < |checks|
      ensures (t.checks[j].required <==> checks[j].required) && FilledIn(checks[j].policy, checks[j].timeout, t.checks[j].policy)
    {
      assert CheckOk(n, checks[j]);
      PolicyFilledIn(checks[j].policy, checks[j].timeout);
    }
  }

  /** Whether a report keeps the checks behind it from running. */
  predicate Obstructs(required: bool, r: StepReport) {
    r.outcome != Pass && (required || r.outcome == Canceled || r.reason == Operator)
  }

  lemma ClearAsAsked(t: Target, rs: seq<StepReport>, j: nat)
    requires j <= |rs| == |t.checks|
    ensures Clear(t, rs[..j]) <==> !exists m :: 0 <= m < j && Obstructs(t.checks[m].required, rs[m])
  {
    forall m | 0 <= m < j
      ensures rs[..j][m] == rs[m]
    {
    }
    if !Clear(t, rs[..j]) {
      var m :| 0 <= m < j && rs[..j][m].outcome != Pass
        && (t.checks[m].required || rs[..j][m].outcome == Canceled || rs[..j][m].reason == Operator);
      assert Obstructs(t.checks[m].required, rs[m]);
    }
  }

  lemma VisitedRotated(w: Worker, t: Target, unsupported: set<string>, rotated: set<string>, k: Clock)
    requires ValidTarget(t)
    ensures var v := VisitTarget(w, t, unsupported, rotated, k).0;
      v.Visited? ==> AllPassed(ShapeOf(t, v).rotation)
  {
    hide VisitTarget, Rotates, ValidTarget;
    VisitRotates(w, t, unsupported, rotated, k);
  }

  /**
   Prerequisites are as asked: in a visit that is not barred a check is left out for a prerequisite if
   and only if the connection or the wait did not pass, or an earlier check was asked to be required
   and did not pass, or was canceled or skipped by an operator.
   */
  lemma PrerequisitesAsAsked(
      p: PlanSpec, i: nat, agents: seq<AgentInfo>, bind: bool, w: Worker, unsupported: set<string>, rotated: set<string>, k: Clock)
    requires i < |p.networks| && TargetOk(p, i, agents, bind)
    requires VisitTarget(w, CompiledTarget(p, i, agents, bind), unsupported, rotated, k).0.Visited?
    ensures var t := CompiledTarget(p, i, agents, bind);
      var s := ShapeOf(t, VisitTarget(w, t, unsupported, rotated, k).0);
      var checks := p.checks + p.networks[i].checks;
      && |s.checks| == |checks|
      && forall j :: 0 <= j < |checks| ==>
           (s.checks[j].reason == Prerequisite <==>
              || !AllPassed(s.connect) || !AllPassed(s.wait)
              || exists m :: 0 <= m < j && Obstructs(checks[m].required, s.checks[m]))
  {
    hide VisitTarget, Lay, ShapeOf, Steps, ValidTarget, TargetOk, CompiledTarget, VisitActions, TraceOf, Owned, FilledIn, AllPassed, Obstructs;
    var t := CompiledTarget(p, i, agents, bind);
    CompiledTargetValid(p, i, agents, bind);
    var s := ShapeOf(t, VisitTarget(w, t, unsupported, rotated, k).0);
    StepsAsAsked(p, i, agents, bind);
    VisitTrace(w, t, unsupported, rotated, k);
    VisitedRotated(w, t, unsupported, rotated, k);
    forall j | 0 <= j < |s.checks|
      ensures Clear(t, s.checks[..j]) <==> !exists m :: 0 <= m < j && Obstructs(t.checks[m].required, s.checks[m])
    {
      ClearAsAsked(t, s.checks, j);
    }
  }

  // ---------------------------------------------------------------- which networks are accepted

  /** A read-only network with nothing but what such a network may have. */
  function Observer(n: NetworkSpec): NetworkSpec {
    NetworkSpec(
      n.ssid, n.networkId, Secret("", ""), n.resolves, "", "", "", "", 0, 0, false, false, false, false, false,
      Policy(0, 0, 0, 0, 0, 0, 0), Policy(0, 0, 0, 0, 0, 0, 0), true, n.activeProbes, n.agent, n.checks, n.connect, n.wait)
  }

  /** A read-only network is accepted exactly when it says nothing but its SSID, its Network ID, its agent, its probes and its checks. */
  lemma ObserversOnly(n: NetworkSpec)
    requires n.readOnly
    ensures NetworkOk(n) <==> !Blank(n.ssid) && n == Observer(n)
  {
    hide Blank;
    assert Underscored("") == "";
  }

  /**
   An owned network is accepted exactly when it names its SSID and no Network ID, its timeouts are not
   negative, its secret can be had, and it names no rotation or a known one that agrees with its
   randomization.
   */
  lemma OwnersOnly(n: NetworkSpec)
    requires !n.readOnly
    ensures NetworkOk(n) <==>
      && !Blank(n.ssid) && n.networkId == "" && n.connectTimeout >= 0 && n.waitTimeout >= 0
      && (n.psk.env == "" || n.resolves)
      && (n.rotation == "" || n.rotation == "none"
          || ((RotatesPerRound(n) || RotatesPerTarget(n)) && (n.macRandomization == "" || n.macRandomization == "non-persistent")))
  {
    hide Blank, Underscored;
    RotationsNamed(n);
    PlainNamed(n.rotation);
  }

  lemma PlainNamed(r: string)
    ensures (Underscored(r) == "" <==> r == "") && (Underscored(r) == "none" <==> r == "none")
  {
    if Underscored(r) == "none" {
      Dashes(r, "none");
      assert r == "none";
    }
    assert Underscored("none") == "none" && |Underscored(r)| == |r|;
  }
}
