/**
 Compilation of a plan (harness/compile.go: compilePlan, bindAgents, activeObservationCommand).
 Building and validating an operation, resolving a secret and binding a selector are given as
 facts about the plan; the rules that read-only and rotating networks obey are spelled out.
 */
module Compile {
  import opened Outcomes
  import opened Policies
  import opened CheckLoop
  import opened Plans

  datatype Secret = Secret(value: string, env: string)

  /** Whether an operation can be built, and how long it may take. */
  datatype Built = Built(ok: bool, timeout: int64)

  /** `valid`: the check builds, its operation and expectations validate; `binds`: its selector agrees with the network. */
  datatype CheckSpec = CheckSpec(
    source: string, valid: bool, operation: Operation, timeout: int64, policy: Policy, required: bool, binds: bool)

  datatype NetworkSpec = NetworkSpec(
    ssid: string, networkId: string, psk: Secret, resolves: bool, security: string, band: string,
    macRandomization: string, rotation: string, connectTimeout: int64, waitTimeout: int64,
    requireIP: bool, requireValidated: bool, waitConnected: bool, disconnectAfter: bool, forgetAfter: bool,
    connectPolicy: Policy, waitPolicy: Policy, readOnly: bool, activeProbes: bool,
    agent: string, checks: seq<CheckSpec>, connect: Built, wait: Built)

  /** `forgettable`: the SSIDs that a forget operation can name. */
  datatype PlanSpec = PlanSpec(networks: seq<NetworkSpec>, checks: seq<CheckSpec>, roundInterval: int64, forgettable: set<string>)

  datatype AgentInfo = AgentInfo(id: string, serial: string)

  const OMITTED := Policy(0, 0, 0, 0, 0, 0, 0)

  // ---------------------------------------------------------------- names

  function Digit(d: nat): char
    requires d < 10
  {
    ('0' as int + d) as char
  }

  function Decimal(n: nat): (s: string)
    ensures s != []
  {
    if n < 10 then [Digit(n)] else Decimal(n / 10) + [Digit(n % 10)]
  }

  lemma {:induction false} DecimalInjective(m: nat, n: nat)
    requires Decimal(m) == Decimal(n)
    ensures m == n
  {
    var a, b := Decimal(m), Decimal(n);
    assert a[|a| - 1] == Digit(m % 10) && b[|b| - 1] == Digit(n % 10);
    assert m % 10 == n % 10;
    if m >= 10 && n >= 10 {
      assert a[..|a| - 1] == Decimal(m / 10) && b[..|b| - 1] == Decimal(n / 10);
      DecimalInjective(m / 10, n / 10);
    }
  }

  function TargetId(i: nat): string {
    "target/" + Decimal(i)
  }

  lemma TargetIdInjective(i: nat, j: nat)
    requires TargetId(i) == TargetId(j)
    ensures i == j
  {
    assert TargetId(i)[7..] == Decimal(i) && TargetId(j)[7..] == Decimal(j);
    DecimalInjective(i, j);
  }

  function CheckId(i: nat, j: nat, shared: nat, source: string): string {
    if source != "" then source
    else if j < shared then "check/" + Decimal(j)
    else TargetId(i) + "/check/" + Decimal(j - shared)
  }

  predicate Space(c: char) {
    var n := c as int;
    9 <= n <= 13 || n == 0x20 || n == 0x85 || n == 0xA0 || n == 0x1680 || 0x2000 <= n <= 0x200A
    || n == 0x2028 || n == 0x2029 || n == 0x202F || n == 0x205F || n == 0x3000
  }

  predicate Blank(s: string) {
    forall c :: c in s ==> Space(c)
  }

  function Underscored(s: string): string {
    seq(|s|, i requires 0 <= i < |s| => if s[i] == '-' then '_' else s[i])
  }

  // ---------------------------------------------------------------- agents

  function AgentKey(a: AgentInfo): string {
    if a.id != "" then a.id else "agent/0"
  }

  function Keys(agents: seq<AgentInfo>): seq<string> {
    seq(|agents|, i requires 0 <= i < |agents| => AgentKey(agents[i]))
  }

  /** The agent's serial number is the selector or, with `exact` unset, properly extends it. */
  predicate Matches(a: AgentInfo, selector: string, exact: bool) {
    if exact then a.serial == selector else a.serial != selector && a.serial != "" && selector <= a.serial
  }

  function Matching(agents: seq<AgentInfo>, selector: string, exact: bool): seq<AgentInfo> {
    if agents == [] then []
    else
      var a := agents[|agents| - 1];
      Matching(agents[..|agents| - 1], selector, exact)
      + if Matches(a, selector, exact) then [a] else []
  }

  predicate Bindable(selector: string, agents: seq<AgentInfo>) {
    && agents != []
    && (selector == ""
        || |Matching(agents, selector, true)| == 1
        || (|Matching(agents, selector, true)| == 0 && |Matching(agents, selector, false)| == 1))
  }

  function BoundTo(selector: string, agents: seq<AgentInfo>): seq<AgentInfo> {
    if selector == "" then agents
    else if |Matching(agents, selector, true)| == 1 then Matching(agents, selector, true)
    else Matching(agents, selector, false)
  }

  method BindAgents(selector: string, agents: seq<AgentInfo>) returns (r: Result<seq<AgentInfo>>)
    ensures r.Ok? <==> Bindable(selector, agents)
    ensures r.Ok? ==> r.value == BoundTo(selector, agents)
  {
    if |agents| == 0 {
      return Err;
    }
    if selector == "" {
      return Ok(agents);
    }
    var exact: seq<AgentInfo>, prefix: seq<AgentInfo> := [], [];
    for i := 0 to |agents|
      invariant exact == Matching(agents[..i], selector, true)
      invariant prefix == Matching(agents[..i], selector, false)
    {
      assert agents[..i + 1][..i] == agents[..i];
      if agents[i].serial == selector {
        exact := exact + [agents[i]];
      } else if agents[i].serial != "" && selector <= agents[i].serial {
        prefix := prefix + [agents[i]];
      }
    }
    assert agents[..|agents|] == agents;
    if |exact| == 1 {
      return Ok(exact);
    }
    if |exact| > 1 || |prefix| > 1 {
      return Err;
    }
    if |prefix| == 1 {
      return Ok(prefix);
    }
    return Err;
  }

  lemma {:induction false} MatchingCount(agents: seq<AgentInfo>, selector: string, exact: bool, i: nat)
    requires i < |agents| && Matches(agents[i], selector, exact)
    ensures agents[i] in Matching(agents, selector, exact)
    ensures forall j :: i < j < |agents| && Matches(agents[j], selector, exact) ==> |Matching(agents, selector, exact)| >= 2
  {
    var n := |agents| - 1;
    if i < n {
      MatchingCount(agents[..n], selector, exact, i);
      assert agents[..n][i] == agents[i];
      forall j | i < j < |agents| && Matches(agents[j], selector, exact)
        ensures |Matching(agents, selector, exact)| >= 2
      {
        if j < n {
          assert agents[..n][j] == agents[j];
        } else {
          assert |Matching(agents[..n], selector, exact)| >= 1;
        }
      }
    }
  }

  lemma {:induction false} MatchingMembers(agents: seq<AgentInfo>, selector: string, exact: bool)
    ensures forall a :: a in Matching(agents, selector, exact) ==> a in agents && Matches(a, selector, exact)
  {
    if agents != [] {
      MatchingMembers(agents[..|agents| - 1], selector, exact);
    }
  }

  /**
   A selector binds exactly one agent: the only one that bears it as its serial number or,
   where none does, the only one whose serial number it begins.
   */
  lemma SelectorBindsOne(selector: string, agents: seq<AgentInfo>, i: nat)
    requires selector != "" && Bindable(selector, agents) && i < |agents|
    requires agents[i].serial == selector || (agents[i] in BoundTo(selector, agents))
    ensures BoundTo(selector, agents) == [agents[i]]
    ensures selector <= agents[i].serial
    ensures forall j :: 0 <= j < |agents| && j != i ==>
      agents[j].serial != selector && (agents[i].serial != selector && agents[j].serial != "" ==> !(selector <= agents[j].serial))
  {
    MatchingMembers(agents, selector, true);
    MatchingMembers(agents, selector, false);
    var bound := BoundTo(selector, agents);
    var exact := agents[i].serial == selector;
    if exact {
      MatchingCount(agents, selector, true, i);
    }
    assert Matches(agents[i], selector, exact);
    MatchingCount(agents, selector, exact, i);
    assert agents[i] in bound && |bound| == 1;
    forall j | 0 <= j < |agents| && j != i
      ensures agents[j].serial != selector && (!exact && agents[j].serial != "" ==> !(selector <= agents[j].serial))
    {
      if agents[j].serial == selector {
        MatchingCount(agents, selector, true, j);
      } else if !exact && agents[j].serial != "" && selector <= agents[j].serial {
        MatchingCount(agents, selector, false, j);
      }
    }
  }

  // ---------------------------------------------------------------- networks

  /** A read-only network asks for nothing that connecting, waiting or cleaning up needs. */
  predicate Owning(n: NetworkSpec) {
    || n.psk.value != "" || n.psk.env != "" || n.band != "" || n.security != "" || n.macRandomization != "" || n.rotation != ""
    || n.waitConnected || n.disconnectAfter || n.forgetAfter || n.connectTimeout != 0 || n.waitTimeout != 0
    || n.requireIP || n.requireValidated || n.connectPolicy != OMITTED || n.waitPolicy != OMITTED
  }

  function RotationMode(n: NetworkSpec): Rotation {
    if Underscored(n.rotation) == "per_target" then PerTarget
    else if Underscored(n.rotation) == "per_round" then PerRound
    else NoRotation
  }

  predicate RotationOk(n: NetworkSpec) {
    || Underscored(n.rotation) == "" || Underscored(n.rotation) == "none"
    || (RotationMode(n) != NoRotation && (n.macRandomization == "" || n.macRandomization == "non-persistent"))
  }

  predicate NetworkOk(n: NetworkSpec) {
    && !Blank(n.ssid)
    && (!n.readOnly ==> n.networkId == "")
    && (n.readOnly ==> !Owning(n))
    && n.connectTimeout >= 0 && n.waitTimeout >= 0
    && (n.psk.env != "" ==> n.resolves)
    && RotationOk(n)
  }

  /** Rotating MAC addresses takes disconnecting, and forgetting where it happens per target. */
  function CompiledNetwork(n: NetworkSpec, forgettable: set<string>): Network {
    var mode := RotationMode(n);
    Network(n.ssid, n.band, mode, n.disconnectAfter || mode != NoRotation, n.forgetAfter || mode == PerTarget, n.ssid in forgettable)
  }

  method NormalizeNetwork(n: NetworkSpec, forgettable: set<string>) returns (r: Result<Network>)
    ensures r.Ok? <==> NetworkOk(n)
    ensures r.Ok? ==> r.value == CompiledNetwork(n, forgettable)
  {
    if Blank(n.ssid) {
      return Err;
    }
    if !n.readOnly && n.networkId != "" {
      return Err;
    }
    if n.readOnly && Owning(n) {
      return Err;
    }
    if n.connectTimeout < 0 || n.waitTimeout < 0 {
      return Err;
    }
    if n.psk.env != "" && !n.resolves {
      return Err;
    }
    var rotation := Underscored(n.rotation);
    var mode, randomization, disconnectAfter, forgetAfter := NoRotation, n.macRandomization, n.disconnectAfter, n.forgetAfter;
    if rotation == "per_target" || rotation == "per_round" {
      if randomization == "" {
        randomization := "non-persistent";
      }
      if randomization != "non-persistent" {
        return Err;
      }
      disconnectAfter := true;
      mode := PerRound;
      if rotation == "per_target" {
        mode := PerTarget;
        forgetAfter := true;
      }
    } else if rotation != "" && rotation != "none" {
      return Err;
    }
    r := Ok(Network(n.ssid, n.band, mode, disconnectAfter, forgetAfter, n.ssid in forgettable));
  }

  // ---------------------------------------------------------------- steps

  lemma DefaultTimeoutPositive(p: Policy, timeout: int)
    requires p.attempts >= 1 && p.repeat >= 1 && p.interval >= 1 && Window(p) >= 0 && timeout + p.delay >= 1
    ensures DefaultTimeout(p, timeout) >= 1 && AttemptBudget(p) >= 1
  {
    var samples := SamplesPerRepeat(p);
    assert samples >= 1;
    AtLeastOne(p.attempts, p.repeat);
    AtLeastOne(p.attempts * p.repeat, samples);
    AtLeastOne(AttemptBudget(p), timeout + p.delay);
    assert p.repeat * Window(p) >= 0;
  }

  lemma AtLeastOne(a: int, b: int)
    requires a >= 1 && b >= 1
    ensures a * b >= 1
  {
  }

  function CompiledPolicy(p: Policy, timeout: int64): (q: Policy)
    requires Acceptable(p, timeout)
    ensures Normalized(q)
  {
    var d := Defaulted(p);
    if d.timeout == 0 then
      DefaultTimeoutPositive(d, timeout);
      d.(timeout := DefaultTimeout(d, timeout))
    else d
  }

  function CompiledStep(id: string, c: CheckSpec): Step
    requires Acceptable(c.policy, c.timeout)
  {
    Step(id, c.operation, CompiledPolicy(c.policy, c.timeout), c.required)
  }

  method CompileStep(id: string, c: CheckSpec) returns (r: Result<Step>)
    ensures r.Ok? <==> c.valid && Acceptable(c.policy, c.timeout)
    ensures r.Ok? ==> r.value == CompiledStep(id, c)
  {
    if !c.valid {
      return Err;
    }
    var policy := NormalizePolicy(c.policy, c.timeout);
    if policy.Err? {
      return Err;
    }
    hide Acceptable, DefaultTimeout, Normalized;
    r := Ok(Step(id, c.operation, policy.value, c.required));
  }

  // ---------------------------------------------------------------- admission of checks

  /** The commands that observe a network, with traffic at most. */
  predicate ActiveObservation(c: Command) {
    match c
    case GetWifiStatus | GetIpStatus | GetWifiDiagnostics | GetWifiScan | GetWifiCapabilities | GetFreshWifiScan
       | GetWifiScanDetail | Ping | ResolveDns | HttpCheck | Traceroute | PathMtu | GlobalIp | Wget => true
    case _ => false
  }

  predicate Admitted(n: NetworkSpec, c: CheckSpec) {
    && (n.readOnly && !n.activeProbes ==>
          c.operation.compound != Gateway && (c.operation.command == GetWifiStatus || c.operation.command == GetIpStatus))
    && (n.activeProbes ==> c.operation.compound != Gateway && ActiveObservation(c.operation.command))
  }

  predicate CheckOk(n: NetworkSpec, c: CheckSpec) {
    && c.valid && Acceptable(c.policy, c.timeout) && Admitted(n, c)
    && (c.operation.compound != Gateway ==> c.binds)
  }

  function ChecksOf(p: PlanSpec, n: NetworkSpec): seq<CheckSpec> {
    p.checks + n.checks
  }

  function IdAt(p: PlanSpec, i: nat, j: nat): string
    requires i < |p.networks| && j < |ChecksOf(p, p.networks[i])|
  {
    CheckId(i, j, |p.checks|, ChecksOf(p, p.networks[i])[j].source)
  }

  predicate ChecksOk(p: PlanSpec, i: nat, m: nat)
    requires i < |p.networks| && m <= |ChecksOf(p, p.networks[i])|
  {
    && (forall j :: 0 <= j < m ==> CheckOk(p.networks[i], ChecksOf(p, p.networks[i])[j]))
    && (forall j, k :: 0 <= j < k < m ==> IdAt(p, i, j) != IdAt(p, i, k))
  }

  function CompiledChecks(p: PlanSpec, i: nat, m: nat): (steps: seq<Step>)
    requires i < |p.networks| && m <= |ChecksOf(p, p.networks[i])| && ChecksOk(p, i, m)
    ensures |steps| == m
    ensures forall j :: 0 <= j < m ==> steps[j] == CompiledStep(IdAt(p, i, j), ChecksOf(p, p.networks[i])[j])
  {
    seq(m, j requires 0 <= j < m => CompiledStep(IdAt(p, i, j), ChecksOf(p, p.networks[i])[j]))
  }

  method UsedId(steps: seq<Step>, id: string) returns (used: bool)
    ensures used <==> exists j :: 0 <= j < |steps| && steps[j].id == id
  {
    used := false;
    for j := 0 to |steps|
      invariant used <==> exists m :: 0 <= m < j && steps[m].id == id
    {
      if steps[j].id == id {
        used := true;
      }
    }
  }

  method CompileChecks(p: PlanSpec, i: nat) returns (r: Result<seq<Step>>)
    requires i < |p.networks|
    ensures r.Ok? <==> ChecksOk(p, i, |ChecksOf(p, p.networks[i])|)
    ensures r.Ok? ==> r.value == CompiledChecks(p, i, |ChecksOf(p, p.networks[i])|)
  {
    hide Acceptable, CompiledPolicy, ActiveObservation, CheckId;
    var n := p.networks[i];
    var checks := ChecksOf(p, n);
    var steps: seq<Step> := [];
    for j := 0 to |checks|
      invariant ChecksOk(p, i, j)
      invariant steps == CompiledChecks(p, i, j)
    {
      var c := checks[j];
      if !c.valid {
        return Err;
      }
      var id := CheckId(i, j, |p.checks|, c.source);
      var used := UsedId(steps, id);
      if used {
        ghost var m :| 0 <= m < |steps| && steps[m].id == id;
        assert IdAt(p, i, m) == IdAt(p, i, j);
        return Err;
      }
      var step := CompileStep(id, c);
      if step.Err? {
        return Err;
      }
      if n.readOnly && !n.activeProbes
         && (c.operation.compound == Gateway || (c.operation.command != GetWifiStatus && c.operation.command != GetIpStatus)) {
        return Err;
      }
      if n.activeProbes {
        if c.operation.compound == Gateway || !ActiveObservation(c.operation.command) {
          return Err;
        }
      }
      if c.operation.compound != Gateway && !c.binds {
        return Err;
      }
      steps := steps + [step.value];
    }
    r := Ok(steps);
  }

  // ---------------------------------------------------------------- targets and plans

  predicate TargetOk(p: PlanSpec, i: nat, agents: seq<AgentInfo>, bind: bool)
    requires i < |p.networks|
  {
    var n := p.networks[i];
    && NetworkOk(n)
    && (!n.readOnly ==> n.connect.ok && Acceptable(n.connectPolicy, n.connect.timeout))
    && (n.waitConnected ==> n.wait.ok && Acceptable(n.waitPolicy, n.wait.timeout))
    && ChecksOk(p, i, |ChecksOf(p, n)|)
    && (n.readOnly ==> ChecksOf(p, n) != [])
    && (bind ==> Bindable(n.agent, agents))
  }

  function ConnectStep(n: NetworkSpec): Step
    requires Acceptable(n.connectPolicy, n.connect.timeout)
  {
    Step("connect", Operation(ConnectWifi, Atomic), CompiledPolicy(n.connectPolicy, n.connect.timeout), true)
  }

  function WaitStep(n: NetworkSpec): Step
    requires Acceptable(n.waitPolicy, n.wait.timeout)
  {
    Step("wait_connected", Operation(WaitWifiConnected, Atomic), CompiledPolicy(n.waitPolicy, n.wait.timeout), true)
  }

  function CompiledTarget(p: PlanSpec, i: nat, agents: seq<AgentInfo>, bind: bool): Target
    requires i < |p.networks| && TargetOk(p, i, agents, bind)
  {
    var n := p.networks[i];
    Target(TargetId(i), CompiledNetwork(n, p.forgettable),
           if n.readOnly then None else Some(ConnectStep(n)),
           if n.waitConnected then Some(WaitStep(n)) else None,
           CompiledChecks(p, i, |ChecksOf(p, n)|),
           if bind then Keys(BoundTo(n.agent, agents)) else [])
  }

  method CompileTarget(p: PlanSpec, i: nat, agents: seq<AgentInfo>, bind: bool) returns (r: Result<Target>)
    requires i < |p.networks|
    ensures r.Ok? <==> TargetOk(p, i, agents, bind)
    ensures r.Ok? ==> r.value == CompiledTarget(p, i, agents, bind)
  {
    hide Acceptable, CompiledPolicy, NetworkOk, CompiledNetwork, ChecksOk, CompiledChecks, Bindable, BoundTo, TargetId;
    var n := p.networks[i];
    var network := NormalizeNetwork(n, p.forgettable);
    if network.Err? {
      return Err;
    }
    var connect: Option<Step>, wait: Option<Step> := None, None;
    if !n.readOnly {
      if !n.connect.ok {
        return Err;
      }
      var step := CompileStep("connect", CheckSpec("", true, Operation(ConnectWifi, Atomic), n.connect.timeout, n.connectPolicy, true, true));
      if step.Err? {
        return Err;
      }
      connect := Some(step.value);
    }
    if n.waitConnected {
      if !n.wait.ok {
        return Err;
      }
      var step := CompileStep("wait_connected", CheckSpec("", true, Operation(WaitWifiConnected, Atomic), n.wait.timeout, n.waitPolicy, true, true));
      if step.Err? {
        return Err;
      }
      wait := Some(step.value);
    }
    var checks := CompileChecks(p, i);
    if checks.Err? {
      return Err;
    }
    if n.readOnly && |checks.value| == 0 {
      return Err;
    }
    var bound: seq<string> := [];
    if bind {
      var b := BindAgents(n.agent, agents);
      if b.Err? {
        return Err;
      }
      bound := Keys(b.value);
    }
    r := Ok(Target(TargetId(i), network.value, connect, wait, checks.value, bound));
  }

  predicate Compilable(p: PlanSpec, agents: seq<AgentInfo>, bind: bool) {
    p.roundInterval >= 0 && p.networks != [] && forall i :: 0 <= i < |p.networks| ==> TargetOk(p, i, agents, bind)
  }

  function CompiledPlan(p: PlanSpec, agents: seq<AgentInfo>, bind: bool): (r: Plan)
    requires Compilable(p, agents, bind)
  {
    Plan(seq(|p.networks|, i requires 0 <= i < |p.networks| => CompiledTarget(p, i, agents, bind)), Keys(agents))
  }

  method CompilePlan(p: PlanSpec, agents: seq<AgentInfo>, bind: bool) returns (r: Result<Plan>)
    ensures r.Ok? <==> Compilable(p, agents, bind)
    ensures r.Ok? ==> r.value == CompiledPlan(p, agents, bind)
  {
    hide TargetOk, CompiledTarget;
    if p.roundInterval < 0 || |p.networks| == 0 {
      return Err;
    }
    var targets: seq<Target> := [];
    for i := 0 to |p.networks|
      invariant |targets| == i
      invariant forall j :: 0 <= j < i ==> TargetOk(p, j, agents, bind) && targets[j] == CompiledTarget(p, j, agents, bind)
    {
      var target := CompileTarget(p, i, agents, bind);
      if target.Err? {
        return Err;
      }
      targets := targets + [target.value];
    }
    r := Ok(Plan(targets, Keys(agents)));
  }

  // ---------------------------------------------------------------- what holds of every compiled plan

  lemma {:induction false} BoundAmong(selector: string, agents: seq<AgentInfo>)
    ensures forall a :: a in BoundTo(selector, agents) ==> a in agents
  {
    MatchingMembers(agents, selector, true);
    MatchingMembers(agents, selector, false);
  }

  lemma KeysAmong(some: seq<AgentInfo>, agents: seq<AgentInfo>)
    requires forall a :: a in some ==> a in agents
    ensures forall k :: k in Keys(some) ==> k in Keys(agents)
  {
    forall k | k in Keys(some)
      ensures k in Keys(agents)
    {
      var i :| 0 <= i < |some| && Keys(some)[i] == k;
      assert some[i] in some;
      var j :| 0 <= j < |agents| && agents[j] == some[i];
      assert Keys(agents)[j] == k;
    }
  }

  lemma CompiledTargetValid(p: PlanSpec, i: nat, agents: seq<AgentInfo>, bind: bool)
    requires i < |p.networks| && TargetOk(p, i, agents, bind)
    ensures var t := CompiledTarget(p, i, agents, bind);
      && ValidTarget(t) && DistinctChecks(t.checks)
      && (forall k :: k in t.agents ==> k in Keys(agents))
  {
    hide CompiledPolicy, NetworkOk, Acceptable, CheckOk, BoundTo, Bindable;
    var n := p.networks[i];
    BoundAmong(n.agent, agents);
    KeysAmong(BoundTo(n.agent, agents), agents);
    assert Keys([]) == [];
  }

  /** A compiled plan is well formed: normalised policies, distinct names, and only agents it was given. */
  lemma CompiledPlanValid(p: PlanSpec, agents: seq<AgentInfo>, bind: bool)
    requires Compilable(p, agents, bind)
    ensures var c := CompiledPlan(p, agents, bind);
      && ValidPlan(c) && WellNamed(c)
      && (forall t, k :: t in c.targets && k in t.agents ==> k in c.agents)
  {
    hide TargetOk, ValidTarget, DistinctChecks, TargetId;
    var c := CompiledPlan(p, agents, bind);
    forall i | 0 <= i < |c.targets|
      ensures c.targets[i].id == TargetId(i) && ValidTarget(c.targets[i]) && DistinctChecks(c.targets[i].checks)
      ensures forall k :: k in c.targets[i].agents ==> k in c.agents
    {
      CompiledTargetValid(p, i, agents, bind);
    }
    forall i, j | 0 <= i < j < |c.targets|
      ensures c.targets[i].id != c.targets[j].id
    {
      if TargetId(i) == TargetId(j) {
        TargetIdInjective(i, j);
      }
    }
  }
}
