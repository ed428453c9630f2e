/**
 CompiledPlan.Cost as the program computes it: nested loops that accumulate into checked
 64-bit counters, and two sets of keys already priced.
 */
module CostMethod {
  import opened Policies
  import opened CheckLoop
  import opened Plans
  import opened Costs

  function Product(values: seq<uint64>): int {
    if values == [] then 1 else Product(values[..|values| - 1]) * values[|values| - 1]
  }

  lemma EmptyProduct(values: seq<uint64>)
    ensures Product(values[..0]) == 1
  {
  }

  /** One factor more: the division decides whether the next prefix fits. */
  lemma NextPrefix(values: seq<uint64>, i: nat, product: uint64)
    requires i < |values| && product == Product(values[..i])
    ensures Product(values[..i + 1]) == product * values[i] >= 0
    ensures Product(values[..i + 1]) <= MAX_UINT64 <==> values[i] == 0 || product <= MAX_UINT64 / values[i]
  {
    assert values[..i + 1][..i] == values[..i];
    if values[i] == 0 {
      assert product * values[i] == 0;
    } else {
      QuotientBound(product, values[i], MAX_UINT64);
    }
  }

  /** The product, or an error as soon as some prefix of it does not fit. */
  method CheckedProduct(values: seq<uint64>) returns (r: Result<uint64>)
    ensures r.Ok? <==> forall i :: 0 <= i <= |values| ==> 0 <= Product(values[..i]) <= MAX_UINT64
    ensures r.Ok? ==> r.value == Product(values)
  {
    hide Product;
    EmptyProduct(values);
    var product: uint64 := 1;
    for i := 0 to |values|
      invariant product == Product(values[..i])
      invariant forall j :: 0 <= j <= i ==> 0 <= Product(values[..j]) <= MAX_UINT64
    {
      var value := values[i];
      NextPrefix(values, i, product);
      if value != 0 && product > MAX_UINT64 / value {
        return Err;
      }
      assert 0 <= product * value <= MAX_UINT64;
      product := WrapUint64(product * value);
    }
    assert values[..|values|] == values;
    r := Ok(product);
  }

  method CheckedSum(a: uint64, b: uint64) returns (r: Result<uint64>)
    ensures r.Ok? <==> a + b <= MAX_UINT64
    ensures r.Ok? ==> r.value == a + b
  {
    if a > MAX_UINT64 - b {
      return Err;
    }
    r := Ok(WrapUint64(a + b));
  }

  method AddAttempts(attempts: uint64, n: uint64) returns (r: Result<uint64>)
    requires attempts <= MAX_RETAINED_ATTEMPTS
    ensures r.Ok? <==> attempts + n <= MAX_RETAINED_ATTEMPTS
    ensures r.Ok? ==> r.value == attempts + n
  {
    r := CheckedSum(attempts, n);
    if r.Err? || r.value > MAX_RETAINED_ATTEMPTS {
      return Err;
    }
  }

  /** The running totals. */
  datatype Totals = Totals(attempts: uint64, operations: uint64)

  predicate Within(attempts: int, operations: int) {
    attempts <= MAX_RETAINED_ATTEMPTS && operations <= MAX_UINT64
  }

  lemma FourFactors(a: uint64, b: uint64, c: uint64, d: uint64)
    ensures Product([a, b, c, d]) == a * b * c * d
    ensures Product([a, b, c, d][..0]) == 1
    ensures Product([a, b, c, d][..1]) == a
    ensures Product([a, b, c, d][..2]) == a * b
    ensures Product([a, b, c, d][..3]) == a * b * c
    ensures [a, b, c, d][..4] == [a, b, c, d]
  {
    var v := [a, b, c, d];
    assert v[..4] == v && v[..3] == [a, b, c] && v[..2] == [a, b] && v[..1] == [a] && v[..0] == [];
    assert v[..3][..2] == [a, b] && v[..2][..1] == [a] && v[..1][..0] == [];
    ghost var one, two, three := v[..1], v[..2], v[..3];
    assert Product(one) == Product(one[..0]) * a;
    assert Product(two) == Product(two[..1]) * b;
    assert Product(three) == Product(three[..2]) * c;
    assert Product(v) == Product(v[..3]) * d;
  }

  lemma TwoFactors(a: uint64, b: uint64)
    ensures Product([a, b]) == a * b
    ensures Product([a, b][..0]) == 1 && Product([a, b][..1]) == a && [a, b][..2] == [a, b]
  {
    var v := [a, b];
    assert v[..2] == v && v[..1] == [a] && v[..0] == [] && v[..1][..0] == [];
    ghost var one := v[..1];
    assert Product(one) == Product(one[..0]) * a;
    assert Product(v) == Product(v[..1]) * b;
  }

  /** The attempts of one step for all agents of its target: an error only when they exceed every budget. */
  method PriceAttempts(s: Step, agents: uint64) returns (r: Result<uint64>)
    requires Normalized(s.policy)
    ensures r.Err? ==> StepAttempts(s) * agents > MAX_RETAINED_ATTEMPTS
    ensures r.Ok? ==> r.value == StepAttempts(s) * agents
  {
    var p := s.policy;
    if p.eventually > 0 && p.stableFor > MAX_INT64 - p.eventually {
      assert false;
    }
    var window: int64 := WrapInt64(p.eventually + p.stableFor);
    var samples := CountSamples(p, window);
    assert StepAttempts(s) == p.attempts * p.repeat * samples;
    ProductMonotone(p.attempts, 1, p.repeat);
    ProductMonotone(p.attempts * p.repeat, 1, samples);
    FourFactors(p.attempts, p.repeat, samples, agents);
    r := CheckedProduct([p.attempts, p.repeat, samples, agents]);
    if r.Err? {
      ghost var v: seq<uint64> := [p.attempts, p.repeat, samples, agents];
      ghost var i :| 0 <= i <= |v| && !(0 <= Product(v[..i]) <= MAX_UINT64);
      assert i == 4;
      ProductNat(StepAttempts(s), agents);
    }
  }

  method PriceStep(s: Step, agents: uint64, totals: Totals) returns (r: Result<Totals>)
    requires Normalized(s.policy) && Within(totals.attempts, totals.operations)
    ensures r.Ok? <==> Within(totals.attempts + StepAttempts(s) * agents, totals.operations + StepOperations(s) * agents)
    ensures r.Ok? ==>
      && r.value.attempts == totals.attempts + StepAttempts(s) * agents
      && r.value.operations == totals.operations + StepOperations(s) * agents
  {
    hide StepAttempts, Within;
    var total := StepAttempts(s) * agents;
    ProductNat(StepAttempts(s), agents);
    var constituents: uint64 := |Constituents(s.operation)|;
    StepOperationsFor(s, agents);
    var attempts := PriceAttempts(s, agents);
    if attempts.Err? {
      WithinMeans(totals.attempts + total, totals.operations + StepOperations(s) * agents);
      return Err;
    }
    WithinMeans(totals.attempts, totals.operations);
    WithinMeans(totals.attempts + total, totals.operations + StepOperations(s) * agents);
    var sum := AddAttempts(totals.attempts, attempts.value);
    if sum.Err? {
      return Err;
    }
    TwoFactors(attempts.value, constituents);
    var parts := CheckedProduct([attempts.value, constituents]);
    if parts.Err? {
      assert false;
    } else {
      var operations := CheckedSum(totals.operations, parts.value);
      if operations.Err? {
        return Err;
      }
      return Ok(Totals(sum.value, operations.value));
    }
  }

  lemma WithinMeans(attempts: int, operations: int)
    ensures Within(attempts, operations) <==> attempts <= MAX_RETAINED_ATTEMPTS && operations <= MAX_UINT64
  {
  }

  lemma StepOperationsFor(s: Step, agents: uint64)
    requires Normalized(s.policy)
    ensures StepOperations(s) * agents == (StepAttempts(s) * agents) * |Constituents(s.operation)|
    ensures 1 <= |Constituents(s.operation)| <= 2
  {
    var a, n := StepAttempts(s), |Constituents(s.operation)|;
    assert (a * n) * agents == a * (n * agents) == a * (agents * n) == (a * agents) * n;
  }

  lemma StepsFront(steps: seq<Step>, i: nat)
    requires NormalizedSteps(steps) && i < |steps|
    ensures NormalizedSteps(steps[..i]) && NormalizedSteps(steps[..i + 1])
    ensures StepsAttempts(steps[..i + 1]) == StepsAttempts(steps[..i]) + StepAttempts(steps[i])
    ensures StepsOperations(steps[..i + 1]) == StepsOperations(steps[..i]) + StepOperations(steps[i])
  {
    assert steps[..i + 1][..i] == steps[..i];
  }

  lemma {:induction false} StepsPrefix(steps: seq<Step>, i: nat)
    requires NormalizedSteps(steps) && i <= |steps|
    ensures NormalizedSteps(steps[..i])
    ensures StepsAttempts(steps[..i]) <= StepsAttempts(steps)
    ensures StepsOperations(steps[..i]) <= StepsOperations(steps)
    decreases |steps| - i
  {
    if i == |steps| {
      assert steps[..i] == steps;
    } else {
      StepsFront(steps, i);
      StepsPrefix(steps, i + 1);
    }
  }

  lemma TimesSum(a: int, b: int, n: int)
    ensures (a + b) * n == a * n + b * n
  {
  }

  lemma TimesMonotone(a: int, b: int, n: nat)
    requires a <= b
    ensures a * n <= b * n
  {
  }

  /** The steps of one target, for all its agents at once. */
  method PriceSteps(steps: seq<Step>, agents: uint64, totals: Totals) returns (r: Result<Totals>, download: bool)
    requires NormalizedSteps(steps) && Within(totals.attempts, totals.operations)
    ensures r.Ok? <==> Within(totals.attempts + StepsAttempts(steps) * agents, totals.operations + StepsOperations(steps) * agents)
    ensures r.Ok? ==>
      && r.value.attempts == totals.attempts + StepsAttempts(steps) * agents
      && r.value.operations == totals.operations + StepsOperations(steps) * agents
      && (download <==> exists s :: s in steps && s.operation == Operation(Wget, Atomic))
  {
    hide StepsAttempts, StepsOperations, StepAttempts, StepOperations;
    var running := totals;
    download := false;
    StepsNone();
    assert steps[..0] == [];
    for i := 0 to |steps|
      invariant NormalizedSteps(steps[..i])
      invariant running.attempts == totals.attempts + StepsAttempts(steps[..i]) * agents
      invariant running.operations == totals.operations + StepsOperations(steps[..i]) * agents
      invariant Within(running.attempts, running.operations)
      invariant download <==> exists s :: s in steps[..i] && s.operation == Operation(Wget, Atomic)
    {
      StepsFront(steps, i);
      TimesSum(StepsAttempts(steps[..i]), StepAttempts(steps[i]), agents);
      TimesSum(StepsOperations(steps[..i]), StepOperations(steps[i]), agents);
      var step := PriceStep(steps[i], agents, running);
      if step.Err? {
        StepsPrefix(steps, i + 1);
        TimesMonotone(StepsAttempts(steps[..i + 1]), StepsAttempts(steps), agents);
        TimesMonotone(StepsOperations(steps[..i + 1]), StepsOperations(steps), agents);
        return Err, false;
      }
      running := step.value;
      if steps[i].operation == Operation(Wget, Atomic) {
        download := true;
      }
      assert steps[..i + 1] == steps[..i] + [steps[i]];
    }
    assert steps[..|steps|] == steps;
    r := Ok(running);
  }

  lemma StepsNone()
    ensures StepsAttempts([]) == 0 && StepsOperations([]) == 0
  {
  }

  /** The keys priced so far. */
  datatype Keys = Keys(preflight: set<string>, rotation: set<(string, string)>)

  function KeysAfter(t: Target, n: nat, keys: Keys): Keys
    requires n <= |t.agents|
  {
    Keys(keys.preflight + (if Banded(t) then set a | a in t.agents[..n] else {}),
         keys.rotation + (if t.network.rotation == PerRound then set a | a in t.agents[..n] :: (a, t.network.ssid) else {}))
  }

  /** What the agents of a target add besides its steps. */
  function AgentsAttempts(t: Target, n: nat, keys: Keys): int
    requires n <= |t.agents|
  {
    n * One(t.network.rotation == PerTarget)
    + |KeysAfter(t, n, keys).preflight| - |keys.preflight|
    + 2 * (|KeysAfter(t, n, keys).rotation| - |keys.rotation|)
  }

  function AgentsOperations(t: Target, n: nat, keys: Keys): int
    requires n <= |t.agents|
  {
    n * OwnedOperations(t)
    + |KeysAfter(t, n, keys).preflight| - |keys.preflight|
    + 2 * (|KeysAfter(t, n, keys).rotation| - |keys.rotation|)
  }

  lemma KeysStep(t: Target, n: nat, keys: Keys)
    requires n < |t.agents|
    ensures
      var now, next, a := KeysAfter(t, n, keys), KeysAfter(t, n + 1, keys), t.agents[n];
      && next.preflight == now.preflight + (if Banded(t) then {a} else {})
      && next.rotation == now.rotation + (if t.network.rotation == PerRound then {(a, t.network.ssid)} else {})
  {
    assert t.agents[..n + 1] == t.agents[..n] + [t.agents[n]];
  }

  lemma AgentsStep(t: Target, n: nat, keys: Keys)
    requires n < |t.agents|
    ensures
      var now, a := KeysAfter(t, n, keys), t.agents[n];
      var preflight := One(Banded(t) && a !in now.preflight);
      var rotation := One(t.network.rotation == PerRound && (a, t.network.ssid) !in now.rotation);
      && AgentsAttempts(t, n + 1, keys) == AgentsAttempts(t, n, keys) + One(t.network.rotation == PerTarget) + preflight + 2 * rotation
      && AgentsOperations(t, n + 1, keys) == AgentsOperations(t, n, keys) + OwnedOperations(t) + preflight + 2 * rotation
  {
    hide KeysAfter, OwnedOperations;
    KeysStep(t, n, keys);
    TimesSum(n, 1, OwnedOperations(t));
    TimesSum(n, 1, One(t.network.rotation == PerTarget));
    var now, next, a := KeysAfter(t, n, keys), KeysAfter(t, n + 1, keys), t.agents[n];
    Growth(now.preflight, next.preflight, Banded(t), a);
    Growth(now.rotation, next.rotation, t.network.rotation == PerRound, (a, t.network.ssid));
  }

  lemma Growth<T>(s: set<T>, s': set<T>, b: bool, x: T)
    requires s' == s + (if b then {x} else {})
    ensures |s'| == |s| + One(b && x !in s)
  {
    if !b || x in s {
      assert s' == s;
    }
  }

  /** add and addAttempts together, for charges of equal size. */
  method Charge(totals: Totals, attempts: uint64, operations: uint64) returns (r: Result<Totals>)
    requires Within(totals.attempts, totals.operations)
    ensures r.Ok? <==> Within(totals.attempts + attempts, totals.operations + operations)
    ensures r.Ok? ==> r.value == Totals(totals.attempts + attempts, totals.operations + operations)
  {
    var ops := CheckedSum(totals.operations, operations);
    if ops.Err? {
      return Err;
    }
    var sum := AddAttempts(totals.attempts, attempts);
    if sum.Err? {
      return Err;
    }
    r := Ok(Totals(sum.value, ops.value));
  }

  /** One agent of one target: capability check, rotations and owned cleanup. */
  method PriceAgent(t: Target, n: nat, totals: Totals, keys0: Keys, keys: Keys) returns (r: Result<Totals>, keys': Keys)
    requires n < |t.agents| && Within(totals.attempts, totals.operations)
    requires keys == KeysAfter(t, n, keys0)
    ensures
      var a := totals.attempts + AgentsAttempts(t, n + 1, keys0) - AgentsAttempts(t, n, keys0);
      var o := totals.operations + AgentsOperations(t, n + 1, keys0) - AgentsOperations(t, n, keys0);
      && (r.Ok? <==> Within(a, o))
      && (r.Ok? ==> r.value.attempts == a && r.value.operations == o && keys' == KeysAfter(t, n + 1, keys0))
  {
    hide AgentsAttempts, AgentsOperations, KeysAfter;
    AgentsStep(t, n, keys0);
    KeysStep(t, n, keys0);
    var agent := t.agents[n];
    keys' := keys;
    r := Ok(totals);
    if t.network.band != "" && t.network.band != "all" && agent !in keys'.preflight {
      keys' := keys'.(preflight := keys'.preflight + {agent});
      r := Charge(r.value, 1, 1);
      if r.Err? {
        return;
      }
    }
    if t.network.rotation == PerRound && (agent, t.network.ssid) !in keys'.rotation {
      keys' := keys'.(rotation := keys'.rotation + {(agent, t.network.ssid)});
      r := Charge(r.value, 2, 2);
      if r.Err? {
        return;
      }
    }
    if t.network.rotation == PerTarget {
      r := Charge(r.value, 1, 1);
      if r.Err? {
        return;
      }
    }
    if t.connect.Some? {
      if t.network.disconnectAfter {
        r := Charge(r.value, 0, 1);
        if r.Err? {
          return;
        }
      }
      if t.network.forgetAfter {
        r := Charge(r.value, 0, 1);
        if r.Err? {
          return;
        }
      }
    }
  }

  method PriceAgents(t: Target, totals: Totals, keys0: Keys) returns (r: Result<Totals>, keys: Keys)
    requires Within(totals.attempts, totals.operations)
    ensures
      var a := totals.attempts + AgentsAttempts(t, |t.agents|, keys0);
      var o := totals.operations + AgentsOperations(t, |t.agents|, keys0);
      && (r.Ok? <==> Within(a, o))
      && (r.Ok? ==> r.value.attempts == a && r.value.operations == o && keys == KeysAfter(t, |t.agents|, keys0))
  {
    hide AgentsAttempts, AgentsOperations, KeysAfter;
    NoAgents(t, keys0);
    var running := totals;
    keys := keys0;
    for n := 0 to |t.agents|
      invariant running.attempts == totals.attempts + AgentsAttempts(t, n, keys0)
      invariant running.operations == totals.operations + AgentsOperations(t, n, keys0)
      invariant Within(running.attempts, running.operations)
      invariant keys == KeysAfter(t, n, keys0)
    {
      r, keys := PriceAgent(t, n, running, keys0, keys);
      if r.Err? {
        AgentsGrow(t, n + 1, keys0);
        return;
      }
      running := r.value;
    }
    r := Ok(running);
  }

  lemma NoAgents(t: Target, keys: Keys)
    ensures KeysAfter(t, 0, keys) == keys
    ensures AgentsAttempts(t, 0, keys) == 0 && AgentsOperations(t, 0, keys) == 0
  {
    assert t.agents[..0] == [];
    assert KeysAfter(t, 0, keys).preflight == keys.preflight;
    assert KeysAfter(t, 0, keys).rotation == keys.rotation;
  }

  lemma {:induction false} AgentsGrow(t: Target, n: nat, keys: Keys)
    requires n <= |t.agents|
    ensures AgentsAttempts(t, n, keys) <= AgentsAttempts(t, |t.agents|, keys)
    ensures AgentsOperations(t, n, keys) <= AgentsOperations(t, |t.agents|, keys)
    decreases |t.agents| - n
  {
    hide AgentsAttempts, AgentsOperations, KeysAfter;
    if n < |t.agents| {
      AgentsStep(t, n, keys);
      AgentsGrow(t, n + 1, keys);
    }
  }

  // ---------------------------------------------------------------- the whole plan

  lemma TargetStep(targets: seq<Target>, n: nat, keys: Keys)
    requires n < |targets| && ValidTargets(targets)
    requires keys == Keys(PreflightKeys(targets[..n]), RotationKeys(targets[..n]))
    ensures ValidTargets(targets[..n]) && ValidTargets(targets[..n + 1]) && ValidTarget(targets[n])
    ensures NormalizedSteps(Steps(targets[n]))
    ensures
      var t := targets[n];
      && KeysAfter(t, |t.agents|, keys) == Keys(PreflightKeys(targets[..n + 1]), RotationKeys(targets[..n + 1]))
      && PlanAttempts(targets[..n + 1]) ==
         PlanAttempts(targets[..n]) + StepsAttempts(Steps(t)) * |t.agents| + AgentsAttempts(t, |t.agents|, keys)
      && PlanOperations(targets[..n + 1]) ==
         PlanOperations(targets[..n]) + StepsOperations(Steps(t)) * |t.agents| + AgentsOperations(t, |t.agents|, keys)
  {
    hide PreflightKeys, RotationKeys, TargetsAttempts, TargetsOperations, AgentAttempts, AgentOperations,
         StepsAttempts, StepsOperations, KeysAfter, Steps, ValidTarget;
    TargetsFront(targets, n);
    var t := targets[n];
    StepsNormalized(t);
    KeysWhole(targets, n, keys);
    AgentShare(t);
  }

  lemma KeysWhole(targets: seq<Target>, n: nat, keys: Keys)
    requires n < |targets|
    requires keys == Keys(PreflightKeys(targets[..n]), RotationKeys(targets[..n]))
    ensures KeysAfter(targets[n], |targets[n].agents|, keys) == Keys(PreflightKeys(targets[..n + 1]), RotationKeys(targets[..n + 1]))
  {
    hide PreflightKeys, RotationKeys;
    var t := targets[n];
    KeysSnoc(targets[..n], t);
    assert targets[..n + 1] == targets[..n] + [t];
    assert t.agents[..|t.agents|] == t.agents;
  }

  /** A target's price per agent, split into its steps and the rest. */
  lemma AgentShare(t: Target)
    requires ValidTarget(t) && NormalizedSteps(Steps(t))
    ensures |t.agents| * AgentAttempts(t) ==
      StepsAttempts(Steps(t)) * |t.agents| + |t.agents| * One(t.network.rotation == PerTarget)
    ensures |t.agents| * AgentOperations(t) ==
      StepsOperations(Steps(t)) * |t.agents| + |t.agents| * OwnedOperations(t)
  {
    hide StepsAttempts, StepsOperations, Steps, OwnedOperations;
    TimesSum(StepsAttempts(Steps(t)), One(t.network.rotation == PerTarget), |t.agents|);
    TimesSum(StepsOperations(Steps(t)), OwnedOperations(t), |t.agents|);
  }

  lemma DownloadsSnoc(targets: seq<Target>, n: nat)
    requires n < |targets|
    ensures Downloads(targets[..n + 1]) <==>
      Downloads(targets[..n]) || exists s :: s in Steps(targets[n]) && s.operation == Operation(Wget, Atomic)
  {
    hide Steps;
    assert targets[..n + 1] == targets[..n] + [targets[n]];
    assert targets[n] in targets[..n + 1];
  }

  /**
   Cost accepts a plan for some rounds exactly when everything it could retain fits the
   report, and then returns its price; the checked 64-bit counters never overflow first.
   */
  method PlanCost(p: Plan, rounds: uint64, loop: bool) returns (r: Result<Cost>)
    requires ValidPlan(p)
    requires forall t :: t in p.targets ==> |t.agents| <= MAX_INT64
    ensures r.Ok? <==> Affordable(p, rounds, loop)
    ensures r.Ok? ==>
      && r.value.attemptsPerRound == PlanAttempts(p.targets)
      && r.value.operationsPerRound == PlanOperations(p.targets)
      && r.value.operationsTotal == (if loop then 0 else PlanOperations(p.targets) * rounds)
      && (r.value.unboundedDownload <==> Downloads(p.targets))
  {
    hide PlanAttempts, PlanOperations, AgentsAttempts, AgentsOperations, StepsAttempts, StepsOperations, KeysAfter, Steps,
         PreflightKeys, RotationKeys, Downloads, ValidTarget;
    if |p.targets| == 0 || |p.agents| == 0 || (loop && rounds != 0) || (!loop && rounds == 0) {
      return Err;
    }
    var totals, keys, download := Totals(0, 0), Keys({}, {}), false;
    NothingPriced(p.targets);
    for i := 0 to |p.targets|
      invariant ValidTargets(p.targets[..i])
      invariant totals.attempts == PlanAttempts(p.targets[..i]) && totals.operations == PlanOperations(p.targets[..i])
      invariant Within(totals.attempts, totals.operations)
      invariant keys == Keys(PreflightKeys(p.targets[..i]), RotationKeys(p.targets[..i]))
      invariant download <==> Downloads(p.targets[..i])
    {
      var t := p.targets[i];
      TargetStep(p.targets, i, keys);
      StepsNormalized(t);
      AgentsGrow(t, 0, keys);
      NoAgents(t, keys);
      DownloadsSnoc(p.targets, i);
      PrefixCheaper(p.targets, i + 1);
      PlanOperationsBound(p.targets);
      var steps, some := PriceSteps(Steps(t), |t.agents|, totals);
      if steps.Err? {
        return Err;
      }
      download := download || some;
      var priced;
      priced, keys := PriceAgents(t, steps.value, keys);
      if priced.Err? {
        return Err;
      }
      totals := priced.value;
    }
    assert p.targets[..|p.targets|] == p.targets;
    PlanOperationsBound(p.targets);
    var total: uint64 := 0;
    if !loop {
      var divisor: uint64 := if totals.attempts >= 1 then totals.attempts else 1;
      QuotientBound(rounds, divisor, MAX_RETAINED_ATTEMPTS);
      if rounds > MAX_RETAINED_ATTEMPTS / divisor {
        return Err;
      }
      TotalFits(totals.attempts, totals.operations, rounds);
      TwoFactors(totals.operations, rounds);
      var product := CheckedProduct([totals.operations, rounds]);
      if product.Err? {
        assert false;
      } else {
        total := product.value;
      }
    }
    r := Ok(Cost(totals.attempts, totals.operations, total, download));
  }

  lemma NothingPriced(targets: seq<Target>)
    ensures targets[..0] == []
    ensures PlanAttempts([]) == 0 && PlanOperations([]) == 0 && !Downloads([])
    ensures PreflightKeys([]) == {} && RotationKeys([]) == {}
  {
    assert PreflightKeys([]) == {} && RotationKeys([]) == {};
  }

  lemma PlanOperationsBound(targets: seq<Target>)
    requires ValidTargets(targets)
    ensures PlanOperations(targets) <= 4 * PlanAttempts(targets)
  {
    OperationsBound(targets);
    hide TargetsAttempts, TargetsOperations;
  }

  lemma TotalFits(attempts: nat, operations: nat, rounds: nat)
    requires operations <= 4 * attempts && rounds * (if attempts >= 1 then attempts else 1) <= MAX_RETAINED_ATTEMPTS
    ensures operations * rounds <= 4 * MAX_RETAINED_ATTEMPTS
  {
    TimesMonotone(operations, 4 * attempts, rounds);
    assert 4 * attempts * rounds == 4 * (rounds * attempts);
  }
}
