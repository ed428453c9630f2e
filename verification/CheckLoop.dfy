/**
 The repeat / sample / attempt loop of one check (harness/execute.go, checkAttempted),
 with the acquisition of one attempt (harness/operation.go, harness/gateway.go).

 The world outside is an oracle: the n-th interaction of a given kind gets an
 arbitrary reply.  Time is a natural number that moves only while the loop waits
 on its controls, acquires, delivers an event or sleeps.
 */
module CheckLoop {
  import opened Outcomes
  import opened Policies

  /** The alternatives of the command message the controller dispatches. */
  datatype Command =
    | GetWifiStatus | ConnectWifi | GetIpStatus | Ping | ResolveDns | HttpCheck
    | GetWifiDiagnostics | GetWifiScan | GetWifiCapabilities | GetFreshWifiScan
    | DisconnectWifi | ForgetWifi | WaitWifiConnected | AssertWifi | MonitorWifi
    | GetWifiScanDetail | ReconnectWifi | CycleWifi | Traceroute | Wget | PathMtu | GlobalIp

  datatype Compound = Atomic | FreshScan | Gateway

  datatype Operation = Operation(command: Command, compound: Compound)

  /** The acquisitions one attempt of an operation is priced at. */
  function Constituents(op: Operation): seq<Command> {
    match op.compound
    case Atomic => [op.command]
    case FreshScan => [GetFreshWifiScan, op.command]
    case Gateway => [GetIpStatus, Ping]
  }

  // ---------------------------------------------------------------- the world

  datatype Interaction = Starting | Waiting | Acquiring | Delivering | Sleeping

  /** Why a context ended.  OperatorCancel also stands for a canceled parent. */
  datatype Cause = OperatorSkip | OperatorCancel | Deadline | Fault

  datatype ErrorKind = NoError | Cancellation | Failure

  datatype Status = StatusOk | StatusCanceled | StatusOther

  datatype Finding = Finding(passed: bool, missing: bool)

  datatype Raw = NoResult | Typed(status: Status, payload: bool, findings: seq<Finding>)

  /** What the first of two acquisitions returned. */
  datatype FirstPart = FirstPart(failed: bool, present: bool, status: Status, payload: bool, route: bool)

  datatype Reply = Reply(
    advance: nat,
    cancel: Option<Cause>,    // the step's context is canceled meanwhile
    cancelFirst: bool,        // ... and before any deadline that passes meanwhile
    fault: bool,              // an event could not be delivered, which stops the run
    interrupted: bool,        // a wait or sleep gives up as soon as its context is done
    error: ErrorKind,
    builds: bool,             // the operation binds and builds
    first: FirstPart,
    raw: Raw,
    bands: set<string>)       // bands reported as unsupported, for a capability reply

  type Oracle = (Interaction, nat) -> Reply

  /**
   The step context and the policy context derived from it, with the current instant.  `next`
   numbers the interactions, and `faults` counts the deliveries that failed.
   */
  datatype Ctx = Ctx(now: nat, next: nat, cause: Option<Cause>, done: Option<Cause>, limit: int, faults: nat)

  predicate Coherent(c: Ctx) {
    && (c.cause.Some? ==> c.done.Some?)
    && (c.done.None? ==> c.now < c.limit)
  }

  function Elapse(c: Ctx, r: Reply, d: nat): (c': Ctx)
    ensures c'.now == c.now + d && c'.next == c.next + 1 && c'.limit == c.limit
    ensures c.done.Some? ==> c'.done == c.done
    ensures Coherent(c) ==> Coherent(c')
  {
    var cancel := if r.cancel.None? && r.fault then Some(Fault) else r.cancel;
    var cause := if c.cause.Some? then c.cause else cancel;
    var done :=
      if c.done.Some? then c.done
      else if c.now + d < c.limit || (cause.Some? && r.cancelFirst) then cause
      else Some(Deadline);
    Ctx(c.now + d, c.next + 1, cause, done, c.limit, c.faults + if r.fault then 1 else 0)
  }

  /** Controls.wait: the error, if any, with which a paused step gives up. */
  function Wait(o: Oracle, c: Ctx): (r: (Ctx, Option<Cause>))
    ensures r.0.now >= c.now && r.0.next >= c.next && r.0.limit == c.limit
    ensures c.done.Some? ==> r.1.Some?
    ensures Coherent(c) ==> Coherent(r.0)
  {
    if c.done.Some? then (c, c.done)
    else
      var r := o(Waiting, c.next);
      var c' := Elapse(c, r, r.advance);
      if r.fault then (c', Some(Fault))
      else if r.interrupted && c'.done.Some? then (c', c'.done)
      else (c', None)
  }

  /** sleepContext on the policy context: completed or given up. */
  function Sleep(o: Oracle, c: Ctx, d: nat): (r: (Ctx, bool))
    ensures r.0.now >= c.now && r.0.next >= c.next && r.0.limit == c.limit
    ensures r.1 ==> c.done.None? && r.0.now >= c.now + d
    ensures !r.1 ==> r.0.done.Some?
    ensures Coherent(c) ==> Coherent(r.0)
  {
    if c.done.Some? then (c, false)
    else if d == 0 then (c, true)
    else
      var r := o(Sleeping, c.next);
      var early := Elapse(c, r, r.advance);
      if r.interrupted && early.done.Some? then (early, false)
      else (Elapse(c, r, if r.advance > d then r.advance else d), true)
  }

  function Deliver(o: Oracle, c: Ctx): (c': Ctx)
    ensures c'.now >= c.now && c'.next >= c.next && c'.limit == c.limit
    ensures c.done.Some? ==> c'.done == c.done
    ensures Coherent(c) ==> Coherent(c')
  {
    var r := o(Delivering, c.next);
    Elapse(c, r, r.advance)
  }

  function ContextOutcome(cause: Option<Cause>): (o: Outcome)
    ensures o != Pass
  {
    if cause == Some(OperatorSkip) then Skip
    else if cause == Some(OperatorCancel) then Canceled
    else Fail
  }

  // ---------------------------------------------------------------- one attempt

  /** The dispatches of one attempt: the second acquisition needs a usable first one. */
  function Acquire(op: Operation, builds: bool, first: FirstPart): (parts: seq<Command>)
    ensures parts <= Constituents(op)
  {
    if !builds then []
    else
      match op.compound
      case Atomic => [op.command]
      case FreshScan =>
        if first.failed || !first.present || first.status == StatusCanceled || !first.payload
        then [GetFreshWifiScan]
        else [GetFreshWifiScan, op.command]
      case Gateway =>
        if first.failed || !first.present || !first.payload || first.status != StatusOk || !first.route
        then [GetIpStatus]
        else [GetIpStatus, Ping]
  }

  /** ExecuteOperation, as far as its dispatches go: a fresh scan that is of no use ends the attempt. */
  method ExecuteOperation(op: Operation, builds: bool, first: FirstPart) returns (parts: seq<Command>)
    requires op.compound != Gateway
    ensures parts == Acquire(op, builds, first)
  {
    parts := [];
    if !builds {
      return;
    }
    if op.compound == FreshScan {
      parts := parts + [GetFreshWifiScan];
      if first.failed || !first.present {
        return;
      }
      if first.status == StatusCanceled || !first.payload {
        return;
      }
    }
    parts := parts + [op.command];
  }

  /** executeGateway: the gateway is pinged only when the IP status names one. */
  method ExecuteGateway(op: Operation, builds: bool, first: FirstPart) returns (parts: seq<Command>)
    requires op.compound == Gateway
    ensures parts == Acquire(op, builds, first)
  {
    parts := ExecuteOperation(Operation(GetIpStatus, Atomic), builds, first);
    if !builds || first.failed || !first.present || !first.payload || first.status != StatusOk {
      return;
    }
    if !first.route {
      return;
    }
    var ping := ExecuteOperation(Operation(Ping, Atomic), true, first);
    parts := parts + ping;
  }

  method ExecuteAttempt(op: Operation, builds: bool, first: FirstPart) returns (parts: seq<Command>)
    ensures parts == Acquire(op, builds, first)
  {
    if op.compound == Gateway {
      parts := ExecuteGateway(op, builds, first);
    } else {
      parts := ExecuteOperation(op, builds, first);
    }
  }

  function FindingsOutcome(outcome: Outcome, findings: seq<Finding>): Outcome {
    if findings == [] then outcome
    else
      var f := findings[|findings| - 1];
      var before := FindingsOutcome(outcome, findings[..|findings| - 1]);
      if f.missing then Combine(before, Missing)
      else if !f.passed then Fail
      else before
  }

  function Evaluate(error: ErrorKind, cause: Option<Cause>, raw: Raw): Outcome {
    if cause == Some(OperatorSkip) && error != Failure then Skip
    else if cause == Some(OperatorCancel) && error != Failure then Canceled
    else if error != NoError then Fail
    else if raw.NoResult? then Missing
    else if raw.status == StatusCanceled then Canceled
    else
      var outcome := if raw.status == StatusOk then Pass else Fail;
      if !raw.payload then Combine(outcome, Missing)
      else FindingsOutcome(outcome, raw.findings)
  }

  method EvaluateAttempt(error: ErrorKind, cause: Option<Cause>, raw: Raw) returns (outcome: Outcome)
    ensures outcome == Evaluate(error, cause, raw)
  {
    if cause == Some(OperatorSkip) && error != Failure {
      return Skip;
    }
    if cause == Some(OperatorCancel) && error != Failure {
      return Canceled;
    }
    if error != NoError {
      return Fail;
    }
    if raw.NoResult? {
      return Missing;
    }
    outcome := Pass;
    if raw.status == StatusCanceled {
      return Canceled;
    }
    if raw.status != StatusOk {
      outcome := Fail;
    }
    if !raw.payload {
      return Combine(outcome, Missing);
    }
    ghost var initial := outcome;
    for i := 0 to |raw.findings|
      invariant outcome == FindingsOutcome(initial, raw.findings[..i])
    {
      assert raw.findings[..i + 1][..i] == raw.findings[..i];
      if raw.findings[i].missing {
        outcome := Combine(outcome, Missing);
      } else if !raw.findings[i].passed {
        outcome := Fail;
      }
    }
    assert raw.findings[..|raw.findings|] == raw.findings;
  }

  /** The error of an attempt: its own, or that of a context that ended with it. */
  function AttemptError(c: Ctx, eventual: Option<int>, r: Reply): ErrorKind {
    if r.error != NoError then r.error
    else if c.done == Some(Deadline) then Failure
    else if eventual.Some? && c.now >= eventual.value && !(c.done.Some? && r.cancelFirst) then Failure
    else if c.done.Some? then Cancellation
    else NoError
  }

  /** `turn` is the number of the interaction that made the acquisition, and `error` what kept it from a result. */
  datatype Attempt = Attempt(
    repeat: nat, sample: nat, number: nat, started: nat, ended: nat,
    outcome: Outcome, parts: seq<Command>, bands: set<string>, turn: nat, error: ErrorKind)

  // ---------------------------------------------------------------- the three loops

  datatype Env = Env(oracle: Oracle, op: Operation, policy: Policy)

  datatype State = State(c: Ctx, log: seq<Attempt>, lastError: ErrorKind)

  /** What one sample did: its attempts, how it ended, and the sleep asked for after it. */
  datatype Sample = Sample(begin: nat, attempts: seq<Attempt>, end: nat, last: Outcome, live: bool, pause: nat)

  datatype Repeat = Repeat(begin: nat, samples: seq<Sample>, ending: Outcome)

  datatype RepeatEnd = RepeatEnd(s: State, ending: Outcome, samples: seq<Sample>)

  datatype StepEnd = StepEnd(c: Ctx, outcome: Outcome, log: seq<Attempt>, repeats: seq<Repeat>, problem: bool)

  predicate Extends(s: State, s': State) {
    && s.log <= s'.log
    && s'.c.now >= s.c.now && s'.c.next >= s.c.next && s'.c.limit == s.c.limit
    && (Coherent(s.c) ==> Coherent(s'.c))
  }

  predicate Stops(o: Outcome) {
    o == Pass || o == Canceled || o == Skip
  }

  /** One acquisition with its event, once the loop has decided to make it. */
  function Attempted(e: Env, s: State, repeat: nat, sample: nat, number: nat, eventual: Option<int>): (r: (State, Outcome))
    ensures Extends(s, r.0)
    ensures |r.0.log| == |s.log| + 1
  {
    var r := e.oracle(Acquiring, s.c.next);
    var c := Elapse(s.c, r, r.advance);
    var error := AttemptError(c, eventual, r);
    var outcome := Evaluate(error, c.cause, r.raw);
    var attempt := Attempt(repeat, sample, number, s.c.now, c.now, outcome, Acquire(e.op, r.builds, r.first), r.bands, s.c.next, error);
    (State(Deliver(e.oracle, c), s.log + [attempt], error), outcome)
  }

  /** The retry loop of one sample, from attempt `number` on. */
  function Tries(e: Env, s: State, repeat: nat, sample: nat, number: nat, eventual: Option<int>, last: Outcome): (r: (State, Outcome))
    requires e.policy.delay >= 0
    ensures Extends(s, r.0)
    decreases e.policy.attempts - number
  {
    if number > e.policy.attempts then (s, last)
    else
      var (c, refused) := Wait(e.oracle, s.c);
      if refused.Some? then (s.(c := c), ContextOutcome(refused))
      else if eventual.Some? && c.now >= eventual.value then (s.(c := c), Fail)
      else
        var (s1, outcome) := Attempted(e, s.(c := c), repeat, sample, number, eventual);
        if Stops(outcome) || number == e.policy.attempts then (s1, outcome)
        else
          var (c1, slept) := Sleep(e.oracle, s1.c, e.policy.delay);
          if !slept then (s1.(c := c1), ContextOutcome(c1.cause))
          else Tries(e, s1.(c := c1), repeat, sample, number + 1, eventual, outcome)
  }

  function Earlier(a: int, b: int): int {
    if a < b then a else b
  }

  /** The part of the eventual deadline that an attempt sees: none once stability is being measured. */
  function EventualGuard(p: Policy, deadline: int, stable: Option<int>): Option<int> {
    if stable.None? && p.eventually > 0 then Some(deadline) else None
  }

  function TimeLeft(deadline: int, stable: Option<int>, now: nat): nat {
    var until := if stable.Some? then stable.value else deadline;
    if now < until then until - now else 0
  }

  /** What the sampling loop does after a sample: end the repeat, or sleep and sample again. */
  datatype Decision = Stop(ending: Outcome) | Again(pause: nat, stable: Option<int>)

  function Decide(p: Policy, last: Outcome, live: bool, now: nat, deadline: int, stable: Option<int>): (d: Decision)
    requires Runnable(p)
    ensures d.Again? ==> d.pause > 0 && live && (last == Pass <==> d.stable.Some?) && (stable.Some? ==> d.stable == stable)
    ensures d.Again? ==> TimeLeft(deadline, d.stable, now) > 0
  {
    if last == Canceled || last == Skip || !live then Stop(if last == Pass then Fail else last)
    else if last != Pass then
      if stable.None? && p.eventually > 0 && now < deadline
      then Again(Earlier(p.interval, deadline - now), None)
      else Stop(last)
    else if stable.None? && p.stableFor == 0 then Stop(Pass)
    else
      var until := if stable.None? then now + p.stableFor else stable.value;
      if now >= until then Stop(Pass) else Again(Earlier(p.interval, until - now), Some(until))
  }

  /** The sampling loop of one repeat, from a given sample on. */
  function Samples(e: Env, s: State, repeat: nat, sample: nat, deadline: int, stable: Option<int>, done: seq<Sample>): (r: RepeatEnd)
    requires Runnable(e.policy)
    ensures Extends(s, r.s)
    decreases if stable.None? then 1 else 0, TimeLeft(deadline, stable, s.c.now)
  {
    var (s1, last) := Tries(e, s, repeat, sample, 1, EventualGuard(e.policy, deadline, stable), Missing);
    var live := s1.c.done.None?;
    var here := Sample(s.c.now, s1.log[|s.log|..], s1.c.now, last, live, 0);
    match Decide(e.policy, last, live, s1.c.now, deadline, stable)
    case Stop(ending) => RepeatEnd(s1, ending, done + [here])
    case Again(pause, stable') =>
      var (c, slept) := Sleep(e.oracle, s1.c, pause);
      var done' := done + [here.(pause := pause)];
      if slept then Samples(e, s1.(c := c), repeat, sample + 1, deadline, stable', done')
      else RepeatEnd(s1.(c := c), ContextOutcome(c.cause), done')
  }

  function Worsened(outcome: Outcome, ending: Outcome): Outcome {
    if ending == Pass then outcome else ending
  }

  function Repeats(e: Env, s: State, repeat: nat, outcome: Outcome, problem: bool, done: seq<Repeat>): (r: StepEnd)
    requires Runnable(e.policy)
    ensures s.log <= r.log && r.c.now >= s.c.now && r.c.next >= s.c.next
    decreases e.policy.repeat - repeat
  {
    if repeat > e.policy.repeat then StepEnd(s.c, outcome, s.log, done, problem)
    else
      var end := Samples(e, s.(lastError := NoError), repeat, 1, s.c.now + e.policy.eventually, None, []);
      var outcome' := Worsened(outcome, end.ending);
      var problem' := problem || (outcome' != Pass && end.s.lastError == Failure);
      var done' := done + [Repeat(s.c.now, end.samples, end.ending)];
      if outcome' == Canceled || outcome' == Skip then StepEnd(end.s.c, outcome', end.s.log, done', problem')
      else Repeats(e, end.s, repeat + 1, outcome', problem', done')
  }

  /** The contexts of a step as its first attempt finds them. */
  function Begin(e: Env, now: nat, next: nat): (c: Ctx)
    requires Runnable(e.policy)
    ensures Coherent(c) && c.now >= now && c.next >= next && c.limit == now + e.policy.timeout
  {
    var r := e.oracle(Starting, next);
    Deliver(e.oracle, Ctx(now, next + 1, r.cancel, r.cancel, now + e.policy.timeout, 0))
  }

  function Check(e: Env, now: nat, next: nat): (r: StepEnd)
    requires Runnable(e.policy)
    ensures r.c.now >= now && r.c.next >= next
  {
    Repeats(e, State(Begin(e, now, next), [], NoError), 1, Pass, false, [])
  }

  // ---------------------------------------------------------------- the loops as the program runs them

  /** One acquisition, its evaluation, its record and its event. */
  method MakeAttempt(e: Env, s0: State, repeat: nat, sample: nat, number: nat, eventual: Option<int>)
    returns (s: State, last: Outcome)
    ensures (s, last) == Attempted(e, s0, repeat, sample, number, eventual)
  {
    hide Elapse, Evaluate, Acquire, AttemptError, Deliver;
    var r := e.oracle(Acquiring, s0.c.next);
    var c := Elapse(s0.c, r, r.advance);
    var error := AttemptError(c, eventual, r);
    last := EvaluateAttempt(error, c.cause, r.raw);
    var parts := ExecuteAttempt(e.op, r.builds, r.first);
    var attempt := Attempt(repeat, sample, number, s0.c.now, c.now, last, parts, r.bands, s0.c.next, error);
    s := State(Deliver(e.oracle, c), s0.log + [attempt], error);
  }

  method TrySample(e: Env, s0: State, repeat: nat, sample: nat, eventual: Option<int>)
    returns (s: State, last: Outcome, attempted: bool)
    requires Runnable(e.policy)
    ensures (s, last) == Tries(e, s0, repeat, sample, 1, eventual, Missing)
    ensures attempted <==> |s.log| > |s0.log|
  {
    hide Attempted, Wait, Sleep, ContextOutcome;
    s, last, attempted := s0, Missing, false;
    var number := 1;
    while number <= e.policy.attempts
      invariant number >= 1
      invariant Tries(e, s, repeat, sample, number, eventual, last) == Tries(e, s0, repeat, sample, 1, eventual, Missing)
      invariant |s.log| >= |s0.log| && (attempted <==> |s.log| > |s0.log|)
    {
      var (c, refused) := Wait(e.oracle, s.c);
      s := s.(c := c);
      if refused.Some? {
        last := ContextOutcome(refused);
        break;
      }
      if eventual.Some? && eventual.value - c.now <= 0 {
        last := Fail;
        break;
      }
      attempted := true;
      s, last := MakeAttempt(e, s, repeat, sample, number, eventual);
      if last == Pass || last == Canceled || last == Skip {
        break;
      }
      if number < e.policy.attempts {
        var (c1, slept) := Sleep(e.oracle, s.c, e.policy.delay);
        s := s.(c := c1);
        if !slept {
          last := ContextOutcome(c1.cause);
          break;
        }
      }
      number := number + 1;
    }
  }

  method RunRepeat(e: Env, s0: State, repeat: nat) returns (end: RepeatEnd, attempted: bool)
    requires Runnable(e.policy)
    ensures end == Samples(e, s0, repeat, 1, s0.c.now + e.policy.eventually, None, [])
    ensures attempted <==> |end.s.log| > |s0.log|
  {
    hide Tries, Decide, Sleep, ContextOutcome;
    var deadline := s0.c.now + e.policy.eventually;
    var stable: Option<int> := None;
    var s, sample, ending := s0, 1, Pass;
    var samples: seq<Sample> := [];
    attempted := false;
    while true
      invariant sample >= 1
      invariant Samples(e, s, repeat, sample, deadline, stable, samples) == Samples(e, s0, repeat, 1, deadline, None, [])
      invariant |s.log| >= |s0.log| && (attempted <==> |s.log| > |s0.log|)
      decreases if stable.None? then 1 else 0, TimeLeft(deadline, stable, s.c.now)
    {
      var begin, size := s.c.now, |s.log|;
      var last, tried;
      s, last, tried := TrySample(e, s, repeat, sample, EventualGuard(e.policy, deadline, stable));
      attempted := attempted || tried;
      var live := s.c.done.None?;
      var here := Sample(begin, s.log[size..], s.c.now, last, live, 0);
      var decision := Decide(e.policy, last, live, s.c.now, deadline, stable);
      if decision.Stop? {
        ending := decision.ending;
        samples := samples + [here];
        break;
      }
      var (c, slept) := Sleep(e.oracle, s.c, decision.pause);
      s := s.(c := c);
      samples := samples + [here.(pause := decision.pause)];
      if !slept {
        ending := ContextOutcome(c.cause);
        break;
      }
      stable := decision.stable;
      sample := sample + 1;
    }
    end := RepeatEnd(s, ending, samples);
  }

  /**
   checkAttempted.  `attempted` is the flag through which runTarget learns that an
   acquisition was begun.
   */
  method CheckAttempted(e: Env, now: nat, next: nat) returns (end: StepEnd, attempted: bool)
    requires Runnable(e.policy)
    ensures end == Check(e, now, next)
    ensures attempted <==> end.log != []
  {
    hide Samples, Begin;
    var s := State(Begin(e, now, next), [], NoError);
    var outcome, problem := Pass, false;
    var repeats: seq<Repeat> := [];
    var repeat := 1;
    attempted := false;
    while repeat <= e.policy.repeat
      invariant repeat >= 1
      invariant Repeats(e, s, repeat, outcome, problem, repeats) == Check(e, now, next)
      invariant attempted <==> s.log != []
    {
      var begin := s.c.now;
      var end, tried := RunRepeat(e, s.(lastError := NoError), repeat);
      attempted := attempted || tried;
      assert Extends(s.(lastError := NoError), end.s);
      s := end.s;
      if end.ending != Pass {
        outcome := end.ending;
      }
      if outcome != Pass && s.lastError == Failure {
        problem := true;
      }
      repeats := repeats + [Repeat(begin, end.samples, end.ending)];
      if outcome == Canceled || outcome == Skip {
        break;
      }
      repeat := repeat + 1;
    }
    end := StepEnd(s.c, outcome, s.log, repeats, problem);
  }
}
