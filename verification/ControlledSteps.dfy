/**
 What a request does to the steps within its scope: the context that the controls open for a step
 is the one its check loop begins with.
 */
module ControlledSteps {
  import opened Outcomes
  import opened Policies
  import opened Plans
  import opened Scopes
  import CheckLoop
  import Rounds
  import opened ControlSteps
  import opened ControlRuns
  import opened Interruption

  /** The cause a check loop sees in a context that was opened ended. */
  function CauseOf(end: Option<End>): Option<CheckLoop.Cause> {
    match end
    case None => None
    case Some(ByCancel) => Some(CheckLoop.OperatorCancel)
    case Some(BySkip) => Some(CheckLoop.OperatorSkip)
    case Some(Otherwise) => Some(CheckLoop.OperatorCancel)
  }

  /** How the context opened last stands. */
  function LatestEnd(c: State): Option<End> {
    if c.contexts == [] then None else c.contexts[|c.contexts| - 1].end
  }

  lemma RefusedAtOnce(e: CheckLoop.Env, s: CheckLoop.State, deadline: int)
    requires Runnable(e.policy) && s.c.done.Some? && s.log == []
    requires s.c.done == Some(CheckLoop.OperatorCancel) || s.c.done == Some(CheckLoop.OperatorSkip)
    ensures var end := CheckLoop.Samples(e, s, 1, 1, deadline, None, []);
      end.ending == CheckLoop.ContextOutcome(s.c.done) && end.s.log == []
  {
  }

  /** A step whose context has ended before it begins makes no attempt, and its report says why. */
  lemma EndedBeforeItBegins(w: Rounds.Worker, target: string, s: Step, k: Rounds.Clock, cause: CheckLoop.Cause)
    requires Runnable(s.policy) && w.oracle(CheckLoop.Starting, k.next).cancel == Some(cause)
    requires cause == CheckLoop.OperatorCancel || cause == CheckLoop.OperatorSkip
    ensures var r := Rounds.RunCheck(w, target, s, k).0.report;
      r.outcome == (if cause == CheckLoop.OperatorSkip then Skip else Canceled) && r.attempts == []
  {
    hide CheckLoop.Samples;
    var e := CheckLoop.Env(w.oracle, s.operation, s.policy);
    var s0 := CheckLoop.State(CheckLoop.Begin(e, k.now, k.next), [], CheckLoop.NoError);
    RefusedAtOnce(e, s0, s0.c.now + s.policy.eventually);
  }

  lemma OneMore(states: seq<System>, moves: seq<Move>, i: nat, scope: Scope)
    requires Behavior(states, moves) && i < |moves| && moves[i] == Opens(scope, false)
    ensures |states[i + 1].c.contexts| == |states[i].c.contexts| + 1
  {
    assert states[i + 1] == Do(states[i], moves[i]);
  }

  /**
   Requests reach reports: a step opened at any moment of a run by a scope around which a cancel was
   ever accepted reports Canceled, one around which a skip was accepted in the round reports Skip,
   and neither makes an attempt.
   */
  lemma RequestsReachReports(
      states: seq<System>, moves: seq<Move>, i: nat, scope: Scope, w: Rounds.Worker, target: string, s: Step, k: Rounds.Clock)
    requires Behavior(states, moves) && i < |moves| && moves[i] == Opens(scope, false) && Runnable(s.policy)
    requires w.oracle(CheckLoop.Starting, k.next).cancel == CauseOf(LatestEnd(states[i + 1].c))
    ensures var r := Rounds.RunCheck(w, target, s, k).0.report;
      && (AskedFor(states, moves, i, CancelIt, scope) ==> r.outcome == Canceled && r.attempts == [])
      && (!AskedFor(states, moves, i, CancelIt, scope) && SkipStands(states, moves, i, scope) ==> r.outcome == Skip && r.attempts == [])
  {
    hide Do, Enabled, AskedFor, SkipStands, Rounds.RunCheck;
    OpeningIsExact(states, moves, i, scope);
    OneMore(states, moves, i, scope);
    if AskedFor(states, moves, i, CancelIt, scope) {
      EndedBeforeItBegins(w, target, s, k, CheckLoop.OperatorCancel);
    } else if SkipStands(states, moves, i, scope) {
      EndedBeforeItBegins(w, target, s, k, CheckLoop.OperatorSkip);
    }
  }

  // ---------------------------------------------------------------- a step under way

  /** The world of a step whose context is `id`: when its n-th interaction ends the run has come to the state `at(n)`. */
  ghost predicate Heeds(oracle: CheckLoop.Oracle, next: nat, states: seq<System>, id: nat, at: nat -> nat) {
    forall x, n :: next <= n ==>
      && at(n) < |states| && id < |states[at(n)].c.contexts|
      && oracle(x, n).cancel == CauseOf(states[at(n)].c.contexts[id].end)
  }

  lemma RequestEnds(states: seq<System>, moves: seq<Move>, j: nat, r: Request, scope: Scope, id: nat)
    requires Behavior(states, moves) && j < |moves| && moves[j] == Asks(r, scope) && (r == SkipIt || r == CancelIt)
    requires Accepts(states[j].c, scope) && id < |states[j].c.contexts| && Contains(scope, states[j].c.contexts[id].scope)
    ensures id < |states[j + 1].c.contexts| && states[j + 1].c.contexts[id].end.Some?
  {
    hide Do, Enabled, Contains;
    RequestIsPrecise(states, moves, j, id);
    if r == CancelIt {
      CancelLeavesNoGap(states, moves, j, j + 1, scope, id);
    } else {
      SkipLeavesNoGap(states, moves, j, j + 1, scope, id);
    }
  }

  /**
   Requests reach steps under way: once a skip or cancel was accepted around a step, that step
   does not pass, if it has an interaction left; and of the attempts it reports at most the last
   one began behind the first interaction that ended after the request, and right behind it.
   */
  lemma RequestsReachRunningSteps(
      states: seq<System>, moves: seq<Move>, j: nat, r: Request, scope: Scope, id: nat, at: nat -> nat,
      w: Rounds.Worker, target: string, s: Step, k: Rounds.Clock, m: nat)
    requires Behavior(states, moves) && j < |moves| && moves[j] == Asks(r, scope) && (r == SkipIt || r == CancelIt)
    requires Accepts(states[j].c, scope) && id < |states[j].c.contexts| && Contains(scope, states[j].c.contexts[id].scope)
    requires Runnable(s.policy) && Heeds(w.oracle, k.next, states, id, at) && k.next <= m && j < at(m)
    ensures var (c, k') := Rounds.RunCheck(w, target, s, k);
      LastInFlight(c.report.attempts, m) && (m < k'.next ==> c.report.outcome != Pass)
  {
    hide Behavior, Contains, Accepts, CheckLoop.Check;
    RequestEnds(states, moves, j, r, scope, id);
    forall x
      ensures w.oracle(x, m).cancel.Some?
    {
      assert w.oracle(x, m).cancel == CauseOf(states[at(m)].c.contexts[id].end);
      EndStays(states, moves, j + 1, at(m), id);
    }
    InterruptedCheck(CheckLoop.Env(w.oracle, s.operation, s.policy), k.now, k.next, m);
  }
}
