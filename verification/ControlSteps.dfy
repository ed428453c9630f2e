/**
 Operator controls (harness/controls.go).  Each step below is one section under the mutex; a
 scope stands for its own key.  A wake channel is named by its generation: every request
 closes the current one and makes the next, so those below the current generation are closed.
 */
module ControlSteps {
  import opened Outcomes
  import opened Plans
  import opened Scopes

  /** Why a step context ended: by a request, or otherwise (its parent ended, or the step is over). */
  datatype End = BySkip | ByCancel | Otherwise

  datatype Request = Pause | Resume | SkipIt | CancelIt

  datatype StepContext = StepContext(scope: Scope, end: Option<End>)

  datatype State = State(
    bound: bool, used: bool, stopped: bool, valid: set<Scope>,
    paused: set<Scope>, skipped: set<Scope>, canceled: set<Scope>,
    contexts: seq<StepContext>, active: set<nat>, wake: nat)

  const RUN := Scope(RunScope, "", "", "")

  function AgentScopeOf(agent: string): Scope {
    Scope(AgentScope, agent, "", "")
  }

  function TargetScopeOf(agent: string, target: string): Scope {
    Scope(TargetScope, agent, target, "")
  }

  function CheckScopeOf(agent: string, target: string, check: string): Scope {
    Scope(CheckScope, agent, target, check)
  }

  predicate Covered(scopes: set<Scope>, s: Scope) {
    exists c :: c in scopes && Contains(c, s)
  }

  // ---------------------------------------------------------------- the scopes of a plan

  function StepScopes(t: Target, agent: string): set<Scope> {
    set s | s in Steps(t) :: CheckScopeOf(agent, t.id, s.id)
  }

  function AgentScopes(t: Target, agent: string): set<Scope> {
    {AgentScopeOf(agent), TargetScopeOf(agent, t.id)} + StepScopes(t, agent)
  }

  /** Every scope a request may name. */
  function ScopesOf(targets: seq<Target>): set<Scope> {
    {RUN} + set t, a, s | t in targets && a in t.agents && s in AgentScopes(t, a) :: s
  }

  // ---------------------------------------------------------------- steps, as values

  function Unbound(): State {
    State(false, false, false, {}, {}, {}, {}, [], {}, 0)
  }

  /** Controls serve a single run. */
  function Bind(c: State, targets: seq<Target>): Option<State> {
    if c.bound || c.used then None
    else Some(c.(bound := true, used := true, valid := c.valid + ScopesOf(targets)))
  }

  function Ended(x: StepContext, end: End): StepContext {
    if x.end.Some? then x else x.(end := Some(end))
  }

  /** A request ends the active contexts that its scope contains; a context ends once, for its first reason. */
  function EndContained(contexts: seq<StepContext>, active: set<nat>, s: Scope, end: End): (r: seq<StepContext>)
    ensures |r| == |contexts|
  {
    seq(|contexts|, i requires 0 <= i < |contexts| =>
      if i in active && Contains(s, contexts[i].scope) then Ended(contexts[i], end) else contexts[i])
  }

  predicate Accepts(c: State, s: Scope) {
    c.bound && s in c.valid
  }

  function Requested(c: State, r: Request, s: Scope): State {
    var c := c.(wake := c.wake + 1);
    match r
    case Pause => c.(paused := c.paused + {s})
    case Resume => c.(paused := c.paused - {s})
    case SkipIt => c.(skipped := c.skipped + {s}, contexts := EndContained(c.contexts, c.active, s, BySkip))
    case CancelIt =>
      c.(canceled := c.canceled + {s}, contexts := EndContained(c.contexts, c.active, s, ByCancel),
         stopped := c.stopped || s.kind == RunScope)
  }

  /** A new step context, ended at once when its parent has ended or a request before it covers its scope. */
  function Opened(c: State, s: Scope, orphan: bool): State {
    var end :=
      if orphan then Some(Otherwise)
      else if Covered(c.canceled, s) then Some(ByCancel)
      else if Covered(c.skipped, s) then Some(BySkip)
      else None;
    c.(contexts := c.contexts + [StepContext(s, end)], active := c.active + {|c.contexts|})
  }

  function Released(c: State, id: nat): State {
    if id < |c.contexts| then c.(active := c.active - {id}, contexts := c.contexts[id := Ended(c.contexts[id], Otherwise)])
    else c
  }

  /** A parent ends: its deadline, the run, or the program. */
  function ParentEnded(c: State, id: nat): State {
    if id < |c.contexts| then c.(contexts := c.contexts[id := Ended(c.contexts[id], Otherwise)]) else c
  }

  function NextRound(c: State): State {
    c.(skipped := {})
  }

  function Finished(c: State): State {
    c.(bound := false)
  }

  // ---------------------------------------------------------------- the object

  class Controls {
    var bound: bool
    var used: bool
    var stopped: bool
    var valid: set<Scope>
    var paused: set<Scope>
    var skipped: set<Scope>
    var canceled: set<Scope>
    var contexts: seq<StepContext>
    var active: set<nat>
    var wake: nat

    ghost predicate Valid()
      reads this
    {
      && paused <= valid && skipped <= valid && canceled <= valid
      && forall id :: id in active ==> id < |contexts|
    }

    ghost function Now(): State
      reads this
    {
      State(bound, used, stopped, valid, paused, skipped, canceled, contexts, active, wake)
    }

    constructor ()
      ensures Valid() && Now() == Unbound()
    {
      bound, used, stopped, wake := false, false, false, 0;
      valid, paused, skipped, canceled, contexts, active := {}, {}, {}, {}, [], {};
    }

    method BindTo(targets: seq<Target>) returns (ok: bool)
      requires Valid()
      modifies `bound, `used, `valid
      ensures Valid()
      ensures ok <==> Bind(old(Now()), targets).Some?
      ensures Now() == if ok then Bind(old(Now()), targets).value else old(Now())
    {
      if bound || used {
        return false;
      }
      var scopes := CollectScopes(targets);
      bound, used, valid := true, true, valid + scopes;
      ok := true;
    }

    lemma EndMore(before: seq<StepContext>, done: set<nat>, id: nat, s: Scope, end: End)
      requires id < |before| && id !in done
      ensures
        var now := EndContained(before, done, s, end);
        EndContained(before, done + {id}, s, end) == if Contains(s, now[id].scope) then now[id := Ended(now[id], end)] else now
    {
      hide Contains;
    }

    method EndActive(s: Scope, end: End)
      requires Valid()
      modifies `contexts
      ensures contexts == EndContained(old(contexts), active, s, end)
    {
      hide EndContained, Contains, Ended;
      ghost var before := contexts;
      var left := active;
      assert contexts == EndContained(before, active - left, s, end) by { EndNone(before, s, end); }
      while left != {}
        invariant left <= active && |contexts| == |before|
        invariant contexts == EndContained(before, active - left, s, end)
        decreases |left|
      {
        var id: nat :| id in left;
        EndMore(before, active - left, id, s, end);
        assert active - (left - {id}) == active - left + {id};
        left := left - {id};
        if Contains(s, contexts[id].scope) {
          contexts := contexts[id := Ended(contexts[id], end)];
        }
      }
      assert active - {} == active;
    }

    lemma EndNone(before: seq<StepContext>, s: Scope, end: End)
      ensures EndContained(before, active - active, s, end) == before
    {
    }

    method Ask(r: Request, s: Scope) returns (ok: bool)
      requires Valid()
      modifies this
      ensures Valid()
      ensures ok <==> Accepts(old(Now()), s)
      ensures Now() == if ok then Requested(old(Now()), r, s) else old(Now())
    {
      hide EndContained, Contains;
      if !bound || s !in valid {
        return false;
      }
      match r {
        case Pause => paused := paused + {s};
        case Resume => paused := paused - {s};
        case SkipIt => skipped := skipped + {s};
        case CancelIt => canceled := canceled + {s};
      }
      if r == SkipIt || r == CancelIt {
        var end := if r == CancelIt then ByCancel else BySkip;
        EndActive(s, end);
        if r == CancelIt && s.kind == RunScope {
          stopped := true;
        }
      }
      wake := wake + 1;
      ok := true;
    }

    method Covers(scopes: set<Scope>, s: Scope) returns (covered: bool)
      ensures covered <==> Covered(scopes, s)
    {
      var left := scopes;
      covered := false;
      while left != {}
        invariant left <= scopes && (covered <==> Covered(scopes - left, s))
        decreases |left|
      {
        var c: Scope :| c in left;
        left := left - {c};
        if Contains(c, s) {
          covered := true;
        }
      }
      assert scopes - {} == scopes;
    }

    method Open(s: Scope, orphan: bool) returns (id: nat)
      requires Valid()
      modifies `contexts, `active
      ensures Valid() && Now() == Opened(old(Now()), s, orphan) && id == |old(contexts)|
    {
      id := |contexts|;
      var end: Option<End> := if orphan then Some(Otherwise) else None;
      var isCanceled := Covers(canceled, s);
      if isCanceled && end.None? {
        end := Some(ByCancel);
      }
      var isSkipped := Covers(skipped, s);
      if isSkipped && end.None? {
        end := Some(BySkip);
      }
      contexts := contexts + [StepContext(s, end)];
      active := active + {id};
    }

    method Release(id: nat)
      requires Valid() && id < |contexts|
      modifies `contexts, `active
      ensures Valid() && Now() == Released(old(Now()), id)
    {
      active := active - {id};
      contexts := contexts[id := Ended(contexts[id], Otherwise)];
    }

    /** The section of a waiter: whether it is paused, and the channel that the next request will close. */
    method Look(s: Scope) returns (isPaused: bool, captured: nat)
      ensures isPaused <==> Covered(paused, s)
      ensures captured == wake
    {
      isPaused := Covers(paused, s);
      captured := wake;
    }

    method BeginRound()
      requires Valid()
      modifies `skipped
      ensures Valid() && Now() == NextRound(old(Now()))
    {
      skipped := {};
    }

    method Finish()
      requires Valid()
      modifies `bound
      ensures Valid() && Now() == Finished(old(Now()))
    {
      bound := false;
    }
  }

  function AgentsScopes(t: Target, n: nat): set<Scope>
    requires n <= |t.agents|
  {
    set i, s | 0 <= i < n && s in AgentScopes(t, t.agents[i]) :: s
  }

  method CollectScopes(targets: seq<Target>) returns (scopes: set<Scope>)
    ensures scopes == ScopesOf(targets)
  {
    hide AgentScopes;
    scopes := {RUN};
    for n := 0 to |targets|
      invariant scopes == ScopesOf(targets[..n])
    {
      var t := targets[n];
      assert targets[..n + 1] == targets[..n] + [t];
      ghost var before := scopes;
      for i := 0 to |t.agents|
        invariant scopes == before + AgentsScopes(t, i)
      {
        var some := OneAgentScopes(t, t.agents[i]);
        scopes := scopes + some;
      }
    }
    assert targets[..|targets|] == targets;
  }

  method OneAgentScopes(t: Target, agent: string) returns (scopes: set<Scope>)
    ensures scopes == AgentScopes(t, agent)
  {
    scopes := {AgentScopeOf(agent), TargetScopeOf(agent, t.id)};
    ghost var before := scopes;
    var steps := Steps(t);
    for i := 0 to |steps|
      invariant scopes == before + set j | 0 <= j < i :: CheckScopeOf(agent, t.id, steps[j].id)
    {
      scopes := scopes + {CheckScopeOf(agent, t.id, steps[i].id)};
    }
  }
}
