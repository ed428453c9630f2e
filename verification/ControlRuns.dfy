/**
 Operator controls over whole runs: requests, step contexts and paused steps in any interleaving.
 No request leaves a gap, none reaches beyond its scope, and no wakeup is lost.
 */
module ControlRuns {
  import opened Outcomes
  import opened Plans
  import opened Scopes
  import opened ControlSteps

  /** A step that waits: about to look, holding the channel it captured, let go, or given up. */
  datatype Phase = Checking | Blocked(captured: nat) | Resumed | GaveUp

  datatype Waiter = Waiter(scope: Scope, phase: Phase)

  datatype System = System(c: State, waiters: seq<Waiter>)

  datatype Move =
    | Binds(targets: seq<Target>)
    | Asks(request: Request, scope: Scope)
    | Opens(scope: Scope, orphan: bool)
    | Releases(id: nat)
    | ParentEnds(id: nat)
    | NextRoundBegins
    | Finishes
    | Waits(scope: Scope)
    | Looks(waiter: nat)
    | Wakes(waiter: nat)
    | GivesUp(waiter: nat)

  predicate Enabled(s: System, m: Move) {
    match m
    case Looks(w) => w < |s.waiters| && s.waiters[w].phase == Checking
    case Wakes(w) => w < |s.waiters| && s.waiters[w].phase.Blocked? && s.waiters[w].phase.captured < s.c.wake
    case GivesUp(w) => w < |s.waiters| && (s.waiters[w].phase == Checking || s.waiters[w].phase.Blocked?)
    case _ => true
  }

  function SetPhase(s: System, w: nat, phase: Phase): System
    requires w < |s.waiters|
  {
    s.(waiters := s.waiters[w := s.waiters[w].(phase := phase)])
  }

  function Do(s: System, m: Move): System
    requires Enabled(s, m)
  {
    match m
    case Binds(targets) => if Bind(s.c, targets).Some? then s.(c := Bind(s.c, targets).value) else s
    case Asks(r, scope) => if Accepts(s.c, scope) then s.(c := Requested(s.c, r, scope)) else s
    case Opens(scope, orphan) => s.(c := Opened(s.c, scope, orphan))
    case Releases(id) => s.(c := Released(s.c, id))
    case ParentEnds(id) => s.(c := ParentEnded(s.c, id))
    case NextRoundBegins => s.(c := NextRound(s.c))
    case Finishes => s.(c := Finished(s.c))
    case Waits(scope) => s.(waiters := s.waiters + [Waiter(scope, Checking)])
    case Looks(w) => SetPhase(s, w, if Covered(s.c.paused, s.waiters[w].scope) then Blocked(s.c.wake) else Resumed)
    case Wakes(w) => SetPhase(s, w, Checking)
    case GivesUp(w) => SetPhase(s, w, GaveUp)
  }

  /** Every request that a scope is canceled or skipped by has ended each context it covers. */
  predicate ContextsEnded(c: State) {
    && (forall id :: id in c.active ==> id < |c.contexts|)
    && forall id {:trigger c.contexts[id]} :: 0 <= id < |c.contexts| ==>
         (id !in c.active || Covered(c.canceled, c.contexts[id].scope) || Covered(c.skipped, c.contexts[id].scope)) ==> c.contexts[id].end.Some?
  }

  /** A channel that is still open was captured while the waiter was paused, and it still is. */
  predicate WaiterAwake(c: State, w: Waiter) {
    w.phase.Blocked? ==> w.phase.captured <= c.wake && (w.phase.captured == c.wake ==> Covered(c.paused, w.scope))
  }

  predicate Inv(s: System) {
    && s.c.paused <= s.c.valid && s.c.skipped <= s.c.valid && s.c.canceled <= s.c.valid
    && ContextsEnded(s.c)
    && forall w :: 0 <= w < |s.waiters| ==> WaiterAwake(s.c, s.waiters[w])
  }

  lemma StepEnds(s: System, m: Move)
    requires Enabled(s, m) && ContextsEnded(s.c)
    ensures ContextsEnded(Do(s, m).c)
  {
    if m.Asks? {
      if Accepts(s.c, m.scope) {
      }
    } else if m.NextRoundBegins? {
      assert forall scope :: !Covered({}, scope);
    } else {
      hide Covered, ScopesOf;
    }
  }

  lemma StepAwake(s: System, m: Move, w: nat)
    requires Enabled(s, m) && w < |Do(s, m).waiters|
    requires w < |s.waiters| ==> WaiterAwake(s.c, s.waiters[w])
    ensures WaiterAwake(Do(s, m).c, Do(s, m).waiters[w])
  {
    hide Covered, ScopesOf, EndContained;
  }

  lemma Preserved(s: System, m: Move)
    requires Enabled(s, m) && Inv(s)
    ensures Inv(Do(s, m))
  {
    hide ContextsEnded, WaiterAwake, ScopesOf, EndContained, Covered;
    StepEnds(s, m);
    forall w | 0 <= w < |Do(s, m).waiters|
      ensures WaiterAwake(Do(s, m).c, Do(s, m).waiters[w])
    {
      StepAwake(s, m, w);
    }
  }

  // ---------------------------------------------------------------- runs

  const START := System(Unbound(), [])

  predicate Behavior(states: seq<System>, moves: seq<Move>) {
    && |states| == |moves| + 1 && states[0] == START
    && forall i :: 0 <= i < |moves| ==> Enabled(states[i], moves[i]) && states[i + 1] == Do(states[i], moves[i])
  }

  lemma {:induction false} Reachable(states: seq<System>, moves: seq<Move>, i: nat)
    requires Behavior(states, moves) && i < |states|
    ensures Inv(states[i])
  {
    hide Inv, Do, Enabled;
    if i == 0 {
      assert Inv(START) by { StartInv(); }
    } else {
      Reachable(states, moves, i - 1);
      Preserved(states[i - 1], moves[i - 1]);
    }
  }

  lemma StartInv()
    ensures Inv(START)
  {
  }

  /** The step contexts a move is about: those within the scope of a skip or cancel that is accepted, or the one it names. */
  predicate Concerns(c: State, m: Move, id: nat)
    requires id < |c.contexts|
  {
    match m
    case Asks(r, s) => (r == SkipIt || r == CancelIt) && Accepts(c, s) && Contains(s, c.contexts[id].scope)
    case Releases(other) => other == id
    case ParentEnds(other) => other == id
    case _ => false
  }

  function Reason(m: Move): End {
    match m
    case Asks(CancelIt, _) => ByCancel
    case Asks(SkipIt, _) => BySkip
    case _ => Otherwise
  }

  lemma ConcernedEnd(s: System, m: Move, id: nat)
    requires Enabled(s, m) && ContextsEnded(s.c) && id < |s.c.contexts|
    ensures id < |Do(s, m).c.contexts|
    ensures var x, y := s.c.contexts[id], Do(s, m).c.contexts[id];
      && y.scope == x.scope
      && (y.end != x.end <==> x.end.None? && Concerns(s.c, m, id))
      && (y.end != x.end ==> y.end == Some(Reason(m)))
  {
    hide Covered, ScopesOf, Contains;
    if m.Asks? {
      hide Bind, Opened, Released, ParentEnded;
    } else {
      hide Requested, EndContained;
    }
  }

  /**
   A request is precise: at every step of every run exactly those contexts end that had not
   ended before and that the step is about, for its reason; every other context stays as it was.
   */
  lemma RequestIsPrecise(states: seq<System>, moves: seq<Move>, k: nat, id: nat)
    requires Behavior(states, moves) && k < |moves| && id < |states[k].c.contexts|
    ensures id < |states[k + 1].c.contexts|
    ensures var x, y := states[k].c.contexts[id], states[k + 1].c.contexts[id];
      && y.scope == x.scope
      && (y.end != x.end <==> x.end.None? && Concerns(states[k].c, moves[k], id))
      && (y.end != x.end ==> y.end == Some(Reason(moves[k])))
  {
    hide Do, Enabled, ContextsEnded, WaiterAwake, Concerns, Reason;
    Reachable(states, moves, k);
    assert Enabled(states[k], moves[k]);
    ConcernedEnd(states[k], moves[k], id);
  }

  /** A context that ended stays so, for the same reason. */
  lemma {:induction false} EndStays(states: seq<System>, moves: seq<Move>, i: nat, j: nat, id: nat)
    requires Behavior(states, moves) && i <= j < |states| && id < |states[i].c.contexts| && states[i].c.contexts[id].end.Some?
    ensures id < |states[j].c.contexts| && states[j].c.contexts[id] == states[i].c.contexts[id]
    decreases j
  {
    hide Do, Enabled, Concerns, Reason;
    if i < j {
      EndStays(states, moves, i, j - 1, id);
      RequestIsPrecise(states, moves, j - 1, id);
    }
  }

  lemma CanceledGrows(s: System, m: Move)
    requires Enabled(s, m)
    ensures s.c.canceled <= Do(s, m).c.canceled
    ensures !m.NextRoundBegins? ==> s.c.skipped <= Do(s, m).c.skipped
    ensures |s.c.contexts| <= |Do(s, m).c.contexts|
    ensures forall id :: 0 <= id < |s.c.contexts| ==> Do(s, m).c.contexts[id].scope == s.c.contexts[id].scope
  {
    hide Covered, ScopesOf, Contains;
  }

  lemma {:induction false} Remembered(states: seq<System>, moves: seq<Move>, i: nat, j: nat)
    requires Behavior(states, moves) && i <= j < |states|
    ensures states[i].c.canceled <= states[j].c.canceled
    ensures (forall k :: i <= k < j ==> !moves[k].NextRoundBegins?) ==> states[i].c.skipped <= states[j].c.skipped
    decreases j
  {
    hide Do, Enabled;
    if i < j {
      Remembered(states, moves, i, j - 1);
      CanceledGrows(states[j - 1], moves[j - 1]);
    }
  }

  /**
   Cancel leaves no gap: once a cancel request for a scope was accepted, every step context
   within that scope has ended, were it active then or created at any time since.
   */
  lemma CancelLeavesNoGap(states: seq<System>, moves: seq<Move>, i: nat, j: nat, s: Scope, id: nat)
    requires Behavior(states, moves) && i < j < |states|
    requires moves[i] == Asks(CancelIt, s) && Accepts(states[i].c, s)
    requires id < |states[j].c.contexts| && Contains(s, states[j].c.contexts[id].scope)
    ensures states[j].c.contexts[id].end.Some?
  {
    hide Enabled, Contains, EndContained;
    Remembered(states, moves, i + 1, j);
    Reachable(states, moves, j);
    assert s in states[i + 1].c.canceled;
    assert Covered(states[j].c.canceled, states[j].c.contexts[id].scope);
  }

  /** Skip leaves no gap until the next round begins. */
  lemma SkipLeavesNoGap(states: seq<System>, moves: seq<Move>, i: nat, j: nat, s: Scope, id: nat)
    requires Behavior(states, moves) && i < j < |states|
    requires moves[i] == Asks(SkipIt, s) && Accepts(states[i].c, s)
    requires forall k :: i < k < j ==> !moves[k].NextRoundBegins?
    requires id < |states[j].c.contexts| && Contains(s, states[j].c.contexts[id].scope)
    ensures states[j].c.contexts[id].end.Some?
  {
    hide Enabled, Contains, EndContained;
    Remembered(states, moves, i + 1, j);
    Reachable(states, moves, j);
    assert s in states[i + 1].c.skipped;
    assert Covered(states[j].c.skipped, states[j].c.contexts[id].scope);
  }

  // ---------------------------------------------------------------- where endings come from

  ghost predicate AskedFor(states: seq<System>, moves: seq<Move>, j: nat, r: Request, scope: Scope)
    requires |states| == |moves| + 1 && j < |states|
  {
    exists i, s :: 0 <= i < j && moves[i] == Asks(r, s) && Accepts(states[i].c, s) && Contains(s, scope)
  }

  lemma GrewBy(s: System, m: Move, scope: Scope)
    requires Enabled(s, m)
    ensures scope in Do(s, m).c.canceled && scope !in s.c.canceled ==> m == Asks(CancelIt, scope) && Accepts(s.c, scope)
    ensures scope in Do(s, m).c.skipped && scope !in s.c.skipped ==> m == Asks(SkipIt, scope) && Accepts(s.c, scope)
  {
    hide Covered, ScopesOf, EndContained;
  }

  /** Every canceled or skipped scope was asked for. */
  lemma {:induction false} ScopesAskedFor(states: seq<System>, moves: seq<Move>, j: nat, s: Scope)
    requires Behavior(states, moves) && j < |states|
    ensures s in states[j].c.canceled ==> exists i :: 0 <= i < j && moves[i] == Asks(CancelIt, s) && Accepts(states[i].c, s)
    ensures s in states[j].c.skipped ==> exists i :: 0 <= i < j && moves[i] == Asks(SkipIt, s) && Accepts(states[i].c, s)
  {
    hide Enabled, Do;
    if j > 0 {
      ScopesAskedFor(states, moves, j - 1, s);
      GrewBy(states[j - 1], moves[j - 1], s);
    }
  }

  lemma CoveredAskedFor(states: seq<System>, moves: seq<Move>, j: nat, scope: Scope)
    requires Behavior(states, moves) && j < |states|
    ensures Covered(states[j].c.canceled, scope) ==> AskedFor(states, moves, j, CancelIt, scope)
    ensures Covered(states[j].c.skipped, scope) ==> AskedFor(states, moves, j, SkipIt, scope)
  {
    hide Behavior, Contains;
    if Covered(states[j].c.canceled, scope) {
      var s :| s in states[j].c.canceled && Contains(s, scope);
      ScopesAskedFor(states, moves, j, s);
    }
    if Covered(states[j].c.skipped, scope) {
      var s :| s in states[j].c.skipped && Contains(s, scope);
      ScopesAskedFor(states, moves, j, s);
    }
  }

  /** A skip that covers the scope was accepted, and no round has begun since. */
  ghost predicate SkipStands(states: seq<System>, moves: seq<Move>, j: nat, scope: Scope)
    requires |states| == |moves| + 1 && j < |states|
  {
    exists i, s :: 0 <= i < j && SkipSince(states, moves, i, j, s) && Contains(s, scope)
  }

  ghost predicate SkipSince(states: seq<System>, moves: seq<Move>, i: nat, j: nat, s: Scope)
    requires |states| == |moves| + 1 && i < j < |states|
  {
    moves[i] == Asks(SkipIt, s) && Accepts(states[i].c, s) && forall k :: i < k < j ==> !moves[k].NextRoundBegins?
  }

  lemma {:induction false} SkippedSince(states: seq<System>, moves: seq<Move>, j: nat, s: Scope) returns (i: nat)
    requires Behavior(states, moves) && j < |states| && s in states[j].c.skipped
    ensures i < j && SkipSince(states, moves, i, j, s)
  {
    hide Enabled, Do;
    if j == 0 {
      assert false;
    } else {
      GrewBy(states[j - 1], moves[j - 1], s);
      SkippedKept(states[j - 1], moves[j - 1], s);
      if s in states[j - 1].c.skipped {
        i := SkippedSince(states, moves, j - 1, s);
      } else {
        i := j - 1;
      }
    }
  }

  lemma SkippedKept(s: System, m: Move, scope: Scope)
    requires Enabled(s, m) && scope in Do(s, m).c.skipped
    ensures !m.NextRoundBegins?
  {
    hide Covered, ScopesOf;
  }

  lemma SkippedExactly(states: seq<System>, moves: seq<Move>, j: nat, scope: Scope)
    requires Behavior(states, moves) && j < |states|
    ensures Covered(states[j].c.skipped, scope) <==> SkipStands(states, moves, j, scope)
  {
    hide Enabled, Contains, EndContained;
    if Covered(states[j].c.skipped, scope) {
      var s :| s in states[j].c.skipped && Contains(s, scope);
      var i := SkippedSince(states, moves, j, s);
    }
    if SkipStands(states, moves, j, scope) {
      var i, s :| 0 <= i < j && SkipSince(states, moves, i, j, s) && Contains(s, scope);
      Remembered(states, moves, i + 1, j);
      assert s in states[i + 1].c.skipped;
    }
  }

  lemma CanceledExactly(states: seq<System>, moves: seq<Move>, j: nat, scope: Scope)
    requires Behavior(states, moves) && j < |states|
    ensures Covered(states[j].c.canceled, scope) <==> AskedFor(states, moves, j, CancelIt, scope)
  {
    hide Enabled, Contains, EndContained;
    CoveredAskedFor(states, moves, j, scope);
    if AskedFor(states, moves, j, CancelIt, scope) {
      var i, s :| 0 <= i < j && moves[i] == Asks(CancelIt, s) && Accepts(states[i].c, s) && Contains(s, scope);
      Remembered(states, moves, i + 1, j);
      assert s in states[i + 1].c.canceled;
    }
  }

  /**
   How a new step begins: canceled if ever a cancel was accepted for a scope around it, skipped
   if a skip was in this round, and free to run otherwise, whichever came between.
   */
  lemma OpeningIsExact(states: seq<System>, moves: seq<Move>, k: nat, scope: Scope)
    requires Behavior(states, moves) && k < |moves| && moves[k] == Opens(scope, false)
    ensures var id := |states[k].c.contexts|;
      && id < |states[k + 1].c.contexts|
      && states[k + 1].c.contexts[id] == StepContext(scope,
           if AskedFor(states, moves, k, CancelIt, scope) then Some(ByCancel)
           else if SkipStands(states, moves, k, scope) then Some(BySkip)
           else None)
  {
    hide Enabled, AskedFor, SkipStands, Covered;
    assert states[k + 1] == Do(states[k], moves[k]);
    CanceledExactly(states, moves, k, scope);
    SkippedExactly(states, moves, k, scope);
  }

  /** How one step can end a context for a request's reason. */
  lemma EndedBy(s: System, m: Move, id: nat, end: End)
    requires Enabled(s, m) && id < |Do(s, m).c.contexts| && end != Otherwise
    requires Do(s, m).c.contexts[id].end == Some(end)
    requires id < |s.c.contexts| ==> s.c.contexts[id].end != Some(end)
    ensures
      var scope := Do(s, m).c.contexts[id].scope;
      || (m.Asks? && Accepts(s.c, m.scope) && m.request == (if end == ByCancel then CancelIt else SkipIt) && Contains(m.scope, scope))
      || (m.Opens? && id == |s.c.contexts| && Covered(if end == ByCancel then s.c.canceled else s.c.skipped, scope))
  {
    hide Covered, Contains, ScopesOf;
  }

  lemma ScopeKept(s: System, m: Move, id: nat)
    requires Enabled(s, m) && id < |s.c.contexts|
    ensures id < |Do(s, m).c.contexts| && Do(s, m).c.contexts[id].scope == s.c.contexts[id].scope
  {
    CanceledGrows(s, m);
  }

  /** No request reaches beyond its scope: a context that ended by cancel or skip lies within a scope that was asked for before. */
  lemma {:induction false} EndingsWereAskedFor(states: seq<System>, moves: seq<Move>, j: nat, id: nat)
    requires Behavior(states, moves) && j < |states| && id < |states[j].c.contexts|
    ensures states[j].c.contexts[id].end == Some(ByCancel) ==> AskedFor(states, moves, j, CancelIt, states[j].c.contexts[id].scope)
    ensures states[j].c.contexts[id].end == Some(BySkip) ==> AskedFor(states, moves, j, SkipIt, states[j].c.contexts[id].scope)
  {
    hide Do, Enabled, Contains, Covered;
    if j > 0 {
      var s, m := states[j - 1], moves[j - 1];
      var x := states[j].c.contexts[id];
      if id < |s.c.contexts| {
        EndingsWereAskedFor(states, moves, j - 1, id);
        ScopeKept(s, m, id);
      }
      CoveredAskedFor(states, moves, j - 1, x.scope);
      if x.end == Some(ByCancel) && !(id < |s.c.contexts| && s.c.contexts[id].end == Some(ByCancel)) {
        EndedBy(s, m, id, ByCancel);
      }
      if x.end == Some(BySkip) && !(id < |s.c.contexts| && s.c.contexts[id].end == Some(BySkip)) {
        EndedBy(s, m, id, BySkip);
      }
    }
  }

  // ---------------------------------------------------------------- pause, resume, and the end of the run

  /** The last request about the pause of a scope itself: it was paused at i, and not resumed since. */
  ghost predicate PausedSince(states: seq<System>, moves: seq<Move>, i: nat, j: nat, s: Scope)
    requires |states| == |moves| + 1 && i < j < |states|
  {
    && moves[i] == Asks(Pause, s) && Accepts(states[i].c, s)
    && forall k :: i < k < j ==> !(moves[k] == Asks(Resume, s) && Accepts(states[k].c, s))
  }

  lemma PauseStep(s: System, m: Move, scope: Scope)
    requires Enabled(s, m)
    ensures scope in Do(s, m).c.paused <==>
      || (m == Asks(Pause, scope) && Accepts(s.c, scope))
      || (scope in s.c.paused && !(m == Asks(Resume, scope) && Accepts(s.c, scope)))
    ensures Do(s, m).c.stopped <==> s.c.stopped || (m.Asks? && m.request == CancelIt && m.scope.kind == RunScope && Accepts(s.c, m.scope))
  {
    hide Covered, ScopesOf, EndContained;
  }

  /** A scope is paused exactly when a pause of it was accepted and no resume of it since. */
  lemma {:induction false} PausedExactly(states: seq<System>, moves: seq<Move>, j: nat, s: Scope)
    requires Behavior(states, moves) && j < |states|
    ensures s in states[j].c.paused <==> exists i :: 0 <= i < j && PausedSince(states, moves, i, j, s)
  {
    hide Do, Enabled, Accepts;
    if j > 0 {
      PausedExactly(states, moves, j - 1, s);
      PauseStep(states[j - 1], moves[j - 1], s);
      if s in states[j].c.paused {
        if moves[j - 1] == Asks(Pause, s) && Accepts(states[j - 1].c, s) {
          assert PausedSince(states, moves, j - 1, j, s);
        } else {
          var i :| 0 <= i < j - 1 && PausedSince(states, moves, i, j - 1, s);
          assert PausedSince(states, moves, i, j, s);
        }
      }
      if i: nat :| i < j && PausedSince(states, moves, i, j, s) {
        if i < j - 1 {
          assert PausedSince(states, moves, i, j - 1, s);
        }
      }
    }
  }

  /** The run is stopped exactly when a cancel of the whole run was accepted. */
  lemma {:induction false} RunCanceledExactly(states: seq<System>, moves: seq<Move>, j: nat)
    requires Behavior(states, moves) && j < |states|
    ensures states[j].c.stopped <==>
      exists i :: 0 <= i < j && moves[i].Asks? && moves[i].request == CancelIt && moves[i].scope.kind == RunScope && Accepts(states[i].c, moves[i].scope)
  {
    hide Do, Enabled, Accepts;
    if j > 0 {
      RunCanceledExactly(states, moves, j - 1);
      PauseStep(states[j - 1], moves[j - 1], RUN);
    }
  }

  /** Step context `id` was opened at o and not released since. */
  predicate OpenSince(states: seq<System>, moves: seq<Move>, o: nat, j: nat, id: nat)
    requires |states| == |moves| + 1 && o < j < |states|
  {
    && moves[o].Opens? && |states[o].c.contexts| == id
    && forall r :: o < r < j ==> moves[r] != Releases(id)
  }

  lemma ActiveStep(s: System, m: Move, id: nat)
    requires Enabled(s, m) && ContextsEnded(s.c)
    ensures id in Do(s, m).c.active <==>
      (m.Opens? && |s.c.contexts| == id) || (id in s.c.active && m != Releases(id))
  {
    hide Covered, ScopesOf, EndContained;
  }

  /** A step context is within reach of requests exactly from its opening to its release. */
  lemma {:induction false} ActiveExactly(states: seq<System>, moves: seq<Move>, j: nat, id: nat)
    requires Behavior(states, moves) && j < |states|
    ensures id in states[j].c.active <==> exists o :: 0 <= o < j && OpenSince(states, moves, o, j, id)
  {
    hide Do, Enabled, ContextsEnded;
    if j > 0 {
      ActiveExactly(states, moves, j - 1, id);
      Reachable(states, moves, j - 1);
      var s, m := states[j - 1], moves[j - 1];
      assert Enabled(s, m) && states[j] == Do(s, m);
      ActiveStep(s, m, id);
      if id in states[j].c.active {
        if m.Opens? && |s.c.contexts| == id {
          assert OpenSince(states, moves, j - 1, j, id);
        } else {
          var o :| 0 <= o < j - 1 && OpenSince(states, moves, o, j - 1, id);
          assert OpenSince(states, moves, o, j, id);
        }
      }
      if o: nat :| o < j && OpenSince(states, moves, o, j, id) {
        if o < j - 1 {
          assert OpenSince(states, moves, o, j - 1, id);
        }
      }
    }
  }

  // ---------------------------------------------------------------- waiting

  /** No wakeup is lost: at every moment a blocked step is paused, or may wake at once. */
  lemma NoLostWakeup(states: seq<System>, moves: seq<Move>, i: nat, w: nat)
    requires Behavior(states, moves) && i < |states| && w < |states[i].waiters| && states[i].waiters[w].phase.Blocked?
    ensures Covered(states[i].c.paused, states[i].waiters[w].scope) || Enabled(states[i], Wakes(w))
    ensures states[i].waiters[w].phase.captured <= states[i].c.wake
  {
    hide ContextsEnded, Covered, Behavior;
    Reachable(states, moves, i);
    assert WaiterAwake(states[i].c, states[i].waiters[w]);
  }

  lemma WaiterStep(s: System, m: Move, w: nat)
    requires Enabled(s, m) && w < |Do(s, m).waiters| && Do(s, m).waiters[w].phase == Resumed
    requires w < |s.waiters| ==> s.waiters[w].phase != Resumed
    ensures m == Looks(w) && w < |s.waiters| && !Covered(s.c.paused, s.waiters[w].scope)
    ensures Do(s, m).waiters[w].scope == s.waiters[w].scope
  {
    hide Covered;
  }

  lemma WaiterScope(s: System, m: Move, w: nat)
    requires Enabled(s, m) && w < |s.waiters|
    ensures w < |Do(s, m).waiters| && Do(s, m).waiters[w].scope == s.waiters[w].scope
  {
  }

  /** A step resumes only by looking at an instant at which no paused scope contained it. */
  lemma {:induction false} ResumedWhenClear(states: seq<System>, moves: seq<Move>, j: nat, w: nat)
    returns (i: nat)
    requires Behavior(states, moves) && j < |states| && w < |states[j].waiters| && states[j].waiters[w].phase == Resumed
    ensures i < j && moves[i] == Looks(w) && !Covered(states[i].c.paused, states[j].waiters[w].scope)
  {
    hide Do, Enabled, Covered;
    if j == 0 {
      assert false;
    } else {
      var s, m := states[j - 1], moves[j - 1];
      if w < |s.waiters| && s.waiters[w].phase == Resumed {
        i := ResumedWhenClear(states, moves, j - 1, w);
        WaiterScope(s, m, w);
      } else {
        WaiterStep(s, m, w);
        i := j - 1;
      }
    }
  }

  /** A step goes on only when every scope around it that was ever paused has been resumed since. */
  lemma GoesOnWhenResumed(states: seq<System>, moves: seq<Move>, j: nat, w: nat, s: Scope, p: nat) returns (i: nat)
    requires Behavior(states, moves) && j < |states| && w < |states[j].waiters| && states[j].waiters[w].phase == Resumed
    ensures i < j && moves[i] == Looks(w)
    ensures p < i && moves[p] == Asks(Pause, s) && Accepts(states[p].c, s) && Contains(s, states[j].waiters[w].scope) ==>
      exists k :: p < k < i && moves[k] == Asks(Resume, s) && Accepts(states[k].c, s)
  {
    hide Do, Enabled, Accepts, Contains;
    i := ResumedWhenClear(states, moves, j, w);
    PausedExactly(states, moves, i, s);
    assert s in states[i].c.paused ==> !Contains(s, states[j].waiters[w].scope);
    assert p < i && PausedSince(states, moves, p, i, s) ==> s in states[i].c.paused;
  }

  // ---------------------------------------------------------------- which requests are accepted

  /** The run that the controls serve: bound at b, by the first binding there was. */
  predicate ServesSince(moves: seq<Move>, b: nat, j: nat) {
    b < j <= |moves| && moves[b].Binds? && forall a :: 0 <= a < b ==> !moves[a].Binds?
  }

  predicate BoundSince(c: State, moves: seq<Move>, b: nat, j: nat) {
    && ServesSince(moves, b, j) && c.valid == ScopesOf(moves[b].targets)
    && (c.bound <==> forall f :: b < f < j ==> !moves[f].Finishes?)
  }

  lemma BindStep(s: System, m: Move)
    requires Enabled(s, m) && !(m.Binds? && !s.c.bound && !s.c.used)
    ensures Do(s, m).c.used == s.c.used && Do(s, m).c.valid == s.c.valid && Do(s, m).c.bound == (s.c.bound && !m.Finishes?)
  {
    hide Covered, ScopesOf, EndContained;
  }

  lemma FirstBind(s: System, targets: seq<Target>)
    requires !s.c.bound && !s.c.used
    ensures var c := Do(s, Binds(targets)).c; c.bound && c.used && c.valid == s.c.valid + ScopesOf(targets)
  {
    hide ScopesOf;
  }

  lemma {:induction false} BindingIs(states: seq<System>, moves: seq<Move>, j: nat)
    requires Behavior(states, moves) && j < |states|
    ensures var c := states[j].c;
      if c.used then exists b :: 0 <= b < j && BoundSince(c, moves, b, j)
      else !c.bound && c.valid == {} && forall a :: 0 <= a < j ==> !moves[a].Binds?
  {
    if j > 0 {
      hide Do, Enabled, ScopesOf;
      BindingIs(states, moves, j - 1);
      var s, m := states[j - 1], moves[j - 1];
      if m.Binds? && !s.c.bound && !s.c.used {
        FirstBind(s, m.targets);
        assert {} + ScopesOf(m.targets) == ScopesOf(m.targets);
        assert BoundSince(states[j].c, moves, j - 1, j);
      } else {
        BindStep(s, m);
        if s.c.used {
          var b :| 0 <= b < j - 1 && BoundSince(s.c, moves, b, j - 1);
          assert BoundSince(states[j].c, moves, b, j);
        }
      }
    }
  }

  /** A request is accepted if and only if its scope is one of the first run that was bound and that run is not finished: controls serve one run and no other. */
  lemma AcceptedExactly(states: seq<System>, moves: seq<Move>, j: nat, s: Scope)
    requires Behavior(states, moves) && j < |states|
    ensures Accepts(states[j].c, s) <==>
      exists b :: 0 <= b < j && ServesSince(moves, b, j) && s in ScopesOf(moves[b].targets) && forall f :: b < f < j ==> !moves[f].Finishes?
  {
    hide Behavior, ScopesOf;
    BindingIs(states, moves, j);
    if states[j].c.used {
      forall b, d | 0 <= b < j && 0 <= d < j && ServesSince(moves, b, j) && ServesSince(moves, d, j)
        ensures b == d
      {
        assert !(b < d) && !(d < b);
      }
      var b :| 0 <= b < j && BoundSince(states[j].c, moves, b, j);
    }
  }

  // ---------------------------------------------------------------- which scopes there are

  /** A step of a target at one of its agents, by name. */
  predicate NamesStep(t: Target, agent: string, s: Scope) {
    agent in t.agents && s.agent == agent && s.target == t.id && exists x :: x in Steps(t) && x.id == s.check
  }

  /** Controls know the run, and every agent, target and step of the plan, by the names that lead to it; and nothing else. */
  lemma KnownScopes(targets: seq<Target>, s: Scope)
    ensures s in ScopesOf(targets) <==>
      || s == Scope(RunScope, "", "", "")
      || (s.kind == AgentScope && s.target == "" && s.check == "" && exists t :: t in targets && s.agent in t.agents)
      || (s.kind == TargetScope && s.check == "" && exists t :: t in targets && s.agent in t.agents && t.id == s.target)
      || (s.kind == CheckScope && exists t :: t in targets && NamesStep(t, s.agent, s))
  {
    if s in ScopesOf(targets) {
      ScopeIsKnown(targets, s);
    }
    if t, a :| t in targets && a in t.agents && s in AgentScopes(t, a) {
      assert s in ScopesOf(targets);
    }
    hide Steps, ScopesOf;
    if s.kind == AgentScope && s.target == "" && s.check == "" && exists t :: t in targets && s.agent in t.agents {
      var t :| t in targets && s.agent in t.agents;
      assert s == AgentScopeOf(s.agent) && s in AgentScopes(t, s.agent);
    }
    if s.kind == TargetScope && s.check == "" && exists t :: t in targets && s.agent in t.agents && t.id == s.target {
      var t :| t in targets && s.agent in t.agents && t.id == s.target;
      assert s == TargetScopeOf(s.agent, t.id) && s in AgentScopes(t, s.agent);
    }
    if s.kind == CheckScope && exists t :: t in targets && NamesStep(t, s.agent, s) {
      var t :| t in targets && NamesStep(t, s.agent, s);
      var x :| x in Steps(t) && x.id == s.check;
      assert CheckScopeOf(s.agent, t.id, x.id) == s;
      assert s in StepScopes(t, s.agent) && s in AgentScopes(t, s.agent);
    }
  }

  lemma ScopeIsKnown(targets: seq<Target>, s: Scope)
    requires s in ScopesOf(targets)
    ensures
      || s == Scope(RunScope, "", "", "")
      || (s.kind == AgentScope && s.target == "" && s.check == "" && exists t :: t in targets && s.agent in t.agents)
      || (s.kind == TargetScope && s.check == "" && exists t :: t in targets && s.agent in t.agents && t.id == s.target)
      || (s.kind == CheckScope && exists t :: t in targets && NamesStep(t, s.agent, s))
  {
    hide Steps;
    if s != RUN {
      var t, a :| t in targets && a in t.agents && s in AgentScopes(t, a);
      if s in StepScopes(t, a) {
        var x :| x in Steps(t) && CheckScopeOf(a, t.id, x.id) == s;
        assert NamesStep(t, a, s);
      }
    }
  }

  /** Of the scopes that a request may name, four reach a step: the run, its agent, its target at that agent, and the step itself. */
  lemma ReachedByFour(targets: seq<Target>, s: Scope, agent: string, target: string, check: string)
    requires s in ScopesOf(targets)
    ensures Contains(s, CheckScopeOf(agent, target, check)) <==>
      || s == Scope(RunScope, "", "", "")
      || s == Scope(AgentScope, agent, "", "")
      || s == Scope(TargetScope, agent, target, "")
      || s == Scope(CheckScope, agent, target, check)
  {
    hide ScopesOf, NamesStep;
    ScopeIsKnown(targets, s);
  }
}
