/**
 The command protocol over every interleaving of calls, deliveries, reconnects and cleanups:
 responses reach the call they belong to, and no caller is stranded.
 */
module CommandRuns {
  import opened Outcomes
  import opened CommandServer

  datatype Move =
    | Connects(agent: string, session: string)
    | Calls(agent: string, expected: string, command: string)
    | Enqueues(call: nat)
    | Sends(connection: nat)
    | Takes(call: nat)
    | SeesClosed(call: nat)
    | ContextEnds(call: nat)
    | CancelEnqueued(call: nat)
    | CancelDropped(call: nat)
    | Returns(call: nat)
    | Delivers(connection: nat, command: string, about: nat)
    | CleansUp(connection: nat)
    | Closes(connection: nat)

  predicate HasCall(s: State, i: nat) {
    i < |s.calls| && s.calls[i].connection < |s.connections|
  }

  /** The agent of call `i` was given its command to run. */
  predicate Sent(s: State, i: nat) {
    HasCall(s, i) && RunFrame(i) in s.connections[s.calls[i].connection].sent
  }

  /**
   An agent answers a command that it was sent, on that stream or on a later one of its own,
   early or late, once or more often; a session delivers nothing after its cleanup.
   */
  predicate Enabled(s: State, m: Move) {
    match m
    case Connects(agent, _) => agent in s.conns ==> s.conns[agent] < |s.connections|
    case Calls(_, _, _) => true
    case Enqueues(i) => HasCall(s, i) && s.calls[i].phase.Enqueuing? && |s.connections[s.calls[i].connection].queue| < QUEUE_SIZE
    case Sends(c) => c < |s.connections| && s.connections[c].queue != []
    case Takes(i) => HasCall(s, i) && s.calls[i].phase.Awaiting? && s.calls[i].box.Some?
    case SeesClosed(i) => HasCall(s, i) && (s.calls[i].phase.Enqueuing? || s.calls[i].phase.Awaiting?) && s.connections[s.calls[i].connection].closed
    case ContextEnds(i) => HasCall(s, i) && (s.calls[i].phase.Enqueuing? || s.calls[i].phase.Awaiting?)
    case CancelEnqueued(i) => HasCall(s, i) && s.calls[i].phase.Canceling? && |s.connections[s.calls[i].connection].queue| < QUEUE_SIZE
    case CancelDropped(i) => HasCall(s, i) && s.calls[i].phase.Canceling?
    case Returns(i) => HasCall(s, i) && s.calls[i].phase.Leaving?
    case Delivers(c, command, about) =>
      && c < |s.connections| && !s.connections[c].cleaned
      && Sent(s, about) && s.calls[about].command == command && s.calls[about].agent == s.connections[c].agent
    case CleansUp(c) => c < |s.connections| && !s.connections[c].cleaned
    case Closes(c) => c < |s.connections| && s.connections[c].cleaned
  }

  function Queued(s: State, c: nat, f: Frame): State
    requires c < |s.connections|
  {
    s.(connections := s.connections[c := s.connections[c].(queue := s.connections[c].queue + [f])])
  }

  function SentOne(s: State, c: nat): State
    requires c < |s.connections| && s.connections[c].queue != []
  {
    var from := s.connections[c];
    s.(connections := s.connections[c := from.(queue := from.queue[1..], sent := from.sent + [from.queue[0]])])
  }

  function Do(s: State, m: Move): State
    requires Enabled(s, m)
  {
    match m
    case Connects(agent, session) => Connected(s, agent, session)
    case Calls(agent, expected, command) => if Callable(s, agent, expected, command) then Called(s, agent, expected, command) else s
    case Enqueues(i) => SetPhase(Queued(s, s.calls[i].connection, RunFrame(i)), i, Awaiting)
    case Sends(c) => SentOne(s, c)
    case Takes(i) => s.(calls := s.calls[i := s.calls[i].(box := None, phase := Leaving(Got(s.calls[i].box.value)))])
    case SeesClosed(i) => SetPhase(s, i, Leaving(Disconnected))
    case ContextEnds(i) => SetPhase(s, i, if s.calls[i].phase.Enqueuing? then Leaving(ContextEnded) else Canceling)
    case CancelEnqueued(i) => SetPhase(Queued(s, s.calls[i].connection, CancelFrame(i)), i, Leaving(ContextEnded))
    case CancelDropped(i) => SetPhase(s, i, Leaving(ContextEnded))
    case Returns(i) => Unregistered(s, i)
    case Delivers(c, command, about) => Delivered(s, c, command, about)
    case CleansUp(c) => CleanedUp(s, c)
    case Closes(c) => Closed(s, c)
  }

  // ---------------------------------------------------------------- the invariant

  /** The agents with a connection and those with a description are the same, and the descriptions match. */
  predicate Registry(s: State) {
    && s.conns.Keys == s.infos.Keys
    && forall a :: a in s.conns ==>
         && s.conns[a] < |s.connections|
         && var c := s.connections[s.conns[a]]; c.agent == a && c.session == s.infos[a] && !c.cleaned && !c.closed
  }

  predicate InFlight(p: Phase) {
    !p.Returned?
  }

  /** No waiter refers to a connection that was cleaned up. */
  predicate WaiterOk(s: State, x: string)
    requires x in s.waiters
  {
    var i := s.waiters[x];
    HasCall(s, i) && s.calls[i].command == x && InFlight(s.calls[i].phase) && !s.connections[s.calls[i].connection].cleaned
  }

  /** A call stays with the connection it was registered on, of the session it was pinned to. */
  predicate Pinned(s: State, i: nat)
    requires i < |s.calls|
  {
    && HasCall(s, i)
    && var call := s.calls[i]; var c := s.connections[call.connection];
      c.agent == call.agent && (call.expected != "" ==> c.session == call.expected)
  }

  /** A call in flight is registered, unless its connection was cleaned up; then it has a response. */
  predicate Registered(s: State, i: nat)
    requires i < |s.calls|
  {
    var call := s.calls[i];
    HasCall(s, i) && InFlight(call.phase) ==>
      if s.connections[call.connection].cleaned then call.offered != []
      else call.command in s.waiters && s.waiters[call.command] == i
  }

  /** An answer came from the agent of the call and is about its command id. */
  predicate Answers(s: State, r: Response, i: nat)
    requires i < |s.calls|
  {
    r.FromAgent? ==>
      r.about < |s.calls| && s.calls[r.about].agent == s.calls[i].agent && s.calls[r.about].command == s.calls[i].command
  }

  /** What was offered came from the call's connection and answers its command; the first is what counts. */
  predicate Boxed(s: State, i: nat)
    requires i < |s.calls|
  {
    var call := s.calls[i];
    && (forall r :: r in call.offered ==> r.connection == call.connection && Answers(s, r, i))
    && match call.phase
       case Leaving(result) => result.Got? ==> call.offered != [] && result.response == call.offered[0]
       case Returned(result) => result.Got? ==> call.offered != [] && result.response == call.offered[0]
       case _ => call.box == if call.offered == [] then None else Some(call.offered[0])
  }

  predicate QueueOk(s: State, c: nat)
    requires c < |s.connections|
  {
    && |s.connections[c].queue| <= QUEUE_SIZE
    && forall f :: f in s.connections[c].queue ==> f.call < |s.calls| && s.calls[f.call].connection == c
  }

  predicate WaitersOk(s: State) {
    forall x :: x in s.waiters ==> WaiterOk(s, x)
  }

  /** Moves other than the sections under the mutex touch one call, or one connection. */
  predicate Section(m: Move) {
    m.Connects? || m.Calls? || m.Returns? || m.Delivers? || m.CleansUp?
  }

  /** What every move keeps: identities do not change, positions do not move, and what is closed or cleaned stays so. */
  predicate Grows(s: State, t: State) {
    && |s.connections| <= |t.connections| && |s.calls| <= |t.calls|
    && (forall c {:trigger t.connections[c]} :: 0 <= c < |s.connections| ==>
          var x, y := s.connections[c], t.connections[c];
          x.agent == y.agent && x.session == y.session && (x.closed ==> y.closed) && (x.cleaned ==> y.cleaned))
    && (forall i {:trigger t.calls[i]} :: 0 <= i < |s.calls| ==>
          var x, y := s.calls[i], t.calls[i];
          x.agent == y.agent && x.expected == y.expected && x.command == y.command && x.connection == y.connection)
  }

  lemma LocalMoves(s: State, m: Move)
    requires Enabled(s, m) && !Section(m)
    ensures var t := Do(s, m);
      && Grows(s, t) && t.conns == s.conns && t.infos == s.infos && t.waiters == s.waiters
      && |t.connections| == |s.connections| && |t.calls| == |s.calls|
    ensures forall c :: 0 <= c < |s.connections| ==> Do(s, m).connections[c].cleaned == s.connections[c].cleaned
    ensures forall c :: 0 <= c < |s.connections| && !s.connections[c].cleaned ==> Do(s, m).connections[c].closed == s.connections[c].closed
    ensures forall i :: 0 <= i < |s.calls| ==>
      var x, y := s.calls[i], Do(s, m).calls[i];
      x.offered == y.offered && (InFlight(x.phase) <==> InFlight(y.phase))
  {
    hide Connected, Called, Callable, Unregistered, Delivered, CleanedUp;
  }

  lemma SectionMoves(s: State, m: Move)
    requires Enabled(s, m) && Section(m)
    ensures Grows(s, Do(s, m))
  {
    if m.Connects? {
    } else if m.CleansUp? {
      hide Dropped;
    } else {
      hide Swept, Dropped;
    }
  }

  lemma AllGrows(s: State, m: Move)
    requires Enabled(s, m)
    ensures Grows(s, Do(s, m))
  {
    if Section(m) {
      SectionMoves(s, m);
    } else {
      LocalMoves(s, m);
    }
  }

  // ---------------------------------------------------------------- every move keeps it

  predicate CallOk(s: State, i: nat)
    requires i < |s.calls|
  {
    Pinned(s, i) && Registered(s, i) && Boxed(s, i)
  }

  predicate CallsOk(s: State) {
    forall i {:trigger s.calls[i]} :: 0 <= i < |s.calls| ==> CallOk(s, i)
  }

  predicate QueuesOk(s: State) {
    forall c {:trigger s.connections[c]} :: 0 <= c < |s.connections| ==> QueueOk(s, c)
  }

  predicate Inv(s: State) {
    Registry(s) && WaitersOk(s) && CallsOk(s) && QueuesOk(s)
  }

  lemma ConnectKeeps(s: State, agent: string, session: string)
    requires Inv(s)
    ensures Inv(Connected(s, agent, session))
  {
    ConnectRegistry(s, agent, session);
    ConnectQueues(s, agent, session);
    ConnectCalls(s, agent, session);
    hide Connected, Registry, WaitersOk, CallsOk, QueuesOk;
  }

  lemma ConnectRegistry(s: State, agent: string, session: string)
    requires Registry(s) && WaitersOk(s)
    ensures Registry(Connected(s, agent, session)) && WaitersOk(Connected(s, agent, session))
  {
    hide InFlight;
    var t := Connected(s, agent, session);
    forall x | x in t.waiters
      ensures WaiterOk(t, x)
    {
      assert WaiterOk(s, x);
    }
  }

  lemma ConnectQueues(s: State, agent: string, session: string)
    requires Registry(s) && QueuesOk(s)
    ensures QueuesOk(Connected(s, agent, session))
  {
    var t := Connected(s, agent, session);
    forall c | 0 <= c < |t.connections|
      ensures QueueOk(t, c)
    {
      if c < |s.connections| {
        assert QueueOk(s, c);
      }
    }
  }

  lemma ConnectCalls(s: State, agent: string, session: string)
    requires Registry(s) && CallsOk(s)
    ensures CallsOk(Connected(s, agent, session))
  {
    hide Boxed, InFlight;
    var t := Connected(s, agent, session);
    forall i | 0 <= i < |t.calls|
      ensures CallOk(t, i)
    {
      assert CallOk(s, i);
      assert Boxed(t, i) by { SameBox(s, t, i); }
    }
  }

  /** Boxed speaks of the calls alone. */
  lemma SameBox(s: State, t: State, i: nat)
    requires i < |s.calls| <= |t.calls| && Boxed(s, i) && t.calls[i] == s.calls[i]
    requires forall j :: 0 <= j < |s.calls| ==> t.calls[j].command == s.calls[j].command && t.calls[j].agent == s.calls[j].agent
    ensures Boxed(t, i)
  {
  }

  lemma CallKeeps(s: State, agent: string, expected: string, command: string)
    requires Inv(s) && Callable(s, agent, expected, command)
    ensures Inv(Called(s, agent, expected, command))
  {
    hide Boxed;
    var t := Called(s, agent, expected, command);
    var n := |s.calls|;
    forall i | 0 <= i < |t.calls|
      ensures CallOk(t, i)
    {
      if i < n {
        assert CallOk(s, i);
        SameBox(s, t, i);
      } else {
        assert Boxed(t, n) by { NewBox(t, n); }
      }
    }
    forall x | x in t.waiters
      ensures WaiterOk(t, x)
    {
      if x != command {
        assert WaiterOk(s, x);
      }
    }
    forall c | 0 <= c < |t.connections|
      ensures QueueOk(t, c)
    {
      assert QueueOk(s, c);
    }
  }

  lemma NewBox(s: State, i: nat)
    requires i < |s.calls| && s.calls[i].offered == [] && s.calls[i].box == None && s.calls[i].phase == Enqueuing
    ensures Boxed(s, i)
  {
  }

  lemma ReturnKeeps(s: State, i: nat)
    requires Inv(s) && i < |s.calls| && s.calls[i].phase.Leaving?
    ensures Inv(Unregistered(s, i))
  {
    hide Boxed, CallOk;
    var t := Unregistered(s, i);
    forall j | 0 <= j < |t.calls|
      ensures CallOk(t, j)
    {
      var was := s.calls[j];
      ReturnCall(s, i, j);
    }
    forall x | x in t.waiters
      ensures WaiterOk(t, x)
    {
      assert WaiterOk(s, x);
    }
    forall c | 0 <= c < |t.connections|
      ensures QueueOk(t, c)
    {
      assert QueueOk(s, c);
    }
  }

  lemma ReturnCall(s: State, i: nat, j: nat)
    requires i < |s.calls| && s.calls[i].phase.Leaving? && j < |s.calls| && CallOk(s, j)
    ensures CallOk(Unregistered(s, i), j)
  {
    hide Boxed;
    var t := Unregistered(s, i);
    if j == i {
      ReturnBox(s, t, i);
    } else {
      SameBox(s, t, j);
    }
  }

  lemma ReturnBox(s: State, t: State, i: nat)
    requires i < |s.calls| && s.calls[i].phase.Leaving? && Boxed(s, i) && t == Unregistered(s, i)
    ensures Boxed(t, i)
  {
  }

  lemma DeliverKeeps(s: State, c: nat, command: string, about: nat)
    requires Inv(s) && c < |s.connections| && about < |s.calls|
    requires s.calls[about].command == command && s.calls[about].agent == s.connections[c].agent
    ensures Inv(Delivered(s, c, command, about))
  {
    hide Boxed, Offer;
    if Routes(s, c, command) {
      var i := s.waiters[command];
      var t := Delivered(s, c, command, about);
      OfferKeepsCall(s.calls[i], FromAgent(c, about));
      forall j | 0 <= j < |t.calls|
        ensures CallOk(t, j)
      {
        assert CallOk(s, j);
        if j == i {
          OfferBox(s, t, i, FromAgent(c, about));
        } else {
          SameBox(s, t, j);
        }
      }
      forall x | x in t.waiters
        ensures WaiterOk(t, x)
      {
        assert WaiterOk(s, x);
      }
      forall d | 0 <= d < |t.connections|
        ensures QueueOk(t, d)
      {
        assert QueueOk(s, d);
      }
    }
  }

  lemma OfferKeepsCall(call: Call, r: Response)
    ensures var d := Offer(call, r);
      && d.agent == call.agent && d.expected == call.expected && d.command == call.command && d.connection == call.connection
      && d.phase == call.phase && d.offered == call.offered + [r]
  {
  }

  lemma OfferBox(s: State, t: State, i: nat, r: Response)
    requires i < |s.calls| == |t.calls| && Boxed(s, i) && t.calls[i] == Offer(s.calls[i], r)
    requires forall j :: 0 <= j < |s.calls| ==> t.calls[j].command == s.calls[j].command && t.calls[j].agent == s.calls[j].agent
    requires r.connection == s.calls[i].connection && Answers(s, r, i)
    ensures Boxed(t, i)
  {
  }

  lemma CleanKeeps(s: State, c: nat)
    requires Inv(s) && c < |s.connections|
    ensures Inv(CleanedUp(s, c))
  {
    CleanRegistry(s, c);
    CleanWaiters(s, c);
    var t := CleanedUp(s, c);
    forall j | 0 <= j < |t.calls|
      ensures CallOk(t, j)
    {
      CleanCall(s, c, j);
    }
    hide CleanedUp, Registry, WaitersOk, QueuesOk, CallOk;
    assert CallsOk(t);
  }

  lemma CleanRegistry(s: State, c: nat)
    requires Registry(s) && QueuesOk(s) && c < |s.connections|
    ensures Registry(CleanedUp(s, c)) && QueuesOk(CleanedUp(s, c))
  {
    hide Dropped, Offer;
    var t := CleanedUp(s, c);
    forall j | 0 <= j < |s.calls|
      ensures t.calls[j].connection == s.calls[j].connection
    {
      OfferKeepsCall(s.calls[j], Disconnect(c));
    }
    forall d | 0 <= d < |t.connections|
      ensures QueueOk(t, d)
    {
      assert QueueOk(s, d);
    }
  }

  lemma CleanWaiters(s: State, c: nat)
    requires WaitersOk(s) && c < |s.connections|
    ensures WaitersOk(CleanedUp(s, c))
  {
    hide Offer;
    var t := CleanedUp(s, c);
    forall x | x in t.waiters
      ensures WaiterOk(t, x)
    {
      assert WaiterOk(s, x);
      OfferKeepsCall(s.calls[s.waiters[x]], Disconnect(c));
    }
  }

  lemma CleanCall(s: State, c: nat, j: nat)
    requires WaitersOk(s) && CallsOk(s) && c < |s.connections| && j < |s.calls|
    ensures CallOk(CleanedUp(s, c), j)
  {
    hide Offer, Boxed, WaitersOk;
    var t := CleanedUp(s, c);
    assert CallOk(s, j);
    forall k | 0 <= k < |s.calls|
      ensures t.calls[k].command == s.calls[k].command && t.calls[k].agent == s.calls[k].agent
    {
      OfferKeepsCall(s.calls[k], Disconnect(c));
    }
    OfferKeepsCall(s.calls[j], Disconnect(c));
    if t.calls[j] == s.calls[j] {
      SameBox(s, t, j);
    } else {
      OfferBox(s, t, j, Disconnect(c));
    }
  }

  // ---------------------------------------------------------------- moves outside the mutex

  lemma LocalCall(s: State, m: Move, i: nat)
    requires Enabled(s, m) && !Section(m) && i < |s.calls| && CallOk(s, i)
    ensures CallOk(Do(s, m), i)
  {
    LocalMoves(s, m);
    LocalBox(s, m, i);
    hide Do, Enabled, Boxed;
  }

  lemma LocalBox(s: State, m: Move, i: nat)
    requires Enabled(s, m) && !Section(m) && i < |s.calls| && Boxed(s, i)
    ensures Boxed(Do(s, m), i)
  {
  }

  lemma LocalRest(s: State, m: Move)
    requires Enabled(s, m) && !Section(m) && Registry(s) && WaitersOk(s)
    ensures Registry(Do(s, m)) && WaitersOk(Do(s, m))
  {
    LocalMoves(s, m);
    hide Do, Enabled, InFlight;
    forall x | x in Do(s, m).waiters
      ensures WaiterOk(Do(s, m), x)
    {
      assert WaiterOk(s, x);
    }
  }

  lemma LocalQueue(s: State, m: Move, c: nat)
    requires Enabled(s, m) && !Section(m) && c < |s.connections| && QueueOk(s, c)
    ensures c < |Do(s, m).connections| && QueueOk(Do(s, m), c)
  {
  }

  lemma LocalKeeps(s: State, m: Move)
    requires Enabled(s, m) && !Section(m) && Inv(s)
    ensures Inv(Do(s, m))
  {
    LocalMoves(s, m);
    LocalRest(s, m);
    hide Do, Enabled, Registry, WaitersOk, CallOk, QueueOk, Grows, Section;
    forall i | 0 <= i < |Do(s, m).calls|
      ensures CallOk(Do(s, m), i)
    {
      assert CallOk(s, i);
      LocalCall(s, m, i);
    }
    forall c | 0 <= c < |Do(s, m).connections|
      ensures QueueOk(Do(s, m), c)
    {
      assert QueueOk(s, c);
      LocalQueue(s, m, c);
    }
  }

  /** Every move of every party keeps the invariant. */
  lemma Preserved(s: State, m: Move)
    requires Enabled(s, m) && Inv(s)
    ensures Inv(Do(s, m))
  {
    hide Inv, Connected, Called, Unregistered, Delivered, CleanedUp, Callable;
    match m
    case Connects(agent, session) => ConnectKeeps(s, agent, session);
    case Calls(agent, expected, command) =>
      if Callable(s, agent, expected, command) {
        CallKeeps(s, agent, expected, command);
      }
    case Returns(i) => ReturnKeeps(s, i);
    case Delivers(c, command, about) => DeliverKeeps(s, c, command, about);
    case CleansUp(c) => CleanKeeps(s, c);
    case _ => LocalKeeps(s, m);
  }

  // ---------------------------------------------------------------- runs

  predicate Behavior(states: seq<State>, moves: seq<Move>) {
    && |states| == |moves| + 1 && states[0] == EMPTY
    && forall i :: 0 <= i < |moves| ==> Enabled(states[i], moves[i]) && states[i + 1] == Do(states[i], moves[i])
  }

  lemma {:induction false} Reachable(states: seq<State>, moves: seq<Move>, k: nat)
    requires Behavior(states, moves) && k < |states|
    ensures Inv(states[k])
  {
    hide Inv, Do, Enabled;
    if k == 0 {
      EmptyInv();
    } else {
      Reachable(states, moves, k - 1);
      Preserved(states[k - 1], moves[k - 1]);
    }
  }

  lemma EmptyInv()
    ensures Inv(EMPTY)
  {
  }

  // ---------------------------------------------------------------- registry and ownership

  predicate OfItsSession(s: State, i: nat)
    requires i < |s.calls|
  {
    HasCall(s, i) && (s.calls[i].expected != "" ==> s.connections[s.calls[i].connection].session == s.calls[i].expected)
  }

  /**
   At every moment the connected agents are those described, each by the session of its
   connection; every waiter belongs to a call in flight whose connection was not cleaned up;
   and a pinned call is on a connection of its own session, on whose queue alone its frames are.
   */
  lemma RegistryAgrees(states: seq<State>, moves: seq<Move>, k: nat)
    requires Behavior(states, moves) && k < |states|
    ensures var s := states[k];
      && s.conns.Keys == s.infos.Keys
      && (forall a :: a in s.conns ==> s.conns[a] < |s.connections| && s.infos[a] == s.connections[s.conns[a]].session)
      && (forall x :: x in s.waiters ==> HasCall(s, s.waiters[x]) && !s.connections[s.calls[s.waiters[x]].connection].cleaned)
      && (forall i :: 0 <= i < |s.calls| ==> OfItsSession(s, i))
      && (forall c, f :: 0 <= c < |s.connections| && f in s.connections[c].queue ==> f.call < |s.calls| && s.calls[f.call].connection == c)
  {
    hide Behavior, Registered, Boxed, InFlight;
    Reachable(states, moves, k);
    var s := states[k];
    forall x | x in s.waiters
      ensures HasCall(s, s.waiters[x]) && !s.connections[s.calls[s.waiters[x]].connection].cleaned
    {
      assert WaiterOk(s, x);
    }
    forall i | 0 <= i < |s.calls|
      ensures OfItsSession(s, i)
    {
      assert CallOk(s, i);
    }
    forall c, f | 0 <= c < |s.connections| && f in s.connections[c].queue
      ensures f.call < |s.calls| && s.calls[f.call].connection == c
    {
      assert QueueOk(s, c);
    }
  }

  /** A connection that is neither closed nor cleaned up is the current one of its agent. */
  predicate OneAtATime(s: State) {
    forall c :: 0 <= c < |s.connections| ==> s.connections[c].closed || s.connections[c].cleaned || Current(s, c)
  }

  lemma ConnectingStep(s: State, agent: string, session: string)
    requires OneAtATime(s) && Registry(s)
    ensures OneAtATime(Connected(s, agent, session))
  {
    var t := Connected(s, agent, session);
    forall c | 0 <= c < |t.connections|
      ensures t.connections[c].closed || t.connections[c].cleaned || Current(t, c)
    {
      if c < |s.connections| {
        assert s.connections[c].closed || s.connections[c].cleaned || Current(s, c);
      }
    }
  }

  lemma OthersStep(s: State, m: Move)
    requires OneAtATime(s) && Enabled(s, m) && !m.Connects?
    ensures OneAtATime(Do(s, m))
  {
    hide Swept, Dropped, Offer, Routes;
    var t := Do(s, m);
    assert |t.connections| == |s.connections|;
    forall c | 0 <= c < |t.connections|
      ensures t.connections[c].closed || t.connections[c].cleaned || Current(t, c)
    {
      assert s.connections[c].closed || s.connections[c].cleaned || Current(s, c);
    }
  }

  /** So at every moment an agent has one stream that serves calls: a new one closes the one before. */
  lemma {:induction false} OneStreamPerAgent(states: seq<State>, moves: seq<Move>, k: nat)
    requires Behavior(states, moves) && k < |states|
    ensures OneAtATime(states[k])
  {
    if k > 0 {
      hide OneAtATime, Do, Enabled, Registered, Boxed;
      OneStreamPerAgent(states, moves, k - 1);
      Reachable(states, moves, k - 1);
      var m := moves[k - 1];
      assert Enabled(states[k - 1], m) && states[k] == Do(states[k - 1], m);
      if m.Connects? {
        ConnectingStep(states[k - 1], m.agent, m.session);
        assert Do(states[k - 1], m) == Connected(states[k - 1], m.agent, m.session) by { ConnectingIs(states[k - 1], m); }
      } else {
        OthersStep(states[k - 1], m);
      }
    } else {
      NoStreams();
    }
  }

  lemma ConnectingIs(s: State, m: Move)
    requires Enabled(s, m) && m.Connects?
    ensures Do(s, m) == Connected(s, m.agent, m.session)
  {
  }

  lemma NoStreams()
    ensures OneAtATime(EMPTY)
  {
  }

  predicate QueuesBounded(s: State) {
    forall c :: 0 <= c < |s.connections| ==> |s.connections[c].queue| <= 16
  }

  lemma BoundedStep(s: State, m: Move)
    requires QueuesBounded(s) && Enabled(s, m)
    ensures QueuesBounded(Do(s, m))
  {
    hide Swept, Dropped, Offer, Routes;
    var t := Do(s, m);
    forall c | 0 <= c < |t.connections|
      ensures |t.connections[c].queue| <= 16
    {
      assert c < |s.connections| ==> |s.connections[c].queue| <= 16;
    }
  }

  /** No stream ever has more than 16 frames queued. */
  lemma {:induction false} QueuesStayBounded(states: seq<State>, moves: seq<Move>, k: nat)
    requires Behavior(states, moves) && k < |states|
    ensures QueuesBounded(states[k])
  {
    if k > 0 {
      hide QueuesBounded, Do, Enabled;
      QueuesStayBounded(states, moves, k - 1);
      BoundedStep(states[k - 1], moves[k - 1]);
    }
  }

  /**
   At every moment every call in flight on a connection that was not cleaned up holds the
   waiter of its own command id, so an answer can find it, whatever other callers did before.
   */
  lemma InFlightIsRegistered(states: seq<State>, moves: seq<Move>, k: nat, i: nat)
    requires Behavior(states, moves) && k < |states| && i < |states[k].calls| && InFlight(states[k].calls[i].phase)
    ensures var s := states[k];
      && HasCall(s, i)
      && (!s.connections[s.calls[i].connection].cleaned ==> s.calls[i].command in s.waiters && s.waiters[s.calls[i].command] == i)
  {
    hide Behavior, Registry, WaitersOk, QueuesOk, Boxed;
    Reachable(states, moves, k);
    assert CallOk(states[k], i);
  }

  /** So no caller that returns takes the waiter of another call in flight, though it used the same command id. */
  lemma ReturnSparesOthers(states: seq<State>, moves: seq<Move>, k: nat, i: nat, j: nat)
    requires Behavior(states, moves) && k < |moves| && moves[k] == Returns(i)
    requires j != i && j < |states[k].calls| && InFlight(states[k].calls[j].phase)
    requires HasCall(states[k], j) && !states[k].connections[states[k].calls[j].connection].cleaned
    ensures var t := states[k + 1]; var command := states[k].calls[j].command;
      j < |t.calls| && InFlight(t.calls[j].phase) && command in t.waiters && t.waiters[command] == j
  {
    InFlightIsRegistered(states, moves, k, j);
    assert Enabled(states[k], Returns(i)) && states[k + 1] == Do(states[k], Returns(i));
  }

  /** Who may leave when its connection ended: at once, or as soon as the cleanup that is under way closes the connection. */
  predicate MayLeave(s: State, i: nat) {
    || Enabled(s, SeesClosed(i)) || Enabled(s, Takes(i))
    || (HasCall(s, i) && s.calls[i].phase.Enqueuing? && Enabled(s, Closes(s.calls[i].connection)))
    || Enabled(s, CancelDropped(i)) || Enabled(s, Returns(i))
  }

  /** The connection of a call was superseded or cleaned up. */
  predicate Severed(s: State, i: nat)
    requires i < |s.calls|
  {
    HasCall(s, i) && (s.connections[s.calls[i].connection].closed || s.connections[s.calls[i].connection].cleaned)
  }

  /** No caller is stranded: once its connection was superseded or cleaned up, a call in flight has an enabled exit. */
  lemma NobodyStranded(states: seq<State>, moves: seq<Move>, k: nat, i: nat)
    requires Behavior(states, moves) && k < |states| && i < |states[k].calls| && InFlight(states[k].calls[i].phase)
    requires Severed(states[k], i)
    ensures MayLeave(states[k], i)
  {
    hide Behavior, Registry, WaitersOk, QueuesOk;
    Reachable(states, moves, k);
    var s := states[k];
    assert CallOk(s, i);
  }

  // ---------------------------------------------------------------- supersession

  lemma CurrentStep(s: State, m: Move, c: nat)
    requires Enabled(s, m) && Inv(s) && c < |s.connections| && !Current(s, c)
    ensures c < |Do(s, m).connections| && !Current(Do(s, m), c)
  {
    hide Swept, Dropped, Boxed, Registered, Pinned, QueuesOk, WaitersOk, CallsOk;
    AllGrows(s, m);
  }

  /** A stream that was superseded or cleaned up is never current again. */
  lemma {:induction false} NeverCurrentAgain(states: seq<State>, moves: seq<Move>, j: nat, k: nat, c: nat)
    requires Behavior(states, moves) && j <= k < |states| && c < |states[j].connections| && !Current(states[j], c)
    ensures c < |states[k].connections| && !Current(states[k], c)
    decreases k
  {
    hide Do, Enabled, Current, Inv;
    if j < k {
      NeverCurrentAgain(states, moves, j, k - 1, c);
      Reachable(states, moves, k - 1);
      CurrentStep(states[k - 1], moves[k - 1], c);
    }
  }

  /** A superseded stream delivers nothing, then or ever after. */
  lemma SupersededDeliversNothing(states: seq<State>, moves: seq<Move>, j: nat, k: nat, c: nat)
    requires Behavior(states, moves) && j <= k < |moves| && c < |states[j].connections| && !Current(states[j], c)
    requires moves[k].Delivers? && moves[k].connection == c
    ensures states[k + 1] == states[k]
  {
    hide Current, Inv;
    NeverCurrentAgain(states, moves, j, k, c);
    assert states[k + 1] == Do(states[k], moves[k]);
  }

  // ---------------------------------------------------------------- routing

  /** Move `m` offered response `r` to call `i`: the session of its connection delivered it while current, or was cleaned up. */
  predicate Offers(s: State, m: Move, i: nat, r: Response) {
    match r
    case FromAgent(c, about) =>
      && m.Delivers? && m.connection == c && m.about == about
      && c < |s.connections| && Current(s, c)
      && m.command in s.waiters && s.waiters[m.command] == i
    case Disconnect(c) => m == CleansUp(c)
  }

  lemma OfferStep(s: State, m: Move, i: nat)
    requires Enabled(s, m) && i < |Do(s, m).calls|
    ensures i < |s.calls| ==> s.calls[i].offered <= Do(s, m).calls[i].offered
    ensures i >= |s.calls| ==> Do(s, m).calls[i].offered == []
    ensures i < |s.calls| && Do(s, m).calls[i].offered != s.calls[i].offered ==>
      var after := Do(s, m).calls[i].offered;
      && |after| == |s.calls[i].offered| + 1 && Offers(s, m, i, after[|after| - 1])
  {
    if !Section(m) {
      LocalMoves(s, m);
    } else {
      hide Dropped;
    }
  }

  /** Every response offered to a call was offered by a move of the run. */
  lemma {:induction false} OfferedSince(states: seq<State>, moves: seq<Move>, k: nat, i: nat, n: nat)
    returns (j: nat)
    requires Behavior(states, moves) && k < |states| && i < |states[k].calls| && n < |states[k].calls[i].offered|
    ensures j < k && Offers(states[j], moves[j], i, states[k].calls[i].offered[n])
    ensures i < |states[j].calls| && |states[j].calls[i].offered| == n
  {
    hide Do, Enabled, Offers;
    if k == 0 {
      assert false;
    } else {
      var s, m := states[k - 1], moves[k - 1];
      OfferStep(s, m, i);
      if i < |s.calls| && n < |s.calls[i].offered| {
        j := OfferedSince(states, moves, k - 1, i, n);
      } else {
        j := k - 1;
      }
    }
  }

  lemma OfferWasSent(states: seq<State>, moves: seq<Move>, j: nat, i: nat, r: Response)
    requires Behavior(states, moves) && j + 1 < |states| && Offers(states[j], moves[j], i, r) && r.FromAgent?
    ensures Sent(states[j], r.about)
  {
    hide Sent, Do;
    assert Enabled(states[j], moves[j]);
  }

  /**
   A response that arrives in time is not lost: an answer that an agent's current stream delivers for
   a call in flight on it is put to that call, and if it is the first the call can take it.
   */
  lemma AnswerReachesCall(states: seq<State>, moves: seq<Move>, k: nat, i: nat)
    requires Behavior(states, moves) && k < |moves| && i < |states[k].calls| && InFlight(states[k].calls[i].phase)
    requires HasCall(states[k], i) && Current(states[k], states[k].calls[i].connection)
    requires moves[k].Delivers? && moves[k].connection == states[k].calls[i].connection && moves[k].command == states[k].calls[i].command
    ensures var x, y := states[k].calls[i], states[k + 1].calls[i];
      && y.offered == x.offered + [FromAgent(moves[k].connection, moves[k].about)] && y.phase == x.phase
      && (x.offered == [] && y.phase == Awaiting ==> y.box == Some(y.offered[0]) && Enabled(states[k + 1], Takes(i)))
  {
    hide Registry, WaitersOk, QueuesOk, Sent;
    Reachable(states, moves, k);
    assert CallOk(states[k], i);
    assert Enabled(states[k], moves[k]) && states[k + 1] == Do(states[k], moves[k]);
    assert Routes(states[k], moves[k].connection, moves[k].command);
  }

  /**
   Responses are routed correctly: a call that got a response got the first that was offered
   to it; and that came from the connection the call was registered on, delivered for its
   command while the connection was current and by the agent that had been sent a command
   with its id, or put there by the connection's cleanup.
   */
  lemma ResponsesRouted(states: seq<State>, moves: seq<Move>, k: nat, i: nat)
    returns (j: nat)
    requires Behavior(states, moves) && k < |states| && i < |states[k].calls|
    requires match states[k].calls[i].phase
      case Leaving(result) => result.Got?
      case Returned(result) => result.Got?
      case _ => false
    ensures var call := states[k].calls[i]; var r := call.phase.result.response;
      && r.connection == call.connection
      && j < k && i < |states[j].calls| && states[j].calls[i].offered == [] && Offers(states[j], moves[j], i, r)
      && Answers(states[k], r, i) && (r.FromAgent? ==> Sent(states[j], r.about))
  {
    hide Behavior, Registry, WaitersOk, QueuesOk, Offers, Pinned, Registered;
    Reachable(states, moves, k);
    var call := states[k].calls[i];
    assert CallOk(states[k], i);
    assert call.offered[0] in call.offered;
    j := OfferedSince(states, moves, k, i, 0);
    if call.offered[0].FromAgent? {
      OfferWasSent(states, moves, j, i, call.offered[0]);
    }
  }

  lemma ReturnedStays(s: State, m: Move, i: nat, result: CallResult)
    requires Enabled(s, m) && i < |s.calls| && (s.calls[i].phase == Leaving(result) || s.calls[i].phase == Returned(result))
    ensures i < |Do(s, m).calls| && (Do(s, m).calls[i].phase == Leaving(result) || Do(s, m).calls[i].phase == Returned(result))
    ensures m != Takes(i)
  {
    hide Dropped;
  }

  /** A call consumes at most one response: after taking one it takes no other. */
  lemma {:induction false} TakesOnce(states: seq<State>, moves: seq<Move>, j: nat, k: nat, i: nat)
    requires Behavior(states, moves) && j < k < |moves| && moves[j] == Takes(i)
    ensures moves[k] != Takes(i)
  {
    hide Do, Enabled;
    var result := TakenStays(states, moves, j, k, i);
    ReturnedStays(states[k], moves[k], i, result);
  }

  lemma {:induction false} TakenStays(states: seq<State>, moves: seq<Move>, j: nat, k: nat, i: nat)
    returns (result: CallResult)
    requires Behavior(states, moves) && j < k < |states| && moves[j] == Takes(i)
    ensures i < |states[k].calls| && (states[k].calls[i].phase == Leaving(result) || states[k].calls[i].phase == Returned(result))
    decreases k
  {
    if k == j + 1 {
      assert Enabled(states[j], Takes(i)) && states[k] == Do(states[j], Takes(i));
      result := states[k].calls[i].phase.result;
    } else {
      hide Do, Enabled;
      result := TakenStays(states, moves, j, k - 1, i);
      ReturnedStays(states[k - 1], moves[k - 1], i, result);
    }
  }
}
