/**
 The controller's command server (control/server.go, command.go, session.go).  Connections and
 calls are named by their position of arrival; each step is one section under the server's
 mutex or one channel operation.
 */
module CommandServer {
  import opened Outcomes

  /** A frame queued for an agent: a command to run, or the best-effort cancellation of one. */
  datatype Frame = RunFrame(call: nat) | CancelFrame(call: nat)

  /** `about`: the call whose command the agent answers. */
  datatype Response = FromAgent(connection: nat, about: nat) | Disconnect(connection: nat)

  datatype CallResult = Got(response: Response) | Disconnected | ContextEnded

  /** Where a caller stands: its two selects, the cancellation it sends, its deferred section, and its return. */
  datatype Phase = Enqueuing | Awaiting | Canceling | Leaving(result: CallResult) | Returned(result: CallResult)

  /**
   `closed`: the done channel is closed.  `cleaned`: the deferred section of its session has
   run.  `queue` is the send channel, and `sent` remembers the frames its stream was given.
   */
  datatype Connection = Connection(agent: string, session: string, closed: bool, cleaned: bool, queue: seq<Frame>, sent: seq<Frame>)

  /** `box` is the response channel, which holds one response; `offered` remembers all that were put to it. */
  datatype Call = Call(agent: string, expected: string, command: string, connection: nat, phase: Phase,
                       box: Option<Response>, offered: seq<Response>)

  datatype State = State(
    connections: seq<Connection>, calls: seq<Call>,
    conns: map<string, nat>, infos: map<string, string>, waiters: map<string, nat>)

  const QUEUE_SIZE := 16

  const EMPTY := State([], [], map[], map[], map[])

  predicate Current(s: State, c: nat)
    requires c < |s.connections|
  {
    var agent := s.connections[c].agent;
    agent in s.conns && s.conns[agent] == c
  }

  function Offer(call: Call, r: Response): Call {
    call.(offered := call.offered + [r], box := if call.box.None? then Some(r) else call.box)
  }

  function SetPhase(s: State, i: nat, phase: Phase): State
    requires i < |s.calls|
  {
    s.(calls := s.calls[i := s.calls[i].(phase := phase)])
  }

  function Closed(s: State, c: nat): State
    requires c < |s.connections|
  {
    s.(connections := s.connections[c := s.connections[c].(closed := true)])
  }

  // ---------------------------------------------------------------- sections under the mutex

  /** A new session supersedes the current one of the same agent. */
  function Connected(s: State, agent: string, session: string): State
    requires agent in s.conns ==> s.conns[agent] < |s.connections|
  {
    var s := if agent in s.conns then Closed(s, s.conns[agent]) else s;
    s.(connections := s.connections + [Connection(agent, session, false, false, [], [])],
       conns := s.conns[agent := |s.connections|], infos := s.infos[agent := session])
  }

  predicate Callable(s: State, agent: string, expected: string, command: string) {
    && agent in s.conns && s.conns[agent] < |s.connections|
    && (expected != "" ==> s.connections[s.conns[agent]].session == expected)
    && command !in s.waiters
  }

  function Called(s: State, agent: string, expected: string, command: string): State
    requires Callable(s, agent, expected, command)
  {
    s.(calls := s.calls + [Call(agent, expected, command, s.conns[agent], Enqueuing, None, [])],
       waiters := s.waiters[command := |s.calls|])
  }

  /** A caller returns and removes its own waiter, whoever holds its command id by then. */
  function Unregistered(s: State, i: nat): State
    requires i < |s.calls| && s.calls[i].phase.Leaving?
  {
    var command := s.calls[i].command;
    var t := SetPhase(s, i, Returned(s.calls[i].phase.result));
    if command in s.waiters && s.waiters[command] == i then t.(waiters := s.waiters - {command}) else t
  }

  predicate Routes(s: State, c: nat, command: string)
    requires c < |s.connections|
  {
    && command in s.waiters && s.waiters[command] < |s.calls|
    && s.calls[s.waiters[command]].connection == c && Current(s, c)
  }

  function Delivered(s: State, c: nat, command: string, about: nat): State
    requires c < |s.connections|
  {
    if Routes(s, c, command) then
      var i := s.waiters[command];
      s.(calls := s.calls[i := Offer(s.calls[i], FromAgent(c, about))])
    else s
  }

  /** The waiters of a connection, among some commands, get its disconnect error ... */
  function Swept(calls: seq<Call>, waiters: map<string, nat>, c: nat, commands: set<string>): (swept: seq<Call>)
    ensures |swept| == |calls|
  {
    seq(|calls|, i requires 0 <= i < |calls| =>
      var call := calls[i];
      if call.command in commands && call.command in waiters && waiters[call.command] == i && call.connection == c
      then Offer(call, Disconnect(c)) else call)
  }

  /** ... and are removed. */
  function Dropped(calls: seq<Call>, waiters: map<string, nat>, c: nat, commands: set<string>): map<string, nat> {
    map x | x in waiters && !(x in commands && waiters[x] < |calls| && calls[waiters[x]].connection == c) :: waiters[x]
  }

  function CleanedUp(s: State, c: nat): State
    requires c < |s.connections|
  {
    var agent := s.connections[c].agent;
    var current := Current(s, c);
    s.(connections := s.connections[c := s.connections[c].(cleaned := true)],
       conns := if current then s.conns - {agent} else s.conns,
       infos := if current then s.infos - {agent} else s.infos,
       calls := Swept(s.calls, s.waiters, c, s.waiters.Keys), waiters := Dropped(s.calls, s.waiters, c, s.waiters.Keys))
  }

  lemma SweepMore(calls: seq<Call>, waiters: map<string, nat>, c: nat, done: set<string>, x: string)
    requires forall y :: y in waiters ==> waiters[y] < |calls| && calls[waiters[y]].command == y
    requires x in waiters && x !in done
    ensures Swept(calls, waiters, c, done)[waiters[x]] == calls[waiters[x]]
    ensures
      var i := waiters[x];
      if calls[i].connection == c
      then
        && Swept(calls, waiters, c, done + {x}) == Swept(calls, waiters, c, done)[i := Offer(calls[i], Disconnect(c))]
        && Dropped(calls, waiters, c, done + {x}) == Dropped(calls, waiters, c, done) - {x}
      else
        && Swept(calls, waiters, c, done + {x}) == Swept(calls, waiters, c, done)
        && Dropped(calls, waiters, c, done + {x}) == Dropped(calls, waiters, c, done)
  {
    hide Offer;
  }

  lemma SweepNone(calls: seq<Call>, waiters: map<string, nat>, c: nat)
    ensures Swept(calls, waiters, c, {}) == calls && Dropped(calls, waiters, c, {}) == waiters
  {
  }

  lemma SweptValid(calls: seq<Call>, waiters: map<string, nat>, c: nat)
    requires forall y :: y in waiters ==> waiters[y] < |calls| && calls[waiters[y]].command == y
    ensures
      var after, kept := Swept(calls, waiters, c, waiters.Keys), Dropped(calls, waiters, c, waiters.Keys);
      forall x :: x in kept ==> kept[x] < |after| && after[kept[x]].command == x
  {
  }

  // ---------------------------------------------------------------- the object

  class Server {
    var connections: seq<Connection>
    var calls: seq<Call>
    var conns: map<string, nat>
    var infos: map<string, string>
    var waiters: map<string, nat>

    ghost function Now(): State
      reads this
    {
      State(connections, calls, conns, infos, waiters)
    }

    /** Every index in the maps names a connection or a call, and a waiter bears its command. */
    ghost predicate Valid()
      reads this
    {
      && (forall a :: a in conns ==> conns[a] < |connections|)
      && (forall x :: x in waiters ==> waiters[x] < |calls| && calls[waiters[x]].command == x)
    }

    constructor ()
      ensures Valid() && Now() == EMPTY
    {
      connections, calls, conns, infos, waiters := [], [], map[], map[], map[];
    }

    method Connect(agent: string, session: string) returns (c: nat)
      requires Valid()
      modifies `connections, `conns, `infos
      ensures Valid() && Now() == Connected(old(Now()), agent, session) && c == |old(connections)|
    {
      if agent in conns {
        var previous := conns[agent];
        connections := connections[previous := connections[previous].(closed := true)];
      }
      c := |connections|;
      connections := connections + [Connection(agent, session, false, false, [], [])];
      conns, infos := conns[agent := c], infos[agent := session];
    }

    method Begin(agent: string, expected: string, command: string) returns (call: Option<nat>)
      requires Valid()
      modifies `calls, `waiters
      ensures Valid()
      ensures call.Some? <==> Callable(old(Now()), agent, expected, command)
      ensures Now() == if call.Some? then Called(old(Now()), agent, expected, command) else old(Now())
      ensures call.Some? ==> call.value == |old(calls)|
    {
      if agent !in conns {
        return None;
      }
      var c := conns[agent];
      if expected != "" && connections[c].session != expected {
        return None;
      }
      if command in waiters {
        return None;
      }
      call := Some(|calls|);
      waiters := waiters[command := |calls|];
      calls := calls + [Call(agent, expected, command, c, Enqueuing, None, [])];
    }

    method Return(i: nat)
      requires Valid() && i < |calls| && calls[i].phase.Leaving?
      modifies `calls, `waiters
      ensures Valid() && Now() == Unregistered(old(Now()), i)
    {
      var command := calls[i].command;
      if command in waiters && waiters[command] == i {
        waiters := waiters - {command};
      }
      calls := calls[i := calls[i].(phase := Returned(calls[i].phase.result))];
    }

    method Deliver(c: nat, command: string, about: nat)
      requires Valid() && c < |connections|
      modifies `calls
      ensures Valid() && Now() == Delivered(old(Now()), c, command, about)
    {
      if command !in waiters || calls[waiters[command]].connection != c {
        return;
      }
      var agent := connections[c].agent;
      if agent !in conns || conns[agent] != c {
        return;
      }
      var i := waiters[command];
      var call := calls[i].(offered := calls[i].offered + [FromAgent(c, about)]);
      if call.box.None? {
        call := call.(box := Some(FromAgent(c, about)));
      }
      calls := calls[i := call];
    }

    /** Every waiter of a connection leaves with its disconnect error. */
    method Sweep(c: nat)
      requires Valid()
      modifies `calls, `waiters
      ensures Valid()
      ensures calls == Swept(old(calls), old(waiters), c, old(waiters).Keys)
      ensures waiters == Dropped(old(calls), old(waiters), c, old(waiters).Keys)
    {
      hide Swept, Dropped, Offer;
      ghost var before := calls;
      var registered := waiters;
      var left := registered.Keys;
      SweepNone(before, registered, c);
      assert registered.Keys - left == {};
      while left != {}
        invariant left <= registered.Keys && |calls| == |before|
        invariant calls == Swept(before, registered, c, registered.Keys - left)
        invariant waiters == Dropped(before, registered, c, registered.Keys - left)
        decreases |left|
      {
        var x: string :| x in left;
        SweepMore(before, registered, c, registered.Keys - left, x);
        assert registered.Keys - (left - {x}) == registered.Keys - left + {x};
        left := left - {x};
        var i := registered[x];
        if calls[i].connection == c {
          waiters := waiters - {x};
          calls := calls[i := Offer(calls[i], Disconnect(c))];
        }
      }
      assert registered.Keys - {} == registered.Keys;
      SweptValid(before, registered, c);
    }

    method CleanUp(c: nat)
      requires Valid() && c < |connections|
      modifies this
      ensures Valid() && Now() == CleanedUp(old(Now()), c)
    {
      hide Swept, Dropped;
      var agent := connections[c].agent;
      if agent in conns && conns[agent] == c {
        conns, infos := conns - {agent}, infos - {agent};
      }
      Sweep(c);
      connections := connections[c := connections[c].(cleaned := true)];
    }

    /** What TransportStatuses shows of a connection: the calls it has yet to answer. */
    method Pending(c: nat) returns (count: nat)
      requires Valid() && c < |connections|
      ensures count == |set x | x in waiters && calls[waiters[x]].connection == c|
    {
      var left := waiters.Keys;
      count := 0;
      ghost var seen: set<string> := {};
      while left != {}
        invariant left <= waiters.Keys
        invariant seen == set x | x in waiters.Keys - left && calls[waiters[x]].connection == c
        invariant count == |seen|
        decreases |left|
      {
        var x: string :| x in left;
        left := left - {x};
        if calls[waiters[x]].connection == c {
          count := count + 1;
          seen := seen + {x};
        }
      }
      assert seen == set x | x in waiters && calls[waiters[x]].connection == c;
    }
  }
}
