/**
 When the response that reaches a call is the answer to that very call: exactly when no agent
 is asked twice under the same command id.  That ids are unique among the commands in flight,
 which is all the server demands, is not enough.
 */
module CommandAnswers {
  import opened Outcomes
  import opened CommandServer
  import opened CommandRuns

  /** The agent that is called and the command id it is called with. */
  type Request = (string, string)

  /** The calls of a state, in the order they were accepted. */
  function Asked(s: State): seq<Request> {
    seq(|s.calls|, i requires 0 <= i < |s.calls| => (s.calls[i].agent, s.calls[i].command))
  }

  predicate NoRepeat(asked: seq<Request>) {
    forall i, j :: 0 <= i < j < |asked| ==> asked[i] != asked[j]
  }

  predicate Answered(call: Call, about: nat) {
    match call.phase
    case Leaving(Got(FromAgent(_, a))) => a == about
    case Returned(Got(FromAgent(_, a))) => a == about
    case _ => false
  }

  /** Every call that got an answer got its own. */
  ghost predicate OwnAnswers(s: State) {
    forall i, about: nat :: 0 <= i < |s.calls| && Answered(s.calls[i], about) ==> about == i
  }

  /** What the callers of the server rely on: every run that makes these calls gives each of them its own answer. */
  ghost predicate AlwaysOwn(asked: seq<Request>) {
    forall states: seq<State>, moves: seq<Move> ::
      Behavior(states, moves) && Asked(states[|moves|]) == asked ==> OwnAnswers(states[|moves|])
  }

  // ---------------------------------------------------------------- no repetition, no mix-up

  lemma AnswersAreOwn(states: seq<State>, moves: seq<Move>, k: nat)
    requires Behavior(states, moves) && k < |states| && NoRepeat(Asked(states[k]))
    ensures OwnAnswers(states[k])
  {
    hide Behavior, Offers, Sent;
    var s := states[k];
    forall i, about: nat | 0 <= i < |s.calls| && Answered(s.calls[i], about)
      ensures about == i
    {
      var j := ResponsesRouted(states, moves, k, i);
      assert Asked(s)[about] == Asked(s)[i];
    }
  }

  // ---------------------------------------------------------------- repetition, mix-up

  ghost predicate Attainable(s: State) {
    exists states: seq<State>, moves: seq<Move> :: Behavior(states, moves) && states[|moves|] == s
  }

  lemma AtStart()
    ensures Attainable(EMPTY) && Idle(EMPTY)
  {
    var moves: seq<Move> := [];
    assert Behavior([EMPTY], moves) && [EMPTY][|moves|] == EMPTY;
  }

  lemma Moved(s: State, m: Move)
    requires Attainable(s) && Enabled(s, m)
    ensures Attainable(Do(s, m))
  {
    hide Do, Enabled;
    var states: seq<State>, moves: seq<Move> :| Behavior(states, moves) && states[|moves|] == s;
    var longer, further := states + [Do(s, m)], moves + [m];
    forall i | 0 <= i < |further|
      ensures Enabled(longer[i], further[i]) && longer[i + 1] == Do(longer[i], further[i])
    {
      if i < |moves| {
        assert Enabled(states[i], moves[i]) && states[i + 1] == Do(states[i], moves[i]);
      }
    }
    assert Behavior(longer, further) && longer[|further|] == Do(s, m);
  }

  /** Nothing is in flight or queued. */
  predicate Idle(s: State) {
    && s.waiters == map[]
    && forall c :: 0 <= c < |s.connections| ==> s.connections[c].queue == []
  }

  /** Later calls are made beside what was there: the calls are as they were, and so are the connections and who is current. */
  predicate Beside(s: State, t: State) {
    && s.calls <= t.calls && s.connections <= t.connections
    && forall a :: a in s.conns ==> a in t.conns && t.conns[a] == s.conns[a]
  }

  /** The agent connects, unless it is connected. */
  lemma Attached(s: State, agent: string) returns (t: State)
    requires Attainable(s) && Idle(s)
    ensures Attainable(t) && Idle(t) && Beside(s, t) && t.calls == s.calls
    ensures agent in t.conns && t.conns[agent] < |t.connections|
  {
    hide Inv, Attainable;
    t := s;
    AttainableRegistry(s);
    if agent !in s.conns {
      t := Do(s, Connects(agent, ""));
      Moved(s, Connects(agent, ""));
    }
  }

  lemma AttainableRegistry(s: State)
    requires Attainable(s)
    ensures Registry(s)
  {
    hide Registry;
    var states: seq<State>, moves: seq<Move> :| Behavior(states, moves) && states[|moves|] == s;
    Long(states, moves);
    Reachable(states, moves, |moves|);
  }

  lemma Long(states: seq<State>, moves: seq<Move>)
    requires Behavior(states, moves)
    ensures |states| == |moves| + 1
  {
  }

  /** Beside the idle state `s` one more call is in flight, on a connection that became `c`. */
  function With(s: State, c: Connection, call: Call): State
    requires call.connection < |s.connections|
  {
    State(s.connections[call.connection := c], s.calls + [call], s.conns, s.infos, map[call.command := |s.calls|])
  }

  /** The call has returned. */
  function Over(s: State, c: Connection, call: Call): State
    requires call.connection < |s.connections|
  {
    State(s.connections[call.connection := c], s.calls + [call], s.conns, s.infos, map[])
  }

  function Fresh(s: State, r: Request): Call
    requires r.0 in s.conns
  {
    Call(r.0, "", r.1, s.conns[r.0], Enqueuing, None, [])
  }

  lemma CallBegins(s: State, r: Request)
    requires Attainable(s) && Idle(s) && r.0 in s.conns && s.conns[r.0] < |s.connections|
    ensures Attainable(With(s, s.connections[s.conns[r.0]], Fresh(s, r)))
  {
    hide Attainable;
    Moved(s, Calls(r.0, "", r.1));
    assert s.connections[s.conns[r.0] := s.connections[s.conns[r.0]]] == s.connections;
  }

  lemma PhaseMoves(s: State, c: Connection, call: Call, m: Move, phase: Phase)
    requires call.connection < |s.connections| && Attainable(With(s, c, call))
    requires
      || (m == ContextEnds(|s.calls|) && call.phase == Enqueuing && phase == Leaving(ContextEnded))
      || (m == ContextEnds(|s.calls|) && call.phase == Awaiting && phase == Canceling)
      || (m == CancelDropped(|s.calls|) && call.phase == Canceling && phase == Leaving(ContextEnded))
    ensures Attainable(With(s, c, call.(phase := phase)))
  {
    hide Attainable;
    Moved(With(s, c, call), m);
    assert (s.calls + [call])[|s.calls| := call.(phase := phase)] == s.calls + [call.(phase := phase)];
  }

  lemma FrameIsSent(s: State, c: Connection, call: Call)
    requires call.connection < |s.connections| && Attainable(With(s, c, call)) && call.phase == Enqueuing && c.queue == []
    ensures Attainable(With(s, c.(sent := c.sent + [RunFrame(|s.calls|)]), call.(phase := Awaiting)))
  {
    hide Attainable;
    var frame, awaiting := RunFrame(|s.calls|), call.(phase := Awaiting);
    Moved(With(s, c, call), Enqueues(|s.calls|));
    assert (s.calls + [call])[|s.calls| := awaiting] == s.calls + [awaiting];
    var queued := c.(queue := [frame]);
    assert [] + [frame] == [frame];
    assert s.connections[call.connection := c][call.connection := queued] == s.connections[call.connection := queued];
    assert Do(With(s, c, call), Enqueues(|s.calls|)) == With(s, queued, awaiting);
    FrameLeaves(s, c, awaiting, frame);
  }

  lemma FrameLeaves(s: State, c: Connection, call: Call, frame: Frame)
    requires call.connection < |s.connections| && c.queue == [] && Attainable(With(s, c.(queue := [frame]), call))
    ensures Attainable(With(s, c.(sent := c.sent + [frame]), call))
  {
    hide Attainable;
    var before, after := c.(queue := [frame]), c.(sent := c.sent + [frame]);
    Moved(With(s, before, call), Sends(call.connection));
    assert [frame][1..] == [];
    assert s.connections[call.connection := before][call.connection := after] == s.connections[call.connection := after];
  }

  lemma CallReturns(s: State, c: Connection, call: Call, result: CallResult)
    requires call.connection < |s.connections| && Attainable(With(s, c, call)) && call.phase == Leaving(result)
    ensures Attainable(Over(s, c, call.(phase := Returned(result))))
  {
    hide Attainable;
    var returned := call.(phase := Returned(result));
    Moved(With(s, c, call), Returns(|s.calls|));
    assert (s.calls + [call])[|s.calls| := returned] == s.calls + [returned];
    var waiters: map<string, nat> := map[call.command := |s.calls|];
    assert waiters - {call.command} == map[];
  }

  /** A call is made and given up before its frame is queued. */
  lemma GivenUp(s: State, r: Request) returns (t: State)
    requires Attainable(s) && Idle(s)
    ensures Attainable(t) && Idle(t) && Beside(s, t) && Asked(t) == Asked(s) + [r]
  {
    hide Attainable;
    var u := Attached(s, r.0);
    var c, call := u.connections[u.conns[r.0]], Fresh(u, r);
    CallBegins(u, r);
    PhaseMoves(u, c, call, ContextEnds(|u.calls|), Leaving(ContextEnded));
    CallReturns(u, c, call.(phase := Leaving(ContextEnded)), ContextEnded);
    t := Over(u, c, call.(phase := Returned(ContextEnded)));
    assert t.connections == u.connections;
  }

  /** The current stream of an agent was sent the command of call `i`. */
  predicate CanAnswerLate(s: State, i: nat) {
    Sent(s, i) && s.calls[i].agent in s.conns && s.conns[s.calls[i].agent] == s.calls[i].connection
  }

  lemma StillCanAnswer(s: State, t: State, i: nat)
    requires CanAnswerLate(s, i) && Beside(s, t)
    ensures CanAnswerLate(t, i) && t.calls[i] == s.calls[i]
  {
  }

  /** A call is made, its command is sent, and the caller gives up before the answer. */
  lemma SentInVain(s: State, r: Request) returns (t: State)
    requires Attainable(s) && Idle(s)
    ensures Attainable(t) && Idle(t) && Asked(t) == Asked(s) + [r] && CanAnswerLate(t, |s.calls|)
    ensures t.calls[|s.calls|].command == r.1 && t.calls[|s.calls|].agent == r.0
  {
    hide Attainable;
    var u := Attached(s, r.0);
    var c, call := u.connections[u.conns[r.0]], Fresh(u, r);
    CallBegins(u, r);
    FrameIsSent(u, c, call);
    c := c.(sent := c.sent + [RunFrame(|u.calls|)]);
    PhaseMoves(u, c, call.(phase := Awaiting), ContextEnds(|u.calls|), Canceling);
    PhaseMoves(u, c, call.(phase := Canceling), CancelDropped(|u.calls|), Leaving(ContextEnded));
    CallReturns(u, c, call.(phase := Leaving(ContextEnded)), ContextEnded);
    t := Over(u, c, call.(phase := Returned(ContextEnded)));
  }

  lemma LateAnswerTaken(s: State, c: Connection, call: Call, i: nat)
    requires call.connection < |s.connections| && Attainable(With(s, c, call))
    requires call.phase == Awaiting && call.box == None && call.offered == []
    requires c.agent == call.agent && !c.cleaned && call.agent in s.conns && s.conns[call.agent] == call.connection
    requires i < |s.calls| && s.calls[i].agent == call.agent && s.calls[i].command == call.command
    requires s.calls[i].connection == call.connection && RunFrame(i) in c.sent
    ensures
      var late := FromAgent(call.connection, i);
      Attainable(With(s, c, call.(phase := Leaving(Got(late)), offered := [late])))
  {
    hide Attainable;
    var n, late := |s.calls|, FromAgent(call.connection, i);
    var offered := call.(box := Some(late), offered := [late]);
    var taken := call.(phase := Leaving(Got(late)), offered := [late]);
    AnswerArrives(s, c, call, i);
    Moved(With(s, c, offered), Takes(n));
    assert (s.calls + [offered])[n := taken] == s.calls + [taken];
  }

  lemma AnswerArrives(s: State, c: Connection, call: Call, i: nat)
    requires call.connection < |s.connections| && Attainable(With(s, c, call))
    requires call.phase == Awaiting && call.box == None && call.offered == []
    requires c.agent == call.agent && !c.cleaned && call.agent in s.conns && s.conns[call.agent] == call.connection
    requires i < |s.calls| && s.calls[i].agent == call.agent && s.calls[i].command == call.command
    requires s.calls[i].connection == call.connection && RunFrame(i) in c.sent
    ensures
      var late := FromAgent(call.connection, i);
      Attainable(With(s, c, call.(box := Some(late), offered := [late])))
  {
    hide Attainable;
    var n, late := |s.calls|, FromAgent(call.connection, i);
    Moved(With(s, c, call), Delivers(call.connection, call.command, i));
    assert [] + [late] == [late];
    assert (s.calls + [call])[n := Offer(call, late)] == s.calls + [Offer(call, late)];
  }

  /** The same agent is asked again under the same id, and what it gives is the late answer to call `i`. */
  lemma AnsweredLate(s: State, i: nat, r: Request) returns (t: State)
    requires Attainable(s) && Idle(s) && CanAnswerLate(s, i) && s.calls[i].agent == r.0 && s.calls[i].command == r.1
    ensures Attainable(t) && Idle(t) && Asked(t) == Asked(s) + [r]
    ensures Answered(t.calls[|s.calls|], i)
  {
    hide Attainable;
    AttainableRegistry(s);
    var c, call := s.connections[s.conns[r.0]], Fresh(s, r);
    CallBegins(s, r);
    FrameIsSent(s, c, call);
    c := c.(sent := c.sent + [RunFrame(|s.calls|)]);
    LateAnswerTaken(s, c, call.(phase := Awaiting), i);
    var late := FromAgent(call.connection, i);
    CallReturns(s, c, call.(phase := Leaving(Got(late)), offered := [late]), Got(late));
    t := Over(s, c, call.(phase := Returned(Got(late)), offered := [late]));
  }

  /** The calls from the k-th to the n-th are made and given up. */
  lemma {:induction false} AllGivenUp(s: State, asked: seq<Request>, n: nat) returns (t: State)
    requires Attainable(s) && Idle(s) && |s.calls| <= n <= |asked| && Asked(s) == asked[..|s.calls|]
    ensures Attainable(t) && Idle(t) && Beside(s, t) && Asked(t) == asked[..n] && |t.calls| == n
    decreases n
  {
    hide Attainable, Idle;
    if |s.calls| == n {
      t := s;
    } else {
      var u := AllGivenUp(s, asked, n - 1);
      t := GivenUp(u, asked[n - 1]);
      assert asked[..n] == asked[..n - 1] + [asked[n - 1]];
      assert |t.calls| == |Asked(t)|;
    }
  }

  /** Where an agent is asked twice under one id, a run gives the second call the answer to the first. */
  lemma RepeatMisleads(asked: seq<Request>, i: nat, j: nat)
    requires i < j < |asked| && asked[i] == asked[j]
    ensures !AlwaysOwn(asked)
  {
    hide Attainable, Idle, CanAnswerLate;
    AtStart();
    var before := AllGivenUp(EMPTY, asked, i);
    var first := SentInVain(before, asked[i]);
    assert asked[..i + 1] == asked[..i] + [asked[i]];
    var between := AllGivenUp(first, asked, j);
    StillCanAnswer(first, between, i);
    var second := AnsweredLate(between, i, asked[j]);
    assert asked[..j + 1] == asked[..j] + [asked[j]];
    var last := AllGivenUp(second, asked, |asked|);
    assert last.calls[j] == second.calls[j];
    Misled(last, asked, i, j);
  }

  lemma Misled(s: State, asked: seq<Request>, i: nat, j: nat)
    requires Attainable(s) && Asked(s) == asked[..|asked|] && i < j < |s.calls| && Answered(s.calls[j], i)
    ensures !AlwaysOwn(asked)
  {
    var states: seq<State>, moves: seq<Move> :| Behavior(states, moves) && states[|moves|] == s;
    assert asked[..|asked|] == asked;
    assert !OwnAnswers(states[|moves|]);
  }

  /**
   Every run that makes some calls gives each of them its own answer if and only if no agent
   is asked twice under one command id.  An id may be used again with another agent.
   */
  lemma OwnAnswersExactly(asked: seq<Request>)
    ensures AlwaysOwn(asked) <==> NoRepeat(asked)
  {
    if NoRepeat(asked) {
      forall states: seq<State>, moves: seq<Move> | Behavior(states, moves) && Asked(states[|moves|]) == asked
        ensures OwnAnswers(states[|moves|])
      {
        AnswersAreOwn(states, moves, |moves|);
      }
    } else {
      var i: nat, j: nat :| i < j < |asked| && asked[i] == asked[j];
      RepeatMisleads(asked, i, j);
    }
  }
}
