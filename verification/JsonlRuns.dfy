/**
 The JSON Lines sink over every interleaving of emitters, closers, the worker and the device:
 the output is a faithful log of what was accepted, and every accepted event is answered once.
 */
module JsonlRuns {
  import opened Outcomes
  import opened Jsonl

  datatype Move =
    | Arrives(line: string)
    | Takes(e: nat)
    | Checks(e: nat)
    | Admits(e: nat)
    | Retries(e: nat, byToken: bool)
    | HearsAnswer(e: nat)
    | GivesUp(e: nat)
    | Picks
    | Writes(device: Device)
    | Syncs(device: Device)
    | Answers
    | SeesStop
    | Leaves(closeFails: bool)
    | AsksToClose
    | Locks(c: nat)
    | ClosesUp(c: nat)
    | SeesDone(c: nat)
    | StopsWaiting(c: nat)

  predicate Phased(s: State, e: nat, phase: EmitPhase) {
    e < |s.emitters| && s.emitters[e].phase == phase
  }

  predicate Closing(g: Gate, c: nat, phase: ClosePhase) {
    c < |g.closers| && g.closers[c] == phase
  }

  predicate ByEmitter(m: Move) {
    m.Takes? || m.Checks? || m.Admits? || m.Retries? || m.HearsAnswer? || m.GivesUp?
  }

  predicate ByWorker(m: Move) {
    m.Picks? || m.Writes? || m.Syncs? || m.Answers? || m.SeesStop? || m.Leaves?
  }

  /** An emitter that holds the token may find its context over and give the token back. */
  predicate EmitterMay(s: State, m: Move)
    requires ByEmitter(m)
  {
    && m.e < |s.emitters|
    && var phase := s.emitters[m.e].phase;
       match m
       case Takes(_) => phase == Entering && s.gate.holder == Nobody
       case Checks(_) => phase == Holding && s.gate.holder == EmitterHolds(m.e)
       case Admits(_) => phase == Checked && s.gate.holder == EmitterHolds(m.e)
       case Retries(_, byToken) => phase == NoRoom && if byToken then s.pipe.available else s.gate.closed || s.worker.failed
       case HearsAnswer(_) => phase == Waiting && s.emitters[m.e].box.Some?
       case GivesUp(_) => phase == Entering || phase == NoRoom || phase == Waiting || (phase == Holding && s.gate.holder == EmitterHolds(m.e))
  }

  predicate WorkerMay(s: State, m: Move)
    requires ByWorker(m)
  {
    var w := s.worker;
    match m
    case Picks => w.phase == Idle && s.pipe.queue != []
    case Writes(_) => w.phase.Picked? && w.phase.e < |s.emitters|
    case Syncs(_) => w.phase.Wrote?
    case Answers => w.phase.Answering? && w.phase.e < |s.emitters|
    case SeesStop => w.phase == Idle && s.gate.closed
    case Leaves(_) => w.phase == Idle && w.draining && s.pipe.queue == []
  }

  predicate CloserMay(s: State, m: Move)
    requires !ByEmitter(m) && !ByWorker(m)
  {
    match m
    case Locks(c) => Closing(s.gate, c, Asking) && s.gate.holder == Nobody
    case ClosesUp(c) => Closing(s.gate, c, Locked) && s.gate.holder == CloserHolds(c)
    case SeesDone(c) => (Closing(s.gate, c, Asking) || Closing(s.gate, c, Draining)) && s.worker.done
    case StopsWaiting(c) => Closing(s.gate, c, Asking) || Closing(s.gate, c, Draining)
    case AsksToClose => true
    case Arrives(_) => true
  }

  predicate Enabled(s: State, m: Move) {
    if ByEmitter(m) then EmitterMay(s, m) else if ByWorker(m) then WorkerMay(s, m) else CloserMay(s, m)
  }

  function EmitterDoes(s: State, m: Move): State
    requires ByEmitter(m) && EmitterMay(s, m)
  {
    match m
    case Takes(e) => HoldBy(SetPhase(s, e, Holding), EmitterHolds(e))
    case Checks(e) => Check(s, e)
    case Admits(e) => Admit(s, e)
    case Retries(e, byToken) => SetPhase(s, e, Entering).(pipe := s.pipe.(available := s.pipe.available && !byToken))
    case HearsAnswer(e) =>
      s.(emitters := s.emitters[e := s.emitters[e].(phase := Emitted(s.emitters[e].box.value), box := None)])
    case GivesUp(e) => HoldBy(SetPhase(s, e, Emitted(Undelivered)), if s.emitters[e].phase == Holding then Nobody else s.gate.holder)
  }

  function WorkerDoes(s: State, m: Move): State
    requires ByWorker(m) && WorkerMay(s, m)
  {
    match m
    case Picks => Pick(s)
    case Writes(device) => s.(worker := Written(s.worker, s.emitters[s.worker.phase.e].line, device))
    case Syncs(device) => s.(worker := Synced(s.worker, device))
    case Answers => Answered(s)
    case SeesStop => s.(worker := s.worker.(draining := true))
    case Leaves(closeFails) => s.(worker := Left(s.worker, closeFails))
  }

  function GateAfter(s: State, m: Move): Gate
    requires !ByEmitter(m) && !ByWorker(m) && CloserMay(s, m)
  {
    var g := s.gate;
    match m
    case AsksToClose => g.(closers := g.closers + [Asking])
    case Locks(c) => g.(holder := CloserHolds(c), closers := g.closers[c := Locked])
    case ClosesUp(c) => g.(closed := true, holder := Nobody, closers := g.closers[c := Draining])
    case SeesDone(c) => g.(closers := g.closers[c := ClosedBy(Failing(s.worker))])
    case StopsWaiting(c) => g.(closers := g.closers[c := ClosedBy(true)])
    case Arrives(_) => g
  }

  function Do(s: State, m: Move): State
    requires Enabled(s, m)
  {
    if ByEmitter(m) then EmitterDoes(s, m)
    else if ByWorker(m) then WorkerDoes(s, m)
    else if m.Arrives? then s.(emitters := s.emitters + [Emitter(m.line, Entering, None, [])])
    else s.(gate := GateAfter(s, m))
  }

  // ---------------------------------------------------------------- the invariant

  function Busy(p: Phase): seq<nat> {
    match p
    case Picked(e) => [e]
    case Wrote(e) => [e]
    case Answering(e, _) => [e]
    case _ => []
  }

  predicate Once(accepted: seq<nat>, n: nat) {
    && (forall i, j :: 0 <= i < j < |accepted| ==> accepted[i] != accepted[j])
    && (forall i :: 0 <= i < |accepted| ==> accepted[i] < n)
  }

  /** Nothing accepted is lost, nothing is handled twice, and the queue keeps the order of admission. */
  predicate Conserved(p: Pipe, w: Worker) {
    w.handled <= |p.accepted| && p.accepted[w.handled..] == Busy(w.phase) + p.queue && |p.queue| <= QUEUE_SIZE
  }

  /** An emitter waits for an answer only once its request is accepted; past the check it still holds the token. */
  predicate EmitterOk(s: State, e: nat)
    requires e < |s.emitters|
  {
    var phase := s.emitters[e].phase;
    && (phase == Waiting ==> e in s.pipe.accepted)
    && (e in s.pipe.accepted ==> phase == Waiting || phase.Emitted?)
    && (phase == Holding || phase == Checked ==> s.gate.holder == EmitterHolds(e))
  }

  /** Once closed, nothing is admitted; the worker leaves an empty queue behind. */
  predicate Gates(s: State) {
    && (s.worker.draining ==> s.gate.closed)
    && (s.worker.phase == Gone <==> s.worker.done)
    && (s.worker.done ==> s.worker.draining && s.pipe.queue == [])
  }

  /** While nothing failed, all that was handled was also written and synced; afterwards nothing more is. */
  predicate Steady(w: Worker) {
    && (!w.failed ==> w.good == w.handled + (if w.phase.Answering? then 1 else 0))
    && (w.failed ==> w.good <= w.handled && !w.phase.Wrote?)
    && (w.phase.Answering? ==> (w.phase.ack == Delivered <==> w.handled < w.good))
  }

  function LineAt(s: State, i: nat): string
    requires i < |s.pipe.accepted|
  {
    if s.pipe.accepted[i] < |s.emitters| then s.emitters[s.pipe.accepted[i]].line else ""
  }

  function Lines(s: State, n: nat): string
    requires n <= |s.pipe.accepted|
  {
    if n == 0 then "" else Lines(s, n - 1) + LineAt(s, n - 1)
  }

  /** What stands behind the good lines: nothing, the line being synced, or a part of the line that failed. */
  predicate TailOk(s: State, tail: string) {
    var n := s.worker.good;
    if s.worker.phase.Wrote? then n < |s.pipe.accepted| && tail == LineAt(s, n)
    else tail == "" || (s.worker.failed && n < |s.pipe.accepted| && tail <= LineAt(s, n))
  }

  predicate Faithful(s: State) {
    var n := s.worker.good;
    && n <= |s.pipe.accepted| && Lines(s, n) <= s.worker.output && TailOk(s, s.worker.output[|Lines(s, n)|..])
  }

  /** Exactly the handled requests were answered, once each: delivered when their line was written and synced. */
  predicate AnswerOk(s: State, i: nat)
    requires i < |s.pipe.accepted|
  {
    && s.pipe.accepted[i] < |s.emitters|
    && s.emitters[s.pipe.accepted[i]].answers ==
         if i >= s.worker.handled then [] else [if i < s.worker.good then Delivered else Undelivered]
  }

  predicate AnswersOk(s: State) {
    forall i {:trigger s.pipe.accepted[i]} :: 0 <= i < |s.pipe.accepted| ==> AnswerOk(s, i)
  }

  /** An emitter knows no more than it was told, and nobody is told without having been accepted. */
  predicate ToldOk(s: State, e: nat)
    requires e < |s.emitters|
  {
    var x := s.emitters[e];
    && (e !in s.pipe.accepted ==> x.answers == [])
    && (x.box.Some? ==> x.box.value in x.answers)
    && (x.phase == Emitted(Delivered) ==> Delivered in x.answers)
  }

  predicate EmittersOk(s: State) {
    forall e {:trigger s.emitters[e]} :: 0 <= e < |s.emitters| ==> EmitterOk(s, e) && ToldOk(s, e)
  }

  predicate Inv(s: State) {
    && Once(s.pipe.accepted, |s.emitters|) && Conserved(s.pipe, s.worker) && Gates(s) && Steady(s.worker)
    && Faithful(s) && AnswersOk(s) && EmittersOk(s)
  }

  // ---------------------------------------------------------------- emitters keep it

  /** What a move of emitter e leaves alone. */
  predicate Apart(s: State, t: State, e: nat)
    requires e < |s.emitters|
  {
    && |t.emitters| == |s.emitters| && t.worker == s.worker && t.gate.closed == s.gate.closed
    && (forall d {:trigger t.emitters[d]} :: 0 <= d < |s.emitters| && d != e ==> t.emitters[d] == s.emitters[d])
    && t.emitters[e].line == s.emitters[e].line && t.emitters[e].answers == s.emitters[e].answers
  }

  lemma EmitterApart(s: State, m: Move)
    requires ByEmitter(m) && EmitterMay(s, m)
    ensures Apart(s, EmitterDoes(s, m), m.e)
    ensures !m.Admits? ==> EmitterDoes(s, m).pipe == s.pipe.(available := EmitterDoes(s, m).pipe.available)
  {
  }

  lemma QueueConserves(p: Pipe, w: Worker, e: nat, n: nat)
    requires Conserved(p, w) && Once(p.accepted, n) && |p.queue| < QUEUE_SIZE && e !in p.accepted && e < n
    ensures Conserved(Queue(p, e), w) && Once(Queue(p, e).accepted, n)
  {
    var q := Queue(p, e);
    assert q.accepted[w.handled..] == p.accepted[w.handled..] + [e];
    forall i, j | 0 <= i < j < |q.accepted|
      ensures q.accepted[i] != q.accepted[j]
    {
      if j == |p.accepted| {
        assert p.accepted[i] in p.accepted;
      }
    }
  }

  lemma EmitterConserves(s: State, m: Move)
    requires ByEmitter(m) && EmitterMay(s, m) && Conserved(s.pipe, s.worker) && Once(s.pipe.accepted, |s.emitters|) && Gates(s)
    requires EmitterOk(s, m.e)
    ensures var t := EmitterDoes(s, m);
      Conserved(t.pipe, t.worker) && Once(t.pipe.accepted, |t.emitters|) && Gates(t)
    ensures s.pipe.accepted <= EmitterDoes(s, m).pipe.accepted
    ensures EmitterDoes(s, m).pipe.accepted != s.pipe.accepted ==> EmitterDoes(s, m).pipe.accepted == s.pipe.accepted + [m.e] && m.e !in s.pipe.accepted
  {
    hide Once, Conserved;
    EmitterApart(s, m);
    if m.Admits? && !s.gate.closed && |s.pipe.queue| < QUEUE_SIZE {
      QueueConserves(s.pipe, s.worker, m.e, |s.emitters|);
    } else {
      ConservedAlone(s.pipe, EmitterDoes(s, m).pipe, s.worker);
    }
  }

  lemma ConservedAlone(p: Pipe, q: Pipe, w: Worker)
    requires Conserved(p, w) && q.queue == p.queue && q.accepted == p.accepted
    ensures Conserved(q, w)
  {
  }

  /** Lines depend on the order of admission and on nothing that a move changes. */
  lemma {:induction false} SameLines(s: State, t: State, n: nat)
    requires n <= |s.pipe.accepted| && s.pipe.accepted <= t.pipe.accepted && |s.emitters| <= |t.emitters|
    requires Once(s.pipe.accepted, |s.emitters|)
    requires forall e {:trigger t.emitters[e]} :: 0 <= e < |s.emitters| ==> t.emitters[e].line == s.emitters[e].line
    ensures Lines(t, n) == Lines(s, n)
    ensures n < |s.pipe.accepted| ==> LineAt(t, n) == LineAt(s, n)
  {
    if n < |s.pipe.accepted| {
      assert t.pipe.accepted[n] == s.pipe.accepted[n];
    }
    if n > 0 {
      SameLines(s, t, n - 1);
    }
  }

  lemma StillFaithful(s: State, t: State)
    requires Faithful(s) && s.pipe.accepted <= t.pipe.accepted && |s.emitters| <= |t.emitters|
    requires Once(s.pipe.accepted, |s.emitters|)
    requires forall e {:trigger t.emitters[e]} :: 0 <= e < |s.emitters| ==> t.emitters[e].line == s.emitters[e].line
    requires t.worker.good == s.worker.good && t.worker.output == s.worker.output
    requires t.worker.phase.Wrote? == s.worker.phase.Wrote? && t.worker.failed == s.worker.failed
    ensures Faithful(t)
  {
    hide Lines, LineAt, Once;
    SameLines(s, t, s.worker.good);
  }

  lemma StillAnswered(s: State, t: State, added: seq<nat>)
    requires AnswersOk(s) && t.worker == s.worker && s.worker.handled <= |s.pipe.accepted|
    requires t.pipe.accepted == s.pipe.accepted + added && |s.emitters| <= |t.emitters|
    requires forall e {:trigger t.emitters[e]} :: 0 <= e < |s.emitters| ==> t.emitters[e].answers == s.emitters[e].answers
    requires forall i {:trigger added[i]} :: 0 <= i < |added| ==> added[i] < |s.emitters| && s.emitters[added[i]].answers == []
    ensures AnswersOk(t)
  {
    forall i | 0 <= i < |t.pipe.accepted|
      ensures AnswerOk(t, i)
    {
      if i < |s.pipe.accepted| {
        assert AnswerOk(s, i);
        assert t.pipe.accepted[i] == s.pipe.accepted[i];
      } else {
        assert t.pipe.accepted[i] == added[i - |s.pipe.accepted|];
      }
    }
  }

  lemma EmittersStayOk(s: State, m: Move)
    requires ByEmitter(m) && EmitterMay(s, m) && EmittersOk(s)
    ensures EmittersOk(EmitterDoes(s, m))
  {
    EmitterApart(s, m);
    hide EmitterDoes, EmitterMay, EmitterOk, ToldOk;
    var t := EmitterDoes(s, m);
    forall d | 0 <= d < |t.emitters|
      ensures EmitterOk(t, d) && ToldOk(t, d)
    {
      var x, y := s.emitters[d], s.emitters[m.e];
    }
  }

  lemma EmitterKeeps(s: State, m: Move)
    requires ByEmitter(m) && EmitterMay(s, m) && Inv(s)
    ensures Inv(EmitterDoes(s, m))
  {
    var t := EmitterDoes(s, m);
    EmitterApart(s, m);
    EmittersStayOk(s, m);
    hide EmitterDoes, EmitterMay, Once, Gates, Steady, Faithful, EmitterOk;
    var x := s.emitters[m.e];
    assert EmitterOk(s, m.e) && ToldOk(s, m.e);
    EmitterConserves(s, m);
    hide EmittersOk, AnswersOk;
    StillFaithful(s, t);
    StillAnswered(s, t, if t.pipe.accepted == s.pipe.accepted then [] else [m.e]);
  }

  // ---------------------------------------------------------------- the worker keeps it

  /** The request in hand is the first that is not yet handled. */
  lemma InHand(p: Pipe, w: Worker)
    requires Conserved(p, w) && Busy(w.phase) != []
    ensures w.handled < |p.accepted| && p.accepted[w.handled] == Busy(w.phase)[0] && p.accepted[w.handled + 1..] == p.queue
  {
    var rest := p.accepted[w.handled..];
    assert rest == Busy(w.phase) + p.queue;
    assert rest[0] == Busy(w.phase)[0];
    assert p.accepted[w.handled + 1..] == rest[1..];
  }

  lemma WorkerConserves(s: State, m: Move)
    requires ByWorker(m) && WorkerMay(s, m) && Conserved(s.pipe, s.worker)
    ensures Conserved(WorkerDoes(s, m).pipe, WorkerDoes(s, m).worker)
    ensures WorkerDoes(s, m).pipe.accepted == s.pipe.accepted && |WorkerDoes(s, m).emitters| == |s.emitters|
  {
    if m.Picks? {
      assert s.pipe.queue == [s.pipe.queue[0]] + s.pipe.queue[1..];
    } else if m.Answers? {
      InHand(s.pipe, s.worker);
    }
  }

  lemma WorkerSteady(s: State, m: Move)
    requires ByWorker(m) && WorkerMay(s, m) && Steady(s.worker) && Gates(s)
    ensures Steady(WorkerDoes(s, m).worker) && Gates(WorkerDoes(s, m))
  {
    hide Prefix, WritesWell;
  }

  lemma WorkerTold(s: State, m: Move, d: nat)
    requires ByWorker(m) && WorkerMay(s, m) && d < |s.emitters| && EmitterOk(s, d) && ToldOk(s, d)
    requires m.Answers? ==> s.worker.phase.e in s.pipe.accepted
    ensures d < |WorkerDoes(s, m).emitters| && EmitterOk(WorkerDoes(s, m), d) && ToldOk(WorkerDoes(s, m), d)
  {
    hide Written, Synced;
  }

  lemma AnswerKeepsOthers(s: State, i: nat)
    requires s.worker.phase.Answering? && s.worker.phase.e < |s.emitters| && i < |s.pipe.accepted| && AnswerOk(s, i)
    requires Conserved(s.pipe, s.worker) && Once(s.pipe.accepted, |s.emitters|) && Steady(s.worker)
    ensures AnswerOk(Answered(s), i)
  {
    InHand(s.pipe, s.worker);
    var h := s.worker.handled;
    if i < h {
      assert s.pipe.accepted[i] != s.pipe.accepted[h];
    } else if i > h {
      assert s.pipe.accepted[h] != s.pipe.accepted[i];
    }
  }

  lemma WorkerAnswers(s: State, m: Move)
    requires ByWorker(m) && WorkerMay(s, m) && AnswersOk(s) && Conserved(s.pipe, s.worker) && Once(s.pipe.accepted, |s.emitters|) && Steady(s.worker)
    ensures AnswersOk(WorkerDoes(s, m))
  {
    hide Conserved, Once;
    var t := WorkerDoes(s, m);
    forall i | 0 <= i < |t.pipe.accepted|
      ensures AnswerOk(t, i)
    {
      var e := s.pipe.accepted[i];
      assert AnswerOk(s, i);
      if m.Answers? {
        hide Steady;
        AnswerKeepsOthers(s, i);
      } else {
      }
    }
  }

  lemma TailAfter(s: State, t: State, more: string)
    requires s.worker.good <= |s.pipe.accepted| && Faithful(s) && t.worker.output == s.worker.output + more && t.worker.good == s.worker.good
    requires t.pipe.accepted == s.pipe.accepted && t.emitters == s.emitters
    requires TailOk(t, s.worker.output[|Lines(s, s.worker.good)|..] + more)
    ensures Faithful(t)
  {
    hide TailOk, Lines;
    var lines := Lines(s, s.worker.good);
    assert Lines(t, s.worker.good) == lines by { SameState(s, t, s.worker.good); }
    assert t.worker.output[|lines|..] == s.worker.output[|lines|..] + more;
  }

  lemma {:induction false} SameState(s: State, t: State, n: nat)
    requires n <= |s.pipe.accepted| && t.pipe.accepted == s.pipe.accepted && t.emitters == s.emitters
    ensures Lines(t, n) == Lines(s, n)
  {
    if n > 0 {
      SameState(s, t, n - 1);
    }
  }

  lemma WriteFaithful(s: State, d: Device)
    requires s.worker.phase.Picked? && s.worker.phase.e < |s.emitters|
    requires Faithful(s) && Conserved(s.pipe, s.worker) && Steady(s.worker)
    ensures Faithful(s.(worker := Written(s.worker, s.emitters[s.worker.phase.e].line, d)))
  {
    hide Lines;
    InHand(s.pipe, s.worker);
    var line := s.emitters[s.worker.phase.e].line;
    var t := s.(worker := Written(s.worker, line, d));
    var tail := s.worker.output[|Lines(s, s.worker.good)|..];
    if s.worker.failed {
      assert tail + [] == tail;
      TailAfter(s, t, []);
    } else {
      assert tail == "" && LineAt(s, s.worker.good) == line;
      var more := if WritesWell(d, line) then line else Prefix(line, d.written);
      assert tail + more == more;
      TailAfter(s, t, more);
    }
  }

  lemma SyncFaithful(s: State, d: Device)
    requires s.worker.phase.Wrote? && Faithful(s)
    ensures Faithful(s.(worker := Synced(s.worker, d)))
  {
    hide LineAt;
    var t := s.(worker := Synced(s.worker, d));
    var n := s.worker.good;
    SameState(s, t, n);
    SameLine(s, t, n);
    if !d.syncFails {
      assert Lines(t, n + 1) == Lines(t, n) + LineAt(t, n);
      assert s.worker.output == Lines(s, n) + LineAt(s, n);
    }
  }

  lemma SameLine(s: State, t: State, n: nat)
    requires n < |s.pipe.accepted| && t.pipe.accepted == s.pipe.accepted && t.emitters == s.emitters
    ensures LineAt(t, n) == LineAt(s, n)
  {
  }

  lemma WorkerFaithful(s: State, m: Move)
    requires ByWorker(m) && WorkerMay(s, m) && Faithful(s) && Conserved(s.pipe, s.worker) && Steady(s.worker) && Once(s.pipe.accepted, |s.emitters|)
    ensures Faithful(WorkerDoes(s, m))
  {
    if m.Writes? {
      hide Faithful, Conserved, Steady, Once;
      WriteFaithful(s, m.device);
    } else if m.Syncs? {
      hide Faithful, Conserved, Steady, Once;
      SyncFaithful(s, m.device);
    } else {
      hide Faithful, Conserved, Steady, Once;
      StillFaithful(s, WorkerDoes(s, m));
    }
  }

  lemma AcceptedInHand(s: State)
    requires Conserved(s.pipe, s.worker) && s.worker.phase.Answering?
    ensures s.worker.phase.e in s.pipe.accepted
  {
    InHand(s.pipe, s.worker);
    assert s.pipe.accepted[s.worker.handled] in s.pipe.accepted;
  }

  lemma WorkerKeeps(s: State, m: Move)
    requires ByWorker(m) && WorkerMay(s, m) && Inv(s)
    ensures Inv(WorkerDoes(s, m))
  {
    WorkerConserves(s, m);
    if m.Answers? {
      AcceptedInHand(s);
    }
    hide WorkerDoes, WorkerMay, Conserved, Once, Gates, Steady, Faithful, AnswersOk, EmitterOk, ToldOk;
    WorkerSteady(s, m);
    WorkerAnswers(s, m);
    WorkerFaithful(s, m);
    forall d | 0 <= d < |WorkerDoes(s, m).emitters|
      ensures EmitterOk(WorkerDoes(s, m), d) && ToldOk(WorkerDoes(s, m), d)
    {
      var x := s.emitters[d];
      WorkerTold(s, m, d);
    }
  }

  // ---------------------------------------------------------------- arrivals and closers keep it

  lemma ArriveKeeps(s: State, line: string)
    requires Inv(s)
    ensures Inv(s.(emitters := s.emitters + [Emitter(line, Entering, None, [])]))
  {
    var t := s.(emitters := s.emitters + [Emitter(line, Entering, None, [])]);
    assert |s.emitters| !in s.pipe.accepted;
    hide Lines, LineAt, Steady;
    StillFaithful(s, t);
    StillAnswered(s, t, []);
    forall e | 0 <= e < |t.emitters|
      ensures EmitterOk(t, e) && ToldOk(t, e)
    {
      if e < |s.emitters| {
        assert EmitterOk(s, e) && ToldOk(s, e);
      }
    }
  }

  lemma CloserKeeps(s: State, m: Move)
    requires !ByEmitter(m) && !ByWorker(m) && CloserMay(s, m) && Inv(s)
    ensures Inv(s.(gate := GateAfter(s, m)))
  {
    hide Lines, LineAt, Steady, Once, ToldOk;
    var t := s.(gate := GateAfter(s, m));
    SameState(s, t, s.worker.good);
    if s.worker.good < |s.pipe.accepted| {
      SameLine(s, t, s.worker.good);
    }
    StillAnswered(s, t, []);
    forall e | 0 <= e < |t.emitters|
      ensures EmitterOk(t, e) && ToldOk(t, e)
    {
      assert EmitterOk(s, e) && ToldOk(s, e);
      SameTold(s, t, e);
    }
  }

  lemma SameTold(s: State, t: State, e: nat)
    requires e < |s.emitters| && ToldOk(s, e) && t.emitters == s.emitters && t.pipe == s.pipe
    ensures ToldOk(t, e)
  {
  }

  lemma Preserved(s: State, m: Move)
    requires Enabled(s, m) && Inv(s)
    ensures Inv(Do(s, m))
  {
    hide Inv, EmitterDoes, EmitterMay, WorkerDoes, WorkerMay, CloserMay, GateAfter;
    if ByEmitter(m) {
      EmitterKeeps(s, m);
    } else if ByWorker(m) {
      WorkerKeeps(s, m);
    } else if m.Arrives? {
      ArriveKeeps(s, m.line);
    } else {
      CloserKeeps(s, m);
    }
  }

  // ---------------------------------------------------------------- runs

  predicate Behavior(hasOutput: bool, states: seq<State>, moves: seq<Move>) {
    && |states| == |moves| + 1 && states[0] == Born(hasOutput)
    && forall i :: 0 <= i < |moves| ==> Enabled(states[i], moves[i]) && states[i + 1] == Do(states[i], moves[i])
  }

  lemma {:induction false} Reachable(hasOutput: bool, states: seq<State>, moves: seq<Move>, k: nat)
    requires Behavior(hasOutput, states, moves) && k < |states|
    ensures Inv(states[k])
  {
    hide Inv, Do, Enabled;
    if k == 0 {
      BornInv(hasOutput);
    } else {
      Reachable(hasOutput, states, moves, k - 1);
      Preserved(states[k - 1], moves[k - 1]);
    }
  }

  lemma BornInv(hasOutput: bool)
    ensures Inv(Born(hasOutput))
  {
  }

  /**
   A faithful log: at every moment the output is the lines of the first `good` accepted events,
   in the order of admission, followed by nothing or by an initial part of the next one, and
   the latter only while that line is being synced or once the sink has failed.
   */
  lemma LogIsFaithful(hasOutput: bool, states: seq<State>, moves: seq<Move>, k: nat)
    returns (tail: string)
    requires Behavior(hasOutput, states, moves) && k < |states|
    ensures var s := states[k]; var n := s.worker.good;
      && n <= |s.pipe.accepted| && s.worker.output == Lines(s, n) + tail
      && (tail != "" ==> n < |s.pipe.accepted| && tail <= LineAt(s, n) && (s.worker.failed || s.worker.phase.Wrote?))
  {
    hide Behavior, Lines, LineAt;
    Reachable(hasOutput, states, moves, k);
    tail := states[k].worker.output[|Lines(states[k], states[k].worker.good)|..];
  }

  lemma FailedStep(s: State, m: Move)
    requires Enabled(s, m) && Inv(s) && s.worker.failed
    ensures var t := Do(s, m); t.worker.failed && t.worker.output == s.worker.output && t.worker.good == s.worker.good
  {
    hide Once, Conserved, Faithful, AnswersOk, EmittersOk, Gates;
    if ByEmitter(m) {
      EmitterApart(s, m);
    }
  }

  /** Nothing is written after the first failure. */
  lemma {:induction false} NothingAfterFailure(hasOutput: bool, states: seq<State>, moves: seq<Move>, j: nat, k: nat)
    requires Behavior(hasOutput, states, moves) && j <= k < |states| && states[j].worker.failed
    ensures states[k].worker.failed && states[k].worker.output == states[j].worker.output && states[k].worker.good == states[j].worker.good
    decreases k
  {
    hide Do, Enabled, Inv;
    if j < k {
      NothingAfterFailure(hasOutput, states, moves, j, k - 1);
      Reachable(hasOutput, states, moves, k - 1);
      FailedStep(states[k - 1], moves[k - 1]);
    }
  }

  /** An Emit that reports success has had its line written and synced. */
  lemma DeliveredMeansSynced(hasOutput: bool, states: seq<State>, moves: seq<Move>, k: nat, e: nat)
    returns (i: nat)
    requires Behavior(hasOutput, states, moves) && k < |states| && Phased(states[k], e, Emitted(Delivered))
    ensures i < states[k].worker.good <= |states[k].pipe.accepted| && states[k].pipe.accepted[i] == e
    ensures LineAt(states[k], i) == states[k].emitters[e].line
  {
    hide Behavior, Steady, Lines;
    Reachable(hasOutput, states, moves, k);
    var s := states[k];
    assert ToldOk(s, e);
    var j :| 0 <= j < |s.pipe.accepted| && s.pipe.accepted[j] == e;
    assert AnswerOk(s, j);
    i := j;
  }

  /** Once the worker is gone the queue is empty, and every accepted event was answered exactly once. */
  lemma DoneMeansAnswered(hasOutput: bool, states: seq<State>, moves: seq<Move>, k: nat)
    requires Behavior(hasOutput, states, moves) && k < |states| && states[k].worker.done
    ensures var s := states[k];
      && s.pipe.queue == [] && s.worker.handled == |s.pipe.accepted|
      && (forall i {:trigger s.pipe.accepted[i]} :: 0 <= i < |s.pipe.accepted| ==>
            s.pipe.accepted[i] < |s.emitters|
            && s.emitters[s.pipe.accepted[i]].answers == [if i < s.worker.good then Delivered else Undelivered])
  {
    hide Behavior, Faithful, EmittersOk, Steady;
    Reachable(hasOutput, states, moves, k);
    var s := states[k];
    assert |s.pipe.accepted[s.worker.handled..]| == 0;
    forall i | 0 <= i < |s.pipe.accepted|
      ensures s.pipe.accepted[i] < |s.emitters|
      ensures s.emitters[s.pipe.accepted[i]].answers == [if i < s.worker.good then Delivered else Undelivered]
    {
      assert AnswerOk(s, i);
    }
  }

  /** Conservation: what was accepted is, in order, what was handled, what is in hand and what is queued. */
  lemma AcceptedIsConserved(hasOutput: bool, states: seq<State>, moves: seq<Move>, k: nat)
    requires Behavior(hasOutput, states, moves) && k < |states|
    ensures var s := states[k];
      && s.worker.handled <= |s.pipe.accepted| && |s.pipe.queue| <= 16
      && s.pipe.accepted == s.pipe.accepted[..s.worker.handled] + Busy(s.worker.phase) + s.pipe.queue
      && (!s.worker.failed ==> s.worker.handled <= s.worker.good)
  {
    hide Behavior, Faithful, EmittersOk, AnswersOk, Gates, Once;
    Reachable(hasOutput, states, moves, k);
    var s := states[k];
    assert s.pipe.accepted == s.pipe.accepted[..s.worker.handled] + s.pipe.accepted[s.worker.handled..];
  }

  lemma ClosedStep(s: State, m: Move)
    requires Enabled(s, m) && s.gate.closed
    ensures Do(s, m).gate.closed && Do(s, m).pipe.accepted == s.pipe.accepted
  {
    hide Written, Synced, Answer;
  }

  /** Nothing is admitted once the sink is closed. */
  lemma {:induction false} ClosedAdmitsNothing(hasOutput: bool, states: seq<State>, moves: seq<Move>, j: nat, k: nat)
    requires Behavior(hasOutput, states, moves) && j <= k < |states| && states[j].gate.closed
    ensures states[k].gate.closed && states[k].pipe.accepted == states[j].pipe.accepted
    decreases k
  {
    hide Do, Enabled;
    if j < k {
      ClosedAdmitsNothing(hasOutput, states, moves, j, k - 1);
      ClosedStep(states[k - 1], moves[k - 1]);
    }
  }

  // ---------------------------------------------------------------- failures are told

  /** A move by which the sink breaks: a write that fails or stops short, a sync that fails, or a close that fails. */
  predicate Breaks(s: State, m: Move)
    requires Enabled(s, m)
  {
    match m
    case Writes(d) => !s.worker.failed && (d.writeFails || d.written != |s.emitters[s.worker.phase.e].line|)
    case Syncs(d) => d.syncFails
    case Leaves(closeFails) => closeFails
    case _ => false
  }

  lemma BreaksStep(s: State, m: Move)
    requires Enabled(s, m) && Gates(s)
    ensures Failing(Do(s, m).worker) <==> Failing(s.worker) || Breaks(s, m)
    ensures s.worker.done ==> Do(s, m).worker.done && !Breaks(s, m)
  {
    if ByEmitter(m) {
      EmitterApart(s, m);
    }
  }

  lemma {:induction false} FailingExactly(states: seq<State>, moves: seq<Move>, k: nat)
    requires Behavior(true, states, moves) && k < |states|
    ensures Failing(states[k].worker) <==> exists i :: 0 <= i < k && Breaks(states[i], moves[i])
  {
    hide Do, Enabled, Inv, Breaks, Failing;
    if k == 0 {
      BornSound();
    } else {
      FailingExactly(states, moves, k - 1);
      assert Enabled(states[k - 1], moves[k - 1]);
      assert Gates(states[k - 1]) by {
        Reachable(true, states, moves, k - 1);
        InvGates(states[k - 1]);
      }
      BreaksStep(states[k - 1], moves[k - 1]);
    }
  }

  lemma BornSound()
    ensures !Failing(Born(true).worker)
  {
  }

  lemma InvGates(s: State)
    requires Inv(s)
    ensures Gates(s)
  {
    hide Once, Conserved, Gates, Steady, Faithful, AnswersOk, EmittersOk;
  }

  lemma CloserStep(s: State, m: Move, c: nat)
    requires Enabled(s, m)
    ensures |s.gate.closers| <= |Do(s, m).gate.closers|
    ensures c < |s.gate.closers| && s.gate.closers[c].ClosedBy? ==> Do(s, m).gate.closers[c] == s.gate.closers[c] && m != StopsWaiting(c)
    ensures c < |Do(s, m).gate.closers| && Do(s, m).gate.closers[c].ClosedBy? && !(c < |s.gate.closers| && s.gate.closers[c].ClosedBy?) ==>
      if m == StopsWaiting(c) then Do(s, m).gate.closers[c].failed
      else m == SeesDone(c) && s.worker.done && Do(s, m).gate.closers[c].failed == Failing(s.worker)
  {
    hide Failing, Written, Synced, Answer;
    if ByEmitter(m) {
      EmitterApart(s, m);
    }
  }

  /** The sink broke before the k-th state, or this Close was given up. */
  predicate BrokeOrGivenUp(states: seq<State>, moves: seq<Move>, k: nat, c: nat)
    requires Behavior(true, states, moves) && k < |states|
  {
    exists i :: 0 <= i < k && (Breaks(states[i], moves[i]) || moves[i] == StopsWaiting(c))
  }

  lemma OneMoveMore(states: seq<State>, moves: seq<Move>, k: nat, c: nat)
    requires Behavior(true, states, moves) && 0 < k < |states|
    ensures BrokeOrGivenUp(states, moves, k, c) <==>
      BrokeOrGivenUp(states, moves, k - 1, c) || Breaks(states[k - 1], moves[k - 1]) || moves[k - 1] == StopsWaiting(c)
  {
    hide Do, Breaks, Enabled;
    if Breaks(states[k - 1], moves[k - 1]) || moves[k - 1] == StopsWaiting(c) {
      assert BrokeOrGivenUp(states, moves, k, c);
    }
  }

  lemma BrokeExactly(states: seq<State>, moves: seq<Move>, k: nat, c: nat)
    requires Behavior(true, states, moves) && k < |states| && !(c < |states[k].gate.closers| && states[k].gate.closers[c].ClosedBy?)
    ensures BrokeOrGivenUp(states, moves, k, c) <==> Failing(states[k].worker)
  {
    hide Do, Breaks, Enabled, Failing;
    FailingExactly(states, moves, k);
    NotStoppedBefore(states, moves, k, c);
  }

  /** Closing tells every failure: a Close that has returned reports an error if and only if a write, a sync or the closing of the output failed, or it was not waited for. */
  lemma {:induction false} CloseTellsFailures(states: seq<State>, moves: seq<Move>, k: nat, c: nat)
    requires Behavior(true, states, moves) && k < |states| && c < |states[k].gate.closers| && states[k].gate.closers[c].ClosedBy?
    ensures states[k].gate.closers[c].failed <==> BrokeOrGivenUp(states, moves, k, c)
    ensures !states[k].gate.closers[c].failed ==> states[k].worker.done
  {
    if k > 0 {
      hide Inv, Breaks, Failing, Do, Enabled, BrokeOrGivenUp, Gates;
      var s, m := states[k - 1], moves[k - 1];
      assert Enabled(s, m) && states[k] == Do(s, m);
      assert Gates(s) by {
        Reachable(true, states, moves, k - 1);
        InvGates(s);
      }
      OneMoveMore(states, moves, k, c);
      BreaksStep(s, m);
      CloserStep(s, m, c);
      if c < |s.gate.closers| && s.gate.closers[c].ClosedBy? {
        CloseTellsFailures(states, moves, k - 1, c);
      } else {
        BrokeExactly(states, moves, k - 1, c);
      }
    }
  }

  /** A Close that is not over was never given up. */
  lemma {:induction false} NotStoppedBefore(states: seq<State>, moves: seq<Move>, k: nat, c: nat)
    requires Behavior(true, states, moves) && k < |states| && !(c < |states[k].gate.closers| && states[k].gate.closers[c].ClosedBy?)
    ensures forall i :: 0 <= i < k ==> moves[i] != StopsWaiting(c)
  {
    if k > 0 {
      hide Do, Enabled, Inv;
      var s, m := states[k - 1], moves[k - 1];
      assert Enabled(s, m) && states[k] == Do(s, m);
      CloserStep(s, m, c);
      if m == StopsWaiting(c) {
        GivenUp(s, c);
      }
      NotStoppedBefore(states, moves, k - 1, c);
    }
  }

  lemma GivenUp(s: State, c: nat)
    requires Enabled(s, StopsWaiting(c))
    ensures var g := Do(s, StopsWaiting(c)).gate; c < |g.closers| && g.closers[c].ClosedBy?
  {
  }

  lemma RefusedStep(s: State, m: Move, e: nat)
    requires Enabled(s, m) && e < |s.emitters| && s.emitters[e].phase.Emitted? && e !in s.pipe.accepted
    ensures var t := Do(s, m); e < |t.emitters| && t.emitters[e].phase == s.emitters[e].phase && e !in t.pipe.accepted
  {
    hide Written, Synced;
  }

  /** An event that meets a sink that has failed or finished is refused there and then, and is never accepted; and no other is refused at this point. */
  lemma {:induction false} OverMeansRefused(hasOutput: bool, states: seq<State>, moves: seq<Move>, j: nat, k: nat, e: nat)
    requires Behavior(hasOutput, states, moves) && j < k < |states| && moves[j] == Checks(e)
    ensures e < |states[k].emitters|
    ensures if states[j].worker.failed || states[j].worker.done
      then states[k].emitters[e].phase == Emitted(Undelivered) && e !in states[k].pipe.accepted
      else states[j + 1].emitters[e].phase == Checked
    decreases k
  {
    assert Enabled(states[k - 1], moves[k - 1]) && states[k] == Do(states[k - 1], moves[k - 1]);
    if k == j + 1 {
      Reachable(hasOutput, states, moves, j);
      assert EmitterOk(states[j], e);
    } else {
      OverMeansRefused(hasOutput, states, moves, j, k - 1, e);
      if states[j].worker.failed || states[j].worker.done {
        RefusedStep(states[k - 1], moves[k - 1], e);
      } else {
        StaysHere(states[k - 1], moves[k - 1]);
      }
    }
  }

  lemma StaysHere(s: State, m: Move)
    requires Enabled(s, m)
    ensures |s.emitters| <= |Do(s, m).emitters|
  {
    hide Written, Synced;
  }
}
