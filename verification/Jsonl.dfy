/**
 The JSON Lines sink (harness/jsonl.go).  Emitters pass an admission token, a bounded queue
 leads to one worker, and closing drains the queue.  Each step is one channel operation or one
 stretch of code that a single party runs; devices may fail at any write or sync.
 */
module Jsonl {
  import opened Outcomes

  const QUEUE_SIZE := 16

  datatype Ack = Delivered | Undelivered

  /** An Emit call: for the token, holding it, past the error check, waiting for room, waiting for its answer, and done. */
  datatype EmitPhase = Entering | Holding | Checked | NoRoom | Waiting | Emitted(ack: Ack)

  /** `box` is the answer channel; `answers` remembers everything ever sent to it. */
  datatype Emitter = Emitter(line: string, phase: EmitPhase, box: Option<Ack>, answers: seq<Ack>)

  datatype ClosePhase = Asking | Locked | Draining | ClosedBy(failed: bool)

  datatype Holder = Nobody | EmitterHolds(e: nat) | CloserHolds(c: nat)

  datatype Gate = Gate(holder: Holder, closed: bool, closers: seq<ClosePhase>)

  /** `accepted` remembers every request ever queued, in order. */
  datatype Pipe = Pipe(queue: seq<nat>, available: bool, accepted: seq<nat>)

  /** The worker: between requests, with one, after its write and before its sync, about to answer, or gone. */
  datatype Phase = Idle | Picked(e: nat) | Wrote(e: nat) | Answering(e: nat, ack: Ack) | Gone

  /** `handled` counts the requests answered so far, `good` the lines written and synced. */
  datatype Worker = Worker(
    phase: Phase, draining: bool, failed: bool, done: bool, closeFailed: bool,
    output: string, handled: nat, good: nat)

  /** How the device reacts to one line. */
  datatype Device = Device(written: nat, writeFails: bool, syncFails: bool)

  datatype State = State(emitters: seq<Emitter>, gate: Gate, pipe: Pipe, worker: Worker)

  /** A sink without an output is born closed and failed, and has no worker. */
  function Born(hasOutput: bool): State {
    State([], Gate(Nobody, !hasOutput, []), Pipe([], false, []),
          Worker(if hasOutput then Idle else Gone, !hasOutput, !hasOutput, !hasOutput, false, "", 0, 0))
  }

  // ---------------------------------------------------------------- emitters

  function SetPhase(s: State, e: nat, phase: EmitPhase): State
    requires e < |s.emitters|
  {
    s.(emitters := s.emitters[e := s.emitters[e].(phase := phase)])
  }

  function HoldBy(s: State, holder: Holder): State {
    s.(gate := s.gate.(holder := holder))
  }

  /** The error check under the token: a failed or finished sink refuses. */
  function Check(s: State, e: nat): State
    requires e < |s.emitters|
  {
    if s.worker.done || s.worker.failed then HoldBy(SetPhase(s, e, Emitted(Undelivered)), Nobody)
    else SetPhase(s, e, Checked)
  }

  function Queue(p: Pipe, e: nat): Pipe {
    p.(queue := p.queue + [e], accepted := p.accepted + [e])
  }

  /** Admission under the token: refused when closed, queued when there is room. */
  function Admit(s: State, e: nat): State
    requires e < |s.emitters|
  {
    if s.gate.closed then HoldBy(SetPhase(s, e, Emitted(Undelivered)), Nobody)
    else if |s.pipe.queue| < QUEUE_SIZE then HoldBy(SetPhase(s, e, Waiting), Nobody).(pipe := Queue(s.pipe, e))
    else HoldBy(SetPhase(s, e, NoRoom), Nobody)
  }

  // ---------------------------------------------------------------- the worker

  function Pick(s: State): State
    requires s.pipe.queue != []
  {
    s.(pipe := s.pipe.(queue := s.pipe.queue[1..], available := true), worker := s.worker.(phase := Picked(s.pipe.queue[0])))
  }

  function Prefix(line: string, n: nat): string {
    if n <= |line| then line[..n] else line
  }

  predicate WritesWell(d: Device, line: string) {
    !d.writeFails && d.written == |line|
  }

  /** A worker whose sink failed writes nothing more; a short write is a failure. */
  function Written(w: Worker, line: string, d: Device): Worker
    requires w.phase.Picked?
  {
    if w.failed then w.(phase := Answering(w.phase.e, Undelivered))
    else if WritesWell(d, line) then w.(output := w.output + line, phase := Wrote(w.phase.e))
    else w.(output := w.output + Prefix(line, d.written), phase := Answering(w.phase.e, Undelivered), failed := true)
  }

  function Synced(w: Worker, d: Device): Worker
    requires w.phase.Wrote?
  {
    if d.syncFails then w.(phase := Answering(w.phase.e, Undelivered), failed := true)
    else w.(phase := Answering(w.phase.e, Delivered), good := w.good + 1)
  }

  function Answer(x: Emitter, ack: Ack): Emitter {
    x.(answers := x.answers + [ack], box := if x.box.None? then Some(ack) else x.box)
  }

  function Answered(s: State): State
    requires s.worker.phase.Answering? && s.worker.phase.e < |s.emitters|
  {
    var e := s.worker.phase.e;
    s.(emitters := s.emitters[e := Answer(s.emitters[e], s.worker.phase.ack)],
       worker := s.worker.(phase := Idle, handled := s.worker.handled + 1))
  }

  /** With nothing left to drain the worker closes the output, if it owns it, and is gone. */
  function Left(w: Worker, closeFails: bool): Worker {
    w.(phase := Gone, done := true, closeFailed := closeFails)
  }

  /** What a finished or failed sink reports. */
  predicate Failing(w: Worker) {
    w.failed || (w.done && w.closeFailed)
  }

  /** One request from the queue to its answer. */
  function Handled(s: State, d: Device): (t: State)
    requires s.pipe.queue != [] && s.pipe.queue[0] < |s.emitters|
    ensures t.worker.phase == Idle && t.pipe.queue == s.pipe.queue[1..] && |t.emitters| == |s.emitters|
  {
    var p := Pick(s);
    var w := Written(p.worker, s.emitters[s.pipe.queue[0]].line, d);
    Answered(p.(worker := if w.phase.Wrote? then Synced(w, d) else w))
  }

  predicate Known(queue: seq<nat>, n: nat) {
    forall i :: 0 <= i < |queue| ==> queue[i] < n
  }

  function Drained(s: State, devices: seq<Device>): State
    requires |devices| == |s.pipe.queue| && Known(s.pipe.queue, |s.emitters|)
    decreases |s.pipe.queue|
  {
    if s.pipe.queue == [] then s else Drained(Handled(s, devices[0]), devices[1..])
  }

  // ---------------------------------------------------------------- the sink in place

  class Sink {
    var emitters: seq<Emitter>
    var gate: Gate
    var pipe: Pipe
    var worker: Worker

    ghost function Now(): State
      reads this
    {
      State(emitters, gate, pipe, worker)
    }

    ghost predicate Valid()
      reads this
    {
      && Known(pipe.queue, |emitters|)
      && (worker.phase.Picked? || worker.phase.Wrote? || worker.phase.Answering? ==> worker.phase.e < |emitters|)
    }

    constructor (hasOutput: bool)
      ensures Valid() && Now() == Born(hasOutput)
    {
      emitters, gate, pipe := [], Gate(Nobody, !hasOutput, []), Pipe([], false, []);
      worker := Worker(if hasOutput then Idle else Gone, !hasOutput, !hasOutput, !hasOutput, false, "", 0, 0);
    }

    /** The first part of Emit under the token; a failed or finished sink gives the token back. */
    method CheckError(e: nat) returns (refused: bool)
      requires Valid() && e < |emitters|
      modifies `emitters, `gate
      ensures Valid() && Now() == Check(old(Now()), e) && (refused <==> worker.done || worker.failed)
    {
      refused := worker.done || worker.failed;
      if refused {
        emitters := emitters[e := emitters[e].(phase := Emitted(Undelivered))];
        gate := gate.(holder := Nobody);
      } else {
        emitters := emitters[e := emitters[e].(phase := Checked)];
      }
    }

    /** The second part: queue the request when the sink is open and there is room, and give the token back. */
    method TryAdmit(e: nat)
      requires Valid() && e < |emitters|
      modifies `emitters, `gate, `pipe
      ensures Valid() && Now() == Admit(old(Now()), e)
    {
      var phase := NoRoom;
      if gate.closed {
        phase := Emitted(Undelivered);
      } else if |pipe.queue| < QUEUE_SIZE {
        phase := Waiting;
        pipe := pipe.(queue := pipe.queue + [e], accepted := pipe.accepted + [e]);
      }
      emitters := emitters[e := emitters[e].(phase := phase)];
      gate := gate.(holder := Nobody);
    }

    method PickNext()
      requires Valid() && pipe.queue != []
      modifies `pipe, `worker
      ensures Valid() && Now() == Pick(old(Now()))
    {
      worker := worker.(phase := Picked(pipe.queue[0]));
      pipe := pipe.(queue := pipe.queue[1..], available := true);
    }

    method WriteLine(d: Device)
      requires Valid() && worker.phase.Picked?
      modifies `worker
      ensures Valid() && worker == Written(old(worker), emitters[old(worker).phase.e].line, d)
    {
      var e := worker.phase.e;
      if worker.failed {
        worker := worker.(phase := Answering(e, Undelivered));
        return;
      }
      var line := emitters[e].line;
      var fails := d.writeFails;
      if !fails && d.written != |line| {
        fails := true;
      }
      worker := worker.(output := worker.output + Prefix(line, d.written));
      if fails {
        worker := worker.(failed := true, phase := Answering(e, Undelivered));
      } else {
        assert Prefix(line, d.written) == line;
        worker := worker.(phase := Wrote(e));
      }
    }

    method SyncLine(d: Device)
      requires Valid() && worker.phase.Wrote?
      modifies `worker
      ensures Valid() && worker == Synced(old(worker), d)
    {
      var e := worker.phase.e;
      if d.syncFails {
        worker := worker.(failed := true, phase := Answering(e, Undelivered));
      } else {
        worker := worker.(good := worker.good + 1, phase := Answering(e, Delivered));
      }
    }

    method SendAnswer()
      requires Valid() && worker.phase.Answering?
      modifies `emitters, `worker
      ensures Valid() && Now() == Answered(old(Now()))
    {
      var e, ack := worker.phase.e, worker.phase.ack;
      var x := emitters[e];
      emitters := emitters[e := x.(answers := x.answers + [ack], box := if x.box.None? then Some(ack) else x.box)];
      worker := worker.(phase := Idle, handled := worker.handled + 1);
    }

    /** The worker's handling of the next request. */
    method HandleNext(d: Device)
      requires Valid() && pipe.queue != []
      modifies `emitters, `pipe, `worker
      ensures Valid() && Now() == Handled(old(Now()), d)
    {
      PickNext();
      WriteLine(d);
      if worker.phase.Wrote? {
        SyncLine(d);
      }
      hide Written, Synced;
      SendAnswer();
    }

    /** What closing waits for: every accepted request is handled, and then the output is closed. */
    method Drain(devices: seq<Device>, closeFails: bool)
      requires Valid() && |devices| == |pipe.queue|
      modifies `emitters, `pipe, `worker
      ensures var t := Drained(old(Now()), devices); Now() == t.(worker := Left(t.worker, closeFails))
      ensures pipe.queue == [] && worker.done
    {
      hide Handled;
      ghost var before := Now();
      var n := 0;
      while |pipe.queue| > 0
        invariant Valid() && n + |pipe.queue| == |devices|
        invariant gate == old(gate) && Drained(before, devices) == Drained(Now(), devices[n..])
        decreases |pipe.queue|
      {
        assert devices[n..][1..] == devices[n + 1..];
        HandleNext(devices[n]);
        n := n + 1;
      }
      worker := worker.(phase := Gone, done := true, closeFailed := closeFails);
    }
  }
}
