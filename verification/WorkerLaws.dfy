/**
 What a worker shows of its work beside its reports: the outcome of a visit, the problems of a round,
 and how bands are compared.
 */
module WorkerLaws {
  import opened Outcomes
  import opened CheckLoop
  import opened CheckMeaning
  import opened Plans
  import opened Rounds
  import opened Reports
  import opened Runs

  // ---------------------------------------------------------------- the outcome of a visit

  function OptionalOutcomes(c: Option<Checked>): seq<Outcome> {
    if c.Some? then [c.value.report.outcome] else []
  }

  /** The outcomes of the checks that were run. */
  function RanOutcomes(checks: seq<Checked>): seq<Outcome> {
    if checks == [] then []
    else
      var r := checks[|checks| - 1].report;
      RanOutcomes(checks[..|checks| - 1]) + if r.reason == Prerequisite then [] else [r.outcome]
  }

  function CleanupOutcomes(ops: seq<CleanedOp>): seq<Outcome> {
    seq(|ops|, i requires 0 <= i < |ops| => ops[i].outcome)
  }

  lemma {:induction false} RanJoin(checks: seq<Checked>)
    ensures ChecksOutcome(checks) == Join(RanOutcomes(checks))
  {
    if checks != [] {
      var front, r := checks[..|checks| - 1], checks[|checks| - 1].report;
      RanJoin(front);
      if r.reason == Prerequisite {
        assert RanOutcomes(checks) == RanOutcomes(front);
      } else {
        JoinAppend(RanOutcomes(front), r.outcome);
      }
    }
  }

  lemma {:induction false} CleanupJoin(ops: seq<CleanedOp>)
    ensures CleanupOutcome(ops) == Join(CleanupOutcomes(ops))
  {
    if ops != [] {
      CleanupJoin(ops[..|ops| - 1]);
      assert CleanupOutcomes(ops) == CleanupOutcomes(ops[..|ops| - 1]) + [ops[|ops| - 1].outcome];
      JoinAppend(CleanupOutcomes(ops[..|ops| - 1]), ops[|ops| - 1].outcome);
    }
  }

  lemma OptionalJoin(c: Option<Checked>)
    ensures OutcomeOf(c) == Join(OptionalOutcomes(c))
  {
    if c.Some? {
      assert [c.value.report.outcome][..0] == [];
    }
  }

  /** A visit shows the worst of everything it ran: connection, wait, checks that no prerequisite kept from running, and cleanup. */
  lemma VisitShowsWorst(v: Visit)
    requires v.Visited?
    ensures VisitOutcome(v) ==
      Join(OptionalOutcomes(v.connect) + OptionalOutcomes(v.wait) + RanOutcomes(v.checks) + CleanupOutcomes(v.cleanup))
  {
    hide Join, Combine, ChecksOutcome, CleanupOutcome, RanOutcomes, CleanupOutcomes, OptionalOutcomes, OutcomeOf;
    OptionalJoin(v.connect);
    OptionalJoin(v.wait);
    RanJoin(v.checks);
    CleanupJoin(v.cleanup);
    JoinConcat(OptionalOutcomes(v.connect), OptionalOutcomes(v.wait));
    JoinConcat(OptionalOutcomes(v.connect) + OptionalOutcomes(v.wait), RanOutcomes(v.checks));
    JoinConcat(OptionalOutcomes(v.connect) + OptionalOutcomes(v.wait) + RanOutcomes(v.checks), CleanupOutcomes(v.cleanup));
  }

  // ---------------------------------------------------------------- cleanup

  /** A cleanup operation passes exactly when it could be built, was dispatched and came back without error, with success, the expected payload and nothing against it. */
  lemma {:induction false} CleanupPasses(w: Worker, n: Network, ops: seq<Command>, k: Clock, i: nat)
    requires i < |ops|
    ensures var op := RunCleanup(w, n, ops, k).0[i]; var r := w.oracle(Acquiring, k.next + i);
      && op.parts == (if ops[i] == ForgetWifi && !n.forgettable then [] else [ops[i]])
      && (op.outcome == Pass <==>
            && (ops[i] == ForgetWifi ==> n.forgettable)
            && r.error == NoError && r.raw.Typed? && r.raw.status == StatusOk && r.raw.payload
            && forall f :: f in r.raw.findings ==> f.passed && !f.missing)
  {
    hide Evaluate;
    var reply := w.oracle(Acquiring, k.next);
    AttemptPasses(reply.error, None, reply.raw);
    if i > 0 {
      CleanupPasses(w, n, ops[1..], Clock(k.now + reply.advance, k.next + 1), i - 1);
    }
  }

  // ---------------------------------------------------------------- problems

  function One(b: bool): nat {
    if b then 1 else 0
  }

  function CheckedProblems(checks: seq<Checked>): nat {
    if checks == [] then 0 else CheckedProblems(checks[..|checks| - 1]) + One(checks[|checks| - 1].problem)
  }

  function OptionalProblems(c: Option<Checked>): nat {
    One(c.Some? && c.value.problem)
  }

  /** A rotation that cannot be built is a problem of its own. */
  function RotationProblems(r: RotationTry): nat {
    One(r.Unbuilt? || r.result.problem)
  }

  function RotationsProblems(tries: seq<RotationTry>): nat {
    if tries == [] then 0 else RotationsProblems(tries[..|tries| - 1]) + RotationProblems(tries[|tries| - 1])
  }

  function CleanupProblems(ops: seq<CleanedOp>): nat {
    if ops == [] then 0 else CleanupProblems(ops[..|ops| - 1]) + One(ops[|ops| - 1].outcome != Pass)
  }

  function VisitProblems(v: Visit): nat {
    (if v.rotation.Some? then RotationProblems(v.rotation.value) else 0)
    + if v.Visited? then OptionalProblems(v.connect) + OptionalProblems(v.wait) + CheckedProblems(v.checks) + CleanupProblems(v.cleanup) else 0
  }

  function VisitsProblems(visits: seq<Visit>): nat {
    if visits == [] then 0 else VisitsProblems(visits[..|visits| - 1]) + VisitProblems(visits[|visits| - 1])
  }

  function Count(actions: seq<Action>): nat {
    |ProblemsOf(actions)|
  }

  lemma CountConcat(a: seq<Action>, b: seq<Action>)
    ensures Count(a + b) == Count(a) + Count(b)
  {
    ProblemsConcat(a, b);
  }

  lemma CountOne(a: Action)
    ensures Count([a]) == One(a.Problem?) && Count([]) == 0
  {
    var s := [a];
    assert s[..|s| - 1] == [] && ProblemsOf([]) == [];
    assert ProblemsOf(s) == ProblemsOf([]) + if a.Problem? then [ProblemRecord(a.kind, a.agent, a.round)] else [];
  }

  lemma CheckedCount(w: Worker, c: Checked)
    ensures Count(CheckedActions(w, c)) == One(c.problem)
  {
    hide Count;
    CountOne(Problem(w.agent, w.round, Primary));
    CountOne(Record(c.report));
    CountConcat(if c.problem then [Problem(w.agent, w.round, Primary)] else [], [Record(c.report)]);
  }

  lemma OptionalCount(w: Worker, c: Option<Checked>)
    ensures Count(OptionalActions(w, c)) == OptionalProblems(c)
  {
    if c.Some? {
      CheckedCount(w, c.value);
    }
  }

  lemma RotationCount(w: Worker, r: RotationTry)
    ensures Count(RotationActions(w, r)) == RotationProblems(r)
  {
    hide Count;
    if r.Tried? {
      CheckedCount(w, r.result);
    } else {
      CountOne(Problem(w.agent, w.round, Primary));
    }
  }

  lemma {:induction false} RotationsCount(w: Worker, tries: seq<RotationTry>)
    ensures Count(RotationsActions(w, tries)) == RotationsProblems(tries)
  {
    if tries != [] {
      hide Count;
      RotationsCount(w, tries[..|tries| - 1]);
      RotationCount(w, tries[|tries| - 1]);
      CountConcat(RotationsActions(w, tries[..|tries| - 1]), RotationActions(w, tries[|tries| - 1]));
    }
  }

  lemma {:induction false} ChecksCount(w: Worker, checks: seq<Checked>)
    ensures Count(CheckedAllActions(w, checks)) == CheckedProblems(checks)
  {
    if checks != [] {
      hide Count;
      ChecksCount(w, checks[..|checks| - 1]);
      CheckedCount(w, checks[|checks| - 1]);
      CountConcat(CheckedAllActions(w, checks[..|checks| - 1]), CheckedActions(w, checks[|checks| - 1]));
    }
  }

  lemma {:induction false} SkipsCount(skips: seq<StepReport>)
    ensures Count(SkipActions(skips)) == 0
  {
    if skips != [] {
      hide Count;
      SkipsCount(skips[..|skips| - 1]);
      CountOne(Record(skips[|skips| - 1]));
      CountConcat(SkipActions(skips[..|skips| - 1]), [Record(skips[|skips| - 1])]);
    }
  }

  lemma {:induction false} PartsCount(w: Worker, t: Target, parts: seq<Command>)
    ensures Count(PartActions(w, t, parts)) == 0
  {
    if parts != [] {
      hide Count;
      PartsCount(w, t, parts[..|parts| - 1]);
      CountOne(Cleaned(w.agent, w.round, t.id, parts[|parts| - 1]));
      CountConcat(PartActions(w, t, parts[..|parts| - 1]), [Cleaned(w.agent, w.round, t.id, parts[|parts| - 1])]);
    }
  }

  lemma CleanedCount(w: Worker, t: Target, op: CleanedOp)
    ensures Count(CleanedActions(w, t, op)) == One(op.outcome != Pass)
  {
    hide Count;
    PartsCount(w, t, op.parts);
    CountOne(Problem(w.agent, w.round, Cleanup));
    CountConcat(if op.outcome != Pass then [Problem(w.agent, w.round, Cleanup)] else [], PartActions(w, t, op.parts));
  }

  lemma {:induction false} CleanupCount(w: Worker, t: Target, ops: seq<CleanedOp>)
    ensures Count(CleanupActions(w, t, ops)) == CleanupProblems(ops)
  {
    if ops != [] {
      hide Count;
      CleanupCount(w, t, ops[..|ops| - 1]);
      CleanedCount(w, t, ops[|ops| - 1]);
      CountConcat(CleanupActions(w, t, ops[..|ops| - 1]), CleanedActions(w, t, ops[|ops| - 1]));
    }
  }

  lemma VisitCount(w: Worker, t: Target, v: Visit)
    ensures Count(VisitActions(w, t, v)) == VisitProblems(v)
  {
    hide Count, OptionalActions, CheckedAllActions, CleanupActions, RotationActions, SkipActions, OptionalProblems, CheckedProblems, CleanupProblems, RotationProblems;
    CountOne(Progress(w.agent, w.round, Pass));
    var head := if v.rotation.Some? then RotationActions(w, v.rotation.value) else [];
    if v.rotation.Some? {
      RotationCount(w, v.rotation.value);
    }
    if v.Barred? {
      SkipsCount(v.skips);
      CountConcat(head, SkipActions(v.skips));
    } else {
      var a, b, c, d := OptionalActions(w, v.connect), OptionalActions(w, v.wait), CheckedAllActions(w, v.checks), CleanupActions(w, t, v.cleanup);
      var last := Progress(w.agent, w.round, VisitOutcome(v));
      OptionalCount(w, v.connect);
      OptionalCount(w, v.wait);
      ChecksCount(w, v.checks);
      CleanupCount(w, t, v.cleanup);
      CountOne(last);
      CountConcat(a, b);
      CountConcat(a + b, c);
      CountConcat(a + b + c, d);
      CountConcat(a + b + c + d, [last]);
      CountConcat(head, a + b + c + d + [last]);
    }
  }

  lemma {:induction false} VisitsCount(w: Worker, targets: seq<Target>, visits: seq<Visit>)
    requires |visits| == |targets|
    ensures Count(VisitsActions(w, targets, visits)) == VisitsProblems(visits)
  {
    if visits != [] {
      hide Count, VisitActions, VisitProblems;
      var n := |visits| - 1;
      VisitsCount(w, targets[..n], visits[..n]);
      VisitCount(w, targets[n], visits[n]);
      CountOne(Progress(w.agent, w.round, Pass));
      CountConcat(VisitsActions(w, targets[..n], visits[..n]), [Progress(w.agent, w.round, Pass)]);
      CountConcat(VisitsActions(w, targets[..n], visits[..n]) + [Progress(w.agent, w.round, Pass)], VisitActions(w, targets[n], visits[n]));
    }
  }

  /**
   The problems of a round, counted: one for each step that met a failure and did not pass in the
   end, each rotation that cannot be built, and each cleanup operation that did not pass.
   */
  lemma ProblemsCounted(w: Worker, targets: seq<Target>, r: AgentRound)
    requires |r.visits| == |targets|
    ensures |ProblemsOf(RoundActions(w, targets, r))| ==
      OptionalProblems(r.preflight) + RotationsProblems(r.before) + VisitsProblems(r.visits) + RotationsProblems(r.after)
  {
    var mark := [Progress(w.agent, w.round, Pass)];
    var a, b, c, d := OptionalActions(w, r.preflight), RotationsActions(w, r.before), VisitsActions(w, targets, r.visits), RotationsActions(w, r.after);
    CountOne(mark[0]);
    OptionalCount(w, r.preflight);
    RotationsCount(w, r.before);
    VisitsCount(w, targets, r.visits);
    RotationsCount(w, r.after);
    CountConcat(mark, a);
    CountConcat(mark + a, b);
    CountConcat(mark + a + b, c);
    CountConcat(mark + a + b + c, d);
    CountConcat(mark + a + b + c + d, mark);
    assert Count(RoundActions(w, targets, r)) == |ProblemsOf(RoundActions(w, targets, r))|;
  }

  // ---------------------------------------------------------------- bands

  predicate Capital(c: char) {
    'A' <= c <= 'Z'
  }

  predicate Plain(band: string) {
    forall c :: c in band ==> c != ' ' && !Capital(c)
  }

  /** One letter: a space goes, a capital becomes the small letter that stands 32 places behind. */
  function Letter(c: char): string {
    if c == ' ' then "" else if Capital(c) then [(c as int + 32) as char] else [c]
  }

  lemma LetterPlain(c: char)
    ensures Plain(Letter(c)) && (c != ' ' && !Capital(c) ==> Letter(c) == [c])
  {
  }

  lemma PlainNothing()
    ensures Plain("")
  {
  }

  lemma PlainParts(band: string)
    requires band != ""
    ensures Plain(band) <==> band[0] != ' ' && !Capital(band[0]) && Plain(band[1..])
  {
    assert band == [band[0]] + band[1..];
    if Plain(band) {
      assert band[0] in band;
      forall c | c in band[1..]
        ensures c != ' ' && !Capital(c)
      {
        assert c in band;
      }
    } else {
      var c :| c in band && (c == ' ' || Capital(c));
      assert c == band[0] || c in band[1..];
    }
  }

  lemma PlainBoth(a: string, b: string)
    ensures Plain(a + b) <==> Plain(a) && Plain(b)
  {
    if !Plain(a) {
      var c :| c in a && (c == ' ' || Capital(c));
      assert c in a + b;
    } else if !Plain(b) {
      var c :| c in b && (c == ' ' || Capital(c));
      assert c in a + b;
    }
  }

  lemma NoBand()
    ensures NormalizeBand("") == ""
  {
  }

  lemma FirstLetter(band: string)
    requires band != ""
    ensures NormalizeBand(band) == Letter(band[0]) + NormalizeBand(band[1..])
  {
  }

  /** Bands are compared without spaces and without regard to case: the normal form has neither spaces nor capitals, and is the band where that has none. */
  lemma {:induction false} BandNormalForm(band: string)
    ensures Plain(NormalizeBand(band)) && (Plain(band) ==> NormalizeBand(band) == band)
  {
    hide NormalizeBand, Letter, Plain, Capital;
    assert Plain("") by { PlainNothing(); }
    if band == "" {
      NoBand();
    } else {
      BandNormalForm(band[1..]);
      FirstLetter(band);
      LetterPlain(band[0]);
      PlainBoth(Letter(band[0]), NormalizeBand(band[1..]));
      PlainParts(band);
      assert band == [band[0]] + band[1..];
    }
  }

  /** Letter by letter. */
  lemma {:induction false} BandsByLetter(a: string, b: string)
    ensures NormalizeBand(a + b) == NormalizeBand(a) + NormalizeBand(b)
  {
    hide NormalizeBand, Letter;
    if a == "" {
      NoBand();
      assert a + b == b;
    } else {
      BandsByLetter(a[1..], b);
      FirstLetter(a);
      FirstLetter(a + b);
      assert (a + b)[0] == a[0] && (a + b)[1..] == a[1..] + b;
    }
  }
}
