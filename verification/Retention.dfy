/**
 What reports keep of cleanup and problems: everything in a finite run; in a loop the cleanup of the
 last two rounds, and every problem that belongs to the run as a whole or to a recent round.
 */
module Retention {
  import opened Plans
  import opened Reports
  import opened Runs

  // ---------------------------------------------------------------- cleanup

  lemma {:induction false} KeepCleanupConcat(a: seq<CleanupPart>, b: seq<CleanupPart>, round: nat)
    ensures KeepCleanup(a + b, round) == KeepCleanup(a, round) + KeepCleanup(b, round)
  {
    if b == [] {
      assert a + b == a;
    } else {
      KeepCleanupConcat(a, b[..|b| - 1], round);
      assert (a + b)[..|a + b| - 1] == a + b[..|b| - 1];
    }
  }

  lemma {:induction false} KeepCleanupUniform(parts: seq<CleanupPart>, of: nat, round: nat)
    requires forall c :: c in parts ==> c.round == of
    ensures KeepCleanup(parts, round) == if of < round then [] else parts
  {
    if parts != [] {
      var front, last := parts[..|parts| - 1], parts[|parts| - 1];
      assert last in parts && forall c :: c in front ==> c in parts;
      KeepCleanupUniform(front, of, round);
      assert parts == front + [last];
    }
  }

  lemma {:induction false} CleanupMembers(log: seq<Action>)
    ensures forall c :: c in CleanupOf(log) ==> Cleaned(c.agent, c.round, c.target, c.command) in log
  {
    if log != [] {
      CleanupMembers(log[..|log| - 1]);
      assert log == log[..|log| - 1] + [log[|log| - 1]];
    }
  }

  lemma RoundCleanup(plan: Plan, round: nat, r: RoundLog)
    requires ValidPlan(plan) && Interleaved(plan, round, r, false)
    ensures forall c :: c in CleanupOf(r.log) ==> c.round == round
  {
    hide Interleaved, ValidPlan;
    CleanupMembers(r.log);
    forall c | c in CleanupOf(r.log)
      ensures c.round == round
    {
      RoundOwn(plan, round, r, false, Cleaned(c.agent, c.round, c.target, c.command));
      IsStarted(plan, round, r, false);
    }
  }

  function CleanupOfRound(rounds: seq<RoundLog>, n: int): seq<CleanupPart> {
    if 1 <= n <= |rounds| then CleanupOf(rounds[n - 1].log) else []
  }

  /** A loop retains the cleanup records of its last two rounds, all of them and nothing else. */
  lemma {:induction false} LoopRetainsCleanup(plan: Plan, rounds: seq<RoundLog>)
    requires ValidPlan(plan) && Run(plan, rounds)
    ensures ReportAt(plan, rounds, true).cleanup == CleanupOfRound(rounds, |rounds| - 1) + CleanupOfRound(rounds, |rounds|)
  {
    hide Run, ValidPlan, ApplyAll, KeepCleanup, CleanupOf, Interleaved, Totals;
    if rounds != [] {
      var n := |rounds|;
      var before := rounds[..n - 1];
      RunBefore(plan, rounds);
      LoopRetainsCleanup(plan, before);
      ReportStep(plan, rounds, true);
      ApplyAllIs(RoundStart(ReportAt(plan, before, true), n, true), rounds[n - 1].log);
      if n >= 3 {
        RunBefore(plan, before);
        RunBefore(plan, before[..n - 2]);
        RoundCleanup(plan, n - 1, before[n - 2]);
        RoundCleanup(plan, n - 2, before[..n - 2][n - 3]);
        var older, last := CleanupOfRound(rounds, n - 2), CleanupOfRound(rounds, n - 1);
        KeepCleanupConcat(older, last, n - 1);
        KeepCleanupUniform(older, n - 2, n - 1);
        KeepCleanupUniform(last, n - 1, n - 1);
      }
    }
  }

  // ---------------------------------------------------------------- problems

  /** The problems of the run as a whole, and of the rounds from a given one on. */
  function Recent(problems: seq<ProblemRecord>, from: int): seq<ProblemRecord> {
    if problems == [] then []
    else
      var p := problems[|problems| - 1];
      Recent(problems[..|problems| - 1], from) + if p.round == 0 || p.round >= from then [p] else []
  }

  lemma {:induction false} RecentConcat(a: seq<ProblemRecord>, b: seq<ProblemRecord>, from: int)
    ensures Recent(a + b, from) == Recent(a, from) + Recent(b, from)
  {
    if b == [] {
      assert a + b == a;
    } else {
      RecentConcat(a, b[..|b| - 1], from);
      assert (a + b)[..|a + b| - 1] == a + b[..|b| - 1];
    }
  }

  lemma RecentOne(p: ProblemRecord, from: int)
    ensures Recent([p], from) == if p.round == 0 || p.round >= from then [p] else []
  {
    assert [p][..0] == [];
  }

  /** Letting go of what is older loses nothing recent. */
  lemma {:induction false} RecentKept(problems: seq<ProblemRecord>, round: nat, from: int)
    requires round <= from
    ensures Recent(KeepProblems(problems, round), from) == Recent(problems, from)
  {
    if problems != [] {
      var front, p := problems[..|problems| - 1], problems[|problems| - 1];
      RecentKept(front, round, from);
      RecentConcat(KeepProblems(front, round), if Evictable(p, round) then [] else [p], from);
      RecentOne(p, from);
      assert Recent([], from) == [];
    }
  }

  lemma {:induction false} RecentAgain(problems: seq<ProblemRecord>, from: int, later: int)
    requires from <= later
    ensures Recent(Recent(problems, from), later) == Recent(problems, later)
  {
    if problems != [] {
      var front, p := problems[..|problems| - 1], problems[|problems| - 1];
      RecentAgain(front, from, later);
      RecentConcat(Recent(front, from), if p.round == 0 || p.round >= from then [p] else [], later);
      RecentOne(p, later);
      assert Recent([], later) == [];
    }
  }

  /**
   A loop lists every problem ever raised that belongs to the run as a whole, to the current round or
   to the one before, in the order in which they were raised.
   */
  lemma {:induction false} LoopListsRecentProblems(plan: Plan, rounds: seq<RoundLog>)
    requires ValidPlan(plan) && Run(plan, rounds)
    ensures var n := |rounds|; Recent(ReportAt(plan, rounds, true).problems, n - 1) == Recent(ProblemsOf(History(rounds)), n - 1)
  {
    hide Run, ValidPlan, ApplyAll, KeepProblems, ProblemsOf, Interleaved, Totals, Recent;
    if rounds == [] {
      NothingRaised();
    } else {
      var n := |rounds|;
      var before, log := ReportAt(plan, rounds[..n - 1], true), rounds[n - 1].log;
      var past := ProblemsOf(History(rounds[..n - 1]));
      RunBefore(plan, rounds);
      LoopListsRecentProblems(plan, rounds[..n - 1]);
      ReportStep(plan, rounds, true);
      ApplyAllIs(RoundStart(before, n, true), log);
      ProblemsConcat(History(rounds[..n - 1]), log);
      RecentConcat(RoundStart(before, n, true).problems, ProblemsOf(log), n - 1);
      RecentConcat(past, ProblemsOf(log), n - 1);
      RecentAgain(before.problems, n - 2, n - 1);
      RecentAgain(past, n - 2, n - 1);
      if n >= 3 {
        RecentKept(before.problems, n - 1, n - 1);
      }
    }
  }

  lemma NothingRaised()
    ensures ProblemsOf([]) == []
  {
  }

  lemma {:induction false} CleanupConcat(a: seq<Action>, b: seq<Action>)
    ensures CleanupOf(a + b) == CleanupOf(a) + CleanupOf(b)
  {
    if b == [] {
      assert a + b == a;
    } else {
      CleanupConcat(a, b[..|b| - 1]);
      assert (a + b)[..|a + b| - 1] == a + b[..|b| - 1];
    }
  }

  /** A finite run retains every cleanup record and lists every problem. */
  lemma {:induction false} FiniteKeepsAll(plan: Plan, rounds: seq<RoundLog>)
    requires ValidPlan(plan) && Run(plan, rounds)
    ensures var v := ReportAt(plan, rounds, false);
      v.cleanup == CleanupOf(History(rounds)) && v.problems == ProblemsOf(History(rounds))
  {
    hide Run, ValidPlan, ApplyAll, Interleaved, Totals;
    if rounds != [] {
      var n := |rounds|;
      RunBefore(plan, rounds);
      FiniteKeepsAll(plan, rounds[..n - 1]);
      ReportStep(plan, rounds, false);
      ApplyAllIs(ReportAt(plan, rounds[..n - 1], false), rounds[n - 1].log);
      CleanupConcat(History(rounds[..n - 1]), rounds[n - 1].log);
      ProblemsConcat(History(rounds[..n - 1]), rounds[n - 1].log);
    }
  }
}
