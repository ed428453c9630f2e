/**
 What one attempt dispatches and how it ends, case by case.
 */
module AttemptLaws {
  import opened Outcomes
  import opened CheckLoop

  // ---------------------------------------------------------------- dispatches

  /** What the first of two acquisitions must return for the second to be made. */
  predicate Usable(compound: Compound, first: FirstPart) {
    match compound
    case Atomic => true
    case FreshScan => !first.failed && first.present && first.status != StatusCanceled && first.payload
    case Gateway => !first.failed && first.present && first.status == StatusOk && first.payload && first.route
  }

  /** An attempt dispatches nothing if its operation does not build, all it is priced at if the first part is of use, and else the first part alone. */
  lemma DispatchedExactly(op: Operation, builds: bool, first: FirstPart)
    ensures var parts, all := Acquire(op, builds, first), Constituents(op);
      && |all| == (if op.compound == Atomic then 1 else 2)
      && |parts| == (if !builds then 0 else if Usable(op.compound, first) then |all| else 1)
      && parts <= all
      && (op.compound == Gateway ==> all == [GetIpStatus, Ping])
      && (op.compound == FreshScan ==> all == [GetFreshWifiScan, op.command])
      && (op.compound == Atomic ==> all == [op.command])
  {
  }

  // ---------------------------------------------------------------- outcomes

  predicate Refuted(findings: seq<Finding>) {
    exists f :: f in findings && !f.missing && !f.passed
  }

  predicate Incomplete(findings: seq<Finding>) {
    exists f :: f in findings && f.missing
  }

  lemma {:induction false} FindingsAre(outcome: Outcome, findings: seq<Finding>)
    requires outcome == Pass || outcome == Fail
    ensures FindingsOutcome(outcome, findings) ==
      if outcome == Fail || Refuted(findings) then Fail else if Incomplete(findings) then Missing else Pass
  {
    if findings != [] {
      var n := |findings| - 1;
      FindingsAre(outcome, findings[..n]);
      assert findings == findings[..n] + [findings[n]];
      assert Refuted(findings) <==> Refuted(findings[..n]) || (!findings[n].missing && !findings[n].passed) by {
        if !findings[n].missing && !findings[n].passed {
          assert findings[n] in findings;
        }
        if Refuted(findings[..n]) {
          var f :| f in findings[..n] && !f.missing && !f.passed;
          assert f in findings;
        }
      }
      assert Incomplete(findings) <==> Incomplete(findings[..n]) || findings[n].missing by {
        if findings[n].missing {
          assert findings[n] in findings;
        }
        if Incomplete(findings[..n]) {
          var f :| f in findings[..n] && f.missing;
          assert f in findings;
        }
      }
    }
  }

  /** An operator ended the step, and no other failure came first. */
  predicate Ended(error: ErrorKind, cause: Option<Cause>, operator: Cause) {
    cause == Some(operator) && error != Failure
  }

  predicate Returned(error: ErrorKind, cause: Option<Cause>, raw: Raw) {
    error == NoError && !Ended(error, cause, OperatorSkip) && !Ended(error, cause, OperatorCancel) && raw.Typed?
  }

  /**
   How an attempt ends.  Skip if an operator skipped it.  Canceled if one canceled it, or the agent
   says so.  Fail if there was any other error, the agent's status is no success, or it returned the
   expected payload with a finding against it.  Missing if there is no result or no expected payload,
   or a finding is missing and none is against it.  Pass otherwise.
   */
  lemma AttemptEnds(error: ErrorKind, cause: Option<Cause>, raw: Raw)
    ensures var o, r := Evaluate(error, cause, raw), Returned(error, cause, raw);
      var skipped, canceled := Ended(error, cause, OperatorSkip), Ended(error, cause, OperatorCancel);
      && (o == Skip <==> skipped)
      && (o == Canceled <==> canceled || (r && raw.status == StatusCanceled))
      && (o == Fail <==>
            || (error != NoError && !skipped && !canceled)
            || (r && raw.status == StatusOther)
            || (r && raw.status == StatusOk && raw.payload && Refuted(raw.findings)))
      && (o == Missing <==>
            || (error == NoError && !skipped && !canceled && raw.NoResult?)
            || (r && raw.status == StatusOk && !raw.payload)
            || (r && raw.status == StatusOk && raw.payload && Incomplete(raw.findings) && !Refuted(raw.findings)))
  {
    hide Refuted, Incomplete;
    if raw.Typed? {
      FindingsAre(if raw.status == StatusOk then Pass else Fail, raw.findings);
    }
  }

  // ---------------------------------------------------------------- the error of an attempt

  /**
   What keeps an attempt from a result: its own error; else the deadline of its policy, or of eventual
   success unless the step was ended before; else the end of its context.
   */
  lemma ErrorOfAttempt(c: Ctx, eventual: Option<int>, r: Reply)
    ensures var e := AttemptError(c, eventual, r);
      var late := c.done == Some(Deadline) || (eventual.Some? && c.now >= eventual.value && (c.done.None? || !r.cancelFirst));
      && (e == NoError <==> r.error == NoError && c.done.None? && !late)
      && (e == Failure <==> r.error == Failure || (r.error == NoError && late))
  {
  }
}
