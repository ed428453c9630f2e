/**
 Step outcomes and the severity join that folds them into one verdict.
 */
module Outcomes {

  datatype Outcome = Pass | Skip | Canceled | Missing | Fail

  datatype Option<+T> = None | Some(value: T)

  function Rank(o: Outcome): nat {
    match o
    case Pass => 0
    case Skip => 1
    case Canceled => 2
    case Missing => 3
    case Fail => 4
  }

  function Combine(a: Outcome, b: Outcome): Outcome {
    if Rank(b) > Rank(a) then b else a
  }

  /** The join of a whole sequence of outcomes. */
  function Join(s: seq<Outcome>): Outcome {
    if s == [] then Pass else Combine(Join(s[..|s| - 1]), s[|s| - 1])
  }

  lemma {:induction false} JoinAppend(s: seq<Outcome>, o: Outcome)
    ensures Join(s + [o]) == Combine(Join(s), o)
  {
    assert (s + [o])[..|s|] == s;
  }

  /** The join is the worst outcome that occurs: it is an upper bound and it is attained. */
  lemma {:induction false} JoinIsWorst(s: seq<Outcome>)
    ensures forall o :: o in s ==> Rank(o) <= Rank(Join(s))
    ensures Join(s) in s || Join(s) == Pass
  {
    if s != [] {
      var front, last := s[..|s| - 1], s[|s| - 1];
      JoinIsWorst(front);
      forall o | o in s
        ensures Rank(o) <= Rank(Join(s))
      {
        assert o in front || o == last;
      }
      if Join(s) in front {
        assert front <= s;
      }
    }
  }

  /** The order of severity, spelt out: one failure fails the whole, and so on down to all passing. */
  lemma JoinIs(s: seq<Outcome>)
    ensures Join(s) == Fail <==> Fail in s
    ensures Join(s) == Missing <==> Missing in s && Fail !in s
    ensures Join(s) == Canceled <==> Canceled in s && Missing !in s && Fail !in s
    ensures Join(s) == Skip <==> Skip in s && forall o :: o in s ==> o == Skip || o == Pass
    ensures Join(s) == Pass <==> forall o :: o in s ==> o == Pass
  {
    JoinIsWorst(s);
  }

  /** The join depends only on which outcomes occur, not on their order or number. */
  lemma JoinIgnoresOrder(s: seq<Outcome>, t: seq<Outcome>)
    requires forall o :: o in s <==> o in t
    ensures Join(s) == Join(t)
  {
    JoinIsWorst(s);
    JoinIsWorst(t);
  }
}
