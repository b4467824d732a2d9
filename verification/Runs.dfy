/** Runs of a machine that answers every request: its states and its answers. */
module Runs {

  datatype Machine<!S, !Q> = Machine(step: (S, Q) -> S, grants: (S, Q) -> bool)

  /** The state after the first k requests. */
  function StateAfter<S, Q>(m: Machine<S, Q>, s: S, qs: seq<Q>, k: nat): S
    requires k <= |qs|
  {
    if k == 0 then s else m.step(StateAfter(m, s, qs, k - 1), qs[k - 1])
  }

  /** The answers to them. */
  function Answers<S, Q>(m: Machine<S, Q>, s: S, qs: seq<Q>, k: nat): (oks: seq<bool>)
    requires k <= |qs|
    ensures |oks| == k
  {
    if k == 0 then []
    else Answers(m, s, qs, k - 1) + [m.grants(StateAfter(m, s, qs, k - 1), qs[k - 1])]
  }

  lemma {:induction false} AnswersPrefix<S, Q>(m: Machine<S, Q>, s: S, qs: seq<Q>, j: nat, k: nat)
    requires j <= k <= |qs|
    ensures Answers(m, s, qs, k)[..j] == Answers(m, s, qs, j)
    decreases k
  {
    if j < k { AnswersPrefix(m, s, qs, j, k - 1); }
  }

  lemma {:induction false} AnswerAt<S, Q>(m: Machine<S, Q>, s: S, qs: seq<Q>, k: nat, i: nat)
    requires i < k <= |qs|
    ensures Answers(m, s, qs, k)[i] == m.grants(StateAfter(m, s, qs, i), qs[i])
    decreases k
  {
    if i < k - 1 { AnswerAt(m, s, qs, k - 1, i); }
  }

  /** Of two runs in a row the first decides for itself. */
  lemma {:induction false} FirstRun<S, Q>(m: Machine<S, Q>, s: S, a: seq<Q>, b: seq<Q>, k: nat)
    requires k <= |a|
    ensures StateAfter(m, s, a + b, k) == StateAfter(m, s, a, k) && Answers(m, s, a + b, k) == Answers(m, s, a, k)
    decreases k
  {
    if k > 0 {
      FirstRun(m, s, a, b, k - 1);
      assert (a + b)[k - 1] == a[k - 1];
    }
  }

  /** And the second goes on from there. */
  lemma {:induction false} SecondRun<S, Q>(m: Machine<S, Q>, s: S, a: seq<Q>, b: seq<Q>, k: nat)
    requires k <= |b|
    ensures StateAfter(m, s, a + b, |a| + k) == StateAfter(m, StateAfter(m, s, a, |a|), b, k)
    ensures Answers(m, s, a + b, |a| + k) == Answers(m, s, a, |a|) + Answers(m, StateAfter(m, s, a, |a|), b, k)
    decreases k
  {
    if k == 0 {
      FirstRun(m, s, a, b, |a|);
    } else {
      SecondRun(m, s, a, b, k - 1);
      assert (a + b)[|a| + k - 1] == b[k - 1];
    }
  }

  predicate AllTrue(oks: seq<bool>) {
    forall i :: 0 <= i < |oks| ==> oks[i]
  }

  /** Everything is granted. */
  predicate AllGranted<S, Q>(m: Machine<S, Q>, s: S, qs: seq<Q>) {
    AllTrue(Answers(m, s, qs, |qs|))
  }

  /** Two runs in which everything is granted make one. */
  lemma BothGranted<S, Q>(m: Machine<S, Q>, s: S, a: seq<Q>, b: seq<Q>)
    requires AllGranted(m, s, a) && AllGranted(m, StateAfter(m, s, a, |a|), b)
    ensures AllGranted(m, s, a + b)
  {
    SecondRun(m, s, a, b, |b|);
    Joined(Answers(m, s, a, |a|), Answers(m, StateAfter(m, s, a, |a|), b, |b|));
  }

  lemma Joined(a: seq<bool>, b: seq<bool>)
    requires AllTrue(a) && AllTrue(b)
    ensures AllTrue(a + b)
  {
  }
}
