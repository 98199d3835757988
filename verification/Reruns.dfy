/** Jobs that work through a list step by step, can stop anywhere and are started again from the
    beginning. */
module Reruns {

  /** The state after the items have been processed in order. */
  function Fold<S, A>(f: (S, A) -> S, s: S, items: seq<A>): S {
    if items == [] then s else f(Fold(f, s, items[..|items| - 1]), items[|items| - 1])
  }

  lemma {:induction false} FoldConcat<S, A>(f: (S, A) -> S, s: S, a: seq<A>, b: seq<A>)
    ensures Fold(f, s, a + b) == Fold(f, Fold(f, s, a), b)
  {
    var c := a + b;
    if b == [] {
      assert c == a;
    } else {
      assert c[..|c| - 1] == a + b[..|b| - 1] && c[|c| - 1] == b[|b| - 1];
      FoldConcat(f, s, a, b[..|b| - 1]);
    }
  }

  lemma FoldOne<S, A>(f: (S, A) -> S, s: S, x: A)
    ensures Fold(f, s, [x]) == f(s, x)
  {
    assert [x][..0] == [] && Fold(f, s, []) == s;
  }

  /** Where a run that throws or is killed can leave the state: some items done, in order. */
  ghost predicate Interrupted<S, A>(f: (S, A) -> S, s: S, items: seq<A>, s': S) {
    exists k :: 0 <= k <= |items| && s' == Fold(f, s, items[..k])
  }

  ghost predicate InterruptedRuns<S, A>(f: (S, A) -> S, s: S, items: seq<A>, states: seq<S>)
    decreases |states|
  {
    states != [] ==> Interrupted(f, s, items, states[0]) && InterruptedRuns(f, states[0], items, states[1..])
  }

  /** Starting again after some of the items comes to the same as going on. */
  ghost predicate Restartable<S(!new), A(!new)>(f: (S, A) -> S) {
    forall s, a, b :: Fold(f, Fold(f, s, a), a + b) == Fold(f, s, a + b)
  }

  lemma RerunCompletes<S(!new), A(!new)>(f: (S, A) -> S, s: S, items: seq<A>, s': S)
    requires Restartable(f) && Interrupted(f, s, items, s')
    ensures Fold(f, s', items) == Fold(f, s, items)
  {
    var k :| 0 <= k <= |items| && s' == Fold(f, s, items[..k]);
    assert items == items[..k] + items[k..];
  }

  /** Any number of interrupted runs followed by a complete one come to the same as one complete run. */
  lemma {:induction false} CrashesAndRerun<S(!new), A(!new)>(f: (S, A) -> S, s: S, items: seq<A>, states: seq<S>)
    requires Restartable(f) && InterruptedRuns(f, s, items, states)
    ensures Fold(f, if states == [] then s else states[|states| - 1], items) == Fold(f, s, items)
    decreases |states|
  {
    if states != [] {
      RerunCompletes(f, s, items, states[0]);
      CrashesAndRerun(f, states[0], items, states[1..]);
    }
  }
}
