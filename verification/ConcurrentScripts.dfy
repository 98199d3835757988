/** Scripts that build or drop indexes concurrently run outside a transaction: when one that stopped
    half-way can be run again. */
module ConcurrentScripts {
  import opened Common
  import opened Migrations

  // ---- Running statements ----

  /** The indexes after a statement, or nothing if it fails: an unguarded one fails if the index to build
      exists, or the index to drop does not. */
  function Step(indexes: set<string>, s: Statement): Option<set<string>> {
    match s.effect
    case Nothing => Some(indexes)
    case Builds(x, guarded) => if x in indexes && !guarded then None else Some(indexes + {x})
    case Drops(x, guarded) => if x !in indexes && !guarded then None else Some(indexes - {x})
  }

  function Play(indexes: set<string>, script: seq<Statement>): Option<set<string>> {
    if script == [] then Some(indexes)
    else
      var before := Play(indexes, script[..|script| - 1]);
      if before.None? then None else Step(before.value, script[|script| - 1])
  }

  predicate Touches(s: Statement, x: string) {
    !s.effect.Nothing? && s.effect.index == x
  }

  lemma PlayMore(indexes: set<string>, script: seq<Statement>, i: nat)
    requires i < |script|
    ensures Play(indexes, script[..i + 1])
            == var before := Play(indexes, script[..i]); if before.None? then None else Step(before.value, script[i])
  {
    assert script[..i + 1][..i] == script[..i];
  }

  lemma {:induction false} PrefixPlays(indexes: set<string>, script: seq<Statement>, i: nat)
    requires i <= |script| && Play(indexes, script).Some?
    ensures Play(indexes, script[..i]).Some?
    decreases |script| - i
  {
    if i == |script| {
      assert script[..i] == script;
    } else {
      PrefixPlays(indexes, script, i + 1);
      PlayMore(indexes, script, i);
    }
  }

  /** The last of the first i statements that touches the index, if any. */
  function LastTouch(script: seq<Statement>, i: nat, x: string): (last: Option<nat>)
    requires i <= |script|
    ensures last.Some? ==> last.value < i && Touches(script[last.value], x)
  {
    if i == 0 then None
    else if Touches(script[i - 1], x) then Some(i - 1)
    else LastTouch(script, i - 1, x)
  }

  /** Whether an index exists is decided by the last statement that touched it. */
  lemma {:induction false} Presence(indexes: set<string>, script: seq<Statement>, i: nat, x: string)
    requires i <= |script| && Play(indexes, script[..i]).Some?
    ensures x in Play(indexes, script[..i]).value <==>
              match LastTouch(script, i, x)
              case None => x in indexes
              case Some(l) => script[l].effect.Builds?
  {
    if i > 0 {
      PlayMore(indexes, script, i - 1);
      Presence(indexes, script, i - 1, x);
    }
  }

  // ---- Starting again ----

  /** Statement k is guarded, or the last of the first j statements on its index did the opposite. */
  predicate Repeatable(script: seq<Statement>, j: nat, k: nat)
    requires k < j <= |script|
  {
    match script[k].effect
    case Nothing => true
    case Builds(x, guarded) =>
      guarded || var last := LastTouch(script, j, x); last.Some? && script[last.value].effect.Drops?
    case Drops(x, guarded) =>
      guarded || var last := LastTouch(script, j, x); last.Some? && script[last.value].effect.Builds?
  }

  /** Of the first j statements, those that are the first on their index can be repeated. */
  ghost predicate CanStartAgain(script: seq<Statement>, j: nat)
    requires j <= |script|
  {
    forall k :: 0 <= k < j && FirstOnIndex(script, k) ==> Repeatable(script, j, k)
  }

  predicate FirstOnIndex(script: seq<Statement>, k: nat)
    requires k < |script|
  {
    !script[k].effect.Nothing? && LastTouch(script, k, script[k].effect.index).None?
  }

  lemma {:induction false} TouchedBefore(script: seq<Statement>, i: nat, j: nat, x: string)
    requires i <= j <= |script| && LastTouch(script, i, x).Some?
    ensures LastTouch(script, j, x).Some?
  {
    if i < j {
      TouchedBefore(script, i, j - 1, x);
    }
  }

  /** One statement of the rerun, after i of them: it succeeds unless it is the first on an index that the
      crashed run left in the wrong state. */
  lemma NextAgain(indexes: set<string>, script: seq<Statement>, j: nat, i: nat, left: set<string>)
    requires j <= |script| && i < |script| && Play(indexes, script).Some?
    requires Play(indexes, script[..j]) == Some(left) && Play(left, script[..i]).Some?
    ensures Step(Play(left, script[..i]).value, script[i]).Some? <==>
              (i < j && FirstOnIndex(script, i) ==> Repeatable(script, j, i))
  {
    PrefixPlays(indexes, script, i);
    PrefixPlays(indexes, script, i + 1);
    PlayMore(indexes, script, i);
    if !script[i].effect.Nothing? {
      var x := script[i].effect.index;
      Presence(indexes, script, i, x);
      Presence(left, script, i, x);
      Presence(indexes, script, j, x);
      if i < j {
        TouchedBefore(script, i + 1, j, x);
      } else if LastTouch(script, j, x).Some? {
        TouchedBefore(script, j, i, x);
      }
    }
  }

  lemma {:induction false} PlaysAgain(indexes: set<string>, script: seq<Statement>, j: nat, i: nat, left: set<string>)
    requires j <= |script| && i <= |script| && Play(indexes, script).Some?
    requires Play(indexes, script[..j]) == Some(left)
    ensures Play(left, script[..i]).Some? <==>
              forall k :: 0 <= k < i && k < j && FirstOnIndex(script, k) ==> Repeatable(script, j, k)
  {
    if i > 0 {
      PlaysAgain(indexes, script, j, i - 1, left);
      PlayMore(left, script, i - 1);
      if Play(left, script[..i - 1]).Some? {
        NextAgain(indexes, script, j, i - 1, left);
      }
    }
  }

  /** A script that stopped after j of its statements and is run again from its start succeeds if and only
      if each of those that is the first on its index is guarded or was undone by a later one; and then it
      leaves the indexes of one uninterrupted run. */
  lemma RestartIff(indexes: set<string>, script: seq<Statement>, j: nat)
    requires j <= |script| && Play(indexes, script).Some?
    ensures Play(indexes, script[..j]).Some?
    ensures var again := Play(Play(indexes, script[..j]).value, script);
            && (again.Some? <==> CanStartAgain(script, j))
            && (again.Some? ==> again == Play(indexes, script))
  {
    PrefixPlays(indexes, script, j);
    var left := Play(indexes, script[..j]).value;
    PlaysAgain(indexes, script, j, |script|, left);
    assert script[..|script|] == script;
    if Play(left, script).Some? {
      forall x ensures x in Play(left, script).value <==> x in Play(indexes, script).value {
        Presence(indexes, script, |script|, x);
        Presence(left, script, |script|, x);
        Presence(indexes, script, j, x);
        if LastTouch(script, j, x).Some? {
          TouchedBefore(script, j, |script|, x);
        }
      }
      assert Play(left, script).value == Play(indexes, script).value;
    }
  }
}
