/** Chain-of-custody transfers: read the item, append to the chain that was read, and write back
    guarded by the status only. */
module Custody {

  datatype Status = Collected | InTransit | Secured | Analyzed | Submitted | Returned | Destroyed

  /** One custody entry; `author` numbers the call that wrote it (its user and timestamp), -1 for the
      collection. */
  datatype Entry = Entry(action: Status, author: int)

  /** An evidence row. `log` lists every entry ever committed; the code stores only the chain. */
  datatype Item = Item(status: Status, chain: seq<Entry>, log: seq<Entry>)

  /** A transfer call: arrived, holding what it read, or over. `version` is the number of entries
      committed when the row was read. */
  datatype Call =
    | Wants(id: int, target: Status)
    | Holds(id: int, target: Status, seen: Status, chain: seq<Entry>, version: nat)
    | Over(ok: bool)

  datatype State = State(items: map<int, Item>, calls: seq<Call>)

  function Last<T>(s: seq<T>): T
    requires s != []
  {
    s[|s| - 1]
  }

  /** The item's status is the action of its last custody entry, which is the last one committed, and
      no call has committed twice. */
  ghost predicate ItemOk(s: State, item: Item) {
    && item.chain != [] && item.log != [] && Last(item.chain) == Last(item.log)
    && item.status == Last(item.chain).action
    && (forall i, j :: 0 <= i < j < |item.log| ==> item.log[i].author != item.log[j].author)
    && (forall i :: 0 <= i < |item.log| ==>
          item.log[i].author == -1 || (0 <= item.log[i].author < |s.calls| && s.calls[item.log[i].author].Over?))
  }

  ghost predicate HoldOk(s: State, c: Call) {
    c.Holds? ==>
      && c.chain != [] && c.id in s.items && 1 <= c.version <= |s.items[c.id].log|
      && Last(c.chain) == s.items[c.id].log[c.version - 1]
      && (c.version == |s.items[c.id].log| ==> c.chain == s.items[c.id].chain)
  }

  ghost predicate Inv(s: State) {
    && (forall id :: id in s.items ==> ItemOk(s, s.items[id]))
    && (forall i :: 0 <= i < |s.calls| ==> HoldOk(s, s.calls[i]))
  }

  datatype Step = Collect(id: int) | Arrive(id: int, target: Status) | Read(i: nat) | Commit(i: nat)

  predicate Enabled(s: State, a: Step) {
    match a
    case Collect(id) => id !in s.items
    case Arrive(_, target) => target != Collected
    case Read(i) => i < |s.calls| && s.calls[i].Wants?
    case Commit(i) => i < |s.calls| && s.calls[i].Holds?
  }

  function AfterRead(s: State, i: nat): State
    requires Enabled(s, Read(i))
  {
    var c := s.calls[i];
    var next := if c.id !in s.items then Over(false)
                else Holds(c.id, c.target, s.items[c.id].status, s.items[c.id].chain, |s.items[c.id].log|);
    s.(calls := s.calls[i := next])
  }

  predicate Matched(s: State, i: nat)
    requires Enabled(s, Commit(i))
  {
    s.calls[i].id in s.items && s.items[s.calls[i].id].status == s.calls[i].seen
  }

  /** The new chain is the one that was read, plus the new entry. */
  function AfterCommit(s: State, i: nat): State
    requires Enabled(s, Commit(i))
  {
    var c := s.calls[i];
    if !Matched(s, i) then s.(calls := s.calls[i := Over(false)])
    else
      var entry := Entry(c.target, i);
      State(s.items[c.id := Item(c.target, c.chain + [entry], s.items[c.id].log + [entry])], s.calls[i := Over(true)])
  }

  function Exec(s: State, a: Step): State
    requires Enabled(s, a)
  {
    match a
    case Collect(id) =>
      s.(items := s.items[id := Item(Collected, [Entry(Collected, -1)], [Entry(Collected, -1)])])
    case Arrive(id, target) => s.(calls := s.calls + [Wants(id, target)])
    case Read(i) => AfterRead(s, i)
    case Commit(i) => AfterCommit(s, i)
  }

  ghost predicate IsRun(s: State, steps: seq<Step>, s': State)
    decreases |steps|
  {
    if steps == [] then s' == s else Enabled(s, steps[0]) && IsRun(Exec(s, steps[0]), steps[1..], s')
  }

  lemma CommitItemOk(s: State, i: nat, id: int)
    requires Inv(s) && Enabled(s, Commit(i)) && id in AfterCommit(s, i).items
    ensures ItemOk(AfterCommit(s, i), AfterCommit(s, i).items[id])
  {
    assert ItemOk(s, s.items[id]);
  }

  lemma CommitHoldOk(s: State, i: nat, j: nat)
    requires Inv(s) && Enabled(s, Commit(i)) && j < |s.calls|
    ensures HoldOk(AfterCommit(s, i), AfterCommit(s, i).calls[j])
  {
    assert HoldOk(s, s.calls[j]);
  }

  lemma StepKeeps(s: State, a: Step)
    requires Inv(s) && Enabled(s, a)
    ensures Inv(Exec(s, a))
  {
    var s' := Exec(s, a);
    match a {
      case Commit(i) =>
        forall id | id in s'.items ensures ItemOk(s', s'.items[id]) {
          CommitItemOk(s, i, id);
        }
        forall j | 0 <= j < |s'.calls| ensures HoldOk(s', s'.calls[j]) {
          CommitHoldOk(s, i, j);
        }
      case _ =>
        forall id | id in s'.items ensures ItemOk(s', s'.items[id]) {
          assert id in s.items ==> ItemOk(s, s.items[id]);
        }
        forall j | 0 <= j < |s'.calls| ensures HoldOk(s', s'.calls[j]) {
          assert j < |s.calls| ==> HoldOk(s, s.calls[j]);
        }
    }
  }

  /** In every interleaving an item's status equals the action of its last custody entry. */
  lemma {:induction false} StatusIsLastEntry(s: State, steps: seq<Step>, s': State, id: int)
    requires Inv(s) && IsRun(s, steps, s')
    ensures Inv(s')
    ensures id in s'.items ==> s'.items[id].chain != [] && s'.items[id].status == Last(s'.items[id].chain).action
    decreases |steps|
  {
    if steps != [] {
      StepKeeps(s, steps[0]);
      StatusIsLastEntry(Exec(s, steps[0]), steps[1..], s', id);
    } else {
      assert id in s.items ==> ItemOk(s, s.items[id]);
    }
  }

  lemma SnocInjective<T>(a: seq<T>, b: seq<T>, e: T)
    ensures a + [e] == b + [e] <==> a == b
  {
    assert (a + [e])[..|a|] == a && (b + [e])[..|b|] == b;
  }

  /** A committed transfer keeps the custody chain it found if and only if nothing was committed for
      the item since it was read; otherwise it drops entries, although its status guard passed. */
  lemma ChainKeptIffUnchanged(s: State, i: nat)
    requires Inv(s) && Enabled(s, Commit(i)) && Matched(s, i)
    ensures var id := s.calls[i].id;
            AfterCommit(s, i).items[id].chain == s.items[id].chain + [Entry(s.calls[i].target, i)]
            <==> s.calls[i].version == |s.items[id].log|
  {
    var c := s.calls[i];
    var item := s.items[c.id];
    assert HoldOk(s, c) && ItemOk(s, item);
    SnocInjective(c.chain, item.chain, Entry(c.target, i));
    assert c.version < |item.log| ==> item.log[c.version - 1].author != item.log[|item.log| - 1].author;
  }

  /** A transfer answers with the item if and only if the item still has the status that was read; then it has
      the target status and, as its chain, the one that was read with one more entry. Otherwise nothing
      changes. */
  lemma CommitOutcome(s: State, i: nat)
    requires Enabled(s, Commit(i))
    ensures var c, s' := s.calls[i], AfterCommit(s, i);
            var matched := c.id in s.items && s.items[c.id].status == c.seen;
            && s'.calls == s.calls[i := Over(matched)]
            && (matched ==>
                  && s'.items.Keys == s.items.Keys && s'.items[c.id].status == c.target
                  && s'.items[c.id].chain == c.chain + [Entry(c.target, i)]
                  && s'.items[c.id].log == s.items[c.id].log + [Entry(c.target, i)]
                  && forall id :: id in s.items && id != c.id ==> s'.items[id] == s.items[id])
            && (!matched ==> s'.items == s.items)
  {
  }

  /** A transfer that reads and commits without another one in between succeeds, and keeps the chain. */
  lemma Undisturbed(s: State, i: nat)
    requires Inv(s) && Enabled(s, Read(i)) && s.calls[i].id in s.items
    ensures var s1 := AfterRead(s, i);
            && Enabled(s1, Commit(i))
            && var id, s2 := s.calls[i].id, AfterCommit(s1, i);
               && s2.calls[i] == Over(true) && id in s2.items && s2.items[id].status == s.calls[i].target
               && s2.items[id].chain == s.items[id].chain + [Entry(s.calls[i].target, i)]
  {
    CommitOutcome(AfterRead(s, i), i);
  }

  lemma {:induction false} RunSnoc(s0: State, steps: seq<Step>, s: State, a: Step)
    requires IsRun(s0, steps, s) && Enabled(s, a)
    ensures IsRun(s0, steps + [a], Exec(s, a))
    decreases |steps|
  {
    if steps == [] {
      assert IsRun(Exec(s, a), (steps + [a])[1..], Exec(s, a));
    } else {
      RunSnoc(Exec(s0, steps[0]), steps[1..], s, a);
      assert (steps + [a])[1..] == steps[1..] + [a];
    }
  }

  lemma Then(steps: seq<Step>, s: State, a: Step) returns (steps': seq<Step>, s': State)
    requires IsRun(State(map[], []), steps, s) && Enabled(s, a)
    ensures IsRun(State(map[], []), steps', s') && s' == Exec(s, a)
  {
    RunSnoc(State(map[], []), steps, s, a);
    steps', s' := steps + [a], Exec(s, a);
  }

  lemma ItemSecured() returns (steps: seq<Step>, s: State)
    ensures IsRun(State(map[], []), steps, s) && s.calls == [Over(true)]
    ensures var chain := [Entry(Collected, -1), Entry(Secured, 0)];
            1 in s.items && s.items[1] == Item(Secured, chain, chain)
  {
    steps, s := [], State(map[], []);
    steps, s := Then(steps, s, Collect(1));
    steps, s := Then(steps, s, Arrive(1, Secured));
    steps, s := Then(steps, s, Read(0));
    steps, s := Then(steps, s, Commit(0));
  }

  /** It does happen: an item is secured; the first call reads it; the second call re-secures it,
      which the first call's status guard cannot see, and then the first call commits. */
  lemma EntryLost() returns (steps: seq<Step>, s: State)
    ensures IsRun(State(map[], []), steps, s)
    ensures s.calls == [Over(true), Over(true), Over(true)] && 1 in s.items
    ensures s.items[1].log == [Entry(Collected, -1), Entry(Secured, 0), Entry(Secured, 2), Entry(Returned, 1)]
    ensures s.items[1].chain == [Entry(Collected, -1), Entry(Secured, 0), Entry(Returned, 1)]
  {
    steps, s := ItemSecured();
    steps, s := Then(steps, s, Arrive(1, Returned));
    steps, s := Then(steps, s, Read(1));
    steps, s := Then(steps, s, Arrive(1, Secured));
    steps, s := Then(steps, s, Read(2));
    steps, s := Then(steps, s, Commit(2));
    steps, s := Then(steps, s, Commit(1));
  }

  /** The items table and the requests in progress. */
  class Desk {
    var items: map<int, Item>
    var calls: seq<Call>

    function View(): State
      reads this
    {
      State(items, calls)
    }

    constructor ()
      ensures Inv(View()) && items == map[] && calls == []
    {
      items, calls := map[], [];
    }

    method Create(id: int)
      requires Inv(View()) && id !in items
      modifies this`items
      ensures Inv(View()) && View() == Exec(old(View()), Collect(id))
    {
      StepKeeps(View(), Collect(id));
      items := items[id := Item(Collected, [Entry(Collected, -1)], [Entry(Collected, -1)])];
    }

    method Start(id: int, target: Status) returns (i: nat)
      requires Inv(View()) && target != Collected
      modifies this`calls
      ensures Inv(View()) && i == |old(calls)| && View() == Exec(old(View()), Arrive(id, target))
    {
      StepKeeps(View(), Arrive(id, target));
      i := |calls|;
      calls := calls + [Wants(id, target)];
    }

    method ReadItem(i: nat)
      requires Inv(View()) && Enabled(View(), Read(i))
      modifies this`calls
      ensures Inv(View()) && View() == Exec(old(View()), Read(i))
    {
      StepKeeps(View(), Read(i));
      var c := calls[i];
      var next := Over(false);
      if c.id in items {
        var item := items[c.id];
        next := Holds(c.id, c.target, item.status, item.chain, |item.log|);
      }
      calls := calls[i := next];
    }

    method CommitTransfer(i: nat)
      requires Inv(View()) && Enabled(View(), Commit(i))
      modifies this
      ensures Inv(View()) && View() == Exec(old(View()), Commit(i))
      ensures var c := old(calls[i]);
              var matched := c.id in old(items) && old(items)[c.id].status == c.seen;
              && calls == old(calls)[i := Over(matched)]
              && (matched ==> c.id in items && items[c.id].status == c.target
                              && items[c.id].chain == c.chain + [Entry(c.target, i)])
              && (!matched ==> items == old(items))
    {
      StepKeeps(View(), Commit(i));
      CommitOutcome(View(), i);
      var c := calls[i];
      var updated := c.id in items && items[c.id].status == c.seen;
      if updated {
        var entry := Entry(c.target, i);
        items := items[c.id := Item(c.target, c.chain + [entry], items[c.id].log + [entry])];
      }
      calls := calls[i := Over(updated)];
    }
  }
}
