/** Rows whose status changes by read, check, then compare-and-set, under any number of concurrent
    callers. The read and the guarded write of a handler are two steps; other callers may run between
    them. */
module StatusTables {

  /** A handler's transition table, and the statuses in which a row may be deleted. */
  datatype Rules<!S> = Rules(initial: S, legal: (S, S) -> bool, deletable: S -> bool)

  /** `history` lists every status the row has had; the code does not store it. */
  datatype Row<S> = Row(status: S, history: seq<S>)

  datatype Call<S> =
    | WantsUpdate(id: int, target: S)
    | Updating(id: int, target: S, seen: S)
    | WantsDelete(id: int)
    | Deleting(id: int, seen: S)
    | Over(ok: bool)

  datatype Table<S> = Table(rows: map<int, Row<S>>, gone: seq<Row<S>>, calls: seq<Call<S>>)

  ghost predicate IsPath<S(!new)>(rules: Rules<S>, history: seq<S>) {
    && history != [] && history[0] == rules.initial
    && forall i :: 0 <= i < |history| - 1 ==> rules.legal(history[i], history[i + 1])
  }

  ghost predicate RowOk<S(!new)>(rules: Rules<S>, row: Row<S>) {
    IsPath(rules, row.history) && row.history[|row.history| - 1] == row.status
  }

  ghost predicate CallOk<S(!new)>(rules: Rules<S>, c: Call<S>) {
    match c
    case Updating(_, target, seen) => rules.legal(seen, target)
    case Deleting(_, seen) => rules.deletable(seen)
    case _ => true
  }

  ghost predicate Inv<S(!new)>(rules: Rules<S>, t: Table<S>) {
    && (forall id :: id in t.rows ==> RowOk(rules, t.rows[id]))
    && (forall k :: 0 <= k < |t.gone| ==> RowOk(rules, t.gone[k]) && rules.deletable(t.gone[k].status))
    && (forall i :: 0 <= i < |t.calls| ==> CallOk(rules, t.calls[i]))
  }

  /** One transition extends a path. */
  lemma PathGrows<S(!new)>(rules: Rules<S>, row: Row<S>, target: S)
    requires RowOk(rules, row) && rules.legal(row.status, target)
    ensures RowOk(rules, Row(target, row.history + [target]))
  {
    var h := row.history + [target];
    forall i | 0 <= i < |h| - 1 ensures rules.legal(h[i], h[i + 1]) {
      assert i < |row.history| - 1 ==> h[i] == row.history[i] && h[i + 1] == row.history[i + 1];
    }
  }

  function Put<S>(t: Table<S>, i: nat, c: Call<S>): Table<S>
    requires i < |t.calls|
  {
    t.(calls := t.calls[i := c])
  }

  /** The read of a handler: it decides whether the guarded write will be attempted. */
  function AfterRead<S(==)>(rules: Rules<S>, t: Table<S>, i: nat): Table<S>
    requires i < |t.calls| && (t.calls[i].WantsUpdate? || t.calls[i].WantsDelete?)
  {
    var c := t.calls[i];
    if c.id !in t.rows then Put(t, i, Over(false))
    else
      var status := t.rows[c.id].status;
      if c.WantsUpdate? then
        Put(t, i, if rules.legal(status, c.target) then Updating(c.id, c.target, status) else Over(false))
      else Put(t, i, if rules.deletable(status) then Deleting(c.id, status) else Over(false))
  }

  /** The guarded write finds its row only while the status is still the one that was read. */
  predicate Matches<S(==)>(t: Table<S>, c: Call<S>) {
    (c.Updating? || c.Deleting?) && c.id in t.rows && t.rows[c.id].status == c.seen
  }

  /** An update answers with the row it wrote, or with none; a delete answers success in any case. */
  function AfterCommit<S(==)>(t: Table<S>, i: nat): Table<S>
    requires i < |t.calls| && (t.calls[i].Updating? || t.calls[i].Deleting?)
  {
    var c := t.calls[i];
    if !Matches(t, c) then Put(t, i, Over(c.Deleting?))
    else
      var row := t.rows[c.id];
      if c.Updating? then
        Put(t.(rows := t.rows[c.id := Row(c.target, row.history + [c.target])]), i, Over(true))
      else Put(t.(rows := t.rows - {c.id}, gone := t.gone + [row]), i, Over(true))
  }

  lemma ReadKeeps<S(!new)>(rules: Rules<S>, t: Table<S>, i: nat)
    requires Inv(rules, t) && i < |t.calls| && (t.calls[i].WantsUpdate? || t.calls[i].WantsDelete?)
    ensures Inv(rules, AfterRead(rules, t, i))
  {
  }

  lemma CommitKeeps<S(!new)>(rules: Rules<S>, t: Table<S>, i: nat)
    requires Inv(rules, t) && i < |t.calls| && (t.calls[i].Updating? || t.calls[i].Deleting?)
    ensures Inv(rules, AfterCommit(t, i))
  {
    var c := t.calls[i];
    assert CallOk(rules, c);
    if c.Updating? && c.id in t.rows && t.rows[c.id].status == c.seen {
      PathGrows(rules, t.rows[c.id], c.target);
    }
  }

  /** What a guarded write does and answers. An update answers with a row if and only if the row still has
      the status that was read, and then the row has the target as its status and as the last entry of its
      history; a delete removes the row on the same condition, but always answers success. */
  lemma CommitOutcome<S(!new)>(t: Table<S>, i: nat)
    requires i < |t.calls| && (t.calls[i].Updating? || t.calls[i].Deleting?)
    ensures var c, t' := t.calls[i], AfterCommit(t, i);
            var matched := c.id in t.rows && t.rows[c.id].status == c.seen;
            && t'.calls == t.calls[i := Over(c.Deleting? || matched)]
            && (matched && c.Updating? ==>
                  t'.rows == t.rows[c.id := Row(c.target, t.rows[c.id].history + [c.target])] && t'.gone == t.gone)
            && (matched && c.Deleting? ==> t'.rows == t.rows - {c.id} && t'.gone == t.gone + [t.rows[c.id]])
            && (!matched ==> t'.rows == t.rows && t'.gone == t.gone)
  {
  }

  /** A handler's read lets exactly the legal requests for existing rows go on, with what it saw. */
  lemma ReadOutcome<S(!new)>(rules: Rules<S>, t: Table<S>, i: nat)
    requires i < |t.calls| && (t.calls[i].WantsUpdate? || t.calls[i].WantsDelete?)
    ensures var c, t' := t.calls[i], AfterRead(rules, t, i);
            && t'.rows == t.rows && t'.gone == t.gone && |t'.calls| == |t.calls|
            && (c.WantsUpdate? ==>
                  t'.calls[i] == if c.id in t.rows && rules.legal(t.rows[c.id].status, c.target)
                                 then Updating(c.id, c.target, t.rows[c.id].status) else Over(false))
            && (c.WantsDelete? ==>
                  t'.calls[i] == if c.id in t.rows && rules.deletable(t.rows[c.id].status)
                                 then Deleting(c.id, t.rows[c.id].status) else Over(false))
            && forall j :: 0 <= j < |t.calls| && j != i ==> t'.calls[j] == t.calls[j]
  {
  }

  class Service<S(==,!new)> {
    const rules: Rules<S>
    var rows: map<int, Row<S>>
    ghost var gone: seq<Row<S>>
    var calls: seq<Call<S>>

    ghost function View(): Table<S>
      reads this
    {
      Table(rows, gone, calls)
    }

    constructor (rules: Rules<S>)
      ensures this.rules == rules && View() == Table(map[], [], []) && Inv(rules, View())
    {
      this.rules := rules;
      rows, gone, calls := map[], [], [];
    }

    /** Inserts a row under a fresh identifier. */
    method Create(id: int)
      requires Inv(rules, View()) && id !in rows
      modifies this`rows
      ensures Inv(rules, View()) && rows == old(rows)[id := Row(rules.initial, [rules.initial])]
    {
      rows := rows[id := Row(rules.initial, [rules.initial])];
    }

    /** A request arrives. */
    method Start(c: Call<S>) returns (i: nat)
      requires Inv(rules, View()) && (c.WantsUpdate? || c.WantsDelete?)
      modifies this`calls
      ensures Inv(rules, View()) && i == |old(calls)| && calls == old(calls) + [c]
    {
      i := |calls|;
      calls := calls + [c];
    }

    method Read(i: nat)
      requires Inv(rules, View()) && i < |calls| && (calls[i].WantsUpdate? || calls[i].WantsDelete?)
      modifies this`calls
      ensures Inv(rules, View()) && View() == AfterRead(rules, old(View()), i)
      ensures var c := old(calls[i]);
              calls == old(calls)[i :=
                if c.WantsUpdate? && c.id in rows && rules.legal(rows[c.id].status, c.target)
                then Updating(c.id, c.target, rows[c.id].status)
                else if c.WantsDelete? && c.id in rows && rules.deletable(rows[c.id].status)
                then Deleting(c.id, rows[c.id].status) else Over(false)]
    {
      ReadKeeps(rules, View(), i);
      var c := calls[i];
      var next: Call<S> := Over(false);
      if c.id in rows {
        var status := rows[c.id].status;
        if c.WantsUpdate? && rules.legal(status, c.target) {
          next := Updating(c.id, c.target, status);
        } else if c.WantsDelete? && rules.deletable(status) {
          next := Deleting(c.id, status);
        }
      }
      calls := calls[i := next];
    }

    method Commit(i: nat)
      requires Inv(rules, View()) && i < |calls| && (calls[i].Updating? || calls[i].Deleting?)
      modifies this
      ensures Inv(rules, View()) && View() == AfterCommit(old(View()), i)
      ensures var c := old(calls[i]);
              var matched := c.id in old(rows) && old(rows)[c.id].status == c.seen;
              && calls == old(calls)[i := Over(c.Deleting? || matched)]
              && (matched && c.Updating? ==>
                    rows == old(rows)[c.id := Row(c.target, old(rows)[c.id].history + [c.target])] && gone == old(gone))
              && (matched && c.Deleting? ==> rows == old(rows) - {c.id} && gone == old(gone) + [old(rows)[c.id]])
              && (!matched ==> rows == old(rows) && gone == old(gone))
    {
      CommitKeeps(rules, View(), i);
      CommitOutcome(View(), i);
      var c := calls[i];
      var matched := c.id in rows && rows[c.id].status == c.seen;
      if matched {
        var row := rows[c.id];
        if c.Updating? {
          rows := rows[c.id := Row(c.target, row.history + [c.target])];
        } else {
          rows := rows - {c.id};
          gone := gone + [row];
        }
      }
      calls := calls[i := Over(c.Deleting? || matched)];
    }

    /** A whole update that nothing disturbs: it succeeds exactly for an existing row and a legal target. */
    method Update(id: int, target: S) returns (ok: bool)
      requires Inv(rules, View())
      modifies this
      ensures Inv(rules, View()) && gone == old(gone)
      ensures ok <==> id in old(rows) && rules.legal(old(rows)[id].status, target)
      ensures rows == if ok then old(rows)[id := Row(target, old(rows)[id].history + [target])] else old(rows)
    {
      var i := Start(WantsUpdate(id, target));
      Read(i);
      if calls[i].Updating? {
        Commit(i);
      }
      ok := calls[i].ok;
    }

    /** A whole delete that nothing disturbs. */
    method Delete(id: int) returns (ok: bool)
      requires Inv(rules, View())
      modifies this
      ensures Inv(rules, View())
      ensures ok <==> id in old(rows) && rules.deletable(old(rows)[id].status)
      ensures rows == (if ok then old(rows) - {id} else old(rows))
      ensures gone == if ok then old(gone) + [old(rows)[id]] else old(gone)
    {
      var i := Start(WantsDelete(id));
      Read(i);
      if calls[i].Deleting? {
        Commit(i);
      }
      ok := calls[i].ok;
    }
  }

  // ---- Runs ----

  datatype Step<S> = Creating(id: int) | Arriving(c: Call<S>) | Reading(i: nat) | Committing(i: nat)

  predicate Enabled<S>(t: Table<S>, a: Step<S>) {
    match a
    case Creating(id) => id !in t.rows
    case Arriving(c) => c.WantsUpdate? || c.WantsDelete?
    case Reading(i) => i < |t.calls| && (t.calls[i].WantsUpdate? || t.calls[i].WantsDelete?)
    case Committing(i) => i < |t.calls| && (t.calls[i].Updating? || t.calls[i].Deleting?)
  }

  function Exec<S(==)>(rules: Rules<S>, t: Table<S>, a: Step<S>): Table<S>
    requires Enabled(t, a)
  {
    match a
    case Creating(id) => t.(rows := t.rows[id := Row(rules.initial, [rules.initial])])
    case Arriving(c) => t.(calls := t.calls + [c])
    case Reading(i) => AfterRead(rules, t, i)
    case Committing(i) => AfterCommit(t, i)
  }

  ghost predicate IsRun<S(!new)>(rules: Rules<S>, t: Table<S>, steps: seq<Step<S>>, t': Table<S>)
    decreases |steps|
  {
    if steps == [] then t' == t
    else Enabled(t, steps[0]) && IsRun(rules, Exec(rules, t, steps[0]), steps[1..], t')
  }

  /** Under any interleaving of any number of callers, the status history of every row, deleted ones
      included, is a path of the transition table, and rows are only deleted in deletable statuses. */
  lemma {:induction false} HistoriesArePaths<S(!new)>(rules: Rules<S>, t: Table<S>, steps: seq<Step<S>>, t': Table<S>)
    requires Inv(rules, t) && IsRun(rules, t, steps, t')
    ensures Inv(rules, t')
    decreases |steps|
  {
    if steps != [] {
      match steps[0] {
        case Reading(i) => ReadKeeps(rules, t, i);
        case Committing(i) => CommitKeeps(rules, t, i);
        case _ =>
      }
      HistoriesArePaths(rules, Exec(rules, t, steps[0]), steps[1..], t');
    }
  }

  // ---- Which histories occur ----

  function Nothing<S>(): Table<S> {
    Table(map[], [], [])
  }

  lemma {:induction false} RunSnoc<S(!new)>(rules: Rules<S>, t0: Table<S>, steps: seq<Step<S>>, t: Table<S>, a: Step<S>)
    requires IsRun(rules, t0, steps, t) && Enabled(t, a)
    ensures IsRun(rules, t0, steps + [a], Exec(rules, t, a))
    decreases |steps|
  {
    if steps == [] {
      assert IsRun(rules, Exec(rules, t, a), (steps + [a])[1..], Exec(rules, t, a));
    } else {
      RunSnoc(rules, Exec(rules, t0, steps[0]), steps[1..], t, a);
      assert (steps + [a])[1..] == steps[1..] + [a];
    }
  }

  lemma Then<S(!new)>(rules: Rules<S>, steps: seq<Step<S>>, t: Table<S>, a: Step<S>)
    returns (steps': seq<Step<S>>, t': Table<S>)
    requires IsRun(rules, Nothing(), steps, t) && Enabled(t, a)
    ensures IsRun(rules, Nothing(), steps', t') && t' == Exec(rules, t, a)
  {
    RunSnoc(rules, Nothing(), steps, t, a);
    steps', t' := steps + [a], Exec(rules, t, a);
  }

  /** A caller that nobody disturbs makes a legal transition. */
  lemma Transition<S(!new)>(rules: Rules<S>, steps: seq<Step<S>>, t: Table<S>, id: int, target: S)
    returns (steps': seq<Step<S>>, t': Table<S>)
    requires IsRun(rules, Nothing(), steps, t) && id in t.rows && rules.legal(t.rows[id].status, target)
    ensures IsRun(rules, Nothing(), steps', t') && t'.gone == t.gone
    ensures t'.rows == t.rows[id := Row(target, t.rows[id].history + [target])]
  {
    var i := |t.calls|;
    steps', t' := Then(rules, steps, t, Arriving(WantsUpdate(id, target)));
    ReadOutcome(rules, t', i);
    steps', t' := Then(rules, steps', t', Reading(i));
    CommitOutcome(t', i);
    steps', t' := Then(rules, steps', t', Committing(i));
  }

  /** Every path of the transition table is the history of a row in some run. */
  lemma {:induction false} PathIsHistory<S(!new)>(rules: Rules<S>, history: seq<S>)
    returns (steps: seq<Step<S>>, t: Table<S>)
    requires IsPath(rules, history)
    ensures IsRun(rules, Nothing(), steps, t) && t.gone == []
    ensures 0 in t.rows && t.rows[0] == Row(history[|history| - 1], history)
    decreases |history|
  {
    var n := |history| - 1;
    if n == 0 {
      assert IsRun(rules, Nothing(), [], Nothing());
      steps, t := Then(rules, [], Nothing(), Creating(0));
      assert history == [rules.initial];
    } else {
      var before := history[..n];
      assert before[n - 1] == history[n - 1];
      steps, t := PathIsHistory(rules, before);
      assert rules.legal(history[n - 1], history[n - 1 + 1]);
      steps, t := Transition(rules, steps, t, 0, history[n]);
      assert before + [history[n]] == history;
    }
  }

  ghost predicate Occurs<S(!new)>(rules: Rules<S>, history: seq<S>) {
    exists steps, t, id :: IsRun(rules, Nothing(), steps, t) && id in t.rows && t.rows[id].history == history
  }

  ghost predicate OccursDeleted<S(!new)>(rules: Rules<S>, history: seq<S>) {
    exists steps, t, k :: IsRun(rules, Nothing(), steps, t) && 0 <= k < |t.gone| && t.gone[k].history == history
  }

  /** The histories that rows have in the runs are exactly the paths of the transition table. */
  lemma OccursIff<S(!new)>(rules: Rules<S>, history: seq<S>)
    ensures Occurs(rules, history) <==> IsPath(rules, history)
  {
    if IsPath(rules, history) {
      var steps, t := PathIsHistory(rules, history);
    }
    if Occurs(rules, history) {
      var steps, t, id :| IsRun(rules, Nothing(), steps, t) && id in t.rows && t.rows[id].history == history;
      HistoriesArePaths(rules, Nothing(), steps, t);
      assert RowOk(rules, t.rows[id]);
    }
  }

  /** The histories of deleted rows are exactly the paths that end in a deletable status. */
  lemma OccursDeletedIff<S(!new)>(rules: Rules<S>, history: seq<S>)
    ensures OccursDeleted(rules, history) <==>
              IsPath(rules, history) && rules.deletable(history[|history| - 1])
  {
    if IsPath(rules, history) && rules.deletable(history[|history| - 1]) {
      var steps, t := PathIsHistory(rules, history);
      var i := |t.calls|;
      steps, t := Then(rules, steps, t, Arriving(WantsDelete(0)));
      ReadOutcome(rules, t, i);
      steps, t := Then(rules, steps, t, Reading(i));
      CommitOutcome(t, i);
      steps, t := Then(rules, steps, t, Committing(i));
      assert t.gone[0].history == history;
    }
    if OccursDeleted(rules, history) {
      var steps, t, k :| IsRun(rules, Nothing(), steps, t) && 0 <= k < |t.gone| && t.gone[k].history == history;
      HistoriesArePaths(rules, Nothing(), steps, t);
      assert RowOk(rules, t.gone[k]);
    }
  }

  /** In some run a row goes from one status straight to another. */
  ghost predicate Moves<S(!new)>(rules: Rules<S>, s: S, target: S) {
    exists history: seq<S> ::
      Occurs(rules, history) && |history| >= 2 && history[|history| - 2] == s && history[|history| - 1] == target
  }

  /** From a status that can be reached, exactly the legal transitions happen. */
  lemma MovesIff<S(!new)>(rules: Rules<S>, path: seq<S>, target: S)
    requires IsPath(rules, path)
    ensures Moves(rules, path[|path| - 1], target) <==> rules.legal(path[|path| - 1], target)
  {
    var s := path[|path| - 1];
    if rules.legal(s, target) {
      PathGrows(rules, Row(s, path), target);
      OccursIff(rules, path + [target]);
    }
    if Moves(rules, s, target) {
      var history :| Occurs(rules, history) && |history| >= 2 && history[|history| - 2] == s
                     && history[|history| - 1] == target;
      OccursIff(rules, history);
      var n := |history| - 2;
      assert rules.legal(history[n], history[n + 1]);
    }
  }
}
