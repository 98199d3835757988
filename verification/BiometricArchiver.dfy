/** The biometric session log archiver: batches of old rows are grouped by month, uploaded to cold
    storage and then deleted from the hot table. */
module BiometricArchiver {
  import opened Common
  import opened Chunks

  datatype Row = Row(id: int, createdAt: Option<int>, content: string)

  /** An object in cold storage. */
  datatype Object = Object(month: string, rows: seq<Row>)

  /** What a remote call asked for. */
  datatype Sent = Query | Put(o: Object) | Drop(ids: seq<int>)

  function Drops(chunks: seq<seq<int>>): seq<Sent> {
    seq(|chunks|, k requires 0 <= k < |chunks| => Drop(chunks[k]))
  }

  datatype Tally = Tally(archived: nat, deleted: nat, skipped: nat, errors: seq<string>)

  const BATCH_SIZE := 1000
  const DELETE_SIZE := 200
  const MARKER := "Failed to archive"

  predicate Contains(s: string, part: string) {
    exists i :: 0 <= i <= |s| - |part| && s[i..][..|part|] == part
  }

  /** Some upload has failed during this run; the list of errors is never cleared. */
  predicate Blocked(errors: seq<string>) {
    exists i :: 0 <= i < |errors| && Contains(errors[i], MARKER)
  }

  // ---- Rows of some months ----

  /** The month of a row in a calendar; a missing time counts as the epoch. */
  function Month(cal: int -> string, r: Row): string {
    cal(if r.createdAt.Some? then r.createdAt.value else 0)
  }

  function Within(rows: seq<Row>, cal: int -> string, months: set<string>): seq<Row> {
    if rows == [] then []
    else
      var n := |rows| - 1;
      Within(rows[..n], cal, months) + if Month(cal, rows[n]) in months then [rows[n]] else []
  }

  lemma {:induction false} WithinMembers(rows: seq<Row>, cal: int -> string, months: set<string>)
    ensures forall r :: r in Within(rows, cal, months) <==> r in rows && Month(cal, r) in months
  {
    if rows != [] {
      WithinMembers(rows[..|rows| - 1], cal, months);
      assert rows == rows[..|rows| - 1] + [rows[|rows| - 1]];
    }
  }

  lemma {:induction false} WithinNone(rows: seq<Row>, cal: int -> string)
    ensures Within(rows, cal, {}) == []
  {
    if rows != [] {
      WithinNone(rows[..|rows| - 1], cal);
    }
  }

  lemma {:induction false} WithinAll(rows: seq<Row>, cal: int -> string, months: set<string>)
    requires forall r :: r in rows ==> Month(cal, r) in months
    ensures Within(rows, cal, months) == rows
  {
    if rows != [] {
      assert rows == rows[..|rows| - 1] + [rows[|rows| - 1]];
      WithinAll(rows[..|rows| - 1], cal, months);
    }
  }

  /** Rows of one more month join without loss or repetition. */
  lemma {:induction false} WithinSplit(rows: seq<Row>, cal: int -> string, months: set<string>, m: string)
    requires m !in months
    ensures multiset(Within(rows, cal, months + {m}))
         == multiset(Within(rows, cal, months)) + multiset(Within(rows, cal, {m}))
  {
    if rows != [] {
      WithinSplit(rows[..|rows| - 1], cal, months, m);
    }
  }

  lemma {:induction false} WithinSize(rows: seq<Row>, cal: int -> string, months: set<string>)
    ensures |Within(rows, cal, months)| <= |rows|
  {
    if rows != [] {
      WithinSize(rows[..|rows| - 1], cal, months);
    }
  }

  function RowsOf(o: Object): seq<Row> {
    o.rows
  }

  function Flatten(objects: seq<Object>): seq<Row> {
    FlatMap(RowsOf, objects)
  }

  lemma {:induction false} FlattenMembers(objects: seq<Object>, r: Row)
    ensures r in Flatten(objects) <==> exists j :: 0 <= j < |objects| && r in objects[j].rows
  {
    if objects != [] {
      var n := |objects| - 1;
      FlattenMembers(objects[..n], r);
      assert forall j :: 0 <= j < n ==> objects[..n][j] == objects[j];
    }
  }

  // ---- Ids ----

  function IdsOf(rows: seq<Row>): (ids: seq<int>)
    ensures |ids| == |rows| && forall i :: 0 <= i < |rows| ==> ids[i] == rows[i].id
  {
    seq(|rows|, i requires 0 <= i < |rows| => rows[i].id)
  }

  // ---- One run ----

  class Archiver {
    var hot: map<int, Row>
    var objects: seq<Object>
    var calls: nat
    /** What each remote call so far asked for. */
    var sent: seq<Sent>
    const cutoff: int
    const cal: int -> string
    const fate: nat -> Outcome
    const life: nat

    constructor (hot: map<int, Row>, cutoff: int, cal: int -> string, fate: nat -> Outcome, life: nat)
      ensures this.hot == hot && objects == [] && calls == 0 && Logged()
      ensures this.cutoff == cutoff && this.cal == cal && this.fate == fate && this.life == life
    {
      this.hot, objects, calls, sent := hot, [], 0, [];
      this.cutoff, this.cal, this.fate, this.life := cutoff, cal, fate, life;
    }

    ghost predicate Valid()
      reads this
    {
      Logged() && forall id :: id in hot ==> hot[id].id == id
    }

    predicate Logged()
      reads this
    {
      |sent| == calls <= life
    }

    /** The objects stored by the given calls, numbered from `first`. */
    function StoredBy(log: seq<Sent>, first: nat): seq<Object> {
      if log == [] then []
      else
        var n := |log| - 1;
        StoredBy(log[..n], first) + if log[n].Put? && Applied(fate, first + n) then [log[n].o] else []
    }

    lemma StoredSnoc(log: seq<Sent>, s: Sent, first: nat)
      ensures StoredBy(log + [s], first)
              == StoredBy(log, first) + if s.Put? && Applied(fate, first + |log|) then [s.o] else []
    {
      assert (log + [s])[..|log|] == log;
    }

    lemma {:induction false} StoredConcat(a: seq<Sent>, b: seq<Sent>, first: nat)
      ensures StoredBy(a + b, first) == StoredBy(a, first) + StoredBy(b, first + |a|)
    {
      var c := a + b;
      if b == [] {
        assert c == a;
      } else {
        assert c[..|c| - 1] == a + b[..|b| - 1] && c[|c| - 1] == b[|b| - 1];
        StoredConcat(a, b[..|b| - 1], first);
      }
    }

    lemma {:induction false} NoPuts(log: seq<Sent>, first: nat)
      requires forall k :: 0 <= k < |log| ==> !log[k].Put?
      ensures StoredBy(log, first) == []
    {
      if log != [] {
        NoPuts(log[..|log| - 1], first);
      }
    }

    /** What the given calls add to a report: an upload counts its rows as archived if it worked and as
        skipped if it threw, and a deletion counts its ids as deleted if it worked. */
    function Reported(log: seq<Sent>, first: nat, t: Tally): Tally {
      if log == [] then t
      else
        var n := |log| - 1;
        ReportedOne(log[n], first + n, Reported(log[..n], first, t))
    }

    function ReportedOne(s: Sent, call: nat, t: Tally): Tally {
      match s
      case Query => t
      case Put(o) =>
        if fate(call).Works? then t.(archived := t.archived + |o.rows|) else t.(skipped := t.skipped + |o.rows|)
      case Drop(ids) => if fate(call).Works? then t.(deleted := t.deleted + |ids|) else t
    }

    lemma ReportedSnoc(log: seq<Sent>, s: Sent, first: nat, t: Tally)
      ensures Reported(log + [s], first, t) == ReportedOne(s, first + |log|, Reported(log, first, t))
    {
      assert (log + [s])[..|log|] == log;
    }

    lemma {:induction false} ReportedConcat(a: seq<Sent>, b: seq<Sent>, first: nat, t: Tally)
      ensures Reported(a + b, first, t) == Reported(b, first + |a|, Reported(a, first, t))
    {
      var c := a + b;
      if b == [] {
        assert c == a;
      } else {
        assert c[..|c| - 1] == a + b[..|b| - 1] && c[|c| - 1] == b[|b| - 1];
        ReportedConcat(a, b[..|b| - 1], first, t);
      }
    }

    /** The errors in the report do not matter for the numbers. */
    lemma {:induction false} ReportedErrors(log: seq<Sent>, first: nat, t: Tally, errors: seq<string>)
      ensures Reported(log, first, t.(errors := errors)) == Reported(log, first, t).(errors := errors)
    {
      if log != [] {
        ReportedErrors(log[..|log| - 1], first, t, errors);
      }
    }

    /** The numbers of a report are those of the given calls. */
    ghost predicate Books(log: seq<Sent>, first: nat, t: Tally, t': Tally) {
      t' == Reported(log, first, t).(errors := t'.errors)
    }

    lemma BooksConcat(a: seq<Sent>, b: seq<Sent>, first: nat, t: Tally, mid: Tally, t': Tally)
      requires Books(a, first, t, mid) && Books(b, first + |a|, mid, t')
      ensures Books(a + b, first, t, t')
    {
      ReportedConcat(a, b, first, t);
      ReportedErrors(b, first + |a|, Reported(a, first, t), mid.errors);
    }

    /** Before the cutoff; a missing time never is. */
    predicate Old(r: Row) {
      r.createdAt.Some? && r.createdAt.value < cutoff
    }

    function OldIds(m: map<int, Row>): set<int> {
      set id | id in m && Old(m[id])
    }

    /** Every call in the range worked. */
    ghost predicate AllWork(from: nat, to: nat) {
      forall k :: from <= k < to ==> fate(k).Works?
    }

    /** The table after the given calls, numbered from `first`. */
    function DroppedBy(m: map<int, Row>, log: seq<Sent>, first: nat): map<int, Row> {
      if log == [] then m
      else
        var n := |log| - 1;
        var before := DroppedBy(m, log[..n], first);
        if log[n].Drop? && Applied(fate, first + n) then before - SetOf(log[n].ids) else before
    }

    lemma {:induction false} DroppedByConcat(m: map<int, Row>, a: seq<Sent>, b: seq<Sent>, first: nat)
      ensures DroppedBy(m, a + b, first) == DroppedBy(DroppedBy(m, a, first), b, first + |a|)
    {
      var c := a + b;
      if b == [] {
        assert c == a;
      } else {
        assert c[..|c| - 1] == a + b[..|b| - 1] && c[|c| - 1] == b[|b| - 1];
        DroppedByConcat(m, a, b[..|b| - 1], first);
      }
    }

    lemma {:induction false} NoDrops(m: map<int, Row>, log: seq<Sent>, first: nat)
      requires forall k :: 0 <= k < |log| ==> !log[k].Drop?
      ensures DroppedBy(m, log, first) == m
    {
      if log != [] {
        NoDrops(m, log[..|log| - 1], first);
      }
    }

    predicate AllPuts(log: seq<Sent>) {
      forall k :: 0 <= k < |log| ==> log[k].Put?
    }

    /** Call number first + k was an upload that threw. */
    predicate FailedPut(log: seq<Sent>, k: nat, first: nat)
      requires k < |log|
    {
      log[k].Put? && fate(first + k).Fails?
    }

    /** Every failed upload is remembered, and nothing is deleted after it. */
    ghost predicate LogOk(log: seq<Sent>, first: nat, t: Tally, t': Tally) {
      && (Blocked(t.errors) ==> Blocked(t'.errors))
      && (Blocked(t.errors) ==> forall k :: 0 <= k < |log| ==> !log[k].Drop?)
      && (forall j :: 0 <= j < |log| && FailedPut(log, j, first) ==> Blocked(t'.errors))
      && (forall j, k :: 0 <= j < k < |log| && FailedPut(log, j, first) ==> !log[k].Drop?)
      && Books(log, first, t, t')
    }

    lemma LogConcat(a: seq<Sent>, b: seq<Sent>, first: nat, t: Tally, mid: Tally, t': Tally)
      requires LogOk(a, first, t, mid) && LogOk(b, first + |a|, mid, t')
      ensures LogOk(a + b, first, t, t')
    {
      BooksConcat(a, b, first, t, mid, t');
      var c := a + b;
      forall j | 0 <= j < |c| && FailedPut(c, j, first) ensures Blocked(t'.errors) {
        assert if j < |a| then FailedPut(a, j, first) else FailedPut(b, j - |a|, first + |a|);
      }
      forall j, k | 0 <= j < k < |c| && FailedPut(c, j, first) ensures !c[k].Drop? {
        assert if j < |a| then FailedPut(a, j, first) else FailedPut(b, j - |a|, first + |a|);
      }
    }

    ghost predicate Archived(r: Row, stored: seq<Object>) {
      exists j :: 0 <= j < |stored| && stored[j].month == Month(cal, r) && r in stored[j].rows
    }

    /** The objects hold rows of their own month only. */
    ghost predicate ByMonth(stored: seq<Object>) {
      forall j, r :: 0 <= j < |stored| && r in stored[j].rows ==> Month(cal, r) == stored[j].month
    }

    /** A batch as the query returns it: distinct old rows of the table, as many as there are, up to
        the batch size. */
    ghost predicate IsBatch(rows: seq<Row>, m: map<int, Row>) {
      && Distinct(IdsOf(rows)) && SetOf(IdsOf(rows)) <= OldIds(m)
      && (forall i :: 0 <= i < |rows| ==> rows[i].id in m && m[rows[i].id] == rows[i])
      && |rows| == if |OldIds(m)| < BATCH_SIZE then |OldIds(m)| else BATCH_SIZE
    }

    method Remote(request: Sent) returns (alive: bool, outcome: Outcome)
      requires Logged()
      modifies this`calls, this`sent
      ensures alive == (old(calls) < life)
      ensures calls == if alive then old(calls) + 1 else old(calls)
      ensures Logged() && sent == old(sent) + if alive then [request] else []
      ensures alive ==> outcome == fate(old(calls))
    {
      alive, outcome := calls < life, fate(calls);
      if alive {
        calls, sent := calls + 1, sent + [request];
      }
    }

    method Ask() returns (alive: bool, outcome: Outcome)
      requires Valid()
      modifies this`calls, this`sent
      ensures Valid() && alive == (old(calls) < life) && calls == if alive then old(calls) + 1 else old(calls)
      ensures sent == old(sent) + (if alive then [Query] else []) && (alive ==> outcome == fate(old(calls)))
    {
      alive, outcome := Remote(Query);
    }

    /** The batch query. */
    method Select() returns (rows: seq<Row>)
      requires Valid()
      ensures IsBatch(rows, hot)
    {
      var ids := Pick(OldIds(hot), BATCH_SIZE);
      SetOfMembers(ids);
      assert SetOf(ids) <= OldIds(hot);
      rows := [];
      for k := 0 to |ids|
        invariant |rows| == k && forall i :: 0 <= i < k ==> ids[i] in hot && rows[i] == hot[ids[i]]
      {
        rows := rows + [hot[ids[k]]];
      }
      assert forall i :: 0 <= i < |ids| ==> IdsOf(rows)[i] == ids[i];
      assert IdsOf(rows) == ids;
    }

    /** The groups hold exactly the rows of their months, in order, and no group is empty. */
    ghost predicate Grouped(byMonth: map<string, seq<Row>>, rows: seq<Row>) {
      forall m :: Within(rows, cal, {m}) == (if m in byMonth then byMonth[m] else [])
                  && (m in byMonth ==> byMonth[m] != [])
    }

    lemma GroupStep(byMonth: map<string, seq<Row>>, rows: seq<Row>, r: Row)
      requires Grouped(byMonth, rows)
      ensures var m := Month(cal, r);
              Grouped(byMonth[m := (if m in byMonth then byMonth[m] else []) + [r]], rows + [r])
    {
      assert (rows + [r])[..|rows|] == rows;
    }

    lemma GroupedCovers(byMonth: map<string, seq<Row>>, rows: seq<Row>, r: Row)
      requires Grouped(byMonth, rows) && r in rows
      ensures Month(cal, r) in byMonth
    {
      WithinMembers(rows, cal, {Month(cal, r)});
      assert r in Within(rows, cal, {Month(cal, r)});
    }

    method GroupRow(months: seq<string>, byMonth: map<string, seq<Row>>, row: Row, ghost before: seq<Row>)
      returns (months': seq<string>, byMonth': map<string, seq<Row>>)
      requires Distinct(months) && Grouped(byMonth, before)
      requires forall m :: m in months <==> m in byMonth
      ensures Distinct(months') && |months'| <= |months| + 1
      ensures forall m :: m in months' <==> m in byMonth'
      ensures Grouped(byMonth', before + [row])
    {
      var m := Month(cal, row);
      GroupStep(byMonth, before, row);
      if m !in byMonth {
        months', byMonth' := months + [m], byMonth[m := [row]];
        assert [] + [row] == [row];
      } else {
        months', byMonth' := months, byMonth[m := byMonth[m] + [row]];
      }
    }

    /** Groups a batch by month; months in order of first appearance. */
    method GroupByMonth(rows: seq<Row>) returns (months: seq<string>, byMonth: map<string, seq<Row>>)
      ensures Distinct(months) && |months| <= |rows|
      ensures forall m :: m in months <==> m in byMonth
      ensures Grouped(byMonth, rows)
      ensures forall r :: r in rows ==> Month(cal, r) in byMonth
    {
      months, byMonth := [], map[];
      for i := 0 to |rows|
        invariant Distinct(months) && |months| <= i
        invariant forall m :: m in months <==> m in byMonth
        invariant Grouped(byMonth, rows[..i])
      {
        months, byMonth := GroupRow(months, byMonth, rows[i], rows[..i]);
        assert rows[..i + 1] == rows[..i] + [rows[i]];
      }
      assert rows[..|rows|] == rows;
      forall r | r in rows ensures Month(cal, r) in byMonth {
        GroupedCovers(byMonth, rows, r);
      }
    }

    method Put(o: Object) returns (alive: bool, ok: bool, text: string)
      requires Logged()
      modifies this`calls, this`sent, this`objects
      ensures alive == (old(calls) < life) && calls == (if alive then old(calls) + 1 else old(calls)) && Logged()
      ensures sent == old(sent) + if alive then [Sent.Put(o)] else []
      ensures objects == if alive && Applied(fate, old(calls)) then old(objects) + [o] else old(objects)
      ensures ok == (alive && fate(old(calls)).Works?)
    {
      var outcome;
      alive, outcome := Remote(Sent.Put(o));
      ok, text := alive && outcome.Works?, if outcome.Fails? then outcome.text else "";
      if ok || (alive && outcome.applied) {
        objects := objects + [o];
      }
    }

    /** The objects hold rows of the batch under their month; if complete, exactly those of the
        months done, each once. */
    ghost predicate Uploaded(rows: seq<Row>, stored: seq<Object>, done: set<string>, complete: bool) {
      && ByMonth(stored)
      && (forall r :: r in Flatten(stored) ==> r in rows)
      && (complete ==> multiset(Flatten(stored)) == multiset(Within(rows, cal, done)))
    }

    lemma UploadOne(rows: seq<Row>, stored: seq<Object>, m: string, done: set<string>, complete: bool)
      requires m !in done && Uploaded(rows, stored, done, complete)
      ensures Uploaded(rows, stored, done + {m}, false)
      ensures Uploaded(rows, stored + [Object(m, Within(rows, cal, {m}))], done + {m}, complete)
    {
      var o := Object(m, Within(rows, cal, {m}));
      assert (stored + [o])[..|stored|] == stored;
      assert Flatten(stored + [o]) == Flatten(stored) + o.rows;
      WithinMembers(rows, cal, {m});
      WithinSplit(rows, cal, done, m);
    }

    lemma UploadedSize(rows: seq<Row>, m: string, done: set<string>)
      requires m !in done
      ensures |Within(rows, cal, done + {m})| == |Within(rows, cal, done)| + |Within(rows, cal, {m})|
      ensures |Within(rows, cal, done)| <= |rows|
    {
      WithinSplit(rows, cal, done, m);
      assert |multiset(Within(rows, cal, done + {m}))| == |Within(rows, cal, done + {m})|;
      WithinSize(rows, cal, done);
    }

    method UploadMonth(m: string, rows: seq<Row>, tally: Tally) returns (alive: bool, next: Tally, ghost stored: bool)
      requires Logged()
      modifies this`calls, this`sent, this`objects
      ensures alive == (old(calls) < life) && calls == (if alive then old(calls) + 1 else old(calls)) && Logged()
      ensures sent == old(sent) + if alive then [Sent.Put(Object(m, rows))] else []
      ensures objects == old(objects) + if stored then [Object(m, rows)] else []
      ensures stored == (alive && Applied(fate, old(calls)))
      ensures !alive ==> next == tally
      ensures alive && fate(old(calls)).Works? ==> stored && next == tally.(archived := tally.archived + |rows|)
      ensures alive && fate(old(calls)).Fails? ==>
                Blocked(next.errors) && next == tally.(skipped := tally.skipped + |rows|, errors := next.errors)
    {
      var ok, text;
      alive, ok, text := Put(Object(m, rows));
      stored, next := alive && Applied(fate, old(calls)), tally;
      if ok {
        next := tally.(archived := tally.archived + |rows|);
      } else if alive {
        MessageBlocks(tally.errors, m, text);
        next := tally.(errors := tally.errors + [Message(m, text)], skipped := tally.skipped + |rows|);
      }
    }

    /** One month of a batch. */
    method UploadNext(rows: seq<Row>, m: string, group: seq<Row>, tally: Tally, ghost before: seq<Object>,
                      ghost done: set<string>)
      returns (alive: bool, next: Tally, ghost added: seq<Object>)
      requires Logged() && group == Within(rows, cal, {m}) && m !in done
      requires Uploaded(rows, before, done, !Blocked(tally.errors))
      modifies this`calls, this`sent, this`objects
      ensures alive == (old(calls) < life) && calls == (if alive then old(calls) + 1 else old(calls)) && Logged()
      ensures sent == old(sent) + if alive then [Sent.Put(Object(m, group))] else []
      ensures var o := if alive && Applied(fate, old(calls)) then [Object(m, group)] else [];
              added == before + o && objects == old(objects) + o
      ensures !alive ==> added == before && next == tally
      ensures alive ==> Uploaded(rows, added, done + {m}, !Blocked(next.errors))
      ensures alive ==> next.archived + next.skipped == tally.archived + tally.skipped + |group|
      ensures next.deleted == tally.deleted && (Blocked(tally.errors) ==> Blocked(next.errors))
      ensures alive ==> next == ReportedOne(Sent.Put(Object(m, group)), old(calls), tally).(errors := next.errors)
      ensures alive && fate(old(calls)).Works? ==> next.errors == tally.errors && next.skipped == tally.skipped
      ensures alive && fate(old(calls)).Fails? ==> Blocked(next.errors)
    {
      UploadOne(rows, before, m, done, !Blocked(tally.errors));
      ghost var stored;
      alive, next, stored := UploadMonth(m, group, tally);
      ghost var o := if stored then [Object(m, group)] else [];
      added := before + o;
      assert !stored ==> added == before;
    }

    ghost predicate UploadDone(c: nat, t: Tally, rows: seq<Row>, alive: bool, c': nat, t': Tally, added: seq<Object>) {
      && c <= c' <= c + |rows| && c' <= life && (alive || c' == life) && (alive && rows != [] ==> c < c')
      && ByMonth(added) && (forall r :: r in Flatten(added) ==> r in rows)
      && t'.deleted == t.deleted && t'.archived + t'.skipped <= t.archived + t.skipped + |rows|
      && (alive ==> t'.archived + t'.skipped == t.archived + t.skipped + |rows|)
      && (Blocked(t.errors) ==> Blocked(t'.errors))
      && (alive && !Blocked(t'.errors) ==> multiset(Flatten(added)) == multiset(rows))
      && (AllWork(c, c') ==> t'.errors == t.errors && t'.skipped == t.skipped)
      && (!AllWork(c, c') ==> Blocked(t'.errors))
    }

    /** The calls of an upload, and what they stored and reported. */
    ghost predicate Uploads(log: seq<Sent>, c: nat, t: Tally, rows: seq<Row>, alive: bool, c': nat, t': Tally,
                            added: seq<Object>) {
      && AllPuts(log) && c' == c + |log| && UploadDone(c, t, rows, alive, c', t', added)
      && Books(log, c, t, t') && added == StoredBy(log, c)
    }

    /** Uploads a batch by month. If no upload has failed so far in the run, the new objects hold each
        row of the batch exactly once. */
    method Upload(rows: seq<Row>, tally: Tally)
      returns (alive: bool, next: Tally, ghost added: seq<Object>, ghost log: seq<Sent>)
      requires Logged()
      modifies this`calls, this`sent, this`objects
      ensures Logged() && objects == old(objects) + added && sent == old(sent) + log
      ensures Uploads(log, old(calls), tally, rows, alive, calls, next, added)
    {
      var months, byMonth := GroupByMonth(rows);
      ghost var done;
      alive, next, added, done, log := UploadAll(rows, months, byMonth, tally);
      if alive {
        WithinAll(rows, cal, done);
      }
      WithinSize(rows, cal, done);
    }

    /** The calls of an upload so far, and what they stored and reported. */
    ghost predicate UploadLog(log: seq<Sent>, c0: nat, c: nat, t: Tally, t': Tally, added: seq<Object>) {
      c == c0 + |log| && AllPuts(log) && Books(log, c0, t, t') && added == StoredBy(log, c0)
    }

    /** The uploads of the first i months, made by the calls from number c0 on. */
    ghost predicate UploadState(rows: seq<Row>, months: seq<string>, i: nat, added: seq<Object>, done: set<string>,
                                c0: nat, c: nat, t: Tally, t': Tally) {
      && i <= |months| && c == c0 + i
      && (forall k :: 0 <= k < |months| ==> (months[k] in done <==> k < i))
      && Uploaded(rows, added, done, !Blocked(t'.errors)) && t'.deleted == t.deleted
      && t'.archived + t'.skipped == t.archived + t.skipped + |Within(rows, cal, done)|
      && (Blocked(t.errors) ==> Blocked(t'.errors))
      && (AllWork(c0, c) ==> t'.errors == t.errors && t'.skipped == t.skipped)
      && (!AllWork(c0, c) ==> Blocked(t'.errors))
    }

    ghost predicate UploadSoFar(rows: seq<Row>, months: seq<string>, i: nat, added: seq<Object>, done: set<string>,
                                log: seq<Sent>, c0: nat, c: nat, t: Tally, t': Tally) {
      |log| == i && UploadState(rows, months, i, added, done, c0, c, t, t') && UploadLog(log, c0, c, t, t', added)
    }

    /** One month uploaded, by the call just made. */
    lemma UploadStepsOn(rows: seq<Row>, months: seq<string>, i: nat, before: seq<Object>, done: set<string>,
                        log: seq<Sent>, c0: nat, c: nat, t: Tally, mid: Tally, added: seq<Object>, t': Tally)
      requires Distinct(months) && i < |months| && UploadSoFar(rows, months, i, before, done, log, c0, c, t, mid)
      requires Uploaded(rows, added, done + {months[i]}, !Blocked(t'.errors))
      requires var put := Sent.Put(Object(months[i], Within(rows, cal, {months[i]})));
               t' == ReportedOne(put, c, mid).(errors := t'.errors)
      requires added == before + if Applied(fate, c) then [Object(months[i], Within(rows, cal, {months[i]}))] else []
      requires Blocked(mid.errors) ==> Blocked(t'.errors)
      requires if fate(c).Works? then t'.errors == mid.errors else Blocked(t'.errors)
      ensures UploadSoFar(rows, months, i + 1, added, done + {months[i]},
                          log + [Sent.Put(Object(months[i], Within(rows, cal, {months[i]})))], c0, c + 1, t, t')
    {
      var put := Sent.Put(Object(months[i], Within(rows, cal, {months[i]})));
      UploadGoesOn(rows, months, i, before, done, c0, c, t, mid, added, t');
      UploadLogged(log, put, c0, c, t, mid, t', before, added);
    }

    lemma UploadStarts(rows: seq<Row>, months: seq<string>, c: nat, t: Tally)
      ensures UploadSoFar(rows, months, 0, [], {}, [], c, c, t, t)
    {
      WithinNone(rows, cal);
    }

    lemma UploadGoesOn(rows: seq<Row>, months: seq<string>, i: nat, added: seq<Object>, done: set<string>,
                       c0: nat, c: nat, t: Tally, mid: Tally, added': seq<Object>, t': Tally)
      requires Distinct(months) && i < |months| && UploadState(rows, months, i, added, done, c0, c, t, mid)
      requires Uploaded(rows, added', done + {months[i]}, !Blocked(t'.errors)) && t'.deleted == mid.deleted
      requires t'.archived + t'.skipped == mid.archived + mid.skipped + |Within(rows, cal, {months[i]})|
      requires Blocked(mid.errors) ==> Blocked(t'.errors)
      requires if fate(c).Works? then t'.errors == mid.errors && t'.skipped == mid.skipped else Blocked(t'.errors)
      ensures UploadState(rows, months, i + 1, added', done + {months[i]}, c0, c + 1, t, t')
    {
      UploadedSize(rows, months[i], done);
      assert AllWork(c0, c + 1) <==> AllWork(c0, c) && fate(c).Works?;
    }

    lemma UploadLogged(log: seq<Sent>, put: Sent, c0: nat, c: nat, t: Tally, mid: Tally, t': Tally, added: seq<Object>,
                       added': seq<Object>)
      requires UploadLog(log, c0, c, t, mid, added) && put.Put?
      requires t' == ReportedOne(put, c, mid).(errors := t'.errors)
      requires added' == added + if Applied(fate, c) then [put.o] else []
      ensures UploadLog(log + [put], c0, c + 1, t, t', added')
    {
      PutBooked(log, put, c0, t, mid, t');
      StoredSnoc(log, put, c0);
    }

    method UploadAll(rows: seq<Row>, months: seq<string>, byMonth: map<string, seq<Row>>, tally: Tally)
      returns (alive: bool, next: Tally, ghost added: seq<Object>, ghost done: set<string>, ghost log: seq<Sent>)
      requires Logged() && Distinct(months)
      requires forall k :: 0 <= k < |months| ==>
                months[k] in byMonth && byMonth[months[k]] == Within(rows, cal, {months[k]})
      modifies this`calls, this`sent, this`objects
      ensures Logged() && objects == old(objects) + added && sent == old(sent) + log
      ensures UploadSoFar(rows, months, |log|, added, done, log, old(calls), calls, tally, next)
      ensures if alive then |log| == |months| else calls == life
    {
      alive, next, added, done, log := true, tally, [], {}, [];
      UploadStarts(rows, months, calls, tally);
      for i := 0 to |months|
        invariant Logged() && objects == old(objects) + added && sent == old(sent) + log
        invariant UploadSoFar(rows, months, i, added, done, log, old(calls), calls, tally, next)
      {
        ghost var o, put;
        alive, next, o, put := UploadAt(rows, months, i, byMonth[months[i]], next, old(calls), tally, added, done, log);
        if !alive {
          return;
        }
        AppendAssociative(old(objects), added, o);
        AppendAssociative(old(sent), log, put);
        added, done, log := added + o, done + {months[i]}, log + put;
      }
    }

    method UploadAt(rows: seq<Row>, months: seq<string>, i: nat, group: seq<Row>, mid: Tally, ghost c0: nat,
                    ghost t: Tally, ghost before: seq<Object>, ghost done: set<string>, ghost log: seq<Sent>)
      returns (alive: bool, next: Tally, ghost o: seq<Object>, ghost put: seq<Sent>)
      requires Logged() && Distinct(months) && i < |months| && group == Within(rows, cal, {months[i]})
      requires UploadSoFar(rows, months, i, before, done, log, c0, calls, t, mid)
      modifies this`calls, this`sent, this`objects
      ensures Logged() && objects == old(objects) + o && sent == old(sent) + put
      ensures if alive
              then UploadSoFar(rows, months, i + 1, before + o, done + {months[i]}, log + put, c0, calls, t, next)
              else calls == old(calls) == life && next == mid && objects == old(objects) && sent == old(sent)
    {
      o := if calls < life && Applied(fate, calls) then [Object(months[i], group)] else [];
      put := if calls < life then [Sent.Put(Object(months[i], group))] else [];
      ghost var added;
      alive, next, added := UploadNext(rows, months[i], group, mid, before, done);
      assert added == before + o;
      if alive {
        UploadStepsOn(rows, months, i, before, done, log, c0, calls - 1, t, mid, added, next);
      }
    }

    lemma PutBooked(log: seq<Sent>, put: Sent, first: nat, t: Tally, mid: Tally, t': Tally)
      requires AllPuts(log) && put.Put? && Books(log, first, t, mid)
      requires t' == ReportedOne(put, first + |log|, mid).(errors := t'.errors)
      ensures AllPuts(log + [put]) && Books(log + [put], first, t, t')
    {
      ReportedSnoc(log, put, first, t);
    }

    method Delete(ids: seq<int>) returns (alive: bool, ok: bool, text: string)
      requires Logged()
      modifies this`calls, this`sent, this`hot
      ensures alive == (old(calls) < life) && calls == (if alive then old(calls) + 1 else old(calls)) && Logged()
      ensures sent == old(sent) + if alive then [Drop(ids)] else []
      ensures hot == if alive && Applied(fate, old(calls)) then old(hot) - SetOf(ids) else old(hot)
      ensures ok == (alive && fate(old(calls)).Works?)
    {
      var outcome;
      alive, outcome := Remote(Drop(ids));
      ok, text := alive && outcome.Works?, if outcome.Fails? then outcome.text else "";
      if ok || (alive && outcome.applied) {
        hot := hot - SetOf(ids);
      }
    }

    method DeleteChunk(ids: seq<int>, tally: Tally) returns (alive: bool, next: Tally)
      requires Logged()
      modifies this`calls, this`sent, this`hot
      ensures alive == (old(calls) < life) && calls == (if alive then old(calls) + 1 else old(calls)) && Logged()
      ensures sent == old(sent) + if alive then [Drop(ids)] else []
      ensures hot == if alive && Applied(fate, old(calls)) then old(hot) - SetOf(ids) else old(hot)
      ensures next == tally.(deleted := tally.deleted + (if alive && fate(old(calls)).Works? then |ids| else 0),
                             errors := next.errors)
      ensures Blocked(tally.errors) ==> Blocked(next.errors)
      ensures !alive || fate(old(calls)).Works? ==> next.errors == tally.errors
    {
      var ok, text;
      alive, ok, text := Delete(ids);
      next := tally;
      if ok {
        next := tally.(deleted := tally.deleted + |ids|);
      } else if alive {
        next := tally.(errors := tally.errors + ["Delete chunk failed: " + text]);
        assert forall k :: 0 <= k < |tally.errors| ==> next.errors[k] == tally.errors[k];
      }
    }

    lemma {:induction false} RemainingIsDropped(m: map<int, Row>, chunks: seq<seq<int>>, first: nat)
      ensures Remaining(m, chunks, fate, first) == DroppedBy(m, Drops(chunks), first)
    {
      if chunks != [] {
        RemainingIsDropped(m, chunks[..|chunks| - 1], first);
        assert Drops(chunks)[..|chunks| - 1] == Drops(chunks[..|chunks| - 1]);
      }
    }

    /** The chunks sent so far, and what they did to the table and to the report. */
    ghost predicate SentChunks(ids: seq<int>, i: nat, chunks: seq<seq<int>>, c0: nat, m0: map<int, Row>, t0: Tally,
                               c: nat, m: map<int, Row>, t: Tally) {
      && Slices(chunks, ids, i, DELETE_SIZE) && c == c0 + |chunks|
      && m == Remaining(m0, chunks, fate, c0)
      && t == t0.(deleted := t0.deleted + Acked(chunks, fate, c0), errors := t.errors)
      && (Blocked(t0.errors) ==> Blocked(t.errors))
      && (AllWork(c0, c) ==> t.errors == t0.errors)
    }

    lemma SentMore(ids: seq<int>, i: nat, end: nat, chunks: seq<seq<int>>, c0: nat, m0: map<int, Row>, t0: Tally,
                   c: nat, m: map<int, Row>, t: Tally, m': map<int, Row>, t': Tally)
      requires SentChunks(ids, i, chunks, c0, m0, t0, c, m, t) && i < end <= |ids| && end - i <= DELETE_SIZE
      requires m' == if Applied(fate, c) then m - SetOf(ids[i..end]) else m
      requires t' == t.(deleted := t.deleted + (if fate(c).Works? then end - i else 0), errors := t'.errors)
      requires Blocked(t.errors) ==> Blocked(t'.errors)
      requires fate(c).Works? ==> t'.errors == t.errors
      ensures SentChunks(ids, end, chunks + [ids[i..end]], c0, m0, t0, c + 1, m', t')
    {
      var more := chunks + [ids[i..end]];
      SlicesMore(chunks, ids, i, end, DELETE_SIZE);
      assert more[..|chunks|] == chunks;
    }

    lemma DropsSnoc(chunks: seq<seq<int>>, chunk: seq<int>)
      ensures Drops(chunks + [chunk]) == Drops(chunks) + [Drop(chunk)]
    {
    }

    /** Deletes in chunks. Every call carries a chunk of at most DELETE_SIZE ids, and one after the other
        the chunks are the ids, also when some of them fail; the table is what those calls made of it. */
    method DeleteChunks(ids: seq<int>, tally: Tally)
      returns (alive: bool, next: Tally, ghost i: nat, ghost chunks: seq<seq<int>>)
      requires Logged()
      modifies this`calls, this`sent, this`hot
      ensures Logged() && sent == old(sent) + Drops(chunks)
      ensures SentChunks(ids, i, chunks, old(calls), old(hot), tally, calls, hot, next)
      ensures if alive then i == |ids| else calls == life
    {
      alive, next, chunks := true, tally, [];
      var from := 0;
      i := 0;
      while from < |ids|
        invariant 0 <= from <= |ids| && i == from && alive
        invariant Logged() && sent == old(sent) + Drops(chunks)
        invariant SentChunks(ids, i, chunks, old(calls), old(hot), tally, calls, hot, next)
      {
        var end := if from + DELETE_SIZE <= |ids| then from + DELETE_SIZE else |ids|;
        ghost var c, m, t := calls, hot, next;
        alive, next := DeleteChunk(ids[from..end], next);
        if !alive {
          return;
        }
        SentMore(ids, from, end, chunks, old(calls), old(hot), tally, c, m, t, hot, next);
        DropsSnoc(chunks, ids[from..end]);
        chunks := chunks + [ids[from..end]];
        from, i := end, end;
      }
    }

    /** Some of the given rows are gone, all of them if every call was made and worked, and `deleted`
        never exceeds the number that are. */
    ghost predicate Deleted(c: nat, m: map<int, Row>, t: Tally, ids: seq<int>, all: bool,
                            c': nat, m': map<int, Row>, t': Tally, gone: set<int>) {
      && c <= c' <= c + |ids| && (all || c' == life)
      && gone <= SetOf(ids) && m' == m - gone
      && t' == t.(deleted := t'.deleted, errors := t'.errors)
      && t'.deleted + |m'| <= t.deleted + |m|
      && (Blocked(t.errors) ==> Blocked(t'.errors))
      && (all && AllWork(c, c') ==> gone == SetOf(ids) && t' == t.(deleted := t.deleted + |ids|))
    }

    lemma ChunksDeleted(ids: seq<int>, i: nat, chunks: seq<seq<int>>, all: bool, c: nat, m: map<int, Row>, t: Tally,
                        c': nat, m': map<int, Row>, t': Tally) returns (gone: set<int>)
      requires Distinct(ids) && SetOf(ids) <= m.Keys && SentChunks(ids, i, chunks, c, m, t, c', m', t')
      requires if all then i == |ids| else c' == life
      ensures Deleted(c, m, t, ids, all, c', m', t', gone)
    {
      SlicesBounds(chunks, ids, i, DELETE_SIZE);
      gone := RemainingIsMinus(m, chunks, fate, c);
    }

    // ---- Several batches ----

    /** Rows are only removed, and only old ones that are in cold storage under their month. */
    ghost predicate Safe(before: map<int, Row>, after: map<int, Row>, stored: seq<Object>) {
      && after.Keys <= before.Keys
      && (forall id :: id in after ==> after[id] == before[id])
      && (forall id :: id in before && id !in after ==>
            before[id].createdAt.Some? && before[id].createdAt.value < cutoff && Archived(before[id], stored))
    }

    /** Cold storage gained exactly the removed rows, each once. */
    ghost predicate Exact(before: map<int, Row>, after: map<int, Row>, stored: seq<Object>) {
      forall r :: multiset(Flatten(stored))[r] == if Removed(before, after, r) then 1 else 0
    }

    ghost predicate Removed(before: map<int, Row>, after: map<int, Row>, r: Row) {
      r.id in before && before[r.id] == r && r.id !in after
    }

    /** What archiving a batch amounts to: an upload that completes may be followed by deletions, and
        nothing is deleted once an upload has failed at any time in the run. */
    ghost predicate BatchDone(c: nat, m: map<int, Row>, t: Tally, rows: seq<Row>, alive: bool,
                              c': nat, m': map<int, Row>, t': Tally, added: seq<Object>, gone: set<int>) {
      && gone <= SetOf(IdsOf(rows)) && m' == m - gone && ByMonth(added)
      && (gone != {} ==> multiset(Flatten(added)) == multiset(rows))
      && c <= c' <= c + 2 * |rows| && c' <= life && (alive || c' == life)
      && t'.deleted + |m'| <= t.deleted + |m|
      && (Blocked(t.errors) ==> Blocked(t'.errors) && gone == {})
      && (c < life && fate(c).Fails? ==> gone == {} && (alive ==> Blocked(t'.errors)))
      && (alive && AllWork(c, c') && t.errors == [] ==>
            && gone == SetOf(IdsOf(rows)) && multiset(Flatten(added)) == multiset(rows)
            && t' == Tally(t.archived + |rows|, t.deleted + |rows|, t.skipped, []))
    }

    ghost predicate AnyFailed(log: seq<Sent>, first: nat) {
      exists j :: 0 <= j < |log| && FailedPut(log, j, first)
    }

    /** The calls of one part of a run: they determine the table, failed uploads are remembered, nothing
        is deleted after one, and nothing is deleted in a part that contains one. */
    ghost predicate Traced(log: seq<Sent>, c: nat, m: map<int, Row>, t: Tally, c': nat, m': map<int, Row>, t': Tally) {
      && c + |log| == c' && LogOk(log, c, t, t') && m' == DroppedBy(m, log, c)
      && (AnyFailed(log, c) ==> m' == m)
    }

    lemma UploadTraced(log: seq<Sent>, c: nat, m: map<int, Row>, t: Tally, t': Tally)
      requires AllPuts(log) && (Blocked(t.errors) ==> Blocked(t'.errors)) && Books(log, c, t, t')
      requires (!AllWork(c, c + |log|) ==> Blocked(t'.errors))
      ensures Traced(log, c, m, t, c + |log|, m, t')
    {
      NoDrops(m, log, c);
      assert forall j :: 0 <= j < |log| && FailedPut(log, j, c) ==> !fate(c + j).Works?;
    }

    lemma DeletionTraced(chunks: seq<seq<int>>, c: nat, m: map<int, Row>, t: Tally, t': Tally)
      requires !Blocked(t.errors) && t' == t.(deleted := t.deleted + Acked(chunks, fate, c), errors := t'.errors)
      ensures Traced(Drops(chunks), c, m, t, c + |chunks|, Remaining(m, chunks, fate, c), t')
    {
      RemainingIsDropped(m, chunks, c);
      AckedIsReported(chunks, c, t);
    }

    lemma {:induction false} AckedIsReported(chunks: seq<seq<int>>, c: nat, t: Tally)
      ensures Reported(Drops(chunks), c, t) == t.(deleted := t.deleted + Acked(chunks, fate, c))
    {
      if chunks != [] {
        AckedIsReported(chunks[..|chunks| - 1], c, t);
        assert Drops(chunks)[..|chunks| - 1] == Drops(chunks[..|chunks| - 1]);
      }
    }

    /** An upload without failures, followed by deletions. */
    lemma BatchTraced(puts: seq<Sent>, drops: seq<Sent>, c: nat, m: map<int, Row>, t: Tally, mid: Tally,
                      m': map<int, Row>, t': Tally)
      requires Traced(puts, c, m, t, c + |puts|, m, mid) && !Blocked(mid.errors)
      requires Traced(drops, c + |puts|, m, mid, c + |puts| + |drops|, m', t')
      requires forall k :: 0 <= k < |drops| ==> drops[k].Drop?
      ensures Traced(puts + drops, c, m, t, c + |puts| + |drops|, m', t')
    {
      LogConcat(puts, drops, c, t, mid, t');
      DroppedByConcat(m, puts, drops, c);
      forall j | 0 <= j < |puts + drops| ensures !FailedPut(puts + drops, j, c) {
        assert j < |puts| ==> !FailedPut(puts, j, c);
      }
    }

    lemma UploadIsDone(c: nat, m: map<int, Row>, t: Tally, rows: seq<Row>, alive: bool, c': nat, t': Tally,
                       added: seq<Object>)
      requires IsBatch(rows, m) && rows != [] && UploadDone(c, t, rows, alive, c', t', added) && t.deleted <= t'.deleted
      requires alive ==> Blocked(t'.errors)
      ensures BatchDone(c, m, t, rows, alive, c', m, t', added, {})
    {
      var none: set<int> := {};
      assert m - none == m;
      assert t.errors == [] ==> !Blocked(t.errors);
    }

    lemma DeletionIsDone(c: nat, m: map<int, Row>, t: Tally, rows: seq<Row>, mid: nat, tm: Tally, added: seq<Object>,
                         alive: bool, c': nat, m': map<int, Row>, t': Tally, gone: set<int>)
      requires IsBatch(rows, m) && rows != [] && UploadDone(c, t, rows, true, mid, tm, added) && !Blocked(tm.errors)
      requires Deleted(mid, m, tm, IdsOf(rows), alive, c', m', t', gone) && c' <= life
      ensures BatchDone(c, m, t, rows, alive, c', m', t', added, gone)
    {
      assert AllWork(c, c') ==> AllWork(c, mid) && AllWork(mid, c');
      assert c < mid && (fate(c).Fails? ==> !AllWork(c, mid));
    }

    /** What archiving a batch has done, by its calls. */
    ghost predicate BatchStep(log: seq<Sent>, c: nat, m: map<int, Row>, t: Tally, rows: seq<Row>, alive: bool,
                              c': nat, m': map<int, Row>, t': Tally, added: seq<Object>, gone: set<int>) {
      && BatchDone(c, m, t, rows, alive, c', m', t', added, gone) && Traced(log, c, m, t, c', m', t')
      && added == StoredBy(log, c)
    }

    method ArchiveBatch(rows: seq<Row>, tally: Tally)
      returns (alive: bool, next: Tally, ghost added: seq<Object>, ghost gone: set<int>, ghost log: seq<Sent>)
      requires Valid() && IsBatch(rows, hot) && rows != []
      modifies this
      ensures Valid() && objects == old(objects) + added && sent == old(sent) + log
      ensures BatchStep(log, old(calls), old(hot), tally, rows, alive, calls, hot, next, added, gone)
    {
      alive, next, added, log := Upload(rows, tally);
      gone := {};
      if alive && !Blocked(next.errors) {
        ghost var drops;
        alive, next, gone, drops := DeleteBatch(rows, next, old(calls), tally, added, log);
        AppendAssociative(old(sent), log, drops);
        log := log + drops;
      } else {
        UploadStep(log, old(calls), hot, tally, rows, alive, calls, next, added);
      }
    }

    lemma UploadStep(log: seq<Sent>, c: nat, m: map<int, Row>, t: Tally, rows: seq<Row>, alive: bool, c': nat,
                     t': Tally, added: seq<Object>)
      requires IsBatch(rows, m) && rows != [] && Uploads(log, c, t, rows, alive, c', t', added)
      requires alive ==> Blocked(t'.errors)
      ensures BatchStep(log, c, m, t, rows, alive, c', m, t', added, {})
    {
      UploadIsDone(c, m, t, rows, alive, c', t', added);
      UploadTraced(log, c, m, t, t');
    }

    /** The deletions that follow an upload without failures. */
    method DeleteBatch(rows: seq<Row>, mid: Tally, ghost c: nat, ghost t: Tally, ghost added: seq<Object>,
                       ghost puts: seq<Sent>)
      returns (alive: bool, next: Tally, ghost gone: set<int>, ghost drops: seq<Sent>)
      requires Valid() && IsBatch(rows, hot) && rows != []
      requires Uploads(puts, c, t, rows, true, calls, mid, added) && !Blocked(mid.errors)
      modifies this`hot, this`calls, this`sent
      ensures Valid() && sent == old(sent) + drops
      ensures BatchStep(puts + drops, c, old(hot), t, rows, alive, calls, hot, next, added, gone)
    {
      ghost var chunks, i;
      alive, next, i, chunks := DeleteChunks(IdsOf(rows), mid);
      drops := Drops(chunks);
      gone := DeletionStep(puts, c, old(hot), t, rows, old(calls), mid, added, alive, calls, hot, next, i, chunks);
    }

    lemma DeletionStep(puts: seq<Sent>, c: nat, m: map<int, Row>, t: Tally, rows: seq<Row>, c1: nat, mid: Tally,
                       added: seq<Object>, alive: bool, c': nat, m': map<int, Row>, t': Tally, i: nat,
                       chunks: seq<seq<int>>)
      returns (gone: set<int>)
      requires IsBatch(rows, m) && rows != [] && Uploads(puts, c, t, rows, true, c1, mid, added)
      requires !Blocked(mid.errors) && c' <= life
      requires SentChunks(IdsOf(rows), i, chunks, c1, m, mid, c', m', t')
      requires if alive then i == |rows| else c' == life
      ensures BatchStep(puts + Drops(chunks), c, m, t, rows, alive, c', m', t', added, gone)
    {
      UploadTraced(puts, c, m, t, mid);
      gone := DeletionDone(c, m, t, rows, c1, mid, added, alive, c', m', t', i, chunks);
      DeletionLogged(puts, c, m, t, c1, mid, IdsOf(rows), c', m', t', i, chunks);
      DropsStoreNothing(puts, Drops(chunks), c);
    }

    lemma DeletionDone(c: nat, m: map<int, Row>, t: Tally, rows: seq<Row>, c1: nat, mid: Tally, added: seq<Object>,
                       alive: bool,
                       c': nat, m': map<int, Row>, t': Tally, i: nat, chunks: seq<seq<int>>) returns (gone: set<int>)
      requires IsBatch(rows, m) && rows != [] && UploadDone(c, t, rows, true, c1, mid, added)
      requires !Blocked(mid.errors) && c' <= life
      requires SentChunks(IdsOf(rows), i, chunks, c1, m, mid, c', m', t')
      requires if alive then i == |rows| else c' == life
      ensures BatchDone(c, m, t, rows, alive, c', m', t', added, gone)
    {
      SetOfHas(IdsOf(rows), m.Keys);
      gone := ChunksDeleted(IdsOf(rows), i, chunks, alive, c1, m, mid, c', m', t');
      DeletionIsDone(c, m, t, rows, c1, mid, added, alive, c', m', t', gone);
    }

    lemma DeletionLogged(puts: seq<Sent>, c: nat, m: map<int, Row>, t: Tally, c1: nat, mid: Tally, ids: seq<int>,
                         c': nat, m': map<int, Row>, t': Tally, i: nat, chunks: seq<seq<int>>)
      requires Traced(puts, c, m, t, c1, m, mid) && !Blocked(mid.errors)
      requires SentChunks(ids, i, chunks, c1, m, mid, c', m', t')
      ensures Traced(puts + Drops(chunks), c, m, t, c', m', t')
    {
      DeletionTraced(chunks, c1, m, mid, t');
      BatchTraced(puts, Drops(chunks), c, m, t, mid, m', t');
    }

    lemma DropsStoreNothing(puts: seq<Sent>, drops: seq<Sent>, c: nat)
      requires forall k :: 0 <= k < |drops| ==> drops[k].Drop?
      ensures StoredBy(puts + drops, c) == StoredBy(puts, c)
    {
      StoredConcat(puts, drops, c);
      NoPuts(drops, c + |puts|);
    }

    lemma SafeStep(m0: map<int, Row>, m: map<int, Row>, stored: seq<Object>, rows: seq<Row>, added: seq<Object>,
                   gone: set<int>)
      requires Safe(m0, m, stored) && IsBatch(rows, m) && gone <= SetOf(IdsOf(rows)) && ByMonth(added)
      requires gone != {} ==> multiset(Flatten(added)) == multiset(rows)
      ensures Safe(m0, m - gone, stored + added)
    {
      forall id | id in m0 && id !in m - gone ensures Old(m0[id]) && Archived(m0[id], stored + added) {
        if id in m {
          InBatch(rows, m, id);
          InUploaded(rows, added, m[id]);
          var j :| 0 <= j < |added| && added[j].month == Month(cal, m[id]) && m[id] in added[j].rows;
          assert (stored + added)[|stored| + j] == added[j];
        } else {
          var j :| 0 <= j < |stored| && stored[j].month == Month(cal, m0[id]) && m0[id] in stored[j].rows;
          assert (stored + added)[j] == stored[j];
        }
      }
    }

    lemma InBatch(rows: seq<Row>, m: map<int, Row>, id: int)
      requires IsBatch(rows, m) && id in SetOf(IdsOf(rows))
      ensures id in m && m[id] in rows && Old(m[id])
    {
      SetOfMembers(IdsOf(rows));
      var k :| 0 <= k < |rows| && IdsOf(rows)[k] == id;
      assert m[rows[k].id] == rows[k];
    }

    lemma InUploaded(rows: seq<Row>, added: seq<Object>, r: Row)
      requires ByMonth(added) && multiset(Flatten(added)) == multiset(rows) && r in rows
      ensures Archived(r, added)
    {
      assert r in multiset(rows);
      assert r in Flatten(added);
      FlattenMembers(added, r);
    }

    /** What a whole batch adds is exactly its rows, once each. */
    lemma ExactStep(m0: map<int, Row>, m: map<int, Row>, stored: seq<Object>, rows: seq<Row>, added: seq<Object>,
                    gone: set<int>)
      requires Safe(m0, m, stored) && Exact(m0, m, stored) && IsBatch(rows, m) && gone == SetOf(IdsOf(rows))
      requires multiset(Flatten(added)) == multiset(rows)
      ensures Exact(m0, m - gone, stored + added)
    {
      FlatMapConcat(RowsOf, stored, added);
      assert Flatten(stored + added) == Flatten(stored) + Flatten(added);
      forall r ensures multiset(Flatten(stored + added))[r] == if Removed(m0, m - gone, r) then 1 else 0 {
        OnceInBatch(rows, m, r);
      }
    }

    lemma OnceInBatch(rows: seq<Row>, m: map<int, Row>, r: Row)
      requires IsBatch(rows, m)
      ensures multiset(rows)[r] == if r.id in SetOf(IdsOf(rows)) && m[r.id] == r then 1 else 0
    {
      SetOfMembers(IdsOf(rows));
      assert forall i, j :: 0 <= i < j < |rows| ==> IdsOf(rows)[i] != IdsOf(rows)[j];
      DistinctOnce(rows, r);
    }

    /** What one batch does to the table and to cold storage, whether or not it was cut short. */
    ghost predicate Turned(m: map<int, Row>, m': map<int, Row>, added: seq<Object>, whole: bool) {
      exists rows, gone ::
        && IsBatch(rows, m) && gone <= SetOf(IdsOf(rows)) && m' == m - gone
        && ByMonth(added) && (gone != {} ==> multiset(Flatten(added)) == multiset(rows))
        && (whole ==> gone == SetOf(IdsOf(rows)) && multiset(Flatten(added)) == multiset(rows))
    }

    function Size(m: map<int, Row>): nat {
      if |OldIds(m)| < BATCH_SIZE then |OldIds(m)| else BATCH_SIZE
    }

    lemma TurnKeeps(m0: map<int, Row>, m: map<int, Row>, m': map<int, Row>, stored: seq<Object>, added: seq<Object>,
                    whole: bool)
      requires Turned(m, m', added, whole) && Safe(m0, m, stored)
      ensures Safe(m0, m', stored + added)
      ensures |OldIds(m')| <= |OldIds(m)| && (whole ==> |OldIds(m')| == |OldIds(m)| - Size(m))
      ensures whole && Exact(m0, m, stored) ==> Exact(m0, m', stored + added)
    {
      var rows, gone :|
        && IsBatch(rows, m) && gone <= SetOf(IdsOf(rows)) && m' == m - gone
        && ByMonth(added) && (gone != {} ==> multiset(Flatten(added)) == multiset(rows))
        && (whole ==> gone == SetOf(IdsOf(rows)) && multiset(Flatten(added)) == multiset(rows));
      SafeStep(m0, m, stored, rows, added, gone);
      OldAfter(rows, m, gone);
      if whole && Exact(m0, m, stored) {
        ExactStep(m0, m, stored, rows, added, gone);
      }
    }

    lemma OldAfter(rows: seq<Row>, m: map<int, Row>, gone: set<int>)
      requires IsBatch(rows, m) && gone <= SetOf(IdsOf(rows))
      ensures |OldIds(m - gone)| == |OldIds(m)| - |gone|
      ensures |SetOf(IdsOf(rows))| == |rows|
    {
      assert OldIds(m - gone) == OldIds(m) - gone;
      SetOfSize(IdsOf(rows));
    }

    /** How one turn can end; it ends the run normally exactly on a batch that is not full. */
    ghost predicate TurnEnds(c: nat, m: map<int, Row>, end: Option<End>, c': nat) {
      && c <= c' <= c + 1 + 2 * Size(m) && c' <= life
      && (end == Some(Killed) ==> c' == life)
      && (end != Some(Killed) ==> c < c')
      && (end == Some(Rejected) ==> fate(c).Fails? && c' == c + 1)
      && (end == Some(Finished) ==> |OldIds(m)| < BATCH_SIZE)
      && (end == None ==> |OldIds(m)| >= BATCH_SIZE)
    }

    /** Nothing is deleted once an upload has failed. */
    ghost predicate TurnBlocks(c: nat, m: map<int, Row>, t: Tally, end: Option<End>, m': map<int, Row>, t': Tally) {
      && (Blocked(t.errors) ==> Blocked(t'.errors) && m' == m)
      && (|OldIds(m)| >= BATCH_SIZE && FirstUploadFails(c) ==> m' == m && (end == None ==> Blocked(t'.errors)))
    }

    ghost predicate FirstUploadFails(c: nat) {
      c + 1 < life && fate(c + 1).Fails?
    }

    ghost predicate Whole(c: nat, t: Tally, end: Option<End>, c': nat) {
      (end == None || end == Some(Finished)) && AllWork(c, c') && t.errors == []
    }

    function EndOf(alive: bool, rows: seq<Row>): Option<End> {
      if !alive then Some(Killed) else if |rows| < BATCH_SIZE then Some(Finished) else None
    }

    /** A turn that ends before its batch is archived: the process is gone, the query threw, or there
        were no rows. */
    lemma NothingTurned(c: nat, m: map<int, Row>, t: Tally, rows: seq<Row>, stop: End, c': nat)
      requires IsBatch(rows, m) && c' == (if stop == Killed then c else c + 1) && c' <= life
      requires stop == Killed ==> c == life
      requires stop == Rejected ==> fate(c).Fails?
      requires stop == Finished ==> rows == []
      ensures TurnOk(c, m, t, Some(stop), c', m, t, [])
    {
      var none: set<int> := {};
      assert m - none == m;
      assert rows == [] ==> multiset(Flatten([])) == multiset(rows);
      assert stop == Rejected ==> !AllWork(c, c');
    }

    lemma BatchTurned(c: nat, m: map<int, Row>, t: Tally, rows: seq<Row>, alive: bool,
                      c': nat, m': map<int, Row>, t': Tally, added: seq<Object>, gone: set<int>)
      requires IsBatch(rows, m) && c < life && BatchDone(c + 1, m, t, rows, alive, c', m', t', added, gone)
      ensures Turned(m, m', added, Whole(c, t, EndOf(alive, rows), c'))
    {
      assert AllWork(c, c') ==> AllWork(c + 1, c');
    }

    lemma BatchEnds(c: nat, m: map<int, Row>, t: Tally, rows: seq<Row>, alive: bool,
                    c': nat, m': map<int, Row>, t': Tally, added: seq<Object>, gone: set<int>)
      requires IsBatch(rows, m) && c < life && BatchDone(c + 1, m, t, rows, alive, c', m', t', added, gone)
      ensures TurnEnds(c, m, EndOf(alive, rows), c')
      ensures Whole(c, t, EndOf(alive, rows), c') ==>
                t' == Tally(t.archived + Size(m), t.deleted + Size(m), t.skipped, [])
    {
      assert AllWork(c, c') ==> AllWork(c + 1, c');
    }

    lemma BatchBlocks(c: nat, m: map<int, Row>, t: Tally, rows: seq<Row>, alive: bool,
                      c': nat, m': map<int, Row>, t': Tally, added: seq<Object>, gone: set<int>)
      requires c < life && BatchDone(c + 1, m, t, rows, alive, c', m', t', added, gone)
      ensures TurnBlocks(c, m, t, EndOf(alive, rows), m', t')
    {
      var none: set<int> := {};
      assert m - none == m;
    }

    lemma BatchTurn(c: nat, m: map<int, Row>, t: Tally, rows: seq<Row>, alive: bool,
                    c': nat, m': map<int, Row>, t': Tally, added: seq<Object>, gone: set<int>)
      requires IsBatch(rows, m) && c < life && BatchDone(c + 1, m, t, rows, alive, c', m', t', added, gone)
      ensures TurnOk(c, m, t, EndOf(alive, rows), c', m', t', added)
    {
      BatchTurned(c, m, t, rows, alive, c', m', t', added, gone);
      BatchBlocks(c, m, t, rows, alive, c', m', t', added, gone);
      BatchEnds(c, m, t, rows, alive, c', m', t', added, gone);
    }

    /** The query comes first. */
    lemma QueryTraced(log: seq<Sent>, c: nat, m: map<int, Row>, t: Tally, c': nat, m': map<int, Row>, t': Tally)
      requires Traced(log, c + 1, m, t, c', m', t')
      ensures Traced([Query] + log, c, m, t, c', m', t')
    {
      var all := [Query] + log;
      NoDrops(m, [Query], c);
      DroppedByConcat(m, [Query], log, c);
      LogConcat([Query], log, c, t, t, t');
      if AnyFailed(all, c) {
        var j :| 0 <= j < |all| && FailedPut(all, j, c);
        assert FailedPut(log, j - 1, c + 1);
      }
    }

    lemma NothingTraced(c: nat, m: map<int, Row>, t: Tally)
      ensures Traced([], c, m, t, c, m, t) && Traced([Query], c, m, t, c + 1, m, t)
    {
      NoDrops(m, [Query], c);
    }

    /** One turn of the loop: queries a batch and archives it. */
    method NextBatch(tally: Tally)
      returns (end: Option<End>, next: Tally, ghost added: seq<Object>, ghost log: seq<Sent>)
      requires Valid()
      modifies this
      ensures Valid() && objects == old(objects) + added && sent == old(sent) + log
      ensures TurnStep(log, old(calls), old(hot), tally, end, calls, hot, next, added)
    {
      next, added, log := tally, [], [];
      var alive, outcome := Ask();
      var rows := Select();
      if !alive || outcome.Fails? || rows == [] {
        var stop := if !alive then Killed else if outcome.Fails? then Rejected else Finished;
        NothingTurnStep(old(calls), hot, tally, rows, stop, calls);
        log := if alive then [Query] else [];
        return Some(stop), next, added, log;
      }
      ghost var more;
      end, next, added, more := ArchiveTurn(rows, tally, old(calls));
      AppendAssociative(old(sent), [Query], more);
      log := [Query] + more;
    }

    /** The rest of a turn, after its query at call c. */
    method ArchiveTurn(rows: seq<Row>, tally: Tally, ghost c: nat)
      returns (end: Option<End>, next: Tally, ghost added: seq<Object>, ghost log: seq<Sent>)
      requires Valid() && IsBatch(rows, hot) && rows != [] && calls == c + 1
      modifies this
      ensures Valid() && objects == old(objects) + added && sent == old(sent) + log
      ensures TurnStep([Query] + log, c, old(hot), tally, end, calls, hot, next, added)
    {
      ghost var gone;
      var alive;
      alive, next, added, gone, log := ArchiveBatch(rows, tally);
      BatchTurnStep(log, c, old(hot), tally, rows, alive, calls, hot, next, added, gone);
      end := EndOf(alive, rows);
    }

    /** What one turn has done, by its calls. */
    ghost predicate TurnStep(log: seq<Sent>, c: nat, m: map<int, Row>, t: Tally, end: Option<End>, c': nat,
                             m': map<int, Row>, t': Tally, added: seq<Object>) {
      && TurnOk(c, m, t, end, c', m', t', added) && Traced(log, c, m, t, c', m', t') && added == StoredBy(log, c)
      && (end == Some(Rejected) ==> log == [Query])
    }

    lemma BatchTurnStep(log: seq<Sent>, c: nat, m: map<int, Row>, t: Tally, rows: seq<Row>, alive: bool,
                        c': nat, m': map<int, Row>, t': Tally, added: seq<Object>, gone: set<int>)
      requires IsBatch(rows, m) && c < life
      requires BatchStep(log, c + 1, m, t, rows, alive, c', m', t', added, gone)
      ensures TurnStep([Query] + log, c, m, t, EndOf(alive, rows), c', m', t', added)
    {
      BatchTurn(c, m, t, rows, alive, c', m', t', added, gone);
      QueryTraced(log, c, m, t, c', m', t');
      StoredConcat([Query], log, c);
      NoPuts([Query], c);
    }

    lemma NothingTurnStep(c: nat, m: map<int, Row>, t: Tally, rows: seq<Row>, stop: End, c': nat)
      requires IsBatch(rows, m) && c' == (if stop == Killed then c else c + 1) && c' <= life
      requires stop == Killed ==> c == life
      requires stop == Rejected ==> fate(c).Fails?
      requires stop == Finished ==> rows == []
      ensures TurnStep(if stop == Killed then [] else [Query], c, m, t, Some(stop), c', m, t, [])
    {
      NothingTurned(c, m, t, rows, stop, c');
      NothingTraced(c, m, t);
      NoPuts([Query], c);
    }

    // What holds between turns, and at the end.

    /** As long as every call has worked, everything removed is in cold storage exactly once. */
    ghost predicate Clean(c0: nat, m0: map<int, Row>, stop: Option<End>, c: nat, m: map<int, Row>, t: Tally,
                          stored: seq<Object>) {
      AllWork(c0, c) && (stop == None || stop == Some(Finished)) ==>
        var done := |OldIds(m0)| - |OldIds(m)|;
        && done >= 0 && Exact(m0, m, stored) && t == Tally(done, done, 0, [])
        && (stop == Some(Finished) ==> |OldIds(m)| == 0)
    }

    /** And then the run ends before too many calls. */
    ghost predicate Brief(c0: nat, m0: map<int, Row>, stop: Option<End>, c: nat, m: map<int, Row>) {
      c0 <= c && (AllWork(c0, c) ==>
        && stop != Some(Rejected)
        && c <= c0 + (if stop == None then 3 * (|OldIds(m0)| - |OldIds(m)|) else 3 * |OldIds(m0)| + 1))
    }

    lemma BriefTurn(c0: nat, m0: map<int, Row>, c: nat, m: map<int, Row>, t: Tally, stop: Option<End>, c': nat,
                    m': map<int, Row>)
      requires Brief(c0, m0, None, c, m) && TurnEnds(c, m, stop, c')
      requires AllWork(c0, c) ==> t.errors == []
      requires Whole(c, t, stop, c') ==> |OldIds(m')| == |OldIds(m)| - Size(m)
      ensures Brief(c0, m0, stop, c', m')
    {
      assert AllWork(c0, c') ==> AllWork(c0, c) && AllWork(c, c');
      assert AllWork(c, c') && c < c' ==> fate(c).Works?;
    }

    lemma CleanTurn(c0: nat, m0: map<int, Row>, c: nat, m: map<int, Row>, t: Tally, stored: seq<Object>,
                    stop: Option<End>, c': nat, m': map<int, Row>, t': Tally, added: seq<Object>)
      requires Clean(c0, m0, None, c, m, t, stored) && c0 <= c && TurnEnds(c, m, stop, c')
      requires Whole(c, t, stop, c') ==>
                 && |OldIds(m')| == |OldIds(m)| - Size(m)
                 && (Exact(m0, m, stored) ==> Exact(m0, m', stored + added))
                 && t' == Tally(t.archived + Size(m), t.deleted + Size(m), t.skipped, [])
      ensures Clean(c0, m0, stop, c', m', t', stored + added)
    {
      assert AllWork(c0, c') ==> AllWork(c0, c) && AllWork(c, c');
    }

    /** A failed first upload while a full batch is waiting. */
    ghost predicate Stuck(c0: nat, m0: map<int, Row>, stop: Option<End>, c: nat, m: map<int, Row>, t: Tally) {
      |OldIds(m0)| >= BATCH_SIZE && FirstUploadFails(c0) ==>
        m == m0 && stop != Some(Finished) && (stop == None && c > c0 ==> Blocked(t.errors))
    }

    /** Fewer rows than a full batch: the run is over after one turn. */
    ghost predicate Short(c0: nat, m0: map<int, Row>, stop: Option<End>, c: nat) {
      |OldIds(m0)| < BATCH_SIZE && fate(c0).Works? ==>
        && (stop == None ==> c == c0) && stop != Some(Rejected)
        && (stop == Some(Killed) ==> life <= c0 + 1 + 2 * |OldIds(m0)|)
    }

    /** All of the above, and the safety of the whole run. */
    ghost predicate RunOk(c0: nat, m0: map<int, Row>, stop: Option<End>, c: nat, m: map<int, Row>, t: Tally,
                          stored: seq<Object>) {
      && Safe(m0, m, stored) && t.deleted + |m| <= |m0|
      && (stop == Some(Killed) ==> c == life)
      && (stop == Some(Rejected) ==> c0 < c && fate(c - 1).Fails?)
      && (stop == Some(Finished) ==> |OldIds(m)| < BATCH_SIZE)
      && Clean(c0, m0, stop, c, m, t, stored) && Brief(c0, m0, stop, c, m)
      && Stuck(c0, m0, stop, c, m, t) && Short(c0, m0, stop, c)
    }

    ghost predicate TurnOk(c: nat, m: map<int, Row>, t: Tally, end: Option<End>, c': nat, m': map<int, Row>,
                           t': Tally, added: seq<Object>) {
      && TurnEnds(c, m, end, c') && TurnBlocks(c, m, t, end, m', t')
      && t'.deleted + |m'| <= t.deleted + |m|
      && Turned(m, m', added, Whole(c, t, end, c'))
      && (Whole(c, t, end, c') ==> t' == Tally(t.archived + Size(m), t.deleted + Size(m), t.skipped, []))
    }

    lemma StuckTurn(c0: nat, m0: map<int, Row>, c: nat, m: map<int, Row>, t: Tally, stop: Option<End>, c': nat,
                    m': map<int, Row>, t': Tally)
      requires Stuck(c0, m0, None, c, m, t) && Short(c0, m0, None, c) && |OldIds(m)| <= |OldIds(m0)| && c0 <= c
      requires TurnEnds(c, m, stop, c') && TurnBlocks(c, m, t, stop, m', t')
      ensures Stuck(c0, m0, stop, c', m', t') && Short(c0, m0, stop, c')
    {
    }

    lemma OldShrinks(m: map<int, Row>, m': map<int, Row>)
      requires m'.Keys <= m.Keys && forall id :: id in m' ==> m'[id] == m[id]
      ensures |OldIds(m')| <= |OldIds(m)|
    {
      forall id | id in OldIds(m') ensures id in OldIds(m) {
        assert id in m'.Keys;
      }
      SubsetSize(OldIds(m'), OldIds(m));
    }

    lemma RunTurn(c0: nat, m0: map<int, Row>, c: nat, m: map<int, Row>, t: Tally, stored: seq<Object>,
                  stop: Option<End>, c': nat, m': map<int, Row>, t': Tally, added: seq<Object>)
      requires RunOk(c0, m0, None, c, m, t, stored) && TurnOk(c, m, t, stop, c', m', t', added)
      ensures RunOk(c0, m0, stop, c', m', t', stored + added)
    {
      TurnKeeps(m0, m, m', stored, added, Whole(c, t, stop, c'));
      RunShrinks(c, m, stop, c', m');
      OldShrinks(m0, m);
      StuckTurn(c0, m0, c, m, t, stop, c', m', t');
      CleanTurn(c0, m0, c, m, t, stored, stop, c', m', t', added);
      BriefTurn(c0, m0, c, m, t, stop, c', m');
    }

    lemma RunShrinks(c: nat, m: map<int, Row>, stop: Option<End>, c': nat, m': map<int, Row>)
      requires TurnEnds(c, m, stop, c') && m'.Keys <= m.Keys && forall id :: id in m' ==> m'[id] == m[id]
      ensures stop == Some(Finished) ==> |OldIds(m')| < BATCH_SIZE
      ensures stop == Some(Rejected) ==> c < c' && fate(c' - 1).Fails?
      ensures stop == Some(Killed) ==> c' == life
    {
      OldShrinks(m, m');
    }

    /** After a failed upload a full batch stays in the way, or the run is soon over. */
    ghost predicate Halted(log: seq<Sent>, c0: nat, stop: Option<End>, c: nat, m: map<int, Row>) {
      forall j :: 0 <= j < |log| && FailedPut(log, j, c0) ==>
        && (stop == None ==> |OldIds(m)| >= BATCH_SIZE)
        && (stop == Some(Killed) && |OldIds(m)| < BATCH_SIZE ==> c <= c0 + j + 1 + 2 * BATCH_SIZE)
    }

    lemma HaltedTurn(log: seq<Sent>, c0: nat, c: nat, m: map<int, Row>, t0: Tally, t: Tally, more: seq<Sent>,
                     stop: Option<End>, c': nat, m': map<int, Row>, t': Tally)
      requires Halted(log, c0, None, c, m) && c0 + |log| == c && LogOk(log, c0, t0, t)
      requires TurnEnds(c, m, stop, c') && TurnBlocks(c, m, t, stop, m', t') && Traced(more, c, m, t, c', m', t')
      ensures Halted(log + more, c0, stop, c', m')
    {
      var all := log + more;
      forall j | 0 <= j < |all| && FailedPut(all, j, c0)
        ensures stop == None ==> |OldIds(m')| >= BATCH_SIZE
        ensures stop == Some(Killed) && |OldIds(m')| < BATCH_SIZE ==> c' <= c0 + j + 1 + 2 * BATCH_SIZE
      {
        assert if j < |log| then FailedPut(log, j, c0) else FailedPut(more, j - |log|, c);
      }
    }

    /** Once an upload has failed the table stays as it was. */
    lemma UnchangedSince(log: seq<Sent>, j: nat, c0: nat, m0: map<int, Row>, t0: Tally, t: Tally)
      requires LogOk(log, c0, t0, t) && j < |log| && FailedPut(log, j, c0)
      ensures DroppedBy(m0, log, c0) == DroppedBy(m0, log[..j], c0)
    {
      assert log == log[..j] + log[j..];
      DroppedByConcat(m0, log[..j], log[j..], c0);
      NoDrops(DroppedBy(m0, log[..j], c0), log[j..], c0 + j);
    }

    /** What a run has done when it ends. */
    lemma RunEnds(c0: nat, m0: map<int, Row>, end: End, c: nat, m: map<int, Row>, t: Tally, stored: seq<Object>)
      requires RunOk(c0, m0, Some(end), c, m, t, stored) && c <= life
      ensures Safe(m0, m, stored) && t.deleted + |m| <= |m0|
      ensures end.Killed? ==> c == life
      ensures end.Rejected? ==> c0 < c && fate(c - 1).Fails?
      ensures end.Finished? ==> |OldIds(m)| < BATCH_SIZE
      ensures end.Finished? && AllWork(c0, c) ==>
                && (forall id :: id in m ==> m[id].createdAt == None || cutoff <= m[id].createdAt.value)
                && Exact(m0, m, stored) && t == Tally(|OldIds(m0)|, |OldIds(m0)|, 0, [])
      ensures AllWork(c0, life) && life > c0 + 3 * |OldIds(m0)| + 1 ==> end.Finished?
      ensures |OldIds(m0)| >= BATCH_SIZE && c0 + 1 < life && fate(c0 + 1).Fails? ==> !end.Finished? && m == m0
      ensures |OldIds(m0)| < BATCH_SIZE && life > c0 + 2 * |OldIds(m0)| + 1 && fate(c0).Works? ==> end.Finished?
    {
      assert AllWork(c0, life) ==> AllWork(c0, c);
      forall id | id in m && Old(m[id]) ensures id in OldIds(m) {
      }
    }

    /** What one failed upload, call j of the run, means for the rest of it: nothing is deleted any
        more, and if the process lives on and its queries work, the run ends if and only if fewer old
        rows than a full batch are left. */
    ghost predicate HaltedBy(log: seq<Sent>, j: nat, c0: nat, m0: map<int, Row>, end: End, m: map<int, Row>, t: Tally) {
      && j <= |log| && Blocked(t.errors) && m == DroppedBy(m0, log[..j], c0)
      && (forall k :: j < k < |log| ==> !log[k].Drop?)
      && (life > c0 + j + 1 + 2 * BATCH_SIZE && !end.Rejected? ==> (end.Finished? <==> |OldIds(m)| < BATCH_SIZE))
    }

    ghost predicate RunTraced(log: seq<Sent>, c0: nat, m0: map<int, Row>, stop: Option<End>, c: nat,
                              m: map<int, Row>, t: Tally) {
      && c0 + |log| == c && LogOk(log, c0, Tally(0, 0, 0, []), t) && m == DroppedBy(m0, log, c0)
      && Halted(log, c0, stop, c, m)
    }

    lemma RunTracedTurn(log: seq<Sent>, c0: nat, m0: map<int, Row>, c: nat, m: map<int, Row>, t: Tally, part: seq<Sent>,
                        stop: Option<End>, c': nat, m': map<int, Row>, t': Tally)
      requires RunTraced(log, c0, m0, None, c, m, t) && Traced(part, c, m, t, c', m', t')
      requires TurnEnds(c, m, stop, c') && TurnBlocks(c, m, t, stop, m', t')
      ensures RunTraced(log + part, c0, m0, stop, c', m', t')
    {
      LogConcat(log, part, c0, Tally(0, 0, 0, []), t, t');
      DroppedByConcat(m0, log, part, c0);
      HaltedTurn(log, c0, c, m, Tally(0, 0, 0, []), t, part, stop, c', m', t');
    }

    lemma RunHalts(log: seq<Sent>, c0: nat, m0: map<int, Row>, end: End, c: nat, m: map<int, Row>, t: Tally)
      requires RunTraced(log, c0, m0, Some(end), c, m, t) && (end.Killed? ==> c == life)
      requires end.Finished? ==> |OldIds(m)| < BATCH_SIZE
      ensures forall j :: 0 <= j < |log| && FailedPut(log, j, c0) ==> HaltedBy(log, j, c0, m0, end, m, t)
      ensures t == Reported(log, c0, Tally(0, 0, 0, [])).(errors := t.errors)
    {
      forall j | 0 <= j < |log| && FailedPut(log, j, c0) ensures HaltedBy(log, j, c0, m0, end, m, t) {
        UnchangedSince(log, j, c0, m0, Tally(0, 0, 0, []), t);
      }
    }

    ghost predicate RunState(log: seq<Sent>, c0: nat, m0: map<int, Row>, stop: Option<End>, c: nat, m: map<int, Row>,
                             t: Tally,
                             stored: seq<Object>) {
      && RunOk(c0, m0, stop, c, m, t, stored) && RunTraced(log, c0, m0, stop, c, m, t)
      && (stop == Some(Rejected) ==> log != [] && log[|log| - 1] == Query)
    }

    /** A run so far, by its calls. */
    ghost predicate RunStep(log: seq<Sent>, c0: nat, m0: map<int, Row>, stop: Option<End>, c: nat, m: map<int, Row>,
                            t: Tally, stored: seq<Object>) {
      RunState(log, c0, m0, stop, c, m, t, stored) && stored == StoredBy(log, c0)
    }

    lemma RunStepTurn(log: seq<Sent>, c0: nat, m0: map<int, Row>, c: nat, m: map<int, Row>, t: Tally,
                      stored: seq<Object>, part: seq<Sent>, stop: Option<End>, c': nat, m': map<int, Row>, t': Tally,
                      added: seq<Object>)
      requires RunStep(log, c0, m0, None, c, m, t, stored) && TurnStep(part, c, m, t, stop, c', m', t', added)
      ensures RunStep(log + part, c0, m0, stop, c', m', t', stored + added)
    {
      RunStateTurn(log, c0, m0, c, m, t, stored, part, stop, c', m', t', added);
      StoredTurn(log, part, c0, c, stored, added);
    }

    lemma StoredTurn(log: seq<Sent>, part: seq<Sent>, c0: nat, c: nat, stored: seq<Object>, added: seq<Object>)
      requires stored == StoredBy(log, c0) && c == c0 + |log| && added == StoredBy(part, c)
      ensures stored + added == StoredBy(log + part, c0)
    {
      StoredConcat(log, part, c0);
    }

    lemma RunStateStarts(c: nat, m: map<int, Row>)
      ensures RunState([], c, m, None, c, m, Tally(0, 0, 0, []), [])
    {
    }

    lemma RunStateTurn(log: seq<Sent>, c0: nat, m0: map<int, Row>, c: nat, m: map<int, Row>, t: Tally,
                       stored: seq<Object>,
                       part: seq<Sent>, stop: Option<End>, c': nat, m': map<int, Row>, t': Tally, added: seq<Object>)
      requires RunState(log, c0, m0, None, c, m, t, stored)
      requires TurnOk(c, m, t, stop, c', m', t', added) && Traced(part, c, m, t, c', m', t')
      requires stop == Some(Rejected) ==> part == [Query]
      ensures RunState(log + part, c0, m0, stop, c', m', t', stored + added)
    {
      RunTurn(c0, m0, c, m, t, stored, stop, c', m', t', added);
      RunTracedTurn(log, c0, m0, c, m, t, part, stop, c', m', t');
    }

    /** How a run ends, and what it has done. */
    ghost predicate RunResult(log: seq<Sent>, c0: nat, m0: map<int, Row>, end: End, c: nat, m: map<int, Row>, t: Tally,
                              stored: seq<Object>) {
      && Safe(m0, m, stored) && m == DroppedBy(m0, log, c0) && t.deleted + |m| <= |m0|
      && t == Reported(log, c0, Tally(0, 0, 0, [])).(errors := t.errors)
      && (end.Killed? ==> c == life)
      && (end.Rejected? ==> log != [] && log[|log| - 1] == Query && c0 < c && fate(c - 1).Fails?)
      && (end.Finished? ==> |OldIds(m)| < BATCH_SIZE)
      && (end.Finished? && AllWork(c0, c) ==>
            && (forall id :: id in m ==> m[id].createdAt == None || cutoff <= m[id].createdAt.value)
            && Exact(m0, m, stored) && t == Tally(|OldIds(m0)|, |OldIds(m0)|, 0, []))
      && (AllWork(c0, life) && life > c0 + 3 * |OldIds(m0)| + 1 ==> end.Finished?)
      && (|OldIds(m0)| >= BATCH_SIZE && c0 + 1 < life && fate(c0 + 1).Fails? ==> !end.Finished? && m == m0)
      && (|OldIds(m0)| < BATCH_SIZE && life > c0 + 2 * |OldIds(m0)| + 1 && fate(c0).Works? ==> end.Finished?)
      && (forall j :: 0 <= j < |log| && FailedPut(log, j, c0) ==> HaltedBy(log, j, c0, m0, end, m, t))
    }

    lemma RunStateEnds(log: seq<Sent>, c0: nat, m0: map<int, Row>, end: End, c: nat, m: map<int, Row>, t: Tally,
                       stored: seq<Object>)
      requires RunState(log, c0, m0, Some(end), c, m, t, stored) && c <= life
      ensures RunResult(log, c0, m0, end, c, m, t, stored)
    {
      RunEnds(c0, m0, end, c, m, t, stored);
      RunHalts(log, c0, m0, end, c, m, t);
    }

    /** A run: batches until one comes back short. */
    method Archive() returns (end: End, tally: Tally, ghost added: seq<Object>, ghost log: seq<Sent>)
      requires Valid()
      modifies this
      ensures Valid() && objects == old(objects) + added && sent == old(sent) + log
      ensures RunResult(log, old(calls), old(hot), end, calls, hot, tally, added) && added == StoredBy(log, old(calls))
    {
      end, tally, added, log := Batches();
      RunStateEnds(log, old(calls), old(hot), end, calls, hot, tally, added);
    }

    /** The loop. */
    method Batches() returns (end: End, tally: Tally, ghost added: seq<Object>, ghost log: seq<Sent>)
      requires Valid()
      modifies this
      ensures Valid() && objects == old(objects) + added && sent == old(sent) + log
      ensures RunStep(log, old(calls), old(hot), Some(end), calls, hot, tally, added)
    {
      tally, added, log := Tally(0, 0, 0, []), [], [];
      ghost var c0, m0, o0, s0 := calls, hot, objects, sent;
      RunStateStarts(c0, m0);
      var stop: Option<End> := None;
      while stop == None
        invariant Valid() && objects == o0 + added && sent == s0 + log
        invariant RunStep(log, c0, m0, stop, calls, hot, tally, added)
        decreases if stop.None? then 1 + life - calls else 0
      {
        stop, tally, added, log := Turn(tally, log, c0, m0, o0, s0, added);
      }
      end := stop.value;
    }

    /** One turn, as part of a run that began at call c0 with the given table, objects and calls. */
    method Turn(tally: Tally, ghost log: seq<Sent>, ghost c0: nat, ghost m0: map<int, Row>, ghost o0: seq<Object>,
                ghost s0: seq<Sent>, ghost stored: seq<Object>)
      returns (stop: Option<End>, next: Tally, ghost stored': seq<Object>, ghost log': seq<Sent>)
      requires Valid() && objects == o0 + stored && sent == s0 + log
      requires RunStep(log, c0, m0, None, calls, hot, tally, stored)
      modifies this
      ensures Valid() && objects == o0 + stored' && sent == s0 + log'
      ensures RunStep(log', c0, m0, stop, calls, hot, next, stored')
      ensures stop == None ==> old(calls) < calls
    {
      ghost var more, part;
      stop, next, more, part := NextBatch(tally);
      RunStepTurn(log, c0, m0, old(calls), old(hot), tally, stored, part, stop, calls, hot, next, more);
      AppendAssociative(o0, stored, more);
      AppendAssociative(s0, log, part);
      stored', log' := stored + more, log + part;
    }
  }

  function Message(month: string, text: string): string {
    MARKER + " " + month + ": " + text
  }

  /** Every upload error is recognised as one, and errors stay. */
  lemma MessageBlocks(errors: seq<string>, month: string, text: string)
    ensures Blocked(errors + [Message(month, text)])
  {
    var s := Message(month, text);
    assert s[0..][..|MARKER|] == MARKER;
    assert (errors + [s])[|errors|] == s;
  }
}
