/** Warm archival: one batch of settled transactions is copied to the analytics store and to a backup
    file, and then marked as archived in chunks. */
module WarmArchival {
  import opened Common
  import opened Chunks

  datatype Status = Pending | UnderReview | Completed | Failed | Reversed | Blocked
  datatype Tier = Hot | Warm | Cold
  datatype Tx = Tx(id: int, status: Status, createdAt: Option<int>, tier: Tier, content: string)

  /** `s3Key` only says that a backup was attempted: it is set before the write. */
  datatype Report = Report(rowsArchived: nat, s3Key: bool, errors: seq<string>)

  const BATCH_SIZE := 10000
  const MARK_SIZE := 1000

  function Min(a: int, b: int): int {
    if a <= b then a else b
  }

  /** The row as it was selected. */
  function Plain(r: Tx): Tx {
    r.(tier := Hot)
  }

  function MarkOne(r: Tx): Tx {
    r.(tier := Warm)
  }

  function Marked(table: map<int, Tx>, ids: set<int>): map<int, Tx> {
    map id | id in table :: if id in ids then MarkOne(table[id]) else table[id]
  }

  lemma MarkedTwice(table: map<int, Tx>, a: set<int>, b: set<int>)
    ensures Marked(Marked(table, a), b) == Marked(table, a + b)
  {
    forall id | id in table ensures Marked(Marked(table, a), b)[id] == Marked(table, a + b)[id] {
      assert MarkOne(MarkOne(table[id])) == MarkOne(table[id]);
      assert id in a + b <==> id in a || id in b;
    }
  }

  // ---- How often a row was written ----

  function Copies(files: seq<seq<Tx>>, r: Tx): nat {
    if files == [] then 0 else Copies(files[..|files| - 1], r) + multiset(files[|files| - 1])[r]
  }

  lemma CopiesMore(files: seq<seq<Tx>>, file: seq<Tx>, r: Tx)
    ensures Copies(files + [file], r) == Copies(files, r) + multiset(file)[r]
  {
    assert (files + [file])[..|files|] == files;
  }

  /** Every row marked warm is in a backup file. */
  ghost predicate Backed(table: map<int, Tx>, files: seq<seq<Tx>>) {
    forall id :: id in table && table[id].tier == Warm ==> Copies(files, Plain(table[id])) > 0
  }

  /** Rows marked warm were written exactly once, unarchived rows never. */
  ghost predicate Once(table: map<int, Tx>, files: seq<seq<Tx>>) {
    forall id :: id in table ==> OnceAt(table, files, id)
  }

  ghost predicate OnceAt(table: map<int, Tx>, files: seq<seq<Tx>>, id: int)
    requires id in table
  {
    && (table[id].tier == Warm ==> Copies(files, Plain(table[id])) == 1)
    && (table[id].tier == Hot ==> Copies(files, Plain(table[id])) == 0)
  }

  // ---- The batch ----

  function IdsOf(rows: seq<Tx>): (ids: seq<int>)
    ensures |ids| == |rows| && forall i :: 0 <= i < |rows| ==> ids[i] == rows[i].id
  {
    seq(|rows|, i requires 0 <= i < |rows| => rows[i].id)
  }

  ghost predicate Keyed(table: map<int, Tx>) {
    forall id :: id in table ==> table[id].id == id
  }

  predicate Eligible(r: Tx, cutoff: int) {
    && r.createdAt.Some? && r.createdAt.value < cutoff
    && r.status in {Completed, Failed, Reversed, Blocked} && r.tier == Hot
  }

  function EligibleIds(table: map<int, Tx>, cutoff: int): set<int> {
    set id | id in table && Eligible(table[id], cutoff)
  }

  ghost predicate IsBatch(rows: seq<Tx>, table: map<int, Tx>, cutoff: int) {
    && Distinct(IdsOf(rows)) && SetOf(IdsOf(rows)) <= EligibleIds(table, cutoff)
    && (forall i :: 0 <= i < |rows| ==> rows[i].id in table && table[rows[i].id] == rows[i])
    && |rows| == if |EligibleIds(table, cutoff)| < BATCH_SIZE then |EligibleIds(table, cutoff)| else BATCH_SIZE
  }

  /** A batch is of settled hot rows from before the cutoff, and holds all of them unless it is full. */
  lemma BatchMeans(rows: seq<Tx>, table: map<int, Tx>, cutoff: int)
    requires IsBatch(rows, table, cutoff) && Keyed(table)
    ensures |rows| <= 10_000 && forall r :: r in rows ==> r.id in table && table[r.id] == r && Settled(r, cutoff)
    ensures |rows| < 10_000 ==> forall id :: id in table && Settled(table[id], cutoff) ==> table[id] in rows
  {
    var ids := IdsOf(rows);
    SetOfMembers(ids);
    forall r | r in rows ensures r.id in table && table[r.id] == r && Settled(r, cutoff) {
      var i :| 0 <= i < |rows| && rows[i] == r;
      assert ids[i] in SetOf(ids);
    }
    if |rows| < 10_000 {
      SetOfSize(ids);
      SameSize(SetOf(ids), EligibleIds(table, cutoff));
      forall id | id in table && Settled(table[id], cutoff) ensures table[id] in rows {
        assert id in EligibleIds(table, cutoff);
        var i :| 0 <= i < |ids| && ids[i] == id;
        assert rows[i] == table[id];
      }
    }
  }

  predicate Settled(r: Tx, cutoff: int) {
    && r.tier == Hot && r.createdAt.Some? && r.createdAt.value < cutoff
    && (r.status == Completed || r.status == Failed || r.status == Reversed || r.status == Blocked)
  }

  lemma BatchHas(rows: seq<Tx>, table: map<int, Tx>, cutoff: int, id: int)
    requires IsBatch(rows, table, cutoff) && Keyed(table) && id in table
    ensures multiset(rows)[Plain(table[id])] == if id in SetOf(IdsOf(rows)) then 1 else 0
    ensures id in SetOf(IdsOf(rows)) ==> table[id].tier == Hot
  {
    assert forall i, j :: 0 <= i < j < |rows| ==> IdsOf(rows)[i] != IdsOf(rows)[j];
    DistinctOnce(rows, Plain(table[id]));
    SetOfMembers(IdsOf(rows));
    assert forall i :: 0 <= i < |rows| ==> rows[i].tier == Hot by {
      forall i | 0 <= i < |rows| ensures rows[i].tier == Hot {
        assert IdsOf(rows)[i] in SetOf(IdsOf(rows));
      }
    }
    assert id in SetOf(IdsOf(rows)) ==> exists i :: 0 <= i < |rows| && IdsOf(rows)[i] == id;
  }

  /** What a run leaves: part of a batch marked, and only after the batch was written. */
  ghost predicate Left(table: map<int, Tx>, files: seq<seq<Tx>>, rows: seq<Tx>, marks: set<int>, wrote: bool,
                       table': map<int, Tx>, files': seq<seq<Tx>>) {
    && marks <= SetOf(IdsOf(rows)) && (marks != {} ==> wrote)
    && table' == Marked(table, marks)
    && files' == if wrote then files + [rows] else files
  }

  /** However a run ends, marked rows are in a backup file and will never be selected again. */
  lemma RunKeepsBacked(table: map<int, Tx>, files: seq<seq<Tx>>, cutoff: int, rows: seq<Tx>, marks: set<int>,
                       wrote: bool,
                       table': map<int, Tx>, files': seq<seq<Tx>>)
    requires Keyed(table) && Backed(table, files) && IsBatch(rows, table, cutoff)
    requires Left(table, files, rows, marks, wrote, table', files')
    ensures Keyed(table') && Backed(table', files')
    ensures forall later, id :: id in marks ==> id !in EligibleIds(table', later)
  {
    forall id | id in table' && table'[id].tier == Warm ensures Copies(files', Plain(table'[id])) > 0 {
      assert Plain(table'[id]) == Plain(table[id]);
      CopiesMore(files, rows, Plain(table[id]));
      BatchHas(rows, table, cutoff, id);
    }
  }

  /** Rows stay written exactly once if and only if the run wrote nothing or marked its whole batch. */
  lemma OnceIffAllMarked(table: map<int, Tx>, files: seq<seq<Tx>>, cutoff: int, rows: seq<Tx>, marks: set<int>,
                         wrote: bool,
                         table': map<int, Tx>, files': seq<seq<Tx>>)
    requires Keyed(table) && Once(table, files) && IsBatch(rows, table, cutoff)
    requires Left(table, files, rows, marks, wrote, table', files')
    ensures Once(table', files') <==> !wrote || marks == SetOf(IdsOf(rows))
  {
    if !wrote {
      assert forall id :: id in table ==> table'[id] == table[id];
      assert table' == table;
    } else {
      forall id | id in table ensures OnceAt(table', files', id) <==> (id in SetOf(IdsOf(rows)) ==> id in marks) {
        CopiesMore(files, rows, Plain(table[id]));
        BatchHas(rows, table, cutoff, id);
      }
      if marks != SetOf(IdsOf(rows)) {
        var id := Missing(marks, SetOf(IdsOf(rows)));
        assert id in EligibleIds(table, cutoff) && !OnceAt(table', files', id);
      }
    }
  }

  lemma CopiesAfter(table: map<int, Tx>, files: seq<seq<Tx>>, cutoff: int, rows: seq<Tx>, marks: set<int>,
                    table': map<int, Tx>, files': seq<seq<Tx>>, id: int)
    requires Keyed(table) && IsBatch(rows, table, cutoff) && Left(table, files, rows, marks, true, table', files')
    requires id in table && id in SetOf(IdsOf(rows))
    ensures Copies(files', Plain(table[id])) == Copies(files, Plain(table[id])) + 1
    ensures Keyed(table') && table[id].tier == Hot && (id !in marks ==> table'[id] == table[id])
  {
    CopiesMore(files, rows, Plain(table[id]));
    BatchHas(rows, table, cutoff, id);
  }

  /** A row that a run wrote without marking it is written a second time by any later run that selects
      it and gets as far as writing. */
  lemma WrittenTwice(table: map<int, Tx>, files: seq<seq<Tx>>, cutoff: int, rows: seq<Tx>, marks: set<int>,
                     table1: map<int, Tx>, files1: seq<seq<Tx>>,
                     cutoff1: int, rows1: seq<Tx>, marks1: set<int>, table2: map<int, Tx>, files2: seq<seq<Tx>>,
                     id: int)
    requires Keyed(table) && Once(table, files) && IsBatch(rows, table, cutoff)
    requires Left(table, files, rows, marks, true, table1, files1)
    requires id in table && id in SetOf(IdsOf(rows)) && id !in marks
    requires IsBatch(rows1, table1, cutoff1) && Left(table1, files1, rows1, marks1, true, table2, files2)
    requires id in SetOf(IdsOf(rows1))
    ensures Copies(files2, Plain(table[id])) == 2
  {
    CopiesAfter(table, files, cutoff, rows, marks, table1, files1, id);
    CopiesAfter(table1, files1, cutoff1, rows1, marks1, table2, files2, id);
    assert OnceAt(table, files, id);
  }

  // ---- What becomes of the calls ----

  /** How many calls copying to the warehouse makes: create, insert and close, and after a failure one more
      close. */
  function CopyCalls(fate: nat -> Outcome, first: nat): nat {
    if !fate(first).Works? then 2
    else if !fate(first + 1).Works? then 3
    else if !fate(first + 2).Works? then 4
    else 3
  }

  /** The number of the call that writes the backup file, of a run whose first call after the query is
      number `first`. */
  function WriteCall(fate: nat -> Outcome, first: nat, clickHouse: bool): nat {
    if clickHouse then first + CopyCalls(fate, first) else first
  }

  /** Call number k was made and took effect. */
  predicate Happened(fate: nat -> Outcome, life: nat, k: nat) {
    k < life && Applied(fate, k)
  }

  /** The table could be created, and the insert that follows was made and took effect. */
  predicate Copied(fate: nat -> Outcome, life: nat, first: nat) {
    fate(first).Works? && Happened(fate, life, first + 1)
  }

  ghost predicate AllHappened(fate: nat -> Outcome, life: nat, from: nat, to: nat) {
    forall k :: from <= k < to ==> Happened(fate, life, k)
  }

  lemma HappenedMore(fate: nat -> Outcome, life: nat, from: nat, to: nat)
    requires from <= to
    ensures AllHappened(fate, life, from, to + 1) <==> AllHappened(fate, life, from, to) && Happened(fate, life, to)
  {
  }

  function ChunkCount(n: nat): nat {
    (n + MARK_SIZE - 1) / MARK_SIZE
  }

  /** Nothing failed up to the write, and every call that marks one of n rows was made and took effect. */
  ghost predicate MarksAll(fate: nat -> Outcome, life: nat, first: nat, clickHouse: bool, n: nat) {
    var write := WriteCall(fate, first, clickHouse);
    && (forall k :: first <= k <= write ==> fate(k).Works?)
    && AllHappened(fate, life, write + 1, write + 1 + ChunkCount(n))
  }

  // ---- One run ----

  class Archiver {
    var table: map<int, Tx>
    var files: seq<seq<Tx>>
    var warehouse: seq<Tx>
    var calls: nat
    /** The ids each remote call so far asked to mark; none for the other calls. */
    var sent: seq<seq<int>>
    const fate: nat -> Outcome
    var life: nat

    constructor (table: map<int, Tx>, fate: nat -> Outcome, life: nat)
      ensures this.table == table && files == [] && warehouse == [] && calls == 0 && Logged()
      ensures this.fate == fate && this.life == life
    {
      this.table, files, warehouse, calls, sent, this.fate, this.life := table, [], [], 0, [], fate, life;
    }

    predicate Logged()
      reads this
    {
      |sent| == calls <= life
    }

    ghost predicate AllWork(from: nat, to: nat) {
      forall k :: from <= k < to ==> fate(k).Works?
    }

    /** Makes one remote call: whether the process was still there, whether the call threw, and
        whether it took effect. */
    method Remote(ids: seq<int>) returns (alive: bool, ok: bool, applied: bool, text: string)
      requires Logged()
      modifies this`calls, this`sent
      ensures alive == (old(calls) < life) && calls == (if alive then old(calls) + 1 else old(calls)) && Logged()
      ensures sent == old(sent) + if alive then [ids] else []
      ensures ok == (alive && fate(old(calls)).Works?)
      ensures applied == (alive && Applied(fate, old(calls)))
    {
      alive := calls < life;
      var outcome := fate(calls);
      ok := alive && outcome.Works?;
      applied := ok || (alive && outcome.applied);
      text := if outcome.Fails? then outcome.text else "";
      if alive {
        calls, sent := calls + 1, sent + [ids];
      }
    }

    method Select(cutoff: int) returns (rows: seq<Tx>)
      requires Keyed(table)
      ensures IsBatch(rows, table, cutoff)
    {
      var ids := Pick(EligibleIds(table, cutoff), BATCH_SIZE);
      rows := [];
      for k := 0 to |ids|
        invariant |rows| == k && forall i :: 0 <= i < k ==> ids[i] in table && rows[i] == table[ids[i]]
      {
        rows := rows + [table[ids[k]]];
      }
      assert forall i :: 0 <= i < |ids| ==> IdsOf(rows)[i] == ids[i];
      assert IdsOf(rows) == ids;
    }

    /** Creates the table if need be, inserts the batch and closes the client. Any failure is one
        error, after which the client is closed once more and a failure to do so ignored. */
    method CopyToWarehouse(rows: seq<Tx>) returns (alive: bool, errors: seq<string>)
      requires Logged()
      modifies this`calls, this`sent, this`warehouse
      ensures old(calls) <= calls <= old(calls) + 4 && Logged() && (alive || calls == life)
      ensures warehouse == if Copied(fate, life, old(calls)) then old(warehouse) + rows else old(warehouse)
      ensures alive && errors == [] ==> warehouse == old(warehouse) + rows
      ensures if alive then calls == old(calls) + CopyCalls(fate, old(calls))
              else life < old(calls) + CopyCalls(fate, old(calls))
      ensures alive ==> (errors == [] <==> AllWork(old(calls), calls))
      ensures AllWork(old(calls), calls) ==> errors == []
    {
      var ok, applied, text;
      errors := [];
      alive, ok, applied, text := Remote([]);
      if ok {
        alive, ok, applied, text := Remote([]);
        if applied {
          warehouse := warehouse + rows;
        }
      }
      if ok {
        alive, ok, applied, text := Remote([]);
      }
      if alive && !ok {
        errors := ["ClickHouse INSERT failed: " + text];
        var ignored;
        alive, ok, applied, ignored := Remote([]);
      }
    }

    /** Writes the backup file. */
    method WriteFile(rows: seq<Tx>) returns (alive: bool, errors: seq<string>)
      requires Logged()
      modifies this`calls, this`sent, this`files
      ensures alive == (old(calls) < life) && calls == (if alive then old(calls) + 1 else old(calls)) && Logged()
      ensures files == if Happened(fate, life, old(calls)) then old(files) + [rows] else old(files)
      ensures errors == [] <==> alive ==> fate(old(calls)).Works?
    {
      var ok, applied, text;
      alive, ok, applied, text := Remote([]);
      if applied {
        files := files + [rows];
      }
      errors := if alive && !ok then ["S3 write failed: " + text] else [];
    }

    /** The table after the given chunks were sent, one call each, from call number `first`. */
    function Replayed(table: map<int, Tx>, chunks: seq<seq<int>>, first: nat): map<int, Tx> {
      if chunks == [] then table
      else
        var n := |chunks| - 1;
        var before := Replayed(table, chunks[..n], first);
        if Applied(fate, first + n) then Marked(before, SetOf(chunks[n])) else before
    }

    lemma ReplayedSnoc(table: map<int, Tx>, chunks: seq<seq<int>>, chunk: seq<int>, first: nat)
      ensures Replayed(table, chunks + [chunk], first)
              == var before := Replayed(table, chunks, first);
                 if Applied(fate, first + |chunks|) then Marked(before, SetOf(chunk)) else before
    {
      var more := chunks + [chunk];
      assert more[..|more| - 1] == chunks;
    }

    method MarkChunk(chunk: seq<int>, errors: seq<string>)
      returns (alive: bool, errors': seq<string>, ghost more: set<int>)
      requires Logged()
      modifies this`calls, this`sent, this`table
      ensures alive == (old(calls) < life) && calls == (if alive then old(calls) + 1 else old(calls)) && Logged()
      ensures sent == old(sent) + if alive then [chunk] else []
      ensures table == if alive && Applied(fate, old(calls)) then Marked(old(table), SetOf(chunk)) else old(table)
      ensures table == Marked(old(table), more)
      ensures errors' == [] <==> errors == [] && (alive ==> fate(old(calls)).Works?)
      ensures more == if Happened(fate, life, old(calls)) then SetOf(chunk) else {}
    {
      var ok, applied, text;
      alive, ok, applied, text := Remote(chunk);
      more, errors' := {}, errors;
      assert Marked(table, {}) == table;
      if applied {
        table := Marked(table, SetOf(chunk));
        more := SetOf(chunk);
      }
      if alive && !ok {
        errors' := errors + ["archivedTier update failed: " + text];
      }
    }

    /** The chunks of the first i ids have been sent, and the table is what they made of it. */
    ghost predicate Chunked(ids: seq<int>, i: nat, chunks: seq<seq<int>>, before: map<int, Tx>, first: nat,
                            after: map<int, Tx>) {
      Slices(chunks, ids, i, MARK_SIZE) && after == Replayed(before, chunks, first)
    }

    lemma ChunkedMore(ids: seq<int>, i: nat, end: nat, chunks: seq<seq<int>>, before: map<int, Tx>, first: nat,
                      mid: map<int, Tx>,
                      after: map<int, Tx>)
      requires Chunked(ids, i, chunks, before, first, mid) && i < end <= |ids| && end - i <= MARK_SIZE
      requires after == if Applied(fate, first + |chunks|) then Marked(mid, SetOf(ids[i..end])) else mid
      ensures Chunked(ids, end, chunks + [ids[i..end]], before, first, after)
    {
      SlicesMore(chunks, ids, i, end, MARK_SIZE);
      ReplayedSnoc(before, chunks, ids[i..end], first);
    }

    /** The first `end` ids are marked if and only if the first i were and so is the chunk after them. */
    lemma ChunkMarked(ids: seq<int>, i: nat, end: nat, marks: set<int>, more: set<int>)
      requires Distinct(ids) && i < end <= |ids| && marks <= SetOf(ids[..i]) && more in {{}, SetOf(ids[i..end])}
      ensures marks + more == SetOf(ids[..end]) <==> marks == SetOf(ids[..i]) && more == SetOf(ids[i..end])
      ensures more == SetOf(ids[i..end]) ==> more != {}
    {
      PrefixSets(ids, i, end);
      ChunksDisjoint(ids, i, end);
      LastMember(ids[i..end]);
    }

    lemma LastMember(ids: seq<int>)
      requires ids != []
      ensures ids[|ids| - 1] in SetOf(ids)
    {
    }

    /** What the calls so far have marked of the first i ids. */
    ghost predicate Progress(ids: seq<int>, i: nat, marks: set<int>, before: map<int, Tx>, after: map<int, Tx>,
                             from: nat, to: nat)
      reads this`life
    {
      && from <= to && i <= |ids| && after == Marked(before, marks) && marks <= SetOf(ids[..i])
      && (marks == SetOf(ids[..i]) <==> AllHappened(fate, life, from, to))
    }

    lemma ProgressMore(ids: seq<int>, i: nat, end: nat, marks: set<int>, more: set<int>, before: map<int, Tx>,
                       mid: map<int, Tx>, after: map<int, Tx>, from: nat, to: nat)
      requires Distinct(ids) && i < end <= |ids| && Progress(ids, i, marks, before, mid, from, to)
      requires after == Marked(mid, more)
      requires more == if Happened(fate, life, to) then SetOf(ids[i..end]) else {}
      ensures Progress(ids, end, marks + more, before, after, from, to + 1)
    {
      PrefixSets(ids, i, end);
      MarkedTwice(before, marks, more);
      ChunkMarked(ids, i, end, marks, more);
      HappenedMore(fate, life, from, to);
    }

    /** The first i ids, or all of them, have been sent; `clean` says that no call threw. */
    ghost predicate MarkSoFar(ids: seq<int>, i: nat, chunks: seq<seq<int>>, marks: set<int>, before: map<int, Tx>,
                              after: map<int, Tx>, first: nat, c: nat, clean: bool)
      reads this`life
    {
      && first <= c && i == MARK_SIZE * (c - first) && i < |ids| + MARK_SIZE && c == first + |chunks|
      && Chunked(ids, Min(i, |ids|), chunks, before, first, after)
      && Progress(ids, Min(i, |ids|), marks, before, after, first, c) && (clean <==> AllWork(first, c))
    }

    lemma MarkStarts(ids: seq<int>, table: map<int, Tx>, first: nat)
      ensures MarkSoFar(ids, 0, [], {}, table, table, first, first, true)
    {
      assert Marked(table, {}) == table;
    }

    lemma MarkGoesOn(ids: seq<int>, i: nat, chunks: seq<seq<int>>, marks: set<int>, more: set<int>,
                     before: map<int, Tx>, mid: map<int, Tx>, after: map<int, Tx>, first: nat, c: nat, clean: bool)
      requires Distinct(ids) && i < |ids| && MarkSoFar(ids, i, chunks, marks, before, mid, first, c, clean)
      requires c < life && more == if Applied(fate, c) then SetOf(ids[i..Min(i + MARK_SIZE, |ids|)]) else {}
      requires after == Marked(mid, more)
      ensures MarkSoFar(ids, i + MARK_SIZE, chunks + [ids[i..Min(i + MARK_SIZE, |ids|)]], marks + more, before, after,
                        first, c + 1, clean && fate(c).Works?)
    {
      var end := Min(i + MARK_SIZE, |ids|);
      assert Marked(mid, {}) == mid;
      ProgressMore(ids, i, end, marks, more, before, mid, after, first, c);
      ChunkedMore(ids, i, end, chunks, before, first, mid, after);
      assert AllWork(first, c + 1) <==> AllWork(first, c) && fate(c).Works?;
    }

    method MarkNext(ids: seq<int>, i: nat, errors: seq<string>, ghost before: map<int, Tx>, ghost first: nat,
                    ghost chunks: seq<seq<int>>, ghost marks: set<int>)
      returns (alive: bool, errors': seq<string>, ghost marks': set<int>)
      requires Logged() && Distinct(ids) && i < |ids|
      requires MarkSoFar(ids, i, chunks, marks, before, table, first, calls, errors == [])
      modifies this`calls, this`sent, this`table
      ensures Logged()
      ensures if alive
              then var chunk := ids[i..Min(i + MARK_SIZE, |ids|)];
                   && sent == old(sent) + [chunk]
                   && MarkSoFar(ids, i + MARK_SIZE, chunks + [chunk], marks', before, table, first, calls,
                                errors' == [])
              else calls == old(calls) == life && sent == old(sent) && table == old(table) && marks' == marks
                   && (errors' == [] <==> errors == [])
    {
      var chunk := ids[i..Min(i + MARK_SIZE, |ids|)];
      ghost var more;
      alive, errors', more := MarkChunk(chunk, errors);
      marks' := if alive then marks + more else marks;
      if alive {
        MarkGoesOn(ids, i, chunks, marks, more, before, old(table), table, first, old(calls), errors == []);
      } else {
        assert old(sent) + [] == old(sent);
      }
    }

    /** What the calls from number `first` on made of the table: every chunk sent has at most MARK_SIZE
        ids, one after the other the chunks are the ids, all of them unless the process died, and the
        table is what those calls made of it. All ids are marked if and only if every chunk was sent and
        its call took effect; so they are if there was no error. */
    ghost predicate MarkResult(ids: seq<int>, alive: bool, clean: bool, marks: set<int>, chunks: seq<seq<int>>,
                               before: map<int, Tx>, after: map<int, Tx>, first: nat)
      reads this`life
    {
      && (exists i :: Chunked(ids, i, chunks, before, first, after) && (alive ==> i == |ids|))
      && after == Marked(before, marks) && marks <= SetOf(ids)
      && (marks == SetOf(ids) <==> AllHappened(fate, life, first, first + ChunkCount(|ids|)))
      && (alive && clean ==> marks == SetOf(ids))
    }

    /** Marks the ids in chunks; a chunk that fails is reported and the next one follows. */
    method MarkChunks(ids: seq<int>) returns (alive: bool, errors: seq<string>, ghost marks: set<int>)
      requires Logged() && |ids| <= BATCH_SIZE && Distinct(ids)
      modifies this`calls, this`sent, this`table
      ensures old(calls) <= calls <= old(calls) + BATCH_SIZE / MARK_SIZE && Logged() && (alive || calls == life)
      ensures old(sent) <= sent
      ensures MarkResult(ids, alive, errors == [], marks, sent[old(calls)..], old(table), table, old(calls))
      ensures AllWork(old(calls), calls) ==> errors == []
    {
      alive, errors, marks := true, [], {};
      ghost var chunks: seq<seq<int>> := [];
      MarkStarts(ids, table, calls);
      var i := 0;
      while i < |ids|
        invariant 0 <= i && Logged() && sent == old(sent) + chunks
        invariant MarkSoFar(ids, i, chunks, marks, old(table), table, old(calls), calls, errors == [])
        decreases |ids| - i
      {
        alive, errors, marks := MarkNext(ids, i, errors, old(table), old(calls), chunks, marks);
        if !alive {
          break;
        }
        chunks := chunks + [ids[i..Min(i + MARK_SIZE, |ids|)]];
        i := i + MARK_SIZE;
      }
      assert sent[old(calls)..] == chunks;
      MarksEnd(ids, i, alive, errors == [], marks, chunks, old(table), table, old(calls), calls);
    }

    /** How the loop ends: with all ids, or because the process died. */
    lemma MarksEnd(ids: seq<int>, i: nat, alive: bool, clean: bool, marks: set<int>, chunks: seq<seq<int>>,
                   before: map<int, Tx>, after: map<int, Tx>, first: nat, to: nat)
      requires Distinct(ids) && to <= life && MarkSoFar(ids, i, chunks, marks, before, after, first, to, clean)
      requires if alive then i >= |ids| else i < |ids| && to == life
      ensures MarkResult(ids, alive, clean, marks, chunks, before, after, first)
    {
      assert ids[..|ids|] == ids;
      if !alive {
        NotAllMarked(ids, i, marks);
        assert !Happened(fate, life, to);
        assert to < first + ChunkCount(|ids|);
      } else {
        assert to == first + ChunkCount(|ids|);
      }
    }

    lemma NotAllMarked(ids: seq<int>, i: nat, marks: set<int>)
      requires Distinct(ids) && i < |ids| && marks <= SetOf(ids[..i])
      ensures marks != SetOf(ids) && marks <= SetOf(ids)
    {
      PrefixSets(ids, i, |ids|);
      assert ids[..|ids|] == ids;
      ChunksDisjoint(ids, i, |ids|);
      LastMember(ids[i..|ids|]);
    }

    /** A run whose first call has the given number gets its rows and may write them. */
    ghost predicate Starts(call: nat, dryRun: bool)
      reads this
    {
      call < life && fate(call).Works? && !dryRun
    }

    /** The batch of n rows is not written, or every one of them is marked after it was. */
    ghost predicate KeepsOnce(call: nat, dryRun: bool, clickHouse: bool, n: nat)
      reads this
    {
      n == 0 || !Starts(call, dryRun) || !Happened(fate, life, WriteCall(fate, call + 1, clickHouse))
      || MarksAll(fate, life, call + 1, clickHouse, n)
    }

    /** One run. */
    method ArchiveToWarm(cutoff: int, dryRun: bool, clickHouse: bool)
      returns (end: End, report: Report, ghost rows: seq<Tx>, ghost marks: set<int>, ghost wrote: bool)
      requires Logged() && Keyed(table)
      modifies this`calls, this`sent, this`table, this`files, this`warehouse
      ensures Logged() && IsBatch(rows, old(table), cutoff)
      ensures Left(old(table), old(files), rows, marks, wrote, table, files)
      ensures dryRun ==> !wrote && marks == {} && warehouse == old(warehouse)
      ensures marks != {} && clickHouse ==> warehouse == old(warehouse) + rows
      ensures warehouse
              == if rows != [] && clickHouse && Starts(old(calls), dryRun) && Copied(fate, life, old(calls) + 1)
                 then old(warehouse) + rows else old(warehouse)
      ensures end.Finished? ==> report.rowsArchived == |rows| && report.s3Key == (rows != [] && !dryRun)
      ensures end.Finished? && report.errors == [] && !dryRun ==> marks == SetOf(IdsOf(rows)) && (wrote <==> rows != [])
      ensures end.Rejected? <==> old(calls) < life && !fate(old(calls)).Works?
      ensures wrote <==> rows != [] && Starts(old(calls), dryRun)
                         && Happened(fate, life, WriteCall(fate, old(calls) + 1, clickHouse))
      ensures end.Finished? && report.s3Key ==> (wrote <==> Applied(fate, WriteCall(fate, old(calls) + 1, clickHouse)))
      ensures Once(old(table), old(files)) ==>
                (Once(table, files) <==> KeepsOnce(old(calls), dryRun, clickHouse, |rows|))
      ensures marks == SetOf(IdsOf(rows)) <==>
                rows == [] || (Starts(old(calls), dryRun) && MarksAll(fate, life, old(calls) + 1, clickHouse, |rows|))
      ensures calls <= old(calls) + 16 && (end.Killed? ==> calls == life)
      ensures AllWork(old(calls), calls) ==> !end.Rejected? && report.errors == []
    {
      report, marks, wrote := Report(0, false, []), {}, false;
      assert Marked(table, {}) == table;
      var alive, ok, applied, text := Remote([]);
      var selected := Select(cutoff);
      rows := selected;
      if !ok {
        return if alive then Rejected else Killed, report, rows, marks, wrote;
      }
      report := report.(rowsArchived := |selected|);
      if selected == [] || dryRun {
        return Finished, report, rows, marks, wrote;
      }
      alive, report, marks, wrote := Save(selected, clickHouse);
      if Once(old(table), old(files)) {
        OnceIffAllMarked(old(table), old(files), cutoff, rows, marks, wrote, table, files);
      }
      end := if alive then Finished else Killed;
    }

    /** Copies a batch to the warehouse and writes its backup file. */
    method WriteCopies(rows: seq<Tx>, clickHouse: bool) returns (alive: bool, errors: seq<string>)
      requires Logged()
      modifies this`calls, this`sent, this`files, this`warehouse
      ensures var write := WriteCall(fate, old(calls), clickHouse);
              && (if alive then calls == write + 1 else calls == life <= write) && old(calls) <= calls
              && files == (if Happened(fate, life, write) then old(files) + [rows] else old(files))
              && (alive ==> (errors == [] <==> AllWork(old(calls), write + 1)))
      ensures Logged() && calls <= old(calls) + 5
      ensures warehouse
              == if clickHouse && Copied(fate, life, old(calls)) then old(warehouse) + rows else old(warehouse)
      ensures alive && errors == [] && clickHouse ==> warehouse == old(warehouse) + rows
      ensures AllWork(old(calls), calls) ==> errors == []
    {
      alive, errors := true, [];
      if clickHouse {
        alive, errors := CopyToWarehouse(rows);
        if !alive {
          return;
        }
      }
      var more;
      alive, more := WriteFile(rows);
      errors := errors + more;
    }

    /** Copies a batch, writes it, and marks it unless something failed. */
    method Save(rows: seq<Tx>, clickHouse: bool)
      returns (alive: bool, report: Report, ghost marks: set<int>, ghost wrote: bool)
      requires Logged() && Distinct(IdsOf(rows)) && 0 < |rows| <= BATCH_SIZE
      modifies this`calls, this`sent, this`table, this`files, this`warehouse
      ensures old(calls) <= calls <= old(calls) + 15 && Logged() && (alive || calls == life)
      ensures Left(old(table), old(files), rows, marks, wrote, table, files)
      ensures marks != {} && clickHouse ==> warehouse == old(warehouse) + rows
      ensures warehouse
              == if clickHouse && Copied(fate, life, old(calls)) then old(warehouse) + rows else old(warehouse)
      ensures report.rowsArchived == |rows| && report.s3Key
      ensures alive && report.errors == [] ==> wrote && marks == SetOf(IdsOf(rows))
      ensures wrote <==> Happened(fate, life, WriteCall(fate, old(calls), clickHouse))
      ensures alive ==> WriteCall(fate, old(calls), clickHouse) < life
      ensures marks == SetOf(IdsOf(rows)) <==> MarksAll(fate, life, old(calls), clickHouse, |rows|)
      ensures AllWork(old(calls), calls) ==> report.errors == []
    {
      marks := {};
      assert Marked(table, {}) == table;
      ghost var write := WriteCall(fate, calls, clickHouse);
      wrote := Happened(fate, life, write);
      var errors;
      alive, errors := WriteCopies(rows, clickHouse);
      report := Report(|rows|, true, errors);
      if alive && errors == [] {
        alive, errors, marks := MarkChunks(IdsOf(rows));
        report := report.(errors := errors);
      } else {
        assert !alive ==> !Happened(fate, life, write + 1);
        assert IdsOf(rows)[|rows| - 1] in SetOf(IdsOf(rows));
      }
    }
  }

  // ---- Many runs ----

  /** Any number of runs, each in a process that may die after any number of calls: rows marked as
      archived are always in a backup file. */
  method Schedule(archiver: Archiver, cutoffs: seq<int>, lives: seq<nat>, clickHouse: bool)
    requires |lives| == |cutoffs| && archiver.Logged() && Keyed(archiver.table)
    requires Backed(archiver.table, archiver.files)
    modifies archiver
    ensures Keyed(archiver.table) && Backed(archiver.table, archiver.files)
  {
    for i := 0 to |cutoffs|
      invariant archiver.Logged() && Keyed(archiver.table) && Backed(archiver.table, archiver.files)
    {
      archiver.life := archiver.calls + lives[i];
      ghost var table, files := archiver.table, archiver.files;
      ghost var rows, marks, wrote;
      var end, report;
      end, report, rows, marks, wrote := archiver.ArchiveToWarm(cutoffs[i], false, clickHouse);
      RunKeepsBacked(table, files, cutoffs[i], rows, marks, wrote, archiver.table, archiver.files);
    }
  }

  // ---- Two runs ----

  const ROW := Tx(1, Completed, Some(0), Hot, "")

  lemma RowIsBatch(rows: seq<Tx>)
    requires IsBatch(rows, map[1 := ROW], 1)
    ensures rows == [ROW]
  {
    assert EligibleIds(map[1 := ROW], 1) == {1};
  }

  /** The report of a run whose backup call fails without effect names a file that was not written. */
  method NamedNotWritten() returns (end: End, report: Report, files: seq<seq<Tx>>)
    ensures end.Finished? && report.s3Key && report.rowsArchived == 1 && files == []
  {
    var archiver := new Archiver(map[1 := ROW], k => if k == 1 then Fails(false, "") else Works, 100);
    ghost var rows, marks, wrote;
    end, report, rows, marks, wrote := archiver.ArchiveToWarm(1, false, false);
    RowIsBatch(rows);
    files := archiver.files;
  }

  /** The process dies after the write; the row is not marked. */
  method DieBeforeMarking() returns (archiver: Archiver)
    ensures fresh(archiver) && archiver.Logged() && archiver.life == 2 && forall k :: archiver.fate(k).Works?
    ensures archiver.table == map[1 := ROW] && archiver.files == [[ROW]]
  {
    archiver := new Archiver(map[1 := ROW], k => Works, 2);
    ghost var rows, marks, wrote;
    var end, report;
    end, report, rows, marks, wrote := archiver.ArchiveToWarm(1, false, false);
    RowIsBatch(rows);
    NoneMarked(archiver, rows, marks);
  }

  /** A process that dies between the write and the marking, and the run after it, write a row twice. */
  method BackedUpTwice() returns (files: seq<seq<Tx>>)
    ensures Copies(files, ROW) == 2
  {
    var archiver := DieBeforeMarking();
    archiver.life := 100;
    ghost var rows, marks, wrote;
    var end, report;
    end, report, rows, marks, wrote := archiver.ArchiveToWarm(1, false, false);
    RowIsBatch(rows);
    files := archiver.files;
    CopiesMore([], [ROW], ROW);
    CopiesMore([[ROW]], [ROW], ROW);
    assert [] + [[ROW]] == [[ROW]];
  }

  lemma NoneMarked(archiver: Archiver, rows: seq<Tx>, marks: set<int>)
    requires archiver.life == 2 && rows == [ROW] && marks <= SetOf(IdsOf(rows))
    requires marks == SetOf(IdsOf(rows)) <==> MarksAll(k => Works, 2, 1, false, 1)
    ensures marks == {} && Marked(map[1 := ROW], marks) == map[1 := ROW]
  {
    assert IdsOf(rows) == [1] && SetOf([1]) == {1};
    assert !Happened(k => Works, 2, 2);
  }
}
