/** The migration runner in imperative form, against a database connection that can fail at any query. */
module MigrationRunner {
  import opened Common
  import opened Migrations

  lemma {:induction false} PendingConcat(records: map<int, Record>, a: seq<Migration>, b: seq<Migration>)
    ensures Pending(records, a + b) == Pending(records, a) + Pending(records, b)
  {
    if a == [] {
      assert a + b == b;
    } else {
      PendingConcat(records, a[1..], b);
      assert (a + b)[0] == a[0] && (a + b)[1..] == a[1..] + b;
    }
  }

  // ---- What a run needs ----

  /** A record row for the migration would violate the unique index or the unique tag. */
  predicate Clash(records: map<int, Record>, m: Migration) {
    m.idx in records || exists i :: i in records && records[i].tag == m.tag
  }

  /** None of the migrations clashes with what is recorded, or with another one. */
  ghost predicate NoClash(records: map<int, Record>, ms: seq<Migration>) {
    && (forall k :: 0 <= k < |ms| ==> !Clash(records, ms[k]))
    && forall i, j :: 0 <= i < j < |ms| ==> ms[i].idx != ms[j].idx && ms[i].tag != ms[j].tag
  }

  /** The queries of one migration: its statements, its record and, unless it is concurrent, BEGIN and
      COMMIT. */
  function Cost(m: Migration): nat {
    |m.statements| + if m.concurrent then 1 else 3
  }

  function TotalCost(ms: seq<Migration>): nat {
    if ms == [] then 0 else TotalCost(ms[..|ms| - 1]) + Cost(ms[|ms| - 1])
  }

  /** A budget for so many queries is enough, also if the acknowledgement of a final commit gets lost. */
  predicate Suffices(budget: nat, cost: nat, ackLost: bool, endsInCommit: bool) {
    cost <= budget && !(ackLost && endsInCommit && cost == budget)
  }

  predicate EndsInCommit(ms: seq<Migration>) {
    ms != [] && !ms[|ms| - 1].concurrent
  }

  /** The loop gets through all the migrations. */
  ghost predicate GetsThrough(budget: nat, ackLost: bool, records: map<int, Record>, ms: seq<Migration>) {
    NoClash(records, ms) && Suffices(budget, TotalCost(ms), ackLost, EndsInCommit(ms))
  }

  /** Lock, schema, record table, records, and the table count if there are none. */
  function OpeningCost(db: Db): nat {
    if db.records == map[] then 5 else 4
  }

  /** The existing tables, and the transaction that records the baseline. */
  function AdoptionCost(db: Db): nat {
    if NeedsAdoption(db) then 4 else 0
  }

  /** The checks accept the database, no pending migration clashes, and the queries can be made. */
  ghost predicate Succeeds(budget: nat, ackLost: bool, db: Db, journal: seq<Migration>, config: Config) {
    && Prepare(db, journal, config).Some?
    && var d := Prepare(db, journal, config).value;
       var pending := Pending(d.records, journal);
       && NoClash(d.records, pending)
       && Suffices(budget, OpeningCost(db) + AdoptionCost(db) + TotalCost(pending), ackLost,
                   if pending == [] then NeedsAdoption(db) else EndsInCommit(pending))
  }

  lemma {:induction false} TotalCostPrefix(ms: seq<Migration>, n: nat)
    requires n <= |ms|
    ensures TotalCost(ms[..n]) + (|ms| - n) <= TotalCost(ms)
    decreases |ms|
  {
    if n < |ms| {
      TotalCostPrefix(ms[..|ms| - 1], n);
      assert ms[..|ms| - 1][..n] == ms[..n];
    } else {
      assert ms[..n] == ms;
    }
  }

  lemma TotalCostSnoc(ms: seq<Migration>, m: Migration)
    ensures TotalCost(ms + [m]) == TotalCost(ms) + Cost(m)
  {
    assert (ms + [m])[..|ms|] == ms;
  }

  /** What is recorded after some migrations that do not clash. */
  lemma {:induction false} RecordsAfter(db: Db, ms: seq<Migration>, m: Migration)
    requires NoClash(db.records, ms)
    ensures Clash(ApplyAll(db, ms).records, m) <==>
              Clash(db.records, m) || exists k :: 0 <= k < |ms| && (ms[k].idx == m.idx || ms[k].tag == m.tag)
  {
    if ms != [] {
      var n := |ms| - 1;
      RecordsAfter(db, ms[..n], m);
      RecordsAfter(db, ms[..n], ms[n]);
      RecordMore(ApplyAll(db, ms[..n]), ms[n], m);
      assert forall k :: 0 <= k < n ==> ms[..n][k] == ms[k];
    }
  }

  lemma RecordMore(db: Db, last: Migration, m: Migration)
    requires !Clash(db.records, last)
    ensures Clash(Apply(db, last).records, m) <==> Clash(db.records, m) || last.idx == m.idx || last.tag == m.tag
  {
    StatementsKeepRecords(db, last.statements);
    var after := Apply(db, last).records;
    assert after[last.idx].tag == last.tag;
    forall i | i in db.records ensures i in after && after[i] == db.records[i] {
    }
  }

  /** One more migration after those that were got through. */
  lemma OneMore(budget: nat, ackLost: bool, db: Db, done: seq<Migration>, m: Migration)
    requires NoClash(db.records, done) && TotalCost(done) <= budget
    ensures NoClash(db.records, done + [m]) <==> !Clash(ApplyAll(db, done).records, m)
    ensures Suffices(budget, TotalCost(done + [m]), ackLost, EndsInCommit(done + [m])) <==>
              Suffices(budget - TotalCost(done), Cost(m), ackLost, !m.concurrent)
  {
    RecordsAfter(db, done, m);
    TotalCostSnoc(done, m);
    var all := done + [m];
    assert forall k :: 0 <= k < |done| ==> all[k] == done[k];
    if Clash(ApplyAll(db, done).records, m) && !Clash(db.records, m) {
      var k :| 0 <= k < |done| && (done[k].idx == m.idx || done[k].tag == m.tag);
      assert all[k].idx == all[|done|].idx || all[k].tag == all[|done|].tag;
    }
  }

  /** What fails for the first migrations fails for all of them. */
  lemma StopsEarly(budget: nat, ackLost: bool, records: map<int, Record>, ms: seq<Migration>, n: nat)
    requires n <= |ms| && !GetsThrough(budget, ackLost, records, ms[..n])
    ensures !GetsThrough(budget, ackLost, records, ms)
  {
    TotalCostPrefix(ms, n);
    if n == |ms| {
      assert ms[..n] == ms;
    }
  }

  /** When a run must succeed: no recorded migration has changed, the database is new or has been migrated
      before, or may be adopted; journal indexes and tags are unique, and there are queries left. */
  lemma SucceedsIf(budget: nat, ackLost: bool, db: Db, journal: seq<Migration>, config: Config)
    requires forall m :: m in journal && m.idx in db.records ==> db.records[m.idx].checksum in {"", m.checksum}
    requires db.records == map[] && db.tables != {} ==>
               && journal != [] && journal[0].idx == 0 && config.adoptExisting && config.backupId != ""
               && config.required != {} && config.required <= db.tables
    requires forall i, j :: 0 <= i < j < |journal| ==>
               journal[i].idx != journal[j].idx && journal[i].tag != journal[j].tag
    requires forall m, i :: m in journal && i in db.records && i != m.idx ==> db.records[i].tag != m.tag
    requires budget > 9 + TotalCost(journal)
    ensures Succeeds(budget, ackLost, db, journal, config)
  {
    assert forall k :: 0 <= k < |journal| ==> journal[k] in journal;
    assert ChecksumsMatch(db, journal);
    var d := Prepare(db, journal, config).value;
    PendingNoClash(d.records, journal);
    PendingCost(d.records, journal);
  }

  lemma {:induction false} PendingNoClash(records: map<int, Record>, journal: seq<Migration>)
    requires forall i, j :: 0 <= i < j < |journal| ==>
               journal[i].idx != journal[j].idx && journal[i].tag != journal[j].tag
    requires forall k, i :: 0 <= k < |journal| && i in records && i != journal[k].idx ==>
               records[i].tag != journal[k].tag
    ensures NoClash(records, Pending(records, journal))
    ensures forall m :: m in Pending(records, journal) ==> m in journal
  {
    if journal != [] {
      PendingNoClash(records, journal[1..]);
      var rest := Pending(records, journal[1..]);
      forall k | 0 <= k < |rest| ensures rest[k].idx != journal[0].idx && rest[k].tag != journal[0].tag {
        assert rest[k] in journal[1..];
        var n :| 0 <= n < |journal| - 1 && journal[1..][n] == rest[k];
        assert journal[n + 1] == rest[k];
      }
    }
  }

  lemma {:induction false} PendingCost(records: map<int, Record>, journal: seq<Migration>)
    ensures TotalCost(Pending(records, journal)) <= TotalCost(journal)
    decreases |journal|
  {
    if journal != [] {
      var n := |journal| - 1;
      PendingCost(records, journal[..n]);
      PendingOne(records, journal[..n], journal[n]);
      assert journal[..n] + [journal[n]] == journal;
      if journal[n].idx !in records {
        TotalCostSnoc(Pending(records, journal[..n]), journal[n]);
      }
    }
  }

  /** One connection. `budget` queries will still succeed; when it is used up the connection is gone.
      With `ackLost` the last successful query is a commit whose acknowledgement never arrives. */
  class Connection {
    var committed: Db
    var working: Db
    var open: bool
    var budget: nat
    const ackLost: bool

    constructor (db: Db, budget: nat, ackLost: bool)
      ensures committed == db && !open
    {
      committed, working, open, this.budget, this.ackLost := db, db, false, budget, ackLost;
    }

    function Current(): Db
      reads this
    {
      if open then working else committed
    }

    method Spend() returns (ok: bool)
      modifies this`budget
      ensures ok <==> old(budget) > 0
      ensures budget == if ok then old(budget) - 1 else 0
    {
      ok := budget > 0;
      if ok {
        budget := budget - 1;
      }
    }

    method Begin() returns (ok: bool)
      requires !open
      modifies this`budget, this`open, this`working
      ensures ok ==> open && working == committed
      ensures !ok ==> !open
      ensures ok <==> old(budget) > 0
      ensures budget == if ok then old(budget) - 1 else 0
    {
      ok := Spend();
      if ok {
        open, working := true, committed;
      }
    }

    method Query(s: Statement) returns (ok: bool)
      modifies this`budget, this`committed, this`working
      ensures ok <==> old(budget) > 0
      ensures budget == if ok then old(budget) - 1 else 0
      ensures Current() == if ok then RunStatement(old(Current()), s) else old(Current())
      ensures open ==> committed == old(committed)
    {
      ok := Spend();
      if ok {
        if open {
          working := RunStatement(working, s);
        } else {
          committed := RunStatement(committed, s);
        }
      }
    }

    /** The record row; its index and its tag are unique. */
    method InsertRecord(m: Migration) returns (ok: bool)
      modifies this`budget, this`committed, this`working
      ensures ok <==> old(budget) > 0 && !Clash(old(Current()).records, m)
      ensures ok ==> budget == old(budget) - 1
      ensures Current() == if ok then WriteRecord(old(Current()), m) else old(Current())
      ensures open ==> committed == old(committed)
    {
      ok := Spend();
      if Clash(Current().records, m) {
        ok := false;
      }
      if ok {
        if open {
          working := WriteRecord(working, m);
        } else {
          committed := WriteRecord(committed, m);
        }
      }
    }

    method Commit() returns (ok: bool)
      requires open
      modifies this`budget, this`committed, this`open
      ensures !open
      ensures ok <==> Suffices(old(budget), 1, ackLost, true)
      ensures ok ==> budget == old(budget) - 1
      ensures ok ==> committed == old(working)
      ensures !ok ==> committed == old(working) || committed == old(committed)
    {
      open := false;
      ok := Spend();
      if ok {
        committed := working;
        if ackLost && budget == 0 {
          ok := false;
        }
      }
    }

    method Rollback()
      modifies this`open
      ensures !open
    {
      open := false;
    }

    method ApplyStatements(m: Migration) returns (ok: bool, ghost done: nat)
      modifies this`budget, this`committed, this`working
      ensures open ==> committed == old(committed)
      ensures ok <==> old(budget) > |m.statements| && !Clash(old(Current()).records, m)
      ensures ok ==> budget == old(budget) - |m.statements| - 1
      ensures ok ==> Current() == Apply(old(Current()), m)
      ensures !ok ==> done <= |m.statements| && Current() == RunStatements(old(Current()), m.statements[..done])
    {
      done := 0;
      assert m.statements[..0] == [];
      for i := 0 to |m.statements|
        invariant done == i && budget == old(budget) - i
        invariant open ==> committed == old(committed)
        invariant Current() == RunStatements(old(Current()), m.statements[..i])
      {
        ok := Query(m.statements[i]);
        if !ok {
          return;
        }
        done := i + 1;
        assert m.statements[..i + 1][..i] == m.statements[..i];
      }
      assert m.statements[..|m.statements|] == m.statements;
      StatementsKeepRecords(old(Current()), m.statements);
      ok := InsertRecord(m);
    }

    /** A transactional migration is applied as a whole or not at all; a concurrent one may leave an
        executed prefix behind. It fails exactly if its record clashes or its queries cannot be made. */
    method ApplyMigration(m: Migration) returns (ok: bool, ghost done: nat)
      requires !open
      modifies this
      ensures !open
      ensures ok <==> !Clash(old(committed).records, m) && Suffices(old(budget), Cost(m), ackLost, !m.concurrent)
      ensures ok ==> budget == old(budget) - Cost(m)
      ensures ok ==> committed == Apply(old(committed), m)
      ensures !ok && !m.concurrent ==> committed == old(committed) || committed == Apply(old(committed), m)
      ensures !ok && m.concurrent ==> done <= |m.statements| && committed == CrashedConcurrent(old(committed), m, done)
    {
      if m.concurrent {
        ok, done := ApplyStatements(m);
        return;
      }
      done := 0;
      ok := Begin();
      if !ok {
        return;
      }
      ok, done := ApplyStatements(m);
      if ok {
        ok := Commit();
      }
      Rollback();
    }

    method AdoptLegacySchema(baseline: Migration, config: Config) returns (ok: bool)
      requires !open && NeedsAdoption(committed)
      modifies this
      ensures !open
      ensures ok <==> Compatible(old(committed), config) && Suffices(old(budget), 4, ackLost, true)
      ensures ok ==> budget == old(budget) - 4
      ensures ok ==> Compatible(old(committed), config) && committed == WriteRecord(old(committed), baseline)
      ensures !ok ==> committed == old(committed)
                      || (Compatible(old(committed), config) && committed == WriteRecord(old(committed), baseline))
    {
      if !config.adoptExisting || config.backupId == "" || config.required == {} {
        return false;
      }
      ok := Spend();
      if !ok || !(config.required <= committed.tables) {
        return false;
      }
      ok := Begin();
      if !ok {
        return;
      }
      ok := InsertRecord(baseline);
      if ok {
        ok := Commit();
      }
      Rollback();
    }

    /** The first i journal entries have been seen to. */
    ghost predicate Passed(db: Db, budget0: nat, recorded: map<int, Record>, journal: seq<Migration>, i: nat)
      reads this`committed, this`budget
    {
      && i <= |journal|
      && var before := Pending(recorded, journal[..i]);
         && GetsThrough(budget0, ackLost, db.records, before)
         && committed == ApplyAll(db, before) && budget == budget0 - TotalCost(before)
    }

    /** `applied` migrations are complete; inside a concurrent script, `done` of its statements are too. */
    ghost predicate Stopped(db: Db, pending: seq<Migration>, applied: nat, done: nat)
      reads this`committed
    {
      && applied <= |pending|
      && (committed == ApplyAll(db, pending[..applied])
          || (applied < |pending| && Midway(db, pending, applied, done, committed)))
    }

    /** The loop over the journal, skipping what was recorded when the run began. */
    method ApplyPending(journal: seq<Migration>, recorded: map<int, Record>)
      returns (ok: bool, ghost applied: nat, ghost done: nat)
      requires !open
      modifies this
      ensures !open
      ensures ok <==> GetsThrough(old(budget), ackLost, old(committed).records, Pending(recorded, journal))
      ensures ok ==> committed == ApplyAll(old(committed), Pending(recorded, journal))
      ensures !ok ==> Stopped(old(committed), Pending(recorded, journal), applied, done)
    {
      ok, applied, done := true, 0, 0;
      for i := 0 to |journal|
        invariant !open && Passed(old(committed), old(budget), recorded, journal, i)
      {
        ok, applied, done := ApplyNext(journal, recorded, i, old(committed), old(budget));
        if !ok {
          return;
        }
      }
      assert journal[..|journal|] == journal;
    }

    method ApplyNext(journal: seq<Migration>, recorded: map<int, Record>, i: nat, ghost db: Db, ghost budget0: nat)
      returns (ok: bool, ghost applied: nat, ghost done: nat)
      requires !open && i < |journal| && Passed(db, budget0, recorded, journal, i)
      modifies this
      ensures !open
      ensures ok ==> Passed(db, budget0, recorded, journal, i + 1)
      ensures !ok ==> !GetsThrough(budget0, ackLost, db.records, Pending(recorded, journal))
                      && Stopped(db, Pending(recorded, journal), applied, done)
    {
      ok, done := true, 0;
      applied := |Pending(recorded, journal[..i])|;
      if journal[i].idx in recorded {
        PendingSplit(recorded, journal, i);
      } else {
        ok, done := ApplyMigration(journal[i]);
        if ok {
          Advances(budget0, ackLost, db, recorded, journal, i);
        } else {
          Halts(budget0, ackLost, db, recorded, journal, i);
          applied := if journal[i].concurrent || committed == old(committed) then applied else applied + 1;
        }
      }
    }

    /** The queries before the loop over the journal: lock, schema, record table, records, and the table
        count if nothing is recorded. */
    method Open() returns (ok: bool)
      modifies this`budget
      ensures ok <==> old(budget) >= OpeningCost(committed)
      ensures ok ==> budget == old(budget) - OpeningCost(committed)
    {
      ok := Spend();
      if ok {
        ok := Spend();
      }
      if ok {
        ok := Spend();
      }
      if ok {
        ok := Spend();
      }
      if ok && committed.records == map[] {
        ok := Spend();
      }
    }

    /** One run of the script. It succeeds if and only if the checks accept the database, no pending
        migration clashes with a record and all queries can be made, and then it ends in the database of
        an uninterrupted run; otherwise it leaves one an interrupted run can leave, or stops inside a
        concurrent script. */
    method Run(journal: seq<Migration>, config: Config) returns (ok: bool)
      requires !open
      modifies this
      ensures !open
      ensures ok <==> Succeeds(old(budget), ackLost, old(committed), journal, config)
      ensures ok ==> forall m :: m in journal && m.idx in old(committed).records ==>
                       old(committed).records[m.idx].checksum in {"", m.checksum}
      ensures ok && old(committed).records == map[] && old(committed).tables != {} ==>
                && journal != [] && journal[0].idx == 0 && config.adoptExisting && config.backupId != ""
                && config.required != {} && config.required <= old(committed).tables
      ensures ok ==> Full(old(committed), journal, config) == Some(committed)
      ensures !ok ==> Interrupted(old(committed), journal, config, committed)
                      || InterruptedMidway(old(committed), journal, config, committed)
    {
      ok := Open();
      if !ok || !ChecksumsMatch(committed, journal) {
        return false;
      }
      if NeedsAdoption(committed) {
        if journal == [] || journal[0].idx != 0 {
          return false;
        }
        ok := AdoptLegacySchema(journal[0], config);
        if !ok {
          if committed != old(committed) {
            assert Prepare(old(committed), journal, config) == Some(committed);
            assert Pending(committed.records, journal)[..0] == [];
            assert committed == ApplyAll(committed, Pending(committed.records, journal)[..0]);
          }
          return;
        }
      }
      assert Prepare(old(committed), journal, config) == Some(committed);
      ghost var applied, done;
      ok, applied, done := ApplyPending(journal, committed.records);
    }
  }

  lemma PendingSplit(records: map<int, Record>, journal: seq<Migration>, i: nat)
    requires i < |journal|
    ensures var before, after := Pending(records, journal[..i]), Pending(records, journal[..i + 1]);
            && after == (if journal[i].idx in records then before else before + [journal[i]])
            && after <= Pending(records, journal)
  {
    var a, b, c := journal[..i], journal[..i + 1], journal[i + 1..];
    assert a + [journal[i]] == b && b + c == journal;
    PendingOne(records, a, journal[i]);
    PendingConcat(records, b, c);
  }

  lemma PendingOne(records: map<int, Record>, journal: seq<Migration>, m: Migration)
    ensures Pending(records, journal + [m])
            == if m.idx in records then Pending(records, journal) else Pending(records, journal) + [m]
  {
    PendingConcat(records, journal, [m]);
    assert [m][1..] == [] && Pending(records, []) == [];
    assert Pending(records, [m]) == if m.idx in records then [] else [m];
  }

  /** A migration that is still to be applied stands behind the pending ones before it. */
  lemma PendingNext(records: map<int, Record>, journal: seq<Migration>, i: nat)
    requires i < |journal| && journal[i].idx !in records
    ensures var before, all := Pending(records, journal[..i]), Pending(records, journal);
            && |before| < |all| && all[..|before|] == before && all[|before|] == journal[i]
            && all[..|before| + 1] == before + [journal[i]]
  {
    PendingSplit(records, journal, i);
  }

  /** One more pending migration succeeds. */
  lemma Advances(budget: nat, ackLost: bool, db: Db, recorded: map<int, Record>, journal: seq<Migration>, i: nat)
    requires i < |journal| && journal[i].idx !in recorded
    requires GetsThrough(budget, ackLost, db.records, Pending(recorded, journal[..i]))
    requires !Clash(ApplyAll(db, Pending(recorded, journal[..i])).records, journal[i])
    requires Suffices(budget - TotalCost(Pending(recorded, journal[..i])), Cost(journal[i]), ackLost,
                      !journal[i].concurrent)
    ensures var before, after := Pending(recorded, journal[..i]), Pending(recorded, journal[..i + 1]);
            && TotalCost(after) == TotalCost(before) + Cost(journal[i])
            && ApplyAll(db, after) == Apply(ApplyAll(db, before), journal[i])
            && GetsThrough(budget, ackLost, db.records, after)
  {
    var before := Pending(recorded, journal[..i]);
    PendingSplit(recorded, journal, i);
    AppliedOne(db, before, journal[i]);
    OneMore(budget, ackLost, db, before, journal[i]);
    TotalCostSnoc(before, journal[i]);
  }

  /** One more pending migration fails, and so the loop does. */
  lemma Halts(budget: nat, ackLost: bool, db: Db, recorded: map<int, Record>, journal: seq<Migration>, i: nat)
    requires i < |journal| && journal[i].idx !in recorded
    requires GetsThrough(budget, ackLost, db.records, Pending(recorded, journal[..i]))
    requires Clash(ApplyAll(db, Pending(recorded, journal[..i])).records, journal[i])
             || !Suffices(budget - TotalCost(Pending(recorded, journal[..i])), Cost(journal[i]), ackLost,
                          !journal[i].concurrent)
    ensures !GetsThrough(budget, ackLost, db.records, Pending(recorded, journal))
    ensures var n, all := |Pending(recorded, journal[..i])|, Pending(recorded, journal);
            && n < |all| && all[..n] == Pending(recorded, journal[..i]) && all[n] == journal[i]
            && ApplyAll(db, all[..n + 1]) == Apply(ApplyAll(db, all[..n]), journal[i])
  {
    PendingNext(recorded, journal, i);
    HaltsAt(budget, ackLost, db, Pending(recorded, journal[..i]), journal[i], Pending(recorded, journal));
  }

  lemma HaltsAt(budget: nat, ackLost: bool, db: Db, before: seq<Migration>, m: Migration, all: seq<Migration>)
    requires |before| < |all| && all[..|before| + 1] == before + [m]
    requires NoClash(db.records, before) && TotalCost(before) <= budget
    requires Clash(ApplyAll(db, before).records, m)
             || !Suffices(budget - TotalCost(before), Cost(m), ackLost, !m.concurrent)
    ensures !GetsThrough(budget, ackLost, db.records, all)
    ensures ApplyAll(db, all[..|before| + 1]) == Apply(ApplyAll(db, before), m)
  {
    AppliedOne(db, before, m);
    OneMore(budget, ackLost, db, before, m);
    StopsEarly(budget, ackLost, db.records, all, |before| + 1);
  }

  lemma AppliedOne(db: Db, before: seq<Migration>, m: Migration)
    ensures ApplyAll(db, before + [m]) == Apply(ApplyAll(db, before), m)
  {
    assert (before + [m])[..|before|] == before;
  }
}
