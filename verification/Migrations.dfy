/** The schema migration runner: what any sequence of interrupted runs leaves in the database. */
module Migrations {
  import opened Common

  /** What a statement does to an index; `guarded` ones say IF NOT EXISTS or IF EXISTS. */
  datatype IndexEffect = Nothing | Builds(index: string, guarded: bool) | Drops(index: string, guarded: bool)

  /** A statement, the public tables it creates and what it does to an index. */
  datatype Statement = Statement(text: string, creates: set<string>, effect: IndexEffect)

  /** A journal entry with its material; `concurrent` marks scripts that build or drop an index
      concurrently and therefore run outside a transaction. */
  datatype Migration = Migration(idx: int, tag: string, statements: seq<Statement>, checksum: string, concurrent: bool)

  datatype Record = Record(tag: string, checksum: string)

  /** A database: its public tables, the committed statements in order (the schema is whatever they
      produced), and the record table. */
  datatype Db = Db(tables: set<string>, log: seq<string>, records: map<int, Record>)

  /** Adoption settings, and the tables the baseline requires. */
  datatype Config = Config(adoptExisting: bool, backupId: string, required: set<string>)

  // ---- One migration ----

  function RunStatement(db: Db, s: Statement): Db {
    db.(tables := db.tables + s.creates, log := db.log + [s.text])
  }

  function RunStatements(db: Db, statements: seq<Statement>): Db {
    if statements == [] then db
    else RunStatement(RunStatements(db, statements[..|statements| - 1]), statements[|statements| - 1])
  }

  function WriteRecord(db: Db, m: Migration): Db {
    db.(records := db.records[m.idx := Record(m.tag, m.checksum)])
  }

  function Apply(db: Db, m: Migration): Db {
    WriteRecord(RunStatements(db, m.statements), m)
  }

  function ApplyAll(db: Db, ms: seq<Migration>): Db {
    if ms == [] then db else Apply(ApplyAll(db, ms[..|ms| - 1]), ms[|ms| - 1])
  }

  // ---- One run ----

  function Pending(records: map<int, Record>, journal: seq<Migration>): seq<Migration> {
    if journal == [] then []
    else if journal[0].idx in records then Pending(records, journal[1..])
    else [journal[0]] + Pending(records, journal[1..])
  }

  /** No recorded migration has a checksum that differs from its material. */
  predicate ChecksumsMatch(db: Db, journal: seq<Migration>) {
    forall k :: 0 <= k < |journal| && journal[k].idx in db.records ==>
      (db.records[journal[k].idx].checksum == "" || db.records[journal[k].idx].checksum == journal[k].checksum)
  }

  predicate NeedsAdoption(db: Db) {
    db.records == map[] && db.tables != {}
  }

  /** Adoption was asked for with a backup, and every table the baseline requires exists. */
  predicate Compatible(db: Db, config: Config) {
    config.adoptExisting && config.backupId != "" && config.required != {} && config.required <= db.tables
  }

  predicate MayAdopt(db: Db, journal: seq<Migration>, config: Config) {
    journal != [] && journal[0].idx == 0 && Compatible(db, config)
  }

  /** The checks and, for a legacy schema, the recording of the baseline that precede the loop. */
  function Prepare(db: Db, journal: seq<Migration>, config: Config): Option<Db> {
    if !ChecksumsMatch(db, journal) then None
    else if !NeedsAdoption(db) then Some(db)
    else if MayAdopt(db, journal, config) then Some(WriteRecord(db, journal[0]))
    else None
  }

  /** The database after an uninterrupted run. */
  function Full(db: Db, journal: seq<Migration>, config: Config): Option<Db> {
    match Prepare(db, journal, config)
    case None => None
    case Some(d) => Some(ApplyAll(d, Pending(d.records, journal)))
  }

  /** Where a failing or crashing run of transactional migrations can leave the database: as it was,
      or prepared and with some of the pending migrations applied. */
  ghost predicate Interrupted(db: Db, journal: seq<Migration>, config: Config, db': Db) {
    || db' == db
    || (Prepare(db, journal, config).Some?
        && var d := Prepare(db, journal, config).value;
           exists k :: 0 <= k <= |Pending(d.records, journal)| && db' == ApplyAll(d, Pending(d.records, journal)[..k]))
  }

  ghost predicate InterruptedRuns(db: Db, journal: seq<Migration>, config: Config, states: seq<Db>)
    decreases |states|
  {
    states != [] ==>
      Interrupted(db, journal, config, states[0]) && InterruptedRuns(states[0], journal, config, states[1..])
  }

  // ---- The journal ----

  /** Sorted by index, no index twice. */
  ghost predicate Sorted(journal: seq<Migration>) {
    forall i, j :: 0 <= i < j < |journal| ==> journal[i].idx < journal[j].idx
  }

  function RecordsOf(ms: seq<Migration>): map<int, Record> {
    if ms == [] then map[]
    else RecordsOf(ms[..|ms| - 1])[ms[|ms| - 1].idx := Record(ms[|ms| - 1].tag, ms[|ms| - 1].checksum)]
  }

  /** The record table is exactly that of the first n journal entries. */
  ghost predicate RecordedPrefix(db: Db, journal: seq<Migration>, n: nat) {
    n <= |journal| && db.records == RecordsOf(journal[..n])
  }

  lemma {:induction false} RecordsOfPrefix(journal: seq<Migration>, n: nat, k: nat)
    requires Sorted(journal) && n <= |journal| && k < |journal|
    ensures journal[k].idx in RecordsOf(journal[..n]) <==> k < n
    ensures k < n ==> RecordsOf(journal[..n])[journal[k].idx] == Record(journal[k].tag, journal[k].checksum)
  {
    if n > 0 {
      assert journal[..n][..n - 1] == journal[..n - 1];
      RecordsOfPrefix(journal, n - 1, k);
      assert k != n - 1 ==> journal[k].idx != journal[n - 1].idx;
    }
  }

  lemma {:induction false} PendingAll(records: map<int, Record>, journal: seq<Migration>)
    requires forall k :: 0 <= k < |journal| ==> journal[k].idx !in records
    ensures Pending(records, journal) == journal
  {
    if journal != [] {
      PendingAll(records, journal[1..]);
    }
  }

  lemma {:induction false} PendingDrops(records: map<int, Record>, journal: seq<Migration>, n: nat)
    requires n <= |journal| && forall k :: 0 <= k < |journal| ==> (journal[k].idx in records <==> k < n)
    ensures Pending(records, journal) == journal[n..]
  {
    if n == 0 {
      PendingAll(records, journal);
    } else {
      PendingDrops(records, journal[1..], n - 1);
    }
  }

  /** With a recorded prefix, what is pending is the rest of the journal, in order. */
  lemma PendingIsSuffix(db: Db, journal: seq<Migration>, n: nat)
    requires Sorted(journal) && RecordedPrefix(db, journal, n)
    ensures Pending(db.records, journal) == journal[n..]
  {
    forall k | 0 <= k < |journal| ensures journal[k].idx in db.records <==> k < n {
      RecordsOfPrefix(journal, n, k);
    }
    PendingDrops(db.records, journal, n);
  }

  lemma {:induction false} StatementsKeepRecords(db: Db, statements: seq<Statement>)
    ensures RunStatements(db, statements).records == db.records
    ensures RunStatements(db, statements).tables >= db.tables
  {
    if statements != [] {
      StatementsKeepRecords(db, statements[..|statements| - 1]);
    }
  }

  /** Applying the next k entries of the journal extends the recorded prefix by k. */
  lemma {:induction false} AppliedPrefix(db: Db, journal: seq<Migration>, n: nat, k: nat)
    requires RecordedPrefix(db, journal, n) && n + k <= |journal|
    ensures RecordedPrefix(ApplyAll(db, journal[n..n + k]), journal, n + k)
  {
    if k > 0 {
      AppliedPrefix(db, journal, n, k - 1);
      var before := ApplyAll(db, journal[n..n + k - 1]);
      assert journal[n..n + k][..k - 1] == journal[n..n + k - 1];
      StatementsKeepRecords(before, journal[n + k - 1].statements);
      assert journal[..n + k][..n + k - 1] == journal[..n + k - 1];
    }
  }

  lemma {:induction false} ApplyAllConcat(db: Db, a: seq<Migration>, b: seq<Migration>)
    ensures ApplyAll(db, a + b) == ApplyAll(ApplyAll(db, a), b)
  {
    if b == [] {
      assert a + b == a;
    } else {
      ApplyAllConcat(db, a, b[..|b| - 1]);
      assert (a + b)[..|a + b| - 1] == a + b[..|b| - 1];
    }
  }

  // ---- Crash and restart ----

  lemma PrefixPrepares(db: Db, journal: seq<Migration>, config: Config, n: nat)
    requires Sorted(journal) && RecordedPrefix(db, journal, n) && n > 0
    ensures Prepare(db, journal, config) == Some(db)
  {
    forall k | 0 <= k < |journal| && journal[k].idx in db.records
      ensures db.records[journal[k].idx].checksum == journal[k].checksum
    {
      RecordsOfPrefix(journal, n, k);
    }
    RecordsOfPrefix(journal, n, 0);
  }

  /** Preparation leaves a recorded prefix: the one there was, or the adopted baseline. */
  lemma PreparedPrefix(db: Db, journal: seq<Migration>, config: Config, n: nat) returns (n': nat)
    requires Sorted(journal) && RecordedPrefix(db, journal, n) && Prepare(db, journal, config).Some?
    ensures RecordedPrefix(Prepare(db, journal, config).value, journal, n')
    ensures n' == if NeedsAdoption(db) then 1 else n
    ensures n <= n'
  {
    n' := if NeedsAdoption(db) then 1 else n;
    if NeedsAdoption(db) {
      RecordsOfPrefix(journal, n, 0);
      assert journal[..1][..0] == [];
    }
  }

  /** Applying part of what is pending and then the rest is applying all of it. */
  lemma ResumeApplies(d: Db, journal: seq<Migration>, m: nat, k: nat)
    requires Sorted(journal) && RecordedPrefix(d, journal, m) && m + k <= |journal|
    ensures var d' := ApplyAll(d, journal[m..m + k]);
            && RecordedPrefix(d', journal, m + k)
            && ApplyAll(d', Pending(d'.records, journal)) == ApplyAll(d, Pending(d.records, journal))
  {
    var done, rest := journal[m..m + k], journal[m + k..];
    assert journal[m..] == done + rest;
    AppliedPrefix(d, journal, m, k);
    PendingIsSuffix(d, journal, m);
    PendingIsSuffix(ApplyAll(d, done), journal, m + k);
    ApplyAllConcat(d, done, rest);
  }

  lemma ResumeFull(db: Db, journal: seq<Migration>, config: Config, d: Db, m: nat, k: nat)
    requires Sorted(journal) && Prepare(db, journal, config) == Some(d) && RecordedPrefix(d, journal, m)
    requires m + k <= |journal|
    ensures var db' := ApplyAll(d, journal[m..m + k]);
            RecordedPrefix(db', journal, m + k)
            && (m + k > 0 ==> Full(db', journal, config) == Full(db, journal, config))
  {
    ResumeApplies(d, journal, m, k);
    if m + k > 0 {
      PrefixPrepares(ApplyAll(d, journal[m..m + k]), journal, config, m + k);
    }
  }

  /** How far an interrupted run that changed anything had got. */
  lemma InterruptedAt(db: Db, journal: seq<Migration>, config: Config, db': Db, n: nat) returns (m: nat, k: nat)
    requires Sorted(journal) && RecordedPrefix(db, journal, n) && Interrupted(db, journal, config, db') && db' != db
    ensures Prepare(db, journal, config).Some? && RecordedPrefix(Prepare(db, journal, config).value, journal, m)
    ensures n <= m && m + k <= |journal| && db' == ApplyAll(Prepare(db, journal, config).value, journal[m..m + k])
    ensures m + k == 0 ==> db' == Prepare(db, journal, config).value
  {
    var d := Prepare(db, journal, config).value;
    m := PreparedPrefix(db, journal, config, n);
    PendingIsSuffix(d, journal, m);
    var rest := journal[m..];
    k :| 0 <= k <= |rest| && db' == ApplyAll(d, rest[..k]);
    assert rest[..k] == journal[m..m + k];
  }

  /** An interrupted run leaves a recorded prefix from which a full run gets to the same place. */
  lemma InterruptedResumes(db: Db, journal: seq<Migration>, config: Config, db': Db, n: nat) returns (n': nat)
    requires Sorted(journal) && RecordedPrefix(db, journal, n) && Interrupted(db, journal, config, db')
    ensures n <= n' && RecordedPrefix(db', journal, n')
    ensures Prepare(db, journal, config).Some? ==> Full(db', journal, config) == Full(db, journal, config)
  {
    n' := n;
    if db' != db {
      var m, k := InterruptedAt(db, journal, config, db', n);
      ResumeFull(db, journal, config, Prepare(db, journal, config).value, m, k);
      n' := m + k;
    }
  }

  /** Crash-restart refinement: any number of interrupted runs followed by a full one gives the same
      tables, the same committed statements and the same record table as one uninterrupted run. */
  lemma {:induction false} CrashRestart(db: Db, journal: seq<Migration>, config: Config, states: seq<Db>, n: nat)
    requires Sorted(journal) && RecordedPrefix(db, journal, n) && InterruptedRuns(db, journal, config, states)
    requires states != [] && Prepare(db, journal, config).Some?
    ensures Full(states[|states| - 1], journal, config) == Full(db, journal, config)
    decreases |states|
  {
    var n1 := InterruptedResumes(db, journal, config, states[0], n);
    if |states| > 1 {
      assert Full(states[0], journal, config).Some?;
      CrashRestart(states[0], journal, config, states[1..], n1);
    }
  }

  /** The recorded set is a prefix of the journal after every interrupted run, and never shrinks. */
  lemma {:induction false} AlwaysPrefix(db: Db, journal: seq<Migration>, config: Config, states: seq<Db>, n: nat,
                                        i: nat)
    returns (k: nat)
    requires Sorted(journal) && RecordedPrefix(db, journal, n) && InterruptedRuns(db, journal, config, states)
    requires i < |states|
    ensures n <= k && RecordedPrefix(states[i], journal, k)
    decreases |states|
  {
    k := InterruptedResumes(db, journal, config, states[0], n);
    if i > 0 {
      k := AlwaysPrefix(states[0], journal, config, states[1..], k, i - 1);
    }
  }

  function Texts(ms: seq<Migration>): seq<string> {
    if ms == [] then [] else Texts(ms[..|ms| - 1]) + StatementTexts(ms[|ms| - 1].statements)
  }

  function StatementTexts(statements: seq<Statement>): seq<string> {
    if statements == [] then []
    else StatementTexts(statements[..|statements| - 1]) + [statements[|statements| - 1].text]
  }

  lemma {:induction false} StatementsLog(db: Db, statements: seq<Statement>)
    ensures RunStatements(db, statements).log == db.log + StatementTexts(statements)
  {
    if statements != [] {
      StatementsLog(db, statements[..|statements| - 1]);
    }
  }

  lemma {:induction false} ApplyAllLog(db: Db, ms: seq<Migration>)
    ensures ApplyAll(db, ms).log == db.log + Texts(ms)
  {
    if ms != [] {
      ApplyAllLog(db, ms[..|ms| - 1]);
      StatementsLog(ApplyAll(db, ms[..|ms| - 1]), ms[|ms| - 1].statements);
    }
  }

  /** Over the interrupted runs and the full one together every migration that was missing at the
      start is committed exactly once, in journal order, and every journal entry ends up recorded; an
      adopted baseline is recorded without being executed. */
  lemma {:induction false} CommittedExactlyOnce(db: Db, journal: seq<Migration>, config: Config, states: seq<Db>,
                                                n: nat)
    requires Sorted(journal) && RecordedPrefix(db, journal, n) && InterruptedRuns(db, journal, config, states)
    requires states != [] && Prepare(db, journal, config).Some?
    ensures Full(states[|states| - 1], journal, config).Some?
    ensures var m := if NeedsAdoption(db) then 1 else n;
            m <= |journal|
            && Full(states[|states| - 1], journal, config).value.log == db.log + Texts(journal[m..])
            && RecordedPrefix(Full(states[|states| - 1], journal, config).value, journal, |journal|)
  {
    CrashRestart(db, journal, config, states, n);
    FullCommits(db, journal, config, n);
  }

  lemma FullCommits(db: Db, journal: seq<Migration>, config: Config, n: nat)
    requires Sorted(journal) && RecordedPrefix(db, journal, n) && Prepare(db, journal, config).Some?
    ensures var m := if NeedsAdoption(db) then 1 else n;
            m <= |journal|
            && Full(db, journal, config).value.log == db.log + Texts(journal[m..])
            && RecordedPrefix(Full(db, journal, config).value, journal, |journal|)
  {
    var m := PreparedPrefix(db, journal, config, n);
    var d := Prepare(db, journal, config).value;
    var rest := journal[m..];
    assert m + |rest| == |journal| && journal[..m + |rest|] == journal;
    assert journal[m..m + |rest|] == rest;
    PendingIsSuffix(d, journal, m);
    ApplyAllLog(d, rest);
    AppliedPrefix(d, journal, m, |rest|);
  }

  // ---- Concurrent scripts ----

  /** Outside a transaction the statements executed before a crash stay committed without a record. */
  function CrashedConcurrent(db: Db, m: Migration, j: nat): Db
    requires j <= |m.statements|
  {
    RunStatements(db, m.statements[..j])
  }

  /** Where a run can stop inside a concurrent script: after some of the pending migrations, with some
      of the script's statements committed and no record of it. */
  ghost predicate InterruptedMidway(db: Db, journal: seq<Migration>, config: Config, db': Db) {
    && Prepare(db, journal, config).Some?
    && var d := Prepare(db, journal, config).value;
       var pending := Pending(d.records, journal);
       exists k, j :: 0 <= k < |pending| && Midway(d, pending, k, j, db')
  }

  ghost predicate Midway(d: Db, pending: seq<Migration>, k: nat, j: nat, db': Db)
    requires k < |pending|
  {
    && pending[k].concurrent && j <= |pending[k].statements|
    && db' == CrashedConcurrent(ApplyAll(d, pending[..k]), pending[k], j)
  }

  lemma {:induction false} TextsLength(statements: seq<Statement>)
    ensures |StatementTexts(statements)| == |statements|
  {
    if statements != [] {
      TextsLength(statements[..|statements| - 1]);
    }
  }

  /** A concurrent script that crashes after j statements is rerun from its start, so the restart
      commits the same statements as an uninterrupted run if and only if nothing had been executed. */
  lemma ConcurrentRestart(db: Db, m: Migration, j: nat)
    requires j <= |m.statements|
    ensures Apply(CrashedConcurrent(db, m, j), m).log == Apply(db, m).log <==> j == 0
  {
    StatementsLog(db, m.statements[..j]);
    StatementsLog(CrashedConcurrent(db, m, j), m.statements);
    StatementsLog(db, m.statements);
    TextsLength(m.statements[..j]);
    if j == 0 {
      assert m.statements[..0] == [];
    } else {
      assert |Apply(CrashedConcurrent(db, m, j), m).log| > |Apply(db, m).log|;
    }
  }
}
