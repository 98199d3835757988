/** Letters of credit and regulatory reports: their transition tables, and what every status history
    that follows them looks like. */
module BankingStatus {
  import opened StatusTables

  // ---- Letters of credit ----

  datatype LcStatus =
    | Draft | Issued | Advised | Confirmed | Amended | Presented | Accepted | Paid | Discrepant | Rejected | Expired
    | Cancelled

  function LcNext(s: LcStatus): set<LcStatus> {
    match s
    case Draft => {Issued, Cancelled}
    case Issued => {Advised, Cancelled, Expired}
    case Advised => {Confirmed, Presented, Cancelled, Expired}
    case Confirmed => {Presented, Cancelled, Expired}
    case Amended => {Presented, Cancelled, Expired}
    case Presented => {Accepted, Discrepant, Rejected}
    case Accepted => {Paid, Rejected}
    case Discrepant => {Presented, Rejected}
    case Paid => {}
    case Rejected => {}
    case Expired => {}
    case Cancelled => {}
  }

  /** Letters of credit are never deleted. */
  const LC_RULES: Rules<LcStatus> := Rules(Draft, (s, t) => t in LcNext(s), s => false)

  /** The status before position n. */
  lemma Predecessor(history: seq<LcStatus>, n: nat)
    requires IsPath(LC_RULES, history) && n < |history| && history[n] != Draft
    ensures n > 0 && history[n] in LcNext(history[n - 1])
  {
    assert n > 0 ==> LC_RULES.legal(history[n - 1], history[n]);
  }

  /** A presentation was advised before, directly, through confirmation, or before an earlier
      presentation that was found discrepant. No status leads to amended. */
  lemma {:induction false} PresentedWasAdvised(history: seq<LcStatus>, n: nat) returns (advised: nat)
    requires IsPath(LC_RULES, history) && n < |history| && history[n] == Presented
    ensures advised < n && history[advised] == Advised
  {
    Predecessor(history, n);
    Predecessor(history, n - 1);
    if history[n - 1] == Confirmed {
      advised := n - 2;
    } else if history[n - 1] == Discrepant {
      advised := PresentedWasAdvised(history, n - 2);
    } else {
      advised := n - 1;
    }
  }

  /** In every run from an empty table, a letter of credit that is paid has been issued, advised,
      presented and accepted, in that order. */
  lemma PaidPassedEveryStage(steps: seq<Step<LcStatus>>, t: Table<LcStatus>, id: int)
    returns (issued: nat, advised: nat, presented: nat, accepted: nat)
    requires IsRun(LC_RULES, Nothing(), steps, t) && id in t.rows && t.rows[id].status == Paid
    ensures issued < advised < presented < accepted < |t.rows[id].history|
    ensures t.rows[id].history[issued] == Issued && t.rows[id].history[advised] == Advised
    ensures t.rows[id].history[presented] == Presented && t.rows[id].history[accepted] == Accepted
  {
    HistoriesArePaths(LC_RULES, Nothing(), steps, t);
    var history := t.rows[id].history;
    assert RowOk(LC_RULES, t.rows[id]);
    Predecessor(history, |history| - 1);
    accepted := |history| - 2;
    Predecessor(history, accepted);
    presented := accepted - 1;
    advised := PresentedWasAdvised(history, presented);
    Predecessor(history, advised);
    issued := advised - 1;
  }

  function LcPath(s: LcStatus): seq<LcStatus> {
    match s
    case Draft => [Draft]
    case Issued => [Draft, Issued]
    case Advised => [Draft, Issued, Advised]
    case Confirmed => [Draft, Issued, Advised, Confirmed]
    case Amended => []
    case Presented => [Draft, Issued, Advised, Presented]
    case Accepted => [Draft, Issued, Advised, Presented, Accepted]
    case Paid => [Draft, Issued, Advised, Presented, Accepted, Paid]
    case Discrepant => [Draft, Issued, Advised, Presented, Discrepant]
    case Rejected => [Draft, Issued, Advised, Presented, Rejected]
    case Expired => [Draft, Issued, Expired]
    case Cancelled => [Draft, Cancelled]
  }

  /** Some run brings a letter of credit into a status if and only if it is not amended; so some letter is
      paid, and none is ever amended. */
  lemma LcReachedIff(s: LcStatus)
    ensures (exists history :: Occurs(LC_RULES, history) && history != [] && history[|history| - 1] == s)
            <==> s != Amended
  {
    if s != Amended {
      LcPathOk(s);
      OccursIff(LC_RULES, LcPath(s));
    } else {
      forall history | Occurs(LC_RULES, history) && history != [] ensures history[|history| - 1] != Amended {
        OccursIff(LC_RULES, history);
        var n := |history| - 1;
        if history[n] == Amended {
          Predecessor(history, n);
        }
      }
    }
  }

  /** Where a letter of credit can come from. It can be cancelled until it is presented, expires once it is
      issued until it is presented, is presented once advised or confirmed or again after a discrepancy, and
      rejected from its presentation until it is paid; the other stages follow one another. */
  predicate LcComesFrom(target: LcStatus, s: LcStatus) {
    match target
    case Draft => false
    case Issued => s == Draft
    case Advised => s == Issued
    case Confirmed => s == Advised
    case Amended => false
    case Presented => s == Advised || s == Confirmed || s == Discrepant
    case Accepted => s == Presented
    case Paid => s == Accepted
    case Discrepant => s == Presented
    case Rejected => s == Presented || s == Discrepant || s == Accepted
    case Expired => s == Issued || s == Advised || s == Confirmed
    case Cancelled => s == Draft || s == Issued || s == Advised || s == Confirmed
  }

  /** In the runs letters of credit move exactly so. */
  lemma LcMoves(s: LcStatus, target: LcStatus)
    ensures Moves(LC_RULES, s, target) <==> LcComesFrom(target, s)
  {
    LcMovesIff(s, target);
    LcTable(s, target);
  }

  lemma LcTable(s: LcStatus, target: LcStatus)
    ensures s != Amended && target in LcNext(s) <==> LcComesFrom(target, s)
  {
  }

  lemma LcMovesIff(s: LcStatus, target: LcStatus)
    ensures Moves(LC_RULES, s, target) <==> s != Amended && target in LcNext(s)
  {
    if s == Amended {
      NeverAmended(target);
    } else {
      LcPathOk(s);
      MovesIff(LC_RULES, LcPath(s), target);
    }
  }

  lemma LcPathOk(s: LcStatus)
    requires s != Amended
    ensures IsPath(LC_RULES, LcPath(s)) && LcPath(s)[|LcPath(s)| - 1] == s
  {
  }

  lemma NeverAmended(target: LcStatus)
    ensures !Moves(LC_RULES, Amended, target)
  {
    if Moves(LC_RULES, Amended, target) {
      var history :| Occurs(LC_RULES, history) && |history| >= 2 && history[|history| - 2] == Amended
                     && history[|history| - 1] == target;
      OccursIff(LC_RULES, history);
      Predecessor(history, |history| - 2);
    }
  }

  // ---- Regulatory reports ----

  datatype ReportStatus = RDraft | Generated | Reviewed | Submitted | Acknowledged | RRejected

  function ReportNext(s: ReportStatus): set<ReportStatus> {
    match s
    case RDraft => {Generated}
    case Generated => {Reviewed}
    case Reviewed => {Submitted}
    case Submitted => {Acknowledged, RRejected}
    case Acknowledged => {}
    case RRejected => {RDraft}
  }

  const REPORT_RULES: Rules<ReportStatus> :=
    Rules(RDraft, (s, t) => t in ReportNext(s), s => s != Submitted && s != Acknowledged)

  /** No report is deleted while it is submitted or acknowledged, whatever callers do between the
      check and the guarded delete. */
  lemma RetainedWhileFiled(steps: seq<Step<ReportStatus>>, t: Table<ReportStatus>, k: nat)
    requires IsRun(REPORT_RULES, Nothing(), steps, t) && k < |t.gone|
    ensures t.gone[k].status != Submitted && t.gone[k].status != Acknowledged
    ensures Acknowledged !in t.gone[k].history
  {
    HistoriesArePaths(REPORT_RULES, Nothing(), steps, t);
    var row := t.gone[k];
    assert RowOk(REPORT_RULES, row);
    forall i | 0 <= i < |row.history| ensures row.history[i] != Acknowledged {
      assert i < |row.history| - 1 ==> REPORT_RULES.legal(row.history[i], row.history[i + 1]);
    }
  }

  /** A deleted report that was once submitted had been rejected right after that submission. */
  lemma SubmittedThenRejected(steps: seq<Step<ReportStatus>>, t: Table<ReportStatus>, k: nat, i: nat)
    requires IsRun(REPORT_RULES, Nothing(), steps, t) && k < |t.gone|
    requires i < |t.gone[k].history| && t.gone[k].history[i] == Submitted
    ensures i + 1 < |t.gone[k].history| && t.gone[k].history[i + 1] == RRejected
  {
    HistoriesArePaths(REPORT_RULES, Nothing(), steps, t);
    var row := t.gone[k];
    assert RowOk(REPORT_RULES, row);
    RetainedWhileFiled(steps, t, k);
    assert i + 1 < |row.history| ==>
        REPORT_RULES.legal(row.history[i], row.history[i + 1]) && row.history[i + 1] in row.history;
  }

  function ReportPath(s: ReportStatus): seq<ReportStatus> {
    match s
    case RDraft => [RDraft]
    case Generated => [RDraft, Generated]
    case Reviewed => [RDraft, Generated, Reviewed]
    case Submitted => [RDraft, Generated, Reviewed, Submitted]
    case Acknowledged => [RDraft, Generated, Reviewed, Submitted, Acknowledged]
    case RRejected => [RDraft, Generated, Reviewed, Submitted, RRejected]
  }

  /** Every status of a report is reached in some run, and a report in it can be deleted if and only if it is
      neither submitted nor acknowledged. */
  lemma ReportDeletedIff(s: ReportStatus)
    ensures exists history :: Occurs(REPORT_RULES, history) && history != [] && history[|history| - 1] == s
    ensures (exists history :: OccursDeleted(REPORT_RULES, history) && history != [] && history[|history| - 1] == s)
            <==> s != Submitted && s != Acknowledged
  {
    OccursIff(REPORT_RULES, ReportPath(s));
    OccursDeletedIff(REPORT_RULES, ReportPath(s));
    forall history | OccursDeleted(REPORT_RULES, history) && history != []
      ensures history[|history| - 1] != Submitted && history[|history| - 1] != Acknowledged
    {
      OccursDeletedIff(REPORT_RULES, history);
    }
  }

  /** In the runs only a rejected report starts over, only a submitted one is decided on, and the other stages
      follow one another. */
  lemma ReportMoves(s: ReportStatus, target: ReportStatus)
    ensures Moves(REPORT_RULES, s, target) <==>
              match target
              case RDraft => s == RRejected
              case Generated => s == RDraft
              case Reviewed => s == Generated
              case Submitted => s == Reviewed
              case Acknowledged => s == Submitted
              case RRejected => s == Submitted
  {
    ReportMovesIff(s, target);
  }

  lemma ReportMovesIff(s: ReportStatus, target: ReportStatus)
    ensures Moves(REPORT_RULES, s, target) <==> target in ReportNext(s)
  {
    assert IsPath(REPORT_RULES, ReportPath(s)) && ReportPath(s)[|ReportPath(s)| - 1] == s;
    MovesIff(REPORT_RULES, ReportPath(s), target);
  }

  /** A delete can answer success without deleting: between its check and its guarded delete another caller
      moves the report on. */
  lemma DeleteAnsweredNotDone() returns (steps: seq<Step<ReportStatus>>, t: Table<ReportStatus>)
    ensures IsRun(REPORT_RULES, Nothing(), steps, t) && t.gone == []
    ensures 1 in t.rows && t.rows[1].status == Generated
    ensures |t.calls| == 2 && t.calls[0] == Over(true)
  {
    assert IsRun(REPORT_RULES, Nothing(), [], Nothing());
    steps, t := Then(REPORT_RULES, [], Nothing(), Creating(1));
    steps, t := Then(REPORT_RULES, steps, t, Arriving(WantsDelete(1)));
    steps, t := Then(REPORT_RULES, steps, t, Reading(0));
    steps, t := Then(REPORT_RULES, steps, t, Arriving(WantsUpdate(1, Generated)));
    steps, t := Then(REPORT_RULES, steps, t, Reading(1));
    steps, t := Then(REPORT_RULES, steps, t, Committing(1));
    steps, t := Then(REPORT_RULES, steps, t, Committing(0));
  }
}
