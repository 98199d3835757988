/** What the prepaid-credit protocol guarantees in every reachable state and over every run. */
module PrepaidTheorems {
  import opened Common
  import opened TransferIds
  import opened PrepaidLedger
  import opened PrepaidInvariants
  import opened PrepaidPreservation

  // ---- Exactly-once crediting ----

  /** The tenant's intents whose top-up the ledger has applied. */
  ghost function SettledReferences(s: State, ledger: seq<Transfer>, tenant: Tenant): set<string> {
    set r | r in s.intents && s.intents[r].tenant == tenant && HasId(ledger, TopupKey(r))
  }

  function AmountOf(s: State): string -> int {
    r => if r in s.intents then s.intents[r].amount else 0
  }

  lemma HasIdSnoc(ledger: seq<Transfer>, id: TransferKey)
    requires ledger != []
    ensures HasId(ledger, id) <==> HasId(ledger[..|ledger| - 1], id) || ledger[|ledger| - 1].Id() == id
  {
    var n := |ledger| - 1;
    if HasId(ledger, id) && ledger[n].Id() != id {
      var k :| 0 <= k < |ledger| && ledger[k].Id() == id;
      assert ledger[..n][k].Id() == id;
    }
    if HasId(ledger[..n], id) {
      HasIdKept(ledger[..n], ledger, id);
    }
    if ledger[n].Id() == id {
      assert HasId(ledger, id);
    }
  }

  lemma {:induction false} CreditsAreSettledAmounts(s: State, ledger: seq<Transfer>, tenant: Tenant)
    requires DistinctIds(ledger) && forall k :: 0 <= k < |ledger| ==> Warranted(s, ledger[k])
    ensures CreditsPosted(ledger, TenantAccount(tenant)) == SumOver(SettledReferences(s, ledger, tenant), AmountOf(s))
  {
    if ledger == [] {
      assert SettledReferences(s, ledger, tenant) == {};
    } else {
      var n := |ledger| - 1;
      var init, last := ledger[..n], ledger[n];
      CreditsAreSettledAmounts(s, init, tenant);
      forall r ensures HasId(ledger, TopupKey(r)) <==> HasId(init, TopupKey(r)) || last.Id() == TopupKey(r) {
        HasIdSnoc(ledger, TopupKey(r));
      }
      var before, after := SettledReferences(s, init, tenant), SettledReferences(s, ledger, tenant);
      if last.Topup? && last.tenant == tenant {
        assert !HasId(init, last.Id());
        assert after - {last.reference} == before;
        SumOverRemove(after, AmountOf(s), last.reference);
      } else {
        assert after == before;
      }
    }
  }

  /** In every interleaving a payment reference has at most one ledger entry, and a tenant's posted
      credits are exactly the amounts of its settled intents, each counted once. */
  lemma ExactlyOnceCredit(s: State, tenant: Tenant, i: nat, j: nat)
    requires Reachable(s)
    ensures CreditsPosted(s.ledger, TenantAccount(tenant))
            == SumOver(SettledReferences(s, s.ledger, tenant), AmountOf(s))
    ensures (i < |s.ledger| && j < |s.ledger| && s.ledger[i].Topup? && s.ledger[j].Topup?
             && s.ledger[i].reference == s.ledger[j].reference) ==> i == j
  {
    ReachableInv(s);
    CreditsAreSettledAmounts(s, s.ledger, tenant);
  }

  // ---- What debits take ----

  /** The tenant's investigation debits in the ledger, and its charges for assessments. */
  ghost function Investigations(ledger: seq<Transfer>, tenant: Tenant): set<Transfer> {
    set t | t in ledger && t.InvestigationDebit? && t.tenant == tenant
  }

  ghost function Assessments(ledger: seq<Transfer>, tenant: Tenant): set<Transfer> {
    set t | t in ledger && t.AssessmentDebit? && t.tenant == tenant
  }

  function PriceOf(t: Transfer): int {
    if t.InvestigationDebit? then TierAmount(t.tier) else 0
  }

  function ChargeOf(t: Transfer): int {
    if t.AssessmentDebit? then t.charge else 0
  }

  lemma {:induction false} DebitsArePrices(ledger: seq<Transfer>, tenant: Tenant)
    requires DistinctIds(ledger)
    ensures DebitsPosted(ledger, TenantAccount(tenant))
            == SumOver(Investigations(ledger, tenant), PriceOf) + SumOver(Assessments(ledger, tenant), ChargeOf)
  {
    if ledger == [] {
      assert Investigations(ledger, tenant) == {} && Assessments(ledger, tenant) == {};
    } else {
      var n := |ledger| - 1;
      var init, last := ledger[..n], ledger[n];
      DebitsArePrices(init, tenant);
      assert ledger == init + [last] && last !in init;
      OneMoreInvestigation(init, last, tenant);
      OneMoreAssessment(init, last, tenant);
    }
  }

  lemma OneMoreInvestigation(ledger: seq<Transfer>, t: Transfer, tenant: Tenant)
    requires t !in ledger
    ensures SumOver(Investigations(ledger + [t], tenant), PriceOf)
            == SumOver(Investigations(ledger, tenant), PriceOf)
               + if t.InvestigationDebit? && t.tenant == tenant then TierAmount(t.tier) else 0
  {
    var before, after := Investigations(ledger, tenant), Investigations(ledger + [t], tenant);
    if t.InvestigationDebit? && t.tenant == tenant {
      assert after - {t} == before;
      SumOverRemove(after, PriceOf, t);
    } else {
      assert after == before;
    }
  }

  lemma OneMoreAssessment(ledger: seq<Transfer>, t: Transfer, tenant: Tenant)
    requires t !in ledger
    ensures SumOver(Assessments(ledger + [t], tenant), ChargeOf)
            == SumOver(Assessments(ledger, tenant), ChargeOf)
               + if t.AssessmentDebit? && t.tenant == tenant then t.charge else 0
  {
    var before, after := Assessments(ledger, tenant), Assessments(ledger + [t], tenant);
    if t.AssessmentDebit? && t.tenant == tenant {
      assert after - {t} == before;
      SumOverRemove(after, ChargeOf, t);
    } else {
      assert after == before;
    }
  }

  /** In every interleaving a tenant's balance is the amounts of its settled intents, each once, less the
      price of its tier for each of its investigation debits and less its charges for assessments. */
  lemma BalanceExplained(s: State, tenant: Tenant)
    requires Reachable(s)
    ensures DebitsPosted(s.ledger, TenantAccount(tenant))
            == SumOver(Investigations(s.ledger, tenant), PriceOf) + SumOver(Assessments(s.ledger, tenant), ChargeOf)
    ensures Available(s.ledger, TenantAccount(tenant))
            == SumOver(SettledReferences(s, s.ledger, tenant), AmountOf(s))
               - SumOver(Investigations(s.ledger, tenant), PriceOf) - SumOver(Assessments(s.ledger, tenant), ChargeOf)
  {
    ReachableInv(s);
    DebitsArePrices(s.ledger, tenant);
    CreditsAreSettledAmounts(s, s.ledger, tenant);
  }

  // ---- Evidence ----

  /** A top-up row implies a credited intent, which implies a ledger transfer with that intent's
      tenant and amount, which implies a provider confirmation of that amount and currency. */
  lemma EvidenceChain(s: State, reference: string, k: nat)
    requires Reachable(s)
    ensures reference in s.topups ==>
              IsCredited(s, reference)
              && s.topups[reference]
                 == TopupRow(s.intents[reference].tenant, s.intents[reference].amount, TopupKey(reference))
    ensures IsCredited(s, reference) ==> TopupOf(s, reference) in s.ledger
    ensures k < |s.ledger| && s.ledger[k].Topup? ==>
              var r := s.ledger[k].reference;
              r in s.intents && s.ledger[k] == TopupOf(s, r)
              && r in s.payments && s.payments[r] == Payment(s.intents[r].amount, s.intents[r].currency)
  {
    ReachableInv(s);
    if k < |s.ledger| {
      assert Warranted(s, s.ledger[k]);
    }
  }

  /** Over any further run a credited intent stays credited, an intent keeps its tenant and amount,
      and nothing leaves the ledger. */
  lemma SettlementIsPermanent(s: State, actions: seq<Action>, s': State, reference: string)
    requires IsRun(s, actions, s') && reference in s.intents
    ensures reference in s'.intents
    ensures s'.intents[reference].tenant == s.intents[reference].tenant
    ensures s'.intents[reference].amount == s.intents[reference].amount
    ensures IsCredited(s, reference) ==> IsCredited(s', reference)
    ensures s.ledger <= s'.ledger
  {
    RunExtends(s, actions, s');
  }

  // ---- Retry after a crash ----

  ghost predicate Payable(s: State, reference: string) {
    reference in s.intents && (s.intents[reference].status.Pending? || s.intents[reference].status.Verified?)
  }

  ghost predicate CanBeCredited(s: State, reference: string) {
    exists actions, s' :: IsRun(s, actions, s') && IsCredited(s', reference)
  }

  /** The steps of one undisturbed settlement call, made by call number i. */
  function SettlementSteps(reference: string, i: nat): seq<Action> {
    [Spawn(SettleJob(reference)), DoReadIntent(i), DoVerify(i), DoPost(i), Deliver(i), Acknowledge(i), DoComplete(i),
     DoRecordTopup(i)]
  }

  /** s with one more call, which is settling the reference. */
  function WithCall(s: State, reference: string, pc: Pc, wire: Wire): State {
    s.(calls := s.calls + [Call(SettleJob(reference), pc, wire)])
  }

  lemma GotoWithCall(s: State, reference: string, pc: Pc, wire: Wire, pc': Pc)
    ensures Goto(WithCall(s, reference, pc, wire), |s.calls|, pc') == WithCall(s, reference, pc', wire)
  {
  }

  lemma RetryReads(s: State, reference: string) returns (m: State, s': State)
    requires Payable(s, reference) && s.now <= s.intents[reference].expiresAt
    ensures var i := |s.calls|;
            && m == Exec(s, Spawn(SettleJob(reference)))
            && Enabled(m, DoReadIntent(i)) && s' == Exec(m, DoReadIntent(i))
            && s' == WithCall(s, reference, Verify(reference, s.intents[reference]), Idle)
  {
    m := WithCall(s, reference, ReadIntent(reference), Idle);
    s' := WithCall(s, reference, Verify(reference, s.intents[reference]), Idle);
    GotoWithCall(s, reference, ReadIntent(reference), Idle, Verify(reference, s.intents[reference]));
  }

  lemma RetryPosts(s: State, reference: string, t: Transfer) returns (m: State, s': State)
    requires Payable(s, reference) && t == TopupOf(s, reference) && Warranted(s, t)
    requires t.amount > 0 && s.intents[reference].currency.NGN?
    ensures var i, verify := |s.calls|, WithCall(s, reference, Verify(reference, s.intents[reference]), Idle);
            && m == Exec(verify, DoVerify(i)) && Enabled(m, DoPost(i)) && s' == Exec(m, DoPost(i))
            && s' == WithCall(s, reference, Await(t), Flying(t))
  {
    m := WithCall(s, reference, Post(t), Idle);
    s' := WithCall(s, reference, Await(t), Flying(t));
    GotoWithCall(s, reference, Verify(reference, s.intents[reference]), Idle, Post(t));
  }

  lemma RetryLands(s: State, reference: string, t: Transfer) returns (m: State, s': State)
    requires t.Topup? && HasId(s.ledger, t.Id())
    ensures var i := |s.calls|;
            && m == Exec(WithCall(s, reference, Await(t), Flying(t)), Deliver(i))
            && Enabled(m, Acknowledge(i)) && s' == Exec(m, Acknowledge(i))
            && s' == WithCall(s, reference, Complete(t), Delivered(t))
  {
    m := WithCall(s, reference, Await(t), Delivered(t));
    s' := WithCall(s, reference, Complete(t), Delivered(t));
    GotoWithCall(s, reference, Await(t), Delivered(t), Complete(t));
  }

  lemma RetryFinishes(s: State, reference: string, t: Transfer) returns (m: State, s': State)
    requires t.Topup? && t.reference == reference && Payable(s, reference)
    ensures var i := |s.calls|;
            && m == Exec(WithCall(s, reference, Complete(t), Delivered(t)), DoComplete(i))
            && Enabled(m, DoRecordTopup(i)) && s' == Exec(m, DoRecordTopup(i))
    ensures s'.ledger == s.ledger && IsCredited(s', reference) && reference in s'.topups
  {
    m := CompleteIntent(WithCall(s, reference, Complete(t), Delivered(t)), |s.calls|);
    s' := UpsertTopup(m, |s.calls|);
  }

  /** A settlement that crashed after its transfer was applied is finished by a retry before the
      intent expires, without a second ledger entry. */
  lemma RetryCompletes(s: State, reference: string) returns (s': State)
    requires Inv(s) && Payable(s, reference) && HasId(s.ledger, TopupKey(reference))
    requires s.now <= s.intents[reference].expiresAt
    ensures IsRun(s, SettlementSteps(reference, |s.calls|), s')
    ensures s'.ledger == s.ledger && IsCredited(s', reference) && reference in s'.topups
  {
    LedgerTopupIsIntent(s, reference);
    s' := RetryRun(s, reference, TopupOf(s, reference));
  }

  lemma RetryRun(s: State, reference: string, t: Transfer) returns (s': State)
    requires Payable(s, reference) && s.now <= s.intents[reference].expiresAt && HasId(s.ledger, t.Id())
    requires t == TopupOf(s, reference) && Warranted(s, t) && t.amount > 0 && s.intents[reference].currency.NGN?
    ensures IsRun(s, SettlementSteps(reference, |s.calls|), s')
    ensures s'.ledger == s.ledger && IsCredited(s', reference) && reference in s'.topups
  {
    var i := |s.calls|;
    s' := RetryPairs(s, reference, t);
    FourRuns(s, [Spawn(SettleJob(reference)), DoReadIntent(i)],
             WithCall(s, reference, Verify(reference, s.intents[reference]), Idle), [DoVerify(i), DoPost(i)],
             WithCall(s, reference, Await(t), Flying(t)), [Deliver(i), Acknowledge(i)],
             WithCall(s, reference, Complete(t), Delivered(t)), [DoComplete(i), DoRecordTopup(i)], s');
    StepsInPairs(reference, i);
  }

  lemma StepsInPairs(reference: string, i: nat)
    ensures SettlementSteps(reference, i)
            == [Spawn(SettleJob(reference)), DoReadIntent(i)]
               + ([DoVerify(i), DoPost(i)] + ([Deliver(i), Acknowledge(i)] + [DoComplete(i), DoRecordTopup(i)]))
  {
  }

  lemma RetryPairs(s: State, reference: string, t: Transfer) returns (s': State)
    requires Payable(s, reference) && s.now <= s.intents[reference].expiresAt && HasId(s.ledger, t.Id())
    requires t == TopupOf(s, reference) && Warranted(s, t) && t.amount > 0 && s.intents[reference].currency.NGN?
    ensures var i, verify := |s.calls|, WithCall(s, reference, Verify(reference, s.intents[reference]), Idle);
            var sent := WithCall(s, reference, Await(t), Flying(t));
            var complete := WithCall(s, reference, Complete(t), Delivered(t));
            && IsRun(s, [Spawn(SettleJob(reference)), DoReadIntent(i)], verify)
            && IsRun(verify, [DoVerify(i), DoPost(i)], sent)
            && IsRun(sent, [Deliver(i), Acknowledge(i)], complete)
            && IsRun(complete, [DoComplete(i), DoRecordTopup(i)], s')
    ensures s'.ledger == s.ledger && IsCredited(s', reference) && reference in s'.topups
  {
    var i := |s.calls|;
    var m1, verify := RetryReads(s, reference);
    var m2, sent := RetryPosts(s, reference, t);
    var m3, complete := RetryLands(s, reference, t);
    var m4;
    m4, s' := RetryFinishes(s, reference, t);
    RunOfTwo(s, Spawn(SettleJob(reference)), m1, DoReadIntent(i), verify);
    RunOfTwo(verify, DoVerify(i), m2, DoPost(i), sent);
    RunOfTwo(sent, Deliver(i), m3, Acknowledge(i), complete);
    RunOfTwo(complete, DoComplete(i), m4, DoRecordTopup(i), s');
  }

  lemma FourRuns(s: State, a: seq<Action>, s1: State, b: seq<Action>, s2: State, c: seq<Action>, s3: State,
                 d: seq<Action>, s4: State)
    requires IsRun(s, a, s1) && IsRun(s1, b, s2) && IsRun(s2, c, s3) && IsRun(s3, d, s4)
    ensures IsRun(s, a + (b + (c + d)), s4)
  {
    RunConcat(s2, c, s3, d, s4);
    RunConcat(s1, b, s2, c + d, s4);
    RunConcat(s, a, s1, b + (c + d), s4);
  }

  lemma LedgerTopupIsIntent(s: State, reference: string)
    requires Inv(s) && HasId(s.ledger, TopupKey(reference)) && reference in s.intents
    ensures TopupOf(s, reference) in s.ledger && Warranted(s, TopupOf(s, reference))
  {
    var k :| 0 <= k < |s.ledger| && s.ledger[k].Id() == TopupKey(reference);
    assert Warranted(s, s.ledger[k]);
    assert s.ledger[k] == TopupOf(s, reference);
  }

  /** A call that is past the locked read of the intent. */
  predicate PastRead(c: Call, reference: string) {
    match c.pc
    case Verify(r, _) => r == reference
    case Post(t) => t.Topup? && t.reference == reference
    case Await(t) => t.Topup? && t.reference == reference
    case Complete(t) => t.Topup? && t.reference == reference
    case _ => false
  }

  /** Expired, not credited, and no call is past the read. */
  ghost predicate Stranded(s: State, reference: string) {
    && reference in s.intents && !s.intents[reference].status.Credited? && s.intents[reference].expiresAt < s.now
    && forall i :: 0 <= i < |s.calls| ==> !PastRead(s.calls[i], reference)
  }

  lemma MovesEnter(s: State, a: Action, reference: string)
    requires Enabled(s, a) && PureMove(a) && PcOk(s, s.calls[a.i])
    requires PastRead(s.calls[a.i].(pc := NextPc(s, a)), reference)
    ensures PastRead(s.calls[a.i], reference) || (a.DoReadIntent? && s.calls[a.i].pc == ReadIntent(reference))
  {
  }

  lemma WireEnters(s: State, a: Action, reference: string)
    requires Enabled(s, a) && (a.DoPost? || a.Deliver? || a.Lose?) && PastRead(Exec(s, a).calls[a.i], reference)
    ensures PastRead(s.calls[a.i], reference)
  {
    if a.DoPost? {
      assert PastRead(SendTransfer(s, a.i).calls[a.i], reference);
    } else if a.Deliver? {
      assert PastRead(DeliverTransfer(s, a.i).calls[a.i], reference);
    } else {
      assert PastRead(LoseTransfer(s, a.i).calls[a.i], reference);
    }
  }

  lemma NeverEnter(s: State, a: Action, reference: string)
    requires Enabled(s, a) && ActsOn(a).Some? && !PureMove(a) && !a.DoPost? && !a.Deliver? && !a.Lose?
    ensures !PastRead(Exec(s, a).calls[a.i], reference)
  {
    if a.BeginWebhook? {
      BeginShape(s, a.i);
    }
  }

  lemma CallEnters(s: State, a: Action, reference: string)
    requires Enabled(s, a) && ActsOn(a).Some? && CallOk(s, a.i) && PastRead(Exec(s, a).calls[a.i], reference)
    ensures PastRead(s.calls[a.i], reference) || (a.DoReadIntent? && s.calls[a.i].pc == ReadIntent(reference))
  {
    if PureMove(a) {
      MovesEnter(s, a, reference);
    } else if a.DoPost? || a.Deliver? || a.Lose? {
      WireEnters(s, a, reference);
    } else {
      NeverEnter(s, a, reference);
    }
  }

  lemma SpawnEnters(s: State, job: Job, reference: string)
    ensures !PastRead(Call(job, FirstPc(job), Idle), reference)
  {
  }

  lemma GrownBySpawn(s: State, a: Action)
    requires Enabled(s, a) && |Exec(s, a).calls| > |s.calls|
    ensures a.Spawn? && Exec(s, a).calls == s.calls + [Call(a.job, FirstPc(a.job), Idle)]
  {
    StepCalls(s, a);
  }

  /** Only the locked read lets a call get past it. */
  lemma OnlyReadEnters(s: State, a: Action, reference: string, j: nat)
    requires CallsOk(s) && Enabled(s, a) && j < |Exec(s, a).calls| && PastRead(Exec(s, a).calls[j], reference)
    ensures j < |s.calls|
    ensures PastRead(s.calls[j], reference) || (a == DoReadIntent(j) && s.calls[j].pc == ReadIntent(reference))
  {
    if j >= |s.calls| {
      GrownBySpawn(s, a);
      SpawnEnters(s, a.job, reference);
    } else if ActsOn(a) != Some(j) {
      StepCalls(s, a);
    } else {
      assert CallOk(s, j);
      CallEnters(s, a, reference);
    }
  }

  lemma OnlyCompleteCredits(s: State, a: Action, reference: string)
    requires Enabled(s, a) && reference in s.intents && !s.intents[reference].status.Credited?
    ensures reference in Exec(s, a).intents
    ensures Exec(s, a).intents[reference].status.Credited? ==>
              a.DoComplete? && s.calls[a.i].pc.t.reference == reference
  {
    if OnlyMoves(a) {
      MoveShape(s, a);
    }
  }

  lemma StrandedStep(s: State, a: Action, reference: string)
    requires Inv(s) && Stranded(s, reference) && Enabled(s, a)
    ensures Stranded(Exec(s, a), reference)
  {
    var s' := Exec(s, a);
    StepExtends(s, a);
    forall j | 0 <= j < |s'.calls| ensures !PastRead(s'.calls[j], reference) {
      if PastRead(s'.calls[j], reference) {
        OnlyReadEnters(s, a, reference, j);
        ExpiredReadThrows(s, j, reference);
        assert false;
      }
    }
    OnlyCompleteCredits(s, a, reference);
  }

  lemma ExpiredReadThrows(s: State, j: nat, reference: string)
    requires Stranded(s, reference) && j < |s.calls| && s.calls[j].pc == ReadIntent(reference)
    ensures Exec(s, DoReadIntent(j)).calls[j].pc.Threw?
  {
  }

  lemma {:induction false} StrandedRun(s: State, actions: seq<Action>, s': State, reference: string)
    requires Inv(s) && Stranded(s, reference) && IsRun(s, actions, s')
    ensures !IsCredited(s', reference)
    decreases |actions|
  {
    if actions != [] {
      StrandedStep(s, actions[0], reference);
      StepKeeps(s, actions[0]);
      StrandedRun(Exec(s, actions[0]), actions[1..], s', reference);
    }
  }

  /** Once the ledger holds the top-up of a still payable intent and every settlement call has
      stopped short, the intent can reach credited if and only if it has not expired: after expiry
      the tenant's money is in the ledger but no run can complete the settlement. */
  lemma RecoverableIffNotExpired(s: State, reference: string)
    requires Reachable(s) && Payable(s, reference) && HasId(s.ledger, TopupKey(reference))
    requires forall i :: 0 <= i < |s.calls| ==> !PastRead(s.calls[i], reference)
    ensures CanBeCredited(s, reference) <==> s.now <= s.intents[reference].expiresAt
  {
    ReachableInv(s);
    if s.now <= s.intents[reference].expiresAt {
      var s' := RetryCompletes(s, reference);
      assert IsRun(s, SettlementSteps(reference, |s.calls|), s');
    } else {
      forall actions, s' | IsRun(s, actions, s') ensures !IsCredited(s', reference) {
        StrandedRun(s, actions, s', reference);
      }
    }
  }
}
