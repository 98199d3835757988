/** Where the protocol comes to a dead end: exactly which claimed keys can never be debited or freed, and
    states, reached from the start, in which a key or a top-up is stuck. */
module PrepaidDeadEnds {
  import opened Common
  import opened TransferIds
  import opened PrepaidLedger
  import opened PrepaidInvariants
  import opened PrepaidPreservation
  import opened PrepaidTheorems
  import opened PrepaidBalances
  import opened PrepaidOverdraft
  import opened PrepaidDebits

  // ---- Where a claim's owner can be ----

  /** From winning the claim until it is reconciled. */
  predicate UnderWay(c: Call) {
    && (c.pc.CheckBalance? || c.pc.Release? || c.pc.Post? || c.pc.Await? || c.pc.Reconcile? || c.pc.Threw?
        || c.pc.Stopped?)
    && (c.pc.Await? ==> !c.wire.Idle?)
  }

  ghost predicate OwnerOk(s: State, id: TransferKey)
    requires id in s.claims
  {
    s.claims[id].reconciled || (s.claims[id].owner < |s.calls| && UnderWay(s.calls[s.claims[id].owner]))
  }

  ghost predicate OwnersOk(s: State) {
    forall id :: id in s.claims ==> OwnerOk(s, id)
  }

  lemma ClaimMade(s: State, i: nat, id: TransferKey)
    requires Enabled(s, DoClaim(i)) && id in DoClaimKey(s, i).claims
    ensures var s' := DoClaimKey(s, i);
            (id in s.claims && s'.claims[id] == s.claims[id])
            || (s'.claims[id].owner == i && |s'.calls| == |s.calls| && s'.calls[i].pc.CheckBalance?)
  {
  }

  lemma ClaimReconciled(s: State, i: nat, id: TransferKey)
    requires Enabled(s, DoReconcile(i)) && id in ReconcileClaim(s, i).claims
    ensures ReconcileClaim(s, i).claims[id].reconciled
            || (id in s.claims && ReconcileClaim(s, i).claims[id] == s.claims[id])
  {
  }

  /** A claim after a step is the claim before it, or its owner is fine. */
  lemma ClaimOrigin(s: State, a: Action, id: TransferKey)
    requires Enabled(s, a) && id in Exec(s, a).claims
    ensures (id in s.claims && Exec(s, a).claims[id] == s.claims[id]) || OwnerOk(Exec(s, a), id)
  {
    if a.DoClaim? {
      ClaimMade(s, a.i, id);
    } else if a.DoReconcile? {
      ClaimReconciled(s, a.i, id);
    } else if a.DoRelease? {
      ClaimReleased(s, a.i, id);
    } else {
      ClaimsUntouched(s, a);
    }
  }

  lemma Moved(s: State, a: Action)
    requires Enabled(s, a) && OnlyMoves(a) && !a.DoReconcile? && CallOk(s, a.i)
    requires s.calls[a.i].job.DebitJob? && UnderWay(s.calls[a.i])
    ensures UnderWay(Exec(s, a).calls[a.i])
  {
    MoveShape(s, a);
  }

  lemma ReconcilesOwn(s: State, i: nat, id: TransferKey)
    requires Enabled(s, DoReconcile(i)) && CallOk(s, i) && s.calls[i].job.DebitJob?
    requires id in s.claims && ClaimOk(s, id, s.claims[id]) && s.claims[id].owner == i
    ensures id in ReconcileClaim(s, i).claims && ReconcileClaim(s, i).claims[id].reconciled
  {
  }

  /** The owner of an open claim stays under way until it reconciles the claim. */
  lemma OwnerMoves(s: State, a: Action, id: TransferKey)
    requires Enabled(s, a) && id in s.claims && OwnerOk(s, id) && !s.claims[id].reconciled
    requires ActsOn(a) == Some(s.claims[id].owner) && CallOk(s, a.i) && ClaimOk(s, id, s.claims[id])
    requires id in Exec(s, a).claims && Exec(s, a).claims[id] == s.claims[id]
    ensures OwnerOk(Exec(s, a), id)
  {
    StepCalls(s, a);
    if a.DoReconcile? {
      ReconcilesOwn(s, a.i, id);
    } else if OnlyMoves(a) {
      Moved(s, a);
    } else {
      Carried(s, a);
    }
  }

  lemma Carried(s: State, a: Action)
    requires Enabled(s, a) && ActsOn(a).Some? && !OnlyMoves(a) && CallOk(s, a.i)
    requires s.calls[a.i].job.DebitJob? && UnderWay(s.calls[a.i])
    ensures UnderWay(Exec(s, a).calls[a.i])
  {
  }

  lemma OwnersStep(s: State, a: Action)
    requires Inv(s) && OwnersOk(s) && Enabled(s, a)
    ensures OwnersOk(Exec(s, a))
  {
    var s' := Exec(s, a);
    forall id | id in s'.claims ensures OwnerOk(s', id) {
      ClaimOrigin(s, a, id);
      if id in s.claims && s'.claims[id] == s.claims[id] {
        SameClaimOwnerOk(s, a, id);
      }
    }
  }

  lemma SameClaimOwnerOk(s: State, a: Action, id: TransferKey)
    requires CallsOk(s) && ClaimsOk(s) && Enabled(s, a) && id in s.claims && OwnerOk(s, id)
    requires id in Exec(s, a).claims && Exec(s, a).claims[id] == s.claims[id]
    ensures OwnerOk(Exec(s, a), id)
  {
    StepCalls(s, a);
    if !s.claims[id].reconciled && ActsOn(a) == Some(s.claims[id].owner) {
      assert CallOk(s, a.i) && ClaimOk(s, id, s.claims[id]);
      OwnerMoves(s, a, id);
    }
  }

  lemma {:induction false} OwnersRun(s: State, actions: seq<Action>, s': State)
    requires Inv(s) && OwnersOk(s) && IsRun(s, actions, s')
    ensures OwnersOk(s')
    decreases |actions|
  {
    if actions != [] {
      OwnersStep(s, actions[0]);
      StepKeeps(s, actions[0]);
      OwnersRun(Exec(s, actions[0]), actions[1..], s');
    }
  }

  lemma ReachableOwners(s: State)
    requires Reachable(s)
    ensures OwnersOk(s)
  {
    var now, actions :| IsRun(InitialState(now), actions, s);
    InitHolds(now);
    OwnersRun(InitialState(now), actions, s);
  }

  // ---- Reaching a state ----

  ghost predicate Leads(s: State, s': State) {
    exists actions :: IsRun(s, actions, s')
  }

  lemma LeadsStep(s: State, a: Action, s': State)
    requires Enabled(s, a) && s' == Exec(s, a)
    ensures Leads(s, s')
  {
    assert [a][1..] == [];
    assert IsRun(s', [], s');
    RunStep(s, [a], s', s');
  }

  lemma LeadsOn(a: State, b: State, c: State)
    requires Leads(a, b) && Leads(b, c)
    ensures Leads(a, c)
  {
    var first :| IsRun(a, first, b);
    var second :| IsRun(b, second, c);
    RunConcat(a, first, b, second, c);
  }

  lemma ReachableOn(s: State, s': State)
    requires Reachable(s) && Leads(s, s')
    ensures Reachable(s')
  {
    var now, actions :| IsRun(InitialState(now), actions, s);
    assert Leads(InitialState(now), s);
    LeadsOn(InitialState(now), s, s');
  }

  // ---- A top-up can always be made ----

  /** s with a top-up that has been paid for and not yet settled. */
  function Paid(s: State, reference: string, tenant: Tenant, amount: nat): State {
    s.(intents := s.intents[reference := Intent(tenant, amount, NGN, Pending, s.now + INTENT_TTL_MS)],
       payments := s.payments[reference := Payment(amount, NGN)])
  }

  lemma PayingLeads(s: State, reference: string, tenant: Tenant, amount: nat)
    requires reference !in s.intents && reference !in s.payments && amount >= TOPUP_MINIMUM_KOBO
    ensures Leads(s, Paid(s, reference, tenant, amount))
  {
    var s1, s2 := IntentLeads(s, reference, tenant, amount);
    var s3 := Paid(s, reference, tenant, amount);
    assert Exec(s2, ConfirmPayment(reference, Payment(amount, NGN))) == s3;
    LeadsStep(s2, ConfirmPayment(reference, Payment(amount, NGN)), s3);
    LeadsOn(s, s2, s3);
  }

  lemma IntentLeads(s: State, reference: string, tenant: Tenant, amount: nat) returns (s1: State, s2: State)
    requires reference !in s.intents && amount >= TOPUP_MINIMUM_KOBO
    ensures Leads(s, s2)
    ensures s2 == s.(intents := s.intents[reference := Intent(tenant, amount, NGN, Pending, s.now + INTENT_TTL_MS)])
  {
    s1 := s.(intents := s.intents[reference := Intent(tenant, amount, NGN, Initializing, s.now + INTENT_TTL_MS)]);
    s2 := s.(intents := s.intents[reference := Intent(tenant, amount, NGN, Pending, s.now + INTENT_TTL_MS)]);
    LeadsStep(s, StartTopup(reference, tenant, amount), s1);
    assert s1.intents[reference := s2.intents[reference]] == s2.intents;
    LeadsStep(s1, Initialized(reference, true), s2);
    LeadsOn(s, s1, s2);
  }

  lemma SettlingLeads(s: State, reference: string, t: Transfer) returns (s': State)
    requires Payable(s, reference) && s.now <= s.intents[reference].expiresAt && t == TopupOf(s, reference)
    requires Warranted(s, t) && t.amount > 0 && s.intents[reference].currency.NGN? && !HasId(s.ledger, t.Id())
    ensures Leads(s, s') && s'.ledger == s.ledger + [t] && s'.claims == s.claims
    ensures |s.calls| < |s'.calls| && forall i :: 0 <= i < |s.calls| ==> s'.calls[i] == s.calls[i]
  {
    var m1, verify := RetryReads(s, reference);
    var m2, sent := RetryPosts(s, reference, t);
    var n := |s.calls|;
    RunOfTwo(s, Spawn(SettleJob(reference)), m1, DoReadIntent(n), verify);
    RunOfTwo(verify, DoVerify(n), m2, DoPost(n), sent);
    LeadsOn(s, verify, sent);
    s' := DeliveringLeads(sent, n, t);
    LeadsOn(s, sent, s');
  }

  lemma DeliveringLeads(s: State, i: nat, t: Transfer) returns (s': State)
    requires i < |s.calls| && s.calls[i].wire == Flying(t) && !HasId(s.ledger, t.Id())
    ensures Leads(s, s') && s'.ledger == s.ledger + [t] && s'.claims == s.claims
    ensures |s'.calls| == |s.calls| && forall j :: 0 <= j < |s.calls| && j != i ==> s'.calls[j] == s.calls[j]
  {
    s' := DeliverTransfer(s, i);
    LeadsStep(s, Deliver(i), s');
  }

  lemma TopupLeads(s: State, tenant: Tenant, amount: nat) returns (t: Transfer, s': State)
    requires Inv(s) && amount >= TOPUP_MINIMUM_KOBO
    ensures Leads(s, s') && s'.ledger == s.ledger + [t] && s'.claims == s.claims
    ensures t.Topup? && t.tenant == tenant && t.amount == amount
    ensures |s.calls| < |s'.calls| && forall i :: 0 <= i < |s.calls| ==> s'.calls[i] == s.calls[i]
  {
    var reference := Unused(s.intents.Keys + s.payments.Keys);
    t := Topup(reference, tenant, amount);
    forall k | 0 <= k < |s.ledger| ensures s.ledger[k].Id() != t.Id() {
      assert Warranted(s, s.ledger[k]);
    }
    PayingLeads(s, reference, tenant, amount);
    s' := SettlingLeads(Paid(s, reference, tenant, amount), reference, t);
    LeadsOn(s, Paid(s, reference, tenant, amount), s');
  }

  // ---- What an open claim can still come to ----

  /** Some run ends with the key debited or free to be claimed again. */
  ghost predicate CanBeResolved(s: State, id: TransferKey) {
    exists s' :: Leads(s, s') && (HasId(s'.ledger, id) || id !in s'.claims)
  }

  lemma Delivering(s: State, i: nat, t: Transfer)
    requires i < |s.calls| && s.calls[i].wire == Flying(t)
    ensures CanBeResolved(s, t.Id())
  {
    var s' := DeliverTransfer(s, i);
    LeadsStep(s, Deliver(i), s');
    if !HasId(s.ledger, t.Id()) {
      assert s'.ledger[|s.ledger|].Id() == t.Id();
    }
  }

  lemma ResolvedLater(s: State, s': State, id: TransferKey)
    requires Leads(s, s') && CanBeResolved(s', id)
    ensures CanBeResolved(s, id)
  {
    var s'' :| Leads(s', s'') && (HasId(s''.ledger, id) || id !in s''.claims);
    LeadsOn(s, s', s'');
  }

  lemma Posting(s: State, i: nat, t: Transfer)
    requires i < |s.calls| && s.calls[i].pc == Post(t)
    ensures CanBeResolved(s, t.Id())
  {
    var s' := SendTransfer(s, i);
    LeadsStep(s, DoPost(i), s');
    Delivering(s', i, t);
    ResolvedLater(s, s', t.Id());
  }

  /** Before the balance check: the tenant tops up enough, and the debit goes through. */
  lemma Checking(s: State, i: nat, t: Transfer)
    requires Inv(s) && i < |s.calls| && s.calls[i].pc == CheckBalance(t) && !t.Topup?
    ensures CanBeResolved(s, t.Id())
  {
    var available := Available(s.ledger, TenantAccount(t.tenant));
    var amount := TOPUP_MINIMUM_KOBO + t.Amount() + if available < 0 then -available else 0;
    var u, s1 := TopupLeads(s, t.tenant, amount);
    AvailableSnoc(s.ledger, u, TenantAccount(t.tenant));
    assert AfterCheckBalance(s1, t) == Post(t);
    var s2 := Goto(s1, i, Post(t));
    LeadsStep(s1, DoCheckBalance(i), s2);
    Posting(s2, i, t);
    ResolvedLater(s1, s2, t.Id());
    ResolvedLater(s, s1, t.Id());
  }

  lemma Releasing(s: State, i: nat)
    requires Inv(s) && Enabled(s, DoRelease(i)) && s.calls[i].job.scope.Some?
    ensures CanBeResolved(s, s.calls[i].pc.t.Id())
  {
    NothingPosted(s, i);
    LeadsStep(s, DoRelease(i), ReleaseKey(s, i));
  }

  lemma NotWedgedResolves(s: State, id: TransferKey)
    requires Inv(s) && OwnersOk(s) && Open(s, id) && !Wedged(s, id)
    ensures CanBeResolved(s, id)
  {
    var o := s.claims[id].owner;
    assert ClaimOk(s, id, s.claims[id]) && OwnerOk(s, id) && CallOk(s, o);
    var c := s.calls[o];
    if c.wire.Flying? {
      Delivering(s, o, c.wire.t);
    } else if c.pc.Post? {
      Posting(s, o, c.pc.t);
    } else if c.pc.CheckBalance? {
      Checking(s, o, c.pc.t);
    } else {
      Releasing(s, o);
    }
  }

  /** A claim that is neither reconciled nor debited can never be debited or freed if and only if its
      owner's request was lost, or the owner has sent none and has ended or is about to release as a
      platform administrator. */
  lemma WedgedIff(s: State, id: TransferKey)
    requires Reachable(s) && Open(s, id)
    ensures CanBeResolved(s, id) <==> !Wedged(s, id)
  {
    ReachableInv(s);
    ReachableOwners(s);
    if Wedged(s, id) {
      forall s' | Leads(s, s') ensures !HasId(s'.ledger, id) && id in s'.claims {
        var actions :| IsRun(s, actions, s');
        WedgedForever(s, actions, s', id);
      }
    } else {
      NotWedgedResolves(s, id);
    }
  }

  // ---- A stuck key ----

  /** A platform administrator's debit of a tenant without credit. */
  function AdminDebit(tenant: Tenant, investigation: string, tier: Tier): Job {
    DebitJob(tenant, investigation, tier, None, None)
  }

  function Claimed(tenant: Tenant, investigation: string, tier: Tier, pc: Pc): State {
    var t := InvestigationDebit(tenant, investigation, tier);
    InitialState(0).(claims := map[t.Id() := Claim(None, false, 0)],
                     calls := [Call(AdminDebit(tenant, investigation, tier), pc, Idle)])
  }

  lemma AdminReleases(tenant: Tenant, investigation: string, tier: Tier)
    ensures var t := InvestigationDebit(tenant, investigation, tier);
            Leads(InitialState(0), Claimed(tenant, investigation, tier, Release(t)))
  {
    var job, t := AdminDebit(tenant, investigation, tier), InvestigationDebit(tenant, investigation, tier);
    var s0 := InitialState(0);
    var s1 := s0.(calls := [Call(job, ClaimKey(t), Idle)]);
    var s2 := Claimed(tenant, investigation, tier, CheckBalance(t));
    var s3 := Claimed(tenant, investigation, tier, Release(t));
    assert Exec(s0, Spawn(job)) == s1;
    LeadsStep(s0, Spawn(job), s1);
    assert DoClaimKey(s1, 0).claims == s2.claims && DoClaimKey(s1, 0).calls == s2.calls;
    LeadsStep(s1, DoClaim(0), s2);
    assert AfterCheckBalance(s2, t) == Release(t);
    assert Goto(s2, 0, Release(t)).calls == s3.calls;
    LeadsStep(s2, DoCheckBalance(0), s3);
    LeadsOn(s0, s1, s2);
    LeadsOn(s0, s2, s3);
  }

  /** The input on which a rejected debit cannot be retried: a platform administrator debits a tenant
      that has no credit. */
  lemma AdminKeyStuck(tenant: Tenant, investigation: string, tier: Tier) returns (s: State)
    ensures Reachable(s) && Enabled(s, DoRelease(0)) && s.calls[0].job == AdminDebit(tenant, investigation, tier)
    ensures var id := InvestigationDebit(tenant, investigation, tier).Id();
            && s.calls[0].pc.t.Id() == id && !CanBeResolved(Exec(s, DoRelease(0)), id)
            && !CanBeClaimedAgain(Exec(s, DoRelease(0)), id)
  {
    var t := InvestigationDebit(tenant, investigation, tier);
    s := Claimed(tenant, investigation, tier, Release(t));
    AdminReleases(tenant, investigation, tier);
    assert Reachable(InitialState(0)) by {
      assert IsRun(InitialState(0), [], InitialState(0));
    }
    ReachableOn(InitialState(0), s);
    ReclaimableIffScoped(s, 0);
    var s' := ReleaseKey(s, 0);
    LeadsStep(s, DoRelease(0), s');
    ReachableOn(s, s');
    assert Wedged(s', t.Id());
    WedgedIff(s', t.Id());
  }

  // ---- A stranded top-up ----

  function Expired(tenant: Tenant): State {
    Goto(Charging(tenant, TOPUP_MINIMUM_KOBO, 0, 0), 0, Stopped).(now := INTENT_TTL_MS + 1)
  }

  lemma ExpiryReached(tenant: Tenant)
    ensures Reachable(Expired(tenant))
  {
    var s0 := Charging(tenant, TOPUP_MINIMUM_KOBO, 0, 0);
    StartReaches(tenant, 0, TOPUP_MINIMUM_KOBO);
    assert Reachable(s0);
    var s1 := Goto(s0, 0, Stopped);
    LeadsStep(s0, Crash(0), s1);
    LeadsStep(s1, Tick(INTENT_TTL_MS + 1), Expired(tenant));
    ReachableOn(s0, s1);
    ReachableOn(s1, Expired(tenant));
  }

  /** The input on which a top-up cannot be completed: its call dies after the ledger has applied the
      transfer, and the intent expires before a retry. */
  lemma TopupStranded(tenant: Tenant) returns (s: State)
    ensures Reachable(s) && Payable(s, REFERENCE) && Topup(REFERENCE, tenant, TOPUP_MINIMUM_KOBO) in s.ledger
    ensures forall i :: 0 <= i < |s.calls| ==> !PastRead(s.calls[i], REFERENCE)
    ensures s.intents[REFERENCE].expiresAt < s.now && !CanBeCredited(s, REFERENCE)
  {
    s := Expired(tenant);
    ExpiryReached(tenant);
    assert s.ledger == [Deposit(tenant, TOPUP_MINIMUM_KOBO)];
    assert s.ledger[0].Id() == TopupKey(REFERENCE);
    RecoverableIffNotExpired(s, REFERENCE);
  }
}
