/** The invariant holds initially and every step keeps it. */
module PrepaidPreservation {
  import opened Common
  import opened PrepaidLedger
  import opened PrepaidInvariants

  /** A warranted top-up whose identifier is in the ledger is itself in the ledger: the entry cannot
      carry another tenant or amount. */
  lemma AppliedTopup(s: State, t: Transfer)
    requires LedgerOk(s) && Warranted(s, t) && t.Topup? && HasId(s.ledger, t.Id())
    ensures t in s.ledger
  {
    var k :| 0 <= k < |s.ledger| && s.ledger[k].Id() == t.Id();
    assert s.ledger[k] == t;
  }

  lemma InitHolds(now: int)
    ensures Inv(InitialState(now))
  {
  }

  // ---- Steps that only move a call ----

  lemma MoveKeeps(s: State, i: nat, pc: Pc)
    requires Inv(s) && i < |s.calls| && CallOk(Goto(s, i, pc), i)
    ensures Inv(Goto(s, i, pc))
  {
    MoveExtends(s, s.claims, i, pc);
    QuietKeeps(s, Goto(s, i, pc), i);
  }

  lemma ReadIntentKeeps(s: State, i: nat)
    requires Inv(s) && Enabled(s, DoReadIntent(i))
    ensures Inv(Exec(s, DoReadIntent(i)))
  {
    assert CallOk(s, i);
    MoveKeeps(s, i, AfterReadIntent(s, s.calls[i].pc.reference));
  }

  lemma VerifyKeeps(s: State, i: nat)
    requires Inv(s) && Enabled(s, DoVerify(i))
    ensures Inv(Exec(s, DoVerify(i)))
  {
    assert CallOk(s, i);
    MoveKeeps(s, i, AfterVerify(s, s.calls[i].pc.reference, s.calls[i].pc.snapshot));
  }

  lemma LookUpKeeps(s: State, i: nat)
    requires Inv(s) && Enabled(s, DoLookUp(i))
    ensures Inv(Exec(s, DoLookUp(i)))
  {
    assert CallOk(s, i);
    MoveKeeps(s, i, AfterLookUp(s, s.calls[i].pc.t));
  }

  lemma CheckBalanceKeeps(s: State, i: nat)
    requires Inv(s) && Enabled(s, DoCheckBalance(i))
    ensures Inv(Exec(s, DoCheckBalance(i)))
  {
    var t := s.calls[i].pc.t;
    var pc := AfterCheckBalance(s, t);
    assert CallOk(s, i);
    if pc == Post(t) {
      CheckedCallOk(s, i, t);
      MoveKeeps(s, i, pc);
    } else if pc == Release(t) {
      ShortCallOk(s, i, t);
      MoveKeeps(s, i, pc);
    } else {
      FailKeeps(s, i, pc);
    }
  }

  lemma CheckedCallOk(s: State, i: nat, t: Transfer)
    requires i < |s.calls| && CallOk(s, i) && s.calls[i].pc == CheckBalance(t)
    ensures CallOk(Goto(s, i, Post(t)), i)
  {
  }

  lemma ShortCallOk(s: State, i: nat, t: Transfer)
    requires i < |s.calls| && CallOk(s, i) && s.calls[i].pc == CheckBalance(t) && t.InvestigationDebit?
    ensures CallOk(Goto(s, i, Release(t)), i)
  {
  }

  lemma FailKeeps(s: State, i: nat, pc: Pc)
    requires Inv(s) && i < |s.calls| && (pc.Threw? || pc.Stopped?)
    requires pc.Threw? && s.calls[i].job.WebhookJob? ==> !s.calls[i].pc.Begin? && !s.calls[i].pc.Stopped?
    ensures Inv(Goto(s, i, pc))
  {
    assert CallOk(s, i);
    MoveKeeps(s, i, pc);
  }

  lemma AcknowledgeKeeps(s: State, i: nat)
    requires Inv(s) && Enabled(s, Acknowledge(i))
    ensures Inv(Exec(s, Acknowledge(i)))
  {
    assert CallOk(s, i);
    AcknowledgedCallOk(s, i, s.calls[i].pc.t);
    MoveKeeps(s, i, AfterAcknowledge(s.calls[i].pc.t));
  }

  lemma AcknowledgedCallOk(s: State, i: nat, t: Transfer)
    requires i < |s.calls| && s.calls[i].pc == Await(t) && s.calls[i].wire.Delivered? && CallOk(s, i) && LedgerOk(s)
    ensures CallOk(Goto(s, i, AfterAcknowledge(t)), i)
  {
    if t.Topup? {
      AppliedTopup(s, t);
    }
  }

  // ---- Steps on the claim table ----

  lemma ClaimStepKeeps(s: State, i: nat)
    requires Inv(s) && Enabled(s, DoClaim(i))
    ensures Inv(DoClaimKey(s, i))
  {
    var t := s.calls[i].pc.t;
    if t.Id() in s.claims {
      assert CallOk(s, i);
      MoveKeeps(s, i, LookUp(t));
    } else {
      NewClaimKeeps(s, i, t);
    }
  }

  lemma NewClaimKeeps(s: State, i: nat, t: Transfer)
    requires Inv(s) && Enabled(s, DoClaim(i)) && s.calls[i].pc.t == t && t.Id() !in s.claims
    ensures Inv(DoClaimKey(s, i))
  {
    var s' := DoClaimKey(s, i);
    assert CallOk(s, i);
    NewClaimFrame(s, i, t);
    NewClaimCallOk(s, i, t);
    CallsKept(s, s', i);
    LedgerKept(s, s');
    NewClaimTableOk(s, i, t);
    IntentsKept(s, s');
    TopupsKept(s, s');
    HooksKept(s, s');
  }

  lemma NewClaimFrame(s: State, i: nat, t: Transfer)
    requires Enabled(s, DoClaim(i)) && s.calls[i].pc.t == t && t.Id() !in s.claims
    ensures var s' := DoClaimKey(s, i);
            && Extends(s, s') && OthersClaimsKept(s, s', i) && OthersCallsKept(s, s', i) && |s'.calls| == |s.calls|
            && s' == s.(claims := s'.claims, calls := s'.calls)
            && forall id :: ClaimedAndPosted(s, id) ==> ClaimedAndPosted(s', id)
  {
    var s' := DoClaimKey(s, i);
    MoveExtends(s, s'.claims, i, CheckBalance(t));
  }

  lemma NewClaimCallOk(s: State, i: nat, t: Transfer)
    requires i < |s.calls| && CallOk(s, i) && Enabled(s, DoClaim(i)) && s.calls[i].pc.t == t && t.Id() !in s.claims
    ensures CallOk(DoClaimKey(s, i), i)
  {
    assert DebitOf(s.calls[i].job) == t;
  }

  lemma NewClaimTableOk(s: State, i: nat, t: Transfer)
    requires i < |s.calls| && CallOk(s, i) && ClaimsOk(s) && Enabled(s, DoClaim(i))
    requires s.calls[i].pc.t == t && t.Id() !in s.claims
    ensures ClaimsOk(DoClaimKey(s, i))
  {
    assert DebitOf(s.calls[i].job) == t;
  }

  /** Releasing a key removes the caller's own claim only: the call has posted nothing, so no
      applied debit loses its claim. */
  lemma ReleaseStepKeeps(s: State, i: nat)
    requires Inv(s) && Enabled(s, DoRelease(i))
    ensures Inv(ReleaseKey(s, i))
  {
    var s' := ReleaseKey(s, i);
    MoveExtends(s, s'.claims, i, s'.calls[i].pc);
    assert CallOk(s, i);
    ReleaseOwnOnly(s, i);
    ReleasedCallOk(s, i);
    CallsKept(s, s', i);
    LedgerKept(s, s');
    ClaimsKept(s, s');
    IntentsKept(s, s');
    TopupsKept(s, s');
    HooksKept(s, s');
  }

  lemma ReleasedCallOk(s: State, i: nat)
    requires Enabled(s, DoRelease(i)) && CallOk(s, i)
    ensures CallOk(ReleaseKey(s, i), i)
  {
  }

  lemma ReleaseOwnOnly(s: State, i: nat)
    requires Enabled(s, DoRelease(i)) && CallOk(s, i)
    ensures OthersClaimsKept(s, ReleaseKey(s, i), i)
    ensures forall id :: ClaimedAndPosted(s, id) ==> ClaimedAndPosted(ReleaseKey(s, i), id)
  {
    var own := DebitOf(s.calls[i].job).Id();
    assert s.calls[i].pc.t.Id() == own && s.claims[own].owner == i && s.calls[i].wire.Idle?;
  }

  lemma ReconcileStepKeeps(s: State, i: nat)
    requires Inv(s) && Enabled(s, DoReconcile(i))
    ensures Inv(ReconcileClaim(s, i))
  {
    var s' := ReconcileClaim(s, i);
    assert CallOk(s, i);
    ReconcileShape(s, i);
    MoveExtends(s, s'.claims, i, s'.calls[i].pc);
    ReconciledCallOk(s, i);
    ReconciledTableOk(s, i);
    ReconciledClaimsKept(s, i);
    CallsKept(s, s', i);
    LedgerKept(s, s');
    IntentsKept(s, s');
    TopupsKept(s, s');
    HooksKept(s, s');
  }

  lemma ReconcileShape(s: State, i: nat)
    requires Enabled(s, DoReconcile(i))
    ensures var s' := ReconcileClaim(s, i);
            |s'.calls| == |s.calls| && s' == Goto(s.(claims := s'.claims), i, s'.calls[i].pc)
  {
  }

  lemma ReconciledCallOk(s: State, i: nat)
    requires Enabled(s, DoReconcile(i)) && CallOk(s, i)
    ensures CallOk(ReconcileClaim(s, i), i)
  {
    var s', own := ReconcileClaim(s, i), s.calls[i].pc.t.Id();
    assert own in s.claims && s'.calls[i].pc == Returned(DebitReply(true, false));
    assert HoldOk(s', i) && WireOk(s', s'.calls[i]);
  }

  lemma ReconciledTableOk(s: State, i: nat)
    requires Enabled(s, DoReconcile(i)) && PcOk(s, s.calls[i]) && ClaimsOk(s) && Extends(s, ReconcileClaim(s, i))
    ensures ClaimsOk(ReconcileClaim(s, i))
  {
    var s', own := ReconcileClaim(s, i), s.calls[i].pc.t.Id();
    assert HasId(s'.ledger, own);
    forall id | id in s'.claims ensures ClaimOk(s', id, s'.claims[id]) {
      ClaimKept(s, s', id, s.claims[id]);
      assert s'.claims[id] == s.claims[id] || (id == own && s'.claims[id] == s.claims[id].(reconciled := true));
    }
  }

  lemma ReconciledClaimsKept(s: State, i: nat)
    requires Enabled(s, DoReconcile(i))
    ensures OthersClaimsKept(s, ReconcileClaim(s, i), i)
    ensures forall id :: ClaimedAndPosted(s, id) ==> ClaimedAndPosted(ReconcileClaim(s, i), id)
  {
  }

  // ---- Steps on the wire ----

  lemma PostStepKeeps(s: State, i: nat)
    requires Inv(s) && Enabled(s, DoPost(i))
    ensures Inv(SendTransfer(s, i))
  {
    assert CallOk(s, i);
    SendExtends(s, i);
    SentCallOk(s, i);
    QuietKeeps(s, SendTransfer(s, i), i);
  }

  lemma SentCallOk(s: State, i: nat)
    requires Enabled(s, DoPost(i)) && CallOk(s, i)
    ensures CallOk(SendTransfer(s, i), i)
    ensures s.calls[i].wire.Idle?
  {
  }

  lemma LoseStepKeeps(s: State, i: nat)
    requires Inv(s) && i < |s.calls| && s.calls[i].wire.Flying?
    ensures Inv(LoseTransfer(s, i))
  {
    assert CallOk(s, i);
    LoseExtends(s, i);
    LostCallOk(s, i);
    QuietKeeps(s, LoseTransfer(s, i), i);
  }

  lemma LostCallOk(s: State, i: nat)
    requires i < |s.calls| && s.calls[i].wire.Flying? && CallOk(s, i)
    ensures CallOk(LoseTransfer(s, i), i)
  {
    LoseExtends(s, i);
    PcKept(s, LoseTransfer(s, i), s.calls[i]);
  }

  lemma AppliedHasId(ledger: seq<Transfer>, t: Transfer)
    ensures HasId(ApplyTransfer(ledger, t), t.Id())
  {
    if !HasId(ledger, t.Id()) {
      assert (ledger + [t])[|ledger|] == t;
    }
  }

  /** The ledger applies a transfer: identifiers stay distinct and the new entry rests on the
      evidence its request carried. */
  lemma DeliverStepKeeps(s: State, i: nat)
    requires Inv(s) && Enabled(s, Deliver(i))
    ensures Inv(DeliverTransfer(s, i))
  {
    var s' := DeliverTransfer(s, i);
    DeliverExtends(s, i);
    DeliveredCallOk(s, i);
    CallsKept(s, s', i);
    DeliveredLedgerOk(s, i);
    ClaimsKept(s, s');
    IntentsKept(s, s');
    TopupsKept(s, s');
    HooksKept(s, s');
  }

  lemma DeliveredCallOk(s: State, i: nat)
    requires Inv(s) && Enabled(s, Deliver(i))
    ensures CallOk(DeliverTransfer(s, i), i)
  {
    var s' := DeliverTransfer(s, i);
    var t := s.calls[i].wire.t;
    DeliverExtends(s, i);
    AppliedHasId(s.ledger, t);
    assert CallOk(s, i);
    PcKept(s, s', s.calls[i]);
    WarrantedKept(s, s', t);
  }

  lemma DeliveredLedgerOk(s: State, i: nat)
    requires Inv(s) && Enabled(s, Deliver(i))
    ensures LedgerOk(DeliverTransfer(s, i))
  {
    var s' := DeliverTransfer(s, i);
    var t := s.calls[i].wire.t;
    assert CallOk(s, i);
    DeliverExtends(s, i);
    forall k | 0 <= k < |s'.ledger|
      ensures Warranted(s', s'.ledger[k])
      ensures s'.ledger[k].InvestigationDebit? ==> ClaimedAndPosted(s', s'.ledger[k].Id())
    {
      if k < |s.ledger| {
        WarrantedKept(s, s', s.ledger[k]);
      } else {
        WarrantedKept(s, s', t);
      }
    }
  }

  // ---- Steps of a settlement ----

  lemma CompleteStepKeeps(s: State, i: nat)
    requires Inv(s) && Enabled(s, DoComplete(i))
    ensures Inv(CompleteIntent(s, i))
  {
    var t := s.calls[i].pc.t;
    assert CallOk(s, i);
    if CompleteIntent(s, i).calls[i].pc.Threw? {
      FailKeeps(s, i, Threw(Unavailable));
    } else {
      CreditKeeps(s, i, t);
    }
  }

  function MarkCredited(s: State, i: nat, t: Transfer): State
    requires i < |s.calls| && t.Topup? && t.reference in s.intents
  {
    Goto(s.(intents := s.intents[t.reference := s.intents[t.reference].(status := Credited)]), i, RecordTopup(t))
  }

  lemma CreditKeeps(s: State, i: nat, t: Transfer)
    requires Inv(s) && i < |s.calls| && s.calls[i].pc == Complete(t)
    requires CallOk(s, i) && t.Topup? && t.reference in s.intents
    ensures Inv(MarkCredited(s, i, t))
  {
    var s' := MarkCredited(s, i, t);
    CreditExtends(s, t.reference, i, RecordTopup(t));
    CompletedIntentsOk(s, i, t);
    CompletedCallOk(s, i, t);
    CallsKept(s, s', i);
    LedgerKept(s, s');
    ClaimsKept(s, s');
    TopupsKept(s, s');
    HooksKept(s, s');
  }

  /** The intent that is marked credited has its own transfer in the ledger. */
  lemma CompletedIntentsOk(s: State, i: nat, t: Transfer)
    requires i < |s.calls| && s.calls[i].pc == Complete(t) && CallOk(s, i) && IntentsOk(s)
    ensures t.Topup? && t.reference in s.intents && IntentsOk(MarkCredited(s, i, t))
  {
    var s' := MarkCredited(s, i, t);
    assert TopupOf(s, t.reference) == t;
    forall r | r in s'.intents && s'.intents[r].status.Credited? ensures TopupOf(s', r) in s'.ledger {
      assert TopupOf(s', r) == TopupOf(s, r);
    }
  }

  lemma CompletedCallOk(s: State, i: nat, t: Transfer)
    requires i < |s.calls| && s.calls[i].pc == Complete(t) && CallOk(s, i) && t.Topup? && t.reference in s.intents
    ensures CallOk(MarkCredited(s, i, t), i)
  {
    var s' := MarkCredited(s, i, t);
    CreditExtends(s, t.reference, i, RecordTopup(t));
    WarrantedKept(s, s', t);
    WireKept(s, s', s.calls[i]);
  }

  lemma RecordStepKeeps(s: State, i: nat)
    requires Inv(s) && Enabled(s, DoRecordTopup(i))
    ensures Inv(UpsertTopup(s, i))
  {
    var s' := UpsertTopup(s, i);
    assert CallOk(s, i);
    RecordExtends(s, i);
    RecordedTopupsOk(s, i);
    RecordedCallOk(s, i);
    RecordFrame(s, i);
    CallsKept(s, s', i);
    LedgerKept(s, s');
    ClaimsKept(s, s');
    IntentsKept(s, s');
    HooksKept(s, s');
  }

  lemma RecordFrame(s: State, i: nat)
    requires Enabled(s, DoRecordTopup(i))
    ensures var s' := UpsertTopup(s, i);
            && s' == s.(topups := s'.topups, calls := s'.calls) && |s'.calls| == |s.calls|
            && OthersCallsKept(s, s', i) && OthersClaimsKept(s, s', i)
            && forall id :: ClaimedAndPosted(s, id) ==> ClaimedAndPosted(s', id)
  {
  }

  lemma RecordedTopupsOk(s: State, i: nat)
    requires Enabled(s, DoRecordTopup(i)) && CallOk(s, i) && TopupsOk(s)
    ensures TopupsOk(UpsertTopup(s, i))
  {
  }

  lemma RecordedCallOk(s: State, i: nat)
    requires Enabled(s, DoRecordTopup(i)) && CallOk(s, i)
    ensures CallOk(UpsertTopup(s, i), i)
  {
    RecordExtends(s, i);
    WireKept(s, UpsertTopup(s, i), s.calls[i]);
  }

  // ---- Steps on the webhook queue ----

  lemma HookMoveKeeps(s: State, body: string, h: Hook, i: nat, pc: Pc)
    requires Inv(s) && i < |s.calls| && body in s.hooks
    requires h.eventType == s.hooks[body].eventType && h.reference == s.hooks[body].reference
    requires s.hooks[body].attempts <= h.attempts
    requires HooksOk(Goto(s.(hooks := s.hooks[body := h]), i, pc))
    requires CallOk(Goto(s.(hooks := s.hooks[body := h]), i, pc), i)
    ensures Inv(Goto(s.(hooks := s.hooks[body := h]), i, pc))
  {
    var s' := Goto(s.(hooks := s.hooks[body := h]), i, pc);
    HookExtends(s, body, h, i, pc);
    CallsKept(s, s', i);
    LedgerKept(s, s');
    ClaimsKept(s, s');
    IntentsKept(s, s');
    TopupsKept(s, s');
  }

  lemma BeginStepKeeps(s: State, i: nat)
    requires Inv(s) && Enabled(s, BeginWebhook(i))
    ensures Inv(BeginHook(s, i))
  {
    var s', body := BeginHook(s, i), s.calls[i].job.body;
    assert CallOk(s, i);
    BegunHooksOk(s, i);
    BegunCallOk(s, i);
    BeginShape(s, i);
    if body !in s.hooks || s.hooks[body].status.Processed? {
      MoveKeeps(s, i, s'.calls[i].pc);
    } else {
      HookMoveKeeps(s, body, s'.hooks[body], i, s'.calls[i].pc);
    }
  }

  lemma BegunHooksOk(s: State, i: nat)
    requires Enabled(s, BeginWebhook(i)) && HooksOk(s)
    ensures HooksOk(BeginHook(s, i))
  {
  }

  lemma BegunCallOk(s: State, i: nat)
    requires Enabled(s, BeginWebhook(i)) && CallOk(s, i)
    ensures CallOk(BeginHook(s, i), i)
  {
    BeginShape(s, i);
    var s', body := BeginHook(s, i), s.calls[i].job.body;
    var pc := s'.calls[i].pc;
    assert s'.calls[i].wire.Idle? && !Holding(s'.calls[i]);
    if body in s.hooks && NeedsSettlement(s.hooks[body]) {
      assert pc in {Finished, ReadIntent(s.hooks[body].reference.value)};
    } else {
      assert pc in {Stopped, Finished, Returned(NothingToSettle)};
    }
    assert PcOk(s', s'.calls[i]);
    assert HookRefOk(s', s'.calls[i]);
  }

  lemma FinishStepKeeps(s: State, i: nat)
    requires Inv(s) && Enabled(s, FinishWebhook(i))
    ensures Inv(CloseHook(s, i))
  {
    var s', body := CloseHook(s, i), s.calls[i].job.body;
    assert CallOk(s, i);
    FinishedRowsOk(s, i);
    HookMoveKeeps(s, body, s'.hooks[body], i, Finished);
  }

  lemma FinishedRowsOk(s: State, i: nat)
    requires Enabled(s, FinishWebhook(i)) && CallOk(s, i) && HooksOk(s)
    ensures HooksOk(CloseHook(s, i))
    ensures CallOk(CloseHook(s, i), i)
  {
    FinishExtends(s, i);
    WireKept(s, CloseHook(s, i), s.calls[i]);
  }

  // ---- Steps of the environment ----

  predicate WritesRow(a: Action) {
    a.StartTopup? || a.Initialized? || a.ConfirmPayment? || a.RecordWebhook? || a.Tick?
  }

  lemma RowStepKeeps(s: State, a: Action)
    requires Inv(s) && Enabled(s, a) && WritesRow(a)
    ensures Inv(Exec(s, a))
  {
    var s' := Exec(s, a);
    EnvironmentExtends(s, a);
    RowFrame(s, a);
    RowCallsOk(s, s');
    LedgerKept(s, s');
    ClaimsKept(s, s');
    TopupsKept(s, s');
    RowIntentsOk(s, a);
    RowHooksOk(s, a);
  }

  lemma RowFrame(s: State, a: Action)
    requires Enabled(s, a) && WritesRow(a)
    ensures var s' := Exec(s, a);
            && s'.ledger == s.ledger && s'.claims == s.claims && s'.calls == s.calls && s'.topups == s.topups
            && (!a.StartTopup? && !a.Initialized? ==> s'.intents == s.intents)
            && (!a.RecordWebhook? ==> s'.hooks == s.hooks)
  {
  }

  lemma RowCallsOk(s: State, s': State)
    requires CallsOk(s) && Extends(s, s') && s'.claims == s.claims && s'.calls == s.calls
    ensures CallsOk(s')
  {
    forall j | 0 <= j < |s'.calls| ensures CallOk(s', j) {
      CallKept(s, s', |s.calls|, j);
    }
  }

  lemma RowIntentsOk(s: State, a: Action)
    requires IntentsOk(s) && Enabled(s, a) && WritesRow(a)
    ensures IntentsOk(Exec(s, a))
  {
    var s' := Exec(s, a);
    RowFrame(s, a);
    if a.StartTopup? {
      IntentWritten(s, s', a.reference);
    } else if a.Initialized? {
      IntentWritten(s, s', a.reference);
    } else {
      EnvironmentExtends(s, a);
      IntentsKept(s, s');
    }
  }

  /** A written intent that is not credited cannot break the invariant. */
  lemma IntentWritten(s: State, s': State, reference: string)
    requires IntentsOk(s) && s'.ledger == s.ledger && reference in s'.intents
    requires s'.intents == s.intents[reference := s'.intents[reference]]
    requires s'.intents[reference].currency.NGN? && s'.intents[reference].amount >= TOPUP_MINIMUM_KOBO
    requires s'.intents[reference].status.Credited? ==>
              reference in s.intents && s'.intents[reference] == s.intents[reference]
    ensures IntentsOk(s')
  {
    forall r | r in s'.intents && s'.intents[r].status.Credited? ensures TopupOf(s', r) in s'.ledger {
      assert TopupOf(s', r) == TopupOf(s, r);
    }
  }

  lemma RowHooksOk(s: State, a: Action)
    requires HooksOk(s) && Enabled(s, a) && WritesRow(a)
    ensures HooksOk(Exec(s, a))
  {
    EnvironmentExtends(s, a);
    RowFrame(s, a);
    if a.RecordWebhook? {
      HookStored(s, a.body, a.eventType, a.hookReference);
    } else {
      HooksKept(s, Exec(s, a));
    }
  }

  lemma HookStored(s: State, body: string, eventType: EventType, reference: Option<string>)
    requires HooksOk(s)
    ensures HooksOk(Exec(s, RecordWebhook(body, eventType, reference)))
  {
  }

  lemma SpawnKeeps(s: State, job: Job)
    requires Inv(s)
    ensures Inv(Exec(s, Spawn(job)))
  {
    var s' := Exec(s, Spawn(job));
    EnvironmentExtends(s, Spawn(job));
    forall j | 0 <= j < |s'.calls| ensures CallOk(s', j) {
      if j < |s.calls| {
        CallKept(s, s', |s.calls|, j);
      }
    }
    LedgerKept(s, s');
    ClaimsKept(s, s');
  }

  lemma WebhookStepKeeps(s: State, a: Action)
    requires Inv(s) && Enabled(s, a) && (a.BeginWebhook? || a.FinishWebhook?)
    ensures Inv(Exec(s, a))
  {
    match a
    case BeginWebhook(i) => BeginStepKeeps(s, i);
    case FinishWebhook(i) => FinishStepKeeps(s, i);
  }

  lemma SettlementStepKeeps(s: State, a: Action)
    requires Inv(s) && Enabled(s, a) && (a.DoReadIntent? || a.DoVerify? || a.DoComplete? || a.DoRecordTopup?)
    ensures Inv(Exec(s, a))
  {
    match a
    case DoReadIntent(i) => ReadIntentKeeps(s, i);
    case DoVerify(i) => VerifyKeeps(s, i);
    case DoComplete(i) => CompleteStepKeeps(s, i);
    case DoRecordTopup(i) => RecordStepKeeps(s, i);
  }

  lemma DebitStepKeeps(s: State, a: Action)
    requires Inv(s) && Enabled(s, a)
    requires a.DoClaim? || a.DoLookUp? || a.DoCheckBalance? || a.DoRelease? || a.DoReconcile?
    ensures Inv(Exec(s, a))
  {
    match a
    case DoClaim(i) => ClaimStepKeeps(s, i);
    case DoLookUp(i) => LookUpKeeps(s, i);
    case DoCheckBalance(i) => CheckBalanceKeeps(s, i);
    case DoRelease(i) => ReleaseStepKeeps(s, i);
    case DoReconcile(i) => ReconcileStepKeeps(s, i);
  }

  lemma TransportStepKeeps(s: State, a: Action)
    requires Inv(s) && Enabled(s, a)
    requires a.DoPost? || a.Deliver? || a.Lose? || a.Acknowledge? || a.Fault? || a.Crash?
    ensures Inv(Exec(s, a))
  {
    match a
    case DoPost(i) => PostStepKeeps(s, i);
    case Deliver(i) => DeliverStepKeeps(s, i);
    case Lose(i) => LoseStepKeeps(s, i);
    case Acknowledge(i) => AcknowledgeKeeps(s, i);
    case Fault(i, code) => FailKeeps(s, i, Threw(code));
    case Crash(i) => FailKeeps(s, i, Stopped);
  }

  /** Every step of the protocol, whatever the interleaving, keeps the invariant. */
  lemma StepKeeps(s: State, a: Action)
    requires Inv(s) && Enabled(s, a)
    ensures Inv(Exec(s, a))
  {
    if a.BeginWebhook? || a.FinishWebhook? {
      WebhookStepKeeps(s, a);
    } else if a.DoReadIntent? || a.DoVerify? || a.DoComplete? || a.DoRecordTopup? {
      SettlementStepKeeps(s, a);
    } else if a.DoClaim? || a.DoLookUp? || a.DoCheckBalance? || a.DoRelease? || a.DoReconcile? {
      DebitStepKeeps(s, a);
    } else if a.DoPost? || a.Deliver? || a.Lose? || a.Acknowledge? || a.Fault? || a.Crash? {
      TransportStepKeeps(s, a);
    } else if a.Spawn? {
      SpawnKeeps(s, a.job);
    } else {
      RowStepKeeps(s, a);
    }
  }

  lemma {:induction false} RunKeeps(s: State, actions: seq<Action>, s': State)
    requires Inv(s) && IsRun(s, actions, s')
    ensures Inv(s')
    decreases |actions|
  {
    if actions != [] {
      StepKeeps(s, actions[0]);
      RunKeeps(Exec(s, actions[0]), actions[1..], s');
    }
  }

  lemma ReachableInv(s: State)
    requires Reachable(s)
    ensures Inv(s)
  {
    var now, actions :| IsRun(InitialState(now), actions, s);
    InitHolds(now);
    RunKeeps(InitialState(now), actions, s);
  }
}
