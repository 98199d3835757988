/** What each step of a call means for the caller, in every state the protocol can be in. */
module PrepaidOutcomes {
  import opened Common
  import opened TransferIds
  import opened PrepaidLedger
  import opened PrepaidInvariants
  import opened PrepaidPreservation
  import opened PrepaidTheorems
  import opened PrepaidDebits

  // ---- Settlements in progress ----

  ghost predicate Settleable(s: State, reference: string) {
    Payable(s, reference) || IsCredited(s, reference)
  }

  /** The lock is released after the read, yet what the read established stays true. */
  ghost predicate SettlingOk(s: State) {
    forall i, r :: 0 <= i < |s.calls| && PastRead(s.calls[i], r) ==> Settleable(s, r)
  }

  /** The invariant of the protocol, with what the claim table and the intents guarantee to calls that
      are under way. */
  ghost predicate Sound(s: State) {
    Inv(s) && SendersOwn(s) && SettlingOk(s)
  }

  lemma SettleableStays(s: State, a: Action, reference: string)
    requires Enabled(s, a) && Settleable(s, reference)
    ensures Settleable(Exec(s, a), reference)
  {
    if OnlyMoves(a) {
      MoveShape(s, a);
    }
  }

  lemma ReadMeansPayable(s: State, i: nat, reference: string)
    requires Enabled(s, DoReadIntent(i)) && s.calls[i].pc == ReadIntent(reference)
    ensures PastRead(Exec(s, DoReadIntent(i)).calls[i], reference) ==> Payable(s, reference)
  {
  }

  lemma SettlingStep(s: State, a: Action)
    requires CallsOk(s) && SettlingOk(s) && Enabled(s, a)
    ensures SettlingOk(Exec(s, a))
  {
    var s' := Exec(s, a);
    forall j, r | 0 <= j < |s'.calls| && PastRead(s'.calls[j], r) ensures Settleable(s', r) {
      OnlyReadEnters(s, a, r, j);
      if !PastRead(s.calls[j], r) {
        ReadMeansPayable(s, j, r);
      }
      SettleableStays(s, a, r);
    }
  }

  lemma SoundStep(s: State, a: Action)
    requires Sound(s) && Enabled(s, a)
    ensures Sound(Exec(s, a))
  {
    StepKeeps(s, a);
    SendersOwnStep(s, a);
    SettlingStep(s, a);
  }

  lemma SoundInitially(now: int)
    ensures Sound(InitialState(now))
  {
    InitHolds(now);
  }

  lemma {:induction false} SoundRun(s: State, actions: seq<Action>, s': State)
    requires Sound(s) && IsRun(s, actions, s')
    ensures Sound(s')
    decreases |actions|
  {
    if actions != [] {
      SoundStep(s, actions[0]);
      SoundRun(Exec(s, actions[0]), actions[1..], s');
    }
  }

  lemma ReachableSound(s: State)
    requires Reachable(s)
    ensures Sound(s)
  {
    var now, actions :| IsRun(InitialState(now), actions, s);
    SoundInitially(now);
    SoundRun(InitialState(now), actions, s);
  }

  // ---- Intents ----

  /** A fresh reference has no money in the ledger yet, and starting it credits nothing. */
  lemma StartOutcome(s: State, reference: string, tenant: Tenant, amount: nat)
    requires Sound(s) && Enabled(s, StartTopup(reference, tenant, amount))
    ensures !HasId(s.ledger, TopupKey(reference)) && reference !in s.topups
    ensures var s' := Exec(s, StartTopup(reference, tenant, amount));
            && reference in s'.intents && s'.intents == s.intents[reference := s'.intents[reference]]
            && TopupOf(s', reference) == Topup(reference, tenant, amount)
            && s'.intents[reference].expiresAt == s.now + 30 * 60 * 1000
    ensures !Settleable(Exec(s, StartTopup(reference, tenant, amount)), reference)
  {
    forall k | 0 <= k < |s.ledger| ensures s.ledger[k].Id() != TopupKey(reference) {
      assert Warranted(s, s.ledger[k]);
    }
  }

  /** The provider's answer to the initialization, however late, never disturbs an intent that is
      already payable or credited. */
  lemma InitializationOutcome(s: State, reference: string, ok: bool, other: string)
    requires Sound(s) && Enabled(s, Initialized(reference, ok))
    ensures var s' := Exec(s, Initialized(reference, ok));
            && (Settleable(s, other) ==> Settleable(s', other))
            && (IsCredited(s', other) <==> IsCredited(s, other))
            && (!ok ==> (Settleable(s', other) <==> Settleable(s, other)))
  {
  }

  /** It makes an intent payable exactly if the intent was still waiting for it and it is positive. */
  lemma InitializedOutcome(s: State, reference: string, ok: bool)
    requires Enabled(s, Initialized(reference, ok))
    ensures Payable(Exec(s, Initialized(reference, ok)), reference) <==>
              Payable(s, reference) || (ok && s.intents[reference].status.Initializing?)
  {
  }

  // ---- Settlement ----

  /** A settlement proceeds exactly for a payable, unexpired intent. It answers at once exactly if the
      intent is credited, and then the money is in the ledger. */
  lemma ReadOutcome(s: State, i: nat, reference: string)
    requires Sound(s) && Enabled(s, DoReadIntent(i)) && s.calls[i].pc == ReadIntent(reference)
    ensures var pc := Exec(s, DoReadIntent(i)).calls[i].pc;
            && (pc.Verify? <==> Payable(s, reference) && s.now <= s.intents[reference].expiresAt)
            && (pc.Returned? <==> IsCredited(s, reference))
            && (pc.Returned? ==> TopupOf(s, reference) in s.ledger)
            && (pc == Threw(NotFound) <==> reference !in s.intents)
            && (pc.Threw? && reference in s.intents ==> pc.code.Precondition?)
  {
  }

  ghost predicate Confirmed(s: State, reference: string) {
    reference in s.intents && reference in s.payments
    && s.payments[reference] == Payment(s.intents[reference].amount, s.intents[reference].currency)
  }

  /** A settlement posts exactly if the provider confirmed the amount and currency the intent has now,
      although the call works from an earlier snapshot; what it posts is the intent's own top-up. */
  lemma VerifyOutcome(s: State, i: nat, reference: string, snapshot: Intent)
    requires Sound(s) && Enabled(s, DoVerify(i)) && s.calls[i].pc == Verify(reference, snapshot)
    ensures Settleable(s, reference)
    ensures var pc := Exec(s, DoVerify(i)).calls[i].pc;
            if Confirmed(s, reference) then pc == Post(TopupOf(s, reference)) else pc == Threw(Precondition)
  {
    assert CallOk(s, i) && PastRead(s.calls[i], reference);
  }

  /** Every request that leaves for the ledger is justified: a top-up by a confirmed payment of a
      settleable intent, an investigation debit by the caller's own claim of a key that no other call
      has ever sent and the ledger does not hold. */
  lemma PostOutcome(s: State, i: nat, j: nat)
    requires Sound(s) && Enabled(s, DoPost(i))
    ensures var t := s.calls[i].pc.t;
            && (t.Topup? ==> Settleable(s, t.reference) && Confirmed(s, t.reference) && t == TopupOf(s, t.reference))
            && (t.InvestigationDebit? ==> t.Id() in s.claims && s.claims[t.Id()].owner == i && !HasId(s.ledger, t.Id()))
            && (t.InvestigationDebit? && Sent(s, j) ==> DebitOf(s.calls[j].job) != t)
  {
    assert CallOk(s, i);
    var t := s.calls[i].pc.t;
    assert t.Topup? ==> PastRead(s.calls[i], t.reference);
    if t.InvestigationDebit? {
      NothingPosted(s, i);
      assert Sent(s, j) ==> OwnsClaim(s, j);
    }
  }

  /** After the compare-and-set the intent is credited and its money is in the ledger, whichever worker
      credited it: the call reports that reconciliation is needed exactly if another one was first. */
  lemma CompleteOutcome(s: State, i: nat, t: Transfer)
    requires Sound(s) && Enabled(s, DoComplete(i)) && s.calls[i].pc == Complete(t)
    ensures var s' := Exec(s, DoComplete(i));
            && IsCredited(s', t.reference) && t in s'.ledger && TopupOf(s', t.reference) == t
            && (s'.calls[i].pc == Threw(Unavailable) <==> IsCredited(s, t.reference))
            && (s'.calls[i].pc == PrepaidLedger.RecordTopup(t) <==> Payable(s, t.reference))
  {
    assert CallOk(s, i) && PastRead(s.calls[i], t.reference);
    assert TopupOf(s, t.reference) == t && Settleable(s, t.reference);
    assert Exec(s, DoComplete(i)) == CompleteIntent(s, i);
  }

  /** The recorded row is the credited intent's, with the transfer that is in the ledger. */
  lemma RecordOutcome(s: State, i: nat, t: Transfer)
    requires Sound(s) && Enabled(s, DoRecordTopup(i)) && s.calls[i].pc == PrepaidLedger.RecordTopup(t)
    ensures var s' := Exec(s, DoRecordTopup(i));
            && IsCredited(s', t.reference) && TopupOf(s', t.reference) in s'.ledger
            && t.reference in s'.topups && s'.calls[i].pc == Returned(SettledReply(t.reference, false))
            && var intent := s'.intents[t.reference];
               s'.topups[t.reference] == TopupRow(intent.tenant, intent.amount, TopupKey(t.reference))
  {
    assert CallOk(s, i);
    RecordedTopupsOk(s, i);
  }

  // ---- Webhooks ----

  /** A new payload is stored with its own type and reference, ready for a first attempt; a stored one is
      left alone. */
  lemma StoreOutcome(s: State, body: string, eventType: EventType, reference: Option<string>)
    ensures var s' := Exec(s, RecordWebhook(body, eventType, reference));
            && body in s'.hooks && s'.hooks.Keys == s.hooks.Keys + {body}
            && (forall b :: b in s.hooks ==> s'.hooks[b] == s.hooks[b])
            && (body !in s.hooks ==>
                  var h := s'.hooks[body];
                  && h.eventType == eventType && h.reference == reference && h.status.Received? && h.attempts == 0)
  {
  }

  /** A stored event that asks for a settlement: a charge.success event with a reference. */
  predicate AsksFor(hooks: map<string, Hook>, body: string, reference: string) {
    && body in hooks && hooks[body].eventType.ChargeSuccess? && hooks[body].reference == Some(reference)
    && reference != ""
  }

  /** A stored event that asks for none: another event, or one without a reference. */
  predicate AsksNothing(hooks: map<string, Hook>, body: string) {
    body in hooks && (!hooks[body].eventType.ChargeSuccess? || hooks[body].reference in {None, Some("")})
  }

  /** A stored event that is not processed and has one of its ten attempts left. */
  predicate DueIn(hooks: map<string, Hook>, body: string) {
    body in hooks && !hooks[body].status.Processed? && hooks[body].attempts < 10
  }

  /** A delivery is started exactly if the event is stored, not processed and has attempts left, of which
      there are ten. It then settles the reference if the event is a charge.success event with one, and
      nothing otherwise. */
  lemma BeginOutcome(s: State, i: nat, reference: string)
    requires Enabled(s, BeginWebhook(i))
    ensures var s', body := Exec(s, BeginWebhook(i)), s.calls[i].job.body;
            var pc := s'.calls[i].pc;
            && (pc == ReadIntent(reference) <==> DueIn(s.hooks, body) && AsksFor(s.hooks, body, reference))
            && (pc == Returned(NothingToSettle) <==> DueIn(s.hooks, body) && AsksNothing(s.hooks, body))
            && (DueIn(s.hooks, body) ==>
                  body in s'.hooks && s'.hooks[body].status.Processing?
                  && s'.hooks[body].attempts == s.hooks[body].attempts + 1)
  {
  }

  /** An event that was processed is left alone; one that has used up its attempts fails for good. */
  lemma TurnedAwayOutcome(s: State, i: nat)
    requires Enabled(s, BeginWebhook(i)) && !DueIn(s.hooks, s.calls[i].job.body)
    ensures var s', body := Exec(s, BeginWebhook(i)), s.calls[i].job.body;
            && (s'.calls[i].pc.Finished? || s'.calls[i].pc.Stopped?)
            && (body in s.hooks && !s.hooks[body].status.Processed? ==>
                  body in s'.hooks && s'.hooks[body].status.TerminalFailure?)
            && (body in s.hooks && s.hooks[body].status.Processed? ==> s'.hooks == s.hooks)
  {
  }

  /** An event is marked processed exactly if its call returned, and if it asked for a settlement its intent
      is then credited and the money is in the ledger. It is to be tried again after five minutes exactly if
      its call failed because a service was unavailable; any other failure is final. */
  lemma FinishOutcome(s: State, i: nat, reference: string)
    requires Sound(s) && Enabled(s, FinishWebhook(i))
    ensures var s', body, pc := Exec(s, FinishWebhook(i)), s.calls[i].job.body, s.calls[i].pc;
            var h := s'.hooks[body];
            && (h.status.Processed? <==> pc.Returned?)
            && (h.status.RetryableFailure? <==> pc == Threw(Unavailable))
            && (h.status.TerminalFailure? <==> pc.Threw? && pc.code != Unavailable)
            && (h.status.RetryableFailure? ==> h.nextAttemptAt == Some(s.now + 5 * 60 * 1000))
            && (h.status.TerminalFailure? ==> h.nextAttemptAt == None)
            && (h.status.Processed? && AsksFor(s'.hooks, body, reference) ==>
                  IsCredited(s', reference) && TopupOf(s', reference) in s'.ledger)
  {
    assert CallOk(s, i);
  }

  // ---- Debits ----

  /** A call wins the claim exactly if nobody holds it, and then nobody has ever sent the debit. */
  lemma ClaimOutcome(s: State, i: nat, t: Transfer, j: nat)
    requires Sound(s) && Enabled(s, DoClaim(i)) && s.calls[i].pc == ClaimKey(t)
    ensures var s' := Exec(s, DoClaim(i));
            && (s'.calls[i].pc == CheckBalance(t) <==> t.Id() !in s.claims)
            && (s'.calls[i].pc == LookUp(t) <==> t.Id() in s.claims)
            && t.Id() in s'.claims
            && (t.Id() !in s.claims ==> s'.claims[t.Id()].owner == i && !HasId(s.ledger, t.Id()))
            && (t.Id() !in s.claims && Sent(s, j) ==> DebitOf(s.calls[j].job) != t)
            && (t.Id() in s.claims ==> s'.claims == s.claims)
  {
    assert CallOk(s, i);
    forall k | 0 <= k < |s.ledger| && s.ledger[k].Id() == t.Id() ensures t.Id() in s.claims {
      assert ClaimedAndPosted(s, s.ledger[k].Id());
    }
    assert Sent(s, j) ==> OwnsClaim(s, j);
  }

  /** An idempotent answer says "recorded" exactly if the claim is reconciled, and then the caller's debit is
      in the ledger; it cannot fail unless the claim has been released since. */
  lemma LookUpOutcome(s: State, i: nat, t: Transfer)
    requires Sound(s) && Enabled(s, DoLookUp(i)) && s.calls[i].pc == LookUp(t)
    ensures var pc := Exec(s, DoLookUp(i)).calls[i].pc;
            && (pc == Returned(DebitReply(true, true)) <==> t.Id() in s.claims && s.claims[t.Id()].reconciled)
            && (pc == Returned(DebitReply(false, true)) <==> t.Id() in s.claims && !s.claims[t.Id()].reconciled)
            && (pc == Threw(Conflict) <==> t.Id() !in s.claims)
            && (pc == Returned(DebitReply(true, true)) ==> t in s.ledger)
  {
    assert CallOk(s, i);
    if t.Id() in s.claims && s.claims[t.Id()].reconciled {
      assert ClaimOk(s, t.Id(), s.claims[t.Id()]);
      var k :| 0 <= k < |s.ledger| && s.ledger[k].Id() == t.Id();
      assert s.ledger[k] == t;
    }
  }

  /** What the balance check makes of an investigation debit: it goes on exactly if the tenant has the price of
      the tier, gives its claim up exactly if the tenant has less, and fails on a negative balance. */
  lemma CheckOutcome(s: State, i: nat, tenant: Tenant, investigation: string, tier: Tier)
    requires Enabled(s, DoCheckBalance(i))
    requires s.calls[i].pc == CheckBalance(InvestigationDebit(tenant, investigation, tier))
    ensures var pc, t := Exec(s, DoCheckBalance(i)).calls[i].pc, InvestigationDebit(tenant, investigation, tier);
            var available := Available(s.ledger, TenantAccount(tenant));
            && (pc == Post(t) <==> TierAmount(tier) <= available)
            && (pc == Release(t) <==> 0 <= available < TierAmount(tier))
            && (pc == Threw(Unavailable) <==> available < 0)
  {
    assert TierAmount(tier) > 0;
  }

  /** And of the charge for an assessment, which has no claim to give up. */
  lemma AssessmentOutcome(s: State, i: nat, tenant: Tenant, event: string, charge: nat)
    requires Sound(s) && Enabled(s, DoCheckBalance(i))
    requires s.calls[i].pc == CheckBalance(AssessmentDebit(tenant, event, charge))
    ensures var pc, t := Exec(s, DoCheckBalance(i)).calls[i].pc, AssessmentDebit(tenant, event, charge);
            var available := Available(s.ledger, TenantAccount(tenant));
            && (pc == Post(t) <==> charge <= available)
            && (pc == Threw(InsufficientFunds) <==> 0 <= available < charge)
            && (pc == Threw(Unavailable) <==> available < 0)
  {
    assert CallOk(s, i);
  }

  /** The ledger's acknowledgement: the transfer is applied, and the call goes on to complete the intent or to
      reconcile the claim; the charge for an assessment is then done. */
  lemma AcknowledgeOutcome(s: State, i: nat, t: Transfer)
    requires Sound(s) && Enabled(s, Acknowledge(i)) && s.calls[i].pc == Await(t)
    ensures HasId(s.ledger, t.Id())
    ensures var pc := Exec(s, Acknowledge(i)).calls[i].pc;
            && (t.Topup? ==> pc == Complete(t) && t in s.ledger)
            && (t.InvestigationDebit? ==> pc == Reconcile(t) && t in s.ledger)
            && (t.AssessmentDebit? ==> pc == Returned(AssessReply))
  {
    assert CallOk(s, i);
    var k :| 0 <= k < |s.ledger| && s.ledger[k].Id() == t.Id();
    assert Warranted(s, s.ledger[k]);
  }

  /** Reconciliation always finds the claim: the error asking for operator recovery cannot occur, and
      the debit it confirms is in the ledger. */
  lemma ReconcileOutcome(s: State, i: nat, t: Transfer)
    requires Sound(s) && Enabled(s, DoReconcile(i)) && s.calls[i].pc == Reconcile(t)
    ensures var s' := Exec(s, DoReconcile(i));
            && s'.calls[i].pc == Returned(DebitReply(true, false))
            && t in s'.ledger && t.Id() in s'.claims && s'.claims[t.Id()].owner == i && s'.claims[t.Id()].reconciled
  {
    assert CallOk(s, i);
    var k :| 0 <= k < |s.ledger| && s.ledger[k].Id() == t.Id();
    assert s.ledger[k] == t;
  }
}
