/** The application side of the protocol in imperative form: one object holds the rows and the
    calls, and one method per database transaction or remote interaction updates them in place. Each
    takes the corresponding step of the state machine, keeps the protocol sound, and tells its caller
    what the step established. */
module PrepaidService {
  import opened Common
  import opened TransferIds
  import opened PrepaidLedger
  import opened PrepaidInvariants
  import opened PrepaidTheorems
  import opened PrepaidDebits
  import opened PrepaidAdmission
  import opened PrepaidOutcomes

  class Service {
    var intents: map<string, Intent>
    var payments: map<string, Payment>
    var topups: map<string, TopupRow>
    var hooks: map<string, Hook>
    var claims: map<TransferKey, Claim>
    var ledger: seq<Transfer>
    var calls: seq<Call>
    var now: int

    function View(): State
      reads this
    {
      State(intents, payments, topups, hooks, claims, ledger, calls, now)
    }

    constructor (now: int)
      ensures View() == InitialState(now) && Sound(View())
    {
      SoundInitially(now);
      intents, payments, topups, hooks, claims := map[], map[], map[], map[], map[];
      ledger, calls, this.now := [], [], now;
    }

    method GoTo(i: nat, pc: Pc)
      requires i < |calls|
      modifies this`calls
      ensures calls == old(calls)[i := old(calls)[i].(pc := pc)]
    {
      calls := calls[i := calls[i].(pc := pc)];
    }

    // ---- Ledger reads ----

    /** Sums the postings of one account; a negative balance is reported as unavailable. */
    method AvailableBalance(account: Account) returns (available: Option<nat>)
      ensures available.Some? <==> Available(ledger, account) >= 0
      ensures available.Some? ==> available.value == Available(ledger, account)
    {
      var credits, debits := 0, 0;
      for k := 0 to |ledger|
        invariant credits == CreditsPosted(ledger[..k], account)
        invariant debits == DebitsPosted(ledger[..k], account)
      {
        assert ledger[..k + 1][..k] == ledger[..k];
        credits := credits + CreditedTo(ledger[k], account);
        debits := debits + DebitedFrom(ledger[k], account);
      }
      assert ledger[..|ledger|] == ledger;
      available := if credits - debits < 0 then None else Some(credits - debits);
    }

    // ---- Top-up intents ----

    method StartTopup(reference: string, tenant: Tenant, amount: nat)
      requires Sound(View()) && Enabled(View(), Action.StartTopup(reference, tenant, amount))
      modifies this`intents
      ensures Sound(View()) && View() == Exec(old(View()), Action.StartTopup(reference, tenant, amount))
      ensures !HasId(ledger, TopupKey(reference)) && !Settleable(View(), reference)
    {
      SoundStep(View(), Action.StartTopup(reference, tenant, amount));
      StartOutcome(View(), reference, tenant, amount);
      intents := intents[reference := Intent(tenant, amount, NGN, Initializing, now + INTENT_TTL_MS)];
    }

    /** The provider's answer to the initialization decides between pending and failed, but only for
        an intent that is still initializing. */
    method FinishInitialization(reference: string, ok: bool)
      requires Sound(View()) && Enabled(View(), Initialized(reference, ok))
      modifies this`intents
      ensures Sound(View()) && View() == Exec(old(View()), Initialized(reference, ok))
      ensures Settleable(old(View()), reference) ==> Settleable(View(), reference)
      ensures Payable(View(), reference) <==>
                Payable(old(View()), reference) || (ok && old(intents)[reference].status.Initializing?)
    {
      SoundStep(View(), Initialized(reference, ok));
      InitializationOutcome(View(), reference, ok, reference);
      InitializedOutcome(View(), reference, ok);
      var intent := intents[reference];
      if intent.status.Initializing? {
        intents := intents[reference := intent.(status := if ok then Pending else Failed)];
      }
    }

    // ---- Settlement ----

    method ReadIntent(i: nat)
      requires Sound(View()) && Enabled(View(), DoReadIntent(i))
      modifies this`calls
      ensures Sound(View()) && View() == Exec(old(View()), DoReadIntent(i))
      ensures var reference := old(calls[i].pc.reference);
              && (calls[i].pc.Verify? <==> Payable(View(), reference) && now <= intents[reference].expiresAt)
              && (calls[i].pc.Returned? <==> IsCredited(View(), reference))
              && (calls[i].pc.Returned? ==> TopupOf(View(), reference) in ledger)
              && (calls[i].pc.Threw? ==> calls[i].pc.code in {NotFound, Precondition})
    {
      SoundStep(View(), DoReadIntent(i));
      ReadOutcome(View(), i, calls[i].pc.reference);
      var reference := calls[i].pc.reference;
      var next := Threw(NotFound);
      if reference in intents {
        var intent := intents[reference];
        if intent.status.Credited? {
          next := Returned(SettledReply(reference, true));
        } else if !intent.status.Pending? && !intent.status.Verified? {
          next := Threw(Precondition);
        } else if intent.expiresAt < now {
          next := Threw(Precondition);
        } else {
          next := Verify(reference, intent);
        }
      }
      GoTo(i, next);
    }

    method VerifyPayment(i: nat)
      requires Sound(View()) && Enabled(View(), DoVerify(i))
      modifies this`calls
      ensures Sound(View()) && View() == Exec(old(View()), DoVerify(i))
      ensures var reference := old(calls[i].pc.reference);
              if Confirmed(View(), reference) then calls[i].pc == Post(TopupOf(View(), reference))
              else calls[i].pc == Threw(Precondition)
    {
      SoundStep(View(), DoVerify(i));
      VerifyOutcome(View(), i, calls[i].pc.reference, calls[i].pc.snapshot);
      var reference, snapshot := calls[i].pc.reference, calls[i].pc.snapshot;
      var next := Threw(Precondition);
      if reference in payments {
        var payment := payments[reference];
        if payment.amount > 0 && payment.currency.NGN? && payment.amount == snapshot.amount
           && payment.currency == snapshot.currency {
          next := Post(Topup(reference, snapshot.tenant, snapshot.amount));
        }
      }
      GoTo(i, next);
    }

    /** Sends the transfer of any call; what becomes of the request is up to the network. */
    method PostTransfer(i: nat)
      requires Sound(View()) && Enabled(View(), DoPost(i))
      modifies this`calls
      ensures Sound(View()) && View() == Exec(old(View()), DoPost(i))
      ensures var t := old(calls[i].pc.t);
              && (t.Topup? ==> Settleable(View(), t.reference) && Confirmed(View(), t.reference))
              && (t.InvestigationDebit? ==> t.Id() in claims && claims[t.Id()].owner == i && !HasId(ledger, t.Id()))
    {
      SoundStep(View(), DoPost(i));
      PostOutcome(View(), i, i);
      Send(i);
    }

    method Send(i: nat)
      requires i < |calls| && calls[i].pc.Post?
      modifies this`calls
      ensures var c := old(calls)[i];
              calls == old(calls)[i := c.(pc := Await(c.pc.t), wire := Flying(c.pc.t))]
    {
      var t := calls[i].pc.t;
      calls := calls[i := calls[i].(pc := Await(t), wire := Flying(t))];
    }

    /** Compare-and-set of the intent once the ledger accepted the transfer. */
    method CompleteSettlement(i: nat)
      requires Sound(View()) && Enabled(View(), DoComplete(i))
      modifies this`intents, this`calls
      ensures Sound(View()) && View() == Exec(old(View()), DoComplete(i))
      ensures var t := old(calls[i].pc.t);
              && IsCredited(View(), t.reference) && t in ledger && TopupOf(View(), t.reference) == t
              && (calls[i].pc.Threw? <==> IsCredited(old(View()), t.reference))
    {
      SoundStep(View(), DoComplete(i));
      CompleteOutcome(View(), i, calls[i].pc.t);
      MarkCredited(i);
    }

    method MarkCredited(i: nat)
      requires Enabled(View(), DoComplete(i))
      modifies this`intents, this`calls
      ensures View() == Exec(old(View()), DoComplete(i))
    {
      var t := calls[i].pc.t;
      var updated := 0;
      if t.reference in intents {
        var intent := intents[t.reference];
        if intent.status.Pending? || intent.status.Verified? {
          intents := intents[t.reference := intent.(status := Credited)];
          updated := 1;
        }
      }
      GoTo(i, if updated == 1 then PrepaidLedger.RecordTopup(t) else Threw(Unavailable));
    }

    method RecordTopup(i: nat)
      requires Sound(View()) && Enabled(View(), DoRecordTopup(i))
      modifies this`topups, this`calls
      ensures Sound(View()) && View() == Exec(old(View()), DoRecordTopup(i))
      ensures var reference := old(calls[i].pc.t.reference);
              && IsCredited(View(), reference) && TopupOf(View(), reference) in ledger && reference in topups
              && topups[reference]
                 == TopupRow(intents[reference].tenant, intents[reference].amount, TopupKey(reference))
    {
      SoundStep(View(), DoRecordTopup(i));
      RecordOutcome(View(), i, calls[i].pc.t);
      UpsertRow(i);
    }

    method UpsertRow(i: nat)
      requires Enabled(View(), DoRecordTopup(i))
      modifies this`topups, this`calls
      ensures View() == Exec(old(View()), DoRecordTopup(i))
    {
      var t := calls[i].pc.t;
      if t.reference in topups {
        topups := topups[t.reference := topups[t.reference].(transferId := t.Id())];
      } else {
        topups := topups[t.reference := TopupRow(t.tenant, t.amount, t.Id())];
      }
      GoTo(i, Returned(SettledReply(t.reference, false)));
    }

    // ---- Webhook queue ----

    /** Stores an event unless the same payload is stored already. */
    method StoreWebhook(body: string, eventType: EventType, reference: Option<string>) returns (duplicate: bool)
      requires Sound(View())
      modifies this`hooks
      ensures Sound(View()) && View() == Exec(old(View()), RecordWebhook(body, eventType, reference))
      ensures duplicate <==> View() == old(View())
      ensures body in hooks
    {
      SoundStep(View(), RecordWebhook(body, eventType, reference));
      duplicate := body in hooks;
      if !duplicate {
        hooks := hooks[body := Hook(eventType, reference, Received, 0, None)];
      }
    }

    /** `reference` is any reference: the delivery settles it exactly if the event asks for it. */
    method BeginDelivery(i: nat, ghost reference: string)
      requires Sound(View()) && Enabled(View(), BeginWebhook(i))
      modifies this`hooks, this`calls
      ensures Sound(View()) && |calls| == |old(calls)| && View() == Exec(old(View()), BeginWebhook(i))
      ensures var body := calls[i].job.body;
              var due := DueIn(old(hooks), body);
              && (calls[i].pc == PrepaidLedger.ReadIntent(reference) <==> due && AsksFor(old(hooks), body, reference))
              && (calls[i].pc == Returned(NothingToSettle) <==> due && AsksNothing(old(hooks), body))
              && (!due ==> calls[i].pc.Finished? || calls[i].pc.Stopped?)
    {
      SoundStep(View(), BeginWebhook(i));
      BeginOutcome(View(), i, reference);
      if !DueIn(hooks, calls[i].job.body) {
        TurnedAwayOutcome(View(), i);
      }
      OpenDelivery(i);
    }

    method OpenDelivery(i: nat)
      requires Enabled(View(), BeginWebhook(i))
      modifies this`hooks, this`calls
      ensures View() == Exec(old(View()), BeginWebhook(i))
    {
      var body := calls[i].job.body;
      if body !in hooks {
        GoTo(i, Stopped);
        return;
      }
      var hook := hooks[body];
      if hook.status.Processed? {
        GoTo(i, Finished);
      } else if hook.attempts >= MAX_WEBHOOK_ATTEMPTS {
        hooks := hooks[body := hook.(status := TerminalFailure)];
        GoTo(i, Finished);
      } else {
        hooks := hooks[body := hook.(status := Processing, attempts := hook.attempts + 1)];
        GoTo(i, if NeedsSettlement(hook) then PrepaidLedger.ReadIntent(hook.reference.value)
                else Returned(NothingToSettle));
      }
    }

    method FinishDelivery(i: nat, ghost reference: string)
      requires Sound(View()) && Enabled(View(), FinishWebhook(i))
      modifies this`hooks, this`calls
      ensures Sound(View()) && View() == Exec(old(View()), FinishWebhook(i))
      ensures var body := calls[i].job.body;
              && (hooks[body].status.Processed? <==> old(calls[i].pc.Returned?))
              && (hooks[body].status.RetryableFailure? <==> old(calls[i].pc) == Threw(Unavailable))
              && (hooks[body].status.RetryableFailure? ==> hooks[body].nextAttemptAt == Some(now + 5 * 60 * 1000))
              && (hooks[body].status.Processed? && AsksFor(hooks, body, reference) ==>
                    IsCredited(View(), reference) && TopupOf(View(), reference) in ledger)
    {
      SoundStep(View(), FinishWebhook(i));
      FinishOutcome(View(), i, reference);
      CloseEvent(i);
    }

    method CloseEvent(i: nat)
      requires Enabled(View(), FinishWebhook(i))
      modifies this`hooks, this`calls
      ensures View() == Exec(old(View()), FinishWebhook(i))
    {
      var body, pc := calls[i].job.body, calls[i].pc;
      var hook := hooks[body];
      if pc.Returned? {
        hook := hook.(status := Processed);
      } else if pc.code.Unavailable? {
        hook := hook.(status := RetryableFailure, nextAttemptAt := Some(now + RETRY_DELAY_MS));
      } else {
        hook := hook.(status := TerminalFailure, nextAttemptAt := None);
      }
      hooks := hooks[body := hook];
      GoTo(i, Finished);
    }

    // ---- Debits ----

    method ClaimDebit(i: nat)
      requires Sound(View()) && Enabled(View(), DoClaim(i))
      modifies this`claims, this`calls
      ensures Sound(View()) && View() == Exec(old(View()), DoClaim(i))
      ensures var t := old(calls[i].pc.t);
              && t.Id() in claims
              && (calls[i].pc == PrepaidLedger.CheckBalance(t) <==> t.Id() !in old(claims))
              && (t.Id() !in old(claims) ==> claims[t.Id()].owner == i && !HasId(ledger, t.Id()))
    {
      SoundStep(View(), DoClaim(i));
      ClaimOutcome(View(), i, calls[i].pc.t, i);
      InsertClaim(i);
    }

    method InsertClaim(i: nat)
      requires Enabled(View(), DoClaim(i))
      modifies this`claims, this`calls
      ensures View() == Exec(old(View()), DoClaim(i))
    {
      var t := calls[i].pc.t;
      if t.Id() in claims {
        GoTo(i, LookUp(t));
      } else {
        claims := claims[t.Id() := Claim(calls[i].job.scope, false, i)];
        GoTo(i, PrepaidLedger.CheckBalance(t));
      }
    }

    method LookUpClaim(i: nat)
      requires Sound(View()) && Enabled(View(), DoLookUp(i))
      modifies this`calls
      ensures Sound(View()) && View() == Exec(old(View()), DoLookUp(i))
      ensures var t := old(calls[i].pc.t);
              && (t.Id() in claims ==> calls[i].pc == Returned(DebitReply(claims[t.Id()].reconciled, true)))
              && (t.Id() !in claims ==> calls[i].pc == Threw(Conflict))
              && (calls[i].pc == Returned(DebitReply(true, true)) ==> t in ledger)
    {
      SoundStep(View(), DoLookUp(i));
      LookUpOutcome(View(), i, calls[i].pc.t);
      var id := calls[i].pc.t.Id();
      if id in claims {
        GoTo(i, Returned(DebitReply(claims[id].reconciled, true)));
      } else {
        GoTo(i, Threw(Conflict));
      }
    }

    /** The balance precondition of both kinds of debit: an investigation needs the price of its tier. */
    method CheckBalance(i: nat)
      requires Sound(View()) && Enabled(View(), DoCheckBalance(i))
      modifies this`calls
      ensures Sound(View()) && View() == Exec(old(View()), DoCheckBalance(i))
      ensures var t := old(calls[i].pc.t);
              var available := Available(ledger, t.DebitAccount());
              && (t.InvestigationDebit? && TierAmount(t.tier) <= available ==> calls[i].pc == PrepaidLedger.Post(t))
              && (t.InvestigationDebit? && 0 <= available < TierAmount(t.tier) ==> calls[i].pc == Release(t))
              && (t.AssessmentDebit? && t.charge <= available ==> calls[i].pc == PrepaidLedger.Post(t))
              && (t.AssessmentDebit? && 0 <= available < t.charge ==> calls[i].pc == Threw(InsufficientFunds))
              && (available < 0 ==> calls[i].pc == Threw(Unavailable))
    {
      SoundStep(View(), DoCheckBalance(i));
      var t := calls[i].pc.t;
      CheckedOutcome(View(), i);
      var available := AvailableBalance(t.DebitAccount());
      var next := PrepaidLedger.Post(t);
      if available.None? {
        next := Threw(Unavailable);
      } else if t.Amount() > available.value {
        next := if t.InvestigationDebit? then Release(t) else Threw(InsufficientFunds);
      }
      GoTo(i, next);
    }

    /** Deletes the row matching both the identifier and the caller's tenant; null matches nothing. */
    method ReleaseClaim(i: nat)
      requires Sound(View()) && Enabled(View(), DoRelease(i))
      modifies this`claims, this`calls
      ensures Sound(View()) && View() == Exec(old(View()), DoRelease(i))
      ensures var id := old(calls[i].pc.t.Id());
              && i < |calls| && calls[i] == old(calls)[i].(pc := Threw(InsufficientFunds)) && !HasId(ledger, id)
              && id in old(claims) && claims == if calls[i].job.scope.Some? then old(claims) - {id} else old(claims)
    {
      SoundStep(View(), DoRelease(i));
      SoundRelease(View(), i);
      RemoveClaim(i);
    }

    method RemoveClaim(i: nat)
      requires Enabled(View(), DoRelease(i))
      modifies this`claims, this`calls
      ensures View() == Exec(old(View()), DoRelease(i))
    {
      var id, scope := calls[i].pc.t.Id(), calls[i].job.scope;
      if scope.Some? && id in claims && claims[id].scope == scope {
        claims := claims - {id};
      }
      GoTo(i, Threw(InsufficientFunds));
    }

    method ReconcileDebit(i: nat)
      requires Sound(View()) && Enabled(View(), DoReconcile(i))
      modifies this`claims, this`calls
      ensures Sound(View()) && View() == Exec(old(View()), DoReconcile(i))
      ensures var t := old(calls[i].pc.t);
              && calls[i].pc == Returned(DebitReply(true, false)) && t in ledger
              && t.Id() in claims && claims[t.Id()].reconciled
    {
      SoundStep(View(), DoReconcile(i));
      ReconcileOutcome(View(), i, calls[i].pc.t);
      MarkReconciled(i);
    }

    method MarkReconciled(i: nat)
      requires Enabled(View(), DoReconcile(i))
      modifies this`claims, this`calls
      ensures View() == Exec(old(View()), DoReconcile(i))
    {
      var id := calls[i].pc.t.Id();
      if id in claims {
        claims := claims[id := claims[id].(reconciled := true)];
        GoTo(i, Returned(DebitReply(true, false)));
      } else {
        GoTo(i, Threw(Unavailable));
      }
    }

    // ---- The network, and one whole settlement ----

    method Receive(job: Job) returns (i: nat)
      requires Sound(View())
      modifies this`calls
      ensures Sound(View()) && i == |old(calls)| && calls == old(calls) + [Call(job, FirstPc(job), Idle)]
    {
      SoundStep(View(), Spawn(job));
      i := |calls|;
      calls := calls + [Call(job, FirstPc(job), Idle)];
    }

    /** The ledger applies the request that is on its way. */
    method ApplyRequest(i: nat)
      requires Sound(View()) && Enabled(View(), Deliver(i))
      modifies this`ledger, this`calls
      ensures Sound(View()) && View() == Exec(old(View()), Deliver(i))
    {
      SoundStep(View(), Deliver(i));
      var t := calls[i].wire.t;
      ledger := ApplyTransfer(ledger, t);
      calls := calls[i := calls[i].(wire := Delivered(t))];
    }

    method Acknowledged(i: nat)
      requires Sound(View()) && Enabled(View(), Acknowledge(i))
      modifies this`calls
      ensures Sound(View()) && View() == Exec(old(View()), Acknowledge(i))
    {
      SoundStep(View(), Acknowledge(i));
      GoTo(i, AfterAcknowledge(calls[i].pc.t));
    }

    /** Payable, not expired and confirmed by the provider. */
    ghost predicate Settles(reference: string)
      reads this
    {
      Payable(View(), reference) && now <= intents[reference].expiresAt && Confirmed(View(), reference)
    }

    /** A settlement from its locked read to its answer, undisturbed. It succeeds exactly if the intent
        is credited already, or is payable, not expired and confirmed by the provider. */
    method SettlePayment(reference: string) returns (settled: bool)
      requires Sound(View())
      modifies this
      ensures Sound(View()) && intents.Keys == old(intents).Keys
      ensures settled <==> old(IsCredited(View(), reference) || Settles(reference))
      ensures settled ==> IsCredited(View(), reference) && TopupOf(View(), reference) in ledger
      ensures settled && !old(IsCredited(View(), reference)) ==> reference in topups
      ensures !settled ==> intents == old(intents) && ledger == old(ledger)
    {
      var i := Receive(SettleJob(reference));
      settled := Settle(i, reference);
    }

    // ---- One whole delivery ----

    ghost predicate Delivering(i: nat, body: string)
      reads this`calls, this`hooks
    {
      i < |calls| && calls[i].job == WebhookJob(body) && body in hooks
    }

    /** A delivery attempt from its start to its end, undisturbed. It processes a charge.success event with a
        reference exactly if that payment settles, and any other event at once; a refusal is final. */
    method ProcessEvent(body: string, ghost reference: string)
      requires Sound(View())
      modifies this
      ensures Sound(View()) && hooks.Keys == old(hooks).Keys
      ensures old(body in hooks && hooks[body].status.Processed?) ==> hooks == old(hooks) && ledger == old(ledger)
      ensures old(body in hooks && !hooks[body].status.Processed? && hooks[body].attempts >= 10) ==>
                hooks[body].status.TerminalFailure? && ledger == old(ledger)
      ensures old(DueIn(hooks, body) && AsksFor(hooks, body, reference)) ==>
                && (hooks[body].status.Processed? <==> old(IsCredited(View(), reference) || Settles(reference)))
                && (hooks[body].status.Processed? ==>
                      IsCredited(View(), reference) && TopupOf(View(), reference) in ledger)
                && (!hooks[body].status.Processed? ==> hooks[body].status.TerminalFailure? && ledger == old(ledger))
      ensures old(DueIn(hooks, body) && AsksNothing(hooks, body)) ==>
                hooks[body].status.Processed? && ledger == old(ledger)
    {
      var i := Receive(WebhookJob(body));
      StartDelivery(i, body, reference);
      if calls[i].pc.ReadIntent? {
        SettleEvent(i, body, calls[i].pc.reference);
      } else if calls[i].pc.Returned? {
        EndDelivery(i, body, true);
      }
    }

    method SettleEvent(i: nat, body: string, reference: string)
      requires Sound(View()) && Delivering(i, body) && calls[i].pc == PrepaidLedger.ReadIntent(reference)
      modifies this`intents, this`topups, this`ledger, this`hooks, this`calls
      ensures Sound(View()) && hooks.Keys == old(hooks).Keys
      ensures old(IsCredited(View(), reference) || Settles(reference)) ==>
                hooks[body].status.Processed? && IsCredited(View(), reference) && TopupOf(View(), reference) in ledger
      ensures old(!IsCredited(View(), reference) && !Settles(reference)) ==>
                hooks[body].status.TerminalFailure? && ledger == old(ledger)
    {
      var settled := Settle(i, reference);
      EndDelivery(i, body, settled);
    }

    method StartDelivery(i: nat, body: string, ghost reference: string)
      requires Sound(View()) && i < |calls| && calls[i].job == WebhookJob(body) && calls[i].pc.Begin?
      modifies this`hooks, this`calls
      ensures Sound(View()) && hooks.Keys == old(hooks).Keys && i < |calls| && calls[i].job == WebhookJob(body)
      ensures old(DueIn(hooks, body) && AsksFor(hooks, body, reference)) ==>
                calls[i].pc == PrepaidLedger.ReadIntent(reference)
      ensures old(DueIn(hooks, body) && AsksNothing(hooks, body)) ==> calls[i].pc.Returned?
      ensures calls[i].pc.ReadIntent? || calls[i].pc.Returned? ==> old(DueIn(hooks, body))
      ensures old(body in hooks && hooks[body].status.Processed?) ==> hooks == old(hooks)
      ensures old(body in hooks && !hooks[body].status.Processed? && hooks[body].attempts >= 10) ==>
                hooks[body].status.TerminalFailure?
    {
      BeginDelivery(i, reference);
    }

    /** The answer of a delivery's call decides what becomes of the event. */
    method EndDelivery(i: nat, body: string, done: bool)
      requires Sound(View()) && Delivering(i, body) && Answered(i, done)
      modifies this`hooks, this`calls
      ensures Sound(View()) && hooks.Keys == old(hooks).Keys
      ensures hooks[body].status == if done then Processed else TerminalFailure
    {
      FinishDelivery(i, "");
    }

    // ---- One whole debit ----

    /** A debit from its checks to its answer, undisturbed: what it answers, what it takes from the tenant and
        what becomes of its claim. */
    method RecordDebit(tenant: string, investigation: string, tier: Tier, amount: Option<nat>, scope: Option<string>)
      returns (answer: Pc)
      requires Sound(View())
      modifies this`claims, this`ledger, this`calls
      ensures Sound(View())
      ensures !CanonicalTenant(tenant) ==> answer == Threw(BadRequest)
      ensures CanonicalTenant(tenant) && !Admitted(DebitJob(tenant, investigation, tier, amount, scope)) ==>
                answer == Threw(Forbidden)
      ensures !Admitted(DebitJob(tenant, investigation, tier, amount, scope)) ==>
                claims == old(claims) && ledger == old(ledger)
      ensures Admitted(DebitJob(tenant, investigation, tier, amount, scope)) ==>
                var t := InvestigationDebit(tenant, investigation, tier);
                if t.Id() in old(claims)
                then answer == Returned(DebitReply(old(claims)[t.Id()].reconciled, true))
                     && claims == old(claims) && ledger == old(ledger)
                else Charged(old(claims), old(ledger), claims, ledger, t, scope, |old(calls)|, answer)
    {
      var i := Receive(DebitJob(tenant, investigation, tier, amount, scope));
      if calls[i].pc.ClaimKey? {
        answer := Charge(i, InvestigationDebit(tenant, investigation, tier));
      } else {
        answer := calls[i].pc;
      }
    }

    /** The debit of a call that has passed its checks. */
    method Charge(i: nat, t: Transfer) returns (answer: Pc)
      requires Sound(View()) && Debiting(i, t, ClaimKey(t))
      modifies this`claims, this`ledger, this`calls
      ensures Sound(View())
      ensures if t.Id() in old(claims)
              then answer == Returned(DebitReply(old(claims)[t.Id()].reconciled, true))
                   && claims == old(claims) && ledger == old(ledger)
              else Charged(old(claims), old(ledger), claims, ledger, t, old(calls)[i].job.scope, i, answer)
    {
      var won := TakeClaim(i, t);
      if won {
        ghost var scope := calls[i].job.scope;
        answer := ChargeClaimed(i, t);
        FirstCharge(old(claims), old(ledger), claims, ledger, t, scope, i, answer);
      } else {
        answer := AnswerClaim(i, t);
      }
    }

    /** A debit call is at this point. */
    ghost predicate Debiting(i: nat, t: Transfer, pc: Pc)
      reads this`calls
    {
      i < |calls| && calls[i].pc == pc && calls[i].job.DebitJob? && t.InvestigationDebit?
    }

    method TakeClaim(i: nat, t: Transfer) returns (won: bool)
      requires Sound(View()) && Debiting(i, t, ClaimKey(t))
      modifies this`claims, this`calls
      ensures Sound(View()) && won == (t.Id() !in old(claims))
      ensures Debiting(i, t, if won then PrepaidLedger.CheckBalance(t) else LookUp(t))
      ensures calls[i].job == old(calls)[i].job
      ensures claims == if won then old(claims)[t.Id() := Claim(old(calls)[i].job.scope, false, i)] else old(claims)
    {
      won := t.Id() !in claims;
      ClaimDebit(i);
    }

    method AnswerClaim(i: nat, t: Transfer) returns (answer: Pc)
      requires Sound(View()) && Debiting(i, t, LookUp(t)) && t.Id() in claims
      modifies this`calls
      ensures Sound(View()) && answer == Returned(DebitReply(claims[t.Id()].reconciled, true))
    {
      LookUpClaim(i);
      answer := calls[i].pc;
    }

    /** From the balance check on; the claim is the caller's. */
    method ChargeClaimed(i: nat, t: Transfer) returns (answer: Pc)
      requires Sound(View()) && Debiting(i, t, PrepaidLedger.CheckBalance(t)) && t.Id() in claims
      modifies this`claims, this`ledger, this`calls
      ensures Sound(View())
      ensures ChargedClaimed(old(claims), old(ledger), claims, ledger, t, old(calls)[i].job.scope, answer)
    {
      answer := CheckFunds(i, t);
      if answer.Release? {
        GiveUp(i, t);
        answer := Threw(InsufficientFunds);
      } else if answer.Post? {
        SendDebit(i, t);
        answer := Returned(DebitReply(true, false));
      }
    }

    method SendDebit(i: nat, t: Transfer)
      requires Sound(View()) && Debiting(i, t, PrepaidLedger.Post(t)) && t.Id() in claims
      modifies this`claims, this`ledger, this`calls
      ensures Sound(View()) && Debiting(i, t, Returned(DebitReply(true, false))) && ledger == old(ledger) + [t]
      ensures claims == old(claims)[t.Id() := old(claims)[t.Id()].(reconciled := true)]
    {
      SendAndApply(i, t);
      Settled(i, t);
    }

    method CheckFunds(i: nat, t: Transfer) returns (next: Pc)
      requires Sound(View()) && Debiting(i, t, PrepaidLedger.CheckBalance(t))
      modifies this`calls
      ensures Sound(View()) && Debiting(i, t, next) && calls[i].job == old(calls)[i].job
      ensures var available := Available(ledger, TenantAccount(t.tenant));
              next == if TierAmount(t.tier) <= available then PrepaidLedger.Post(t)
                      else if 0 <= available then Release(t) else Threw(Unavailable)
    {
      CheckBalance(i);
      next := calls[i].pc;
    }

    method GiveUp(i: nat, t: Transfer)
      requires Sound(View()) && Debiting(i, t, Release(t))
      modifies this`claims, this`calls
      ensures Sound(View()) && Debiting(i, t, Threw(InsufficientFunds))
      ensures claims == if old(calls)[i].job.scope.Some? then old(claims) - {t.Id()} else old(claims)
    {
      ReleaseClaim(i);
    }

    /** The transfer is sent and applied. */
    method SendAndApply(i: nat, t: Transfer)
      requires Sound(View()) && Debiting(i, t, PrepaidLedger.Post(t))
      modifies this`ledger, this`calls
      ensures Sound(View()) && Debiting(i, t, Await(t)) && calls[i].wire == Delivered(t)
      ensures ledger == old(ledger) + [t]
    {
      Sent(i, t);
      Landed(i, t);
    }

    method Landed(i: nat, t: Transfer)
      requires Sound(View()) && Debiting(i, t, Await(t)) && calls[i].wire == Flying(t) && !HasId(ledger, t.Id())
      modifies this`ledger, this`calls
      ensures Sound(View()) && Debiting(i, t, Await(t)) && calls[i].wire == Delivered(t)
      ensures ledger == old(ledger) + [t]
    {
      ApplyRequest(i);
    }

    method Sent(i: nat, t: Transfer)
      requires Sound(View()) && Debiting(i, t, PrepaidLedger.Post(t))
      modifies this`calls
      ensures Sound(View()) && Debiting(i, t, Await(t)) && calls[i].wire == Flying(t)
      ensures !HasId(ledger, t.Id())
    {
      PostTransfer(i);
    }

    method Settled(i: nat, t: Transfer)
      requires Sound(View()) && Debiting(i, t, Await(t)) && calls[i].wire == Delivered(t)
      modifies this`claims, this`calls
      ensures Sound(View()) && Debiting(i, t, Returned(DebitReply(true, false))) && t.Id() in old(claims)
      ensures claims == old(claims)[t.Id() := old(claims)[t.Id()].(reconciled := true)]
    {
      Acknowledged(i);
      Reconciled(i, t);
    }

    method Reconciled(i: nat, t: Transfer)
      requires Sound(View()) && Debiting(i, t, Reconcile(t))
      modifies this`claims, this`calls
      ensures Sound(View()) && Debiting(i, t, Returned(DebitReply(true, false))) && t.Id() in old(claims)
      ensures claims == old(claims)[t.Id() := old(claims)[t.Id()].(reconciled := true)]
    {
      ReconcileDebit(i);
    }

    /** The settlement of a call that has just arrived. */
    method Settle(i: nat, reference: string) returns (settled: bool)
      requires Sound(View()) && i < |calls| && calls[i].pc == PrepaidLedger.ReadIntent(reference)
      modifies this`intents, this`topups, this`ledger, this`calls
      ensures Sound(View()) && intents.Keys == old(intents).Keys
      ensures settled <==> old(IsCredited(View(), reference) || Settles(reference))
      ensures settled ==> IsCredited(View(), reference) && TopupOf(View(), reference) in ledger
      ensures settled && !old(IsCredited(View(), reference)) ==> reference in topups
      ensures !settled ==> intents == old(intents) && ledger == old(ledger)
      ensures Answered(i, settled) && calls[i].job == old(calls)[i].job
    {
      var ok := Check(i, reference);
      if !ok {
        return calls[i].pc.Returned?;
      }
      Pay(i, reference);
      return true;
    }

    /** The settlement of call i is over; a refusal is final. */
    ghost predicate Answered(i: nat, settled: bool)
      reads this`calls
    {
      i < |calls| && if settled then calls[i].pc.Returned? else calls[i].pc.Threw? && calls[i].pc.code != Unavailable
    }

    /** A settlement from its post to its answer. */
    method Pay(i: nat, reference: string)
      requires Sound(View()) && Payable(View(), reference)
      requires i < |calls| && calls[i].pc == Post(TopupOf(View(), reference))
      modifies this`intents, this`topups, this`ledger, this`calls
      ensures Sound(View()) && intents.Keys == old(intents).Keys
      ensures IsCredited(View(), reference) && TopupOf(View(), reference) in ledger && reference in topups
      ensures Answered(i, true) && calls[i].job == old(calls)[i].job
    {
      SendAndConfirm(i);
      Credit(i);
    }

    /** The read and the verification of a settlement. */
    method Check(i: nat, reference: string) returns (ok: bool)
      requires Sound(View()) && i < |calls| && calls[i].pc == PrepaidLedger.ReadIntent(reference)
      modifies this`calls
      ensures Sound(View()) && i < |calls|
      ensures ok <==> Settles(reference)
      ensures ok ==> calls[i].pc == Post(TopupOf(View(), reference))
      ensures !ok ==> (calls[i].pc.Returned? <==> IsCredited(View(), reference))
      ensures !ok ==> Answered(i, calls[i].pc.Returned?)
      ensures calls[i].job == old(calls)[i].job
      ensures IsCredited(View(), reference) ==> TopupOf(View(), reference) in ledger
    {
      ReadIntent(i);
      ok := calls[i].pc.Verify?;
      if ok {
        VerifyPayment(i);
        ok := calls[i].pc.Post?;
      }
    }

    method SendAndConfirm(i: nat)
      requires Sound(View()) && Enabled(View(), DoPost(i)) && calls[i].pc.t.Topup?
      modifies this`ledger, this`calls
      ensures Sound(View()) && i < |calls| && calls[i].pc == Complete(old(calls[i].pc.t))
      ensures calls[i].job == old(calls)[i].job
    {
      SoundStep(View(), DoPost(i));
      Send(i);
      Confirm(i);
    }

    method Confirm(i: nat)
      requires Sound(View()) && Enabled(View(), Deliver(i)) && calls[i].pc == Await(calls[i].wire.t)
      modifies this`ledger, this`calls
      ensures Sound(View()) && i < |calls| && calls[i].pc == AfterAcknowledge(old(calls[i].wire.t))
      ensures calls[i].job == old(calls)[i].job
    {
      ApplyRequest(i);
      Acknowledged(i);
    }

    method Credit(i: nat)
      requires Sound(View()) && Enabled(View(), DoComplete(i)) && Payable(View(), calls[i].pc.t.reference)
      modifies this`intents, this`topups, this`calls
      ensures Sound(View()) && intents.Keys == old(intents).Keys
      ensures var reference := old(calls[i].pc.t.reference);
              IsCredited(View(), reference) && TopupOf(View(), reference) in ledger && reference in topups
      ensures Answered(i, true) && calls[i].job == old(calls)[i].job
    {
      ghost var t := calls[i].pc.t;
      Completed(i, t);
      Recorded(i, t);
    }

    method Completed(i: nat, ghost t: Transfer)
      requires Sound(View()) && Enabled(View(), DoComplete(i)) && calls[i].pc == Complete(t)
      requires Payable(View(), t.reference)
      modifies this`intents, this`calls
      ensures Sound(View()) && intents.Keys == old(intents).Keys
      ensures i < |calls| && calls[i].pc == PrepaidLedger.RecordTopup(t) && calls[i].job == old(calls)[i].job
    {
      CompleteSettlement(i);
    }

    method Recorded(i: nat, ghost t: Transfer)
      requires Sound(View()) && i < |calls| && calls[i].pc == PrepaidLedger.RecordTopup(t) && t.Topup?
      modifies this`topups, this`calls
      ensures Sound(View()) && Answered(i, true) && calls[i].job == old(calls)[i].job
      ensures IsCredited(View(), t.reference) && TopupOf(View(), t.reference) in ledger && t.reference in topups
    {
      RecordTopup(i);
    }
  }

  lemma ChargedBalance(ledger: seq<Transfer>, t: Transfer)
    requires t.InvestigationDebit?
    ensures Available(ledger + [t], TenantAccount(t.tenant))
            == Available(ledger, TenantAccount(t.tenant)) - TierAmount(t.tier)
  {
    assert (ledger + [t])[..|ledger|] == ledger;
  }

  /** What a first debit leaves: it takes the price of its tier if the tenant has it, and its claim is then
      reconciled. Otherwise the ledger stays, and the claim goes exactly if the caller was tenant-scoped and
      the tenant had too little. */
  ghost predicate Charged(claims: map<TransferKey, Claim>, ledger: seq<Transfer>, claims': map<TransferKey, Claim>,
                          ledger': seq<Transfer>, t: Transfer, scope: Option<string>, i: nat, answer: Pc)
    requires t.InvestigationDebit?
  {
    var account, id := TenantAccount(t.tenant), t.Id();
    var available := Available(ledger, account);
    if TierAmount(t.tier) <= available then
      && answer == Returned(DebitReply(true, false)) && ledger' == ledger + [t]
      && Available(ledger', account) == available - TierAmount(t.tier)
      && claims' == claims[id := Claim(scope, true, i)]
    else if 0 <= available then
      && answer == Threw(InsufficientFunds) && ledger' == ledger
      && claims' == if scope.Some? then claims else claims[id := Claim(scope, false, i)]
    else answer == Threw(Unavailable) && ledger' == ledger && claims' == claims[id := Claim(scope, false, i)]
  }

  ghost predicate ChargedClaimed(claims: map<TransferKey, Claim>, ledger: seq<Transfer>,
                                 claims': map<TransferKey, Claim>, ledger': seq<Transfer>, t: Transfer,
                                 scope: Option<string>, answer: Pc)
    requires t.InvestigationDebit? && t.Id() in claims
  {
    var available := Available(ledger, TenantAccount(t.tenant));
    if TierAmount(t.tier) <= available then
      && answer == Returned(DebitReply(true, false)) && ledger' == ledger + [t]
      && claims' == claims[t.Id() := claims[t.Id()].(reconciled := true)]
    else if 0 <= available then
      && answer == Threw(InsufficientFunds) && ledger' == ledger
      && claims' == if scope.Some? then claims - {t.Id()} else claims
    else answer == Threw(Unavailable) && ledger' == ledger && claims' == claims
  }

  lemma FirstCharge(claims: map<TransferKey, Claim>, ledger: seq<Transfer>, claims': map<TransferKey, Claim>,
                    ledger': seq<Transfer>, t: Transfer, scope: Option<string>, i: nat, answer: Pc)
    requires t.InvestigationDebit? && t.Id() !in claims
    requires ChargedClaimed(claims[t.Id() := Claim(scope, false, i)], ledger, claims', ledger', t, scope, answer)
    ensures Charged(claims, ledger, claims', ledger', t, scope, i, answer)
  {
    var claimed := claims[t.Id() := Claim(scope, false, i)];
    assert claimed - {t.Id()} == claims;
    assert claimed[t.Id() := Claim(scope, true, i)] == claims[t.Id() := Claim(scope, true, i)];
    ChargedBalance(ledger, t);
  }

  lemma CheckedOutcome(s: State, i: nat)
    requires Sound(s) && Enabled(s, DoCheckBalance(i))
    ensures var pc, t := Exec(s, DoCheckBalance(i)).calls[i].pc, s.calls[i].pc.t;
            var available := Available(s.ledger, t.DebitAccount());
            && (t.InvestigationDebit? && TierAmount(t.tier) <= available ==> pc == Post(t))
            && (t.InvestigationDebit? && 0 <= available < TierAmount(t.tier) ==> pc == Release(t))
            && (t.AssessmentDebit? && t.charge <= available ==> pc == Post(t))
            && (t.AssessmentDebit? && 0 <= available < t.charge ==> pc == Threw(InsufficientFunds))
            && (available < 0 ==> pc == Threw(Unavailable))
  {
    match s.calls[i].pc.t
    case InvestigationDebit(tenant, investigation, tier) => CheckOutcome(s, i, tenant, investigation, tier);
    case AssessmentDebit(tenant, event, charge) => AssessmentOutcome(s, i, tenant, event, charge);
    case Topup(_, _, _) => assert CallOk(s, i);
  }

  lemma SoundRelease(s: State, i: nat)
    requires Sound(s) && Enabled(s, DoRelease(i))
    ensures var id, s' := s.calls[i].pc.t.Id(), Exec(s, DoRelease(i));
            && s'.calls == s.calls[i := s.calls[i].(pc := Threw(InsufficientFunds))] && !HasId(s.ledger, id)
            && id in s.claims && s'.claims == if s.calls[i].job.scope.Some? then s.claims - {id} else s.claims
  {
    NothingPosted(s, i);
  }
}
