/** What every step of the prepaid-credit protocol keeps. */
module PrepaidInvariants {
  import opened Common
  import opened TransferIds
  import opened PrepaidLedger

  // ---- Building runs ----

  /** The call a step acts on, if any. */
  function ActsOn(a: Action): Option<nat> {
    match a
    case StartTopup(_, _, _) => None
    case Initialized(_, _) => None
    case ConfirmPayment(_, _) => None
    case RecordWebhook(_, _, _) => None
    case Tick(_) => None
    case Spawn(_) => None
    case _ => Some(a.i)
  }

  lemma RunStep(s: State, actions: seq<Action>, m: State, s': State)
    requires actions != [] && Enabled(s, actions[0]) && m == Exec(s, actions[0]) && IsRun(m, actions[1..], s')
    ensures IsRun(s, actions, s')
  {
  }

  lemma RunOfTwo(s: State, a: Action, m: State, b: Action, s': State)
    requires Enabled(s, a) && m == Exec(s, a) && Enabled(m, b) && s' == Exec(m, b)
    ensures IsRun(s, [a, b], s')
  {
    assert [a, b][1..] == [b] && [b][1..] == [];
    assert IsRun(s', [], s');
    RunStep(m, [b], s', s');
    RunStep(s, [a, b], m, s');
  }

  lemma {:induction false} RunConcat(s: State, a: seq<Action>, m: State, b: seq<Action>, s': State)
    requires IsRun(s, a, m) && IsRun(m, b, s')
    ensures IsRun(s, a + b, s')
    decreases |a|
  {
    var c := a + b;
    if a == [] {
      assert c == b;
    } else {
      var s1, rest := Exec(s, a[0]), a[1..];
      RunConcat(s1, rest, m, b, s');
      assert c[0] == a[0] && c[1..] == rest + b;
    }
  }

  // ---- What a step can never undo ----

  ghost predicate SameTerms(a: Intent, b: Intent) {
    a.tenant == b.tenant && a.amount == b.amount && a.currency == b.currency && a.expiresAt == b.expiresAt
  }

  /** Rows and ledger entries only accumulate: an intent keeps its terms and, once credited, its
      status; a confirmed payment, a stored event's content and a ledger entry are permanent. */
  ghost predicate Extends(s: State, s': State) {
    && (forall r :: r in s.intents ==>
          r in s'.intents && SameTerms(s.intents[r], s'.intents[r])
          && (s.intents[r].status.Credited? ==> s'.intents[r].status.Credited?))
    && (forall r :: r in s.payments ==> r in s'.payments && s'.payments[r] == s.payments[r])
    && (forall r :: r in s.topups ==> r in s'.topups && s'.topups[r].tenant == s.topups[r].tenant
                                      && s'.topups[r].amount == s.topups[r].amount)
    && (forall b :: b in s.hooks ==>
          b in s'.hooks && s'.hooks[b].eventType == s.hooks[b].eventType
          && s'.hooks[b].reference == s.hooks[b].reference && s.hooks[b].attempts <= s'.hooks[b].attempts)
    && s.ledger <= s'.ledger
    && |s.calls| <= |s'.calls|
    && (forall i :: 0 <= i < |s.calls| ==> s'.calls[i].job == s.calls[i].job)
    && s.now <= s'.now
  }

  /** A step that moves one call on and may rewrite the claim table. */
  lemma MoveExtends(s: State, claims: map<TransferKey, Claim>, i: nat, pc: Pc)
    requires i < |s.calls|
    ensures Extends(s, Goto(s.(claims := claims), i, pc))
  {
  }

  lemma HookExtends(s: State, body: string, h: Hook, i: nat, pc: Pc)
    requires i < |s.calls| && body in s.hooks
    requires h.eventType == s.hooks[body].eventType && h.reference == s.hooks[body].reference
    requires s.hooks[body].attempts <= h.attempts
    ensures Extends(s, Goto(s.(hooks := s.hooks[body := h]), i, pc))
  {
  }

  lemma CreditExtends(s: State, reference: string, i: nat, pc: Pc)
    requires i < |s.calls| && reference in s.intents
    ensures Extends(s, Goto(s.(intents := s.intents[reference := s.intents[reference].(status := Credited)]), i, pc))
  {
  }

  lemma TopupExtends(s: State, reference: string, row: TopupRow, i: nat, pc: Pc)
    requires i < |s.calls|
    requires reference in s.topups ==>
              row.tenant == s.topups[reference].tenant && row.amount == s.topups[reference].amount
    ensures Extends(s, Goto(s.(topups := s.topups[reference := row]), i, pc))
  {
  }

  lemma StartExtends(s: State, reference: string, intent: Intent)
    requires reference !in s.intents
    ensures Extends(s, s.(intents := s.intents[reference := intent]))
  {
  }

  lemma InitializedExtends(s: State, reference: string, ok: bool)
    requires Enabled(s, Initialized(reference, ok))
    ensures Extends(s, Exec(s, Initialized(reference, ok)))
  {
    var intent := s.intents[reference];
    var decided := intent.(status := if ok then Pending else Failed);
    StatusExtends(s, reference, if intent.status.Initializing? then decided else intent);
    assert s == s.(intents := s.intents[reference := intent]);
  }

  lemma StatusExtends(s: State, reference: string, intent: Intent)
    requires reference in s.intents && SameTerms(intent, s.intents[reference])
    requires s.intents[reference].status.Credited? ==> intent.status.Credited?
    ensures Extends(s, s.(intents := s.intents[reference := intent]))
  {
  }

  lemma OtherRowExtends(s: State, a: Action)
    requires Enabled(s, a) && (a.ConfirmPayment? || a.RecordWebhook? || a.Tick? || a.Spawn?)
    ensures Extends(s, Exec(s, a))
  {
  }

  lemma EnvironmentExtends(s: State, a: Action)
    requires Enabled(s, a) && ActsOn(a).None?
    ensures Extends(s, Exec(s, a))
  {
    match a
    case StartTopup(reference, tenant, amount) => StartExtends(s, reference, Exec(s, a).intents[reference]);
    case Initialized(reference, ok) => InitializedExtends(s, reference, ok);
    case _ => OtherRowExtends(s, a);
  }

  lemma SendExtends(s: State, i: nat)
    requires Enabled(s, DoPost(i))
    ensures Extends(s, SendTransfer(s, i))
  {
  }

  lemma DeliverExtends(s: State, i: nat)
    requires Enabled(s, Deliver(i))
    ensures Extends(s, DeliverTransfer(s, i))
  {
  }

  lemma LoseExtends(s: State, i: nat)
    requires i < |s.calls|
    ensures Extends(s, LoseTransfer(s, i))
  {
  }

  lemma BeginShape(s: State, i: nat)
    requires Enabled(s, BeginWebhook(i))
    ensures var s', body := BeginHook(s, i), s.calls[i].job.body;
            if body !in s.hooks || s.hooks[body].status.Processed? then s' == Goto(s, i, s'.calls[i].pc)
            else
              && body in s'.hooks
              && s' == Goto(s.(hooks := s.hooks[body := s'.hooks[body]]), i, s'.calls[i].pc)
              && s'.hooks[body].eventType == s.hooks[body].eventType
              && s'.hooks[body].reference == s.hooks[body].reference
              && s.hooks[body].attempts <= s'.hooks[body].attempts
  {
  }

  lemma BeginExtends(s: State, i: nat)
    requires Enabled(s, BeginWebhook(i))
    ensures Extends(s, BeginHook(s, i))
  {
    var s', body := BeginHook(s, i), s.calls[i].job.body;
    BeginShape(s, i);
    if body !in s.hooks || s.hooks[body].status.Processed? {
      MoveExtends(s, s.claims, i, s'.calls[i].pc);
    } else {
      HookExtends(s, body, s'.hooks[body], i, s'.calls[i].pc);
    }
  }

  lemma FinishExtends(s: State, i: nat)
    requires Enabled(s, FinishWebhook(i))
    ensures Extends(s, CloseHook(s, i))
  {
    var body := s.calls[i].job.body;
    HookExtends(s, body, CloseHook(s, i).hooks[body], i, Finished);
  }

  lemma CompleteExtends(s: State, i: nat)
    requires Enabled(s, DoComplete(i))
    ensures Extends(s, CompleteIntent(s, i))
  {
    var t := s.calls[i].pc.t;
    MoveExtends(s, s.claims, i, Threw(Unavailable));
    if t.reference in s.intents {
      CreditExtends(s, t.reference, i, RecordTopup(t));
    }
  }

  lemma RecordExtends(s: State, i: nat)
    requires Enabled(s, DoRecordTopup(i))
    ensures Extends(s, UpsertTopup(s, i))
  {
    var t := s.calls[i].pc.t;
    TopupExtends(s, t.reference, UpsertTopup(s, i).topups[t.reference], i, Returned(SettledReply(t.reference, false)));
  }

  /** The steps that only move a call on, possibly rewriting the claim table. */
  predicate OnlyMoves(a: Action) {
    PureMove(a) || a.DoClaim? || a.DoRelease? || a.DoReconcile?
  }

  lemma MoveShape(s: State, a: Action)
    requires Enabled(s, a) && OnlyMoves(a)
    ensures a.i < |s.calls|
    ensures Exec(s, a) == Goto(s.(claims := Exec(s, a).claims), a.i, Exec(s, a).calls[a.i].pc)
  {
  }

  /** Only a delivery changes the ledger. */
  lemma LedgerOnlyDelivered(s: State, a: Action)
    requires Enabled(s, a) && !a.Deliver?
    ensures Exec(s, a).ledger == s.ledger
  {
    if OnlyMoves(a) {
      MoveShape(s, a);
    }
  }

  lemma OnlyMovesExtends(s: State, a: Action)
    requires Enabled(s, a) && OnlyMoves(a)
    ensures Extends(s, Exec(s, a))
  {
    MoveShape(s, a);
    MoveExtends(s, Exec(s, a).claims, a.i, Exec(s, a).calls[a.i].pc);
  }

  lemma StepExtends(s: State, a: Action)
    requires Enabled(s, a)
    ensures Extends(s, Exec(s, a))
  {
    if OnlyMoves(a) {
      OnlyMovesExtends(s, a);
    } else {
      match a
      case BeginWebhook(i) => BeginExtends(s, i);
      case FinishWebhook(i) => FinishExtends(s, i);
      case DoComplete(i) => CompleteExtends(s, i);
      case DoRecordTopup(i) => RecordExtends(s, i);
      case DoPost(i) => SendExtends(s, i);
      case Deliver(i) => DeliverExtends(s, i);
      case Lose(i) => LoseExtends(s, i);
      case _ => EnvironmentExtends(s, a);
    }
  }

  /** A step leaves every call but the one it acts on as it was; only Spawn adds one. */
  lemma StepCalls(s: State, a: Action)
    requires Enabled(s, a)
    ensures ActsOn(a).Some? ==>
              (a.i < |s.calls| && |Exec(s, a).calls| == |s.calls|
               && Exec(s, a).calls == s.calls[a.i := Exec(s, a).calls[a.i]])
    ensures ActsOn(a).None? && !a.Spawn? ==> Exec(s, a).calls == s.calls
  {
    if OnlyMoves(a) {
      MoveShape(s, a);
    }
  }

  lemma {:induction false} RunExtends(s: State, actions: seq<Action>, s': State)
    requires IsRun(s, actions, s')
    ensures Extends(s, s')
    decreases |actions|
  {
    if actions != [] {
      var m := Exec(s, actions[0]);
      StepExtends(s, actions[0]);
      RunExtends(m, actions[1..], s');
      ExtendsTransitive(s, m, s');
    }
  }

  lemma ExtendsTransitive(a: State, b: State, c: State)
    requires Extends(a, b) && Extends(b, c)
    ensures Extends(a, c)
  {
    forall i | 0 <= i < |a.calls| ensures c.calls[i].job == a.calls[i].job {
      assert b.calls[i].job == a.calls[i].job;
    }
  }

  // ---- The invariant ----

  ghost predicate IsCredited(s: State, reference: string) {
    reference in s.intents && s.intents[reference].status.Credited?
  }

  /** The evidence a transfer rests on: for a top-up, a server-created intent with the same tenant
      and amount and a provider confirmation of the same amount and currency. */
  ghost predicate Warranted(s: State, t: Transfer) {
    match t
    case Topup(reference, tenant, amount) =>
      && reference in s.intents && s.intents[reference].tenant == tenant && s.intents[reference].amount == amount
      && reference in s.payments && s.payments[reference] == Payment(amount, s.intents[reference].currency)
    case InvestigationDebit(_, _, _) => true
    case AssessmentDebit(_, _, charge) => charge > 0
  }

  ghost predicate DistinctIds(ledger: seq<Transfer>) {
    forall i, j :: 0 <= i < j < |ledger| ==> ledger[i].Id() != ledger[j].Id()
  }

  ghost predicate LedgerOk(s: State) {
    && DistinctIds(s.ledger)
    && (forall k :: 0 <= k < |s.ledger| ==> Warranted(s, s.ledger[k]))
    && (forall k :: 0 <= k < |s.ledger| && s.ledger[k].InvestigationDebit? ==> ClaimedAndPosted(s, s.ledger[k].Id()))
  }

  /** The claim exists and the call that owns it has had its request applied. */
  ghost predicate ClaimedAndPosted(s: State, id: TransferKey) {
    id in s.claims && s.claims[id].owner < |s.calls| && s.calls[s.claims[id].owner].wire.Delivered?
  }

  function TopupOf(s: State, reference: string): Transfer
    requires reference in s.intents
  {
    Topup(reference, s.intents[reference].tenant, s.intents[reference].amount)
  }

  ghost predicate IntentsOk(s: State) {
    forall r :: r in s.intents ==>
      && s.intents[r].currency.NGN? && s.intents[r].amount >= TOPUP_MINIMUM_KOBO
      && (s.intents[r].status.Credited? ==> TopupOf(s, r) in s.ledger)
  }

  ghost predicate TopupsOk(s: State) {
    forall r :: r in s.topups ==>
      IsCredited(s, r) && s.topups[r] == TopupRow(s.intents[r].tenant, s.intents[r].amount, TopupKey(r))
  }

  /** A claim belongs to the debit call that made it; a reconciled one has its debit in the ledger. */
  ghost predicate ClaimOk(s: State, id: TransferKey, claim: Claim) {
    && claim.owner < |s.calls|
    && s.calls[claim.owner].job.DebitJob? && CanonicalTenant(s.calls[claim.owner].job.tenant)
    && DebitOf(s.calls[claim.owner].job).Id() == id
    && (claim.reconciled ==> HasId(s.ledger, id))
  }

  ghost predicate ClaimsOk(s: State) {
    forall id :: id in s.claims ==> ClaimOk(s, id, s.claims[id])
  }

  ghost predicate HooksOk(s: State) {
    forall b :: b in s.hooks ==>
      && s.hooks[b].attempts <= MAX_WEBHOOK_ATTEMPTS
      && (s.hooks[b].status.Processed? && NeedsSettlement(s.hooks[b]) ==> IsCredited(s, s.hooks[b].reference.value))
  }

  function DebitOf(job: Job): Transfer
    requires job.DebitJob? && CanonicalTenant(job.tenant)
  {
    InvestigationDebit(job.tenant, job.investigation, job.tier)
  }

  /** The transfer is the one this job is about. */
  ghost predicate About(job: Job, t: Transfer) {
    match job
    case SettleJob(reference) => t.Topup? && t.reference == reference
    case WebhookJob(_) => t.Topup?
    case DebitJob(_, _, _, _, _) => CanonicalTenant(job.tenant) && t == DebitOf(job)
    case AssessJob(_, _, _) => t.AssessmentDebit?
  }

  ghost predicate Settles(job: Job, reference: string) {
    job.WebhookJob? || (job.SettleJob? && job.reference == reference)
  }

  ghost predicate PcOk(s: State, c: Call) {
    match c.pc
    case ReadIntent(reference) => Settles(c.job, reference)
    case Verify(reference, snapshot) =>
      Settles(c.job, reference) && reference in s.intents && SameTerms(snapshot, s.intents[reference])
    case ClaimKey(t) => About(c.job, t) && t.InvestigationDebit? && Warranted(s, t)
    case LookUp(t) => About(c.job, t) && t.InvestigationDebit?
    case CheckBalance(t) => About(c.job, t) && !t.Topup? && Warranted(s, t)
    case Release(t) => About(c.job, t) && t.InvestigationDebit?
    case Post(t) => About(c.job, t) && Warranted(s, t)
    case Await(t) => About(c.job, t) && Warranted(s, t)
    case Complete(t) => About(c.job, t) && t.Topup? && Warranted(s, t) && t in s.ledger
    case RecordTopup(t) => About(c.job, t) && t.Topup? && Warranted(s, t) && t in s.ledger && IsCredited(s, t.reference)
    case Reconcile(t) => About(c.job, t) && t.InvestigationDebit? && HasId(s.ledger, t.Id())
    case Returned(SettledReply(reference, _)) => IsCredited(s, reference)
    case Returned(NothingToSettle) => c.job.WebhookJob?
    case _ => true
  }

  ghost predicate WireOk(s: State, c: Call) {
    && (c.wire.Flying? ==> About(c.job, c.wire.t) && Warranted(s, c.wire.t))
    && (c.wire.Delivered? ==> About(c.job, c.wire.t) && Warranted(s, c.wire.t) && HasId(s.ledger, c.wire.t.Id()))
    && (!c.wire.Idle? ==> c.pc.Await? || c.pc.Complete? || c.pc.RecordTopup? || c.pc.Reconcile? || c.pc.Returned?
                          || c.pc.Threw? || c.pc.Finished? || c.pc.Stopped?)
    && (c.pc.Await? && (c.wire.Flying? || c.wire.Delivered?) ==> c.wire.t == c.pc.t)
  }

  /** From winning the claim until it gives up or finishes, and for as long as its request may still
      reach the ledger, a debit call's claim row exists and is its own. */
  ghost predicate Holding(c: Call) {
    && c.job.DebitJob?
    && (c.pc.CheckBalance? || c.pc.Release? || c.pc.Post? || c.pc.Await? || c.pc.Reconcile?
        || c.wire.Flying? || c.wire.Delivered?)
  }

  ghost predicate HoldOk(s: State, i: nat)
    requires i < |s.calls|
  {
    var c := s.calls[i];
    Holding(c) ==>
      && CanonicalTenant(c.job.tenant)
      && var id := DebitOf(c.job).Id();
      id in s.claims && s.claims[id].owner == i && s.claims[id].scope == c.job.scope
  }

  /** The reference a call is settling or has settled. */
  function SettlementOf(pc: Pc): Option<string> {
    match pc
    case ReadIntent(reference) => Some(reference)
    case Verify(reference, _) => Some(reference)
    case Post(t) => if t.Topup? then Some(t.reference) else None
    case Await(t) => if t.Topup? then Some(t.reference) else None
    case Complete(t) => if t.Topup? then Some(t.reference) else None
    case RecordTopup(t) => if t.Topup? then Some(t.reference) else None
    case Returned(SettledReply(reference, _)) => Some(reference)
    case _ => None
  }

  /** A delivery attempt settles the reference of the stored event, and only when the event calls
      for a settlement. */
  ghost predicate HookRefOk(s: State, c: Call) {
    c.job.WebhookJob? ==>
      && (!c.pc.Begin? && !c.pc.Stopped? ==> c.job.body in s.hooks)
      && (c.job.body in s.hooks ==>
            && (SettlementOf(c.pc).Some? ==>
                  NeedsSettlement(s.hooks[c.job.body]) && s.hooks[c.job.body].reference == SettlementOf(c.pc))
            && (c.pc.Returned? && SettlementOf(c.pc).None? ==> !NeedsSettlement(s.hooks[c.job.body])))
      && !c.pc.ClaimKey? && !c.pc.LookUp? && !c.pc.CheckBalance? && !c.pc.Release? && !c.pc.Reconcile?
  }

  ghost predicate CallOk(s: State, i: nat)
    requires i < |s.calls|
  {
    PcOk(s, s.calls[i]) && WireOk(s, s.calls[i]) && HoldOk(s, i) && HookRefOk(s, s.calls[i])
  }

  ghost predicate CallsOk(s: State) {
    forall i {:trigger CallOk(s, i)} :: 0 <= i < |s.calls| ==> CallOk(s, i)
  }

  ghost predicate Inv(s: State) {
    LedgerOk(s) && IntentsOk(s) && TopupsOk(s) && ClaimsOk(s) && HooksOk(s) && CallsOk(s)
  }

  // ---- Frames: what a step leaves alone ----

  lemma WarrantedKept(s: State, s': State, t: Transfer)
    requires Extends(s, s') && Warranted(s, t)
    ensures Warranted(s', t)
  {
  }

  lemma HasIdKept(ledger: seq<Transfer>, ledger': seq<Transfer>, id: TransferKey)
    requires ledger <= ledger' && HasId(ledger, id)
    ensures HasId(ledger', id)
  {
    var k :| 0 <= k < |ledger| && ledger[k].Id() == id;
    assert ledger'[k].Id() == id;
  }

  lemma PcKept(s: State, s': State, c: Call)
    requires Extends(s, s') && PcOk(s, c)
    ensures PcOk(s', c)
  {
    match c.pc
    case ClaimKey(t) => WarrantedKept(s, s', t);
    case CheckBalance(t) => WarrantedKept(s, s', t);
    case Post(t) => WarrantedKept(s, s', t);
    case Await(t) => WarrantedKept(s, s', t);
    case Complete(t) => WarrantedKept(s, s', t);
    case RecordTopup(t) => WarrantedKept(s, s', t);
    case Reconcile(t) => HasIdKept(s.ledger, s'.ledger, t.Id());
    case _ =>
  }

  lemma WireKept(s: State, s': State, c: Call)
    requires Extends(s, s') && WireOk(s, c)
    ensures WireOk(s', c)
  {
    if c.wire.Flying? {
      WarrantedKept(s, s', c.wire.t);
    }
    if c.wire.Delivered? {
      WarrantedKept(s, s', c.wire.t);
      HasIdKept(s.ledger, s'.ledger, c.wire.t.Id());
    }
  }

  ghost predicate SameClaim(s: State, s': State, id: TransferKey)
    requires id in s.claims
  {
    id in s'.claims && s'.claims[id].owner == s.claims[id].owner && s'.claims[id].scope == s.claims[id].scope
  }

  /** Every claim survives, except that call i may give up its own. */
  ghost predicate OthersClaimsKept(s: State, s': State, i: nat) {
    forall id :: id in s.claims && s.claims[id].owner != i ==> SameClaim(s, s', id)
  }

  ghost predicate OthersCallsKept(s: State, s': State, i: nat) {
    && |s.calls| <= |s'.calls|
    && forall j :: 0 <= j < |s.calls| && j != i ==> s'.calls[j] == s.calls[j]
  }

  lemma CallKept(s: State, s': State, i: nat, j: nat)
    requires CallsOk(s) && Extends(s, s') && OthersClaimsKept(s, s', i) && OthersCallsKept(s, s', i)
    requires j < |s.calls| && j != i
    ensures CallOk(s', j)
  {
    assert CallOk(s, j);
    PcKept(s, s', s.calls[j]);
    WireKept(s, s', s.calls[j]);
  }

  lemma CallsKept(s: State, s': State, i: nat)
    requires CallsOk(s) && Extends(s, s') && OthersClaimsKept(s, s', i) && OthersCallsKept(s, s', i)
    requires |s'.calls| == |s.calls| && i < |s.calls| && CallOk(s', i)
    ensures CallsOk(s')
  {
    forall j | 0 <= j < |s'.calls| ensures CallOk(s', j) {
      if j != i {
        CallKept(s, s', i, j);
      }
    }
  }

  /** A ledger that did not change stays justified, provided no claim behind an applied debit is lost. */
  lemma LedgerKept(s: State, s': State)
    requires LedgerOk(s) && Extends(s, s') && s'.ledger == s.ledger
    requires forall id :: ClaimedAndPosted(s, id) ==> ClaimedAndPosted(s', id)
    ensures LedgerOk(s')
  {
    forall k | 0 <= k < |s'.ledger| ensures Warranted(s', s'.ledger[k]) {
      WarrantedKept(s, s', s.ledger[k]);
    }
  }

  lemma ClaimKept(s: State, s': State, id: TransferKey, claim: Claim)
    requires ClaimOk(s, id, claim) && Extends(s, s')
    ensures ClaimOk(s', id, claim)
  {
    if claim.reconciled {
      HasIdKept(s.ledger, s'.ledger, id);
    }
  }

  /** Claims that are all still there, with unchanged reconciliation marks, stay justified. */
  lemma ClaimsKept(s: State, s': State)
    requires ClaimsOk(s) && Extends(s, s')
    requires forall id :: id in s'.claims ==> id in s.claims && s'.claims[id] == s.claims[id]
    ensures ClaimsOk(s')
  {
    forall id | id in s'.claims ensures ClaimOk(s', id, s'.claims[id]) {
      ClaimKept(s, s', id, s.claims[id]);
    }
  }

  lemma IntentsKept(s: State, s': State)
    requires IntentsOk(s) && Extends(s, s') && s'.intents == s.intents
    ensures IntentsOk(s')
  {
    forall r | r in s'.intents && s'.intents[r].status.Credited? ensures TopupOf(s', r) in s'.ledger {
      assert TopupOf(s, r) in s.ledger;
    }
  }

  lemma TopupsKept(s: State, s': State)
    requires TopupsOk(s) && Extends(s, s') && s'.topups == s.topups
    ensures TopupsOk(s')
  {
  }

  lemma HooksKept(s: State, s': State)
    requires HooksOk(s) && Extends(s, s') && s'.hooks == s.hooks
    ensures HooksOk(s')
  {
  }

  /** A step that changes nothing but one call keeps the rows justified, as long as it does not
      take back a delivery. */
  lemma QuietKeeps(s: State, s': State, i: nat)
    requires Inv(s) && Extends(s, s') && s' == s.(calls := s'.calls) && OthersCallsKept(s, s', i)
    requires i < |s.calls| == |s'.calls| && CallOk(s', i)
    requires s.calls[i].wire.Delivered? ==> s'.calls[i].wire.Delivered?
    ensures Inv(s')
  {
    CallsKept(s, s', i);
    LedgerKept(s, s');
    ClaimsKept(s, s');
    IntentsKept(s, s');
    TopupsKept(s, s');
    HooksKept(s, s');
  }
}
