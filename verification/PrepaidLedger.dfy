/** The prepaid-credit protocol as a state machine: payment intents, the provider's confirmations,
    top-up rows, the webhook queue, debit claims, the ledger, and any number of calls running
    concurrently. Every database transaction and every remote interaction is one step; a call can
    fail or crash between any two steps, and a transfer whose request failed or timed out can
    still reach the ledger later, or never. */
module PrepaidLedger {
  import opened Common
  import opened TransferIds

  const TOPUP_MINIMUM_KOBO := 10_000
  const INTENT_TTL_MS := 30 * 60 * 1000
  const RETRY_DELAY_MS := 5 * 60 * 1000
  const MAX_WEBHOOK_ATTEMPTS := 10
  // ---- Ledger ----

  /** The three kinds of transfer the application posts (codes 2, 1 and 3). */
  datatype Transfer =
    | Topup(reference: string, tenant: Tenant, amount: nat)
    | InvestigationDebit(tenant: Tenant, investigation: string, tier: Tier)
    | AssessmentDebit(tenant: Tenant, event: string, charge: nat)
  {
    /** The key the transfer identifier is hashed from. */
    function Id(): TransferKey {
      match this
      case Topup(reference, _, _) => TopupKey(reference)
      case InvestigationDebit(tenant, investigation, tier) => DebitKey(tenant, investigation, tier)
      case AssessmentDebit(_, event, _) => AssessmentKey(event)
    }

    function Amount(): nat {
      match this
      case Topup(_, _, amount) => amount
      case InvestigationDebit(_, _, tier) => TierAmount(tier)
      case AssessmentDebit(_, _, charge) => charge
    }

    function DebitAccount(): Account {
      if Topup? then Revenue else TenantAccount(tenant)
    }

    function CreditAccount(): Account {
      if Topup? then TenantAccount(tenant) else Revenue
    }
  }

  predicate HasId(ledger: seq<Transfer>, id: TransferKey) {
    exists k :: 0 <= k < |ledger| && ledger[k].Id() == id
  }

  /** The ledger's idempotency rule: a transfer whose identifier is present changes nothing. */
  function ApplyTransfer(ledger: seq<Transfer>, t: Transfer): seq<Transfer> {
    if HasId(ledger, t.Id()) then ledger else ledger + [t]
  }

  function CreditedTo(t: Transfer, account: Account): nat {
    if t.CreditAccount() == account then t.Amount() else 0
  }

  function DebitedFrom(t: Transfer, account: Account): nat {
    if t.DebitAccount() == account then t.Amount() else 0
  }

  function CreditsPosted(ledger: seq<Transfer>, account: Account): nat {
    if ledger == [] then 0
    else CreditsPosted(ledger[..|ledger| - 1], account) + CreditedTo(ledger[|ledger| - 1], account)
  }

  function DebitsPosted(ledger: seq<Transfer>, account: Account): nat {
    if ledger == [] then 0
    else DebitsPosted(ledger[..|ledger| - 1], account) + DebitedFrom(ledger[|ledger| - 1], account)
  }

  /** credits_posted - debits_posted; no modelled transfer is two-phase, so nothing is pending. */
  function Available(ledger: seq<Transfer>, account: Account): int {
    CreditsPosted(ledger, account) - DebitsPosted(ledger, account)
  }

  // ---- Rows ----

  datatype IntentStatus = Initializing | Pending | Verified | Credited | Failed | Cancelled

  datatype Currency = NGN | Foreign(code: string)

  datatype Intent = Intent(tenant: Tenant, amount: nat, currency: Currency, status: IntentStatus, expiresAt: int)

  /** A transaction the provider reports as successful. */
  datatype Payment = Payment(amount: nat, currency: Currency)

  datatype TopupRow = TopupRow(tenant: Tenant, amount: nat, transferId: TransferKey)

  datatype HookStatus = Received | Processing | Processed | RetryableFailure | TerminalFailure

  /** Settlement is triggered by the provider's charge.success events only. */
  datatype EventType = ChargeSuccess | OtherEvent(name: string)

  datatype Hook = Hook(eventType: EventType, reference: Option<string>, status: HookStatus, attempts: nat,
                       nextAttemptAt: Option<int>)

  /** A claim row. `scope` is the tenant of the caller that inserted it (none for a platform
      administrator); `owner` numbers that call and is not a column, the code never reads it. */
  datatype Claim = Claim(scope: Option<string>, reconciled: bool, owner: nat)

  // ---- Calls ----

  datatype Job =
    | SettleJob(reference: string)
    | WebhookJob(body: string)
    | DebitJob(tenant: string, investigation: string, tier: Tier, amount: Option<nat>, scope: Option<string>)
    | AssessJob(tenant: string, event: string, charge: int)

  datatype Code =
    BadRequest | Forbidden | NotFound | Conflict | Precondition | InsufficientFunds | Unavailable | Internal

  datatype Reply =
    | SettledReply(reference: string, idempotent: bool)
    | DebitReply(recorded: bool, idempotent: bool)
    | AssessReply
    | NothingToSettle

  /** Where a call is: the next atomic step it will take, or how it ended. */
  datatype Pc =
    | Begin
    | ReadIntent(reference: string)
    | Verify(reference: string, snapshot: Intent)
    | ClaimKey(t: Transfer)
    | LookUp(t: Transfer)
    | CheckBalance(t: Transfer)
    | Release(t: Transfer)
    | Post(t: Transfer)
    | Await(t: Transfer)
    | Complete(t: Transfer)
    | RecordTopup(t: Transfer)
    | Reconcile(t: Transfer)
    | Returned(reply: Reply)
    | Threw(code: Code)
    | Finished
    | Stopped

  /** The transfer request of a call: not sent, on its way, applied, or lost. */
  datatype Wire = Idle | Flying(t: Transfer) | Delivered(t: Transfer) | Lost

  datatype Call = Call(job: Job, pc: Pc, wire: Wire)

  datatype State = State(
    intents: map<string, Intent>,
    payments: map<string, Payment>,
    topups: map<string, TopupRow>,
    hooks: map<string, Hook>,
    claims: map<TransferKey, Claim>,
    ledger: seq<Transfer>,
    calls: seq<Call>,
    now: int)

  function InitialState(now: int): State {
    State(map[], map[], map[], map[], map[], [], [], now)
  }

  // ---- Steps ----

  datatype Action =
    | StartTopup(reference: string, tenant: Tenant, amount: nat)
    | Initialized(reference: string, ok: bool)
    | ConfirmPayment(reference: string, payment: Payment)
    | RecordWebhook(body: string, eventType: EventType, hookReference: Option<string>)
    | Tick(time: int)
    | Spawn(job: Job)
    | BeginWebhook(i: nat)
    | DoReadIntent(i: nat)
    | DoVerify(i: nat)
    | DoClaim(i: nat)
    | DoLookUp(i: nat)
    | DoCheckBalance(i: nat)
    | DoRelease(i: nat)
    | DoPost(i: nat)
    | Deliver(i: nat)
    | Lose(i: nat)
    | Acknowledge(i: nat)
    | DoComplete(i: nat)
    | DoRecordTopup(i: nat)
    | DoReconcile(i: nat)
    | FinishWebhook(i: nat)
    | Fault(i: nat, code: Code)
    | Crash(i: nat)

  predicate Busy(pc: Pc) {
    !pc.Begin? && !pc.Returned? && !pc.Threw? && !pc.Finished? && !pc.Stopped?
  }

  predicate Enabled(s: State, a: Action) {
    match a
    case StartTopup(reference, tenant, amount) =>
      reference !in s.intents && amount >= TOPUP_MINIMUM_KOBO
    case Initialized(reference, _) => reference in s.intents
    case ConfirmPayment(reference, _) => reference !in s.payments
    case RecordWebhook(_, _, _) => true
    case Tick(time) => s.now <= time
    case Spawn(_) => true
    case BeginWebhook(i) => i < |s.calls| && s.calls[i].pc.Begin? && s.calls[i].job.WebhookJob?
    case DoReadIntent(i) => i < |s.calls| && s.calls[i].pc.ReadIntent?
    case DoVerify(i) => i < |s.calls| && s.calls[i].pc.Verify?
    case DoClaim(i) => i < |s.calls| && s.calls[i].pc.ClaimKey? && s.calls[i].job.DebitJob?
    case DoLookUp(i) => i < |s.calls| && s.calls[i].pc.LookUp?
    case DoCheckBalance(i) => i < |s.calls| && s.calls[i].pc.CheckBalance?
    case DoRelease(i) => i < |s.calls| && s.calls[i].pc.Release? && s.calls[i].job.DebitJob?
    case DoPost(i) => i < |s.calls| && s.calls[i].pc.Post?
    case Deliver(i) => i < |s.calls| && s.calls[i].wire.Flying?
    case Lose(i) => i < |s.calls| && s.calls[i].wire.Flying?
    case Acknowledge(i) => i < |s.calls| && s.calls[i].pc.Await? && s.calls[i].wire.Delivered?
    case DoComplete(i) => i < |s.calls| && s.calls[i].pc.Complete? && s.calls[i].pc.t.Topup?
    case DoRecordTopup(i) => i < |s.calls| && s.calls[i].pc.RecordTopup? && s.calls[i].pc.t.Topup?
    case DoReconcile(i) => i < |s.calls| && s.calls[i].pc.Reconcile?
    case FinishWebhook(i) =>
      i < |s.calls| && s.calls[i].job.WebhookJob? && (s.calls[i].pc.Returned? || s.calls[i].pc.Threw?)
      && s.calls[i].job.body in s.hooks
    case Fault(i, code) =>
      i < |s.calls| && code in {Precondition, Unavailable, Internal}
      && (Busy(s.calls[i].pc) || (s.calls[i].pc.Returned? && s.calls[i].job.WebhookJob?))
    case Crash(i) => i < |s.calls|
  }

  function Goto(s: State, i: nat, pc: Pc): State
    requires i < |s.calls|
  {
    s.(calls := s.calls[i := s.calls[i].(pc := pc)])
  }

  /** Input checks made before anything is written. */
  function FirstPc(job: Job): Pc {
    match job
    case SettleJob(reference) => ReadIntent(reference)
    case WebhookJob(_) => Begin
    case DebitJob(tenant, investigation, tier, amount, scope) =>
      if !CanonicalTenant(tenant) then Threw(BadRequest)
      else if scope.Some? && scope.value != tenant then Threw(Forbidden)
      else if amount.Some? && amount.value != TierAmount(tier) then Threw(Forbidden)
      else ClaimKey(InvestigationDebit(tenant, investigation, tier))
    case AssessJob(tenant, event, charge) =>
      if !CanonicalTenant(tenant) || charge <= 0 then Threw(BadRequest)
      else CheckBalance(AssessmentDebit(tenant, event, charge))
  }

  predicate NeedsSettlement(h: Hook) {
    h.eventType.ChargeSuccess? && h.reference.Some? && h.reference.value != ""
  }

  function BeginHook(s: State, i: nat): State
    requires Enabled(s, BeginWebhook(i))
  {
    var body := s.calls[i].job.body;
    if body !in s.hooks then Goto(s, i, Stopped)
    else
      var h := s.hooks[body];
      if h.status.Processed? then Goto(s, i, Finished)
      else if h.attempts >= MAX_WEBHOOK_ATTEMPTS then
        Goto(s.(hooks := s.hooks[body := h.(status := TerminalFailure)]), i, Finished)
      else
        Goto(s.(hooks := s.hooks[body := h.(status := Processing, attempts := h.attempts + 1)]), i,
             if NeedsSettlement(h) then ReadIntent(h.reference.value) else Returned(NothingToSettle))
  }

  /** The locked read that opens a settlement; the lock is gone once it commits. */
  function AfterReadIntent(s: State, reference: string): Pc {
    if reference !in s.intents then Threw(NotFound)
    else
      var intent := s.intents[reference];
      if intent.status.Credited? then Returned(SettledReply(reference, true))
      else if !intent.status.Pending? && !intent.status.Verified? then Threw(Precondition)
      else if intent.expiresAt < s.now then Threw(Precondition)
      else Verify(reference, intent)
  }

  function AfterVerify(s: State, reference: string, snapshot: Intent): Pc {
    if reference !in s.payments then Threw(Precondition)
    else
      var p := s.payments[reference];
      if p.amount == 0 || p.currency != NGN then Threw(Precondition)
      else if p.amount != snapshot.amount || p.currency != snapshot.currency then Threw(Precondition)
      else Post(Topup(reference, snapshot.tenant, snapshot.amount))
  }

  function DoClaimKey(s: State, i: nat): State
    requires Enabled(s, DoClaim(i))
  {
    var t := s.calls[i].pc.t;
    if t.Id() in s.claims then Goto(s, i, LookUp(t))
    else Goto(s.(claims := s.claims[t.Id() := Claim(s.calls[i].job.scope, false, i)]), i, CheckBalance(t))
  }

  function AfterLookUp(s: State, t: Transfer): Pc {
    if t.Id() !in s.claims then Threw(Conflict)
    else Returned(DebitReply(s.claims[t.Id()].reconciled, true))
  }

  function AfterCheckBalance(s: State, t: Transfer): Pc {
    var available := Available(s.ledger, t.DebitAccount());
    if available < 0 then Threw(Unavailable)
    else if t.Amount() > available then
      if t.InvestigationDebit? then Release(t) else Threw(InsufficientFunds)
    else Post(t)
  }

  /** DELETE ... WHERE transferId = id AND tenantId = scope; a null scope matches no row. */
  function ReleaseKey(s: State, i: nat): State
    requires Enabled(s, DoRelease(i))
  {
    var id, scope := s.calls[i].pc.t.Id(), s.calls[i].job.scope;
    var claims :=
      if id in s.claims && scope.Some? && s.claims[id].scope == scope then s.claims - {id} else s.claims;
    Goto(s.(claims := claims), i, Threw(InsufficientFunds))
  }

  function AfterAcknowledge(t: Transfer): Pc {
    match t
    case Topup(_, _, _) => Complete(t)
    case InvestigationDebit(_, _, _) => Reconcile(t)
    case AssessmentDebit(_, _, _) => Returned(AssessReply)
  }

  function CompleteIntent(s: State, i: nat): State
    requires Enabled(s, DoComplete(i))
  {
    var t := s.calls[i].pc.t;
    if t.reference in s.intents
       && (s.intents[t.reference].status.Pending? || s.intents[t.reference].status.Verified?) then
      Goto(s.(intents := s.intents[t.reference := s.intents[t.reference].(status := Credited)]), i, RecordTopup(t))
    else Goto(s, i, Threw(Unavailable))
  }

  function UpsertTopup(s: State, i: nat): State
    requires Enabled(s, DoRecordTopup(i))
  {
    var t := s.calls[i].pc.t;
    var row := if t.reference in s.topups then s.topups[t.reference].(transferId := t.Id())
               else TopupRow(t.tenant, t.amount, t.Id());
    Goto(s.(topups := s.topups[t.reference := row]), i, Returned(SettledReply(t.reference, false)))
  }

  function ReconcileClaim(s: State, i: nat): State
    requires Enabled(s, DoReconcile(i))
  {
    var id := s.calls[i].pc.t.Id();
    if id in s.claims then
      Goto(s.(claims := s.claims[id := s.claims[id].(reconciled := true)]), i, Returned(DebitReply(true, false)))
    else Goto(s, i, Threw(Unavailable))
  }

  function CloseHook(s: State, i: nat): State
    requires Enabled(s, FinishWebhook(i))
  {
    var body, pc := s.calls[i].job.body, s.calls[i].pc;
    var h := s.hooks[body];
    var closed :=
      if pc.Returned? then h.(status := Processed)
      else if pc.code.Unavailable? then h.(status := RetryableFailure, nextAttemptAt := Some(s.now + RETRY_DELAY_MS))
      else h.(status := TerminalFailure, nextAttemptAt := None);
    Goto(s.(hooks := s.hooks[body := closed]), i, Finished)
  }

  function SendTransfer(s: State, i: nat): State
    requires Enabled(s, DoPost(i))
  {
    var t := s.calls[i].pc.t;
    s.(calls := s.calls[i := s.calls[i].(pc := Await(t), wire := Flying(t))])
  }

  function LoseTransfer(s: State, i: nat): State
    requires i < |s.calls|
  {
    s.(calls := s.calls[i := s.calls[i].(wire := Lost)])
  }

  function DeliverTransfer(s: State, i: nat): State
    requires Enabled(s, Deliver(i))
  {
    var t := s.calls[i].wire.t;
    s.(ledger := ApplyTransfer(s.ledger, t), calls := s.calls[i := s.calls[i].(wire := Delivered(t))])
  }

  /** The steps that write no row: they only decide where the call goes next. */
  predicate PureMove(a: Action) {
    a.DoReadIntent? || a.DoVerify? || a.DoLookUp? || a.DoCheckBalance? || a.Acknowledge? || a.Fault? || a.Crash?
  }

  function NextPc(s: State, a: Action): Pc
    requires Enabled(s, a) && PureMove(a)
  {
    var pc := s.calls[a.i].pc;
    match a
    case DoReadIntent(_) => AfterReadIntent(s, pc.reference)
    case DoVerify(_) => AfterVerify(s, pc.reference, pc.snapshot)
    case DoLookUp(_) => AfterLookUp(s, pc.t)
    case DoCheckBalance(_) => AfterCheckBalance(s, pc.t)
    case Acknowledge(_) => AfterAcknowledge(pc.t)
    case Fault(_, code) => Threw(code)
    case Crash(_) => Stopped
  }

  function Exec(s: State, a: Action): State
    requires Enabled(s, a)
  {
    if PureMove(a) then Goto(s, a.i, NextPc(s, a))
    else
      match a
      case StartTopup(reference, tenant, amount) =>
        s.(intents := s.intents[reference := Intent(tenant, amount, NGN, Initializing, s.now + INTENT_TTL_MS)])
      case Initialized(reference, ok) =>
        if !s.intents[reference].status.Initializing? then s
        else s.(intents := s.intents[reference := s.intents[reference].(status := if ok then Pending else Failed)])
      case ConfirmPayment(reference, payment) => s.(payments := s.payments[reference := payment])
      case RecordWebhook(body, eventType, reference) =>
        if body in s.hooks then s
        else s.(hooks := s.hooks[body := Hook(eventType, reference, Received, 0, None)])
      case Tick(time) => s.(now := time)
      case Spawn(job) => s.(calls := s.calls + [Call(job, FirstPc(job), Idle)])
      case BeginWebhook(i) => BeginHook(s, i)
      case DoClaim(i) => DoClaimKey(s, i)
      case DoRelease(i) => ReleaseKey(s, i)
      case DoPost(i) => SendTransfer(s, i)
      case Deliver(i) => DeliverTransfer(s, i)
      case Lose(i) => LoseTransfer(s, i)
      case DoComplete(i) => CompleteIntent(s, i)
      case DoRecordTopup(i) => UpsertTopup(s, i)
      case DoReconcile(i) => ReconcileClaim(s, i)
      case FinishWebhook(i) => CloseHook(s, i)
  }

  /** The state after a sequence of steps, each enabled where it is taken. */
  ghost predicate IsRun(s: State, actions: seq<Action>, s': State)
    decreases |actions|
  {
    if actions == [] then s' == s
    else Enabled(s, actions[0]) && IsRun(Exec(s, actions[0]), actions[1..], s')
  }

  ghost predicate Reachable(s: State) {
    exists now, actions :: IsRun(InitialState(now), actions, s)
  }
}
