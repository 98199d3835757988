/** Balances: how far concurrent debits can overdraw a tenant, and double-entry conservation. */
module PrepaidBalances {
  import opened Common
  import opened TransferIds
  import opened PrepaidLedger
  import opened PrepaidInvariants
  import opened PrepaidPreservation

  // ---- Debits between the balance check and the ledger ----

  predicate IsDebitOf(t: Transfer, tenant: Tenant) {
    !t.Topup? && t.tenant == tenant
  }

  /** The amount of the tenant's funds a call has checked for but the ledger has not yet seen. */
  function InFlight(c: Call, tenant: Tenant): nat {
    if c.pc.Post? then (if IsDebitOf(c.pc.t, tenant) then c.pc.t.Amount() else 0)
    else if c.wire.Flying? then (if IsDebitOf(c.wire.t, tenant) then c.wire.t.Amount() else 0)
    else 0
  }

  function Amounts(calls: seq<Call>, tenant: Tenant): seq<int> {
    seq(|calls|, i requires 0 <= i < |calls| => InFlight(calls[i], tenant))
  }

  function Flags(calls: seq<Call>, tenant: Tenant): seq<int> {
    seq(|calls|, i requires 0 <= i < |calls| => if InFlight(calls[i], tenant) > 0 then 1 else 0)
  }

  function Exposure(s: State, tenant: Tenant): int {
    Sum(Amounts(s.calls, tenant))
  }

  function DebitsInFlight(s: State, tenant: Tenant): int {
    Sum(Flags(s.calls, tenant))
  }

  /** At most n debits of the tenant are in flight, each of at most m. */
  ghost predicate Within(s: State, tenant: Tenant, n: nat, m: nat) {
    && DebitsInFlight(s, tenant) <= n
    && forall i :: 0 <= i < |s.calls| ==> InFlight(s.calls[i], tenant) <= m
  }

  /** A property of states holds before, between and after the steps. */
  ghost predicate Throughout(p: State -> bool, s: State, actions: seq<Action>)
    decreases |actions|
  {
    && p(s)
    && (actions != [] ==> Enabled(s, actions[0]) && Throughout(p, Exec(s, actions[0]), actions[1..]))
  }

  ghost function Limits(tenant: Tenant, n: nat, m: nat): State -> bool {
    (s: State) => Within(s, tenant, n, m)
  }

  ghost predicate WithinThroughout(s: State, actions: seq<Action>, tenant: Tenant, n: nat, m: nat) {
    Throughout(Limits(tenant, n, m), s, actions)
  }

  lemma ExposureUpdate(calls: seq<Call>, i: nat, c: Call, tenant: Tenant)
    requires i < |calls|
    ensures Sum(Amounts(calls[i := c], tenant))
            == Sum(Amounts(calls, tenant)) - InFlight(calls[i], tenant) + InFlight(c, tenant)
  {
    SumUpdate(Amounts(calls, tenant), i, InFlight(c, tenant));
    assert Amounts(calls[i := c], tenant) == Amounts(calls, tenant)[i := InFlight(c, tenant)];
  }

  /** The exposure is at most m for each debit in flight. */
  lemma {:induction false} ExposureBound(calls: seq<Call>, tenant: Tenant, m: nat)
    requires forall i :: 0 <= i < |calls| ==> InFlight(calls[i], tenant) <= m
    ensures 0 <= Sum(Amounts(calls, tenant)) <= m * Sum(Flags(calls, tenant))
  {
    if calls != [] {
      var n := |calls| - 1;
      ExposureBound(calls[..n], tenant, m);
      assert Amounts(calls, tenant)[..n] == Amounts(calls[..n], tenant);
      assert Flags(calls, tenant)[..n] == Flags(calls[..n], tenant);
      var f, k := Sum(Flags(calls[..n], tenant)), Flags(calls, tenant)[n];
      assert m * (f + k) == m * f + m * k;
    }
  }

  // ---- How steps move the two quantities ----

  lemma AvailableSnoc(ledger: seq<Transfer>, t: Transfer, account: Account)
    ensures Available(ledger + [t], account)
            == Available(ledger, account) + CreditedTo(t, account) - DebitedFrom(t, account)
  {
    assert (ledger + [t])[..|ledger|] == ledger;
  }

  lemma AppliedAvailable(ledger: seq<Transfer>, t: Transfer, tenant: Tenant)
    ensures Available(ApplyTransfer(ledger, t), TenantAccount(tenant))
            >= Available(ledger, TenantAccount(tenant)) - (if IsDebitOf(t, tenant) then t.Amount() else 0)
  {
    if !HasId(ledger, t.Id()) {
      AvailableSnoc(ledger, t, TenantAccount(tenant));
    }
  }

  /** Only passing a balance check adds to the exposure of a tenant. */
  lemma MovedInFlight(s: State, a: Action, tenant: Tenant)
    requires Enabled(s, a) && PureMove(a) && !a.DoCheckBalance? && CallOk(s, a.i)
    ensures InFlight(s.calls[a.i].(pc := NextPc(s, a)), tenant) <= InFlight(s.calls[a.i], tenant)
  {
  }

  lemma OtherInFlight(s: State, a: Action, tenant: Tenant)
    requires Enabled(s, a) && ActsOn(a).Some? && !PureMove(a) && !a.Deliver? && CallOk(s, a.i)
    ensures InFlight(Exec(s, a).calls[a.i], tenant) <= InFlight(s.calls[a.i], tenant)
  {
    if a.BeginWebhook? {
      BeginShape(s, a.i);
    }
  }

  /** The headroom left if every debit in flight were applied at once. */
  function Headroom(s: State, tenant: Tenant): int {
    Available(s.ledger, TenantAccount(tenant)) - Exposure(s, tenant)
  }

  /** Landing takes a call's amount out of flight. */
  lemma LandedInFlight(s: State, i: nat, tenant: Tenant)
    requires Enabled(s, Deliver(i)) && CallOk(s, i)
    ensures var t := s.calls[i].wire.t;
            InFlight(s.calls[i], tenant) == (if IsDebitOf(t, tenant) then t.Amount() else 0)
            && InFlight(s.calls[i].(wire := Delivered(t)), tenant) == 0
  {
    assert !s.calls[i].pc.Post?;
  }

  lemma DeliverHeadroom(s: State, i: nat, tenant: Tenant)
    requires Enabled(s, Deliver(i)) && CallOk(s, i)
    ensures Headroom(DeliverTransfer(s, i), tenant) >= Headroom(s, tenant)
  {
    LandedInFlight(s, i, tenant);
    LandedHeadroom(s, i, s.calls[i].wire.t, tenant);
  }

  lemma LandedHeadroom(s: State, i: nat, t: Transfer, tenant: Tenant)
    requires i < |s.calls| && s.calls[i].wire == Flying(t)
    requires InFlight(s.calls[i], tenant) == if IsDebitOf(t, tenant) then t.Amount() else 0
    requires InFlight(s.calls[i].(wire := Delivered(t)), tenant) == 0
    ensures Headroom(DeliverTransfer(s, i), tenant) >= Headroom(s, tenant)
  {
    ExposureUpdate(s.calls, i, s.calls[i].(wire := Delivered(t)), tenant);
    AppliedAvailable(s.ledger, t, tenant);
  }

  lemma SpawnHeadroom(s: State, job: Job, tenant: Tenant)
    ensures Headroom(Exec(s, Spawn(job)), tenant) == Headroom(s, tenant)
  {
    var c := Call(job, FirstPc(job), Idle);
    assert Amounts(s.calls + [c], tenant) == Amounts(s.calls, tenant) + [0];
    SumAppend(Amounts(s.calls, tenant), 0);
  }

  lemma QuietHeadroom(s: State, a: Action, tenant: Tenant)
    requires CallsOk(s) && Enabled(s, a) && !a.DoCheckBalance? && !a.Deliver? && !a.Spawn?
    ensures Headroom(Exec(s, a), tenant) >= Headroom(s, tenant)
  {
    StepCalls(s, a);
    LedgerOnlyDelivered(s, a);
    if ActsOn(a).Some? {
      assert CallOk(s, a.i);
      ExposureUpdate(s.calls, a.i, Exec(s, a).calls[a.i], tenant);
      if PureMove(a) {
        MovedInFlight(s, a, tenant);
      } else {
        OtherInFlight(s, a, tenant);
      }
    }
  }

  /** A passed check saw enough for its own amount; the at most n - 1 others in flight take at most
      m each. */
  lemma CheckHeadroom(s: State, i: nat, tenant: Tenant, n: nat, m: nat)
    requires n >= 1 && Enabled(s, DoCheckBalance(i)) && CallOk(s, i)
    requires Headroom(s, tenant) >= -((n - 1) * m)
    requires Within(Exec(s, DoCheckBalance(i)), tenant, n, m)
    ensures Headroom(Exec(s, DoCheckBalance(i)), tenant) >= -((n - 1) * m)
  {
    var t := s.calls[i].pc.t;
    var pc := AfterCheckBalance(s, t);
    var s' := Goto(s, i, pc);
    ExposureUpdate(s.calls, i, s'.calls[i], tenant);
    if pc.Post? && t.tenant == tenant && t.Amount() > 0 {
      CheckedHeadroom(s, i, tenant, n, m);
    }
  }

  lemma CheckedHeadroom(s: State, i: nat, tenant: Tenant, n: nat, m: nat)
    requires n >= 1 && Enabled(s, DoCheckBalance(i)) && CallOk(s, i)
    requires s.calls[i].pc.t.tenant == tenant && s.calls[i].pc.t.Amount() > 0
    requires s.calls[i].pc.t.Amount() <= Available(s.ledger, TenantAccount(tenant))
    requires Within(Goto(s, i, Post(s.calls[i].pc.t)), tenant, n, m)
    ensures Headroom(Goto(s, i, Post(s.calls[i].pc.t)), tenant) >= -((n - 1) * m)
  {
    var t := s.calls[i].pc.t;
    var s' := Goto(s, i, Post(t));
    ExposureUpdate(s.calls, i, s'.calls[i], tenant);
    assert InFlight(s.calls[i], tenant) == 0;
    forall j | 0 <= j < |s.calls| ensures InFlight(s.calls[j], tenant) <= m {
      if j != i {
        assert s'.calls[j] == s.calls[j];
      }
    }
    OthersExposure(s.calls, s'.calls, i, tenant, n, m);
  }

  lemma OthersExposure(calls: seq<Call>, calls': seq<Call>, i: nat, tenant: Tenant, n: nat, m: nat)
    requires n >= 1 && i < |calls| == |calls'| && calls' == calls[i := calls'[i]]
    requires InFlight(calls[i], tenant) == 0 && InFlight(calls'[i], tenant) > 0
    requires forall j :: 0 <= j < |calls| ==> InFlight(calls[j], tenant) <= m
    requires Sum(Flags(calls', tenant)) <= n
    ensures Sum(Amounts(calls, tenant)) <= (n - 1) * m
  {
    ExposureBound(calls, tenant, m);
    SumUpdate(Flags(calls, tenant), i, 1);
    assert Flags(calls', tenant) == Flags(calls, tenant)[i := 1];
    MulMonotone(Sum(Flags(calls, tenant)), n - 1, m);
  }

  lemma StepHeadroom(s: State, a: Action, tenant: Tenant, n: nat, m: nat)
    requires n >= 1 && CallsOk(s) && Enabled(s, a)
    requires Headroom(s, tenant) >= -((n - 1) * m) && Within(Exec(s, a), tenant, n, m)
    ensures Headroom(Exec(s, a), tenant) >= -((n - 1) * m)
  {
    if a.DoCheckBalance? {
      assert CallOk(s, a.i);
      CheckHeadroom(s, a.i, tenant, n, m);
    } else if a.Deliver? {
      assert CallOk(s, a.i);
      DeliverHeadroom(s, a.i, tenant);
    } else if a.Spawn? {
      SpawnHeadroom(s, a.job, tenant);
    } else {
      QuietHeadroom(s, a, tenant);
    }
  }

  lemma {:induction false} RunHeadroom(s: State, actions: seq<Action>, s': State, tenant: Tenant, n: nat, m: nat)
    requires n >= 1 && Inv(s) && IsRun(s, actions, s') && WithinThroughout(s, actions, tenant, n, m)
    requires Headroom(s, tenant) >= -((n - 1) * m)
    ensures Headroom(s', tenant) >= -((n - 1) * m)
    decreases |actions|
  {
    if actions != [] {
      var a := actions[0];
      assert Throughout(Limits(tenant, n, m), Exec(s, a), actions[1..]);
      assert Limits(tenant, n, m)(s) && Limits(tenant, n, m)(Exec(s, a));
      StepHeadroom(s, a, tenant, n, m);
      StepKeeps(s, a);
      RunHeadroom(Exec(s, a), actions[1..], s', tenant, n, m);
    }
  }

  /** If at most n debits of a tenant are ever between their balance check and the ledger, each of
      at most m, the available balance never falls below -(n - 1) * m; with one debit at a time it
      is never negative. */
  lemma BoundedOverdraft(now: int, actions: seq<Action>, s: State, tenant: Tenant, n: nat, m: nat)
    requires n >= 1 && IsRun(InitialState(now), actions, s)
    requires WithinThroughout(InitialState(now), actions, tenant, n, m)
    ensures Available(s.ledger, TenantAccount(tenant)) >= -((n - 1) * m)
    ensures n == 1 ==> Available(s.ledger, TenantAccount(tenant)) >= 0
  {
    InitHolds(now);
    assert Amounts([], tenant) == [];
    assert (n - 1) * m >= 0;
    RunHeadroom(InitialState(now), actions, s, tenant, n, m);
    RunKeeps(InitialState(now), actions, s);
    ExposureNonNegative(s.calls, tenant);
  }

  lemma {:induction false} ExposureNonNegative(calls: seq<Call>, tenant: Tenant)
    ensures Sum(Amounts(calls, tenant)) >= 0
  {
    if calls != [] {
      var n := |calls| - 1;
      ExposureNonNegative(calls[..n], tenant);
      assert Amounts(calls, tenant)[..n] == Amounts(calls[..n], tenant);
    }
  }

  // ---- Double entry ----

  function Balances(ledger: seq<Transfer>): Tenant -> int {
    (tenant: Tenant) => Available(ledger, TenantAccount(tenant))
  }

  function Debits(ledger: seq<Transfer>): Tenant -> int {
    (tenant: Tenant) => DebitsPosted(ledger, TenantAccount(tenant))
  }

  function Credits(ledger: seq<Transfer>): Tenant -> int {
    (tenant: Tenant) => CreditsPosted(ledger, TenantAccount(tenant))
  }

  ghost predicate Covers(tenants: set<Tenant>, ledger: seq<Transfer>) {
    forall k :: 0 <= k < |ledger| ==> ledger[k].tenant in tenants
  }

  /** Across any mix of top-ups, investigation debits and assessment debits, the debits posted over
      all accounts equal the credits posted over all accounts, and the revenue account's net balance
      is the negation of the sum of the tenant balances. */
  lemma {:induction false} DoubleEntry(ledger: seq<Transfer>, tenants: set<Tenant>)
    requires Covers(tenants, ledger)
    ensures DebitsPosted(ledger, Revenue) + SumOver(tenants, Debits(ledger))
            == CreditsPosted(ledger, Revenue) + SumOver(tenants, Credits(ledger))
    ensures Available(ledger, Revenue) == -SumOver(tenants, Balances(ledger))
  {
    if ledger == [] {
      SumOverZero(tenants, Debits(ledger));
      SumOverZero(tenants, Credits(ledger));
      SumOverZero(tenants, Balances(ledger));
    } else {
      var n := |ledger| - 1;
      var init, t := ledger[..n], ledger[n];
      DoubleEntry(init, tenants);
      var debit: int, credit: int := DebitedFrom(t, TenantAccount(t.tenant)), CreditedTo(t, TenantAccount(t.tenant));
      SumOverShift(tenants, Debits(init), Debits(ledger), t.tenant, debit);
      SumOverShift(tenants, Credits(init), Credits(ledger), t.tenant, credit);
      SumOverShift(tenants, Balances(init), Balances(ledger), t.tenant, credit - debit);
    }
  }

  lemma {:induction false} SumOverZero(tenants: set<Tenant>, f: Tenant -> int)
    requires forall t :: t in tenants ==> f(t) == 0
    ensures SumOver(tenants, f) == 0
    decreases tenants
  {
    if tenants != {} {
      var t :| t in tenants;
      SumOverRemove(tenants, f, t);
      SumOverZero(tenants - {t}, f);
    }
  }

  lemma NotYetThere(ledger: seq<Transfer>, t: Transfer, id: TransferKey)
    requires !HasId(ledger, id) && t.Id() != id
    ensures !HasId(ledger + [t], id)
  {
    forall k | 0 <= k < |ledger + [t]| ensures (ledger + [t])[k].Id() != id {
      assert k < |ledger| ==> ledger[k].Id() != id;
    }
  }
}
