/** The overdraft bound is exact: for every number of debits in flight there is a run that reaches it. */
module PrepaidOverdraft {
  import opened Common
  import opened TransferIds
  import opened PrepaidLedger
  import opened PrepaidBalances

  const REFERENCE := "BIS-TOP-1"

  // ---- Runs that stay within the limits ----

  ghost predicate ReachesWithin(s: State, s': State, tenant: Tenant, n: nat, m: nat) {
    exists actions :: IsRun(s, actions, s') && WithinThroughout(s, actions, tenant, n, m)
  }

  lemma Already(s: State, tenant: Tenant, n: nat, m: nat)
    requires Within(s, tenant, n, m)
    ensures ReachesWithin(s, s, tenant, n, m)
  {
    assert IsRun(s, [], s) && WithinThroughout(s, [], tenant, n, m);
  }

  /** One step earlier. */
  lemma Before(s: State, a: Action, mid: State, s': State, tenant: Tenant, n: nat, m: nat)
    requires Enabled(s, a) && mid == Exec(s, a) && Within(s, tenant, n, m) && ReachesWithin(mid, s', tenant, n, m)
    ensures ReachesWithin(s, s', tenant, n, m)
  {
    var rest :| IsRun(mid, rest, s') && WithinThroughout(mid, rest, tenant, n, m);
    var actions := [a] + rest;
    assert actions[0] == a && actions[1..] == rest;
    assert Limits(tenant, n, m)(s);
    assert IsRun(s, actions, s') && WithinThroughout(s, actions, tenant, n, m);
  }

  // ---- The run ----

  function EventName(k: nat): string {
    seq(k, i => 'x')
  }

  function Charge(tenant: Tenant, m: nat, k: nat): Transfer {
    AssessmentDebit(tenant, EventName(k), m)
  }

  function ChargeJob(tenant: Tenant, m: nat, k: nat): Job {
    AssessJob(tenant, EventName(k), m)
  }

  /** The tenant's one top-up, on its way through a settlement call. */
  function Paying(tenant: Tenant, m: nat, status: IntentStatus, paid: bool, calls: seq<Call>,
                  ledger: seq<Transfer>): State {
    InitialState(0).(intents := map[REFERENCE := Intent(tenant, m, NGN, status, INTENT_TTL_MS)],
                     payments := if paid then map[REFERENCE := Payment(m, NGN)] else map[],
                     calls := calls, ledger := ledger)
  }

  function Settling(pc: Pc, wire: Wire): seq<Call> {
    [Call(SettleJob(REFERENCE), pc, wire)]
  }

  function Deposit(tenant: Tenant, m: nat): Transfer {
    Topup(REFERENCE, tenant, m)
  }

  /** The first k of n charges have landed, the others have passed their balance check. */
  function Charges(tenant: Tenant, m: nat, n: nat, k: nat): seq<Call> {
    seq(n, j requires 0 <= j < n =>
          if j < k then Call(ChargeJob(tenant, m, j), Await(Charge(tenant, m, j)), Delivered(Charge(tenant, m, j)))
          else Call(ChargeJob(tenant, m, j), Post(Charge(tenant, m, j)), Idle))
  }

  function Landed(tenant: Tenant, m: nat, k: nat): seq<Transfer> {
    if k == 0 then [Deposit(tenant, m)] else Landed(tenant, m, k - 1) + [Charge(tenant, m, k - 1)]
  }

  function Charging(tenant: Tenant, m: nat, n: nat, k: nat): State {
    Paying(tenant, m, Pending, true,
           Settling(Await(Deposit(tenant, m)), Delivered(Deposit(tenant, m))) + Charges(tenant, m, n, k),
           Landed(tenant, m, k))
  }

  // ---- In flight ----

  lemma {:induction false} FlagsBound(calls: seq<Call>, tenant: Tenant)
    requires calls != [] ==> InFlight(calls[0], tenant) == 0
    ensures Sum(Flags(calls, tenant)) <= if calls == [] then 0 else |calls| - 1
  {
    if calls != [] {
      var n := |calls| - 1;
      FlagsBound(calls[..n], tenant);
      assert Flags(calls, tenant)[..n] == Flags(calls[..n], tenant);
    }
  }

  /** The first call is no debit, every other one is a debit of at most m, and there are at most n. */
  lemma FewCalls(s: State, tenant: Tenant, n: nat, m: nat)
    requires |s.calls| <= n + 1 && (s.calls != [] ==> InFlight(s.calls[0], tenant) == 0)
    requires forall i :: 0 <= i < |s.calls| ==> InFlight(s.calls[i], tenant) <= m
    ensures Within(s, tenant, n, m)
  {
    FlagsBound(s.calls, tenant);
  }

  // ---- Charging ----

  lemma ChargesWithin(tenant: Tenant, n: nat, m: nat, c: nat, k: nat)
    requires c <= n
    ensures Within(Charging(tenant, m, c, k), tenant, n, m)
  {
    FewCalls(Charging(tenant, m, c, k), tenant, n, m);
  }

  lemma {:induction false} LandedBalance(tenant: Tenant, m: nat, k: nat)
    ensures Available(Landed(tenant, m, k), TenantAccount(tenant)) == m - k * m
  {
    if k == 0 {
      AvailableSnoc([], Deposit(tenant, m), TenantAccount(tenant));
      assert [] + [Deposit(tenant, m)] == Landed(tenant, m, 0);
    } else {
      LandedBalance(tenant, m, k - 1);
      AvailableSnoc(Landed(tenant, m, k - 1), Charge(tenant, m, k - 1), TenantAccount(tenant));
      assert k * m == (k - 1) * m + m;
    }
  }

  lemma {:induction false} NotLanded(tenant: Tenant, m: nat, k: nat, j: nat)
    requires k <= j
    ensures !HasId(Landed(tenant, m, k), Charge(tenant, m, j).Id())
  {
    if k > 0 {
      NotLanded(tenant, m, k - 1, j);
      assert |EventName(k - 1)| != |EventName(j)|;
      NotYetThere(Landed(tenant, m, k - 1), Charge(tenant, m, k - 1), Charge(tenant, m, j).Id());
    }
  }

  /** A further charge has arrived and not yet checked the balance. */
  function Arriving(tenant: Tenant, m: nat, c: nat): State {
    var s := Charging(tenant, m, c, 0);
    s.(calls := s.calls + [Call(ChargeJob(tenant, m, c), CheckBalance(Charge(tenant, m, c)), Idle)])
  }

  lemma ChargeArrives(tenant: Tenant, m: nat, c: nat)
    requires m > 0
    ensures Enabled(Charging(tenant, m, c, 0), Spawn(ChargeJob(tenant, m, c)))
    ensures Exec(Charging(tenant, m, c, 0), Spawn(ChargeJob(tenant, m, c))) == Arriving(tenant, m, c)
  {
  }

  lemma CheckPasses(tenant: Tenant, m: nat, c: nat)
    ensures Enabled(Arriving(tenant, m, c), DoCheckBalance(c + 1))
    ensures Exec(Arriving(tenant, m, c), DoCheckBalance(c + 1)) == Charging(tenant, m, c + 1, 0)
  {
    LandedBalance(tenant, m, 0);
    var s, s' := Arriving(tenant, m, c), Charging(tenant, m, c + 1, 0);
    assert AfterCheckBalance(s, Charge(tenant, m, c)) == Post(Charge(tenant, m, c));
    assert Goto(s, c + 1, Post(Charge(tenant, m, c))).calls == s'.calls;
  }

  /** The next charge is on its way to the ledger. */
  function Sending(tenant: Tenant, m: nat, n: nat, k: nat): State
    requires k < n
  {
    var s, t := Charging(tenant, m, n, k), Charge(tenant, m, k);
    s.(calls := s.calls[k + 1 := Call(ChargeJob(tenant, m, k), Await(t), Flying(t))])
  }

  lemma ChargeSent(tenant: Tenant, m: nat, n: nat, k: nat)
    requires k < n
    ensures Enabled(Charging(tenant, m, n, k), DoPost(k + 1))
    ensures Exec(Charging(tenant, m, n, k), DoPost(k + 1)) == Sending(tenant, m, n, k)
  {
  }

  lemma ChargeLands(tenant: Tenant, m: nat, n: nat, k: nat)
    requires k < n
    ensures Enabled(Sending(tenant, m, n, k), Deliver(k + 1))
    ensures Exec(Sending(tenant, m, n, k), Deliver(k + 1)) == Charging(tenant, m, n, k + 1)
  {
    NotLanded(tenant, m, k, k);
    var s' := DeliverTransfer(Sending(tenant, m, n, k), k + 1);
    assert s'.ledger == Landed(tenant, m, k + 1);
    assert s'.calls == Charging(tenant, m, n, k + 1).calls;
  }

  /** The charges that are still to land. */
  lemma {:induction false} LandingReaches(tenant: Tenant, n: nat, m: nat, k: nat)
    requires k <= n
    ensures ReachesWithin(Charging(tenant, m, n, k), Charging(tenant, m, n, n), tenant, n, m)
    decreases n - k
  {
    ChargesWithin(tenant, n, m, n, k);
    if k == n {
      Already(Charging(tenant, m, n, n), tenant, n, m);
    } else {
      LandingReaches(tenant, n, m, k + 1);
      SendingReaches(tenant, n, m, k);
      ChargeSent(tenant, m, n, k);
      Before(Charging(tenant, m, n, k), DoPost(k + 1), Sending(tenant, m, n, k), Charging(tenant, m, n, n),
             tenant, n, m);
    }
  }

  lemma SendingReaches(tenant: Tenant, n: nat, m: nat, k: nat)
    requires k < n && ReachesWithin(Charging(tenant, m, n, k + 1), Charging(tenant, m, n, n), tenant, n, m)
    ensures ReachesWithin(Sending(tenant, m, n, k), Charging(tenant, m, n, n), tenant, n, m)
  {
    ChargeLands(tenant, m, n, k);
    FewCalls(Sending(tenant, m, n, k), tenant, n, m);
    Before(Sending(tenant, m, n, k), Deliver(k + 1), Charging(tenant, m, n, k + 1), Charging(tenant, m, n, n),
           tenant, n, m);
  }

  /** The charges that are still to arrive: each passes its check, because the ledger shows the whole
      top-up until the first of them lands. */
  lemma {:induction false} CheckingReaches(tenant: Tenant, n: nat, m: nat, c: nat)
    requires c <= n && m > 0
    ensures ReachesWithin(Charging(tenant, m, c, 0), Charging(tenant, m, n, n), tenant, n, m)
    decreases n - c
  {
    if c == n {
      LandingReaches(tenant, n, m, 0);
    } else {
      CheckingReaches(tenant, n, m, c + 1);
      ArrivingReaches(tenant, n, m, c);
      ChargesWithin(tenant, n, m, c, 0);
      ChargeArrives(tenant, m, c);
      Before(Charging(tenant, m, c, 0), Spawn(ChargeJob(tenant, m, c)), Arriving(tenant, m, c),
             Charging(tenant, m, n, n), tenant, n, m);
    }
  }

  lemma ArrivingReaches(tenant: Tenant, n: nat, m: nat, c: nat)
    requires c < n && ReachesWithin(Charging(tenant, m, c + 1, 0), Charging(tenant, m, n, n), tenant, n, m)
    ensures ReachesWithin(Arriving(tenant, m, c), Charging(tenant, m, n, n), tenant, n, m)
  {
    CheckPasses(tenant, m, c);
    FewCalls(Arriving(tenant, m, c), tenant, n, m);
    Before(Arriving(tenant, m, c), DoCheckBalance(c + 1), Charging(tenant, m, c + 1, 0), Charging(tenant, m, n, n),
           tenant, n, m);
  }

  // ---- Topping up ----

  lemma DepositLands(tenant: Tenant, m: nat)
    ensures var t := Deposit(tenant, m);
            var s := Paying(tenant, m, Pending, true, Settling(Await(t), Flying(t)), []);
            Enabled(s, Deliver(0)) && Exec(s, Deliver(0)) == Charging(tenant, m, 0, 0)
  {
    var s := Paying(tenant, m, Pending, true, Settling(Await(Deposit(tenant, m)), Flying(Deposit(tenant, m))), []);
    assert DeliverTransfer(s, 0).calls == Charging(tenant, m, 0, 0).calls;
  }

  lemma PostingReaches(tenant: Tenant, n: nat, m: nat)
    requires m >= TOPUP_MINIMUM_KOBO
    ensures ReachesWithin(Paying(tenant, m, Pending, true, Settling(Post(Deposit(tenant, m)), Idle), []),
                          Charging(tenant, m, n, n), tenant, n, m)
  {
    var t, end := Deposit(tenant, m), Charging(tenant, m, n, n);
    var s1 := Paying(tenant, m, Pending, true, Settling(Post(t), Idle), []);
    var s2 := Paying(tenant, m, Pending, true, Settling(Await(t), Flying(t)), []);
    var s3 := Charging(tenant, m, 0, 0);
    CheckingReaches(tenant, n, m, 0);
    DepositLands(tenant, m);
    FewCalls(s2, tenant, n, m);
    Before(s2, Deliver(0), s3, end, tenant, n, m);
    FewCalls(s1, tenant, n, m);
    Before(s1, DoPost(0), s2, end, tenant, n, m);
  }

  lemma ReadingReaches(tenant: Tenant, n: nat, m: nat)
    requires m >= TOPUP_MINIMUM_KOBO
    ensures ReachesWithin(Paying(tenant, m, Pending, true, [], []), Charging(tenant, m, n, n), tenant, n, m)
  {
    var end := Charging(tenant, m, n, n);
    var s0 := Paying(tenant, m, Pending, true, [], []);
    var s1 := Paying(tenant, m, Pending, true, Settling(ReadIntent(REFERENCE), Idle), []);
    var s2 := Paying(tenant, m, Pending, true, Settling(Verify(REFERENCE, s1.intents[REFERENCE]), Idle), []);
    var s3 := Paying(tenant, m, Pending, true, Settling(Post(Deposit(tenant, m)), Idle), []);
    PostingReaches(tenant, n, m);
    FewCalls(s2, tenant, n, m);
    Before(s2, DoVerify(0), s3, end, tenant, n, m);
    FewCalls(s1, tenant, n, m);
    Before(s1, DoReadIntent(0), s2, end, tenant, n, m);
    FewCalls(s0, tenant, n, m);
    Before(s0, Spawn(SettleJob(REFERENCE)), s1, end, tenant, n, m);
  }

  lemma StartReaches(tenant: Tenant, n: nat, m: nat)
    requires m >= TOPUP_MINIMUM_KOBO
    ensures ReachesWithin(InitialState(0), Charging(tenant, m, n, n), tenant, n, m)
  {
    var end := Charging(tenant, m, n, n);
    var s1 := Paying(tenant, m, Initializing, false, [], []);
    var s2 := Paying(tenant, m, Pending, false, [], []);
    var s3 := Paying(tenant, m, Pending, true, [], []);
    ReadingReaches(tenant, n, m);
    FewCalls(s2, tenant, n, m);
    Before(s2, ConfirmPayment(REFERENCE, Payment(m, NGN)), s3, end, tenant, n, m);
    FewCalls(s1, tenant, n, m);
    Before(s1, Initialized(REFERENCE, true), s2, end, tenant, n, m);
    FewCalls(InitialState(0), tenant, n, m);
    Before(InitialState(0), StartTopup(REFERENCE, tenant, m), s1, end, tenant, n, m);
  }

  // ---- The two results ----

  /** The bound is attained: a tenant tops up m once, n charges of m each pass their checks before the
      first of them lands, and then all land. */
  lemma BoundAttained(tenant: Tenant, n: nat, m: nat) returns (s: State)
    requires n >= 1 && m >= TOPUP_MINIMUM_KOBO
    ensures ReachesWithin(InitialState(0), s, tenant, n, m)
    ensures Available(s.ledger, TenantAccount(tenant)) == -((n - 1) * m)
  {
    s := Charging(tenant, m, n, n);
    StartReaches(tenant, n, m);
    LandedBalance(tenant, m, n);
    assert n * m == (n - 1) * m + m;
  }

  ghost predicate NeverNegative(tenant: Tenant, n: nat, m: nat) {
    forall now, s :: ReachesWithin(InitialState(now), s, tenant, n, m) ==>
      Available(s.ledger, TenantAccount(tenant)) >= 0
  }

  lemma {:induction false} ThroughoutWeaker(p: State -> bool, q: State -> bool, s: State, actions: seq<Action>)
    requires Throughout(p, s, actions) && forall x :: p(x) ==> q(x)
    ensures Throughout(q, s, actions)
    decreases |actions|
  {
    if actions != [] {
      ThroughoutWeaker(p, q, Exec(s, actions[0]), actions[1..]);
    }
  }

  /** Limiting a tenant to n debits in flight keeps its balance from ever becoming negative if and only
      if n is at most one. */
  lemma NeverNegativeIff(tenant: Tenant, n: nat, m: nat)
    requires m >= TOPUP_MINIMUM_KOBO
    ensures NeverNegative(tenant, n, m) <==> n <= 1
  {
    if n <= 1 {
      forall now, s | ReachesWithin(InitialState(now), s, tenant, n, m)
        ensures Available(s.ledger, TenantAccount(tenant)) >= 0
      {
        var actions :| IsRun(InitialState(now), actions, s)
                       && WithinThroughout(InitialState(now), actions, tenant, n, m);
        ThroughoutWeaker(Limits(tenant, n, m), Limits(tenant, 1, m), InitialState(now), actions);
        BoundedOverdraft(now, actions, s, tenant, 1, m);
      }
    } else {
      var s := BoundAttained(tenant, n, m);
      assert (n - 1) * m >= m;
    }
  }
}
