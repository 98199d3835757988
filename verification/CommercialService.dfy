/** The commercial billing router's transactions in imperative form, proved against the specification
    of each transaction's outcome. */
module CommercialService {
  import opened Common
  import opened EarliestExpiry
  import opened Commercial

  ghost predicate Holds(s: Store, r: Id, tenant: int, key: string) {
    r in s.reservations && s.reservations[r].tenant == tenant && s.reservations[r].key == key
  }

  /** The answer to a key that is already bound. */
  function OnReplay(row: Reservation, r: Id, time: int): Outcome {
    if row.status.Reserved? && row.expiresAt > time then Done(r, true) else Refused(Precondition)
  }

  /** What a reservation request may answer and leave behind. */
  ghost predicate ReserveSpec(s: Store, scope: Option<int>, q: Request, locked: set<Id>, o: Outcome, s': Store) {
    if q.tenant <= 0 then o == Refused(BadRequest) && s' == s
    else if scope.Some? && scope.value != q.tenant then o == Refused(Forbidden) && s' == s
    else if KeyTaken(s, q.tenant, q.key) then
      s' == s && exists r :: (Holds(s, r, q.tenant, q.key) && o == OnReplay(s.reservations[r], r, q.time))
    else if Picks(s, q.tenant, q.time, locked, None) then o == Refused(PaymentRequired) && s' == s
    else if InvestigationTaken(s, q.tenant, q.investigation) then o == Refused(UniqueViolation) && s' == s
    else
      o == Done(q.id, false)
      && exists g :: Picks(s, q.tenant, q.time, locked, Some(g)) && s' == AfterReserve(s, q, Some(g))
  }

  predicate Matches(s: Store, id: Id, tenant: int, investigation: string) {
    id in s.reservations && s.reservations[id].tenant == tenant && s.reservations[id].investigation == investigation
  }

  ghost predicate ConsumeSpec(s: Store, scope: Option<int>, tenant: int, id: Id, investigation: string, time: int,
                              o: Outcome, s': Store) {
    if tenant <= 0 then o == Refused(BadRequest) && s' == s
    else if scope.Some? && scope.value != tenant then o == Refused(Forbidden) && s' == s
    else if !Matches(s, id, tenant, investigation) then o == Refused(NotFound) && s' == s
    else if s.reservations[id].status.Consumed? then o == Done(id, true) && s' == s
    else if s.reservations[id].expiresAt <= time then o == Refused(Precondition) && s' == s
    else s.reservations[id].entitlement in s.entitlements && o == Done(id, false) && s' == AfterConsume(s, id)
  }

  /** What billing an assessment to an entitlement may answer and leave behind; q.key is the billing
      event, which holds its reservation exactly if the key is taken. */
  ghost predicate AssessSpec(s: Store, q: Request, locked: set<Id>, o: Outcome, s': Store) {
    if KeyTaken(s, q.tenant, q.key) then s' == s && o.Done? && o.idempotent && Holds(s, o.id, q.tenant, q.key)
    else if Picks(s, q.tenant, q.time, locked, None) then o == Refused(PaymentRequired) && s' == s
    else if InvestigationTaken(s, q.tenant, q.investigation) then o == Refused(UniqueViolation) && s' == s
    else
      o == Done(q.id, false)
      && exists g :: Picks(s, q.tenant, q.time, locked, Some(g)) && s' == AfterAssess(s, q, Some(g))
  }

  // ---- Subscriptions ----

  datatype Plan = Plan(active: bool, included: nat)

  datatype SubscriptionStatus = PendingStart | Running | PastDue | Cancelling | Cancelled | Suspended

  /** `authority` is the reference of a manual contract; other subscriptions have none. */
  datatype Subscription = Subscription(tenant: int, plan: string, status: SubscriptionStatus, period: Window,
                                       authority: Option<string>)

  predicate Live(sub: Subscription) {
    !sub.status.Cancelled? && !sub.status.Suspended?
  }

  predicate AuthorityUsed(subs: map<Id, Subscription>, authority: string) {
    exists s :: s in subs && subs[s].authority == Some(authority)
  }

  /** At most one subscription of a tenant is live. */
  ghost predicate OneLive(subs: map<Id, Subscription>) {
    forall a, b :: a in subs && b in subs && a != b && subs[a].tenant == subs[b].tenant ==>
      !(Live(subs[a]) && Live(subs[b]))
  }

  function CancelAll(subs: map<Id, Subscription>, tenant: int): map<Id, Subscription> {
    map id | id in subs
      :: if subs[id].tenant == tenant && Live(subs[id]) then subs[id].(status := Cancelled) else subs[id]
  }

  class Service {
    var entitlements: map<Id, Entitlement>
    var reservations: map<Id, Reservation>
    var usage: seq<UsageEvent>
    var plans: map<string, Plan>
    var subscriptions: map<Id, Subscription>

    function View(): Store
      reads this
    {
      Store(entitlements, reservations, usage)
    }

    /** ORDER BY period_end ASC ... SKIP LOCKED LIMIT 1. */
    method EarliestAvailable(tenant: int, time: int, locked: set<Id>) returns (pick: Option<Id>)
      ensures Picks(View(), tenant, time, locked, pick)
    {
      pick := None;
      var rest := entitlements.Keys;
      while rest != {}
        invariant rest <= entitlements.Keys
        invariant pick.Some? ==> Available(View(), tenant, time, locked, pick.value)
        invariant forall e :: Available(View(), tenant, time, locked, e) && e !in rest ==>
                    pick.Some? && entitlements[pick.value].period.end <= entitlements[e].period.end
        decreases rest
      {
        var e :| e in rest;
        rest := rest - {e};
        if Available(View(), tenant, time, locked, e)
           && (pick.None? || entitlements[e].period.end < entitlements[pick.value].period.end) {
          pick := Some(e);
        }
      }
    }

    /** `locked` are the entitlement rows concurrent transactions hold; q.id is a fresh identifier. */
    method ReserveCompletedCheck(scope: Option<int>, q: Request, locked: set<Id>) returns (o: Outcome)
      requires Conserved(View()) && q.id !in reservations
      modifies this`entitlements, this`reservations
      ensures Conserved(View())
      ensures ReserveSpec(old(View()), scope, q, locked, o, View())
    {
      if q.tenant <= 0 {
        return Refused(BadRequest);
      }
      if scope.Some? && scope.value != q.tenant {
        return Refused(Forbidden);
      }
      if KeyTaken(View(), q.tenant, q.key) {
        var r :| r in reservations && reservations[r].tenant == q.tenant && reservations[r].key == q.key;
        assert Holds(View(), r, q.tenant, q.key);
        if reservations[r].status.Reserved? && reservations[r].expiresAt > q.time {
          return Done(r, true);
        }
        return Refused(Precondition);
      }
      var pick := EarliestAvailable(q.tenant, q.time, locked);
      if pick.None? {
        return Refused(PaymentRequired);
      }
      if InvestigationTaken(View(), q.tenant, q.investigation) {
        return Refused(UniqueViolation);
      }
      ReserveConserves(View(), q, pick.value, locked, q.time + RESERVATION_TTL_MS);
      BookUnit(q, pick.value, q.time + RESERVATION_TTL_MS);
      return Done(q.id, false);
    }

    method BookUnit(q: Request, pick: Id, expiresAt: int)
      requires pick in entitlements
      modifies this`entitlements, this`reservations
      ensures View() == Booked(old(View()), q, pick, expiresAt)
    {
      var e := entitlements[pick];
      entitlements := entitlements[pick := e.(reserved := e.reserved + 1)];
      reservations := reservations[q.id := Reservation(q.tenant, pick, q.investigation, q.key, Reserved, expiresAt)];
    }

    /** The assessment billing worker: a unit is reserved and consumed in one transaction. */
    method ReserveAndConsume(q: Request, locked: set<Id>) returns (o: Outcome)
      requires Conserved(View()) && q.id !in reservations
      modifies this`entitlements, this`reservations, this`usage
      ensures Conserved(View())
      ensures AssessSpec(old(View()), q, locked, o, View())
    {
      if KeyTaken(View(), q.tenant, q.key) {
        var r :| r in reservations && reservations[r].tenant == q.tenant && reservations[r].key == q.key;
        return Done(r, true);
      }
      var pick := EarliestAvailable(q.tenant, q.time, locked);
      if pick.None? {
        return Refused(PaymentRequired);
      }
      if InvestigationTaken(View(), q.tenant, q.investigation) {
        return Refused(UniqueViolation);
      }
      AssessConserves(View(), q, pick.value, locked);
      BookUnit(q, pick.value, q.time);
      MoveUnit(q.tenant, q.id, q.investigation);
      return Done(q.id, false);
    }

    method ConsumeReservedCheck(scope: Option<int>, tenant: int, id: Id, investigation: string, time: int)
      returns (o: Outcome)
      requires Conserved(View())
      modifies this`entitlements, this`reservations, this`usage
      ensures Conserved(View())
      ensures ConsumeSpec(old(View()), scope, tenant, id, investigation, time, o, View())
    {
      if tenant <= 0 {
        return Refused(BadRequest);
      }
      if scope.Some? && scope.value != tenant {
        return Refused(Forbidden);
      }
      if !Matches(View(), id, tenant, investigation) {
        return Refused(NotFound);
      }
      var r := reservations[id];
      if r.status.Consumed? {
        return Done(id, true);
      }
      if r.expiresAt <= time {
        return Refused(Precondition);
      }
      ConsumeConserves(View(), id);
      MoveUnit(tenant, id, investigation);
      return Done(id, false);
    }

    method MoveUnit(tenant: int, id: Id, investigation: string)
      requires Matches(View(), id, tenant, investigation) && reservations[id].entitlement in entitlements
      modifies this`entitlements, this`reservations, this`usage
      ensures View() == AfterConsume(old(View()), id)
    {
      var r := reservations[id];
      reservations := reservations[id := r.(status := Consumed)];
      var e := entitlements[r.entitlement];
      entitlements := entitlements[r.entitlement := e.(reserved := e.reserved - 1, consumed := e.consumed + 1)];
      usage := usage + [UsageEvent(tenant, id, 1, investigation)];
    }

    /** The tenant's live subscriptions are cancelled and a new one is inserted. */
    method Subscribe(id: Id, sub: Subscription)
      requires OneLive(subscriptions) && id !in subscriptions
      modifies this`subscriptions
      ensures OneLive(subscriptions)
      ensures subscriptions.Keys == old(subscriptions).Keys + {id} && subscriptions[id] == sub
      ensures forall s :: s in old(subscriptions) ==>
                var before := old(subscriptions)[s];
                var live := before.status in {PendingStart, Running, PastDue, Cancelling};
                subscriptions[s] == if before.tenant == sub.tenant && live then before.(status := Cancelled) else before
    {
      subscriptions := CancelAll(subscriptions, sub.tenant)[id := sub];
    }

    /** Activates a contract: the tenant's live subscriptions are cancelled, a new one runs, and the
        units the plan includes are granted. `subscription` and `id` are fresh identifiers. */
    method ActivateManualContract(planCode: string, authority: string, subscription: Id, id: Id, tenant: int,
                                  period: Window)
      returns (o: Outcome)
      requires Conserved(View()) && OneLive(subscriptions) && id !in entitlements && subscription !in subscriptions
      modifies this`entitlements, this`subscriptions
      ensures Conserved(View()) && OneLive(subscriptions)
      ensures o == Refused(BadRequest) <==> period.end <= period.start
      ensures o == Refused(NotFound) <==>
                period.start < period.end && !(planCode in plans && plans[planCode].active)
      ensures o == Refused(UniqueViolation) <==>
                && period.start < period.end && planCode in plans && plans[planCode].active
                && exists s :: s in old(subscriptions) && old(subscriptions)[s].authority == Some(authority)
      ensures o.Refused? ==> View() == old(View()) && subscriptions == old(subscriptions)
      ensures o.Done? ==>
                && o == Done(subscription, false) && planCode in plans
                && View() == AfterActivate(old(View()), id, tenant, plans[planCode].included, period)
                && subscriptions.Keys == old(subscriptions).Keys + {subscription}
                && subscriptions[subscription] == Subscription(tenant, planCode, Running, period, Some(authority))
      ensures o.Done? ==>
                forall s :: s in old(subscriptions) ==>
                  var before := old(subscriptions)[s];
                  var live := before.status in {PendingStart, Running, PastDue, Cancelling};
                  subscriptions[s] == if before.tenant == tenant && live then before.(status := Cancelled) else before
      ensures o.Done? ==>
                && reservations == old(reservations) && usage == old(usage)
                && var units := plans[planCode].included;
                   entitlements == if units == 0 then old(entitlements)
                                   else old(entitlements)[id := Entitlement(tenant, units, 0, 0, period, Active)]
      ensures o.Done? || o.why in {BadRequest, NotFound, UniqueViolation}
    {
      if period.end <= period.start {
        return Refused(BadRequest);
      }
      if planCode !in plans || !plans[planCode].active {
        return Refused(NotFound);
      }
      if AuthorityUsed(subscriptions, authority) {
        return Refused(UniqueViolation);
      }
      var included := plans[planCode].included;
      ActivateConserves(View(), id, tenant, included, period);
      Subscribe(subscription, Subscription(tenant, planCode, Running, period, Some(authority)));
      if included > 0 {
        entitlements := entitlements[id := Entitlement(tenant, included, 0, 0, period, Active)];
      }
      return Done(subscription, false);
    }
  }

  // ---- Replays ----

  lemma {:induction false} KeysStayTaken(s: Store, events: seq<Event>, s': Store, tenant: int, key: string)
    requires IsRun(s, events, s') && KeyTaken(s, tenant, key)
    ensures KeyTaken(s', tenant, key)
    decreases |events|
  {
    if events != [] {
      var r :| r in s.reservations && s.reservations[r].tenant == tenant && s.reservations[r].key == key;
      var m := After(s, events[0]);
      assert r in m.reservations && m.reservations[r].tenant == tenant && m.reservations[r].key == key;
      KeysStayTaken(m, events[1..], s', tenant, key);
    }
  }

  lemma {:induction false} ConsumedStays(s: Store, events: seq<Event>, s': Store, id: Id)
    requires IsRun(s, events, s') && id in ConsumedIds(s)
    ensures id in ConsumedIds(s')
    decreases |events|
  {
    if events != [] {
      ConsumedStays(After(s, events[0]), events[1..], s', id);
    }
  }

  /** Replaying an idempotency key, however much later, changes nothing. */
  lemma ReplayedReserve(s: Store, events: seq<Event>, s': Store, scope: Option<int>, q: Request, locked: set<Id>,
                        o: Outcome, s'': Store)
    requires KeyTaken(s, q.tenant, q.key) && IsRun(s, events, s') && ReserveSpec(s', scope, q, locked, o, s'')
    ensures s'' == s' && (o.Done? ==> o.idempotent)
  {
    KeysStayTaken(s, events, s', q.tenant, q.key);
  }

  /** Consuming a consumed reservation again, however much later, changes nothing. */
  lemma ReplayedConsume(s: Store, events: seq<Event>, s': Store, scope: Option<int>, tenant: int, id: Id,
                        investigation: string, time: int, o: Outcome, s'': Store)
    requires id in ConsumedIds(s) && IsRun(s, events, s')
    requires ConsumeSpec(s', scope, tenant, id, investigation, time, o, s'')
    ensures s'' == s' && (o.Done? ==> o.idempotent)
  {
    ConsumedStays(s, events, s', id);
  }

  /** A reservation that was not refused before its query is a step of the runs reasoned about. */
  lemma ReserveCommits(s: Store, scope: Option<int>, q: Request, locked: set<Id>, o: Outcome, s': Store)
    returns (ev: Event)
    requires q.id !in s.reservations && ReserveSpec(s, scope, q, locked, o, s')
    requires o == Done(q.id, false)
             || (o == Refused(PaymentRequired) && !InvestigationTaken(s, q.tenant, q.investigation))
    ensures ev.Reserving? && ev.q == q && ev.locked == locked && Commits(s, ev) && s' == After(s, ev)
  {
    var pick: Option<Id> := None;
    if o.Done? {
      var g :| Picks(s, q.tenant, q.time, locked, Some(g)) && s' == AfterReserve(s, q, Some(g));
      pick := Some(g);
    }
    ev := Reserving(q, pick, locked);
  }

  // ---- How long a reservation lasts ----

  /** What a new reservation takes: a unit of an active entitlement of the tenant that the query time falls
      into and that has a unit left, the first of the unlocked ones to expire; it lasts twenty minutes. */
  lemma ReservedMeans(s: Store, scope: Option<int>, q: Request, locked: set<Id>, s': Store) returns (g: Id)
    requires q.id !in s.reservations && ReserveSpec(s, scope, q, locked, Done(q.id, false), s')
    ensures Usable(s, q, locked, g)
    ensures forall e :: Usable(s, q, locked, e) ==> s.entitlements[g].period.end <= s.entitlements[e].period.end
    ensures s'.entitlements == s.entitlements[g := s.entitlements[g].(reserved := s.entitlements[g].reserved + 1)]
    ensures s'.usage == s.usage && s'.reservations.Keys == s.reservations.Keys + {q.id}
    ensures forall r :: r in s.reservations ==> s'.reservations[r] == s.reservations[r]
    ensures s'.reservations[q.id]
            == Reservation(q.tenant, g, q.investigation, q.key, Reserved, q.time + 20 * 60 * 1000)
  {
    g :| Picks(s, q.tenant, q.time, locked, Some(g)) && s' == AfterReserve(s, q, Some(g));
    assert forall e :: Usable(s, q, locked, e) <==> Available(s, q.tenant, q.time, locked, e);
  }

  predicate Usable(s: Store, q: Request, locked: set<Id>, e: Id) {
    e in s.entitlements && e !in locked
    && var row := s.entitlements[e];
       && row.tenant == q.tenant && row.status == Active && row.period.start <= q.time < row.period.end
       && row.consumed + row.reserved < row.total
  }

  /** What a billed assessment takes: such a unit, consumed at once and recorded as used. */
  lemma AssessedMeans(s: Store, q: Request, locked: set<Id>, s': Store) returns (g: Id)
    requires q.id !in s.reservations && AssessSpec(s, q, locked, Done(q.id, false), s')
    ensures Usable(s, q, locked, g)
    ensures forall e :: Usable(s, q, locked, e) ==> s.entitlements[g].period.end <= s.entitlements[e].period.end
    ensures s'.entitlements == s.entitlements[g := s.entitlements[g].(consumed := s.entitlements[g].consumed + 1)]
    ensures s'.usage == s.usage + [UsageEvent(q.tenant, q.id, 1, q.investigation)]
    ensures forall r :: r in s.reservations ==> r in s'.reservations && s'.reservations[r] == s.reservations[r]
    ensures s'.reservations.Keys == s.reservations.Keys + {q.id}
    ensures s'.reservations[q.id] == Reservation(q.tenant, g, q.investigation, q.key, Consumed, q.time)
  {
    g :| Picks(s, q.tenant, q.time, locked, Some(g)) && s' == AfterAssess(s, q, Some(g));
    assert forall e :: Usable(s, q, locked, e) <==> Available(s, q.tenant, q.time, locked, e);
    AssessEffect(s, q, g);
  }

  lemma AssessEffect(s: Store, q: Request, g: Id)
    requires g in s.entitlements && q.id !in s.reservations
    ensures var s', e := AfterAssess(s, q, Some(g)), s.entitlements[g];
            && s'.entitlements == s.entitlements[g := e.(consumed := e.consumed + 1)]
            && s'.usage == s.usage + [UsageEvent(q.tenant, q.id, 1, q.investigation)]
            && s'.reservations
               == s.reservations[q.id := Reservation(q.tenant, g, q.investigation, q.key, Consumed, q.time)]
  {
  }

  /** Why a request without a bound key is refused. */
  lemma RefusedMeans(s: Store, scope: Option<int>, q: Request, locked: set<Id>, o: Outcome, s': Store)
    requires ReserveSpec(s, scope, q, locked, o, s') && o.Refused? && q.tenant > 0 && scope in {None, Some(q.tenant)}
    requires forall r :: r in s.reservations ==> s.reservations[r].tenant != q.tenant || s.reservations[r].key != q.key
    ensures if forall e :: !Usable(s, q, locked, e) then o == Refused(PaymentRequired)
            else o == Refused(UniqueViolation)
                 && exists r :: r in s.reservations && s.reservations[r].tenant == q.tenant
                                && s.reservations[r].investigation == q.investigation
  {
    assert forall e :: Usable(s, q, locked, e) <==> Available(s, q.tenant, q.time, locked, e);
    if InvestigationTaken(s, q.tenant, q.investigation) {
      var r :| r in s.reservations && s.reservations[r].tenant == q.tenant
               && s.reservations[r].investigation == q.investigation;
    }
  }

  /** Replaying the key of a reservation answers it while it lasts, and nothing else afterwards. */
  lemma ReplayAnswers(s: Store, scope: Option<int>, q: Request, locked: set<Id>, r: Id, o: Outcome, s': Store)
    requires Conserved(s) && q.tenant > 0 && scope in {None, Some(q.tenant)} && Holds(s, r, q.tenant, q.key)
    requires ReserveSpec(s, scope, q, locked, o, s')
    ensures s' == s
    ensures o == if s.reservations[r].status == Reserved && q.time < s.reservations[r].expiresAt
                 then Done(r, true) else Refused(Precondition)
  {
  }

  predicate Consumes(ev: Event, r: Id) {
    ev.Consuming? && ev.id == r
  }

  lemma {:induction false} ReservationKept(s: Store, events: seq<Event>, s': Store, r: Id)
    requires IsRun(s, events, s') && r in s.reservations
    requires forall k :: 0 <= k < |events| ==> !Consumes(events[k], r)
    ensures r in s'.reservations && s'.reservations[r] == s.reservations[r]
    decreases |events|
  {
    if events != [] {
      assert !Consumes(events[0], r);
      ReservationKept(After(s, events[0]), events[1..], s', r);
    }
  }

  /** A reservation that has not been consumed, whatever else has been done since, is answered to its key and
      can be consumed until its twenty minutes are over, and no longer. */
  lemma LastsTwentyMinutes(s: Store, scope: Option<int>, q: Request, locked: set<Id>, s1: Store, events: seq<Event>,
                           s2: Store, later: Request, locked2: set<Id>, o: Outcome, s3: Store)
    requires q.id !in s.reservations && ReserveSpec(s, scope, q, locked, Done(q.id, false), s1) && Conserved(s1)
    requires IsRun(s1, events, s2) && forall k :: 0 <= k < |events| ==> !Consumes(events[k], q.id)
    requires later.tenant == q.tenant && later.key == q.key && later.investigation == q.investigation
    ensures ConsumeSpec(s2, scope, q.tenant, q.id, q.investigation, later.time, o, s3) ==>
              if later.time < q.time + 20 * 60 * 1000
              then o == Done(q.id, false) && s3.usage == s2.usage + [UsageEvent(q.tenant, q.id, 1, q.investigation)]
              else o == Refused(Precondition) && s3 == s2
    ensures ReserveSpec(s2, scope, later, locked2, o, s3) ==>
              s3 == s2 && o == if later.time < q.time + 20 * 60 * 1000 then Done(q.id, true) else Refused(Precondition)
  {
    var g := ReservedMeans(s, scope, q, locked, s1);
    ReservationKept(s1, events, s2, q.id);
    RunConserves(s1, events, s2);
    if ReserveSpec(s2, scope, later, locked2, o, s3) {
      assert Holds(s2, q.id, q.tenant, q.key);
      ReplayAnswers(s2, scope, later, locked2, q.id, o, s3);
    }
  }
}
