/** Commercial entitlements: completed-check reservations and their consumption. Each method of the
    store is one BEGIN..COMMIT transaction. */
module Commercial {
  import opened Common
  import opened EarliestExpiry

  const RESERVATION_TTL_MS := 20 * 60 * 1000

  datatype EntitlementStatus = Active | Expired | Revoked

  datatype Entitlement = Entitlement(tenant: int, total: nat, consumed: int, reserved: int, period: Window,
                                     status: EntitlementStatus)

  datatype ReservationStatus = Reserved | Consumed

  datatype Reservation = Reservation(tenant: int, entitlement: Id, investigation: string, key: string,
                                     status: ReservationStatus, expiresAt: int)

  datatype UsageEvent = UsageEvent(tenant: int, reservation: Id, units: int, investigation: string)

  datatype Store = Store(entitlements: map<Id, Entitlement>, reservations: map<Id, Reservation>, usage: seq<UsageEvent>)

  /** A reservation request; `id` is the fresh identifier its row would get. */
  datatype Request = Request(tenant: int, investigation: string, key: string, id: Id, time: int)

  datatype Refusal = BadRequest | Forbidden | NotFound | Precondition | PaymentRequired | UniqueViolation

  datatype Outcome = Done(id: Id, idempotent: bool) | Refused(why: Refusal)

  // ---- Conservation ----

  function WithStatus(s: Store, e: Id, status: ReservationStatus): set<Id> {
    set r | r in s.reservations && s.reservations[r].entitlement == e && s.reservations[r].status == status
  }

  function ConsumedIds(s: Store): set<Id> {
    set r | r in s.reservations && s.reservations[r].status.Consumed?
  }

  /** The counters of an entitlement are the numbers of its reservations by status, and together never
      exceed its total. */
  ghost predicate CountersExact(s: Store, e: Id)
    requires e in s.entitlements
  {
    var row := s.entitlements[e];
    && row.reserved == |WithStatus(s, e, Reserved)|
    && row.consumed == |WithStatus(s, e, Consumed)|
    && row.reserved + row.consumed <= row.total
  }

  /** Usage events and consumed reservations correspond one to one. */
  ghost predicate UsageExact(s: Store) {
    && (forall i, j :: 0 <= i < j < |s.usage| ==> s.usage[i].reservation != s.usage[j].reservation)
    && (forall i :: 0 <= i < |s.usage| ==> RecordsUse(s, s.usage[i]))
    && (forall r :: r in ConsumedIds(s) ==> exists i :: 0 <= i < |s.usage| && s.usage[i].reservation == r)
  }

  ghost predicate RecordsUse(s: Store, u: UsageEvent) {
    && u.reservation in s.reservations && s.reservations[u.reservation].status.Consumed?
    && u.units == 1 && u.tenant == s.reservations[u.reservation].tenant
    && u.investigation == s.reservations[u.reservation].investigation
  }

  /** The unique constraints on (tenant, idempotency key) and (tenant, investigation). */
  ghost predicate KeysUnique(s: Store) {
    forall q, r :: q in s.reservations && r in s.reservations && q != r
                   && s.reservations[q].tenant == s.reservations[r].tenant ==>
      (s.reservations[q].key != s.reservations[r].key
       && s.reservations[q].investigation != s.reservations[r].investigation)
  }

  ghost predicate Conserved(s: Store) {
    && (forall e :: e in s.entitlements ==> CountersExact(s, e))
    && (forall r :: r in s.reservations ==>
          s.reservations[r].entitlement in s.entitlements
          && s.entitlements[s.reservations[r].entitlement].tenant == s.reservations[r].tenant)
    && UsageExact(s) && KeysUnique(s)
  }

  // ---- Picking an entitlement ----

  /** The rows the locked SELECT may return: active, in period, with a spare unit, and not skipped
      because a concurrent transaction holds their lock. */
  predicate Available(s: Store, tenant: int, time: int, locked: set<Id>, e: Id) {
    e in s.entitlements && e !in locked
    && s.entitlements[e].tenant == tenant && s.entitlements[e].status.Active? && Covers(s.entitlements[e].period, time)
    && s.entitlements[e].total > s.entitlements[e].consumed + s.entitlements[e].reserved
  }

  ghost predicate Picks(s: Store, tenant: int, time: int, locked: set<Id>, pick: Option<Id>) {
    match pick
    case None => forall e :: !Available(s, tenant, time, locked, e)
    case Some(g) =>
      && Available(s, tenant, time, locked, g)
      && forall e :: Available(s, tenant, time, locked, e) ==>
           s.entitlements[g].period.end <= s.entitlements[e].period.end
  }

  predicate KeyTaken(s: Store, tenant: int, key: string) {
    exists r :: r in s.reservations && s.reservations[r].tenant == tenant && s.reservations[r].key == key
  }

  predicate InvestigationTaken(s: Store, tenant: int, investigation: string) {
    exists r :: r in s.reservations && s.reservations[r].tenant == tenant
                && s.reservations[r].investigation == investigation
  }

  // ---- Transactions as functions ----

  /** A unit of the entitlement is reserved. */
  function Booked(s: Store, q: Request, pick: Id, expiresAt: int): Store
    requires pick in s.entitlements
  {
    var e := s.entitlements[pick];
    s.(entitlements := s.entitlements[pick := e.(reserved := e.reserved + 1)],
       reservations := s.reservations[q.id := Reservation(q.tenant, pick, q.investigation, q.key, Reserved, expiresAt)])
  }

  function AfterReserve(s: Store, q: Request, pick: Option<Id>): Store
    requires pick.Some? ==> pick.value in s.entitlements
  {
    if pick.None? then s else Booked(s, q, pick.value, q.time + RESERVATION_TTL_MS)
  }

  /** An assessment reserves a unit and consumes it in one transaction. */
  function AfterAssess(s: Store, q: Request, pick: Option<Id>): Store
    requires pick.Some? ==> pick.value in s.entitlements
  {
    if pick.None? then s else AfterConsume(Booked(s, q, pick.value, q.time), q.id)
  }

  function AfterConsume(s: Store, id: Id): Store
    requires id in s.reservations && s.reservations[id].entitlement in s.entitlements
  {
    var r := s.reservations[id];
    var e := s.entitlements[r.entitlement];
    Store(s.entitlements[r.entitlement := e.(reserved := e.reserved - 1, consumed := e.consumed + 1)],
          s.reservations[id := r.(status := Consumed)],
          s.usage + [UsageEvent(r.tenant, id, 1, r.investigation)])
  }

  function AfterActivate(s: Store, id: Id, tenant: int, units: nat, period: Window): Store {
    if units == 0 then s
    else s.(entitlements := s.entitlements[id := Entitlement(tenant, units, 0, 0, period, Active)])
  }

  // ---- Every transaction conserves units ----

  lemma ReserveCounters(s: Store, q: Request, pick: Id, expiresAt: int, e: Id)
    requires pick in s.entitlements && q.id !in s.reservations && e in s.entitlements && CountersExact(s, e)
    requires s.entitlements[pick].total > s.entitlements[pick].consumed + s.entitlements[pick].reserved
    ensures CountersExact(Booked(s, q, pick, expiresAt), e)
  {
    var s' := Booked(s, q, pick, expiresAt);
    assert WithStatus(s', e, Consumed) == WithStatus(s, e, Consumed);
    if e == pick {
      assert WithStatus(s', e, Reserved) == WithStatus(s, e, Reserved) + {q.id};
    } else {
      assert WithStatus(s', e, Reserved) == WithStatus(s, e, Reserved);
    }
  }

  lemma ReserveKeys(s: Store, q: Request, pick: Id, expiresAt: int)
    requires KeysUnique(s) && pick in s.entitlements && q.id !in s.reservations
    requires !KeyTaken(s, q.tenant, q.key) && !InvestigationTaken(s, q.tenant, q.investigation)
    ensures KeysUnique(Booked(s, q, pick, expiresAt))
  {
  }

  lemma ReserveUsage(s: Store, q: Request, pick: Id, expiresAt: int)
    requires UsageExact(s) && pick in s.entitlements && q.id !in s.reservations
    ensures UsageExact(Booked(s, q, pick, expiresAt))
  {
    var s' := Booked(s, q, pick, expiresAt);
    assert ConsumedIds(s') == ConsumedIds(s);
    forall i | 0 <= i < |s'.usage| ensures RecordsUse(s', s'.usage[i]) {
      assert RecordsUse(s, s.usage[i]);
    }
  }

  /** Reserving a unit keeps the store conserved, whatever rows concurrent transactions hold. */
  lemma ReserveConserves(s: Store, q: Request, pick: Id, locked: set<Id>, expiresAt: int)
    requires Conserved(s) && Available(s, q.tenant, q.time, locked, pick) && q.id !in s.reservations
    requires !KeyTaken(s, q.tenant, q.key) && !InvestigationTaken(s, q.tenant, q.investigation)
    ensures Conserved(Booked(s, q, pick, expiresAt))
  {
    var s' := Booked(s, q, pick, expiresAt);
    forall e | e in s'.entitlements ensures CountersExact(s', e) {
      ReserveCounters(s, q, pick, expiresAt, e);
    }
    ReserveKeys(s, q, pick, expiresAt);
    ReserveUsage(s, q, pick, expiresAt);
  }

  lemma ConsumeCounters(s: Store, id: Id, e: Id)
    requires id in s.reservations && s.reservations[id].status.Reserved?
    requires s.reservations[id].entitlement in s.entitlements
    requires e in s.entitlements && CountersExact(s, e)
    ensures CountersExact(AfterConsume(s, id), e)
  {
    var s' := AfterConsume(s, id);
    if e == s.reservations[id].entitlement {
      assert id in WithStatus(s, e, Reserved) && id !in WithStatus(s, e, Consumed);
      assert WithStatus(s', e, Consumed) == WithStatus(s, e, Consumed) + {id};
      assert WithStatus(s', e, Reserved) == WithStatus(s, e, Reserved) - {id};
    } else {
      assert WithStatus(s', e, Consumed) == WithStatus(s, e, Consumed);
      assert WithStatus(s', e, Reserved) == WithStatus(s, e, Reserved);
    }
  }

  lemma ConsumeKeys(s: Store, id: Id)
    requires KeysUnique(s) && id in s.reservations && s.reservations[id].entitlement in s.entitlements
    ensures KeysUnique(AfterConsume(s, id))
  {
  }

  lemma ConsumeConserves(s: Store, id: Id)
    requires Conserved(s) && id in s.reservations && s.reservations[id].status.Reserved?
    ensures s.reservations[id].entitlement in s.entitlements && Conserved(AfterConsume(s, id))
  {
    var s' := AfterConsume(s, id);
    forall e | e in s'.entitlements ensures CountersExact(s', e) {
      ConsumeCounters(s, id, e);
    }
    ConsumeKeys(s, id);
    ConsumeUsageExact(s, id);
  }

  lemma ConsumeUsageExact(s: Store, id: Id)
    requires UsageExact(s) && id in s.reservations && s.reservations[id].status.Reserved?
    requires s.reservations[id].entitlement in s.entitlements
    ensures UsageExact(AfterConsume(s, id))
  {
    var s' := AfterConsume(s, id);
    forall i | 0 <= i < |s'.usage| ensures RecordsUse(s', s'.usage[i]) {
      assert i < |s.usage| ==> RecordsUse(s, s.usage[i]);
    }
    forall i | 0 <= i < |s.usage| ensures s.usage[i].reservation != id {
      assert RecordsUse(s, s.usage[i]);
    }
    forall r | r in ConsumedIds(s') ensures exists i :: 0 <= i < |s'.usage| && s'.usage[i].reservation == r {
      if r == id {
        assert s'.usage[|s.usage|].reservation == id;
      } else {
        assert r in ConsumedIds(s);
        var i :| 0 <= i < |s.usage| && s.usage[i].reservation == r;
        assert s'.usage[i].reservation == r;
      }
    }
  }

  lemma ActivateConserves(s: Store, id: Id, tenant: int, units: nat, period: Window)
    requires Conserved(s) && id !in s.entitlements
    ensures Conserved(AfterActivate(s, id, tenant, units, period))
  {
    var s' := AfterActivate(s, id, tenant, units, period);
    forall e | e in s'.entitlements ensures CountersExact(s', e) {
      assert WithStatus(s', e, Consumed) == WithStatus(s, e, Consumed);
      assert WithStatus(s', e, Reserved) == WithStatus(s, e, Reserved);
      if e in s.entitlements {
        assert CountersExact(s, e);
      } else {
        assert WithStatus(s, e, Consumed) == {} && WithStatus(s, e, Reserved) == {};
      }
    }
    if units > 0 {
      forall i | 0 <= i < |s'.usage| ensures RecordsUse(s', s'.usage[i]) {
        assert RecordsUse(s, s.usage[i]);
      }
      assert ConsumedIds(s') == ConsumedIds(s);
    }
  }

  // ---- Runs ----

  /** A committed transaction; `locked` are the entitlement rows that concurrent transactions hold. */
  datatype Event =
    | Reserving(q: Request, pick: Option<Id>, locked: set<Id>)
    | Assessing(q: Request, pick: Option<Id>, locked: set<Id>)
    | Consuming(id: Id, time: int)
    | Activating(entitlement: Id, holder: int, units: nat, period: Window)

  /** The event is a committed transaction of the store in state s. */
  ghost predicate Commits(s: Store, ev: Event) {
    match ev
    case Reserving(q, pick, locked) => Requested(s, q) && Picks(s, q.tenant, q.time, locked, pick)
    case Assessing(q, pick, locked) => Requested(s, q) && Picks(s, q.tenant, q.time, locked, pick)
    case Consuming(id, time) =>
      && id in s.reservations && s.reservations[id].status.Reserved? && time < s.reservations[id].expiresAt
      && s.reservations[id].entitlement in s.entitlements
    case Activating(entitlement, _, _, period) => entitlement !in s.entitlements && period.start < period.end
  }

  ghost predicate Requested(s: Store, q: Request) {
    q.id !in s.reservations && !KeyTaken(s, q.tenant, q.key) && !InvestigationTaken(s, q.tenant, q.investigation)
  }

  predicate Asks(ev: Event) {
    ev.Reserving? || ev.Assessing?
  }

  function After(s: Store, ev: Event): Store
    requires Asks(ev) && ev.pick.Some? ==> ev.pick.value in s.entitlements
    requires ev.Consuming? ==> ev.id in s.reservations && s.reservations[ev.id].entitlement in s.entitlements
  {
    match ev
    case Reserving(q, pick, _) => AfterReserve(s, q, pick)
    case Assessing(q, pick, _) => AfterAssess(s, q, pick)
    case Consuming(id, _) => AfterConsume(s, id)
    case Activating(entitlement, holder, units, period) => AfterActivate(s, entitlement, holder, units, period)
  }

  ghost predicate IsRun(s: Store, events: seq<Event>, s': Store)
    decreases |events|
  {
    if events == [] then s' == s
    else Commits(s, events[0]) && IsRun(After(s, events[0]), events[1..], s')
  }

  lemma AssessConserves(s: Store, q: Request, pick: Id, locked: set<Id>)
    requires Conserved(s) && Available(s, q.tenant, q.time, locked, pick) && Requested(s, q)
    ensures Conserved(AfterAssess(s, q, Some(pick)))
  {
    ReserveConserves(s, q, pick, locked, q.time);
    ConsumeConserves(Booked(s, q, pick, q.time), q.id);
  }

  lemma StepConserves(s: Store, ev: Event)
    requires Conserved(s) && Commits(s, ev)
    ensures Conserved(After(s, ev))
  {
    match ev
    case Reserving(q, pick, locked) =>
      if pick.Some? {
        ReserveConserves(s, q, pick.value, locked, q.time + RESERVATION_TTL_MS);
      }
    case Assessing(q, pick, locked) =>
      if pick.Some? {
        AssessConserves(s, q, pick.value, locked);
      }
    case Consuming(id, _) => ConsumeConserves(s, id);
    case Activating(entitlement, holder, units, period) => ActivateConserves(s, entitlement, holder, units, period);
  }

  /** Every reachable store conserves units, whatever rows were locked at any time. */
  lemma {:induction false} RunConserves(s: Store, events: seq<Event>, s': Store)
    requires Conserved(s) && IsRun(s, events, s')
    ensures Conserved(s')
    decreases |events|
  {
    if events != [] {
      StepConserves(s, events[0]);
      RunConserves(After(s, events[0]), events[1..], s');
    }
  }
}
