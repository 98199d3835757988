/** Rows that are locked by concurrent transactions when a reservation is made: when skipping one costs the
    tenant a request. */
module CommercialLocks {
  import opened Common
  import opened EarliestExpiry
  import opened Commercial
  import opened CommercialOptimality

  // ---- Which locks can cost a request ----

  /** Whatever follows the request, no other way of handing out the tenant's entitlements would have served
      more requests, but for one for each later request from which a lock hides a row. */
  ghost predicate Harmless(s: Store, ev: Event, tenant: int) {
    forall events: seq<Event>, s': Store, other: Assignment ::
      events != [] && events[0] == ev && IsRun(s, events, s') && Nondecreasing(RequestTimes(events, tenant))
      && Feasible(s, events, tenant, other) ==>
        Served(other) <= Served(Given(events, tenant)) + Hidden(After(s, ev), events[1..], tenant)
  }

  /** A locked row that could have been given, and that expires before the row that was. */
  ghost predicate SkipsEarlier(s: Store, ev: Event, tenant: int)
    requires Commits(s, ev) && Requests(ev, tenant)
  {
    exists e :: e in ev.locked && Available(s, tenant, ev.q.time, {}, e)
                && (ev.pick.Some? ==> s.entitlements[e].period.end < s.entitlements[ev.pick.value].period.end)
  }

  lemma HidesIff(s: Store, ev: Event, tenant: int)
    requires Commits(s, ev) && Requests(ev, tenant)
    ensures Hides(s, ev, tenant) <==> SkipsEarlier(s, ev, tenant)
  {
    forall e ensures Available(s, tenant, ev.q.time, {}, e)
                     <==> Available(s, tenant, ev.q.time, ev.locked, e)
                          || (e in ev.locked && Available(s, tenant, ev.q.time, {}, e))
    {
    }
  }

  /** A committed reservation or assessment costs its tenant no request, however the run goes on, if and only
      if no locked row that could have been given expires before the row it got. If one does, a run in which
      nothing is locked any more shows the cost. */
  lemma HarmlessIff(s: Store, ev: Event, tenant: int)
    requires Commits(s, ev) && Requests(ev, tenant)
    ensures Harmless(s, ev, tenant) <==> !SkipsEarlier(s, ev, tenant)
  {
    HidesIff(s, ev, tenant);
    if SkipsEarlier(s, ev, tenant) {
      var events, s', other := CostlyRun(s, ev, tenant);
    } else {
      forall events: seq<Event>, s': Store, other: Assignment
        | events != [] && events[0] == ev && IsRun(s, events, s') && Nondecreasing(RequestTimes(events, tenant))
          && Feasible(s, events, tenant, other)
        ensures Served(other) <= Served(Given(events, tenant)) + Hidden(After(s, ev), events[1..], tenant)
      {
        StoreServesMost(s, events, s', tenant, other);
      }
    }
  }

  /** The run that shows the cost: as many requests as it takes, at the time the skipped row has just
      expired. */
  lemma CostlyRun(s: Store, ev: Event, tenant: int) returns (events: seq<Event>, s': Store, other: Assignment)
    requires Commits(s, ev) && Requests(ev, tenant) && SkipsEarlier(s, ev, tenant)
    ensures events != [] && events[0] == ev && IsRun(s, events, s') && Nondecreasing(RequestTimes(events, tenant))
    ensures Hidden(After(s, ev), events[1..], tenant) == 0 && Feasible(s, events, tenant, other)
    ensures Served(Given(events, tenant)) < Served(other)
  {
    var windows, spare, time, pick := Windows(s, tenant), Spare(s, tenant), ev.q.time, ev.pick;
    var h := SkippedRow(s, ev, tenant);
    var times;
    times, other := LateCosts(windows, spare, time, pick, h);
    RequestSpare(s, ev, tenant);
    var later;
    later, s' := AskRepeatedly(After(s, ev), tenant, windows[h].end, |times| - 1);
    events := [ev] + later;
    assert events[1..] == later;
    assert RequestTimes(later, tenant) == times[1..];
    assert RequestTimes(events, tenant) == [time] + times[1..] == times;
    FeasibleIffValid(s, events, tenant, other);
    StoreServesMost(After(s, ev), later, s', tenant, []);
    FeasibleIffValid(After(s, ev), later, tenant, Given(later, tenant));
    assert Given(events, tenant) == [pick] + Given(later, tenant);
    assert Given(events, tenant)[1..] == Given(later, tenant);
  }

  lemma SkippedRow(s: Store, ev: Event, tenant: int) returns (h: Id)
    requires Commits(s, ev) && Requests(ev, tenant) && SkipsEarlier(s, ev, tenant)
    ensures var windows, spare, time := Windows(s, tenant), Spare(s, tenant), ev.q.time;
            && Candidate(windows, spare, time, h)
            && (ev.pick.Some? ==>
                  Candidate(windows, spare, time, ev.pick.value) && windows[h].end < windows[ev.pick.value].end)
  {
    h :| h in ev.locked && Available(s, tenant, ev.q.time, {}, h)
         && (ev.pick.Some? ==> s.entitlements[h].period.end < s.entitlements[ev.pick.value].period.end);
    assert ev.pick.Some? ==> Available(s, tenant, ev.q.time, {}, ev.pick.value);
  }

  /** Without activations, what is feasible in the run is a valid assignment of the units there are. */
  lemma FeasibleIffValid(s: Store, events: seq<Event>, tenant: int, a: Assignment)
    requires AllRequests(events, tenant)
    ensures Feasible(s, events, tenant, a) <==>
              ValidAssignment(Windows(s, tenant), Spare(s, tenant), RequestTimes(events, tenant), a)
  {
    PlainTotal(Spare(s, tenant), events, tenant);
    PlainPeriods(Windows(s, tenant), events, tenant, a);
  }

  ghost predicate AllRequests(events: seq<Event>, tenant: int) {
    forall k :: 0 <= k < |events| ==> Requests(events[k], tenant)
  }

  lemma {:induction false} PlainTotal(spare: map<Id, nat>, events: seq<Event>, tenant: int)
    requires AllRequests(events, tenant)
    ensures Total(spare, events, tenant) == spare
    decreases |events|
  {
    if events != [] {
      PlainTotal(spare, events[1..], tenant);
    }
  }

  lemma {:induction false} PlainPeriods(known: map<Id, Window>, events: seq<Event>, tenant: int, a: Assignment)
    requires AllRequests(events, tenant)
    ensures InPeriod(known, events, tenant, a) <==>
              && |a| == |RequestTimes(events, tenant)|
              && forall j :: 0 <= j < |a| && a[j].Some? ==>
                   a[j].value in known && Covers(known[a[j].value], RequestTimes(events, tenant)[j])
    decreases |events|
  {
    var times := RequestTimes(events, tenant);
    if events != [] {
      var rest := RequestTimes(events[1..], tenant);
      assert times == [events[0].q.time] + rest;
      if a != [] {
        PlainPeriods(known, events[1..], tenant, a[1..]);
        assert forall j :: 1 <= j < |a| ==> a[1..][j - 1] == a[j];
        assert forall j :: 1 <= j < |times| ==> rest[j - 1] == times[j];
        assert forall j :: 0 <= j < |a| - 1 ==> a[1..][j] == a[j + 1];
        assert forall j :: 0 <= j < |rest| ==> rest[j] == times[j + 1];
      }
    }
  }

  // ---- Requests can always be made ----

  /** The tenant asks n times, with nothing locked. */
  lemma {:induction false} AskRepeatedly(s: Store, tenant: int, time: int, n: nat)
    returns (events: seq<Event>, s': Store)
    ensures IsRun(s, events, s') && AllRequests(events, tenant) && Hidden(s, events, tenant) == 0
    ensures |RequestTimes(events, tenant)| == n && AllAt(RequestTimes(events, tenant), time)
    decreases n
  {
    events, s' := [], s;
    if n > 0 {
      var ev := Ask(s, tenant, time);
      var rest;
      rest, s' := AskRepeatedly(After(s, ev), tenant, time, n - 1);
      events := [ev] + rest;
      assert events[1..] == rest;
      assert RequestTimes(events, tenant) == [time] + RequestTimes(rest, tenant);
    }
  }

  lemma Ask(s: Store, tenant: int, time: int) returns (ev: Event)
    ensures Commits(s, ev) && Requests(ev, tenant) && ev.q.time == time && ev.locked == {}
    ensures !Hides(s, ev, tenant)
  {
    var keys := set r | r in s.reservations :: s.reservations[r].key;
    var investigations := set r | r in s.reservations :: s.reservations[r].investigation;
    var x := Unused(s.reservations.Keys + keys + investigations);
    var pick := FirstAvailable(s, tenant, time);
    ev := Reserving(Request(tenant, x, x, x, time), pick, {});
    assert forall r :: r in s.reservations ==> s.reservations[r].key in keys;
    assert forall r :: r in s.reservations ==> s.reservations[r].investigation in investigations;
  }

  lemma FirstAvailable(s: Store, tenant: int, time: int) returns (pick: Option<Id>)
    ensures Picks(s, tenant, time, {}, pick)
  {
    var free := set e | e in s.entitlements && Available(s, tenant, time, {}, e);
    assert forall e :: Available(s, tenant, time, {}, e) <==> e in free;
    pick := None;
    if free != {} {
      var end := e => if e in s.entitlements then s.entitlements[e].period.end else 0;
      var g := Least(free, end);
      pick := Some(g);
      assert forall e :: e in free ==> end(e) == s.entitlements[e].period.end;
    }
  }

  // ---- A run that serves one request fewer ----

  function Grant(end: int): Entitlement {
    Entitlement(1, 1, 0, 0, Window(0, end), Active)
  }

  const TWO_UNITS := Store(map["a" := Grant(10), "b" := Grant(20)], map[], [])
  const FIRST := Request(1, "i", "k", "r", 1)
  const SECOND := Request(1, "j", "l", "t", 15)
  const BOTH: seq<Event> := [Reserving(FIRST, Some("b"), {"a"}), Reserving(SECOND, None, {})]

  function AfterFirst(): Store {
    Booked(TWO_UNITS, FIRST, "b", FIRST.time + RESERVATION_TTL_MS)
  }

  lemma FirstCommits()
    ensures Commits(TWO_UNITS, BOTH[0]) && After(TWO_UNITS, BOTH[0]) == AfterFirst()
  {
    assert Available(TWO_UNITS, 1, 1, {"a"}, "b");
  }

  lemma SecondCommits()
    ensures Commits(AfterFirst(), BOTH[1]) && After(AfterFirst(), BOTH[1]) == AfterFirst()
  {
    var s := AfterFirst();
    assert s.reservations.Keys == {"r"} && s.reservations["r"].key == "k" && s.reservations["r"].investigation == "i";
    assert s.entitlements.Keys == {"a", "b"} && s.entitlements["b"].reserved == 1;
    assert SECOND.key != "k" && SECOND.investigation != "i" && SECOND.id != "r";
    forall e ensures !Available(s, 1, 15, {}, e) {
      assert e in s.entitlements ==> e == "a" || e == "b";
    }
  }

  lemma OtherWayFeasible()
    ensures Feasible(TWO_UNITS, BOTH, 1, [Some("a"), Some("b")]) && Served([Some("a"), Some("b")]) == 2
  {
    var other: Assignment := [Some("a"), Some("b")];
    var known, total, last := Windows(TWO_UNITS, 1), Spare(TWO_UNITS, 1), BOTH[1..];
    assert last == [BOTH[1]] && last[1..] == [] && other[1..] == [Some("b")] && other[1..][1..] == [];
    assert InPeriod(known, last[1..], 1, []);
    assert InPeriod(known, last, 1, other[1..]);
    assert Total(total, last[1..], 1) == total && Total(total, last, 1) == total;
    assert Uses(other[1..], "a") == 0 && Uses(other[1..], "b") == 1;
    assert Uses(other, "a") == 1 && Uses(other, "b") == 1;
  }

  /** Skipping a locked row can cost a request: one unit ends at 10 and one at 20, the first request
      finds the earlier one locked and takes the later one, and at time 15 nothing is left; the other
      way round both requests would have been served. */
  lemma LockedServesLess() returns (other: Assignment)
    ensures IsRun(TWO_UNITS, BOTH, AfterFirst()) && Nondecreasing(RequestTimes(BOTH, 1))
    ensures Hidden(TWO_UNITS, BOTH, 1) == 1
    ensures Feasible(TWO_UNITS, BOTH, 1, other) && Served(other) == 2 && Served(Given(BOTH, 1)) == 1
  {
    other := [Some("a"), Some("b")];
    FirstCommits();
    SecondCommits();
    OtherWayFeasible();
    var last := BOTH[1..];
    assert last == [BOTH[1]] && last[1..] == [];
    assert IsRun(AfterFirst(), last, AfterFirst());
    assert Requests(BOTH[0], 1) && Requests(last[0], 1);
    assert RequestTimes(last[1..], 1) == [] && RequestTimes(last, 1) == [15];
    assert RequestTimes(BOTH, 1) == [1] + [15] == [1, 15];
    assert Given(last[1..], 1) == [] && Given(last, 1) == [None];
    assert Given(BOTH, 1) == [Some("b")] + [None] == [Some("b"), None];
    assert Served([None]) == 0;
    assert Available(TWO_UNITS, 1, 1, {}, "a");
    assert Available(TWO_UNITS, 1, 1, {"a"}, "b");
    assert Hidden(AfterFirst(), last[1..], 1) == 0 && Hidden(AfterFirst(), last, 1) == 0;
  }
}
