/** What the store hands out over a run is the best any assignment could do, also when contracts are
    activated while the run is under way. */
module CommercialOptimality {
  import opened Common
  import opened EarliestExpiry
  import opened Commercial

  // ---- Requests, grants and assignments of one tenant ----

  predicate Requests(ev: Event, tenant: int) {
    Asks(ev) && ev.q.tenant == tenant
  }

  predicate Grants(ev: Event, tenant: int) {
    ev.Activating? && ev.holder == tenant && ev.units > 0
  }

  function RequestTimes(events: seq<Event>, tenant: int): seq<int> {
    if events == [] then []
    else (if Requests(events[0], tenant) then [events[0].q.time] else []) + RequestTimes(events[1..], tenant)
  }

  /** What the tenant's requests were given. */
  function Given(events: seq<Event>, tenant: int): Assignment {
    if events == [] then []
    else (if Requests(events[0], tenant) then [events[0].pick] else []) + Given(events[1..], tenant)
  }

  /** The tenant's usable periods, and the units each still has to give. */
  function Windows(s: Store, tenant: int): map<Id, Window> {
    map e | e in s.entitlements && s.entitlements[e].tenant == tenant && s.entitlements[e].status.Active?
      :: s.entitlements[e].period
  }

  function Units(e: Entitlement): nat {
    if e.total > e.consumed + e.reserved then e.total - e.consumed - e.reserved else 0
  }

  function Spare(s: Store, tenant: int): map<Id, nat> {
    map e | e in s.entitlements && s.entitlements[e].tenant == tenant && s.entitlements[e].status.Active?
      :: Units(s.entitlements[e])
  }

  function Granting(spare: map<Id, nat>, ev: Event, tenant: int): map<Id, nat> {
    if Grants(ev, tenant) then spare[ev.entitlement := ev.units] else spare
  }

  /** The units there were at the start and those granted since. */
  function Total(spare: map<Id, nat>, events: seq<Event>, tenant: int): map<Id, nat>
    decreases |events|
  {
    if events == [] then spare
    else
      Total(Granting(spare, events[0], tenant), events[1..], tenant)
  }

  /** Every request gets nothing, or an entitlement that had been granted by then and whose period
      covers the time of the request. */
  ghost predicate InPeriod(known: map<Id, Window>, events: seq<Event>, tenant: int, a: Assignment)
    decreases |events|
  {
    if events == [] then a == []
    else if Grants(events[0], tenant) then
      InPeriod(known[events[0].entitlement := events[0].period], events[1..], tenant, a)
    else if Requests(events[0], tenant) then
      && a != []
      && (a[0].Some? ==> a[0].value in known && Covers(known[a[0].value], events[0].q.time))
      && InPeriod(known, events[1..], tenant, a[1..])
    else InPeriod(known, events[1..], tenant, a)
  }

  /** A way of serving the run's requests of the tenant from its entitlements. */
  ghost predicate Feasible(s: Store, events: seq<Event>, tenant: int, a: Assignment) {
    && InPeriod(Windows(s, tenant), events, tenant, a)
    && var total := Total(Spare(s, tenant), events, tenant);
       forall e :: e in total ==> Uses(a, e) <= total[e]
  }

  /** A lock hides a row from a request that it would have been given: the pick is not one the query could
      have made with nothing locked. */
  ghost predicate Hides(s: Store, ev: Event, tenant: int) {
    Requests(ev, tenant) && !Picks(s, tenant, ev.q.time, {}, ev.pick)
  }

  /** How many of the tenant's requests had a row hidden from them. */
  ghost function Hidden(s: Store, events: seq<Event>, tenant: int): nat
    decreases |events|
  {
    if events == [] || !Commits(s, events[0]) then 0
    else (if Hides(s, events[0], tenant) then 1 else 0) + Hidden(After(s, events[0]), events[1..], tenant)
  }

  // ---- Steps ----

  lemma BookedSpare(s: Store, q: Request, pick: Id, expiresAt: int, tenant: int)
    requires Available(s, q.tenant, q.time, {}, pick)
             || (q.tenant != tenant && pick in s.entitlements && s.entitlements[pick].tenant == q.tenant)
    ensures Windows(Booked(s, q, pick, expiresAt), tenant) == Windows(s, tenant)
    ensures Spare(Booked(s, q, pick, expiresAt), tenant)
            == if q.tenant == tenant then Take(Spare(s, tenant), Some(pick)) else Spare(s, tenant)
  {
  }

  lemma ConsumeSpare(s: Store, id: Id, tenant: int)
    requires id in s.reservations && s.reservations[id].entitlement in s.entitlements
    ensures Windows(AfterConsume(s, id), tenant) == Windows(s, tenant)
    ensures Spare(AfterConsume(s, id), tenant) == Spare(s, tenant)
  {
  }

  lemma RequestSpare(s: Store, ev: Event, tenant: int)
    requires Commits(s, ev) && Requests(ev, tenant)
    ensures Windows(After(s, ev), tenant) == Windows(s, tenant)
    ensures Spare(After(s, ev), tenant) == Take(Spare(s, tenant), ev.pick)
  {
    if ev.pick.Some? {
      var expiresAt := if ev.Reserving? then ev.q.time + RESERVATION_TTL_MS else ev.q.time;
      BookedSpare(s, ev.q, ev.pick.value, expiresAt, tenant);
      if ev.Assessing? {
        ConsumeSpare(Booked(s, ev.q, ev.pick.value, expiresAt), ev.q.id, tenant);
      }
    }
  }

  lemma OtherSpare(s: Store, ev: Event, tenant: int)
    requires Commits(s, ev) && !Requests(ev, tenant) && !Grants(ev, tenant)
    ensures Windows(After(s, ev), tenant) == Windows(s, tenant)
    ensures Spare(After(s, ev), tenant) == Spare(s, tenant)
  {
    if Asks(ev) && ev.pick.Some? {
      var expiresAt := if ev.Reserving? then ev.q.time + RESERVATION_TTL_MS else ev.q.time;
      BookedSpare(s, ev.q, ev.pick.value, expiresAt, tenant);
      if ev.Assessing? {
        ConsumeSpare(Booked(s, ev.q, ev.pick.value, expiresAt), ev.q.id, tenant);
      }
    } else if ev.Consuming? {
      ConsumeSpare(s, ev.id, tenant);
    }
  }

  lemma GrantSpare(s: Store, ev: Event, tenant: int)
    requires Commits(s, ev) && Grants(ev, tenant)
    ensures Windows(After(s, ev), tenant) == Windows(s, tenant)[ev.entitlement := ev.period]
    ensures Spare(After(s, ev), tenant) == Spare(s, tenant)[ev.entitlement := ev.units]
  {
  }

  /** Identifiers are never granted twice. */
  predicate Granted(events: seq<Event>, tenant: int, e: Id) {
    exists k :: 0 <= k < |events| && Grants(events[k], tenant) && events[k].entitlement == e
  }

  lemma {:induction false} GrantsAreFresh(s: Store, events: seq<Event>, s': Store, tenant: int, e: Id)
    requires IsRun(s, events, s') && e in s.entitlements
    ensures !Granted(events, tenant, e)
    decreases |events|
  {
    if events != [] {
      var s1, rest := After(s, events[0]), events[1..];
      GrantsAreFresh(s1, rest, s', tenant, e);
      assert forall k :: 1 <= k < |events| ==> rest[k - 1] == events[k];
    }
  }

  // ---- One clock for times and grants ----

  /** Event number i of a run of at most n, at the given time. */
  function Clock(time: int, i: nat, n: nat): int {
    time * n + i
  }

  function Times(events: seq<Event>, tenant: int, i: nat, n: nat): seq<int> {
    if events == [] then []
    else
      (if Requests(events[0], tenant) then [Clock(events[0].q.time, i, n)] else [])
      + Times(events[1..], tenant, i + 1, n)
  }

  /** A period on that clock, cut off before `from`. */
  function Cut(w: Window, from: int, n: nat): Window {
    Window(if w.start * n < from then from else w.start * n, w.end * n)
  }

  /** The clock after an event: past the request, if it was one. */
  function Later(ev: Event, tenant: int, i: nat, n: nat, from: int): int {
    if Requests(ev, tenant) then Clock(ev.q.time, i, n) + 1 else from
  }

  /** A period granted now starts after the requests so far. */
  function Cutting(cut: map<Id, Window>, ev: Event, tenant: int, n: nat, from: int): map<Id, Window> {
    if Grants(ev, tenant) then cut[ev.entitlement := Cut(ev.period, from, n)] else cut
  }

  /** The periods of all entitlements the run will have had. */
  function AllWindows(cut: map<Id, Window>, events: seq<Event>, tenant: int, i: nat, n: nat, from: int): map<Id, Window>
    decreases |events|
  {
    if events == [] then cut
    else
      AllWindows(Cutting(cut, events[0], tenant, n, from), events[1..], tenant, i + 1, n,
                 Later(events[0], tenant, i, n, from))
  }

  /** The cut periods are those of the known entitlements, cut no later than `from`. */
  ghost predicate Tracks(cut: map<Id, Window>, known: map<Id, Window>, n: nat, from: int) {
    && cut.Keys == known.Keys
    && forall e :: e in known ==>
         cut[e].end == known[e].end * n && known[e].start * n <= cut[e].start
         && (cut[e].start == known[e].start * n || cut[e].start <= from)
  }

  lemma ClockCovers(w: Window, c: Window, time: int, i: nat, n: nat, from: int)
    requires i < n && c.end == w.end * n && w.start * n <= c.start && (c.start == w.start * n || c.start <= from)
    requires from <= Clock(time, i, n)
    ensures Covers(c, Clock(time, i, n)) <==> Covers(w, time)
  {
    ClockOrder(w.end, time, i, n);
    ClockOrder(w.start, time, i, n);
  }

  lemma ClockOrder(bound: int, time: int, i: nat, n: nat)
    requires i < n
    ensures bound * n <= time * n + i <==> bound <= time
  {
    if bound <= time {
      MulMonotone(bound, time, n);
    } else {
      MulMonotone(time + 1, bound, n);
      assert (time + 1) * n == time * n + n;
    }
  }

  ghost predicate Rising(times: seq<int>, from: int)
    decreases |times|
  {
    times != [] ==> from <= times[0] && Rising(times[1..], times[0] + 1)
  }

  // ---- What the whole run will have had ----

  lemma {:induction false} AllWindowsAt(cut: map<Id, Window>, events: seq<Event>, tenant: int, i: nat, n: nat,
                                        from: int, e: Id)
    requires Rising(Times(events, tenant, i, n), from)
    ensures var all := AllWindows(cut, events, tenant, i, n, from);
            && (e in all <==> e in cut || Granted(events, tenant, e))
            && (!Granted(events, tenant, e) && e in cut ==> all[e] == cut[e])
            && (Granted(events, tenant, e) ==> from <= all[e].start)
    decreases |events|
  {
    if events != [] {
      var ev, rest := events[0], events[1..];
      GrantedSplit(events, tenant, e);
      TimesRest(events, tenant, i, n, from);
      AllWindowsAt(Cutting(cut, ev, tenant, n, from), rest, tenant, i + 1, n, Later(ev, tenant, i, n, from), e);
    }
  }

  lemma GrantedSplit(events: seq<Event>, tenant: int, e: Id)
    requires events != []
    ensures Granted(events, tenant, e) <==>
              (Grants(events[0], tenant) && events[0].entitlement == e) || Granted(events[1..], tenant, e)
  {
    assert forall k :: 1 <= k < |events| ==> events[1..][k - 1] == events[k];
    if Granted(events[1..], tenant, e) {
      var k :| 0 <= k < |events| - 1 && Grants(events[1..][k], tenant) && events[1..][k].entitlement == e;
      assert events[k + 1] == events[1..][k];
    }
  }

  lemma {:induction false} TotalAt(spare: map<Id, nat>, events: seq<Event>, tenant: int, e: Id)
    ensures var total := Total(spare, events, tenant);
            && (e in total <==> e in spare || Granted(events, tenant, e))
            && (!Granted(events, tenant, e) && e in spare ==> total[e] == spare[e])
    decreases |events|
  {
    if events != [] {
      GrantedSplit(events, tenant, e);
      TotalAt(Granting(spare, events[0], tenant), events[1..], tenant, e);
    }
  }

  lemma {:induction false} TotalUpdate(spare: map<Id, nat>, events: seq<Event>, tenant: int, e: Id, units: nat)
    requires e in spare && !Granted(events, tenant, e)
    ensures Total(spare[e := units], events, tenant) == Total(spare, events, tenant)[e := units]
    decreases |events|
  {
    if events != [] {
      var ev, rest := events[0], events[1..];
      GrantedSplit(events, tenant, e);
      if Grants(ev, tenant) {
        assert spare[e := units][ev.entitlement := ev.units] == spare[ev.entitlement := ev.units][e := units];
        TotalUpdate(spare[ev.entitlement := ev.units], rest, tenant, e, units);
      } else {
        TotalUpdate(spare, rest, tenant, e, units);
      }
    }
  }

  // ---- The store's run as an earliest-expiry run ----

  /** Where the run stands: its clock has reached `from`, and the cut periods are those of the store. */
  ghost predicate Standing(s: Store, events: seq<Event>, s': Store, tenant: int, i: nat, n: nat, from: int,
                           cut: map<Id, Window>) {
    && IsRun(s, events, s') && i + |events| <= n
    && Rising(Times(events, tenant, i, n), from) && Tracks(cut, Windows(s, tenant), n, from)
  }

  lemma GrantTracks(cut: map<Id, Window>, known: map<Id, Window>, e: Id, period: Window, n: nat, from: int)
    requires Tracks(cut, known, n, from)
    ensures Tracks(cut[e := Cut(period, from, n)], known[e := period], n, from)
  {
  }

  lemma TracksLater(cut: map<Id, Window>, known: map<Id, Window>, n: nat, from: int, later: int)
    requires Tracks(cut, known, n, from) && from <= later
    ensures Tracks(cut, known, n, later)
  {
  }

  /** One step on: what is tracked afterwards. */
  lemma StandingStep(s: Store, events: seq<Event>, s': Store, tenant: int, i: nat, n: nat, from: int,
                     cut: map<Id, Window>)
    returns (from': int, cut': map<Id, Window>)
    requires events != [] && Standing(s, events, s', tenant, i, n, from, cut)
    ensures Standing(After(s, events[0]), events[1..], s', tenant, i + 1, n, from', cut')
    ensures from' == Later(events[0], tenant, i, n, from) && cut' == Cutting(cut, events[0], tenant, n, from)
  {
    from', cut' := Later(events[0], tenant, i, n, from), Cutting(cut, events[0], tenant, n, from);
    TimesRest(events, tenant, i, n, from);
    TracksStep(s, events, tenant, i, n, from, cut);
  }

  lemma TracksStep(s: Store, events: seq<Event>, tenant: int, i: nat, n: nat, from: int, cut: map<Id, Window>)
    requires events != [] && Commits(s, events[0]) && Tracks(cut, Windows(s, tenant), n, from)
    requires from <= Later(events[0], tenant, i, n, from)
    ensures Tracks(Cutting(cut, events[0], tenant, n, from), Windows(After(s, events[0]), tenant), n,
                   Later(events[0], tenant, i, n, from))
  {
    var ev := events[0];
    if Grants(ev, tenant) {
      GrantSpare(s, ev, tenant);
      GrantTracks(cut, Windows(s, tenant), ev.entitlement, ev.period, n, from);
    } else {
      SameWindows(s, events, tenant);
      TracksLater(cut, Windows(s, tenant), n, from, Later(ev, tenant, i, n, from));
    }
  }

  lemma SameWindows(s: Store, events: seq<Event>, tenant: int)
    requires events != [] && Commits(s, events[0]) && !Grants(events[0], tenant)
    ensures Windows(After(s, events[0]), tenant) == Windows(s, tenant)
  {
    if Requests(events[0], tenant) {
      RequestSpare(s, events[0], tenant);
    } else {
      OtherSpare(s, events[0], tenant);
    }
  }

  lemma TimesRest(events: seq<Event>, tenant: int, i: nat, n: nat, from: int)
    requires events != [] && Rising(Times(events, tenant, i, n), from)
    ensures Rising(Times(events[1..], tenant, i + 1, n), Later(events[0], tenant, i, n, from))
    ensures from <= Later(events[0], tenant, i, n, from)
    ensures Requests(events[0], tenant) ==> from <= Clock(events[0].q.time, i, n)
  {
    var times, rest := Times(events, tenant, i, n), Times(events[1..], tenant, i + 1, n);
    if Requests(events[0], tenant) {
      assert times[1..] == rest;
    } else {
      assert times == rest;
    }
  }

  /** What the store picks is a candidate among everything the run will ever have had, and the earliest
      one unless a lock hides a row. */
  lemma PickIsEarliest(s: Store, events: seq<Event>, s': Store, tenant: int, i: nat, n: nat, from: int,
                       cut: map<Id, Window>)
    requires events != [] && Standing(s, events, s', tenant, i, n, from, cut) && Requests(events[0], tenant)
    ensures var ev, clock := events[0], Clock(events[0].q.time, i, n);
            var windows, total := AllWindows(cut, events, tenant, i, n, from), Total(Spare(s, tenant), events, tenant);
            && (EarliestPick(windows, total, clock, ev.pick) <==> !Hides(s, ev, tenant))
            && (ev.pick.Some? ==> Candidate(windows, total, clock, ev.pick.value))
  {
    var ev := events[0];
    var windows, total := AllWindows(cut, events, tenant, i, n, from), Total(Spare(s, tenant), events, tenant);
    var clock := Clock(ev.q.time, i, n);
    forall e
      ensures Candidate(windows, total, clock, e) <==> Available(s, tenant, ev.q.time, {}, e)
      ensures Candidate(windows, total, clock, e) ==> windows[e].end == s.entitlements[e].period.end * n
    {
      CandidateIsAvailable(s, events, s', tenant, i, n, from, cut, e);
    }
    if ev.pick.Some? {
      var g := ev.pick.value;
      assert Available(s, tenant, ev.q.time, {}, g);
      forall e | Candidate(windows, total, clock, e)
        ensures windows[g].end <= windows[e].end <==> s.entitlements[g].period.end <= s.entitlements[e].period.end
      {
        MulOrder(s.entitlements[g].period.end, s.entitlements[e].period.end, n);
      }
    }
  }

  lemma MulOrder(a: int, b: int, n: nat)
    requires n > 0
    ensures a * n <= b * n <==> a <= b
  {
    if a <= b {
      MulMonotone(a, b, n);
    } else {
      MulMonotone(b + 1, a, n);
      assert (b + 1) * n == b * n + n;
    }
  }

  lemma CandidateIsAvailable(s: Store, events: seq<Event>, s': Store, tenant: int, i: nat, n: nat, from: int,
                             cut: map<Id, Window>, e: Id)
    requires events != [] && Standing(s, events, s', tenant, i, n, from, cut) && Requests(events[0], tenant)
    ensures var windows, total := AllWindows(cut, events, tenant, i, n, from), Total(Spare(s, tenant), events, tenant);
            var clock := Clock(events[0].q.time, i, n);
            && (Candidate(windows, total, clock, e) <==> Available(s, tenant, events[0].q.time, {}, e))
            && (Candidate(windows, total, clock, e) ==> windows[e].end == s.entitlements[e].period.end * n)
  {
    var ev, rest := events[0], events[1..];
    var from', cut' := StandingStep(s, events, s', tenant, i, n, from, cut);
    AllWindowsAt(cut', rest, tenant, i + 1, n, from', e);
    GrantedSplit(events, tenant, e);
    TotalAt(Spare(s, tenant), events, tenant, e);
    if e in s.entitlements {
      GrantsAreFresh(s, events, s', tenant, e);
    }
    if e in Windows(s, tenant) {
      ClockCovers(Windows(s, tenant)[e], cut[e], ev.q.time, i, n, from);
    }
  }

  /** The store's run chooses, one request after the other, among all the units the tenant ever had, and a
      choice is late exactly if a lock hid a row. */
  ghost predicate RunChooses(s: Store, events: seq<Event>, tenant: int, i: nat, n: nat, from: int,
                             cut: map<Id, Window>) {
    var windows, total := AllWindows(cut, events, tenant, i, n, from), Total(Spare(s, tenant), events, tenant);
    var times, given := Times(events, tenant, i, n), Given(events, tenant);
    Chosen(windows, total, times, given) && Late(windows, total, times, given) == Hidden(s, events, tenant)
  }

  lemma {:induction false} RunIsChosen(s: Store, events: seq<Event>, s': Store, tenant: int, i: nat, n: nat,
                                       from: int, cut: map<Id, Window>)
    requires Standing(s, events, s', tenant, i, n, from, cut)
    ensures RunChooses(s, events, tenant, i, n, from, cut)
    decreases |events|
  {
    if events != [] {
      var ev, rest := events[0], events[1..];
      var from', cut' := StandingStep(s, events, s', tenant, i, n, from, cut);
      RunIsChosen(After(s, ev), rest, s', tenant, i + 1, n, from', cut');
      ChosenStep(s, events, s', tenant, i, n, from, cut, from', cut');
    }
  }

  lemma ChosenStep(s: Store, events: seq<Event>, s': Store, tenant: int, i: nat, n: nat, from: int,
                   cut: map<Id, Window>, from': int, cut': map<Id, Window>)
    requires events != [] && Standing(s, events, s', tenant, i, n, from, cut)
    requires AllWindows(cut, events, tenant, i, n, from) == AllWindows(cut', events[1..], tenant, i + 1, n, from')
    requires RunChooses(After(s, events[0]), events[1..], tenant, i + 1, n, from', cut')
    ensures RunChooses(s, events, tenant, i, n, from, cut)
  {
    var ev, rest := events[0], events[1..];
    var times, given := Times(events, tenant, i, n), Given(events, tenant);
    StepTotal(s, events, s', tenant);
    if Requests(ev, tenant) {
      PickIsEarliest(s, events, s', tenant, i, n, from, cut);
      assert times[1..] == Times(rest, tenant, i + 1, n) && given[1..] == Given(rest, tenant);
    } else {
      assert times == Times(rest, tenant, i + 1, n) && given == Given(rest, tenant);
    }
  }

  /** A unit taken now is a unit taken from the total. */
  lemma TakenTotal(s: Store, events: seq<Event>, s': Store, tenant: int)
    requires events != [] && IsRun(s, events, s') && Requests(events[0], tenant)
    ensures Total(Take(Spare(s, tenant), events[0].pick), events[1..], tenant)
            == Take(Total(Spare(s, tenant), events, tenant), events[0].pick)
  {
    var ev, rest := events[0], events[1..];
    assert Commits(s, ev);
    if ev.pick.Some? {
      var g, spare := ev.pick.value, Spare(s, tenant);
      assert Available(s, tenant, ev.q.time, {}, g) && spare[g] > 0;
      GrantsAreFresh(s, events, s', tenant, g);
      GrantedSplit(events, tenant, g);
      TotalAt(spare, rest, tenant, g);
      TotalUpdate(spare, rest, tenant, g, spare[g] - 1);
    }
  }

  /** One step on: the units there will have been, less the one just taken. */
  lemma StepTotal(s: Store, events: seq<Event>, s': Store, tenant: int)
    requires events != [] && IsRun(s, events, s')
    ensures Total(Spare(After(s, events[0]), tenant), events[1..], tenant)
            == if Requests(events[0], tenant) then Take(Total(Spare(s, tenant), events, tenant), events[0].pick)
               else Total(Spare(s, tenant), events, tenant)
    ensures Windows(After(s, events[0]), tenant)
            == if Grants(events[0], tenant) then Windows(s, tenant)[events[0].entitlement := events[0].period]
               else Windows(s, tenant)
  {
    if Requests(events[0], tenant) {
      RequestSpare(s, events[0], tenant);
      TakenTotal(s, events, s', tenant);
    } else if Grants(events[0], tenant) {
      GrantSpare(s, events[0], tenant);
    } else {
      OtherSpare(s, events[0], tenant);
    }
  }

  ghost predicate AllCovered(windows: map<Id, Window>, total: map<Id, nat>, times: seq<int>, a: Assignment) {
    && |a| == |times|
    && forall j :: 0 <= j < |a| && a[j].Some? ==>
         a[j].value in windows && a[j].value in total && Covers(windows[a[j].value], times[j])
  }

  lemma CoveredCons(windows: map<Id, Window>, total: map<Id, nat>, times: seq<int>, a: Assignment)
    requires times != [] && a != [] && AllCovered(windows, total, times[1..], a[1..])
    requires a[0].Some? ==> a[0].value in windows && a[0].value in total && Covers(windows[a[0].value], times[0])
    ensures AllCovered(windows, total, times, a)
  {
    assert forall j :: 1 <= j < |a| ==> a[1..][j - 1] == a[j];
    assert forall j :: 1 <= j < |times| ==> times[1..][j - 1] == times[j];
  }

  /** A feasible assignment is a valid one on the clock of the run. */
  lemma {:induction false} InPeriodIsValid(s: Store, events: seq<Event>, s': Store, tenant: int, i: nat, n: nat,
                                           from: int,
                                           cut: map<Id, Window>, a: Assignment)
    requires Standing(s, events, s', tenant, i, n, from, cut) && InPeriod(Windows(s, tenant), events, tenant, a)
    ensures AllCovered(AllWindows(cut, events, tenant, i, n, from), Total(Spare(s, tenant), events, tenant),
                       Times(events, tenant, i, n), a)
    decreases |events|
  {
    if events != [] {
      var ev, rest, times := events[0], events[1..], Times(events, tenant, i, n);
      var from', cut' := StandingStep(s, events, s', tenant, i, n, from, cut);
      StepTotal(s, events, s', tenant);
      if Requests(ev, tenant) {
        InPeriodIsValid(After(s, ev), rest, s', tenant, i + 1, n, from', cut', a[1..]);
        if a[0].Some? {
          FirstIsValid(s, events, s', tenant, i, n, from, cut, a);
        }
        assert times[1..] == Times(rest, tenant, i + 1, n);
        CoveredCons(AllWindows(cut, events, tenant, i, n, from), Total(Spare(s, tenant), events, tenant), times, a);
      } else {
        InPeriodIsValid(After(s, ev), rest, s', tenant, i + 1, n, from', cut', a);
        assert times == Times(rest, tenant, i + 1, n);
      }
    }
  }

  lemma FirstIsValid(s: Store, events: seq<Event>, s': Store, tenant: int, i: nat, n: nat, from: int,
                     cut: map<Id, Window>,
                     a: Assignment)
    requires events != [] && Standing(s, events, s', tenant, i, n, from, cut) && Requests(events[0], tenant)
    requires InPeriod(Windows(s, tenant), events, tenant, a) && a[0].Some?
    ensures var windows, total := AllWindows(cut, events, tenant, i, n, from), Total(Spare(s, tenant), events, tenant);
            && a[0].value in windows && a[0].value in total
            && Covers(windows[a[0].value], Clock(events[0].q.time, i, n))
  {
    var ev, rest, e := events[0], events[1..], a[0].value;
    var from', cut' := StandingStep(s, events, s', tenant, i, n, from, cut);
    AllWindowsAt(cut', rest, tenant, i + 1, n, from', e);
    GrantsAreFresh(s, events, s', tenant, e);
    GrantedSplit(events, tenant, e);
    TotalAt(Spare(s, tenant), events, tenant, e);
    ClockCovers(Windows(s, tenant)[e], cut[e], ev.q.time, i, n, from);
  }

  // ---- The result ----

  function Start(events: seq<Event>, tenant: int, n: nat): int {
    if Times(events, tenant, 0, n) == [] then 0 else Times(events, tenant, 0, n)[0]
  }

  function Uncut(known: map<Id, Window>, n: nat): map<Id, Window> {
    map e | e in known :: Window(known[e].start * n, known[e].end * n)
  }

  lemma ClockLater(last: int, time: int, i: nat, n: nat)
    requires last <= time
    ensures Clock(last, i, n) <= Clock(time, i, n) && Clock(last, i, n) < Clock(time, i + 1, n)
  {
    MulMonotone(last, time, n);
  }

  lemma {:induction false} ClockRises(events: seq<Event>, tenant: int, i: nat, n: nat, from: int, last: int)
    requires Nondecreasing(RequestTimes(events, tenant)) && from <= Clock(last, i, n)
    requires forall k :: 0 <= k < |RequestTimes(events, tenant)| ==> last <= RequestTimes(events, tenant)[k]
    ensures Rising(Times(events, tenant, i, n), from)
    decreases |events|
  {
    if events != [] {
      var ev, rest := events[0], events[1..];
      var requests, times := RequestTimes(events, tenant), Times(events, tenant, i, n);
      if Requests(ev, tenant) {
        var time := ev.q.time;
        assert requests[0] == time && requests[1..] == RequestTimes(rest, tenant);
        assert times[0] == Clock(time, i, n) && times[1..] == Times(rest, tenant, i + 1, n);
        ClockLater(last, time, i, n);
        ClockLater(time, time, i, n);
        ClockRises(rest, tenant, i + 1, n, Clock(time, i, n) + 1, time);
      } else {
        assert requests == RequestTimes(rest, tenant) && times == Times(rest, tenant, i + 1, n);
        ClockLater(last, last, i, n);
        ClockRises(rest, tenant, i + 1, n, from, last);
      }
    }
  }

  lemma RunStanding(s: Store, events: seq<Event>, s': Store, tenant: int)
    requires IsRun(s, events, s') && Nondecreasing(RequestTimes(events, tenant))
    ensures var n := |events|;
            Standing(s, events, s', tenant, 0, n, Start(events, tenant, n), Uncut(Windows(s, tenant), n))
  {
    var n, requests := |events|, RequestTimes(events, tenant);
    if requests != [] {
      ClockRises(events, tenant, 0, n, Clock(requests[0], 0, n), requests[0]);
      var times := Times(events, tenant, 0, n);
      assert times != [] by {
        TimesLength(events, tenant, 0, n);
      }
    } else {
      TimesLength(events, tenant, 0, n);
    }
  }

  lemma {:induction false} TimesLength(events: seq<Event>, tenant: int, i: nat, n: nat)
    ensures |Times(events, tenant, i, n)| == |RequestTimes(events, tenant)|
    decreases |events|
  {
    if events != [] {
      TimesLength(events[1..], tenant, i + 1, n);
    }
  }

  /** Over any run in which the tenant's requests arrive in time order, with contracts activated at any
      point and any rows locked, no other way of handing out the tenant's entitlements would have served more
      of its requests, but for one for each request from which a lock hid a row; and what the store did was a
      feasible way. */
  lemma StoreServesMost(s: Store, events: seq<Event>, s': Store, tenant: int, other: Assignment)
    requires IsRun(s, events, s') && Nondecreasing(RequestTimes(events, tenant))
    ensures Feasible(s, events, tenant, other) ==>
              Served(other) <= Served(Given(events, tenant)) + Hidden(s, events, tenant)
    ensures Feasible(s, events, tenant, Given(events, tenant))
  {
    var n := |events|;
    var from, cut := Start(events, tenant, n), Uncut(Windows(s, tenant), n);
    RunStanding(s, events, s', tenant);
    RunIsChosen(s, events, s', tenant, 0, n, from, cut);
    var windows, total := AllWindows(cut, events, tenant, 0, n, from), Total(Spare(s, tenant), events, tenant);
    var times := Times(events, tenant, 0, n);
    ChosenIsValid(windows, total, times, Given(events, tenant));
    GivenInPeriod(s, events, s', tenant);
    if Feasible(s, events, tenant, other) {
      InPeriodIsValid(s, events, s', tenant, 0, n, from, cut, other);
      RisingIsNondecreasing(times, from);
      EarliestFirstServesMost(windows, total, times, Given(events, tenant), other);
    }
  }

  lemma {:induction false} RisingIsNondecreasing(times: seq<int>, from: int)
    requires Rising(times, from)
    ensures Nondecreasing(times) && forall k :: 0 <= k < |times| ==> from <= times[k]
  {
    if times != [] {
      RisingIsNondecreasing(times[1..], times[0] + 1);
      assert forall k :: 1 <= k < |times| ==> times[1..][k - 1] == times[k];
    }
  }

  lemma {:induction false} GivenInPeriod(s: Store, events: seq<Event>, s': Store, tenant: int)
    requires IsRun(s, events, s')
    ensures InPeriod(Windows(s, tenant), events, tenant, Given(events, tenant))
    decreases |events|
  {
    if events != [] {
      var ev, rest := events[0], events[1..];
      assert forall k :: 0 <= k < |rest| ==> rest[k] == events[k + 1];
      GivenInPeriod(After(s, ev), rest, s', tenant);
      if Grants(ev, tenant) {
        GrantSpare(s, ev, tenant);
        assert Given(events, tenant) == Given(rest, tenant);
      } else if Requests(ev, tenant) {
        RequestSpare(s, ev, tenant);
        assert Given(events, tenant)[1..] == Given(rest, tenant);
      } else {
        OtherSpare(s, ev, tenant);
        assert Given(events, tenant) == Given(rest, tenant);
      }
    }
  }
}
