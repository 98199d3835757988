/** Why reservations are taken from the entitlement that expires first: no other way of assigning
    requests to entitlements serves more of them. */
module EarliestExpiry {
  import opened Common

  type Id = string

  /** A period [start, end) during which an entitlement may be used. */
  datatype Window = Window(start: int, end: int)

  predicate Covers(w: Window, time: int) {
    w.start <= time < w.end
  }

  /** One choice per request: the entitlement that serves it, or none. */
  type Assignment = seq<Option<Id>>

  function Uses(a: Assignment, e: Id): nat {
    if a == [] then 0 else (if a[0] == Some(e) then 1 else 0) + Uses(a[1..], e)
  }

  function Served(a: Assignment): nat {
    if a == [] then 0 else (if a[0].Some? then 1 else 0) + Served(a[1..])
  }

  /** Every served request falls into its entitlement's period, and no entitlement is overused. */
  ghost predicate ValidAssignment(windows: map<Id, Window>, spare: map<Id, nat>, times: seq<int>, a: Assignment) {
    && |a| == |times|
    && (forall j :: 0 <= j < |a| && a[j].Some? ==>
          a[j].value in windows && a[j].value in spare && Covers(windows[a[j].value], times[j]))
    && (forall e :: e in spare ==> Uses(a, e) <= spare[e])
  }

  predicate Candidate(windows: map<Id, Window>, spare: map<Id, nat>, time: int, e: Id) {
    e in windows && e in spare && spare[e] > 0 && Covers(windows[e], time)
  }

  /** The choice made for one request: a candidate that expires first, or none if there is none. */
  ghost predicate EarliestPick(windows: map<Id, Window>, spare: map<Id, nat>, time: int, pick: Option<Id>) {
    match pick
    case None => forall e :: !Candidate(windows, spare, time, e)
    case Some(g) =>
      && Candidate(windows, spare, time, g)
      && forall e :: Candidate(windows, spare, time, e) ==> windows[g].end <= windows[e].end
  }

  function Take(spare: map<Id, nat>, pick: Option<Id>): map<Id, nat> {
    if pick.Some? && pick.value in spare && spare[pick.value] > 0 then spare[pick.value := spare[pick.value] - 1]
    else spare
  }

  /** An assignment made by choosing for one request after the other, from what is left by then. */
  ghost predicate Chosen(windows: map<Id, Window>, spare: map<Id, nat>, times: seq<int>, a: Assignment)
    decreases |times|
  {
    && |a| == |times|
    && (times != [] ==>
          && (a[0].Some? ==> Candidate(windows, spare, times[0], a[0].value))
          && Chosen(windows, Take(spare, a[0]), times[1..], a[1..]))
  }

  /** How many of the choices left out a candidate that expires earlier. */
  ghost function Late(windows: map<Id, Window>, spare: map<Id, nat>, times: seq<int>, a: Assignment): nat
    requires |a| == |times|
    decreases |times|
  {
    if times == [] then 0
    else
      (if EarliestPick(windows, spare, times[0], a[0]) then 0 else 1)
      + Late(windows, Take(spare, a[0]), times[1..], a[1..])
  }

  ghost predicate Nondecreasing(times: seq<int>) {
    forall i, j :: 0 <= i < j < |times| ==> times[i] <= times[j]
  }

  lemma {:induction false} UsesUpdate(a: Assignment, j: nat, x: Option<Id>, e: Id)
    requires j < |a|
    ensures Uses(a[j := x], e) == Uses(a, e) - (if a[j] == Some(e) then 1 else 0) + (if x == Some(e) then 1 else 0)
  {
    if j == 0 {
      assert a[j := x][1..] == a[1..];
    } else {
      UsesUpdate(a[1..], j - 1, x, e);
      assert a[j := x][1..] == a[1..][j - 1 := x];
    }
  }

  lemma {:induction false} ServedUpdate(a: Assignment, j: nat, x: Option<Id>)
    requires j < |a|
    ensures Served(a[j := x]) == Served(a) - (if a[j].Some? then 1 else 0) + (if x.Some? then 1 else 0)
  {
    if j == 0 {
      assert a[j := x][1..] == a[1..];
    } else {
      ServedUpdate(a[1..], j - 1, x);
      assert a[j := x][1..] == a[1..][j - 1 := x];
    }
  }

  lemma {:induction false} UserOf(a: Assignment, e: Id) returns (j: nat)
    requires Uses(a, e) > 0
    ensures j < |a| && a[j] == Some(e)
  {
    if a[0] == Some(e) {
      j := 0;
    } else {
      j := UserOf(a[1..], e);
      j := j + 1;
    }
  }

  lemma RestValid(windows: map<Id, Window>, spare: map<Id, nat>, times: seq<int>, a: Assignment)
    requires ValidAssignment(windows, spare, times, a) && times != []
    ensures ValidAssignment(windows, spare, times[1..], a[1..])
  {
    forall j | 0 <= j < |a[1..]| && a[1..][j].Some?
      ensures a[1..][j].value in windows && a[1..][j].value in spare && Covers(windows[a[1..][j].value], times[1..][j])
    {
      assert a[1..][j] == a[j + 1] && times[1..][j] == times[j + 1];
    }
  }

  /** The exchange step: whatever a valid assignment does with the first request, the remaining
      requests can be served at most one short after the earliest-expiring candidate g gave up a
      unit. A later use of g is dropped, or handed to the entitlement the first request used, which
      expires no earlier than g. */
  lemma Exchange(windows: map<Id, Window>, spare: map<Id, nat>, times: seq<int>, a: Assignment, g: Id)
    returns (rest: Assignment)
    requires times != [] && Nondecreasing(times) && ValidAssignment(windows, spare, times, a)
    requires EarliestPick(windows, spare, times[0], Some(g))
    ensures ValidAssignment(windows, Take(spare, Some(g)), times[1..], rest)
    ensures Served(rest) + 1 >= Served(a)
  {
    rest := a[1..];
    var spare' := Take(spare, Some(g));
    RestValid(windows, spare, times, a);
    if Uses(rest, g) == spare[g] {
      var j := UserOf(rest, g);
      var x := a[0];
      assert a[j + 1] == Some(g) && times[0] <= times[j + 1];
      forall e ensures Uses(rest[j := x], e)
                       == Uses(rest, e) - (if e == g then 1 else 0) + (if x == Some(e) then 1 else 0) {
        UsesUpdate(rest, j, x, e);
      }
      if x.Some? {
        assert Uses(a, x.value) <= spare[x.value];
        assert Candidate(windows, spare, times[0], x.value);
      }
      ServedUpdate(rest, j, x);
      rest := rest[j := x];
    }
  }

  /** After any other choice they can be served at most two short: one for the request, and one for the
      unit that a later request would have used. */
  lemma GiveUp(windows: map<Id, Window>, spare: map<Id, nat>, times: seq<int>, a: Assignment, g: Id)
    returns (rest: Assignment)
    requires times != [] && ValidAssignment(windows, spare, times, a) && Candidate(windows, spare, times[0], g)
    ensures ValidAssignment(windows, Take(spare, Some(g)), times[1..], rest)
    ensures Served(rest) + 2 >= Served(a)
  {
    rest := a[1..];
    RestValid(windows, spare, times, a);
    if Uses(rest, g) == spare[g] {
      var j := UserOf(rest, g);
      forall e ensures Uses(rest[j := None], e) == Uses(rest, e) - (if e == g then 1 else 0) {
        UsesUpdate(rest, j, None, e);
      }
      ServedUpdate(rest, j, None);
      rest := rest[j := None];
    }
  }

  /** One choice: what any other assignment keeps of the requests after it. */
  lemma ChooseOne(windows: map<Id, Window>, spare: map<Id, nat>, times: seq<int>, other: Assignment, pick: Option<Id>)
    returns (rest: Assignment)
    requires times != [] && Nondecreasing(times) && ValidAssignment(windows, spare, times, other)
    requires pick.Some? ==> Candidate(windows, spare, times[0], pick.value)
    ensures ValidAssignment(windows, Take(spare, pick), times[1..], rest)
    ensures Served(other) <= Served(rest) + (if pick.Some? then 1 else 0)
                             + if EarliestPick(windows, spare, times[0], pick) then 0 else 1
  {
    match pick {
      case None =>
        rest := other[1..];
        RestValid(windows, spare, times, other);
        if other[0].Some? {
          assert Uses(other, other[0].value) >= 1;
          assert Candidate(windows, spare, times[0], other[0].value);
        }
      case Some(g) =>
        if EarliestPick(windows, spare, times[0], pick) {
          rest := Exchange(windows, spare, times, other, g);
        } else {
          rest := GiveUp(windows, spare, times, other, g);
        }
    }
  }

  /** Earliest-expiry optimality: with requests arriving in time order, choosing in-period entitlements
      with spare units serves at least as many requests as any other valid assignment, less one for every
      choice that was late; always taking one that expires first serves the most. */
  lemma {:induction false} EarliestFirstServesMost(windows: map<Id, Window>, spare: map<Id, nat>, times: seq<int>,
                                                   chosen: Assignment, other: Assignment)
    requires Nondecreasing(times) && Chosen(windows, spare, times, chosen)
    requires ValidAssignment(windows, spare, times, other)
    ensures Served(other) <= Served(chosen) + Late(windows, spare, times, chosen)
    decreases |times|
  {
    if times != [] {
      var rest := ChooseOne(windows, spare, times, other, chosen[0]);
      EarliestFirstServesMost(windows, Take(spare, chosen[0]), times[1..], chosen[1..], rest);
    }
  }

  /** A choice followed by a valid assignment of what it leaves. */
  lemma ConsValid(windows: map<Id, Window>, spare: map<Id, nat>, times: seq<int>, a: Assignment)
    requires times != [] && a != [] && (a[0].Some? ==> Candidate(windows, spare, times[0], a[0].value))
    requires ValidAssignment(windows, Take(spare, a[0]), times[1..], a[1..])
    ensures ValidAssignment(windows, spare, times, a)
  {
    forall j | 0 <= j < |a| && a[j].Some?
      ensures a[j].value in windows && a[j].value in spare && Covers(windows[a[j].value], times[j])
    {
      if j > 0 {
        assert a[1..][j - 1] == a[j] && times[1..][j - 1] == times[j];
      }
    }
    forall e | e in spare ensures Uses(a, e) <= spare[e] {
      assert e in Take(spare, a[0]);
    }
  }

  /** Such choices are themselves a valid assignment. */
  lemma {:induction false} ChosenIsValid(windows: map<Id, Window>, spare: map<Id, nat>, times: seq<int>, a: Assignment)
    requires Chosen(windows, spare, times, a)
    ensures ValidAssignment(windows, spare, times, a)
    decreases |times|
  {
    if times != [] {
      ChosenIsValid(windows, Take(spare, a[0]), times[1..], a[1..]);
      ConsValid(windows, spare, times, a);
    }
  }

  // ---- Which choices can cost a request ----

  /** However the run goes on, the requests served by any other assignment can be matched after the choice. */
  ghost predicate CostsNothing(windows: map<Id, Window>, spare: map<Id, nat>, time: int, pick: Option<Id>) {
    forall times: seq<int>, other ::
      times != [] && times[0] == time && Nondecreasing(times) && ValidAssignment(windows, spare, times, other) ==>
        Matched(windows, spare, times[1..], pick, Served(other))
  }

  ghost predicate Matched(windows: map<Id, Window>, spare: map<Id, nat>, later: seq<int>, pick: Option<Id>, n: nat) {
    exists rest :: ValidAssignment(windows, Take(spare, pick), later, rest)
                   && n <= Served(rest) + if pick.Some? then 1 else 0
  }

  ghost function Usable(windows: map<Id, Window>, spare: map<Id, nat>, time: int): set<Id> {
    set e | e in spare && e in windows && Covers(windows[e], time)
  }

  function UnitsOf(spare: map<Id, nat>, e: Id): int {
    if e in spare then spare[e] else 0
  }

  /** The units that can be used at a time. */
  ghost function Capacity(windows: map<Id, Window>, spare: map<Id, nat>, time: int): int {
    SumOver(Usable(windows, spare, time), e => UnitsOf(spare, e))
  }

  /** Taking a unit costs a unit at the times its period covers. */
  lemma TakeCapacity(windows: map<Id, Window>, spare: map<Id, nat>, time: int, e: Id)
    requires e in windows && e in spare && spare[e] > 0
    ensures Capacity(windows, Take(spare, Some(e)), time)
            == Capacity(windows, spare, time) - if Covers(windows[e], time) then 1 else 0
  {
    var less, keys := Take(spare, Some(e)), Usable(windows, spare, time);
    assert Usable(windows, less, time) == keys;
    if e in keys {
      SumOverShift(keys, x => UnitsOf(spare, x), x => UnitsOf(less, x), e, -1);
    } else {
      SumOverAgree(keys, x => UnitsOf(spare, x), x => UnitsOf(less, x));
    }
  }

  lemma FindUsable(windows: map<Id, Window>, spare: map<Id, nat>, time: int) returns (e: Id)
    requires Capacity(windows, spare, time) > 0
    ensures Candidate(windows, spare, time, e)
  {
    e := SumOverPositive(Usable(windows, spare, time), x => UnitsOf(spare, x));
  }

  lemma CapacityNatural(windows: map<Id, Window>, spare: map<Id, nat>, time: int)
    ensures Capacity(windows, spare, time) >= 0
  {
    SumOverNatural(Usable(windows, spare, time), x => UnitsOf(spare, x));
  }

  ghost predicate AllAt(times: seq<int>, time: int) {
    forall k :: 0 <= k < |times| ==> times[k] == time
  }

  lemma TakeValid(windows: map<Id, Window>, spare: map<Id, nat>, times: seq<int>, a: Assignment)
    requires times != [] && ValidAssignment(windows, spare, times, a)
    ensures ValidAssignment(windows, Take(spare, a[0]), times[1..], a[1..])
    ensures a[0].Some? ==> Candidate(windows, spare, times[0], a[0].value)
  {
    RestValid(windows, spare, times, a);
    assert a[0].Some? ==> 1 <= Uses(a, a[0].value) <= spare[a[0].value];
  }

  /** At one time no more requests can be served than there are usable units. */
  lemma {:induction false} WithinCapacity(windows: map<Id, Window>, spare: map<Id, nat>, times: seq<int>, a: Assignment,
                                          time: int)
    requires AllAt(times, time) && ValidAssignment(windows, spare, times, a)
    ensures Served(a) <= Capacity(windows, spare, time)
    decreases |times|
  {
    CapacityNatural(windows, spare, time);
    if times != [] {
      TakeValid(windows, spare, times, a);
      WithinCapacity(windows, Take(spare, a[0]), times[1..], a[1..], time);
      if a[0].Some? {
        TakeCapacity(windows, spare, time, a[0].value);
      }
    }
  }

  /** And that many can be. */
  lemma {:induction false} UseUp(windows: map<Id, Window>, spare: map<Id, nat>, time: int)
    returns (times: seq<int>, a: Assignment)
    ensures AllAt(times, time) && ValidAssignment(windows, spare, times, a)
    ensures |times| == Served(a) == Capacity(windows, spare, time)
    decreases Capacity(windows, spare, time)
  {
    CapacityNatural(windows, spare, time);
    times, a := [], [];
    if Capacity(windows, spare, time) > 0 {
      var e := FindUsable(windows, spare, time);
      TakeCapacity(windows, spare, time, e);
      var times', a' := UseUp(windows, Take(spare, Some(e)), time);
      times, a := [time] + times', [Some(e)] + a';
      assert times[1..] == times' && a[1..] == a';
      ConsValid(windows, spare, times, a);
    }
  }

  /** If h expires before the choice, ask again when h has just expired until nothing usable is left: with
      h taken first all of these requests are served, and after the choice one is not. */
  lemma LateCosts(windows: map<Id, Window>, spare: map<Id, nat>, time: int, pick: Option<Id>, h: Id)
    returns (times: seq<int>, other: Assignment)
    requires Candidate(windows, spare, time, h)
    requires pick.Some? ==> Candidate(windows, spare, time, pick.value) && windows[h].end < windows[pick.value].end
    ensures times != [] && times[0] == time && Nondecreasing(times) && ValidAssignment(windows, spare, times, other)
    ensures AllAt(times[1..], windows[h].end) && Served(other) == 1 + Capacity(windows, spare, windows[h].end)
    ensures forall rest :: ValidAssignment(windows, Take(spare, pick), times[1..], rest) ==>
              Served(rest) + (if pick.Some? then 1 else 0) < Served(other)
  {
    var end := windows[h].end;
    TakeCapacity(windows, spare, end, h);
    var later, a := UseUp(windows, Take(spare, Some(h)), end);
    times, other := [time] + later, [Some(h)] + a;
    assert times[1..] == later && other[1..] == a;
    ConsValid(windows, spare, times, other);
    if pick.Some? {
      TakeCapacity(windows, spare, end, pick.value);
    }
    forall rest | ValidAssignment(windows, Take(spare, pick), later, rest)
      ensures Served(rest) + (if pick.Some? then 1 else 0) < Served(other)
    {
      WithinCapacity(windows, Take(spare, pick), later, rest, end);
    }
  }

  /** A choice costs no request, however the run goes on, if and only if it is an earliest-expiring one. */
  lemma CostsNothingIffEarliest(windows: map<Id, Window>, spare: map<Id, nat>, time: int, pick: Option<Id>)
    requires pick.Some? ==> Candidate(windows, spare, time, pick.value)
    ensures CostsNothing(windows, spare, time, pick) <==> EarliestPick(windows, spare, time, pick)
  {
    if EarliestPick(windows, spare, time, pick) {
      forall times: seq<int>, other
        | times != [] && times[0] == time && Nondecreasing(times) && ValidAssignment(windows, spare, times, other)
        ensures Matched(windows, spare, times[1..], pick, Served(other))
      {
        var rest := ChooseOne(windows, spare, times, other, pick);
      }
    } else {
      var h := Earlier(windows, spare, time, pick);
      var times, other := LateCosts(windows, spare, time, pick, h);
      assert !Matched(windows, spare, times[1..], pick, Served(other));
    }
  }

  lemma Earlier(windows: map<Id, Window>, spare: map<Id, nat>, time: int, pick: Option<Id>) returns (h: Id)
    requires !EarliestPick(windows, spare, time, pick)
    requires pick.Some? ==> Candidate(windows, spare, time, pick.value)
    ensures Candidate(windows, spare, time, h) && (pick.Some? ==> windows[h].end < windows[pick.value].end)
  {
    match pick
    case None => h :| Candidate(windows, spare, time, h);
    case Some(g) => h :| Candidate(windows, spare, time, h) && windows[h].end < windows[g].end;
  }
}
