/** The webhook queue: bounded attempts, deduplication and soundness of `processed`. */
module PrepaidWebhooks {
  import opened Common
  import opened PrepaidLedger
  import opened PrepaidInvariants
  import opened PrepaidPreservation

  /** The step takes a delivery of this stored event past the attempt check. */
  predicate StartsAttempt(s: State, a: Action, body: string) {
    a.BeginWebhook? && Enabled(s, a) && s.calls[a.i].job.body == body
    && (Exec(s, a).calls[a.i].pc.ReadIntent? || Exec(s, a).calls[a.i].pc.Returned?)
  }

  ghost function AttemptsIn(s: State, actions: seq<Action>, body: string): nat
    decreases |actions|
  {
    if actions == [] || !Enabled(s, actions[0]) then 0
    else
      (if StartsAttempt(s, actions[0], body) then 1 else 0) + AttemptsIn(Exec(s, actions[0]), actions[1..], body)
  }

  function AttemptCount(s: State, body: string): nat {
    if body in s.hooks then s.hooks[body].attempts else 0
  }

  lemma BeginCounts(s: State, i: nat, body: string)
    requires Enabled(s, BeginWebhook(i))
    ensures AttemptCount(BeginHook(s, i), body)
            == AttemptCount(s, body) + if StartsAttempt(s, BeginWebhook(i), body) then 1 else 0
  {
  }

  lemma OthersCount(s: State, a: Action, body: string)
    requires Enabled(s, a) && !a.BeginWebhook?
    ensures AttemptCount(Exec(s, a), body) == AttemptCount(s, body)
  {
    if OnlyMoves(a) {
      MoveShape(s, a);
    }
  }

  lemma {:induction false} RunCounts(s: State, actions: seq<Action>, s': State, body: string)
    requires IsRun(s, actions, s')
    ensures AttemptCount(s', body) == AttemptCount(s, body) + AttemptsIn(s, actions, body)
    decreases |actions|
  {
    if actions != [] {
      var a := actions[0];
      if a.BeginWebhook? {
        BeginCounts(s, a.i, body);
      } else {
        OthersCount(s, a, body);
      }
      RunCounts(Exec(s, a), actions[1..], s', body);
    }
  }

  /** However many workers process the queue at once, each stored event starts at most ten attempts,
      and its attempt counter is exact. */
  lemma AttemptsBounded(now: int, actions: seq<Action>, s: State, body: string)
    requires IsRun(InitialState(now), actions, s)
    ensures AttemptsIn(InitialState(now), actions, body) == AttemptCount(s, body) <= 10
  {
    InitHolds(now);
    RunKeeps(InitialState(now), actions, s);
    RunCounts(InitialState(now), actions, s, body);
  }

  /** A processed charge.success event with a reference has a credited intent, and its top-up is in the
      ledger. */
  lemma ProcessedMeansCredited(s: State, body: string)
    requires Reachable(s) && body in s.hooks && s.hooks[body].status.Processed?
    requires s.hooks[body].eventType.ChargeSuccess? && s.hooks[body].reference.Some?
    requires s.hooks[body].reference.value != ""
    ensures IsCredited(s, s.hooks[body].reference.value) && TopupOf(s, s.hooks[body].reference.value) in s.ledger
  {
    ReachableInv(s);
  }

  /** A payload that is already stored is not stored again, and what a later delivery of the same
      payload says about its type or reference is ignored; over any run the stored content stays. */
  lemma StoredOnce(s: State, actions: seq<Action>, s': State, body: string, eventType: EventType,
                   reference: Option<string>)
    requires body in s.hooks && IsRun(s, actions, s')
    ensures Exec(s', RecordWebhook(body, eventType, reference)) == s'
    ensures body in s'.hooks && s'.hooks[body].eventType == s.hooks[body].eventType
            && s'.hooks[body].reference == s.hooks[body].reference
  {
    RunExtends(s, actions, s');
  }

  lemma Then(s: State, a: Action) returns (s': State)
    requires Reachable(s) && Enabled(s, a)
    ensures Reachable(s') && s' == Exec(s, a)
  {
    var now, actions :| IsRun(InitialState(now), actions, s);
    s' := Exec(s, a);
    RunConcat(InitialState(now), actions, s, [a], s');
  }

  // ---- When processed is final ----

  /** A worker on the event that has begun and has not finished. */
  predicate OpenOn(c: Call, body: string) {
    c.job == WebhookJob(body) && !c.pc.Begin? && !c.pc.Finished? && !c.pc.Stopped?
  }

  ghost predicate NoneOpen(s: State, body: string) {
    forall i :: 0 <= i < |s.calls| ==> !OpenOn(s.calls[i], body)
  }

  ghost predicate IsProcessed(s: State, body: string) {
    body in s.hooks && s.hooks[body].status.Processed?
  }

  ghost predicate StaysProcessed(s: State, body: string) {
    forall actions, s' :: IsRun(s, actions, s') ==> IsProcessed(s', body)
  }

  lemma ClosedStaysClosed(s: State, a: Action, body: string)
    requires IsProcessed(s, body) && Enabled(s, a) && ActsOn(a).Some? && a.i < |s.calls| && !OpenOn(s.calls[a.i], body)
    ensures a.i < |Exec(s, a).calls| && !OpenOn(Exec(s, a).calls[a.i], body)
  {
    if OnlyMoves(a) {
      MoveShape(s, a);
    }
  }

  lemma HookUntouched(s: State, a: Action, body: string)
    requires IsProcessed(s, body) && Enabled(s, a)
    requires (ActsOn(a).Some? ==> a.i < |s.calls| && !OpenOn(s.calls[a.i], body))
    ensures IsProcessed(Exec(s, a), body)
  {
    if OnlyMoves(a) {
      MoveShape(s, a);
    }
  }

  lemma NoneOpenStep(s: State, a: Action, body: string)
    requires IsProcessed(s, body) && NoneOpen(s, body) && Enabled(s, a)
    ensures IsProcessed(Exec(s, a), body) && NoneOpen(Exec(s, a), body)
  {
    StepCalls(s, a);
    HookUntouched(s, a, body);
    var s' := Exec(s, a);
    if ActsOn(a).Some? {
      ClosedStaysClosed(s, a, body);
    }
    forall i | 0 <= i < |s'.calls| ensures !OpenOn(s'.calls[i], body) {
      assert i < |s.calls| ==> !OpenOn(s.calls[i], body);
    }
  }

  lemma {:induction false} NoneOpenRun(s: State, actions: seq<Action>, s': State, body: string)
    requires IsProcessed(s, body) && NoneOpen(s, body) && IsRun(s, actions, s')
    ensures IsProcessed(s', body)
    decreases |actions|
  {
    if actions != [] {
      NoneOpenStep(s, actions[0], body);
      NoneOpenRun(Exec(s, actions[0]), actions[1..], s', body);
    }
  }

  /** An open worker can fail and then take the event back. */
  lemma OpenWorkerOverwrites(s: State, i: nat, body: string) returns (actions: seq<Action>, s': State)
    requires IsProcessed(s, body) && i < |s.calls| && OpenOn(s.calls[i], body)
    ensures IsRun(s, actions, s') && !IsProcessed(s', body)
  {
    if s.calls[i].pc.Threw? {
      s' := CloseHook(s, i);
      actions := [FinishWebhook(i)];
      RunStep(s, actions, s', s');
    } else {
      var m := Goto(s, i, Threw(Unavailable));
      s' := CloseHook(m, i);
      actions := [Fault(i, Unavailable), FinishWebhook(i)];
      RunOfTwo(s, Fault(i, Unavailable), m, FinishWebhook(i), s');
    }
  }

  /** A processed event stays processed over every run if and only if no worker that began it is still
      open. */
  lemma ProcessedIsFinalIff(s: State, body: string)
    requires IsProcessed(s, body)
    ensures StaysProcessed(s, body) <==> NoneOpen(s, body)
  {
    if NoneOpen(s, body) {
      forall actions, s' | IsRun(s, actions, s') ensures IsProcessed(s', body) {
        NoneOpenRun(s, actions, s', body);
      }
    } else {
      var i :| 0 <= i < |s.calls| && OpenOn(s.calls[i], body);
      var actions, s' := OpenWorkerOverwrites(s, i, body);
    }
  }

  /** One stored event and some workers on it. */
  function Queue(body: string, h: Hook, workers: seq<Pc>): State {
    InitialState(0).(hooks := map[body := h],
                     calls := seq(|workers|, i requires 0 <= i < |workers| => Call(WebhookJob(body), workers[i], Idle)))
  }

  lemma TwoWorkers(body: string, h: Hook) returns (s: State)
    requires h == Hook(OtherEvent(""), None, Received, 0, None)
    ensures Reachable(s) && s == Queue(body, h, [Begin, Begin])
  {
    s := InitialState(0);
    assert IsRun(s, [], s);
    s := Then(s, RecordWebhook(body, h.eventType, None));
    assert s == Queue(body, h, []);
    s := Then(s, Spawn(WebhookJob(body)));
    assert s == Queue(body, h, [Begin]);
    s := Then(s, Spawn(WebhookJob(body)));
  }

  lemma Begins(s: State, i: nat) returns (s': State)
    requires Reachable(s) && Enabled(s, BeginWebhook(i))
    ensures Reachable(s') && s' == BeginHook(s, i)
  {
    s' := Then(s, BeginWebhook(i));
  }

  lemma Finishes(s: State, i: nat) returns (s': State)
    requires Reachable(s) && Enabled(s, FinishWebhook(i))
    ensures Reachable(s') && s' == CloseHook(s, i)
  {
    s' := Then(s, FinishWebhook(i));
  }

  lemma Fails(s: State, i: nat) returns (s': State)
    requires Reachable(s) && Enabled(s, Fault(i, Unavailable))
    ensures Reachable(s') && s' == Goto(s, i, Threw(Unavailable))
  {
    s' := Then(s, Fault(i, Unavailable));
  }

  lemma FirstBegins(body: string, h: Hook, s: State) returns (s': State)
    requires Reachable(s) && s == Queue(body, h, [Begin, Begin]) && h == Hook(OtherEvent(""), None, Received, 0, None)
    ensures Reachable(s')
    ensures s' == Queue(body, h.(status := Processing, attempts := 1), [Returned(NothingToSettle), Begin])
  {
    s' := Begins(s, 0);
  }

  lemma SecondBegins(body: string, h: Hook, s: State) returns (s': State)
    requires Reachable(s) && s == Queue(body, h, [Returned(NothingToSettle), Begin])
    requires h == Hook(OtherEvent(""), None, Processing, 1, None)
    ensures Reachable(s')
    ensures s' == Queue(body, h.(attempts := 2), [Returned(NothingToSettle), Returned(NothingToSettle)])
  {
    s' := Begins(s, 1);
  }

  lemma FirstFinishes(body: string, h: Hook, s: State) returns (s': State)
    requires Reachable(s) && s == Queue(body, h, [Returned(NothingToSettle), Returned(NothingToSettle)])
    ensures Reachable(s') && s' == Queue(body, h.(status := Processed), [Finished, Returned(NothingToSettle)])
  {
    s' := Finishes(s, 0);
  }

  lemma SecondFails(body: string, h: Hook, s: State) returns (s': State)
    requires Reachable(s) && s == Queue(body, h, [Finished, Returned(NothingToSettle)])
    ensures Reachable(s') && s' == Queue(body, h, [Finished, Threw(Unavailable)])
  {
    s' := Fails(s, 1);
  }

  /** A processed event is not final: two workers begin the same event, one processes it, and then the
      other one, which met a fault, turns it back into a retryable failure. */
  lemma ProcessedCanBeOverwritten(body: string) returns (s: State)
    ensures Reachable(s) && body in s.hooks && s.hooks[body].status.Processed?
    ensures Enabled(s, FinishWebhook(1)) && Exec(s, FinishWebhook(1)).hooks[body].status.RetryableFailure?
  {
    var h := Hook(OtherEvent(""), None, Received, 0, None);
    s := TwoWorkers(body, h);
    s := FirstBegins(body, h, s);
    s := SecondBegins(body, h.(status := Processing, attempts := 1), s);
    s := FirstFinishes(body, h.(status := Processing, attempts := 2), s);
    s := SecondFails(body, h.(status := Processed, attempts := 2), s);
  }
}
