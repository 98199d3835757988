/** The debit-claim protocol: what claims guarantee, what a release frees, and when a key is stuck. */
module PrepaidDebits {
  import opened Common
  import opened TransferIds
  import opened PrepaidLedger
  import opened PrepaidInvariants
  import opened PrepaidPreservation

  // ---- One sender for each key ----

  /** The debit call has sent its transfer; what became of the request does not matter. */
  predicate Sent(s: State, i: nat) {
    i < |s.calls| && s.calls[i].job.DebitJob? && !s.calls[i].wire.Idle?
  }

  ghost predicate OwnsClaim(s: State, i: nat)
    requires i < |s.calls| && s.calls[i].job.DebitJob?
  {
    && CanonicalTenant(s.calls[i].job.tenant)
    && var id := DebitOf(s.calls[i].job).Id();
    id in s.claims && s.claims[id].owner == i
  }

  /** A debit call that has sent its transfer owns its claim from then on, even if the request was
      lost. */
  ghost predicate SendersOwn(s: State) {
    forall i :: 0 <= i < |s.calls| && Sent(s, i) ==> OwnsClaim(s, i)
  }

  lemma ClaimsUntouched(s: State, a: Action)
    requires Enabled(s, a) && !a.DoClaim? && !a.DoRelease? && !a.DoReconcile?
    ensures Exec(s, a).claims == s.claims
  {
    if PureMove(a) {
      assert Exec(s, a) == Goto(s, a.i, NextPc(s, a));
    }
  }

  /** A claim can only be removed by the call that owns it. */
  lemma ClaimsOfOthersKept(s: State, a: Action, id: TransferKey)
    requires Enabled(s, a) && (ActsOn(a).Some? ==> CallOk(s, a.i))
    requires id in s.claims && ActsOn(a) != Some(s.claims[id].owner)
    ensures SameClaim(s, Exec(s, a), id)
  {
    if a.DoRelease? {
      ReleaseOwnOnly(s, a.i);
    } else if a.DoClaim? {
      assert SameClaim(s, DoClaimKey(s, a.i), id);
    } else if a.DoReconcile? {
      assert SameClaim(s, ReconcileClaim(s, a.i), id);
    } else {
      ClaimsUntouched(s, a);
    }
  }

  /** The call that acts: it comes to have sent only by posting, when it holds its claim, and it gives
      its claim up only when it has sent nothing. */
  lemma ActorOwns(s: State, a: Action)
    requires Enabled(s, a) && ActsOn(a).Some? && a.i < |s.calls| && CallOk(s, a.i)
    requires Sent(s, a.i) ==> OwnsClaim(s, a.i)
    ensures Sent(Exec(s, a), a.i) ==> OwnsClaim(Exec(s, a), a.i)
  {
    if a.DoRelease? {
      ReleaseOwnOnly(s, a.i);
    } else if OnlyMoves(a) {
      MoveShape(s, a);
    }
  }

  lemma SendersOwnStep(s: State, a: Action)
    requires Inv(s) && SendersOwn(s) && Enabled(s, a)
    ensures SendersOwn(Exec(s, a))
  {
    StepCalls(s, a);
    if ActsOn(a).Some? {
      assert CallOk(s, a.i);
      ActorOwns(s, a);
    }
    var s' := Exec(s, a);
    forall i | 0 <= i < |s'.calls| && Sent(s', i) ensures OwnsClaim(s', i) {
      if ActsOn(a) != Some(i) && i < |s.calls| {
        OtherOwns(s, a, i);
      }
    }
  }

  lemma OtherOwns(s: State, a: Action, i: nat)
    requires SendersOwn(s) && Enabled(s, a) && (ActsOn(a).Some? ==> CallOk(s, a.i))
    requires i < |s.calls| && ActsOn(a) != Some(i) && Sent(Exec(s, a), i)
    ensures i < |Exec(s, a).calls| && Exec(s, a).calls[i].job.DebitJob? && OwnsClaim(Exec(s, a), i)
  {
    StepCalls(s, a);
    assert Sent(s, i);
    ClaimsOfOthersKept(s, a, DebitOf(s.calls[i].job).Id());
  }

  lemma {:induction false} SendersOwnRun(s: State, actions: seq<Action>, s': State)
    requires Inv(s) && SendersOwn(s) && IsRun(s, actions, s')
    ensures SendersOwn(s')
    decreases |actions|
  {
    if actions != [] {
      StepKeeps(s, actions[0]);
      SendersOwnStep(s, actions[0]);
      SendersOwnRun(Exec(s, actions[0]), actions[1..], s');
    }
  }

  /** One (tenant, investigation, tier) is debited at most once, in every interleaving. The claim table
      lets at most one call ever send a transfer for it, whatever the ledger does with repeated
      identifiers, and the ledger holds at most one. */
  lemma DebitAtMostOnce(s: State, i: nat, j: nat)
    requires Reachable(s)
    ensures Sent(s, i) && Sent(s, j) && i != j ==>
              && CanonicalTenant(s.calls[i].job.tenant) && CanonicalTenant(s.calls[j].job.tenant)
              && DebitOf(s.calls[i].job) != DebitOf(s.calls[j].job)
    ensures i < |s.ledger| && j < |s.ledger| && s.ledger[i].InvestigationDebit? && s.ledger[i] == s.ledger[j] ==> i == j
  {
    ReachableInv(s);
    var now, actions :| IsRun(InitialState(now), actions, s);
    InitHolds(now);
    SendersOwnRun(InitialState(now), actions, s);
    assert Sent(s, i) ==> OwnsClaim(s, i);
    assert Sent(s, j) ==> OwnsClaim(s, j);
  }

  /** Every investigation debit in the ledger has a claim row, and a reconciled claim's own debit is
      in the ledger. */
  lemma ClaimsMatchLedger(s: State, id: TransferKey)
    requires Reachable(s) && id.DebitKey?
    ensures HasId(s.ledger, id) ==> id in s.claims
    ensures id in s.claims && s.claims[id].reconciled ==>
              InvestigationDebit(id.tenant, id.investigation, id.tier) in s.ledger
  {
    ReachableInv(s);
    if HasId(s.ledger, id) {
      var k :| 0 <= k < |s.ledger| && s.ledger[k].Id() == id;
      assert s.ledger[k] == InvestigationDebit(id.tenant, id.investigation, id.tier);
    }
  }

  predicate BeforePost(pc: Pc) {
    pc.CheckBalance? || pc.Release? || pc.Post?
  }

  /** Before a debit call sends its transfer its key is claimed by that call alone, and the ledger
      holds nothing under it. */
  lemma NothingPosted(s: State, i: nat)
    requires Inv(s) && i < |s.calls| && s.calls[i].job.DebitJob? && BeforePost(s.calls[i].pc)
    ensures var id := s.calls[i].pc.t.Id();
            && id.DebitKey? && id in s.claims && s.claims[id].owner == i && s.claims[id].scope == s.calls[i].job.scope
            && !HasId(s.ledger, id) && !s.claims[id].reconciled && s.calls[i].wire.Idle?
  {
    assert CallOk(s, i);
    var id := s.calls[i].pc.t.Id();
    forall k | 0 <= k < |s.ledger| ensures s.ledger[k].Id() != id {
      assert s.ledger[k].InvestigationDebit? ==> ClaimedAndPosted(s, s.ledger[k].Id());
    }
  }

  /** An insufficient-funds release never touches another caller's claim and never unclaims a debit
      that was posted; it frees the caller's key exactly when the caller is tenant-scoped. */
  lemma ReleaseFreesOwnKey(s: State, i: nat)
    requires Reachable(s) && Enabled(s, DoRelease(i))
    ensures var id, s' := s.calls[i].pc.t.Id(), Exec(s, DoRelease(i));
            && id in s.claims && s.claims[id].owner == i && !HasId(s.ledger, id)
            && s'.claims - {id} == s.claims - {id} && s'.calls[i].pc == Threw(InsufficientFunds)
            && (id !in s'.claims <==> s.calls[i].job.scope.Some?)
  {
    ReachableInv(s);
    NothingPosted(s, i);
  }

  // ---- Stuck keys ----

  /** Claimed, but neither reconciled nor debited. */
  ghost predicate Open(s: State, id: TransferKey) {
    id.DebitKey? && id in s.claims && !s.claims[id].reconciled && !HasId(s.ledger, id)
  }

  /** The call's request was lost, or it has sent none and has ended or is about to make a release that
      matches no row. */
  predicate DeadEnd(c: Call) {
    && c.job.DebitJob?
    && (c.wire.Lost?
        || (c.wire.Idle? && (c.pc.Threw? || c.pc.Stopped? || (c.pc.Release? && c.job.scope.None?))))
  }

  /** Nothing was debited under a claim whose owner has come to a dead end. */
  ghost predicate Wedged(s: State, id: TransferKey) {
    Open(s, id) && s.claims[id].owner < |s.calls| && DeadEnd(s.calls[s.claims[id].owner])
  }

  lemma WedgedClaimStays(s: State, a: Action, id: TransferKey)
    requires CallsOk(s) && ClaimsOk(s) && Wedged(s, id) && Enabled(s, a)
    ensures id in Exec(s, a).claims && Exec(s, a).claims[id] == s.claims[id]
  {
    var o := s.claims[id].owner;
    if ActsOn(a) != Some(o) {
      if ActsOn(a).Some? {
        assert CallOk(s, a.i);
      }
      ClaimsOfOthersKept(s, a, id);
      WedgedNotReconciled(s, a, id);
    } else {
      assert CallOk(s, o) && ClaimOk(s, id, s.claims[id]);
      WedgedOwnerKeeps(s, a, id);
    }
  }

  lemma WedgedNotReconciled(s: State, a: Action, id: TransferKey)
    requires CallsOk(s) && Wedged(s, id) && Enabled(s, a) && id in Exec(s, a).claims
    requires SameClaim(s, Exec(s, a), id)
    ensures Exec(s, a).claims[id] == s.claims[id]
  {
    if a.DoReconcile? {
      assert CallOk(s, a.i);
      UnpostedUnreconciled(s, a.i, id);
    } else if a.DoRelease? {
      ClaimReleased(s, a.i, id);
    } else if a.DoClaim? {
      ClaimsKept(s, a.i, id);
    } else {
      ClaimsUntouched(s, a);
    }
  }

  lemma ClaimReleased(s: State, i: nat, id: TransferKey)
    requires Enabled(s, DoRelease(i)) && id in ReleaseKey(s, i).claims
    ensures id in s.claims && ReleaseKey(s, i).claims[id] == s.claims[id]
  {
  }

  lemma ClaimsKept(s: State, i: nat, id: TransferKey)
    requires Enabled(s, DoClaim(i)) && id in s.claims
    ensures id in DoClaimKey(s, i).claims && DoClaimKey(s, i).claims[id] == s.claims[id]
  {
  }

  lemma UnpostedUnreconciled(s: State, i: nat, id: TransferKey)
    requires Enabled(s, DoReconcile(i)) && CallOk(s, i) && id in s.claims && !HasId(s.ledger, id)
    ensures id in ReconcileClaim(s, i).claims && ReconcileClaim(s, i).claims[id] == s.claims[id]
  {
  }

  lemma WedgedOwnerKeeps(s: State, a: Action, id: TransferKey)
    requires Wedged(s, id) && Enabled(s, a) && ActsOn(a) == Some(s.claims[id].owner)
    requires CallOk(s, a.i) && ClaimOk(s, id, s.claims[id])
    ensures id in Exec(s, a).claims && Exec(s, a).claims[id] == s.claims[id]
  {
    if !a.DoRelease? && !a.DoReconcile? && !a.DoClaim? {
      ClaimsUntouched(s, a);
    }
  }

  lemma WedgedOwnerStays(s: State, a: Action, id: TransferKey)
    requires CallsOk(s) && Wedged(s, id) && Enabled(s, a)
    ensures s.claims[id].owner < |Exec(s, a).calls| && DeadEnd(Exec(s, a).calls[s.claims[id].owner])
  {
    var o := s.claims[id].owner;
    if ActsOn(a) != Some(o) {
      StepCalls(s, a);
    } else {
      assert CallOk(s, o);
      if OnlyMoves(a) {
        MoveShape(s, a);
      }
    }
  }

  lemma WedgedLedgerStays(s: State, a: Action, id: TransferKey)
    requires CallsOk(s) && Wedged(s, id) && Enabled(s, a)
    ensures !HasId(Exec(s, a).ledger, id)
  {
    if a.Deliver? {
      var t := s.calls[a.i].wire.t;
      assert CallOk(s, a.i);
      assert t.Id() != id;
      var ledger' := DeliverTransfer(s, a.i).ledger;
      forall k | 0 <= k < |ledger'| ensures ledger'[k].Id() != id {
        assert k < |s.ledger| ==> s.ledger[k].Id() != id;
      }
    } else {
      LedgerOnlyDelivered(s, a);
    }
  }

  /** Such a claim stays as it is over every run. */
  lemma {:induction false} WedgedForever(s: State, actions: seq<Action>, s': State, id: TransferKey)
    requires Inv(s) && Wedged(s, id) && IsRun(s, actions, s')
    ensures Wedged(s', id) && s'.claims[id] == s.claims[id]
    decreases |actions|
  {
    if actions != [] {
      var a := actions[0];
      WedgedClaimStays(s, a, id);
      WedgedOwnerStays(s, a, id);
      WedgedLedgerStays(s, a, id);
      StepKeeps(s, a);
      WedgedForever(Exec(s, a), actions[1..], s', id);
    }
  }

  /** Some run ends with the key claimed by a call made after s. */
  ghost predicate CanBeClaimedAgain(s: State, id: TransferKey) {
    exists actions, s' :: IsRun(s, actions, s') && id in s'.claims && s'.claims[id].owner >= |s.calls|
  }

  lemma FreeKeyClaimable(s: State, id: TransferKey)
    requires id.DebitKey? && id !in s.claims
    ensures CanBeClaimedAgain(s, id)
  {
    var n := |s.calls|;
    var job := DebitJob(id.tenant, id.investigation, id.tier, None, None);
    var s1 := Exec(s, Spawn(job));
    var s2 := DoClaimKey(s1, n);
    var actions := [Spawn(job), DoClaim(n)];
    assert actions[1..] == [DoClaim(n)] && actions[1..][1..] == [];
    assert IsRun(s2, [], s2);
    assert IsRun(s1, actions[1..], s2);
    assert IsRun(s, actions, s2);
  }

  /** The promise that a retry after a top-up can claim the same key again holds if and only if the
      rejected caller was tenant-scoped: a platform administrator's release matches no row, and the
      key then stays claimed, unreconciled and undebited in every later state. */
  lemma ReclaimableIffScoped(s: State, i: nat)
    requires Reachable(s) && Enabled(s, DoRelease(i))
    ensures CanBeClaimedAgain(Exec(s, DoRelease(i)), s.calls[i].pc.t.Id()) <==> s.calls[i].job.scope.Some?
  {
    ReachableInv(s);
    ReleaseFreesOwnKey(s, i);
    NothingPosted(s, i);
    StepKeeps(s, DoRelease(i));
    var id, s1 := s.calls[i].pc.t.Id(), ReleaseKey(s, i);
    if s.calls[i].job.scope.Some? {
      FreeKeyClaimable(s1, id);
    } else {
      assert Wedged(s1, id);
      forall actions, s' | IsRun(s1, actions, s') ensures !(id in s'.claims && s'.claims[id].owner >= |s1.calls|) {
        WedgedForever(s1, actions, s', id);
      }
    }
  }

  /** A caller that dies between winning the claim and sending its transfer leaves the key stuck
      for good, whatever its scope. */
  lemma CrashAfterClaimWedges(s: State, i: nat, actions: seq<Action>, s': State)
    requires Reachable(s) && i < |s.calls| && s.calls[i].job.DebitJob?
    requires BeforePost(s.calls[i].pc) && IsRun(Exec(s, Crash(i)), actions, s')
    ensures var id := s.calls[i].pc.t.Id();
            id in s'.claims && !s'.claims[id].reconciled && !HasId(s'.ledger, id)
  {
    ReachableInv(s);
    NothingPosted(s, i);
    StepKeeps(s, Crash(i));
    assert Exec(s, Crash(i)) == Goto(s, i, Stopped);
    WedgedForever(Goto(s, i, Stopped), actions, s', s.calls[i].pc.t.Id());
  }
}
