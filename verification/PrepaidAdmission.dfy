/** Who may debit whom: behind every claim and every debit in the ledger stands a request that its caller was
    allowed to make, at the server's price. */
module PrepaidAdmission {
  import opened Common
  import opened TransferIds
  import opened PrepaidLedger
  import opened PrepaidInvariants
  import opened PrepaidPreservation
  import opened PrepaidDebits

  /** The request names a canonical tenant, comes from that tenant or from a platform administrator, and asks
      for the server's price if it names one. */
  predicate Admitted(job: Job) {
    && job.DebitJob? && CanonicalTenant(job.tenant)
    && (job.scope.Some? ==> job.scope.value == job.tenant)
    && (job.amount.Some? ==> job.amount.value == TierAmount(job.tier))
  }

  predicate CallAdmitted(c: Call) {
    c.job.DebitJob? && !c.pc.Threw? && !c.pc.Stopped? ==> Admitted(c.job)
  }

  ghost predicate ClaimAdmitted(s: State, claim: Claim) {
    claim.owner < |s.calls| && Admitted(s.calls[claim.owner].job) && claim.scope == s.calls[claim.owner].job.scope
  }

  ghost predicate AllAdmitted(s: State) {
    && (forall i :: 0 <= i < |s.calls| ==> CallAdmitted(s.calls[i]))
    && (forall id :: id in s.claims ==> ClaimAdmitted(s, s.claims[id]))
  }

  /** A request is turned away before it does anything, exactly if it is not admissible. */
  lemma TurnedAwayIff(job: Job)
    requires job.DebitJob?
    ensures FirstPc(job) == Threw(BadRequest) <==> !CanonicalTenant(job.tenant)
    ensures FirstPc(job) == Threw(Forbidden) <==> CanonicalTenant(job.tenant) && !Admitted(job)
    ensures Admitted(job) ==> FirstPc(job) == ClaimKey(DebitOf(job))
  {
  }

  /** The charge for an assessment is tried exactly if it is positive and the tenant canonical. */
  lemma AssessmentTurnedAwayIff(job: Job)
    requires job.AssessJob?
    ensures FirstPc(job) == Threw(BadRequest) <==> !CanonicalTenant(job.tenant) || job.charge <= 0
    ensures CanonicalTenant(job.tenant) && job.charge > 0 ==>
              FirstPc(job) == CheckBalance(AssessmentDebit(job.tenant, job.event, job.charge))
  {
  }

  lemma MovedAdmitted(s: State, a: Action)
    requires Enabled(s, a) && ActsOn(a).Some? && a.i < |s.calls| && CallAdmitted(s.calls[a.i])
    ensures a.i < |Exec(s, a).calls| && CallAdmitted(Exec(s, a).calls[a.i])
  {
    if OnlyMoves(a) {
      MoveShape(s, a);
    }
  }

  lemma CallsStep(s: State, a: Action, j: nat)
    requires AllAdmitted(s) && Enabled(s, a) && j < |Exec(s, a).calls|
    ensures CallAdmitted(Exec(s, a).calls[j])
  {
    StepCalls(s, a);
    if ActsOn(a) == Some(j) {
      MovedAdmitted(s, a);
    } else if a.Spawn? && j == |s.calls| && a.job.DebitJob? {
      TurnedAwayIff(a.job);
    }
  }

  /** A claim keeps its owner and scope; a new one has those of the call that made it. */
  lemma ClaimOrigin(s: State, a: Action, id: TransferKey)
    requires Enabled(s, a) && id in Exec(s, a).claims
    ensures var claim := Exec(s, a).claims[id];
            || (id in s.claims && claim.owner == s.claims[id].owner && claim.scope == s.claims[id].scope)
            || (a.DoClaim? && claim.owner == a.i && claim.scope == s.calls[a.i].job.scope)
  {
    if a.DoRelease? {
      ClaimReleased(s, a.i, id);
    } else if !a.DoClaim? && !a.DoReconcile? {
      ClaimsUntouched(s, a);
    }
  }

  lemma AdmittedStep(s: State, a: Action)
    requires AllAdmitted(s) && Enabled(s, a)
    ensures AllAdmitted(Exec(s, a))
  {
    var s' := Exec(s, a);
    forall j | 0 <= j < |s'.calls| ensures CallAdmitted(s'.calls[j]) {
      CallsStep(s, a, j);
    }
    StepExtends(s, a);
    forall id | id in s'.claims ensures ClaimAdmitted(s', s'.claims[id]) {
      ClaimOrigin(s, a, id);
    }
  }

  lemma {:induction false} AdmittedRun(s: State, actions: seq<Action>, s': State)
    requires AllAdmitted(s) && IsRun(s, actions, s')
    ensures AllAdmitted(s')
    decreases |actions|
  {
    if actions != [] {
      AdmittedStep(s, actions[0]);
      AdmittedRun(Exec(s, actions[0]), actions[1..], s');
    }
  }

  /** In every reachable state a claim that a tenant's user made is on that tenant's account. */
  lemma ClaimsAreOwn(s: State, id: TransferKey)
    requires Reachable(s) && id in s.claims
    ensures id.DebitKey? && (s.claims[id].scope.Some? ==> s.claims[id].scope.value == id.tenant)
  {
    ReachableInv(s);
    var now, actions :| IsRun(InitialState(now), actions, s);
    AdmittedRun(InitialState(now), actions, s);
    assert ClaimOk(s, id, s.claims[id]);
  }

  /** In every reachable state each investigation debit in the ledger was asked for by a user of the tenant it
      takes from or by a platform administrator, and for no other price than the server's. */
  lemma DebitsAreAdmitted(s: State, k: nat) returns (i: nat)
    requires Reachable(s) && k < |s.ledger| && s.ledger[k].InvestigationDebit?
    ensures i < |s.calls| && Admitted(s.calls[i].job) && DebitOf(s.calls[i].job) == s.ledger[k]
  {
    ReachableInv(s);
    var now, actions :| IsRun(InitialState(now), actions, s);
    AdmittedRun(InitialState(now), actions, s);
    var id := s.ledger[k].Id();
    assert ClaimedAndPosted(s, id) && ClaimOk(s, id, s.claims[id]);
    i := s.claims[id].owner;
  }
}
