// How one commit may change one receipt. Every command of the owner is covered
// by one relation, from which the stability of claims and the trace of a
// recovery follow.
module ReceiptSteps {
  import opened OwnerState
  import opened Receipts
  import opened AttemptEffects
  import opened ReconciliationEffects
  import opened OperatorMutations
  import opened StateOwner
  import opened LedgerInvariant

  // ---- The relation --------------------------------------------------------

  /** The same claim, seen again or stamped with a new owner epoch. */
  predicate Reclaimed(r: Receipt, q: Receipt, epoch: nat) {
    && Claims(r) && r.admission.Some? && q.admission.Some?
    && q == r.(admission := Some(r.admission.value.(sighting := q.admission.value.sighting, epoch := epoch)))
  }

  predicate ClosedBadly(r: Receipt, q: Receipt) {
    r.state.Waiting? && q.state.Done? && q.request == r.request && q.result.Some? && !q.result.value.ok
  }

  predicate ClosedWell(r: Receipt, q: Receipt) {
    && r.state.Waiting? && q == Closed(r, Success(r.request, if q.result.Some? then q.result.value.revision else 0))
    && (r.effect != 0 || r.phase.HandoffCleanup?)
  }

  /** A recovery waits for its next effect, keeping the one that finished until
      the next one is begun. */
  predicate Recovers(c: Command, r: Receipt, q: Receipt) {
    && r.request.action.Recover? && r.state.Waiting? && q == r.(phase := q.phase, effect := q.effect, diagnostic := "")
    && match r.phase
       case StopPending => q.phase.TerminalAwait? && q.effect == r.effect
       case TerminalAwait => q.phase.TerminalPending? && c.AdvanceRecoveryCommand?
       case TerminalPending => q.phase.RetryAwait? && q.effect == r.effect
       case RetryAwait => q.phase.RetryPending? && c.AdvanceRecoveryCommand?
       case _ => false
  }

  /** A cleanup starts, or no longer waits for a compensation. */
  predicate CleansUp(s: State, r: Receipt, q: Receipt) {
    && r.state.Waiting? && q == r.(phase := q.phase, diagnostic := "")
    && ((q.phase.CleanupPending? && r.phase.HandoffCleanup?)
        || (q.phase.CleanupStarted? && r.effect in s.effects && IsRuntime(s.effects[r.effect], Cleanup)))
  }

  predicate Begun(s: State, c: Command, r: Receipt, q: Receipt) {
    c.BeginMutation? && Claims(r) && !q.phase.AdmissionPending?
  }

  ghost predicate Changed(s: State, c: Command, r: Receipt, q: Receipt) {
    && q.request == r.request
    && (|| q == r
        || (if c.OwnerStart? then Reclaimed(r, q, s.epoch + 1) else r.admission.Some? && Reclaimed(r, q, r.admission.value.epoch))
        || ClosedBadly(r, q) || ClosedWell(r, q)
        || (r.state.Waiting? && q == r.(diagnostic := q.diagnostic))
        || Recovers(c, r, q) || CleansUp(s, r, q) || Begun(s, c, r, q))
  }

  /** Only a reservation adds a claim, and only a begin anything else. */
  predicate Added(c: Command, q: Receipt) {
    if q.phase.AdmissionPending? then c.ReserveAdmission? else c.BeginMutation?
  }

  /** A receipt of the next ledger is new or a change of one that was there. */
  ghost predicate Traced(s: State, c: Command, q: Receipt) {
    var known := Find(s.receipts, q.request.id);
    if known.None? then Added(c, q) else Changed(s, c, known.value, q)
  }

  // ---- Passes --------------------------------------------------------------

  lemma PassTraces(s: State, c: Command, f: Receipt -> Receipt)
    requires UniqueIds(s.receipts)
    requires forall r :: r in s.receipts ==> Changed(s, c, r, f(r))
    ensures forall q :: q in Each(s.receipts, f) ==> Traced(s, c, q)
  {
    var out := Each(s.receipts, f);
    forall q | q in out ensures Traced(s, c, q) {
      var i :| 0 <= i < |out| && out[i] == q;
      assert s.receipts[i] in s.receipts;
      FindInShaped(s.receipts, s.receipts[i]);
    }
  }

  lemma KeptTraces(s: State, c: Command, rs: seq<Receipt>)
    requires UniqueIds(s.receipts)
    requires forall q :: q in rs ==> q in s.receipts || (Find(s.receipts, q.request.id).None? && Added(c, q))
    ensures forall q :: q in rs ==> Traced(s, c, q)
  {
    forall q | q in rs ensures Traced(s, c, q) {
      if q in s.receipts {
        FindInShaped(s.receipts, q);
      }
    }
  }

  // ---- Command by command --------------------------------------------------

  lemma ClaimCommandsTrace(s: State, c: Command)
    requires LedgerInv(s.receipts) && Apply(s, c).Accepted?
    requires c.ReserveAdmission? || c.AbortAdmission?
    ensures forall q :: q in Apply(s, c).state.receipts ==> Traced(s, c, q)
  {
    hide Reserve, Changed, AppendReceipt, Find;
    var after := Apply(s, c).state;
    match c {
      case ReserveAdmission(q, valid, statusAllows) =>
        if after != s {
          ReserveAnswersNothing(s, q, valid, statusAllows);
          var claim := ReserveClaims(s, q, valid, statusAllows, after);
          AppendAddsOne(s, claim, after);
        }
      case AbortAdmission(q) =>
    }
    KeptTraces(s, c, after.receipts);
  }

  lemma ReserveAnswersNothing(s: State, q: Request, valid: bool, statusAllows: bool)
    requires Reserve(s, q, valid, statusAllows).Accepted?
    ensures Reserve(s, q, valid, statusAllows).effect.None?
  {
  }

  lemma AppendAddsOne(s: State, r: Receipt, after: State)
    requires AppendReceipt(s, r) == Some(after)
    ensures forall q :: q in after.receipts ==> q == r || q in s.receipts
  {
  }

  lemma RestampTraces(s: State, c: Command)
    requires c.OwnerStart? && LedgerInv(s.receipts)
    ensures forall q :: q in RestampClaims(s.receipts, s.epoch + 1) ==> Traced(s, c, q)
  {
    hide Traced, UniqueIds, CleansUp, Recovers;
    LedgerHolds(s.receipts);
    PassTraces(s, c, (r: Receipt) => RestampClaim(r, s.epoch + 1));
  }

  lemma FailTraces(s: State, c: Command, q: Request, result: ControlResult)
    requires LedgerInv(s.receipts) && Fail(s, q, result).Accepted?
    ensures forall x :: x in Fail(s, q, result).state.receipts ==> Traced(s, c, x)
  {
    hide Traced, UniqueIds, CleansUp, Recovers, Find;
    LedgerHolds(s.receipts);
    var r := Find(s.receipts, q.id).value;
    PassTraces(s, c, (x: Receipt) => FailClaim(x, r, result, s.revision + 1));
  }

  lemma CollectTraces(s: State, c: Command, seen: State, collection: Collection)
    requires LedgerInv(s.receipts) && seen.receipts == s.receipts && !c.OwnerStart?
    ensures forall x :: x in ReconcileClaims(seen, collection) ==> Traced(s, c, x)
  {
    hide Traced, UniqueIds, CleansUp, Recovers, ClaimLost;
    LedgerHolds(s.receipts);
    PassTraces(s, c, (x: Receipt) => ReconcileClaim(seen, x, collection));
  }

  lemma RefreshTraces(s: State, c: Command, seen: State, id: string)
    requires LedgerInv(s.receipts) && seen.receipts == s.receipts && !c.OwnerStart?
    ensures forall x :: x in RefreshClaims(seen, id) ==> Traced(s, c, x)
  {
    hide Traced, UniqueIds, CleansUp, Recovers, Find;
    LedgerHolds(s.receipts);
    var known := Find(seen.receipts, id);
    if known.Some? && known.value.admission.Some? && known.value.request.slot.issue in seen.observations {
      var previous, sighting := known.value.admission.value, Seen(seen.observations[known.value.request.slot.issue]);
      PassTraces(s, c, (x: Receipt) => RefreshOne(x, previous, sighting));
    } else {
      KeptTraces(s, c, s.receipts);
    }
  }

  lemma LedgerHolds(rs: seq<Receipt>)
    requires LedgerInv(rs)
    ensures UniqueIds(rs) && forall r :: r in rs ==> ValidBinding(r)
  {
  }

  lemma AdvancePassTraces(s: State, c: Command, effect: nat)
    requires UniqueIds(s.receipts) && effect != 0
    ensures forall q :: q in Advance(s.receipts, effect, StopPending, TerminalAwait) ==> Traced(s, c, q)
    ensures forall q :: q in Advance(s.receipts, effect, TerminalPending, RetryAwait) ==> Traced(s, c, q)
  {
    hide Traced, UniqueIds, CleansUp, Begun;
    PassTraces(s, c, (r: Receipt) => AdvanceOne(r, effect, StopPending, TerminalAwait));
    PassTraces(s, c, (r: Receipt) => AdvanceOne(r, effect, TerminalPending, RetryAwait));
  }

  lemma ClosingPassTraces(s: State, c: Command, effect: nat, revision: nat, diagnostic: string)
    requires UniqueIds(s.receipts) && effect != 0
    ensures forall q :: q in CompleteBound(s.receipts, effect, revision) ==> Traced(s, c, q)
    ensures forall q :: q in FailBound(s.receipts, effect, diagnostic, revision) ==> Traced(s, c, q)
  {
    hide Traced, UniqueIds, CleansUp, Begun, Recovers;
    PassTraces(s, c, (r: Receipt) => CompleteOne(r, effect, revision));
    PassTraces(s, c, (r: Receipt) => FailOne(r, effect, diagnostic, revision));
  }

  lemma ReviewPassTraces(s: State, c: Command, effect: nat, revision: nat)
    requires UniqueIds(s.receipts)
    ensures forall q :: q in Each(s.receipts, (r: Receipt) => CloseReview(r, effect, revision)) ==> Traced(s, c, q)
  {
    hide Traced, UniqueIds, CleansUp, Begun, Recovers;
    PassTraces(s, c, (r: Receipt) => CloseReview(r, effect, revision));
  }

  lemma FinishOperatorTraces(s: State, f: RuntimeFinish)
    requires UniqueIds(s.receipts) && EffectsKeyed(s) && FinishOperatorRuntime(s, f).Accepted?
    ensures forall q :: q in FinishOperatorRuntime(s, f).state.receipts ==> Traced(s, FinishOperatorRuntimeCommand(f), q)
  {
    hide Traced, UniqueIds, FinishRuntime, Advance, CompleteBound;
    FinishRuntimeKeepsReceipts(s, f);
    AdvancePassTraces(s, FinishOperatorRuntimeCommand(f), f.identity.id);
    ClosingPassTraces(s, FinishOperatorRuntimeCommand(f), f.identity.id, s.revision + 1, "");
  }

  lemma FinishReconciliationTraces(s: State, f: ReconciliationFinish)
    requires UniqueIds(s.receipts) && EffectsKeyed(s) && FinishReconciliation(s, f).Accepted?
    ensures forall q :: q in FinishReconciliation(s, f).state.receipts ==> Traced(s, FinishReconciliationCommand(f), q)
  {
    hide Traced, UniqueIds, NotFinishable, ResultUnproved, ValidResult, Advance, CompleteBound, FailBound;
    AdvancePassTraces(s, FinishReconciliationCommand(f), f.identity.id);
    ClosingPassTraces(s, FinishReconciliationCommand(f), f.identity.id, s.revision + 1, if f.result.ReviewerResult? then f.result.diagnostic else "");
    KeptTraces(s, FinishReconciliationCommand(f), s.receipts);
  }

  lemma SupersedeReviewTraces(s: State, r: ReviewSupersession)
    requires UniqueIds(s.receipts) && EffectsKeyed(s) && SupersedeReview(s, r).Accepted?
    ensures forall q :: q in SupersedeReview(s, r).state.receipts ==> Traced(s, SupersedeReviewCommand(r), q)
  {
    hide Traced, UniqueIds, PlanReviewInvalidated, CleanupAuthorized, ProofOf, SameManifest, BelongsToEffect, CloseReview, RecordOutcome, Identifies;
    ReviewPassTraces(s, SupersedeReviewCommand(r), r.identity.id, s.revision + 1);
    KeptTraces(s, SupersedeReviewCommand(r), s.receipts);
  }

  lemma StartCleanupTraces(s: State, i: EffectIdentity, external: bool)
    requires UniqueIds(s.receipts) && EffectsKeyed(s) && StartCleanupWork(s, i, external).Accepted?
    ensures forall q :: q in StartCleanupWork(s, i, external).state.receipts ==> Traced(s, StartCleanupCommand(i, external), q)
  {
    hide Traced, UniqueIds;
    var c := StartCleanupCommand(i, external);
    var e := s.effects[i.id];
    assert IsRuntime(e, Cleanup) && e.id == i.id;
    PassTraces(s, c, (r: Receipt) => StartCleanupOne(r, e.id));
    KeptTraces(s, c, s.receipts);
  }

  lemma DiagnoseTraces(s: State, id: string, phase: Phase, effect: nat, diagnostic: string)
    requires UniqueIds(s.receipts) && RecordDiagnostic(s, id, phase, effect, diagnostic).Accepted?
    ensures forall q :: q in RecordDiagnostic(s, id, phase, effect, diagnostic).state.receipts ==> Traced(s, DiagnoseOperator(id, phase, effect, diagnostic), q)
  {
    hide Traced, UniqueIds;
    PassTraces(s, DiagnoseOperator(id, phase, effect, diagnostic), (r: Receipt) => DiagnoseOne(r, phase, effect, diagnostic));
  }

  lemma CompensationTraces(s: State, id: string, proved: bool)
    requires UniqueIds(s.receipts) && CompleteHandoff(s, id, proved).Accepted?
    ensures forall q :: q in CompleteHandoff(s, id, proved).state.receipts ==> Traced(s, CompleteCompensation(id, proved), q)
  {
    hide Traced, UniqueIds, Find, Recovers, Reclaimed, Begun;
    var c := CompleteCompensation(id, proved);
    KeptTraces(s, c, s.receipts);
    var slot := Find(s.receipts, id).value.request.slot;
    if slot in s.tombstones {
      var effect := s.tombstones[slot].effect;
      PassTraces(s, c, (r: Receipt) => CompensateOne(r, slot, effect, s.revision + 1));
    }
  }

  lemma UntouchedTraces(s: State, c: Command)
    requires UniqueIds(s.receipts) && EffectsKeyed(s) && Apply(s, c).Accepted?
    requires !c.BeginMutation? && !c.AdvanceRecoveryCommand? && !c.OwnerStart? && !c.ReserveAdmission? && !c.AbortAdmission? && !c.FailAdmission?
          && !c.Collect? && !c.Refresh? && !c.FinishOperatorRuntimeCommand? && !c.FinishReconciliationCommand? && !c.SupersedeReviewCommand?
          && !c.StartCleanupCommand? && !c.DiagnoseOperator? && !c.CompleteCompensation?
    ensures forall q :: q in Apply(s, c).state.receipts ==> Traced(s, c, q)
  {
    hide Traced, UniqueIds, EffectsKeyed, Begin, BeginReconciliation, BeginRuntime, InvalidateAttempt, FinishRuntime, FinishReconciliation,
      AdvanceRecovery, Reserve, AuthorizeReconciliation, ResolveInvalidated, RequestReviewerSession, MarkReviewerRunning, ProveReviewerDead,
      SealReviewerResult, BindReviewerStopping, MarkReviewerStopped, FinishOperatorRuntime, SupersedeReview, StartCleanupWork, JoinCoalesced;
    match c {
      case FinishRuntimeCommand(f) => FinishRuntimeKeepsReceipts(s, f);
      case BeginRuntimeCommand(b) => BeginRuntimeKeepsReceipts(s, b);
      case InvalidateCommand(i) => InvalidateKeepsReceipts(s, i);
      case BeginReconciliationCommand(b) => BeginReconciliationKeepsReceipts(s, b);
      case AuthorizeReconciliationCommand(_, _) => OtherCommandsKeepReceipts(s, c);
      case ResolveInvalidatedCommand(_, _) => OtherCommandsKeepReceipts(s, c);
      case OtherCommand(_) => OtherCommandsKeepReceipts(s, c);
      case _ => ReviewerCommandsKeepReceipts(s, c);
    }
    assert Apply(s, c).state.receipts == s.receipts;
    KeptTraces(s, c, s.receipts);
  }

  // ---- The two commands whose receipts the commit binds --------------------

  lemma AdvanceChanges(s: State, c: Command, r: Receipt, to: Phase, id: nat, revision: nat, x: Receipt)
    requires c.AdvanceRecoveryCommand? && ((r.phase.TerminalAwait? && to.TerminalPending?) || (r.phase.RetryAwait? && to.RetryPending?))
    requires ValidBinding(x)
    ensures Changed(s, c, x, BoundAdvance(UnbindOne(x, r, to), id, revision))
  {
  }

  lemma AdvanceTraces(s: State, a: RecoveryAdvance, candidate: State, effect: Option<Effect>, revoked: set<nat>)
    requires LedgerInv(s.receipts) && EffectsKeyed(s)
    requires AdvanceRecovery(s, a) == Accepted(candidate, effect)
    ensures forall q :: q in Stamp(s, AdvanceRecoveryCommand(a), candidate, effect, revoked).receipts ==> Traced(s, AdvanceRecoveryCommand(a), q)
  {
    hide BeginReconciliation, AdvanceRecovery, EffectsKeyed, Traced, UniqueIds, Changed, Stamp, LedgerInv, BoundAdvance, UnbindOne;
    LedgerHolds(s.receipts);
    var c := AdvanceRecoveryCommand(a);
    var r, to := AdvanceUnbinds(s, a, candidate, effect);
    StampedAdvance(s, a, candidate, effect.value, revoked);
    var id := if effect.value.id == 0 then s.revision + 1 else effect.value.id;
    var f := (x: Receipt) => BoundAdvance(UnbindOne(x, r, to), id, s.revision + 1);
    forall x | x in s.receipts ensures Changed(s, c, x, f(x)) {
      AdvanceChanges(s, c, r, to, id, s.revision + 1, x);
    }
    PassTraces(s, c, f);
    assert Stamp(s, c, candidate, effect, revoked).receipts == Each(s.receipts, f);
  }

  /** The effect that the commit binds to a begun receipt. */
  function BoundEffect(candidate: State, r: Receipt, effect: Option<Effect>): nat {
    if effect.None? then r.effect else if IsNew(effect) then candidate.revision + 1 else effect.value.id
  }

  lemma StampedBegin(s: State, c: OperatorBegin, candidate: State, effect: Option<Effect>, revoked: set<nat>)
    ensures var next := Stamp(s, BeginMutation(c), candidate, effect, revoked);
      && |next.receipts| == |candidate.receipts|
      && forall i :: 0 <= i < |candidate.receipts| ==>
           if BindsRequest(s, BeginMutation(c), candidate.receipts[i])
           then && next.receipts[i].request == candidate.receipts[i].request && next.receipts[i].phase == candidate.receipts[i].phase
                && next.receipts[i].effect == BoundEffect(candidate, candidate.receipts[i], effect)
           else next.receipts[i] == candidate.receipts[i]
  {
  }

  ghost predicate OwnClaim(s: State, q: Request) {
    var known := Find(s.receipts, q.id);
    known.Some? ==> known.value.request == q && Claims(known.value)
  }

  lemma JoinedTraces(s: State, c: OperatorBegin, candidate: State, effect: Option<Effect>, revoked: set<nat>, begun: State, primary: Receipt, mid: State)
    requires LedgerInv(s.receipts) && Shaped(begun.receipts)
    requires forall r :: r in begun.receipts ==> r == primary || r in mid.receipts
    requires primary in begun.receipts && primary.request == c.request && Recorded(primary)
    requires forall r :: r in mid.receipts ==> r.request.id != c.request.id && Traced(s, BeginMutation(c), r)
    requires OwnClaim(s, c.request)
    requires JoinCoalesced(s, c, Accepted(begun, effect)) == Accepted(candidate, effect)
    ensures forall q :: q in Stamp(s, BeginMutation(c), candidate, effect, revoked).receipts ==> Traced(s, BeginMutation(c), q)
  {
    hide Traced, Stamp, JoinCoalesced, Shaped, Recorded, LedgerInv, BindsRequest, Followers;
    FollowersShareAction(s, c.request);
    JoinedReceipts(s, c, candidate, effect, begun, primary, mid.receipts);
    StampedBegin(s, c, candidate, effect, revoked);
    var next := Stamp(s, BeginMutation(c), candidate, effect, revoked);
    forall q | q in next.receipts ensures Traced(s, BeginMutation(c), q) {
      var i :| 0 <= i < |next.receipts| && next.receipts[i] == q;
      var r := candidate.receipts[i];
      assert r in candidate.receipts;
      if BindsRequest(s, BeginMutation(c), r) {
        BoundTraces(s, c, r, q);
      }
    }
  }

  lemma BoundTraces(s: State, c: OperatorBegin, r: Receipt, q: Receipt)
    requires LedgerInv(s.receipts) && Recorded(r) && OwnClaim(s, c.request)
    requires q.request == r.request && q.phase == r.phase
    requires r.request == c.request || r.request in Followers(s, c.request)
    ensures Traced(s, BeginMutation(c), q)
  {
    if r.request in Followers(s, c.request) {
      var own := Find(s.receipts, c.request.id).value;
      var i :| 0 <= i < |s.receipts| && SameClaim(s.receipts[i], own) && s.receipts[i].request == r.request;
      assert s.receipts[i] in s.receipts;
      FindInShaped(s.receipts, s.receipts[i]);
      assert Begun(s, BeginMutation(c), s.receipts[i], q);
    }
  }

  lemma UnclaimedBeginRecords(s: State, c: OperatorBegin) returns (mid: State, primary: Receipt)
    requires LedgerInv(s.receipts) && EffectsKeyed(s)
    requires Admitted(s, c).NotAdmitted? && Begin(s, c).Accepted?
    ensures mid.receipts == s.receipts || mid.receipts == SupersedeReceipts(s.receipts, c.request.slot, c.request.action, s.revision + 1)
    ensures AppendReceipt(mid, primary) == Some(Begin(s, c).state)
    ensures primary.request == c.request && Recorded(primary) && Unused(s.receipts, c.request.id) && Anchored(s, primary, Begin(s, c).effect)
  {
    hide BeginWork, AppendReceipt, SupersedeReceipts, Bindable, LedgerInv, AllBound, ClosesOthers;
    LedgerBounds(s.receipts);
    NothingListed(s.receipts, c.request.id);
    mid, primary := BeginWorkRecords(s, c, false, Begin(s, c).state, Begin(s, c).effect);
  }

  /** A begin, whether it consumes a claim or none, changes no other receipt but
      to close it. */
  lemma BeginTraces(s: State, c: OperatorBegin, candidate: State, effect: Option<Effect>, revoked: set<nat>)
    requires LedgerInv(s.receipts) && EffectsKeyed(s)
    requires Admitted(s, c).AdmittedBy? || Admitted(s, c).NotAdmitted?
    requires JoinCoalesced(s, c, Begin(s, c)) == Accepted(candidate, effect)
    ensures forall q :: q in Stamp(s, BeginMutation(c), candidate, effect, revoked).receipts ==> Traced(s, BeginMutation(c), q)
  {
    hide Stamp, JoinCoalesced, Begin, Admitted, AppendReceipt, Traced, SupersedeReceipts, Bindable, Followers, EffectsKeyed, LedgerInv, Without, Unused, Recorded, OwnClaim;
    JoinPasses(s, c, Begin(s, c), candidate, effect);
    var begun := Begin(s, c);
    var mid, primary;
    var base := s.receipts;
    OwnClaimOf(s, c);
    if Admitted(s, c).AdmittedBy? {
      AdmittedHolds(s, c);
      ConsumedClaimLeavesLedger(s.receipts, Find(s.receipts, c.request.id).value);
      base := Without(s.receipts, c.request.id);
      mid, primary := ClaimedBeginRecords(s, c, Admitted(s, c).claim);
    } else {
      mid, primary := UnclaimedBeginRecords(s, c);
    }
    MiddleTraces(s, c, base, mid.receipts);
    AppendTraces(base, c.request, s.revision + 1, mid, primary, begun.state);
    JoinedTraces(s, c, candidate, effect, revoked, begun.state, primary, mid);
  }

  lemma OwnClaimOf(s: State, c: OperatorBegin)
    requires Admitted(s, c).AdmittedBy? || Admitted(s, c).NotAdmitted?
    ensures OwnClaim(s, c.request)
  {
  }

  lemma AppendTraces(base: seq<Receipt>, q: Request, revision: nat, mid: State, primary: Receipt, begun: State)
    requires LedgerInv(base) && Unused(mid.receipts, q.id) && Recorded(primary) && primary.request == q
    requires mid.receipts == base || mid.receipts == SupersedeReceipts(base, q.slot, q.action, revision)
    requires AppendReceipt(mid, primary) == Some(begun)
    ensures Shaped(begun.receipts) && primary in begun.receipts
    ensures forall r :: r in begun.receipts ==> r == primary || r in mid.receipts
  {
    SupersedeKeepsShape(base, q, revision);
    AppendKeepsShape(mid, primary, begun);
  }

  lemma NothingListed(rs: seq<Receipt>, id: string)
    requires Find(rs, id).None?
    ensures Unused(rs, id)
  {
  }

  lemma MiddleTraces(s: State, c: OperatorBegin, base: seq<Receipt>, mid: seq<Receipt>)
    requires LedgerInv(s.receipts) && Unused(base, c.request.id) && forall r :: r in base ==> r in s.receipts
    requires mid == base || mid == SupersedeReceipts(base, c.request.slot, c.request.action, s.revision + 1)
    ensures forall r :: r in mid ==> r.request.id != c.request.id && Traced(s, BeginMutation(c), r)
    ensures Unused(mid, c.request.id)
  {
    forall r | r in mid ensures r.request.id != c.request.id && Traced(s, BeginMutation(c), r) {
      var i :| 0 <= i < |mid| && mid[i] == r;
      assert base[i] in base;
      FindInShaped(s.receipts, base[i]);
    }
  }

  // ---- Every commit --------------------------------------------------------

  lemma CandidateTraces(s: State, c: Command)
    requires LedgerInv(s.receipts) && EffectsKeyed(s) && Apply(s, c).Accepted?
    requires !c.BeginMutation? && !c.AdvanceRecoveryCommand?
    ensures forall q :: q in Apply(s, c).state.receipts ==> Traced(s, c, q)
  {
    hide LedgerInv, EffectsKeyed, Traced, Reserve, Abort, Fail, RefreshClaims, RefreshValid, ReconcileClaims, RestampClaims, StartCleanupWork, FinishOperatorRuntime,
      FinishRuntime, RecordDiagnostic, CompleteHandoff, BeginRuntime, InvalidateAttempt, BeginReconciliation, AuthorizeReconciliation,
      ResolveInvalidated, RequestReviewerSession, MarkReviewerRunning, ProveReviewerDead, SealReviewerResult, BindReviewerStopping,
      MarkReviewerStopped, FinishReconciliation, SupersedeReview, Begin, JoinCoalesced, AdvanceRecovery;
    LedgerHolds(s.receipts);
    match c {
      case OwnerStart(_) => RestampTraces(s, c);
      case ReserveAdmission(_, _, _) => ClaimCommandsTrace(s, c);
      case AbortAdmission(_) => ClaimCommandsTrace(s, c);
      case FailAdmission(q, result) => FailTraces(s, c, q, result);
      case Collect(observations, collection) => CollectTraces(s, c, Observe(s, observations), collection);
      case Refresh(observations, id, _, _) => RefreshTraces(s, c, Observe(s, observations), id);
      case StartCleanupCommand(i, external) => StartCleanupTraces(s, i, external);
      case FinishOperatorRuntimeCommand(f) => FinishOperatorTraces(s, f);
      case DiagnoseOperator(id, phase, effect, diagnostic) => DiagnoseTraces(s, id, phase, effect, diagnostic);
      case CompleteCompensation(id, proved) => CompensationTraces(s, id, proved);
      case FinishReconciliationCommand(f) => FinishReconciliationTraces(s, f);
      case SupersedeReviewCommand(r) => SupersedeReviewTraces(s, r);
      case _ => UntouchedTraces(s, c);
    }
  }

  /** Every receipt of a proposed ledger is new or a change of a committed one. */
  lemma ProposalTraces(s: State, m: Move, next: State)
    requires LedgerInv(s.receipts) && EffectsKeyed(s)
    requires Proposed(s, m) == Some(next)
    ensures forall q :: q in next.receipts ==> Traced(s, m.command, q)
  {
    hide LedgerInv, EffectsKeyed, Traced, Begin, Admitted, Stamp, JoinCoalesced, AdvanceRecovery, Reserve, BeginReconciliation, BeginRuntime,
      InvalidateAttempt, FinishRuntime, FinishReconciliation, SupersedeReview, FinishOperatorRuntime, ResolveInvalidated, AuthorizeReconciliation,
      RequestReviewerSession, MarkReviewerRunning, ProveReviewerDead, SealReviewerResult, BindReviewerStopping, MarkReviewerStopped,
      StartCleanupWork, CompleteHandoff, RecordDiagnostic, RefreshClaims, RefreshValid, ReconcileClaims, RestampClaims, Abort, Fail;
    LedgerHolds(s.receipts);
    var c := m.command;
    var reply := Apply(s, c);
    if next == s {
      KeptTraces(s, c, s.receipts);
    } else if c.BeginMutation? {
      JoinPasses(s, c.begin, Begin(s, c.begin), reply.state, reply.effect);
      if Admitted(s, c.begin).AlreadyBegun? {
        AnsweredBegin(s, c.begin);
      } else {
        AcceptedBegin(s, c.begin);
        BeginTraces(s, c.begin, reply.state, reply.effect, m.revoked);
      }
    } else if c.AdvanceRecoveryCommand? {
      AdvanceTraces(s, c.advance, reply.state, reply.effect, m.revoked);
    } else {
      CandidateTraces(s, c);
      StampedOther(s, c, reply.state, reply.effect, m.revoked);
    }
  }
}
