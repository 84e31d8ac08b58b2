// The receipt ledger over every run of disciplined commands, without the help of
// the commit gate: the invariants that the single steps rest on hold throughout.
module LedgerRuns {
  import opened OwnerState
  import opened Receipts
  import opened AttemptEffects
  import opened ReconciliationEffects
  import opened OperatorMutations
  import opened StateOwner
  import opened LedgerInvariant
  import opened ReceiptSteps
  import opened EffectSteps

  // ---- Tombstones ----------------------------------------------------------

  predicate SameTombstone(t: Tombstone, u: Tombstone) {
    u.revision == t.revision && u.effect == t.effect && u.start == t.start
  }

  /** Old tombstones keep their effect; a new one waits for the commit to give it
      its effect, and wants one if a launch candidate is pending. */
  ghost predicate Buries(s: State, reply: Reply) {
    reply.Accepted? ==>
      forall k :: k in reply.state.tombstones ==>
        if k in s.tombstones then SameTombstone(s.tombstones[k], reply.state.tombstones[k])
        else
          && reply.state.tombstones[k].revision == 0 && reply.state.tombstones[k].effect == 0
          && (reply.state.tombstones[k].start ==> IsNew(reply.effect) && reply.effect.value.slot == k)
  }

  /** A candidate with the tombstones of another one. */
  lemma SameTombstonesBury(s: State, reply: Reply, other: Reply)
    requires Buries(s, reply) && reply.Accepted? && other.Accepted?
    requires other.state.tombstones == reply.state.tombstones && other.effect == reply.effect
    ensures Buries(s, other)
  {
  }

  lemma KeptTombstonesBury(s: State, reply: Reply)
    requires reply.Accepted? ==> reply.state.tombstones == s.tombstones
    ensures Buries(s, reply)
  {
  }

  lemma BeginsKeepTombstones(s: State, b: RuntimeBegin, c: ReconciliationBegin)
    ensures BeginRuntime(s, b).Accepted? ==> BeginRuntime(s, b).state.tombstones == s.tombstones
    ensures BeginReconciliation(s, c).Accepted? ==> BeginReconciliation(s, c).state.tombstones == s.tombstones
  {
    hide IssueHasUnconfinedReviewer, ReviewerExcludes, AdmissionBlocked, ObservationCurrent, ReferencedByReceipt, SameManifest, UnresolvedOnIssue, DeathUnproved;
  }

  lemma InvalidationBuries(s: State, i: Invalidation)
    requires i.start ==> i.cleanupDigest.Some?
    ensures Buries(s, InvalidateAttempt(s, i))
  {
    hide ReferencedByReceipt, SameInvalidation;
  }

  lemma AppendKeepsTombstones(s: State, r: Receipt)
    ensures AppendReceipt(s, r).Some? ==> AppendReceipt(s, r).value.tombstones == s.tombstones
  {
    hide ReferencedByReceipt, ReferencedByTombstone;
  }

  lemma RecordingBuries(s: State, begun: Reply, mid: State, r: Receipt)
    requires Buries(s, begun) && begun.Accepted? && mid.tombstones == begun.state.tombstones
    ensures Buries(s, AfterAppend(AppendReceipt(mid, r), begun.effect))
  {
    hide AppendReceipt, Buries;
    AppendKeepsTombstones(mid, r);
    if AppendReceipt(mid, r).Some? {
      SameTombstonesBury(s, begun, Accepted(AppendReceipt(mid, r).value, begun.effect));
    } else {
      KeptTombstonesBury(s, AfterAppend(AppendReceipt(mid, r), begun.effect));
    }
  }

  lemma AppendingBuries(s: State, r: Receipt, effect: Option<Effect>)
    ensures Buries(s, AfterAppend(AppendReceipt(s, r), effect))
  {
    hide AppendReceipt;
    AppendKeepsTombstones(s, r);
  }

  lemma FreshBuries(s: State, c: OperatorBegin)
    requires c.manifest.Some?
    ensures Buries(s, BeginFresh(s, c))
  {
    hide BeginRuntime, BeginReconciliation, InvalidateAttempt, AppendReceipt, Buries, Supersede;
    var q := c.request;
    KeptTombstonesBury(s, Refused(Conflict));
    KeptTombstonesBury(s, Refused(Stale));
    KeptTombstonesBury(s, Refused(Overflow));
    if c.runtime.Some? {
      var begun := BeginRuntime(s, AtRevision(s, c.runtime.value));
      RuntimeBuries(s, AtRevision(s, c.runtime.value));
      SupersedingBuries(s, begun, q, StopPending);
    }
    if c.reconciliation.Some? {
      var b := c.reconciliation.value.(identity := c.identity.(sourceRevision := s.revision));
      ReconciliationBuries(s, b);
      RecordBegunBuries(s, BeginReconciliation(s, b), q, RetryPending);
      RecordBegunBuries(s, BeginReconciliation(s, b), q, ReviewPending);
    }
    if c.cleanupDigest.Some? {
      InvalidationBuries(s, InvalidationOf(c));
      SupersedingBuries(s, Invalidate(s, c), q, CleanupPhaseFor(c));
    }
  }

  lemma RuntimeBuries(s: State, b: RuntimeBegin)
    ensures Buries(s, BeginRuntime(s, b))
  {
    hide BeginRuntime, BeginReconciliation;
    BeginsKeepTombstones(s, b, ReconciliationBegin(BeginIdentity(0, 0, 0, 0), EffectRequest(Slot(0, 0), None, NO_SIGHTING, "", GitHubBind, ""), 0, false));
    KeptTombstonesBury(s, BeginRuntime(s, b));
  }

  lemma ReconciliationBuries(s: State, c: ReconciliationBegin)
    ensures Buries(s, BeginReconciliation(s, c))
  {
    hide BeginRuntime, BeginReconciliation;
    BeginsKeepTombstones(s, RuntimeBegin(c.identity, Monitor, Manifest(Slot(0, 0), 0, Preparing, 0, "", ""), "", "", 0, 0, false), c);
    KeptTombstonesBury(s, BeginReconciliation(s, c));
  }

  lemma SupersedingBuries(s: State, begun: Reply, q: Request, phase: Phase)
    requires Buries(s, begun)
    ensures Buries(s, SupersedeAndRecord(begun, q, phase))
  {
    hide AppendReceipt, Buries, SupersedeReceipts;
    match begun
    case Refused(e) => KeptTombstonesBury(s, Refused(e));
    case Accepted(after, effect) => RecordingBuries(s, begun, Supersede(after, q.slot, q.action), Receipt(q, Waiting, phase, 0, "", None, None));
  }

  lemma RecordBegunBuries(s: State, begun: Reply, q: Request, phase: Phase)
    requires Buries(s, begun)
    ensures Buries(s, RecordBegun(begun, q, phase))
  {
    hide AppendReceipt, Buries;
    match begun
    case Refused(e) => KeptTombstonesBury(s, Refused(e));
    case Accepted(after, effect) => RecordingBuries(s, begun, after, Receipt(q, Waiting, phase, 0, "", None, None));
  }

  lemma RemoteBuries(s: State, c: OperatorBegin, admitted: bool)
    ensures Buries(s, BeginRemote(s, c, admitted))
  {
    hide AppendReceipt, InvalidateAttempt, RemoteAttemptCompleted;
    var q, slot := c.request, c.request.slot;
    var i := Invalidation(slot, IssueGeneration(s, slot.issue), c.identity.attemptGeneration, q.action, CleanupDone, "", None, None, None, false, false, c.external, 0);
    var done := Receipt(q, Done, PhaseCompleted, 0, "", Some(Success(q, 0)), None);
    AppendingBuries(s, done, None);
    InvalidationBuries(s, i);
    if InvalidateAttempt(s, i).Accepted? {
      RemoteWithoutEffect(s, i);
      RecordingBuries(s, InvalidateAttempt(s, i), InvalidateAttempt(s, i).state, done);
    }
  }

  lemma RemoteWithoutEffect(s: State, i: Invalidation)
    requires i.cleanupDigest.None? && InvalidateAttempt(s, i).Accepted?
    ensures InvalidateAttempt(s, i).effect.None?
  {
  }

  lemma WorkBuries(s: State, c: OperatorBegin, admitted: bool)
    ensures Buries(s, BeginWork(s, c, admitted))
  {
    hide AppendReceipt, BeginRemote, BeginFresh, ObservationSupports, MatchesEffect, Buries, FirstRecovery, CurrentRetry;
    RemoteBuries(s, c, admitted);
    if c.manifest.Some? {
      FreshBuries(s, c);
    }
    forall r, effect: Option<Effect> ensures Buries(s, AfterAppend(AppendReceipt(s, r), effect)) {
      AppendingBuries(s, r, effect);
    }
    forall e ensures Buries(s, Refused(e)) {
      KeptTombstonesBury(s, Refused(e));
    }
  }

  lemma {:induction false} AttachKeepsTombstones(s: State, primary: Receipt, followers: seq<Request>)
    ensures AttachAll(s, primary, followers).Some? ==> AttachAll(s, primary, followers).value.tombstones == s.tombstones
    decreases |followers|
  {
    hide AppendReceipt, Without;
    if followers == [] {
    } else if followers[0].id == primary.request.id {
      AttachKeepsTombstones(s, primary, followers[1..]);
    } else {
      var without := s.(receipts := Without(s.receipts, followers[0].id));
      AppendKeepsTombstones(without, Attached(primary, followers[0]));
      if AppendReceipt(without, Attached(primary, followers[0])).Some? {
        AttachKeepsTombstones(AppendReceipt(without, Attached(primary, followers[0])).value, primary, followers[1..]);
      }
    }
  }

  lemma JoiningBuries(s: State, c: OperatorBegin, begun: Reply)
    requires Buries(s, begun)
    ensures Buries(s, JoinCoalesced(s, c, begun))
  {
    hide AttachAll, Followers, Buries;
    KeptTombstonesBury(s, Refused(Conflict));
    if begun.Accepted? {
      var primary := Find(begun.state.receipts, c.request.id);
      if primary.Some? {
        AttachKeepsTombstones(begun.state, primary.value, Followers(s, c.request));
        if AttachAll(begun.state, primary.value, Followers(s, c.request)).Some? {
          SameTombstonesBury(s, begun, Accepted(AttachAll(begun.state, primary.value, Followers(s, c.request)).value, begun.effect));
        }
      }
    }
  }

  lemma OperatorBuries(s: State, c: OperatorBegin)
    ensures Buries(s, JoinCoalesced(s, c, Begin(s, c)))
  {
    hide BeginWork, AttachAll, Without, Readmit, Followers, JoinCoalesced;
    match Admitted(s, c) {
      case NotAdmissible(_) =>
      case AlreadyBegun(r) => KeptTombstonesBury(s, EffectOf(s, r));
      case NotAdmitted => WorkBuries(s, c, false);
      case AdmittedBy(claim) => WorkBuries(s.(receipts := Without(s.receipts, c.request.id)), Readmit(s, c, claim), true);
    }
    JoiningBuries(s, c, Begin(s, c));
  }

  lemma AdvanceBuries(s: State, a: RecoveryAdvance)
    ensures Buries(s, AdvanceRecovery(s, a))
  {
    hide BeginReconciliation, MatchesEffect;
    ReconciliationBuries(s, a.begin.(identity := a.identity.(sourceRevision := s.revision)));
  }

  lemma ReserveBuries(s: State, q: Request, valid: bool, statusAllows: bool)
    ensures Buries(s, Reserve(s, q, valid, statusAllows))
  {
    hide AppendReceipt, RemoteAttemptCompleted, Buries;
    forall r ensures Buries(s, AfterAppend(AppendReceipt(s, r), None)) {
      AppendingBuries(s, r, None);
    }
    forall e ensures Buries(s, Refused(e)) {
      KeptTombstonesBury(s, Refused(e));
    }
    KeptTombstonesBury(s, Accepted(s, None));
  }

  lemma FinishRuntimeSeals(s: State, f: RuntimeFinish)
    ensures Buries(s, FinishRuntime(s, f)) && (FinishRuntime(s, f).Accepted? ==> FinishRuntime(s, f).effect.None?)
  {
    hide AuthorizedByTombstone, IssueGeneration, AttemptGeneration, Identifies;
  }

  lemma FinishRuntimeBuries(s: State, f: RuntimeFinish)
    ensures Buries(s, FinishRuntime(s, f)) && Buries(s, FinishOperatorRuntime(s, f))
  {
    hide FinishRuntime, Advance, CompleteBound;
    FinishRuntimeSeals(s, f);
  }

  lemma ResolutionBuries(s: State, i: EffectIdentity, external: bool)
    ensures Buries(s, ResolveInvalidated(s, i, external)) && Buries(s, StartCleanupWork(s, i, external))
  {
    hide MutatesGitHub;
  }

  lemma CompensationBuries(s: State, id: string, proved: bool)
    ensures Buries(s, CompleteHandoff(s, id, proved))
  {
    hide Find;
  }

  lemma DispatchBuries(s: State, i: EffectIdentity, external: bool)
    ensures Buries(s, AuthorizeReconciliation(s, i, external)) && Buries(s, RequestReviewerSession(s, i, external))
  {
    hide Buries, NotCurrent, KnownReconciliation, MutatesGitHub;
    KeptTombstonesBury(s, AuthorizeReconciliation(s, i, external));
    KeptTombstonesBury(s, RequestReviewerSession(s, i, external));
  }

  lemma LaunchBuries(s: State, i: EffectIdentity, pid: nat, broker: nat, external: bool)
    ensures Buries(s, MarkReviewerRunning(s, i, pid, broker, external))
  {
    hide Buries, NotFinishable, LaunchProof;
    KeptTombstonesBury(s, MarkReviewerRunning(s, i, pid, broker, external));
  }

  lemma DeathBuries(s: State, i: EffectIdentity, pid: nat, neverRan: bool)
    ensures Buries(s, ProveReviewerDead(s, i, pid, neverRan))
  {
    hide Buries, CleanupAuthorized, ProofOf, LaunchProofOrAbsence;
    KeptTombstonesBury(s, ProveReviewerDead(s, i, pid, neverRan));
  }

  lemma StoppingBuries(s: State, i: EffectIdentity, pid: nat, broker: nat, key: ProofKey, p: Proof, external: bool)
    ensures Buries(s, BindReviewerStopping(s, i, pid, broker, key, p, external)) && Buries(s, MarkReviewerStopped(s, i, key, p, external))
  {
    hide Buries, CleanupAuthorized, ProofOf, SupersededProof, Identifies;
    KeptTombstonesBury(s, BindReviewerStopping(s, i, pid, broker, key, p, external));
    KeptTombstonesBury(s, MarkReviewerStopped(s, i, key, p, external));
  }

  lemma ConclusionsBury(s: State, c: Command)
    requires c.SealCommand? || c.FinishReconciliationCommand? || c.SupersedeReviewCommand?
    ensures Buries(s, Apply(s, c))
  {
    hide JoinCoalesced, AdvanceRecovery, FinishOperatorRuntime, FinishRuntime, Begin, Reserve, BeginRuntime, InvalidateAttempt, BeginReconciliation,
      ResolveInvalidated, NotFinishable, CleanupAuthorized, ProofOf, ValidResult, ResultUnproved, ReceiptsAfterFinish, PlanReviewInvalidated,
      MarkReviewerRunning, ProveReviewerDead, BindReviewerStopping, MarkReviewerStopped, Buries, SameManifest, Identifies;
    hide FinishReconciliation, SupersedeReview;
    match c {
      case FinishReconciliationCommand(f) => FinishKeepsTombstones(s, f);
      case SupersedeReviewCommand(r) => SupersessionKeepsTombstones(s, r);
      case _ =>
    }
    KeptTombstonesBury(s, Apply(s, c));
  }

  lemma FinishKeepsTombstones(s: State, f: ReconciliationFinish)
    ensures FinishReconciliation(s, f).Accepted? ==> FinishReconciliation(s, f).state.tombstones == s.tombstones
  {
    hide NotFinishable, CleanupAuthorized, ProofOf, ValidResult, ResultUnproved, ReceiptsAfterFinish, SameManifest, Identifies, IssueOutcome, RecordOutcome;
    if FinishReconciliation(s, f).Accepted? {
      OutcomeKeeps(s, s.effects[f.identity.id].work.request, f);
    }
  }

  lemma SupersessionKeepsTombstones(s: State, r: ReviewSupersession)
    ensures SupersedeReview(s, r).Accepted? ==> SupersedeReview(s, r).state.tombstones == s.tombstones
  {
    hide CleanupAuthorized, ProofOf, PlanReviewInvalidated, SameManifest, Identifies, BelongsToEffect;
  }

  lemma PlainCommandsBury(s: State, c: Command)
    requires c.OwnerStart? || c.AbortAdmission? || c.FailAdmission? || c.Collect? || c.Refresh? || c.DiagnoseOperator? || c.OtherCommand?
    ensures Buries(s, Apply(s, c))
  {
    hide JoinCoalesced, AdvanceRecovery, FinishReconciliation, SupersedeReview, FinishOperatorRuntime, FinishRuntime, Begin, Reserve, BeginRuntime,
      InvalidateAttempt, BeginReconciliation, ResolveInvalidated, Find, IndexOf, RefreshClaims, RefreshValid, ReconcileClaims, RestampClaims, FailClaims,
      Unrecorded, PendingMutation, Each, Buries;
    KeptTombstonesBury(s, Apply(s, c));
  }

  lemma EveryCommandBuries(s: State, c: Command)
    requires Disciplined(s, c)
    ensures Buries(s, Apply(s, c))
  {
    hide Buries, ServiceBegins, Reserve, Abort, Fail, RefreshClaims, RefreshValid, ReconcileClaims, RestampClaims, StartCleanupWork, FinishOperatorRuntime,
      FinishRuntime, RecordDiagnostic, CompleteHandoff, BeginRuntime, InvalidateAttempt, BeginReconciliation, AuthorizeReconciliation,
      ResolveInvalidated, RequestReviewerSession, MarkReviewerRunning, ProveReviewerDead, SealReviewerResult, BindReviewerStopping,
      MarkReviewerStopped, FinishReconciliation, SupersedeReview, Begin, JoinCoalesced, AdvanceRecovery, Disturb;
    match c {
      case ReserveAdmission(q, valid, statusAllows) => ReserveBuries(s, q, valid, statusAllows);
      case BeginMutation(b) => OperatorBuries(s, b);
      case StartCleanupCommand(i, external) => ResolutionBuries(s, i, external);
      case ResolveInvalidatedCommand(i, external) => ResolutionBuries(s, i, external);
      case FinishOperatorRuntimeCommand(f) => FinishRuntimeBuries(s, f);
      case FinishRuntimeCommand(f) => FinishRuntimeBuries(s, f);
      case AdvanceRecoveryCommand(a) => AdvanceBuries(s, a);
      case CompleteCompensation(id, proved) => CompensationBuries(s, id, proved);
      case BeginRuntimeCommand(b) => RuntimeBuries(s, b);
      case InvalidateCommand(i) => InvalidationBuries(s, i);
      case BeginReconciliationCommand(b) => ReconciliationBuries(s, b);
      case OwnerStart(_) => PlainCommandsBury(s, c);
      case AbortAdmission(_) => PlainCommandsBury(s, c);
      case FailAdmission(_, _) => PlainCommandsBury(s, c);
      case Collect(_, _) => PlainCommandsBury(s, c);
      case Refresh(_, _, _, _) => PlainCommandsBury(s, c);
      case DiagnoseOperator(_, _, _, _) => PlainCommandsBury(s, c);
      case OtherCommand(_) => PlainCommandsBury(s, c);
      case SealCommand(_, _, _, _) => ConclusionsBury(s, c);
      case FinishReconciliationCommand(_) => ConclusionsBury(s, c);
      case SupersedeReviewCommand(_) => ConclusionsBury(s, c);
      case AuthorizeReconciliationCommand(i, external) => DispatchBuries(s, i, external);
      case RequestSessionCommand(i, external) => DispatchBuries(s, i, external);
      case MarkRunningCommand(i, pid, broker, external) => LaunchBuries(s, i, pid, broker, external);
      case ProveDeadCommand(i, pid, neverRan) => DeathBuries(s, i, pid, neverRan);
      case BindStoppingCommand(i, pid, broker, key, p, external) => StoppingBuries(s, i, pid, broker, key, p, external);
      case MarkStoppedCommand(i, key, p, external) => StoppingBuries(s, i, 0, 0, key, p, external);
    }
  }

  /** Every committed tombstone has its revision, and the effect it wants. */
  ghost predicate TombstonesSealed(s: State) {
    forall k :: k in s.tombstones ==> s.tombstones[k].revision != 0 && (s.tombstones[k].start ==> s.tombstones[k].effect != 0)
  }

  /** Committing seals the new tombstones and leaves the effects of the old. */
  lemma StampSeals(s: State, c: Command, candidate: State, effect: Option<Effect>, revoked: set<nat>)
    requires TombstonesSealed(s) && Buries(s, Accepted(candidate, effect))
    ensures var next := Stamp(s, c, candidate, effect, revoked);
      && TombstonesSealed(next)
      && forall k :: k in next.tombstones && k in s.tombstones ==> next.tombstones[k].effect == s.tombstones[k].effect
  {
    hide BindOne, StampEffects, StampAttempts;
  }

  lemma ProposalSeals(s: State, m: Move, next: State)
    requires TombstonesSealed(s) && Disciplined(s, m.command) && Proposed(s, m) == Some(next)
    ensures TombstonesSealed(next)
    ensures forall k :: k in next.tombstones && k in s.tombstones ==> next.tombstones[k].effect == s.tombstones[k].effect
  {
    hide Apply, Buries, Stamp, Disciplined;
    EveryCommandBuries(s, m.command);
    if next != s {
      StampSeals(s, m.command, Apply(s, m.command).state, Apply(s, m.command).effect, m.revoked);
    }
  }

  // ---- Compensations -------------------------------------------------------

  /** What a begin leaves waiting for a compensation was waiting before, or waits
      on a tombstone. */
  lemma BegunAreAnchored(s: State, c: OperatorBegin, candidate: State, effect: Option<Effect>, revoked: set<nat>, primary: Receipt, begun: State, mid: State, base: seq<Receipt>)
    requires Shaped(begun.receipts) && Anchored(s, primary, effect)
    requires forall r :: r in begun.receipts ==> r == primary || r in mid.receipts
    requires primary in begun.receipts && primary.request == c.request && Recorded(primary)
    requires forall r :: r in mid.receipts ==> r.request.id != c.request.id
    requires forall r :: r in base ==> r in s.receipts
    requires mid.receipts == base || mid.receipts == SupersedeReceipts(base, c.request.slot, c.request.action, s.revision + 1)
    requires OwnClaim(s, c.request)
    requires JoinCoalesced(s, c, Accepted(begun, effect)) == Accepted(candidate, effect)
    ensures forall q :: q in Stamp(s, BeginMutation(c), candidate, effect, revoked).receipts && q.phase.HandoffCleanup? && q.effect == 0 ==>
      q in s.receipts || Anchored(s, q, None)
  {
    hide Stamp, JoinCoalesced, Shaped, Recorded, BindsRequest, AttachAll;
    FollowersShareAction(s, c.request);
    FollowersShareSlot(s, c.request);
    JoinedReceipts(s, c, candidate, effect, begun, primary, mid.receipts);
    StampedBegin(s, c, candidate, effect, revoked);
    var next := Stamp(s, BeginMutation(c), candidate, effect, revoked);
    forall q | q in next.receipts && q.phase.HandoffCleanup? && q.effect == 0 ensures q in s.receipts || Anchored(s, q, None) {
      var i :| 0 <= i < |next.receipts| && next.receipts[i] == q;
      var r := candidate.receipts[i];
      assert r in candidate.receipts;
      if !BindsRequest(s, BeginMutation(c), r) {
        var j :| 0 <= j < |mid.receipts| && mid.receipts[j] == r;
        assert base[j] in base;
      }
    }
  }

  lemma FollowersShareSlot(s: State, q: Request)
    requires Find(s.receipts, q.id).Some? ==> Find(s.receipts, q.id).value.request == q
    ensures forall f :: f in Followers(s, q) ==> f.slot == q.slot
  {
  }

  lemma BeginAnchors(s: State, c: OperatorBegin, candidate: State, effect: Option<Effect>, revoked: set<nat>)
    requires LedgerInv(s.receipts) && EffectsKeyed(s)
    requires Admitted(s, c).AdmittedBy? || Admitted(s, c).NotAdmitted?
    requires JoinCoalesced(s, c, Begin(s, c)) == Accepted(candidate, effect)
    ensures forall q :: q in Stamp(s, BeginMutation(c), candidate, effect, revoked).receipts && q.phase.HandoffCleanup? && q.effect == 0 ==>
      q in s.receipts || Anchored(s, q, None)
  {
    hide Stamp, JoinCoalesced, Begin, Admitted, AppendReceipt, SupersedeReceipts, Bindable, Followers, EffectsKeyed, LedgerInv, Without, Unused, Recorded, OwnClaim, Anchored, Traced;
    JoinPasses(s, c, Begin(s, c), candidate, effect);
    var begun := Begin(s, c);
    var mid, primary;
    var base := s.receipts;
    OwnClaimOf(s, c);
    if Admitted(s, c).AdmittedBy? {
      AdmittedHolds(s, c);
      ConsumedClaimLeavesLedger(s.receipts, Find(s.receipts, c.request.id).value);
      base := Without(s.receipts, c.request.id);
      mid, primary := ClaimedBeginRecords(s, c, Admitted(s, c).claim);
    } else {
      mid, primary := UnclaimedBeginRecords(s, c);
    }
    MiddleTraces(s, c, base, mid.receipts);
    AppendTraces(base, c.request, s.revision + 1, mid, primary, begun.state);
    BegunAreAnchored(s, c, candidate, effect, revoked, primary, begun.state, mid, base);
  }

  ghost predicate WaitsForCompensation(q: Receipt) {
    q.phase.HandoffCleanup? && q.effect == 0
  }

  /** Where a receipt that waits for a compensation comes from. */
  ghost predicate CameWaiting(s: State, q: Receipt) {
    WaitsForCompensation(q) ==>
      || Anchored(s, q, None)
      || (exists r :: r in s.receipts && r.request == q.request && WaitsForCompensation(r))
  }

  lemma ProposalAnchors(s: State, m: Move, next: State)
    requires LedgerInv(s.receipts) && EffectsKeyed(s) && Proposed(s, m) == Some(next) && AllBound(next.receipts)
    ensures forall q :: q in next.receipts ==> CameWaiting(s, q)
  {
    hide LedgerInv, EffectsKeyed, Begin, Admitted, Stamp, JoinCoalesced, AdvanceRecovery, Reserve, BeginReconciliation, BeginRuntime, Anchored,
      InvalidateAttempt, FinishRuntime, FinishReconciliation, SupersedeReview, FinishOperatorRuntime, ResolveInvalidated, AuthorizeReconciliation,
      RequestReviewerSession, MarkReviewerRunning, ProveReviewerDead, SealReviewerResult, BindReviewerStopping, MarkReviewerStopped,
      StartCleanupWork, CompleteHandoff, RecordDiagnostic, RefreshClaims, RefreshValid, ReconcileClaims, RestampClaims, Abort, Fail, Changed;
    var c := m.command;
    ProposalTraces(s, m, next);
    if next == s {
    } else if c.BeginMutation? {
      var reply := Apply(s, c);
      JoinPasses(s, c.begin, Begin(s, c.begin), reply.state, reply.effect);
      if Admitted(s, c.begin).AlreadyBegun? {
        AnsweredBegin(s, c.begin);
      } else {
        AcceptedBegin(s, c.begin);
        BeginAnchors(s, c.begin, reply.state, reply.effect, m.revoked);
      }
    } else {
      forall q | q in next.receipts ensures CameWaiting(s, q) {
        var i :| 0 <= i < |next.receipts| && next.receipts[i] == q;
        OldCameWaiting(s, c, q);
      }
    }
  }

  lemma OldCameWaiting(s: State, c: Command, q: Receipt)
    requires Traced(s, c, q) && !c.BeginMutation? && ValidBinding(q)
    ensures CameWaiting(s, q)
  {
    if WaitsForCompensation(q) {
      var r := Find(s.receipts, q.request.id).value;
      FoundIn(s.receipts, q.request.id);
      assert WaitsForCompensation(r);
    }
  }

  // ---- Whole runs ----------------------------------------------------------

  /** What every disciplined command keeps. */
  ghost predicate Kept(s: State) {
    LedgerInv(s.receipts) && Keyed(s.effects) && EffectsKeyed(s) && TombstonesSealed(s) && CompensationBound(s)
  }

  lemma WaitingIsAnchored(s: State, q: Receipt)
    requires CompensationBound(s) && CameWaiting(s, q)
    ensures Anchored(s, q, None)
  {
    if r :| r in s.receipts && r.request == q.request && WaitsForCompensation(r) {
      var j :| 0 <= j < |s.receipts| && s.receipts[j] == r;
      assert Anchored(s, s.receipts[j], None);
    }
  }

  lemma CompensationStaysBound(s: State, m: Move, next: State)
    requires Kept(s) && Disciplined(s, m.command) && Proposed(s, m) == Some(next) && LedgerInv(next.receipts)
    ensures CompensationBound(next)
  {
    hide Proposed, Disciplined, Keyed, EffectsKeyed, UniqueIds, ClaimsAgree, TombstonesSealed, Steps;
    ProposalAnchors(s, m, next);
    ProposalSeals(s, m, next);
    ProposalSteps(s, m, next);
    forall i | 0 <= i < |next.receipts| ensures Anchored(next, next.receipts[i], None) {
      var q := next.receipts[i];
      WaitingIsAnchored(s, q);
    }
  }

  lemma ProposalIsKept(s: State, m: Move, next: State)
    requires Kept(s) && Disciplined(s, m.command) && Proposed(s, m) == Some(next)
    ensures Kept(next)
  {
    hide Proposed, Disciplined, LedgerInv, Keyed, EffectsKeyed, Steps, CompensationBound;
    SealedStartsCleaned(s);
    DisciplinedStepKeepsLedger(s, m, next);
    ProposalSteps(s, m, next);
    ProposalSeals(s, m, next);
    CompensationStaysBound(s, m, next);
  }

  lemma SealedStartsCleaned(s: State)
    requires TombstonesSealed(s)
    ensures StartsCleaned(s)
  {
  }

  /** A run of disciplined commands that nothing validates. */
  ghost predicate IsUngatedRun(states: seq<State>, moves: seq<Move>) {
    && |states| == |moves| + 1 && IsNewLedger(states[0])
    && forall i :: 0 <= i < |moves| ==> Disciplined(states[i], moves[i].command) && Proposed(states[i], moves[i]) == Some(states[i + 1])
  }

  /** Whatever disciplined commands come, in whatever order: request IDs stay
      unique, at most 128 receipts are kept, the claims on one attempt share one
      action and are equal, every receipt is bound as its phase demands, and so
      no completed receipt still holds a claim. */
  lemma {:induction false} LedgerHoldsThroughout(states: seq<State>, moves: seq<Move>, n: nat)
    requires IsUngatedRun(states, moves) && n < |states|
    ensures Kept(states[n])
    ensures forall i :: 0 <= i < |states[n].receipts| && states[n].receipts[i].state.Done? ==> states[n].receipts[i].admission.None?
  {
    hide Proposed, Disciplined, Keyed, EffectsKeyed, CompensationBound, TombstonesSealed;
    if n > 0 {
      LedgerHoldsThroughout(states, moves, n - 1);
      ProposalIsKept(states[n - 1], moves[n - 1], states[n]);
    } else {
      NewIsKept(states[0]);
    }
    assert forall i :: 0 <= i < |states[n].receipts| ==> ValidBinding(states[n].receipts[i]);
  }

  lemma NewIsKept(s: State)
    requires IsNewLedger(s)
    ensures Kept(s)
  {
  }
}
