// How one commit may change the effects: an intent never changes, a completed
// effect never changes again, a process group and a sealed result are bound
// once, and a reviewer's verdict is recorded only as it was sealed.
module EffectSteps {
  import opened OwnerState
  import opened Receipts
  import opened AttemptEffects
  import opened ReconciliationEffects
  import opened OperatorMutations
  import opened StateOwner
  import opened LedgerInvariant

  // ---- The relation on one effect ------------------------------------------

  predicate SameIntent(e: Effect, f: Effect) {
    f == e.(status := f.status, dispatched := f.dispatched, result := f.result, launched := f.launched, sessionRequested := f.sessionRequested,
            groupPid := f.groupPid, sealed := f.sealed, revoked := f.revoked, reviewerStopped := f.reviewerStopped)
  }

  /** A group is bound to an effect exactly when its launch is recorded. */
  predicate GroupRecorded(e: Effect) {
    if e.launched then e.groupPid >= 2 else e.groupPid == 0
  }

  /** The group that a command proves to belong to an effect. */
  predicate BindsGroup(c: Command, id: nat, pid: nat) {
    match c
    case MarkRunningCommand(i, p, _, _) => i.id == id && p == pid
    case ProveDeadCommand(i, p, _) => i.id == id && p == pid
    case BindStoppingCommand(i, p, _, _, _, _) => i.id == id && p == pid
    case _ => false
  }

  predicate GroupSteps(c: Command, e: Effect, f: Effect) {
    || (f.launched == e.launched && f.groupPid == e.groupPid)
    || (e.status.Pending? && !e.launched && f.launched && f.groupPid >= 2 && BindsGroup(c, e.id, f.groupPid))
  }

  /** A command that seals `result` for the effect, on a terminal of `pid`. */
  predicate Seals(c: Command, id: nat, pid: nat, result: EffectResult) {
    && c.SealCommand? && c.identity.id == id && c.result == result && c.terminal.childPid == pid
    && (c.terminal.exitCode == 0 ==> c.terminal.signal == 0)
    && (result.ReviewerResult? && !result.status.ReviewFailed? ==> c.terminal.exitCode == 0 && c.terminal.signal == 0)
  }

  predicate SealSteps(c: Command, e: Effect, f: Effect) {
    || f.sealed == e.sealed
    || (e.sealed.None? && f.sealed.Some? && e.status.Pending? && e.launched && f.groupPid == e.groupPid && Seals(c, e.id, e.groupPid, f.sealed.value))
    || (f.sealed.None? && f.status.Completed? && c.SupersedeReviewCommand?)
  }

  predicate StatusSteps(e: Effect, f: Effect) {
    || f.status == e.status
    || (e.status.Pending? && f.status.Invalidated?)
    || (e.status.Invalidated? && f.status.InvalidatedResolved?)
    || (!e.status.Completed? && f.status.Completed?)
  }

  predicate Verdict(result: EffectResult) {
    result.ReviewerResult? && (result.status.Clean? || result.status.Findings?)
  }

  predicate ResultSteps(c: Command, e: Effect, f: Effect) {
    && (f.status == e.status || !f.status.Completed? ==> f.result == e.result)
    && (f.status != e.status && f.status.Completed? && RunsReviewer(e) && f.result.Some? && Verdict(f.result.value) ==>
          && e.launched && e.sealed == f.result && f.sealed == e.sealed && f.groupPid == e.groupPid
          && c.FinishReconciliationCommand? && c.finish.identity.id == e.id && f.result == Some(c.finish.result))
  }

  predicate Absorbed(e: Effect, f: Effect) {
    e.status.Completed? ==> f == e.(dispatched := f.dispatched)
  }

  predicate Steps(c: Command, e: Effect, f: Effect) {
    SameIntent(e, f) && GroupSteps(c, e, f) && SealSteps(c, e, f) && StatusSteps(e, f) && ResultSteps(c, e, f) && Absorbed(e, f)
  }

  // ---- The relation on all effects -----------------------------------------

  ghost predicate Keyed(effects: map<nat, Effect>) {
    forall id :: id in effects ==> effects[id].id == id && id != 0 && GroupRecorded(effects[id])
  }

  ghost predicate AllStep(c: Command, before: map<nat, Effect>, after: map<nat, Effect>) {
    forall id :: id in after ==> id in before && Steps(c, before[id], after[id])
  }

  /** Effects are dropped, or marked invalidated while pending, and no more. */
  ghost predicate Thinned(before: map<nat, Effect>, after: map<nat, Effect>) {
    forall id :: id in after ==>
      id in before && (after[id] == before[id] || (before[id].status.Pending? && after[id] == before[id].(status := Invalidated)))
  }

  lemma ThinnedSteps(c: Command, before: map<nat, Effect>, after: map<nat, Effect>)
    requires Thinned(before, after)
    ensures AllStep(c, before, after)
  {
  }

  /** Attempt generations only grow, and a tombstone is never taken away. */
  ghost predicate Forward(s: State, next: State) {
    && (forall slot :: AttemptGeneration(s, slot) <= AttemptGeneration(next, slot))
    && s.tombstones.Keys <= next.tombstones.Keys
  }

  ghost predicate Shrinks(s: State, next: State) {
    Thinned(s.effects, next.effects) && next.revision == s.revision && Forward(s, next)
  }

  lemma StandsForward(s: State, next: State)
    requires next.attemptGenerations == s.attemptGenerations && s.tombstones.Keys <= next.tombstones.Keys
    ensures Forward(s, next)
  {
  }

  lemma ShrinksTwice(a: State, b: State, c: State)
    requires Shrinks(a, b) && Shrinks(b, c)
    ensures Shrinks(a, c)
  {
    hide AttemptGeneration;
    forall slot ensures AttemptGeneration(a, slot) <= AttemptGeneration(c, slot) {
      assert AttemptGeneration(a, slot) <= AttemptGeneration(b, slot) <= AttemptGeneration(c, slot);
    }
  }

  /** An effect that is proposed but has no identifier yet. */
  predicate Unborn(e: Effect) {
    e.id == 0 && e.status.Pending? && !e.dispatched && e.result.None? && !e.launched && !e.sessionRequested && e.groupPid == 0 && e.sealed.None?
    && !e.revoked && !e.reviewerStopped
  }

  /** A GitHub mutation that a running reviewer excludes. */
  predicate ExcludedMutation(e: Effect) {
    e.work.ReconciliationWork? && MutatesGitHub(e.work.request.payload) && !IsMachineStatus(e.work.request.payload)
  }

  predicate Excludes(a: Effect, b: Effect) {
    a.slot.issue == b.slot.issue && ((RunsReviewer(a) && ExcludedMutation(b)) || (ExcludedMutation(a) && RunsReviewer(b)))
  }

  predicate PendingReconciliation(e: Effect) {
    e.status.Pending? && e.work.ReconciliationWork?
  }

  /** Pending work that keeps reconciliation from its slot. */
  predicate Occupies(e: Effect) {
    PendingReconciliation(e) || (e.status.Pending? && IsRuntime(e, Stop))
  }

  /** No pending work stands in the way of a new reconciliation effect. */
  ghost predicate Admits(effects: map<nat, Effect>, e: Effect) {
    e.work.ReconciliationWork? ==>
      forall id :: id in effects && Occupies(effects[id]) ==> effects[id].slot != e.slot && !Excludes(effects[id], e)
  }

  /** A new effect works under a generation that is reached, and a Stop under one
      that it opens itself. */
  predicate Dated(s: State, after: State, e: Effect) {
    e.attemptGeneration <= AttemptGeneration(after, e.slot) && (IsRuntime(e, Stop) ==> AttemptGeneration(s, e.slot) < e.attemptGeneration)
  }

  lemma DatedLater(s: State, mid: State, after: State, e: Effect)
    requires Dated(s, mid, e) && Forward(mid, after)
    ensures Dated(s, after, e)
  {
    hide AttemptGeneration;
    assert AttemptGeneration(mid, e.slot) <= AttemptGeneration(after, e.slot);
  }

  lemma ThinnedAdmits(before: map<nat, Effect>, after: map<nat, Effect>, e: Effect)
    requires Thinned(before, after) && Admits(before, e)
    ensures Admits(after, e)
  {
  }

  /** What every begin does to the effects. */
  ghost predicate Begins(s: State, reply: Reply) {
    reply.Accepted? ==>
      && Shrinks(s, reply.state)
      && (reply.effect.Some? ==>
            || (Unborn(reply.effect.value) && Admits(reply.state.effects, reply.effect.value) && Dated(s, reply.state, reply.effect.value))
            || (reply.effect.value.id in s.effects && s.effects[reply.effect.value.id] == reply.effect.value && reply.effect.value.id != 0))
  }

  // ---- Begins --------------------------------------------------------------

  lemma UpsertIsForward(s: State, manifest: Manifest, expectedIssue: nat, expectedAttempt: nat, superseded: nat, external: bool)
    ensures var r := UpsertAttempt(s, manifest, expectedIssue, expectedAttempt, superseded, external); r.Accepted? ==> Forward(s, r.state)
  {
    hide IssueHasUnconfinedReviewer, UnresolvedOnIssue, DeathUnproved, ReferencedByReceipt, BlocksNewAttempt, Displace, SupersededByNewAttempt, Detached;
  }

  lemma UpsertBegins(s: State, manifest: Manifest, expectedIssue: nat, expectedAttempt: nat, superseded: nat, external: bool)
    ensures Begins(s, UpsertAttempt(s, manifest, expectedIssue, expectedAttempt, superseded, external))
    ensures var r := UpsertAttempt(s, manifest, expectedIssue, expectedAttempt, superseded, external); r.Accepted? ==> r.effect.None?
  {
    hide IssueHasUnconfinedReviewer, UnresolvedOnIssue, DeathUnproved, ReferencedByReceipt, BlocksNewAttempt, Forward;
    UpsertIsForward(s, manifest, expectedIssue, expectedAttempt, superseded, external);
  }

  lemma UpsertOpensGeneration(s: State, manifest: Manifest, expectedIssue: nat, expectedAttempt: nat, superseded: nat, external: bool)
    ensures var r := UpsertAttempt(s, manifest, expectedIssue, expectedAttempt, superseded, external);
            r.Accepted? ==> AttemptGeneration(s, manifest.slot) < AttemptGeneration(r.state, manifest.slot)
  {
    hide IssueHasUnconfinedReviewer, UnresolvedOnIssue, DeathUnproved, ReferencedByReceipt, BlocksNewAttempt, Displace, SupersededByNewAttempt, Detached;
  }

  lemma BeginRuntimeBegins(s: State, c: RuntimeBegin)
    requires Keyed(s.effects)
    ensures Begins(s, BeginRuntime(s, c))
  {
    hide UpsertAttempt, IssueHasUnconfinedReviewer, ReferencedByReceipt;
    UpsertBegins(s, c.manifest, c.identity.issueGeneration, 0, 0, c.external);
    UpsertOpensGeneration(s, c.manifest, c.identity.issueGeneration, 0, 0, c.external);
    UpsertOpensGeneration(s, c.manifest, c.identity.issueGeneration, c.identity.attemptGeneration, c.supersededReviewer, c.external);
    UpsertBegins(s, c.manifest, c.identity.issueGeneration, c.identity.attemptGeneration, c.supersededReviewer, c.external);
  }

  lemma NothingShrinks(s: State)
    ensures Thinned(s.effects, s.effects) && Forward(s, s)
  {
  }

  lemma DisplaceThins(effects: map<nat, Effect>, issue: nat, kind: IssueUpdateKind)
    ensures Thinned(effects, Displace(effects, issue, kind))
  {
  }

  lemma InvalidateEffectsThins(s: State, slot: Slot)
    ensures Thinned(s.effects, InvalidateEffects(s, slot))
  {
    hide ReferencedByReceipt;
  }

  lemma ThinnedThrice(a: map<nat, Effect>, b: map<nat, Effect>, c: map<nat, Effect>, d: map<nat, Effect>)
    requires Thinned(a, b) && Thinned(b, c) && Thinned(c, d)
    ensures Thinned(a, d)
  {
  }

  lemma InvalidationIsForward(s: State, c: Invalidation)
    requires InvalidateAttempt(s, c).Accepted?
    ensures Forward(s, InvalidateAttempt(s, c).state)
  {
    hide InvalidateEffects, Displace, SameInvalidation;
  }

  lemma InvalidateBegins(s: State, c: Invalidation)
    requires Keyed(s.effects)
    ensures Begins(s, InvalidateAttempt(s, c))
  {
    hide ReferencedByReceipt, SameInvalidation, Thinned, Forward;
    var reply := InvalidateAttempt(s, c);
    if reply.Accepted? && reply.state != s {
      var unsnapshot := s.(effects := Displace(s.effects, c.slot.issue, ControlSnapshot));
      DisplaceThins(s.effects, c.slot.issue, ControlSnapshot);
      InvalidateEffectsThins(unsnapshot, c.slot);
      DisplaceThins(InvalidateEffects(unsnapshot, c.slot), c.slot.issue, MachineStatus);
      ThinnedThrice(s.effects, unsnapshot.effects, InvalidateEffects(unsnapshot, c.slot), reply.state.effects);
      InvalidationIsForward(s, c);
    } else {
      NothingShrinks(s);
    }
  }

  /** A new reconciliation effect is alone on its slot and meets no reviewer or
      mutation that excludes it. */
  lemma NewReconciliationAdmitted(s: State, c: ReconciliationBegin)
    requires Keyed(s.effects) && BeginReconciliation(s, c).Accepted? && IsNew(BeginReconciliation(s, c).effect)
    ensures Admits(s.effects, BeginReconciliation(s, c).effect.value)
  {
    hide AdmissionBlocked, ObservationCurrent, ReferencedByReceipt, WellScoped, SameManifest, IssueHasUnconfinedReviewer, PruneForBegin;
    var r := c.request;
    var e := BeginReconciliation(s, c).effect.value;
    forall id | id in s.effects && Occupies(s.effects[id]) ensures s.effects[id].slot != e.slot && !Excludes(s.effects[id], e) {
      assert PendingOn(s, r.slot, id) ==> Displaced(s, r, id);
      if RunsReviewer(s.effects[id]) && s.effects[id].slot.issue == r.slot.issue {
        assert IssueHasPendingReviewer(s, r.slot.issue);
      }
      if ExcludedMutation(s.effects[id]) && s.effects[id].slot.issue == r.slot.issue {
        assert PendingMutation(s.effects[id]);
      }
    }
  }

  lemma NewReconciliationDated(s: State, c: ReconciliationBegin)
    requires Keyed(s.effects) && BeginReconciliation(s, c).Accepted? && IsNew(BeginReconciliation(s, c).effect)
    ensures Dated(s, BeginReconciliation(s, c).state, BeginReconciliation(s, c).effect.value)
  {
    hide ReviewerExcludes, AdmissionBlocked, ObservationCurrent, ReferencedByReceipt, SameManifest, IssueHasUnconfinedReviewer, PruneForBegin;
  }

  lemma BeginReconciliationBegins(s: State, c: ReconciliationBegin)
    requires Keyed(s.effects)
    ensures Begins(s, BeginReconciliation(s, c))
  {
    hide ReviewerExcludes, AdmissionBlocked, ObservationCurrent, ReferencedByReceipt, WellScoped, SameManifest, Admits, Dated;
    var reply := BeginReconciliation(s, c);
    if reply.Accepted? && IsNew(reply.effect) {
      NewReconciliationAdmitted(s, c);
      NewReconciliationDated(s, c);
      ThinnedAdmits(s.effects, reply.state.effects, reply.effect.value);
    }
  }

  lemma AppendThins(s: State, r: Receipt)
    ensures AppendReceipt(s, r).Some? ==> Shrinks(s, AppendReceipt(s, r).value)
  {
    hide ReferencedByReceipt, ReferencedByTombstone;
  }

  lemma SupersedeThins(s: State, slot: Slot, action: OperatorAction)
    ensures Shrinks(s, Supersede(s, slot, action))
  {
    hide Orphaned;
  }

  lemma {:induction false} AttachThins(s: State, primary: Receipt, followers: seq<Request>)
    ensures AttachAll(s, primary, followers).Some? ==> Shrinks(s, AttachAll(s, primary, followers).value)
    decreases |followers|
  {
    hide AppendReceipt, Without;
    if followers == [] {
    } else if followers[0].id == primary.request.id {
      AttachThins(s, primary, followers[1..]);
    } else {
      var without := s.(receipts := Without(s.receipts, followers[0].id));
      AppendThins(without, Attached(primary, followers[0]));
      match AppendReceipt(without, Attached(primary, followers[0]))
      case None =>
      case Some(after) =>
        AttachThins(after, primary, followers[1..]);
        if AttachAll(after, primary, followers[1..]).Some? {
          ShrinksTwice(s, after, AttachAll(after, primary, followers[1..]).value);
        }
    }
  }

  lemma RecordedBegins(s: State, mid: State, r: Receipt, effect: Option<Effect>)
    requires Begins(s, Accepted(mid, effect))
    ensures Begins(s, AfterAppend(AppendReceipt(mid, r), effect))
  {
    hide AppendReceipt;
    AppendThins(mid, r);
    if AppendReceipt(mid, r).Some? {
      ShrinksTwice(s, mid, AppendReceipt(mid, r).value);
      if effect.Some? && Admits(mid.effects, effect.value) {
        ThinnedAdmits(mid.effects, AppendReceipt(mid, r).value.effects, effect.value);
        if Dated(s, mid, effect.value) {
          DatedLater(s, mid, AppendReceipt(mid, r).value, effect.value);
        }
      }
    }
  }

  lemma SupersededBegins(s: State, begun: Reply, q: Request, phase: Phase)
    requires Begins(s, begun)
    ensures Begins(s, SupersedeAndRecord(begun, q, phase))
  {
    hide AppendReceipt, Supersede;
    if begun.Accepted? {
      SupersedeThins(begun.state, q.slot, q.action);
      var mid := Supersede(begun.state, q.slot, q.action);
      ShrinksTwice(s, begun.state, mid);
      if begun.effect.Some? && Admits(begun.state.effects, begun.effect.value) {
        ThinnedAdmits(begun.state.effects, mid.effects, begun.effect.value);
        if Dated(s, begun.state, begun.effect.value) {
          DatedLater(s, begun.state, mid, begun.effect.value);
        }
      }
      RecordedBegins(s, mid, Receipt(q, Waiting, phase, 0, "", None, None), begun.effect);
    }
  }

  lemma FreshBegins(s: State, c: OperatorBegin)
    requires Keyed(s.effects) && c.manifest.Some?
    ensures Begins(s, BeginFresh(s, c))
  {
    hide AppendReceipt, Supersede, BeginRuntime, BeginReconciliation, InvalidateAttempt, SupersedeAndRecord, Begins, Keyed;
    var q := c.request;
    if c.runtime.Some? {
      BeginRuntimeBegins(s, AtRevision(s, c.runtime.value));
      SupersededBegins(s, BeginRuntime(s, AtRevision(s, c.runtime.value)), q, StopPending);
    }
    if c.reconciliation.Some? {
      ReconciliationRecordedBegins(s, c.reconciliation.value.(identity := c.identity.(sourceRevision := s.revision)), q, RetryPending);
      ReconciliationRecordedBegins(s, c.reconciliation.value.(identity := c.identity.(sourceRevision := s.revision)), q, ReviewPending);
    }
    InvalidateBegins(s, InvalidationOf(c));
    SupersededBegins(s, Invalidate(s, c), q, CleanupPhaseFor(c));
    RefusedBegins(s);
  }

  lemma RefusedBegins(s: State)
    ensures forall e :: Begins(s, Refused(e))
  {
  }

  lemma ReconciliationRecordedBegins(s: State, b: ReconciliationBegin, q: Request, phase: Phase)
    requires Keyed(s.effects)
    ensures Begins(s, RecordBegun(BeginReconciliation(s, b), q, phase))
  {
    hide BeginReconciliation, AppendReceipt;
    BeginReconciliationBegins(s, b);
    match BeginReconciliation(s, b)
    case Refused(_) =>
    case Accepted(mid, effect) => RecordedBegins(s, mid, Receipt(q, Waiting, phase, 0, "", None, None), effect);
  }

  /** Appending to a ledger without new work, answering with a known effect. */
  lemma RecordedEachBegins(s: State)
    ensures forall r :: Begins(s, AfterAppend(AppendReceipt(s, r), None))
    ensures forall r, id :: id in s.effects && s.effects[id].id == id != 0 ==> Begins(s, AfterAppend(AppendReceipt(s, r), Some(s.effects[id])))
  {
    hide AppendReceipt;
    forall r ensures Begins(s, AfterAppend(AppendReceipt(s, r), None)) {
      RecordedBegins(s, s, r, None);
    }
    forall r, id | id in s.effects && s.effects[id].id == id != 0 ensures Begins(s, AfterAppend(AppendReceipt(s, r), Some(s.effects[id]))) {
      RecordedBegins(s, s, r, Some(s.effects[id]));
    }
  }

  lemma ReplayBegins(s: State, c: OperatorBegin, t: Tombstone)
    requires Keyed(s.effects)
    ensures Begins(s, Replay(s, c, t))
  {
    hide AppendReceipt, Begins;
    RefusedBegins(s);
    RecordedEachBegins(s);
  }

  lemma AttachBegins(s: State, c: OperatorBegin)
    requires Keyed(s.effects)
    ensures AttachRecovery(s, c).Some? ==> Begins(s, AttachRecovery(s, c).value)
  {
    hide AppendReceipt, MatchesEffect, Begins;
    RefusedBegins(s);
    RecordedEachBegins(s);
  }

  lemma RemoteBegins(s: State, c: OperatorBegin, admitted: bool)
    requires Keyed(s.effects)
    ensures Begins(s, BeginRemote(s, c, admitted))
  {
    hide AppendReceipt, InvalidateAttempt, RemoteAttemptCompleted;
    var q, slot := c.request, c.request.slot;
    var i := Invalidation(slot, IssueGeneration(s, slot.issue), c.identity.attemptGeneration, q.action, CleanupDone, "", None, None, None, false, false, c.external, 0);
    InvalidateBegins(s, i);
    var done := Receipt(q, Done, PhaseCompleted, 0, "", Some(Success(q, 0)), None);
    RecordedBegins(s, s, done, None);
    if InvalidateAttempt(s, i).Accepted? {
      RecordedBegins(s, InvalidateAttempt(s, i).state, done, None);
    }
  }

  lemma WorkBegins(s: State, c: OperatorBegin, admitted: bool)
    requires Keyed(s.effects)
    ensures Begins(s, BeginWork(s, c, admitted))
  {
    hide AppendReceipt, BeginRemote, Replay, AttachRecovery, BeginFresh, ObservationSupports, Begins, Keyed;
    RefusedBegins(s);
    RemoteBegins(s, c, admitted);
    if c.request.slot in s.tombstones {
      ReplayBegins(s, c, s.tombstones[c.request.slot]);
    }
    AttachBegins(s, c);
    if MatchingStop(s, c) {
      StopJoined(s, c.request, c.matchingStop);
    }
    if c.manifest.Some? {
      FreshBegins(s, c);
    }
  }

  lemma StopJoined(s: State, q: Request, id: nat)
    requires Keyed(s.effects) && id in s.effects
    ensures Begins(s, AfterAppend(Record(s, q, StopPending, id), Some(s.effects[id])))
  {
    hide AppendReceipt;
    RecordedBegins(s, s, Receipt(q, Waiting, StopPending, id, "", None, None), Some(s.effects[id]));
  }

  /** The whole begin command, its followers included. */
  lemma OperatorBegins(s: State, c: OperatorBegin)
    requires Keyed(s.effects)
    ensures Begins(s, JoinCoalesced(s, c, Begin(s, c)))
  {
    hide BeginWork, AttachAll, Without, Readmit, Followers, Keyed;
    match Admitted(s, c) {
      case NotAdmissible(_) =>
      case AlreadyBegun(r) => KeptEffect(s, r);
      case NotAdmitted => WorkBegins(s, c, false);
      case AdmittedBy(claim) =>
        WorkBegins(s.(receipts := Without(s.receipts, c.request.id)), Readmit(s, c, claim), true);
    }
    JoinBegins(s, c, Begin(s, c));
  }

  lemma KeptEffect(s: State, r: Receipt)
    requires Keyed(s.effects)
    ensures Begins(s, EffectOf(s, r))
  {
  }

  lemma JoinBegins(s: State, c: OperatorBegin, begun: Reply)
    requires Begins(s, begun)
    ensures Begins(s, JoinCoalesced(s, c, begun))
  {
    hide AttachAll, Followers;
    if begun.Accepted? {
      var primary := Find(begun.state.receipts, c.request.id);
      if primary.Some? {
        AttachThins(begun.state, primary.value, Followers(s, c.request));
        if AttachAll(begun.state, primary.value, Followers(s, c.request)).Some? {
          var joined := AttachAll(begun.state, primary.value, Followers(s, c.request)).value;
          ShrinksTwice(s, begun.state, joined);
          if begun.effect.Some? && Admits(begun.state.effects, begun.effect.value) {
            ThinnedAdmits(begun.state.effects, joined.effects, begun.effect.value);
            if Dated(s, begun.state, begun.effect.value) {
              DatedLater(s, begun.state, joined, begun.effect.value);
            }
          }
        }
      }
    }
  }

  lemma AdvanceBegins(s: State, a: RecoveryAdvance)
    requires Keyed(s.effects)
    ensures Begins(s, AdvanceRecovery(s, a))
  {
    hide BeginReconciliation, MatchesEffect;
    BeginReconciliationBegins(s, a.begin.(identity := a.identity.(sourceRevision := s.revision)));
  }

  // ---- Updates of one effect -----------------------------------------------

  /** What every other command does to the effects. */
  ghost predicate Updates(s: State, c: Command, reply: Reply) {
    reply.Accepted? ==> reply.effect.None? && AllStep(c, s.effects, reply.state.effects) && reply.state.revision == s.revision && Forward(s, reply.state)
  }

  lemma OneUpdated(c: Command, before: map<nat, Effect>, id: nat, f: Effect)
    requires id in before && Steps(c, before[id], f)
    ensures AllStep(c, before, before[id := f])
  {
  }

  lemma NoneUpdated(c: Command, before: map<nat, Effect>)
    ensures AllStep(c, before, before)
  {
    hide Seals, BindsGroup, Verdict;
  }

  lemma AuthorizeUpdates(s: State, i: EffectIdentity, external: bool)
    requires Keyed(s.effects)
    ensures Updates(s, AuthorizeReconciliationCommand(i, external), AuthorizeReconciliation(s, i, external))
  {
    hide NotCurrent, MutatesGitHub, AllStep, Forward, Identifies;
    var c := AuthorizeReconciliationCommand(i, external);
    var reply := AuthorizeReconciliation(s, i, external);
    NoneUpdated(c, s.effects);
    if reply.Accepted? {
      StandsForward(s, reply.state);
      OneUpdated(c, s.effects, i.id, s.effects[i.id].(dispatched := true));
    }
  }

  lemma ResolveUpdates(s: State, i: EffectIdentity, external: bool)
    requires Keyed(s.effects)
    ensures Updates(s, ResolveInvalidatedCommand(i, external), ResolveInvalidated(s, i, external))
  {
    hide MutatesGitHub, AllStep, Forward, Identifies;
    var c := ResolveInvalidatedCommand(i, external);
    var reply := ResolveInvalidated(s, i, external);
    if reply.Accepted? {
      StandsForward(s, reply.state);
      OneUpdated(c, s.effects, i.id, s.effects[i.id].(status := InvalidatedResolved));
    }
  }

  lemma SessionUpdates(s: State, i: EffectIdentity, external: bool)
    requires Keyed(s.effects)
    ensures Updates(s, RequestSessionCommand(i, external), RequestReviewerSession(s, i, external))
  {
    hide NotCurrent, AllStep, Forward, Identifies;
    var c := RequestSessionCommand(i, external);
    var reply := RequestReviewerSession(s, i, external);
    NoneUpdated(c, s.effects);
    if reply.Accepted? {
      StandsForward(s, reply.state);
      OneUpdated(c, s.effects, i.id, s.effects[i.id].(sessionRequested := true));
    }
  }

  /** Binding a group to a pending effect that has none. */
  lemma BindingSteps(s: State, c: Command, id: nat, pid: nat)
    requires Keyed(s.effects) && id in s.effects && s.effects[id].status.Pending? && !s.effects[id].launched
    requires pid >= 2 && BindsGroup(c, id, pid)
    ensures AllStep(c, s.effects, s.effects[id := s.effects[id].(launched := true, groupPid := pid)])
  {
    OneUpdated(c, s.effects, id, s.effects[id].(launched := true, groupPid := pid));
  }

  lemma LaunchUpdates(s: State, i: EffectIdentity, pid: nat, broker: nat, external: bool)
    requires Keyed(s.effects)
    ensures Updates(s, MarkRunningCommand(i, pid, broker, external), MarkReviewerRunning(s, i, pid, broker, external))
  {
    hide NotFinishable, AllStep;
    var c := MarkRunningCommand(i, pid, broker, external);
    NoneUpdated(c, s.effects);
    if i.id in s.effects && s.effects[i.id].status.Pending? && !s.effects[i.id].launched && pid >= 2 {
      BindingSteps(s, c, i.id, pid);
    }
  }

  lemma DeathUpdates(s: State, i: EffectIdentity, pid: nat, neverRan: bool)
    requires Keyed(s.effects)
    ensures Updates(s, ProveDeadCommand(i, pid, neverRan), ProveReviewerDead(s, i, pid, neverRan))
  {
    hide CleanupAuthorized, ProofOf, AllStep, Forward, LaunchProofOrAbsence, Identifies;
    var c := ProveDeadCommand(i, pid, neverRan);
    var reply := ProveReviewerDead(s, i, pid, neverRan);
    NoneUpdated(c, s.effects);
    if reply.Accepted? {
      StandsForward(s, reply.state);
      assert s.effects[i.id := s.effects[i.id]] == s.effects;
      if !s.effects[i.id].launched && pid > 1 {
        BindingSteps(s, c, i.id, pid);
      }
    }
  }

  lemma BindsItself(i: EffectIdentity, pid: nat, broker: nat, key: ProofKey, p: Proof, external: bool)
    ensures BindsGroup(BindStoppingCommand(i, pid, broker, key, p, external), i.id, pid)
  {
  }

  /** What binding a stopping reviewer leaves of the effects. */
  lemma StoppingBinds(s: State, i: EffectIdentity, pid: nat, broker: nat, key: ProofKey, p: Proof, external: bool)
    requires Keyed(s.effects) && BindReviewerStopping(s, i, pid, broker, key, p, external).Accepted?
    ensures var reply := BindReviewerStopping(s, i, pid, broker, key, p, external);
      && reply.effect.None? && reply.state == s.(proofs := reply.state.proofs, effects := reply.state.effects)
      && i.id in s.effects && s.effects[i.id].status.Pending? && pid >= 2
      && (|| reply.state.effects == s.effects
          || (!s.effects[i.id].launched && reply.state.effects == s.effects[i.id := s.effects[i.id].(launched := true, groupPid := pid)]))
  {
    hide ProofOf, SupersededProof, LaunchProof, Identifies;
    var e := s.effects[i.id];
    assert e.launched && e.groupPid == pid ==> s.effects[i.id := e.(launched := true, groupPid := pid)] == s.effects;
  }

  lemma StoppingUpdates(s: State, i: EffectIdentity, pid: nat, broker: nat, key: ProofKey, p: Proof, external: bool)
    requires Keyed(s.effects)
    ensures Updates(s, BindStoppingCommand(i, pid, broker, key, p, external), BindReviewerStopping(s, i, pid, broker, key, p, external))
  {
    hide BindReviewerStopping, AllStep, Forward, Keyed, BindsGroup;
    var c := BindStoppingCommand(i, pid, broker, key, p, external);
    NoneUpdated(c, s.effects);
    var reply := BindReviewerStopping(s, i, pid, broker, key, p, external);
    if reply.Accepted? {
      StoppingBinds(s, i, pid, broker, key, p, external);
      StandsForward(s, reply.state);
      BindsItself(i, pid, broker, key, p, external);
      if !s.effects[i.id].launched {
        BindingSteps(s, c, i.id, pid);
      }
    }
  }

  lemma StoppedUpdates(s: State, i: EffectIdentity, key: ProofKey, p: Proof, external: bool)
    requires Keyed(s.effects)
    ensures Updates(s, MarkStoppedCommand(i, key, p, external), MarkReviewerStopped(s, i, key, p, external))
  {
    hide CleanupAuthorized, SupersededProof, AllStep;
    var c := MarkStoppedCommand(i, key, p, external);
    NoneUpdated(c, s.effects);
    if i.id in s.effects && s.effects[i.id].status.Pending? {
      OneUpdated(c, s.effects, i.id, s.effects[i.id].(reviewerStopped := true));
    }
  }

  lemma SealUpdates(s: State, i: EffectIdentity, result: EffectResult, terminal: Terminal, external: bool)
    requires Keyed(s.effects)
    ensures Updates(s, SealCommand(i, result, terminal, external), SealReviewerResult(s, i, result, terminal, external))
  {
    hide NotFinishable, ProofOf;
  }

  lemma FinishUpdates(s: State, f: ReconciliationFinish)
    requires Keyed(s.effects)
    ensures Updates(s, FinishReconciliationCommand(f), FinishReconciliation(s, f))
  {
    hide FinishReconciliation, Forward, AllStep, Steps, Keyed, RecordOutcome, IssueOutcome;
    var c := FinishReconciliationCommand(f);
    NoneUpdated(c, s.effects);
    StandsForward(s, s);
    var reply := FinishReconciliation(s, f);
    if reply.Accepted? {
      FinishRecords(s, f);
      var id := f.identity.id;
      if !s.effects[id].status.Completed? {
        OutcomeKeeps(s, s.effects[id].work.request, f);
        StandsForward(s, reply.state);
        FinishSteps(s, f);
        OneKept(c, s.effects, OutcomeOf(s, f).effects, id, FinishedEffect(s.effects[id], f));
      }
    }
  }

  function FinishedEffect(e: Effect, f: ReconciliationFinish): Effect {
    e.(status := Completed, result := Some(f.result))
  }

  function OutcomeOf(s: State, f: ReconciliationFinish): State
    requires f.identity.id in s.effects && s.effects[f.identity.id].work.ReconciliationWork?
  {
    var r := s.effects[f.identity.id].work.request;
    if r.slot.attempt == 0 then IssueOutcome(s, r, f)
    else if RecordOutcome(s, r, f.manifest).Some? then RecordOutcome(s, r, f.manifest).value else s
  }

  /** What an accepted finish records. */
  lemma FinishRecords(s: State, f: ReconciliationFinish)
    requires FinishReconciliation(s, f).Accepted?
    ensures var after, id := FinishReconciliation(s, f).state, f.identity.id;
      && FinishReconciliation(s, f).effect.None? && id in s.effects && s.effects[id].work.ReconciliationWork?
      && (s.effects[id].status.Completed? ==> after == s)
      && (!s.effects[id].status.Completed? ==>
           && after.effects == OutcomeOf(s, f).effects[id := FinishedEffect(s.effects[id], f)]
           && after.revision == OutcomeOf(s, f).revision && after.attemptGenerations == OutcomeOf(s, f).attemptGenerations
           && after.tombstones == OutcomeOf(s, f).tombstones)
  {
    hide NotFinishable, ResultUnproved, ReceiptsAfterFinish, IssueGeneration, RecordOutcome, IssueOutcome, ValidResult, Identifies;
  }

  lemma FinishSteps(s: State, f: ReconciliationFinish)
    requires Keyed(s.effects) && FinishReconciliation(s, f).Accepted?
    requires f.identity.id in s.effects && !s.effects[f.identity.id].status.Completed?
    ensures Steps(FinishReconciliationCommand(f), s.effects[f.identity.id], FinishedEffect(s.effects[f.identity.id], f))
  {
    hide NotFinishable, ProofOf, ReceiptsAfterFinish, CleanupAuthorized, IssueGeneration, RecordOutcome, IssueOutcome, ValidResult;
  }

  /** An outcome forgets effects and changes none; beyond those it touches only
      attempt records. */
  lemma OutcomeKeeps(s: State, r: EffectRequest, f: ReconciliationFinish)
    ensures var after := IssueOutcome(s, r, f);
      after == s.(effects := after.effects, attempts := after.attempts) && Kept(s.effects, after.effects)
    ensures RecordOutcome(s, r, f.manifest).Some? ==>
      var after := RecordOutcome(s, r, f.manifest).value; after == s.(attempts := after.attempts) && Kept(s.effects, after.effects)
  {
  }

  predicate Kept(before: map<nat, Effect>, after: map<nat, Effect>) {
    after.Keys <= before.Keys && forall id :: id in after ==> after[id] == before[id]
  }

  lemma OneKept(c: Command, before: map<nat, Effect>, kept: map<nat, Effect>, id: nat, f: Effect)
    requires Kept(before, kept) && id in before && Steps(c, before[id], f)
    ensures AllStep(c, before, kept[id := f])
  {
  }

  lemma SupersessionUpdates(s: State, r: ReviewSupersession)
    requires Keyed(s.effects)
    ensures Updates(s, SupersedeReviewCommand(r), SupersedeReview(s, r))
  {
    hide PlanReviewInvalidated, ProofOf, BelongsToEffect, CleanupAuthorized, SameManifest;
  }

  lemma FinishRuntimeCloses(s: State, f: RuntimeFinish)
    requires FinishRuntime(s, f).Accepted?
    ensures var after, id := FinishRuntime(s, f).state, f.identity.id;
      && FinishRuntime(s, f).effect.None? && after.revision == s.revision && after.attemptGenerations == s.attemptGenerations
      && after.tombstones.Keys == s.tombstones.Keys
      && id in s.effects && s.effects[id].work.RuntimeWork?
      && after.effects == if s.effects[id].status.Completed? then s.effects else s.effects[id := s.effects[id].(status := Completed)]
  {
    hide AuthorizedByTombstone, IssueGeneration, AttemptGeneration;
  }

  lemma FinishRuntimeUpdates(s: State, c: Command, f: RuntimeFinish)
    requires Keyed(s.effects)
    ensures Updates(s, c, FinishRuntime(s, f))
  {
    hide FinishRuntime, AllStep, Forward;
    NoneUpdated(c, s.effects);
    if FinishRuntime(s, f).Accepted? {
      FinishRuntimeCloses(s, f);
      StandsForward(s, FinishRuntime(s, f).state);
      var id := f.identity.id;
      if !s.effects[id].status.Completed? {
        OneUpdated(c, s.effects, id, s.effects[id].(status := Completed));
      }
    }
  }

  lemma FinishOperatorUpdates(s: State, c: Command, f: RuntimeFinish)
    requires Keyed(s.effects)
    ensures Updates(s, c, FinishOperatorRuntime(s, f))
  {
    hide FinishRuntime, Advance, CompleteBound;
    FinishRuntimeUpdates(s, c, f);
  }

  lemma DisturbanceUpdates(s: State, o: Environment)
    requires Keyed(s.effects)
    ensures Updates(s, OtherCommand(o), Disturb(s, o))
  {
  }

  /** A candidate that differs only in what the effects do not read. */
  lemma StillUpdates(s: State, c: Command, reply: Reply)
    requires reply.Accepted? ==>
      reply.effect.None? && reply.state.effects == s.effects && reply.state.revision == s.revision
      && reply.state.attemptGenerations == s.attemptGenerations && s.tombstones.Keys <= reply.state.tombstones.Keys
    ensures Updates(s, c, reply)
  {
    hide AllStep, Forward;
    NoneUpdated(c, s.effects);
    if reply.Accepted? {
      StandsForward(s, reply.state);
    }
  }

  lemma StartUpdates(s: State, st: Startup)
    requires Keyed(s.effects)
    ensures Updates(s, OwnerStart(st), StartOwner(s, st))
  {
    hide RestampClaims, Unrecorded, PendingMutation, Forward;
    if s.epoch != MAX_U64 {
      StandsForward(s, StartOwner(s, st).state);
    }
  }

  /** Commands that leave the effects alone. */
  lemma ReceiptCommandsUpdate(s: State, c: Command)
    requires c.AbortAdmission? || c.FailAdmission? || c.Collect? || c.Refresh? || c.DiagnoseOperator?
    ensures Updates(s, c, Apply(s, c))
  {
    hide Begin, BeginReconciliation, BeginRuntime, InvalidateAttempt, FinishRuntime, FinishReconciliation, AdvanceRecovery, Reserve, Find, IndexOf,
      RefreshClaims, RefreshValid, ReconcileClaims, RestampClaims, SupersedeReview, FinishOperatorRuntime, FailClaims, Each, Updates, Identifies,
      JoinCoalesced, AuthorizeReconciliation, ResolveInvalidated, RequestReviewerSession, MarkReviewerRunning, ProveReviewerDead,
      SealReviewerResult, BindReviewerStopping, MarkReviewerStopped, Disturb, CompleteHandoff, StartCleanupWork;
    StillUpdates(s, c, Apply(s, c));
  }

  lemma StartCleanupUpdates(s: State, i: EffectIdentity, external: bool)
    ensures Updates(s, StartCleanupCommand(i, external), StartCleanupWork(s, i, external))
  {
    hide Updates, Each, Identifies, IsRuntime;
    StillUpdates(s, StartCleanupCommand(i, external), StartCleanupWork(s, i, external));
  }

  lemma CompensationUpdates(s: State, id: string, proved: bool)
    ensures Updates(s, CompleteCompensation(id, proved), CompleteHandoff(s, id, proved))
  {
    hide Updates, Find, Each, AwaitsCompensation;
    StillUpdates(s, CompleteCompensation(id, proved), CompleteHandoff(s, id, proved));
  }

  lemma ReserveUpdates(s: State, q: Request, valid: bool, statusAllows: bool)
    requires Keyed(s.effects)
    ensures Updates(s, ReserveAdmission(q, valid, statusAllows), Reserve(s, q, valid, statusAllows))
  {
    hide AppendReceipt, RemoteAttemptCompleted, Updates;
    forall r ensures Updates(s, ReserveAdmission(q, valid, statusAllows), AfterAppend(AppendReceipt(s, r), None)) {
      AppendUpdates(s, ReserveAdmission(q, valid, statusAllows), r);
    }
    NothingUpdated(s, ReserveAdmission(q, valid, statusAllows));
  }

  lemma AppendUpdates(s: State, c: Command, r: Receipt)
    ensures Updates(s, c, AfterAppend(AppendReceipt(s, r), None))
  {
    hide AppendReceipt;
    AppendThins(s, r);
    if AppendReceipt(s, r).Some? {
      ThinnedSteps(c, s.effects, AppendReceipt(s, r).value.effects);
    }
  }

  lemma NothingUpdated(s: State, c: Command)
    ensures Updates(s, c, Accepted(s, None)) && forall e :: Updates(s, c, Refused(e))
  {
    hide Steps, AttemptGeneration;
    NoneUpdated(c, s.effects);
  }

  // ---- Every commit --------------------------------------------------------

  predicate IsBegin(c: Command) {
    c.BeginMutation? || c.AdvanceRecoveryCommand? || c.BeginRuntimeCommand? || c.InvalidateCommand? || c.BeginReconciliationCommand?
  }

  lemma EveryCommandSteps(s: State, c: Command)
    requires Keyed(s.effects)
    ensures if IsBegin(c) then Begins(s, Apply(s, c)) else Updates(s, c, Apply(s, c))
  {
    hide Keyed, Begins, Updates, Reserve, Abort, Fail, RefreshClaims, RefreshValid, ReconcileClaims, RestampClaims, StartOwner, StartCleanupWork, FinishOperatorRuntime,
      FinishRuntime, RecordDiagnostic, CompleteHandoff, BeginRuntime, InvalidateAttempt, BeginReconciliation, AuthorizeReconciliation,
      ResolveInvalidated, RequestReviewerSession, MarkReviewerRunning, ProveReviewerDead, SealReviewerResult, BindReviewerStopping,
      MarkReviewerStopped, FinishReconciliation, SupersedeReview, Begin, JoinCoalesced, AdvanceRecovery, Disturb;
    match c {
      case ReserveAdmission(q, valid, statusAllows) => ReserveUpdates(s, q, valid, statusAllows);
      case BeginMutation(b) => OperatorBegins(s, b);
      case FinishOperatorRuntimeCommand(f) => FinishOperatorUpdates(s, c, f);
      case FinishRuntimeCommand(f) => FinishRuntimeUpdates(s, c, f);
      case AdvanceRecoveryCommand(a) => AdvanceBegins(s, a);
      case BeginRuntimeCommand(b) => BeginRuntimeBegins(s, b);
      case InvalidateCommand(i) => InvalidateBegins(s, i);
      case BeginReconciliationCommand(b) => BeginReconciliationBegins(s, b);
      case AuthorizeReconciliationCommand(i, external) => AuthorizeUpdates(s, i, external);
      case ResolveInvalidatedCommand(i, external) => ResolveUpdates(s, i, external);
      case RequestSessionCommand(i, external) => SessionUpdates(s, i, external);
      case MarkRunningCommand(i, pid, broker, external) => LaunchUpdates(s, i, pid, broker, external);
      case ProveDeadCommand(i, pid, neverRan) => DeathUpdates(s, i, pid, neverRan);
      case SealCommand(i, result, terminal, external) => SealUpdates(s, i, result, terminal, external);
      case BindStoppingCommand(i, pid, broker, key, p, external) => StoppingUpdates(s, i, pid, broker, key, p, external);
      case MarkStoppedCommand(i, key, p, external) => StoppedUpdates(s, i, key, p, external);
      case FinishReconciliationCommand(f) => FinishUpdates(s, f);
      case SupersedeReviewCommand(r) => SupersessionUpdates(s, r);
      case OwnerStart(start) => StartUpdates(s, start);
      case OtherCommand(o) => DisturbanceUpdates(s, o);
      case StartCleanupCommand(i, external) => StartCleanupUpdates(s, i, external);
      case CompleteCompensation(id, proved) => CompensationUpdates(s, id, proved);
      case _ => ReceiptCommandsUpdate(s, c);
    }
  }

  /** An effect as its first commit records it. */
  predicate Born(e: Effect, revision: nat) {
    e.id == revision && Unborn(e.(id := 0, revoked := false))
  }

  /** A commit that creates an effect completes none. */
  ghost predicate CreatesOrCompletes(before: map<nat, Effect>, after: map<nat, Effect>) {
    || after.Keys <= before.Keys
    || forall id :: id in before && id in after && after[id].status.Completed? ==> before[id].status.Completed?
  }

  ghost predicate EffectsStep(s: State, c: Command, next: State) {
    && Keyed(next.effects) && EffectsKeyed(next) && s.revision <= next.revision && Forward(s, next)
    && CreatesOrCompletes(s.effects, next.effects)
    && forall id :: id in next.effects ==>
         if id in s.effects then Steps(c, s.effects[id], next.effects[id])
         else id == next.revision == s.revision + 1 && Born(next.effects[id], id) && Admits(next.effects - {id}, next.effects[id])
              && Dated(s, next, next.effects[id])
  }

  /** Every proposed ledger: a known effect takes a permitted step, and at most
      one effect is new, under the revision of this very commit. */
  lemma ProposalSteps(s: State, m: Move, next: State)
    requires Keyed(s.effects) && EffectsKeyed(s)
    requires Proposed(s, m) == Some(next)
    ensures EffectsStep(s, m.command, next)
  {
    hide Apply, Keyed, Begins, Updates, Stamp, EffectsStep, EffectsKeyed;
    EveryCommandSteps(s, m.command);
    var reply := Apply(s, m.command);
    if next == s {
      SameEffectsStep(s, m.command);
    } else if IsBegin(m.command) {
      BeginStamped(s, m.command, reply.state, reply.effect, m.revoked);
    } else {
      UpdateStamped(s, m.command, reply, m.revoked);
    }
  }

  lemma SameEffectsStep(s: State, c: Command)
    requires Keyed(s.effects) && EffectsKeyed(s)
    ensures EffectsStep(s, c, s)
  {
  }

  lemma UpdateStamped(s: State, c: Command, reply: Reply, revoked: set<nat>)
    requires Keyed(s.effects) && EffectsKeyed(s) && Updates(s, c, reply) && reply.Accepted?
    ensures reply.effect.None? && EffectsStep(s, c, Stamp(s, c, reply.state, reply.effect, revoked))
  {
    hide Keyed, EffectsKeyed, Steps, StampEffects, EffectsStep, AllStep, Forward;
    UpdatedEffects(s, c, reply, revoked);
    StampKeepsForward(s, c, reply.state, None, revoked);
    UpdateSteps(s, c, Stamp(s, c, reply.state, None, revoked), revoked);
  }

  /** The effects of an update, revocations included. */
  lemma UpdatedEffects(s: State, c: Command, reply: Reply, revoked: set<nat>)
    requires Keyed(s.effects) && EffectsKeyed(s) && reply.Accepted? && AllStep(c, s.effects, reply.state.effects)
    ensures var after := StampEffects(reply.state.effects, None, s.revision + 1, revoked);
            AllStep(c, s.effects, after) && Keyed(after) && forall id :: id in after ==> 0 < id <= s.revision
  {
    hide Steps, StampEffects, EffectsKeyed, Keyed;
    StampedEffects(reply.state.effects, None, s.revision + 1, revoked);
    var after := StampEffects(reply.state.effects, None, s.revision + 1, revoked);
    forall id | id in after ensures id in s.effects && Steps(c, s.effects[id], after[id]) {
      RevokedSteps(c, s.effects[id], reply.state.effects[id], revoked);
    }
    StepsKeepKeyed(c, s, after);
  }

  lemma StampKeepsForward(s: State, c: Command, candidate: State, effect: Option<Effect>, revoked: set<nat>)
    requires Forward(s, candidate)
    ensures Forward(s, Stamp(s, c, candidate, effect, revoked))
  {
    hide BindOne, StampEffects, StampAttempts, StampTombstone;
  }

  lemma UpdateSteps(s: State, c: Command, next: State, revoked: set<nat>)
    requires AllStep(c, s.effects, next.effects) && Keyed(next.effects) && (forall id :: id in next.effects ==> 0 < id <= s.revision)
    requires next.revision == s.revision + 1 && Forward(s, next)
    ensures EffectsStep(s, c, next)
  {
    hide Steps, Forward;
  }

  lemma StampedEffects(effects: map<nat, Effect>, effect: Option<Effect>, revision: nat, revoked: set<nat>)
    ensures var after := StampEffects(effects, effect, revision, revoked);
      && after.Keys == (if IsNew(effect) then effects.Keys + {revision} else effects.Keys)
      && forall id :: id in after ==>
           after[id] == RevokeOne(if IsNew(effect) && id == revision then effect.value.(id := revision) else effects[id], revoked)
  {
  }

  lemma RevokedSteps(c: Command, e: Effect, x: Effect, revoked: set<nat>)
    requires Steps(c, e, x)
    ensures Steps(c, e, RevokeOne(x, revoked))
  {
  }

  lemma StepsKeepKeyed(c: Command, s: State, after: map<nat, Effect>)
    requires Keyed(s.effects) && EffectsKeyed(s) && AllStep(c, s.effects, after)
    ensures Keyed(after) && forall id :: id in after ==> 0 < id <= s.revision
  {
  }

  lemma BeginStamped(s: State, c: Command, candidate: State, effect: Option<Effect>, revoked: set<nat>)
    requires Keyed(s.effects) && EffectsKeyed(s) && Begins(s, Accepted(candidate, effect))
    ensures EffectsStep(s, c, Stamp(s, c, candidate, effect, revoked))
  {
    hide Stamp, StampEffects, Steps, AllStep, Born, Unborn, Admits, CreatesOrCompletes, Dated, RevokeOne, Forward, EffectsStep, Keyed;
    ThinnedSteps(c, s.effects, candidate.effects);
    var next := Stamp(s, c, candidate, effect, revoked);
    BeginEffects(s, c, candidate.effects, effect, revoked);
    BeginCompletesNothing(s.effects, candidate.effects, effect, s.revision + 1, revoked);
    StampKeepsForward(s, c, candidate, effect, revoked);
    StampedParts(s, c, candidate, effect, revoked);
    StampedEffects(candidate.effects, effect, s.revision + 1, revoked);
    if IsNew(effect) {
      NewStaysDated(s, candidate, next, effect.value, s.revision + 1, revoked);
    }
    CommittedSteps(s, c, next);
  }

  lemma StampedParts(s: State, c: Command, candidate: State, effect: Option<Effect>, revoked: set<nat>)
    ensures var next := Stamp(s, c, candidate, effect, revoked);
      && next.effects == StampEffects(candidate.effects, effect, candidate.revision + 1, revoked)
      && next.revision == candidate.revision + 1 && next.attemptGenerations == candidate.attemptGenerations
  {
    hide StampEffects, BindOne, StampTombstone, StampAttempts;
  }

  lemma CommittedSteps(s: State, c: Command, next: State)
    requires Keyed(next.effects) && next.revision == s.revision + 1 && Forward(s, next) && CreatesOrCompletes(s.effects, next.effects)
    requires forall id :: id in next.effects ==> next.effects[id].id == id && 0 < id <= s.revision + 1
    requires forall id :: id in next.effects ==>
      if id in s.effects then Steps(c, s.effects[id], next.effects[id])
      else id == s.revision + 1 && Born(next.effects[id], id) && Admits(next.effects - {id}, next.effects[id])
    requires s.revision + 1 in next.effects && s.revision + 1 !in s.effects ==> Dated(s, next, next.effects[s.revision + 1])
    ensures EffectsStep(s, c, next)
  {
    hide Steps, Born, Admits, Dated, Forward, CreatesOrCompletes, Keyed;
  }

  lemma NewStaysDated(s: State, candidate: State, next: State, e: Effect, id: nat, revoked: set<nat>)
    requires Dated(s, candidate, e) && next.attemptGenerations == candidate.attemptGenerations
    ensures Dated(s, next, RevokeOne(e.(id := id), revoked))
  {
  }

  lemma BeginCompletesNothing(before: map<nat, Effect>, effects: map<nat, Effect>, effect: Option<Effect>, revision: nat, revoked: set<nat>)
    requires Thinned(before, effects) && revision !in before
    ensures CreatesOrCompletes(before, StampEffects(effects, effect, revision, revoked))
  {
    hide StampEffects, RevokeOne;
    StampedEffects(effects, effect, revision, revoked);
    RevokedKeepsIntent(revoked);
  }

  lemma BeginEffects(s: State, c: Command, effects: map<nat, Effect>, effect: Option<Effect>, revoked: set<nat>)
    requires Keyed(s.effects) && EffectsKeyed(s) && AllStep(c, s.effects, effects)
    requires effect.Some? ==>
      || (Unborn(effect.value) && Admits(effects, effect.value))
      || (effect.value.id in s.effects && s.effects[effect.value.id] == effect.value && effect.value.id != 0)
    ensures var after := StampEffects(effects, effect, s.revision + 1, revoked);
      && Keyed(after) && (forall id :: id in after ==> after[id].id == id && 0 < id <= s.revision + 1)
      && forall id :: id in after ==>
           if id in s.effects then Steps(c, s.effects[id], after[id])
           else id == s.revision + 1 && Born(after[id], id) && Admits(after - {id}, after[id])
  {
    hide StampEffects, GroupSteps, SealSteps, ResultSteps, StatusSteps, Absorbed, SameIntent, Admits;
    StampedEffects(effects, effect, s.revision + 1, revoked);
    StepsKeepKeyed(c, s, effects);
    var after := StampEffects(effects, effect, s.revision + 1, revoked);
    forall id | id in after
      ensures if id in s.effects then Steps(c, s.effects[id], after[id]) else id == s.revision + 1 && Born(after[id], id) && Admits(after - {id}, after[id])
      ensures after[id].id == id && GroupRecorded(after[id]) && 0 < id <= s.revision + 1 {
      if IsNew(effect) && id == s.revision + 1 {
        NewStaysAdmitted(effects, effect.value, id, after, revoked);
      } else {
        RevokedSteps(c, s.effects[id], effects[id], revoked);
      }
    }
  }

  lemma RevokedKeepsIntent(revoked: set<nat>)
    ensures forall e :: RevokeOne(e, revoked).slot == e.slot && RevokeOne(e, revoked).work == e.work && RevokeOne(e, revoked).status == e.status
    ensures forall e :: RevokeOne(e, revoked).attemptGeneration == e.attemptGeneration
  {
  }

  lemma RevokedExcludes(a: Effect, b: Effect, c: Effect, d: Effect)
    requires c.slot == a.slot && c.work == a.work && d.slot == b.slot && d.work == b.work
    ensures Excludes(c, d) == Excludes(a, b)
  {
  }

  lemma NewStaysAdmitted(effects: map<nat, Effect>, e: Effect, id: nat, after: map<nat, Effect>, revoked: set<nat>)
    requires Admits(effects, e) && id !in effects
    requires after.Keys == effects.Keys + {id} && after[id] == RevokeOne(e.(id := id), revoked)
    requires forall o :: o in effects ==> after[o] == RevokeOne(effects[o], revoked)
    ensures Admits(after - {id}, after[id])
  {
    hide RevokeOne, Excludes;
    RevokedKeepsIntent(revoked);
    var others := after - {id};
    if e.work.ReconciliationWork? {
      forall o | o in others && Occupies(others[o]) ensures others[o].slot != after[id].slot && !Excludes(others[o], after[id]) {
        assert others[o] == RevokeOne(effects[o], revoked);
        RevokedExcludes(effects[o], e, others[o], after[id]);
      }
    }
  }
}
