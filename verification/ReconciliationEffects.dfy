// Reconciliation effects: admission under generation fences and reviewer
// exclusion, the launch, seal and finish protocol of reviewers, supersession,
// and the resolution of invalidated mutations.
module ReconciliationEffects {
  import opened OwnerState
  import opened Receipts
  import opened AttemptEffects

  // ---- Requests ------------------------------------------------------------

  predicate IssueScoped(p: Payload) {
    p.GitHubIssueUpdate? && (p.kind.ControlSnapshot? || p.kind.DependencyClear? || p.kind.MachineStatus?)
  }

  /** Issue-scoped updates name no attempt; everything else names one and
      carries its manifest. */
  predicate WellScoped(r: EffectRequest) {
    if IssueScoped(r.payload) then r.slot.attempt == 0 && r.manifest.None?
    else r.slot.attempt >= 1 && r.manifest.Some? && r.manifest.value.slot == r.slot
  }

  predicate SameManifestExceptUpdatedAt(current: Manifest, planned: Manifest) {
    current == planned.(updatedAt := current.updatedAt)
  }

  predicate SameManifest(r: EffectRequest, current: Manifest, planned: Manifest) {
    || current == planned
    || (r.payload.Reviewer? && r.payload.review.mode.PlanMode? && SameManifestExceptUpdatedAt(current, planned))
  }

  predicate ValidResult(r: EffectRequest, result: EffectResult) {
    if r.payload.Reviewer? then
      && result.ReviewerResult? && result.runId == r.payload.review.runId
      && (if r.payload.review.phase.ReviewCleanup? then result.status.Cleaned? else !result.status.Cleaned?)
      && (result.status.Clean? ==> result.findings == []) && (result.status.Findings? ==> result.findings != [])
    else result.OtherResult?
  }

  // ---- Currency ------------------------------------------------------------

  predicate ObservationMatches(s: State, r: EffectRequest) {
    && r.slot.issue in s.observations
    && var o := s.observations[r.slot.issue];
       o.present && o.generation == r.sighting.generation && o.ownerGeneration == IssueGeneration(s, r.slot.issue) && o.body == r.sighting.body
  }

  predicate ObservationCurrent(s: State, r: EffectRequest) {
    ObservationMatches(s, r) && s.observations[r.slot.issue].epoch == s.epoch
  }

  /** A retry changes its own observation, and a reviewer only needs the plan it
      reviewed: finishing them asks less of the observation than beginning does. */
  predicate FinishObservationMatches(s: State, r: EffectRequest, external: bool) {
    if r.payload.Reviewer? && r.payload.review.phase.RunObserve? then
      && r.slot.issue in s.observations
      && var o := s.observations[r.slot.issue];
         && o.present && o.ownerGeneration == IssueGeneration(s, r.slot.issue) && o.body == r.sighting.body
         && !o.closed && !o.cancelled && o.currentAttempt == r.slot.attempt
         && (if r.payload.review.mode.PlanMode? then o.dispatchAuthorized
             else (r.payload.review.digestVersion == 0 ==> o.generation == r.sighting.generation) && external)
    else
      || ObservationMatches(s, r)
      || (&& r.payload.GitHubIssueUpdate? && r.payload.kind.Retry? && r.slot.issue in s.observations
          && var o := s.observations[r.slot.issue];
             && o.present && o.ownerGeneration == IssueGeneration(s, r.slot.issue) && o.body == r.sighting.body
             && o.currentAttempt == r.slot.attempt && !o.closed && !o.cancelled && external)
  }

  predicate ReviewerExcludes(s: State, r: EffectRequest) {
    !IsMachineStatus(r.payload) && MutatesGitHub(r.payload)
    && (IssueHasUnconfinedReviewer(s, r.slot.issue) || IssueHasPendingReviewer(s, r.slot.issue))
  }

  /** The attempt fence: an attempt-scoped effect counts only while its attempt
      still has the generation it was begun at and is not tombstoned. */
  function AttemptFence(s: State, e: Effect): Option<Error> {
    if e.slot.attempt == 0 then None
    else if AttemptGeneration(s, e.slot) != e.attemptGeneration then Some(Stale)
    else if e.slot in s.tombstones then Some(Tombstoned)
    else None
  }

  /** Why the effect may not be dispatched now. */
  function NotCurrent(s: State, e: Effect, external: bool): Option<Error>
    requires e.work.ReconciliationWork?
  {
    var r := e.work.request;
    var v1 := r.payload.Reviewer? && r.payload.review.digestVersion == 1;
    var compatible := v1 && FinishObservationMatches(s, r, external);
    if ReviewerExcludes(s, r) then Some(Conflict)
    else if e.revoked || IssueGeneration(s, e.slot.issue) != e.issueGeneration || !external then Some(Stale)
    else if v1 && !compatible then Some(Stale)
    else if !IsMachineStatus(r.payload) && !ObservationCurrent(s, r) && !compatible then Some(Stale)
    else if compatible && s.observations[r.slot.issue].epoch != s.epoch then Some(Stale)
    else AttemptFence(s, e)
  }

  /** Why the effect may not be finished now. */
  function NotFinishable(s: State, e: Effect, external: bool): Option<Error>
    requires e.work.ReconciliationWork?
  {
    var r := e.work.request;
    if ReviewerExcludes(s, r) then Some(Conflict)
    else if e.revoked || IssueGeneration(s, e.slot.issue) != e.issueGeneration then Some(Stale)
    else if (!IsMachineStatus(r.payload) && !FinishObservationMatches(s, r, external)) || !external then Some(Stale)
    else AttemptFence(s, e)
  }

  // ---- Begin ---------------------------------------------------------------

  /** `met` is the pending effect of the slot that the iteration over the effect
      map meets first, among those a plan review does not displace. */
  datatype ReconciliationBegin = ReconciliationBegin(identity: BeginIdentity, request: EffectRequest, met: nat, external: bool)

  predicate PendingOn(s: State, slot: Slot, id: nat) {
    id in s.effects && s.effects[id].slot == slot && s.effects[id].status.Pending?
  }

  /** A plan review displaces the monitor of its attempt. */
  predicate Displaced(s: State, r: EffectRequest, id: nat) {
    PendingOn(s, r.slot, id) && IsRuntime(s.effects[id], Monitor) && r.payload.Reviewer? && r.payload.review.mode.PlanMode?
  }

  /** Retry authorization is about one failed attempt, whichever cycle saw it. */
  predicate SameRetry(e: Effect, r: EffectRequest) {
    && IsIssueUpdate(e, Retry) && r.payload.GitHubIssueUpdate? && r.payload.kind.Retry?
    && e.work.request.manifest == r.manifest && e.work.request.payload.failedAt == r.payload.failedAt
    && e.work.request.sighting.body == r.sighting.body && e.work.request.executionDigest == r.executionDigest
  }

  function BeginReconciliation(s: State, c: ReconciliationBegin): Reply {
    var r := c.request;
    var slot := r.slot;
    var i := c.identity;
    if i.epoch != s.epoch || i.sourceRevision == 0 || i.sourceRevision > s.revision || !WellScoped(r) then Refused(Stale)
    else if IssueGeneration(s, slot.issue) != i.issueGeneration then Refused(Stale)
    else if !c.external || ReviewerExcludes(s, r) then Refused(Conflict)
    else if r.payload.Reviewer? && AdmissionBlocked(s, r) then Refused(Conflict)
    else if r.payload.Reviewer? && exists id :: id in s.effects && s.effects[id].slot.issue == slot.issue && PendingMutation(s.effects[id])
    then Refused(Conflict)
    else if !IsMachineStatus(r.payload) && (!ObservationCurrent(s, r) || s.observations[slot.issue].cycle != r.sighting.cycle)
    then Refused(Stale)
    else if r.manifest.Some? && (AttemptGeneration(s, slot) != i.attemptGeneration || i.attemptGeneration == 0) then Refused(Stale)
    else if r.manifest.Some? && slot in s.tombstones then Refused(Tombstoned)
    else if r.manifest.Some? && (slot !in s.attempts || s.attempts[slot].stopEffect != 0 || s.attempts[slot].generation != i.attemptGeneration
                                 || !SameManifest(r, s.attempts[slot].manifest, r.manifest.value)) then Refused(Stale)
    else if r.manifest.None? && i.attemptGeneration != 0 then Refused(Stale)
    else if exists id :: id in s.effects && Displaced(s, r, id)
                         && (i.sourceRevision != s.revision || s.effects[id].issueGeneration != i.issueGeneration
                             || s.effects[id].attemptGeneration != i.attemptGeneration) then Refused(Stale)
    else if exists id :: id in s.effects && PendingOn(s, slot, id) && !Displaced(s, r, id) then
      if !PendingOn(s, slot, c.met) || Displaced(s, r, c.met) then Refused(Conflict)
      else
        var e := s.effects[c.met];
        var sameGenerations := e.issueGeneration == i.issueGeneration && e.attemptGeneration == i.attemptGeneration;
        if sameGenerations && (e.digest == ReconciliationDigest(r) || SameRetry(e, r)) then Accepted(s, Some(e)) else Refused(Conflict)
    else if i.sourceRevision != s.revision then Refused(Stale)
    else if r.payload.Reviewer? && s.revision == MAX_U64 then Refused(Overflow)
    else
      var undisplaced := s.(effects := map id | id in s.effects && !Displaced(s, r, id) :: s.effects[id]);
      var gate := r.payload.Reviewer? && r.payload.review.phase.RunObserve?;
      Accepted(s.(effects := PruneForBegin(undisplaced, slot)),
               Some(Effect(0, slot, ReconciliationWork(r), i.issueGeneration, i.attemptGeneration, s.epoch, Pending, false,
                           ReconciliationDigest(r), "", None, false, gate, false, 0, None,
                           if gate then s.profile else "", if gate then REVIEWER_CONFINEMENT_VERSION else 0, false, 0, false)))
  }

  /** Issue-scoped completions are pruned even when something names them. */
  function PruneForBegin(s: State, slot: Slot): map<nat, Effect> {
    if slot.attempt > 0 then PruneCompleted(s, slot)
    else map id | id in s.effects && !(s.effects[id].slot == slot && s.effects[id].status.Completed?) :: s.effects[id]
  }

  predicate AdmissionBlocked(s: State, r: EffectRequest)
    requires r.payload.Reviewer?
  {
    var key := ProofKey(r.slot, r.payload.review.mode, r.payload.review.target);
    IssueHasUnconfinedReviewer(s, r.slot.issue) || (key in s.proofs && !s.proofs[key].neverRan && !s.proofs[key].dead)
  }

  // ---- Dispatch and its resolution -----------------------------------------

  predicate KnownReconciliation(s: State, i: EffectIdentity) {
    i.id in s.effects && s.effects[i.id].work.ReconciliationWork? && Identifies(i, s.effects[i.id])
  }

  function AuthorizeReconciliation(s: State, i: EffectIdentity, external: bool): Reply {
    if !KnownReconciliation(s, i) || !s.effects[i.id].status.Pending? then Refused(Stale)
    else
      var e := s.effects[i.id];
      match NotCurrent(s, e, external)
      case Some(error) => Refused(error)
      case None =>
        if MutatesGitHub(e.work.request.payload) then Accepted(s.(effects := s.effects[i.id := e.(dispatched := true)]), None)
        else Accepted(s, None)
  }

  function ResolveInvalidated(s: State, i: EffectIdentity, external: bool): Reply {
    if !KnownReconciliation(s, i) || !s.effects[i.id].status.Invalidated? || !s.effects[i.id].dispatched
       || !MutatesGitHub(s.effects[i.id].work.request.payload) || !external then Refused(Stale)
    else
      var e := s.effects[i.id];
      var resolved := s.effects[i.id := e.(status := InvalidatedResolved)];
      if e.slot.attempt == 0 then Accepted(s.(effects := resolved), None)
      else if e.slot !in s.tombstones || s.tombstones[e.slot].invalidatedGeneration != e.attemptGeneration then Refused(Stale)
      else
        var t := s.tombstones[e.slot];
        Accepted(s.(effects := resolved, tombstones := s.tombstones[e.slot := t.(outcomes := t.outcomes + {i.id})]), None)
  }

  // ---- The reviewer protocol -----------------------------------------------

  function RequestReviewerSession(s: State, i: EffectIdentity, external: bool): Reply {
    if !KnownReconciliation(s, i) || !s.effects[i.id].status.Pending? || !s.effects[i.id].gate || !RunsReviewer(s.effects[i.id]) then Refused(Stale)
    else
      var e := s.effects[i.id];
      if e.sessionRequested then Accepted(s, None)
      else if e.launched || e.groupPid != 0 then Refused(Conflict)
      else match NotCurrent(s, e, external)
        case Some(error) => Refused(error)
        case None => Accepted(s.(effects := s.effects[i.id := e.(sessionRequested := true)]), None)
  }

  /** The certificate that a live process group belongs to this effect. */
  function LaunchProof(e: Effect, groupPid: nat, broker: Option<nat>): Proof
    requires RunsReviewer(e)
  {
    Proof(e.id, ReviewOf(e).runId, e.issueGeneration, e.attemptGeneration, groupPid, false, false, false, e.profile, e.confinement, broker)
  }

  /** `external`: the pane, its broker and the group identify one live run. */
  function MarkReviewerRunning(s: State, i: EffectIdentity, groupPid: nat, broker: nat, external: bool): Reply {
    if !KnownReconciliation(s, i) || !s.effects[i.id].status.Pending? then Refused(Stale)
    else
      var e := s.effects[i.id];
      if !RunsReviewer(e) || e.work.request.manifest.None? || groupPid < 2 || (e.gate && !e.sessionRequested) || !external then Refused(Conflict)
      else
        var key, proof := ReviewProofKey(e), LaunchProof(e, groupPid, Some(broker));
        if e.launched then
          if e.groupPid == groupPid && key in s.proofs && s.proofs[key] == proof then Accepted(s, None) else Refused(Conflict)
        else match NotFinishable(s, e, external)
          case Some(error) => Refused(error)
          case None =>
            if key in s.proofs && (s.proofs[key].effect != e.id || s.proofs[key].runId != proof.runId
                                   || s.proofs[key].profile != proof.profile || s.proofs[key].confinement != proof.confinement)
            then Refused(Conflict)
            else Accepted(s.(proofs := s.proofs[key := proof], effects := s.effects[i.id := e.(launched := true, groupPid := groupPid)]), None)
  }

  predicate ProofOf(p: Proof, e: Effect, groupPid: nat)
    requires e.work.ReconciliationWork? && e.work.request.payload.Reviewer?
  {
    p.effect == e.id && p.runId == ReviewOf(e).runId && p.groupPid == groupPid && p.issueGeneration == e.issueGeneration
    && p.attemptGeneration == e.attemptGeneration && p.profile == e.profile && p.confinement == e.confinement
  }

  function ProveReviewerDead(s: State, i: EffectIdentity, groupPid: nat, neverRan: bool): Reply {
    if !KnownReconciliation(s, i) || !s.effects[i.id].status.Pending? || !s.effects[i.id].work.request.payload.Reviewer? then Refused(Stale)
    else
      var e := s.effects[i.id];
      var key := ReviewProofKey(e);
      if neverRan != (groupPid == 0) || (neverRan && (!e.gate || e.sessionRequested))
         || (e.launched && (neverRan || e.groupPid != groupPid)) || (!e.launched && !neverRan && groupPid < 2)
      then Refused(Conflict)
      else if (if key in s.proofs then !ProofOf(s.proofs[key], e, groupPid) else e.launched) then Refused(Conflict)
      else
        var proof := if key in s.proofs then s.proofs[key] else LaunchProofOrAbsence(e, groupPid, neverRan);
        if !CleanupAuthorized(proof.(dead := true)) then Refused(Conflict)
        else
          var bound := if !e.launched && groupPid > 1 then e.(launched := true, groupPid := groupPid) else e;
          Accepted(s.(proofs := s.proofs[key := proof.(dead := true)], effects := s.effects[i.id := bound]), None)
  }

  function LaunchProofOrAbsence(e: Effect, groupPid: nat, neverRan: bool): Proof
    requires e.work.ReconciliationWork? && e.work.request.payload.Reviewer?
  {
    Proof(e.id, ReviewOf(e).runId, e.issueGeneration, e.attemptGeneration, groupPid, false, neverRan, false, e.profile, e.confinement, None)
  }

  /** How the reviewer's terminal says the process group ended. */
  datatype Terminal = Terminal(childPid: nat, broker: Option<nat>, exitCode: int, signal: nat)

  /** `external`: the dead pane and its terminal record name this very run. */
  function SealReviewerResult(s: State, i: EffectIdentity, result: EffectResult, terminal: Terminal, external: bool): Reply {
    if !KnownReconciliation(s, i) || !s.effects[i.id].status.Pending? || !RunsReviewer(s.effects[i.id]) || !s.effects[i.id].launched
       || s.effects[i.id].groupPid < 2 || !ValidResult(s.effects[i.id].work.request, result) then Refused(Stale)
    else
      var e := s.effects[i.id];
      var key := ReviewProofKey(e);
      match NotFinishable(s, e, external)
      case Some(error) => Refused(error)
      case None =>
        if key !in s.proofs || !ProofOf(s.proofs[key], e, e.groupPid) || s.proofs[key].neverRan then Refused(Conflict)
        else if terminal.childPid != e.groupPid || terminal.broker.None? || terminal.broker != s.proofs[key].broker then Refused(Conflict)
        else if terminal.exitCode == 0 && terminal.signal != 0 then Refused(Conflict)
        else if !result.status.ReviewFailed? && (terminal.exitCode != 0 || terminal.signal != 0) then Refused(Conflict)
        else if e.sealed.Some? && e.sealed != Some(result) then Refused(Conflict)
        else Accepted(s.(proofs := s.proofs[key := s.proofs[key].(dead := true)], effects := s.effects[i.id := e.(sealed := Some(result))]), None)
  }

  /** Binds the live group of a reviewer that is about to be signalled: its own
      effect's, or the one that a Stop or Cleanup superseded, whose certificate
      the command brings as `live`. */
  function BindReviewerStopping(s: State, i: EffectIdentity, groupPid: nat, broker: nat, superseded: ProofKey, live: Proof, external: bool): Reply {
    if i.id !in s.effects || !s.effects[i.id].status.Pending? || groupPid < 2 || !Identifies(i, s.effects[i.id]) then Refused(Stale)
    else
      var e := s.effects[i.id];
      if RunsReviewer(e) then
        var key, proof := ReviewProofKey(e), LaunchProof(e, groupPid, Some(broker));
        if !e.gate || !e.sessionRequested || (e.groupPid != 0 && e.groupPid != groupPid) || !external then Refused(Conflict)
        else if key in s.proofs && !ProofOf(s.proofs[key], e, groupPid) then Refused(Conflict)
        else Accepted(s.(proofs := s.proofs[key := if key in s.proofs then s.proofs[key] else proof],
                         effects := s.effects[i.id := e.(launched := true, groupPid := groupPid)]), None)
      else if !SupersededProof(e, superseded, live, groupPid) || !external then Refused(Conflict)
      else if superseded in s.proofs && !SupersededProof(e, superseded, s.proofs[superseded], groupPid) then Refused(Conflict)
      else if superseded in s.proofs then Accepted(s, None)
      else Accepted(s.(proofs := s.proofs[superseded := live]), None)
  }

  predicate SupersededProof(e: Effect, key: ProofKey, p: Proof, groupPid: nat) {
    && (IsRuntime(e, Stop) || IsRuntime(e, Cleanup)) && e.supersededReviewer != 0
    && key.slot == e.slot && p.effect == e.supersededReviewer && p.groupPid == groupPid
  }

  /** Records that the superseded reviewer's group is proved dead. */
  function MarkReviewerStopped(s: State, i: EffectIdentity, superseded: ProofKey, dead: Proof, external: bool): Reply {
    if i.id !in s.effects || !s.effects[i.id].status.Pending? || !Identifies(i, s.effects[i.id]) || s.effects[i.id].supersededReviewer == 0
    then Refused(Stale)
    else
      var e := s.effects[i.id];
      if e.reviewerStopped then Accepted(s, None)
      else if !SupersededProof(e, superseded, dead, dead.groupPid) || !external || !CleanupAuthorized(dead) then Refused(Conflict)
      else Accepted(s.(proofs := s.proofs[superseded := dead], effects := s.effects[i.id := e.(reviewerStopped := true)]), None)
  }

  // ---- Finish --------------------------------------------------------------

  /** `manifest` is what the outcome leaves in the attempt record. `worker`: the
      machine status came from the worker of that manifest's attempt, which still
      has its generation. `repair`: the snapshot repairs control state. */
  datatype ReconciliationFinish = ReconciliationFinish(
    identity: EffectIdentity, result: EffectResult, manifest: Manifest, worker: bool, repair: bool, external: bool)

  /** Only the attempt the request names can change: a reviewer or a handoff
      rewrites its manifest, a retirement ends it. */
  function RecordOutcome(s: State, r: EffectRequest, manifest: Manifest): Option<State> {
    if r.slot !in s.attempts then None
    else if r.payload.RetireCompleted? then Some(s.(attempts := s.attempts - {r.slot}))
    else if !r.payload.Reviewer? && !r.payload.HandoffDeliver? then Some(s)
    else if manifest.slot != r.slot then None
    else Some(s.(attempts := s.attempts[r.slot := s.attempts[r.slot].(manifest := manifest)]))
  }

  predicate ResolvedOn(e: Effect, issue: nat) {
    e.slot.issue == issue && e.status.InvalidatedResolved?
  }

  /** An issue-scoped outcome forgets invalidated updates that were resolved; a
      machine status tells its worker's attempt that it was applied. */
  function IssueOutcome(s: State, r: EffectRequest, c: ReconciliationFinish): State {
    var slot, issue := c.manifest.slot, r.slot.issue;
    if IsMachineStatus(r.payload) then
      s.(attempts := if c.worker && slot.issue == issue && slot in s.attempts
                     then s.attempts[slot := s.attempts[slot].(manifest := c.manifest)] else s.attempts,
         effects := map id | id in s.effects && !(ResolvedOn(s.effects[id], issue) && IsIssueUpdate(s.effects[id], MachineStatus)) :: s.effects[id])
    else if c.repair && r.payload.GitHubIssueUpdate? && r.payload.kind.ControlSnapshot? then
      s.(effects := map id | id in s.effects && !ResolvedOn(s.effects[id], issue) :: s.effects[id])
    else s
  }

  /** Why a reviewer result may not be believed. */
  predicate ResultUnproved(s: State, e: Effect, result: EffectResult)
    requires e.work.ReconciliationWork?
  {
    && e.work.request.payload.Reviewer?
    && var key := ReviewProofKey(e);
       || (RunsReviewer(e) && result.ReviewerResult? && !result.status.ReviewFailed? && !e.launched)
       || (RunsReviewer(e) && e.gate && !e.launched
           && !(key in s.proofs && s.proofs[key].effect == e.id && s.proofs[key].runId == ReviewOf(e).runId
                && s.proofs[key].dead && s.proofs[key].neverRan && s.proofs[key].groupPid == 0))
       || (e.launched
           && !(key in s.proofs && ProofOf(s.proofs[key], e, e.groupPid) && !s.proofs[key].neverRan && e.sealed == Some(result)))
       || (ReviewOf(e).phase.ReviewCleanup?
           && !(key in s.proofs && s.proofs[key].runId == ReviewOf(e).runId && s.proofs[key].attemptGeneration != 0
                && s.proofs[key].attemptGeneration <= e.attemptGeneration && CleanupAuthorized(s.proofs[key])))
  }

  function FinishReconciliation(s: State, c: ReconciliationFinish): Reply {
    var id := c.identity.id;
    if !KnownReconciliation(s, c.identity) then Refused(Stale)
    else if !ValidResult(s.effects[id].work.request, c.result) then Refused(Conflict)
    else
      var e := s.effects[id];
      if e.status.Completed? then
        if e.result == Some(c.result) then Accepted(s, None) else Refused(Conflict)
      else match NotFinishable(s, e, c.external)
        case Some(error) => Refused(error)
        case None =>
          if ResultUnproved(s, e, c.result) then Refused(Conflict)
          else match if e.work.request.slot.attempt == 0 then Some(IssueOutcome(s, e.work.request, c)) else RecordOutcome(s, e.work.request, c.manifest)
            case None => Refused(Stale)
            case Some(recorded) =>
              var cleaned := e.work.request.payload.Reviewer? && ReviewOf(e).phase.ReviewCleanup?;
              var closed := recorded.(
                proofs := if cleaned then s.proofs - {ReviewProofKey(e)} else s.proofs,
                effects := recorded.effects[id := e.(status := Completed, result := Some(c.result))]);
              Accepted(closed.(receipts := ReceiptsAfterFinish(s, e, c.result)), None)
  }

  /** What finishing an effect does to the receipts bound to it. */
  function ReceiptsAfterFinish(s: State, e: Effect, result: EffectResult): seq<Receipt> {
    if IsIssueUpdate(e, TerminalFailure) && Advances(s.receipts, e.id, TerminalPending)
    then Advance(s.receipts, e.id, TerminalPending, RetryAwait)
    else if result.ReviewerResult? && result.status.ReviewFailed?
    then FailBound(s.receipts, e.id, result.diagnostic, s.revision + 1)
    else CompleteBound(s.receipts, e.id, s.revision + 1)
  }

  // ---- Supersession --------------------------------------------------------

  /** What may revoke a running plan review: a generation or tombstone change,
      or a fresh observation that no longer supports it. `gone`: the remote
      attempt is no longer active. */
  predicate PlanReviewInvalidated(s: State, e: Effect, gone: bool, external: bool)
    requires e.work.ReconciliationWork?
  {
    var r := e.work.request;
    || e.revoked
    || IssueGeneration(s, e.slot.issue) != e.issueGeneration || AttemptGeneration(s, e.slot) != e.attemptGeneration
    || e.slot in s.tombstones
    || (e.slot.issue in s.observations && s.observations[e.slot.issue].epoch == s.epoch
        && (!FinishObservationMatches(s, r, external) || e.slot !in s.attempts || r.manifest.None?
            || !SameManifest(r, s.attempts[e.slot].manifest, r.manifest.value)
            || !s.observations[e.slot.issue].dispatchAuthorized || gone))
  }

  /** `head` is the newer head a superseded implementation review missed.
      `invalidated` is the answer of the observation guards when the attempt is
      still the effect's own. */
  datatype ReviewSupersession = ReviewSupersession(
    identity: EffectIdentity, newerHead: bool, gone: bool, invalidated: bool, manifest: Manifest, external: bool)

  predicate BelongsToEffect(s: State, e: Effect) {
    IssueGeneration(s, e.slot.issue) == e.issueGeneration && AttemptGeneration(s, e.slot) == e.attemptGeneration && e.slot !in s.tombstones
  }

  predicate ReviewWaits(r: Receipt, effect: nat) {
    r.effect == effect && r.state.Waiting? && r.request.action.ReviewPlan?
  }

  function CloseReview(r: Receipt, effect: nat, revision: nat): Receipt {
    if ReviewWaits(r, effect) then Closed(r, Failure(r.request, 409, "plan review was invalidated by current issue state", revision)) else r
  }

  function SupersedeReview(s: State, c: ReviewSupersession): Reply {
    var id := c.identity.id;
    if !KnownReconciliation(s, c.identity) || !RunsReviewer(s.effects[id]) then Refused(Stale)
    else
      var e := s.effects[id];
      var review := ReviewOf(e);
      var key := ReviewProofKey(e);
      if e.status.Completed? then Accepted(s, None)  // A terminal receipt is immutable.
      else if c.newerHead && !review.mode.ImplementationMode? then Refused(Conflict)
      else if key !in s.proofs || !ProofOf(s.proofs[key], e, e.groupPid) || s.proofs[key].neverRan == e.launched || !CleanupAuthorized(s.proofs[key])
      then Refused(Conflict)
      else if review.mode.PlanMode? && !PlanReviewInvalidated(s, e, c.gone, c.external) then Refused(Conflict)
      else if !e.revoked && BelongsToEffect(s, e) && !c.invalidated then Refused(Conflict)
      else if review.mode.PlanMode? && !exists k :: 0 <= k < |s.receipts| && ReviewWaits(s.receipts[k], id) then Refused(Conflict)
      else
        var failed := ReviewerResult(ReviewFailed, review.runId, "review was invalidated", []);
        var r := e.work.request;
        var recordable := BelongsToEffect(s, e) && e.slot in s.attempts && r.manifest.Some?
                          && SameManifest(r, s.attempts[e.slot].manifest, r.manifest.value);
        match if recordable then RecordOutcome(s, r, c.manifest) else Some(s)
        case None => Refused(Stale)
        case Some(recorded) =>
          Accepted(recorded.(
            effects := s.effects[id := e.(status := Completed, result := Some(failed), sealed := None)],
            receipts := Each(s.receipts, (q: Receipt) => CloseReview(q, id, s.revision + 1))), None)
  }
}
