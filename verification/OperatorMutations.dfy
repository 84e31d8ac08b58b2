// Operator commands: reserving, aborting and failing an admission claim, keeping
// claims in step with observations, beginning the claimed mutation, and moving
// a recovery from its Stop through the terminal-failure update to the retry.
module OperatorMutations {
  import opened OwnerState
  import opened Receipts
  import opened AttemptEffects
  import opened ReconciliationEffects

  // ---- Claims --------------------------------------------------------------

  predicate Reserved(action: OperatorAction) {
    action.Dismiss? || action.Archive? || action.Abandon? || action.Remove? || action.Cancel? || action.Recover?
  }

  function Claim(q: Request, admission: Admission): Receipt {
    Receipt(q, Waiting, AdmissionPending, 0, "", None, Some(admission))
  }

  predicate IsPreparing(s: State, slot: Slot) {
    slot in s.attempts && s.attempts[slot].manifest.state.Preparing?
  }

  /** The first claim already held on the attempt. */
  function ClaimOn(rs: seq<Receipt>, slot: Slot): (found: Option<Receipt>)
    ensures found.Some? ==> found.value in rs && Claims(found.value) && found.value.request.slot == slot
    ensures found.None? ==> forall r :: r in rs && Claims(r) ==> r.request.slot != slot
  {
    if rs == [] then None
    else if Claims(rs[0]) && rs[0].request.slot == slot then Some(rs[0])
    else ClaimOn(rs[1..], slot)
  }

  function AfterAppend(appended: Option<State>, effect: Option<Effect>): Reply {
    match appended
    case None => Refused(Conflict)
    case Some(after) => Accepted(after, effect)
  }

  /** A closed issue whose completed attempt exists only remotely. */
  predicate RemoteAttemptCompleted(s: State, q: Request, o: Observation, issueGeneration: nat, attemptGeneration: nat) {
    && o.present && o.epoch <= s.epoch && o.ownerGeneration == issueGeneration && o.currentAttempt == q.slot.attempt
    && q.slot.attempt in o.remote
    && var a := o.remote[q.slot.attempt];
       a.present && a.epoch <= s.epoch && a.sourceGeneration == o.generation && a.ownerGeneration == attemptGeneration && a.completed
  }

  /** `statusAllows`: the projected operator status permits the action. */
  function Reserve(s: State, q: Request, valid: bool, statusAllows: bool): Reply {
    var slot := q.slot;
    var known := Find(s.receipts, q.id);
    if !valid || !Reserved(q.action) then Refused(Conflict)
    else if known.Some? then if known.value.request == q then Accepted(s, None) else Refused(Conflict)
    else if (q.action.Cancel? || q.action.Recover?) && IsPreparing(s, slot) then Refused(Conflict)
    else match ClaimOn(s.receipts, slot)
      case Some(held) =>
        if held.request.action != q.action || held.admission.None? then Refused(Conflict)
        else AfterAppend(AppendReceipt(s, Claim(q, held.admission.value)), None)
      case None =>
        if slot !in s.attempts then ReserveRemote(s, q)
        else
          var record := s.attempts[slot];
          var sightless := Admission(s.epoch, IssueGeneration(s, slot.issue), record.generation, Some(record.manifest), false, false, NO_SIGHTING);
          if record.generation == 0 || record.generation != AttemptGeneration(s, slot) then Refused(Stale)
          else if q.action.Dismiss? && (slot.issue !in s.observations || s.observations[slot.issue].epoch > s.epoch) then Refused(Stale)
          else if Destructive(q.action) && !statusAllows then Refused(Conflict)
          else
            var sighted := (q.action.Recover? || q.action.Dismiss?) && slot.issue in s.observations;
            var admission := if sighted then sightless.(sighting := Seen(s.observations[slot.issue])) else sightless;
            AfterAppend(AppendReceipt(s, Claim(q, admission)), None)
  }

  function ReserveRemote(s: State, q: Request): Reply {
    var slot := q.slot;
    if !q.action.Archive? && !q.action.Dismiss? then Refused(Stale)
    else if slot.issue !in s.observations
            || !RemoteAttemptCompleted(s, q, s.observations[slot.issue], IssueGeneration(s, slot.issue), AttemptGeneration(s, slot))
            || (q.action.Dismiss? && !s.observations[slot.issue].closed) then Refused(Conflict)
    else
      var o := s.observations[slot.issue];
      AfterAppend(AppendReceipt(s, Claim(q, Admission(s.epoch, IssueGeneration(s, slot.issue), AttemptGeneration(s, slot), None,
                                                     q.action.Dismiss?, true, Seen(o)))), None)
  }

  function Abort(s: State, q: Request): Reply {
    var k := IndexOf(s.receipts, q.id);
    if k == |s.receipts| then Accepted(s, None)
    else if s.receipts[k].request != q || !Claims(s.receipts[k]) || s.receipts[k].admission.None? then Refused(Conflict)
    else Accepted(s.(receipts := s.receipts[..k] + s.receipts[k + 1..]), None)
  }

  function Fail(s: State, q: Request, result: ControlResult): Reply {
    var known := Find(s.receipts, q.id);
    if known.None? then Refused(Stale)
    else if known.value.request != q || !Claims(known.value) || known.value.admission.None? || s.revision == MAX_U64
            || result.ok || result.status < 400 then Refused(Conflict)
    else Accepted(s.(receipts := FailClaims(s.receipts, known.value, result, s.revision + 1)), None)
  }

  // ---- Claims and observations ---------------------------------------------

  predicate ObservationSensitive(r: Receipt) {
    r.admission.Some? && (r.request.action.Dismiss? || r.request.action.Recover? || (r.request.action.Archive? && r.admission.value.remoteOnly))
  }

  predicate RemoteStillEligible(s: State, r: Receipt, o: Observation)
    requires r.admission.Some?
  {
    var a := r.admission.value;
    var slot := r.request.slot;
    && a.remoteOnly && (r.request.action.Archive? || r.request.action.Dismiss?)
    && slot !in s.attempts && slot !in s.tombstones
    && RemoteAttemptCompleted(s, r.request, o, a.issueGeneration, a.attemptGeneration)
    && (r.request.action.Dismiss? ==> a.issueClosed && o.closed)
    && (forall k :: k in s.proofs ==> k.slot != slot) && slot.issue !in s.quarantined
  }

  /** Whether the newest observation takes the ground of the claim away. */
  predicate ClaimLost(s: State, r: Receipt, o: Observation)
    requires r.admission.Some?
  {
    if r.admission.value.remoteOnly then !RemoteStillEligible(s, r, o)
    else (r.request.action.Recover? && !o.present) || (r.request.action.Dismiss? && o.present && !o.closed)
  }

  /** The observation collection of one cycle over the issues in `scope`. */
  datatype Collection = Collection(epoch: nat, cycle: nat, scope: set<nat>)

  predicate CollectedNow(s: State, r: Receipt, c: Collection) {
    && Claims(r) && ObservationSensitive(r) && r.request.slot.issue in c.scope && r.request.slot.issue in s.observations
    && s.observations[r.request.slot.issue].epoch == c.epoch && s.observations[r.request.slot.issue].cycle == c.cycle
    && r.admission.value.sighting != Seen(s.observations[r.request.slot.issue])
  }

  function ReconcileClaim(s: State, r: Receipt, c: Collection): Receipt {
    if !CollectedNow(s, r, c) then r
    else
      var o := s.observations[r.request.slot.issue];
      if ClaimLost(s, r, o)
      then Closed(r, Failure(r.request, 409, "attempt or issue changed; refresh and retry", s.revision + 1)).(admission := None)
      else ResightClaim(r, Seen(o))
  }

  function ReconcileClaims(s: State, c: Collection): seq<Receipt> {
    Each(s.receipts, (r: Receipt) => ReconcileClaim(s, r, c))
  }

  /** A recover claim that asked for its own collection. `collected`: the batch
      is complete, in scope, and its fact is the observation now held. */
  predicate RefreshValid(s: State, id: string, epoch: nat, collected: bool) {
    var known := Find(s.receipts, id);
    && known.Some? && known.value.request.action.Recover? && Claims(known.value) && known.value.admission.Some? && collected
    && var a, slot := known.value.admission.value, known.value.request.slot;
       && epoch == a.epoch && a.issueGeneration == IssueGeneration(s, slot.issue) && a.attemptGeneration == AttemptGeneration(s, slot)
       && slot.issue in s.observations && a.sighting == Seen(s.observations[slot.issue])
  }

  function RefreshOne(r: Receipt, previous: Admission, sighting: Sighting): Receipt {
    if Claims(r) && r.request.action.Recover? && r.admission == Some(previous) then ResightClaim(r, sighting) else r
  }

  function RefreshClaims(s: State, id: string): seq<Receipt> {
    var known := Find(s.receipts, id);
    if known.None? || known.value.admission.None? || known.value.request.slot.issue !in s.observations then s.receipts
    else
      var previous, sighting := known.value.admission.value, Seen(s.observations[known.value.request.slot.issue]);
      Each(s.receipts, (r: Receipt) => RefreshOne(r, previous, sighting))
  }

  // ---- Begin ---------------------------------------------------------------

  /** `issueClosed` and `livenessFailed` are what the service read directly;
      `statusAllows`, `manifestValid` and `external` are guards on unmodelled
      parts; `met` is the receipt order's first matching Stop. */
  datatype OperatorBegin = OperatorBegin(
    request: Request, identity: BeginIdentity, manifest: Option<Manifest>, sighting: Sighting,
    remoteOnly: bool, issueClosed: bool, livenessFailed: bool,
    cleanupDigest: Option<string>, policy: CleanupPolicy, publishedHead: string,
    runtime: Option<RuntimeBegin>, reconciliation: Option<ReconciliationBegin>,
    matchingStop: nat, handoff: bool, start: bool, statusAllows: bool, manifestValid: bool, external: bool,
    superseded: nat)

  /** The claim a begin may consume, or the reason it may not. */
  datatype Admitting = NotAdmitted | AlreadyBegun(receipt: Receipt) | AdmittedBy(claim: Admission) | NotAdmissible(error: Error)

  function Admitted(s: State, c: OperatorBegin): Admitting {
    var known := Find(s.receipts, c.request.id);
    var slot := c.request.slot;
    if known.None? then NotAdmitted
    else if known.value.request != c.request then NotAdmissible(Conflict)
    else if !Claims(known.value) || known.value.admission.None? then AlreadyBegun(known.value)
    else
      var a := known.value.admission.value;
      if a.epoch != s.epoch || a.issueGeneration != IssueGeneration(s, slot.issue) || a.attemptGeneration != AttemptGeneration(s, slot)
         || a.manifest != c.manifest || a.remoteOnly != c.remoteOnly then NotAdmissible(Stale)
      else if ObservationSensitive(known.value) && c.sighting != a.sighting then NotAdmissible(Stale)
      else if c.runtime.Some? && !CurrentFor(c.runtime.value.identity, a, s.revision) then NotAdmissible(Stale)
      else if c.reconciliation.Some? && !CurrentFor(c.reconciliation.value.identity, a, s.revision) then NotAdmissible(Stale)
      else AdmittedBy(a)
  }

  predicate CurrentFor(i: BeginIdentity, a: Admission, revision: nat) {
    i.epoch == a.epoch && 0 < i.sourceRevision <= revision && i.issueGeneration == a.issueGeneration && i.attemptGeneration == a.attemptGeneration
  }

  /** An admitted begin acts under the identity of its claim, not under the one
      it was prepared against, and on the newest observation. */
  function Readmit(s: State, c: OperatorBegin, a: Admission): OperatorBegin {
    var identity := BeginIdentity(a.epoch, s.revision, a.issueGeneration, a.attemptGeneration);
    c.(identity := identity,
       runtime := if c.runtime.Some? then Some(c.runtime.value.(identity := identity)) else None,
       reconciliation := if c.reconciliation.Some? then Some(c.reconciliation.value.(identity := identity)) else None,
       sighting := if c.request.slot.issue in s.observations then Seen(s.observations[c.request.slot.issue]) else c.sighting)
  }

  /** Whether the effect is of the kind the receipt's phase works on. */
  predicate MatchesEffect(r: Receipt, e: Effect) {
    && e.slot == r.request.slot
    && match r.request.action
       case Dismiss => IsRuntime(e, Cleanup)
       case Archive => IsRuntime(e, Cleanup)
       case Abandon => IsRuntime(e, Cleanup)
       case Remove => IsRuntime(e, Cleanup)
       case Cancel => IsRuntime(e, Stop)
       case Recover =>
         if r.phase.StopPending? || r.phase.TerminalAwait? then IsRuntime(e, Stop)
         else if r.phase.TerminalPending? || r.phase.RetryAwait? then IsIssueUpdate(e, TerminalFailure)
         else if r.phase.RetryPending? || r.phase.PhaseCompleted? then IsIssueUpdate(e, Retry)
         else false
       case ReviewPlan => ReviewsPlan(e)
       case OtherAction => false
  }

  /** The state the effect of a receipt is in. */
  function BoundStatus(r: Receipt): EffectStatus {
    if r.state.Done? || r.phase.TerminalAwait? || r.phase.RetryAwait? then Completed else Pending
  }

  function Begin(s: State, c: OperatorBegin): Reply {
    if !c.external then Refused(Conflict)
    else match Admitted(s, c)
      case NotAdmissible(error) => Refused(error)
      case AlreadyBegun(receipt) => EffectOf(s, receipt)
      case NotAdmitted => BeginWork(s, c, false)
      case AdmittedBy(claim) => BeginWork(s.(receipts := Without(s.receipts, c.request.id)), Readmit(s, c, claim), true)
  }

  function EffectOf(s: State, r: Receipt): Reply {
    if r.state.Done? then Accepted(s, None)
    else if r.effect !in s.effects || s.effects[r.effect].status != BoundStatus(r) || !MatchesEffect(r, s.effects[r.effect]) then Refused(Conflict)
    else Accepted(s, Some(s.effects[r.effect]))
  }

  function Record(s: State, q: Request, phase: Phase, effect: nat): Option<State> {
    AppendReceipt(s, Receipt(q, Waiting, phase, effect, "", None, None))
  }

  function RecordDone(s: State, q: Request, effect: nat, revision: nat): Option<State> {
    AppendReceipt(s, Receipt(q, Done, PhaseCompleted, effect, "", Some(Success(q, revision)), None))
  }

  function BeginWork(s: State, c: OperatorBegin, admitted: bool): Reply {
    var q, slot := c.request, c.request.slot;
    var i := c.identity;
    if i.epoch != s.epoch || i.sourceRevision == 0 || i.sourceRevision > s.revision then Refused(Stale)
    else if i.issueGeneration != IssueGeneration(s, slot.issue) then Refused(Stale)
    else if c.remoteOnly then BeginRemote(s, c, admitted)
    else if c.manifest.None? || !c.manifestValid || c.manifest.value.slot != slot then Refused(Conflict)
    else if slot in s.tombstones then
      var t := s.tombstones[slot];
      if i.attemptGeneration != t.invalidatedGeneration && i.attemptGeneration != t.generation then Refused(Stale)
      else Replay(s, c, t)
    else if (q.action.Cancel? || q.action.Recover?) && IsPreparing(s, slot) then Refused(Conflict)
    else if !ObservationSupports(s, c, admitted) then Refused(Stale)
    else match if q.action.Recover? then AttachRecovery(s, c) else None
      case Some(reply) => reply
      case None =>
        if (q.action.Cancel? || q.action.Recover?) && MatchingStop(s, c)
        then AfterAppend(Record(s, q, StopPending, c.matchingStop), Some(s.effects[c.matchingStop]))
        else if i.attemptGeneration != AttemptGeneration(s, slot) then Refused(Stale)
        else if slot !in s.attempts || s.attempts[slot].generation != i.attemptGeneration
                || (s.attempts[slot].manifest != c.manifest.value
                    && !(q.action.ReviewPlan? && SameManifestExceptUpdatedAt(s.attempts[slot].manifest, c.manifest.value))) then Refused(Stale)
        else if !c.statusAllows then Refused(Conflict)
        else BeginFresh(s, c)
  }

  predicate ObservationSupports(s: State, c: OperatorBegin, admitted: bool) {
    var slot := c.request.slot;
    && slot.issue in s.observations
    && var o := s.observations[slot.issue];
       var orphan := !o.present && ((c.request.action.Dismiss? && c.issueClosed) || c.request.action.Abandon?) && o.epoch <= s.epoch;
       (o.present || orphan) && c.sighting == Seen(o) && (o.epoch == s.epoch || (admitted && o.epoch <= s.epoch))
  }

  predicate MatchingStop(s: State, c: OperatorBegin) {
    && c.runtime.Some? && c.runtime.value.action.Stop? && c.runtime.value.identity == c.identity
    && PendingStopOn(s, c.request.slot, c.matchingStop)
    && var e := s.effects[c.matchingStop];
       && e.issueGeneration == c.identity.issueGeneration && e.attemptGeneration == AttemptGeneration(s, e.slot)
       && e.digest == RuntimeDigest(c.runtime.value.digest) && e.reason == c.runtime.value.reason && Some(c.runtime.value.manifest) == c.manifest
  }

  // ---- Joining a recovery that is under way --------------------------------

  predicate RecoveryUnderWay(r: Receipt, slot: Slot) {
    r.request.action.Recover? && r.state.Waiting? && r.request.slot == slot && !r.phase.AdmissionPending?
  }

  function FirstRecovery(rs: seq<Receipt>, slot: Slot): (found: Option<Receipt>)
    ensures found.Some? ==> found.value in rs && RecoveryUnderWay(found.value, slot)
  {
    if rs == [] then None else if RecoveryUnderWay(rs[0], slot) then Some(rs[0]) else FirstRecovery(rs[1..], slot)
  }

  predicate CurrentRetry(s: State, slot: Slot, id: nat) {
    && id in s.effects && s.effects[id].slot == slot && IsIssueUpdate(s.effects[id], Retry)
    && s.effects[id].issueGeneration == IssueGeneration(s, slot.issue) && s.effects[id].attemptGeneration == AttemptGeneration(s, slot)
    && (s.effects[id].status.Pending? || s.effects[id].status.Completed?)
  }

  function RetriesOf(s: State, slot: Slot): set<nat> {
    set id | id in s.effects && CurrentRetry(s, slot, id)
  }

  /** None: there is nothing to join. `external` covers the manifest base. */
  function AttachRecovery(s: State, c: OperatorBegin): Option<Reply> {
    var q, slot, i := c.request, c.request.slot, c.identity;
    if c.cleanupDigest.Some? || c.publishedHead != "" || slot !in s.attempts then None
    else match FirstRecovery(s.receipts, slot)
      case Some(r) =>
        var generation := AttemptGeneration(s, slot);
        if r.effect !in s.effects || !MatchesEffect(r, s.effects[r.effect]) || i.issueGeneration != s.effects[r.effect].issueGeneration
           || s.effects[r.effect].attemptGeneration != generation
           || (i.attemptGeneration != generation && i.attemptGeneration + 1 != generation) then Some(Refused(Conflict))
        else Some(AfterAppend(Record(s, q, r.phase, r.effect), Some(s.effects[r.effect])))
      case None =>
        var retries := RetriesOf(s, slot);
        if |retries| != 1 then None
        else
          var only := The(retries);
          var e := s.effects[only];
          if i.issueGeneration != e.issueGeneration || i.attemptGeneration != e.attemptGeneration then Some(Refused(Conflict))
          else if e.status.Completed? then Some(AfterAppend(RecordDone(s, q, only, s.revision + 1), Some(e)))
          else Some(AfterAppend(Record(s, q, RetryPending, only), Some(e)))
  }

  /** The member of a singleton. */
  function The(ids: set<nat>): (id: nat)
    requires |ids| == 1
    ensures id in ids
  {
    OneMember(ids);
    var id :| id in ids;
    id
  }

  lemma OneMember(ids: set<nat>)
    requires |ids| == 1
    ensures exists id :: id in ids
    ensures forall a, b | a in ids && b in ids :: a == b
  {
    forall a, b | a in ids && b in ids ensures a == b {
      assert |ids - {a}| == 0;
      assert b !in ids - {a};
    }
    assert ids != {};
  }

  // ---- Fresh work ----------------------------------------------------------

  function InvalidationOf(c: OperatorBegin): Invalidation {
    Invalidation(c.request.slot, c.identity.issueGeneration, c.identity.attemptGeneration, c.request.action, CleanupWaiting,
                 c.publishedHead, c.manifest, Some(c.policy), c.cleanupDigest, c.handoff, c.start, c.external, c.superseded)
  }

  function Invalidate(s: State, c: OperatorBegin): Reply {
    InvalidateAttempt(s, InvalidationOf(c))
  }

  /** Close the attempt's other workflows and record this one. */
  function SupersedeAndRecord(begun: Reply, q: Request, phase: Phase): Reply {
    match begun
    case Refused(error) => Refused(error)
    case Accepted(after, effect) => AfterAppend(Record(Supersede(after, q.slot, q.action), q, phase, 0), effect)
  }

  function RecordBegun(begun: Reply, q: Request, phase: Phase): Reply {
    match begun
    case Refused(error) => Refused(error)
    case Accepted(after, effect) => AfterAppend(Record(after, q, phase, 0), effect)
  }

  function CleanupPhaseFor(c: OperatorBegin): Phase {
    if !c.request.action.Dismiss? then CleanupPending
    else if c.start then StartCleanup else if c.handoff then HandoffCleanup else CleanupPending
  }

  function BeginFresh(s: State, c: OperatorBegin): Reply
    requires c.manifest.Some?
  {
    var q, manifest := c.request, c.manifest.value;
    match q.action
    case OtherAction => Refused(Conflict)
    case Cancel =>
      if !manifest.state.Running? || c.runtime.None? || c.reconciliation.Some? || !c.runtime.value.action.Stop? || c.runtime.value.manifest != manifest
         || c.cleanupDigest.Some? || c.publishedHead != "" then Refused(Conflict)
      else if c.runtime.value.identity != c.identity then Refused(Stale)
      else SupersedeAndRecord(BeginRuntime(s, AtRevision(s, c.runtime.value)), q, StopPending)
    case Recover =>
      if c.cleanupDigest.Some? || c.publishedHead != "" then Refused(Conflict)
      else if c.runtime.Some? then
        if !manifest.state.Running? || !c.livenessFailed || c.reconciliation.Some? || !c.runtime.value.action.Stop? || c.runtime.value.manifest != manifest
        then Refused(Conflict)
        else if c.runtime.value.identity != c.identity then Refused(Stale)
        else SupersedeAndRecord(BeginRuntime(s, AtRevision(s, c.runtime.value)), q, StopPending)
      else if c.livenessFailed || !(manifest.state.Failed? || manifest.state.Cancelled?) || c.reconciliation.None?
              || !IsRetryRequest(c.reconciliation.value.request) then Refused(Conflict)
      else if c.reconciliation.value.identity != c.identity then Refused(Stale)
      else RecordBegun(BeginReconciliation(s, c.reconciliation.value.(identity := c.identity.(sourceRevision := s.revision))), q, RetryPending)
    case ReviewPlan =>
      if c.reconciliation.None? || c.runtime.Some? || c.cleanupDigest.Some? || c.publishedHead != ""
         || !(manifest.state.Running? || manifest.state.Finished?) || !IsPlanReviewRequest(c.reconciliation.value.request) then Refused(Conflict)
      else if c.reconciliation.value.identity != c.identity then Refused(Stale)
      else if s.revision == MAX_U64 then Refused(Overflow)
      else RecordBegun(BeginReconciliation(s, c.reconciliation.value.(identity := c.identity.(sourceRevision := s.revision))), q, ReviewPending)
    case _ =>
      if c.cleanupDigest.None? || c.policy.action != q.action || c.runtime.Some? || c.reconciliation.Some?
         || (q.action.Dismiss? && !c.issueClosed) || (q.action.Archive? && !manifest.state.Finished?)
         || (!q.action.Remove? && c.publishedHead != "") || c.policy.publishedHead != c.publishedHead
         || (c.policy.unlaunched && !(q.action.Abandon? && manifest.state.Preparing?)) then Refused(Conflict)
      else SupersedeAndRecord(Invalidate(s, c), q, CleanupPhaseFor(c))
  }

  function AtRevision(s: State, b: RuntimeBegin): RuntimeBegin {
    b.(identity := b.identity.(sourceRevision := s.revision))
  }

  predicate IsRetryRequest(r: EffectRequest) {
    r.payload.GitHubIssueUpdate? && r.payload.kind.Retry?
  }

  predicate IsPlanReviewRequest(r: EffectRequest) {
    r.payload.Reviewer? && r.payload.review.mode.PlanMode?
  }

  /** A same-action replay is bound to the tombstone, not to an observation that
      may already have disappeared. */
  function Replay(s: State, c: OperatorBegin, t: Tombstone): Reply {
    var q := c.request;
    if t.action != q.action || t.manifest.None? || t.manifest != c.manifest || t.publishedHead != c.publishedHead then Refused(Conflict)
    else if q.action.Dismiss? && t.start then AfterAppend(Record(s, q, StartCleanup, t.effect), None)
    else if q.action.Dismiss? && t.handoff && !t.compensated then AfterAppend(Record(s, q, HandoffCleanup, t.effect), None)
    else if q.action.Dismiss? && t.effect == 0 then
      if c.cleanupDigest.Some? || t.policy.Some? || !t.phase.CleanupDone? then Refused(Conflict)
      else AfterAppend(RecordDone(s, q, 0, 0), None)
    else if t.effect !in s.effects || c.cleanupDigest.None? || !IsRuntime(s.effects[t.effect], Cleanup)
            || s.effects[t.effect].digest != RuntimeDigest(c.cleanupDigest.value) || t.policy != Some(c.policy) then Refused(Conflict)
    else if t.phase.CleanupDone? then AfterAppend(RecordDone(s, q, t.effect, 0), None)
    else if !s.effects[t.effect].status.Pending? then Refused(Conflict)
    else AfterAppend(Record(s, q, if t.phase.CleanupRunning? then CleanupStarted else CleanupPending, t.effect), Some(s.effects[t.effect]))
  }

  function BeginRemote(s: State, c: OperatorBegin, admitted: bool): Reply {
    var q, slot := c.request, c.request.slot;
    if slot in s.tombstones then
      var t := s.tombstones[slot];
      if !(q.action.Archive? || q.action.Dismiss?) || t.action != q.action || t.manifest.Some? || !t.phase.CleanupDone? || t.effect != 0
         || t.policy.Some? || t.publishedHead != "" || c.identity.attemptGeneration != t.generation
         || AttemptGeneration(s, slot) != t.generation || c.manifest.Some? then Refused(Conflict)
      else AfterAppend(RecordDone(s, q, 0, 0), None)
    else if !(q.action.Archive? || q.action.Dismiss?) || (q.action.Dismiss? && !c.issueClosed) || c.manifest.Some? || c.cleanupDigest.Some?
            || c.runtime.Some? || c.reconciliation.Some? || c.publishedHead != "" || slot.issue !in s.observations then Refused(Stale)
    else
      var o := s.observations[slot.issue];
      if c.issueClosed != o.closed || (o.epoch != s.epoch && !admitted) || c.sighting != Seen(o)
         || !RemoteAttemptCompleted(s, q, o, o.ownerGeneration, c.identity.attemptGeneration)
         || (o.remote[slot.attempt].epoch != s.epoch && !admitted) || AttemptGeneration(s, slot) != c.identity.attemptGeneration then Refused(Stale)
      else if slot in s.attempts then Refused(Conflict)
      else match InvalidateAttempt(s, Invalidation(slot, IssueGeneration(s, slot.issue), c.identity.attemptGeneration, q.action, CleanupDone,
                                                   "", None, None, None, false, false, c.external, 0))
        case Refused(error) => Refused(error)
        case Accepted(after, _) => AfterAppend(RecordDone(after, q, 0, 0), None)
  }

  // ---- Moving begun work ---------------------------------------------------

  function StartCleanupWork(s: State, i: EffectIdentity, external: bool): Reply {
    if i.id !in s.effects || !IsRuntime(s.effects[i.id], Cleanup) || !s.effects[i.id].status.Pending? || !Identifies(i, s.effects[i.id]) then Refused(Stale)
    else
      var e := s.effects[i.id];
      if !external || e.slot !in s.tombstones || s.tombstones[e.slot].effect != e.id || s.tombstones[e.slot].phase.CleanupDone? then Refused(Conflict)
      else if s.tombstones[e.slot].phase.CleanupRunning? then Accepted(s, None)
      else
        Accepted(s.(tombstones := s.tombstones[e.slot := s.tombstones[e.slot].(phase := CleanupRunning)],
                    receipts := Each(s.receipts, (r: Receipt) => StartCleanupOne(r, e.id))), None)
  }

  function StartCleanupOne(r: Receipt, effect: nat): Receipt {
    if r.effect == effect && r.state.Waiting? then r.(phase := CleanupStarted, diagnostic := "") else r
  }

  /** Finishing an operator's runtime effect moves the recoveries that waited for
      its Stop, or closes every receipt bound to it. */
  function FinishOperatorRuntime(s: State, c: RuntimeFinish): Reply {
    match FinishRuntime(s, c)
    case Refused(error) => Refused(error)
    case Accepted(after, _) =>
      if Advances(after.receipts, c.identity.id, StopPending)
      then Accepted(after.(receipts := Advance(after.receipts, c.identity.id, StopPending, TerminalAwait)), None)
      else Accepted(after.(receipts := CompleteBound(after.receipts, c.identity.id, s.revision + 1)), None)
  }

  datatype RecoveryAdvance = RecoveryAdvance(id: string, identity: BeginIdentity, begin: ReconciliationBegin)

  function NextUpdate(p: Phase): Option<IssueUpdateKind> {
    if p.RetryAwait? then Some(Retry) else if p.TerminalAwait? then Some(TerminalFailure) else None
  }

  function AdvanceRecovery(s: State, c: RecoveryAdvance): Reply {
    var known := Find(s.receipts, c.id);
    var i := c.identity;
    if known.None? || !known.value.request.action.Recover? || known.value.state.Done? || i.epoch != s.epoch || i.sourceRevision == 0 || i.sourceRevision > s.revision
    then Refused(Stale)
    else
      var r := known.value;
      var slot := r.request.slot;
      var request := c.begin.request;
      var next := NextUpdate(r.phase);
      if r.effect !in s.effects || !s.effects[r.effect].status.Completed? || !MatchesEffect(r, s.effects[r.effect]) then Refused(Conflict)
      else if next.None? || !request.payload.GitHubIssueUpdate? || request.payload.kind != next.value || request.slot != slot then Refused(Conflict)
      else if i.issueGeneration != IssueGeneration(s, slot.issue) || i.attemptGeneration != AttemptGeneration(s, slot) then Refused(Stale)
      else if slot in s.tombstones then Refused(Tombstoned)
      else if c.begin.identity != i then Refused(Stale)
      else match BeginReconciliation(s, c.begin.(identity := i.(sourceRevision := s.revision)))
        case Refused(error) => Refused(error)
        case Accepted(after, effect) =>
          var to := if r.phase.RetryAwait? then RetryPending else TerminalPending;
          Accepted(after.(receipts := Each(after.receipts, (q: Receipt) => UnbindOne(q, r, to))), effect)
  }

  /** The receipts that share the finished effect wait for the next one. */
  function UnbindOne(q: Receipt, r: Receipt, to: Phase): Receipt {
    if q.request.action.Recover? && q.state.Waiting? && q.phase == r.phase && q.effect == r.effect
    then q.(phase := to, effect := 0, diagnostic := "") else q
  }

  /** The requests that the commit binds to the effect of the next phase. */
  predicate AwaitsBinding(r: Receipt) {
    r.request.action.Recover? && r.state.Waiting? && r.effect == 0 && (r.phase.TerminalPending? || r.phase.RetryPending?)
  }

  function RecordDiagnostic(s: State, id: string, phase: Phase, effect: nat, diagnostic: string): Reply {
    var known := Find(s.receipts, id);
    if !(phase.TerminalAwait? || phase.RetryAwait? || phase.HandoffCleanup? || phase.StartCleanup?) || diagnostic == "" then Refused(Conflict)
    else if known.None? || known.value.state.Done? || known.value.phase != phase || known.value.effect != effect then Refused(Stale)
    else Accepted(s.(receipts := Each(s.receipts, (r: Receipt) => DiagnoseOne(r, phase, effect, diagnostic))), None)
  }

  function DiagnoseOne(r: Receipt, phase: Phase, effect: nat, diagnostic: string): Receipt {
    if r.state.Waiting? && r.phase == phase && r.effect == effect then r.(diagnostic := diagnostic) else r
  }

  /** `proved`: the compensation proof names the tombstone's own candidate. */
  function CompleteHandoff(s: State, id: string, proved: bool): Reply {
    var known := Find(s.receipts, id);
    if known.None? then Refused(Stale)
    else if !known.value.request.action.Dismiss? then Refused(Conflict)
    else
      var slot := known.value.request.slot;
      if slot !in s.tombstones || !s.tombstones[slot].action.Dismiss? || !s.tombstones[slot].handoff || !proved then Refused(Stale)
      else
        var t := s.tombstones[slot];
        if t.compensated then Accepted(s, None)
        else if !exists k :: 0 <= k < |s.receipts| && AwaitsCompensation(s.receipts[k], slot) then Refused(Conflict)
        else
          Accepted(s.(tombstones := s.tombstones[slot := t.(compensated := true)],
                      receipts := Each(s.receipts, (r: Receipt) => CompensateOne(r, slot, t.effect, s.revision + 1))), None)
  }

  predicate AwaitsCompensation(r: Receipt, slot: Slot) {
    r.state.Waiting? && r.phase.HandoffCleanup? && r.request.slot == slot
  }

  function CompensateOne(r: Receipt, slot: Slot, effect: nat, revision: nat): Receipt {
    if !AwaitsCompensation(r, slot) then r
    else if effect == 0 then Closed(r, Success(r.request, revision))
    else r.(phase := CleanupPending, diagnostic := "")
  }
}
