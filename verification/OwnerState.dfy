// The durable ledger that one state owner commits, and the vocabulary of its
// receipts, effects, proofs and tombstones.
//
// A ledger holds one repository, so an issue is a number and an attempt is a
// Slot. A SHA-256 digest is modelled by the value it digests, which is what
// injectivity means; the one exception is the digest text of a runtime request,
// which the owner receives and never recomputes.
module OwnerState {
  const MAX_U64: nat := 0xFFFF_FFFF_FFFF_FFFF
  const MAX_CONTROL_RECEIPTS: nat := 128

  datatype Option<+T> = None | Some(value: T)

  datatype Error = Conflict | Stale | Tombstoned | Overflow

  datatype Slot = Slot(issue: nat, attempt: nat)

  // ---- Receipts -----------------------------------------------------------

  datatype OperatorAction =
    | Dismiss | Archive | Abandon | Remove | Cancel | Recover | ReviewPlan
    | OtherAction

  datatype Request = Request(id: string, slot: Slot, action: OperatorAction, confirm: bool)

  datatype ReceiptState = Waiting | Done

  datatype Phase =
    | NoPhase  // a receipt recorded before phases existed
    | AdmissionPending | CleanupPending | CleanupStarted | StopPending
    | TerminalAwait | TerminalPending | RetryAwait | RetryPending
    | ReviewPending | HandoffCleanup | StartCleanup | PhaseCompleted

  datatype ControlResult =
    ControlResult(requestId: string, action: OperatorAction, ok: bool, status: nat, error: string, revision: nat)

  /** What the owner last saw of an issue when it stamped a claim. */
  datatype Sighting = Sighting(generation: nat, cycle: nat, body: string)

  const NO_SIGHTING := Sighting(0, 0, "")

  /** The owner's claim on the exact attempt state that is validated outside it. */
  datatype Admission = Admission(
    epoch: nat, issueGeneration: nat, attemptGeneration: nat, manifest: Option<Manifest>,
    issueClosed: bool, remoteOnly: bool, sighting: Sighting)

  datatype Receipt = Receipt(
    request: Request, state: ReceiptState, phase: Phase, effect: nat,
    diagnostic: string, result: Option<ControlResult>, admission: Option<Admission>)

  // ---- Attempts -----------------------------------------------------------

  datatype ManifestState = Preparing | Running | Finished | Failed | Cancelled

  /** `rest` stands for the fields no guard of this model reads. */
  datatype Manifest = Manifest(slot: Slot, version: nat, state: ManifestState, updatedAt: int, launchId: string, rest: string)

  datatype AttemptRecord = AttemptRecord(generation: nat, stopEffect: nat, manifest: Manifest)

  datatype CleanupPhase = CleanupWaiting | CleanupRunning | CleanupDone

  datatype CleanupPolicy = CleanupPolicy(action: OperatorAction, publishedHead: string, unlaunched: bool)

  datatype Tombstone = Tombstone(
    action: OperatorAction, invalidatedGeneration: nat, generation: nat, revision: nat,
    phase: CleanupPhase, publishedHead: string, manifest: Option<Manifest>, policy: Option<CleanupPolicy>,
    effect: nat, handoff: bool, compensated: bool, start: bool, outcomes: set<nat>)

  // ---- Observations -------------------------------------------------------

  datatype RemoteAttempt = RemoteAttempt(present: bool, epoch: nat, sourceGeneration: nat, ownerGeneration: nat, completed: bool)

  datatype Observation = Observation(
    present: bool, generation: nat, ownerGeneration: nat, epoch: nat, cycle: nat, body: string,
    closed: bool, cancelled: bool, currentAttempt: nat, dispatchAuthorized: bool, remote: map<nat, RemoteAttempt>)

  function Seen(o: Observation): Sighting {
    Sighting(o.generation, o.cycle, o.body)
  }

  // ---- Effects ------------------------------------------------------------

  datatype RuntimeAction = Prepare | Start | Stop | Monitor | Review | Cleanup | Handoff

  datatype IssueUpdateKind =
    | TerminalFailure | Evidence | FindingsUpdate | Retry
    | ControlSnapshot | DependencyClear | MachineStatus

  datatype ReviewMode = PlanMode | ImplementationMode
  datatype ReviewPhase = RunObserve | ReviewCleanup

  datatype ReviewerRequest = ReviewerRequest(
    phase: ReviewPhase, mode: ReviewMode, target: string, runId: string, headSHA: string, digestVersion: nat)

  datatype Payload =
    | GitHubBind | GitHubPublish
    | GitHubIssueUpdate(kind: IssueUpdateKind, failedAt: int)
    | GitHubPRGovernance
    | Reviewer(review: ReviewerRequest)
    | HandoffDeliver | RetireCompleted | MonitoringCheckIn

  /** `detail` stands for the payload fields no guard of this model reads. */
  datatype EffectRequest = EffectRequest(
    slot: Slot, manifest: Option<Manifest>, sighting: Sighting, executionDigest: string, payload: Payload, detail: string)

  datatype Work = RuntimeWork(action: RuntimeAction) | ReconciliationWork(request: EffectRequest)

  datatype RequestDigest = RuntimeDigest(text: string) | ReconciliationDigest(request: EffectRequest)

  datatype ReviewStatus = Clean | Findings | ReviewFailed | Cleaned

  datatype EffectResult =
    | ReviewerResult(status: ReviewStatus, runId: string, diagnostic: string, findings: seq<string>)
    | OtherResult(detail: string)

  datatype EffectStatus = Pending | Completed | Invalidated | InvalidatedResolved

  /** The identifier of an effect is the revision of the commit that created it;
      zero stands for the empty identifier. */
  datatype Effect = Effect(
    id: nat, slot: Slot, work: Work, issueGeneration: nat, attemptGeneration: nat, epoch: nat,
    status: EffectStatus, dispatched: bool, digest: RequestDigest, reason: string,
    result: Option<EffectResult>,
    launched: bool, gate: bool, sessionRequested: bool, groupPid: nat,
    sealed: Option<EffectResult>, profile: string, confinement: nat, revoked: bool,
    supersededReviewer: nat, reviewerStopped: bool)

  datatype ProofKey = ProofKey(slot: Slot, mode: ReviewMode, target: string)

  datatype Proof = Proof(
    effect: nat, runId: string, issueGeneration: nat, attemptGeneration: nat, groupPid: nat,
    dead: bool, neverRan: bool, legacy: bool, profile: string, confinement: nat, broker: Option<nat>)

  // ---- The ledger ---------------------------------------------------------

  datatype State = State(
    epoch: nat, revision: nat,
    issueGenerations: map<nat, nat>, attemptGenerations: map<Slot, nat>,
    attempts: map<Slot, AttemptRecord>, tombstones: map<Slot, Tombstone>,
    observations: map<nat, Observation>,
    effects: map<nat, Effect>, proofs: map<ProofKey, Proof>,
    quarantined: set<nat>, profile: string,
    receipts: seq<Receipt>)

  /** The ledger of a repository that has no history. */
  const EMPTY_STATE := State(0, 0, map[], map[], map[], map[], map[], map[], map[], {}, "", [])

  /** It is opened under the worker profile of its installation, and may hold
      quarantines. */
  predicate IsNewLedger(s: State) {
    s == EMPTY_STATE.(profile := s.profile, quarantined := s.quarantined)
  }

  /** A candidate state and the effect intent it wants recorded, or the error
      that leaves the committed ledger as it was. */
  datatype Reply = Refused(error: Error) | Accepted(state: State, effect: Option<Effect>)

  function IssueGeneration(s: State, issue: nat): nat {
    if issue in s.issueGenerations then s.issueGenerations[issue] else 0
  }

  function AttemptGeneration(s: State, slot: Slot): nat {
    if slot in s.attemptGenerations then s.attemptGenerations[slot] else 0
  }

  // ---- Classification -----------------------------------------------------

  predicate IsRuntime(e: Effect, action: RuntimeAction) {
    e.work == RuntimeWork(action)
  }

  predicate IsIssueUpdate(e: Effect, kind: IssueUpdateKind) {
    e.work.ReconciliationWork? && e.work.request.payload.GitHubIssueUpdate? && e.work.request.payload.kind == kind
  }

  predicate MutatesGitHub(p: Payload) {
    p.GitHubBind? || p.GitHubPublish? || p.GitHubIssueUpdate? || p.GitHubPRGovernance?
  }

  predicate IsMachineStatus(p: Payload) {
    p.GitHubIssueUpdate? && p.kind.MachineStatus?
  }

  /** A reviewer effect that runs and observes one reviewer process. */
  predicate RunsReviewer(e: Effect) {
    e.work.ReconciliationWork? && e.work.request.payload.Reviewer? && e.work.request.payload.review.phase.RunObserve?
  }

  predicate ReviewsPlan(e: Effect) {
    e.work.ReconciliationWork? && e.work.request.payload.Reviewer? && e.work.request.payload.review.mode.PlanMode?
  }

  predicate PendingMutation(e: Effect) {
    e.status.Pending? && e.work.ReconciliationWork? && MutatesGitHub(e.work.request.payload)
  }

  function ReviewOf(e: Effect): ReviewerRequest
    requires e.work.ReconciliationWork? && e.work.request.payload.Reviewer?
  {
    e.work.request.payload.review
  }

  function ReviewProofKey(e: Effect): ProofKey
    requires e.work.ReconciliationWork? && e.work.request.payload.Reviewer?
  {
    ProofKey(e.slot, ReviewOf(e).mode, ReviewOf(e).target)
  }

  // ---- Digest text --------------------------------------------------------

  /** Sixty-four lower-case hexadecimal digits. */
  predicate ValidDigest(text: string) {
    |text| == 64 && forall i :: 0 <= i < |text| ==> '0' <= text[i] <= '9' || 'a' <= text[i] <= 'f'
  }

  const REVIEWER_CONFINEMENT_VERSION: nat := 1

  predicate CleanupAuthorized(p: Proof) {
    && p.dead
    && ((p.neverRan && p.groupPid == 0)
        || (ValidDigest(p.runId) && p.groupPid >= 2 && !p.legacy && ValidDigest(p.profile)
            && p.confinement == REVIEWER_CONFINEMENT_VERSION))
  }

  predicate Unconfined(s: State, p: Proof) {
    !p.neverRan && !CleanupAuthorized(p) && (p.legacy || !ValidDigest(p.runId) || p.profile != s.profile)
  }

  predicate IssueHasUnconfinedReviewer(s: State, issue: nat) {
    issue in s.quarantined || exists k :: k in s.proofs && k.slot.issue == issue && Unconfined(s, s.proofs[k])
  }

  predicate IssueHasPendingReviewer(s: State, issue: nat) {
    exists id :: id in s.effects && s.effects[id].slot.issue == issue
      && s.effects[id].status.Pending? && RunsReviewer(s.effects[id])
  }
}
