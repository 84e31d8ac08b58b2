// The single state owner: one command at a time is applied to a clone of the
// committed ledger, the candidate is stamped with the next revision, and a
// validation gate decides whether it becomes the committed ledger.
module StateOwner {
  import opened OwnerState
  import opened Receipts
  import opened AttemptEffects
  import opened ReconciliationEffects
  import opened OperatorMutations

  datatype Command =
    | OwnerStart(start: Startup)
    | ReserveAdmission(request: Request, valid: bool, statusAllows: bool)
    | AbortAdmission(request: Request)
    | FailAdmission(request: Request, failure: ControlResult)
    | Collect(observations: map<nat, Observation>, collection: Collection)
    | Refresh(observations: map<nat, Observation>, requestId: string, epoch: nat, collected: bool)
    | BeginMutation(begin: OperatorBegin)
    | StartCleanupCommand(identity: EffectIdentity, external: bool)
    | FinishOperatorRuntimeCommand(finishRuntime: RuntimeFinish)
    | FinishRuntimeCommand(finishRuntime: RuntimeFinish)
    | AdvanceRecoveryCommand(advance: RecoveryAdvance)
    | DiagnoseOperator(requestId: string, phase: Phase, effect: nat, diagnostic: string)
    | CompleteCompensation(requestId: string, proved: bool)
    | BeginRuntimeCommand(beginRuntime: RuntimeBegin)
    | InvalidateCommand(invalidation: Invalidation)
    | BeginReconciliationCommand(beginReconciliation: ReconciliationBegin)
    | AuthorizeReconciliationCommand(identity: EffectIdentity, external: bool)
    | ResolveInvalidatedCommand(identity: EffectIdentity, external: bool)
    | RequestSessionCommand(identity: EffectIdentity, external: bool)
    | MarkRunningCommand(identity: EffectIdentity, groupPid: nat, broker: nat, external: bool)
    | ProveDeadCommand(identity: EffectIdentity, groupPid: nat, neverRan: bool)
    | SealCommand(identity: EffectIdentity, result: EffectResult, terminal: Terminal, external: bool)
    | BindStoppingCommand(identity: EffectIdentity, groupPid: nat, broker: nat, superseded: ProofKey, certificate: Proof, external: bool)
    | MarkStoppedCommand(identity: EffectIdentity, superseded: ProofKey, certificate: Proof, external: bool)
    | FinishReconciliationCommand(finish: ReconciliationFinish)
    | SupersedeReviewCommand(supersession: ReviewSupersession)
    | OtherCommand(other: Environment)

  /** What a start of the owner brings or finds: the worker profile of the new
      process, the quarantines and reviewer proofs that its migrations and the
      boot reconciliation leave, the pending mutations that may already have been
      dispatched, and the Stops that their attempts had not recorded. */
  datatype Startup = Startup(
    profile: string, quarantined: set<nat>, proofs: map<ProofKey, Proof>, dispatched: set<nat>, stops: map<Slot, nat>)

  predicate Unrecorded(s: State, st: Startup, slot: Slot) {
    && slot in s.attempts && s.attempts[slot].stopEffect == 0 && slot in st.stops && PendingStopOn(s, slot, st.stops[slot])
    && s.effects[st.stops[slot]].attemptGeneration == s.attempts[slot].generation
  }

  function StartOwner(s: State, st: Startup): Reply {
    if s.epoch == MAX_U64 then Refused(Overflow)
    else
      Accepted(s.(epoch := s.epoch + 1, profile := st.profile, quarantined := st.quarantined, proofs := st.proofs,
                  effects := map id | id in s.effects ::
                    s.effects[id].(dispatched := s.effects[id].dispatched || (id in st.dispatched && PendingMutation(s.effects[id]))),
                  attempts := map k | k in s.attempts ::
                    if Unrecorded(s, st, k) then s.attempts[k].(stopEffect := st.stops[k]) else s.attempts[k],
                  receipts := RestampClaims(s.receipts, s.epoch + 1)), None)
  }

  /** What the commands outside this model can do to the modelled ledger: replace
      observations, raise issue generations, drop effects, invalidate or dispatch
      pending ones, and forget reviewer proofs. */
  datatype Environment = Environment(
    observations: map<nat, Observation>, raised: map<nat, nat>,
    dropped: set<nat>, invalidated: set<nat>, dispatched: set<nat>, forgotten: set<ProofKey>)

  function DisturbEffect(e: Effect, c: Environment): Effect {
    e.(status := if e.id in c.invalidated && e.status.Pending? then Invalidated else e.status,
       dispatched := e.dispatched || e.id in c.dispatched)
  }

  function Disturb(s: State, c: Environment): Reply {
    if forall issue :: issue in c.raised ==> IssueGeneration(s, issue) <= c.raised[issue] then
      Accepted(s.(observations := c.observations, issueGenerations := s.issueGenerations + c.raised,
                  effects := map id | id in s.effects && id !in c.dropped :: DisturbEffect(s.effects[id], c),
                  proofs := s.proofs - c.forgotten), None)
    else Refused(Conflict)
  }

  function Observe(s: State, observations: map<nat, Observation>): State {
    s.(observations := observations)
  }

  /** The candidate a command produces, before it is stamped. */
  function Apply(s: State, c: Command): Reply {
    match c
    case OwnerStart(start) => StartOwner(s, start)
    case ReserveAdmission(q, valid, statusAllows) => Reserve(s, q, valid, statusAllows)
    case AbortAdmission(q) => Abort(s, q)
    case FailAdmission(q, result) => Fail(s, q, result)
    case Collect(observations, collection) =>
      var seen := Observe(s, observations);
      Accepted(seen.(receipts := ReconcileClaims(seen, collection)), None)
    case Refresh(observations, id, epoch, collected) =>
      if !RefreshValid(s, id, epoch, collected) then Refused(Stale)
      else
        var seen := Observe(s, observations);
        Accepted(seen.(receipts := RefreshClaims(seen, id)), None)
    case BeginMutation(b) => JoinCoalesced(s, b, Begin(s, b))
    case StartCleanupCommand(i, external) => StartCleanupWork(s, i, external)
    case FinishOperatorRuntimeCommand(f) => FinishOperatorRuntime(s, f)
    case FinishRuntimeCommand(f) => FinishRuntime(s, f)
    case AdvanceRecoveryCommand(a) => AdvanceRecovery(s, a)
    case DiagnoseOperator(id, phase, effect, diagnostic) => RecordDiagnostic(s, id, phase, effect, diagnostic)
    case CompleteCompensation(id, proved) => CompleteHandoff(s, id, proved)
    case BeginRuntimeCommand(b) => BeginRuntime(s, b)
    case InvalidateCommand(i) => InvalidateAttempt(s, i)
    case BeginReconciliationCommand(b) => BeginReconciliation(s, b)
    case AuthorizeReconciliationCommand(i, external) => AuthorizeReconciliation(s, i, external)
    case ResolveInvalidatedCommand(i, external) => ResolveInvalidated(s, i, external)
    case RequestSessionCommand(i, external) => RequestReviewerSession(s, i, external)
    case MarkRunningCommand(i, pid, broker, external) => MarkReviewerRunning(s, i, pid, broker, external)
    case ProveDeadCommand(i, pid, neverRan) => ProveReviewerDead(s, i, pid, neverRan)
    case SealCommand(i, result, terminal, external) => SealReviewerResult(s, i, result, terminal, external)
    case BindStoppingCommand(i, pid, broker, key, certificate, external) => BindReviewerStopping(s, i, pid, broker, key, certificate, external)
    case MarkStoppedCommand(i, key, certificate, external) => MarkReviewerStopped(s, i, key, certificate, external)
    case FinishReconciliationCommand(f) => FinishReconciliation(s, f)
    case SupersedeReviewCommand(r) => SupersedeReview(s, r)
    case OtherCommand(o) => Disturb(s, o)
  }

  // ---- Coalesced begins ----------------------------------------------------

  /** The other requests whose claim equals the begun one. */
  function Followers(s: State, q: Request): seq<Request> {
    var known := Find(s.receipts, q.id);
    if known.None? || !Claims(known.value) || known.value.admission.None? then []
    else Coalesced(s.receipts, known.value)
  }

  function JoinCoalesced(s: State, c: OperatorBegin, begun: Reply): Reply {
    match begun
    case Refused(error) => Refused(error)
    case Accepted(after, effect) =>
      var followers := Followers(s, c.request);
      if |followers| <= 1 then begun
      else
        var primary := Find(after.receipts, c.request.id);
        if primary.None? || primary.value.phase.AdmissionPending? then Refused(Conflict)
        else AfterAppend(AttachAll(after, primary.value, followers), effect)
  }

  /** Each follower's claim is replaced by a copy of the begun receipt. */
  function AttachAll(s: State, primary: Receipt, followers: seq<Request>): Option<State>
    decreases |followers|
  {
    if followers == [] then Some(s)
    else if followers[0].id == primary.request.id then AttachAll(s, primary, followers[1..])
    else match AppendReceipt(s.(receipts := Without(s.receipts, followers[0].id)), Attached(primary, followers[0]))
      case None => None
      case Some(after) => AttachAll(after, primary, followers[1..])
  }

  function Attached(primary: Receipt, q: Request): Receipt {
    primary.(request := q,
             result := if primary.result.Some? then Some(primary.result.value.(requestId := q.id, action := q.action)) else None)
  }

  // ---- Stamping ------------------------------------------------------------

  predicate BindsRequest(s: State, c: Command, r: Receipt) {
    match c
    case BeginMutation(b) =>
      || r.request.id == b.request.id
      || (|Followers(s, b.request)| > 1 && exists k :: 0 <= k < |Followers(s, b.request)| && Followers(s, b.request)[k].id == r.request.id)
    case AdvanceRecoveryCommand(_) => AwaitsBinding(r)
    case _ => false
  }

  function BindOne(s: State, c: Command, r: Receipt, effect: Option<nat>, revision: nat): Receipt {
    if BindsRequest(s, c, r) then
      r.(effect := if effect.Some? then effect.value else r.effect,
         result := if r.result.Some? then Some(r.result.value.(revision := revision)) else None)
    else r
  }

  predicate Revocable(e: Effect) {
    e.status.Pending? && RunsReviewer(e) && ReviewsPlan(e)
  }

  function RevokeOne(e: Effect, revoked: set<nat>): Effect {
    if e.id in revoked && Revocable(e) then e.(revoked := true) else e
  }

  function StampTombstone(t: Tombstone, slot: Slot, effect: Option<Effect>, revision: nat): Tombstone {
    if t.revision != 0 then t
    else t.(revision := revision, effect := if effect.Some? && effect.value.id == 0 && effect.value.slot == slot then revision else t.effect)
  }

  predicate IsNew(effect: Option<Effect>) {
    effect.Some? && effect.value.id == 0
  }

  function StampEffects(effects: map<nat, Effect>, effect: Option<Effect>, revision: nat, revoked: set<nat>): map<nat, Effect> {
    var all := if IsNew(effect) then effects[revision := effect.value.(id := revision)] else effects;
    map k | k in all :: RevokeOne(all[k], revoked)
  }

  /** An attempt that a new Stop works on remembers it. */
  function StampAttempts(attempts: map<Slot, AttemptRecord>, effect: Option<Effect>, revision: nat): map<Slot, AttemptRecord> {
    if IsNew(effect) && IsRuntime(effect.value, Stop) && effect.value.slot in attempts
       && attempts[effect.value.slot].generation == effect.value.attemptGeneration
    then attempts[effect.value.slot := attempts[effect.value.slot].(stopEffect := revision)]
    else attempts
  }

  /** The candidate as it would be persisted. A new effect takes the new revision
      as its identifier; `revoked` are the plan reviews that the observations no
      longer support. */
  function Stamp(s: State, c: Command, candidate: State, effect: Option<Effect>, revoked: set<nat>): State {
    var revision := candidate.revision + 1;
    var id := if effect.None? then None else if IsNew(effect) then Some(revision) else Some(effect.value.id);
    candidate.(
      revision := revision,
      attempts := StampAttempts(candidate.attempts, effect, revision),
      effects := StampEffects(candidate.effects, effect, revision, revoked),
      tombstones := map k | k in candidate.tombstones :: StampTombstone(candidate.tombstones[k], k, effect, revision),
      receipts := Each(candidate.receipts, (r: Receipt) => BindOne(s, c, r, id, revision)))
  }

  // ---- The commit gate -----------------------------------------------------

  ghost predicate BoundToEffect(s: State, r: Receipt) {
    r.effect != 0 ==> r.effect in s.effects && s.effects[r.effect].status == BoundStatus(r) && MatchesEffect(r, s.effects[r.effect])
  }

  ghost predicate CurrentClaim(s: State, r: Receipt) {
    Claims(r) ==>
      && r.admission.Some? && r.admission.value.epoch == s.epoch
      && r.admission.value.issueGeneration == IssueGeneration(s, r.request.slot.issue)
      && r.admission.value.attemptGeneration == AttemptGeneration(s, r.request.slot)
  }

  /** The part of the validation of a persisted ledger that speaks of receipts
      and effect keys. The whole validation refuses more. */
  ghost predicate Gate(s: State) {
    && LedgerInv(s.receipts)
    && (forall i :: 0 <= i < |s.receipts| ==> BoundToEffect(s, s.receipts[i]) && CurrentClaim(s, s.receipts[i]))
    && EffectsKeyed(s)
  }

  ghost predicate EffectsKeyed(s: State) {
    forall id :: id in s.effects ==> s.effects[id].id == id && 0 < id <= s.revision
  }

  datatype Move = Move(command: Command, revoked: set<nat>)

  /** What a command would persist: None when it is refused. A command that
      changes nothing is answered without a commit. */
  function Proposed(s: State, m: Move): Option<State> {
    match Apply(s, m.command)
    case Refused(_) => None
    case Accepted(candidate, effect) =>
      if candidate == s && (effect.None? || effect.value.id != 0) then Some(s)
      else if candidate.revision == MAX_U64 then None
      else Some(Stamp(s, m.command, candidate, effect, m.revoked))
  }

  ghost predicate Step(s: State, m: Move, next: State) {
    Proposed(s, m) == Some(next) && (next == s || Gate(next))
  }

  /** A run from a new ledger: `states[i]` is committed before `moves[i]`. */
  ghost predicate IsRun(states: seq<State>, moves: seq<Move>) {
    && |states| == |moves| + 1
    && IsNewLedger(states[0])
    && forall i :: 0 <= i < |moves| ==> Step(states[i], moves[i], states[i + 1])
  }

  lemma {:induction false} RunPassesGate(states: seq<State>, moves: seq<Move>, n: nat)
    requires IsRun(states, moves) && n < |states|
    ensures Gate(states[n])
  {
    hide Proposed;
    if n > 0 {
      RunPassesGate(states, moves, n - 1);
      assert Step(states[n - 1], moves[n - 1], states[n]);
    }
  }
}
