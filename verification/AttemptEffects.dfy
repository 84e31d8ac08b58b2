// The owner's own transitions on attempts and runtime effects: recording and
// invalidating an attempt, beginning and finishing a runtime effect, and the
// pruning of effects that each of them performs.
//
// Every command carries an `external` flag: the conjunction of the guards that
// read parts of the ledger outside this model (manifest validation, worker
// confinement, the projected operator status). Nothing proved depends on it.
module AttemptEffects {
  import opened OwnerState
  import opened Receipts

  // ---- Pruning -------------------------------------------------------------

  predicate AuthorizedByTombstone(s: State, e: Effect) {
    e.slot in s.tombstones && s.tombstones[e.slot].effect == e.id && s.tombstones[e.slot].generation == e.attemptGeneration
  }

  predicate PrunableCompleted(s: State, e: Effect, slot: Slot) {
    && e.slot == slot && e.status.Completed? && !ReferencedByReceipt(s.receipts, e.id)
    && !(slot in s.tombstones && s.tombstones[slot].effect == e.id)
  }

  function PruneCompleted(s: State, slot: Slot): map<nat, Effect> {
    map id | id in s.effects && !PrunableCompleted(s, s.effects[id], slot) :: s.effects[id]
  }

  /** Pending work of an invalidated attempt is dropped unless a receipt names
      it; a mutation that may have reached GitHub stays, marked invalidated. */
  predicate Detached(s: State, e: Effect, slot: Slot) {
    e.slot == slot && !ReferencedByReceipt(s.receipts, e.id)
  }

  predicate MayHaveReachedGitHub(e: Effect) {
    PendingMutation(e) && e.dispatched
  }

  function InvalidateEffects(s: State, slot: Slot): map<nat, Effect> {
    map id | id in s.effects && (Detached(s, s.effects[id], slot) ==> MayHaveReachedGitHub(s.effects[id])) ::
      if Detached(s, s.effects[id], slot) then s.effects[id].(status := Invalidated) else s.effects[id]
  }

  predicate UpdatesIssue(e: Effect, issue: nat, kind: IssueUpdateKind) {
    e.slot.issue == issue && e.status.Pending? && IsIssueUpdate(e, kind)
  }

  /** A newer control snapshot or machine status displaces the pending one. */
  function Displace(effects: map<nat, Effect>, issue: nat, kind: IssueUpdateKind): map<nat, Effect> {
    map id | id in effects && (UpdatesIssue(effects[id], issue, kind) ==> effects[id].dispatched) ::
      if UpdatesIssue(effects[id], issue, kind) then effects[id].(status := Invalidated) else effects[id]
  }

  predicate DeathUnproved(s: State, e: Effect) {
    && e.status.Pending? && RunsReviewer(e)
    && (ReviewProofKey(e) in s.proofs ==>
          var p := s.proofs[ReviewProofKey(e)];
          p.effect != e.id || p.runId != ReviewOf(e).runId || !p.dead)
  }

  // ---- Recording an attempt ------------------------------------------------

  predicate SupersededByNewAttempt(s: State, e: Effect, issue: nat, next: nat) {
    && e.slot.issue == issue && e.issueGeneration < next && !AuthorizedByTombstone(s, e)
    && !e.status.Invalidated? && !e.status.InvalidatedResolved?
  }

  predicate BlocksNewAttempt(s: State, e: Effect, issue: nat, next: nat) {
    && SupersededByNewAttempt(s, e, issue, next)
    && (if ReferencedByReceipt(s.receipts, e.id) then e.status.Pending? else DeathUnproved(s, e))
  }

  /** The first record of an attempt opens generation one of the attempt and a
      new generation of its issue; a later record opens the attempt's next one. */
  function UpsertAttempt(s: State, manifest: Manifest, expectedIssue: nat, expectedAttempt: nat, superseded: nat, external: bool): Reply {
    var slot := manifest.slot;
    var issueGeneration := IssueGeneration(s, slot.issue);
    var generation := AttemptGeneration(s, slot);
    if issueGeneration != expectedIssue then Refused(Stale)
    else if slot in s.tombstones then Refused(Tombstoned)
    else if slot.issue in s.quarantined || !external then Refused(Conflict)
    else if generation != expectedAttempt then Refused(Stale)
    else if slot in s.attempts && s.attempts[slot].stopEffect != 0 then Refused(Conflict)
    else if generation == 0 then
      if IssueHasUnconfinedReviewer(s, slot.issue) || UnresolvedOnIssue(s, slot.issue) then Refused(Conflict)
      else if issueGeneration == MAX_U64 then Refused(Overflow)
      else
        var displaced := s.(effects := Displace(s.effects, slot.issue, MachineStatus));
        if exists id :: id in displaced.effects && BlocksNewAttempt(displaced, displaced.effects[id], slot.issue, issueGeneration + 1)
        then Refused(Conflict)
        else
          var kept := map id | id in displaced.effects
            && (SupersededByNewAttempt(displaced, displaced.effects[id], slot.issue, issueGeneration + 1)
                ==> ReferencedByReceipt(s.receipts, id)) :: displaced.effects[id];
          Accepted(s.(effects := kept,
                      issueGenerations := s.issueGenerations[slot.issue := issueGeneration + 1],
                      attemptGenerations := s.attemptGenerations[slot := 1],
                      observations := s.observations - {slot.issue},
                      attempts := s.attempts[slot := AttemptRecord(1, 0, manifest)]), None)
    else if generation == MAX_U64 then Refused(Overflow)
    else if exists id :: id in s.effects && id != superseded && Detached(s, s.effects[id], slot) && DeathUnproved(s, s.effects[id])
    then Refused(Conflict)
    else
      Accepted(s.(effects := map id | id in s.effects && !Detached(s, s.effects[id], slot) :: s.effects[id],
                  attemptGenerations := s.attemptGenerations[slot := generation + 1],
                  attempts := s.attempts[slot := AttemptRecord(generation + 1, 0, manifest)]), None)
  }

  predicate UnresolvedOnIssue(s: State, issue: nat) {
    exists id :: id in s.effects && s.effects[id].slot.issue == issue && s.effects[id].status.Invalidated? && s.effects[id].dispatched
      && s.effects[id].work.ReconciliationWork? && MutatesGitHub(s.effects[id].work.request.payload)
  }

  // ---- Invalidating an attempt ---------------------------------------------

  datatype Invalidation = Invalidation(
    slot: Slot, issueGeneration: nat, attemptGeneration: nat, action: OperatorAction, phase: CleanupPhase,
    publishedHead: string, manifest: Option<Manifest>, policy: Option<CleanupPolicy>,
    cleanupDigest: Option<string>,           // None: no cleanup effect is wanted
    handoff: bool, start: bool,              // pending launch candidates it must remember
    external: bool,
    superseded: nat)                         // the pending reviewer that the cleanup has to stop

  predicate Destructive(action: OperatorAction) {
    action.Dismiss? || action.Archive? || action.Abandon? || action.Remove?
  }

  /** What a repeated invalidation must agree on with the tombstone it meets. */
  predicate SameInvalidation(t: Tombstone, c: Invalidation) {
    t.invalidatedGeneration == c.attemptGeneration && t.action == c.action && t.phase == c.phase
    && t.publishedHead == c.publishedHead && t.policy == c.policy && t.manifest.Some? == c.manifest.Some?
  }

  function InvalidateAttempt(s: State, c: Invalidation): Reply {
    var slot := c.slot;
    if slot.attempt < 1 || !Destructive(c.action) then Refused(Conflict)
    else if IssueGeneration(s, slot.issue) != c.issueGeneration then Refused(Stale)
    else if slot in s.tombstones then
      var t := s.tombstones[slot];
      if !SameInvalidation(t, c) then Refused(Conflict)
      else if c.cleanupDigest.None? && t.effect == 0 then Accepted(s, None)
      else if t.effect !in s.effects || !c.cleanupDigest.Some? || !IsRuntime(s.effects[t.effect], Cleanup)
              || s.effects[t.effect].digest != RuntimeDigest(c.cleanupDigest.value) || s.effects[t.effect].slot != slot
      then Refused(Conflict)
      else Accepted(s, Some(s.effects[t.effect]))
    else if AttemptGeneration(s, slot) != c.attemptGeneration then Refused(Stale)
    else if !c.external then Refused(Conflict)
    else if c.attemptGeneration == MAX_U64 then Refused(Overflow)
    else
      var unsnapshot := s.(effects := Displace(s.effects, slot.issue, ControlSnapshot));
      var generation := c.attemptGeneration + 1;
      var invalidated := Displace(InvalidateEffects(unsnapshot, slot), slot.issue, MachineStatus);
      var tombstone := Tombstone(c.action, c.attemptGeneration, generation, 0, c.phase, c.publishedHead,
                                 c.manifest, c.policy, 0, c.handoff, false, c.start, {});
      var after := s.(
        effects := invalidated,
        attemptGenerations := s.attemptGenerations[slot := generation],
        attempts := s.attempts - {slot},
        tombstones := s.tombstones[slot := tombstone]);
      Accepted(after, if c.cleanupDigest.None? then None else
        Some(NewRuntimeEffect(s, slot, Cleanup, c.issueGeneration, generation, c.cleanupDigest.value, "", c.superseded)))
  }

  /** An intent that has no identifier yet. */
  function NewRuntimeEffect(s: State, slot: Slot, action: RuntimeAction, issueGeneration: nat, attemptGeneration: nat, digest: string, reason: string, superseded: nat): Effect {
    Effect(0, slot, RuntimeWork(action), issueGeneration, attemptGeneration, s.epoch, Pending, false,
           RuntimeDigest(digest), reason, None, false, false, false, 0, None, "", 0, false, superseded, false)
  }

  // ---- Runtime effects -----------------------------------------------------

  /** The snapshot coordinates a begin command was prepared against. */
  datatype BeginIdentity = BeginIdentity(epoch: nat, sourceRevision: nat, issueGeneration: nat, attemptGeneration: nat)

  /** The coordinates of an existing effect. */
  datatype EffectIdentity = EffectIdentity(id: nat, epoch: nat, issueGeneration: nat, attemptGeneration: nat, digest: RequestDigest)

  predicate Identifies(i: EffectIdentity, e: Effect) {
    i.id == e.id && i.epoch == e.epoch && i.issueGeneration == e.issueGeneration
    && i.attemptGeneration == e.attemptGeneration && i.digest == e.digest
  }

  /** `met` is the pending Stop that the iteration over the effect map meets
      first; every order of that map is some choice of it. */
  datatype RuntimeBegin = RuntimeBegin(
    identity: BeginIdentity, action: RuntimeAction, manifest: Manifest, digest: string, reason: string,
    supersededReviewer: nat, met: nat, external: bool)

  predicate PendingStopOn(s: State, slot: Slot, id: nat) {
    id in s.effects && s.effects[id].slot == slot && s.effects[id].status.Pending? && IsRuntime(s.effects[id], Stop)
  }

  /** The pending Stop that a repeated begin converges on. */
  predicate SameStop(s: State, c: RuntimeBegin, e: Effect) {
    var slot := c.manifest.slot;
    && slot in s.attempts && s.attempts[slot].generation == e.attemptGeneration && s.attempts[slot].manifest == c.manifest
    && e.issueGeneration == IssueGeneration(s, slot.issue) && e.digest == RuntimeDigest(c.digest)
    && e.reason == c.reason && e.supersededReviewer == c.supersededReviewer
  }

  function BeginRuntime(s: State, c: RuntimeBegin): Reply {
    var slot := c.manifest.slot;
    if c.action.Handoff? || !c.external then Refused(Conflict)
    else if c.action.Cleanup? || (!c.action.Stop? && c.supersededReviewer != 0) || c.identity.epoch != s.epoch then Refused(Stale)
    else if slot in s.attempts && s.attempts[slot].stopEffect != 0 && !c.action.Stop? then Refused(Conflict)
    else if !c.action.Stop? && !c.action.Monitor? && IssueHasUnconfinedReviewer(s, slot.issue) then Refused(Conflict)
    else if c.action.Stop? && exists id :: id in s.effects && PendingStopOn(s, slot, id) then
      if PendingStopOn(s, slot, c.met) && SameStop(s, c, s.effects[c.met])
      then Accepted(s, Some(s.effects[c.met])) else Refused(Conflict)
    else if c.identity.sourceRevision != s.revision then Refused(Stale)
    else if IssueGeneration(s, slot.issue) != c.identity.issueGeneration || AttemptGeneration(s, slot) != c.identity.attemptGeneration
    then Refused(Stale)
    else if slot in s.tombstones then Refused(Tombstoned)
    else if !c.action.Stop? && exists id :: id in s.effects && s.effects[id].slot == slot && s.effects[id].status.Pending?
    then Refused(Conflict)
    else if c.action.Prepare? then
      if slot in s.attempts || c.identity.attemptGeneration != 0 || exists id :: id in s.effects && s.effects[id].slot == slot
      then Refused(Conflict)
      else RecordThenBegin(s, c, UpsertAttempt(s, c.manifest, c.identity.issueGeneration, 0, 0, c.external))
    else if c.action.Stop? then
      if slot !in s.attempts || s.attempts[slot].manifest != c.manifest then Refused(Conflict)
      else RecordThenBegin(s, c, UpsertAttempt(s, c.manifest, c.identity.issueGeneration, c.identity.attemptGeneration, c.supersededReviewer, c.external))
    else if slot !in s.attempts || s.attempts[slot].generation != c.identity.attemptGeneration || s.attempts[slot].manifest != c.manifest
    then Refused(Stale)
    else
      Accepted(s.(effects := PruneCompleted(s, slot)),
               Some(NewRuntimeEffect(s, slot, c.action, c.identity.issueGeneration, c.identity.attemptGeneration, c.digest, c.reason, 0)))
  }

  function RecordThenBegin(s: State, c: RuntimeBegin, recorded: Reply): Reply {
    match recorded
    case Refused(error) => Refused(error)
    case Accepted(after, _) =>
      Accepted(after, Some(NewRuntimeEffect(s, c.manifest.slot, c.action, IssueGeneration(after, c.manifest.slot.issue),
                                            AttemptGeneration(after, c.manifest.slot), c.digest, c.reason, c.supersededReviewer)))
  }

  datatype RuntimeFinish = RuntimeFinish(identity: EffectIdentity, action: RuntimeAction, manifest: Manifest, external: bool)

  /** Finishing records the manifest the runtime proved, closes the effect and,
      for Stop and Cleanup, drops the attempt's reviewer proofs. */
  function FinishRuntime(s: State, c: RuntimeFinish): Reply {
    var id := c.identity.id;
    if id !in s.effects || !IsRuntime(s.effects[id], c.action) || !Identifies(c.identity, s.effects[id]) then Refused(Stale)
    else
      var e := s.effects[id];
      var slot := e.slot;
      var current := slot in s.attempts && s.attempts[slot].generation == e.attemptGeneration;
      if e.status.Completed? && c.action.Stop? then
        if c.external && slot in s.attempts && s.attempts[slot].stopEffect == 0 && s.attempts[slot].manifest == c.manifest
        then Accepted(s, None) else Refused(Conflict)
      else if !c.external || (e.supersededReviewer != 0 && !e.reviewerStopped) || c.manifest.slot != slot then Refused(Conflict)
      else if (IssueGeneration(s, slot.issue) != e.issueGeneration && !AuthorizedByTombstone(s, e)) || AttemptGeneration(s, slot) != e.attemptGeneration
      then Refused(Stale)
      else if !c.action.Cleanup? && slot in s.tombstones then Refused(Tombstoned)
      else if !c.action.Cleanup? && !current then Refused(Stale)
      else if e.status.Completed? then
        if c.action.Cleanup? || s.attempts[slot].manifest == c.manifest then Accepted(s, None) else Refused(Conflict)
      else if c.action.Stop? && s.attempts[slot].stopEffect != 0 && s.attempts[slot].stopEffect != id then Refused(Conflict)
      else
        Accepted(CloseRuntime(s, e, c), None)
  }

  function CloseRuntime(s: State, e: Effect, c: RuntimeFinish): State
    requires c.action.Cleanup? || e.slot in s.attempts
  {
    var slot := e.slot;
    s.(effects := s.effects[c.identity.id := e.(status := Completed)],
       attempts := if c.action.Cleanup? then s.attempts
                   else s.attempts[slot := s.attempts[slot].(manifest := c.manifest, stopEffect := if c.action.Stop? then 0 else s.attempts[slot].stopEffect)],
       proofs := if c.action.Stop? || c.action.Cleanup? then map k | k in s.proofs && k.slot != slot :: s.proofs[k] else s.proofs,
       tombstones := if slot in s.tombstones && s.tombstones[slot].effect == c.identity.id
                     then s.tombstones[slot := s.tombstones[slot].(phase := CleanupDone)] else s.tombstones)
  }
}
