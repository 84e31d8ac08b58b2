// A claim over whole runs: however often it is seen again, it keeps the
// generations and the manifest it was created with, and the begin that consumes
// it acts under exactly those.
module ClaimRuns {
  import opened OwnerState
  import opened Receipts
  import opened AttemptEffects
  import opened ReconciliationEffects
  import opened OperatorMutations
  import opened StateOwner
  import opened LedgerInvariant
  import opened ReceiptSteps
  import opened EffectSteps
  import opened OwnerRuns
  import opened ClaimsAndCapacity

  /** The request holds a claim in every ledger from `i` to `j`. */
  ghost predicate HoldsClaim(states: seq<State>, id: string, i: nat, j: nat) {
    i <= j < |states| && forall k :: i <= k <= j ==> ClaimOf(states[k], id).Some?
  }

  function ClaimOf(s: State, id: string): Option<Admission> {
    var known := Find(s.receipts, id);
    if known.Some? && Claims(known.value) then known.value.admission else None
  }

  /** What a claim is about, apart from when it was last seen and stamped. */
  predicate SameGround(a: Admission, b: Admission) {
    b == a.(sighting := b.sighting, epoch := b.epoch)
  }

  predicate StartsOwner(moves: seq<Move>, i: nat, j: nat)
    requires i <= j <= |moves|
  {
    exists k :: i <= k < j && moves[k].command.OwnerStart?
  }

  lemma ClaimStep(states: seq<State>, moves: seq<Move>, n: nat, id: string)
    requires IsRun(states, moves) && n < |moves| && HoldsClaim(states, id, n, n + 1)
    ensures var a, b := ClaimOf(states[n], id).value, ClaimOf(states[n + 1], id).value;
      SameGround(a, b) && b.epoch == a.epoch + if moves[n].command.OwnerStart? then 1 else 0
  {
    hide Step, Gate, EffectsStep;
    RunStep(states, moves, n);
    FoundIn(states[n + 1].receipts, id);
    var q := Find(states[n + 1].receipts, id).value;
    assert Traced(states[n], moves[n].command, q);
    assert ClaimOf(states[n], id).Some? && ClaimOf(states[n + 1], id).Some?;
    if moves[n].command.OwnerStart? {
      StartRaisesEpoch(states, moves, n);
      ClaimIsCurrent(states, moves, n, id);
      ClaimIsCurrent(states, moves, n + 1, id);
    }
  }

  lemma StartRaisesEpoch(states: seq<State>, moves: seq<Move>, n: nat)
    requires IsRun(states, moves) && n < |moves| && moves[n].command.OwnerStart?
    ensures states[n + 1].epoch == states[n].epoch + 1
  {
    hide Gate, RestampClaims;
    assert Step(states[n], moves[n], states[n + 1]);
  }

  lemma ClaimIsCurrent(states: seq<State>, moves: seq<Move>, n: nat, id: string)
    requires IsRun(states, moves) && n < |states| && ClaimOf(states[n], id).Some?
    ensures ClaimOf(states[n], id).value.epoch == states[n].epoch
  {
    hide Step;
    RunPassesGate(states, moves, n);
    FoundIn(states[n].receipts, id);
  }

  /** However many refreshes came between, the ground of a claim is the same; its
      epoch is the same exactly when the owner did not start again in between. */
  lemma {:induction false} ClaimKeepsItsGround(states: seq<State>, moves: seq<Move>, i: nat, j: nat, id: string)
    requires IsRun(states, moves) && HoldsClaim(states, id, i, j)
    ensures SameGround(ClaimOf(states[i], id).value, ClaimOf(states[j], id).value)
    ensures ClaimOf(states[i], id).value.epoch <= ClaimOf(states[j], id).value.epoch
    ensures ClaimOf(states[j], id).value.epoch == ClaimOf(states[i], id).value.epoch <==> !StartsOwner(moves, i, j)
    decreases j - i
  {
    hide Step, Gate, ClaimOf;
    if i < j {
      ClaimStep(states, moves, i, id);
      ClaimKeepsItsGround(states, moves, i + 1, j, id);
      assert StartsOwner(moves, i, j) <==> moves[i].command.OwnerStart? || StartsOwner(moves, i + 1, j);
    }
  }

  // ---- Claims on recorded attempts -----------------------------------------

  /** A claim that captured a manifest captured a recorded generation. */
  predicate Grounded(a: Admission) {
    a.manifest.Some? ==> a.attemptGeneration > 0
  }

  ghost predicate AllGrounded(rs: seq<Receipt>) {
    forall r :: r in rs && Claims(r) && r.admission.Some? ==> Grounded(r.admission.value)
  }

  lemma ReservationKeepsGround(s: State, m: Move, next: State)
    requires AllGrounded(s.receipts) && m.command.ReserveAdmission? && Proposed(s, m) == Some(next)
    ensures AllGrounded(next.receipts)
  {
    hide Reserve, Stamp, AppendReceipt, ClaimOn, ObservationSensitive;
    var c := m.command;
    var reply := Reserve(s, c.request, c.valid, c.statusAllows);
    ReserveAnswersNothing(s, c.request, c.valid, c.statusAllows);
    StampedOther(s, c, reply.state, reply.effect, m.revoked);
    if reply.state != s {
      var claim := ReservationJoinsOrCaptures(s, c.request, c.valid, c.statusAllows, reply.state);
      AppendAddsOne(s, claim, reply.state);
      if ClaimOn(s.receipts, c.request.slot).Some? {
        assert ClaimOn(s.receipts, c.request.slot).value in s.receipts;
      }
    }
  }

  lemma StepKeepsGround(states: seq<State>, moves: seq<Move>, n: nat)
    requires IsRun(states, moves) && n < |moves| && AllGrounded(states[n].receipts)
    ensures AllGrounded(states[n + 1].receipts)
  {
    hide Step, Gate, EffectsStep, Proposed;
    var s, next := states[n], states[n + 1];
    assert Step(s, moves[n], next);
    StepIsProposed(s, moves[n], next);
    if moves[n].command.ReserveAdmission? {
      ReservationKeepsGround(s, moves[n], next);
    } else {
      RunStep(states, moves, n);
      forall q | q in next.receipts && Claims(q) && q.admission.Some? ensures Grounded(q.admission.value) {
        assert Traced(s, moves[n].command, q);
        FoundIn(s.receipts, q.request.id);
      }
    }
  }

  lemma StepIsProposed(s: State, m: Move, next: State)
    requires Step(s, m, next)
    ensures Proposed(s, m) == Some(next)
  {
    hide Proposed, Gate;
  }

  lemma {:induction false} ClaimsAreGrounded(states: seq<State>, moves: seq<Move>, n: nat)
    requires IsRun(states, moves) && n < |states|
    ensures AllGrounded(states[n].receipts)
  {
    hide Step;
    if n > 0 {
      ClaimsAreGrounded(states, moves, n - 1);
      StepKeepsGround(states, moves, n - 1);
    }
  }

  // ---- The effect of a begin -----------------------------------------------

  /** The effect acts for the claim: runtime work opens the next generation of
      the attempt, reconciliation works on the present one. */
  predicate ActsFor(e: Effect, i: BeginIdentity) {
    && e.epoch == i.epoch && e.issueGeneration == i.issueGeneration
    && e.attemptGeneration == i.attemptGeneration + if e.work.RuntimeWork? then 1 else 0
  }

  lemma StopActs(s: State, b: RuntimeBegin)
    requires EffectsKeyed(s) && b.action.Stop? && b.identity.attemptGeneration > 0 && BeginRuntime(s, b).Accepted?
    ensures IsNew(BeginRuntime(s, b).effect) ==> ActsFor(BeginRuntime(s, b).effect.value, b.identity)
  {
    hide IssueHasUnconfinedReviewer, UnresolvedOnIssue, BlocksNewAttempt, Detached, DeathUnproved;
  }

  lemma ReconciliationActs(s: State, b: ReconciliationBegin)
    requires EffectsKeyed(s) && BeginReconciliation(s, b).Accepted?
    ensures IsNew(BeginReconciliation(s, b).effect) ==> ActsFor(BeginReconciliation(s, b).effect.value, b.identity)
  {
    hide ReviewerExcludes, AdmissionBlocked, ObservationCurrent, SameManifest, SameRetry, WellScoped, PruneForBegin;
  }

  lemma CleanupActs(s: State, c: OperatorBegin)
    requires EffectsKeyed(s) && Invalidate(s, c).Accepted? && c.identity.epoch == s.epoch
    ensures IsNew(Invalidate(s, c).effect) ==> ActsFor(Invalidate(s, c).effect.value, c.identity)
  {
    hide InvalidateEffects, Displace, SameInvalidation;
  }

  lemma FreshActs(s: State, c: OperatorBegin)
    requires EffectsKeyed(s) && c.manifest.Some? && c.identity.attemptGeneration > 0 && c.identity.epoch == s.epoch && BeginFresh(s, c).Accepted?
    ensures IsNew(BeginFresh(s, c).effect) ==> ActsFor(BeginFresh(s, c).effect.value, c.identity)
  {
    hide BeginRuntime, BeginReconciliation, Invalidate, Record, Supersede, ActsFor;
    if c.runtime.Some? && BeginRuntime(s, AtRevision(s, c.runtime.value)).Accepted? && c.runtime.value.action.Stop? && c.runtime.value.identity == c.identity {
      StopActs(s, AtRevision(s, c.runtime.value));
    }
    if c.reconciliation.Some? {
      var b := c.reconciliation.value.(identity := c.identity.(sourceRevision := s.revision));
      if BeginReconciliation(s, b).Accepted? {
        ReconciliationActs(s, b);
      }
    }
    if Invalidate(s, c).Accepted? {
      CleanupActs(s, c);
    }
    assert forall e :: ActsFor(e, c.identity.(sourceRevision := s.revision)) <==> ActsFor(e, c.identity) by {
      RevisionIsNoGround(s, c.identity);
    }
  }

  lemma RevisionIsNoGround(s: State, i: BeginIdentity)
    ensures forall e :: ActsFor(e, i.(sourceRevision := s.revision)) <==> ActsFor(e, i)
  {
  }

  /** Whatever branch a begin takes, an effect that it creates acts for it. */
  lemma WorkActs(s: State, c: OperatorBegin, admitted: bool)
    requires EffectsKeyed(s) && BeginWork(s, c, admitted).Accepted? && (c.manifest.Some? ==> c.identity.attemptGeneration > 0)
    ensures IsNew(BeginWork(s, c, admitted).effect) ==> ActsFor(BeginWork(s, c, admitted).effect.value, c.identity)
  {
    hide BeginFresh, ActsFor, Record, RecordDone, AppendReceipt, ObservationSupports, InvalidateAttempt, RemoteAttemptCompleted;
    if c.manifest.Some? && c.identity.epoch == s.epoch && BeginFresh(s, c).Accepted? {
      FreshActs(s, c);
    }
  }

  /** What an admitted begin creates acts for the claim it consumed. */
  lemma CreatedActs(s: State, m: Move, next: State, a: Admission, id: nat)
    requires Keyed(s.effects) && EffectsKeyed(s) && Proposed(s, m) == Some(next) && m.command.BeginMutation?
    requires Admitted(s, m.command.begin) == AdmittedBy(a) && Grounded(a) && a.manifest == m.command.begin.manifest
    requires id in next.effects && id !in s.effects
    ensures ActsFor(next.effects[id], BeginIdentity(a.epoch, s.revision, a.issueGeneration, a.attemptGeneration))
  {
    hide Keyed, BeginWork, Stamp, Admitted, ActsFor, Grounded, Begins, JoinCoalesced, EffectsKeyed;
    var c := m.command.begin;
    var reply := JoinCoalesced(s, c, Begin(s, c));
    OperatorBegins(s, c);
    JoinPasses(s, c, Begin(s, c), reply.state, reply.effect);
    NewFromEffect(s, c, reply.state, reply.effect, m.revoked, id);
    var base, acting := s.(receipts := Without(s.receipts, c.request.id)), Readmit(s, c, a);
    ReadmittedGround(s, c, a);
    SameEffectsKeyed(s, base);
    WorkActs(base, acting, true);
    RevokedActs(reply.effect.value, acting.identity, s.revision + 1, m.revoked);
  }

  lemma SameEffectsKeyed(s: State, base: State)
    requires EffectsKeyed(s) && base.effects == s.effects && base.revision == s.revision
    ensures EffectsKeyed(base)
  {
  }

  lemma ReadmittedGround(s: State, c: OperatorBegin, a: Admission)
    requires Grounded(a) && a.manifest == c.manifest
    ensures var acting := Readmit(s, c, a);
      && acting.manifest == c.manifest && (acting.manifest.Some? ==> acting.identity.attemptGeneration > 0)
      && acting.identity == BeginIdentity(a.epoch, s.revision, a.issueGeneration, a.attemptGeneration)
  {
  }

  lemma NewFromEffect(s: State, c: OperatorBegin, candidate: State, effect: Option<Effect>, revoked: set<nat>, id: nat)
    requires Begins(s, Accepted(candidate, effect))
    requires id !in s.effects && id in Stamp(s, BeginMutation(c), candidate, effect, revoked).effects
    ensures IsNew(effect) && candidate.revision == s.revision && id == s.revision + 1
    ensures Stamp(s, BeginMutation(c), candidate, effect, revoked).effects[id] == RevokeOne(effect.value.(id := id), revoked)
  {
    hide StampEffects, Forward, Admits, Unborn, RevokeOne;
    StampedEffects(candidate.effects, effect, candidate.revision + 1, revoked);
  }

  lemma RevokedActs(e: Effect, i: BeginIdentity, id: nat, revoked: set<nat>)
    requires ActsFor(e, i)
    ensures ActsFor(RevokeOne(e.(id := id), revoked), i)
  {
  }

  /** The begin of a request that holds a claim is admitted by it, acts on the
      manifest and under the generations the claim was created with, and creates
      no effect but one that acts for them, under the present epoch. */
  lemma BeginCarriesItsClaim(states: seq<State>, moves: seq<Move>, i: nat, j: nat, id: string)
    requires IsRun(states, moves) && HoldsClaim(states, id, i, j) && j < |moves|
    requires moves[j].command.BeginMutation? && moves[j].command.begin.request.id == id
    ensures var b, original := moves[j].command.begin, ClaimOf(states[i], id).value;
      && Admitted(states[j], b) == AdmittedBy(ClaimOf(states[j], id).value)
      && b.manifest == original.manifest && b.remoteOnly == original.remoteOnly
      && original.issueGeneration == IssueGeneration(states[j], b.request.slot.issue)
      && original.attemptGeneration == AttemptGeneration(states[j], b.request.slot)
      && (states[j].epoch == original.epoch <==> !StartsOwner(moves, i, j))
      && (var acting := Readmit(states[j], b, ClaimOf(states[j], id).value);
          && acting.identity == BeginIdentity(states[j].epoch, states[j].revision, original.issueGeneration, original.attemptGeneration)
          && (acting.runtime.Some? ==> acting.runtime.value.identity == acting.identity)
          && (acting.reconciliation.Some? ==> acting.reconciliation.value.identity == acting.identity))
      && (forall e :: e in states[j + 1].effects && e !in states[j].effects ==>
           ActsFor(states[j + 1].effects[e], BeginIdentity(states[j].epoch, states[j].revision, original.issueGeneration, original.attemptGeneration)))
  {
    hide Gate, StartsOwner, SameGround, Proposed, ClaimOf, Admitted, Readmit, ActsFor, Grounded;
    var s, m, next := states[j], moves[j], states[j + 1];
    assert Step(s, m, next);
    ClaimKeepsItsGround(states, moves, i, j, id);
    AcceptedIsAdmitted(s, m, next, id);
    GroundHolds(ClaimOf(states[i], id).value, ClaimOf(s, id).value);
    RunKeeps(states, moves, j);
    ClaimIsGrounded(states, moves, j, id);
    ReadmittedActs(s, m.command.begin, ClaimOf(s, id).value);
    forall e | e in next.effects && e !in s.effects
      ensures ActsFor(next.effects[e], BeginIdentity(s.epoch, s.revision, ClaimOf(s, id).value.issueGeneration, ClaimOf(s, id).value.attemptGeneration)) {
      CreatedActs(s, m, next, ClaimOf(s, id).value, e);
    }
  }

  lemma ClaimIsGrounded(states: seq<State>, moves: seq<Move>, n: nat, id: string)
    requires IsRun(states, moves) && n < |states| && ClaimOf(states[n], id).Some?
    ensures Grounded(ClaimOf(states[n], id).value) && EffectsKeyed(states[n])
  {
    hide Step, Grounded;
    RunPassesGate(states, moves, n);
    ClaimsAreGrounded(states, moves, n);
    FoundIn(states[n].receipts, id);
  }

  lemma ReadmittedActs(s: State, b: OperatorBegin, a: Admission)
    ensures var acting := Readmit(s, b, a);
      && acting.identity == BeginIdentity(a.epoch, s.revision, a.issueGeneration, a.attemptGeneration)
      && (acting.runtime.Some? ==> acting.runtime.value.identity == acting.identity)
      && (acting.reconciliation.Some? ==> acting.reconciliation.value.identity == acting.identity)
  {
  }

  lemma GroundHolds(a: Admission, b: Admission)
    requires SameGround(a, b)
    ensures b.issueGeneration == a.issueGeneration && b.attemptGeneration == a.attemptGeneration && b.manifest == a.manifest && b.remoteOnly == a.remoteOnly
  {
  }

  lemma AcceptedIsAdmitted(s: State, m: Move, next: State, id: string)
    requires Proposed(s, m) == Some(next) && ClaimOf(s, id).Some?
    requires m.command.BeginMutation? && m.command.begin.request.id == id
    ensures Admitted(s, m.command.begin) == AdmittedBy(ClaimOf(s, id).value)
    ensures var a, b := ClaimOf(s, id).value, m.command.begin;
      && a.epoch == s.epoch && a.issueGeneration == IssueGeneration(s, b.request.slot.issue)
      && a.attemptGeneration == AttemptGeneration(s, b.request.slot) && a.manifest == b.manifest && a.remoteOnly == b.remoteOnly
  {
    hide Stamp, BeginWork, EffectOf, AttachAll, Followers;
    JoinPasses(s, m.command.begin, Begin(s, m.command.begin), Apply(s, m.command).state, Apply(s, m.command).effect);
  }
}
