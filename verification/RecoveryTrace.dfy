// A recovery over whole runs: it only moves up in phase, and one that began with
// a Stop reports success only after the Stop, the terminal-failure update and
// the retry update have completed in that order.
module RecoveryTrace {
  import opened OwnerState
  import opened Receipts
  import opened AttemptEffects
  import opened ReconciliationEffects
  import opened OperatorMutations
  import opened StateOwner
  import opened LedgerInvariant
  import opened ReceiptSteps
  import opened EffectSteps
  import opened OwnerRuns
  import opened EffectDates

  predicate Recovering(r: Receipt) {
    r.request.action.Recover? && r.state.Waiting?
    && (r.phase.StopPending? || r.phase.TerminalAwait? || r.phase.TerminalPending? || r.phase.RetryAwait? || r.phase.RetryPending?)
  }

  function Rank(r: Receipt): nat {
    if r.state.Done? then 6
    else match r.phase
      case StopPending => 1
      case TerminalAwait => 2
      case TerminalPending => 3
      case RetryAwait => 4
      case RetryPending => 5
      case _ => 0
  }

  predicate Succeeded(r: Receipt) {
    r.state.Done? && r.phase.PhaseCompleted? && r.result.Some? && r.result.value.ok
  }

  predicate Failed(r: Receipt) {
    r.state.Done? && r.result.Some? && !r.result.value.ok
  }

  /** One commit: the phase stays, or moves to the next one, or the recovery is
      closed; it is closed as a success only from its last phase, by the very
      effect it was bound to. */
  predicate RecoveryMoves(r: Receipt, q: Receipt) {
    && q.request == r.request
    && (|| (Recovering(q) && q.phase == r.phase && q.effect == r.effect)
        || (Recovering(q) && Rank(q) == Rank(r) + 1 && (r.phase.StopPending? || r.phase.TerminalPending? ==> q.effect == r.effect))
        || Failed(q)
        || (Succeeded(q) && r.phase.RetryPending? && q.effect == r.effect))
  }

  lemma CleanupIsNoRecovery(s: State, r: Receipt, q: Receipt)
    requires Recovering(r) && BoundToEffect(s, r) && r.effect != 0
    ensures !CleansUp(s, r, q)
  {
  }

  lemma AdvanceMoves(c: Command, r: Receipt, q: Receipt)
    requires Recovering(r) && Recovers(c, r, q)
    ensures RecoveryMoves(r, q)
  {
  }

  /** What a change of a recovering receipt can be, once both ledgers have passed
      the gate: the gate refuses a success that skips the later updates. */
  lemma ChangeMoves(s: State, c: Command, r: Receipt, next: State, q: Receipt)
    requires Recovering(r) && BoundToEffect(s, r) && r.effect != 0
    requires Changed(s, c, r, q) && BoundToEffect(next, q) && ValidBinding(q)
    requires r.effect in s.effects && r.effect in next.effects ==> next.effects[r.effect].work == s.effects[r.effect].work
    ensures RecoveryMoves(r, q)
  {
    hide CleansUp, Recovers, Success, Failure;
    assert !CleansUp(s, r, q) by {
      CleanupIsNoRecovery(s, r, q);
    }
    if Recovers(c, r, q) {
      AdvanceMoves(c, r, q);
    }
  }

  // ---- One receipt over a run ----------------------------------------------

  /** The receipt of this request stays on the list from `i` to `j`. */
  ghost predicate Tracked(states: seq<State>, id: string, i: nat, j: nat) {
    i <= j < |states| && forall k :: i <= k <= j ==> Find(states[k].receipts, id).Some?
  }

  function At(states: seq<State>, id: string, k: nat): Receipt
    requires k < |states| && Find(states[k].receipts, id).Some?
  {
    Find(states[k].receipts, id).value
  }

  lemma GatedReceipt(s: State, id: string)
    requires Gate(s) && Find(s.receipts, id).Some?
    ensures var r := Find(s.receipts, id).value;
            r in s.receipts && r.request.id == id && ValidBinding(r) && BoundToEffect(s, r)
  {
    FoundIn(s.receipts, id);
  }

  lemma RecoveryStep(states: seq<State>, moves: seq<Move>, id: string, n: nat)
    requires IsRun(states, moves) && n < |moves| && Tracked(states, id, n, n + 1)
    ensures Recovering(At(states, id, n)) ==> RecoveryMoves(At(states, id, n), At(states, id, n + 1))
    ensures At(states, id, n).state.Done? ==> At(states, id, n + 1) == At(states, id, n)
  {
    hide Step, Proposed, Gate, RecoveryMoves, GroupSteps, SealSteps, ResultSteps, StatusSteps;
    RunKeeps(states, moves, n);
    RunKeeps(states, moves, n + 1);
    RunStep(states, moves, n);
    GatedReceipt(states[n], id);
    GatedReceipt(states[n + 1], id);
    var r, q := At(states, id, n), At(states, id, n + 1);
    assert Traced(states[n], moves[n].command, q);
    if Recovering(r) {
      ChangeMoves(states[n], moves[n].command, r, states[n + 1], q);
    }
  }

  lemma {:induction false} DoneStays(states: seq<State>, moves: seq<Move>, id: string, i: nat, j: nat)
    requires IsRun(states, moves) && Tracked(states, id, i, j) && At(states, id, i).state.Done?
    ensures At(states, id, j) == At(states, id, i)
    decreases j - i
  {
    hide Step, Gate, RecoveryMoves;
    if i < j {
      RecoveryStep(states, moves, id, i);
      DoneStays(states, moves, id, i + 1, j);
    }
  }

  /** A recovery never falls back: its rank only grows, and it is answered last. */
  lemma {:induction false} RecoveryOnlyRises(states: seq<State>, moves: seq<Move>, id: string, i: nat, j: nat)
    requires IsRun(states, moves) && Tracked(states, id, i, j) && Recovering(At(states, id, i))
    ensures At(states, id, j).request == At(states, id, i).request
    ensures Recovering(At(states, id, j)) || Failed(At(states, id, j)) || Succeeded(At(states, id, j))
    ensures Rank(At(states, id, i)) <= Rank(At(states, id, j))
    decreases j - i
  {
    hide Step, Gate;
    if i < j {
      RecoveryStep(states, moves, id, i);
      if Recovering(At(states, id, i + 1)) {
        RecoveryOnlyRises(states, moves, id, i + 1, j);
      } else {
        DoneStays(states, moves, id, i + 1, j);
      }
    }
  }

  /** On the way to success every phase is passed, and the effect of a phase is
      the one that finishes before the next. */
  lemma {:induction false} NextPhase(states: seq<State>, moves: seq<Move>, id: string, i: nat, m: nat) returns (k: nat)
    requires IsRun(states, moves) && Tracked(states, id, i, m)
    requires Recovering(At(states, id, i)) && !At(states, id, i).phase.RetryPending? && Succeeded(At(states, id, m))
    ensures i < k < m && Recovering(At(states, id, k)) && Rank(At(states, id, k)) == Rank(At(states, id, i)) + 1
    ensures At(states, id, i).phase.StopPending? || At(states, id, i).phase.TerminalPending? ==> At(states, id, k).effect == At(states, id, i).effect
    ensures var last := At(states, id, k - 1); Recovering(last) && last.phase == At(states, id, i).phase && last.effect == At(states, id, i).effect
    decreases m - i
  {
    hide Step, Gate;
    RecoveryStep(states, moves, id, i);
    var q := At(states, id, i + 1);
    if Recovering(q) && Rank(q) == Rank(At(states, id, i)) + 1 {
      k := i + 1;
    } else if Recovering(q) {
      k := NextPhase(states, moves, id, i + 1, m);
    } else {
      DoneStays(states, moves, id, i + 1, m);
    }
  }

  lemma {:induction false} RetryDecides(states: seq<State>, moves: seq<Move>, id: string, i: nat, m: nat)
    requires IsRun(states, moves) && Tracked(states, id, i, m)
    requires Recovering(At(states, id, i)) && At(states, id, i).phase.RetryPending? && Succeeded(At(states, id, m))
    ensures At(states, id, m).effect == At(states, id, i).effect
    decreases m - i
  {
    hide Step, Gate;
    RecoveryStep(states, moves, id, i);
    if Recovering(At(states, id, i + 1)) {
      RetryDecides(states, moves, id, i + 1, m);
    } else {
      DoneStays(states, moves, id, i + 1, m);
    }
  }

  /** The effect with this identifier is of the kind and in the state given. */
  ghost predicate Works(s: State, id: nat, status: EffectStatus, update: Option<IssueUpdateKind>) {
    && id in s.effects && s.effects[id].status == status
    && if update.None? then IsRuntime(s.effects[id], Stop) else IsIssueUpdate(s.effects[id], update.value)
  }

  lemma PhaseWorks(states: seq<State>, moves: seq<Move>, id: string, k: nat)
    requires IsRun(states, moves) && k < |states| && Find(states[k].receipts, id).Some?
    ensures var r := At(states, id, k);
      && (Recovering(r) && r.phase.StopPending? ==> Works(states[k], r.effect, Pending, None))
      && (Recovering(r) && r.phase.TerminalAwait? ==> Works(states[k], r.effect, Completed, None))
      && (Recovering(r) && r.phase.TerminalPending? ==> Works(states[k], r.effect, Pending, Some(TerminalFailure)))
      && (Recovering(r) && r.phase.RetryAwait? ==> Works(states[k], r.effect, Completed, Some(TerminalFailure)))
      && (Recovering(r) && r.phase.RetryPending? ==> Works(states[k], r.effect, Pending, Some(Retry)))
      && (r.request.action.Recover? && Succeeded(r) && r.effect != 0 ==> Works(states[k], r.effect, Completed, Some(Retry)))
  {
    hide Step;
    RunKeeps(states, moves, k);
    GatedReceipt(states[k], id);
  }

  // ---- Under which generation a recovery advances --------------------------

  lemma AdvanceIsCurrent(s: State, a: RecoveryAdvance, candidate: State, effect: Option<Effect>)
    requires EffectsKeyed(s) && AdvanceRecovery(s, a) == Accepted(candidate, effect)
    ensures effect.Some? && Find(s.receipts, a.id).Some?
    ensures effect.value.attemptGeneration == AttemptGeneration(s, Find(s.receipts, a.id).value.request.slot)
  {
    hide AdmissionBlocked, ReviewerExcludes, ObservationCurrent, SameManifest, SameRetry, PruneForBegin, WellScoped, MatchesEffect;
  }

  lemma MovedReceipt(r: Receipt, from: Receipt, to: Phase, id: nat, revision: nat)
    requires to.TerminalPending? || to.RetryPending?
    ensures var q := BoundAdvance(UnbindOne(r, from, to), id, revision);
            q.request == r.request && (q.phase != r.phase ==> r.effect == from.effect && q.effect == id)
  {
  }

  lemma StampedFrom(s: State, a: RecoveryAdvance, candidate: State, effect: Option<Effect>, revoked: set<nat>, q: Receipt)
      returns (x: Receipt, from: Receipt, to: Phase)
    requires EffectsKeyed(s) && AdvanceRecovery(s, a) == Accepted(candidate, effect)
    requires q in Stamp(s, AdvanceRecoveryCommand(a), candidate, effect, revoked).receipts
    ensures effect.Some? && x in s.receipts && from in s.receipts && from.request.id == a.id && (to.TerminalPending? || to.RetryPending?)
    ensures var id := if effect.value.id == 0 then s.revision + 1 else effect.value.id; q == BoundAdvance(UnbindOne(x, from, to), id, s.revision + 1)
  {
    hide AdvanceRecovery, Stamp, EffectsKeyed, BoundAdvance, UnbindOne;
    from, to := AdvanceUnbinds(s, a, candidate, effect);
    StampedAdvance(s, a, candidate, effect.value, revoked);
    var id := if effect.value.id == 0 then s.revision + 1 else effect.value.id;
    var i :| 0 <= i < |candidate.receipts| && BoundAdvance(candidate.receipts[i], id, s.revision + 1) == q;
    x := s.receipts[i];
  }

  /** An advance binds each receipt that it moves to the effect it begins. */
  lemma AdvancedReceipt(s: State, a: RecoveryAdvance, candidate: State, effect: Option<Effect>, revoked: set<nat>, r: Receipt, q: Receipt)
    requires LedgerInv(s.receipts) && EffectsKeyed(s) && AdvanceRecovery(s, a) == Accepted(candidate, effect)
    requires Find(s.receipts, r.request.id) == Some(r) && q.request.id == r.request.id
    requires q in Stamp(s, AdvanceRecoveryCommand(a), candidate, effect, revoked).receipts && q.phase != r.phase
    ensures effect.Some? && Find(s.receipts, a.id).Some? && r.effect == Find(s.receipts, a.id).value.effect
    ensures q.effect == if effect.value.id == 0 then s.revision + 1 else effect.value.id
  {
    hide AdvanceRecovery, Stamp, LedgerInv, EffectsKeyed, UniqueIds, BoundAdvance, UnbindOne, Find;
    var x, from, to := StampedFrom(s, a, candidate, effect, revoked, q);
    LedgerHolds(s.receipts);
    FindInShaped(s.receipts, from);
    FindInShaped(s.receipts, x);
    MovedReceipt(x, from, to, if effect.value.id == 0 then s.revision + 1 else effect.value.id, s.revision + 1);
  }

  lemma AdvancedEffect(s: State, a: RecoveryAdvance, candidate: State, effect: Option<Effect>, revoked: set<nat>, id: nat)
    requires Keyed(s.effects) && AdvanceRecovery(s, a) == Accepted(candidate, effect) && effect.Some?
    requires id == if effect.value.id == 0 then s.revision + 1 else effect.value.id
    requires id in Stamp(s, AdvanceRecoveryCommand(a), candidate, effect, revoked).effects
    ensures Stamp(s, AdvanceRecoveryCommand(a), candidate, effect, revoked).effects[id].attemptGeneration == effect.value.attemptGeneration
  {
    hide AdvanceRecovery, Stamp, StampEffects, RevokeOne, Admits, Dated, Forward;
    AdvanceBegins(s, a);
    StampedParts(s, AdvanceRecoveryCommand(a), candidate, effect, revoked);
    StampedEffects(candidate.effects, effect, candidate.revision + 1, revoked);
    RevokedKeepsIntent(revoked);
  }

  lemma AdvancesUnderPresent(states: seq<State>, moves: seq<Move>, id: string, n: nat)
    requires IsRun(states, moves) && n < |moves| && Tracked(states, id, n, n + 1)
    requires Recovering(At(states, id, n)) && At(states, id, n).phase.TerminalAwait? && At(states, id, n + 1).phase.TerminalPending?
    ensures var q := At(states, id, n + 1);
      && q.effect in states[n + 1].effects
      && states[n + 1].effects[q.effect].attemptGeneration == AttemptGeneration(states[n], At(states, id, n).request.slot)
  {
    hide Apply, Stamp, LedgerInv, AttemptGeneration, EffectsStep, AdvanceRecovery, CurrentClaim, Keyed, Begins;
    var s, m, next := states[n], moves[n], states[n + 1];
    RunKeeps(states, moves, n);
    RunKeeps(states, moves, n + 1);
    RunStep(states, moves, n);
    GatedReceipt(s, id);
    GatedReceipt(next, id);
    assert Step(s, m, next);
    var r, q := At(states, id, n), At(states, id, n + 1);
    assert Traced(s, m.command, q);
    assert m.command.AdvanceRecoveryCommand?;
    AdvanceApplies(s, m.command.advance);
    var reply := AdvanceRecovery(s, m.command.advance);
    AdvancedReceipt(s, m.command.advance, reply.state, reply.effect, m.revoked, r, q);
    AdvanceIsCurrent(s, m.command.advance, reply.state, reply.effect);
    AdvancedEffect(s, m.command.advance, reply.state, reply.effect, m.revoked, q.effect);
    GatedReceipt(s, m.command.advance.id);
  }

  lemma AdvanceApplies(s: State, a: RecoveryAdvance)
    ensures Apply(s, AdvanceRecoveryCommand(a)) == AdvanceRecovery(s, a)
  {
    hide AdvanceRecovery;
  }

  // ---- The order of the workflow -------------------------------------------

  ghost predicate InPhase(states: seq<State>, id: string, k: nat, phase: Phase, effect: nat) {
    k < |states| && Find(states[k].receipts, id).Some? && Recovering(At(states, id, k)) && At(states, id, k).phase == phase && At(states, id, k).effect == effect
  }

  /** What the effect of a recovery is, on the slot of its request. */
  lemma PhaseEffect(states: seq<State>, moves: seq<Move>, id: string, k: nat, phase: Phase, effect: nat)
    requires IsRun(states, moves) && InPhase(states, id, k, phase, effect)
    ensures effect in states[k].effects && states[k].effects[effect].slot == At(states, id, k).request.slot
    ensures phase.StopPending? ==> PendingStop(states[k].effects[effect])
    ensures phase.TerminalPending? || phase.RetryPending? ==> PendingReconciliation(states[k].effects[effect])
    ensures phase.TerminalAwait? || phase.RetryAwait? ==> states[k].effects[effect].status.Completed?
  {
    hide Step;
    RunKeeps(states, moves, k);
    GatedReceipt(states[k], id);
  }

  lemma SameRequest(states: seq<State>, moves: seq<Move>, id: string, i: nat, j: nat, phase: Phase, effect: nat)
    requires IsRun(states, moves) && Tracked(states, id, i, j) && InPhase(states, id, i, phase, effect)
    ensures At(states, id, j).request == At(states, id, i).request
  {
    hide Step, Gate;
    RecoveryOnlyRises(states, moves, id, i, j);
  }

  lemma GenerationStaysReached(states: seq<State>, moves: seq<Move>, i: nat, j: nat, e: nat)
    requires IsRun(states, moves) && i <= j < |states| && e in states[i].effects && e in states[j].effects
    ensures states[i].effects[e].attemptGeneration <= AttemptGeneration(states[j], states[i].effects[e].slot)
  {
    hide Step, IsRun, AttemptGeneration;
    DatesHold(states, moves, j);
    EffectLives(states, moves, i, j, e);
  }

  lemma AdvancedGeneration(states: seq<State>, moves: seq<Move>, id: string, k: nat, stop: nat, update: nat)
    requires IsRun(states, moves) && 0 < k && Tracked(states, id, k - 1, k)
    requires InPhase(states, id, k - 1, TerminalAwait, stop) && InPhase(states, id, k, TerminalPending, update)
    ensures update in states[k].effects && states[k].effects[update].attemptGeneration == AttemptGeneration(states[k - 1], At(states, id, k - 1).request.slot)
  {
    hide Step, Gate, AttemptGeneration;
    AdvancesUnderPresent(states, moves, id, k - 1);
  }

  /** The update that a recovery turns to was begun after its Stop completed. */
  lemma UpdateWaitsForStop(states: seq<State>, moves: seq<Move>, id: string, stopped: nat, failing: nat, stop: nat, update: nat)
    requires IsRun(states, moves) && 0 < stopped < failing && Tracked(states, id, stopped - 1, failing)
    requires InPhase(states, id, stopped - 1, StopPending, stop) && InPhase(states, id, stopped, TerminalAwait, stop)
    requires InPhase(states, id, failing - 1, TerminalAwait, stop) && InPhase(states, id, failing, TerminalPending, update)
    ensures update > states[stopped].revision
  {
    hide Step, InPhase, AttemptGeneration;
    PhaseEffect(states, moves, id, stopped - 1, StopPending, stop);
    PhaseEffect(states, moves, id, stopped, TerminalAwait, stop);
    PhaseEffect(states, moves, id, failing - 1, TerminalAwait, stop);
    PhaseEffect(states, moves, id, failing, TerminalPending, update);
    SameRequest(states, moves, id, stopped - 1, failing - 1, StopPending, stop);
    SameRequest(states, moves, id, stopped - 1, failing, StopPending, stop);
    AdvancedGeneration(states, moves, id, failing, stop, update);
    GenerationStaysReached(states, moves, stopped - 1, failing - 1, stop);
    UpdateFollowsStop(states, moves, stopped - 1, failing, stop, update);
  }

  /** The retry was begun after the terminal-failure update completed. */
  lemma RetryWaitsForUpdate(states: seq<State>, moves: seq<Move>, id: string, recorded: nat, retrying: nat, update: nat, retry: nat)
    requires IsRun(states, moves) && 0 < recorded < retrying && Tracked(states, id, recorded - 1, retrying)
    requires InPhase(states, id, recorded - 1, TerminalPending, update) && InPhase(states, id, recorded, RetryAwait, update)
    requires InPhase(states, id, retrying, RetryPending, retry)
    ensures retry > states[recorded].revision
  {
    hide Step, InPhase;
    PhaseEffect(states, moves, id, recorded - 1, TerminalPending, update);
    PhaseEffect(states, moves, id, recorded, RetryAwait, update);
    PhaseEffect(states, moves, id, retrying, RetryPending, retry);
    SameRequest(states, moves, id, recorded - 1, retrying, TerminalPending, update);
    UpdateFollowsUpdate(states, moves, recorded - 1, retrying, update, retry);
  }

  /** A recovery that began with a Stop reports success only after the Stop, then
      the terminal-failure update, then the retry update have completed, each of
      them begun by a commit after the one that completed the work before it. */
  lemma RecoverySucceedsInOrder(states: seq<State>, moves: seq<Move>, id: string, n: nat, m: nat)
      returns (stopped: nat, failing: nat, recorded: nat, retrying: nat)
    requires IsRun(states, moves) && Tracked(states, id, n, m)
    requires Recovering(At(states, id, n)) && At(states, id, n).phase.StopPending? && Succeeded(At(states, id, m))
    ensures n < stopped < failing < recorded < retrying < m
    ensures var stop := At(states, id, n).effect; Works(states[n], stop, Pending, None) && Works(states[stopped], stop, Completed, None)
    ensures var update := At(states, id, failing).effect;
            && update > states[stopped].revision
            && Works(states[failing], update, Pending, Some(TerminalFailure)) && Works(states[recorded], update, Completed, Some(TerminalFailure))
    ensures var retry := At(states, id, retrying).effect;
            && retry > states[recorded].revision
            && Works(states[retrying], retry, Pending, Some(Retry)) && Works(states[m], retry, Completed, Some(Retry))
  {
    hide Step, Gate, IsRun, Works;
    stopped := NextPhase(states, moves, id, n, m);
    failing := NextPhase(states, moves, id, stopped, m);
    recorded := NextPhase(states, moves, id, failing, m);
    retrying := NextPhase(states, moves, id, recorded, m);
    RetryDecides(states, moves, id, retrying, m);
    RecoveryOnlyRises(states, moves, id, n, m);
    RecoveryBound(states, moves, id, retrying);
    PhaseWorks(states, moves, id, n);
    PhaseWorks(states, moves, id, stopped);
    PhaseWorks(states, moves, id, failing);
    PhaseWorks(states, moves, id, recorded);
    PhaseWorks(states, moves, id, retrying);
    PhaseWorks(states, moves, id, m);
    UpdateWaitsForStop(states, moves, id, stopped, failing, At(states, id, stopped).effect, At(states, id, failing).effect);
    RetryWaitsForUpdate(states, moves, id, recorded, retrying, At(states, id, recorded).effect, At(states, id, retrying).effect);
  }

  lemma RecoveryBound(states: seq<State>, moves: seq<Move>, id: string, k: nat)
    requires IsRun(states, moves) && k < |states| && Find(states[k].receipts, id).Some? && Recovering(At(states, id, k))
    ensures At(states, id, k).effect != 0
  {
    hide Step;
    RunKeeps(states, moves, k);
    GatedReceipt(states[k], id);
  }

  // ---- Finishing a Stop twice ----------------------------------------------

  /** A recovery that this finish would answer with success. */
  ghost predicate SkipsAhead(s: State, f: RuntimeFinish, i: nat) {
    && FinishOperatorRuntime(s, f).Accepted? && i < |s.receipts|
    && Recovering(s.receipts[i]) && Succeeded(FinishOperatorRuntime(s, f).state.receipts[i])
  }

  ghost predicate AwaitsUpdate(s: State, id: nat, i: nat) {
    i < |s.receipts| && Recovering(s.receipts[i]) && s.receipts[i].phase.TerminalAwait? && s.receipts[i].effect == id
  }

  /** What finishing a runtime effect does to one recovery bound to it. */
  lemma FinishedRecovery(s: State, f: RuntimeFinish, i: nat)
    requires Gate(s) && FinishOperatorRuntime(s, f).Accepted? && i < |s.receipts| && Recovering(s.receipts[i])
    ensures f.identity.id in s.effects && |FinishOperatorRuntime(s, f).state.receipts| == |s.receipts|
    ensures var r, q := s.receipts[i], FinishOperatorRuntime(s, f).state.receipts[i];
      && (r.effect != f.identity.id ==> q == r)
      && (r.effect == f.identity.id ==> (r.phase.StopPending? && !q.state.Done?) || (r.phase.TerminalAwait? && q == CompleteOne(r, r.effect, s.revision + 1)))
  {
    hide FinishRuntime, UniqueIds, ClaimsAgree;
    var id := f.identity.id;
    FinishRuntimeKeepsReceipts(s, f);
    FinishesRuntimeOnly(s, f);
    assert BoundToEffect(s, s.receipts[i]) && ValidBinding(s.receipts[i]);
    if s.receipts[i].effect == id && s.receipts[i].phase.StopPending? {
      assert AwaitsAdvance(s.receipts[i], id, StopPending);
    } else if s.receipts[i].effect == id {
      forall j | 0 <= j < |s.receipts| ensures !AwaitsAdvance(s.receipts[j], id, StopPending) {
        assert BoundToEffect(s, s.receipts[j]) && ValidBinding(s.receipts[j]);
      }
    }
  }

  lemma FinishesRuntimeOnly(s: State, f: RuntimeFinish)
    requires FinishRuntime(s, f).Accepted?
    ensures f.identity.id in s.effects && IsRuntime(s.effects[f.identity.id], f.action)
  {
  }

  /** Finishing a Stop that is pending moves its recoveries to the next phase.
      Finishing it again is accepted too, and answers them with success before
      their updates were even begun: a recovery skips ahead exactly when it still
      awaits its terminal update on that, already completed, Stop. */
  lemma FinishSkipsAheadIff(s: State, f: RuntimeFinish, i: nat)
    requires Gate(s) && FinishOperatorRuntime(s, f).Accepted?
    ensures SkipsAhead(s, f, i) <==> AwaitsUpdate(s, f.identity.id, i)
    ensures SkipsAhead(s, f, i) ==> s.effects[f.identity.id].status.Completed?
  {
    hide FinishOperatorRuntime, UniqueIds, ClaimsAgree;
    if i < |s.receipts| && Recovering(s.receipts[i]) {
      FinishedRecovery(s, f, i);
      assert BoundToEffect(s, s.receipts[i]) && ValidBinding(s.receipts[i]);
    }
  }

  /** What such a finish proposes leaves a recovery bound to the wrong effect. */
  lemma SkippedIsUnbound(s: State, f: RuntimeFinish, i: nat, revoked: set<nat>, next: State)
    requires Gate(s) && Keyed(s.effects) && SkipsAhead(s, f, i)
    requires Proposed(s, Move(FinishOperatorRuntimeCommand(f), revoked)) == Some(next)
    ensures next != s && i < |next.receipts| && !BoundToEffect(next, next.receipts[i])
  {
    hide FinishOperatorRuntime, Proposed, EffectsKeyed, Keyed, UniqueIds, ClaimsAgree, GroupSteps, SealSteps, ResultSteps, StatusSteps;
    FinishSkipsAheadIff(s, f, i);
    FinishedRecovery(s, f, i);
    assert BoundToEffect(s, s.receipts[i]) && ValidBinding(s.receipts[i]);
    ProposedFinish(s, f, revoked, next);
    ProposalSteps(s, Move(FinishOperatorRuntimeCommand(f), revoked), next);
  }

  /** The gate refuses it. */
  lemma SkippingIsRefused(s: State, f: RuntimeFinish, i: nat, revoked: set<nat>, next: State)
    requires Gate(s) && Keyed(s.effects) && SkipsAhead(s, f, i)
    ensures !Step(s, Move(FinishOperatorRuntimeCommand(f), revoked), next)
  {
    hide FinishOperatorRuntime, Proposed, EffectsKeyed, Keyed, LedgerInv, BoundToEffect, SkipsAhead, CurrentClaim;
    if Proposed(s, Move(FinishOperatorRuntimeCommand(f), revoked)) == Some(next) {
      SkippedIsUnbound(s, f, i, revoked, next);
    }
  }

  lemma ProposedFinish(s: State, f: RuntimeFinish, revoked: set<nat>, next: State)
    requires Proposed(s, Move(FinishOperatorRuntimeCommand(f), revoked)) == Some(next)
    ensures FinishOperatorRuntime(s, f).Accepted? && next.receipts == FinishOperatorRuntime(s, f).state.receipts
  {
    hide FinishOperatorRuntime, Stamp, Begin, BeginReconciliation, BeginRuntime, InvalidateAttempt, FinishRuntime, FinishReconciliation, AdvanceRecovery, Reserve;
    var c := FinishOperatorRuntimeCommand(f);
    var reply := Apply(s, c);
    StampedOther(s, c, reply.state, reply.effect, revoked);
  }

  /** A ledger that passes the gate in which a repeated finish skips ahead. */
  lemma RepeatedFinishWitness() returns (s: State, f: RuntimeFinish)
    ensures Gate(s) && Keyed(s.effects) && SkipsAhead(s, f, 0)
  {
    var slot := Slot(1, 1);
    var manifest := Manifest(slot, 2, ManifestState.Failed, 0, "launch", "");
    var stop := Effect(3, slot, RuntimeWork(Stop), 1, 2, 1, Completed, false, RuntimeDigest("d"), "", None, false, false, false, 0, None, "", 0, false, 0, false);
    var recovery := Receipt(Request("recover-1", slot, Recover, true), Waiting, TerminalAwait, 3, "", None, None);
    s := EMPTY_STATE.(epoch := 1, revision := 4, issueGenerations := map[1 := 1], attemptGenerations := map[slot := 2],
                      attempts := map[slot := AttemptRecord(2, 0, manifest)], effects := map[3 := stop], receipts := [recovery]);
    f := RuntimeFinish(EffectIdentity(3, 1, 1, 2, RuntimeDigest("d")), Stop, manifest, true);
    assert BoundToEffect(s, recovery) && ValidBinding(recovery);
    FinishSkipsAheadIff(s, f, 0);
  }
}
