// The generation fence: once an attempt has moved past the generation of one of
// its effects, or is tombstoned, that effect can no longer change the attempt;
// and a completed effect answers the same result and refuses any other.
module GenerationFence {
  import opened OwnerState
  import opened Receipts
  import opened AttemptEffects
  import opened ReconciliationEffects
  import opened OperatorMutations
  import opened StateOwner
  import opened EffectSteps
  import opened OwnerRuns

  /** The attempt is past an effect begun at this generation. */
  predicate Passed(s: State, slot: Slot, generation: nat) {
    AttemptGeneration(s, slot) > generation || slot in s.tombstones
  }

  /** The command finishes or supersedes the effect. */
  predicate Concludes(c: Command, id: nat) {
    match c
    case FinishReconciliationCommand(f) => f.identity.id == id
    case SupersedeReviewCommand(r) => r.identity.id == id
    case FinishRuntimeCommand(f) => f.identity.id == id
    case FinishOperatorRuntimeCommand(f) => f.identity.id == id
    case _ => false
  }

  // ---- One command ---------------------------------------------------------

  lemma FinishIsFenced(s: State, f: ReconciliationFinish)
    requires f.identity.id in s.effects && s.effects[f.identity.id].slot.attempt != 0
    requires Passed(s, s.effects[f.identity.id].slot, s.effects[f.identity.id].attemptGeneration)
    ensures FinishReconciliation(s, f).Accepted? ==>
      FinishReconciliation(s, f).state == s && s.effects[f.identity.id].status.Completed? && s.effects[f.identity.id].result == Some(f.result)
  {
    hide ResultUnproved, ReceiptsAfterFinish, FinishObservationMatches, ValidResult;
  }

  lemma SupersessionIsFenced(s: State, r: ReviewSupersession)
    requires r.identity.id in s.effects
    requires Passed(s, s.effects[r.identity.id].slot, s.effects[r.identity.id].attemptGeneration)
    ensures SupersedeReview(s, r).Accepted? ==> SupersedeReview(s, r).state.attempts == s.attempts
  {
    hide CleanupAuthorized, ProofOf, PlanReviewInvalidated;
  }

  lemma RuntimeFinishIsFenced(s: State, f: RuntimeFinish)
    requires f.identity.id in s.effects
    requires Passed(s, s.effects[f.identity.id].slot, s.effects[f.identity.id].attemptGeneration)
    ensures FinishRuntime(s, f).Accepted? ==> FinishRuntime(s, f).state.attempts == s.attempts
    ensures FinishOperatorRuntime(s, f).Accepted? ==> FinishOperatorRuntime(s, f).state.attempts == s.attempts
  {
    hide Advance, CompleteBound, AuthorizedByTombstone, IssueGeneration;
  }

  /** Whatever concludes an effect that the attempt has passed leaves every
      attempt record as it was. */
  lemma ConclusionIsFenced(s: State, m: Move, next: State, id: nat)
    requires Keyed(s.effects) && Concludes(m.command, id) && Proposed(s, m) == Some(next)
    requires id in s.effects && s.effects[id].slot.attempt != 0 && Passed(s, s.effects[id].slot, s.effects[id].attemptGeneration)
    ensures next.attempts == s.attempts
  {
    hide FinishReconciliation, SupersedeReview, FinishRuntime, FinishOperatorRuntime, Passed, Begin, BeginReconciliation, BeginRuntime,
      InvalidateAttempt, AdvanceRecovery, Reserve, Keyed, Updates, JoinCoalesced, BindOne, StampTombstone, StampEffects;
    EveryCommandSteps(s, m.command);
    ConcludesWithoutEffect(s, m.command, id);
    match m.command {
      case FinishReconciliationCommand(f) => FinishIsFenced(s, f);
      case SupersedeReviewCommand(r) => SupersessionIsFenced(s, r);
      case FinishRuntimeCommand(f) => RuntimeFinishIsFenced(s, f);
      case FinishOperatorRuntimeCommand(f) => RuntimeFinishIsFenced(s, f);
      case _ =>
    }
  }

  lemma ConcludesWithoutEffect(s: State, c: Command, id: nat)
    requires Concludes(c, id) && Updates(s, c, Apply(s, c)) && Apply(s, c).Accepted?
    ensures Apply(s, c).effect.None?
  {
    hide Apply;
  }

  // ---- Whole runs ----------------------------------------------------------

  lemma {:induction false} PassedStays(states: seq<State>, moves: seq<Move>, i: nat, j: nat, slot: Slot, generation: nat)
    requires IsRun(states, moves) && i <= j < |states| && Passed(states[i], slot, generation)
    ensures Passed(states[j], slot, generation)
    decreases j - i
  {
    hide Step, Gate, Steps, Born, Admits;
    if i < j {
      RunStep(states, moves, i);
      assert AttemptGeneration(states[i], slot) <= AttemptGeneration(states[i + 1], slot);
      PassedStays(states, moves, i + 1, j, slot, generation);
    }
  }

  lemma ConclusionNeedsEffect(s: State, m: Move, next: State, id: nat)
    requires Concludes(m.command, id) && Proposed(s, m) == Some(next)
    ensures id in s.effects
  {
    hide Stamp, Begin, JoinCoalesced, Reserve, BeginReconciliation, BeginRuntime, InvalidateAttempt, AdvanceRecovery, NotFinishable, ResultUnproved,
      PlanReviewInvalidated, ReceiptsAfterFinish, CleanupAuthorized, CloseRuntime, AuthorizedByTombstone;
  }

  /** Once the attempt has passed the effect, at any later commit, finishing or
      superseding that effect leaves every attempt record as it was. */
  lemma FenceHolds(states: seq<State>, moves: seq<Move>, i: nat, j: nat, id: nat)
    requires IsRun(states, moves) && i <= j < |moves|
    requires id in states[i].effects && states[i].effects[id].slot.attempt != 0
    requires Passed(states[i], states[i].effects[id].slot, states[i].effects[id].attemptGeneration)
    requires Concludes(moves[j].command, id)
    ensures states[j + 1].attempts == states[j].attempts
  {
    hide Proposed, Gate, Passed, Concludes;
    assert Step(states[j], moves[j], states[j + 1]);
    ConclusionNeedsEffect(states[j], moves[j], states[j + 1], id);
    RunKeeps(states, moves, j);
    EffectLives(states, moves, i, j, id);
    PassedStays(states, moves, i, j, states[i].effects[id].slot, states[i].effects[id].attemptGeneration);
    ConclusionIsFenced(states[j], moves[j], states[j + 1], id);
  }

  lemma CompletedAnswers(s: State, f: ReconciliationFinish, revoked: set<nat>, next: State)
    requires f.identity.id in s.effects && s.effects[f.identity.id].status.Completed?
    requires Proposed(s, Move(FinishReconciliationCommand(f), revoked)) == Some(next)
    ensures next == s && s.effects[f.identity.id].result == Some(f.result)
  {
    hide Stamp, Begin, JoinCoalesced, Reserve, BeginReconciliation, BeginRuntime, InvalidateAttempt, AdvanceRecovery, NotFinishable, ResultUnproved, ValidResult;
  }

  /** A completed effect absorbs: as long as it is kept it has the result it
      completed with, and a later finish of it commits nothing and is answered
      only if it brings that same result. */
  lemma CompletedAbsorbs(states: seq<State>, moves: seq<Move>, i: nat, j: nat, id: nat)
    requires IsRun(states, moves) && i <= j < |moves|
    requires id in states[i].effects && states[i].effects[id].status.Completed?
    requires moves[j].command.FinishReconciliationCommand? && moves[j].command.finish.identity.id == id
    ensures states[j + 1] == states[j] && states[i].effects[id].result == Some(moves[j].command.finish.result)
  {
    hide Proposed, Gate;
    assert Step(states[j], moves[j], states[j + 1]);
    ConclusionNeedsEffect(states[j], moves[j], states[j + 1], id);
    EffectLives(states, moves, i, j, id);
    CompletedAnswers(states[j], moves[j].command.finish, moves[j].revoked, states[j + 1]);
  }
}
