// Mutual exclusion in every reachable ledger: a running reviewer and a GitHub
// mutation of the same issue are never both pending, and no attempt has two
// pending reconciliation effects.
module EffectExclusion {
  import opened OwnerState
  import opened StateOwner
  import opened EffectSteps
  import opened OwnerRuns

  ghost predicate Exclusive(s: State) {
    forall a, b :: a in s.effects && b in s.effects && a != b && PendingReconciliation(s.effects[a]) && PendingReconciliation(s.effects[b]) ==>
      s.effects[a].slot != s.effects[b].slot && !Excludes(s.effects[a], s.effects[b])
  }

  lemma StepKeepsExclusion(s: State, c: Command, next: State)
    requires Exclusive(s) && EffectsStep(s, c, next)
    ensures Exclusive(next)
  {
    hide GroupSteps, SealSteps, ResultSteps;
    forall a, b | a in next.effects && b in next.effects && a != b && PendingReconciliation(next.effects[a]) && PendingReconciliation(next.effects[b])
      ensures next.effects[a].slot != next.effects[b].slot && !Excludes(next.effects[a], next.effects[b]) {
      if a !in s.effects {
        assert b in next.effects - {a};
      } else if b !in s.effects {
        assert a in next.effects - {b};
      }
    }
  }

  lemma {:induction false} RunIsExclusive(states: seq<State>, moves: seq<Move>, n: nat)
    requires IsRun(states, moves) && n < |states|
    ensures Exclusive(states[n])
  {
    hide Step, Gate;
    if n > 0 {
      RunIsExclusive(states, moves, n - 1);
      RunStep(states, moves, n - 1);
      StepKeepsExclusion(states[n - 1], moves[n - 1].command, states[n]);
    }
  }

  /** In every reachable ledger a pending run-observe reviewer and a pending
      GitHub mutation other than machine status belong to different issues, and
      two pending reconciliation effects belong to different attempts. */
  lemma ReviewersExcludeMutations(states: seq<State>, moves: seq<Move>, n: nat, a: nat, b: nat)
    requires IsRun(states, moves) && n < |states| && a in states[n].effects && b in states[n].effects && a != b
    requires PendingReconciliation(states[n].effects[a]) && PendingReconciliation(states[n].effects[b])
    ensures RunsReviewer(states[n].effects[a]) && ExcludedMutation(states[n].effects[b]) ==>
      states[n].effects[a].slot.issue != states[n].effects[b].slot.issue
    ensures states[n].effects[a].slot != states[n].effects[b].slot
  {
    hide IsRun;
    RunIsExclusive(states, moves, n);
  }
}
