// Facts about whole runs of the owner that the run theorems share: what each
// committed ledger satisfies, and the life of one effect.
module OwnerRuns {
  import opened OwnerState
  import opened Receipts
  import opened StateOwner
  import opened ReceiptSteps
  import opened EffectSteps

  lemma {:induction false} RunKeeps(states: seq<State>, moves: seq<Move>, n: nat)
    requires IsRun(states, moves) && n < |states|
    ensures Gate(states[n]) && Keyed(states[n].effects)
  {
    hide Proposed;
    if n > 0 {
      RunKeeps(states, moves, n - 1);
      assert Step(states[n - 1], moves[n - 1], states[n]);
      ProposalSteps(states[n - 1], moves[n - 1], states[n]);
    }
  }

  lemma RunStep(states: seq<State>, moves: seq<Move>, n: nat)
    requires IsRun(states, moves) && n < |moves|
    ensures EffectsStep(states[n], moves[n].command, states[n + 1])
    ensures forall q :: q in states[n + 1].receipts ==> Traced(states[n], moves[n].command, q)
  {
    hide Proposed, Traced, EffectsStep;
    RunKeeps(states, moves, n);
    assert Step(states[n], moves[n], states[n + 1]);
    ProposalSteps(states[n], moves[n], states[n + 1]);
    ProposalTraces(states[n], moves[n], states[n + 1]);
  }

  /** An identifier that was used never comes back. */
  lemma {:induction false} NeverReborn(states: seq<State>, moves: seq<Move>, i: nat, j: nat, id: nat)
    requires IsRun(states, moves) && i <= j < |states|
    requires id !in states[i].effects && id <= states[i].revision
    ensures id !in states[j].effects && states[i].revision <= states[j].revision
    decreases j - i
  {
    hide Step, Gate;
    if i < j {
      RunStep(states, moves, i);
      NeverReborn(states, moves, i + 1, j, id);
    }
  }

  lemma {:induction false} RevisionGrows(states: seq<State>, moves: seq<Move>, i: nat, j: nat)
    requires IsRun(states, moves) && i <= j < |states|
    ensures states[i].revision <= states[j].revision
    decreases j - i
  {
    hide Step, Gate;
    if i < j {
      RunStep(states, moves, i);
      RevisionGrows(states, moves, i + 1, j);
    }
  }

  /** An effect that is there at both ends was there throughout, with the same
      intent; a group or a result it had at the first it has at the last. */
  lemma {:induction false} EffectLives(states: seq<State>, moves: seq<Move>, i: nat, j: nat, id: nat)
    requires IsRun(states, moves) && i <= j < |states|
    requires id in states[i].effects && id in states[j].effects
    ensures forall k :: i <= k <= j ==> id in states[k].effects
    ensures SameIntent(states[i].effects[id], states[j].effects[id])
    ensures states[i].effects[id].launched ==> states[j].effects[id].launched && states[j].effects[id].groupPid == states[i].effects[id].groupPid
    ensures states[i].effects[id].status.Completed? ==>
      states[j].effects[id].status.Completed? && states[j].effects[id].result == states[i].effects[id].result
    decreases j - i
  {
    hide Step, Gate, SealSteps, ResultSteps;
    if i < j {
      RunKeeps(states, moves, i);
      RunStep(states, moves, i);
      if id !in states[i + 1].effects {
        EffectsBounded(states[i], id);
        NeverReborn(states, moves, i + 1, j, id);
      } else {
        EffectLives(states, moves, i + 1, j, id);
      }
    }
  }

  lemma EffectsBounded(s: State, id: nat)
    requires Gate(s) && id in s.effects
    ensures id <= s.revision
  {
  }
}
