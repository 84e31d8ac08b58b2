// When effects were begun. An effect works under a generation that its attempt
// has reached; a Stop opens one of its own; and while a Stop or an update of an
// attempt is pending, no update of that attempt is begun. So work that outlives
// another is newer than its completion.
module EffectDates {
  import opened OwnerState
  import opened StateOwner
  import opened EffectSteps
  import opened OwnerRuns
  import opened EffectExclusion

  predicate PendingStop(e: Effect) {
    e.status.Pending? && IsRuntime(e, Stop)
  }

  ghost predicate GenerationsReached(s: State) {
    forall id :: id in s.effects ==> s.effects[id].attemptGeneration <= AttemptGeneration(s, s.effects[id].slot)
  }

  /** The Stop is pending on the attempt that the reconciliation works on. */
  predicate Beside(a: Effect, b: Effect) {
    PendingReconciliation(a) && PendingStop(b) && a.slot == b.slot
  }

  /** What is pending beside a Stop was begun under an earlier generation. */
  ghost predicate OlderThanStops(s: State) {
    forall a, b :: a in s.effects && b in s.effects && Beside(s.effects[a], s.effects[b]) ==>
      s.effects[a].attemptGeneration < s.effects[b].attemptGeneration
  }

  lemma StepKeepsReached(s: State, c: Command, next: State)
    requires GenerationsReached(s) && EffectsStep(s, c, next)
    ensures GenerationsReached(next)
  {
    hide Keyed, GroupSteps, SealSteps, StatusSteps, ResultSteps, Absorbed, Admits, AttemptGeneration, Born, CreatesOrCompletes;
    forall id | id in next.effects ensures next.effects[id].attemptGeneration <= AttemptGeneration(next, next.effects[id].slot) {
      if id in s.effects {
        assert AttemptGeneration(s, s.effects[id].slot) <= AttemptGeneration(next, s.effects[id].slot);
      }
    }
  }

  lemma StepKeepsOlder(s: State, c: Command, next: State)
    requires GenerationsReached(s) && OlderThanStops(s) && EffectsStep(s, c, next)
    ensures OlderThanStops(next)
  {
    hide Keyed, GroupSteps, SealSteps, ResultSteps, Absorbed, AttemptGeneration, Born, CreatesOrCompletes, Forward, Excludes;
    forall a, b | a in next.effects && b in next.effects && Beside(next.effects[a], next.effects[b])
      ensures next.effects[a].attemptGeneration < next.effects[b].attemptGeneration {
      AdmittedAlone(next.effects, a, b);
      if a in s.effects && b !in s.effects {
        assert s.effects[a].attemptGeneration <= AttemptGeneration(s, s.effects[a].slot);
      }
    }
  }

  lemma AdmittedAlone(effects: map<nat, Effect>, a: nat, b: nat)
    requires a in effects && b in effects
    ensures Beside(effects[a], effects[b]) ==> !Admits(effects - {a}, effects[a])
  {
    assert a != b ==> b in effects - {a};
  }

  lemma {:induction false} DatesHold(states: seq<State>, moves: seq<Move>, n: nat)
    requires IsRun(states, moves) && n < |states|
    ensures GenerationsReached(states[n]) && OlderThanStops(states[n])
  {
    hide Step, EffectsStep;
    if n > 0 {
      DatesHold(states, moves, n - 1);
      RunStep(states, moves, n - 1);
      StepKeepsReached(states[n - 1], moves[n - 1].command, states[n]);
      StepKeepsOlder(states[n - 1], moves[n - 1].command, states[n]);
    }
  }

  /** What is pending was pending ever since it was begun. */
  lemma {:induction false} PendingThroughout(states: seq<State>, moves: seq<Move>, i: nat, j: nat, id: nat)
    requires IsRun(states, moves) && i <= j < |states|
    requires id in states[i].effects && id in states[j].effects && states[j].effects[id].status.Pending?
    ensures states[i].effects[id].status.Pending?
    decreases j - i
  {
    hide Step, SealSteps, ResultSteps, GroupSteps, Admits, Keyed, Forward, Dated, CreatesOrCompletes;
    if i < j {
      EffectLives(states, moves, i, j, id);
      PendingThroughout(states, moves, i + 1, j, id);
      RunStep(states, moves, i);
    }
  }

  /** Work on an attempt that is pending after another was completed, and could
      not have been pending beside it, was begun after that completion. */
  lemma BegunAfter(states: seq<State>, moves: seq<Move>, k: nat, m: nat, done: nat, later: nat)
    requires IsRun(states, moves) && k + 1 <= m < |states|
    requires done in states[k].effects && done in states[k + 1].effects
    requires !states[k].effects[done].status.Completed? && states[k + 1].effects[done].status.Completed?
    requires later in states[m].effects && states[m].effects[later].status.Pending?
    requires later in states[k].effects ==> !states[k].effects[later].status.Pending?
    ensures later > states[k + 1].revision
  {
    hide Step, Steps, Born, Admits, Dated, Forward, Keyed;
    RunStep(states, moves, k);
    assert states[k + 1].effects.Keys <= states[k].effects.Keys;
    if later in states[k].effects {
      PendingThroughout(states, moves, k, m, later);
    } else if later <= states[k + 1].revision {
      NeverReborn(states, moves, k + 1, m, later);
    }
  }

  /** An update under a generation that a Stop had opened was begun after that
      Stop had completed. */
  lemma UpdateFollowsStop(states: seq<State>, moves: seq<Move>, k: nat, m: nat, stop: nat, update: nat)
    requires IsRun(states, moves) && k + 1 <= m < |states|
    requires stop in states[k].effects && PendingStop(states[k].effects[stop])
    requires stop in states[k + 1].effects && states[k + 1].effects[stop].status.Completed?
    requires update in states[m].effects && PendingReconciliation(states[m].effects[update])
    requires states[m].effects[update].slot == states[k].effects[stop].slot
    requires states[k].effects[stop].attemptGeneration <= states[m].effects[update].attemptGeneration
    ensures update > states[k + 1].revision
  {
    hide Step;
    DatesHold(states, moves, k);
    if update in states[k].effects {
      EffectLives(states, moves, k, m, update);
      assert !PendingReconciliation(states[k].effects[update]);
    }
    BegunAfter(states, moves, k, m, stop, update);
  }

  /** An update that is pending after another of its attempt was completed was
      begun after that. */
  lemma UpdateFollowsUpdate(states: seq<State>, moves: seq<Move>, k: nat, m: nat, first: nat, second: nat)
    requires IsRun(states, moves) && k + 1 <= m < |states|
    requires first in states[k].effects && PendingReconciliation(states[k].effects[first])
    requires first in states[k + 1].effects && states[k + 1].effects[first].status.Completed?
    requires second in states[m].effects && PendingReconciliation(states[m].effects[second])
    requires states[m].effects[second].slot == states[k].effects[first].slot
    ensures second > states[k + 1].revision
  {
    hide Step;
    if second == first {
      PendingThroughout(states, moves, k + 1, m, second);
    } else {
      if second in states[k].effects {
        EffectLives(states, moves, k, m, second);
        if states[k].effects[second].status.Pending? {
          ReviewersExcludeMutations(states, moves, k, first, second);
        }
      }
      BegunAfter(states, moves, k, m, first, second);
    }
  }
}
