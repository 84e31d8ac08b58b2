// A reviewer's verdict over whole runs: clean or findings is recorded only if
// exactly that result was sealed, on a clean exit of the one process group that
// had been bound to the effect before.
module ReviewerAuthenticity {
  import opened OwnerState
  import opened ReconciliationEffects
  import opened StateOwner
  import opened EffectSteps
  import opened OwnerRuns

  /** The commit `moves[i]` bound the group `pid` to the effect. */
  ghost predicate BoundAt(states: seq<State>, moves: seq<Move>, i: nat, id: nat, pid: nat) {
    && i < |moves| < |states| && pid >= 2 && BindsGroup(moves[i].command, id, pid)
    && id in states[i].effects && !states[i].effects[id].launched && states[i].effects[id].status.Pending?
    && id in states[i + 1].effects && states[i + 1].effects[id].launched && states[i + 1].effects[id].groupPid == pid
  }

  /** The commit `moves[j]` sealed `result` on the terminal of `pid`. */
  ghost predicate SealedAt(states: seq<State>, moves: seq<Move>, j: nat, id: nat, pid: nat, result: EffectResult) {
    && j < |moves| < |states| && Seals(moves[j].command, id, pid, result)
    && id in states[j].effects && states[j].effects[id].sealed.None? && states[j].effects[id].status.Pending?
    && states[j].effects[id].launched && states[j].effects[id].groupPid == pid
    && id in states[j + 1].effects && states[j + 1].effects[id].sealed == Some(result)
  }

  /** The commit `moves[k]` finished the effect with `result`. */
  ghost predicate FinishedAt(states: seq<State>, moves: seq<Move>, k: nat, id: nat, result: EffectResult) {
    && k < |moves| < |states| && moves[k].command.FinishReconciliationCommand? && moves[k].command.finish.identity.id == id
    && moves[k].command.finish.result == result
    && id in states[k].effects && !states[k].effects[id].status.Completed?
    && id in states[k + 1].effects && states[k + 1].effects[id].status.Completed? && states[k + 1].effects[id].result == Some(result)
  }

  /** A launched effect was bound to its group by an earlier commit. */
  lemma {:induction false} GroupWasBound(states: seq<State>, moves: seq<Move>, n: nat, id: nat) returns (i: nat)
    requires IsRun(states, moves) && n < |states| && id in states[n].effects && states[n].effects[id].launched
    ensures i < n && BoundAt(states, moves, i, id, states[n].effects[id].groupPid)
  {
    hide Step, SealSteps, ResultSteps;
    RunKeeps(states, moves, n - 1);
    RunStep(states, moves, n - 1);
    if id in states[n - 1].effects && states[n - 1].effects[id].launched {
      i := GroupWasBound(states, moves, n - 1, id);
    } else {
      i := n - 1;
    }
  }

  /** A sealed result was sealed by an earlier commit, on the group bound then. */
  lemma {:induction false} ResultWasSealed(states: seq<State>, moves: seq<Move>, n: nat, id: nat) returns (j: nat)
    requires IsRun(states, moves) && n < |states| && id in states[n].effects && states[n].effects[id].sealed.Some?
    ensures j < n && SealedAt(states, moves, j, id, states[n].effects[id].groupPid, states[n].effects[id].sealed.value)
  {
    hide Step, ResultSteps, StatusSteps, Absorbed;
    RunKeeps(states, moves, n - 1);
    RunStep(states, moves, n - 1);
    if id in states[n - 1].effects && states[n - 1].effects[id].sealed == states[n].effects[id].sealed {
      j := ResultWasSealed(states, moves, n - 1, id);
      EffectLives(states, moves, j, n - 1, id);
    } else {
      j := n - 1;
    }
  }

  /** A run-observe reviewer completes as clean or findings only if its process
      group was bound, then exactly that result was sealed on a clean exit of the
      same group, and then the effect was finished with it, in that order. */
  lemma {:induction false} VerdictIsAuthentic(states: seq<State>, moves: seq<Move>, n: nat, id: nat) returns (i: nat, j: nat, k: nat)
    requires IsRun(states, moves) && n < |states| && id in states[n].effects
    requires var e := states[n].effects[id]; RunsReviewer(e) && e.status.Completed? && e.result.Some? && Verdict(e.result.value)
    ensures i < j < k < n
    ensures var e := states[n].effects[id];
      && BoundAt(states, moves, i, id, e.groupPid)
      && SealedAt(states, moves, j, id, e.groupPid, e.result.value)
      && moves[j].command.terminal.exitCode == 0 && moves[j].command.terminal.signal == 0
      && FinishedAt(states, moves, k, id, e.result.value)
  {
    hide Step, BoundAt, Gate, GroupSteps, StatusSteps;
    RunKeeps(states, moves, n - 1);
    RunStep(states, moves, n - 1);
    assert id in states[n - 1].effects;
    if states[n - 1].effects[id].status.Completed? {
      i, j, k := VerdictIsAuthentic(states, moves, n - 1, id);
    } else {
      k := n - 1;
      j := ResultWasSealed(states, moves, k, id);
      i := GroupWasBound(states, moves, j, id);
    }
  }

  /** The group and the sealed result of a pending effect are written once. */
  lemma {:induction false} GroupAndSealAreWrittenOnce(states: seq<State>, moves: seq<Move>, i: nat, j: nat, id: nat)
    requires IsRun(states, moves) && i <= j < |states| && id in states[i].effects && id in states[j].effects
    ensures states[i].effects[id].launched ==> states[j].effects[id].groupPid == states[i].effects[id].groupPid
    ensures states[i].effects[id].sealed.Some? && !states[j].effects[id].status.Completed? ==>
      states[j].effects[id].sealed == states[i].effects[id].sealed
    decreases j - i
  {
    hide Step, Gate, ResultSteps, BoundAt;
    EffectLives(states, moves, i, j, id);
    if i < j {
      RunStep(states, moves, i);
      GroupAndSealAreWrittenOnce(states, moves, i + 1, j, id);
      EffectLives(states, moves, i + 1, j, id);
    }
  }
}
