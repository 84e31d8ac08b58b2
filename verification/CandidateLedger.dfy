// The candidate ledger while a command edits it in place: the loops over the
// receipts and effects, each shown to compute the pass that the rest of this
// project reasons about.
module CandidateLedger {
  import opened OwnerState
  import opened Receipts
  import opened OperatorMutations
  import opened StateOwner

  class Candidate {
    const base: State
    var receipts: seq<Receipt>
    var effects: map<nat, Effect>

    /** The whole candidate: what the loops edit, over what they leave alone. */
    ghost function View(): State
      reads this
    {
      base.(receipts := receipts, effects := effects)
    }

    constructor (s: State)
      ensures View() == s && base == s
    {
      base, receipts, effects := s, s.receipts, s.effects;
    }

    method RestampClaims(epoch: nat)
      modifies this`receipts
      ensures receipts == Receipts.RestampClaims(old(receipts), epoch)
    {
      var i := 0;
      while i < |receipts|
        invariant 0 <= i <= |receipts| == |old(receipts)|
        invariant forall j :: 0 <= j < |receipts| ==> receipts[j] == if j < i then RestampClaim(old(receipts)[j], epoch) else old(receipts)[j]
      {
        var receipt := receipts[i];
        if receipt.phase.AdmissionPending? && receipt.admission.Some? {
          receipts := receipts[i := receipt.(admission := Some(receipt.admission.value.(epoch := epoch)))];
        }
        i := i + 1;
      }
    }

    /** The class of a claim, in list order. */
    method MatchingAdmissions(r: Receipt) returns (requests: seq<Request>)
      requires Claims(r) && r.admission.Some?
      ensures requests == Coalesced(receipts, r)
    {
      requests := [];
      var i := 0;
      assert receipts[0..] == receipts;
      while i < |receipts|
        invariant 0 <= i <= |receipts| && requests + Coalesced(receipts[i..], r) == Coalesced(receipts, r)
      {
        assert receipts[i..][1..] == receipts[i + 1..];
        if SameClaim(receipts[i], r) {
          requests := requests + [receipts[i].request];
        }
        i := i + 1;
      }
    }

    method IsLeader(r: Receipt) returns (leads: bool)
      ensures leads == Leads(receipts, r)
    {
      var i := 0;
      assert receipts[0..] == receipts;
      while i < |receipts|
        invariant 0 <= i <= |receipts| && Leads(receipts, r) == Leads(receipts[i..], r)
      {
        if SameClaim(receipts[i], r) {
          return receipts[i].request.id == r.request.id;
        }
        assert receipts[i..][1..] == receipts[i + 1..];
        i := i + 1;
      }
      return false;
    }

    method FailAdmissions(r: Receipt, result: ControlResult, revision: nat)
      requires Claims(r)
      modifies this`receipts
      ensures receipts == FailClaims(old(receipts), r, result, revision)
    {
      var i := 0;
      while i < |receipts|
        invariant 0 <= i <= |receipts| == |old(receipts)|
        invariant forall j :: 0 <= j < |receipts| ==> receipts[j] == if j < i then FailClaim(old(receipts)[j], r, result, revision) else old(receipts)[j]
      {
        var receipt := receipts[i];
        if SameClaim(receipt, r) {
          var own := result.(requestId := receipt.request.id, action := receipt.request.action, revision := revision);
          receipts := receipts[i := receipt.(state := Done, phase := PhaseCompleted, diagnostic := "", result := Some(own), admission := None)];
        }
        i := i + 1;
      }
    }

    method ReconcileAdmissions(c: Collection)
      modifies this`receipts
      ensures receipts == ReconcileClaims(old(View()), c)
    {
      ghost var before := View();
      var i := 0;
      while i < |receipts|
        invariant 0 <= i <= |receipts| == |before.receipts|
        invariant forall j :: 0 <= j < |receipts| ==> receipts[j] == if j < i then ReconcileClaim(before, before.receipts[j], c) else before.receipts[j]
      {
        var receipt := receipts[i];
        var issue := receipt.request.slot.issue;
        ClaimReadsNoReceipts(before, base, receipt, c);
        if Claims(receipt) && ObservationSensitive(receipt) && issue in c.scope && issue in base.observations {
          var observation := base.observations[issue];
          if observation.epoch == c.epoch && observation.cycle == c.cycle && receipt.admission.value.sighting != Seen(observation) {
            if ClaimLost(base, receipt, observation) {
              var lost := ControlResult(receipt.request.id, receipt.request.action, false, 409, "attempt or issue changed; refresh and retry", base.revision + 1);
              receipts := receipts[i := receipt.(state := Done, phase := PhaseCompleted, diagnostic := "", result := Some(lost), admission := None)];
            } else {
              receipts := receipts[i := receipt.(admission := Some(receipt.admission.value.(sighting := Seen(observation))))];
            }
          }
        }
        i := i + 1;
      }
    }

    method AdvanceRecoverReceipts(effect: nat, from: Phase, to: Phase) returns (advanced: bool)
      modifies this`receipts
      ensures receipts == Advance(old(receipts), effect, from, to)
      ensures advanced == Advances(old(receipts), effect, from)
    {
      advanced := false;
      var i := 0;
      while i < |receipts|
        invariant 0 <= i <= |receipts| == |old(receipts)|
        invariant forall j :: 0 <= j < |receipts| ==> receipts[j] == if j < i then AdvanceOne(old(receipts)[j], effect, from, to) else old(receipts)[j]
        invariant advanced ==> Advances(old(receipts), effect, from)
        invariant !advanced ==> forall j :: 0 <= j < i ==> !AwaitsAdvance(old(receipts)[j], effect, from)
      {
        var receipt := receipts[i];
        if receipt.request.action.Recover? && receipt.state.Waiting? && receipt.phase == from && receipt.effect == effect {
          assert AwaitsAdvance(old(receipts)[i], effect, from);
          receipts := receipts[i := receipt.(phase := to, diagnostic := "")];
          advanced := true;
        }
        i := i + 1;
      }
    }

    method CompleteReceipts(effect: nat)
      modifies this`receipts
      ensures receipts == CompleteBound(old(receipts), effect, base.revision + 1)
    {
      var i := 0;
      while i < |receipts|
        invariant 0 <= i <= |receipts| == |old(receipts)|
        invariant forall j :: 0 <= j < |receipts| ==> receipts[j] == if j < i then CompleteOne(old(receipts)[j], effect, base.revision + 1) else old(receipts)[j]
      {
        var receipt := receipts[i];
        if receipt.effect == effect && receipt.state.Waiting? {
          receipts := receipts[i := receipt.(state := Done, phase := PhaseCompleted, diagnostic := "", result := Some(Success(receipt.request, base.revision + 1)))];
        }
        i := i + 1;
      }
    }

    method FailReceipts(effect: nat, diagnostic: string)
      modifies this`receipts
      ensures receipts == FailBound(old(receipts), effect, diagnostic, base.revision + 1)
    {
      var i := 0;
      while i < |receipts|
        invariant 0 <= i <= |receipts| == |old(receipts)|
        invariant forall j :: 0 <= j < |receipts| ==> receipts[j] == if j < i then FailOne(old(receipts)[j], effect, diagnostic, base.revision + 1) else old(receipts)[j]
      {
        var receipt := receipts[i];
        if receipt.effect != effect || !receipt.state.Waiting? {
          i := i + 1;
          continue;
        }
        receipts := receipts[i := receipt.(state := Done, phase := PhaseCompleted, diagnostic := "", result := Some(Failure(receipt.request, 500, diagnostic, base.revision + 1)))];
        i := i + 1;
      }
    }

    method DeleteRequest(id: string)
      modifies this`receipts
      ensures receipts == Without(old(receipts), id)
    {
      var kept := [];
      var i := 0;
      assert receipts[0..] == receipts;
      while i < |receipts|
        invariant 0 <= i <= |receipts| && receipts == old(receipts) && kept + Without(receipts[i..], id) == Without(receipts, id)
      {
        assert receipts[i..][1..] == receipts[i + 1..];
        if receipts[i].request.id != id {
          kept := kept + [receipts[i]];
        }
        i := i + 1;
      }
      receipts := kept;
    }

    /** Appends; a full list first gives up its oldest completed receipt. */
    method AppendOperatorReceipt(r: Receipt) returns (ok: bool)
      modifies this
      ensures ok <==> AppendReceipt(old(View()), r).Some?
      ensures View() == if ok then AppendReceipt(old(View()), r).value else old(View())
    {
      if |receipts| == MAX_CONTROL_RECEIPTS {
        var completed := 0;
        assert receipts[0..] == receipts;
        while completed < |receipts| && !receipts[completed].state.Done?
          invariant 0 <= completed <= |receipts|
          invariant OldestDone(receipts) == completed + OldestDone(receipts[completed..])
        {
          assert receipts[completed..][1..] == receipts[completed + 1..];
          completed := completed + 1;
        }
        if completed == |receipts| {
          return false;
        }
        var evicted := receipts[completed].effect;
        receipts := receipts[..completed] + receipts[completed + 1..];
        if evicted != 0 && !ReferencedByReceipt(receipts, evicted) && !ReferencedByTombstone(base, evicted) {
          if evicted in effects && effects[evicted].status.Completed? {
            effects := effects - {evicted};
          }
        }
      }
      receipts := receipts + [r];
      return true;
    }

    /** Closes the other workflows of the attempt and names their effects. */
    method CloseOthers(slot: Slot, action: OperatorAction) returns (remove: set<nat>)
      modifies this`receipts
      ensures receipts == SupersedeReceipts(old(receipts), slot, action, base.revision + 1)
      ensures forall id :: id in remove <==> exists j :: 0 <= j < |old(receipts)| && Superseded(old(receipts)[j], slot, action) && old(receipts)[j].effect == id
    {
      remove := {};
      var i := 0;
      while i < |receipts|
        invariant 0 <= i <= |receipts| == |old(receipts)|
        invariant forall j :: 0 <= j < |receipts| ==>
          receipts[j] == if j < i then SupersedeOne(old(receipts)[j], slot, action, base.revision + 1) else old(receipts)[j]
        invariant forall id :: id in remove <==> exists j :: 0 <= j < i && Superseded(old(receipts)[j], slot, action) && old(receipts)[j].effect == id
      {
        var receipt := receipts[i];
        if !receipt.state.Waiting? || receipt.request.slot != slot || receipt.request.action == action {
          i := i + 1;
          continue;
        }
        remove := remove + {receipt.effect};
        var result := Failure(receipt.request, 409, "operator workflow superseded", base.revision + 1);
        receipts := receipts[i := receipt.(state := Done, phase := PhaseCompleted, effect := 0, diagnostic := "", result := Some(result))];
        i := i + 1;
      }
    }

    /** Drops those effects that nothing names any more, in any order. */
    method DropUnnamed(remove: set<nat>)
      modifies this`effects
      ensures effects == map id | id in old(effects) && (id in remove ==> !Unnamed(base, receipts, id)) :: old(effects)[id]
    {
      hide Unnamed;
      var left := remove;
      while left != {}
        invariant left <= remove
        invariant effects == map id | id in old(effects) && (id in remove - left ==> !Unnamed(base, receipts, id)) :: old(effects)[id]
        decreases |left|
      {
        var id :| id in left;
        if Unnamed(base, receipts, id) {
          effects := effects - {id};
        }
        left := left - {id};
      }
    }

    /** Closes the other workflows of the attempt, then drops the effects whose
        last reference went with them. */
    method SupersedePendingWorkflows(slot: Slot, action: OperatorAction)
      modifies this
      ensures View() == Supersede(old(View()), slot, action)
    {
      hide SupersedeReceipts, ReferencedByReceipt;
      ghost var before := View();
      var remove := CloseOthers(slot, action);
      DropUnnamed(remove);
      OrphansAreUnnamed(before, base, receipts, slot, action, remove);
    }
  }

  predicate Unnamed(s: State, rs: seq<Receipt>, id: nat) {
    id != 0 && !ReferencedByReceipt(rs, id) && !ReferencedByTombstone(s, id)
  }

  lemma OrphansAreUnnamed(s: State, base: State, after: seq<Receipt>, slot: Slot, action: OperatorAction, remove: set<nat>)
    requires s.tombstones == base.tombstones
    requires forall id :: id in remove <==> exists j :: 0 <= j < |s.receipts| && Superseded(s.receipts[j], slot, action) && s.receipts[j].effect == id
    ensures forall id :: Orphaned(s, after, slot, action, id) <==> id in remove && Unnamed(base, after, id)
  {
    hide ReferencedByReceipt;
  }

  lemma ClaimReadsNoReceipts(s: State, base: State, r: Receipt, c: Collection)
    requires s == base.(receipts := s.receipts, effects := s.effects)
    ensures CollectedNow(s, r, c) == CollectedNow(base, r, c)
    ensures r.admission.Some? ==> forall o :: ClaimLost(s, r, o) == ClaimLost(base, r, o)
  {
  }
}
