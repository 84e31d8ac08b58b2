// Every operator command keeps the receipt ledger well formed, so the commit
// gate never has to refuse one for its receipts; and what a claim, its class and
// the bounded list guarantee to the requests that hold them.
module LedgerInvariant {
  import opened OwnerState
  import opened Receipts
  import opened AttemptEffects
  import opened ReconciliationEffects
  import opened OperatorMutations
  import opened StateOwner

  ghost predicate Shaped(rs: seq<Receipt>) {
    UniqueIds(rs) && |rs| <= MAX_CONTROL_RECEIPTS && ClaimsAgree(rs)
  }

  // ---- Passes, removal and append ------------------------------------------

  /** A pass that keeps requests and treats equal claims alike keeps the shape. */
  lemma EachKeepsShape(rs: seq<Receipt>, f: Receipt -> Receipt)
    requires Shaped(rs)
    requires forall r :: f(r).request == r.request
    requires forall a, b :: Agree(a, b) ==> Agree(f(a), f(b))
    ensures Shaped(Each(rs, f))
  {
    var out := Each(rs, f);
    forall i, j | 0 <= i < |out| && 0 <= j < |out| ensures Agree(out[i], out[j]) {
      assert Agree(rs[i], rs[j]);
    }
  }

  lemma EachKeepsLedger(rs: seq<Receipt>, f: Receipt -> Receipt)
    requires LedgerInv(rs)
    requires forall r :: f(r).request == r.request
    requires forall a, b :: Agree(a, b) ==> Agree(f(a), f(b))
    requires forall r :: ValidBinding(r) ==> ValidBinding(f(r))
    ensures LedgerInv(Each(rs, f))
  {
    EachKeepsShape(rs, f);
  }

  lemma TailKeepsShape(rs: seq<Receipt>)
    requires Shaped(rs) && rs != []
    ensures Shaped(rs[1..])
  {
    var tail := rs[1..];
    forall i, j | 0 <= i < |tail| && 0 <= j < |tail| ensures Agree(tail[i], tail[j]) {
      assert Agree(rs[i + 1], rs[j + 1]);
    }
  }

  /** The first receipt before some of the others. */
  lemma PrependKeepsShape(rs: seq<Receipt>, kept: seq<Receipt>)
    requires Shaped(rs) && rs != [] && Shaped(kept) && |kept| < |rs|
    requires forall r :: r in kept ==> r in rs[1..]
    ensures Shaped([rs[0]] + kept)
  {
    hide Agree;
    var out := [rs[0]] + kept;
    forall i, j | 0 <= i < |out| && 0 <= j < |out| ensures Agree(out[i], out[j]) {
      assert forall k :: 0 <= k < |kept| ==> kept[k] in rs by {
        forall k | 0 <= k < |kept| ensures kept[k] in rs {
          assert kept[k] in rs[1..];
        }
      }
      var x := if i == 0 then 0 else PositionOf(rs, kept[i - 1]);
      var y := if j == 0 then 0 else PositionOf(rs, kept[j - 1]);
      assert Agree(rs[x], rs[y]);
    }
    forall j | 1 <= j < |out| ensures out[0].request.id != out[j].request.id {
      assert kept[j - 1] in rs[1..];
    }
  }

  ghost function PositionOf(rs: seq<Receipt>, r: Receipt): (k: nat)
    requires r in rs
    ensures k < |rs| && rs[k] == r
  {
    var k :| 0 <= k < |rs| && rs[k] == r;
    k
  }

  lemma {:induction false} WithoutKeepsShape(rs: seq<Receipt>, id: string)
    requires Shaped(rs)
    ensures Shaped(Without(rs, id))
  {
    if rs != [] {
      var tail := rs[1..];
      TailKeepsShape(rs);
      WithoutKeepsShape(tail, id);
      if rs[0].request.id != id {
        PrependKeepsShape(rs, Without(tail, id));
      }
    }
  }

  lemma RemoveKeepsShape(rs: seq<Receipt>, k: nat)
    requires Shaped(rs) && k < |rs|
    ensures Shaped(rs[..k] + rs[k + 1..])
    ensures forall r :: r in rs[..k] + rs[k + 1..] ==> r in rs
  {
    var out := rs[..k] + rs[k + 1..];
    forall i, j | 0 <= i < |out| && 0 <= j < |out| ensures Agree(out[i], out[j]) {
      assert Agree(rs[if i < k then i else i + 1], rs[if j < k then j else j + 1]);
    }
  }

  ghost predicate Unused(rs: seq<Receipt>, id: string) {
    forall r :: r in rs ==> r.request.id != id
  }

  /** What appending does to the list: one more receipt, at most one completed
      receipt fewer, and nothing else of the ledger but an unnamed effect. */
  lemma AppendKeepsShape(s: State, r: Receipt, after: State)
    requires Shaped(s.receipts) && Unused(s.receipts, r.request.id)
    requires Claims(r) ==> forall q :: q in s.receipts ==> Agree(q, r) && Agree(r, q)
    requires AppendReceipt(s, r) == Some(after)
    ensures Shaped(after.receipts) && r in after.receipts
    ensures forall q :: q in after.receipts ==> q == r || q in s.receipts
    ensures after == s.(receipts := after.receipts, effects := after.effects)
    ensures after.effects.Keys <= s.effects.Keys && forall id :: id in after.effects ==> after.effects[id] == s.effects[id]
  {
    var rest := s.receipts;
    if |s.receipts| == MAX_CONTROL_RECEIPTS {
      var k := OldestDone(s.receipts);
      RemoveKeepsShape(s.receipts, k);
      rest := s.receipts[..k] + s.receipts[k + 1..];
    }
    var out := rest + [r];
    assert after.receipts == out && out[|rest|] == r;
    forall i, j | 0 <= i < |out| && 0 <= j < |out| ensures Agree(out[i], out[j]) {
      if i < |rest| && j < |rest| {
        assert Agree(rest[i], rest[j]);
      } else if i < |rest| {
        assert out[i] in s.receipts;
      } else if j < |rest| {
        assert out[j] in s.receipts;
      }
    }
    forall i | 0 <= i < |rest| ensures rest[i].request.id != r.request.id {
      assert rest[i] in s.receipts;
    }
  }

  // ---- Commands that pass over the list ------------------------------------

  /** A reservation that changes the list appends one claim of its request,
      equal to the claim already held on the attempt if there is one. */
  lemma ReserveClaims(s: State, q: Request, valid: bool, statusAllows: bool, after: State) returns (claim: Receipt)
    requires Reserve(s, q, valid, statusAllows).Accepted? && Reserve(s, q, valid, statusAllows).state == after && after != s
    ensures AppendReceipt(s, claim) == Some(after)
    ensures claim.admission.Some? && claim == Claim(q, claim.admission.value)
    ensures Find(s.receipts, q.id).None?
    ensures ClaimOn(s.receipts, q.slot).Some? ==>
      ClaimOn(s.receipts, q.slot).value.request.action == q.action && ClaimOn(s.receipts, q.slot).value.admission == claim.admission
  {
    hide AppendReceipt, Find, ClaimOn, RemoteAttemptCompleted, Destructive, Reserved;
    match ClaimOn(s.receipts, q.slot) {
      case Some(held) =>
        claim := Claim(q, held.admission.value);
      case None =>
        if q.slot !in s.attempts {
          var o := s.observations[q.slot.issue];
          claim := Claim(q, Admission(s.epoch, IssueGeneration(s, q.slot.issue), AttemptGeneration(s, q.slot), None, q.action.Dismiss?, true, Seen(o)));
        } else {
          var record := s.attempts[q.slot];
          var sightless := Admission(s.epoch, IssueGeneration(s, q.slot.issue), record.generation, Some(record.manifest), false, false, NO_SIGHTING);
          var sighted := (q.action.Recover? || q.action.Dismiss?) && q.slot.issue in s.observations;
          claim := Claim(q, if sighted then sightless.(sighting := Seen(s.observations[q.slot.issue])) else sightless);
        }
    }
  }

  lemma ReserveKeepsLedger(s: State, q: Request, valid: bool, statusAllows: bool, after: State)
    requires LedgerInv(s.receipts)
    requires Reserve(s, q, valid, statusAllows).Accepted? && Reserve(s, q, valid, statusAllows).state == after
    ensures LedgerInv(after.receipts)
  {
    hide Reserve, AppendReceipt;
    if after != s {
      var claim := ReserveClaims(s, q, valid, statusAllows, after);
      var held := ClaimOn(s.receipts, q.slot);
      forall r | r in s.receipts ensures r.request.id != q.id && Agree(r, claim) && Agree(claim, r) {
        var i :| 0 <= i < |s.receipts| && s.receipts[i] == r;
        if held.Some? {
          var j :| 0 <= j < |s.receipts| && s.receipts[j] == held.value;
          assert Agree(s.receipts[i], s.receipts[j]);
        }
      }
      AppendKeepsShape(s, claim, after);
      forall i | 0 <= i < |after.receipts| ensures ValidBinding(after.receipts[i]) {
        assert after.receipts[i] in after.receipts;
      }
    }
  }

  lemma AbortKeepsLedger(s: State, q: Request, after: State)
    requires LedgerInv(s.receipts) && Abort(s, q).Accepted? && Abort(s, q).state == after
    ensures LedgerInv(after.receipts)
  {
    var k := IndexOf(s.receipts, q.id);
    if k < |s.receipts| {
      RemoveKeepsShape(s.receipts, k);
    }
  }

  lemma EffectPassesKeepLedger(rs: seq<Receipt>, effect: nat, revision: nat, diagnostic: string)
    requires LedgerInv(rs) && effect != 0
    ensures LedgerInv(Advance(rs, effect, StopPending, TerminalAwait))
    ensures LedgerInv(Advance(rs, effect, TerminalPending, RetryAwait))
    ensures LedgerInv(CompleteBound(rs, effect, revision))
    ensures LedgerInv(FailBound(rs, effect, diagnostic, revision))
    ensures LedgerInv(Each(rs, (r: Receipt) => CloseReview(r, effect, revision)))
    ensures LedgerInv(Each(rs, (r: Receipt) => StartCleanupOne(r, effect)))
  {
    EachKeepsLedger(rs, (r: Receipt) => AdvanceOne(r, effect, StopPending, TerminalAwait));
    EachKeepsLedger(rs, (r: Receipt) => AdvanceOne(r, effect, TerminalPending, RetryAwait));
    EachKeepsLedger(rs, (r: Receipt) => CompleteOne(r, effect, revision));
    EachKeepsLedger(rs, (r: Receipt) => FailOne(r, effect, diagnostic, revision));
    EachKeepsLedger(rs, (r: Receipt) => CloseReview(r, effect, revision));
    EachKeepsLedger(rs, (r: Receipt) => StartCleanupOne(r, effect));
  }

  lemma DiagnoseKeepsLedger(s: State, id: string, phase: Phase, effect: nat, diagnostic: string, after: State)
    requires LedgerInv(s.receipts) && RecordDiagnostic(s, id, phase, effect, diagnostic).Accepted? && RecordDiagnostic(s, id, phase, effect, diagnostic).state == after
    ensures LedgerInv(after.receipts)
  {
    EachKeepsLedger(s.receipts, (r: Receipt) => DiagnoseOne(r, phase, effect, diagnostic));
  }

  /** What waits for a compensation without any effect waits on a tombstone that
      has none either. */
  ghost predicate CompensationBound(s: State) {
    forall i :: 0 <= i < |s.receipts| ==> Anchored(s, s.receipts[i], None)
  }

  lemma CompensationKeepsLedger(s: State, id: string, proved: bool, after: State)
    requires LedgerInv(s.receipts) && CompensationBound(s) && CompleteHandoff(s, id, proved).Accepted? && CompleteHandoff(s, id, proved).state == after
    ensures LedgerInv(after.receipts)
  {
    hide Find, UniqueIds, ClaimsAgree, Shaped;
    if after.receipts != s.receipts {
      var slot := Find(s.receipts, id).value.request.slot;
      var effect := s.tombstones[slot].effect;
      EachKeepsShape(s.receipts, (r: Receipt) => CompensateOne(r, slot, effect, s.revision + 1));
      forall i | 0 <= i < |s.receipts| ensures ValidBinding(CompensateOne(s.receipts[i], slot, effect, s.revision + 1)) {
        assert ValidBinding(s.receipts[i]) && Anchored(s, s.receipts[i], None);
      }
    }
  }

  // ---- Beginning a mutation ------------------------------------------------

  /** A tombstone that remembers a launch candidate has a cleanup effect. */
  ghost predicate StartsCleaned(s: State) {
    forall k :: k in s.tombstones && s.tombstones[k].start ==> s.tombstones[k].effect != 0
  }

  /** The begin reaches the branch that closes the attempt's other workflows. */
  ghost predicate ClosesOthers(s: State, c: OperatorBegin) {
    && !c.remoteOnly && c.request.slot !in s.tombstones && !c.request.action.ReviewPlan?
    && (c.request.action.Recover? ==> AttachRecovery(s, c).None? && c.runtime.Some?)
    && (c.request.action.Cancel? || c.request.action.Recover? ==> !MatchingStop(s, c))
  }

  /** A begun receipt is no claim and carries none. */
  predicate Recorded(r: Receipt) {
    !r.phase.NoPhase? && !r.phase.AdmissionPending? && r.admission.None? && r.diagnostic == ""
  }

  /** What a begun receipt looks like before the commit binds it. */
  ghost predicate Bindable(r: Receipt, effect: Option<Effect>) {
    && Recorded(r)
    && (if r.state.Done? then r.phase.PhaseCompleted? && r.result.Some?
        else !r.phase.PhaseCompleted? && r.result.None?
             && (effect.Some? || r.effect != 0 || (r.request.action.Dismiss? && r.phase.HandoffCleanup?)))
  }

  lemma BeginRuntimeKeepsReceipts(s: State, b: RuntimeBegin)
    requires EffectsKeyed(s) && BeginRuntime(s, b).Accepted?
    ensures SameLedger(s, BeginRuntime(s, b)) && BeginRuntime(s, b).effect.Some?
  {
  }

  lemma InvalidateKeepsReceipts(s: State, i: Invalidation)
    requires EffectsKeyed(s) && InvalidateAttempt(s, i).Accepted?
    ensures SameLedger(s, InvalidateAttempt(s, i)) && (i.cleanupDigest.Some? ==> InvalidateAttempt(s, i).effect.Some?)
  {
  }

  lemma BeginReconciliationKeepsReceipts(s: State, c: ReconciliationBegin)
    requires EffectsKeyed(s) && BeginReconciliation(s, c).Accepted?
    ensures SameLedger(s, BeginReconciliation(s, c)) && BeginReconciliation(s, c).effect.Some?
  {
  }

  ghost predicate SameLedger(s: State, reply: Reply)
    requires reply.Accepted?
  {
    && reply.state.receipts == s.receipts && reply.state.revision == s.revision && reply.state.epoch == s.epoch
    && (reply.effect.Some? && reply.effect.value.id != 0 ==> reply.effect.value.id in s.effects && s.effects[reply.effect.value.id] == reply.effect.value)
  }

  /** A receipt that waits for a compensation without any effect waits on a
      tombstone that has none either. */
  predicate Anchored(s: State, r: Receipt, effect: Option<Effect>) {
    r.phase.HandoffCleanup? && r.effect == 0 && effect.None? ==>
      r.request.slot in s.tombstones && s.tombstones[r.request.slot].effect == 0
  }

  /** Whatever branch it takes, an accepted begin appends exactly one receipt of
      its own request, after closing the other workflows or leaving them alone. */
  lemma BeginWorkRecords(s: State, c: OperatorBegin, admitted: bool, after: State, effect: Option<Effect>) returns (mid: State, begun: Receipt)
    requires EffectsKeyed(s) && AllBound(s.receipts)
    requires BeginWork(s, c, admitted) == Accepted(after, effect)
    ensures mid.receipts == if ClosesOthers(s, c) then SupersedeReceipts(s.receipts, c.request.slot, c.request.action, s.revision + 1) else s.receipts
    ensures AppendReceipt(mid, begun) == Some(after)
    ensures begun.request == c.request && Recorded(begun) && (StartsCleaned(s) ==> Bindable(begun, effect))
    ensures Anchored(s, begun, effect)
    ensures effect.Some? && effect.value.id != 0 ==> effect.value.id in s.effects && s.effects[effect.value.id] == effect.value
    ensures mid.revision == s.revision
  {
    var q, slot := c.request, c.request.slot;
    if c.remoteOnly {
      begun := Receipt(q, Done, PhaseCompleted, 0, "", Some(Success(q, 0)), None);
      mid := s;
      if slot !in s.tombstones {
        mid := InvalidateAttempt(s, Invalidation(slot, IssueGeneration(s, slot.issue), c.identity.attemptGeneration, q.action, CleanupDone,
                                                 "", None, None, None, false, false, c.external, 0)).state;
      }
    } else if slot in s.tombstones {
      mid, begun := ReplayRecords(s, c, s.tombstones[slot], after, effect);
    } else {
      var attach := if q.action.Recover? then AttachRecovery(s, c) else None;
      if attach.Some? {
        mid, begun := AttachRecords(s, c, after, effect);
      } else if (q.action.Cancel? || q.action.Recover?) && MatchingStop(s, c) {
        mid, begun := s, Receipt(q, Waiting, StopPending, c.matchingStop, "", None, None);
      } else {
        mid, begun := FreshRecords(s, c, after, effect);
      }
    }
  }

  lemma ReplayRecords(s: State, c: OperatorBegin, t: Tombstone, after: State, effect: Option<Effect>) returns (mid: State, begun: Receipt)
    requires EffectsKeyed(s)
    requires c.request.slot in s.tombstones && s.tombstones[c.request.slot] == t
    requires Replay(s, c, t) == Accepted(after, effect)
    ensures Anchored(s, begun, effect)
    ensures mid == s && AppendReceipt(mid, begun) == Some(after)
    ensures begun.request == c.request && Recorded(begun) && ((t.start ==> t.effect != 0) ==> Bindable(begun, effect))
    ensures effect.Some? ==> effect.value.id in s.effects && s.effects[effect.value.id] == effect.value
  {
    var q := c.request;
    mid := s;
    if q.action.Dismiss? && t.start {
      begun := Receipt(q, Waiting, StartCleanup, t.effect, "", None, None);
    } else if q.action.Dismiss? && t.handoff && !t.compensated {
      begun := Receipt(q, Waiting, HandoffCleanup, t.effect, "", None, None);
    } else if (q.action.Dismiss? && t.effect == 0) || t.phase.CleanupDone? {
      begun := Receipt(q, Done, PhaseCompleted, t.effect, "", Some(Success(q, 0)), None);
    } else {
      begun := Receipt(q, Waiting, if t.phase.CleanupRunning? then CleanupStarted else CleanupPending, t.effect, "", None, None);
    }
  }

  lemma AttachRecords(s: State, c: OperatorBegin, after: State, effect: Option<Effect>) returns (mid: State, begun: Receipt)
    requires EffectsKeyed(s) && AllBound(s.receipts)
    requires AttachRecovery(s, c) == Some(Accepted(after, effect))
    ensures mid == s && AppendReceipt(mid, begun) == Some(after)
    ensures begun.request == c.request && Bindable(begun, effect)
    ensures effect.Some? && effect.value.id in s.effects && s.effects[effect.value.id] == effect.value
  {
    var q, slot := c.request, c.request.slot;
    mid := s;
    var under := FirstRecovery(s.receipts, slot);
    if under.Some? {
      begun := Receipt(q, Waiting, under.value.phase, under.value.effect, "", None, None);
    } else {
      var only := The(RetriesOf(s, slot));
      begun := if s.effects[only].status.Completed? then Receipt(q, Done, PhaseCompleted, only, "", Some(Success(q, s.revision + 1)), None)
               else Receipt(q, Waiting, RetryPending, only, "", None, None);
    }
  }

  lemma SupersedeClosesOthers(s: State, slot: Slot, action: OperatorAction)
    ensures Supersede(s, slot, action).receipts == SupersedeReceipts(s.receipts, slot, action, s.revision + 1)
    ensures Supersede(s, slot, action).revision == s.revision
  {
  }

  lemma FreshRecords(s: State, c: OperatorBegin, after: State, effect: Option<Effect>) returns (mid: State, begun: Receipt)
    requires EffectsKeyed(s) && c.manifest.Some? && !c.remoteOnly && c.request.slot !in s.tombstones
    requires c.request.action.Recover? ==> AttachRecovery(s, c).None?
    requires c.request.action.Cancel? || c.request.action.Recover? ==> !MatchingStop(s, c)
    requires BeginFresh(s, c) == Accepted(after, effect)
    ensures mid.receipts == if ClosesOthers(s, c) then SupersedeReceipts(s.receipts, c.request.slot, c.request.action, s.revision + 1) else s.receipts
    ensures AppendReceipt(mid, begun) == Some(after)
    ensures begun.request == c.request && Bindable(begun, effect) && begun.state.Waiting? && effect.Some?
    ensures effect.value.id != 0 ==> effect.value.id in s.effects && s.effects[effect.value.id] == effect.value
    ensures mid.revision == s.revision
  {
    hide BeginRuntime, InvalidateAttempt, BeginReconciliation, AppendReceipt, EffectsKeyed, MatchingStop, AttachRecovery, Supersede;
    var q := c.request;
    var phase, reply;
    if q.action.ReviewPlan? || (q.action.Recover? && c.runtime.None?) {
      phase := if q.action.ReviewPlan? then ReviewPending else RetryPending;
      var again := c.reconciliation.value.(identity := c.identity.(sourceRevision := s.revision));
      reply := BeginReconciliation(s, again);
      BeginReconciliationKeepsReceipts(s, again);
      mid := reply.state;
    } else if q.action.Cancel? || q.action.Recover? {
      phase := StopPending;
      reply := BeginRuntime(s, AtRevision(s, c.runtime.value));
      BeginRuntimeKeepsReceipts(s, AtRevision(s, c.runtime.value));
      SupersedeClosesOthers(reply.state, q.slot, q.action);
      mid := Supersede(reply.state, q.slot, q.action);
    } else {
      phase := CleanupPhaseFor(c);
      reply := Invalidate(s, c);
      InvalidateKeepsReceipts(s, InvalidationOf(c));
      SupersedeClosesOthers(reply.state, q.slot, q.action);
      mid := Supersede(reply.state, q.slot, q.action);
    }
    begun := Receipt(q, Waiting, phase, 0, "", None, None);
  }

  // ---- The whole begin, with the claims it consumes ------------------------

  /** A claim of another action on the attempt that the begin would close without
      releasing it. */
  predicate LeavesClaim(r: Receipt, q: Request) {
    Claims(r) && Superseded(r, q.slot, q.action)
  }

  lemma SupersedeKeepsShape(rs: seq<Receipt>, q: Request, revision: nat)
    requires LedgerInv(rs)
    ensures Shaped(SupersedeReceipts(rs, q.slot, q.action, revision))
    ensures forall i :: 0 <= i < |rs| ==> (ValidBinding(SupersedeReceipts(rs, q.slot, q.action, revision)[i]) <==> !LeavesClaim(rs[i], q))
  {
    EachKeepsShape(rs, (r: Receipt) => SupersedeOne(r, q.slot, q.action, revision));
    forall i | 0 <= i < |rs| ensures ValidBinding(SupersedeReceipts(rs, q.slot, q.action, revision)[i]) <==> !LeavesClaim(rs[i], q) {
      assert ValidBinding(rs[i]);
    }
  }

  ghost predicate Joined(r: Receipt, primary: Receipt, effect: Option<Effect>) {
    Recorded(r) && r.phase == primary.phase && r.effect == primary.effect && (Bindable(primary, effect) ==> Bindable(r, effect))
  }

  lemma {:induction false} AttachKeepsShape(s: State, primary: Receipt, followers: seq<Request>, after: State, effect: Option<Effect>)
    requires Shaped(s.receipts) && Recorded(primary)
    requires AttachAll(s, primary, followers) == Some(after)
    requires forall f :: f in followers ==> f.action == primary.request.action
    ensures Shaped(after.receipts) && after.revision == s.revision
    ensures forall r :: r in after.receipts ==> r in s.receipts || (r.request in followers && Joined(r, primary, effect))
    ensures forall f :: f in followers && f.id != primary.request.id ==> forall r :: r in after.receipts && r.request.id == f.id ==> r.request in followers && Joined(r, primary, effect)
    decreases |followers|
  {
    if followers != [] {
      var f := followers[0];
      if f.id == primary.request.id {
        AttachKeepsShape(s, primary, followers[1..], after, effect);
      } else {
        var without := s.(receipts := Without(s.receipts, f.id));
        var joined := Attached(primary, f);
        var next := AppendReceipt(without, joined).value;
        WithoutKeepsShape(s.receipts, f.id);
        AppendKeepsShape(without, joined, next);
        AttachKeepsShape(next, primary, followers[1..], after, effect);
      }
    }
  }

  /** Binding turns every begun receipt into a valid one and leaves the rest. */
  lemma StampKeepsShape(s: State, c: OperatorBegin, candidate: State, effect: Option<Effect>, revoked: set<nat>)
    requires Shaped(candidate.receipts)
    requires effect.Some? && effect.value.id != 0 ==> effect.value.id in s.effects
    ensures var next := Stamp(s, BeginMutation(c), candidate, effect, revoked);
            && Shaped(next.receipts)
            && |next.receipts| == |candidate.receipts|
            && forall i :: 0 <= i < |candidate.receipts| ==>
                 && (BindsRequest(s, BeginMutation(c), candidate.receipts[i]) && Bindable(candidate.receipts[i], effect) ==> ValidBinding(next.receipts[i]))
                 && (!BindsRequest(s, BeginMutation(c), candidate.receipts[i]) ==> next.receipts[i] == candidate.receipts[i])
  {
    hide Followers, Shaped, StampEffects, StampAttempts, StampTombstone;
    var id := if effect.None? then None else if effect.value.id == 0 then Some(candidate.revision + 1) else Some(effect.value.id);
    EachKeepsShape(candidate.receipts, (r: Receipt) => BindOne(s, BeginMutation(c), r, id, candidate.revision + 1));
  }

  lemma FindInShaped(rs: seq<Receipt>, r: Receipt)
    requires UniqueIds(rs) && r in rs
    ensures Find(rs, r.request.id) == Some(r)
  {
    var i :| 0 <= i < |rs| && rs[i] == r;
    var k := IndexOf(rs, r.request.id);
    assert k == i;
  }

  /** Removing a held claim leaves a well-formed list in which supersession by
      that claim's request strands nothing: claims on the attempt agree. */
  lemma ConsumedClaimLeavesLedger(rs: seq<Receipt>, own: Receipt)
    requires LedgerInv(rs) && own in rs && Claims(own)
    ensures var base := Without(rs, own.request.id);
            && LedgerInv(base) && Unused(base, own.request.id)
            && forall i :: 0 <= i < |base| ==> !LeavesClaim(base[i], own.request)
  {
    WithoutKeepsShape(rs, own.request.id);
    var base := Without(rs, own.request.id);
    var k :| 0 <= k < |rs| && rs[k] == own;
    forall i | 0 <= i < |base| ensures ValidBinding(base[i]) && !LeavesClaim(base[i], own.request) {
      assert base[i] in base;
      var j :| 0 <= j < |rs| && rs[j] == base[i];
      assert Agree(rs[j], rs[k]);
    }
  }

  /** The list before the append of a begin that strands no claim. */
  lemma MiddleKeepsLedger(base: seq<Receipt>, q: Request, revision: nat, mid: seq<Receipt>)
    requires LedgerInv(base) && Unused(base, q.id)
    requires forall i :: 0 <= i < |base| ==> !LeavesClaim(base[i], q)
    requires mid == base || mid == SupersedeReceipts(base, q.slot, q.action, revision)
    ensures LedgerInv(mid) && Unused(mid, q.id)
  {
    SupersedeKeepsShape(base, q, revision);
    forall r | r in mid ensures r.request.id != q.id {
      var i :| 0 <= i < |mid| && mid[i] == r;
      assert base[i] in base;
    }
  }

  /** What a claimed begin appends, and to which list. */
  lemma ClaimedBeginRecords(s: State, c: OperatorBegin, claim: Admission) returns (mid: State, primary: Receipt)
    requires LedgerInv(s.receipts) && EffectsKeyed(s)
    requires Admitted(s, c) == AdmittedBy(claim) && Begin(s, c).Accepted?
    ensures var base := Without(s.receipts, c.request.id);
      mid.receipts == base || mid.receipts == SupersedeReceipts(base, c.request.slot, c.request.action, s.revision + 1)
    ensures AppendReceipt(mid, primary) == Some(Begin(s, c).state)
    ensures var effect := Begin(s, c).effect;
      && (effect.Some? && effect.value.id != 0 ==> effect.value.id in s.effects && s.effects[effect.value.id] == effect.value)
      && primary.request == c.request && Recorded(primary) && (StartsCleaned(s) ==> Bindable(primary, effect)) && Anchored(s, primary, effect)
  {
    hide Admitted, BeginWork, AppendReceipt, ClosesOthers, SupersedeReceipts, Bindable, AllBound, Without, Find, LedgerInv;
    ConsumedLedger(s.receipts, c.request.id);
    var base := s.(receipts := Without(s.receipts, c.request.id));
    mid, primary := BeginWorkRecords(base, Readmit(s, c, claim), true, Begin(s, c).state, Begin(s, c).effect);
  }

  lemma ConsumedLedger(rs: seq<Receipt>, id: string)
    requires LedgerInv(rs)
    ensures AllBound(Without(rs, id))
  {
    forall i | 0 <= i < |Without(rs, id)| ensures ValidBinding(Without(rs, id)[i]) {
      assert Without(rs, id)[i] in rs;
    }
  }

  lemma AdmittedHolds(s: State, c: OperatorBegin)
    requires Admitted(s, c).AdmittedBy?
    ensures Find(s.receipts, c.request.id).Some?
    ensures var own := Find(s.receipts, c.request.id).value;
            own in s.receipts && own.request == c.request && Claims(own) && own.admission == Some(Admitted(s, c).claim)
  {
  }

  /** A begin that consumes its own claim keeps the ledger, followers included. */
  lemma ClaimedBeginKeepsLedger(s: State, c: OperatorBegin, revoked: set<nat>, candidate: State, effect: Option<Effect>)
    requires LedgerInv(s.receipts) && EffectsKeyed(s) && StartsCleaned(s)
    requires Admitted(s, c).AdmittedBy?
    requires JoinCoalesced(s, c, Begin(s, c)) == Accepted(candidate, effect)
    ensures LedgerInv(Stamp(s, BeginMutation(c), candidate, effect, revoked).receipts)
  {
    hide Admitted, Begin, Stamp, AppendReceipt, SupersedeReceipts, LedgerInv, Bindable, Unused, AttachAll, EffectsKeyed, StartsCleaned, Without;
    AdmittedHolds(s, c);
    var own := Find(s.receipts, c.request.id).value;
    ConsumedClaimLeavesLedger(s.receipts, own);
    var begun := Begin(s, c);
    var mid, primary := ClaimedBeginRecords(s, c, Admitted(s, c).claim);
    MiddleKeepsLedger(Without(s.receipts, c.request.id), c.request, s.revision + 1, mid.receipts);
    AppendKeepsLedgerShape(mid, primary, begun.state, begun.effect);
    JoinedBeginKeepsLedger(s, c, revoked, candidate, effect, begun.state, primary, mid);
  }

  lemma LedgerBounds(rs: seq<Receipt>)
    requires LedgerInv(rs)
    ensures Shaped(rs) && AllBound(rs)
  {
  }

  lemma AppendKeepsLedgerShape(mid: State, primary: Receipt, begun: State, effect: Option<Effect>)
    requires LedgerInv(mid.receipts) && Unused(mid.receipts, primary.request.id) && Bindable(primary, effect)
    requires AppendReceipt(mid, primary) == Some(begun)
    ensures Shaped(begun.receipts) && primary in begun.receipts
    ensures forall r :: r in begun.receipts ==> r == primary || r in mid.receipts
  {
    AppendKeepsShape(mid, primary, begun);
  }

  /** The candidate of a begin: its own receipt and its followers', recorded, or
      others that it closed or left alone. */
  lemma JoinedReceipts(s: State, c: OperatorBegin, candidate: State, effect: Option<Effect>, begun: State, primary: Receipt, others: seq<Receipt>)
    requires Shaped(begun.receipts)
    requires forall r :: r in begun.receipts ==> r == primary || r in others
    requires primary in begun.receipts && primary.request == c.request && Recorded(primary)
    requires forall r :: r in others ==> r.request.id != c.request.id
    requires forall f :: f in Followers(s, c.request) ==> f.action == c.request.action
    requires JoinCoalesced(s, c, Accepted(begun, effect)) == Accepted(candidate, effect)
    ensures Shaped(candidate.receipts)
    ensures forall r :: r in candidate.receipts ==>
      if BindsRequest(s, BeginMutation(c), r)
      then Joined(r, primary, effect) && (r.request == c.request || r.request in Followers(s, c.request))
      else r in others
  {
    var followers := Followers(s, c.request);
    if |followers| > 1 {
      FindInShaped(begun.receipts, primary);
      AttachKeepsShape(begun, primary, followers, candidate, effect);
      forall r | r in candidate.receipts && BindsRequest(s, BeginMutation(c), r)
        ensures Joined(r, primary, effect) && (r.request == c.request || r.request in followers) {
        if r.request.id != c.request.id {
          var k :| 0 <= k < |followers| && followers[k].id == r.request.id;
          assert followers[k] in followers;
        }
      }
    }
  }

  lemma FollowersShareAction(s: State, q: Request)
    requires Find(s.receipts, q.id).Some? ==> Find(s.receipts, q.id).value.request == q
    ensures forall f :: f in Followers(s, q) ==> f.action == q.action
  {
  }

  lemma JoinedBeginKeepsLedger(s: State, c: OperatorBegin, revoked: set<nat>, candidate: State, effect: Option<Effect>, begun: State, primary: Receipt, mid: State)
    requires LedgerInv(mid.receipts) && Shaped(begun.receipts)
    requires forall r :: r in begun.receipts ==> r == primary || r in mid.receipts
    requires primary in begun.receipts && primary.request == c.request && Bindable(primary, effect)
    requires effect.Some? && effect.value.id != 0 ==> effect.value.id in s.effects && s.effects[effect.value.id] == effect.value
    requires Unused(mid.receipts, c.request.id)
    requires Find(s.receipts, c.request.id).Some? ==> Find(s.receipts, c.request.id).value.request == c.request
    requires JoinCoalesced(s, c, Accepted(begun, effect)) == Accepted(candidate, effect)
    ensures LedgerInv(Stamp(s, BeginMutation(c), candidate, effect, revoked).receipts)
  {
    hide Stamp, JoinCoalesced, BindsRequest, UniqueIds, ClaimsAgree, ValidBinding, Followers, AttachAll;
    FollowersShareAction(s, c.request);
    JoinedReceipts(s, c, candidate, effect, begun, primary, mid.receipts);
    StampKeepsShape(s, c, candidate, effect, revoked);
    var next := Stamp(s, BeginMutation(c), candidate, effect, revoked);
    forall i | 0 <= i < |next.receipts| ensures ValidBinding(next.receipts[i]) {
      var r := candidate.receipts[i];
      assert r in candidate.receipts;
      if !BindsRequest(s, BeginMutation(c), r) {
        var j :| 0 <= j < |mid.receipts| && mid.receipts[j] == r;
      }
    }
  }

  /** The claim that an unclaimed begin would close with its admission still on
      it, unless the full list evicts that very receipt in the same commit. */
  ghost predicate StrandsClaim(s: State, c: OperatorBegin) {
    && ClosesOthers(s, c)
    && exists i :: 0 <= i < |s.receipts| && LeavesClaim(s.receipts[i], c.request) && !Evicts(s, c, i)
  }

  predicate Evicts(s: State, c: OperatorBegin, i: nat) {
    && |s.receipts| == MAX_CONTROL_RECEIPTS
    && OldestDone(SupersedeReceipts(s.receipts, c.request.slot, c.request.action, s.revision + 1)) == i
  }

  /** The list without its `k`-th receipt; `k` past the end removes nothing. */
  function Dropping(rs: seq<Receipt>, k: nat): (out: seq<Receipt>)
    ensures forall r :: r in out ==> r in rs
  {
    if k < |rs| then rs[..k] + rs[k + 1..] else rs
  }

  function EvictedAt(rs: seq<Receipt>): nat {
    if |rs| == MAX_CONTROL_RECEIPTS then OldestDone(rs) else |rs|
  }

  lemma BoundExceptDropped(rs: seq<Receipt>, k: nat)
    ensures AllBound(Dropping(rs, k)) <==> forall i :: 0 <= i < |rs| && i != k ==> ValidBinding(rs[i])
  {
    var out := Dropping(rs, k);
    if AllBound(out) {
      forall i | 0 <= i < |rs| && i != k ensures ValidBinding(rs[i]) {
        assert rs[i] == out[if i < k then i else i - 1];
      }
    }
  }

  /** Binding the begun receipt leaves the rest of the list to decide. */
  lemma BegunBindsItself(s: State, c: OperatorBegin, revoked: set<nat>, mid: State, begun: Receipt, candidate: State, effect: Option<Effect>)
    requires Shaped(mid.receipts) && Unused(mid.receipts, c.request.id) && AppendReceipt(mid, begun) == Some(candidate)
    requires begun.request == c.request && Bindable(begun, effect)
    requires effect.Some? && effect.value.id != 0 ==> effect.value.id in s.effects
    requires Find(s.receipts, c.request.id).None?
    ensures var next := Stamp(s, BeginMutation(c), candidate, effect, revoked);
            Shaped(next.receipts) && (AllBound(next.receipts) <==> AllBound(Dropping(mid.receipts, EvictedAt(mid.receipts))))
  {
    hide Stamp, Shaped, ValidBinding, AppendReceipt, EvictedAt, Dropping, BindsRequest;
    AppendKeepsShape(mid, begun, candidate);
    StampKeepsShape(s, c, candidate, effect, revoked);
    var next := Stamp(s, BeginMutation(c), candidate, effect, revoked);
    var rest := Dropping(mid.receipts, EvictedAt(mid.receipts));
    AppendedLast(mid, begun, candidate);
    UnclaimedBinds(s, c);
    assert ValidBinding(next.receipts[|rest|]);
    forall i | 0 <= i < |rest| ensures next.receipts[i] == rest[i] {
      assert rest[i] in mid.receipts;
    }
  }

  lemma AppendedLast(s: State, r: Receipt, after: State)
    requires AppendReceipt(s, r) == Some(after)
    ensures after.receipts == Dropping(s.receipts, EvictedAt(s.receipts)) + [r]
  {
    hide ReferencedByReceipt, ReferencedByTombstone;
    if |s.receipts| == MAX_CONTROL_RECEIPTS {
      var k := OldestDone(s.receipts);
      assert Dropping(s.receipts, k) == s.receipts[..k] + s.receipts[k + 1..];
    }
  }

  /** Without a claim there are no followers: only the begun receipt is bound. */
  lemma UnclaimedBinds(s: State, c: OperatorBegin)
    requires Find(s.receipts, c.request.id).None?
    ensures forall r :: BindsRequest(s, BeginMutation(c), r) <==> r.request.id == c.request.id
  {
  }

  lemma UnclaimedStrands(s: State, c: OperatorBegin)
    requires LedgerInv(s.receipts) && ClosesOthers(s, c)
    ensures var rs := SupersedeReceipts(s.receipts, c.request.slot, c.request.action, s.revision + 1);
            AllBound(Dropping(rs, EvictedAt(rs))) <==> !StrandsClaim(s, c)
  {
    var rs := SupersedeReceipts(s.receipts, c.request.slot, c.request.action, s.revision + 1);
    SupersedeKeepsShape(s.receipts, c.request, s.revision + 1);
    BoundExceptDropped(rs, EvictedAt(rs));
    assert forall i :: 0 <= i < |s.receipts| ==> (Evicts(s, c, i) <==> i == EvictedAt(rs));
  }

  /** A begin that holds no claim keeps the ledger exactly when it strands none:
      supersession closes a receipt but never clears its admission. */
  lemma UnclaimedBeginKeepsLedgerIff(s: State, c: OperatorBegin, revoked: set<nat>, candidate: State, effect: Option<Effect>)
    requires LedgerInv(s.receipts) && EffectsKeyed(s) && StartsCleaned(s)
    requires Admitted(s, c).NotAdmitted?
    requires JoinCoalesced(s, c, Begin(s, c)) == Accepted(candidate, effect)
    ensures LedgerInv(Stamp(s, BeginMutation(c), candidate, effect, revoked).receipts) <==> !StrandsClaim(s, c)
  {
    var mid, begun := BeginWorkRecords(s, c, false, candidate, effect);
    UnclaimedMiddle(s, c, mid);
    BegunBindsItself(s, c, revoked, mid, begun, candidate, effect);
    if ClosesOthers(s, c) {
      UnclaimedStrands(s, c);
    } else {
      BoundExceptDropped(s.receipts, EvictedAt(s.receipts));
    }
  }

  /** The gate refuses every begin that strands a claim. */
  lemma StrandingIsRefused(s: State, c: OperatorBegin, revoked: set<nat>, next: State)
    requires Gate(s) && StartsCleaned(s) && Admitted(s, c).NotAdmitted? && StrandsClaim(s, c)
    ensures !Step(s, Move(BeginMutation(c), revoked), next)
  {
    hide Stamp, LedgerInv, Begin, JoinCoalesced, StrandsClaim, StartsCleaned, EffectsKeyed, BoundToEffect, CurrentClaim;
    var reply := JoinCoalesced(s, c, Begin(s, c));
    if reply.Accepted? {
      UnclaimedBeginChanges(s, c, reply.state, reply.effect);
      UnclaimedBeginKeepsLedgerIff(s, c, revoked, reply.state, reply.effect);
    }
  }

  lemma UnclaimedBeginChanges(s: State, c: OperatorBegin, candidate: State, effect: Option<Effect>)
    requires LedgerInv(s.receipts) && EffectsKeyed(s) && Admitted(s, c).NotAdmitted?
    requires JoinCoalesced(s, c, Begin(s, c)) == Accepted(candidate, effect)
    ensures candidate != s
  {
    var mid, begun := BeginWorkRecords(s, c, false, candidate, effect);
    AppendedLast(mid, begun, candidate);
    assert begun in candidate.receipts;
    NotOnList(s.receipts, c.request.id);
  }

  lemma NotOnList(rs: seq<Receipt>, id: string)
    requires Find(rs, id).None?
    ensures forall r :: r in rs ==> r.request.id != id
  {
  }

  lemma StrandedClaim() returns (s: State, c: OperatorBegin)
    ensures Gate(s) && StartsCleaned(s) && Admitted(s, c).NotAdmitted? && StrandsClaim(s, c)
    ensures JoinCoalesced(s, c, Begin(s, c)).Accepted?
  {
    var slot := Slot(1, 1);
    var manifest := Manifest(slot, 1, Running, 0, "", "");
    var seen := Observation(true, 1, 1, 1, 1, "", true, false, 1, true, map[]);
    var held := Claim(Request("held", slot, Dismiss, true), Admission(1, 1, 1, Some(manifest), true, false, Seen(seen)));
    s := EMPTY_STATE.(epoch := 1, revision := 2, issueGenerations := map[1 := 1], attemptGenerations := map[slot := 1],
                      attempts := map[slot := AttemptRecord(1, 0, manifest)], observations := map[1 := seen], receipts := [held]);
    c := OperatorBegin(Request("abandon", slot, Abandon, true), BeginIdentity(1, 2, 1, 1), Some(manifest), Seen(seen),
                       false, true, false, Some(""), CleanupPolicy(Abandon, "", false), "", None, None, 0, false, false, true, true, true, 0);
    assert Gate(s);
    hide Gate, LedgerInv;
    assert Find(s.receipts, "abandon").None?;
    assert Invalidate(s, c).Accepted?;
    assert LeavesClaim(s.receipts[0], c.request);
  }

  /** Such a begin exists: an attempt is reserved for a dismissal and abandoned
      by a begin that reserved nothing. Only the gate stops that commit. */
  lemma StrandedClaimWitness() returns (s: State, c: OperatorBegin)
    ensures Gate(s) && StartsCleaned(s) && Admitted(s, c).NotAdmitted? && StrandsClaim(s, c)
    ensures JoinCoalesced(s, c, Begin(s, c)).Accepted?
    ensures var reply := JoinCoalesced(s, c, Begin(s, c));
            reply.state != s && !LedgerInv(Stamp(s, BeginMutation(c), reply.state, reply.effect, {}).receipts)
    ensures forall next :: !Step(s, Move(BeginMutation(c), {}), next)
  {
    hide Stamp, Begin, JoinCoalesced, Step, StrandsClaim, StartsCleaned, Admitted, BoundToEffect, CurrentClaim;
    s, c := StrandedClaim();
    var reply := JoinCoalesced(s, c, Begin(s, c));
    UnclaimedBeginChanges(s, c, reply.state, reply.effect);
    UnclaimedBeginKeepsLedgerIff(s, c, {}, reply.state, reply.effect);
    forall next ensures !Step(s, Move(BeginMutation(c), {}), next) {
      StrandingIsRefused(s, c, {}, next);
    }
  }

  lemma UnclaimedMiddle(s: State, c: OperatorBegin, mid: State)
    requires LedgerInv(s.receipts) && Find(s.receipts, c.request.id).None?
    requires mid.receipts == if ClosesOthers(s, c) then SupersedeReceipts(s.receipts, c.request.slot, c.request.action, s.revision + 1) else s.receipts
    ensures Shaped(mid.receipts) && Unused(mid.receipts, c.request.id)
  {
    if ClosesOthers(s, c) {
      SupersedeKeepsShape(s.receipts, c.request, s.revision + 1);
    }
    forall r | r in mid.receipts ensures r.request.id != c.request.id {
      var i :| 0 <= i < |mid.receipts| && mid.receipts[i] == r;
      assert s.receipts[i].request.id != c.request.id;
    }
  }

  /** How the service begins the six reserved actions: from their own claim, by
      joining a recovery under way, or by replaying a tombstone. */
  ghost predicate ServiceBegins(s: State, c: OperatorBegin) {
    || Admitted(s, c).AdmittedBy?
    || c.request.action.ReviewPlan?
    || (c.request.action.Recover? && c.runtime.None? && c.reconciliation.None?)
    || c.remoteOnly || c.request.slot in s.tombstones
  }

  /** What a command must respect beyond its own guards: an attempt whose launch is
      pending is never invalidated without a cleanup. */
  ghost predicate Disciplined(s: State, c: Command) {
    match c
    case BeginMutation(b) => ServiceBegins(s, b)
    case InvalidateCommand(i) => i.start ==> i.cleanupDigest.Some?
    case _ => true
  }

  lemma ServiceBeginStrandsNothing(s: State, c: OperatorBegin)
    requires ServiceBegins(s, c) && !Admitted(s, c).AdmittedBy?
    ensures !StrandsClaim(s, c)
  {
  }

  /** The gate never refuses a disciplined command for the shape of its receipts:
      request IDs stay unique, the list stays bounded, claims on one attempt stay
      equal and every receipt stays bound as its phase demands. */
  lemma DisciplinedStepKeepsLedger(s: State, m: Move, next: State)
    requires LedgerInv(s.receipts) && EffectsKeyed(s) && StartsCleaned(s) && CompensationBound(s)
    requires Disciplined(s, m.command)
    requires Proposed(s, m) == Some(next)
    ensures LedgerInv(next.receipts)
  {
    hide LedgerInv, EffectsKeyed, StartsCleaned, CompensationBound, ServiceBegins, Begin, Admitted, Stamp, JoinCoalesced, AdvanceRecovery, Reserve,
      BeginReconciliation, BeginRuntime, InvalidateAttempt, FinishRuntime, FinishReconciliation, SupersedeReview, FinishOperatorRuntime,
      ResolveInvalidated, AuthorizeReconciliation, RequestReviewerSession, MarkReviewerRunning, ProveReviewerDead, SealReviewerResult,
      BindReviewerStopping, MarkReviewerStopped, StartCleanupWork, CompleteHandoff, RecordDiagnostic, RefreshClaims, RefreshValid, ReconcileClaims,
      RestampClaims, Abort, Fail;
    var c := m.command;
    var reply := Apply(s, c);
    if next == s {
    } else if c.BeginMutation? {
      JoinPasses(s, c.begin, Begin(s, c.begin), reply.state, reply.effect);
      if Admitted(s, c.begin).AlreadyBegun? {
        AnsweredBegin(s, c.begin);
      } else {
        BeginStepKeepsLedger(s, c.begin, m.revoked);
      }
    } else if c.AdvanceRecoveryCommand? {
      AdvanceKeepsLedger(s, c.advance, reply.state, reply.effect, m.revoked);
    } else {
      CandidateKeepsLedger(s, c);
      StampedOther(s, c, reply.state, reply.effect, m.revoked);
    }
  }

  lemma StampedOther(s: State, c: Command, candidate: State, effect: Option<Effect>, revoked: set<nat>)
    requires !c.BeginMutation? && !c.AdvanceRecoveryCommand?
    ensures Stamp(s, c, candidate, effect, revoked).receipts == candidate.receipts
  {
  }

  lemma BeginStepKeepsLedger(s: State, c: OperatorBegin, revoked: set<nat>)
    requires LedgerInv(s.receipts) && EffectsKeyed(s) && StartsCleaned(s) && ServiceBegins(s, c)
    requires JoinCoalesced(s, c, Begin(s, c)).Accepted? && !Admitted(s, c).AlreadyBegun?
    ensures var reply := JoinCoalesced(s, c, Begin(s, c)); LedgerInv(Stamp(s, BeginMutation(c), reply.state, reply.effect, revoked).receipts)
  {
    hide JoinCoalesced, Stamp, LedgerInv, StrandsClaim, Begin;
    var reply := JoinCoalesced(s, c, Begin(s, c));
    JoinPasses(s, c, Begin(s, c), reply.state, reply.effect);
    AcceptedBegin(s, c);
    if Admitted(s, c).AdmittedBy? {
      ClaimedBeginKeepsLedger(s, c, revoked, reply.state, reply.effect);
    } else {
      UnclaimedBeginKeepsLedgerIff(s, c, revoked, reply.state, reply.effect);
      ServiceBeginStrandsNothing(s, c);
    }
  }

  lemma JoinPasses(s: State, c: OperatorBegin, begun: Reply, candidate: State, effect: Option<Effect>)
    requires JoinCoalesced(s, c, begun) == Accepted(candidate, effect)
    ensures begun.Accepted? && begun.effect == effect
  {
  }

  lemma AcceptedBegin(s: State, c: OperatorBegin)
    requires Begin(s, c).Accepted?
    ensures !Admitted(s, c).NotAdmissible?
  {
  }

  /** A begin that was answered before commits nothing. */
  lemma AnsweredBegin(s: State, c: OperatorBegin)
    requires LedgerInv(s.receipts) && EffectsKeyed(s) && Admitted(s, c).AlreadyBegun? && Begin(s, c).Accepted?
    ensures var reply := JoinCoalesced(s, c, Begin(s, c));
            reply.Accepted? && reply.state == s && (reply.effect.None? || reply.effect.value.id != 0)
  {
    FoundIn(s.receipts, c.request.id);
  }

  lemma FoundIn(rs: seq<Receipt>, id: string)
    ensures Find(rs, id).Some? ==> Find(rs, id).value in rs && Find(rs, id).value.request.id == id
  {
  }

  lemma AdvanceKeepsLedger(s: State, a: RecoveryAdvance, candidate: State, effect: Option<Effect>, revoked: set<nat>)
    requires LedgerInv(s.receipts) && EffectsKeyed(s)
    requires AdvanceRecovery(s, a) == Accepted(candidate, effect)
    ensures LedgerInv(Stamp(s, AdvanceRecoveryCommand(a), candidate, effect, revoked).receipts)
  {
    hide BeginReconciliation, AdvanceRecovery, EffectsKeyed, Stamp, ClaimsAgree, UniqueIds;
    var r, to := AdvanceUnbinds(s, a, candidate, effect);
    UnbindKeepsShape(s.receipts, r, to);
    StampedAdvance(s, a, candidate, effect.value, revoked);
    var id := if effect.value.id == 0 then s.revision + 1 else effect.value.id;
    forall i | 0 <= i < |candidate.receipts| ensures ValidBinding(BoundAdvance(candidate.receipts[i], id, s.revision + 1)) {
      UnboundBindsAgain(s.receipts[i], r, to, id, s.revision + 1);
      assert candidate.receipts[i] == UnbindOne(s.receipts[i], r, to);
    }
    BoundAdvanceKeepsLedger(candidate.receipts, id, s.revision + 1);
  }

  /** What binding does to one receipt after a recovery advanced. */
  function BoundAdvance(r: Receipt, effect: nat, revision: nat): Receipt {
    if AwaitsBinding(r)
    then r.(effect := effect, result := if r.result.Some? then Some(r.result.value.(revision := revision)) else None)
    else r
  }

  lemma UnbindKeepsShape(rs: seq<Receipt>, r: Receipt, to: Phase)
    requires LedgerInv(rs) && (to.TerminalPending? || to.RetryPending?) && (r.phase.TerminalAwait? || r.phase.RetryAwait?)
    ensures Shaped(Each(rs, (q: Receipt) => UnbindOne(q, r, to)))
  {
    hide ValidBinding;
    EachKeepsShape(rs, (q: Receipt) => UnbindOne(q, r, to));
  }

  lemma UnboundBindsAgain(x: Receipt, r: Receipt, to: Phase, id: nat, revision: nat)
    requires ValidBinding(x) && id != 0 && (to.TerminalPending? || to.RetryPending?) && (r.phase.TerminalAwait? || r.phase.RetryAwait?)
    ensures ValidBinding(BoundAdvance(UnbindOne(x, r, to), id, revision))
  {
  }

  lemma StampedAdvance(s: State, a: RecoveryAdvance, candidate: State, effect: Effect, revoked: set<nat>)
    ensures var id := if effect.id == 0 then candidate.revision + 1 else effect.id;
      Stamp(s, AdvanceRecoveryCommand(a), candidate, Some(effect), revoked).receipts
      == Each(candidate.receipts, (r: Receipt) => BoundAdvance(r, id, candidate.revision + 1))
  {
    hide StampEffects, StampAttempts, StampTombstone, Followers;
    var c := AdvanceRecoveryCommand(a);
    var id := if effect.id == 0 then candidate.revision + 1 else effect.id;
    var receipts := Stamp(s, c, candidate, Some(effect), revoked).receipts;
    forall i | 0 <= i < |candidate.receipts| ensures receipts[i] == BoundAdvance(candidate.receipts[i], id, candidate.revision + 1) {
      assert receipts[i] == BindOne(s, c, candidate.receipts[i], Some(id), candidate.revision + 1);
    }
  }

  lemma BoundAdvanceKeepsLedger(rs: seq<Receipt>, id: nat, revision: nat)
    requires Shaped(rs) && forall i :: 0 <= i < |rs| ==> ValidBinding(BoundAdvance(rs[i], id, revision))
    ensures LedgerInv(Each(rs, (r: Receipt) => BoundAdvance(r, id, revision)))
  {
    EachKeepsShape(rs, (r: Receipt) => BoundAdvance(r, id, revision));
  }

  lemma AdvanceUnbinds(s: State, a: RecoveryAdvance, candidate: State, effect: Option<Effect>) returns (r: Receipt, to: Phase)
    requires EffectsKeyed(s) && AdvanceRecovery(s, a) == Accepted(candidate, effect)
    ensures candidate.receipts == Each(s.receipts, (q: Receipt) => UnbindOne(q, r, to)) && candidate.revision == s.revision
    ensures r in s.receipts && r.request.id == a.id
    ensures (r.phase.TerminalAwait? && to.TerminalPending?) || (r.phase.RetryAwait? && to.RetryPending?)
    ensures effect.Some? && (effect.value.id != 0 ==> effect.value.id in s.effects && effect.value.id > 0)
  {
    r := Find(s.receipts, a.id).value;
    to := if r.phase.RetryAwait? then RetryPending else TerminalPending;
    FoundIn(s.receipts, a.id);
    BeginReconciliationKeepsReceipts(s, a.begin.(identity := a.identity.(sourceRevision := s.revision)));
  }

  /** The commands that do not touch receipts at all. */
  lemma OtherCommandsKeepReceipts(s: State, c: Command)
    requires Apply(s, c).Accepted?
    requires c.AuthorizeReconciliationCommand? || c.ResolveInvalidatedCommand? || c.OtherCommand?
    ensures Apply(s, c).state.receipts == s.receipts
  {
    hide JoinCoalesced, AdvanceRecovery, FinishReconciliation, SupersedeReview, FinishOperatorRuntime, FinishRuntime, Begin, Reserve,
      RequestReviewerSession, MarkReviewerRunning, ProveReviewerDead, SealReviewerResult, BindReviewerStopping, MarkReviewerStopped,
      BeginRuntime, InvalidateAttempt, BeginReconciliation, NotCurrent;
  }

  lemma ReviewerCommandsKeepReceipts(s: State, c: Command)
    requires Apply(s, c).Accepted?
    requires c.RequestSessionCommand? || c.MarkRunningCommand? || c.ProveDeadCommand? || c.SealCommand? || c.BindStoppingCommand? || c.MarkStoppedCommand?
    ensures Apply(s, c).state.receipts == s.receipts
  {
    hide JoinCoalesced, AdvanceRecovery, FinishReconciliation, SupersedeReview, FinishOperatorRuntime, FinishRuntime, Begin, Reserve,
      BeginRuntime, InvalidateAttempt, BeginReconciliation, AuthorizeReconciliation, ResolveInvalidated,
      NotCurrent, NotFinishable, CleanupAuthorized, ProofOf, ValidResult;
  }

  lemma FinishOperatorKeepsLedger(s: State, f: RuntimeFinish)
    requires LedgerInv(s.receipts) && EffectsKeyed(s) && FinishOperatorRuntime(s, f).Accepted?
    ensures LedgerInv(FinishOperatorRuntime(s, f).state.receipts)
  {
    hide LedgerInv, FinishRuntime, Advance, CompleteBound;
    FinishRuntimeKeepsReceipts(s, f);
    EffectPassesKeepLedger(s.receipts, f.identity.id, s.revision + 1, "");
  }

  lemma FinishReconciliationKeepsLedger(s: State, c: ReconciliationFinish)
    requires LedgerInv(s.receipts) && EffectsKeyed(s) && FinishReconciliation(s, c).Accepted?
    ensures LedgerInv(FinishReconciliation(s, c).state.receipts)
  {
    hide LedgerInv, NotFinishable, ResultUnproved, ValidResult, Advance, CompleteBound, FailBound;
    EffectPassesKeepLedger(s.receipts, c.identity.id, s.revision + 1, if c.result.ReviewerResult? then c.result.diagnostic else "");
  }

  lemma SupersedeReviewKeepsLedger(s: State, r: ReviewSupersession)
    requires LedgerInv(s.receipts) && EffectsKeyed(s) && SupersedeReview(s, r).Accepted?
    ensures LedgerInv(SupersedeReview(s, r).state.receipts)
  {
    hide LedgerInv, PlanReviewInvalidated, CleanupAuthorized, ProofOf, SameManifest, BelongsToEffect;
    EffectPassesKeepLedger(s.receipts, r.identity.id, s.revision + 1, "");
  }

  lemma StartCleanupKeepsLedger(s: State, i: EffectIdentity, external: bool)
    requires LedgerInv(s.receipts) && EffectsKeyed(s) && StartCleanupWork(s, i, external).Accepted?
    ensures LedgerInv(StartCleanupWork(s, i, external).state.receipts)
  {
    hide LedgerInv;
    EffectPassesKeepLedger(s.receipts, i.id, s.revision + 1, "");
  }

  lemma RestampKeepsLedger(rs: seq<Receipt>, epoch: nat)
    requires LedgerInv(rs)
    ensures LedgerInv(RestampClaims(rs, epoch))
  {
    EachKeepsLedger(rs, (r: Receipt) => RestampClaim(r, epoch));
  }

  lemma FinishRuntimeKeepsReceipts(s: State, f: RuntimeFinish)
    ensures FinishRuntime(s, f).Accepted? ==> FinishRuntime(s, f).state.receipts == s.receipts && f.identity.id in s.effects
  {
  }

  lemma FailKeepsLedger(s: State, q: Request, result: ControlResult)
    requires LedgerInv(s.receipts) && Fail(s, q, result).Accepted?
    ensures LedgerInv(Fail(s, q, result).state.receipts)
  {
    var r := Find(s.receipts, q.id).value;
    EachKeepsLedger(s.receipts, (x: Receipt) => FailClaim(x, r, result, s.revision + 1));
  }

  lemma ReconcileClaimsKeepsLedger(s: State, c: Collection)
    requires LedgerInv(s.receipts)
    ensures LedgerInv(ReconcileClaims(s, c))
  {
    EachKeepsLedger(s.receipts, (x: Receipt) => ReconcileClaim(s, x, c));
  }

  /** Every other command keeps the ledger in its candidate already. */
  lemma CandidateKeepsLedger(s: State, c: Command)
    requires LedgerInv(s.receipts) && EffectsKeyed(s) && CompensationBound(s)
    requires !c.BeginMutation? && !c.AdvanceRecoveryCommand? && Apply(s, c).Accepted?
    ensures LedgerInv(Apply(s, c).state.receipts)
  {
    hide LedgerInv, EffectsKeyed, CompensationBound, Reserve, Abort, Fail, RefreshClaims, RefreshValid, ReconcileClaims, StartCleanupWork, FinishOperatorRuntime,
      FinishRuntime, RecordDiagnostic, CompleteHandoff, BeginRuntime, InvalidateAttempt, BeginReconciliation, AuthorizeReconciliation,
      ResolveInvalidated, RequestReviewerSession, MarkReviewerRunning, ProveReviewerDead, SealReviewerResult, BindReviewerStopping,
      MarkReviewerStopped, FinishReconciliation, SupersedeReview, Begin, JoinCoalesced, AdvanceRecovery;
    match c {
      case OwnerStart(_) => RestampKeepsLedger(s.receipts, s.epoch + 1);
      case ReserveAdmission(q, valid, statusAllows) => ReserveKeepsLedger(s, q, valid, statusAllows, Apply(s, c).state);
      case AbortAdmission(q) => AbortKeepsLedger(s, q, Apply(s, c).state);
      case FailAdmission(q, result) => FailKeepsLedger(s, q, result);
      case Collect(observations, collection) => ReconcileClaimsKeepsLedger(Observe(s, observations), collection);
      case Refresh(observations, id, _, _) => ClaimRefreshKeepsLedger(Observe(s, observations), id);
      case StartCleanupCommand(i, external) => StartCleanupKeepsLedger(s, i, external);
      case FinishOperatorRuntimeCommand(f) => FinishOperatorKeepsLedger(s, f);
      case FinishRuntimeCommand(f) => FinishRuntimeKeepsReceipts(s, f);
      case DiagnoseOperator(id, phase, effect, diagnostic) => DiagnoseKeepsLedger(s, id, phase, effect, diagnostic, Apply(s, c).state);
      case CompleteCompensation(id, proved) => CompensationKeepsLedger(s, id, proved, Apply(s, c).state);
      case FinishReconciliationCommand(f) => FinishReconciliationKeepsLedger(s, f);
      case SupersedeReviewCommand(r) => SupersedeReviewKeepsLedger(s, r);
      case BeginRuntimeCommand(b) => BeginRuntimeKeepsReceipts(s, b);
      case InvalidateCommand(i) => InvalidateKeepsReceipts(s, i);
      case BeginReconciliationCommand(b) => BeginReconciliationKeepsReceipts(s, b);
      case AuthorizeReconciliationCommand(_, _) => OtherCommandsKeepReceipts(s, c);
      case ResolveInvalidatedCommand(_, _) => OtherCommandsKeepReceipts(s, c);
      case OtherCommand(_) => OtherCommandsKeepReceipts(s, c);
      case _ => ReviewerCommandsKeepReceipts(s, c);
    }
  }

  lemma ClaimRefreshKeepsLedger(s: State, id: string)
    requires LedgerInv(s.receipts)
    ensures LedgerInv(RefreshClaims(s, id))
  {
    var known := Find(s.receipts, id);
    if known.Some? && known.value.admission.Some? && known.value.request.slot.issue in s.observations {
      var previous, sighting := known.value.admission.value, Seen(s.observations[known.value.request.slot.issue]);
      EachKeepsLedger(s.receipts, (x: Receipt) => RefreshOne(x, previous, sighting));
    }
  }
}
