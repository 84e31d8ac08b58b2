// What the bounded list guarantees to the requests on it: one leader for each
// class of equal claims, failure of exactly that class, room for every claim to
// be begun, and no eviction or supersession that loses an effect still named.
module ClaimsAndCapacity {
  import opened OwnerState
  import opened Receipts
  import opened OperatorMutations
  import opened AttemptEffects
  import opened StateOwner
  import opened LedgerInvariant

  // ---- Leaders -------------------------------------------------------------

  /** The first member of a class leads it, and no other member does. */
  lemma {:induction false} LeadsMeansFirst(rs: seq<Receipt>, r: Receipt)
    ensures Leads(rs, r) <==> exists k :: IsFirstOfClass(rs, r, k) && rs[k].request.id == r.request.id
  {
    if rs != [] {
      if SameClaim(rs[0], r) {
        assert IsFirstOfClass(rs, r, 0);
      } else {
        LeadsMeansFirst(rs[1..], r);
        if Leads(rs, r) {
          var k :| IsFirstOfClass(rs[1..], r, k) && rs[1..][k].request.id == r.request.id;
          assert IsFirstOfClass(rs, r, k + 1);
        }
        if k :| IsFirstOfClass(rs, r, k) && rs[k].request.id == r.request.id {
          assert IsFirstOfClass(rs[1..], r, k - 1);
        }
      }
    }
  }

  ghost predicate IsFirstOfClass(rs: seq<Receipt>, r: Receipt, k: int) {
    0 <= k < |rs| && SameClaim(rs[k], r) && forall j :: 0 <= j < k ==> !SameClaim(rs[j], r)
  }

  /** Every nonempty class has exactly one leader. */
  lemma ExactlyOneLeader(rs: seq<Receipt>, r: Receipt) returns (k: nat)
    requires UniqueIds(rs)
    requires exists i :: 0 <= i < |rs| && SameClaim(rs[i], r)
    ensures k < |rs| && SameClaim(rs[k], r) && Leads(rs, rs[k])
    ensures forall j :: 0 <= j < |rs| && SameClaim(rs[j], r) && Leads(rs, rs[j]) ==> j == k
  {
    k := 0;
    while !SameClaim(rs[k], r)
      invariant k < |rs|
      invariant forall i :: 0 <= i < k ==> !SameClaim(rs[i], r)
      decreases |rs| - k
    {
      k := k + 1;
    }
    SameClass(rs, rs[k], r);
    LeadsMeansFirst(rs, rs[k]);
    assert IsFirstOfClass(rs, rs[k], k);
    forall j | 0 <= j < |rs| && SameClaim(rs[j], r) && Leads(rs, rs[j]) ensures j == k {
      SameClass(rs, rs[j], r);
      LeadsMeansFirst(rs, rs[j]);
      var x :| IsFirstOfClass(rs, rs[j], x) && rs[x].request.id == rs[j].request.id;
      assert x == k;
      assert rs[k].request.id == rs[j].request.id;
    }
  }

  lemma SameClass(rs: seq<Receipt>, a: Receipt, r: Receipt)
    requires SameClaim(a, r)
    ensures forall x :: SameClaim(x, a) <==> SameClaim(x, r)
  {
  }

  // ---- Failing a claim -----------------------------------------------------

  /** Failing a claim completes the claims of its class, which are all the claims
      on its attempt, each under its own request; it touches nothing else. */
  lemma FailCompletesExactlyItsClass(s: State, q: Request, result: ControlResult, after: State)
    requires LedgerInv(s.receipts) && Fail(s, q, result) == Accepted(after, None)
    ensures |after.receipts| == |s.receipts|
    ensures forall i :: 0 <= i < |s.receipts| ==>
      var before, now := s.receipts[i], after.receipts[i];
      if Claims(before) && before.request.slot == q.slot then
        && now.state.Done? && now.admission.None? && now.request == before.request
        && now.result == Some(result.(requestId := before.request.id, action := before.request.action, revision := s.revision + 1))
      else now == before
    ensures ClaimOn(after.receipts, q.slot).None?
    ensures Find(after.receipts, q.id).Some? && Find(after.receipts, q.id).value.state.Done?
  {
    var k := IndexOf(s.receipts, q.id);
    forall i | 0 <= i < |s.receipts| ensures Claims(s.receipts[i]) && s.receipts[i].request.slot == q.slot <==> SameClaim(s.receipts[i], s.receipts[k]) {
      assert Agree(s.receipts[i], s.receipts[k]);
      assert ValidBinding(s.receipts[i]);
    }
    var kk := IndexOf(after.receipts, q.id);
    assert kk == k by {
      assert forall i :: 0 <= i < |s.receipts| ==> after.receipts[i].request == s.receipts[i].request;
    }
  }

  // ---- Appending and superseding -------------------------------------------

  /** A waiting receipt is never evicted, and the others keep their order. */
  lemma AppendKeepsWaiting(s: State, r: Receipt, after: State)
    requires AppendReceipt(s, r) == Some(after)
    ensures after.receipts == Dropping(s.receipts, EvictedAt(s.receipts)) + [r]
    ensures EvictedAt(s.receipts) < |s.receipts| ==> s.receipts[EvictedAt(s.receipts)].state.Done? && |s.receipts| == MAX_CONTROL_RECEIPTS
    ensures forall q :: q in s.receipts && q.state.Waiting? ==> q in after.receipts
  {
    var k := EvictedAt(s.receipts);
    AppendedLast(s, r, after);
    forall q | q in s.receipts && q.state.Waiting? ensures q in after.receipts {
      var i :| 0 <= i < |s.receipts| && s.receipts[i] == q;
      assert q == after.receipts[if i < k then i else i - 1];
    }
  }

  /** An append is refused exactly when the list is full of waiting receipts. */
  lemma AppendRefusedIff(s: State, r: Receipt)
    ensures AppendReceipt(s, r).None? <==> |s.receipts| == MAX_CONTROL_RECEIPTS && forall i :: 0 <= i < |s.receipts| ==> s.receipts[i].state.Waiting?
  {
    var k := OldestDone(s.receipts);
  }

  ghost predicate StillNamed(s: State, effect: nat) {
    ReferencedByReceipt(s.receipts, effect) || ReferencedByTombstone(s, effect)
  }

  /** The evicted receipt was the last to name the effect the new one names. */
  ghost predicate EvictsOwnEffect(s: State, r: Receipt) {
    var k := EvictedAt(s.receipts);
    && k < |s.receipts| && r.effect != 0 && s.receipts[k].effect == r.effect
    && r.effect in s.effects && s.effects[r.effect].status.Completed?
    && !ReferencedByReceipt(Dropping(s.receipts, k), r.effect) && !ReferencedByTombstone(s, r.effect)
  }

  /** An eviction deletes only a completed effect that neither a receipt that was
      already there nor a tombstone names. It looks before the new receipt is on
      the list, so it deletes the effect the new receipt names exactly when the
      evicted one was the last to name it. */
  lemma AppendKeepsNamedEffects(s: State, r: Receipt, after: State)
    requires AppendReceipt(s, r) == Some(after)
    ensures forall id :: id in after.effects ==> id in s.effects && after.effects[id] == s.effects[id]
    ensures forall id :: id in s.effects && id !in after.effects ==>
      s.effects[id].status.Completed? && (StillNamed(after, id) ==> id == r.effect)
    ensures r.effect in s.effects && r.effect != 0 ==> (r.effect !in after.effects <==> EvictsOwnEffect(s, r))
  {
    hide AppendReceipt, Dropping, OldestDone;
    var k := EvictedAt(s.receipts);
    AppendKeepsWaiting(s, r, after);
    AppendEffects(s, r, after);
    if k < |s.receipts| {
      NamedAfterAppend(Dropping(s.receipts, k), r, s.receipts[k].effect);
    }
  }

  lemma NamedAfterAppend(rest: seq<Receipt>, r: Receipt, id: nat)
    ensures ReferencedByReceipt(rest + [r], id) <==> ReferencedByReceipt(rest, id) || r.effect == id
  {
    var out := rest + [r];
    if ReferencedByReceipt(rest, id) {
      var i :| 0 <= i < |rest| && rest[i].effect == id;
      assert out[i].effect == id;
    }
    assert out[|rest|] == r;
  }

  lemma AppendEffects(s: State, r: Receipt, after: State)
    requires AppendReceipt(s, r) == Some(after)
    ensures var k := EvictedAt(s.receipts);
      && after.tombstones == s.tombstones
      && after.effects ==
         if && k < |s.receipts| && s.receipts[k].effect != 0 && !ReferencedByReceipt(Dropping(s.receipts, k), s.receipts[k].effect)
            && !ReferencedByTombstone(s, s.receipts[k].effect)
            && s.receipts[k].effect in s.effects && s.effects[s.receipts[k].effect].status.Completed?
         then s.effects - {s.receipts[k].effect} else s.effects
  {
    hide ReferencedByReceipt, ReferencedByTombstone;
    if |s.receipts| == MAX_CONTROL_RECEIPTS {
      var k := OldestDone(s.receipts);
      assert Dropping(s.receipts, k) == s.receipts[..k] + s.receipts[k + 1..];
    }
  }

  /** Supersession deletes exactly the effects whose last reference it took. */
  lemma SupersedeKeepsNamedEffects(s: State, slot: Slot, action: OperatorAction)
    ensures var after := Supersede(s, slot, action);
      && (forall id :: id in after.effects ==> id in s.effects && after.effects[id] == s.effects[id])
      && (forall id :: id in s.effects && id !in after.effects <==>
           id in s.effects && id != 0 && ReferencedByReceipt(s.receipts, id) && !StillNamed(after, id))
  {
    var after := Supersede(s, slot, action);
    forall id | id in s.effects && id != 0 && ReferencedByReceipt(s.receipts, id) && !StillNamed(after, id) ensures id !in after.effects {
      var i :| 0 <= i < |s.receipts| && s.receipts[i].effect == id;
      assert after.receipts[i].effect != id;
      assert Superseded(s.receipts[i], slot, action);
    }
  }

  // ---- Room for every claim ------------------------------------------------

  ghost function Ids(rs: seq<Receipt>): set<string> {
    set i | 0 <= i < |rs| :: rs[i].request.id
  }

  lemma IdsMember(rs: seq<Receipt>, id: string)
    ensures id in Ids(rs) <==> exists r :: r in rs && r.request.id == id
  {
    if r :| r in rs && r.request.id == id {
      var i :| 0 <= i < |rs| && rs[i] == r;
    }
  }

  lemma TailIds(rs: seq<Receipt>)
    requires UniqueIds(rs) && rs != []
    ensures Ids(rs) == Ids(rs[1..]) + {rs[0].request.id} && rs[0].request.id !in Ids(rs[1..]) && UniqueIds(rs[1..])
  {
    var tail := rs[1..];
    forall x | x in Ids(rs) ensures x == rs[0].request.id || x in Ids(tail) {
      var i :| 0 <= i < |rs| && rs[i].request.id == x;
      assert i > 0 ==> tail[i - 1].request.id == x;
    }
    forall x | x in Ids(tail) ensures x in Ids(rs) {
      var i :| 0 <= i < |tail| && tail[i].request.id == x;
      assert rs[i + 1].request.id == x;
    }
  }

  /** Removing a listed request frees exactly one place. */
  lemma {:induction false} WithoutFreesOne(rs: seq<Receipt>, id: string)
    requires UniqueIds(rs)
    ensures id in Ids(rs) ==> |Without(rs, id)| == |rs| - 1
    ensures id !in Ids(rs) ==> Without(rs, id) == rs
    ensures Ids(Without(rs, id)) == Ids(rs) - {id} && UniqueIds(Without(rs, id))
  {
    hide Ids, UniqueIds;
    if rs == [] {
      NoIds();
    } else {
      var tail := rs[1..];
      TailIds(rs);
      WithoutFreesOne(tail, id);
      if rs[0].request.id == id {
        assert Without(rs, id) == tail;
      } else {
        KeptInFront(rs, id);
        ConsIds(rs[0], Without(tail, id));
      }
    }
  }

  lemma KeptInFront(rs: seq<Receipt>, id: string)
    requires rs != [] && rs[0].request.id != id
    ensures Without(rs, id) == [rs[0]] + Without(rs[1..], id)
    ensures Without(rs[1..], id) == rs[1..] ==> Without(rs, id) == rs
  {
  }

  lemma NoIds()
    ensures Ids([]) == {} && UniqueIds([])
  {
  }

  lemma ConsIds(r: Receipt, rs: seq<Receipt>)
    requires UniqueIds(rs) && r.request.id !in Ids(rs)
    ensures Ids([r] + rs) == Ids(rs) + {r.request.id} && UniqueIds([r] + rs)
  {
    var out := [r] + rs;
    forall x | x in Ids(rs) + {r.request.id} ensures x in Ids(out) {
      if x in Ids(rs) {
        var i :| 0 <= i < |rs| && rs[i].request.id == x;
        assert out[i + 1].request.id == x;
      } else {
        assert out[0].request.id == x;
      }
    }
    forall j | 1 <= j < |out| ensures out[0].request.id != out[j].request.id {
      assert out[j] == rs[j - 1];
    }
  }

  lemma AppendedIds(rs: seq<Receipt>, r: Receipt)
    requires UniqueIds(rs) && r.request.id !in Ids(rs)
    ensures Ids(rs + [r]) == Ids(rs) + {r.request.id} && UniqueIds(rs + [r])
  {
    var out := rs + [r];
    forall x | x in Ids(rs) + {r.request.id} ensures x in Ids(out) {
      if x in Ids(rs) {
        var i :| 0 <= i < |rs| && rs[i].request.id == x;
        assert out[i].request.id == x;
      } else {
        assert out[|rs|].request.id == x;
      }
    }
  }

  /** Replacing a listed receipt always succeeds and evicts nothing. */
  lemma ReplaceNeedsNoRoom(s: State, r: Receipt)
    requires UniqueIds(s.receipts) && |s.receipts| <= MAX_CONTROL_RECEIPTS && r.request.id in Ids(s.receipts)
    ensures AppendReceipt(s.(receipts := Without(s.receipts, r.request.id)), r)
         == Some(s.(receipts := Without(s.receipts, r.request.id) + [r]))
    ensures var out := Without(s.receipts, r.request.id) + [r];
            UniqueIds(out) && |out| == |s.receipts| && Ids(out) == Ids(s.receipts)
  {
    WithoutFreesOne(s.receipts, r.request.id);
    AppendedIds(Without(s.receipts, r.request.id), r);
  }

  /** Followers that are all on the list are replaced one for one. */
  lemma {:induction false} AttachNeedsNoRoom(s: State, primary: Receipt, followers: seq<Request>)
    requires UniqueIds(s.receipts) && |s.receipts| <= MAX_CONTROL_RECEIPTS
    requires forall f :: f in followers && f.id != primary.request.id ==> f.id in Ids(s.receipts)
    ensures AttachAll(s, primary, followers).Some?
    ensures var after := AttachAll(s, primary, followers).value;
            && after == s.(receipts := after.receipts) && UniqueIds(after.receipts)
            && |after.receipts| == |s.receipts| && Ids(after.receipts) == Ids(s.receipts)
    decreases |followers|
  {
    if followers != [] {
      var f := followers[0];
      if f.id == primary.request.id {
        AttachNeedsNoRoom(s, primary, followers[1..]);
      } else {
        ReplaceNeedsNoRoom(s, Attached(primary, f));
        var next := s.(receipts := Without(s.receipts, f.id) + [Attached(primary, f)]);
        AttachNeedsNoRoom(next, primary, followers[1..]);
      }
    }
  }

  /** A claimed begin puts its receipt in the place its claim held. */
  lemma ClaimedBeginReplaces(s: State, c: OperatorBegin) returns (primary: Receipt)
    requires LedgerInv(s.receipts) && EffectsKeyed(s)
    requires Admitted(s, c).AdmittedBy? && Begin(s, c).Accepted?
    ensures var begun := Begin(s, c).state;
      && UniqueIds(begun.receipts) && Ids(begun.receipts) == Ids(s.receipts) && |begun.receipts| == |s.receipts|
      && primary in begun.receipts && primary.request == c.request && !primary.phase.AdmissionPending?
  {
    hide Admitted, Begin, AppendReceipt, SupersedeReceipts, Without, UniqueIds, Ids, LedgerInv, EffectsKeyed, Bindable;
    AdmittedHolds(s, c);
    IdsMember(s.receipts, c.request.id);
    LedgerUnique(s.receipts);
    WithoutFreesOne(s.receipts, c.request.id);
    var mid;
    mid, primary := ClaimedBeginRecords(s, c, Admitted(s, c).claim);
    SupersedeKeepsIds(Without(s.receipts, c.request.id), c.request, s.revision + 1);
    AppendWithRoom(mid, primary, Begin(s, c).state);
  }

  lemma LedgerUnique(rs: seq<Receipt>)
    requires LedgerInv(rs)
    ensures UniqueIds(rs) && |rs| <= MAX_CONTROL_RECEIPTS
  {
  }

  /** A request that holds a claim can always record its begin: neither its own
      receipt nor those of its class need a place that the claims did not hold,
      so nothing is evicted and nothing is refused for want of room. */
  lemma ClaimedBeginNeedsNoRoom(s: State, c: OperatorBegin)
    requires LedgerInv(s.receipts) && EffectsKeyed(s)
    requires Admitted(s, c).AdmittedBy? && Begin(s, c).Accepted?
    ensures JoinCoalesced(s, c, Begin(s, c)).Accepted?
    ensures var after := JoinCoalesced(s, c, Begin(s, c)).state;
            Ids(after.receipts) == Ids(s.receipts) && |after.receipts| == |s.receipts|
  {
    hide Begin, AttachAll, ClaimsAgree, Without, EffectOf, Ids, Followers;
    var primary := ClaimedBeginReplaces(s, c);
    var begun := Begin(s, c).state;
    FollowersAreListed(s, c.request);
    FindInShaped(begun.receipts, primary);
    AttachNeedsNoRoom(begun, primary, Followers(s, c.request));
  }

  lemma SupersedeKeepsIds(rs: seq<Receipt>, q: Request, revision: nat)
    requires UniqueIds(rs)
    ensures Ids(SupersedeReceipts(rs, q.slot, q.action, revision)) == Ids(rs)
    ensures UniqueIds(SupersedeReceipts(rs, q.slot, q.action, revision)) && |SupersedeReceipts(rs, q.slot, q.action, revision)| == |rs|
  {
    var out := SupersedeReceipts(rs, q.slot, q.action, revision);
    assert forall i :: 0 <= i < |rs| ==> out[i].request == rs[i].request;
  }

  lemma AppendWithRoom(mid: State, r: Receipt, after: State)
    requires UniqueIds(mid.receipts) && |mid.receipts| < MAX_CONTROL_RECEIPTS && r.request.id !in Ids(mid.receipts)
    requires AppendReceipt(mid, r) == Some(after)
    ensures after.receipts == mid.receipts + [r] && r in after.receipts && UniqueIds(after.receipts)
    ensures Ids(after.receipts) == Ids(mid.receipts) + {r.request.id} && |after.receipts| == |mid.receipts| + 1
  {
    AppendedIds(mid.receipts, r);
    assert after.receipts[|mid.receipts|] == r;
  }

  lemma FollowersAreListed(s: State, q: Request)
    ensures forall f :: f in Followers(s, q) ==> f.id in Ids(s.receipts)
  {
    forall f | f in Followers(s, q) ensures f.id in Ids(s.receipts) {
      var own := Find(s.receipts, q.id).value;
      var i :| 0 <= i < |s.receipts| && SameClaim(s.receipts[i], own) && s.receipts[i].request == f;
    }
  }

  /** A held claim keeps its place free for the begin: whatever the begin records
      after the claim is taken off the list is appended, and evicts nothing. */
  lemma ClaimLeavesRoom(s: State, own: Receipt, mid: State, r: Receipt)
    requires LedgerInv(s.receipts) && own in s.receipts && Claims(own)
    requires |mid.receipts| == |Without(s.receipts, own.request.id)|
    ensures AppendReceipt(mid, r) == Some(mid.(receipts := mid.receipts + [r]))
  {
    LedgerUnique(s.receipts);
    IdsMember(s.receipts, own.request.id);
    WithoutFreesOne(s.receipts, own.request.id);
  }

  // ---- What a claim captures -----------------------------------------------

  /** A reservation that adds a claim either joins the one that is held on the
      attempt, or captures the owner's present epoch and generations and the very
      manifest it holds; a claim on an attempt it does not hold has none. */
  lemma ReservationJoinsOrCaptures(s: State, q: Request, valid: bool, statusAllows: bool, after: State) returns (claim: Receipt)
    requires Reserve(s, q, valid, statusAllows) == Accepted(after, None) && after != s
    ensures AppendReceipt(s, claim) == Some(after) && claim.request == q && Claims(claim) && claim.admission.Some?
    ensures var held, a := ClaimOn(s.receipts, q.slot), claim.admission.value;
      if held.Some? then held.value.request.action == q.action && held.value.admission == Some(a)
      else
        && a.epoch == s.epoch && a.issueGeneration == IssueGeneration(s, q.slot.issue) && a.attemptGeneration == AttemptGeneration(s, q.slot)
        && (q.slot in s.attempts ==> a.manifest == Some(s.attempts[q.slot].manifest) && !a.remoteOnly && a.attemptGeneration > 0)
        && (q.slot !in s.attempts ==> a.manifest.None? && a.remoteOnly && (q.action.Archive? || q.action.Dismiss?))
        && (ObservationSensitive(claim) && q.slot.issue in s.observations ==> a.sighting == Seen(s.observations[q.slot.issue]))
  {
    hide AppendReceipt, Find, ClaimOn, RemoteAttemptCompleted, Destructive, Reserved;
    claim := ReserveClaims(s, q, valid, statusAllows, after);
    AppendIsInjective(s, claim, after);
  }

  lemma AppendIsInjective(s: State, r: Receipt, after: State)
    requires AppendReceipt(s, r) == Some(after)
    ensures forall q :: AppendReceipt(s, q) == Some(after) ==> q == r
  {
    hide ReferencedByReceipt, ReferencedByTombstone;
    forall q | AppendReceipt(s, q) == Some(after) ensures q == r {
      AppendedLast(s, r, after);
      AppendedLast(s, q, after);
      var n := |after.receipts| - 1;
      assert after.receipts[n] == r && after.receipts[n] == q;
    }
  }

  /** Giving up a claim removes that request and nothing else. */
  lemma AbortRemovesOnlyItsClaim(s: State, q: Request, after: State)
    requires UniqueIds(s.receipts) && Abort(s, q) == Accepted(after, None)
    ensures after == s.(receipts := Without(s.receipts, q.id))
    ensures forall i :: 0 <= i < |s.receipts| && s.receipts[i].request.id == q.id ==> Claims(s.receipts[i]) && s.receipts[i].request == q
  {
    hide Claims, UniqueIds;
    var k := IndexOf(s.receipts, q.id);
    if k == |s.receipts| {
      NotListed(s.receipts, q.id);
    } else {
      OnlyPlace(s.receipts, k);
      WithoutSplits(s.receipts, k);
    }
  }

  lemma OnlyPlace(rs: seq<Receipt>, k: nat)
    requires UniqueIds(rs) && k < |rs|
    ensures forall i :: 0 <= i < |rs| && i != k ==> rs[i].request.id != rs[k].request.id
  {
  }

  lemma {:induction false} WithoutSplits(rs: seq<Receipt>, k: nat)
    requires k < |rs| && forall i :: 0 <= i < |rs| && i != k ==> rs[i].request.id != rs[k].request.id
    ensures Without(rs, rs[k].request.id) == rs[..k] + rs[k + 1..]
  {
    var tail, id := rs[1..], rs[k].request.id;
    WithoutHead(rs, id);
    hide Without;
    if k == 0 {
      NotListed(tail, id);
      assert rs[..0] + tail == tail;
    } else {
      WithoutSplits(tail, k - 1);
      CutShifts(rs, k);
    }
  }

  lemma CutShifts<T>(s: seq<T>, k: nat)
    requires 0 < k < |s|
    ensures [s[0]] + (s[1..][..k - 1] + s[1..][k..]) == s[..k] + s[k + 1..]
  {
    assert s[..k] == [s[0]] + s[1..][..k - 1] && s[k + 1..] == s[1..][k..];
  }

  lemma WithoutHead(rs: seq<Receipt>, id: string)
    requires rs != []
    ensures Without(rs, id) == (if rs[0].request.id == id then [] else [rs[0]]) + Without(rs[1..], id)
  {
    assert [] + Without(rs[1..], id) == Without(rs[1..], id);
  }

  lemma {:induction false} NotListed(rs: seq<Receipt>, id: string)
    requires forall i :: 0 <= i < |rs| ==> rs[i].request.id != id
    ensures Without(rs, id) == rs
  {
    if rs != [] {
      WithoutHead(rs, id);
      hide Without;
      NotListed(rs[1..], id);
      assert [rs[0]] + rs[1..] == rs;
    }
  }

  /** After a collection, a claim in its scope that depends on the observation and
      still stands has seen exactly what was collected; one that lost its ground
      is answered with a conflict and no longer a claim. */
  lemma CollectedClaimsAreFresh(s: State, c: Collection, i: nat)
    requires LedgerInv(s.receipts) && i < |s.receipts| && Claims(s.receipts[i]) && ObservationSensitive(s.receipts[i])
    requires var issue := s.receipts[i].request.slot.issue;
      issue in c.scope && issue in s.observations && s.observations[issue].epoch == c.epoch && s.observations[issue].cycle == c.cycle
    ensures var before, now, o := s.receipts[i], ReconcileClaims(s, c)[i], s.observations[s.receipts[i].request.slot.issue];
      if Claims(now) then
        now.admission == Some(before.admission.value.(sighting := Seen(o))) && (now != before ==> !ClaimLost(s, before, o))
      else
        && ClaimLost(s, before, o) && before.admission.value.sighting != Seen(o)
        && now.state.Done? && now.admission.None? && now.result.Some? && now.result.value.status == 409 && !now.result.value.ok
  {
    hide ClaimLost;
    assert ValidBinding(s.receipts[i]);
  }

  // ---- An append that loses its own effect ---------------------------------

  /** A begin that is answered with a completed effect and loses it in its own
      append leaves its receipt unbound, and the gate refuses the commit. */
  lemma LostEffectIsRefused(s: State, c: OperatorBegin, r: Receipt, effect: Effect, revoked: set<nat>, next: State)
    requires Gate(s) && Admitted(s, c).NotAdmitted? && r.request == c.request && r.effect == effect.id && EvictsOwnEffect(s, r)
    requires Begin(s, c) == AfterAppend(AppendReceipt(s, r), Some(effect))
    ensures !Step(s, Move(BeginMutation(c), revoked), next)
  {
    hide Stamp, LedgerInv, Begin, AppendReceipt, EvictsOwnEffect, BoundToEffect, CurrentClaim, EffectsKeyed;
    if AppendReceipt(s, r).Some? {
      var after := AppendReceipt(s, r).value;
      LostEffect(s, c, r, effect);
      NotOnList(s.receipts, r.request.id);
      StampedIsUnbound(s, c, after, r, effect, revoked);
    }
  }

  lemma LostEffect(s: State, c: OperatorBegin, r: Receipt, effect: Effect)
    requires Admitted(s, c).NotAdmitted? && r.request == c.request && r.effect == effect.id && EvictsOwnEffect(s, r) && AppendReceipt(s, r).Some?
    requires Begin(s, c) == AfterAppend(AppendReceipt(s, r), Some(effect))
    ensures var after := AppendReceipt(s, r).value;
      JoinCoalesced(s, c, Begin(s, c)) == Accepted(after, Some(effect)) && r in after.receipts && effect.id in s.effects && effect.id !in after.effects && effect.id != 0
  {
    hide Begin, AppendReceipt, EvictsOwnEffect;
    AppendLoses(s, r, AppendReceipt(s, r).value);
  }

  lemma AppendLoses(s: State, r: Receipt, after: State)
    requires AppendReceipt(s, r) == Some(after) && EvictsOwnEffect(s, r)
    ensures r in after.receipts && r.effect in s.effects && r.effect !in after.effects && r.effect != 0
  {
    AppendKeepsNamedEffects(s, r, after);
    AppendedLast(s, r, after);
  }

  lemma StampedIsUnbound(s: State, c: OperatorBegin, candidate: State, r: Receipt, effect: Effect, revoked: set<nat>)
    requires r in candidate.receipts && r.request.id == c.request.id
    requires effect.id == r.effect != 0 && r.effect !in candidate.effects
    ensures !Gate(Stamp(s, BeginMutation(c), candidate, Some(effect), revoked))
  {
    hide LedgerInv, EffectsKeyed, CurrentClaim, RevokeOne;
    var next := Stamp(s, BeginMutation(c), candidate, Some(effect), revoked);
    var i :| 0 <= i < |candidate.receipts| && candidate.receipts[i] == r;
    assert next.receipts[i].effect == r.effect && r.effect !in next.effects;
    assert !BoundToEffect(next, next.receipts[i]);
  }

  function ManifestOf(slot: Slot, state: ManifestState): Manifest {
    Manifest(slot, 2, state, 0, "launch", "")
  }

  /** One of the claims, each on an attempt of its own. */
  function HeldClaim(i: nat): Receipt {
    Claim(Request(seq(i + 10, _ => 'x'), Slot(i + 2, 1), Abandon, true),
          Admission(1, 1, 1, Some(ManifestOf(Slot(i + 2, 1), Running)), false, false, NO_SIGHTING))
  }

  const RETRIED := Slot(1, 1)

  const SEEN := Observation(true, 1, 1, 1, 1, "", true, false, 1, true, map[])

  /** The retry that the recovery below has completed. */
  function CompletedRetry(): Effect {
    var request := EffectRequest(RETRIED, Some(ManifestOf(RETRIED, ManifestState.Failed)), Seen(SEEN), "", GitHubIssueUpdate(Retry, 0), "");
    Effect(1, RETRIED, ReconciliationWork(request), 1, 1, 1, Completed, true, ReconciliationDigest(request), "", Some(OtherResult("")),
           false, false, false, 0, None, "", 0, false, 0, false)
  }

  function Recovered(): Receipt {
    var request := Request("first", RETRIED, Recover, true);
    Receipt(request, Done, PhaseCompleted, 1, "", Some(Success(request, 2)), None)
  }

  function FullLedger(): State {
    EMPTY_STATE.(
      epoch := 1, revision := 200,
      issueGenerations := map n {:trigger Slot(n, 1)} | 1 <= n <= 128 :: 1,
      attemptGenerations := map n | 1 <= n <= 128 :: Slot(n, 1) := 1,
      attempts := map n | 1 <= n <= 128 :: Slot(n, 1) := AttemptRecord(1, 0, ManifestOf(Slot(n, 1), if n == 1 then ManifestState.Failed else Running)),
      observations := map[1 := SEEN],
      effects := map[1 := CompletedRetry()],
      receipts := [Recovered()] + seq(127, i requires 0 <= i < 127 => HeldClaim(i)))
  }

  /** Another request to recover the attempt whose retry is completed. */
  function RecoversAgain(): OperatorBegin {
    OperatorBegin(Request("again", RETRIED, Recover, true), BeginIdentity(1, 200, 1, 1), Some(ManifestOf(RETRIED, ManifestState.Failed)), Seen(SEEN),
                  false, false, false, None, CleanupPolicy(OtherAction, "", false), "", None, None, 0, false, false, true, true, true, 0)
  }

  lemma FullLedgerPassesGate()
    ensures Gate(FullLedger())
  {
    var s := FullLedger();
    forall i | 0 <= i < |s.receipts|
      ensures ValidBinding(s.receipts[i]) && BoundToEffect(s, s.receipts[i]) && CurrentClaim(s, s.receipts[i]) {
      assert i > 0 ==> s.receipts[i] == HeldClaim(i - 1);
    }
    FullLedgerIsShaped();
  }

  lemma FullLedgerIsShaped()
    ensures var rs := FullLedger().receipts; UniqueIds(rs) && |rs| == MAX_CONTROL_RECEIPTS && ClaimsAgree(rs)
  {
    var rs := FullLedger().receipts;
    assert forall i :: 0 < i < |rs| ==> rs[i] == HeldClaim(i - 1) && |rs[i].request.id| == i + 9 && rs[i].request.slot == Slot(i + 1, 1);
    assert |rs[0].request.id| == 5 && !Claims(rs[0]);
  }

  function SecondAnswer(): Receipt {
    Receipt(RecoversAgain().request, Done, PhaseCompleted, 1, "", Some(Success(RecoversAgain().request, 201)), None)
  }

  /** A recovery whose retry is completed is answered with it. */
  lemma AnswersWithRetry(s: State, c: OperatorBegin, id: nat)
    requires c.external && Admitted(s, c).NotAdmitted? && c.request.action.Recover? && !c.remoteOnly && c.cleanupDigest.None? && c.publishedHead == ""
    requires c.identity == BeginIdentity(s.epoch, s.revision, IssueGeneration(s, c.request.slot.issue), AttemptGeneration(s, c.request.slot)) && s.revision > 0
    requires c.manifest.Some? && c.manifestValid && c.manifest.value.slot == c.request.slot
    requires c.request.slot in s.attempts && !IsPreparing(s, c.request.slot) && c.request.slot !in s.tombstones && ObservationSupports(s, c, false)
    requires FirstRecovery(s.receipts, c.request.slot).None? && RetriesOf(s, c.request.slot) == {id} && id in s.effects && s.effects[id].status.Completed?
    requires s.effects[id].issueGeneration == c.identity.issueGeneration && s.effects[id].attemptGeneration == c.identity.attemptGeneration
    ensures Begin(s, c) == AfterAppend(RecordDone(s, c.request, id, s.revision + 1), Some(s.effects[id]))
  {
    hide Admitted, FirstRecovery, RetriesOf, ObservationSupports, IsPreparing, AppendReceipt;
    assert The(RetriesOf(s, c.request.slot)) == id;
  }

  lemma AnsweredAgain()
    ensures var s, c, r := FullLedger(), RecoversAgain(), SecondAnswer();
      && Admitted(s, c).NotAdmitted? && r.request == c.request && r.effect == CompletedRetry().id && EvictsOwnEffect(s, r)
      && Begin(s, c) == AfterAppend(AppendReceipt(s, r), Some(CompletedRetry())) && AppendReceipt(s, r).Some?
  {
    hide FirstRecovery, EvictsOwnEffect, AppendReceipt, Begin, RetriesOf;
    ListedRequests();
    EvictsTheRetry();
    OneRetry();
    NoneUnderWay(FullLedger().receipts, RETRIED);
    AnswersWithRetry(FullLedger(), RecoversAgain(), 1);
  }

  lemma OneRetry()
    ensures RetriesOf(FullLedger(), RETRIED) == {1}
  {
    hide HeldClaim;
    assert FullLedger().effects.Keys == {1};
    assert IssueGeneration(FullLedger(), 1) == 1 && AttemptGeneration(FullLedger(), RETRIED) == 1;
    assert CurrentRetry(FullLedger(), RETRIED, 1);
  }

  lemma NoneUnderWay(rs: seq<Receipt>, slot: Slot)
    requires forall q :: q in rs ==> !RecoveryUnderWay(q, slot)
    ensures FirstRecovery(rs, slot).None?
  {
  }

  lemma EvictsTheRetry()
    ensures EvictsOwnEffect(FullLedger(), SecondAnswer()) && AppendReceipt(FullLedger(), SecondAnswer()).Some?
  {
    ListedRequests();
    assert OldestDone(FullLedger().receipts) == 0;
  }

  lemma ListedRequests()
    ensures var rs := FullLedger().receipts;
      && Find(rs, "again").None?
      && (forall q :: q in rs ==> !RecoveryUnderWay(q, RETRIED))
      && !ReferencedByReceipt(Dropping(rs, 0), 1)
  {
    var rs := FullLedger().receipts;
    forall i | 0 <= i < |rs| ensures rs[i].request.id != "again" && !RecoveryUnderWay(rs[i], RETRIED) && (i > 0 ==> rs[i].effect == 0) {
      assert i > 0 ==> rs[i] == HeldClaim(i - 1) && |rs[i].request.id| == i + 9;
      assert rs[0].request.id[0] == 'f';
    }
  }

  /** A list full of claims but for one completed recovery, and a second request
      to recover that attempt: it is answered with the completed retry, which the
      append of that very answer deletes. */
  lemma LostEffectWitness() returns (s: State, c: OperatorBegin)
    ensures Gate(s) && Admitted(s, c).NotAdmitted?
    ensures var reply := JoinCoalesced(s, c, Begin(s, c));
      && reply.Accepted? && reply.effect.Some? && reply.effect.value.id in s.effects && reply.effect.value.id !in reply.state.effects
      && exists r :: r in reply.state.receipts && r.request == c.request && r.effect == reply.effect.value.id
    ensures forall next :: !Step(s, Move(BeginMutation(c), {}), next)
  {
    hide Gate, Step, FullLedger, RecoversAgain, SecondAnswer, CompletedRetry, Begin, AppendReceipt, EvictsOwnEffect, Admitted;
    s, c := FullLedger(), RecoversAgain();
    FullLedgerPassesGate();
    AnsweredAgain();
    LostEffect(s, c, SecondAnswer(), CompletedRetry());
    forall next ensures !Step(s, Move(BeginMutation(c), {}), next) {
      LostEffectIsRefused(s, c, SecondAnswer(), CompletedRetry(), {}, next);
    }
  }
}
