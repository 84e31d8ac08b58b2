// The bounded list of control receipts: lookup, coalesced claims, eviction,
// supersession and the passes that move every receipt bound to one effect.
module Receipts {
  import opened OwnerState

  // ---- What every committed list satisfies ---------------------------------

  /** The shape a receipt of each phase must have. */
  predicate ValidBinding(r: Receipt) {
    if r.phase.NoPhase? then
      r.effect == 0 && r.diagnostic == "" && r.admission.None?
    else if r.state.Done? then
      r.phase.PhaseCompleted? && r.result.Some? && r.diagnostic == "" && r.admission.None?
    else if r.phase.AdmissionPending? then
      r.effect == 0 && r.result.None? && r.diagnostic == "" && r.admission.Some?
    else
      && !r.phase.PhaseCompleted?
      && (r.effect != 0 || (r.request.action.Dismiss? && r.phase.HandoffCleanup?))
      && r.result.None? && r.admission.None?
  }

  predicate Claims(r: Receipt) {
    r.state.Waiting? && r.phase.AdmissionPending?
  }

  ghost predicate UniqueIds(rs: seq<Receipt>) {
    forall i, j :: 0 <= i < j < |rs| ==> rs[i].request.id != rs[j].request.id
  }

  predicate Agree(a: Receipt, b: Receipt) {
    Claims(a) && Claims(b) && a.request.slot == b.request.slot
    ==> a.request.action == b.request.action && a.admission == b.admission
  }

  /** Claims on one attempt share one action and are equal. */
  ghost predicate ClaimsAgree(rs: seq<Receipt>) {
    forall i, j | 0 <= i < |rs| && 0 <= j < |rs| :: Agree(rs[i], rs[j])
  }

  ghost predicate AllBound(rs: seq<Receipt>) {
    forall i :: 0 <= i < |rs| ==> ValidBinding(rs[i])
  }

  ghost predicate LedgerInv(rs: seq<Receipt>) {
    UniqueIds(rs) && |rs| <= MAX_CONTROL_RECEIPTS && ClaimsAgree(rs) && AllBound(rs)
  }

  // ---- Lookup and removal --------------------------------------------------

  /** The position of the first receipt with this request ID, or the length. */
  function IndexOf(rs: seq<Receipt>, id: string): (k: nat)
    ensures k <= |rs| && (k < |rs| ==> rs[k].request.id == id)
    ensures forall i :: 0 <= i < k ==> rs[i].request.id != id
  {
    if rs == [] then 0 else if rs[0].request.id == id then 0 else 1 + IndexOf(rs[1..], id)
  }

  function Find(rs: seq<Receipt>, id: string): Option<Receipt> {
    var k := IndexOf(rs, id);
    if k < |rs| then Some(rs[k]) else None
  }

  /** Every receipt but those with this request ID, in order. */
  function Without(rs: seq<Receipt>, id: string): (out: seq<Receipt>)
    ensures |out| <= |rs|
    ensures forall r :: r in out <==> r in rs && r.request.id != id
  {
    if rs == [] then []
    else if rs[0].request.id == id then Without(rs[1..], id)
    else [rs[0]] + Without(rs[1..], id)
  }

  function Each(rs: seq<Receipt>, f: Receipt -> Receipt): (out: seq<Receipt>)
    ensures |out| == |rs|
    ensures forall i :: 0 <= i < |rs| ==> out[i] == f(rs[i])
  {
    seq(|rs|, i requires 0 <= i < |rs| => f(rs[i]))
  }

  predicate ReferencedByReceipt(rs: seq<Receipt>, effect: nat) {
    exists i :: 0 <= i < |rs| && rs[i].effect == effect
  }

  predicate ReferencedByTombstone(s: State, effect: nat) {
    exists k :: k in s.tombstones && s.tombstones[k].effect == effect
  }

  // ---- Coalesced claims ----------------------------------------------------

  /** `c` claims what `r` claims: same attempt, same action, equal claim. */
  predicate SameClaim(c: Receipt, r: Receipt) {
    Claims(c) && c.admission.Some? && c.request.action == r.request.action
    && c.request.slot == r.request.slot && c.admission == r.admission
  }

  /** The first receipt of the class speaks for it. */
  predicate Leads(rs: seq<Receipt>, r: Receipt) {
    if rs == [] then false
    else if SameClaim(rs[0], r) then rs[0].request.id == r.request.id
    else Leads(rs[1..], r)
  }

  /** The requests that one begin consumes together with its own. */
  function Coalesced(rs: seq<Receipt>, r: Receipt): (out: seq<Request>)
    ensures |out| <= |rs|
    ensures forall q :: q in out ==> exists i :: 0 <= i < |rs| && SameClaim(rs[i], r) && rs[i].request == q
    ensures forall i :: 0 <= i < |rs| && SameClaim(rs[i], r) ==> rs[i].request in out
  {
    if rs == [] then []
    else if SameClaim(rs[0], r) then [rs[0].request] + Coalesced(rs[1..], r)
    else Coalesced(rs[1..], r)
  }

  // ---- One receipt at a time -----------------------------------------------

  function Closed(r: Receipt, result: ControlResult): Receipt {
    r.(state := Done, phase := PhaseCompleted, diagnostic := "", result := Some(result))
  }

  function Success(q: Request, revision: nat): ControlResult {
    ControlResult(q.id, q.action, true, 200, "", revision)
  }

  function Failure(q: Request, status: nat, error: string, revision: nat): ControlResult {
    ControlResult(q.id, q.action, false, status, error, revision)
  }

  function FailClaim(c: Receipt, r: Receipt, result: ControlResult, revision: nat): Receipt {
    if SameClaim(c, r)
    then Closed(c, result.(requestId := c.request.id, action := c.request.action, revision := revision)).(admission := None)
    else c
  }

  function RestampClaim(r: Receipt, epoch: nat): Receipt {
    if r.phase.AdmissionPending? && r.admission.Some?
    then r.(admission := Some(r.admission.value.(epoch := epoch)))
    else r
  }

  function ResightClaim(r: Receipt, sighting: Sighting): Receipt {
    if r.admission.Some? then r.(admission := Some(r.admission.value.(sighting := sighting))) else r
  }

  function SupersedeOne(r: Receipt, slot: Slot, action: OperatorAction, revision: nat): Receipt {
    if Superseded(r, slot, action)
    then Closed(r, Failure(r.request, 409, "operator workflow superseded", revision)).(effect := 0)
    else r
  }

  predicate Superseded(r: Receipt, slot: Slot, action: OperatorAction) {
    r.state.Waiting? && r.request.slot == slot && r.request.action != action
  }

  predicate AwaitsAdvance(r: Receipt, effect: nat, from: Phase) {
    r.request.action.Recover? && r.state.Waiting? && r.phase == from && r.effect == effect
  }

  function AdvanceOne(r: Receipt, effect: nat, from: Phase, to: Phase): Receipt {
    if AwaitsAdvance(r, effect, from) then r.(phase := to, diagnostic := "") else r
  }

  function CompleteOne(r: Receipt, effect: nat, revision: nat): Receipt {
    if r.effect == effect && r.state.Waiting? then Closed(r, Success(r.request, revision)) else r
  }

  function FailOne(r: Receipt, effect: nat, diagnostic: string, revision: nat): Receipt {
    if r.effect == effect && r.state.Waiting? then Closed(r, Failure(r.request, 500, diagnostic, revision)) else r
  }

  // ---- Passes over the list ------------------------------------------------

  function FailClaims(rs: seq<Receipt>, r: Receipt, result: ControlResult, revision: nat): seq<Receipt> {
    Each(rs, (c: Receipt) => FailClaim(c, r, result, revision))
  }

  function RestampClaims(rs: seq<Receipt>, epoch: nat): seq<Receipt> {
    Each(rs, (r: Receipt) => RestampClaim(r, epoch))
  }

  function Advance(rs: seq<Receipt>, effect: nat, from: Phase, to: Phase): seq<Receipt> {
    Each(rs, (r: Receipt) => AdvanceOne(r, effect, from, to))
  }

  predicate Advances(rs: seq<Receipt>, effect: nat, from: Phase) {
    exists i :: 0 <= i < |rs| && AwaitsAdvance(rs[i], effect, from)
  }

  function CompleteBound(rs: seq<Receipt>, effect: nat, revision: nat): seq<Receipt> {
    Each(rs, (r: Receipt) => CompleteOne(r, effect, revision))
  }

  function FailBound(rs: seq<Receipt>, effect: nat, diagnostic: string, revision: nat): seq<Receipt> {
    Each(rs, (r: Receipt) => FailOne(r, effect, diagnostic, revision))
  }

  function SupersedeReceipts(rs: seq<Receipt>, slot: Slot, action: OperatorAction, revision: nat): seq<Receipt> {
    Each(rs, (r: Receipt) => SupersedeOne(r, slot, action, revision))
  }

  /** The effects whose last reference a supersession takes away. */
  predicate Orphaned(s: State, after: seq<Receipt>, slot: Slot, action: OperatorAction, id: nat) {
    && id != 0
    && (exists i :: 0 <= i < |s.receipts| && Superseded(s.receipts[i], slot, action) && s.receipts[i].effect == id)
    && !ReferencedByReceipt(after, id) && !ReferencedByTombstone(s, id)
  }

  /** A begun workflow closes every other workflow of its attempt. */
  function Supersede(s: State, slot: Slot, action: OperatorAction): State {
    var after := SupersedeReceipts(s.receipts, slot, action, s.revision + 1);
    s.(receipts := after,
       effects := map id | id in s.effects && !Orphaned(s, after, slot, action, id) :: s.effects[id])
  }

  /** The position of the oldest completed receipt, or the length. */
  function OldestDone(rs: seq<Receipt>): (k: nat)
    ensures k <= |rs| && (k < |rs| ==> rs[k].state.Done?)
    ensures forall i :: 0 <= i < k ==> rs[i].state.Waiting?
  {
    if rs == [] then 0 else if rs[0].state.Done? then 0 else 1 + OldestDone(rs[1..])
  }

  /** Append, evicting the oldest completed receipt from a full list together
      with a completed effect that nothing else names. */
  function AppendReceipt(s: State, r: Receipt): Option<State> {
    if |s.receipts| != MAX_CONTROL_RECEIPTS then Some(s.(receipts := s.receipts + [r]))
    else
      var k := OldestDone(s.receipts);
      if k == |s.receipts| then None
      else
        var evicted := s.receipts[k].effect;
        var rest := s.receipts[..k] + s.receipts[k + 1..];
        var effects :=
          if && evicted != 0 && !ReferencedByReceipt(rest, evicted) && !ReferencedByTombstone(s, evicted)
             && evicted in s.effects && s.effects[evicted].status.Completed?
          then s.effects - {evicted} else s.effects;
        Some(s.(receipts := rest + [r], effects := effects))
  }
}
