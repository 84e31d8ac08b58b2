// Immutable completion markers and the crash protocol around them. A directory
// remembers every state it showed since it was last synced; after a crash each
// entry is in one of those states. A crash is allowed between any two steps.
module EffectMarkers {
  import OwnerState

  type Result = string

  // ---- A directory ---------------------------------------------------------

  /** `past` are the listings since the last sync, the present one included. */
  datatype Directory<!K(==), T> = Directory(visible: map<K, T>, past: seq<map<K, T>>)

  function Fresh<K(==), T>(visible: map<K, T>): Directory<K, T> {
    Directory(visible, [visible])
  }

  function Changed<K(==), T>(d: Directory<K, T>, visible: map<K, T>): Directory<K, T> {
    Directory(visible, d.past + [visible])
  }

  function LinkedIn<K(==), T>(d: Directory<K, T>, id: K, content: T): Directory<K, T> {
    if id in d.visible then d else Changed(d, d.visible[id := content])
  }

  function UnlinkedFrom<K(==), T>(d: Directory<K, T>, id: K): Directory<K, T> {
    if id in d.visible then Changed(d, d.visible - {id}) else d
  }

  function SyncedDirectory<K(==), T>(d: Directory<K, T>): Directory<K, T> {
    Fresh(d.visible)
  }

  predicate SameEntry<K(==), T(==)>(a: map<K, T>, b: map<K, T>, id: K) {
    (id in a <==> id in b) && (id in a ==> a[id] == b[id])
  }

  /** A listing that a crash may leave behind. */
  ghost predicate Survives<K(!new), T>(d: Directory<K, T>, left: map<K, T>) {
    forall id :: Shown(d, left, id)
  }

  ghost predicate Shown<K, T>(d: Directory<K, T>, left: map<K, T>, id: K) {
    exists k :: 0 <= k < |d.past| && SameEntry(left, d.past[k], id)
  }

  /** The entry is on disk whatever happens. */
  ghost predicate Durable<K(!new), T>(d: Directory<K, T>, id: K, content: T) {
    forall k :: 0 <= k < |d.past| ==> id in d.past[k] && d.past[k][id] == content
  }

  ghost predicate ShowsPresent<K(!new), T>(d: Directory<K, T>) {
    |d.past| > 0 && d.past[|d.past| - 1] == d.visible
  }

  /** The marker files of one state root. */
  class MarkerStore {
    var visible: map<nat, Result>
    var temporaries: set<nat>
    ghost var past: seq<map<nat, Result>>

    ghost function View(): Directory<nat, Result>
      reads this
    {
      Directory(visible, past)
    }

    constructor ()
      ensures View() == Fresh(map[]) && temporaries == {}
    {
      visible, temporaries, past := map[], {}, [map[]];
    }

    /** Links the synced temporary file under its final name. A marker that is
        already there must hold the same result; it is never replaced. Removing
        the temporary file syncs the directory, also after a refusal. */
    method Write(id: nat, result: Result, temporary: nat) returns (ok: bool)
      requires temporary !in temporaries
      modifies this
      ensures ok <==> id !in old(visible) || old(visible)[id] == result
      ensures View() == SyncedDirectory(LinkedIn(old(View()), id, result))
      ensures ok ==> visible == old(visible)[id := result]
      ensures temporaries == old(temporaries)
    {
      temporaries := temporaries + {temporary};
      ok := true;
      if id !in visible {
        visible := visible[id := result];
        past := past + [visible];
      } else {
        var existing := visible[id];
        ok := existing == result;
      }
      if ok {
        past := [visible];
      }
      temporaries := temporaries - {temporary};
      past := [visible];
    }

    method Remove(id: nat)
      modifies this
      ensures View() == SyncedDirectory(UnlinkedFrom(old(View()), id)) && temporaries == old(temporaries)
    {
      if id in visible {
        visible := visible - {id};
      }
      past := [visible];
    }

    method ListOrphans(pending: set<nat>) returns (remove: set<nat>)
      ensures remove == visible.Keys - pending
    {
      remove := {};
      var left := visible.Keys;
      while left != {}
        invariant left <= visible.Keys && remove == (visible.Keys - left) - pending
        decreases |left|
      {
        var id :| id in left;
        if id !in pending {
          remove := remove + {id};
        }
        left := left - {id};
      }
    }

    method RemoveListed(listed: set<nat>)
      modifies this`visible
      ensures visible == old(visible) - listed
    {
      var remove := listed;
      while remove != {}
        invariant remove <= listed && visible == old(visible) - (listed - remove)
        decreases |remove|
      {
        var id :| id in remove;
        visible := visible - {id};
        remove := remove - {id};
      }
    }

    /** Lists first, then removes every temporary file and every marker whose
        effect is not pending; syncs only if it removed something. */
    method ReclaimOrphans(pending: set<nat>)
      modifies this
      ensures visible == old(visible) - (old(visible).Keys - pending) && temporaries == {}
      ensures past == if old(visible).Keys <= pending && old(temporaries) == {} then old(past) else [visible]
    {
      var remove := ListOrphans(pending);
      var any := remove != {} || temporaries != {};
      assert visible.Keys <= pending ==> remove == {};
      assert remove == {} ==> visible.Keys <= pending by {
        assert forall id :: id in visible.Keys && id !in pending ==> id in remove;
      }
      temporaries := {};
      RemoveListed(remove);
      if any {
        past := [visible];
      }
    }
  }

  // ---- The world -----------------------------------------------------------

  datatype Status = Pending | Invalidated | Completed(result: Result)

  /** The outcome file that the request of a handoff effect names. */
  datatype Claim = Claim(key: string, token: string)

  /** Where the holder of an effect's lock stands. */
  datatype Pc =
    | Locked | Authorized(result: Result) | Linked(result: Result) | Installed(result: Result)
    | Finished | OutcomeGone | OutcomeSynced | MarkerGone

  datatype Phase =
    | Booting
    | Walking(left: set<nat>, done: set<nat>)
    | Reclaiming(pending: set<nat>, remove: set<nat>, listed: bool)
    | Admitting

  /** `ledger` is committed atomically and survives every crash. `claims` keeps
      the request of every effect that was ever created, and `completed` those
      that were ever recorded as completed. */
  datatype World = World(
    ledger: map<nat, Status>, next: nat, claims: map<nat, OwnerState.Option<Claim>>, completed: set<nat>,
    markers: Directory<nat, Result>, outcomes: Directory<string, string>,
    executors: map<nat, Pc>, phase: Phase)

  predicate IsPending(w: World, id: nat) {
    id in w.ledger && w.ledger[id].Pending?
  }

  function PendingIds(w: World): set<nat> {
    set id | id in w.ledger && w.ledger[id].Pending?
  }

  function Orphans(w: World): set<nat> {
    w.markers.visible.Keys - PendingIds(w)
  }

  const START := World(map[], 0, map[], {}, Fresh(map[]), Fresh(map[]), map[], Booting)

  datatype Action =
    | Create(claim: OwnerState.Option<Claim>) | Conclude(id: nat, result: Result) | Invalidate(id: nat) | Forget(id: nat)
    | Deliver(key: string, token: string)
    | Lock(id: nat) | Authorize(id: nat, result: Result) | Link(id: nat) | SyncLink(id: nat)
    | Finish(id: nat, accepted: bool) | RemoveOutcome(id: nat) | SyncOutcomes(id: nat)
    | RemoveMarker(id: nat) | SyncRemoval(id: nat) | Abort(id: nat) | Verify(id: nat)
    | Crash(markers: map<nat, Result>, outcomes: map<string, string>) | Die
    | SweepStart(operators: set<nat>) | SweepTake(id: nat, accepted: bool) | SweepReclaim | ReclaimOne(id: nat) | SweepDone(synced: bool)

  predicate At(w: World, id: nat, pc: Pc) {
    id in w.executors && w.executors[id] == pc
  }

  function Moved(w: World, id: nat, pc: Pc): World {
    w.(executors := w.executors[id := pc])
  }

  /** The owner accepts a result for an effect that is not completed, even if it
      was invalidated, and the same result again. */
  predicate Records(w: World, id: nat, result: Result) {
    id in w.ledger && (w.ledger[id].Completed? ==> w.ledger[id] == Completed(result))
  }

  function Recorded(w: World, id: nat, result: Result): World {
    w.(ledger := w.ledger[id := Completed(result)], completed := w.completed + {id})
  }

  /** Its task returns an error, which ends the sweep if that was the task. */
  function Failed(w: World, id: nat): World {
    w.(executors := w.executors - {id}, phase := if w.phase.Admitting? then Admitting else Booting)
  }

  /** The outcome file goes only if it is the very one the request names; one
      that was changed is an error, and one that is gone needs no sync. */
  function OutcomeHandled(w: World, id: nat): World {
    if id !in w.claims || w.claims[id].None? || w.claims[id].value.key !in w.outcomes.visible then Moved(w, id, OutcomeSynced)
    else if w.outcomes.visible[w.claims[id].value.key] != w.claims[id].value.token then Failed(w, id)
    else Moved(w, id, OutcomeGone).(outcomes := UnlinkedFrom(w.outcomes, w.claims[id].value.key))
  }

  /** The protocol. An executor holds the lock of its effect and is authorized
      only while the effect is pending; executors start only after the sweep. The
      sweep cleans one effect at a time, with the executor's own last steps.
      After it, a verification finishes an effect from the marker it finds and
      cleans up likewise; it holds no lock, and does not overlap an executor of
      the effect: the cycle runs both on its one goroutine, and the service under
      the reservation of the effect. When the process dies, what it left unsynced
      may still be lost in a later crash of the machine. */
  ghost predicate Moves(w: World, a: Action, next: World) {
    match a
    case Create(claim) => next == w.(ledger := w.ledger[w.next := Pending], claims := w.claims[w.next := claim], next := w.next + 1)
    case Conclude(id, result) => IsPending(w, id) && next == Recorded(w, id, result)
    case Invalidate(id) => IsPending(w, id) && next == w.(ledger := w.ledger[id := Invalidated])
    case Forget(id) => next == w.(ledger := w.ledger - {id})
    case Deliver(key, token) => key !in w.outcomes.visible && next == w.(outcomes := LinkedIn(w.outcomes, key, token))
    case Lock(id) => w.phase.Admitting? && id !in w.executors && next == Moved(w, id, Locked)
    case Authorize(id, result) => At(w, id, Locked) && IsPending(w, id) && next == Moved(w, id, Authorized(result))
    case Link(id) =>
      && id in w.executors && w.executors[id].Authorized?
      && var result := w.executors[id].result;
         if id in w.markers.visible && w.markers.visible[id] != result then next == Failed(w, id).(markers := SyncedDirectory(w.markers))
         else next == Moved(w, id, Linked(result)).(markers := LinkedIn(w.markers, id, result))
    case SyncLink(id) =>
      id in w.executors && w.executors[id].Linked? && next == Moved(w, id, Installed(w.executors[id].result)).(markers := SyncedDirectory(w.markers))
    case Finish(id, accepted) =>
      && id in w.executors && w.executors[id].Installed?
      && var result := w.executors[id].result;
         if accepted then Records(w, id, result) && next == Moved(Recorded(w, id, result), id, Finished)
         else next == Failed(w, id)
    case RemoveOutcome(id) => At(w, id, Finished) && next == OutcomeHandled(w, id)
    case SyncOutcomes(id) => At(w, id, OutcomeGone) && next == Moved(w, id, OutcomeSynced).(outcomes := SyncedDirectory(w.outcomes))
    case RemoveMarker(id) => At(w, id, OutcomeSynced) && next == Moved(w, id, MarkerGone).(markers := UnlinkedFrom(w.markers, id))
    case SyncRemoval(id) => At(w, id, MarkerGone) && next == w.(markers := SyncedDirectory(w.markers), executors := w.executors - {id})
    case Abort(id) => id in w.executors && next == Failed(w, id)
    case Verify(id) =>
      w.phase.Admitting? && id !in w.executors && id in w.markers.visible && Records(w, id, w.markers.visible[id])
      && next == Moved(Recorded(w, id, w.markers.visible[id]), id, Finished)
    case Crash(markers, outcomes) =>
      Survives(w.markers, markers) && Survives(w.outcomes, outcomes)
      && next == w.(markers := Fresh(markers), outcomes := Fresh(outcomes), executors := map[], phase := Booting)
    case Die => next == w.(executors := map[], phase := Booting)
    case SweepStart(operators) =>
      w.phase.Booting? && next == w.(phase := Walking(set id | id in w.ledger && (w.ledger[id].Completed? || (w.ledger[id].Pending? && id !in operators)), set id | id in w.ledger && w.ledger[id].Completed?))
    case SweepTake(id, accepted) =>
      && w.phase.Walking? && id in w.phase.left && w.executors == map[]
      && var walking := w.(phase := w.phase.(left := w.phase.left - {id}));
         if id in w.phase.done then next == Moved(walking, id, Finished)
         else if accepted then
           id in w.markers.visible && Records(w, id, w.markers.visible[id])
           && next == Moved(Recorded(walking, id, w.markers.visible[id]), id, Finished)
         else next == walking
    case SweepReclaim =>
      w.phase.Walking? && w.phase.left == {} && w.executors == map[] && next == w.(phase := Reclaiming(PendingIds(w), Orphans(w), Orphans(w) != {}))
    case ReclaimOne(id) =>
      w.phase.Reclaiming? && id in w.phase.remove
      && next == w.(markers := UnlinkedFrom(w.markers, id), phase := w.phase.(remove := w.phase.remove - {id}))
    case SweepDone(synced) =>
      w.phase.Reclaiming? && w.phase.remove == {} && (w.phase.listed ==> synced)
      && next == w.(markers := if synced then SyncedDirectory(w.markers) else w.markers, phase := Admitting)
  }

  ghost predicate IsTrace(ws: seq<World>, actions: seq<Action>) {
    |ws| == |actions| + 1 && ws[0] == START && forall i :: 0 <= i < |actions| ==> Moves(ws[i], actions[i], ws[i + 1])
  }

  // ---- What every step keeps -----------------------------------------------

  ghost predicate Showing(w: World) {
    ShowsPresent(w.markers) && ShowsPresent(w.outcomes)
  }

  /** Every identifier in sight was created, and what was recorded stays so. */
  ghost predicate Listed(w: World) {
    && (forall id :: id in w.ledger ==> id < w.next)
    && (forall id :: id in w.completed ==> id < w.next && !IsPending(w, id))
    && (forall k, id :: 0 <= k < |w.markers.past| && id in w.markers.past[k] ==> id < w.next)
    && (forall id :: id in w.executors ==> id < w.next || w.executors[id].Locked?)
    && (forall id :: id in w.ledger && w.ledger[id].Completed? ==> id in w.completed)
  }

  predicate PastFinish(pc: Pc) {
    pc.Finished? || pc.OutcomeGone? || pc.OutcomeSynced? || pc.MarkerGone?
  }

  /** A linked marker shows the executor's result, and an installed one is
      durable. */
  ghost predicate Installing(w: World) {
    && (forall id :: id in w.executors && w.executors[id].Linked? ==>
          id in w.markers.visible && w.markers.visible[id] == w.executors[id].result)
    && (forall id :: id in w.executors && w.executors[id].Installed? ==> Durable(w.markers, id, w.executors[id].result))
  }

  /** Cleaning up means the effect has been recorded. */
  ghost predicate Cleaning(w: World) {
    forall id :: id in w.executors && PastFinish(w.executors[id]) ==> id in w.completed
  }

  /** Until the sweep is done only effects that were recorded are being handled,
      and what it removes is not pending. */
  ghost predicate Sweeping(w: World) {
    && (!w.phase.Admitting? ==> forall id :: id in w.executors ==> PastFinish(w.executors[id]))
    && (w.phase.Walking? ==> w.phase.done <= w.completed && forall id :: id in w.phase.left ==> id < w.next)
    && (w.phase.Reclaiming? ==>
          && w.executors == map[]
          && w.phase.remove == w.markers.visible.Keys - w.phase.pending
          && forall id :: id in w.phase.remove ==> !IsPending(w, id))
  }

  ghost predicate Inv(w: World) {
    Showing(w) && Listed(w) && Installing(w) && Cleaning(w) && Sweeping(w)
  }

  lemma MoveKeepsInv(w: World, a: Action, next: World)
    requires Inv(w) && Moves(w, a, next)
    ensures Inv(next)
  {
    MoveKeepsShowing(w, a, next);
    MoveKeepsListed(w, a, next);
    MoveKeepsInstalling(w, a, next);
    MoveKeepsCleaning(w, a, next);
    MoveKeepsSweeping(w, a, next);
  }

  lemma MoveKeepsShowing(w: World, a: Action, next: World)
    requires Showing(w) && Moves(w, a, next)
    ensures Showing(next)
  {
  }

  lemma MoveKeepsListed(w: World, a: Action, next: World)
    requires Inv(w) && Moves(w, a, next)
    ensures Listed(next)
  {
    hide Moves, Inv;
    if TouchesMarkers(a) {
      MarkerMoveKeepsListed(w, a, next);
    } else {
      OtherMoveKeepsListed(w, a, next);
    }
  }

  lemma MarkerMoveKeepsListed(w: World, a: Action, next: World)
    requires Inv(w) && Moves(w, a, next) && TouchesMarkers(a)
    ensures Listed(next)
  {
    hide OutcomeHandled, Installing, Cleaning, Durable;
    if a.Crash? {
      forall id | id in a.markers ensures id < w.next {
        assert Shown(w.markers, a.markers, id);
      }
    }
  }

  lemma OtherMoveKeepsListed(w: World, a: Action, next: World)
    requires Inv(w) && Moves(w, a, next) && !TouchesMarkers(a)
    ensures Listed(next)
  {
    hide Moves, Inv, Listed;
    if BelongsToSweep(a) {
      SweepMoveKeepsListed(w, a, next);
    } else {
      TaskMoveKeepsListed(w, a, next);
    }
  }

  lemma SweepMoveKeepsListed(w: World, a: Action, next: World)
    requires Inv(w) && Moves(w, a, next) && !TouchesMarkers(a) && BelongsToSweep(a)
    ensures Listed(next)
  {
    hide Durable, Showing;
    assert next.markers == w.markers;
  }

  lemma TaskMoveKeepsListed(w: World, a: Action, next: World)
    requires Inv(w) && Moves(w, a, next) && !TouchesMarkers(a) && !BelongsToSweep(a)
    ensures Listed(next)
  {
    hide Durable, Showing, Sweeping;
    assert next.markers == w.markers;
  }

  predicate BelongsToSweep(a: Action) {
    a.Crash? || a.Die? || a.SweepStart? || a.SweepTake? || a.SweepReclaim? || a.ReclaimOne? || a.SweepDone?
  }

  predicate TouchesMarkers(a: Action) {
    a.Link? || a.SyncLink? || a.RemoveMarker? || a.SyncRemoval? || a.Crash? || a.ReclaimOne? || a.SweepDone?
  }

  lemma MoveKeepsInstalling(w: World, a: Action, next: World)
    requires Inv(w) && Moves(w, a, next)
    ensures Installing(next)
  {
    hide Moves, Inv;
    if TouchesMarkers(a) {
      MarkerMoveKeepsInstalling(w, a, next);
    } else {
      OtherMoveKeepsInstalling(w, a, next);
    }
  }

  lemma MarkerMoveKeepsInstalling(w: World, a: Action, next: World)
    requires Inv(w) && Moves(w, a, next) && TouchesMarkers(a)
    ensures Installing(next)
  {
    hide Moves, Inv, Installing;
    if BelongsToSweep(a) {
      SweepMoveKeepsInstalling(w, a, next);
    } else {
      TaskMoveKeepsInstalling(w, a, next);
    }
  }

  lemma SweepMoveKeepsInstalling(w: World, a: Action, next: World)
    requires Inv(w) && Moves(w, a, next) && TouchesMarkers(a) && BelongsToSweep(a)
    ensures Installing(next)
  {
    hide OutcomeHandled, Listed, Survives;
  }

  lemma TaskMoveKeepsInstalling(w: World, a: Action, next: World)
    requires Inv(w) && Moves(w, a, next) && TouchesMarkers(a) && !BelongsToSweep(a)
    ensures Installing(next)
  {
    hide OutcomeHandled, Listed, Survives, Sweeping;
  }

  lemma OtherMoveKeepsInstalling(w: World, a: Action, next: World)
    requires Inv(w) && Moves(w, a, next) && !TouchesMarkers(a)
    ensures Installing(next)
  {
    hide Listed, Durable, Cleaning, Sweeping;
    assert next.markers == w.markers;
  }

  lemma MoveKeepsCleaning(w: World, a: Action, next: World)
    requires Inv(w) && Moves(w, a, next)
    ensures Cleaning(next)
  {
    hide LinkedIn, UnlinkedFrom, SyncedDirectory, Survives, Durable;
  }

  lemma MoveKeepsSweeping(w: World, a: Action, next: World)
    requires Inv(w) && Moves(w, a, next)
    ensures Sweeping(next)
  {
    hide Moves, Inv, Sweeping;
    if BelongsToSweep(a) {
      SweepMoveKeepsSweeping(w, a, next);
    } else {
      OtherMoveKeepsSweeping(w, a, next);
    }
  }

  lemma SweepMoveKeepsSweeping(w: World, a: Action, next: World)
    requires Inv(w) && Moves(w, a, next) && BelongsToSweep(a)
    ensures Sweeping(next)
  {
    hide Installing, Durable, Survives;
  }

  lemma OtherMoveKeepsSweeping(w: World, a: Action, next: World)
    requires Inv(w) && Moves(w, a, next) && !BelongsToSweep(a)
    ensures Sweeping(next)
  {
    hide Installing, Durable, Survives;
  }

  lemma {:induction false} TraceKeepsInv(ws: seq<World>, actions: seq<Action>, n: nat)
    requires IsTrace(ws, actions) && n < |ws|
    ensures Inv(ws[n])
  {
    hide Moves, Inv;
    if n > 0 {
      TraceKeepsInv(ws, actions, n - 1);
      MoveKeepsInv(ws[n - 1], actions[n - 1], ws[n]);
    } else {
      StartHolds();
    }
  }

  lemma StartHolds()
    ensures Inv(START)
  {
  }

  // ---- Pending markers -----------------------------------------------------

  /** No step but a crash takes away the marker of a pending effect, and a crash
      takes away none that is durable. */
  lemma PendingMarkerStays(ws: seq<World>, actions: seq<Action>, n: nat, id: nat)
    requires IsTrace(ws, actions) && n < |actions| && IsPending(ws[n], id) && id in ws[n].markers.visible
    ensures !actions[n].Crash? ==> id in ws[n + 1].markers.visible && ws[n + 1].markers.visible[id] == ws[n].markers.visible[id]
    ensures Durable(ws[n].markers, id, ws[n].markers.visible[id]) ==> Durable(ws[n + 1].markers, id, ws[n].markers.visible[id])
  {
    TraceKeepsInv(ws, actions, n);
    var w, a, next := ws[n], actions[n], ws[n + 1];
    assert Moves(w, a, next);
    if a.Crash? {
      assert Shown(w.markers, a.markers, id);
    }
  }

  /** What is durably installed for a pending effect stays so as long as the
      effect is pending, whatever crashes come. */
  lemma {:induction false} DurableMarkerStays(ws: seq<World>, actions: seq<Action>, i: nat, j: nat, id: nat, result: Result)
    requires IsTrace(ws, actions) && i <= j < |ws| && Durable(ws[i].markers, id, result)
    requires forall k :: i <= k <= j ==> IsPending(ws[k], id)
    ensures Durable(ws[j].markers, id, result)
    decreases j - i
  {
    hide Moves;
    if i < j {
      TraceKeepsInv(ws, actions, i);
      var d := ws[i].markers;
      assert id in d.past[|d.past| - 1];
      PendingMarkerStays(ws, actions, i, id);
      DurableMarkerStays(ws, actions, i + 1, j, id, result);
    }
  }

  // ---- One result for one effect -------------------------------------------

  /** What is left of a durable marker: no other result shows, and as long as the
      effect may still be executed the marker is durable. */
  ghost predicate Remembers(w: World, id: nat, result: Result) {
    && id < w.next
    && (forall k :: 0 <= k < |w.markers.past| && id in w.markers.past[k] ==> w.markers.past[k][id] == result)
    && (IsPending(w, id) || (id in w.executors && w.executors[id].Authorized?) ==> Durable(w.markers, id, result))
  }

  lemma MoveRemembers(w: World, a: Action, next: World, id: nat, result: Result)
    requires Inv(w) && Moves(w, a, next) && Remembers(w, id, result)
    ensures Remembers(next, id, result)
  {
    hide Moves, Inv, Remembers;
    if TouchesMarkers(a) {
      MarkerMoveRemembers(w, a, next, id, result);
    } else {
      OtherMoveRemembers(w, a, next, id, result);
    }
  }

  lemma MarkerMoveRemembers(w: World, a: Action, next: World, id: nat, result: Result)
    requires Inv(w) && Moves(w, a, next) && Remembers(w, id, result) && TouchesMarkers(a)
    ensures Remembers(next, id, result)
  {
    hide OutcomeHandled;
    if a.Crash? {
      assert Shown(w.markers, a.markers, id);
    }
  }

  lemma OtherMoveRemembers(w: World, a: Action, next: World, id: nat, result: Result)
    requires Inv(w) && Moves(w, a, next) && Remembers(w, id, result) && !TouchesMarkers(a)
    ensures Remembers(next, id, result)
  {
    hide Durable, Installing, Cleaning, Sweeping;
    assert next.markers == w.markers;
  }

  lemma {:induction false} DurableIsRemembered(ws: seq<World>, actions: seq<Action>, i: nat, j: nat, id: nat, result: Result)
    requires IsTrace(ws, actions) && i <= j < |ws| && Durable(ws[i].markers, id, result)
    ensures Remembers(ws[j], id, result)
    decreases j
  {
    hide Moves;
    if i == j {
      TraceKeepsInv(ws, actions, i);
      var d := ws[i].markers;
      assert id in d.past[|d.past| - 1];
    } else {
      DurableIsRemembered(ws, actions, i, j - 1, id, result);
      TraceKeepsInv(ws, actions, j - 1);
      MoveRemembers(ws[j - 1], actions[j - 1], ws[j], id, result);
    }
  }

  /** Over a whole history with any crashes, two different results are never
      both installed for one effect. */
  lemma OneResultPerEffect(ws: seq<World>, actions: seq<Action>, i: nat, j: nat, id: nat, a: Result, b: Result)
    requires IsTrace(ws, actions) && i < |ws| && j < |ws|
    requires Durable(ws[i].markers, id, a) && Durable(ws[j].markers, id, b)
    ensures a == b
  {
    hide Moves;
    TraceKeepsInv(ws, actions, i);
    TraceKeepsInv(ws, actions, j);
    var d := if i <= j then ws[j].markers else ws[i].markers;
    var last := |d.past| - 1;
    assert id in d.past[last];
    if i <= j {
      DurableIsRemembered(ws, actions, i, j, id, a);
      assert ws[j].markers.past[last][id] == a;
    } else {
      DurableIsRemembered(ws, actions, j, i, id, b);
      assert ws[i].markers.past[last][id] == b;
    }
  }

  /** An executor has its result recorded only once the marker that proves it is
      durable: no crash can make the external work be done again. */
  lemma RecordedAfterInstalled(ws: seq<World>, actions: seq<Action>, n: nat, id: nat)
    requires IsTrace(ws, actions) && n < |actions| && actions[n] == Finish(id, true)
    ensures id in ws[n + 1].ledger && ws[n + 1].ledger[id].Completed?
    ensures Durable(ws[n].markers, id, ws[n + 1].ledger[id].result)
  {
    TraceKeepsInv(ws, actions, n);
    assert Moves(ws[n], actions[n], ws[n + 1]);
  }

  // ---- The sweep -----------------------------------------------------------

  /** A sweep that ends leaves markers only for effects that were pending when it
      reclaimed, and if it found any other its listing is synced, so no crash brings
      one back. No executor runs before it ends. */
  lemma SweptMarkersArePending(ws: seq<World>, actions: seq<Action>, n: nat) returns (m: nat)
    requires IsTrace(ws, actions) && n < |actions| && actions[n].SweepDone?
    ensures m < n && actions[m].SweepReclaim?
    ensures ws[n + 1].phase.Admitting? && ws[n + 1].executors == map[]
    ensures forall id :: id in ws[n + 1].markers.visible ==> IsPending(ws[m], id)
    ensures Orphans(ws[m]) != {} ==> ws[n + 1].markers == Fresh(ws[n + 1].markers.visible)
  {
    TraceKeepsInv(ws, actions, n);
    assert Moves(ws[n], actions[n], ws[n + 1]);
    m := ReclaimBegan(ws, actions, n);
    forall id | id in ws[n + 1].markers.visible ensures IsPending(ws[m], id) {
      assert id !in ws[n].markers.visible.Keys - ws[n].phase.pending;
      assert id in PendingIds(ws[m]);
    }
  }

  lemma {:induction false} ReclaimBegan(ws: seq<World>, actions: seq<Action>, n: nat) returns (m: nat)
    requires IsTrace(ws, actions) && n < |ws| && ws[n].phase.Reclaiming?
    ensures m < n && actions[m].SweepReclaim? && ws[n].phase.pending == PendingIds(ws[m]) && ws[n].phase.listed == (Orphans(ws[m]) != {})
  {
    assert Moves(ws[n - 1], actions[n - 1], ws[n]);
    if actions[n - 1].SweepReclaim? {
      m := n - 1;
    } else {
      m := ReclaimBegan(ws, actions, n - 1);
    }
  }

  // ---- Outcome files -------------------------------------------------------

  lemma {:induction false} CompletedWasRecorded(ws: seq<World>, actions: seq<Action>, n: nat, id: nat) returns (m: nat)
    requires IsTrace(ws, actions) && n < |ws| && id in ws[n].completed
    ensures m <= n && id in ws[m].ledger && ws[m].ledger[id].Completed?
  {
    assert Moves(ws[n - 1], actions[n - 1], ws[n]);
    if id in ws[n - 1].completed {
      m := CompletedWasRecorded(ws, actions, n - 1, id);
    } else {
      m := n;
    }
  }

  /** An outcome file is removed only for an effect whose request names that very
      file and that had been recorded as completed before. */
  lemma OutcomeRemovedAfterCompletion(ws: seq<World>, actions: seq<Action>, n: nat, key: string) returns (id: nat, m: nat)
    requires IsTrace(ws, actions) && n < |actions| && !actions[n].Crash?
    requires key in ws[n].outcomes.visible && key !in ws[n + 1].outcomes.visible
    ensures id in ws[n].claims && ws[n].claims[id] == OwnerState.Some(Claim(key, ws[n].outcomes.visible[key]))
    ensures m <= n && id in ws[m].ledger && ws[m].ledger[id].Completed?
  {
    TraceKeepsInv(ws, actions, n);
    assert Moves(ws[n], actions[n], ws[n + 1]);
    id := actions[n].id;
    m := CompletedWasRecorded(ws, actions, n, id);
  }

  /** A crash may undo the removal of an outcome file, but it never loses a file
      that was durable: only the removal above takes one away. */
  lemma CrashKeepsDurableOutcome(w: World, a: Action, next: World, key: string, token: string)
    requires Moves(w, a, next) && a.Crash? && Durable(w.outcomes, key, token) && |w.outcomes.past| > 0
    ensures Durable(next.outcomes, key, token)
  {
    assert Shown(w.outcomes, a.outcomes, key);
  }
}
