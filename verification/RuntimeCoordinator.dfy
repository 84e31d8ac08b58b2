// The per-attempt lock of the effect coordinator under every interleaving. Each
// mutex section is one atomic step; a run is named by its place in the order of
// admissions, and closing its `done` channel is counted.
module RuntimeCoordinator {
  import opened OwnerState
  import opened ReconciliationEffects

  /** A key names an issue or an attempt; any other text is refused when read. */
  datatype Key = IssueKey(issue: nat) | AttemptKey(slot: Slot) | OtherKey(text: string)

  datatype Run = Run(
    key: Key, issueGeneration: nat, attemptGeneration: nat, observationGeneration: nat,
    admittedRevision: nat, effect: nat, cancelled: bool, closes: nat)

  datatype Shell = Shell(runs: seq<Run>, active: map<Key, nat>, stopped: bool)

  const IDLE := Shell([], map[], false)

  // ---- The steps -----------------------------------------------------------

  predicate IsActive(sh: Shell, r: nat) {
    r < |sh.runs| && sh.runs[r].key in sh.active && sh.active[sh.runs[r].key] == r
  }

  /** Admission under the lock: refused after a shutdown, and while the key is
      taken the caller has to wait and come back. */
  predicate CanAcquire(sh: Shell, key: Key) {
    !sh.stopped && key !in sh.active
  }

  function Acquired(sh: Shell, run: Run): Shell {
    sh.(runs := sh.runs + [run.(cancelled := false, closes := 0)], active := sh.active[run.key := |sh.runs|])
  }

  /** Only the run that holds the key gives it up. */
  function Released(sh: Shell, key: Key, r: nat): Shell
    requires r < |sh.runs|
  {
    if key in sh.active && sh.active[key] == r
    then sh.(active := sh.active - {key}, runs := sh.runs[r := sh.runs[r].(closes := sh.runs[r].closes + 1)])
    else sh
  }

  /** After its section a release cancels the context of its run. */
  function CancelledRun(sh: Shell, r: nat): Shell
    requires r < |sh.runs|
  {
    sh.(runs := sh.runs[r := sh.runs[r].(cancelled := true)])
  }

  /** Cancels the active runs that `doomed` picks, in no particular order. */
  function CancelMatching(sh: Shell, doomed: Run -> bool): Shell {
    sh.(runs := seq(|sh.runs|, r requires 0 <= r < |sh.runs| =>
      if IsActive(sh, r) && doomed(sh.runs[r]) then sh.runs[r].(cancelled := true) else sh.runs[r]))
  }

  function Stopping(sh: Shell): Shell {
    CancelMatching(sh, run => true).(stopped := true)
  }

  // ---- Which runs a snapshot revokes ---------------------------------------

  /** `finishable` are the effects whose unmodelled finish guards hold. */
  datatype Snapshot = Snapshot(state: State, finishable: set<nat>)

  predicate EffectRevoked(s: Snapshot, id: nat) {
    id != 0 &&
    (|| id !in s.state.effects || !s.state.effects[id].status.Pending? || s.state.effects[id].revoked
     || (var e := s.state.effects[id];
         && e.work.ReconciliationWork? && e.work.request.payload.Reviewer? && e.work.request.payload.review.digestVersion == 1
         && NotFinishable(s.state, e, id in s.finishable).Some?))
  }

  predicate RevokedBy(s: Snapshot, run: Run) {
    && run.admittedRevision <= s.state.revision
    && (|| EffectRevoked(s, run.effect)
        || run.key.OtherKey?
        || (run.key.IssueKey? && IssueGeneration(s.state, run.key.issue) != run.issueGeneration)
        || (run.key.AttemptKey? && IssueGeneration(s.state, run.key.slot.issue) != run.issueGeneration)
        || (run.observationGeneration != 0 && !ObservedAt(s.state, run.key, run.observationGeneration))
        || (run.key.AttemptKey? && AttemptGeneration(s.state, run.key.slot) != run.attemptGeneration))
  }

  predicate ObservedAt(s: State, key: Key, generation: nat) {
    match key
    case IssueKey(issue) => issue in s.observations && s.observations[issue].generation == generation
    case AttemptKey(slot) => slot.issue in s.observations && s.observations[slot.issue].generation == generation
    case OtherKey(_) => false
  }

  /** The coordinator. Every method is one section under its mutex, but for the
      cancellation that a release performs after its section. */
  class Coordinator {
    var runs: seq<Run>
    var active: map<Key, nat>
    var stopped: bool

    ghost predicate Valid()
      reads this
    {
      Inv(View())
    }

    ghost function View(): Shell
      reads this
    {
      Shell(runs, active, stopped)
    }

    constructor ()
      ensures Valid() && View() == IDLE
    {
      runs, active, stopped := [], map[], false;
    }

    /** One round of the admission loop: `granted`, or `previous` to wait for. */
    method TryAcquire(run: Run) returns (granted: bool, previous: Option<nat>)
      requires Valid()
      modifies this
      ensures Valid()
      ensures granted == CanAcquire(old(View()), run.key)
      ensures View() == if granted then Acquired(old(View()), run) else old(View())
      ensures previous.Some? <==> !old(stopped) && run.key in old(active)
      ensures previous.Some? ==> IsActive(View(), previous.value) && View().runs[previous.value].key == run.key
    {
      granted, previous := false, None;
      if !stopped {
        if run.key in active {
          previous := Some(active[run.key]);
        } else {
          AcquireKeepsInv(View(), run);
          runs, active := runs + [run.(cancelled := false, closes := 0)], active[run.key := |runs|];
          granted := true;
        }
      }
    }

    method ReleaseKey(key: Key, r: nat)
      requires Valid() && r < |runs|
      modifies this
      ensures Valid() && View() == Released(old(View()), key, r)
    {
      ReleaseKeepsInv(View(), key, r);
      if key in active && active[key] == r {
        active := active - {key};
        runs := runs[r := runs[r].(closes := runs[r].closes + 1)];
      }
    }

    method Cancel(r: nat)
      requires Valid() && r < |runs|
      modifies this`runs
      ensures Valid() && View() == CancelledRun(old(View()), r)
    {
      CancelOneKeepsInv(View(), r);
      runs := runs[r := runs[r].(cancelled := true)];
    }

    method CancelOlder(slot: Slot, generation: nat)
      requires Valid()
      modifies this`runs
      ensures Valid()
      ensures View() == CancelMatching(old(View()), (run: Run) => run.key == AttemptKey(slot) && run.attemptGeneration < generation)
    {
      var key := AttemptKey(slot);
      CancelKeepsInv(View(), (run: Run) => run.key == AttemptKey(slot) && run.attemptGeneration < generation);
      if key in active {
        var r := active[key];
        if runs[r].attemptGeneration < generation {
          runs := runs[r := runs[r].(cancelled := true)];
        }
      }
      assert runs == CancelMatching(old(View()), (run: Run) => run.key == AttemptKey(slot) && run.attemptGeneration < generation).runs;
    }

    /** Visits the map in any order: the outcome is the same. */
    method CancelEffect(id: nat)
      requires Valid()
      modifies this`runs
      ensures Valid() && View() == CancelMatching(old(View()), (run: Run) => run.effect == id)
    {
      ghost var before := View();
      ghost var doomed := (run: Run) => run.effect == id;
      hide Inv;
      CancelKeepsInv(before, doomed);
      var pending := active.Keys;
      while pending != {}
        invariant pending <= active.Keys && |runs| == |before.runs|
        invariant forall r :: 0 <= r < |runs| ==> runs[r] == Visited(before, doomed, pending, r)
        decreases |pending|
      {
        var key :| key in pending;
        var r := active[key];
        ActiveHolds(before, key);
        if runs[r].effect == id {
          runs := runs[r := runs[r].(cancelled := true)];
        }
        pending := pending - {key};
      }
      assert runs == CancelMatching(before, doomed).runs;
    }

    /** The checks of a committed snapshot on one run, in the order they are made. */
    method IsRevoked(s: Snapshot, run: Run) returns (revoked: bool)
      ensures revoked == RevokedBy(s, run)
    {
      if s.state.revision < run.admittedRevision {
        return false;
      }
      if EffectRevoked(s, run.effect) || run.key.OtherKey? {
        return true;
      }
      var issue := if run.key.IssueKey? then run.key.issue else run.key.slot.issue;
      if IssueGeneration(s.state, issue) != run.issueGeneration {
        return true;
      }
      if run.observationGeneration != 0 {
        if issue !in s.state.observations || s.state.observations[issue].generation != run.observationGeneration {
          return true;
        }
      }
      return run.key.AttemptKey? && AttemptGeneration(s.state, run.key.slot) != run.attemptGeneration;
    }

    /** The same walk with the checks of a committed snapshot. */
    method CancelInvalidated(s: Snapshot)
      requires Valid()
      modifies this`runs
      ensures Valid() && View() == CancelMatching(old(View()), (run: Run) => RevokedBy(s, run))
    {
      hide Inv, RevokedBy;
      ghost var before := View();
      ghost var doomed := (run: Run) => RevokedBy(s, run);
      CancelKeepsInv(before, doomed);
      var pending := active.Keys;
      while pending != {}
        invariant pending <= active.Keys && |runs| == |before.runs|
        invariant forall r :: 0 <= r < |runs| ==> runs[r] == Visited(before, doomed, pending, r)
        decreases |pending|
      {
        var key :| key in pending;
        var r := active[key];
        ActiveHolds(before, key);
        var revoked := IsRevoked(s, runs[r]);
        if revoked {
          runs := runs[r := runs[r].(cancelled := true)];
        }
        pending := pending - {key};
      }
      assert runs == CancelMatching(before, doomed).runs;
    }

    /** The first section of a shutdown; the caller then waits for `awaited`. */
    method BeginShutdown() returns (awaited: set<nat>)
      requires Valid()
      modifies this
      ensures Valid() && View() == Stopping(old(View()))
      ensures awaited == active.Values
    {
      ghost var before := View();
      hide Inv;
      CancelKeepsInv(before, (run: Run) => true);
      stopped := true;
      awaited := {};
      var pending := active.Keys;
      while pending != {}
        invariant pending <= active.Keys && |runs| == |before.runs| && active == before.active && stopped
        invariant forall r :: 0 <= r < |runs| ==> runs[r] == Visited(before, (run: Run) => true, pending, r)
        invariant awaited == set key | key in active && key !in pending :: active[key]
        decreases |pending|
      {
        var key :| key in pending;
        var r := active[key];
        ActiveHolds(before, key);
        runs := runs[r := runs[r].(cancelled := true)];
        awaited := awaited + {r};
        pending := pending - {key};
      }
      AllVisited(before, runs);
    }
  }

  /** A run after the keys outside `pending` have been visited. */
  ghost function Visited(before: Shell, doomed: Run -> bool, pending: set<Key>, r: nat): Run
    requires r < |before.runs|
  {
    var run := before.runs[r];
    if IsActive(before, r) && run.key !in pending && doomed(run) then run.(cancelled := true) else run
  }

  lemma AllVisited(before: Shell, runs: seq<Run>)
    requires |runs| == |before.runs| && forall r :: 0 <= r < |runs| ==> runs[r] == Visited(before, (run: Run) => true, {}, r)
    ensures runs == Stopping(before).runs
  {
  }

  // ---- What every step keeps -----------------------------------------------

  lemma ActiveHolds(sh: Shell, key: Key)
    requires Inv(sh) && key in sh.active
    ensures IsActive(sh, sh.active[key]) && sh.runs[sh.active[key]].key == key
  {
  }

  /** A run is in the map under its own key exactly as long as its channel is
      open, and no channel is closed twice. */
  ghost predicate Inv(sh: Shell) {
    && (forall key :: key in sh.active ==> sh.active[key] < |sh.runs| && sh.runs[sh.active[key]].key == key)
    && (forall r :: 0 <= r < |sh.runs| ==> sh.runs[r].closes <= 1 && (sh.runs[r].closes == 0 <==> IsActive(sh, r)))
  }

  lemma AcquireKeepsInv(sh: Shell, run: Run)
    requires Inv(sh) && CanAcquire(sh, run.key)
    ensures Inv(Acquired(sh, run))
  {
    var after := Acquired(sh, run);
    forall r | 0 <= r < |after.runs| ensures after.runs[r].closes <= 1 && (after.runs[r].closes == 0 <==> IsActive(after, r)) {
      if r < |sh.runs| {
        assert IsActive(sh, r) <==> IsActive(after, r);
      }
    }
  }

  lemma ReleaseKeepsInv(sh: Shell, key: Key, r: nat)
    requires Inv(sh) && r < |sh.runs|
    ensures Inv(Released(sh, key, r))
  {
    var after := Released(sh, key, r);
    forall q | 0 <= q < |after.runs| ensures after.runs[q].closes <= 1 && (after.runs[q].closes == 0 <==> IsActive(after, q)) {
      assert sh.runs[q].closes == 0 <==> IsActive(sh, q);
    }
  }

  lemma CancelOneKeepsInv(sh: Shell, r: nat)
    requires Inv(sh) && r < |sh.runs|
    ensures Inv(CancelledRun(sh, r))
  {
    var after := CancelledRun(sh, r);
    forall q | 0 <= q < |after.runs| ensures IsActive(after, q) <==> IsActive(sh, q) {
    }
  }

  lemma CancelKeepsInv(sh: Shell, doomed: Run -> bool)
    requires Inv(sh)
    ensures Inv(CancelMatching(sh, doomed)) && Inv(CancelMatching(sh, doomed).(stopped := true))
  {
    var after := CancelMatching(sh, doomed);
    forall q | 0 <= q < |after.runs| ensures IsActive(after, q) <==> IsActive(sh, q) {
    }
    assert Inv(after);
    var halted := after.(stopped := true);
    forall q | 0 <= q < |halted.runs| ensures IsActive(halted, q) <==> IsActive(after, q) {
    }
  }

  // ---- Runs of the coordinator ---------------------------------------------

  datatype Action =
    | Acquire(run: Run)
    | Release(key: Key, r: nat)
    | Cancel(r: nat)
    | CancelOne(slot: Slot, generation: nat)
    | CancelByEffect(effect: nat)
    | CancelBySnapshot(snapshot: Snapshot)
    | Shutdown

  /** Any thread may take any section next; a release names a run that some
      thread was granted, and may come more than once. */
  ghost predicate Moves(sh: Shell, a: Action, next: Shell) {
    match a
    case Acquire(run) => CanAcquire(sh, run.key) && next == Acquired(sh, run)
    case Release(key, r) => r < |sh.runs| && next == Released(sh, key, r)
    case Cancel(r) => r < |sh.runs| && next == CancelledRun(sh, r)
    case CancelOne(slot, generation) => next == CancelMatching(sh, (run: Run) => run.key == AttemptKey(slot) && run.attemptGeneration < generation)
    case CancelByEffect(id) => next == CancelMatching(sh, (run: Run) => run.effect == id)
    case CancelBySnapshot(s) => next == CancelMatching(sh, (run: Run) => RevokedBy(s, run))
    case Shutdown => next == Stopping(sh)
  }

  ghost predicate IsTrace(shells: seq<Shell>, actions: seq<Action>) {
    |shells| == |actions| + 1 && shells[0] == IDLE && forall i :: 0 <= i < |actions| ==> Moves(shells[i], actions[i], shells[i + 1])
  }

  lemma {:induction false} TraceKeepsInv(shells: seq<Shell>, actions: seq<Action>, n: nat)
    requires IsTrace(shells, actions) && n < |shells|
    ensures Inv(shells[n])
  {
    if n > 0 {
      TraceKeepsInv(shells, actions, n - 1);
      var sh := shells[n - 1];
      assert Moves(sh, actions[n - 1], shells[n]);
      match actions[n - 1] {
        case Acquire(run) => AcquireKeepsInv(sh, run);
        case Release(key, r) => ReleaseKeepsInv(sh, key, r);
        case Cancel(r) => CancelOneKeepsInv(sh, r);
        case CancelOne(slot, generation) => CancelKeepsInv(sh, (run: Run) => run.key == AttemptKey(slot) && run.attemptGeneration < generation);
        case CancelByEffect(id) => CancelKeepsInv(sh, (run: Run) => run.effect == id);
        case CancelBySnapshot(s) => CancelKeepsInv(sh, (run: Run) => RevokedBy(s, run));
        case Shutdown => CancelKeepsInv(sh, run => true);
      }
    }
  }

  /** Two runs that both hold their key hold different keys. */
  lemma OneHolderPerKey(shells: seq<Shell>, actions: seq<Action>, n: nat, a: nat, b: nat)
    requires IsTrace(shells, actions) && n < |shells| && a < |shells[n].runs| && b < |shells[n].runs| && a != b
    requires shells[n].runs[a].closes == 0 && shells[n].runs[b].closes == 0
    ensures shells[n].runs[a].key != shells[n].runs[b].key
  {
    TraceKeepsInv(shells, actions, n);
  }

  /** A step closes a channel exactly when it takes the run out of the map, and
      no channel is ever closed again. */
  lemma ClosedExactlyOnLeaving(shells: seq<Shell>, actions: seq<Action>, n: nat, r: nat)
    requires IsTrace(shells, actions) && n < |actions| && r < |shells[n].runs|
    ensures r < |shells[n + 1].runs| && shells[n + 1].runs[r].closes <= 1
    ensures IsActive(shells[n], r) && !IsActive(shells[n + 1], r) <==> shells[n + 1].runs[r].closes == shells[n].runs[r].closes + 1
    ensures !IsActive(shells[n], r) ==> !IsActive(shells[n + 1], r) && shells[n + 1].runs[r].closes == shells[n].runs[r].closes == 1
    ensures shells[n].runs[r].cancelled ==> shells[n + 1].runs[r].cancelled
  {
    TraceKeepsInv(shells, actions, n);
    TraceKeepsInv(shells, actions, n + 1);
    assert Moves(shells[n], actions[n], shells[n + 1]);
  }

  /** Releasing a run again changes nothing, under whatever key, and no release
      frees the key of another run. */
  lemma RepeatedReleaseIsHarmless(sh: Shell, key: Key, other: Key, r: nat)
    requires Inv(sh) && r < |sh.runs|
    ensures var once := Released(sh, sh.runs[r].key, r);
            Released(once, key, r) == once && !IsActive(once, r)
    ensures other != sh.runs[r].key ==> (other in Released(sh, key, r).active <==> other in sh.active)
  {
    var once := Released(sh, sh.runs[r].key, r);
    assert Inv(once) by { ReleaseKeepsInv(sh, sh.runs[r].key, r); }
    assert Released(once, key, r).runs == once.runs;
  }

  /** What a waiting shutdown has yet to see closed. */
  ghost predicate AllClosed(sh: Shell, awaited: set<nat>) {
    forall r :: r in awaited && r < |sh.runs| ==> sh.runs[r].closes > 0
  }

  lemma {:induction false} StoppedOnlyShrinks(shells: seq<Shell>, actions: seq<Action>, i: nat, j: nat)
    requires IsTrace(shells, actions) && i <= j < |shells| && shells[i].stopped
    ensures shells[j].stopped && |shells[j].runs| == |shells[i].runs|
    ensures forall r :: 0 <= r < |shells[i].runs| && IsActive(shells[j], r) ==> IsActive(shells[i], r)
    decreases j - i
  {
    if i < j {
      var sh, next := shells[i], shells[i + 1];
      assert Moves(sh, actions[i], next);
      forall r | 0 <= r < |sh.runs| && IsActive(next, r) ensures IsActive(sh, r) {
        ClosedExactlyOnLeaving(shells, actions, i, r);
      }
      StoppedOnlyShrinks(shells, actions, i + 1, j);
    }
  }

  lemma NothingActive(sh: Shell)
    requires Inv(sh) && forall r :: 0 <= r < |sh.runs| ==> !IsActive(sh, r)
    ensures sh.active == map[]
  {
    assert forall key :: key in sh.active ==> IsActive(sh, sh.active[key]);
  }

  /** When every run that a shutdown found active has closed its channel, nothing
      is active, and nothing ever is again. */
  lemma ShutdownLeavesNothing(shells: seq<Shell>, actions: seq<Action>, i: nat, j: nat, k: nat)
    requires IsTrace(shells, actions) && i < j <= k < |shells| && actions[i].Shutdown?
    requires AllClosed(shells[j], shells[i].active.Values)
    ensures shells[j].active == map[] && shells[k].active == map[]
  {
    assert Moves(shells[i], actions[i], shells[i + 1]);
    StoppedOnlyShrinks(shells, actions, i + 1, j);
    StoppedOnlyShrinks(shells, actions, j, k);
    TraceKeepsInv(shells, actions, j);
    TraceKeepsInv(shells, actions, k);
    forall r | 0 <= r < |shells[j].runs| ensures !IsActive(shells[j], r) {
      assert IsActive(shells[i + 1], r) == IsActive(shells[i], r);
      if IsActive(shells[i], r) {
        assert shells[i].active[shells[i].runs[r].key] == r;
      }
    }
    NothingActive(shells[j]);
    NothingActive(shells[k]);
  }

  // ---- Invalidation --------------------------------------------------------

  /** The run works under the generations of the snapshot, and its effect is
      still to be done. */
  predicate CurrentRun(s: Snapshot, run: Run) {
    && !run.key.OtherKey?
    && (run.key.IssueKey? ==> IssueGeneration(s.state, run.key.issue) == run.issueGeneration)
    && (run.key.AttemptKey? ==> IssueGeneration(s.state, run.key.slot.issue) == run.issueGeneration)
    && (run.key.AttemptKey? ==> AttemptGeneration(s.state, run.key.slot) == run.attemptGeneration)
    && (run.observationGeneration != 0 ==> ObservedAt(s.state, run.key, run.observationGeneration))
    && (run.effect != 0 ==> run.effect in s.state.effects && s.state.effects[run.effect].status.Pending? && !s.state.effects[run.effect].revoked)
  }

  /** After a snapshot is applied, a run admitted at or before it and still going
      is current in it; the call cancels no run admitted after it and no run that
      is current and not a reviewer to be checked further. */
  lemma SnapshotRevokesExactly(sh: Shell, s: Snapshot, r: nat)
    requires Inv(sh) && IsActive(sh, r)
    ensures var next := CancelMatching(sh, (run: Run) => RevokedBy(s, run));
      && IsActive(next, r) && next.active == sh.active
      && (sh.runs[r].admittedRevision > s.state.revision ==> next.runs[r] == sh.runs[r])
      && (sh.runs[r].admittedRevision <= s.state.revision && !next.runs[r].cancelled ==> CurrentRun(s, next.runs[r]))
      && (CurrentRun(s, sh.runs[r]) && !EffectRevoked(s, sh.runs[r].effect) ==> next.runs[r] == sh.runs[r])
  {
  }
}
