// The key reservations, the drain and the coalesced cache save of the operator
// service under every interleaving. Each mutex section is one atomic step; the
// tasks are what the wait group counts.
module OperatorService {
  /** A collection runs inside the request or the worker that asked for it. */
  datatype Kind = Performing | Working | Collecting(parent: nat) | Saver | Retiring

  datatype Task = Task(kind: Kind, holds: set<string>)

  /** `channels` counts how often each release signal was closed. `calls` counts
      the requests for a save and `covered` those that a save has started after.
      `waited`: the wait of a shutdown has returned. */
  datatype Service = Service(
    active: set<string>, released: map<string, nat>, channels: seq<nat>,
    closing: bool, waited: bool, stopped: bool,
    tasks: map<nat, Task>, nextTask: nat,
    cachePending: bool, cacheSaving: bool, saveRunning: bool, calls: nat, covered: nat)

  const FRESH := Service({}, map[], [], false, false, false, map[], 0, false, false, false, 0, 0)

  // ---- The sections as functions of the state ------------------------------

  predicate Open(sv: Service, key: string) {
    key != "" && !sv.closing && !sv.stopped && key !in sv.active
  }

  function Held(sv: Service, key: string): Service {
    sv.(active := sv.active + {key}, released := sv.released[key := |sv.channels|], channels := sv.channels + [0])
  }

  function Joined(sv: Service, task: Task): Service {
    sv.(tasks := sv.tasks[sv.nextTask := task], nextTask := sv.nextTask + 1)
  }

  function HeldBy(sv: Service, t: nat, key: string): Service
    requires t in sv.tasks
  {
    Held(sv, key).(tasks := sv.tasks[t := sv.tasks[t].(holds := sv.tasks[t].holds + {key})])
  }

  function Started(sv: Service, key: string): Service {
    if Open(sv, key) then Joined(Held(sv, key), Task(Working, {key})) else sv
  }

  function Reserved(sv: Service, t: nat, key: string): Service
    requires t in sv.tasks
  {
    if Open(sv, key) then HeldBy(sv, t, key) else sv
  }

  /** Unlike a fresh reservation, a successor is taken even while closing. */
  predicate Succeeds(sv: Service, current: string, next: string) {
    current != "" && next != "" && current != next && current in sv.active && next !in sv.active
  }

  function ReservedSuccessor(sv: Service, t: nat, current: string, next: string): Service
    requires t in sv.tasks
  {
    if Succeeds(sv, current, next) then HeldBy(sv, t, next) else sv
  }

  function ReleasedKey(sv: Service, t: nat, key: string): Service
    requires t in sv.tasks && (key in sv.released ==> sv.released[key] < |sv.channels|)
  {
    var freed := sv.(active := sv.active - {key}, tasks := sv.tasks[t := sv.tasks[t].(holds := sv.tasks[t].holds - {key})]);
    if key in sv.released
    then freed.(channels := sv.channels[sv.released[key] := sv.channels[sv.released[key]] + 1], released := sv.released - {key})
    else freed
  }

  function Entered(sv: Service, kind: Kind): Service {
    if (if kind.Collecting? then sv.closing && sv.stopped else sv.closing) then sv else Joined(sv, Task(kind, {}))
  }

  function Left(sv: Service, t: nat): Service {
    sv.(tasks := sv.tasks - {t})
  }

  function SaveScheduled(sv: Service): Service {
    var asked := sv.(cachePending := true, calls := sv.calls + 1);
    if sv.cacheSaving then asked else Joined(asked.(cacheSaving := true), Task(Saver, {}))
  }

  /** The saver looks at the flag under the mutex: it starts another save, or
      gives up its role. */
  function SaverTurned(sv: Service, t: nat): Service
    requires t in sv.tasks
  {
    if sv.cachePending then sv.(cachePending := false, saveRunning := true, covered := sv.calls)
    else sv.(cacheSaving := false, tasks := sv.tasks[t := sv.tasks[t].(kind := Retiring)])
  }

  // ---- What every section keeps --------------------------------------------

  ghost predicate Signals(sv: Service) {
    && sv.active == sv.released.Keys
    && (forall key :: key in sv.released ==> sv.released[key] < |sv.channels|)
    && (forall a, b :: a in sv.released && b in sv.released && a != b ==> sv.released[a] != sv.released[b])
    && (forall c :: 0 <= c < |sv.channels| ==> sv.channels[c] <= 1 && (sv.channels[c] == 0 <==> c in sv.released.Values))
  }

  ghost predicate Holders(sv: Service) {
    && (forall t :: t in sv.tasks ==> t < sv.nextTask && sv.tasks[t].holds <= sv.active)
    && (forall key :: key in sv.active ==> exists t :: t in sv.tasks && key in sv.tasks[t].holds)
    && (forall t, u :: t in sv.tasks && u in sv.tasks && t != u ==> sv.tasks[t].holds !! sv.tasks[u].holds)
  }

  ghost predicate Saving(sv: Service) {
    && (sv.cacheSaving <==> exists t :: t in sv.tasks && sv.tasks[t].kind.Saver?)
    && (forall t, u :: t in sv.tasks && u in sv.tasks && sv.tasks[t].kind.Saver? && sv.tasks[u].kind.Saver? ==> t == u)
    && (sv.cachePending || sv.saveRunning ==> sv.cacheSaving)
    && sv.covered <= sv.calls && (sv.covered < sv.calls ==> sv.cachePending)
  }

  ghost predicate Inv(sv: Service) {
    Signals(sv) && Holders(sv) && Saving(sv)
  }

  lemma AddedValue(m: map<string, nat>, key: string, v: nat)
    requires key !in m
    ensures m[key := v].Values == m.Values + {v}
  {
    var n := m[key := v];
    assert n[key] == v;
    forall c | c in m.Values ensures c in n.Values {
      var k :| k in m && m[k] == c;
      assert n[k] == c;
    }
  }

  lemma RemovedValue(m: map<string, nat>, key: string)
    requires key in m && forall a, b :: a in m && b in m && a != b ==> m[a] != m[b]
    ensures (m - {key}).Values == m.Values - {m[key]}
  {
    var n := m - {key};
    forall c | c in m.Values - {m[key]} ensures c in n.Values {
      var k :| k in m && m[k] == c;
      assert n[k] == c;
    }
    forall c | c in n.Values ensures c in m.Values - {m[key]} {
      var k :| k in n && n[k] == c;
      assert m[k] == c;
    }
  }

  lemma HeldKeepsSignals(sv: Service, key: string)
    requires Signals(sv) && key !in sv.active
    ensures Signals(Held(sv, key))
  {
    AddedValue(sv.released, key, |sv.channels|);
  }

  /** A task that is no saver joins. */
  lemma JoinKeepsSaving(sv: Service, task: Task)
    requires Saving(sv) && !task.kind.Saver? && sv.nextTask !in sv.tasks
    ensures Saving(Joined(sv, task))
  {
    var after := Joined(sv, task);
    if sv.cacheSaving {
      var t :| t in sv.tasks && sv.tasks[t].kind.Saver?;
      assert after.tasks[t].kind.Saver?;
    }
  }

  /** A task joins that holds `holds`, which nobody else does. */
  lemma JoinKeepsHolders(sv: Service, task: Task, active: set<string>)
    requires Holders(sv) && active == sv.active + task.holds && sv.active !! task.holds
    ensures Holders(Joined(sv.(active := active), task))
  {
    var after := Joined(sv.(active := active), task);
    forall key | key in after.active ensures exists t :: t in after.tasks && key in after.tasks[t].holds {
      if key in task.holds {
        assert key in after.tasks[sv.nextTask].holds;
      } else {
        var t :| t in sv.tasks && key in sv.tasks[t].holds;
        assert t in after.tasks && key in after.tasks[t].holds;
      }
    }
  }

  lemma JoinKeepsInv(sv: Service, kind: Kind)
    requires Inv(sv) && !kind.Saver?
    ensures Inv(Joined(sv, Task(kind, {})))
  {
    hide Saving;
    JoinKeepsSaving(sv, Task(kind, {}));
    assert sv.(active := sv.active) == sv;
    JoinKeepsHolders(sv, Task(kind, {}), sv.active);
  }

  lemma StartKeepsInv(sv: Service, key: string)
    requires Inv(sv)
    ensures Inv(Started(sv, key))
  {
    hide Signals, Holders, Saving;
    if Open(sv, key) {
      HeldKeepsSignals(sv, key);
      SameKindsKeepSaving(sv, Held(sv, key));
      NextIsNew(sv);
      JoinKeepsSaving(Held(sv, key), Task(Working, {key}));
      JoinKeepsHolders(sv, Task(Working, {key}), sv.active + {key});
      StartedParts(sv, key);
    }
  }

  lemma NextIsNew(sv: Service)
    requires Holders(sv)
    ensures sv.nextTask !in sv.tasks
  {
  }

  lemma StartedParts(sv: Service, key: string)
    requires Open(sv, key) && Signals(Held(sv, key)) && Saving(Joined(Held(sv, key), Task(Working, {key})))
    requires Holders(Joined(sv.(active := sv.active + {key}), Task(Working, {key})))
    ensures Inv(Started(sv, key))
  {
    hide Saving;
  }

  lemma HoldKeepsHolders(sv: Service, t: nat, key: string)
    requires Holders(sv) && t in sv.tasks && key !in sv.active
    ensures Holders(HeldBy(sv, t, key))
  {
    var after := HeldBy(sv, t, key);
    forall k | k in after.active ensures exists u :: u in after.tasks && k in after.tasks[u].holds {
      if k == key {
        assert k in after.tasks[t].holds;
      } else {
        var u :| u in sv.tasks && k in sv.tasks[u].holds;
        assert k in after.tasks[u].holds;
      }
    }
    forall u | u in sv.tasks && u != t ensures after.tasks[t].holds !! sv.tasks[u].holds {
      assert key !in sv.tasks[u].holds;
    }
  }

  /** Changing what a task holds does not concern the saver. */
  lemma SameKindsKeepSaving(sv: Service, after: Service)
    requires Saving(sv) && after.tasks.Keys == sv.tasks.Keys && forall t :: t in sv.tasks ==> after.tasks[t].kind == sv.tasks[t].kind
    requires after.cachePending == sv.cachePending && after.cacheSaving == sv.cacheSaving && after.saveRunning == sv.saveRunning
    requires after.calls == sv.calls && after.covered == sv.covered
    ensures Saving(after)
  {
    if sv.cacheSaving {
      var u :| u in sv.tasks && sv.tasks[u].kind.Saver?;
      assert after.tasks[u].kind.Saver?;
    }
  }

  lemma HoldKeepsInv(sv: Service, t: nat, key: string)
    requires Inv(sv) && t in sv.tasks && key !in sv.active
    ensures Inv(HeldBy(sv, t, key))
  {
    hide Signals, Holders, Saving;
    HeldKeepsSignals(sv, key);
    HoldKeepsHolders(sv, t, key);
    SameKindsKeepSaving(sv, HeldBy(sv, t, key));
    SignalsOnly(Held(sv, key), HeldBy(sv, t, key));
  }

  lemma SignalsOnly(sv: Service, after: Service)
    requires Signals(sv) && after.active == sv.active && after.released == sv.released && after.channels == sv.channels
    ensures Signals(after)
  {
  }

  lemma ReleaseKeepsSignals(sv: Service, t: nat, key: string)
    requires Signals(sv) && t in sv.tasks && key in sv.active
    ensures Signals(ReleasedKey(sv, t, key))
  {
    RemovedValue(sv.released, key);
  }

  lemma ReleaseKeepsHolders(sv: Service, t: nat, key: string)
    requires Holders(sv) && t in sv.tasks && key in sv.tasks[t].holds && (key in sv.released ==> sv.released[key] < |sv.channels|)
    ensures Holders(ReleasedKey(sv, t, key))
  {
    var after := ReleasedKey(sv, t, key);
    forall k | k in after.active ensures exists u :: u in after.tasks && k in after.tasks[u].holds {
      var u :| u in sv.tasks && k in sv.tasks[u].holds;
      assert k in after.tasks[u].holds;
    }
    forall u | u in sv.tasks && u != t ensures sv.tasks[u].holds <= after.active {
      assert sv.tasks[t].holds !! sv.tasks[u].holds;
    }
  }

  lemma ReleaseKeepsInv(sv: Service, t: nat, key: string)
    requires Inv(sv) && t in sv.tasks && key in sv.tasks[t].holds
    ensures (key in sv.released ==> sv.released[key] < |sv.channels|) && Inv(ReleasedKey(sv, t, key))
  {
    hide Saving;
    ReleaseKeepsSignals(sv, t, key);
    ReleaseKeepsHolders(sv, t, key);
    SameKindsKeepSaving(sv, ReleasedKey(sv, t, key));
  }

  lemma LeaveKeepsInv(sv: Service, t: nat)
    requires Inv(sv) && t in sv.tasks && sv.tasks[t].holds == {} && !sv.tasks[t].kind.Saver?
    ensures Inv(Left(sv, t))
  {
    var after := Left(sv, t);
    forall k | k in after.active ensures exists u :: u in after.tasks && k in after.tasks[u].holds {
      var u :| u in sv.tasks && k in sv.tasks[u].holds;
      assert u in after.tasks && k in after.tasks[u].holds;
    }
    if sv.cacheSaving {
      var u :| u in sv.tasks && sv.tasks[u].kind.Saver?;
      assert u in after.tasks && after.tasks[u].kind.Saver?;
    }
  }

  lemma ScheduleKeepsInv(sv: Service)
    requires Inv(sv)
    ensures Inv(SaveScheduled(sv))
  {
    var after := SaveScheduled(sv);
    forall k | k in after.active ensures exists u :: u in after.tasks && k in after.tasks[u].holds {
      var u :| u in sv.tasks && k in sv.tasks[u].holds;
      assert u in after.tasks && k in after.tasks[u].holds;
    }
    if sv.cacheSaving {
      var u :| u in sv.tasks && sv.tasks[u].kind.Saver?;
      assert after.tasks[u].kind.Saver?;
    } else {
      assert after.tasks[sv.nextTask].kind.Saver?;
    }
  }

  lemma TurnKeepsInv(sv: Service, t: nat)
    requires Inv(sv) && t in sv.tasks && sv.tasks[t].kind.Saver? && !sv.saveRunning
    ensures Inv(SaverTurned(sv, t))
  {
    var after := SaverTurned(sv, t);
    forall k | k in after.active ensures exists u :: u in after.tasks && k in after.tasks[u].holds {
      var u :| u in sv.tasks && k in sv.tasks[u].holds;
      assert u in after.tasks && k in after.tasks[u].holds;
    }
    if sv.cachePending {
      assert after.tasks[t].kind.Saver?;
    }
  }

  // ---- The service ---------------------------------------------------------

  class OperatorMutationService {
    var active: set<string>
    var released: map<string, nat>
    var channels: seq<nat>
    var closing: bool
    var stopped: bool
    var cachePending: bool
    var cacheSaving: bool
    ghost var waited: bool
    ghost var saveRunning: bool
    ghost var calls: nat
    ghost var covered: nat
    ghost var tasks: map<nat, Task>
    ghost var nextTask: nat

    ghost function View(): Service
      reads this
    {
      Service(active, released, channels, closing, waited, stopped, tasks, nextTask, cachePending, cacheSaving, saveRunning, calls, covered)
    }

    ghost predicate Valid()
      reads this
    {
      Inv(View())
    }

    constructor ()
      ensures Valid() && View() == FRESH
    {
      active, released, channels, closing, stopped, cachePending, cacheSaving := {}, map[], [], false, false, false, false;
      waited, saveRunning, calls, covered, tasks, nextTask := false, false, 0, 0, map[], 0;
    }

    /** Starts a worker that holds the key until it is done. */
    method StartReserved(key: string) returns (started: bool)
      requires Valid()
      modifies this
      ensures Valid() && View() == Started(old(View()), key) && started == Open(old(View()), key)
    {
      hide Signals, Holders, Saving;
      StartKeepsInv(View(), key);
      if key == "" || closing || stopped || key in active {
        return false;
      }
      active := active + {key};
      released := released[key := |channels|];
      channels := channels + [0];
      tasks, nextTask := tasks[nextTask := Task(Working, {key})], nextTask + 1;
      return true;
    }

    method Reserve(ghost t: nat, key: string) returns (reserved: bool)
      requires Valid() && t in tasks
      modifies this
      ensures Valid() && View() == Reserved(old(View()), t, key) && reserved == Open(old(View()), key)
    {
      hide Signals, Holders, Saving;
      if key == "" || closing || stopped || key in active {
        return false;
      }
      HoldKeepsInv(View(), t, key);
      active := active + {key};
      released := released[key := |channels|];
      channels := channels + [0];
      tasks := tasks[t := tasks[t].(holds := tasks[t].holds + {key})];
      return true;
    }

    method ReserveSuccessor(ghost t: nat, current: string, next: string) returns (reserved: bool)
      requires Valid() && t in tasks
      modifies this
      ensures Valid() && View() == ReservedSuccessor(old(View()), t, current, next) && reserved == Succeeds(old(View()), current, next)
    {
      hide Signals, Holders, Saving;
      if current == "" || next == "" || current == next {
        return false;
      }
      if current !in active || next in active {
        return false;
      }
      HoldKeepsInv(View(), t, next);
      active := active + {next};
      released := released[next := |channels|];
      channels := channels + [0];
      tasks := tasks[t := tasks[t].(holds := tasks[t].holds + {next})];
      return true;
    }

    method Release(ghost t: nat, key: string)
      requires Valid() && t in tasks && key in tasks[t].holds
      modifies this
      ensures Valid() && View() == ReleasedKey(old(View()), t, key)
    {
      hide Inv;
      ReleaseKeepsInv(View(), t, key);
      active := active - {key};
      if key in released {
        var done := released[key];
        channels := channels[done := channels[done] + 1];
        released := released - {key};
      }
      ghost var task := tasks[t];
      tasks := tasks[t := task.(holds := task.holds - {key})];
    }

    method EnterPerform() returns (entered: bool)
      requires Valid()
      modifies this
      ensures Valid() && View() == Entered(old(View()), Performing) && entered == !old(closing)
    {
      if closing {
        return false;
      }
      JoinKeepsInv(View(), Performing);
      tasks, nextTask := tasks[nextTask := Task(Performing, {})], nextTask + 1;
      return true;
    }

    /** A collection is refused only once the service has stopped. */
    method EnterCollect(ghost parent: nat) returns (entered: bool)
      requires Valid() && parent in tasks
      modifies this
      ensures Valid() && View() == Entered(old(View()), Collecting(parent)) && entered == !(old(closing) && old(stopped))
    {
      if closing && stopped {
        return false;
      }
      JoinKeepsInv(View(), Collecting(parent));
      tasks, nextTask := tasks[nextTask := Task(Collecting(parent), {})], nextTask + 1;
      return true;
    }

    /** Whether the caller has to start the saver it became responsible for. */
    method ScheduleCacheSave() returns (spawned: bool)
      requires Valid()
      modifies this
      ensures Valid() && View() == SaveScheduled(old(View())) && spawned == !old(cacheSaving)
    {
      hide Signals, Holders, Saving;
      ScheduleKeepsInv(View());
      cachePending := true;
      calls := calls + 1;
      if cacheSaving {
        return false;
      }
      cacheSaving := true;
      tasks, nextTask := tasks[nextTask := Task(Saver, {})], nextTask + 1;
      return true;
    }

    /** One turn of the saver's loop under the mutex. */
    method SaverTurn(ghost t: nat) returns (save: bool)
      requires Valid() && t in tasks && tasks[t].kind.Saver? && !saveRunning
      modifies this
      ensures Valid() && View() == SaverTurned(old(View()), t) && save == old(cachePending)
    {
      hide Signals, Holders, Saving;
      TurnKeepsInv(View(), t);
      if !cachePending {
        cacheSaving := false;
        tasks := tasks[t := tasks[t].(kind := Retiring)];
        return false;
      }
      cachePending := false;
      saveRunning, covered := true, calls;
      return true;
    }
  }

  // ---- Runs of the service -------------------------------------------------

  datatype Action =
    | Start(key: string)
    | Reserve(task: nat, key: string)
    | Successor(task: nat, current: string, next: string)
    | Release(task: nat, key: string)
    | EnterPerform
    | EnterCollect(parent: nat)
    | Leave(task: nat)
    | Schedule(task: nat)
    | SaverTurn(task: nat)
    | SaveDone(task: nat)
    | BeginClosing
    | WaitReturns
    | MarkStopped

  /** Any thread may take any section next. Only tasks reserve and release what
      they hold; only a request or a worker collects, and only a collection
      schedules a save; a task leaves with nothing held and no collection of its
      own under way; the wait of a shutdown returns when no task is left. */
  ghost predicate Moves(sv: Service, a: Action, next: Service) {
    match a
    case Start(key) => next == Started(sv, key)
    case Reserve(t, key) => t in sv.tasks && next == Reserved(sv, t, key)
    case Successor(t, current, key) => t in sv.tasks && next == ReservedSuccessor(sv, t, current, key)
    case Release(t, key) => t in sv.tasks && key in sv.tasks[t].holds && (key in sv.released ==> sv.released[key] < |sv.channels|) && next == ReleasedKey(sv, t, key)
    case EnterPerform => next == Entered(sv, Performing)
    case EnterCollect(parent) =>
      parent in sv.tasks && (sv.tasks[parent].kind.Performing? || sv.tasks[parent].kind.Working?) && next == Entered(sv, Collecting(parent))
    case Leave(t) =>
      t in sv.tasks && sv.tasks[t].holds == {} && !sv.tasks[t].kind.Saver? && NothingWithin(sv, t)
      && next == Left(sv, t)
    case Schedule(t) => t in sv.tasks && sv.tasks[t].kind.Collecting? && next == SaveScheduled(sv)
    case SaverTurn(t) => t in sv.tasks && sv.tasks[t].kind.Saver? && !sv.saveRunning && next == SaverTurned(sv, t)
    case SaveDone(t) => t in sv.tasks && sv.tasks[t].kind.Saver? && sv.saveRunning && next == sv.(saveRunning := false)
    case BeginClosing => next == sv.(closing := true)
    case WaitReturns => sv.closing && sv.tasks == map[] && next == sv.(waited := true)
    case MarkStopped => sv.waited && next == sv.(stopped := true)
  }

  ghost predicate NothingWithin(sv: Service, t: nat) {
    forall u :: u in sv.tasks ==> sv.tasks[u].kind != Collecting(t)
  }

  ghost predicate IsTrace(svs: seq<Service>, actions: seq<Action>) {
    |svs| == |actions| + 1 && svs[0] == FRESH && forall i :: 0 <= i < |actions| ==> Moves(svs[i], actions[i], svs[i + 1])
  }

  lemma MoveKeepsInv(sv: Service, a: Action, next: Service)
    requires Inv(sv) && Moves(sv, a, next)
    ensures Inv(next)
  {
    hide Signals, Holders;
    match a {
      case Start(key) => StartKeepsInv(sv, key);
      case Reserve(t, key) => if Open(sv, key) { HoldKeepsInv(sv, t, key); }
      case Successor(t, current, key) => if Succeeds(sv, current, key) { HoldKeepsInv(sv, t, key); }
      case Release(t, key) => ReleaseKeepsInv(sv, t, key);
      case EnterPerform => if !sv.closing { JoinKeepsInv(sv, Performing); }
      case EnterCollect(parent) => if !(sv.closing && sv.stopped) { JoinKeepsInv(sv, Collecting(parent)); }
      case Leave(t) => LeaveKeepsInv(sv, t);
      case Schedule(_) => ScheduleKeepsInv(sv);
      case SaverTurn(t) => TurnKeepsInv(sv, t);
      case _ => FlagsKeepInv(sv, next);
    }
  }

  lemma FlagsKeepInv(sv: Service, next: Service)
    requires Inv(sv) && (next.saveRunning ==> sv.saveRunning)
    requires next == sv.(closing := next.closing, waited := next.waited, stopped := next.stopped, saveRunning := next.saveRunning)
    ensures Inv(next)
  {
  }

  lemma {:induction false} TraceKeepsInv(svs: seq<Service>, actions: seq<Action>, n: nat)
    requires IsTrace(svs, actions) && n < |svs|
    ensures Inv(svs[n])
  {
    if n > 0 {
      TraceKeepsInv(svs, actions, n - 1);
      MoveKeepsInv(svs[n - 1], actions[n - 1], svs[n]);
    }
  }

  lemma OneHolder(sv: Service, key: string, t: nat, u: nat)
    requires Holders(sv) && t in sv.tasks && u in sv.tasks && key in sv.tasks[t].holds && key in sv.tasks[u].holds
    ensures t == u
  {
  }

  /** A key is held by one task at a time, both maps always name the same keys,
      and a release signal is closed once, exactly when its key is given up. */
  lemma KeysAreExclusive(svs: seq<Service>, actions: seq<Action>, n: nat, key: string)
    requires IsTrace(svs, actions) && n < |svs|
    ensures svs[n].active == svs[n].released.Keys
    ensures key in svs[n].active <==> exists t :: t in svs[n].tasks && key in svs[n].tasks[t].holds
    ensures forall t, u :: t in svs[n].tasks && u in svs[n].tasks && key in svs[n].tasks[t].holds && key in svs[n].tasks[u].holds ==> t == u
    ensures forall c :: 0 <= c < |svs[n].channels| ==> svs[n].channels[c] <= 1 && (svs[n].channels[c] == 0 <==> c in svs[n].released.Values)
  {
    TraceKeepsInv(svs, actions, n);
    forall t, u | t in svs[n].tasks && u in svs[n].tasks && key in svs[n].tasks[t].holds && key in svs[n].tasks[u].holds ensures t == u {
      OneHolder(svs[n], key, t, u);
    }
  }

  // ---- No lost wakeup ------------------------------------------------------

  /** At most one saver; a request that no save has started after is still
      pending, and a pending request has a saver that will look again. */
  lemma NoSaveIsLost(svs: seq<Service>, actions: seq<Action>, n: nat)
    requires IsTrace(svs, actions) && n < |svs|
    ensures forall t, u :: t in svs[n].tasks && u in svs[n].tasks && svs[n].tasks[t].kind.Saver? && svs[n].tasks[u].kind.Saver? ==> t == u
    ensures svs[n].covered < svs[n].calls ==> svs[n].cachePending
    ensures svs[n].cachePending ==> exists t :: t in svs[n].tasks && svs[n].tasks[t].kind.Saver?
  {
    TraceKeepsInv(svs, actions, n);
  }

  lemma KeysKeepCoverage(sv: Service, key: string)
    ensures Started(sv, key).covered == sv.covered && SaveScheduled(sv).covered == sv.covered
    ensures forall kind :: Entered(sv, kind).covered == sv.covered
    ensures forall t :: Left(sv, t).covered == sv.covered
  {
  }

  lemma TasksKeepCoverage(sv: Service, t: nat, key: string, current: string)
    requires t in sv.tasks
    ensures Reserved(sv, t, key).covered == sv.covered && ReservedSuccessor(sv, t, current, key).covered == sv.covered
    ensures (key in sv.released ==> sv.released[key] < |sv.channels|) ==> ReleasedKey(sv, t, key).covered == sv.covered
  {
  }

  lemma CoverageNeedsASave(sv: Service, a: Action, next: Service)
    requires Moves(sv, a, next) && !(a.SaverTurn? && sv.cachePending)
    ensures next.covered == sv.covered
  {
    hide Started, Reserved, ReservedSuccessor, ReleasedKey, Entered, SaveScheduled, Left;
    match a {
      case Start(key) => KeysKeepCoverage(sv, key);
      case Reserve(t, key) => TasksKeepCoverage(sv, t, key, "");
      case Successor(t, current, key) => TasksKeepCoverage(sv, t, key, current);
      case Release(t, key) => TasksKeepCoverage(sv, t, key, "");
      case _ => KeysKeepCoverage(sv, "");
    }
  }

  /** The request made at step `i` is covered at `j`: a save started in between. */
  lemma {:induction false} CoveredMeansSaved(svs: seq<Service>, actions: seq<Action>, i: nat, j: nat) returns (k: nat)
    requires IsTrace(svs, actions) && i < j < |svs| && actions[i].Schedule? && svs[j].covered >= svs[i + 1].calls
    ensures i < k < j && actions[k].SaverTurn? && svs[k].cachePending && svs[k + 1].saveRunning
    decreases j
  {
    hide Signals, Holders, Started, Reserved, ReservedSuccessor, ReleasedKey, HeldBy;
    TraceKeepsInv(svs, actions, i);
    assert Moves(svs[i], actions[i], svs[i + 1]);
    assert svs[i + 1].covered < svs[i + 1].calls;
    assert Moves(svs[j - 1], actions[j - 1], svs[j]);
    if actions[j - 1].SaverTurn? && svs[j - 1].cachePending {
      k := j - 1;
    } else {
      CoverageNeedsASave(svs[j - 1], actions[j - 1], svs[j]);
      k := CoveredMeansSaved(svs, actions, i, j - 1);
    }
  }

  // ---- Closing -------------------------------------------------------------

  /** The keys held when closing began, and their successors since. */
  ghost function Lineage(svs: seq<Service>, actions: seq<Action>, c: nat, n: nat): set<string>
    requires |svs| == |actions| + 1 && c <= n < |svs|
  {
    if n == c then svs[c].active
    else
      var before := Lineage(svs, actions, c, n - 1);
      var a := actions[n - 1];
      if a.Successor? && a.current in before && Succeeds(svs[n - 1], a.current, a.next) then before + {a.next} else before
  }

  lemma ClosingStep(sv: Service, a: Action, next: Service)
    requires Moves(sv, a, next) && sv.closing
    ensures next.closing
    ensures next.active <= if a.Successor? && Succeeds(sv, a.current, a.next) then sv.active + {a.next} else sv.active
  {
    hide NothingWithin;
    match a {
      case Release(_, _) =>
      case Successor(_, _, _) =>
      case _ =>
    }
  }

  lemma {:induction false} ClosingStays(svs: seq<Service>, actions: seq<Action>, c: nat, n: nat)
    requires IsTrace(svs, actions) && c <= n < |svs| && svs[c].closing
    ensures svs[n].closing
    decreases n - c
  {
    hide Moves;
    if c < n {
      ClosingStays(svs, actions, c, n - 1);
      ClosingStep(svs[n - 1], actions[n - 1], svs[n]);
    }
  }

  /** After closing began, every held key descends through successor steps from
      one that was held then. */
  lemma {:induction false} LateKeysDescend(svs: seq<Service>, actions: seq<Action>, c: nat, n: nat)
    requires IsTrace(svs, actions) && c <= n < |svs| && svs[c].closing
    ensures svs[n].active <= Lineage(svs, actions, c, n)
    decreases n - c
  {
    hide Moves;
    if c < n {
      LateKeysDescend(svs, actions, c, n - 1);
      ClosingStays(svs, actions, c, n - 1);
      ClosingStep(svs[n - 1], actions[n - 1], svs[n]);
      if actions[n - 1].Successor? && Succeeds(svs[n - 1], actions[n - 1].current, actions[n - 1].next) {
        assert actions[n - 1].current in svs[n - 1].active;
      }
    }
  }

  lemma NoTaskNoKey(sv: Service)
    requires Holders(sv) && sv.tasks == map[]
    ensures sv.active == {}
  {
  }

  /** When the wait of a shutdown returns, no key is held, no saver is left and
      every requested save has started. */
  lemma DrainLeavesNothing(svs: seq<Service>, actions: seq<Action>, n: nat)
    requires IsTrace(svs, actions) && n < |actions| && actions[n].WaitReturns?
    ensures svs[n].active == {} && svs[n].released == map[] && !svs[n].cachePending && !svs[n].saveRunning && svs[n].covered == svs[n].calls
  {
    TraceKeepsInv(svs, actions, n);
    assert Moves(svs[n], actions[n], svs[n + 1]);
    NoTaskNoKey(svs[n]);
  }

  /** Nothing is held, running or waiting to be saved. */
  ghost predicate Idle(sv: Service) {
    sv.closing && sv.tasks == map[] && sv.active == {} && sv.covered == sv.calls && !sv.cachePending
  }

  lemma IdleStep(sv: Service, a: Action, next: Service)
    requires Moves(sv, a, next) && Idle(sv)
    ensures Idle(next)
  {
    hide NothingWithin, Held, HeldBy;
  }

  lemma FlagsStep(sv: Service, a: Action, next: Service)
    requires Moves(sv, a, next)
    ensures next.waited == (sv.waited || a.WaitReturns?)
    ensures next.stopped ==> sv.stopped || sv.waited
  {
    hide NothingWithin, Open, Succeeds;
    match a {
      case Start(_) =>
      case Release(_, _) =>
      case Successor(_, _, _) =>
      case Reserve(_, _) =>
      case _ =>
    }
  }

  /** Whatever comes after the return of the wait, the service stays idle: what
      could still collect would have been waited for. */
  lemma {:induction false} DrainedStaysIdle(svs: seq<Service>, actions: seq<Action>, n: nat, m: nat)
    requires IsTrace(svs, actions) && n < m < |svs| && actions[n].WaitReturns?
    ensures Idle(svs[m])
    decreases m
  {
    if n + 1 < m {
      hide Moves, Idle;
      DrainedStaysIdle(svs, actions, n, m - 1);
      IdleStep(svs[m - 1], actions[m - 1], svs[m]);
    } else {
      DrainLeavesNothing(svs, actions, n);
      assert Moves(svs[n], actions[n], svs[n + 1]);
    }
  }

  lemma {:induction false} StoppedIsIdle(svs: seq<Service>, actions: seq<Action>, n: nat)
    requires IsTrace(svs, actions) && n < |svs|
    ensures svs[n].stopped ==> svs[n].waited
    ensures svs[n].waited ==> Idle(svs[n])
  {
    hide Moves;
    if n > 0 {
      StoppedIsIdle(svs, actions, n - 1);
      FlagsStep(svs[n - 1], actions[n - 1], svs[n]);
      if actions[n - 1].WaitReturns? {
        DrainedStaysIdle(svs, actions, n - 1, n);
      } else if svs[n - 1].waited {
        IdleStep(svs[n - 1], actions[n - 1], svs[n]);
      }
    }
  }

  /** Every collection runs inside a request or a worker that is still there. */
  ghost predicate Nested(sv: Service) {
    forall t :: t in sv.tasks && sv.tasks[t].kind.Collecting? ==> sv.tasks[t].kind.parent in sv.tasks
  }

  lemma NothingNested()
    ensures Nested(FRESH)
  {
  }

  lemma LeaveKeepsNested(sv: Service, t: nat)
    requires Nested(sv) && t in sv.tasks && NothingWithin(sv, t)
    ensures Nested(Left(sv, t))
  {
  }

  lemma EnterKeepsNested(sv: Service, kind: Kind)
    requires Nested(sv) && (kind.Collecting? ==> kind.parent in sv.tasks)
    ensures Nested(Entered(sv, kind))
  {
  }

  lemma KeysKeepNested(sv: Service, t: nat, key: string, current: string)
    requires Nested(sv) && t in sv.tasks
    ensures Nested(Reserved(sv, t, key)) && Nested(ReservedSuccessor(sv, t, current, key))
    ensures (key in sv.released ==> sv.released[key] < |sv.channels|) ==> Nested(ReleasedKey(sv, t, key))
  {
  }

  lemma WorkersKeepNested(sv: Service, key: string)
    requires Nested(sv)
    ensures Nested(Started(sv, key)) && Nested(SaveScheduled(sv))
  {
  }

  lemma SaverKeepsNested(sv: Service, t: nat)
    requires Nested(sv) && t in sv.tasks && sv.tasks[t].kind.Saver?
    ensures Nested(SaverTurned(sv, t))
  {
  }

  lemma FlagsKeepNested(sv: Service, next: Service)
    requires Nested(sv) && next.tasks == sv.tasks
    ensures Nested(next)
  {
  }

  lemma NestedStep(sv: Service, a: Action, next: Service)
    requires Moves(sv, a, next) && Nested(sv)
    ensures Nested(next)
  {
    hide Open, Succeeds, NothingWithin, Nested, Started, Reserved, ReservedSuccessor, ReleasedKey, Entered, SaveScheduled, SaverTurned, Left;
    match a {
      case Start(key) => WorkersKeepNested(sv, key);
      case Reserve(t, key) => KeysKeepNested(sv, t, key, "");
      case Successor(t, current, key) => KeysKeepNested(sv, t, key, current);
      case Release(t, key) => KeysKeepNested(sv, t, key, "");
      case EnterPerform => EnterKeepsNested(sv, Performing);
      case EnterCollect(parent) => EnterKeepsNested(sv, Collecting(parent));
      case Leave(t) => LeaveKeepsNested(sv, t);
      case Schedule(_) => WorkersKeepNested(sv, "");
      case SaverTurn(t) => SaverKeepsNested(sv, t);
      case _ => FlagsKeepNested(sv, next);
    }
  }

  /** Work that was let in can always collect, also while the service drains: a
      collection is never refused, and it ends before the work it runs in. */
  lemma {:induction false} AdmittedWorkCollects(svs: seq<Service>, actions: seq<Action>, n: nat)
    requires IsTrace(svs, actions) && n < |svs|
    ensures Nested(svs[n])
    ensures n < |actions| && actions[n].EnterCollect? ==>
      svs[n].nextTask !in svs[n].tasks && svs[n + 1] == Joined(svs[n], Task(Collecting(actions[n].parent), {}))
  {
    hide Moves, Nested, Idle;
    if n > 0 {
      AdmittedWorkCollects(svs, actions, n - 1);
      NestedStep(svs[n - 1], actions[n - 1], svs[n]);
    } else {
      NothingNested();
    }
    if n < |actions| && actions[n].EnterCollect? {
      StoppedIsIdle(svs, actions, n);
      TraceKeepsInv(svs, actions, n);
      CollectsUnlessStopped(svs[n], actions[n], svs[n + 1]);
    }
  }

  lemma CollectsUnlessStopped(sv: Service, a: Action, next: Service)
    requires Inv(sv) && Moves(sv, a, next) && a.EnterCollect? && (sv.stopped ==> Idle(sv))
    ensures sv.nextTask !in sv.tasks && next == Joined(sv, Task(Collecting(a.parent), {}))
  {
  }
}
