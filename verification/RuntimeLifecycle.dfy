// Lifecycle planning: the number a new attempt may take, the replacement that
// is already being prepared, and the plan of one cycle. The plan depends on
// what was observed, never on the order in which a map is walked.
module RuntimeLifecycle {
  import opened OwnerState

  /** The largest attempt number: the source counts in a signed 64-bit integer. */
  const MAX_INT: int := 0x7FFF_FFFF_FFFF_FFFF

  // ---- What the planner reads ----------------------------------------------

  /** An attempt record with the parts of its manifest that planning reads. */
  datatype Held = Held(generation: nat, slot: Slot, state: ManifestState, version: nat, base: string)

  datatype Remote = Remote(live: bool, base: string)  // `live`: active or ready for review

  datatype Fact = Fact(
    present: bool, ownerGeneration: nat, epoch: nat, attempt: int, activeAttempt: Option<int>,
    authorized: bool, body: string, base: string, remotes: map<int, Remote>)

  /** `bodies` are the issue bodies of the batch; `runnable` is what the scheduler
      decided; `failing` are the attempts whose launch arguments cannot be built. */
  datatype Input = Input(
    epoch: nat, issueGenerations: map<nat, nat>, attemptGenerations: map<Slot, nat>, attempts: map<Slot, Held>,
    tombstoned: set<Slot>, pending: set<Slot>, facts: map<nat, Fact>, bodies: map<nat, string>,
    runnable: set<nat>, failing: set<Slot>)

  datatype Action = PrepareAttempt | StartAttempt | MonitorAttempt

  datatype Plan = Plan(slot: Slot, action: Action, base: string)

  datatype Outcome = Skip | Fail | Enter(plan: Plan)

  function GenerationOf(i: Input, slot: Slot): nat {
    if slot in i.attemptGenerations then i.attemptGenerations[slot] else 0
  }

  // ---- Attempt numbers -----------------------------------------------------

  predicate Unreserved(i: Input, slot: Slot) {
    GenerationOf(i, slot) == 0 && slot !in i.attempts && slot !in i.tombstoned
  }

  /** The least free number at or above the proposal; zero when there is none. */
  function FirstFree(i: Input, issue: nat, proposed: int): (n: nat)
    ensures n > 0 ==> proposed <= n <= MAX_INT && Unreserved(i, Slot(issue, n))
    ensures n > 0 ==> forall k: nat :: 0 < proposed <= k < n ==> !Unreserved(i, Slot(issue, k))
    ensures n == 0 ==> forall k: nat :: 0 < proposed <= k <= MAX_INT ==> !Unreserved(i, Slot(issue, k))
    decreases MAX_INT - proposed
  {
    if proposed <= 0 || proposed > MAX_INT then 0
    else if Unreserved(i, Slot(issue, proposed)) then proposed
    else FirstFree(i, issue, proposed + 1)
  }

  /** The increment wraps to a negative number, which ends the loop. */
  method FirstUnreservedAttempt(i: Input, issue: nat, proposal: int) returns (n: nat)
    requires proposal <= MAX_INT
    ensures n == FirstFree(i, issue, proposal)
  {
    var proposed := proposal;
    while proposed > 0
      invariant proposed <= MAX_INT
      invariant proposed > 0 ==> FirstFree(i, issue, proposal) == FirstFree(i, issue, proposed)
      invariant proposed <= 0 ==> FirstFree(i, issue, proposal) == 0
      decreases if proposed > 0 then MAX_INT - proposed + 1 else 0
    {
      var slot := Slot(issue, proposed);
      if GenerationOf(i, slot) == 0 && slot !in i.attempts && slot !in i.tombstoned {
        return proposed;
      }
      proposed := if proposed == MAX_INT then -MAX_INT - 1 else proposed + 1;
    }
    return 0;
  }

  /** The numbers from `low` up to but not including `low + count`. */
  function Numbers(low: int, count: nat): (r: set<int>)
    ensures forall k :: k in r <==> low <= k < low + count
    ensures |r| == count
  {
    if count == 0 then {} else Numbers(low, count - 1) + {low + count - 1}
  }

  function ReservedNumbers(i: Input, issue: nat): set<int> {
    (set k | k in i.attemptGenerations && k.issue == issue :: k.attempt as int)
    + (set k | k in i.attempts && k.issue == issue :: k.attempt as int)
    + (set k | k in i.tombstoned && k.issue == issue :: k.attempt as int)
  }

  lemma ReservedIsListed(i: Input, issue: nat, n: nat)
    requires !Unreserved(i, Slot(issue, n))
    ensures n as int in ReservedNumbers(i, issue)
  {
    var slot := Slot(issue, n);
    assert slot in i.attemptGenerations || slot in i.attempts || slot in i.tombstoned;
    assert slot.issue == issue && slot.attempt == n;
  }

  lemma SubsetIsSmaller(a: set<int>, b: set<int>)
    requires a <= b
    ensures |a| <= |b|
  {
    assert b == a + (b - a);
  }

  /** No more numbers are skipped than are reserved for the issue, so a number is
      found unless the proposal is within that distance of the largest. */
  lemma SearchIsShort(i: Input, issue: nat, proposed: int)
    requires 0 < proposed && proposed + |ReservedNumbers(i, issue)| <= MAX_INT
    ensures 0 < FirstFree(i, issue, proposed) <= proposed + |ReservedNumbers(i, issue)|
  {
    var n := FirstFree(i, issue, proposed);
    var bound := proposed + |ReservedNumbers(i, issue)|;
    if n == 0 || n > bound {
      var skipped := Numbers(proposed, bound + 1 - proposed);
      forall k | k in skipped ensures k in ReservedNumbers(i, issue) {
        ReservedIsListed(i, issue, k);
      }
      SubsetIsSmaller(skipped, ReservedNumbers(i, issue));
    }
  }

  // ---- The replacement being prepared --------------------------------------

  predicate Replaces(i: Input, key: Slot, issue: nat, proposed: int) {
    && key in i.attempts && i.attempts[key].slot.issue == issue && i.attempts[key].slot.attempt > proposed
    && i.attempts[key].state.Preparing? && i.attempts[key].generation == GenerationOf(i, key) && key !in i.tombstoned
  }

  function Replacements(i: Input, keys: set<Slot>, issue: nat, proposed: int): set<int> {
    set k | k in keys && Replaces(i, k, issue, proposed) :: i.attempts[k].slot.attempt as int
  }

  predicate IsSingleton(found: set<int>, n: nat) {
    found == {n as int}
  }

  /** None: two attempts are being prepared. Zero: there is none. */
  ghost function OnlyOne(found: set<int>): (r: Option<nat>)
    requires forall n :: n in found ==> n > 0
    ensures r == Some(0) <==> found == {}
    ensures forall n: nat :: n > 0 ==> (r == Some(n) <==> IsSingleton(found, n))
  {
    if found == {} then Some(0)
    else if exists n: nat :: IsSingleton(found, n) then
      var n: nat :| IsSingleton(found, n);
      Some(n)
    else None
  }

  ghost function Replacement(i: Input, issue: nat, proposed: int): Option<nat>
    requires proposed >= 0
  {
    OnlyOne(Replacements(i, i.attempts.Keys, issue, proposed))
  }

  /** In whatever order the records come, the answer is about all of them. */
  method CurrentPreparingReplacement(i: Input, issue: nat, proposed: int) returns (r: Option<nat>)
    requires proposed >= 0
    ensures r == Replacement(i, issue, proposed)
  {
    hide Replacements, Replaces;
    var replacement := 0;
    var left := i.attempts.Keys;
    NoReplacements(i, issue, proposed);
    assert i.attempts.Keys - left == {};
    while left != {}
      invariant left <= i.attempts.Keys
      invariant Replacements(i, i.attempts.Keys - left, issue, proposed) == if replacement == 0 then {} else {replacement as int}
      invariant replacement == 0 || replacement > proposed
      decreases |left|
    {
      var key :| key in left;
      ghost var seen := i.attempts.Keys - left;
      left := left - {key};
      assert i.attempts.Keys - left == seen + {key};
      OneMoreReplacement(i, seen, key, issue, proposed);
      if Replaces(i, key, issue, proposed) {
        var attempt := i.attempts[key].slot.attempt;
        if replacement != 0 && replacement != attempt {
          TwoReplacements(i, seen + {key}, issue, proposed, replacement, attempt);
          return None;
        }
        replacement := attempt;
      }
    }
    assert i.attempts.Keys - left == i.attempts.Keys;
    return Some(replacement);
  }

  lemma NoReplacements(i: Input, issue: nat, proposed: int)
    requires proposed >= 0
    ensures Replacements(i, {}, issue, proposed) == {}
    ensures forall n :: n in Replacements(i, i.attempts.Keys, issue, proposed) ==> n > 0
  {
  }

  lemma OneMoreReplacement(i: Input, seen: set<Slot>, key: Slot, issue: nat, proposed: int)
    requires key in i.attempts
    ensures Replacements(i, seen + {key}, issue, proposed)
         == Replacements(i, seen, issue, proposed) + if Replaces(i, key, issue, proposed) then {i.attempts[key].slot.attempt as int} else {}
    ensures Replaces(i, key, issue, proposed) ==> i.attempts[key].slot.attempt > proposed
  {
  }

  lemma TwoIsNotOne(found: set<int>, a: nat, b: nat)
    requires (forall n :: n in found ==> n > 0) && a != b && a as int in found && b as int in found
    ensures OnlyOne(found).None?
  {
    assert forall n: nat :: !IsSingleton(found, n);
  }

  lemma TwoReplacements(i: Input, seen: set<Slot>, issue: nat, proposed: int, a: nat, b: nat)
    requires proposed >= 0 && seen <= i.attempts.Keys && a != b
    requires a as int in Replacements(i, seen, issue, proposed) && b as int in Replacements(i, seen, issue, proposed)
    ensures Replacement(i, issue, proposed).None?
  {
    NoReplacements(i, issue, proposed);
    TwoIsNotOne(Replacements(i, i.attempts.Keys, issue, proposed), a, b);
  }

  // ---- The plan of one issue -----------------------------------------------

  predicate CurrentFact(i: Input, issue: nat) {
    && issue in i.facts && i.facts[issue].present && i.facts[issue].ownerGeneration != 0 && issue in i.issueGenerations
    && i.facts[issue].ownerGeneration == i.issueGenerations[issue] && i.facts[issue].epoch == i.epoch
  }

  predicate Plannable(i: Input, issue: nat) {
    CurrentFact(i, issue) && i.facts[issue].authorized && issue in i.bodies && i.bodies[issue] == i.facts[issue].body
  }

  predicate LiveRemote(f: Fact, attempt: int) {
    attempt in f.remotes && f.remotes[attempt].live
  }

  predicate OwnedLocally(i: Input, slot: Slot) {
    slot in i.attempts && i.attempts[slot].generation == GenerationOf(i, slot)
  }

  function Proposal(f: Fact): int {
    if f.activeAttempt.Some? then f.activeAttempt.value else f.attempt
  }

  /** The attempt a plan is about: the observed one if it is active or owned here,
      else the replacement under way, else a fresh number. */
  ghost function ChosenAttempt(i: Input, issue: nat): Option<nat>
    requires issue in i.facts && Proposal(i.facts[issue]) >= 1
  {
    var proposed := Proposal(i.facts[issue]);
    if LiveRemote(i.facts[issue], proposed) || OwnedLocally(i, Slot(issue, proposed)) then Some(proposed)
    else match Replacement(i, issue, proposed)
      case None => None
      case Some(r) => Some(if r > 0 then r else FirstFree(i, issue, proposed))
  }

  function PlanAttempt(i: Input, f: Fact, slot: Slot): Outcome {
    if slot in i.tombstoned || slot in i.pending then Skip
    else if slot !in i.attempts then
      if (slot.issue !in i.runnable && !LiveRemote(f, slot.attempt)) || GenerationOf(i, slot) != 0 then Skip
      else if slot in i.failing then Fail
      else Enter(Plan(slot, PrepareAttempt, if slot.attempt in f.remotes then f.remotes[slot.attempt].base else f.base))
    else
      var record := i.attempts[slot];
      if record.generation != GenerationOf(i, slot) || record.version != 2 then Skip
      else if record.state.Running? then Enter(Plan(slot, MonitorAttempt, record.base))
      else if record.state.Preparing? && LiveRemote(f, slot.attempt) && f.remotes[slot.attempt].base == record.base then
        if slot in i.failing then Fail else Enter(Plan(slot, StartAttempt, record.base))
      else Skip
  }

  ghost function PlanIssue(i: Input, issue: nat): Outcome {
    if !Plannable(i, issue) || Proposal(i.facts[issue]) < 1 then Skip
    else match ChosenAttempt(i, issue)
      case None => Fail
      case Some(n) => if n < 1 then Skip else PlanAttempt(i, i.facts[issue], Slot(issue, n))
  }

  method PlanOne(i: Input, issue: nat) returns (outcome: Outcome)
    requires issue in i.facts && Proposal(i.facts[issue]) <= MAX_INT
    ensures outcome == PlanIssue(i, issue)
  {
    var f := i.facts[issue];
    if !CurrentFact(i, issue) || !f.authorized {
      return Skip;
    }
    if issue !in i.bodies || i.bodies[issue] != f.body {
      return Skip;
    }
    var number := f.attempt;
    if f.activeAttempt.Some? {
      number := f.activeAttempt.value;
    }
    if number < 1 {
      return Skip;
    }
    if !LiveRemote(f, number) && !OwnedLocally(i, Slot(issue, number)) {
      var replacement := CurrentPreparingReplacement(i, issue, number);
      if replacement.None? {
        return Fail;
      }
      if replacement.value > 0 {
        number := replacement.value;
      } else {
        number := FirstUnreservedAttempt(i, issue, number);
      }
      if number < 1 {
        return Skip;
      }
    }
    return PlanAttempt(i, f, Slot(issue, number));
  }

  // ---- The plan of a cycle -------------------------------------------------

  /** Strictly ascending issues: sorted, and one entry for each issue at most. */
  predicate Ascending(plans: seq<Plan>) {
    forall a, b :: 0 <= a < b < |plans| ==> plans[a].slot.issue < plans[b].slot.issue
  }

  /** `p` put in its place among entries of other issues. */
  function Inserted(plans: seq<Plan>, p: Plan): (r: seq<Plan>)
    requires Ascending(plans) && forall q :: q in plans ==> q.slot.issue != p.slot.issue
    ensures Ascending(r) && forall q :: q in r <==> q == p || q in plans
  {
    if plans == [] then [p]
    else if p.slot.issue < plans[0].slot.issue then
      assert forall q :: q in plans ==> p.slot.issue < q.slot.issue;
      [p] + plans
    else
      var rest := Inserted(plans[1..], p);
      assert forall q :: q in rest ==> plans[0].slot.issue < q.slot.issue;
      [plans[0]] + rest
  }

  datatype Raw = Raw(issue: nat, body: string)

  /** The batch names an issue twice. */
  ghost predicate NamesTwice(raws: seq<Raw>) {
    exists a, b :: 0 <= a < b < |raws| && raws[a].issue == raws[b].issue
  }

  /** The bodies of the batch by issue. */
  ghost predicate BodiesOf(raws: seq<Raw>, bodies: map<nat, string>) {
    && (forall k :: 0 <= k < |raws| ==> raws[k].issue in bodies && bodies[raws[k].issue] == raws[k].body)
    && (forall issue :: issue in bodies ==> exists k :: 0 <= k < |raws| && raws[k].issue == issue)
  }

  method CollectBodies(raws: seq<Raw>) returns (bodies: Option<map<nat, string>>)
    ensures bodies.None? <==> NamesTwice(raws)
    ensures bodies.Some? ==> BodiesOf(raws, bodies.value)
  {
    var found: map<nat, string> := map[];
    for k := 0 to |raws|
      invariant !NamesTwice(raws[..k]) && BodiesOf(raws[..k], found)
    {
      if raws[k].issue in found {
        TwiceNamed(raws, k, found);
        return None;
      }
      ExtendsBodies(raws, k, found);
      found := found[raws[k].issue := raws[k].body];
    }
    assert raws[..|raws|] == raws;
    return Some(found);
  }

  lemma TwiceNamed(raws: seq<Raw>, k: nat, found: map<nat, string>)
    requires k < |raws| && BodiesOf(raws[..k], found) && raws[k].issue in found
    ensures NamesTwice(raws)
  {
    var before, issue := raws[..k], raws[k].issue;
    assert exists i :: 0 <= i < |before| && before[i].issue == issue;
    var i :| 0 <= i < |before| && before[i].issue == issue;
    assert raws[i].issue == raws[k].issue;
  }

  lemma ExtendsBodies(raws: seq<Raw>, k: nat, found: map<nat, string>)
    requires k < |raws| && !NamesTwice(raws[..k]) && raws[k].issue !in found && BodiesOf(raws[..k], found)
    ensures !NamesTwice(raws[..k + 1]) && BodiesOf(raws[..k + 1], found[raws[k].issue := raws[k].body])
  {
    var before, after, now := raws[..k], raws[..k + 1], found[raws[k].issue := raws[k].body];
    assert after == before + [raws[k]];
    forall i | 0 <= i < k ensures after[i] == before[i] && before[i].issue in found && before[i].issue != raws[k].issue {
    }
    forall issue | issue in now ensures exists i :: 0 <= i < |after| && after[i].issue == issue {
      if issue in found {
        var i :| 0 <= i < |before| && before[i].issue == issue;
        assert after[i].issue == issue;
      } else {
        assert after[k].issue == issue;
      }
    }
  }

  /** The whole planner: it first refuses a batch that names an issue twice. */
  method PlanRuntimeLifecycle(i: Input, raws: seq<Raw>) returns (plans: Option<seq<Plan>>)
    requires forall issue :: issue in i.facts ==> Proposal(i.facts[issue]) <= MAX_INT
    ensures NamesTwice(raws) ==> plans.None?
    ensures forall bodies :: !NamesTwice(raws) && BodiesOf(raws, bodies) ==>
      var known := i.(bodies := bodies);
      if exists issue :: issue in i.facts && PlanIssue(known, issue).Fail? then plans.None?
      else plans.Some? && Ascending(plans.value)
           && forall p :: p in plans.value <==> p.slot.issue in i.facts && PlanIssue(known, p.slot.issue) == Enter(p)
  {
    var bodies := CollectBodies(raws);
    if bodies.None? {
      return None;
    }
    plans := PlanIssues(i.(bodies := bodies.value));
    forall other | BodiesOf(raws, other) ensures other == bodies.value {
      SameBodies(raws, other, bodies.value);
    }
  }

  lemma SameBodies(raws: seq<Raw>, a: map<nat, string>, b: map<nat, string>)
    requires BodiesOf(raws, a) && BodiesOf(raws, b)
    ensures a == b
  {
    assert a.Keys == b.Keys;
  }

  /** Any order of the observations gives the plans of all issues, ascending, or
      fails if one of them fails. */
  method PlanIssues(i: Input) returns (plans: Option<seq<Plan>>)
    requires forall issue :: issue in i.facts ==> Proposal(i.facts[issue]) <= MAX_INT
    ensures plans.None? <==> exists issue :: issue in i.facts && PlanIssue(i, issue).Fail?
    ensures plans.Some? ==> Ascending(plans.value)
    ensures plans.Some? ==> forall p :: p in plans.value <==> p.slot.issue in i.facts && PlanIssue(i, p.slot.issue) == Enter(p)
  {
    var entries: seq<Plan> := [];
    var left := i.facts.Keys;
    while left != {}
      invariant left <= i.facts.Keys && Ascending(entries)
      invariant forall issue :: issue in i.facts && issue !in left ==> !PlanIssue(i, issue).Fail?
      invariant forall p :: p in entries <==> p.slot.issue in i.facts && p.slot.issue !in left && PlanIssue(i, p.slot.issue) == Enter(p)
      decreases |left|
    {
      var issue :| issue in left;
      var outcome := PlanOne(i, issue);
      EntryNamesItsIssue(i, issue);
      left := left - {issue};
      match outcome {
        case Fail => return None;
        case Skip =>
        case Enter(p) => entries := Inserted(entries, p);
      }
    }
    return Some(entries);
  }

  lemma EntryNamesItsIssue(i: Input, issue: nat)
    ensures PlanIssue(i, issue).Enter? ==> PlanIssue(i, issue).plan.slot.issue == issue
  {
  }

  /** The entries alone determine an ascending plan, so the order in which they
      were found does not show. */
  lemma {:induction false} AscendingIsUnique(a: seq<Plan>, b: seq<Plan>)
    requires Ascending(a) && Ascending(b) && forall p :: p in a <==> p in b
    ensures a == b
  {
    if a != [] && b != [] {
      FirstIsLeast(a, b);
      FirstIsLeast(b, a);
      assert a[0] == b[0];
      forall p ensures p in a[1..] <==> p in b[1..] {
        if p in a[1..] {
          assert p in b && p != b[0];
        }
        if p in b[1..] {
          assert p in a && p != a[0];
        }
      }
      AscendingIsUnique(a[1..], b[1..]);
      assert a == [a[0]] + a[1..] && b == [b[0]] + b[1..];
    } else {
      EmptyTogether(a, b);
    }
  }

  lemma EmptyTogether(a: seq<Plan>, b: seq<Plan>)
    requires forall p :: p in a <==> p in b
    ensures a == [] <==> b == []
  {
    assert a != [] ==> a[0] in b;
    assert b != [] ==> b[0] in a;
  }

  lemma FirstIsLeast(a: seq<Plan>, b: seq<Plan>)
    requires Ascending(a) && Ascending(b) && a != [] && b != [] && forall p :: p in a <==> p in b
    ensures a[0].slot.issue <= b[0].slot.issue && (a[0].slot.issue == b[0].slot.issue ==> a[0] == b[0])
  {
    var k :| 0 <= k < |a| && a[k] == b[0] by {
      assert b[0] in a;
    }
  }

  /** An attempt is prepared only under a number that nothing has taken, and an
      attempt is started or watched only as the owner holds it. */
  lemma PlansRespectReservations(i: Input, issue: nat)
    requires PlanIssue(i, issue).Enter?
    ensures var p := PlanIssue(i, issue).plan;
      && p.slot.issue == issue && p.slot !in i.pending && p.slot !in i.tombstoned && 0 < p.slot.attempt
      && (p.action.PrepareAttempt? <==> Unreserved(i, p.slot))
      && (!p.action.PrepareAttempt? ==> OwnedLocally(i, p.slot))
      && Plannable(i, issue)
  {
  }

  lemma ReplacementIsHeld(i: Input, issue: nat, proposed: int, n: nat)
    requires proposed >= 0 && Replacement(i, issue, proposed) == Some(n) && n > 0
    requires forall key :: key in i.attempts ==> i.attempts[key].slot == key
    ensures Slot(issue, n) in i.attempts
  {
    assert n as int in Replacements(i, i.attempts.Keys, issue, proposed);
  }

  /** A fresh number is the least that is free: only taken ones are passed over. */
  lemma FreshNumberIsLeast(i: Input, issue: nat, k: nat)
    requires PlanIssue(i, issue).Enter? && PlanIssue(i, issue).plan.action.PrepareAttempt?
    requires forall key :: key in i.attempts ==> i.attempts[key].slot == key
    requires Proposal(i.facts[issue]) <= k < PlanIssue(i, issue).plan.slot.attempt
    ensures !Unreserved(i, Slot(issue, k))
  {
    var proposed := Proposal(i.facts[issue]);
    var r := Replacement(i, issue, proposed);
    if r.Some? && r.value > 0 {
      ReplacementIsHeld(i, issue, proposed, r.value);
    }
  }
}
