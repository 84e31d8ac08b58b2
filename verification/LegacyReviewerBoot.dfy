// The two-boot release of legacy reviewer quarantines. A quarantine binds the
// evidence of its issue to a boot; a later boot lifts it if the evidence is the
// same. A digest is modelled by what it digests.
module LegacyReviewerBoot {
  import opened OwnerState
  import BootIdentity

  type Boot = BootIdentity.Boot

  // ---- The historical records ----------------------------------------------

  /** The reviewer identity of a manifest; `rest` is what else the digest binds. */
  datatype Reviewed = Reviewed(issue: nat, attempt: nat, runId: string, rest: string)

  datatype ReviewManifest = ReviewManifest(identity: Reviewed, reviewState: string, cleaned: bool)

  datatype ReviewAttempt = ReviewAttempt(generation: nat, manifest: ReviewManifest)

  datatype ReviewTombstone = ReviewTombstone(issue: nat, attempt: nat, generation: nat, invalidated: nat, manifest: Option<ReviewManifest>)

  /** `reviewer`: the run of a reviewer effect. `superseded`: the run, profile and
      confinement of the reviewer that a Stop or Cleanup superseded. */
  datatype ReviewEffect = ReviewEffect(
    id: string, issue: nat, reviewer: Option<string>, gate: bool, confinement: nat,
    superseded: Option<(string, string, nat)>, rest: string)

  datatype ReviewProof = ReviewProof(issue: nat, neverRan: bool, legacy: bool, runId: string, confinement: nat, rest: string)

  datatype Digest =
    | ManifestDigest(generation: nat, reviewed: Reviewed)
    | TombstoneDigest(issue: nat, attempt: nat, generation: nat, invalidated: nat, manifest: Option<Reviewed>)
    | EffectDigest(effect: ReviewEffect)
    | ProofDigest(proof: ReviewProof)

  function DigestIssue(d: Digest): nat {
    match d
    case ManifestDigest(_, m) => m.issue
    case TombstoneDigest(issue, _, _, _, _) => issue
    case EffectDigest(e) => e.issue
    case ProofDigest(p) => p.issue
  }

  datatype BoundRecords = BoundRecords(diagnostic: string, records: set<Digest>)
  datatype Baseline = Baseline(boot: Boot, evidence: BoundRecords)
  datatype Release = Release(before: Boot, after: Boot)

  datatype Ledger = Ledger(
    attempts: map<Slot, ReviewAttempt>, tombstones: map<Slot, ReviewTombstone>,
    effects: map<string, ReviewEffect>, proofs: map<string, ReviewProof>,
    quarantines: map<nat, string>, baselines: map<nat, Baseline>, releases: map<Digest, Release>, unavailable: bool)

  predicate Unidentified(m: ReviewManifest) {
    m.reviewState != "" && !ValidDigest(m.identity.runId) && !m.cleaned
  }

  predicate LegacyEffect(e: ReviewEffect) {
    || (e.reviewer.Some? && !ValidDigest(e.reviewer.value))
    || (e.gate && e.confinement != REVIEWER_CONFINEMENT_VERSION)
    || (e.superseded.Some? && (!ValidDigest(e.superseded.value.0) || !ValidDigest(e.superseded.value.1) || e.superseded.value.2 != REVIEWER_CONFINEMENT_VERSION))
  }

  predicate LegacyProof(p: ReviewProof) {
    !p.neverRan && (p.legacy || !ValidDigest(p.runId) || p.confinement != REVIEWER_CONFINEMENT_VERSION)
  }

  function AttemptDigest(a: ReviewAttempt): Digest {
    ManifestDigest(a.generation, a.manifest.identity)
  }

  function DigestOfTombstone(t: ReviewTombstone): Digest {
    TombstoneDigest(t.issue, t.attempt, t.generation, t.invalidated, if t.manifest.Some? then Some(t.manifest.value.identity) else None)
  }

  predicate AttemptCounts(a: ReviewAttempt, issue: nat, historical: bool) {
    a.manifest.identity.issue == issue && (historical ==> Unidentified(a.manifest))
  }

  /** The manifest a tombstone kept; it names the tombstone's own attempt. */
  predicate KeptCounts(t: ReviewTombstone, issue: nat, historical: bool) {
    t.issue == issue && t.manifest.Some? && (historical ==> Unidentified(t.manifest.value))
  }

  predicate EffectCounts(e: ReviewEffect, issue: nat, historical: bool) {
    e.issue == issue && (historical ==> LegacyEffect(e))
  }

  predicate ProofCounts(p: ReviewProof, issue: nat, historical: bool) {
    p.issue == issue && (historical ==> LegacyProof(p))
  }

  function AttemptEvidence(attempts: map<Slot, ReviewAttempt>, keys: set<Slot>, issue: nat, historical: bool): set<Digest> {
    set k | k in keys && k in attempts && AttemptCounts(attempts[k], issue, historical) :: AttemptDigest(attempts[k])
  }

  function TombstoneEvidence(tombstones: map<Slot, ReviewTombstone>, keys: set<Slot>, issue: nat, historical: bool): set<Digest> {
    (set k | k in keys && k in tombstones && tombstones[k].issue == issue :: DigestOfTombstone(tombstones[k]))
    + (set k | k in keys && k in tombstones && KeptCounts(tombstones[k], issue, historical) :: KeptDigest(tombstones[k]))
  }

  function KeptDigest(t: ReviewTombstone): Digest
    requires t.manifest.Some?
  {
    ManifestDigest(t.invalidated, t.manifest.value.identity)
  }

  function EffectEvidence(effects: map<string, ReviewEffect>, keys: set<string>, issue: nat, historical: bool): set<Digest> {
    set k | k in keys && k in effects && EffectCounts(effects[k], issue, historical) :: EffectDigest(effects[k])
  }

  function ProofEvidence(proofs: map<string, ReviewProof>, keys: set<string>, issue: nat, historical: bool): set<Digest> {
    set k | k in keys && k in proofs && ProofCounts(proofs[k], issue, historical) :: ProofDigest(proofs[k])
  }

  /** The evidence of an issue: every record that names it, or only those that
      predate the run identities. */
  function EvidenceOf(l: Ledger, issue: nat, historical: bool): set<Digest> {
    AttemptEvidence(l.attempts, l.attempts.Keys, issue, historical) + TombstoneEvidence(l.tombstones, l.tombstones.Keys, issue, historical)
    + EffectEvidence(l.effects, l.effects.Keys, issue, historical) + ProofEvidence(l.proofs, l.proofs.Keys, issue, historical)
  }

  ghost predicate WellFormed(l: Ledger) {
    forall k :: k in l.tombstones && l.tombstones[k].manifest.Some? ==> l.tombstones[k].manifest.value.identity.issue == l.tombstones[k].issue
  }

  /** Evidence names its issue, and what is historical is part of the whole. */
  lemma EvidenceNamesItsIssue(l: Ledger, issue: nat, historical: bool)
    requires WellFormed(l)
    ensures forall d :: d in EvidenceOf(l, issue, historical) ==> DigestIssue(d) == issue
    ensures EvidenceOf(l, issue, true) <= EvidenceOf(l, issue, false)
  {
  }

  // ---- Reconciling with a boot ---------------------------------------------

  function BoundEvidence(l: Ledger, issue: nat): BoundRecords
    requires issue in l.quarantines
  {
    BoundRecords(l.quarantines[issue], EvidenceOf(l, issue, false))
  }

  /** A later boot of the same source finds the evidence it was bound to. */
  predicate Lifts(l: Ledger, issue: nat, boot: Boot) {
    && issue in l.quarantines && issue in l.baselines
    && l.baselines[issue].evidence == BoundEvidence(l, issue) && BootIdentity.LaterThan(boot, l.baselines[issue].boot)
  }

  function NewBaseline(l: Ledger, issue: nat, boot: Boot): Baseline
    requires issue in l.quarantines
  {
    if BootIdentity.Valid(boot) then Baseline(boot, BoundEvidence(l, issue))
    else if issue in l.baselines && l.baselines[issue].evidence == BoundEvidence(l, issue) then l.baselines[issue]
    else Baseline(BootIdentity.NO_BOOT, BoundEvidence(l, issue))
  }

  /** The digests that lifting the issues in `done` certifies. */
  function Certified(l: Ledger, boot: Boot, done: set<nat>): set<Digest> {
    set issue, d | issue in done && Lifts(l, issue, boot) && d in EvidenceOf(l, issue, true) :: d
  }

  lemma CertifiedWereLifted(l: Ledger, boot: Boot, done: set<nat>)
    requires WellFormed(l)
    ensures forall d :: d in Certified(l, boot, done) <==>
      DigestIssue(d) in done && Lifts(l, DigestIssue(d), boot) && d in EvidenceOf(l, DigestIssue(d), true)
  {
  }

  function Certificates(l: Ledger, boot: Boot, done: set<nat>): map<Digest, Release>
    requires WellFormed(l)
  {
    CertifiedWereLifted(l, boot, done);
    map d | d in Certified(l, boot, done) :: Release(l.baselines[DigestIssue(d)].boot, boot)
  }

  /** One certificate for all of these records. */
  function Certify(records: set<Digest>, before: Boot, after: Boot): map<Digest, Release> {
    map d | d in records :: Release(before, after)
  }

  function VisitedQuarantines(l: Ledger, boot: Boot, done: set<nat>): map<nat, string> {
    map k | k in l.quarantines && !(k in done && Lifts(l, k, boot)) :: l.quarantines[k]
  }

  function VisitedBaselines(l: Ledger, boot: Boot, done: set<nat>): map<nat, Baseline> {
    map k | k in l.baselines.Keys + (done * l.quarantines.Keys) && !(k in done && Lifts(l, k, boot)) ::
      if k in done && k in l.quarantines then NewBaseline(l, k, boot) else l.baselines[k]
  }

  /** The ledger after the issues in `done` have been visited. */
  function Visited(l: Ledger, boot: Boot, done: set<nat>): Ledger
    requires WellFormed(l)
  {
    l.(unavailable := !BootIdentity.Valid(boot), quarantines := VisitedQuarantines(l, boot, done),
       baselines := VisitedBaselines(l, boot, done), releases := l.releases + Certificates(l, boot, done))
  }

  function Reconciled(l: Ledger, boot: Boot): Ledger
    requires WellFormed(l)
  {
    Visited(l, boot, l.quarantines.Keys)
  }

  function Admitted(l: Ledger, issue: nat, diagnostic: string): Ledger {
    l.(quarantines := l.quarantines[issue := diagnostic], baselines := l.baselines - {issue})
  }

  predicate Released(l: Ledger, d: Digest) {
    d in l.releases && BootIdentity.LaterThan(l.releases[d].after, l.releases[d].before)
  }

  /** A Stop keeps the manifest and advances the attempt's generation: only the
      certificate of the same manifest is carried over. */
  function Carried(l: Ledger, reviewed: Reviewed, from: nat, to: nat): Ledger {
    if Released(l, ManifestDigest(from, reviewed))
    then l.(releases := l.releases[ManifestDigest(to, reviewed) := l.releases[ManifestDigest(from, reviewed)]])
    else l
  }

  predicate ValidProvenance(l: Ledger) {
    && (forall k :: k in l.baselines ==>
          k in l.quarantines && l.quarantines[k] != "" && (l.baselines[k].boot == BootIdentity.NO_BOOT || BootIdentity.Valid(l.baselines[k].boot)))
    && (forall d :: d in l.releases ==> BootIdentity.LaterThan(l.releases[d].after, l.releases[d].before))
  }

  class LegacyQuarantines {
    var attempts: map<Slot, ReviewAttempt>
    var tombstones: map<Slot, ReviewTombstone>
    var effects: map<string, ReviewEffect>
    var proofs: map<string, ReviewProof>
    var quarantines: map<nat, string>
    var baselines: map<nat, Baseline>
    var releases: map<Digest, Release>
    var unavailable: bool

    ghost function View(): Ledger
      reads this
    {
      Ledger(attempts, tombstones, effects, proofs, quarantines, baselines, releases, unavailable)
    }

    constructor (l: Ledger)
      ensures View() == l
    {
      attempts, tombstones, effects, proofs := l.attempts, l.tombstones, l.effects, l.proofs;
      quarantines, baselines, releases, unavailable := l.quarantines, l.baselines, l.releases, l.unavailable;
    }

    method Admit(issue: nat, diagnostic: string)
      modifies this`quarantines, this`baselines
      ensures View() == Admitted(old(View()), issue, diagnostic)
    {
      quarantines := quarantines[issue := diagnostic];
      baselines := baselines - {issue};
    }

    method CollectAttempts(issue: nat, historical: bool) returns (records: set<Digest>)
      ensures records == AttemptEvidence(attempts, attempts.Keys, issue, historical)
    {
      records := {};
      var left := attempts.Keys;
      while left != {}
        invariant left <= attempts.Keys
        invariant records == AttemptEvidence(attempts, attempts.Keys - left, issue, historical)
        decreases |left|
      {
        var k :| k in left;
        if AttemptCounts(attempts[k], issue, historical) {
          records := records + {AttemptDigest(attempts[k])};
        }
        left := left - {k};
      }
      assert attempts.Keys - left == attempts.Keys;
    }

    method CollectTombstones(issue: nat, historical: bool) returns (records: set<Digest>)
      ensures records == TombstoneEvidence(tombstones, tombstones.Keys, issue, historical)
    {
      records := {};
      var left := tombstones.Keys;
      while left != {}
        invariant left <= tombstones.Keys
        invariant records == TombstoneEvidence(tombstones, tombstones.Keys - left, issue, historical)
        decreases |left|
      {
        var k :| k in left;
        if tombstones[k].issue == issue {
          records := records + {DigestOfTombstone(tombstones[k])};
          if tombstones[k].manifest.Some? && (!historical || Unidentified(tombstones[k].manifest.value)) {
            records := records + {KeptDigest(tombstones[k])};
          }
        }
        left := left - {k};
      }
      assert tombstones.Keys - left == tombstones.Keys;
    }

    method CollectEffects(issue: nat, historical: bool) returns (records: set<Digest>)
      ensures records == EffectEvidence(effects, effects.Keys, issue, historical)
    {
      records := {};
      var left := effects.Keys;
      while left != {}
        invariant left <= effects.Keys
        invariant records == EffectEvidence(effects, effects.Keys - left, issue, historical)
        decreases |left|
      {
        var k :| k in left;
        if EffectCounts(effects[k], issue, historical) {
          records := records + {EffectDigest(effects[k])};
        }
        left := left - {k};
      }
      assert effects.Keys - left == effects.Keys;
    }

    method CollectProofs(issue: nat, historical: bool) returns (records: set<Digest>)
      ensures records == ProofEvidence(proofs, proofs.Keys, issue, historical)
    {
      records := {};
      var left := proofs.Keys;
      while left != {}
        invariant left <= proofs.Keys
        invariant records == ProofEvidence(proofs, proofs.Keys - left, issue, historical)
        decreases |left|
      {
        var k :| k in left;
        if ProofCounts(proofs[k], issue, historical) {
          records := records + {ProofDigest(proofs[k])};
        }
        left := left - {k};
      }
      assert proofs.Keys - left == proofs.Keys;
    }

    /** Walks the four maps, each in any order. */
    method CollectEvidence(issue: nat, historical: bool) returns (records: set<Digest>)
      ensures records == EvidenceOf(View(), issue, historical)
    {
      hide AttemptEvidence, TombstoneEvidence, EffectEvidence, ProofEvidence;
      var a := CollectAttempts(issue, historical);
      var b := CollectTombstones(issue, historical);
      var c := CollectEffects(issue, historical);
      var d := CollectProofs(issue, historical);
      records := a + b + c + d;
    }

    /** What one round of the loop does to its issue. */
    method Visit(key: nat, boot: Boot, valid: bool)
      requires key in quarantines && valid == BootIdentity.Valid(boot)
      modifies this`quarantines, this`baselines, this`releases
      ensures AfterVisit(old(View()), View(), boot, key)
    {
      hide EvidenceOf, BootIdentity.Valid;
      var diagnostic := quarantines[key];
      var records := CollectEvidence(key, false);
      var evidence := BoundRecords(diagnostic, records);
      if !valid {
        if key !in baselines || baselines[key].evidence != evidence {
          baselines := baselines[key := Baseline(BootIdentity.NO_BOOT, evidence)];
        } else {
          assert baselines[key := baselines[key]] == baselines;
        }
      } else if key in baselines && baselines[key].evidence == evidence && BootIdentity.LaterThan(boot, baselines[key].boot) {
        var historical := CollectEvidence(key, true);
        var base := baselines[key];
        releases := releases + Certify(historical, base.boot, boot);
        quarantines := quarantines - {key};
        baselines := baselines - {key};
      } else {
        baselines := baselines[key := Baseline(boot, evidence)];
      }
    }

    /** Mutates the maps it iterates over; every order gives the same ledger. */
    method Reconcile(boot: Boot)
      requires WellFormed(View())
      modifies this
      ensures View() == Reconciled(old(View()), boot)
    {
      hide Visited, WellFormed, BootIdentity.Valid, AfterVisit;
      ghost var before := View();
      var valid := BootIdentity.IsValid(boot);
      unavailable := !valid;
      var left := quarantines.Keys;
      ghost var done: set<nat> := {};
      NothingVisited(before, boot);
      while left != {}
        invariant done + left == before.quarantines.Keys && done !! left
        invariant View() == Visited(before, boot, done)
        decreases |left|
      {
        var key :| key in left;
        left := left - {key};
        KeyIsLeft(before, boot, done, key);
        ghost var seen := View();
        Visit(key, boot, valid);
        VisitCarries(before, seen, View(), boot, done, key);
        done := done + {key};
      }
      assert done == before.quarantines.Keys;
    }
  }

  /** One round lifts the issue or binds it anew, as the ledger then stands. */
  ghost predicate AfterVisit(l: Ledger, next: Ledger, boot: Boot, key: nat)
    requires key in l.quarantines
  {
    next == if Lifts(l, key, boot)
      then l.(quarantines := l.quarantines - {key}, baselines := l.baselines - {key},
              releases := l.releases + Certify(EvidenceOf(l, key, true), l.baselines[key].boot, boot))
      else l.(baselines := l.baselines[key := NewBaseline(l, key, boot)])
  }

  lemma KeyIsLeft(l: Ledger, boot: Boot, done: set<nat>, key: nat)
    requires WellFormed(l) && key in l.quarantines && key !in done
    ensures key in Visited(l, boot, done).quarantines
  {
  }

  /** A round on the ledger so far is a round on the ledger at the start. */
  lemma VisitCarries(l: Ledger, seen: Ledger, next: Ledger, boot: Boot, done: set<nat>, key: nat)
    requires WellFormed(l) && key in l.quarantines && key !in done
    requires seen == Visited(l, boot, done) && key in seen.quarantines && AfterVisit(seen, next, boot, key)
    ensures next == Visited(l, boot, done + {key})
  {
    hide EvidenceOf, VisitedQuarantines, VisitedBaselines, Certificates, WellFormed, Lifts, NewBaseline, Certify;
    OneMoreQuarantine(l, boot, done, key);
    OneMoreBaseline(l, boot, done, key);
    OneMoreCertified(l, boot, done, key);
    SameVisit(l, seen, key, boot);
  }

  /** A round of the loop sees what the ledger held at the start. */
  lemma SameVisit(l: Ledger, m: Ledger, key: nat, boot: Boot)
    requires m.attempts == l.attempts && m.tombstones == l.tombstones && m.effects == l.effects && m.proofs == l.proofs
    requires key in l.quarantines && key in m.quarantines && m.quarantines[key] == l.quarantines[key]
    requires (key in m.baselines <==> key in l.baselines) && (key in l.baselines ==> m.baselines[key] == l.baselines[key])
    ensures Lifts(m, key, boot) == Lifts(l, key, boot) && NewBaseline(m, key, boot) == NewBaseline(l, key, boot)
    ensures EvidenceOf(m, key, true) == EvidenceOf(l, key, true)
    ensures Lifts(l, key, boot) ==> key in l.baselines && m.baselines[key].boot == l.baselines[key].boot
  {
    hide EvidenceOf;
    SameEvidence(l, m, key);
  }

  lemma NothingVisited(l: Ledger, boot: Boot)
    requires WellFormed(l)
    ensures Visited(l, boot, {}) == l.(unavailable := !BootIdentity.Valid(boot))
  {
    hide Lifts, EvidenceOf, NewBaseline;
    assert Certificates(l, boot, {}) == map[] by {
      CertifiedWereLifted(l, boot, {});
    }
    assert VisitedQuarantines(l, boot, {}) == l.quarantines;
    assert VisitedBaselines(l, boot, {}) == l.baselines;
  }

  lemma SameEvidence(l: Ledger, m: Ledger, issue: nat)
    requires m.attempts == l.attempts && m.tombstones == l.tombstones && m.effects == l.effects && m.proofs == l.proofs
    ensures EvidenceOf(m, issue, true) == EvidenceOf(l, issue, true) && EvidenceOf(m, issue, false) == EvidenceOf(l, issue, false)
  {
  }

  // ---- What visiting one more issue does to the three maps -----------------

  lemma OneMoreQuarantine(l: Ledger, boot: Boot, done: set<nat>, key: nat)
    requires key in l.quarantines && key !in done
    ensures var before, after := VisitedQuarantines(l, boot, done), VisitedQuarantines(l, boot, done + {key});
      && key in before && before[key] == l.quarantines[key]
      && after == if Lifts(l, key, boot) then before - {key} else before
  {
    hide Lifts;
  }

  lemma OneMoreBaseline(l: Ledger, boot: Boot, done: set<nat>, key: nat)
    requires key in l.quarantines && key !in done
    ensures var before, after := VisitedBaselines(l, boot, done), VisitedBaselines(l, boot, done + {key});
      && (key in before <==> key in l.baselines) && (key in l.baselines ==> before[key] == l.baselines[key])
      && after == if Lifts(l, key, boot) then before - {key} else before[key := NewBaseline(l, key, boot)]
  {
    hide Lifts, NewBaseline;
  }

  lemma OneMoreCertified(l: Ledger, boot: Boot, done: set<nat>, key: nat)
    requires WellFormed(l) && key !in done
    ensures var before, after := l.releases + Certificates(l, boot, done), l.releases + Certificates(l, boot, done + {key});
      after == if Lifts(l, key, boot) then before + Certify(EvidenceOf(l, key, true), l.baselines[key].boot, boot) else before
  {
    hide Lifts, EvidenceOf, Certified;
    LiftedHaveBaselines(l, boot);
    CertifiedWereLifted(l, boot, done);
    CertifiedWereLifted(l, boot, done + {key});
    EvidenceNamesItsIssue(l, key, true);
  }

  lemma LiftedHaveBaselines(l: Ledger, boot: Boot)
    ensures forall k :: Lifts(l, k, boot) ==> k in l.baselines
  {
  }

  // ---- One reconciliation --------------------------------------------------

  /** No quarantine is left to lift, and each is bound as this boot binds it. */
  ghost predicate Settled(l: Ledger, boot: Boot) {
    && l.unavailable == !BootIdentity.Valid(boot)
    && forall k :: k in l.quarantines ==> !Lifts(l, k, boot) && k in l.baselines && NewBaseline(l, k, boot) == l.baselines[k]
  }

  lemma ReconcilingSettles(l: Ledger, boot: Boot)
    requires WellFormed(l)
    ensures Settled(Reconciled(l, boot), boot)
  {
    hide EvidenceOf, Certificates, BootIdentity.Valid;
    var once := Reconciled(l, boot);
    forall k | k in once.quarantines ensures !Lifts(once, k, boot) && k in once.baselines && NewBaseline(once, k, boot) == once.baselines[k] {
      SameEvidence(l, once, k);
      BootIdentity.RebootIsSymmetricAndIrreflexive(boot, boot);
    }
  }

  lemma SettledStays(l: Ledger, boot: Boot)
    requires WellFormed(l) && Settled(l, boot)
    ensures Reconciled(l, boot) == l
  {
    hide EvidenceOf, Lifts, NewBaseline, WellFormed;
    CertifiedWereLifted(l, boot, l.quarantines.Keys);
    assert Certified(l, boot, l.quarantines.Keys) == {};
    assert VisitedQuarantines(l, boot, l.quarantines.Keys) == l.quarantines;
    assert VisitedBaselines(l, boot, l.quarantines.Keys) == l.baselines;
  }

  /** Reconciling twice with one boot is reconciling once. */
  lemma ReconcileIsIdempotent(l: Ledger, boot: Boot)
    requires WellFormed(l)
    ensures WellFormed(Reconciled(l, boot)) && Reconciled(Reconciled(l, boot), boot) == Reconciled(l, boot)
  {
    hide VisitedQuarantines, VisitedBaselines, Certificates, Settled;
    ReconcilingSettles(l, boot);
    SettledStays(Reconciled(l, boot), boot);
  }

  /** Reconciling keeps the provenance valid exactly when no issue that stays
      quarantined has an empty diagnostic: each of them gets a baseline. */
  lemma ReconcileKeepsProvenanceIff(l: Ledger, boot: Boot)
    requires WellFormed(l) && ValidProvenance(l)
    ensures ValidProvenance(Reconciled(l, boot)) <==> forall k :: k in l.quarantines && !Lifts(l, k, boot) ==> l.quarantines[k] != ""
  {
    hide EvidenceOf, BootIdentity.Valid;
    var after := Reconciled(l, boot);
    CertifiedWereLifted(l, boot, l.quarantines.Keys);
    forall k | k in after.baselines ensures k in l.quarantines && (after.baselines[k].boot == BootIdentity.NO_BOOT || BootIdentity.Valid(after.baselines[k].boot)) {
    }
    if ValidProvenance(after) {
      forall k | k in l.quarantines && !Lifts(l, k, boot) ensures l.quarantines[k] != "" {
        assert k in after.baselines;
      }
    }
  }

  // ---- Whole runs ----------------------------------------------------------

  datatype Action =
    | Admit(issue: nat, diagnostic: string)
    | Reconcile(boot: Boot)
    | Carry(reviewed: Reviewed, from: nat, to: nat)
    | Rewrite(attempts: map<Slot, ReviewAttempt>, tombstones: map<Slot, ReviewTombstone>, effects: map<string, ReviewEffect>, proofs: map<string, ReviewProof>)

  /** Between reconciliations the records may change in any way. A Stop carries
      the release of a manifest to the generation that it opens. */
  ghost predicate Moves(l: Ledger, a: Action, next: Ledger) {
    match a
    case Admit(issue, diagnostic) => next == Admitted(l, issue, diagnostic)
    case Reconcile(boot) => WellFormed(l) && next == Reconciled(l, boot)
    case Carry(reviewed, from, to) => from < to && next == Carried(l, reviewed, from, to)
    case Rewrite(attempts, tombstones, effects, proofs) =>
      next == l.(attempts := attempts, tombstones := tombstones, effects := effects, proofs := proofs)
  }

  ghost predicate IsTrace(ls: seq<Ledger>, actions: seq<Action>) {
    && |ls| == |actions| + 1 && ls[0].baselines == map[] && ls[0].releases == map[]
    && forall i :: 0 <= i < |actions| ==> Moves(ls[i], actions[i], ls[i + 1])
  }

  /** The reconciliation at `i` bound this issue to a boot and its evidence. */
  ghost predicate BoundAt(ls: seq<Ledger>, actions: seq<Action>, i: nat, issue: nat, baseline: Baseline) {
    && i < |actions| < |ls| && actions[i].Reconcile? && BootIdentity.Valid(actions[i].boot) && actions[i].boot == baseline.boot
    && issue in ls[i].quarantines && BoundEvidence(ls[i], issue) == baseline.evidence
  }

  predicate AdmitsBetween(actions: seq<Action>, i: nat, n: nat, issue: nat)
    requires i <= n <= |actions|
  {
    exists k :: i < k < n && actions[k].Admit? && actions[k].issue == issue
  }

  /** A baseline with a boot was bound by an earlier reconciliation, and nothing
      was admitted for its issue since. */
  lemma {:induction false} BaselineWasBound(ls: seq<Ledger>, actions: seq<Action>, n: nat, issue: nat) returns (i: nat)
    requires IsTrace(ls, actions) && n < |ls| && issue in ls[n].baselines && BootIdentity.Valid(ls[n].baselines[issue].boot)
    ensures i < n && BoundAt(ls, actions, i, issue, ls[n].baselines[issue]) && !AdmitsBetween(actions, i, n, issue)
  {
    hide EvidenceOf, Certificates;
    var l, a := ls[n - 1], actions[n - 1];
    assert Moves(l, a, ls[n]);
    if a.Reconcile? && BootIdentity.Valid(a.boot) && issue in l.quarantines {
      i := n - 1;
    } else {
      i := BaselineWasBound(ls, actions, n - 1, issue);
    }
  }

  /** A reconciliation lifts a quarantine only if an earlier one recorded the
      same evidence at a valid boot of the same source with another UUID, and
      nothing was admitted for the issue in between. */
  lemma LiftedAfterTwoBoots(ls: seq<Ledger>, actions: seq<Action>, n: nat, issue: nat) returns (i: nat)
    requires IsTrace(ls, actions) && n < |actions| && issue in ls[n].quarantines && issue !in ls[n + 1].quarantines
    ensures i < n && actions[n].Reconcile? && actions[i].Reconcile?
    ensures BootIdentity.Valid(actions[i].boot) && BootIdentity.Valid(actions[n].boot)
    ensures actions[i].boot.source == actions[n].boot.source && actions[i].boot.uuid != actions[n].boot.uuid
    ensures issue in ls[i].quarantines && BoundEvidence(ls[i], issue) == BoundEvidence(ls[n], issue)
    ensures !AdmitsBetween(actions, i, n, issue)
  {
    hide EvidenceOf, Certificates;
    assert Moves(ls[n], actions[n], ls[n + 1]);
    i := BaselineWasBound(ls, actions, n, issue);
  }

  /** The reconciliation at `j` certified the record out of the evidence that the
      baseline of its issue had bound. */
  ghost predicate CertifiedAt(ls: seq<Ledger>, actions: seq<Action>, j: nat, d: Digest) {
    && j < |actions| < |ls| && actions[j].Reconcile? && DigestIssue(d) in ls[j].quarantines && DigestIssue(d) in ls[j].baselines
    && d in ls[j].baselines[DigestIssue(d)].evidence.records
    && BootIdentity.LaterThan(actions[j].boot, ls[j].baselines[DigestIssue(d)].boot)
  }

  /** The record itself, or its manifest at a later generation. */
  predicate Descends(d: Digest, origin: Digest) {
    d == origin || (d.ManifestDigest? && origin.ManifestDigest? && d.reviewed == origin.reviewed && origin.generation < d.generation)
  }

  /** Every released record was certified by a reconciliation, or is the same
      manifest, at a later generation, as one that was. */
  lemma {:induction false} ReleasesWereBound(ls: seq<Ledger>, actions: seq<Action>, n: nat, d: Digest) returns (j: nat, origin: Digest)
    requires IsTrace(ls, actions) && n < |ls| && d in ls[n].releases
    ensures j < n && CertifiedAt(ls, actions, j, origin) && Descends(d, origin)
  {
    hide EvidenceOf;
    var l, a := ls[n - 1], actions[n - 1];
    assert Moves(l, a, ls[n]);
    if a.Carry? && d == ManifestDigest(a.to, a.reviewed) && Released(l, ManifestDigest(a.from, a.reviewed)) {
      j, origin := ReleasesWereBound(ls, actions, n - 1, ManifestDigest(a.from, a.reviewed));
    } else if d in l.releases {
      j, origin := ReleasesWereBound(ls, actions, n - 1, d);
    } else {
      CertifiedWereLifted(l, a.boot, l.quarantines.Keys);
      EvidenceNamesItsIssue(l, DigestIssue(d), true);
      j, origin := n - 1, d;
    }
  }
}
