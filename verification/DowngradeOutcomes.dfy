/**
 * What decides the 0049 downgrade, said about the rows themselves: which audit a reference belongs to,
 * when each guarded statement passes, and what the deletes take with them.
 */
module DowngradeOutcomes {
  import opened Foundations
  import opened Ranking
  import opened AuditDowngrade

  predicate NotLater(a: Audit, x: Id, b: Audit, y: Id) {
    a.createdAt < b.createdAt || (a.createdAt == b.createdAt && x <= y)
  }

  /** The canonical audit is the one of the same artifact and hash with the least (created_at, id). */
  lemma CanonicalExactly(audits: map<Id, Audit>, x: Id, c: Id)
    requires x in audits
    ensures c == Canonical(audits, x) <==>
      && c in audits && audits[c].artifact == audits[x].artifact && audits[c].hash == audits[x].hash
      && forall y | y in audits && audits[y].artifact == audits[x].artifact && audits[y].hash == audits[x].hash ::
           NotLater(audits[c], c, audits[y], y)
  {
    var group, at, first := Group(audits, x), CreatedAt(audits), Canonical(audits, x);
    hide Canonical;
    forall y | y in group
      ensures NotLater(audits[first], first, audits[y], y)
    {
      assert first == y || Before(at, first, y);
    }
    if c != first && c in group {
      assert !NotLater(audits[c], c, audits[first], first) by {
        assert Before(at, first, c);
      }
    }
  }

  /** The fold deletes an audit exactly when an earlier one has its artifact and hash. */
  lemma RerunExactly(audits: map<Id, Audit>, x: Id)
    requires x in audits
    ensures x in Reruns(audits) <==>
      exists y | y in audits && audits[y].artifact == audits[x].artifact && audits[y].hash == audits[x].hash ::
        !NotLater(audits[x], x, audits[y], y)
  {
    hide Reruns, Canonical;
    OnlyRerunsMove(audits, x);
    CanonicalExactly(audits, x, x);
    CanonicalExactly(audits, x, Canonical(audits, x));
  }

  /** Under the append-only triggers the statement on packages passes exactly when every package
      already refers to the canonical audit of its group. */
  lemma GuardedPackagesPassExactly(packages: map<Id, Id>, audits: map<Id, Audit>)
    requires forall k | k in packages :: packages[k] in audits
    ensures !PackageRefers(packages, Reruns(audits).Keys) <==>
      forall k | k in packages :: Canonical(audits, packages[k]) == packages[k]
    ensures PackageRefers(packages, Reruns(audits).Keys) <==> RepointedPackages(packages, Reruns(audits)) != packages
  {
    hide Reruns, Canonical;
    TargetsAreCanonical(audits);
    OthersFollowTheirGroup(packages, map[], audits);
    if RepointedPackages(packages, Reruns(audits)) == packages {
      assert forall k | k in packages :: RepointedPackages(packages, Reruns(audits))[k] == packages[k];
    }
  }

  /** The same for each of the two statements on invalidations. */
  lemma GuardedInvalidationsPassExactly(rows: map<Id, Invalidation>, audits: map<Id, Audit>)
    requires ReasonsUnique(rows) && forall k | k in rows :: rows[k].audit in audits
    ensures Movable(rows, Reruns(audits), true) <==>
      forall k | k in rows :: Canonical(audits, rows[k].audit) == rows[k].audit
    ensures Refers(rows, Reruns(audits).Keys) <==> Repointed(rows, Reruns(audits)) != rows
  {
    hide Reruns, Canonical;
    TargetsAreCanonical(audits);
    GuardedRowsMoveExactlyWhenNoneHasTo(rows, Reruns(audits));
    InvalidationsFollowTheirGroup(rows, audits);
    if Repointed(rows, Reruns(audits)) == rows {
      assert forall k | k in rows :: Repointed(rows, Reruns(audits))[k] == rows[k];
    }
  }

  /** As the triggers stand the downgrade commits exactly when every invalidation and every package
      already refers to the canonical audit of its group. */
  lemma GuardedDowngradeCommitsExactly(t: Tables)
    requires ReferencesHold(t) && UniqueHold(t, false)
    ensures Foldable(t, true) <==>
      && (forall k | k in t.complianceInvalidations ::
            var audit := t.complianceInvalidations[k].audit; Canonical(t.complianceAudits, audit) == audit)
      && (forall k | k in t.chiefInvalidations ::
            var audit := t.chiefInvalidations[k].audit; Canonical(t.chiefAudits, audit) == audit)
      && (forall k | k in t.packages :: Canonical(t.chiefAudits, t.packages[k]) == t.packages[k])
  {
    hide Reruns, Canonical, Movable, PackageRefers;
    GuardedInvalidationsPassExactly(t.complianceInvalidations, t.complianceAudits);
    GuardedInvalidationsPassExactly(t.chiefInvalidations, t.chiefAudits);
    GuardedPackagesPassExactly(t.packages, t.chiefAudits);
  }

  /** Without those triggers it commits exactly when no two invalidations of one group share a reason. */
  lemma UnguardedDowngradeCommitsExactly(t: Tables)
    requires ReferencesHold(t)
    ensures Foldable(t, false) <==>
      && NoSharedReason(t.complianceInvalidations, t.complianceAudits)
      && NoSharedReason(t.chiefInvalidations, t.chiefAudits)
  {
    hide Movable, Reruns, Canonical;
    NoSharedReasonExactly(t.complianceInvalidations, t.complianceAudits);
    NoSharedReasonExactly(t.chiefInvalidations, t.chiefAudits);
  }

  predicate NoSharedReason(rows: map<Id, Invalidation>, audits: map<Id, Audit>)
    requires forall k | k in rows :: rows[k].audit in audits
  {
    forall j, k | j in rows && k in rows && j != k && rows[j].reason == rows[k].reason ::
      Canonical(audits, rows[j].audit) != Canonical(audits, rows[k].audit)
  }

  lemma NoSharedReasonExactly(rows: map<Id, Invalidation>, audits: map<Id, Audit>)
    requires forall k | k in rows :: rows[k].audit in audits
    ensures Movable(rows, Reruns(audits), false) <==> NoSharedReason(rows, audits)
  {
    hide Reruns, Canonical;
    InvalidationsFollowTheirGroup(rows, audits);
    var out := Repointed(rows, Reruns(audits));
    assert forall j, k | j in rows && k in rows :: out[j] == out[k] <==>
      Canonical(audits, rows[j].audit) == Canonical(audits, rows[k].audit) && rows[j].reason == rows[k].reason;
  }

  /** What a delete of audits takes along: nothing dangles, exactly the dependents of deleted audits are
      cascaded or emptied, and a version rises exactly where a reference was emptied. */
  lemma DeletesTakeExactly(t: Tables, gone: set<Id>)
    requires ReferencesHold(t) && !PackageRefers(t.packages, gone)
    ensures var rows, eligibility := Cascaded(t.chiefInvalidations, gone), Nulled(t.eligibility, gone);
      && ReferencesHold(t.(chiefAudits := t.chiefAudits - gone, chiefInvalidations := rows, eligibility := eligibility))
      && rows == t.chiefInvalidations - (set k | k in t.chiefInvalidations && t.chiefInvalidations[k].audit in gone)
      && eligibility.Keys == t.eligibility.Keys
      && (forall k | k in eligibility ::
            && eligibility[k].audit ==
                 (if t.eligibility[k].audit in (set x | x in gone :: Some(x)) then None else t.eligibility[k].audit)
            && eligibility[k].version ==
                 t.eligibility[k].version + (if eligibility[k].audit == t.eligibility[k].audit then 0 else 1))
    ensures var rows := Cascaded(t.complianceInvalidations, gone);
      && ReferencesHold(t.(complianceAudits := t.complianceAudits - gone, complianceInvalidations := rows))
      && rows == t.complianceInvalidations
                 - (set k | k in t.complianceInvalidations && t.complianceInvalidations[k].audit in gone)
  {
  }

  /** A package refers to a deleted audit exactly when the two sets of audits meet. */
  lemma RestrictExactly(packages: map<Id, Id>, gone: set<Id>)
    ensures PackageRefers(packages, gone) <==> packages.Values * gone != {}
  {
    if k :| k in packages && packages[k] in gone {
      assert packages[k] in packages.Values * gone;
    }
  }

  /** An invalidation refers to a deleted audit exactly when the cascade loses a row. */
  lemma CascadeExactly(rows: map<Id, Invalidation>, gone: set<Id>)
    ensures Refers(rows, gone) <==> Cascaded(rows, gone) != rows
  {
    if k :| k in rows && rows[k].audit in gone {
      assert k !in Cascaded(rows, gone);
    } else {
      assert Cascaded(rows, gone) == rows;
    }
  }

  const CHIEF := map[1 := Audit(7, "h", 10), 2 := Audit(7, "h", 20), 3 := Audit(9, "g", 30)]
  const WITH_PACKAGES := Tables(map[], CHIEF, map[], map[], map[8 := 2, 9 := 3], map[])

  lemma CanonicalsHere()
    ensures Canonical(CHIEF, 2) == 1 && Canonical(CHIEF, 3) == 3
  {
    hide Canonical;
    CanonicalExactly(CHIEF, 2, 1);
    CanonicalExactly(CHIEF, 3, 3);
  }

  /** One package on a rerun and one on a canonical audit: the trigger on packages alone aborts. */
  lemma PackageOnARerunStopsTheDowngrade()
    ensures ReferencesHold(WITH_PACKAGES) && UniqueHold(WITH_PACKAGES, false)
    ensures !Foldable(WITH_PACKAGES, true)
    ensures Foldable(WITH_PACKAGES, false) && Folded(WITH_PACKAGES).packages == map[8 := 1, 9 := 3]
  {
    hide Canonical, Reruns, Foldable, RepointedPackages;
    CanonicalsHere();
    assert WITH_PACKAGES.packages[8] == 2;
    GuardedDowngradeCommitsExactly(WITH_PACKAGES);
    UnguardedDowngradeCommitsExactly(WITH_PACKAGES);
    OthersFollowTheirGroup(WITH_PACKAGES.packages, map[], CHIEF);
  }
}
