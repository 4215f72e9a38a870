/**
 * The downgrade of schema revision 0049.  Reruns of an audit are folded into the earliest audit of
 * the same (artifact, hash): dependents are repointed statement by statement, the reruns are deleted,
 * and the unique constraints and append-only triggers of revision 0048 come back.
 */
module AuditDowngrade {
  import opened Foundations
  import opened Ranking

  datatype Audit = Audit(artifact: Id, hash: string, createdAt: Time)
  datatype Invalidation = Invalidation(audit: Id, reason: string)
  datatype Eligibility = Eligibility(audit: Option<Id>, version: int)

  // ---- The ranking query ------------------------------------------------------------------------

  predicate SameKey(a: Audit, b: Audit) {
    a.artifact == b.artifact && a.hash == b.hash
  }

  /** PARTITION BY final_artifact_id, artifact_hash. */
  function Group(audits: map<Id, Audit>, x: Id): set<Id>
    requires x in audits
  {
    set y | y in audits && SameKey(audits[x], audits[y])
  }

  function CreatedAt(audits: map<Id, Audit>): map<Id, Time> {
    map x | x in audits :: audits[x].createdAt
  }

  /** first_value(id) over the partition of `x`. */
  function Canonical(audits: map<Id, Audit>, x: Id): (c: Id)
    requires x in audits
    ensures IsFirst(Group(audits, x), CreatedAt(audits), c)
  {
    assert x in Group(audits, x);
    First(Group(audits, x), CreatedAt(audits))
  }

  /** The mapping from each duplicate rerun to its canonical audit. */
  function Reruns(audits: map<Id, Audit>): map<Id, Id> {
    map x | x in audits && RowNumber(Group(audits, x), CreatedAt(audits), x) > 1 :: Canonical(audits, x)
  }

  /** The audit that a reference to `x` denotes once `moves` has been applied. */
  function Target(moves: map<Id, Id>, x: Id): Id {
    if x in moves then moves[x] else x
  }

  predicate OnePerKey(audits: map<Id, Audit>) {
    forall x, y | x in audits && y in audits && SameKey(audits[x], audits[y]) :: x == y
  }

  /** The audits that no other audit of the same key precedes. */
  function Earliest(audits: map<Id, Audit>): map<Id, Audit> {
    map x | x in audits && IsFirst(Group(audits, x), CreatedAt(audits), x) :: audits[x]
  }

  lemma GroupsCoincide(audits: map<Id, Audit>, x: Id, y: Id)
    requires x in audits && y in Group(audits, x)
    ensures Group(audits, y) == Group(audits, x)
    ensures Canonical(audits, y) == Canonical(audits, x)
  {
  }

  /** Repointing sends every reference to the earliest audit of the group it already pointed to. */
  lemma TargetIsEarliestOfTheGroup(audits: map<Id, Audit>, x: Id)
    requires x in audits
    ensures Target(Reruns(audits), x) == Canonical(audits, x)
    ensures Target(Reruns(audits), x) in Earliest(audits)
    ensures SameKey(audits[x], audits[Target(Reruns(audits), x)])
    ensures Target(Reruns(audits), x) !in Reruns(audits)
    ensures x in Reruns(audits) <==> x !in Earliest(audits)
  {
    var c := Canonical(audits, x);
    NumberedAboveOneUnlessFirst(Group(audits, x), CreatedAt(audits), x);
    GroupsCoincide(audits, x, c);
    NumberedAboveOneUnlessFirst(Group(audits, c), CreatedAt(audits), c);
  }

  /** Two earliest audits never share a key. */
  lemma EarliestIsUnique(audits: map<Id, Audit>)
    ensures OnePerKey(Earliest(audits))
  {
    forall x, y | x in Earliest(audits) && y in Earliest(audits) && SameKey(audits[x], audits[y])
      ensures x == y
    {
      GroupsCoincide(audits, x, y);
    }
  }

  /** Deleting the mapped rows leaves exactly the earliest audit of every group, rows unchanged. */
  lemma SurvivorsAreTheEarliest(audits: map<Id, Audit>)
    ensures audits - Reruns(audits).Keys == Earliest(audits)
    ensures OnePerKey(Earliest(audits))
    ensures forall x | x in audits ::
      exists y | y in Earliest(audits) :: SameKey(audits[x], audits[y])
  {
    hide Reruns, Canonical, IsFirst, Group, RowNumber, First, Target, SameKey;
    EarliestIsUnique(audits);
    forall x | x in audits
      ensures x in Reruns(audits) <==> x !in Earliest(audits)
      ensures exists y | y in Earliest(audits) :: SameKey(audits[x], audits[y])
    {
      TargetIsEarliestOfTheGroup(audits, x);
    }
  }

  /** The ranking finds nothing exactly when the constraint of revision 0048 already holds. */
  lemma NoRerunsExactlyWhenUnique(audits: map<Id, Audit>)
    ensures Reruns(audits) == map[] <==> OnePerKey(audits)
    ensures OnePerKey(audits) ==> Earliest(audits) == audits
  {
    SurvivorsAreTheEarliest(audits);
    if Reruns(audits) == map[] {
      assert audits - Reruns(audits).Keys == audits;
    }
    if OnePerKey(audits) {
      forall x | x in audits
        ensures x !in Reruns(audits)
      {
        TargetIsEarliestOfTheGroup(audits, x);
        assert Canonical(audits, x) == x;
      }
      assert Reruns(audits) == map[];
    }
  }

  // ---- Dependent rows ---------------------------------------------------------------------------

  /** The unique constraint on (audit, reason). */
  predicate ReasonsUnique(rows: map<Id, Invalidation>) {
    forall j, k | j in rows && k in rows && rows[j] == rows[k] :: j == k
  }

  predicate Refers(rows: map<Id, Invalidation>, gone: set<Id>) {
    exists k | k in rows :: rows[k].audit in gone
  }

  predicate PackageRefers(rows: map<Id, Id>, gone: set<Id>) {
    exists k | k in rows :: rows[k] in gone
  }

  function Repointed(rows: map<Id, Invalidation>, moves: map<Id, Id>): map<Id, Invalidation> {
    map k | k in rows :: rows[k].(audit := Target(moves, rows[k].audit))
  }

  function RepointedPackages(rows: map<Id, Id>, moves: map<Id, Id>): map<Id, Id> {
    map k | k in rows :: Target(moves, rows[k])
  }

  /** The version trigger counts exactly the rows whose reference moved. */
  function RepointedEligibility(rows: map<Id, Eligibility>, moves: map<Id, Id>): map<Id, Eligibility> {
    map k | k in rows ::
      if rows[k].audit.Some? && rows[k].audit.value in moves
      then Eligibility(Some(moves[rows[k].audit.value]), rows[k].version + 1)
      else rows[k]
  }

  /** ON DELETE CASCADE. */
  function Cascaded(rows: map<Id, Invalidation>, gone: set<Id>): map<Id, Invalidation> {
    map k | k in rows && rows[k].audit !in gone :: rows[k]
  }

  /** ON DELETE SET NULL, itself an update that the version trigger sees. */
  function Nulled(rows: map<Id, Eligibility>, gone: set<Id>): map<Id, Eligibility> {
    map k | k in rows ::
      if rows[k].audit.Some? && rows[k].audit.value in gone
      then Eligibility(None, rows[k].version + 1)
      else rows[k]
  }

  predicate NoChains(moves: map<Id, Id>) {
    forall x | x in moves :: moves[x] !in moves
  }

  lemma RerunsHaveNoChains(audits: map<Id, Audit>)
    ensures NoChains(Reruns(audits))
  {
    forall x | x in Reruns(audits)
      ensures Reruns(audits)[x] !in Reruns(audits)
    {
      TargetIsEarliestOfTheGroup(audits, x);
    }
  }

  /** What the append-only trigger and the unique constraint let through. */
  predicate Movable(rows: map<Id, Invalidation>, moves: map<Id, Id>, guarded: bool) {
    !(guarded && Refers(rows, moves.Keys)) && ReasonsUnique(Repointed(rows, moves))
  }

  /** Halfway through the update: the pending rows still have to move, the others have. */
  ghost predicate Halfway(rows: map<Id, Invalidation>, moves: map<Id, Id>, pending: set<Id>,
                          out: map<Id, Invalidation>)
  {
    && out.Keys == rows.Keys
    && (forall k | k in pending :: k in rows && rows[k].audit in moves && out[k] == rows[k])
    && (forall k | k in rows && k !in pending :: out[k] == rows[k].(audit := Target(moves, rows[k].audit)))
  }

  /** A collision met on the way is one that the finished update would have. */
  lemma CollisionStays(rows: map<Id, Invalidation>, moves: map<Id, Id>, pending: set<Id>,
                       out: map<Id, Invalidation>, j: Id, k: Id)
    requires NoChains(moves) && Halfway(rows, moves, pending, out)
    requires k in pending && j in rows && j != k && out[j] == rows[k].(audit := moves[rows[k].audit])
    ensures !ReasonsUnique(Repointed(rows, moves))
  {
    assert Repointed(rows, moves)[j] == Repointed(rows, moves)[k];
  }

  /** One more row moved without a collision. */
  lemma HalfwayMoves(rows: map<Id, Invalidation>, moves: map<Id, Id>, pending: set<Id>,
                     out: map<Id, Invalidation>, k: Id)
    requires Halfway(rows, moves, pending, out) && ReasonsUnique(out) && k in pending
    requires forall j | j in out :: j != k ==> out[j] != rows[k].(audit := moves[rows[k].audit])
    ensures Halfway(rows, moves, pending - {k}, out[k := rows[k].(audit := moves[rows[k].audit])])
    ensures ReasonsUnique(out[k := rows[k].(audit := moves[rows[k].audit])])
  {
  }

  lemma HalfwayEnds(rows: map<Id, Invalidation>, moves: map<Id, Id>, out: map<Id, Invalidation>)
    requires Halfway(rows, moves, {}, out)
    ensures out == Repointed(rows, moves)
  {
  }

  /**
   * UPDATE ... SET audit = canonical, row by row in any order, with the append-only trigger (when
   * `guarded`) and the immediate unique check.  Success and result do not depend on the order.
   */
  method UpdateInvalidations(rows: map<Id, Invalidation>, moves: map<Id, Id>, guarded: bool)
    returns (ok: bool, out: map<Id, Invalidation>)
    requires ReasonsUnique(rows) && NoChains(moves)
    ensures ok <==> Movable(rows, moves, guarded)
    ensures ok ==> out == Repointed(rows, moves)
  {
    hide NoChains, ReasonsUnique, Repointed;
    out := rows;
    var pending: set<Id> := set k | k in rows && rows[k].audit in moves;
    ghost var all := pending;
    while pending != {}
      invariant pending <= all
      invariant Halfway(rows, moves, pending, out) && ReasonsUnique(out)
      invariant guarded ==> pending == all
      decreases |pending|
    {
      var k :| k in pending;
      var moved := out[k].(audit := moves[out[k].audit]);
      if guarded {
        assert Refers(rows, moves.Keys);
        return false, rows;
      }
      if exists j | j in out :: j != k && out[j] == moved {
        var j :| j in out && j != k && out[j] == moved;
        CollisionStays(rows, moves, pending, out, j, k);
        return false, rows;
      }
      HalfwayMoves(rows, moves, pending, out, k);
      out := out[k := moved];
      pending := pending - {k};
    }
    HalfwayEnds(rows, moves, out);
    ok := true;
  }

  // ---- The transaction --------------------------------------------------------------------------

  /** Every row a transaction can see. */
  datatype Tables = Tables(
    complianceAudits: map<Id, Audit>,
    chiefAudits: map<Id, Audit>,
    complianceInvalidations: map<Id, Invalidation>,
    chiefInvalidations: map<Id, Invalidation>,
    packages: map<Id, Id>,
    eligibility: map<Id, Eligibility>)

  /** No reference dangles. */
  ghost predicate ReferencesHold(t: Tables) {
    && (forall k | k in t.complianceInvalidations :: t.complianceInvalidations[k].audit in t.complianceAudits)
    && (forall k | k in t.chiefInvalidations :: t.chiefInvalidations[k].audit in t.chiefAudits)
    && (forall k | k in t.packages :: t.packages[k] in t.chiefAudits)
    && (forall k | k in t.eligibility ::
          t.eligibility[k].audit.Some? ==> t.eligibility[k].audit.value in t.chiefAudits)
  }

  ghost predicate UniqueHold(t: Tables, uniqueAudits: bool) {
    && ReasonsUnique(t.complianceInvalidations)
    && ReasonsUnique(t.chiefInvalidations)
    && (uniqueAudits ==> OnePerKey(t.complianceAudits) && OnePerKey(t.chiefAudits))
  }

  /** Exactly when the downgrade commits. */
  predicate Foldable(t: Tables, guarded: bool) {
    && Movable(t.complianceInvalidations, Reruns(t.complianceAudits), guarded)
    && Movable(t.chiefInvalidations, Reruns(t.chiefAudits), guarded)
    && !(guarded && PackageRefers(t.packages, Reruns(t.chiefAudits).Keys))
  }

  /** What it commits. */
  function Folded(t: Tables): Tables {
    Tables(
      Earliest(t.complianceAudits),
      Earliest(t.chiefAudits),
      Repointed(t.complianceInvalidations, Reruns(t.complianceAudits)),
      Repointed(t.chiefInvalidations, Reruns(t.chiefAudits)),
      RepointedPackages(t.packages, Reruns(t.chiefAudits)),
      RepointedEligibility(t.eligibility, Reruns(t.chiefAudits)))
  }

  class Database {
    var tables: Tables
    /** The append-only triggers on the two audit tables, and the two unique constraints. */
    var auditTriggers: bool
    var uniqueAudits: bool
    /** Whether the append-only triggers stand on the two invalidation tables and on packages. */
    const dependentsGuarded: bool

    constructor (guarded: bool)
      ensures Valid() && auditTriggers && uniqueAudits && dependentsGuarded == guarded
    {
      tables := Tables(map[], map[], map[], map[], map[], map[]);
      auditTriggers, uniqueAudits := true, true;
      dependentsGuarded := guarded;
    }

    /** Foreign keys and unique constraints hold between transactions. */
    ghost predicate Valid()
      reads this
    {
      ReferencesHold(tables) && UniqueHold(tables, uniqueAudits)
    }

    /** Revision 0049 proper: the two unique constraints go, rows stay. */
    method Upgrade()
      requires Valid()
      modifies this`uniqueAudits
      ensures Valid() && !uniqueAudits
    {
      uniqueAudits := false;
    }

    /** DELETE of the compliance reruns, cascading into their invalidations. */
    method DeleteComplianceReruns() returns (ok: bool)
      modifies this`tables
      ensures var t, gone := old(tables), Reruns(old(tables.complianceAudits)).Keys;
        if (gone != {} && auditTriggers) || (dependentsGuarded && Refers(t.complianceInvalidations, gone)) then
          !ok && tables == t
        else
          && ok
          && tables == t.(complianceAudits := t.complianceAudits - gone,
                          complianceInvalidations := Cascaded(t.complianceInvalidations, gone))
    {
      var gone := Reruns(tables.complianceAudits).Keys;
      ok := !(gone != {} && auditTriggers)
        && !(dependentsGuarded && Refers(tables.complianceInvalidations, gone));
      if ok {
        tables := tables.(complianceInvalidations := Cascaded(tables.complianceInvalidations, gone));
        tables := tables.(complianceAudits := tables.complianceAudits - gone);
      }
    }

    /** DELETE of the chief reruns: CASCADE, RESTRICT and SET NULL respectively. */
    method DeleteChiefReruns() returns (ok: bool)
      modifies this`tables
      ensures var t, gone := old(tables), Reruns(old(tables.chiefAudits)).Keys;
        if (gone != {} && auditTriggers) || PackageRefers(t.packages, gone)
           || (dependentsGuarded && Refers(t.chiefInvalidations, gone))
        then
          !ok && tables == t
        else
          && ok
          && tables == t.(chiefAudits := t.chiefAudits - gone,
                          chiefInvalidations := Cascaded(t.chiefInvalidations, gone),
                          eligibility := Nulled(t.eligibility, gone))
    {
      var gone := Reruns(tables.chiefAudits).Keys;
      ok := !(gone != {} && auditTriggers) && !PackageRefers(tables.packages, gone)
        && !(dependentsGuarded && Refers(tables.chiefInvalidations, gone));
      if ok {
        tables := tables.(chiefInvalidations := Cascaded(tables.chiefInvalidations, gone));
        tables := tables.(eligibility := Nulled(tables.eligibility, gone));
        tables := tables.(chiefAudits := tables.chiefAudits - gone);
      }
    }

    /** The statements about compliance audits. */
    method FoldCompliance() returns (ok: bool)
      requires ReasonsUnique(tables.complianceInvalidations) && !auditTriggers
      modifies this`tables
      ensures var t, moves := old(tables), Reruns(old(tables.complianceAudits));
        && (ok <==> Movable(t.complianceInvalidations, moves, dependentsGuarded))
        && (ok ==> tables == t.(complianceAudits := Earliest(t.complianceAudits),
                                complianceInvalidations := Repointed(t.complianceInvalidations, moves)))
    {
      hide *;
      RerunsHaveNoChains(tables.complianceAudits);
      var rows;
      ok, rows := UpdateInvalidations(
        tables.complianceInvalidations, Reruns(tables.complianceAudits), dependentsGuarded);
      if ok {
        NothingCascades(tables.complianceInvalidations, tables.complianceAudits);
        SurvivorsAreTheEarliest(tables.complianceAudits);
        tables := tables.(complianceInvalidations := rows);
        ok := DeleteComplianceReruns();
      }
    }

    /** The three updates about chief audits; the mapping is evaluated again for each of them. */
    method RepointChief() returns (ok: bool)
      requires ReasonsUnique(tables.chiefInvalidations)
      modifies this`tables
      ensures var t, moves := old(tables), Reruns(old(tables.chiefAudits));
        && (ok <==>
            && Movable(t.chiefInvalidations, moves, dependentsGuarded)
            && !(dependentsGuarded && PackageRefers(t.packages, moves.Keys)))
        && (ok ==> tables == t.(chiefInvalidations := Repointed(t.chiefInvalidations, moves),
                                packages := RepointedPackages(t.packages, moves),
                                eligibility := RepointedEligibility(t.eligibility, moves)))
    {
      hide *;
      RerunsHaveNoChains(tables.chiefAudits);
      var rows;
      ok, rows := UpdateInvalidations(tables.chiefInvalidations, Reruns(tables.chiefAudits), dependentsGuarded);
      if ok {
        tables := tables.(chiefInvalidations := rows);
        ok := !(dependentsGuarded && PackageRefers(tables.packages, Reruns(tables.chiefAudits).Keys));
      }
      if ok {
        tables := tables.(packages := RepointedPackages(tables.packages, Reruns(tables.chiefAudits)));
        tables := tables.(eligibility := RepointedEligibility(tables.eligibility, Reruns(tables.chiefAudits)));
      }
    }

    /** The statements about chief audits. */
    method FoldChief() returns (ok: bool)
      requires ReasonsUnique(tables.chiefInvalidations) && !auditTriggers
      modifies this`tables
      ensures var t, moves := old(tables), Reruns(old(tables.chiefAudits));
        && (ok <==>
            && Movable(t.chiefInvalidations, moves, dependentsGuarded)
            && !(dependentsGuarded && PackageRefers(t.packages, moves.Keys)))
        && (ok ==> tables == t.(chiefAudits := Earliest(t.chiefAudits),
                                chiefInvalidations := Repointed(t.chiefInvalidations, moves),
                                packages := RepointedPackages(t.packages, moves),
                                eligibility := RepointedEligibility(t.eligibility, moves)))
    {
      hide *;
      NothingCascades(tables.chiefInvalidations, tables.chiefAudits);
      NothingRestricts(tables.packages, tables.chiefAudits);
      NothingIsNulled(tables.eligibility, tables.chiefAudits);
      SurvivorsAreTheEarliest(tables.chiefAudits);
      ok := RepointChief();
      if ok {
        ok := DeleteChiefReruns();
      }
    }

    /** The whole downgrade as one transaction: it commits, or every table is as before. */
    method Downgrade() returns (committed: bool)
      requires Valid() && auditTriggers
      modifies this
      ensures Valid() && auditTriggers
      ensures committed <==> Foldable(old(tables), dependentsGuarded)
      ensures committed ==> tables == Folded(old(tables)) && uniqueAudits
      ensures !committed ==> unchanged(this)
    {
      hide Reruns, Earliest, Repointed, RepointedPackages, RepointedEligibility, PackageRefers,
        Movable, OnePerKey, ReasonsUnique, ReferencesHold;
      var saved, unique := tables, uniqueAudits;
      FoldedHolds(saved);
      auditTriggers := false;
      committed := FoldCompliance();
      if committed {
        committed := FoldChief();
      }
      if committed {
        assert tables == Folded(saved);
        committed := OnePerKey(tables.complianceAudits) && OnePerKey(tables.chiefAudits);
        uniqueAudits := true;
        MovableRowsStayUnique(saved.complianceInvalidations, saved.complianceAudits, dependentsGuarded);
        MovableRowsStayUnique(saved.chiefInvalidations, saved.chiefAudits, dependentsGuarded);
      } else {
        tables, uniqueAudits := saved, unique;
      }
      auditTriggers := true;
    }
  }

  // ---- Why the deletes touch nothing else --------------------------------------------------------

  lemma NothingCascades(rows: map<Id, Invalidation>, audits: map<Id, Audit>)
    ensures !Refers(Repointed(rows, Reruns(audits)), Reruns(audits).Keys)
    ensures Cascaded(Repointed(rows, Reruns(audits)), Reruns(audits).Keys) == Repointed(rows, Reruns(audits))
  {
    hide Reruns;
    RerunsHaveNoChains(audits);
  }

  lemma NothingRestricts(rows: map<Id, Id>, audits: map<Id, Audit>)
    ensures !PackageRefers(RepointedPackages(rows, Reruns(audits)), Reruns(audits).Keys)
  {
    hide Reruns;
    RerunsHaveNoChains(audits);
  }

  lemma NothingIsNulled(rows: map<Id, Eligibility>, audits: map<Id, Audit>)
    ensures Nulled(RepointedEligibility(rows, Reruns(audits)), Reruns(audits).Keys)
      == RepointedEligibility(rows, Reruns(audits))
  {
    hide Reruns;
    RerunsHaveNoChains(audits);
  }

  lemma MovableRowsStayUnique(rows: map<Id, Invalidation>, audits: map<Id, Audit>, guarded: bool)
    requires Movable(rows, Reruns(audits), guarded)
    ensures ReasonsUnique(Repointed(rows, Reruns(audits)))
  {
  }

  /** Every invalidation keeps its key and reason and points to the earliest audit of its group. */
  lemma InvalidationsFollowTheirGroup(rows: map<Id, Invalidation>, audits: map<Id, Audit>)
    requires forall k | k in rows :: rows[k].audit in audits
    ensures Repointed(rows, Reruns(audits)).Keys == rows.Keys
    ensures forall k | k in rows ::
      Repointed(rows, Reruns(audits))[k] == Invalidation(Canonical(audits, rows[k].audit), rows[k].reason)
  {
    hide Reruns, Canonical, Target;
    TargetsAreCanonical(audits);
  }

  /** Packages and eligibility too; an eligibility version rises by one exactly where its reference moved. */
  lemma OthersFollowTheirGroup(packages: map<Id, Id>, eligibility: map<Id, Eligibility>, audits: map<Id, Audit>)
    requires forall k | k in packages :: packages[k] in audits
    requires forall k | k in eligibility :: eligibility[k].audit.Some? ==> eligibility[k].audit.value in audits
    ensures RepointedPackages(packages, Reruns(audits)).Keys == packages.Keys
    ensures forall k | k in packages ::
      RepointedPackages(packages, Reruns(audits))[k] == Canonical(audits, packages[k])
    ensures RepointedEligibility(eligibility, Reruns(audits)).Keys == eligibility.Keys
    ensures forall k | k in eligibility ::
      var row, folded := eligibility[k], RepointedEligibility(eligibility, Reruns(audits))[k];
      && folded.audit == (if row.audit.Some? then Some(Canonical(audits, row.audit.value)) else None)
      && folded.version == row.version + (if folded.audit != row.audit then 1 else 0)
  {
    hide Reruns, Canonical;
    TargetsAreCanonical(audits);
  }

  lemma TargetsAreCanonical(audits: map<Id, Audit>)
    ensures forall x | x in audits ::
      Target(Reruns(audits), x) == Canonical(audits, x) && (x in Reruns(audits) <==> Canonical(audits, x) != x)
  {
    hide Reruns, Canonical, Target;
    forall x | x in audits
      ensures Target(Reruns(audits), x) == Canonical(audits, x)
      ensures x in Reruns(audits) <==> Canonical(audits, x) != x
    {
      TargetIsEarliestOfTheGroup(audits, x);
      OnlyRerunsMove(audits, x);
    }
  }

  lemma OnlyRerunsMove(audits: map<Id, Audit>, x: Id)
    requires x in audits
    ensures x in Reruns(audits) <==> Canonical(audits, x) != x
  {
    NumberedAboveOneUnlessFirst(Group(audits, x), CreatedAt(audits), x);
  }

  /** No dependent dangles after the fold, and each key has one audit. */
  lemma FoldedHolds(t: Tables)
    requires ReferencesHold(t)
    ensures ReferencesHold(Folded(t))
    ensures OnePerKey(Folded(t).complianceAudits) && OnePerKey(Folded(t).chiefAudits)
  {
    hide Reruns, Earliest, OnePerKey;
    EarliestIsUnique(t.complianceAudits);
    EarliestIsUnique(t.chiefAudits);
    TargetsResolve(t.complianceAudits);
    TargetsResolve(t.chiefAudits);
  }

  lemma TargetsResolve(audits: map<Id, Audit>)
    ensures forall x | x in audits :: Target(Reruns(audits), x) in Earliest(audits)
  {
    hide Reruns, Earliest, Target;
    forall x | x in audits
      ensures Target(Reruns(audits), x) in Earliest(audits)
    {
      TargetIsEarliestOfTheGroup(audits, x);
    }
  }

  // ---- When the downgrade commits ----------------------------------------------------------------

  /** With the append-only triggers standing, any invalidation of a rerun stops the downgrade. */
  lemma GuardedRowsMoveExactlyWhenNoneHasTo(rows: map<Id, Invalidation>, moves: map<Id, Id>)
    requires ReasonsUnique(rows)
    ensures Movable(rows, moves, true) <==> !Refers(rows, moves.Keys)
  {
  }

  /** Two invalidations with one reason, of audits of one key. */
  predicate Clashes(rows: map<Id, Invalidation>, audits: map<Id, Audit>, j: Id, k: Id)
    requires j in rows && k in rows
  {
    && j != k && rows[j].reason == rows[k].reason
    && rows[j].audit in audits && rows[k].audit in audits
    && SameKey(audits[rows[j].audit], audits[rows[k].audit])
  }

  /** Without those triggers, only the unique (audit, reason) can stop it, and exactly when this holds. */
  lemma UnguardedRowsMoveExactlyWithoutAClash(rows: map<Id, Invalidation>, audits: map<Id, Audit>)
    requires forall k | k in rows :: rows[k].audit in audits
    ensures Movable(rows, Reruns(audits), false) <==>
      forall j, k | j in rows && k in rows :: !Clashes(rows, audits, j, k)
  {
    hide Reruns, Canonical;
    forall j, k | j in rows && k in rows
      ensures Clashes(rows, audits, j, k) <==>
        j != k && Repointed(rows, Reruns(audits))[j] == Repointed(rows, Reruns(audits))[k]
    {
      OneTargetExactlyForOneKey(audits, rows[j].audit, rows[k].audit);
    }
  }

  lemma OneTargetExactlyForOneKey(audits: map<Id, Audit>, x: Id, y: Id)
    requires x in audits && y in audits
    ensures Target(Reruns(audits), x) == Target(Reruns(audits), y) <==> SameKey(audits[x], audits[y])
  {
    hide Reruns, Target;
    TargetIsEarliestOfTheGroup(audits, x);
    TargetIsEarliestOfTheGroup(audits, y);
    if SameKey(audits[x], audits[y]) {
      GroupsCoincide(audits, x, y);
    }
  }

  /** A rerun that has been invalidated: the triggers of revision 0048 alone make the downgrade abort. */
  lemma InvalidatedRerunStopsTheDowngrade()
    ensures
      var audits := map[1 := Audit(7, "h", 10), 2 := Audit(7, "h", 20)];
      var rows := map[5 := Invalidation(2, "superseded")];
      && !Movable(rows, Reruns(audits), true)
      && Movable(rows, Reruns(audits), false)
  {
    var audits := map[1 := Audit(7, "h", 10), 2 := Audit(7, "h", 20)];
    var rows := map[5 := Invalidation(2, "superseded")];
    UnguardedRowsMoveExactlyWithoutAClash(rows, audits);
    TargetIsEarliestOfTheGroup(audits, 2);
    assert Before(CreatedAt(audits), 1, 2);
    assert 1 in Group(audits, 2);
    assert 2 in Reruns(audits);
    assert rows[5].audit in Reruns(audits).Keys;
  }

  /** With no rerun to fold, the downgrade always commits and every row stays as it is, versions included. */
  lemma NothingMovesWithoutReruns(t: Tables, guarded: bool)
    requires UniqueHold(t, true)
    ensures Folded(t) == t && Foldable(t, guarded)
  {
    hide Reruns, Earliest;
    NoRerunsExactlyWhenUnique(t.complianceAudits);
    NoRerunsExactlyWhenUnique(t.chiefAudits);
    NoMovesNoChange(t.complianceInvalidations);
    NoMovesNoChange(t.chiefInvalidations);
    assert RepointedPackages(t.packages, map[]) == t.packages;
    assert RepointedEligibility(t.eligibility, map[]) == t.eligibility;
  }

  lemma NoMovesNoChange(rows: map<Id, Invalidation>)
    ensures Repointed(rows, map[]) == rows
    ensures !Refers(rows, {})
  {
  }

  /** Folding is idempotent: what a committed downgrade leaves holds no rerun. */
  lemma FoldingTwiceIsFoldingOnce(t: Tables, guarded: bool)
    requires Foldable(t, guarded)
    ensures Folded(Folded(t)) == Folded(t) && Foldable(Folded(t), guarded)
  {
    hide Reruns, Earliest, ReasonsUnique;
    EarliestIsUnique(t.complianceAudits);
    EarliestIsUnique(t.chiefAudits);
    NothingMovesWithoutReruns(Folded(t), guarded);
  }

  /** Upgrading a revision-0048 database and downgrading it again always commits and changes no row. */
  method UpgradeAndBack(db: Database)
    requires db.Valid() && db.auditTriggers && db.uniqueAudits
    modifies db
    ensures db.tables == old(db.tables) && db.uniqueAudits && db.auditTriggers
  {
    hide Reruns, Foldable, Folded;
    NothingMovesWithoutReruns(db.tables, db.dependentsGuarded);
    db.Upgrade();
    assert !db.uniqueAudits;
    var committed := db.Downgrade();
    assert committed;
  }
}
