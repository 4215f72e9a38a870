/**
 * Row policies on workspace_memberships in revisions 0021 to 0024.  The policies read the table they
 * guard: the helper functions see all of it, a plain subquery only what the SELECT policy shows.
 */
module Membership {
  import opened Foundations

  type User = nat
  type Workspace = nat

  datatype Role = Admin | Editor | Reviewer

  /** workspaces.created_by, and the memberships under their unique key (workspace, user). */
  datatype State = State(workspaces: map<Workspace, User>, members: map<(Workspace, User), Role>)

  datatype Revision = Rev0021 | Rev0022 | Rev0023 | Rev0024

  /** `actor` is app_current_user_id(), absent when nobody is signed in. */
  datatype Action =
    | CreateWorkspace(actor: Option<User>, w: Workspace, createdBy: User)
    | UpdateWorkspace(actor: Option<User>, w: Workspace, createdBy: User)
    | Insert(actor: Option<User>, w: Workspace, u: User, role: Role)
    | Update(actor: Option<User>, w: Workspace, u: User, toW: Workspace, toU: User, role: Role)
    | Delete(actor: Option<User>, w: Workspace, u: User)

  // ---- Helper functions, which bypass the policies ----------------------------------------------

  predicate IsMember(st: State, w: Workspace, who: Option<User>) {
    who.Some? && (w, who.value) in st.members
  }

  predicate IsAdmin(st: State, w: Workspace, who: Option<User>) {
    IsMember(st, w, who) && st.members[(w, who.value)] == Admin
  }

  predicate IsCreator(st: State, w: Workspace, who: Option<User>) {
    who.Some? && w in st.workspaces && st.workspaces[w] == who.value
  }

  // ---- What plain subqueries see ----------------------------------------------------------------

  function VisibleMembers(st: State, viewer: Option<User>): set<(Workspace, User)> {
    set k | k in st.members && IsMember(st, k.0, viewer)
  }

  function VisibleWorkspaces(st: State, viewer: Option<User>): set<Workspace> {
    set w | w in st.workspaces && IsMember(st, w, viewer)
  }

  predicate NoneVisible(st: State, w: Workspace, viewer: Option<User>) {
    !exists k | k in VisibleMembers(st, viewer) :: k.0 == w
  }

  // ---- The policies -----------------------------------------------------------------------------

  predicate BootstrapArm(st: State, actor: Option<User>, w: Workspace, u: User, role: Role) {
    actor == Some(u) && role == Admin && IsCreator(st, w, actor) && NoneVisible(st, w, actor)
  }

  predicate MayInsert(rev: Revision, st: State, actor: Option<User>, w: Workspace, u: User, role: Role) {
    match rev
    case Rev0021 => IsAdmin(st, w, actor)
    case Rev0022 =>
      IsAdmin(st, w, actor)
      || (actor == Some(u) && role == Admin
          && (w in VisibleWorkspaces(st, actor) && st.workspaces[w] == u)
          && NoneVisible(st, w, actor))
    case Rev0023 | Rev0024 =>
      IsAdmin(st, w, actor) || BootstrapArm(st, actor, w, u, role)
  }

  /** Without a WITH CHECK of its own, the policy holds of the old row and of the new one. */
  predicate MayUpdate(st: State, actor: Option<User>, w: Workspace, toW: Workspace) {
    IsAdmin(st, w, actor) && IsAdmin(st, toW, actor)
  }

  predicate MayDelete(rev: Revision, st: State, actor: Option<User>, w: Workspace, u: User) {
    IsAdmin(st, w, actor) || (rev == Rev0024 && actor == Some(u))
  }

  /** One statement: the policies, then the foreign key and the unique key.  Refused means no change. */
  predicate Takes(rev: Revision, st: State, act: Action) {
    match act
    case CreateWorkspace(actor, w, createdBy) => w !in st.workspaces && actor == Some(createdBy)
    case UpdateWorkspace(actor, w, createdBy) => w in st.workspaces && IsAdmin(st, w, actor)
    case Insert(actor, w, u, role) =>
      MayInsert(rev, st, actor, w, u, role) && w in st.workspaces && (w, u) !in st.members
    case Update(actor, w, u, toW, toU, role) =>
      && (w, u) in st.members && MayUpdate(st, actor, w, toW) && toW in st.workspaces
      && ((toW, toU) == (w, u) || (toW, toU) !in st.members)
    case Delete(actor, w, u) => (w, u) in st.members && MayDelete(rev, st, actor, w, u)
  }

  function Apply(rev: Revision, st: State, act: Action): State {
    if !Takes(rev, st, act) then st else
    match act
    case CreateWorkspace(_, w, createdBy) => st.(workspaces := st.workspaces[w := createdBy])
    case UpdateWorkspace(_, w, createdBy) => st.(workspaces := st.workspaces[w := createdBy])
    case Insert(_, w, u, role) => st.(members := st.members[(w, u) := role])
    case Update(_, w, u, toW, toU, role) => st.(members := (st.members - {(w, u)})[(toW, toU) := role])
    case Delete(_, w, u) => st.(members := st.members - {(w, u)})
  }

  function Run(rev: Revision, acts: seq<Action>): State {
    if acts == [] then State(map[], map[])
    else Apply(rev, Run(rev, acts[..|acts| - 1]), acts[|acts| - 1])
  }

  // ---- The bootstrap arm ------------------------------------------------------------------------

  /** The NOT EXISTS sees rows of a workspace exactly when the actor is one of its members. */
  lemma NoneVisibleExactlyForNonMembers(st: State, w: Workspace, actor: Option<User>)
    ensures NoneVisible(st, w, actor) <==> !IsMember(st, w, actor)
  {
    if IsMember(st, w, actor) {
      assert (w, actor.value) in VisibleMembers(st, actor);
    }
  }

  /** In revision 0022 the creator's arm contradicts itself, so the policy is the one of 0021. */
  lemma Revision0022AdmitsOnlyAdmins(st: State, actor: Option<User>, w: Workspace, u: User, role: Role)
    ensures MayInsert(Rev0022, st, actor, w, u, role) <==> MayInsert(Rev0021, st, actor, w, u, role)
    ensures MayInsert(Rev0022, st, actor, w, u, role) <==> IsAdmin(st, w, actor)
  {
    NoneVisibleExactlyForNonMembers(st, w, actor);
  }

  /** From an empty database no run of revision 0021 or 0022 ever holds a membership. */
  lemma {:induction false} NobodyEverJoinsBefore0023(rev: Revision, acts: seq<Action>)
    requires rev == Rev0021 || rev == Rev0022
    ensures Run(rev, acts).members == map[]
  {
    if acts != [] {
      var st, act := Run(rev, acts[..|acts| - 1]), acts[|acts| - 1];
      NobodyEverJoinsBefore0023(rev, acts[..|acts| - 1]);
      if act.Insert? {
        Revision0022AdmitsOnlyAdmins(st, act.actor, act.w, act.u, act.role);
      }
    }
  }

  /** From 0023 on: who may insert what, in terms of the full table. */
  lemma InsertTakesExactlyFor(rev: Revision, st: State, actor: Option<User>, w: Workspace, u: User, role: Role)
    requires rev == Rev0023 || rev == Rev0024
    ensures Takes(rev, st, Insert(actor, w, u, role)) <==>
      && w in st.workspaces && (w, u) !in st.members
      && (IsAdmin(st, w, actor) || (actor == Some(u) && role == Admin && IsCreator(st, w, actor)))
  {
    NoneVisibleExactlyForNonMembers(st, w, actor);
  }

  /** The recorded creator who is not a member can always insert their own admin row. */
  lemma CreatorCanAlwaysStart(rev: Revision, st: State, w: Workspace)
    requires rev == Rev0023 || rev == Rev0024
    requires w in st.workspaces && (w, st.workspaces[w]) !in st.members
    ensures var creator := st.workspaces[w];
      var next := Apply(rev, st, Insert(Some(creator), w, creator, Admin));
      next == st.(members := st.members[(w, creator) := Admin]) && IsAdmin(next, w, Some(creator))
  {
    InsertTakesExactlyFor(rev, st, Some(st.workspaces[w]), w, st.workspaces[w], Admin);
  }

  predicate Unpopulated(st: State, w: Workspace) {
    forall k | k in st.members :: k.0 != w
  }

  /**
   * Against the documented "no memberships exist yet": the arm holds of a workspace that has members,
   * for a creator who has left it.
   */
  lemma CreatorReturnsToAPopulatedWorkspace()
    ensures exists acts, w, c ::
      var st := Run(Rev0024, acts);
      && !Unpopulated(st, w) && !IsAdmin(st, w, Some(c))
      && Takes(Rev0024, st, Insert(Some(c), w, c, Admin))
  {
    var acts := [
      CreateWorkspace(Some(1), 5, 1), Insert(Some(1), 5, 1, Admin),
      Insert(Some(1), 5, 2, Editor), Delete(Some(1), 5, 1)];
    var s1 := State(map[5 := 1], map[]);
    var s2 := State(map[5 := 1], map[(5, 1) := Admin]);
    var s3 := State(map[5 := 1], map[(5, 1) := Admin, (5, 2) := Editor]);
    var s4 := State(map[5 := 1], map[(5, 2) := Editor]);
    assert Run(Rev0024, []) == State(map[], map[]);
    assert acts[..1][..0] == [] && acts[..2][..1] == acts[..1] && acts[..3][..2] == acts[..2] && acts[..4] == acts;
    assert Run(Rev0024, acts[..1]) == s1;
    InsertTakesExactlyFor(Rev0024, s1, Some(1), 5, 1, Admin);
    assert Run(Rev0024, acts[..2]) == s2;
    assert Run(Rev0024, acts[..3]) == s3;
    assert s3.members - {(5, 1)} == s4.members;
    assert Run(Rev0024, acts) == s4;
    InsertTakesExactlyFor(Rev0024, s4, Some(1), 5, 1, Admin);
    assert (5, 2) in s4.members;
  }

  /** The arm agrees with that description unless the creator is outside a workspace others are in. */
  lemma ArmAgreesWithItsDescriptionExactly(st: State, w: Workspace, c: User)
    requires IsCreator(st, w, Some(c))
    ensures BootstrapArm(st, Some(c), w, c, Admin) <==> !IsMember(st, w, Some(c))
    ensures (BootstrapArm(st, Some(c), w, c, Admin) <==> Unpopulated(st, w)) <==>
      Unpopulated(st, w) || IsMember(st, w, Some(c))
  {
    NoneVisibleExactlyForNonMembers(st, w, Some(c));
  }

  /** A member's own delete takes effect for everyone in 0024, and before it only for admins. */
  lemma LeavingTakesEffectExactly(rev: Revision, st: State, w: Workspace, u: User)
    requires (w, u) in st.members
    ensures (w, u) !in Apply(rev, st, Delete(Some(u), w, u)).members <==>
      rev == Rev0024 || st.members[(w, u)] == Admin
    ensures forall k | k in st.members && k != (w, u) ::
      k in Apply(rev, st, Delete(Some(u), w, u)).members
      && Apply(rev, st, Delete(Some(u), w, u)).members[k] == st.members[k]
  {
  }

  // ---- Provenance -------------------------------------------------------------------------------

  /** What a statement wrote at (w, u), if it wrote there. */
  predicate Writes(act: Action, w: Workspace, u: User, role: Role) {
    match act
    case Insert(_, aw, au, ar) => (aw, au, ar) == (w, u, role)
    case Update(_, _, _, toW, toU, ar) => (toW, toU, ar) == (w, u, role)
    case _ => false
  }

  /** The recorded creator inserting their own admin row. */
  predicate Bootstrap(st: State, act: Action, w: Workspace) {
    && act.Insert? && act.w == w && act.role == Admin && act.actor == Some(act.u)
    && w in st.workspaces && st.workspaces[w] == act.u && (w, act.u) !in st.members
  }

  /**
   * The row (w, u, role) was written by some step of the run that the policies took, and that step was
   * the recorded creator's own, or its actor was then an admin of `w` whose own row has a provenance.
   */
  ghost predicate Provenance(rev: Revision, acts: seq<Action>, w: Workspace, u: User, role: Role)
    decreases |acts|
  {
    exists i | 0 <= i < |acts| :: Granted(rev, acts, i, w, u, role)
  }

  ghost predicate Granted(rev: Revision, acts: seq<Action>, i: nat, w: Workspace, u: User, role: Role)
    requires i < |acts|
    decreases i
  {
    var st := Run(rev, acts[..i]);
    && Takes(rev, st, acts[i]) && Writes(acts[i], w, u, role)
    && (Bootstrap(st, acts[i], w)
        || (IsAdmin(st, w, acts[i].actor)
            && exists j | 0 <= j < i :: Granted(rev, acts, j, w, acts[i].actor.value, Admin)))
  }

  /** A step of a run is a step of every extension of the run. */
  lemma GrantedExtends(rev: Revision, acts: seq<Action>, more: seq<Action>, i: nat,
                       w: Workspace, u: User, role: Role)
    requires i < |acts| && Granted(rev, acts, i, w, u, role)
    ensures Granted(rev, acts + more, i, w, u, role)
    decreases i
  {
    assert (acts + more)[..i] == acts[..i];
    var st := Run(rev, acts[..i]);
    if !Bootstrap(st, acts[i], w) {
      var j :| 0 <= j < i && Granted(rev, acts, j, w, acts[i].actor.value, Admin);
      GrantedExtends(rev, acts, more, j, w, acts[i].actor.value, Admin);
    }
  }

  /** A row that is there after a step was there before, or the step wrote it. */
  lemma RowsComeFromWrites(rev: Revision, st: State, act: Action, w: Workspace, u: User)
    requires (w, u) in Apply(rev, st, act).members
    ensures var role := Apply(rev, st, act).members[(w, u)];
      || ((w, u) in st.members && st.members[(w, u)] == role)
      || (Takes(rev, st, act) && Writes(act, w, u, role) && (Bootstrap(st, act, w) || IsAdmin(st, w, act.actor)))
  {
    if act.Insert? && (rev == Rev0023 || rev == Rev0024) {
      InsertTakesExactlyFor(rev, st, act.actor, act.w, act.u, act.role);
    } else if act.Insert? {
      Revision0022AdmitsOnlyAdmins(st, act.actor, act.w, act.u, act.role);
    }
  }

  /** In every run, every membership in its current role traces back to a bootstrap by its creator. */
  lemma {:induction false} EveryMembershipTracesBack(rev: Revision, acts: seq<Action>, w: Workspace, u: User)
    requires (w, u) in Run(rev, acts).members
    ensures Provenance(rev, acts, w, u, Run(rev, acts).members[(w, u)])
    decreases |acts|, 0
  {
    hide Takes, MayInsert, Bootstrap, Apply, Granted;
    var n := |acts| - 1;
    var front, act := acts[..n], acts[n];
    var st, role := Run(rev, front), Run(rev, acts).members[(w, u)];
    assert acts == front + [act];
    RowsComeFromWrites(rev, st, act, w, u);
    if (w, u) in st.members && st.members[(w, u)] == role {
      EveryMembershipTracesBack(rev, front, w, u);
      var i :| 0 <= i < |front| && Granted(rev, front, i, w, u, role);
      GrantedExtends(rev, front, [act], i, w, u, role);
    } else {
      LastStepGrants(rev, front, act, w, u, role);
    }
  }

  lemma {:induction false} LastStepGrants(rev: Revision, front: seq<Action>, act: Action,
                                          w: Workspace, u: User, role: Role)
    requires var st := Run(rev, front);
      Takes(rev, st, act) && Writes(act, w, u, role) && (Bootstrap(st, act, w) || IsAdmin(st, w, act.actor))
    ensures Granted(rev, front + [act], |front|, w, u, role)
    decreases |front|, 1
  {
    hide Takes, Bootstrap;
    var st, acts := Run(rev, front), front + [act];
    assert acts[..|front|] == front;
    if !Bootstrap(st, act, w) {
      EveryMembershipTracesBack(rev, front, w, act.actor.value);
      var j :| 0 <= j < |front| && Granted(rev, front, j, w, act.actor.value, Admin);
      GrantedExtends(rev, front, [act], j, w, act.actor.value, Admin);
    }
  }

  /** So a workspace with any member was once bootstrapped by the creator recorded at that time. */
  lemma {:induction false} GrantsAreRooted(rev: Revision, acts: seq<Action>, i: nat,
                                           w: Workspace, u: User, role: Role)
    requires i < |acts| && Granted(rev, acts, i, w, u, role)
    ensures exists k | 0 <= k <= i :: Bootstrap(Run(rev, acts[..k]), acts[k], w)
    decreases i
  {
    if !Bootstrap(Run(rev, acts[..i]), acts[i], w) {
      var j :| 0 <= j < i && Granted(rev, acts, j, w, acts[i].actor.value, Admin);
      GrantsAreRooted(rev, acts, j, w, acts[i].actor.value, Admin);
    }
  }

  /** No workspace gains its first member other than by its recorded creator. */
  lemma PopulatedMeansBootstrapped(rev: Revision, acts: seq<Action>, w: Workspace, u: User)
    requires (w, u) in Run(rev, acts).members
    ensures exists k | 0 <= k < |acts| :: Bootstrap(Run(rev, acts[..k]), acts[k], w)
  {
    EveryMembershipTracesBack(rev, acts, w, u);
    var role := Run(rev, acts).members[(w, u)];
    var i :| 0 <= i < |acts| && Granted(rev, acts, i, w, u, role);
    GrantsAreRooted(rev, acts, i, w, u, role);
  }

  /** Someone who is neither admin nor recorded creator of `w` can at most remove their own row from it. */
  lemma OutsidersChangeNothingElse(rev: Revision, st: State, act: Action, w: Workspace, u: User)
    requires !IsAdmin(st, w, act.actor) && !IsCreator(st, w, act.actor)
    requires act.actor != Some(u)
    ensures (w, u) in Apply(rev, st, act).members <==> (w, u) in st.members
    ensures (w, u) in st.members ==> Apply(rev, st, act).members[(w, u)] == st.members[(w, u)]
    ensures act.actor == None ==> Apply(rev, st, act) == st
  {
  }

  // ---- Cell by cell -----------------------------------------------------------------------------

  function RoleAt(st: State, w: Workspace, u: User): Option<Role> {
    if (w, u) in st.members then Some(st.members[(w, u)]) else None
  }

  function CreatorAt(st: State, w: Workspace): Option<User> {
    if w in st.workspaces then Some(st.workspaces[w]) else None
  }

  /** The full table has this user as an admin of the workspace. */
  predicate Administers(st: State, who: Option<User>, w: Workspace) {
    who.Some? && RoleAt(st, w, who.value) == Some(Admin)
  }

  /**
   * What a statement makes of one user's role in one workspace.  Admins insert, change, move and delete any
   * membership of theirs; from 0023 on a creator inserts their own admin row, from 0024 on a user deletes
   * their own; a move needs an admin of both ends and a free place; nothing else changes a role.
   */
  lemma RoleChangesExactly(rev: Revision, st: State, act: Action, w: Workspace, u: User)
    ensures RoleAt(Apply(rev, st, act), w, u) ==
      match act
      case Insert(actor, aw, au, role) =>
        if (aw, au) == (w, u) && CreatorAt(st, w) != None && RoleAt(st, w, u) == None
           && (Administers(st, actor, w)
               || ((rev == Rev0023 || rev == Rev0024) && actor == Some(u) && role == Admin && CreatorAt(st, w) == actor))
        then Some(role) else RoleAt(st, w, u)
      case Update(actor, aw, au, toW, toU, role) =>
        if RoleAt(st, aw, au) == None || !Administers(st, actor, aw) || !Administers(st, actor, toW)
           || CreatorAt(st, toW) == None || ((toW, toU) != (aw, au) && RoleAt(st, toW, toU) != None)
        then RoleAt(st, w, u)
        else if (toW, toU) == (w, u) then Some(role)
        else if (aw, au) == (w, u) then None
        else RoleAt(st, w, u)
      case Delete(actor, aw, au) =>
        if (aw, au) == (w, u) && (Administers(st, actor, w) || (rev == Rev0024 && actor == Some(u))) then None
        else RoleAt(st, w, u)
      case _ => RoleAt(st, w, u)
  {
    match act
    case Insert(actor, aw, au, role) =>
      if rev == Rev0023 || rev == Rev0024 {
        InsertTakesExactlyFor(rev, st, actor, aw, au, role);
      } else {
        Revision0022AdmitsOnlyAdmins(st, actor, aw, au, role);
      }
    case _ =>
  }

  /** A workspace's recorded creator is whoever first created it, in their own name, until an admin rewrites it. */
  lemma CreatorChangesExactly(rev: Revision, st: State, act: Action, w: Workspace)
    ensures CreatorAt(Apply(rev, st, act), w) ==
      if act.CreateWorkspace? && act.w == w && CreatorAt(st, w) == None && act.actor == Some(act.createdBy)
      then act.actor
      else if act.UpdateWorkspace? && act.w == w && CreatorAt(st, w) != None && Administers(st, act.actor, w)
      then Some(act.createdBy)
      else CreatorAt(st, w)
  {
  }
}
