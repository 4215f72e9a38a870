/** Provider concurrency budgets under concurrent transactions. A transaction locks the
    budget row, counts what is in flight, and moves assignments into flight; its moves are
    visible to others only when it commits, and its row locks last until it ends or rolls
    back to the savepoint that took them. A run is an arbitrary interleaving of steps; a
    step whose guard fails (a lock held by someone else, say) leaves the state unchanged. */
module ProviderBudgets {
  type WorkspaceId = nat
  type AssignmentId = nat
  type TxnId = nat

  datatype Key = Key(workspace: WorkspaceId, provider: string)

  /** What dispatch_stage writes when it is called without a provider. */
  const DEFAULT_PROVIDER := "draft_desk"

  datatype Row = Row(key: Key, inFlight: bool)

  /** Where a transaction stands with has_provider_capacity: waiting to count under the
      lock, or answered true. `gated` is false when no budget was found or none was looked for. */
  datatype Check = Idle | Counting(key: Key) | Passed(key: Key, gated: bool)

  /** `grants` are this transaction's uncommitted moves into flight. */
  datatype Txn = Txn(check: Check, grants: map<AssignmentId, Key>, ungated: set<AssignmentId>)

  datatype State = State(
    rows: map<AssignmentId, Row>,
    budgets: map<Key, nat>,
    locks: map<Key, TxnId>,
    txns: map<TxnId, Txn>)

  const INIT := State(map[], map[], map[], map[])

  datatype Step =
    | AddPending(a: AssignmentId, k: Key)
    | SetBudget(k: Key, max: nat)
    | DeleteBudget(k: Key)
    | Begin(t: TxnId)
    | LockBudget(t: TxnId, k: Key)
    | CountInFlight(t: TxnId)
    | SkipCheck(t: TxnId, ws: WorkspaceId)
    | Grant(t: TxnId, a: AssignmentId)
    | RollbackToSavepoint(t: TxnId, k: Key)
    | Commit(t: TxnId)
    | Abort(t: TxnId)
    | Leave(a: AssignmentId)

  /** Committed assignments in flight under `k`: DISPATCHED or ACKNOWLEDGED. */
  function InFlight(rows: map<AssignmentId, Row>, k: Key): set<AssignmentId> {
    set a | a in rows && rows[a].inFlight && rows[a].key == k
  }

  /** A transaction's own uncommitted moves under `k`. */
  function Own(txn: Txn, k: Key): set<AssignmentId> {
    set a | a in txn.grants && txn.grants[a] == k
  }

  /** What the count query returns inside transaction `t`. */
  function Seen(st: State, t: TxnId, k: Key): nat
    requires t in st.txns
  {
    |InFlight(st.rows, k)| + |Own(st.txns[t], k)|
  }

  function WithTxn(st: State, t: TxnId, txn: Txn): State {
    st.(txns := st.txns[t := txn])
  }

  function SetBudgetRow(st: State, k: Key, max: nat): State {
    if k.provider == "" || k in st.locks then st else st.(budgets := st.budgets[k := max])
  }

  function DeleteBudgetRow(st: State, k: Key): State {
    if k in st.locks then st else st.(budgets := st.budgets - {k})
  }

  /** SELECT ... FOR UPDATE on the budget row: nothing to lock means no limit. */
  function Lock(st: State, t: TxnId, k: Key): State {
    if t !in st.txns || k.provider == "" then st
    else if k !in st.budgets then WithTxn(st, t, st.txns[t].(check := Passed(k, false)))
    else if k in st.locks && st.locks[k] != t then st
    else WithTxn(st, t, st.txns[t].(check := Counting(k))).(locks := st.locks[k := t])
  }

  function CountUnderLock(st: State, t: TxnId): State {
    if t !in st.txns || !st.txns[t].check.Counting? || st.txns[t].check.key !in st.budgets then st
    else
      var k := st.txns[t].check.key;
      WithTxn(st, t, st.txns[t].(check := if Seen(st, t, k) < st.budgets[k] then Passed(k, true) else Idle))
  }

  /** No provider given: has_provider_capacity answers true without looking, and the
      dispatcher then writes its default provider. */
  function PassUnchecked(st: State, t: TxnId, ws: WorkspaceId): State {
    if t !in st.txns then st
    else WithTxn(st, t, st.txns[t].(check := Passed(Key(ws, DEFAULT_PROVIDER), false)))
  }

  predicate Untouched(st: State, a: AssignmentId) {
    forall u | u in st.txns :: a !in st.txns[u].grants
  }

  /** Move a pending row, or a newly created one, into flight. One pass, one move. */
  function MoveIntoFlight(st: State, t: TxnId, a: AssignmentId): State {
    if t !in st.txns || !st.txns[t].check.Passed? || !Untouched(st, a) then st
    else
      var txn, k := st.txns[t], st.txns[t].check.key;
      if a in st.rows && (st.rows[a].inFlight || st.rows[a].key != k) then st
      else
        WithTxn(st, t, Txn(Idle, txn.grants[a := k], if txn.check.gated then txn.ungated else txn.ungated + {a}))
  }

  /** Undo the lock taken for a candidate that was over budget, or not used. */
  function ReleaseCandidate(st: State, t: TxnId, k: Key): State {
    if t !in st.txns || k !in st.locks || st.locks[k] != t || Own(st.txns[t], k) != {} then st
    else WithTxn(st, t, st.txns[t].(check := Idle)).(locks := st.locks - {k})
  }

  function LocksWithout(st: State, t: TxnId): map<Key, TxnId> {
    map k | k in st.locks && st.locks[k] != t :: st.locks[k]
  }

  function CommitTxn(st: State, t: TxnId): State {
    if t !in st.txns then st
    else
      var grants := st.txns[t].grants;
      State(st.rows + (map a | a in grants :: Row(grants[a], true)), st.budgets, LocksWithout(st, t), st.txns - {t})
  }

  function AbortTxn(st: State, t: TxnId): State {
    if t !in st.txns then st else st.(locks := LocksWithout(st, t), txns := st.txns - {t})
  }

  function Apply(st: State, step: Step): State {
    match step
    case AddPending(a, k) =>
      if a in st.rows || !Untouched(st, a) then st else st.(rows := st.rows[a := Row(k, false)])
    case SetBudget(k, max) => SetBudgetRow(st, k, max)
    case DeleteBudget(k) => DeleteBudgetRow(st, k)
    case Begin(t) => if t in st.txns then st else WithTxn(st, t, Txn(Idle, map[], {}))
    case LockBudget(t, k) => Lock(st, t, k)
    case CountInFlight(t) => CountUnderLock(st, t)
    case SkipCheck(t, ws) => PassUnchecked(st, t, ws)
    case Grant(t, a) => MoveIntoFlight(st, t, a)
    case RollbackToSavepoint(t, k) => ReleaseCandidate(st, t, k)
    case Commit(t) => CommitTxn(st, t)
    case Abort(t) => AbortTxn(st, t)
    case Leave(a) =>
      if a in st.rows && st.rows[a].inFlight then st.(rows := st.rows[a := st.rows[a].(inFlight := false)]) else st
  }

  // ---------------------------------------------------------------------------
  // The discipline a key needs, and the invariant it buys

  /** No open transaction has passed or moved anything under `k` without counting. */
  ghost predicate AllGated(st: State, k: Key) {
    forall t | t in st.txns ::
      && st.txns[t].check != Passed(k, false)
      && (forall a | a in Own(st.txns[t], k) :: a !in st.txns[t].ungated)
  }

  /** The two ways a move under a budgeted key escapes the count: a dispatch that names no
      provider while its default provider is budgeted, and a budget created while a
      transaction that found none is still open. */
  ghost predicate Respects(st: State, step: Step, k: Key) {
    && (step.SkipCheck? && Key(step.ws, DEFAULT_PROVIDER) == k ==> k !in st.budgets)
    && (step.SetBudget? && step.k == k && k !in st.budgets ==> AllGated(st, k))
  }

  /** Inside the gate of `k`: counting, passed by counting, or holding a counted move. */
  ghost predicate Inside(txn: Txn, k: Key) {
    || txn.check == Counting(k)
    || txn.check == Passed(k, true)
    || exists a :: a in Own(txn, k) && a !in txn.ungated
  }

  /** Whoever is inside the gate of `k` owns its lock, and only a budget row can be locked. */
  ghost predicate LockInv(st: State, k: Key) {
    && (k in st.locks ==> k in st.budgets && st.locks[k] in st.txns)
    && (forall t | t in st.txns && Inside(st.txns[t], k) :: k in st.locks && st.locks[k] == t)
  }

  /** Under a budget there is no way but through the gate. */
  ghost predicate GateInv(st: State, k: Key) {
    LockInv(st, k) && (k in st.budgets ==> AllGated(st, k))
  }

  /** Uncommitted moves concern rows that are not in flight, one transaction each. */
  ghost predicate MovesInv(st: State) {
    && (forall t, a | t in st.txns && a in st.txns[t].grants && a in st.rows ::
          !st.rows[a].inFlight && st.rows[a].key == st.txns[t].grants[a])
    && (forall t | t in st.txns :: st.txns[t].ungated <= st.txns[t].grants.Keys)
    && (forall t, u, a | t in st.txns && u in st.txns && a in st.txns[t].grants && a in st.txns[u].grants :: t == u)
  }

  /** Inside the gate there is room: strictly before the move, at most the cap after it. */
  ghost predicate RoomInv(st: State, k: Key) {
    k in st.budgets ==>
      forall t | t in st.txns ::
        && (st.txns[t].check == Passed(k, true) ==> Seen(st, t, k) < st.budgets[k])
        && (Own(st.txns[t], k) != {} ==> Seen(st, t, k) <= st.budgets[k])
  }

  ghost predicate Inv(st: State, k: Key) {
    GateInv(st, k) && MovesInv(st) && RoomInv(st, k)
  }

  // ---------------------------------------------------------------------------
  // Every step keeps the invariant

  lemma MovesMove(st: State, t: TxnId, a: AssignmentId)
    requires MovesInv(st)
    ensures MovesInv(Apply(st, Grant(t, a)))
  {
    assert Untouched(st, a) ==> forall u | u in st.txns :: a !in st.txns[u].grants;
  }

  lemma MovesCommit(st: State, t: TxnId)
    requires MovesInv(st)
    ensures MovesInv(Apply(st, Commit(t)))
  {
  }

  lemma MovesAdd(st: State, a: AssignmentId, k: Key)
    requires MovesInv(st)
    ensures MovesInv(Apply(st, AddPending(a, k)))
  {
    assert Untouched(st, a) ==> forall u | u in st.txns :: a !in st.txns[u].grants;
  }

  /** A transaction keeps its moves. */
  ghost predicate SameMoves(st: State, next: State) {
    && next.rows == st.rows && next.txns.Keys == st.txns.Keys
    && forall t | t in st.txns ::
      next.txns[t].grants == st.txns[t].grants && next.txns[t].ungated == st.txns[t].ungated
  }

  lemma LockKeepsMoves(st: State, t: TxnId, k: Key)
    ensures SameMoves(st, Lock(st, t, k))
  {
  }

  lemma CountKeepsMoves(st: State, t: TxnId)
    ensures SameMoves(st, CountUnderLock(st, t))
  {
  }

  /** Checking and releasing touch neither rows nor moves. */
  lemma CheckKeepsMoves(st: State, step: Step)
    requires step.LockBudget? || step.CountInFlight? || step.SkipCheck? || step.RollbackToSavepoint?
    ensures SameMoves(st, Apply(st, step))
  {
    hide Lock, CountUnderLock;
    if step.LockBudget? {
      LockKeepsMoves(st, step.t, step.k);
    } else if step.CountInFlight? {
      CountKeepsMoves(st, step.t);
    }
  }

  lemma MovesCheck(st: State, step: Step)
    requires MovesInv(st)
    requires step.LockBudget? || step.CountInFlight? || step.SkipCheck? || step.RollbackToSavepoint?
    ensures MovesInv(Apply(st, step))
  {
    hide Apply;
    CheckKeepsMoves(st, step);
  }

  lemma MovesRest(st: State, step: Step)
    requires MovesInv(st)
    requires step.SetBudget? || step.DeleteBudget? || step.Begin? || step.Abort? || step.Leave?
    ensures MovesInv(Apply(st, step))
  {
  }

  lemma MovesStep(st: State, step: Step)
    requires MovesInv(st)
    ensures MovesInv(Apply(st, step))
  {
    hide *;
    match step
    case Grant(t, a) => MovesMove(st, t, a);
    case Commit(t) => MovesCommit(st, t);
    case AddPending(a, k) => MovesAdd(st, a, k);
    case LockBudget(_, _) => MovesCheck(st, step);
    case CountInFlight(_) => MovesCheck(st, step);
    case SkipCheck(_, _) => MovesCheck(st, step);
    case RollbackToSavepoint(_, _) => MovesCheck(st, step);
    case _ => MovesRest(st, step);
  }

  /** A move adds its assignment to the transaction's own set for its key only. */
  lemma OwnAfterMove(st: State, t: TxnId, a: AssignmentId, k: Key)
    requires t in st.txns && st.txns[t].check.Passed? && MoveIntoFlight(st, t, a) != st
    ensures t in MoveIntoFlight(st, t, a).txns && a !in Own(st.txns[t], k)
    ensures Own(MoveIntoFlight(st, t, a).txns[t], k) ==
      Own(st.txns[t], k) + (if st.txns[t].check.key == k then {a} else {})
  {
  }

  lemma LockMove(st: State, t: TxnId, a: AssignmentId, k: Key)
    requires LockInv(st, k) && MovesInv(st)
    ensures LockInv(Apply(st, Grant(t, a)), k)
  {
  }

  /** Taking the lock on `k` itself. */
  lemma LockTake(st: State, t: TxnId, k: Key)
    requires LockInv(st, k)
    ensures LockInv(Apply(st, LockBudget(t, k)), k)
  {
  }

  /** Taking any other lock. */
  lemma LockOther(st: State, t: TxnId, k: Key, locked: Key)
    requires LockInv(st, k) && locked != k
    ensures LockInv(Apply(st, LockBudget(t, locked)), k)
  {
  }

  lemma LockCount(st: State, t: TxnId, k: Key)
    requires LockInv(st, k)
    ensures LockInv(Apply(st, CountInFlight(t)), k)
  {
  }

  lemma LockRelease(st: State, t: TxnId, k: Key, released: Key)
    requires LockInv(st, k)
    ensures LockInv(Apply(st, RollbackToSavepoint(t, released)), k)
  {
  }

  lemma LockEnd(st: State, t: TxnId, k: Key)
    requires LockInv(st, k)
    ensures LockInv(Apply(st, Commit(t)), k) && LockInv(Apply(st, Abort(t)), k)
  {
  }

  lemma LockRest(st: State, step: Step, k: Key)
    requires LockInv(st, k)
    requires step.AddPending? || step.SetBudget? || step.DeleteBudget? || step.Leave? || step.Begin? || step.SkipCheck?
    ensures LockInv(Apply(st, step), k)
  {
  }

  /** Locks need no discipline: every step keeps them. */
  lemma LockStep(st: State, step: Step, k: Key)
    requires LockInv(st, k) && MovesInv(st)
    ensures LockInv(Apply(st, step), k)
  {
    hide *;
    match step
    case Grant(t, a) => LockMove(st, t, a, k);
    case Commit(t) => LockEnd(st, t, k);
    case Abort(t) => LockEnd(st, t, k);
    case LockBudget(t, locked) => if locked == k { LockTake(st, t, k); } else { LockOther(st, t, k, locked); }
    case CountInFlight(t) => LockCount(st, t, k);
    case RollbackToSavepoint(t, released) => LockRelease(st, t, k, released);
    case _ => LockRest(st, step, k);
  }

  lemma GatedMove(st: State, t: TxnId, a: AssignmentId, k: Key)
    requires AllGated(st, k) && MovesInv(st)
    ensures AllGated(Apply(st, Grant(t, a)), k)
  {
  }

  /** Checking under a budget leads nobody past the count. */
  lemma GatedCheck(st: State, step: Step, k: Key)
    requires AllGated(st, k) && k in st.budgets
    requires step.LockBudget? || step.CountInFlight? || step.RollbackToSavepoint?
      || (step.SkipCheck? && Key(step.ws, DEFAULT_PROVIDER) != k)
    ensures AllGated(Apply(st, step), k)
  {
  }

  lemma GatedRest(st: State, step: Step, k: Key)
    requires AllGated(st, k)
    requires !step.Grant? && !step.LockBudget? && !step.CountInFlight? && !step.RollbackToSavepoint? && !step.SkipCheck?
    ensures AllGated(Apply(st, step), k)
  {
  }

  lemma BudgetCreated(st: State, step: Step, k: Key)
    requires k !in st.budgets && k in Apply(st, step).budgets
    ensures step.SetBudget? && step.k == k && Apply(st, step).txns == st.txns
  {
  }

  lemma GateStep(st: State, step: Step, k: Key)
    requires GateInv(st, k) && MovesInv(st) && Respects(st, step, k)
    ensures GateInv(Apply(st, step), k)
  {
    hide Apply, LockInv, MovesInv, AllGated;
    LockStep(st, step, k);
    if k in Apply(st, step).budgets {
      if k !in st.budgets {
        BudgetCreated(st, step, k);
        GatedRest(st, step, k);
      } else if step.Grant? {
        GatedMove(st, step.t, step.a, k);
      } else if step.LockBudget? || step.CountInFlight? || step.RollbackToSavepoint? || step.SkipCheck? {
        GatedCheck(st, step, k);
      } else {
        GatedRest(st, step, k);
      }
    }
  }

  /** Committing adds exactly the transaction's own moves to what is in flight. */
  lemma CommitAdds(st: State, t: TxnId, k: Key)
    requires MovesInv(st) && t in st.txns
    ensures InFlight(CommitTxn(st, t).rows, k) == InFlight(st.rows, k) + Own(st.txns[t], k)
    ensures |InFlight(CommitTxn(st, t).rows, k)| == Seen(st, t, k)
  {
    CommittedRows(st, t);
    var rows := CommitTxn(st, t).rows;
    hide CommitTxn;
    forall a
      ensures a in InFlight(rows, k) <==> a in InFlight(st.rows, k) + Own(st.txns[t], k)
    {
    }
    DisjointSize(InFlight(st.rows, k), Own(st.txns[t], k));
  }

  lemma DisjointSize<T>(x: set<T>, y: set<T>)
    requires x !! y
    ensures |x + y| == |x| + |y|
  {
  }

  lemma CommittedRows(st: State, t: TxnId)
    requires t in st.txns
    ensures forall a | a in st.txns[t].grants ::
      a in CommitTxn(st, t).rows && CommitTxn(st, t).rows[a] == Row(st.txns[t].grants[a], true)
    ensures forall a | a !in st.txns[t].grants ::
      (a in CommitTxn(st, t).rows <==> a in st.rows) && (a in st.rows ==> CommitTxn(st, t).rows[a] == st.rows[a])
  {
  }

  lemma RoomMove(st: State, t: TxnId, a: AssignmentId, k: Key)
    requires Inv(st, k)
    ensures RoomInv(Apply(st, Grant(t, a)), k)
  {
    if MoveIntoFlight(st, t, a) != st {
      OwnAfterMove(st, t, a, k);
    }
  }

  lemma RoomCommit(st: State, t: TxnId, k: Key)
    requires Inv(st, k)
    ensures RoomInv(Apply(st, Commit(t)), k)
  {
    if t in st.txns {
      CommitAdds(st, t, k);
      if Own(st.txns[t], k) == {} {
        assert InFlight(CommitTxn(st, t).rows, k) == InFlight(st.rows, k);
      }
    }
  }

  lemma RoomLeave(st: State, a: AssignmentId, k: Key)
    requires Inv(st, k)
    ensures RoomInv(Apply(st, Leave(a)), k)
  {
    var next := Apply(st, Leave(a));
    SubsetSize(InFlight(next.rows, k), InFlight(st.rows, k));
    assert next.txns == st.txns && next.budgets == st.budgets;
    assert forall t | t in st.txns :: Seen(next, t, k) <= Seen(st, t, k);
  }

  lemma RoomAdd(st: State, a: AssignmentId, added: Key, k: Key)
    requires Inv(st, k)
    ensures RoomInv(Apply(st, AddPending(a, added)), k)
  {
    assert InFlight(Apply(st, AddPending(a, added)).rows, k) == InFlight(st.rows, k);
  }

  /** Locking leads nobody past the count. */
  lemma LockPassesNobody(st: State, t: TxnId, locked: Key, k: Key)
    ensures var next := Lock(st, t, locked);
      next.budgets == st.budgets && next.txns.Keys == st.txns.Keys
      && forall u | u in st.txns && next.txns[u].check == Passed(k, true) :: st.txns[u].check == Passed(k, true)
  {
  }

  lemma RoomLock(st: State, t: TxnId, locked: Key, k: Key)
    requires Inv(st, k)
    ensures RoomInv(Apply(st, LockBudget(t, locked)), k)
  {
    hide Lock, GateInv, MovesInv;
    LockKeepsMoves(st, t, locked);
    LockPassesNobody(st, t, locked, k);
  }

  lemma RoomCount(st: State, t: TxnId, k: Key)
    requires Inv(st, k)
    ensures RoomInv(Apply(st, CountInFlight(t)), k)
  {
  }

  lemma RoomSkip(st: State, step: Step, k: Key)
    requires Inv(st, k) && (step.SkipCheck? || step.Begin?)
    ensures RoomInv(Apply(st, step), k)
  {
  }

  lemma RoomRelease(st: State, t: TxnId, released: Key, k: Key)
    requires Inv(st, k)
    ensures RoomInv(Apply(st, RollbackToSavepoint(t, released)), k)
  {
  }

  lemma RoomAbort(st: State, t: TxnId, k: Key)
    requires Inv(st, k)
    ensures RoomInv(Apply(st, Abort(t)), k)
  {
  }

  lemma RoomBudget(st: State, step: Step, k: Key)
    requires Inv(st, k) && Respects(st, step, k)
    requires step.SetBudget? || step.DeleteBudget?
    ensures RoomInv(Apply(st, step), k)
  {
  }

  lemma RoomStep(st: State, step: Step, k: Key)
    requires Inv(st, k) && Respects(st, step, k)
    ensures RoomInv(Apply(st, step), k)
  {
    hide *;
    match step
    case Grant(t, a) => RoomMove(st, t, a, k);
    case Commit(t) => RoomCommit(st, t, k);
    case Leave(a) => RoomLeave(st, a, k);
    case AddPending(a, added) => RoomAdd(st, a, added, k);
    case SetBudget(_, _) => RoomBudget(st, step, k);
    case DeleteBudget(_) => RoomBudget(st, step, k);
    case LockBudget(t, locked) => RoomLock(st, t, locked, k);
    case CountInFlight(t) => RoomCount(st, t, k);
    case RollbackToSavepoint(t, released) => RoomRelease(st, t, released, k);
    case Abort(t) => RoomAbort(st, t, k);
    case _ => RoomSkip(st, step, k);
  }

  // ---------------------------------------------------------------------------
  // Over whole runs

  function Run(st: State, steps: seq<Step>): State
    decreases |steps|
  {
    if steps == [] then st else Run(Apply(st, steps[0]), steps[1..])
  }

  /** Every step of the run respects `k`. */
  ghost predicate Disciplined(st: State, steps: seq<Step>, k: Key)
    decreases |steps|
  {
    steps == [] || (Respects(st, steps[0], k) && Disciplined(Apply(st, steps[0]), steps[1..], k))
  }

  lemma InvStep(st: State, step: Step, k: Key)
    requires Inv(st, k) && Respects(st, step, k)
    ensures Inv(Apply(st, step), k)
  {
    hide Apply, GateInv, MovesInv, RoomInv, Respects;
    GateStep(st, step, k);
    MovesStep(st, step);
    RoomStep(st, step, k);
  }

  lemma {:induction false} InvRun(st: State, steps: seq<Step>, k: Key)
    requires Inv(st, k) && Disciplined(st, steps, k)
    ensures Inv(Run(st, steps), k)
    decreases |steps|
  {
    hide Apply, Inv, Respects;
    if steps != [] {
      InvStep(st, steps[0], k);
      InvRun(Apply(st, steps[0]), steps[1..], k);
    }
  }

  function Load(st: State, k: Key): nat {
    |InFlight(st.rows, k)|
  }

  /** Only a commit raises what is in flight. */
  lemma OnlyCommitsAdd(st: State, step: Step, k: Key)
    requires !step.Commit?
    ensures Load(Apply(st, step), k) <= Load(st, k)
  {
    var after, before := InFlight(Apply(st, step).rows, k), InFlight(st.rows, k);
    assert after <= before;
    SubsetSize(after, before);
  }

  lemma {:induction false} SubsetSize<T>(x: set<T>, y: set<T>)
    requires x <= y
    ensures |x| <= |y|
  {
    assert y == x + (y - x);
  }

  lemma InvGrowth(st: State, step: Step, k: Key)
    requires Inv(st, k)
    ensures var next := Apply(st, step);
      k in next.budgets && Load(next, k) > Load(st, k) ==> Load(next, k) <= next.budgets[k]
  {
    if !step.Commit? {
      OnlyCommitsAdd(st, step, k);
    } else if step.t in st.txns {
      CommitAdds(st, step.t, k);
    }
  }

  /** Any step that raises the load of a budgeted key leaves it at most the budget. */
  lemma GrowthStaysWithinBudget(steps: seq<Step>, step: Step, k: Key)
    requires Disciplined(INIT, steps, k)
    ensures var st, next := Run(INIT, steps), Apply(Run(INIT, steps), step);
      k in next.budgets && Load(next, k) > Load(st, k) ==> Load(next, k) <= next.budgets[k]
  {
    hide Apply, Inv;
    InitInv(k);
    InvRun(INIT, steps, k);
    InvGrowth(Run(INIT, steps), step, k);
  }

  lemma InitInv(k: Key)
    ensures Inv(INIT, k)
  {
  }

  /** From within the cap the load stays within it; from above the cap (a budget created or
      lowered late) it never grows. */
  lemma {:induction false} CapIsInvariant(steps: seq<Step>, step: Step, k: Key)
    requires Disciplined(INIT, steps, k)
    requires !(step.SetBudget? && step.k == k)
    ensures var st, next := Run(INIT, steps), Apply(Run(INIT, steps), step);
      k in st.budgets && k in next.budgets ==>
        && next.budgets[k] == st.budgets[k]
        && (Load(st, k) <= st.budgets[k] ==> Load(next, k) <= next.budgets[k])
        && (Load(st, k) > st.budgets[k] ==> Load(next, k) <= Load(st, k))
  {
    GrowthStaysWithinBudget(steps, step, k);
  }

  /** Asking has_provider_capacity, uninterrupted: a blank provider is not looked up, and the
      dispatcher that goes on has named none; any other locks its budget and counts. */
  function Asked(st: State, t: TxnId, k: Key): State {
    if k.provider == "" then Apply(st, SkipCheck(t, k.workspace))
    else Apply(Apply(st, LockBudget(t, k)), CountInFlight(t))
  }

  /** It answers true exactly for a blank provider, a missing budget, or fewer in flight, own
      moves included, than the budget allows; only the last answer comes from the gate. */
  lemma HasProviderCapacity(st: State, t: TxnId, k: Key)
    requires t in st.txns && (k in st.locks ==> st.locks[k] == t)
    ensures var answer := Asked(st, t, k).txns;
      && t in answer && (answer[t].check.Passed? || answer[t].check == Idle)
      && (answer[t].check.Passed? <==> k.provider == "" || k !in st.budgets || Seen(st, t, k) < st.budgets[k])
      && (answer[t].check.Passed? ==> answer[t].check.gated == (k.provider != "" && k in st.budgets))
  {
  }
}
