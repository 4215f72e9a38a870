/**
 * What one step of the budget model changes, seen from each part of the state, and what a
 * transaction that ends leaves behind.
 */
module BudgetSteps {
  import opened Foundations
  import opened ProviderBudgets

  function Budget(st: State, k: Key): Option<nat> {
    if k in st.budgets then Some(st.budgets[k]) else None
  }

  function Owner(st: State, k: Key): Option<TxnId> {
    if k in st.locks then Some(st.locks[k]) else None
  }

  function RowAt(st: State, a: AssignmentId): Option<Row> {
    if a in st.rows then Some(st.rows[a]) else None
  }

  function TxnAt(st: State, t: TxnId): Option<Txn> {
    if t in st.txns then Some(st.txns[t]) else None
  }

  // ---------------------------------------------------------------------------
  // Leaving

  /** Finishing an assignment in flight frees one slot of its own key, and changes nothing else. */
  lemma LeaveFreesOneSlot(st: State, a: AssignmentId, other: Key)
    requires a in st.rows && st.rows[a].inFlight
    ensures var next, k := Apply(st, Leave(a)), st.rows[a].key;
      && Load(next, k) == Load(st, k) - 1
      && InFlight(next.rows, k) == InFlight(st.rows, k) - {a}
      && (other != k ==> InFlight(next.rows, other) == InFlight(st.rows, other))
      && next.rows.Keys == st.rows.Keys && next.rows[a].key == k
      && (forall b | b in st.rows && b != a :: next.rows[b] == st.rows[b])
      && next.budgets == st.budgets && next.locks == st.locks && next.txns == st.txns
  {
    var next, k := Apply(st, Leave(a)), st.rows[a].key;
    assert a in InFlight(st.rows, k);
    assert InFlight(next.rows, k) == InFlight(st.rows, k) - {a};
  }

  /** At a full budget nobody passes; once one assignment has left, the next to ask does. */
  lemma LeaveMakesRoom(st: State, a: AssignmentId, t: TxnId, k: Key)
    requires a in st.rows && st.rows[a] == Row(k, true)
    requires k.provider != "" && k in st.budgets && Load(st, k) == st.budgets[k]
    requires t in st.txns && Own(st.txns[t], k) == {} && (k in st.locks ==> st.locks[k] == t)
    ensures Asked(st, t, k).txns[t].check == Idle
    ensures Asked(Apply(st, Leave(a)), t, k).txns[t].check == Passed(k, true)
  {
    LeaveFreesOneSlot(st, a, k);
    var next := Apply(st, Leave(a));
    hide Apply;
    HasProviderCapacity(st, t, k);
    HasProviderCapacity(next, t, k);
    PassedUnder(st, t, k);
    PassedUnder(next, t, k);
  }

  /** A pass that was counted is a pass under the key asked for. */
  lemma PassedUnder(st: State, t: TxnId, k: Key)
    requires t in st.txns && (k in st.locks ==> st.locks[k] == t)
    ensures var answer := Asked(st, t, k).txns;
      t in answer && (answer[t].check.Passed? && k.provider != "" ==> answer[t].check.key == k)
  {
  }

  // ---------------------------------------------------------------------------
  // Part by part, when a step changes it and to what

  /** A budget changes only by being set or deleted while nobody holds its lock; a blank provider has none. */
  lemma BudgetChangesExactly(st: State, step: Step, k: Key)
    ensures Budget(Apply(st, step), k) ==
      if step.SetBudget? && step.k == k && k.provider != "" && k !in st.locks then Some(step.max)
      else if step == DeleteBudget(k) && k !in st.locks then None
      else Budget(st, k)
  {
  }

  /** A lock is taken by locking an existing free budget, and given back by rolling back a candidate
      that moved nothing, or by ending. */
  lemma OwnerChangesExactly(st: State, step: Step, k: Key)
    ensures Owner(Apply(st, step), k) ==
      if step.LockBudget? && step.k == k && step.t in st.txns && k.provider != "" && k in st.budgets && k !in st.locks
      then Some(step.t)
      else if step.RollbackToSavepoint? && step.k == k && step.t in st.txns && Owner(st, k) == Some(step.t)
              && k !in st.txns[step.t].grants.Values
      then None
      else if (step.Commit? || step.Abort?) && step.t in st.txns && Owner(st, k) == Some(step.t) then None
      else Owner(st, k)
  {
    if step.RollbackToSavepoint? && step.k == k && step.t in st.txns {
      var txn := st.txns[step.t];
      if k in txn.grants.Values {
        var a :| a in txn.grants && txn.grants[a] == k;
        assert a in Own(txn, k);
      } else {
        assert Own(txn, k) == {};
      }
    }
  }

  /** A row appears pending, or in flight with the commit that moved it; it leaves flight by leaving. */
  lemma RowChangesExactly(st: State, step: Step, a: AssignmentId)
    ensures RowAt(Apply(st, step), a) ==
      if step.AddPending? && step.a == a && a !in st.rows && (forall u | u in st.txns :: a !in st.txns[u].grants)
      then Some(Row(step.k, false))
      else if step.Commit? && step.t in st.txns && a in st.txns[step.t].grants
      then Some(Row(st.txns[step.t].grants[a], true))
      else if step == Leave(a) && a in st.rows then Some(Row(st.rows[a].key, false))
      else RowAt(st, a)
  {
    if step.Commit? && step.t in st.txns {
      CommittedRows(st, step.t);
    }
  }

  /** Whose step it is. */
  predicate StepOf(step: Step, t: TxnId) {
    match step
    case Begin(u) => u == t
    case LockBudget(u, _) => u == t
    case CountInFlight(u) => u == t
    case SkipCheck(u, _) => u == t
    case Grant(u, _) => u == t
    case RollbackToSavepoint(u, _) => u == t
    case Commit(u) => u == t
    case Abort(u) => u == t
    case _ => false
  }

  /** A transaction opens by beginning, closes by committing or aborting, and is changed by nobody else. */
  lemma TransactionsAreTheirOwn(st: State, step: Step, t: TxnId)
    ensures t in Apply(st, step).txns <==>
      if step == Begin(t) then true else if step == Commit(t) || step == Abort(t) then false else t in st.txns
    ensures !StepOf(step, t) ==> TxnAt(Apply(st, step), t) == TxnAt(st, t)
    ensures t !in st.txns && step == Begin(t) ==> Apply(st, step).txns[t] == Txn(Idle, map[], {})
    ensures t in st.txns && step == Begin(t) ==> Apply(st, step) == st
  {
  }

  /** A move takes a pass and uses it up: it takes effect exactly for an assignment nobody is moving that
      is new, or pending under the key passed for, and it is the only way to gain a move. */
  lemma MovesChangeExactly(st: State, step: Step, t: TxnId)
    requires t in st.txns && t in Apply(st, step).txns
    ensures var before, after := st.txns[t], Apply(st, step).txns[t];
      if step.Grant? && step.t == t && before.check.Passed?
         && (forall u | u in st.txns :: step.a !in st.txns[u].grants)
         && (step.a !in st.rows || st.rows[step.a] == Row(before.check.key, false))
      then
        && after.check == Idle
        && after.grants == before.grants[step.a := before.check.key]
        && (forall a :: a in after.ungated <==> a in before.ungated || (a == step.a && !before.check.gated))
      else
        && after.grants == before.grants && after.ungated == before.ungated
        && (step.Grant? ==> after.check == before.check)
  {
  }

  /** Where a step leads its transaction's check; only counting under the lock can say no. */
  lemma CheckChangesExactly(st: State, step: Step, t: TxnId)
    requires t in st.txns && StepOf(step, t) && !step.Grant? && !step.Commit? && !step.Abort?
    ensures t in Apply(st, step).txns
    ensures var before, after := st.txns[t].check, Apply(st, step).txns[t].check;
      after ==
        if step.LockBudget? && step.k.provider != "" && Lockable(st, step.k, t)
        then (if step.k in st.budgets then Counting(step.k) else Passed(step.k, false))
        else if step.CountInFlight? && before.Counting? && before.key in st.budgets
        then (if Load(st, before.key) + |Own(st.txns[t], before.key)| < st.budgets[before.key]
              then Passed(before.key, true) else Idle)
        else if step.SkipCheck? then Passed(Key(step.ws, "draft_desk"), false)
        else if step.RollbackToSavepoint? && Owner(st, step.k) == Some(t) && Own(st.txns[t], step.k) == {} then Idle
        else before
  {
  }

  predicate Lockable(st: State, k: Key, t: TxnId) {
    k !in st.budgets || Owner(st, k) == None || Owner(st, k) == Some(t)
  }

  // ---------------------------------------------------------------------------
  // Undoing

  /** Rolling back the candidate undoes the lock it took, whatever the count said. */
  lemma RollbackUndoesTheCandidate(st: State, t: TxnId, k: Key)
    requires t in st.txns && st.txns[t].check == Idle && Own(st.txns[t], k) == {}
    requires k.provider != "" && k in st.budgets && k !in st.locks
    ensures Owner(Asked(st, t, k), k) == Some(t)
    ensures Apply(Asked(st, t, k), RollbackToSavepoint(t, k)) == st
  {
    var asked := Asked(st, t, k);
    assert asked.txns[t].(check := Idle) == st.txns[t];
    assert st.txns[t := st.txns[t]] == st.txns;
    assert asked.locks - {k} == st.locks;
  }

  /** `st` is `origin` but for transaction `t` and the locks it holds. */
  ghost predicate Apart(origin: State, st: State, t: TxnId) {
    && st.rows == origin.rows && st.budgets == origin.budgets
    && (forall u | u != t :: TxnAt(st, u) == TxnAt(origin, u))
    && (forall k :: Owner(st, k) == Some(t) || Owner(st, k) == Owner(origin, k))
    && (forall k :: Owner(st, k) == Some(t) ==> Owner(origin, k) == None && t in st.txns)
  }

  lemma StaysApart(origin: State, st: State, t: TxnId, step: Step)
    requires Apart(origin, st, t) && StepOf(step, t) && !step.Commit?
    ensures Apart(origin, Apply(st, step), t)
  {
    var next := Apply(st, step);
    forall k
      ensures Owner(next, k) == Some(t) || Owner(next, k) == Owner(origin, k)
      ensures Owner(next, k) == Some(t) ==> Owner(origin, k) == None && t in next.txns
    {
      OwnerChangesExactly(st, step, k);
    }
    forall u | u != t
      ensures TxnAt(next, u) == TxnAt(origin, u)
    {
      TransactionsAreTheirOwn(st, step, u);
    }
  }

  lemma {:induction false} RunsApart(origin: State, st: State, t: TxnId, steps: seq<Step>)
    requires Apart(origin, st, t)
    requires forall step | step in steps :: StepOf(step, t) && !step.Commit?
    ensures Apart(origin, Run(st, steps), t)
    decreases |steps|
  {
    hide Apart, Apply;
    if steps != [] {
      StaysApart(origin, st, t, steps[0]);
      RunsApart(origin, Apply(st, steps[0]), t, steps[1..]);
    }
  }

  /** Atomicity: a transaction that aborts leaves no trace, whatever it locked, counted and moved. */
  lemma AbortLeavesNoTrace(st: State, t: TxnId, steps: seq<Step>)
    requires t !in st.txns && forall k :: Owner(st, k) != Some(t)
    requires forall step | step in steps :: StepOf(step, t) && !step.Commit?
    ensures Apply(Run(st, steps), Abort(t)) == st
  {
    RunsApart(st, st, t, steps);
    var last := Run(st, steps);
    var next := Apply(last, Abort(t));
    forall k
      ensures Owner(next, k) == Owner(st, k)
    {
      OwnerChangesExactly(last, Abort(t), k);
    }
    assert next.locks == st.locks by {
      assert forall k :: (k in next.locks <==> Owner(next, k) != None) && (k in st.locks <==> Owner(st, k) != None);
    }
    forall u
      ensures TxnAt(next, u) == TxnAt(st, u)
    {
      TransactionsAreTheirOwn(last, Abort(t), u);
    }
    assert next.txns == st.txns by {
      assert forall u :: (u in next.txns <==> TxnAt(next, u) != None) && (u in st.txns <==> TxnAt(st, u) != None);
    }
  }

  /** A commit differs from an abort in the rows alone: each move becomes a row in flight, no other changes. */
  lemma CommitIsAbortWithItsMoves(st: State, t: TxnId)
    requires t in st.txns
    ensures var next := Apply(st, Commit(t));
      && next == Apply(st, Abort(t)).(rows := next.rows)
      && next.rows.Keys == st.rows.Keys + st.txns[t].grants.Keys
      && forall a | a in next.rows ::
           next.rows[a] == if a in st.txns[t].grants then Row(st.txns[t].grants[a], true) else st.rows[a]
  {
    CommittedRows(st, t);
  }
}
